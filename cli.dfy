/** The string-level pieces of the build plugins and of the command line entry
    point in dist/cli.mjs: which paths count as JavaScript (line 436), the mode
    a written file gets (lines 465-475), where a transpiled file goes (lines
    484-492), and which command messages each `cmd` sends (lines 586-599). */
module Cli {
  import opened JsValue

  predicate StartsWith(s: string, prefix: string) {
    |prefix| <= |s| && s[..|prefix|] == prefix
  }

  predicate EndsWith(s: string, suffix: string) {
    |suffix| <= |s| && s[|s| - |suffix|..] == suffix
  }

  // ----- isJsPath (dist/cli.mjs:436) -----

  /** The length of the part of p that `\.(mjs|js)x?$` matches, or 0 when it
      does not match: an optional final `x`, before it `.js` or `.mjs`. */
  function JsExt(p: string): (n: nat)
    ensures n <= |p| && (n == 0 || 3 <= n <= 5)
    ensures n != 0 ==> p[|p| - n] == '.'
  {
    var x := if |p| > 0 && p[|p| - 1] == 'x' then 1 else 0;
    var m := |p| - x;
    if m >= 3 && p[m - 3] == '.' && p[m - 2] == 'j' && p[m - 1] == 's' then 3 + x
    else if m >= 4 && p[m - 4] == '.' && p[m - 3] == 'm' && p[m - 2] == 'j' && p[m - 1] == 's' then 4 + x
    else 0
  }

  /** `/\.(mjs|js)x?$/.test(path)`: the path ends in `.js`, `.jsx`, `.mjs` or `.mjsx`. */
  predicate IsJsPath(p: string) {
    JsExt(p) != 0
  }

  /** The extension a JavaScript path ends with. */
  function ExtLength(p: string): (n: nat)
    requires IsJsPath(p)
    ensures 3 <= n <= 5 && n <= |p| && p[|p| - n] == '.'
  {
    JsExt(p)
  }

  /** The four extensions, spelt out. */
  lemma JsPathEndings(p: string)
    ensures IsJsPath(p) <==>
      EndsWith(p, ".js") || EndsWith(p, ".jsx") || EndsWith(p, ".mjs") || EndsWith(p, ".mjsx")
  {
  }

  // ----- writing (dist/cli.mjs:465-475) -----

  /** What the writing effect is given: the path, the text and the file mode. */
  datatype Job = Job(path: Value, text: string, mode: nat)

  /** `text.startsWith("#!") ? 493 : 420`. */
  function Mode(text: string): nat {
    if StartsWith(text, "#!") then 493 else 420
  }

  /** The file mode in octal: rwxr-xr-x (0o755) for a script with a shebang
      line, rw-r--r-- (0o644) otherwise; so every class may execute exactly
      when the text starts with `#!`, and the owner may always write. */
  lemma ModeBits(text: string)
    ensures Mode(text) / 64 == (if StartsWith(text, "#!") then 7 else 6)
    ensures (Mode(text) / 8) % 8 == (if StartsWith(text, "#!") then 5 else 4)
    ensures Mode(text) % 8 == (if StartsWith(text, "#!") then 5 else 4)
  {
  }

  /** `writing(input)`: a message with a path and a text that is neither persisted
      nor virtual gets written; `text.startsWith` throws on a text that is not a
      string, and objects carrying their own `startsWith` are not part of the model. */
  function Writing(input: Value): (r: Result<Option<Job>>)
    requires !IsNullish(input)
    ensures r.Ok? && r.value.Some? ==>
      Truthy(r.value.value.path) && Member(input, "text") == Str(r.value.value.text) &&
      (r.value.value.mode == 493 <==> StartsWith(r.value.value.text, "#!"))
    ensures r.Ok? && r.value.Some? ==> !Truthy(Member(input, "persisted")) && !Truthy(Member(input, "virtual"))
    ensures (!Truthy(Member(input, "persisted")) && !Truthy(Member(input, "virtual")) &&
             Truthy(Member(input, "path")) && Member(input, "text").Str?) ==>
      r == Ok(Some(Job(Member(input, "path"), Member(input, "text").s, Mode(Member(input, "text").s))))
  {
    var text := Member(input, "text");
    if Truthy(Member(input, "persisted")) || Truthy(Member(input, "virtual")) then Ok(None)
    else if !Truthy(Member(input, "path")) || IsNullish(text) then Ok(None)
    else if text.Str? then Ok(Some(Job(Member(input, "path"), text.s, Mode(text.s))))
    else if text.Opaque? || (text.Obj? && !IsNullish(Member(text, "startsWith"))) then Err(Unsupported)
    else Err(TypeError)
  }

  // ----- transpiling (dist/cli.mjs:484-492) -----

  /** A character that `.` in a regular expression without the `s` flag matches. */
  predicate LineChar(c: char) {
    c != '\n' && c != '\r' && c != '\U{2028}' && c != '\U{2029}'
  }

  /** What `.+\.(mjs|js)x?$` matches: at least one character of a single line, then the extension. */
  predicate SrcTail(t: string) {
    IsJsPath(t) && |t| > ExtLength(t) && forall j :: 0 <= j < |t| ==> LineChar(t[j])
  }

  /** `/\/src\/.+\.(mjs|js)x?$/.test(path)`. */
  predicate Transpilable(p: string) {
    exists i :: 0 <= i <= |p| && OccursAt(p, SrcDir, i) && SrcTail(p[i + 5..])
  }

  /** `\w`. */
  predicate WordChar(c: char) {
    'a' <= c <= 'z' || 'A' <= c <= 'Z' || '0' <= c <= '9' || c == '_'
  }

  /** The number of word characters the path ends with. */
  function WordSuffix(p: string): (n: nat)
    ensures n <= |p|
    ensures forall j :: |p| - n <= j < |p| ==> WordChar(p[j])
    ensures n < |p| ==> !WordChar(p[|p| - n - 1])
  {
    if p == [] || !WordChar(p[|p| - 1]) then 0 else 1 + WordSuffix(p[..|p| - 1])
  }

  /** `p.replace(/\.(\w+)$/, ext)`: the only place `\.\w+$` can match is the dot
      before the word characters the path ends with. */
  function ReplaceExt(p: string, ext: string): string {
    var n := WordSuffix(p);
    if 0 < n < |p| && p[|p| - n - 1] == '.' then p[..|p| - n - 1] + ext else p
  }

  /** `pat` occurs in `s` starting at position j. */
  predicate OccursAt(s: string, pat: string, j: int) {
    0 <= j && j + |pat| <= |s| && s[j..j + |pat|] == pat
  }

  /** Where `pat` first occurs in `s` at or after `from`. */
  function FindFrom(s: string, pat: string, from: nat): (r: Option<nat>)
    requires from <= |s|
    ensures r.Some? ==> from <= r.value && OccursAt(s, pat, r.value)
    ensures r.Some? ==> forall j :: from <= j < r.value ==> !OccursAt(s, pat, j)
    ensures r.None? ==> forall j :: from <= j ==> !OccursAt(s, pat, j)
    decreases |s| - from
  {
    if from + |pat| > |s| then None
    else if s[from..from + |pat|] == pat then Some(from)
    else FindFrom(s, pat, from + 1)
  }

  /** A position where `pat` occurs with no occurrence before it is the first. */
  lemma FirstOccurrence(s: string, pat: string, k: nat)
    requires OccursAt(s, pat, k)
    requires forall j :: 0 <= j < k ==> !OccursAt(s, pat, j)
    ensures FindFrom(s, pat, 0) == Some(k)
  {
    var r := FindFrom(s, pat, 0);
    assert r.Some? && !(r.value < k) && !(k < r.value);
  }

  /** `s.replace(pat, rep)` with a string pattern: the first occurrence only. */
  function ReplaceFirst(s: string, pat: string, rep: string): string {
    match FindFrom(s, pat, 0)
    case None => s
    case Some(k) => s[..k] + rep + s[k + |pat|..]
  }

  /** The source directory and the build directory as line 492 names them. */
  const SrcDir := "/src/"
  const BuildDir := "/.localhack/build/"
  const Mjs := ".mjs"

  /** The output path as written on line 492. */
  function Transpiled(p: string): string {
    ReplaceFirst(ReplaceExt(p, Mjs), SrcDir, BuildDir)
  }

  /** The extension rewrite on a JavaScript path swaps just its extension. */
  lemma ReplaceJsExt(p: string, ext: string, n: nat)
    requires IsJsPath(p) && n == |p| - ExtLength(p)
    ensures ReplaceExt(p, ext) == p[..n] + ext
  {
    assert forall j :: n < j < |p| ==> WordChar(p[j]);
    assert WordSuffix(p) == |p| - n - 1;
  }

  /** Strings that agree up to n agree on every slice before n. */
  lemma {:induction false} SliceInCommonPrefix(s: string, s': string, n: nat, a: nat, b: nat)
    requires a <= b <= n <= |s| && n <= |s'| && s[..n] == s'[..n]
    ensures s[a..b] == s'[a..b]
  {
    forall i | a <= i < b ensures s[i] == s'[i] {
      assert s[i] == s[..n][i] && s'[i] == s'[..n][i];
    }
  }

  /** Two strings that agree up to n, past the first occurrence in one, have it there in both. */
  lemma {:induction false} FindInCommonPrefix(s: string, s': string, pat: string, k: nat, n: nat)
    requires FindFrom(s, pat, 0) == Some(k)
    requires k + |pat| <= n <= |s| && n <= |s'| && s[..n] == s'[..n]
    ensures FindFrom(s', pat, 0) == Some(k)
  {
    SliceInCommonPrefix(s, s', n, k, k + |pat|);
    forall j | 0 <= j < k ensures !OccursAt(s', pat, j) {
      assert !OccursAt(s, pat, j);
      SliceInCommonPrefix(s, s', n, j, j + |pat|);
    }
    FirstOccurrence(s', pat, k);
  }

  /** A tail the guard accepts carries the path's own extension. */
  lemma SuffixExt(p: string, d: nat)
    requires d <= |p| && SrcTail(p[d..])
    ensures IsJsPath(p) && ExtLength(p) == ExtLength(p[d..])
  {
    var t := p[d..];
    var e := ExtLength(t);
    assert p[|p| - e..] == t[|t| - e..];
    assert p[|p| - e - 1] == t[|t| - e - 1];
  }

  /** Where the guard matched, the first `/src/` of the path lies before its extension. */
  lemma FirstSrc(p: string)
    requires Transpilable(p)
    ensures IsJsPath(p) && FindFrom(p, SrcDir, 0).Some?
    ensures FindFrom(p, SrcDir, 0).value + 5 < |p| - ExtLength(p)
  {
    var i :| 0 <= i <= |p| && OccursAt(p, SrcDir, i) && SrcTail(p[i + 5..]);
    SuffixExt(p, i + 5);
    var r := FindFrom(p, SrcDir, 0);
    assert r.Some? && r.value <= i;
  }

  /** A path ending in `.mjs` is a JavaScript path. */
  lemma MjsIsJs(x: string)
    ensures IsJsPath(x + Mjs) && EndsWith(x + Mjs, Mjs)
  {
    var r := x + Mjs;
    assert r[|r| - 4..] == Mjs;
  }

  /** Cutting a string after its first occurrence of a pattern and adding a
      tail keeps that occurrence first, so `replace` swaps it there. */
  lemma {:induction false} ReplaceFirstKept(p: string, n: nat, tail: string, pat: string, rep: string, k: nat, len: nat)
    requires len == |pat|
    requires FindFrom(p, pat, 0) == Some(k) && k + len <= n <= |p|
    ensures ReplaceFirst(p[..n] + tail, pat, rep) == (p[..k] + rep + p[k + len..n]) + tail
  {
    var base := p[..n];
    var q := base + tail;
    assert q[..n] == base == p[..n];
    FindInCommonPrefix(p, q, pat, k, n);
    assert q[..k] == p[..k];
    var mid := p[k + len..n];
    assert q[k + len..] == mid + tail;
    assert ReplaceFirst(q, pat, rep) == p[..k] + rep + (mid + tail);
    assert p[..k] + rep + (mid + tail) == (p[..k] + rep + mid) + tail;
  }

  /** Line 492 on a JavaScript path whose first `/src/` lies before its extension. */
  lemma TranspiledShape(p: string, k: nat, n: nat)
    requires IsJsPath(p) && n == |p| - ExtLength(p)
    requires FindFrom(p, SrcDir, 0) == Some(k) && k + 5 <= n
    ensures Transpiled(p) == (p[..k] + BuildDir + p[k + 5..n]) + Mjs
  {
    ReplaceJsExt(p, Mjs, n);
    ReplaceFirstKept(p, n, Mjs, SrcDir, BuildDir, k, 5);
    TranspiledSteps(p, n, (p[..k] + BuildDir + p[k + 5..n]) + Mjs);
  }

  /** Line 492 as its two rewrites in turn, for a path whose extension is known. */
  lemma TranspiledSteps(p: string, n: nat, x: string)
    requires n <= |p| && ReplaceExt(p, Mjs) == p[..n] + Mjs
    requires ReplaceFirst(p[..n] + Mjs, SrcDir, BuildDir) == x
    ensures Transpiled(p) == x
  {
  }

  /** Line 492 on a path the guard accepts: the extension becomes `.mjs` and
      the FIRST `/src/` of the whole path becomes `/.localhack/build/`. */
  lemma TranspiledPath(p: string)
    requires Transpilable(p)
    ensures IsJsPath(Transpiled(p)) && EndsWith(Transpiled(p), Mjs)
  {
    FirstSrc(p);
    var k := FindFrom(p, SrcDir, 0).value;
    var n := |p| - ExtLength(p);
    TranspiledShape(p, k, n);
    MjsIsJs(p[..k] + BuildDir + p[k + 5..n]);
  }

  /** Where the two `/src/` of the example path lie. */
  lemma EscapingPathSrcs(p: string)
    requires p == "/home/u/src/app/src/main.js"
    ensures |p| == 27 && OccursAt(p, SrcDir, 7) && OccursAt(p, SrcDir, 15)
  {
    assert p[7..12] == SrcDir by {
      forall i | 0 <= i < 5 ensures p[7..12][i] == SrcDir[i] {
        assert p[7..12][i] == p[7 + i];
      }
    }
    assert p[15..20] == SrcDir by {
      forall i | 0 <= i < 5 ensures p[15..20][i] == SrcDir[i] {
        assert p[15..20][i] == p[15 + i];
      }
    }
  }

  /** No `/src/` starts inside `/home/u`. */
  lemma EscapingPathHome(p: string)
    requires p == "/home/u/src/app/src/main.js"
    ensures forall j :: 0 <= j < 7 ==> !OccursAt(p, SrcDir, j)
  {
    forall j | 0 <= j < 7 ensures !OccursAt(p, SrcDir, j) {
      assert p[j + 1] != 's';
      assert p[j..j + 5][1] == p[j + 1];
    }
  }

  /** The file name after the inner `/src/` is a JavaScript file. */
  lemma MainIsSource(t: string)
    requires t == "main.js"
    ensures SrcTail(t)
  {
    assert JsExt(t) == 3;
  }

  /** The guard accepts the path of the example below, and its first `/src/`
      is the one at position 7, inside the directory above the project. */
  lemma EscapingPathAccepted(p: string)
    requires p == "/home/u/src/app/src/main.js"
    ensures Transpilable(p) && FindFrom(p, SrcDir, 0) == Some(7)
  {
    EscapingPathSrcs(p);
    var t := p[20..];
    assert t == "main.js" by {
      forall i | 0 <= i < 7 ensures t[i] == "main.js"[i] {
        assert t[i] == p[20 + i];
      }
    }
    MainIsSource(t);
    assert OccursAt(p, SrcDir, 15) && SrcTail(p[15 + 5..]);
    EscapingPathHome(p);
    FirstOccurrence(p, SrcDir, 7);
  }

  /** The pieces of the example path that line 492 keeps. */
  lemma EscapingPathParts(p: string)
    requires p == "/home/u/src/app/src/main.js"
    ensures |p| == 27 && p[..7] == "/home/u" && p[12..24] == "app/src/main"
  {
    assert p[..7] == "/home/u" by {
      forall i | 0 <= i < 7 ensures p[..7][i] == "/home/u"[i] {
        assert p[..7][i] == p[i];
      }
    }
    assert p[12..24] == "app/src/main" by {
      forall i | 0 <= i < 12 ensures p[12..24][i] == "app/src/main"[i] {
        assert p[12..24][i] == p[12 + i];
      }
    }
  }

  lemma EscapedOutput(out: string)
    requires out == "/home/u/.localhack/build/app/src/main.mjs"
    ensures ("/home/u" + BuildDir + "app/src/main") + Mjs == out
  {
    var a := "/home/u" + BuildDir;
    assert a == "/home/u/.localhack/build/";
    var b := a + "app/src/main";
    assert b == "/home/u/.localhack/build/app/src/main";
  }

  /** That output lies outside the project's own build directory. */
  lemma EscapedOutside(out: string)
    requires out == "/home/u/.localhack/build/app/src/main.mjs"
    ensures !StartsWith(out, "/home/u/src/app/.localhack/build/")
  {
    var wanted := "/home/u/src/app/.localhack/build/";
    assert out[8] != wanted[8];
  }

  /** A project under a directory that itself has a `src` component: the source
      file `/home/u/src/app/src/main.js` is written to
      `/home/u/.localhack/build/app/src/main.mjs`, outside the project's
      `.localhack/build` directory. */
  lemma TranspiledEscapesRoot(p: string)
    requires p == "/home/u/src/app/src/main.js"
    ensures Transpilable(p)
    ensures Transpiled(p) == "/home/u/.localhack/build/app/src/main.mjs"
    ensures !StartsWith(Transpiled(p), "/home/u/src/app/.localhack/build/")
  {
    EscapedOutput("/home/u/.localhack/build/app/src/main.mjs");
    EscapedOutside("/home/u/.localhack/build/app/src/main.mjs");
    EscapingPathParts(p);
    EscapingPathAccepted(p);
    TranspiledShape(p, 7, 24);
  }

  /** The output path line 492 evidently intends: the `src` directory of the
      project root (`root2("src")`, line 387) becomes its `.localhack/build`
      directory (line 390), whatever the root's own path holds. */
  function TranspiledUnder(root: string, p: string): string {
    if StartsWith(p, root + SrcDir) then root + Transpiled(p[|root|..]) else Transpiled(p)
  }

  /** Text in front of a JavaScript path leaves its extension alone. */
  lemma JsExtSuffix(a: string, b: string)
    requires IsJsPath(b)
    ensures IsJsPath(a + b) && ExtLength(a + b) == ExtLength(b)
  {
    var q := a + b;
    assert forall j :: |a| <= j < |q| ==> q[j] == b[j - |a|];
  }

  /** Line 492 on a path that starts with `/src/`. */
  lemma TranspiledFromSrc(rest: string)
    requires IsJsPath(rest)
    ensures Transpiled(SrcDir + rest) == (BuildDir + rest[..|rest| - ExtLength(rest)]) + Mjs
  {
    var s := SrcDir + rest;
    var stem := rest[..|rest| - ExtLength(rest)];
    JsExtSuffix(SrcDir, rest);
    var n := |s| - ExtLength(s);
    assert OccursAt(s, SrcDir, 0);
    FirstOccurrence(s, SrcDir, 0);
    TranspiledShape(s, 0, n);
    assert s[..0] == [] && s[5..n] == stem;
  }

  /** For every JavaScript file under the project's `src` directory the
      output mirrors its path under `.localhack/build`, with the extension `.mjs`. */
  lemma TranspiledUnderRoot(root: string, rest: string)
    requires IsJsPath(rest)
    ensures TranspiledUnder(root, root + SrcDir + rest) ==
      root + BuildDir + rest[..|rest| - ExtLength(rest)] + Mjs
  {
    var p := root + SrcDir + rest;
    var stem := rest[..|rest| - ExtLength(rest)];
    TranspiledFromSrc(rest);
    assert p[..|root| + 5] == root + SrcDir && p[|root|..] == SrcDir + rest;
    assert root + ((BuildDir + stem) + Mjs) == root + BuildDir + stem + Mjs;
  }

  /** Where the root has no `/src/` of its own (nor one straddling its end), the
      two agree. */
  lemma TranspiledAgrees(root: string, rest: string)
    requires IsJsPath(rest)
    requires forall j :: 0 <= j < |root| ==> !OccursAt(root + SrcDir + rest, SrcDir, j)
    ensures TranspiledUnder(root, root + SrcDir + rest) == Transpiled(root + SrcDir + rest)
  {
    var p := root + SrcDir + rest;
    var e := ExtLength(rest);
    var stem := rest[..|rest| - e];
    var n := |p| - e;
    assert p[..|root|] == root && p[|root| + 5..n] == stem;
    assert OccursAt(p, SrcDir, |root|);
    FirstOccurrence(p, SrcDir, |root|);
    JsExtSuffix(root + SrcDir, rest);
    TranspiledShape(p, |root|, n);
    TranspiledUnderRoot(root, rest);
  }

  /** `transpiling(input)`: a JavaScript source file under `src` with a text is
      given its output path; other messages get no transition. A number, a
      boolean or a plain object as the path turns into a string the guard
      refuses; how other objects turn into strings is not part of the model. */
  function Transpiling(root: string, input: Value): (r: Result<Option<string>>)
    requires !IsNullish(input)
    ensures var path := Member(input, "path");
      r.Ok? && r.value.Some? <==>
        path.Str? && Truthy(Member(input, "text")) && Transpilable(path.s)
    ensures r.Ok? && r.value.Some? ==> r.value.value == TranspiledUnder(root, Member(input, "path").s)
    ensures r.Err? ==> r.fault == Unsupported && Truthy(Member(input, "text"))
  {
    var path := Member(input, "path");
    if !Truthy(path) || !Truthy(Member(input, "text")) then Ok(None)
    else if path.Num? || path.Bool? || path.Obj? then Ok(None)
    else if !path.Str? then Err(Unsupported)
    else if !Transpilable(path.s) then Ok(None)
    else Ok(Some(TranspiledUnder(root, path.s)))
  }

  // ----- the cli switch (dist/cli.mjs:586-599) -----

  /** The command plugins the switch sends. */
  datatype Command = Usage | Build | Dist | Test | Watch | Ui

  /** The `cmd` each command answers to. */
  function CommandName(c: Command): Value {
    match c
    case Usage => Undefined
    case Build => Str("build")
    case Dist => Str("dist")
    case Test => Str("test")
    case Watch => Str("watch")
    case Ui => Str("ui")
  }

  /** `switch (input.cmd)`: the commands sent for a `cmd`, none for one it does not know. */
  function Route(cmd: Value): seq<Command> {
    if cmd == Undefined then [Usage]
    else if cmd == Str("build") then [Build]
    else if cmd == Str("dist") then [Build, Dist]
    else if cmd == Str("test") then [Test]
    else if cmd == Str("watch") then [Build, Watch]
    else if cmd == Str("ui") then [Build, Watch, Ui]
    else []
  }

  /** Every command is reached by its own name, as the last command sent, and
      everything but usage and test is preceded by a build. */
  lemma RouteReachesEveryCommand(c: Command)
    ensures |Route(CommandName(c))| >= 1 && Route(CommandName(c))[|Route(CommandName(c))| - 1] == c
    ensures c != Usage && c != Test ==> Route(CommandName(c))[0] == Build
  {
  }

  /** ... and only those names route anywhere: the last command sent names the `cmd`. */
  lemma RouteOnlyKnownNames(cmd: Value)
    requires Route(cmd) != []
    ensures CommandName(Route(cmd)[|Route(cmd)| - 1]) == cmd
    ensures forall i :: 0 <= i < |Route(cmd)| - 1 ==> Route(cmd)[i] in {Build, Watch}
  {
  }

  /** `"cmd" in input`: property lookup on plain objects, never found on other
      objects, a TypeError on primitives. */
  function HasCmd(input: Value): (r: Result<bool>)
    ensures input.Obj? ==> r == Ok(HasKey(input.props, "cmd"))
  {
    match input
    case Obj(ps) => Ok(HasKey(ps, "cmd"))
    case Arr(_) => Ok(false)
    case SetOf(_) => Ok(false)
    case MapOf(_, _) => Ok(false)
    case Fun(_) => Ok(false)
    case Opaque(_) => Err(Unsupported)
    case _ => Err(TypeError)
  }

  /** The transition `cli(input)` returns: the state records `cwd`, `cmd` and `args`. */
  function CliState(input: Value, state: Value): Result<Value>
    requires !IsNullish(input) && state.Obj?
  {
    match Write(state, "cwd", Member(input, "cwd"))
    case Err(e) => Err(e)
    case Ok(s1) =>
      match Write(s1, "cmd", Member(input, "cmd"))
      case Err(e) => Err(e)
      case Ok(s2) => Write(s2, "args", Member(input, "args"))
  }

  /** After the cli transition the state holds the message's `cwd`, `cmd` and
      `args`, and nothing else about it changes. */
  lemma CliStateRecords(input: Value, state: Value)
    requires !IsNullish(input) && state.Obj?
    ensures CliState(input, state).Ok?
    ensures var s := CliState(input, state).value;
      Member(s, "cwd") == Member(input, "cwd") && Member(s, "cmd") == Member(input, "cmd") &&
      Member(s, "args") == Member(input, "args") &&
      forall k :: k != "cwd" && k != "cmd" && k != "args" ==> Member(s, k) == Member(state, k)
  {
    var s1 := Write(state, "cwd", Member(input, "cwd")).value;
    WriteFrame(state, "cwd", Member(input, "cwd"));
    var s2 := Write(s1, "cmd", Member(input, "cmd")).value;
    WriteFrame(s1, "cmd", Member(input, "cmd"));
    WriteFrame(s2, "args", Member(input, "args"));
  }

  /** The whole `cli` plugin for one message: no transition without a `cmd`
      field; otherwise the new state and the commands its effect sends. */
  function Cli(input: Value, state: Value): (r: Result<Option<(Value, seq<Command>)>>)
    requires !IsNullish(input) && state.Obj?
    ensures input.Obj? ==> (r.Ok? && r.value.Some? <==> HasKey(input.props, "cmd"))
  {
    match HasCmd(input)
    case Err(e) => Err(e)
    case Ok(false) => Ok(None)
    case Ok(true) =>
      match CliState(input, state)
      case Err(e) => Err(e)
      case Ok(s) => Ok(Some((s, Route(Member(input, "cmd")))))
  }
}
