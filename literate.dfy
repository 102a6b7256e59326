/** The literate plugin of dist/cli.mjs (`tangle`, lines 407-430): the fenced
    code blocks of a parsed markdown file are grouped by their info string,
    and each group is sent as a virtual file next to the markdown file, with
    the info string as its extension and the blocks joined by a blank line. */
module Literate {
  import opened JsValue
  import opened Iter
  import Cli

  /** A markdown-it token of type `fence`. */
  predicate IsFence(t: Value) {
    Member(t, "type") == Str("fence")
  }

  /** The `code` dictionary: each info string with the contents of its fences,
      in the order the info strings were first met. */
  type Code = seq<(string, seq<Value>)>

  predicate DistinctInfos(code: Code) {
    forall i, j :: 0 <= i < j < |code| ==> code[i].0 != code[j].0
  }

  /** `code[info]`: the blocks under an info string, nothing when it has none. */
  function Blocks(code: Code, info: string): (bs: seq<Value>)
    ensures (forall i :: 0 <= i < |code| ==> code[i].0 != info) ==> bs == []
  {
    if code == [] then []
    else if code[0].0 == info then code[0].1
    else Blocks(code[1..], info)
  }

  /** `(code[info] ??= []).push(content)`: a known info string keeps its place
      and gains a block, a new one goes last with a single block. */
  function Push(code: Code, info: string, content: Value): (r: Code)
    ensures |r| == |code| || r == code + [(info, [content])]
  {
    if code == [] then [(info, [content])]
    else if code[0].0 == info then [(info, code[0].1 + [content])] + code[1..]
    else [code[0]] + Push(code[1..], info, content)
  }

  /** The first loop of `tangle` over the tokens `iter(markdown)` yields: the
      dictionary after the tokens of `ts`, or the fault of the first info
      string that cannot become a property key. */
  function Group(ts: seq<Value>): Result<Code> {
    if ts == [] then Ok([])
    else
      match Group(ts[..|ts| - 1])
      case Err(f) => Err(f)
      case Ok(code) =>
        var t := ts[|ts| - 1];
        if !IsFence(t) then Ok(code)
        else
          match PropKey(Member(t, "info"))
          case Err(f) => Err(f)
          case Ok(info) => Ok(Push(code, info, Member(t, "content")))
  }

  /** The reference: the contents of the fences whose info string is `info`, in order. */
  function Fences(ts: seq<Value>, info: string): seq<Value> {
    if ts == [] then []
    else
      var t := ts[|ts| - 1];
      Fences(ts[..|ts| - 1], info) +
        (if IsFence(t) && PropKey(Member(t, "info")) == Ok(info) then [Member(t, "content")] else [])
  }

  lemma {:induction false} PushBlocks(code: Code, info: string, content: Value, other: string)
    ensures Blocks(Push(code, info, content), other) ==
      if other == info then Blocks(code, info) + [content] else Blocks(code, other)
  {
    if code != [] && code[0].0 != info {
      PushBlocks(code[1..], info, content, other);
    }
  }

  lemma {:induction false} PushKeepsDistinct(code: Code, info: string, content: Value)
    requires DistinctInfos(code)
    ensures DistinctInfos(Push(code, info, content))
    ensures forall i :: 0 <= i < |code| ==> Push(code, info, content)[i].0 == code[i].0
  {
    var r := Push(code, info, content);
    if code == [] {
    } else if code[0].0 == info {
      forall i | 0 < i < |code| ensures r[i] == code[i] {
        assert r[i] == code[1..][i - 1];
      }
    } else {
      var tail := Push(code[1..], info, content);
      assert DistinctInfos(code[1..]) by {
        forall i, j | 0 <= i < j < |code[1..]| ensures code[1..][i].0 != code[1..][j].0 {
          assert code[1..][i] == code[i + 1] && code[1..][j] == code[j + 1];
        }
      }
      PushKeepsDistinct(code[1..], info, content);
      assert r == [code[0]] + tail;
      forall i | 0 < i < |code| ensures r[i].0 == code[i].0 {
        assert r[i] == tail[i - 1] && code[1..][i - 1] == code[i];
      }
      forall i | 0 < i < |r| ensures r[i].0 != r[0].0 {
        if i < |code| {
          assert r[i].0 == code[i].0;
        } else {
          assert tail == code[1..] + [(info, [content])];
        }
      }
      forall i, j | 0 < i < j < |r| ensures r[i].0 != r[j].0 {
        assert r[i] == tail[i - 1] && r[j] == tail[j - 1];
      }
    }
  }

  lemma {:induction false} PushNonEmpty(code: Code, info: string, content: Value)
    requires forall i :: 0 <= i < |code| ==> code[i].1 != []
    ensures forall i :: 0 <= i < |Push(code, info, content)| ==> Push(code, info, content)[i].1 != []
  {
    if code != [] && code[0].0 != info {
      PushNonEmpty(code[1..], info, content);
      assert Push(code, info, content)[1..] == Push(code[1..], info, content);
    }
  }

  /** What the first loop builds: every info string once, no empty group, and
      under each info string exactly the contents of its fences, in order; so
      an info string is in the dictionary exactly when some fence has it. */
  lemma {:induction false} GroupIsFences(ts: seq<Value>)
    requires Group(ts).Ok?
    ensures DistinctInfos(Group(ts).value)
    ensures forall i :: 0 <= i < |Group(ts).value| ==> Group(ts).value[i].1 != []
    ensures forall info :: Blocks(Group(ts).value, info) == Fences(ts, info)
  {
    if ts != [] {
      var pre := ts[..|ts| - 1];
      var t := ts[|ts| - 1];
      GroupIsFences(pre);
      var code := Group(pre).value;
      if IsFence(t) {
        var info := PropKey(Member(t, "info")).value;
        PushKeepsDistinct(code, info, Member(t, "content"));
        PushNonEmpty(code, info, Member(t, "content"));
        forall other ensures Blocks(Group(ts).value, other) == Fences(ts, other) {
          PushBlocks(code, info, Member(t, "content"), other);
        }
      }
    }
  }

  /** A group is in the dictionary exactly when its blocks are not empty. */
  lemma {:induction false} InCodeIffBlocks(code: Code, info: string)
    requires forall i :: 0 <= i < |code| ==> code[i].1 != []
    ensures (exists i :: 0 <= i < |code| && code[i].0 == info) <==> Blocks(code, info) != []
  {
    if code != [] && code[0].0 != info {
      InCodeIffBlocks(code[1..], info);
      if exists i :: 0 <= i < |code| && code[i].0 == info {
        var i :| 0 <= i < |code| && code[i].0 == info;
        assert code[1..][i - 1].0 == info;
      }
    }
  }

  /** A fault met while grouping a prefix is the fault of the whole loop. */
  lemma {:induction false} GroupErrSticks(ts: seq<Value>, n: nat)
    requires n <= |ts| && Group(ts[..n]).Err?
    ensures Group(ts) == Group(ts[..n])
  {
    if n < |ts| {
      var pre := ts[..|ts| - 1];
      assert pre[..n] == ts[..n];
      GroupErrSticks(pre, n);
    } else {
      assert ts[..n] == ts;
    }
  }

  /** The loop as the source runs it, on a mutable dictionary. */
  method GroupLoop(ts: seq<Value>) returns (r: Result<Code>)
    ensures r == Group(ts)
  {
    var code: Code := [];
    for i := 0 to |ts|
      invariant Group(ts[..i]) == Ok(code)
    {
      assert ts[..i + 1][..i] == ts[..i];
      var t := ts[i];
      if IsFence(t) {
        var key := PropKey(Member(t, "info"));
        if key.Err? {
          GroupErrSticks(ts, i + 1);
          return Err(key.fault);
        }
        code := Push(code, key.value, Member(t, "content"));
      }
    }
    assert ts[..|ts|] == ts;
    return Ok(code);
  }

  // ----- the messages -----

  /** The replacement string of `String.prototype.replace`, as section
      22.1.3.19.1 (GetSubstitution) of ECMAScript 2023 reads it for a pattern
      without capture groups: `$$` is a dollar sign, `$&` the matched text,
      `` $` `` the text before the match, `$'` the text after it, and every
      other character, a lone `$` included, stands for itself. */
  function Expand(rep: string, matched: string, before: string, after: string): string
    decreases |rep|
  {
    if rep == [] then []
    else if rep[0] == '$' && |rep| >= 2 && rep[1] == '$' then "$" + Expand(rep[2..], matched, before, after)
    else if rep[0] == '$' && |rep| >= 2 && rep[1] == '&' then matched + Expand(rep[2..], matched, before, after)
    else if rep[0] == '$' && |rep| >= 2 && rep[1] == '`' then before + Expand(rep[2..], matched, before, after)
    else if rep[0] == '$' && |rep| >= 2 && rep[1] == '\'' then after + Expand(rep[2..], matched, before, after)
    else [rep[0]] + Expand(rep[1..], matched, before, after)
  }

  /** A replacement without a dollar sign is inserted as it is. */
  lemma {:induction false} ExpandPlain(rep: string, matched: string, before: string, after: string)
    requires '$' !in rep
    ensures Expand(rep, matched, before, after) == rep
  {
    if rep != [] {
      assert '$' !in rep[1..];
      ExpandPlain(rep[1..], matched, before, after);
    }
  }

  /** `path.replace(/\.md$/, "." + ext)`: the regular expression matches only
      a final `.md`, so the text before it is the rest of the path and the
      text after it is empty. */
  function Retarget(path: string, ext: string): (r: string)
    ensures !Cli.EndsWith(path, ".md") ==> r == path
    ensures Cli.EndsWith(path, ".md") ==> |path| - 3 <= |r| && r[..|path| - 3] == path[..|path| - 3]
  {
    if Cli.EndsWith(path, ".md") then
      var prefix := path[..|path| - 3];
      var r := prefix + Expand("." + ext, ".md", prefix, "");
      assert r[..|prefix|] == prefix;
      r
    else path
  }

  /** An info string without a dollar sign turns `x.md` into `x.` plus the
      info string. */
  lemma RetargetPlain(path: string, ext: string)
    requires Cli.EndsWith(path, ".md") && '$' !in ext
    ensures Retarget(path, ext) == path[..|path| - 3] + "." + ext
    ensures Cli.EndsWith(Retarget(path, ext), "." + ext)
  {
    ExpandPlain("." + ext, ".md", path[..|path| - 3], "");
    var r := Retarget(path, ext);
    assert r[|r| - |"." + ext|..] == "." + ext;
  }

  /** The replacement `.` plus a two-character pattern, after `a`. */
  lemma PatternStep(pat: string, piece: string)
    requires |pat| == 2 && pat[0] == '$'
    requires pat[1] == '&' ==> piece == ".md"
    requires pat[1] == '`' ==> piece == "a"
    requires pat[1] == '$' ==> piece == "$"
    requires pat[1] == '\'' ==> piece == ""
    requires pat[1] in "&`$'"
    ensures Expand("." + pat, ".md", "a", "") == "." + piece
  {
    assert ("." + pat)[1..] == pat && pat[2..] == [];
    assert Expand(pat, ".md", "a", "") == piece + Expand([], ".md", "a", "");
    assert Expand("." + pat, ".md", "a", "") == "." + Expand(pat, ".md", "a", "");
  }

  /** An info string with a replacement pattern is expanded, not copied: a
      fence tagged `$&` in `a.md` lands in `a..md`, and one tagged `` $` ``
      in `a.a`. */
  lemma RetargetPatterns()
    ensures Retarget("a.md", "$&") == "a..md"
    ensures Retarget("a.md", "$`") == "a.a"
    ensures Retarget("a.md", "$$") == "a.$"
    ensures Retarget("a.md", "$'") == "a."
  {
    assert Cli.EndsWith("a.md", ".md") && "a.md"[..1] == "a";
    PatternStep("$&", ".md");
    PatternStep("$`", "a");
    PatternStep("$$", "$");
    PatternStep("$'", "");
  }

  /** What `Array.prototype.join` makes of one element: nothing for null and
      undefined; arrays and other objects are not part of the model. */
  function JoinPiece(v: Value): (r: Result<string>)
    ensures v.Str? ==> r == Ok(v.s)
    ensures IsNullish(v) ==> r == Ok("")
  {
    match v
    case Undefined => Ok("")
    case Null => Ok("")
    case Obj(_) => Ok("[object Object]")
    case Bool(_) => PropKey(v)
    case Num(_) => PropKey(v)
    case Str(s) => Ok(s)
    case _ => Err(Unsupported)
  }

  /** `blocks.join(sep)` once every element is a string. */
  function JoinText(xs: seq<string>, sep: string): string {
    if xs == [] then ""
    else if |xs| == 1 then xs[0]
    else JoinText(xs[..|xs| - 1], sep) + sep + xs[|xs| - 1]
  }

  /** The strings of a list of string values. */
  function Strings(vs: seq<Value>): (r: seq<string>)
    requires forall i :: 0 <= i < |vs| ==> vs[i].Str?
    ensures |r| == |vs| && forall i :: 0 <= i < |vs| ==> r[i] == vs[i].s
  {
    if vs == [] then [] else Strings(vs[..|vs| - 1]) + [vs[|vs| - 1].s]
  }

  /** `blocks.join(sep)`: each element turned into text in order, the first
      element that cannot be stops the join. */
  function Join(vs: seq<Value>, sep: string): (r: Result<string>)
    ensures r.Err? <==> exists i :: 0 <= i < |vs| && JoinPiece(vs[i]).Err?
  {
    if vs == [] then Ok("")
    else
      var pre := vs[..|vs| - 1];
      assert forall i :: 0 <= i < |pre| ==> pre[i] == vs[i];
      match Join(pre, sep)
      case Err(f) => Err(f)
      case Ok(s) =>
        match JoinPiece(vs[|vs| - 1])
        case Err(f) => Err(f)
        case Ok(x) => Ok(if |vs| == 1 then x else s + sep + x)
  }

  /** On string blocks the join is the texts with the separator between two. */
  lemma {:induction false} JoinStrings(vs: seq<Value>, sep: string)
    requires forall i :: 0 <= i < |vs| ==> vs[i].Str?
    ensures Join(vs, sep) == Ok(JoinText(Strings(vs), sep))
  {
    if vs != [] {
      var pre := vs[..|vs| - 1];
      JoinStrings(pre, sep);
      assert Strings(vs)[..|vs| - 1] == Strings(pre);
    }
  }

  /** Joining more blocks extends the text: the blocks are laid out one after the other. */
  lemma {:induction false} JoinTextPrefix(xs: seq<string>, sep: string, n: nat)
    requires 1 <= n <= |xs|
    ensures Cli.StartsWith(JoinText(xs, sep), JoinText(xs[..n], sep))
    decreases |xs|
  {
    if n < |xs| {
      var pre := xs[..|xs| - 1];
      assert pre[..n] == xs[..n];
      JoinTextPrefix(pre, sep, n);
      var a := JoinText(pre, sep);
      var b := JoinText(xs[..n], sep);
      assert JoinText(xs, sep) == a + sep + xs[|xs| - 1];
      assert (a + sep + xs[|xs| - 1])[..|b|] == a[..|b|];
    } else {
      assert xs[..n] == xs;
    }
  }

  /** The virtual file `{virtual: true, path, text}`. */
  function Virtual(path: string, text: string): Value {
    Obj([Prop("virtual", Bool(true)), Prop("path", Str(path)), Prop("text", Str(text))])
  }

  /** The message for one entry of the dictionary: `path.replace` throws on a
      path that is not a string (a String object is not part of the model). */
  function Message(path: Value, entry: (string, seq<Value>)): (r: Result<Value>)
    ensures path.Str? && Join(entry.1, "\n\n").Ok? ==>
      r == Ok(Virtual(Retarget(path.s, entry.0), Join(entry.1, "\n\n").value))
    ensures !path.Str? ==> r.Err?
  {
    if path.Opaque? then Err(Unsupported)
    else if !path.Str? then Err(TypeError)
    else
      match Join(entry.1, "\n\n")
      case Err(f) => Err(f)
      case Ok(text) => Ok(Virtual(Retarget(path.s, entry.0), text))
  }

  /** What an effect did: the messages it sent, then the fault it threw, if any. */
  datatype Outcome = Outcome(sent: seq<Value>, fault: Option<Fault>)

  /** The second loop of `tangle`: one message per entry, in order, until one throws. */
  function Emit(path: Value, code: Code): (o: Outcome)
    ensures o.fault.None? ==> |o.sent| == |code|
    ensures o.fault.Some? ==> |o.sent| < |code|
  {
    if code == [] then Outcome([], None)
    else
      match Message(path, code[0])
      case Err(f) => Outcome([], Some(f))
      case Ok(m) =>
        var rest := Emit(path, code[1..]);
        Outcome([m] + rest.sent, rest.fault)
  }

  /** Every message sent is the one for its entry; a fault stops at the entry that threw. */
  lemma {:induction false} EmitSends(path: Value, code: Code)
    ensures forall i :: 0 <= i < |Emit(path, code).sent| ==>
      Message(path, code[i]) == Ok(Emit(path, code).sent[i])
    ensures Emit(path, code).fault.Some? ==>
      Message(path, code[|Emit(path, code).sent|]).Err? &&
      Emit(path, code).fault == Some(Message(path, code[|Emit(path, code).sent|]).fault)
  {
    if code != [] && Message(path, code[0]).Ok? {
      EmitSends(path, code[1..]);
      var o := Emit(path, code);
      var rest := Emit(path, code[1..]);
      forall i | 0 < i < |o.sent| ensures Message(path, code[i]) == Ok(o.sent[i]) {
        assert o.sent[i] == rest.sent[i - 1] && code[i] == code[1..][i - 1];
      }
      if o.fault.Some? {
        assert |o.sent| == 1 + |rest.sent|;
        assert code[|o.sent|] == code[1..][|rest.sent|];
      }
    }
  }

  /** The second loop as the source runs it, sending as it goes. */
  method EmitLoop(path: Value, code: Code) returns (o: Outcome)
    ensures o == Emit(path, code)
  {
    var sent: seq<Value> := [];
    for i := 0 to |code|
      invariant Emit(path, code) == Outcome(sent + Emit(path, code[i..]).sent, Emit(path, code[i..]).fault)
    {
      assert code[i..][0] == code[i] && code[i..][1..] == code[i + 1..];
      var m := Message(path, code[i]);
      if m.Err? {
        return Outcome(sent, Some(m.fault));
      }
      assert sent + Emit(path, code[i..]).sent == (sent + [m.value]) + Emit(path, code[i + 1..]).sent;
      sent := sent + [m.value];
    }
    assert code[|code|..] == [];
    return Outcome(sent, None);
  }

  // ----- tangle (dist/cli.mjs:407-430) -----

  /** `tangle(input)`: no transition without a path or a markdown tree;
      otherwise the effect groups the fences and sends one virtual file per
      info string. A fault while grouping is thrown before anything is sent. */
  function Tangle(input: Value): (r: Option<Outcome>)
    requires !IsNullish(input)
    ensures r.Some? <==> Truthy(Member(input, "path")) && Truthy(Member(input, "markdown"))
    ensures r.Some? && Group(Flatten(Member(input, "markdown"))).Ok? ==>
      r.value == Emit(Member(input, "path"), Group(Flatten(Member(input, "markdown"))).value)
    ensures r.Some? && Group(Flatten(Member(input, "markdown"))).Err? ==>
      r.value == Outcome([], Some(Group(Flatten(Member(input, "markdown"))).fault))
  {
    var path := Member(input, "path");
    var markdown := Member(input, "markdown");
    if !Truthy(path) || !Truthy(markdown) then None
    else
      match Group(Flatten(markdown))
      case Err(f) => Some(Outcome([], Some(f)))
      case Ok(code) => Some(Emit(path, code))
  }

  /** The transition and its effect, run as the source runs them. */
  method TangleEffect(input: Value) returns (r: Option<Outcome>)
    requires !IsNullish(input)
    ensures r == Tangle(input)
  {
    var path := Member(input, "path");
    var markdown := Member(input, "markdown");
    if !Truthy(path) || !Truthy(markdown) {
      return None;
    }
    var code := GroupLoop(Flatten(markdown));
    if code.Err? {
      return Some(Outcome([], Some(code.fault)));
    }
    var o := EmitLoop(path, code.value);
    return Some(o);
  }

  /** For a markdown file whose fences all carry string contents, the effect
      sends, for each info string of the dictionary in turn, a virtual file whose
      path swaps `.md` for that info string and whose text is exactly the
      contents of the fences with that info string, joined by a blank line. */
  lemma TangleSendsFences(input: Value)
    requires !IsNullish(input)
    requires Member(input, "path").Str? && Member(input, "path").s != ""
    requires Truthy(Member(input, "markdown")) && Group(Flatten(Member(input, "markdown"))).Ok?
    requires forall t :: t in Flatten(Member(input, "markdown")) && IsFence(t) ==> Member(t, "content").Str?
    ensures var code := Group(Flatten(Member(input, "markdown"))).value;
      Tangle(input) == Some(Outcome(Tangle(input).value.sent, None)) &&
      |Tangle(input).value.sent| == |code| &&
      forall i :: 0 <= i < |code| ==>
        Fences(Flatten(Member(input, "markdown")), code[i].0) != [] &&
        Join(Fences(Flatten(Member(input, "markdown")), code[i].0), "\n\n").Ok? &&
        Tangle(input).value.sent[i] ==
          Virtual(Retarget(Member(input, "path").s, code[i].0),
                  Join(Fences(Flatten(Member(input, "markdown")), code[i].0), "\n\n").value)
  {
    var ts := Flatten(Member(input, "markdown"));
    var path := Member(input, "path");
    var code := Group(ts).value;
    GroupIsFences(ts);
    forall i | 0 <= i < |code| ensures Blocks(code, code[i].0) == code[i].1 {
      BlocksAt(code, i);
    }
    forall i | 0 <= i < |code| ensures Join(code[i].1, "\n\n").Ok? {
      FencesAreStrings(ts, code[i].0);
      JoinStrings(code[i].1, "\n\n");
    }
    EmitClean(path, code);
    EmitSends(path, code);
  }

  /** Under distinct info strings, the i-th group is what `code[info]` reads. */
  lemma {:induction false} BlocksAt(code: Code, i: int)
    requires DistinctInfos(code) && 0 <= i < |code|
    ensures Blocks(code, code[i].0) == code[i].1
  {
    if i > 0 {
      BlocksAt(code[1..], i - 1);
    }
  }

  /** The fence contents of a token list whose fences carry strings are strings. */
  lemma {:induction false} FencesAreStrings(ts: seq<Value>, info: string)
    requires forall t :: t in ts && IsFence(t) ==> Member(t, "content").Str?
    ensures forall j :: 0 <= j < |Fences(ts, info)| ==> Fences(ts, info)[j].Str?
  {
    if ts != [] {
      var pre := ts[..|ts| - 1];
      assert forall t :: t in pre ==> t in ts;
      FencesAreStrings(pre, info);
    }
  }

  /** With a string path and texts that join, nothing throws. */
  lemma {:induction false} EmitClean(path: Value, code: Code)
    requires path.Str?
    requires forall i :: 0 <= i < |code| ==> Join(code[i].1, "\n\n").Ok?
    ensures Emit(path, code).fault.None?
  {
    if code != [] {
      assert forall i :: 0 <= i < |code[1..]| ==> code[1..][i] == code[i + 1];
      EmitClean(path, code[1..]);
    }
  }
}
