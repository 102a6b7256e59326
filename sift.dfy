/** The sift message runtime of dist/cli.mjs:216-274: `root`, `make` and `sift`
    build a `send` function whose behaviour is the `next` handler installed by
    meta-plugins; `originalPlugin` runs every flattened atom of a send through
    the plugin chain (extensions on the message, transitions on the state,
    effects on `send`) inside one immer transaction, queues the sends made
    while it runs, and drains that queue one atom per transaction afterwards.

    JavaScript functions are values `Fun(id)`; what a call does is given by a
    World, which says for a function id, the role it is called in, and the
    message and state drafts it can see, what the call returns, how it
    leaves the two drafts, which sends it makes and whether it throws. */
module Sift {
  import opened JsValue
  import opened Iter

  /** The three steps of `runWith(plugins, input, state2, send2)`. */
  datatype Role = OnMessage | OnState | OnSender

  /** What one call of a plugin function does. */
  datatype Reply = Reply(msg: Value, state: Value, out: Value, sends: seq<seq<Value>>, threw: bool)

  type World = (nat, Role, Value, Value) -> Reply

  /** The drafts one atom is processed against, what has been sent so far in
      this transaction, and every call made, in order. */
  datatype Ctx = Ctx(msg: Value, state: Value, sent: seq<Value>, calls: seq<(Role, nat)>)

  /** A JavaScript exception aborts the transaction; the atoms queued by sends
      made before it are kept, because `send2.queue` is not part of a draft. */
  datatype Step<T> = Done(val: T) | Threw(sent: seq<Value>)

  // ----- apply / run / runWith (dist/cli.mjs:262-274) -----

  /** `.filter(isFunction)`: the functions among xs, in order. */
  function Functions(xs: seq<Value>): (ids: seq<nat>)
    ensures |ids| <= |xs|
  {
    if xs == [] then []
    else (if xs[0].Fun? then [xs[0].id] else []) + Functions(xs[1..])
  }

  lemma {:induction false} FunctionsSpec(xs: seq<Value>)
    ensures forall id :: id in Functions(xs) <==> Fun(id) in xs
  {
    if xs != [] {
      FunctionsSpec(xs[1..]);
      assert xs == [xs[0]] + xs[1..];
    }
  }

  lemma {:induction false} FunctionsAppend(a: seq<Value>, b: seq<Value>)
    ensures Functions(a + b) == Functions(a) + Functions(b)
  {
    if a == [] {
      assert a + b == b;
    } else {
      var ab := a + b;
      var h := if a[0].Fun? then [a[0].id] else [];
      assert ab[0] == a[0] && ab[1..] == a[1..] + b;
      FunctionsAppend(a[1..], b);
      assert Functions(ab) == h + Functions(a[1..] + b);
      assert Functions(a) == h + Functions(a[1..]);
    }
  }

  /** A draft can have its fields changed but never be replaced: a call's edit
      takes effect only where both the old and the new value are plain objects. */
  function Edited(was: Value, now: Value): (r: Value)
    ensures r == was || (was.Obj? && r.Obj?)
  {
    if was.Obj? && now.Obj? then now else was
  }

  /** Every send made while `sending` is true pushes the flattened atoms of its
      arguments onto the queue (dist/cli.mjs:238-242). */
  function Queued(sends: seq<seq<Value>>): (q: seq<Value>)
    ensures AllAtoms(q)
  {
    if sends == [] then [] else Queued(sends[..|sends| - 1]) + FlattenAll(sends[|sends| - 1])
  }

  /** `apply(fn, x)`: call fn, keep the functions among the flattened result. */
  function Apply(w: World, role: Role, f: nat, c: Ctx): (r: Step<(seq<nat>, Ctx)>)
  {
    var rep := w(f, role, c.msg, c.state);
    var sent := c.sent + Queued(rep.sends);
    if rep.threw then Threw(sent)
    else Done((Functions(Flatten(rep.out)),
               Ctx(Edited(c.msg, rep.msg), Edited(c.state, rep.state), sent, c.calls + [(role, f)])))
  }

  /** `run(fns, x)`: apply every function of the chain in order, concatenating
      what they keep. */
  function Run(w: World, role: Role, fns: seq<nat>, c: Ctx): Step<(seq<nat>, Ctx)>
  {
    if fns == [] then Done(([], c))
    else
      match Run(w, role, fns[..|fns| - 1], c)
      case Threw(s) => Threw(s)
      case Done(p) =>
        match Apply(w, role, fns[|fns| - 1], p.1)
        case Threw(s) => Threw(s)
        case Done(q) => Done((p.0 + q.0, q.1))
  }

  /** `runWith(fns, ...steps)`: the functions each step keeps are the chain of the next one. */
  function RunSteps(w: World, roles: seq<Role>, fns: seq<nat>, c: Ctx): Step<(seq<nat>, Ctx)>
  {
    if roles == [] then Done((fns, c))
    else
      match RunSteps(w, roles[..|roles| - 1], fns, c)
      case Threw(s) => Threw(s)
      case Done(p) => Run(w, roles[|roles| - 1], p.0, p.1)
  }

  const Phases: seq<Role> := [OnMessage, OnState, OnSender]

  /** `runWith(state2.plugins, input, state2, send2)`. */
  function RunWith(w: World, plugins: seq<nat>, c: Ctx): Step<(seq<nat>, Ctx)> {
    RunSteps(w, Phases, plugins, c)
  }

  method RunChain(w: World, role: Role, fns: seq<nat>, c: Ctx) returns (r: Step<(seq<nat>, Ctx)>)
    ensures r == Run(w, role, fns, c)
  {
    var out: seq<nat> := [];
    var ctx := c;
    for i := 0 to |fns|
      invariant Run(w, role, fns[..i], c) == Done((out, ctx))
    {
      assert fns[..i + 1][..i] == fns[..i];
      var step := Apply(w, role, fns[i], ctx);
      if step.Threw? {
        RunThrewSticks(w, role, fns, c, i + 1);
        return step;
      }
      out := out + step.val.0;
      ctx := step.val.1;
    }
    assert fns[..|fns|] == fns;
    return Done((out, ctx));
  }

  method RunStepsLoop(w: World, roles: seq<Role>, fns: seq<nat>, c: Ctx) returns (r: Step<(seq<nat>, Ctx)>)
    ensures r == RunSteps(w, roles, fns, c)
  {
    var fs := fns;
    var ctx := c;
    for i := 0 to |roles|
      invariant RunSteps(w, roles[..i], fns, c) == Done((fs, ctx))
    {
      assert roles[..i + 1][..i] == roles[..i];
      var step := RunChain(w, roles[i], fs, ctx);
      if step.Threw? {
        StepsThrewSticks(w, roles, fns, c, i + 1);
        return step;
      }
      fs, ctx := step.val.0, step.val.1;
    }
    assert roles[..|roles|] == roles;
    return Done((fs, ctx));
  }

  lemma {:induction false} RunThrewSticks(w: World, role: Role, fns: seq<nat>, c: Ctx, j: nat)
    requires j <= |fns| && Run(w, role, fns[..j], c).Threw?
    ensures Run(w, role, fns, c) == Run(w, role, fns[..j], c)
    decreases |fns|
  {
    if j < |fns| {
      var init := fns[..|fns| - 1];
      assert init[..j] == fns[..j];
      RunThrewSticks(w, role, init, c, j);
    } else {
      assert fns[..j] == fns;
    }
  }

  lemma {:induction false} StepsThrewSticks(w: World, roles: seq<Role>, fns: seq<nat>, c: Ctx, j: nat)
    requires j <= |roles| && RunSteps(w, roles[..j], fns, c).Threw?
    ensures RunSteps(w, roles, fns, c) == RunSteps(w, roles[..j], fns, c)
    decreases |roles|
  {
    if j < |roles| {
      var init := roles[..|roles| - 1];
      assert init[..j] == roles[..j];
      StepsThrewSticks(w, init, fns, c, j);
    } else {
      assert roles[..j] == roles;
    }
  }

  // ----- what run and runWith guarantee -----

  /** The calls a chain makes in one role: one per function, in chain order. */
  function RoleCalls(role: Role, fns: seq<nat>): (cs: seq<(Role, nat)>)
    ensures |cs| == |fns| && forall i :: 0 <= i < |fns| ==> cs[i] == (role, fns[i])
  {
    seq(|fns|, i requires 0 <= i < |fns| => (role, fns[i]))
  }

  /** `run` calls every function of the chain once, in order, and what it keeps
      is the concatenation of what each call kept. */
  lemma {:induction false} RunCallsEach(w: World, role: Role, fns: seq<nat>, c: Ctx)
    requires Run(w, role, fns, c).Done?
    ensures Run(w, role, fns, c).val.1.calls == c.calls + RoleCalls(role, fns)
    ensures |Run(w, role, fns, c).val.1.sent| >= |c.sent| && Run(w, role, fns, c).val.1.sent[..|c.sent|] == c.sent
  {
    if fns != [] {
      var init := fns[..|fns| - 1];
      RunCallsEach(w, role, init, c);
      assert RoleCalls(role, fns) == RoleCalls(role, init) + [(role, fns[|fns| - 1])];
    }
  }

  /** What the rest of a chain gives, after the part before it kept `pre`. */
  function Extend(pre: seq<nat>, s: Step<(seq<nat>, Ctx)>): Step<(seq<nat>, Ctx)> {
    match s
    case Threw(sent) => Threw(sent)
    case Done(q) => Done((pre + q.0, q.1))
  }

  /** Running a chain that ends in f: the chain before f, then f. */
  lemma RunLast(w: World, role: Role, init: seq<nat>, f: nat, c: Ctx)
    ensures Run(w, role, init + [f], c) ==
      match Run(w, role, init, c)
      case Threw(s) => Threw(s)
      case Done(p) => Extend(p.0, Apply(w, role, f, p.1))
  {
    var fns := init + [f];
    assert fns[..|fns| - 1] == init && fns[|fns| - 1] == f;
  }

  /** Running the chain a + b is running a, then b from where a left the drafts. */
  lemma {:induction false} RunAppend(w: World, role: Role, a: seq<nat>, b: seq<nat>, c: Ctx)
    requires Run(w, role, a, c).Done?
    ensures Run(w, role, a + b, c) == Extend(Run(w, role, a, c).val.0, Run(w, role, b, Run(w, role, a, c).val.1))
    decreases |b|
  {
    var pa := Run(w, role, a, c).val;
    if b == [] {
      assert a + b == a && pa.0 + [] == pa.0;
    } else {
      var binit := b[..|b| - 1];
      var f := b[|b| - 1];
      assert b == binit + [f];
      assert a + b == (a + binit) + [f];
      var rb := Run(w, role, binit, pa.1);
      if rb.Threw? {
        assert Run(w, role, a + binit, c) == rb by { RunAppend(w, role, a, binit, c); }
        assert Run(w, role, a + b, c) == rb by { RunLast(w, role, a + binit, f, c); }
        assert Run(w, role, b, pa.1) == rb by { RunLast(w, role, binit, f, pa.1); }
      } else {
        var q := rb.val;
        var x := Apply(w, role, f, q.1);
        assert Run(w, role, a + binit, c) == Done((pa.0 + q.0, q.1)) by { RunAppend(w, role, a, binit, c); }
        assert Run(w, role, a + b, c) == Extend(pa.0 + q.0, x) by { RunLast(w, role, a + binit, f, c); }
        assert Run(w, role, b, pa.1) == Extend(q.0, x) by { RunLast(w, role, binit, f, pa.1); }
        if x.Done? {
          assert pa.0 + q.0 + x.val.0 == pa.0 + (q.0 + x.val.0);
        }
      }
    }
  }

  /** Every call made by `runWith` in the message step precedes every call in
      the state step, which precedes every call in the send step: all of a
      message's transitions run before any of its effects, and exactly the
      functions the previous step kept are called. */
  lemma RunWithPhases(w: World, plugins: seq<nat>, c: Ctx)
    requires RunWith(w, plugins, c).Done?
    ensures Run(w, OnMessage, plugins, c).Done?
    ensures var m := Run(w, OnMessage, plugins, c).val; Run(w, OnState, m.0, m.1).Done?
    ensures
      var m := Run(w, OnMessage, plugins, c).val;
      var t := Run(w, OnState, m.0, m.1).val;
      RunWith(w, plugins, c).val.1.calls
        == c.calls + RoleCalls(OnMessage, plugins) + RoleCalls(OnState, m.0) + RoleCalls(OnSender, t.0)
  {
    assert Phases[..|Phases| - 1] == Phases[..2];
    assert RunSteps(w, Phases[..2], plugins, c).Done?;
    assert Phases[..2][..1] == Phases[..1] && Phases[..1][..0] == [];
    assert RunSteps(w, Phases[..1], plugins, c).Done?;
    var m := Run(w, OnMessage, plugins, c);
    assert RunSteps(w, Phases[..1], plugins, c) == m;
    var t := Run(w, OnState, m.val.0, m.val.1);
    assert RunSteps(w, Phases[..2], plugins, c) == t;
    RunCallsEach(w, OnMessage, plugins, c);
    RunCallsEach(w, OnState, m.val.0, m.val.1);
    RunCallsEach(w, OnSender, t.val.0, t.val.1);
  }

  function Rank(r: Role): nat {
    match r
    case OnMessage => 0
    case OnState => 1
    case OnSender => 2
  }

  /** From position n on, no call is in an earlier step than a call before it. */
  predicate PhasesInOrder(cs: seq<(Role, nat)>, n: nat) {
    forall i, j :: n <= i < j < |cs| ==> Rank(cs[i].0) <= Rank(cs[j].0)
  }

  /** The same ordering as a property of the trace alone. */
  lemma RunWithOrdered(w: World, plugins: seq<nat>, c: Ctx)
    requires RunWith(w, plugins, c).Done?
    ensures PhasesInOrder(RunWith(w, plugins, c).val.1.calls, |c.calls|)
  {
    RunWithPhases(w, plugins, c);
    var m := Run(w, OnMessage, plugins, c).val;
    var t := Run(w, OnState, m.0, m.1).val;
    var a, b, e := RoleCalls(OnMessage, plugins), RoleCalls(OnState, m.0), RoleCalls(OnSender, t.0);
    var n := |c.calls|;
    var cs := RunWith(w, plugins, c).val.1.calls;
    assert cs == c.calls + a + b + e;
    forall i | n <= i < |cs| ensures Rank(cs[i].0) == if i < n + |a| then 0 else if i < n + |a| + |b| then 1 else 2 {
      if i < n + |a| { assert cs[i] == a[i - n]; }
      else if i < n + |a| + |b| { assert cs[i] == b[i - n - |a|]; }
      else { assert cs[i] == e[i - n - |a| - |b|]; }
    }
  }

  /** A message that is not a plain object comes out of the chain unchanged;
      a plain object may have been edited but is still a plain object. */
  lemma {:induction false} RunKeepsMessageKind(w: World, role: Role, fns: seq<nat>, c: Ctx)
    requires Run(w, role, fns, c).Done?
    ensures var m := Run(w, role, fns, c).val.1.msg; m == c.msg || (c.msg.Obj? && m.Obj?)
  {
    if fns != [] {
      RunKeepsMessageKind(w, role, fns[..|fns| - 1], c);
    }
  }

  lemma {:induction false} StepsKeepMessageKind(w: World, roles: seq<Role>, fns: seq<nat>, c: Ctx)
    requires RunSteps(w, roles, fns, c).Done?
    ensures var m := RunSteps(w, roles, fns, c).val.1.msg; m == c.msg || (c.msg.Obj? && m.Obj?)
  {
    if roles != [] {
      var init := roles[..|roles| - 1];
      StepsKeepMessageKind(w, init, fns, c);
      var p := RunSteps(w, init, fns, c).val;
      RunKeepsMessageKind(w, roles[|roles| - 1], p.0, p.1);
    }
  }

  // ----- one transaction: the inner produce of dist/cli.mjs:246-253 -----

  /** The state draft, the chain `state2.plugins`, the messages as the chain left
      them, the atoms sent so far and the calls made so far. */
  datatype Draft = Draft(state: Value, plugins: seq<nat>, done: seq<Value>, sent: seq<Value>, calls: seq<(Role, nat)>)

  /** One atom: a function is pushed onto the chain first, then the whole chain
      runs on the atom. */
  function Feed(w: World, x: Value, d: Draft): Step<Draft> {
    var plugins := if x.Fun? then d.plugins + [x.id] else d.plugins;
    match RunWith(w, plugins, Ctx(x, d.state, d.sent, d.calls))
    case Threw(s) => Threw(s)
    case Done(p) => Done(Draft(p.1.state, plugins, d.done + [p.1.msg], p.1.sent, p.1.calls))
  }

  /** `for (const input of iter(inputs2)) …` over the flattened atoms. */
  function Process(w: World, atoms: seq<Value>, d: Draft): (r: Step<Draft>)
    ensures r.Done? ==> |r.val.done| == |d.done| + |atoms|
  {
    if atoms == [] then Done(d)
    else
      match Process(w, atoms[..|atoms| - 1], d)
      case Threw(s) => Threw(s)
      case Done(d1) => Feed(w, atoms[|atoms| - 1], d1)
  }

  method Transact(w: World, atoms: seq<Value>, d: Draft) returns (r: Step<Draft>)
    ensures r == Process(w, atoms, d)
  {
    var cur := d;
    for i := 0 to |atoms|
      invariant Process(w, atoms[..i], d) == Done(cur)
    {
      assert atoms[..i + 1][..i] == atoms[..i];
      var x := atoms[i];
      var plugins := cur.plugins;
      if x.Fun? {
        plugins := plugins + [x.id];
      }
      var run := RunStepsLoop(w, Phases, plugins, Ctx(x, cur.state, cur.sent, cur.calls));
      if run.Threw? {
        ProcessThrewSticks(w, atoms, d, i + 1);
        return Threw(run.sent);
      }
      var c := run.val.1;
      cur := Draft(c.state, plugins, cur.done + [c.msg], c.sent, c.calls);
    }
    assert atoms[..|atoms|] == atoms;
    return Done(cur);
  }

  lemma {:induction false} ProcessThrewSticks(w: World, atoms: seq<Value>, d: Draft, j: nat)
    requires j <= |atoms| && Process(w, atoms[..j], d).Threw?
    ensures Process(w, atoms, d) == Process(w, atoms[..j], d)
    decreases |atoms|
  {
    if j < |atoms| {
      var init := atoms[..|atoms| - 1];
      assert init[..j] == atoms[..j];
      ProcessThrewSticks(w, init, d, j);
    } else {
      assert atoms[..j] == atoms;
    }
  }

  /** `state2.plugins` only grows, by exactly the function atoms, in order. */
  lemma {:induction false} ProcessPlugins(w: World, atoms: seq<Value>, d: Draft)
    requires Process(w, atoms, d).Done?
    ensures Process(w, atoms, d).val.plugins == d.plugins + Functions(atoms)
  {
    if atoms != [] {
      var init := atoms[..|atoms| - 1];
      var x := atoms[|atoms| - 1];
      ProcessPlugins(w, init, d);
      assert atoms == init + [x];
      FunctionsAppend(init, [x]);
    }
  }

  /** A function atom is on the chain before the chain runs on it: the first
      calls made for an atom are the whole chain, the atom itself last,
      applied to the atom. */
  lemma FeedRunsChainWithAtom(w: World, x: Value, d: Draft)
    requires Feed(w, x, d).Done?
    ensures var plugins := if x.Fun? then d.plugins + [x.id] else d.plugins;
      var cs := Feed(w, x, d).val.calls;
      |cs| >= |d.calls| + |plugins| && cs[|d.calls|..|d.calls| + |plugins|] == RoleCalls(OnMessage, plugins)
  {
    var plugins := if x.Fun? then d.plugins + [x.id] else d.plugins;
    RunWithPhases(w, plugins, Ctx(x, d.state, d.sent, d.calls));
  }

  /** The messages as the chain left them: each atom in its place, unchanged
      unless it is a plain object, which stays one. */
  lemma {:induction false} ProcessDone(w: World, atoms: seq<Value>, d: Draft)
    requires Process(w, atoms, d).Done?
    ensures var done := Process(w, atoms, d).val.done;
      done[..|d.done|] == d.done &&
      forall i :: 0 <= i < |atoms| ==>
        done[|d.done| + i] == atoms[i] || (atoms[i].Obj? && done[|d.done| + i].Obj?)
  {
    if atoms != [] {
      var init := atoms[..|atoms| - 1];
      var x := atoms[|atoms| - 1];
      ProcessDone(w, init, d);
      var d1 := Process(w, init, d).val;
      var plugins := if x.Fun? then d1.plugins + [x.id] else d1.plugins;
      StepsKeepMessageKind(w, Phases, plugins, Ctx(x, d1.state, d1.sent, d1.calls));
      var done := Process(w, atoms, d).val.done;
      forall i | 0 <= i < |atoms|
        ensures done[|d.done| + i] == atoms[i] || (atoms[i].Obj? && done[|d.done| + i].Obj?)
      {
        if i < |init| {
          assert atoms[i] == init[i];
          assert done[|d.done| + i] == d1.done[|d.done| + i];
        }
      }
    }
  }

  // ----- send2 and its fields (dist/cli.mjs:216-261) -----

  /** `send2.next`: root's no-op, the handler `originalPlugin` returns, or any
      other truthy value a meta-plugin returned (a non-function throws when
      called; a foreign function is not part of the model). */
  datatype Handler = Noop | Original | Foreign(v: Value)

  /** A meta-plugin, known by what it returns when given `send2`. */
  datatype MetaPlugin = OriginalPlugin | Returns(v: Value)

  /** The fields of `send2`; `plugins` is `send2.state.plugins`, kept apart from
      the rest of the state, and an absent queue is an empty one. */
  datatype Machine = Machine(next: Handler, sending: bool, queue: seq<Value>, state: Value, plugins: seq<nat>)

  /** What `root()` sets up. */
  function Root(): Machine {
    Machine(Noop, false, [], Undefined, [])
  }

  predicate Installs(p: MetaPlugin) {
    p.OriginalPlugin? || Truthy(p.v)
  }

  function HandlerOf(p: MetaPlugin): Handler
    requires Installs(p)
  {
    if p.OriginalPlugin? then Original else Foreign(p.v)
  }

  /** `send2.next = fn(send2) || send2.next` for each meta-plugin in turn. */
  function Installed(h: Handler, metas: seq<MetaPlugin>): Handler {
    if metas == [] then h
    else
      var p := metas[|metas| - 1];
      if Installs(p) then HandlerOf(p) else Installed(h, metas[..|metas| - 1])
  }

  /** The last meta-plugin that returns something truthy decides `next`... */
  lemma {:induction false} InstalledLastWins(h: Handler, metas: seq<MetaPlugin>, i: nat)
    requires i < |metas| && Installs(metas[i])
    requires forall j :: i < j < |metas| ==> !Installs(metas[j])
    ensures Installed(h, metas) == HandlerOf(metas[i])
  {
    if i < |metas| - 1 {
      var init := metas[..|metas| - 1];
      assert init[i] == metas[i];
      forall j | i < j < |init| ensures !Installs(init[j]) {
        assert init[j] == metas[j];
      }
      InstalledLastWins(h, init, i);
    }
  }

  /** ... and if none does, `next` is what it was. */
  lemma {:induction false} InstalledNone(h: Handler, metas: seq<MetaPlugin>)
    requires forall i :: 0 <= i < |metas| ==> !Installs(metas[i])
    ensures Installed(h, metas) == h
  {
    if metas != [] {
      var init := metas[..|metas| - 1];
      forall j | 0 <= j < |init| ensures !Installs(init[j]) {
        assert init[j] == metas[j];
      }
      InstalledNone(h, init);
    }
  }

  /** `make(...metaPlugins)`. */
  function Make(metas: seq<MetaPlugin>): Machine {
    Root().(next := Installed(Noop, metas))
  }

  /** What a transaction that completes or throws leaves behind: `send2.state`
      is replaced only when the inner produce completes, and a throw leaves
      `sending` at true (the reset after the produce is never reached). */
  function Transaction(w: World, m: Machine, inputs: seq<Value>): (r: (Machine, Result<Value>))
  {
    var st := if IsNullish(m.state) then Obj([]) else m.state;
    match Process(w, FlattenAll(inputs), Draft(st, m.plugins, [], [], []))
    case Threw(s) => (m.(sending := true, state := st, queue := m.queue + s), Err(Thrown))
    case Done(d) =>
      (m.(state := d.state, plugins := d.plugins, queue := m.queue + d.sent),
       Ok(Refill(Arr(inputs), d.done)))
  }

  /** `send2(...inputs)`. A completed transaction shifts one atom off the queue
      and, if it is truthy, sends it on its own, which drains the queue one
      atom per transaction; fuel bounds how many such resends are followed. */
  function Dispatch(w: World, m: Machine, inputs: seq<Value>, fuel: nat): (r: (Machine, Result<Value>))
    decreases fuel
  {
    match m.next
    case Noop => (m, Ok(Undefined))
    case Foreign(v) => (m, Err(if v.Fun? then Unsupported else TypeError))
    case Original =>
      if m.sending then (m.(queue := m.queue + FlattenAll(inputs)), Ok(Arr(inputs)))
      else
        var (m2, res) := Transaction(w, m, inputs);
        if res.Err? then (m2, res)
        else if m2.queue == [] then (m2, res)
        else if !Truthy(m2.queue[0]) then (m2.(queue := m2.queue[1..]), res)
        else if fuel == 0 then (m2, Err(OutOfFuel))
        else
          var (m3, res3) := Dispatch(w, m2.(queue := m2.queue[1..]), [m2.queue[0]], fuel - 1);
          (m3, if res3.Err? then res3 else res)
  }

  /** `sift(...inputs)`: a dispatcher made with `originalPlugin`, sent the inputs. */
  function SiftSpec(w: World, inputs: seq<Value>, fuel: nat): Machine {
    Dispatch(w, Make([OriginalPlugin]), inputs, fuel).0
  }

  // ----- the dispatcher as an object whose fields change -----

  class Dispatcher {
    var next: Handler
    var sending: bool
    var queue: seq<Value>
    var state: Value
    var plugins: seq<nat>

    function Snapshot(): Machine
      reads this
    {
      Machine(next, sending, queue, state, plugins)
    }

    /** `root()`. */
    constructor ()
      ensures Snapshot() == Root()
    {
      next, sending, queue, state, plugins := Noop, false, [], Undefined, [];
    }

    /** `send2.meta(...fns)`. */
    method Meta(metas: seq<MetaPlugin>)
      modifies this
      ensures Snapshot() == old(Snapshot()).(next := Installed(old(next), metas))
    {
      for i := 0 to |metas|
        invariant Snapshot() == old(Snapshot()).(next := Installed(old(next), metas[..i]))
      {
        assert metas[..i + 1][..i] == metas[..i];
        var p := metas[i];
        match p {
          case OriginalPlugin => next := Original;
          case Returns(v) => if Truthy(v) { next := Foreign(v); }
        }
      }
      assert metas[..|metas|] == metas;
    }

    /** `send2(...inputs)`. */
    method Send(w: World, inputs: seq<Value>, fuel: nat) returns (r: Result<Value>)
      modifies this
      ensures (Snapshot(), r) == Dispatch(w, old(Snapshot()), inputs, fuel)
      decreases fuel
    {
      match next {
        case Noop => return Ok(Undefined);
        case Foreign(v) => return Err(if v.Fun? then Unsupported else TypeError);
        case Original =>
      }
      if sending {
        queue := queue + FlattenAll(inputs);
        return Ok(Arr(inputs));
      }
      sending := true;
      if IsNullish(state) {
        state := Obj([]);
      }
      var t := Transact(w, FlattenAll(inputs), Draft(state, plugins, [], [], []));
      if t.Threw? {
        queue := queue + t.sent;
        return Err(Thrown);
      }
      state, plugins, queue := t.val.state, t.val.plugins, queue + t.val.sent;
      sending := false;
      var result := Refill(Arr(inputs), t.val.done);
      if queue == [] {
        return Ok(result);
      }
      var queued := queue[0];
      if !Truthy(queued) {
        queue := queue[1..];
        return Ok(result);
      }
      if fuel == 0 {
        return Err(OutOfFuel);
      }
      queue := queue[1..];
      var again := Send(w, [queued], fuel - 1);
      r := if again.Err? then again else Ok(result);
    }
  }

  /** `make(...metaPlugins)`. */
  method MakeDispatcher(metas: seq<MetaPlugin>) returns (d: Dispatcher)
    ensures fresh(d) && d.Snapshot() == Make(metas)
  {
    d := new Dispatcher();
    d.Meta(metas);
  }

  /** `sift(...inputs)`. */
  method NewSift(w: World, inputs: seq<Value>, fuel: nat) returns (d: Dispatcher)
    ensures fresh(d) && d.Snapshot() == SiftSpec(w, inputs, fuel)
  {
    d := MakeDispatcher([OriginalPlugin]);
    var _ := d.Send(w, inputs, fuel);
  }
}
