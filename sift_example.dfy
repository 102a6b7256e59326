/** The inline test of `make` (dist/cli.mjs:275-287), worked through the model.
    Four plugins are sent to `sift`: the first returns a transition that
    counts in `state.count`, the second returns nothing, the third marks its
    message with `testing = true`, and the fourth returns a transition that
    returns an effect which sends `{msg: "count is 4!"}` when the count is 4.
    Sending `{}` afterwards gives `[{testing: true}]`, and the count is 6: four
    for the plugins, one for the queued message, one for `{}`. */
module SiftExample {
  import opened JsValue
  import opened Iter
  import opened Sift

  /** `arg[k] = x` inside a plugin: a plain object takes the field, a primitive
      throws, and on a function (the plugins themselves, `send2`) the field is
      not part of the model. */
  function SetField(arg: Value, k: string, x: Value): (r: (Value, bool))
    ensures arg.Obj? ==> r == (Obj(Put(arg.props, k, x)), false)
    ensures arg.Fun? ==> r == (arg, false)
  {
    match Write(arg, k, x)
    case Ok(v) => (v, false)
    case Err(f) => (arg, f == TypeError)
  }

  /** `arg.count ??= 0; arg.count++`. */
  function Counted(arg: Value): (Value, bool) {
    var cur := Member(arg, "count");
    SetField(arg, "count", Num((if cur.Num? then cur.n else 0) + 1))
  }

  const CountIs4: Value := Obj([Prop("msg", Str("count is 4!"))])

  /** A call that leaves both drafts as they were. */
  function Returns(msg: Value, state: Value, out: Value, sends: seq<seq<Value>>): Reply {
    Reply(msg, state, out, sends, false)
  }

  /** What plugin 3 (`mark`) or transition 11 does to its argument. */
  function Edit(mark: bool, arg: Value): (Value, bool) {
    if mark then SetField(arg, "testing", Bool(true)) else Counted(arg)
  }

  /** A call that edits its own argument: the message in the message step, the
      state in the state step, and `send2` (function 0) in the send step. */
  function EditsArg(role: Role, msg: Value, state: Value, out: Value, mark: bool): Reply {
    match role
    case OnMessage => var e := Edit(mark, msg); Reply(e.0, state, out, [], e.1)
    case OnState => var e := Edit(mark, state); Reply(msg, e.0, out, [], e.1)
    case OnSender => var e := Edit(mark, Fun(0)); Reply(msg, state, out, [], e.1)
  }

  /** The test's functions: the plugins 1 to 4, the transition 11 that plugin 1
      returns, and the transition 41 and effect 42 that plugin 4 leads to. */
  function Call(f: nat, role: Role, msg: Value, state: Value): Reply {
    if f == 1 then Returns(msg, state, Fun(11), [])
    else if f == 11 then EditsArg(role, msg, state, Undefined, false)
    else if f == 3 then EditsArg(role, msg, state, Bool(true), true)
    else if f == 4 then Returns(msg, state, Fun(41), [])
    else if f == 41 then Returns(msg, state, Fun(42), [])
    else if f == 42 then Returns(msg, state, Undefined, if Member(state, "count") == Num(4) then [[CountIs4]] else [])
    else Returns(msg, state, Undefined, [])
  }

  function TestWorld(): World {
    (f: nat, role: Role, msg: Value, state: Value) => Call(f, role, msg, state)
  }

  /** The first k plugins. */
  function Chain(k: nat): (r: seq<nat>)
    ensures |r| == k && forall i :: 0 <= i < k ==> r[i] == i + 1
  {
    seq(k, i requires 0 <= i < k => i + 1)
  }

  /** The first k plugins as the atoms sent. */
  function Atoms(k: nat): (r: seq<Value>)
    ensures |r| == k && forall i :: 0 <= i < k ==> r[i] == Fun(i + 1)
  {
    seq(k, i requires 0 <= i < k => Fun(i + 1))
  }

  /** `state.count` is n; before the first count the state is `{}`. */
  function Count(n: nat): Value {
    if n == 0 then Obj([]) else Obj([Prop("count", Num(n))])
  }

  /** What plugin 3 makes of a message. */
  function Marked(x: Value): Value {
    if x.Obj? then Obj(Put(x.props, "testing", Bool(true))) else x
  }

  /** The step after s, unless s threw. */
  function Then(w: World, role: Role, s: Step<(seq<nat>, Ctx)>): Step<(seq<nat>, Ctx)> {
    match s
    case Threw(t) => Threw(t)
    case Done(p) => Run(w, role, p.0, p.1)
  }

  lemma RunWithUnfold(w: World, plugins: seq<nat>, c: Ctx)
    ensures RunWith(w, plugins, c) == Then(w, OnSender, Then(w, OnState, Run(w, OnMessage, plugins, c)))
  {
    var a, b := Phases[..1], Phases[..2];
    assert a[..0] == [] && b[..1] == a && Phases[..|Phases| - 1] == b;
    assert RunSteps(w, a, plugins, c) == Then(w, OnMessage, Done((plugins, c)));
    assert RunSteps(w, b, plugins, c) == Then(w, OnState, RunSteps(w, a, plugins, c));
    assert RunSteps(w, Phases, plugins, c) == Then(w, OnSender, RunSteps(w, b, plugins, c));
  }

  /** What ApplyPlugin promises of plugin k. */
  predicate Applied(r: Step<(seq<nat>, Ctx)>, k: nat, c: Ctx) {
    r.Done? &&
    r.val.0 == (if k == 1 then [11] else if k == 4 then [41] else []) &&
    r.val.1.msg == (if k == 3 then Marked(c.msg) else c.msg) && r.val.1.state == c.state && r.val.1.sent == c.sent
  }

  /** Plugin k on a message: 1 leads to 11, 3 marks the message, 4 leads to 41. */
  lemma ApplyPlugin(k: nat, c: Ctx)
    requires 1 <= k <= 4 && (c.msg.Fun? || c.msg.Obj?)
    ensures Applied(Apply(TestWorld(), OnMessage, k, c), k, c)
  {
    assert Queued([]) == [];
  }

  /** The message step over the first k plugins: 1 leads to 11, 3 marks the
      message, 4 leads to 41. */
  predicate MessageStepDone(k: nat, c: Ctx, r: Step<(seq<nat>, Ctx)>) {
    r.Done? &&
    r.val.0 == (if k == 0 then [] else if k == 4 then [11, 41] else [11]) &&
    r.val.1.msg == (if k >= 3 then Marked(c.msg) else c.msg) && r.val.1.state == c.state && r.val.1.sent == c.sent
  }

  /** Plugin k after the first k - 1, in any world whose plugin k does what
      ApplyPlugin shows the test's world does. */
  lemma MessageSnoc(w: World, k: nat, c: Ctx)
    requires 1 <= k <= 4
    requires MessageStepDone(k - 1, c, Run(w, OnMessage, Chain(k - 1), c))
    requires Applied(Apply(w, OnMessage, k, Run(w, OnMessage, Chain(k - 1), c).val.1), k,
                     Run(w, OnMessage, Chain(k - 1), c).val.1)
    ensures MessageStepDone(k, c, Run(w, OnMessage, Chain(k), c))
  {
    var p := Run(w, OnMessage, Chain(k - 1), c).val;
    assert Run(w, OnMessage, Chain(k), c) == Extend(p.0, Apply(w, OnMessage, k, p.1)) by {
      assert Chain(k) == Chain(k - 1) + [k];
      RunLast(w, OnMessage, Chain(k - 1), k, c);
    }
    var q := Apply(w, OnMessage, k, p.1).val;
    assert p.0 + q.0 == if k == 4 then [11, 41] else [11];
  }

  lemma {:induction false} MessageStep(k: nat, c: Ctx)
    requires k <= 4 && (c.msg.Fun? || c.msg.Obj?)
    ensures MessageStepDone(k, c, Run(TestWorld(), OnMessage, Chain(k), c))
  {
    if k == 0 {
      assert Chain(0) == [];
    } else {
      MessageStep(k - 1, c);
      var p := Run(TestWorld(), OnMessage, Chain(k - 1), c).val;
      ApplyPlugin(k, p.1);
      MessageSnoc(TestWorld(), k, c);
    }
  }

  /** `count ??= 0; count++` on the state. */
  lemma CountUp(n: nat)
    ensures Counted(Count(n)) == (Count(n + 1), false)
  {
    var ps := Count(n).props;
    assert Member(Count(n), "count") == if n == 0 then Undefined else Num(n);
    assert Put(ps, "count", Num(n + 1)) == [Prop("count", Num(n + 1))] by {
      if n > 0 {
        assert ps[1..] == [];
      }
    }
  }

  /** Transition 11 counts. */
  lemma ApplyCount(n: nat, c: Ctx)
    requires c.state == Count(n)
    ensures Apply(TestWorld(), OnState, 11, c) ==
      Done(([], c.(state := Count(n + 1), calls := c.calls + [(OnState, 11)])))
  {
    CountUp(n);
    assert TestWorld()(11, OnState, c.msg, c.state) == Reply(c.msg, Count(n + 1), Undefined, [], false);
    assert Queued([]) == [] && c.sent + [] == c.sent;
    assert Functions(Flatten(Undefined)) == [];
  }

  /** Transition 41 leads to 42. */
  lemma ApplyTransition(c: Ctx)
    ensures Apply(TestWorld(), OnState, 41, c) == Done(([42], c.(calls := c.calls + [(OnState, 41)])))
  {
    var rep := TestWorld()(41, OnState, c.msg, c.state);
    assert rep == Reply(c.msg, c.state, Fun(42), [], false);
    assert Queued([]) == [] && c.sent + [] == c.sent;
    assert Edited(c.msg, c.msg) == c.msg && Edited(c.state, c.state) == c.state;
    assert Flatten(Fun(42)) == [Fun(42)];
    assert [Fun(42)][1..] == [];
    assert Functions([Fun(42)]) == [42] + Functions([]);
    assert Apply(TestWorld(), OnState, 41, c) == Done((Functions(Flatten(rep.out)),
      Ctx(Edited(c.msg, rep.msg), Edited(c.state, rep.state), c.sent + Queued(rep.sends), c.calls + [(OnState, 41)])));
    assert Functions(Flatten(rep.out)) == [42];
    assert Ctx(Edited(c.msg, rep.msg), Edited(c.state, rep.state), c.sent + Queued(rep.sends), c.calls + [(OnState, 41)])
      == c.(calls := c.calls + [(OnState, 41)]);
  }

  /** The state chain [11]. */
  lemma CountRun(n: nat, c: Ctx)
    requires c.state == Count(n)
    ensures Run(TestWorld(), OnState, [11], c) ==
      Done(([], c.(state := Count(n + 1), calls := c.calls + [(OnState, 11)])))
  {
    var w := TestWorld();
    assert [11] == [] + [11];
    RunLast(w, OnState, [], 11, c);
    assert Run(w, OnState, [], c) == Done(([], c));
    ApplyCount(n, c);
    var q := Apply(w, OnState, 11, c).val;
    assert Run(w, OnState, [11], c) == Done(([] + q.0, q.1));
    assert q.0 == [] && [] + q.0 == [];
  }

  /** The state chain [11, 41]. */
  lemma CountTransitionRun(n: nat, c: Ctx)
    requires c.state == Count(n)
    ensures Run(TestWorld(), OnState, [11, 41], c) ==
      Done(([42], c.(state := Count(n + 1), calls := c.calls + [(OnState, 11), (OnState, 41)])))
  {
    var w := TestWorld();
    var c1 := c.(state := Count(n + 1), calls := c.calls + [(OnState, 11)]);
    CountRun(n, c);
    assert [11, 41] == [11] + [41];
    RunLast(w, OnState, [11], 41, c);
    ApplyTransition(c1);
    var q := Apply(w, OnState, 41, c1).val;
    assert Run(w, OnState, [11, 41], c) == Done(([] + q.0, q.1));
    assert q.0 == [42] && [] + q.0 == [42];
    assert c1.calls + [(OnState, 41)] == c.calls + [(OnState, 11), (OnState, 41)];
  }

  /** The state step: 11 counts, 41 leads to 42. */
  lemma StateStep(fns: seq<nat>, n: nat, c: Ctx)
    requires fns == [11] || fns == [11, 41]
    requires c.state == Count(n)
    ensures Run(TestWorld(), OnState, fns, c).Done?
    ensures var p := Run(TestWorld(), OnState, fns, c).val;
      p.0 == (if fns == [11] then [] else [42]) &&
      p.1.msg == c.msg && p.1.state == Count(n + 1) && p.1.sent == c.sent
  {
    if fns == [11] {
      CountRun(n, c);
    } else {
      CountTransitionRun(n, c);
    }
  }

  /** The send step: 42 sends `{msg: "count is 4!"}` exactly when the count is 4. */
  lemma SendStep(fns: seq<nat>, c: Ctx)
    requires fns == [] || fns == [42]
    ensures Run(TestWorld(), OnSender, fns, c).Done?
    ensures Run(TestWorld(), OnSender, fns, c).val.1.state == c.state
    ensures Run(TestWorld(), OnSender, fns, c).val.1.msg == c.msg
    ensures Run(TestWorld(), OnSender, fns, c).val.1.sent ==
      c.sent + (if fns == [42] && Member(c.state, "count") == Num(4) then [CountIs4] else [])
  {
    if fns == [42] {
      EffectRun(c);
    }
  }

  lemma EffectRun(c: Ctx)
    ensures Run(TestWorld(), OnSender, [42], c) ==
      Done(([], c.(sent := c.sent + (if Member(c.state, "count") == Num(4) then [CountIs4] else []),
                   calls := c.calls + [(OnSender, 42)])))
  {
    var w := TestWorld();
    assert [42] == [] + [42];
    RunLast(w, OnSender, [], 42, c);
    assert Run(w, OnSender, [], c) == Done(([], c));
    ApplyEffect(c);
    var q := Apply(w, OnSender, 42, c).val;
    assert Run(w, OnSender, [42], c) == Done(([] + q.0, q.1));
    assert q.0 == [] && [] + q.0 == [];
    assert q.1 == c.(sent := c.sent + (if Member(c.state, "count") == Num(4) then [CountIs4] else []),
                     calls := c.calls + [(OnSender, 42)]);
  }

  lemma QueuedMessage()
    ensures Queued([[CountIs4]]) == [CountIs4]
  {
    assert [[CountIs4]][..0] == [];
    assert FlattenAll([CountIs4]) == [CountIs4] + FlattenAll([]);
  }

  /** The effect 42 on its own. */
  lemma ApplyEffect(c: Ctx)
    ensures Apply(TestWorld(), OnSender, 42, c) ==
      Done(([], c.(sent := c.sent + (if Member(c.state, "count") == Num(4) then [CountIs4] else []),
                   calls := c.calls + [(OnSender, 42)])))
  {
    var sends := if Member(c.state, "count") == Num(4) then [[CountIs4]] else [];
    assert TestWorld()(42, OnSender, c.msg, c.state) == Reply(c.msg, c.state, Undefined, sends, false);
    assert Queued(sends) == if sends == [] then [] else [CountIs4] by {
      QueuedMessage();
    }
    assert Functions(Flatten(Undefined)) == [];
  }

  /** What FeedStep promises of one atom. */
  predicate Fed(r: Step<Draft>, x: Value, k: nat, n: nat, d: Draft) {
    r.Done? && r.val.state == Count(n + 1) && r.val.plugins == Chain(k) &&
    r.val.done == d.done + [if k >= 3 then Marked(x) else x] &&
    r.val.sent == d.sent + (if k == 4 && n + 1 == 4 then [CountIs4] else [])
  }

  /** One atom through the chain of the first k plugins, the state counting
      from n: the count goes up by one, and the queued message is sent when
      the fourth plugin is on the chain and the count reaches 4. */
  lemma FeedStep(x: Value, k: nat, n: nat, d: Draft)
    requires 1 <= k <= 4 && d.state == Count(n)
    requires (x == Fun(k) && d.plugins == Chain(k - 1)) || (x.Obj? && k == 4 && d.plugins == Chain(4))
    ensures Fed(Feed(TestWorld(), x, d), x, k, n, d)
  {
    var w := TestWorld();
    var plugins := if x.Fun? then d.plugins + [x.id] else d.plugins;
    assert plugins == Chain(k);
    var c := Ctx(x, d.state, d.sent, d.calls);
    RunWithUnfold(w, plugins, c);
    MessageStep(k, c);
    var m := Run(w, OnMessage, plugins, c).val;
    StateStep(m.0, n, m.1);
    var t := Run(w, OnState, m.0, m.1).val;
    SendStep(t.0, t.1);
  }

  /** The transaction of `sift(...)` over the first k plugins: they land on
      the chain, the count is k, and once the fourth is there its effect has
      queued its message. */
  predicate PluginsDone(k: nat, r: Step<Draft>)
    requires k <= 4
  {
    r.Done? && r.val.state == Count(k) && r.val.plugins == Chain(k) && r.val.done == Atoms(k) &&
    r.val.sent == (if k == 4 then [CountIs4] else [])
  }

  /** Feeding plugin k after the first k - 1 gives what the first k give. */
  lemma PluginsSnoc(k: nat, d: Draft, r: Step<Draft>)
    requires 1 <= k <= 4
    requires PluginsDone(k - 1, Done(d)) && Fed(r, Fun(k), k, k - 1, d)
    ensures PluginsDone(k, r)
  {
    assert Atoms(k) == Atoms(k - 1) + [Fun(k)];
  }

  lemma {:induction false} ProcessPlugins(k: nat)
    requires k <= 4
    ensures PluginsDone(k, Process(TestWorld(), Atoms(k), Draft(Obj([]), [], [], [], [])))
  {
    var w, d0 := TestWorld(), Draft(Obj([]), [], [], [], []);
    if k == 0 {
      assert Atoms(0) == [];
    } else {
      ProcessPlugins(k - 1);
      var d := Process(w, Atoms(k - 1), d0).val;
      assert Process(w, Atoms(k), d0) == Feed(w, Fun(k), d) by {
        assert Atoms(k)[..k - 1] == Atoms(k - 1);
        ProcessSnoc(w, Atoms(k), d0);
      }
      FeedStep(Fun(k), k, k - 1, d);
      PluginsSnoc(k, d, Feed(w, Fun(k), d));
    }
  }

  lemma ProcessSnoc(w: World, atoms: seq<Value>, d: Draft)
    requires atoms != [] && Process(w, atoms[..|atoms| - 1], d).Done?
    ensures Process(w, atoms, d) == Feed(w, atoms[|atoms| - 1], Process(w, atoms[..|atoms| - 1], d).val)
  {
  }

  /** A completed transaction that left a truthy atom at the head of the
      queue sends that atom on its own. */
  lemma DispatchResends(w: World, m: Machine, inputs: seq<Value>, fuel: nat)
    requires m.next == Original && !m.sending && fuel > 0
    requires var t := Transaction(w, m, inputs); t.1.Ok? && t.0.queue != [] && Truthy(t.0.queue[0])
    ensures var t := Transaction(w, m, inputs);
      Dispatch(w, m, inputs, fuel).0 == Dispatch(w, t.0.(queue := t.0.queue[1..]), [t.0.queue[0]], fuel - 1).0
  {
  }

  lemma {:induction false} FlattenFunctions(xs: seq<Value>)
    requires forall i :: 0 <= i < |xs| ==> xs[i].Fun?
    ensures FlattenAll(xs) == xs
  {
    if xs != [] {
      FlattenFunctions(xs[1..]);
    }
  }

  /** The transaction `sift` starts: the state is created, the plugins are on
      the chain, the message of the fourth plugin's effect is queued, and the
      plugins come back as they were sent. */
  /** What the test sends to `sift`: the four plugins. */
  const Plugins: seq<Value> := [Fun(1), Fun(2), Fun(3), Fun(4)]

  lemma SiftTransaction()
    ensures Transaction(TestWorld(), Make([OriginalPlugin]), Plugins) == (SiftMachine(4, [CountIs4]), Ok(Arr(Plugins)))
  {
    MadeOriginal();
    SiftProcessed();
    AtomsArePlugins();
    var d := Process(TestWorld(), FlattenAll(Plugins), Draft(Obj([]), [], [], [], [])).val;
    SiftRefill(d.done);
    TransactionOfPlugins(TestWorld(), Make([OriginalPlugin]), Plugins, d);
  }

  /** A transaction from a fresh dispatcher whose atoms all went through,
      leaving a count of 4 and the message of the fourth plugin's effect
      queued. */
  lemma TransactionOfPlugins(w: World, m: Machine, inputs: seq<Value>, d: Draft)
    requires m.state == Undefined && m.plugins == [] && m.queue == []
    requires Process(w, FlattenAll(inputs), Draft(Obj([]), [], [], [], [])) == Done(d)
    requires d.state == Count(4) && d.plugins == Chain(4) && d.sent == [CountIs4]
    requires |d.done| == |Flatten(Arr(inputs))| && Refill(Arr(inputs), d.done) == Arr(inputs)
    requires m.next == Original && !m.sending
    ensures Transaction(w, m, inputs) == (SiftMachine(4, [CountIs4]), Ok(Arr(inputs)))
  {
    TransactionDone(w, m, inputs, Obj([]), d);
    assert m.queue + d.sent == [CountIs4];
    assert m.(state := d.state, plugins := d.plugins, queue := m.queue + d.sent) == SiftMachine(4, [CountIs4]);
  }

  /** The dispatcher once the plugins are on the chain and the count is n. */
  function SiftMachine(n: nat, queue: seq<Value>): Machine {
    Machine(Original, false, queue, Count(n), Chain(4))
  }

  lemma MadeOriginal()
    ensures Make([OriginalPlugin]) == Machine(Original, false, [], Undefined, [])
  {
    assert Installed(Noop, [OriginalPlugin]) == Original;
  }

  lemma SiftProcessed()
    ensures PluginsDone(4, Process(TestWorld(), FlattenAll(Plugins), Draft(Obj([]), [], [], [], [])))
  {
    FlattenFunctions(Plugins);
    ProcessPlugins(4);
    AtomsArePlugins();
  }

  lemma AtomsArePlugins()
    ensures Atoms(4) == Plugins
  {
  }

  lemma SiftRefill(done: seq<Value>)
    requires done == Plugins
    ensures |done| == |Flatten(Arr(Plugins))| && Refill(Arr(Plugins), done) == Arr(Plugins)
  {
    FlattenFunctions(Plugins);
    RefillFlatten(Arr(Plugins));
  }

  /** A transaction whose atoms all went through. */
  lemma TransactionDone(w: World, m: Machine, inputs: seq<Value>, st: Value, d: Draft)
    requires st == (if IsNullish(m.state) then Obj([]) else m.state)
    requires Process(w, FlattenAll(inputs), Draft(st, m.plugins, [], [], [])) == Done(d)
    ensures Transaction(w, m, inputs) ==
      (m.(state := d.state, plugins := d.plugins, queue := m.queue + d.sent), Ok(Refill(Arr(inputs), d.done)))
  {
  }

  /** Writing back the one atom of a one-element array. */
  lemma RefillOne(x: Value, y: Value)
    requires x.Obj?
    ensures |Flatten(Arr([x]))| == 1 && Refill(Arr([x]), [y]) == Arr([y])
  {
    assert [y][..1] == [y] && [y][1..] == [];
    assert FlattenAll([x]) == Flatten(x) + FlattenAll([]);
    assert RefillAll([x], [y]) == [Refill(x, [y])] + RefillAll([], []);
  }

  /** The transaction of a plain object sent once the chain is complete: it
      comes back marked, the count goes up by one, and nothing is queued
      unless this is the fourth count. */
  lemma ObjectTransaction(x: Value, n: nat, m: Machine)
    requires x.Obj? && n != 3
    requires m.state == Count(n) && m.plugins == Chain(4)
    ensures Transaction(TestWorld(), m, [x]) == (m.(state := Count(n + 1)), Ok(Arr([Marked(x)])))
  {
    var w := TestWorld();
    assert FlattenAll([x]) == [x] by {
      assert FlattenAll([x]) == Flatten(x) + FlattenAll([]);
    }
    var d0 := Draft(m.state, m.plugins, [], [], []);
    assert [x][..0] == [];
    FeedStep(x, 4, n, d0);
    assert Process(w, [x], d0) == Feed(w, x, d0);
    var d1 := Feed(w, x, d0).val;
    assert d1.done == [Marked(x)] && d1.sent == [] && d1.plugins == m.plugins;
    assert d1.state == Count(n + 1) && m.queue + d1.sent == m.queue;
    RefillOne(x, Marked(x));
    assert Transaction(w, m, [x]).1 == Ok(Refill(Arr([x]), d1.done));
  }

  /** Sending a plain object on its own, with nothing queued after it. */
  lemma SendObject(x: Value, n: nat, m: Machine)
    requires x.Obj? && n != 3
    requires m.next == Original && !m.sending && m.queue == [] && m.state == Count(n) && m.plugins == Chain(4)
    ensures Dispatch(TestWorld(), m, [x], 0) == (m.(state := Count(n + 1)), Ok(Arr([Marked(x)])))
  {
    ObjectTransaction(x, n, m);
  }

  /** `sift` of the four plugins: the queued message is sent on its own once
      the transaction is over, so the count is 5 and nothing is left queued. */
  lemma SiftResends()
    ensures Dispatch(TestWorld(), Make([OriginalPlugin]), Plugins, 1).0 ==
      Dispatch(TestWorld(), SiftMachine(4, []), [CountIs4], 0).0
  {
    MadeOriginal();
    SiftTransaction();
    DispatchResends(TestWorld(), Make([OriginalPlugin]), Plugins, 1);
    assert SiftMachine(4, [CountIs4]).(queue := [CountIs4][1..]) == SiftMachine(4, []);
  }

  lemma SiftDrains()
    ensures SiftSpec(TestWorld(), Plugins, 1) == SiftMachine(5, [])
  {
    SiftResends();
    SendObject(CountIs4, 4, SiftMachine(4, []));
  }

  /** The test of `make`: after `sift` of the four plugins, sending `{}`
      returns `[{testing: true}]` and leaves a count of 6. */
  lemma MakeTest()
    ensures var sent := SiftSpec(TestWorld(), Plugins, 1);
      Dispatch(TestWorld(), sent, [Obj([])], 0).1 == Ok(Arr([Obj([Prop("testing", Bool(true))])])) &&
      Member(Dispatch(TestWorld(), sent, [Obj([])], 0).0.state, "count") == Num(6)
  {
    SiftDrains();
    SendObject(Obj([]), 5, SiftSpec(TestWorld(), Plugins, 1));
  }
}
