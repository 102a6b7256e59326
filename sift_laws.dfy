/** What the sift dispatcher of dist/cli.mjs:216-261 guarantees across whole
    sends: the chain only grows, a completed send leaves `sending` false, a
    throw wedges the dispatcher so that every later send only queues, and in
    a world whose calls neither send nor throw the queue is replayed one atom
    per transaction in first-in first-out order. */
module SiftLaws {
  import opened JsValue
  import opened Iter
  import opened Sift

  predicate IsPrefix<T(==)>(a: seq<T>, b: seq<T>) {
    |a| <= |b| && b[..|a|] == a
  }

  /** `state.plugins` only ever grows: every send keeps the chain it found as a prefix. */
  lemma {:induction false} PluginsOnlyGrow(w: World, m: Machine, inputs: seq<Value>, fuel: nat)
    ensures IsPrefix(m.plugins, Dispatch(w, m, inputs, fuel).0.plugins)
    decreases fuel
  {
    if m.next.Original? && !m.sending {
      var (m2, res) := Transaction(w, m, inputs);
      assert IsPrefix(m.plugins, m2.plugins) by {
        var st := if IsNullish(m.state) then Obj([]) else m.state;
        var d0 := Draft(st, m.plugins, [], [], []);
        if Process(w, FlattenAll(inputs), d0).Done? {
          ProcessPlugins(w, FlattenAll(inputs), d0);
        }
      }
      if res.Ok? && m2.queue != [] && Truthy(m2.queue[0]) && fuel > 0 {
        var m3 := m2.(queue := m2.queue[1..]);
        PluginsOnlyGrow(w, m3, [m2.queue[0]], fuel - 1);
        var last := Dispatch(w, m3, [m2.queue[0]], fuel - 1).0.plugins;
        assert Dispatch(w, m, inputs, fuel).0.plugins == last;
        assert last[..|m.plugins|] == last[..|m2.plugins|][..|m.plugins|];
      }
    }
  }

  /** A send that completes leaves `sending` false and the handler in place. */
  lemma {:induction false} CompletedSendIsIdle(w: World, m: Machine, inputs: seq<Value>, fuel: nat)
    requires m.next == Original && !m.sending
    requires Dispatch(w, m, inputs, fuel).1.Ok?
    ensures !Dispatch(w, m, inputs, fuel).0.sending
    ensures Dispatch(w, m, inputs, fuel).0.next == Original
    decreases fuel
  {
    var (m2, res) := Transaction(w, m, inputs);
    if m2.queue != [] && Truthy(m2.queue[0]) && fuel > 0 {
      CompletedSendIsIdle(w, m2.(queue := m2.queue[1..]), [m2.queue[0]], fuel - 1);
    }
  }

  /** A plugin that throws leaves `sending` stuck at true, with the state not
      replaced by the aborted transaction... */
  lemma {:induction false} ThrowLeavesSending(w: World, m: Machine, inputs: seq<Value>, fuel: nat)
    requires m.next == Original
    requires Dispatch(w, m, inputs, fuel).1 == Err(Thrown)
    ensures Dispatch(w, m, inputs, fuel).0.sending
    ensures Dispatch(w, m, inputs, fuel).0.next == Original
    decreases fuel
  {
    if !m.sending {
      var (m2, res) := Transaction(w, m, inputs);
      if res.Ok? && m2.queue != [] && Truthy(m2.queue[0]) && fuel > 0 {
        ThrowLeavesSending(w, m2.(queue := m2.queue[1..]), [m2.queue[0]], fuel - 1);
      }
    }
  }

  /** ... so every later send only appends its flattened atoms to the queue and
      returns its inputs: no plugin runs again and the state never changes. */
  lemma ThrowWedges(w: World, m: Machine, inputs: seq<Value>, fuel: nat, more: seq<Value>, fuel2: nat)
    requires m.next == Original
    requires Dispatch(w, m, inputs, fuel).1 == Err(Thrown)
    ensures var m1 := Dispatch(w, m, inputs, fuel).0;
      var r := Dispatch(w, m1, more, fuel2);
      r.1 == Ok(Arr(more)) && r.0.sending && r.0.queue == m1.queue + FlattenAll(more) &&
      r.0.state == m1.state && r.0.plugins == m1.plugins
  {
    ThrowLeavesSending(w, m, inputs, fuel);
  }

  /** The transaction a send runs commits nothing when a plugin throws: the state
      is the one the send found (or `{}` in place of a nullish one) and the
      chain is unchanged. */
  lemma ThrowKeepsState(w: World, m: Machine, inputs: seq<Value>)
    requires Transaction(w, m, inputs).1.Err?
    ensures var m2 := Transaction(w, m, inputs).0;
      m2.state == (if IsNullish(m.state) then Obj([]) else m.state) &&
      m2.plugins == m.plugins && m2.sending && IsPrefix(m.queue, m2.queue)
  {
  }

  // ----- the queue, in any world -----

  /** The machine after the transaction a send runs on `inputs`. */
  function Commit(w: World, m: Machine, inputs: seq<Value>): Machine {
    Transaction(w, m, inputs).0
  }

  /** A transaction never touches the atoms already queued: what its sends
      queue (or the part queued before a throw) goes after them, and what it
      does otherwise does not depend on them. */
  lemma CommitQueue(w: World, m: Machine, inputs: seq<Value>)
    ensures var c := Commit(w, m.(queue := []), inputs);
      Commit(w, m, inputs) == c.(queue := m.queue + c.queue)
  {
  }

  lemma CommitAppends(w: World, m: Machine, inputs: seq<Value>)
    ensures IsPrefix(m.queue, Commit(w, m, inputs).queue)
  {
    CommitQueue(w, m, inputs);
    var c := Commit(w, m.(queue := []), inputs);
    assert (m.queue + c.queue)[..|m.queue|] == m.queue;
  }

  /** What a completed send does after its own transaction, at most `fuel`
      times: shift the head of the queue; stop at an empty queue or a falsy
      head; otherwise run the head in a transaction of its own. */
  function Pump(w: World, m: Machine, fuel: nat): Machine
    decreases fuel
  {
    if m.queue == [] then m
    else if !Truthy(m.queue[0]) then m.(queue := m.queue[1..])
    else if fuel == 0 then m
    else Pump(w, Commit(w, m.(queue := m.queue[1..]), [m.queue[0]]), fuel - 1)
  }

  /** The drain ends (at an empty queue or a falsy head) before it has used
      up the fuel. */
  predicate Drains(w: World, m: Machine, fuel: nat)
    decreases fuel
  {
    m.queue == [] || !Truthy(m.queue[0]) ||
    (fuel > 0 && Drains(w, Commit(w, m.(queue := m.queue[1..]), [m.queue[0]]), fuel - 1))
  }

  /** One transaction per batch, in order. */
  function ReplayAll(w: World, m: Machine, batches: seq<seq<Value>>): Machine
    decreases |batches|
  {
    if batches == [] then m else ReplayAll(w, Commit(w, m, batches[0]), batches[1..])
  }

  /** Each queued atom as a send of its own. */
  function Singles(q: seq<Value>): (r: seq<seq<Value>>)
    ensures |r| == |q| && forall i :: 0 <= i < |q| ==> r[i] == [q[i]]
  {
    seq(|q|, i requires 0 <= i < |q| => [q[i]])
  }

  /** Replaying batches on a machine with atoms queued is replaying them on an
      empty queue, with those atoms kept in front. */
  lemma {:induction false} ReplayQueue(w: World, m: Machine, batches: seq<seq<Value>>)
    ensures var r := ReplayAll(w, m.(queue := []), batches);
      ReplayAll(w, m, batches) == r.(queue := m.queue + r.queue)
    decreases |batches|
  {
    if batches != [] {
      var c := Commit(w, m.(queue := []), batches[0]);
      CommitQueue(w, m, batches[0]);
      ReplayQueue(w, Commit(w, m, batches[0]), batches[1..]);
      ReplayQueue(w, c, batches[1..]);
      var r := ReplayAll(w, c.(queue := []), batches[1..]);
      assert m.queue + c.queue + r.queue == m.queue + (c.queue + r.queue);
    }
  }

  /** One step of the drain: the head runs in a transaction of its own, whose
      sends queue behind the rest. */
  lemma PumpStep(w: World, e: Machine, q: seq<Value>, fuel: nat)
    requires e.queue == [] && q != [] && Truthy(q[0]) && fuel > 0
    ensures var c := Commit(w, e, [q[0]]);
      Pump(w, e.(queue := q), fuel) == Pump(w, c.(queue := q[1..] + c.queue), fuel - 1)
  {
    CommitQueue(w, e.(queue := q[1..]), [q[0]]);
    assert e.(queue := q[1..]).(queue := []) == e;
  }

  /** Replaying the first n atoms of q is replaying the first, then the others
      on the machine it left, whose queue holds what the first one sent. */
  lemma ReplayStep(w: World, e: Machine, q: seq<Value>, n: nat)
    requires 0 < n <= |q|
    ensures var c := Commit(w, e, [q[0]]);
      var r1 := ReplayAll(w, c.(queue := []), Singles(q[1..n]));
      ReplayAll(w, e, Singles(q[..n])) == r1.(queue := c.queue + r1.queue)
  {
    var c := Commit(w, e, [q[0]]);
    assert Singles(q[..n]) == [[q[0]]] + Singles(q[1..n]);
    assert ReplayAll(w, e, Singles(q[..n])) == ReplayAll(w, c, Singles(q[1..n]));
    ReplayQueue(w, c, Singles(q[1..n]));
  }

  /** What is left of the queue after its head ran, and what that head's
      transaction sent behind it. */
  lemma ShiftQueue(q: seq<Value>, sent: seq<Value>, n: nat)
    requires 0 < n <= |q|
    requires forall i :: 0 <= i < n ==> Truthy(q[i])
    ensures forall i :: 0 <= i < n - 1 ==> Truthy((q[1..] + sent)[i])
    ensures (q[1..] + sent)[..n - 1] == q[1..n] && (q[1..] + sent)[n - 1..] == q[n..] + sent
  {
    SplitAppend(q[1..], sent, n - 1);
    assert q[1..][..n - 1] == q[1..n] && q[1..][n - 1..] == q[n..];
    forall i | 0 <= i < n - 1 ensures Truthy((q[1..] + sent)[i]) {
      assert (q[1..] + sent)[i] == q[i + 1];
    }
  }

  /** The drain from e with q queued, given the drain after q's head ran. */
  lemma PumpFifoStep(w: World, e: Machine, q: seq<Value>, n: nat, fuel: nat)
    requires e.queue == []
    requires 0 < n <= |q| && n <= fuel && Truthy(q[0])
    requires var c := Commit(w, e, [q[0]]);
      var r1 := ReplayAll(w, c.(queue := []), Singles(q[1..n]));
      Pump(w, c.(queue := q[1..] + c.queue), fuel - 1) == Pump(w, r1.(queue := q[n..] + c.queue + r1.queue), fuel - n)
    ensures var r := ReplayAll(w, e, Singles(q[..n]));
      Pump(w, e.(queue := q), fuel) == Pump(w, r.(queue := q[n..] + r.queue), fuel - n)
  {
    var c := Commit(w, e, [q[0]]);
    PumpStep(w, e, q, fuel);
    ReplayStep(w, e, q, n);
    Regroup(q[n..], c.queue, ReplayAll(w, c.(queue := []), Singles(q[1..n])).queue);
  }

  /** The drain from a machine e with the atoms q queued. */
  lemma {:induction false} PumpIsFifo(w: World, e: Machine, q: seq<Value>, n: nat, fuel: nat)
    requires e.queue == []
    requires n <= |q| && n <= fuel
    requires forall i :: 0 <= i < n ==> Truthy(q[i])
    ensures var r := ReplayAll(w, e, Singles(q[..n]));
      Pump(w, e.(queue := q), fuel) == Pump(w, r.(queue := q[n..] + r.queue), fuel - n)
    decreases n
  {
    if n == 0 {
      assert Singles(q[..0]) == [];
      assert q[0..] + [] == q;
    } else {
      var c := Commit(w, e, [q[0]]);
      ShiftQueue(q, c.queue, n);
      PumpIsFifo(w, c.(queue := []), q[1..] + c.queue, n - 1, fuel - 1);
      assert c.(queue := []).(queue := q[1..] + c.queue) == c.(queue := q[1..] + c.queue);
      PumpFifoStep(w, e, q, n, fuel);
    }
  }

  /** The drain is first in, first out: with the first n queued atoms truthy
      and fuel for them, it serves exactly those n atoms, in the order they
      were queued, each in a transaction of its own, before anything their
      transactions send, which waits behind the rest of the old queue. */
  lemma DrainIsFifo(w: World, m: Machine, n: nat, fuel: nat)
    requires n <= |m.queue| && n <= fuel
    requires forall i :: 0 <= i < n ==> Truthy(m.queue[i])
    ensures var r := ReplayAll(w, m.(queue := []), Singles(m.queue[..n]));
      Pump(w, m, fuel) == Pump(w, r.(queue := m.queue[n..] + r.queue), fuel - n)
  {
    PumpIsFifo(w, m.(queue := []), m.queue, n, fuel);
    assert m.(queue := []).(queue := m.queue) == m;
  }

  // ----- a world whose calls never throw -----

  ghost predicate NoThrow(w: World) {
    forall f, role, msg, st :: !w(f, role, msg, st).threw
  }

  lemma {:induction false} NoThrowRun(w: World, role: Role, fns: seq<nat>, c: Ctx)
    requires NoThrow(w)
    ensures Run(w, role, fns, c).Done?
  {
    if fns != [] {
      NoThrowRun(w, role, fns[..|fns| - 1], c);
    }
  }

  lemma {:induction false} NoThrowSteps(w: World, roles: seq<Role>, fns: seq<nat>, c: Ctx)
    requires NoThrow(w)
    ensures RunSteps(w, roles, fns, c).Done?
  {
    if roles != [] {
      NoThrowSteps(w, roles[..|roles| - 1], fns, c);
      var p := RunSteps(w, roles[..|roles| - 1], fns, c).val;
      NoThrowRun(w, roles[|roles| - 1], p.0, p.1);
    }
  }

  lemma {:induction false} NoThrowProcess(w: World, atoms: seq<Value>, d: Draft)
    requires NoThrow(w)
    ensures Process(w, atoms, d).Done?
  {
    if atoms != [] {
      NoThrowProcess(w, atoms[..|atoms| - 1], d);
      var d1 := Process(w, atoms[..|atoms| - 1], d).val;
      var x := atoms[|atoms| - 1];
      var plugins := if x.Fun? then d1.plugins + [x.id] else d1.plugins;
      NoThrowSteps(w, Phases, plugins, Ctx(x, d1.state, d1.sent, d1.calls));
    }
  }

  /** In such a world every transaction completes and leaves the machine idle. */
  lemma NoThrowCommits(w: World, m: Machine, inputs: seq<Value>)
    requires NoThrow(w)
    ensures Transaction(w, m, inputs).1.Ok?
    ensures Commit(w, m, inputs).next == m.next && Commit(w, m, inputs).sending == m.sending
  {
    var st := if IsNullish(m.state) then Obj([]) else m.state;
    NoThrowProcess(w, FlattenAll(inputs), Draft(st, m.plugins, [], [], []));
  }

  /** A send to an idle dispatcher in a world that never throws is its own
      transaction followed by the drain: it returns what its own transaction
      produced, or that the fuel ran out if the drain is longer. */
  lemma {:induction false} SendThenDrain(w: World, m: Machine, inputs: seq<Value>, fuel: nat)
    requires NoThrow(w) && m.next == Original && !m.sending
    ensures Dispatch(w, m, inputs, fuel).0 == Pump(w, Commit(w, m, inputs), fuel)
    ensures Dispatch(w, m, inputs, fuel).1 ==
      if Drains(w, Commit(w, m, inputs), fuel) then Transaction(w, m, inputs).1 else Err(OutOfFuel)
    decreases fuel
  {
    NoThrowCommits(w, m, inputs);
    var m2 := Commit(w, m, inputs);
    var res := Transaction(w, m, inputs).1;
    if m2.queue != [] && Truthy(m2.queue[0]) && fuel > 0 {
      var m3 := m2.(queue := m2.queue[1..]);
      SendThenDrain(w, m3, [m2.queue[0]], fuel - 1);
      var res3 := Dispatch(w, m3, [m2.queue[0]], fuel - 1).1;
      assert Dispatch(w, m, inputs, fuel) == (Dispatch(w, m3, [m2.queue[0]], fuel - 1).0, if res3.Err? then res3 else res);
      assert Pump(w, m2, fuel) == Pump(w, Commit(w, m3, [m2.queue[0]]), fuel - 1);
      NoThrowCommits(w, m3, [m2.queue[0]]);
    }
  }

  /** So a send to an idle dispatcher whose first n queued atoms are truthy
      runs its own inputs, then exactly those n atoms in the order they were
      queued; the atoms its own transaction sent wait behind the old queue. */
  lemma SendDrainsFifo(w: World, m: Machine, inputs: seq<Value>, n: nat, fuel: nat)
    requires NoThrow(w) && m.next == Original && !m.sending
    requires n <= |m.queue| && n <= fuel
    requires forall i :: 0 <= i < n ==> Truthy(m.queue[i])
    ensures var c := Commit(w, m.(queue := []), inputs);
      var r := ReplayAll(w, c.(queue := []), Singles(m.queue[..n]));
      Dispatch(w, m, inputs, fuel).0 == Pump(w, r.(queue := m.queue[n..] + c.queue + r.queue), fuel - n)
  {
    SendThenDrain(w, m, inputs, fuel);
    CommitQueue(w, m, inputs);
    var c := Commit(w, m.(queue := []), inputs);
    var m2 := Commit(w, m, inputs);
    assert m2.queue[..n] == m.queue[..n] && m2.queue[n..] == m.queue[n..] + c.queue;
    DrainIsFifo(w, m2, n, fuel);
    assert m2.(queue := []) == c.(queue := []);
  }

  /** A falsy atom at the head of the queue stops the drain after the send's
      own transaction: it is removed, and the atoms behind it and the ones the
      transaction sent wait for the next send. */
  lemma DrainStopsAtFalsy(w: World, m: Machine, inputs: seq<Value>, fuel: nat)
    requires NoThrow(w) && m.next == Original && !m.sending
    requires m.queue != [] && !Truthy(m.queue[0])
    ensures Dispatch(w, m, inputs, fuel).1 == Transaction(w, m, inputs).1
    ensures Dispatch(w, m, inputs, fuel).1.Ok?
    ensures var c := Commit(w, m.(queue := []), inputs);
      Dispatch(w, m, inputs, fuel).0 == c.(queue := m.queue[1..] + c.queue)
  {
    NoThrowCommits(w, m, inputs);
    CommitQueue(w, m, inputs);
    var c := Commit(w, m.(queue := []), inputs);
    assert (m.queue + c.queue)[1..] == m.queue[1..] + c.queue;
  }

  // ----- a quiet world: no call sends or throws -----

  ghost predicate Quiet(w: World) {
    forall f, role, msg, st :: !w(f, role, msg, st).threw && w(f, role, msg, st).sends == []
  }

  lemma {:induction false} QuietRun(w: World, role: Role, fns: seq<nat>, c: Ctx)
    requires Quiet(w)
    ensures Run(w, role, fns, c).Done? && Run(w, role, fns, c).val.1.sent == c.sent
  {
    if fns != [] {
      QuietRun(w, role, fns[..|fns| - 1], c);
      var p := Run(w, role, fns[..|fns| - 1], c).val;
      var rep := w(fns[|fns| - 1], role, p.1.msg, p.1.state);
      assert Queued(rep.sends) == [];
    }
  }

  lemma {:induction false} QuietSteps(w: World, roles: seq<Role>, fns: seq<nat>, c: Ctx)
    requires Quiet(w)
    ensures RunSteps(w, roles, fns, c).Done? && RunSteps(w, roles, fns, c).val.1.sent == c.sent
  {
    if roles != [] {
      QuietSteps(w, roles[..|roles| - 1], fns, c);
      var p := RunSteps(w, roles[..|roles| - 1], fns, c).val;
      QuietRun(w, roles[|roles| - 1], p.0, p.1);
    }
  }

  lemma {:induction false} QuietProcess(w: World, atoms: seq<Value>, d: Draft)
    requires Quiet(w)
    ensures Process(w, atoms, d).Done? && Process(w, atoms, d).val.sent == d.sent
  {
    if atoms != [] {
      QuietProcess(w, atoms[..|atoms| - 1], d);
      var d1 := Process(w, atoms[..|atoms| - 1], d).val;
      var x := atoms[|atoms| - 1];
      var plugins := if x.Fun? then d1.plugins + [x.id] else d1.plugins;
      QuietSteps(w, Phases, plugins, Ctx(x, d1.state, d1.sent, d1.calls));
    }
  }

  lemma QuietNoThrow(w: World)
    requires Quiet(w)
    ensures NoThrow(w)
  {
  }

  /** In a quiet world a transaction queues nothing. */
  lemma QuietCommit(w: World, m: Machine, inputs: seq<Value>)
    requires Quiet(w)
    ensures Commit(w, m.(queue := []), inputs).queue == []
    ensures Commit(w, m, inputs) == Commit(w, m.(queue := []), inputs).(queue := m.queue)
  {
    var st := if IsNullish(m.state) then Obj([]) else m.state;
    QuietProcess(w, FlattenAll(inputs), Draft(st, m.plugins, [], [], []));
    CommitQueue(w, m, inputs);
    assert m.queue + [] == m.queue;
  }

  /** In a quiet world a drain over truthy atoms, with fuel for all of them,
      replays them one by one and ends with the queue empty. */
  lemma {:induction false} QuietPump(w: World, m: Machine, fuel: nat)
    requires Quiet(w)
    requires forall i :: 0 <= i < |m.queue| ==> Truthy(m.queue[i])
    requires |m.queue| <= fuel
    ensures Drains(w, m, fuel)
    ensures Pump(w, m, fuel) == ReplayAll(w, m.(queue := []), Singles(m.queue))
    decreases fuel
  {
    var q := m.queue;
    if q == [] {
      assert m.(queue := []) == m;
    } else {
      var c := Commit(w, m.(queue := []), [q[0]]);
      assert c.queue == [] && Commit(w, m.(queue := q[1..]), [q[0]]) == c.(queue := q[1..]) by {
        QuietCommit(w, m.(queue := q[1..]), [q[0]]);
      }
      var m1 := c.(queue := q[1..]);
      assert Drains(w, m1, fuel - 1) && Pump(w, m1, fuel - 1) == ReplayAll(w, c, Singles(q[1..])) by {
        assert forall i :: 0 <= i < |m1.queue| ==> Truthy(m1.queue[i]) by {
          forall i | 0 <= i < |m1.queue| ensures Truthy(m1.queue[i]) {
            assert m1.queue[i] == q[i + 1];
          }
        }
        QuietPump(w, m1, fuel - 1);
        assert m1.(queue := []) == c;
      }
      assert ReplayAll(w, m.(queue := []), Singles(q)) == ReplayAll(w, c, Singles(q[1..])) by {
        assert Singles(q)[1..] == Singles(q[1..]);
      }
    }
  }

  /** In a quiet world a send whose queue holds only truthy atoms runs its own
      inputs and then every queued atom, each in a transaction of its own, in
      the order they were queued, and leaves the queue empty. */
  lemma {:induction false} QuietDrainIsFifo(w: World, m: Machine, inputs: seq<Value>, fuel: nat)
    requires Quiet(w) && m.next == Original && !m.sending
    requires forall i :: 0 <= i < |m.queue| ==> Truthy(m.queue[i])
    requires |m.queue| <= fuel
    ensures Dispatch(w, m, inputs, fuel).1.Ok?
    ensures Dispatch(w, m, inputs, fuel).0 == ReplayAll(w, m.(queue := []), [inputs] + Singles(m.queue))
    decreases fuel
  {
    var c := Commit(w, m.(queue := []), inputs);
    var q := m.queue;
    QuietCommit(w, m, inputs);
    QuietNoThrow(w);
    SendThenDrain(w, m, inputs, fuel);
    NoThrowCommits(w, m, inputs);
    QuietPump(w, c.(queue := q), fuel);
    assert ([inputs] + Singles(q))[1..] == Singles(q);
  }

  /** A falsy atom at the head of the queue stops the drain: it is removed and
      the atoms behind it wait for the next send. */
  lemma QuietDrainStopsAtFalsy(w: World, m: Machine, inputs: seq<Value>, fuel: nat)
    requires Quiet(w) && m.next == Original && !m.sending
    requires m.queue != [] && !Truthy(m.queue[0])
    ensures Dispatch(w, m, inputs, fuel).1.Ok?
    ensures Dispatch(w, m, inputs, fuel).0 == Commit(w, m.(queue := []), inputs).(queue := m.queue[1..])
  {
    var st := if IsNullish(m.state) then Obj([]) else m.state;
    QuietProcess(w, FlattenAll(inputs), Draft(st, m.plugins, [], [], []));
  }
}
