/** The `T` coercions and `reify2` of dist/cli.mjs:84-122: turning a field of
    the state into the shape a plugin expects. */
module Reify {
  import opened JsValue
  import opened Iter

  /** `T.Iterable(x)`: [] for null and undefined, the key iterator of a Map,
      any other iterable object itself, and `[x]` for everything else. */
  function Iterable(x: Value): (r: Value)
    ensures r.Arr? || r.SetOf?
  {
    match x
    case Undefined => Arr([])
    case Null => Arr([])
    case MapOf(ks, _) => Arr(ks)
    case Arr(_) => x
    case SetOf(_) => x
    case _ => Arr([x])
  }

  /** What iterating `T.Iterable(x)` produces, one level deep. */
  function Elements(x: Value): seq<Value> {
    Iterable(x).items
  }

  /** `T.One(x)`: the first element of `T.Iterable(x)`, or undefined. */
  function One(x: Value): Value {
    var es := Elements(x);
    if es == [] then Undefined else es[0]
  }

  /** `T.Boolean(x)`. */
  function Boolean(x: Value): Value {
    Bool(Truthy(One(x)))
  }

  /** The elements in first-occurrence order, each once (what `new Set(...)` keeps). */
  function Dedup(xs: seq<Value>): (r: seq<Value>)
  {
    if xs == [] then []
    else
      var d := Dedup(xs[..|xs| - 1]);
      if xs[|xs| - 1] in d then d else d + [xs[|xs| - 1]]
  }

  predicate Distinct(xs: seq<Value>) {
    forall i, j :: 0 <= i < j < |xs| ==> xs[i] != xs[j]
  }

  /** Where v first occurs in xs. */
  function FirstIndex(xs: seq<Value>, v: Value): (i: nat)
    requires v in xs
    ensures i < |xs| && xs[i] == v
    ensures forall j :: 0 <= j < i ==> xs[j] != v
  {
    if xs[0] == v then 0 else 1 + FirstIndex(xs[1..], v)
  }

  /** Appending an element does not move where the earlier ones first occur. */
  lemma FirstIndexAppend(xs: seq<Value>, x: Value, v: Value)
    requires v in xs + [x]
    ensures v in xs ==> FirstIndex(xs + [x], v) == FirstIndex(xs, v)
    ensures v !in xs ==> FirstIndex(xs + [x], v) == |xs|
  {
    var i := FirstIndex(xs + [x], v);
    if v in xs {
      var j := FirstIndex(xs, v);
      assert (xs + [x])[j] == v;
      assert i <= j;
      assert xs[i] == v;
    } else {
      assert (xs + [x])[|xs|] == v;
    }
  }

  /** d lists elements of xs in the order of their first occurrences. */
  predicate InFirstOrder(xs: seq<Value>, d: seq<Value>)
    requires forall v :: v in d ==> v in xs
  {
    forall i, j :: 0 <= i < j < |d| ==> FirstIndex(xs, d[i]) < FirstIndex(xs, d[j])
  }

  /** One step of DedupSpec: what holds of the prefix holds after one more element. */
  lemma DedupStep(init: seq<Value>, last: Value)
    requires Distinct(Dedup(init))
    requires forall v :: v in Dedup(init) <==> v in init
    requires InFirstOrder(init, Dedup(init))
    ensures Distinct(Dedup(init + [last]))
    ensures forall v :: v in Dedup(init + [last]) <==> v in init + [last]
    ensures InFirstOrder(init + [last], Dedup(init + [last]))
  {
    var xs := init + [last];
    assert xs[..|xs| - 1] == init;
    var d := Dedup(init);
    forall v | v in init ensures FirstIndex(xs, v) == FirstIndex(init, v) {
      FirstIndexAppend(init, last, v);
    }
    if last !in init {
      FirstIndexAppend(init, last, last);
      forall i | 0 <= i < |d| ensures FirstIndex(xs, d[i]) < FirstIndex(xs, last) {
        assert d[i] in init;
      }
    }
  }

  /** `new Set(xs)` keeps each element once, at its first occurrence, in the
      order of first occurrences, and drops nothing else. */
  lemma {:induction false} DedupSpec(xs: seq<Value>)
    ensures Distinct(Dedup(xs))
    ensures forall v :: v in Dedup(xs) <==> v in xs
    ensures InFirstOrder(xs, Dedup(xs))
  {
    if xs != [] {
      var init := xs[..|xs| - 1];
      DedupSpec(init);
      DedupStep(init, xs[|xs| - 1]);
      assert xs == init + [xs[|xs| - 1]];
    }
  }

  /** `T.Set(x)`. */
  function ToSet(x: Value): Value {
    if x.SetOf? then x else SetOf(Dedup(Elements(x)))
  }

  /** `T.Array(x)`. */
  function ToArray(x: Value): Value {
    if x.Arr? then x else Arr(Elements(x))
  }

  /** `T.Object(x)`: a plain object stays, anything else becomes `{}`. */
  function ToObject(x: Value): Value {
    if x.Obj? then x else Obj([])
  }

  /** `iter` is `T.Iterable` applied all the way down. */
  lemma FlattenViaIterable(x: Value)
    ensures Flatten(x) == FlattenAll(Elements(x))
  {
    if IsAtom(x) {
      assert FlattenAll([x]) == Flatten(x) + FlattenAll([]);
    }
  }

  /** The coercions keep what `iter` yields, except that a Set drops repeats;
      `T.Object` keeps only plain objects; `T.One` of a value that is not
      iterable is the value itself, and otherwise whatever comes first. */
  lemma CoercionsKeepElements(x: Value)
    ensures ToArray(x).Arr? && Elements(ToArray(x)) == Elements(x)
    ensures ToSet(x).SetOf? && (!x.SetOf? ==> forall v :: v in Elements(ToSet(x)) <==> v in Elements(x))
    ensures ToSet(x).SetOf? && (!x.SetOf? ==> Distinct(Elements(ToSet(x))))
    ensures ToObject(x).Obj? && (x.Obj? ==> ToObject(x) == x) && (!x.Obj? ==> ToObject(x) == Obj([]))
    ensures IsNullish(x) ==> One(x) == Undefined
    ensures !IsNullish(x) && !IsIterableObject(x) ==> One(x) == x
    ensures One(x) != Undefined ==> One(x) in Elements(x)
  {
    DedupSpec(Elements(x));
  }

  /** Each coercion is idempotent: reifying twice is reifying once. */
  lemma CoercionsIdempotent(x: Value)
    ensures ToArray(ToArray(x)) == ToArray(x)
    ensures ToSet(ToSet(x)) == ToSet(x)
    ensures ToObject(ToObject(x)) == ToObject(x)
    ensures Boolean(Boolean(x)) == Boolean(x)
  {
  }

  /** The members of `T` this model covers. */
  datatype Coercion = AsBoolean | AsSet | AsArray | AsObject | AsIterable | AsOne

  function Coerce(c: Coercion, x: Value): Value {
    match c
    case AsBoolean => Boolean(x)
    case AsSet => ToSet(x)
    case AsArray => ToArray(x)
    case AsObject => ToObject(x)
    case AsIterable => Iterable(x)
    case AsOne => One(x)
  }

  // ----- reify2 (dist/cli.mjs:117-122) -----

  /** The state after `state2[k] = as(state2[k])` for the first n entries of desc. */
  function Reified(desc: seq<(string, Coercion)>, ps: seq<Prop>): seq<Prop>
  {
    if desc == [] then ps
    else
      var last := desc[|desc| - 1];
      var before := Reified(desc[..|desc| - 1], ps);
      Put(before, last.0, Coerce(last.1, Get(before, last.0)))
  }

  /** `reify2(desc)(state2)`: each described field coerced in place, in order. */
  method Reify2(desc: seq<(string, Coercion)>, state: seq<Prop>) returns (r: seq<Prop>)
    ensures r == Reified(desc, state)
  {
    r := state;
    for i := 0 to |desc|
      invariant r == Reified(desc[..i], state)
    {
      var (k, c) := desc[i];
      assert desc[..i + 1][..i] == desc[..i];
      r := Put(r, k, Coerce(c, Get(r, k)));
    }
    assert desc[..|desc|] == desc;
  }

  predicate DistinctNames(desc: seq<(string, Coercion)>) {
    forall i, j :: 0 <= i < j < |desc| ==> desc[i].0 != desc[j].0
  }

  /** A field no entry describes keeps its value. */
  lemma {:induction false} ReifiedMiss(desc: seq<(string, Coercion)>, ps: seq<Prop>, k: string)
    requires forall i :: 0 <= i < |desc| ==> desc[i].0 != k
    ensures Get(Reified(desc, ps), k) == Get(ps, k)
  {
    if desc != [] {
      var init := desc[..|desc| - 1];
      var last := desc[|desc| - 1];
      var before := Reified(init, ps);
      assert forall i :: 0 <= i < |init| ==> init[i].0 != k by {
        forall i | 0 <= i < |init| ensures init[i].0 != k {
          assert init[i] == desc[i];
        }
      }
      ReifiedMiss(init, ps, k);
      GetPut(before, last.0, Coerce(last.1, Get(before, last.0)), k);
    }
  }

  /** The field the i-th entry describes holds its coerced old value. */
  lemma {:induction false} ReifiedHit(desc: seq<(string, Coercion)>, ps: seq<Prop>, i: nat)
    requires DistinctNames(desc) && i < |desc|
    ensures Get(Reified(desc, ps), desc[i].0) == Coerce(desc[i].1, Get(ps, desc[i].0))
  {
    var k := desc[i].0;
    var init := desc[..|desc| - 1];
    var last := desc[|desc| - 1];
    var before := Reified(init, ps);
    GetPut(before, last.0, Coerce(last.1, Get(before, last.0)), k);
    if i == |desc| - 1 {
      assert forall j :: 0 <= j < |init| ==> init[j].0 != k by {
        forall j | 0 <= j < |init| ensures init[j].0 != k {
          assert desc[j].0 != desc[i].0;
        }
      }
      ReifiedMiss(init, ps, k);
    } else {
      assert DistinctNames(init);
      assert init[i] == desc[i];
      assert last.0 != k;
      ReifiedHit(init, ps, i);
    }
  }

  /** After reify2, each described field holds its coerced old value and
      every other field is untouched. */
  lemma ReifiedFields(desc: seq<(string, Coercion)>, ps: seq<Prop>, k: string)
    requires DistinctNames(desc)
    ensures forall i :: 0 <= i < |desc| && desc[i].0 == k ==> Get(Reified(desc, ps), k) == Coerce(desc[i].1, Get(ps, k))
    ensures (forall i :: 0 <= i < |desc| ==> desc[i].0 != k) ==> Get(Reified(desc, ps), k) == Get(ps, k)
  {
    forall i | 0 <= i < |desc| && desc[i].0 == k
      ensures Get(Reified(desc, ps), k) == Coerce(desc[i].1, Get(ps, k))
    {
      ReifiedHit(desc, ps, i);
    }
    if forall i :: 0 <= i < |desc| ==> desc[i].0 != k {
      ReifiedMiss(desc, ps, k);
    }
  }

  /** `number` is the first field of the test's state, so writing it keeps its place. */
  lemma Reify2FirstField(ps: seq<Prop>)
    requires ps == [Prop("number", Num(12)), Prop("string", Str("something"))]
    ensures Get(ps, "number") == Num(12)
    ensures Put(ps, "number", Arr([Num(12)])) == [Prop("number", Arr([Num(12)])), Prop("string", Str("something"))]
  {
  }

  /** `new Set(["something"])` holds the one string. */
  lemma SetOfOneString()
    ensures ToSet(Str("something")) == SetOf([Str("something")])
  {
    var d := [Str("something")];
    assert d[..0] == [];
    assert Dedup(d) == d;
  }

  /** `string` is the second field, and its set holds the one string. */
  lemma Reify2SecondField(ps: seq<Prop>)
    requires ps == [Prop("number", Arr([Num(12)])), Prop("string", Str("something"))]
    ensures Get(ps, "string") == Str("something")
    ensures Put(ps, "string", SetOf([Str("something")])) == [Prop("number", Arr([Num(12)])), Prop("string", SetOf([Str("something")]))]
  {
    assert "number" != "string" by { assert "number"[0] != "string"[0]; }
    assert ps[1..] == [Prop("string", Str("something"))];
  }

  /** The inline test: `{number: 12, string: "something"}` reified by
      `{number: T.Array, string: T.Set}`. */
  lemma Reify2Example()
    ensures Reified([("number", AsArray), ("string", AsSet)],
                    [Prop("number", Num(12)), Prop("string", Str("something"))])
         == [Prop("number", Arr([Num(12)])), Prop("string", SetOf([Str("something")]))]
  {
    var desc := [("number", AsArray), ("string", AsSet)];
    var ps := [Prop("number", Num(12)), Prop("string", Str("something"))];
    var p1 := [Prop("number", Arr([Num(12)])), Prop("string", Str("something"))];
    assert desc[..1][..0] == [] && desc[..1] == [("number", AsArray)];
    assert Reified(desc[..1], ps) == p1 by { Reify2FirstField(ps); }
    assert desc[..|desc| - 1] == desc[..1];
    Reify2SecondField(p1);
    SetOfOneString();
  }
}
