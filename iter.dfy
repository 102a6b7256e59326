/** The normaliser of dist/cli.mjs: `iter` flattens nested values into
    atoms, `iterMap` maps a function over those atoms and flattens again. */
module Iter {
  import opened JsValue

  /** What `iter` yields as is: neither nullish nor an iterable object. */
  predicate IsAtom(x: Value) {
    !IsNullish(x) && !IsIterableObject(x)
  }

  predicate AllAtoms(xs: seq<Value>) {
    forall i :: 0 <= i < |xs| ==> IsAtom(xs[i])
  }

  /** `[...iter(x)]`: nothing for null and undefined, the flattened keys of a
      Map, the flattened elements of any other iterable object, and any other
      value (a string, a function, a plain object) as itself. */
  function Flatten(x: Value): (r: seq<Value>)
    ensures AllAtoms(r)
  {
    match x
    case Undefined => []
    case Null => []
    case Arr(items) => FlattenAll(items)
    case SetOf(items) => FlattenAll(items)
    case MapOf(ks, _) => FlattenAll(ks)
    case _ => [x]
  }

  /** `[...iter(xs)]` for an array xs: each element flattened, in order. */
  function FlattenAll(xs: seq<Value>): (r: seq<Value>)
    ensures AllAtoms(r)
  {
    if xs == [] then [] else Flatten(xs[0]) + FlattenAll(xs[1..])
  }

  lemma {:induction false} FlattenAllAppend(a: seq<Value>, b: seq<Value>)
    ensures FlattenAll(a + b) == FlattenAll(a) + FlattenAll(b)
  {
    if a == [] {
      assert a + b == b;
    } else {
      assert (a + b)[1..] == a[1..] + b;
      FlattenAllAppend(a[1..], b);
    }
  }

  /** A sequence of atoms is its own flattening. */
  lemma {:induction false} FlattenAllOfAtoms(xs: seq<Value>)
    requires AllAtoms(xs)
    ensures FlattenAll(xs) == xs
  {
    if xs != [] {
      FlattenAllOfAtoms(xs[1..]);
    }
  }

  /** Flattening twice is flattening once. */
  lemma FlattenIdempotent(x: Value)
    ensures FlattenAll(Flatten(x)) == Flatten(x)
  {
    FlattenAllOfAtoms(Flatten(x));
  }

  /** Wrapping values in one more array does not change what `iter` yields. */
  lemma FlattenNested(xs: seq<Value>)
    ensures Flatten(Arr([Arr(xs)])) == FlattenAll(xs)
  {
    assert FlattenAll([Arr(xs)]) == Flatten(Arr(xs)) + FlattenAll([]);
  }

  // ----- iterMap (dist/cli.mjs:166-169) -----

  /** `yield* iter(fn(v))` for each atom v, in order. */
  function MapThenFlatten(f: Value -> Value, atoms: seq<Value>): (r: seq<Value>)
    ensures AllAtoms(r)
  {
    if atoms == [] then [] else Flatten(f(atoms[0])) + MapThenFlatten(f, atoms[1..])
  }

  /** `[...iterMap(fn)(...xs)]`. */
  function FlatMap(f: Value -> Value, xs: seq<Value>): (r: seq<Value>)
    ensures AllAtoms(r)
  {
    MapThenFlatten(f, FlattenAll(xs))
  }

  function MapSeq(f: Value -> Value, a: seq<Value>): (r: seq<Value>)
    ensures |r| == |a| && forall i :: 0 <= i < |a| ==> r[i] == f(a[i])
  {
    seq(|a|, i requires 0 <= i < |a| => f(a[i]))
  }

  /** iterMap equals: flatten the inputs, apply fn to every atom, flatten the results. */
  lemma {:induction false} FlatMapIsFlattenOfMap(f: Value -> Value, xs: seq<Value>)
    ensures FlatMap(f, xs) == FlattenAll(MapSeq(f, FlattenAll(xs)))
  {
    MapThenFlattenIsFlattenOfMap(f, FlattenAll(xs));
  }

  lemma {:induction false} MapThenFlattenIsFlattenOfMap(f: Value -> Value, a: seq<Value>)
    ensures MapThenFlatten(f, a) == FlattenAll(MapSeq(f, a))
  {
    if a != [] {
      MapThenFlattenIsFlattenOfMap(f, a[1..]);
      assert MapSeq(f, a)[1..] == MapSeq(f, a[1..]);
    }
  }

  lemma {:induction false} MapThenFlattenAppend(f: Value -> Value, a: seq<Value>, b: seq<Value>)
    ensures MapThenFlatten(f, a + b) == MapThenFlatten(f, a) + MapThenFlatten(f, b)
  {
    if a == [] {
      assert a + b == b;
    } else {
      assert (a + b)[1..] == a[1..] + b;
      MapThenFlattenAppend(f, a[1..], b);
    }
  }

  /** iterMap of several arguments is the concatenation of iterMap of each. */
  lemma FlatMapAppend(f: Value -> Value, a: seq<Value>, b: seq<Value>)
    ensures FlatMap(f, a + b) == FlatMap(f, a) + FlatMap(f, b)
  {
    FlattenAllAppend(a, b);
    MapThenFlattenAppend(f, FlattenAll(a), FlattenAll(b));
  }

  /** iterMap of the identity is iter. */
  lemma {:induction false} FlatMapIdentity(xs: seq<Value>)
    ensures FlatMap(x => x, xs) == FlattenAll(xs)
  {
    MapThenFlattenOfAtoms(FlattenAll(xs));
  }

  lemma {:induction false} MapThenFlattenOfAtoms(a: seq<Value>)
    requires AllAtoms(a)
    ensures MapThenFlatten(x => x, a) == a
  {
    if a != [] {
      MapThenFlattenOfAtoms(a[1..]);
    }
  }

  /** The atoms p keeps, in order. */
  function Keep(p: Value -> bool, a: seq<Value>): (r: seq<Value>)
    ensures |r| <= |a|
  {
    if a == [] then [] else (if p(a[0]) then [a[0]] else []) + Keep(p, a[1..])
  }

  /** An fn that returns its atom or null makes iterMap a filter (the `evens` of the tests). */
  lemma {:induction false} FlatMapFilters(f: Value -> Value, xs: seq<Value>)
    requires forall x :: IsAtom(x) ==> f(x) == x || f(x) == Null
    ensures FlatMap(f, xs) == Keep(x => f(x) == x, FlattenAll(xs))
  {
    KeepByMapThenFlatten(f, FlattenAll(xs));
  }

  lemma {:induction false} KeepByMapThenFlatten(f: Value -> Value, a: seq<Value>)
    requires AllAtoms(a)
    requires forall x :: IsAtom(x) ==> f(x) == x || f(x) == Null
    ensures MapThenFlatten(f, a) == Keep(x => f(x) == x, a)
  {
    if a != [] {
      KeepByMapThenFlatten(f, a[1..]);
    }
  }

  // ----- writing atoms back into their places -----

  /** The value x with its flattened atoms replaced, left to right, by xs:
      what immer's `produce` returns for an input whose atoms were edited. */
  function Refill(x: Value, xs: seq<Value>): (r: Value)
    requires |xs| == |Flatten(x)|
  {
    match x
    case Undefined => x
    case Null => x
    case Arr(items) => Arr(RefillAll(items, xs))
    case SetOf(items) => SetOf(RefillAll(items, xs))
    case MapOf(ks, vs) => MapOf(RefillAll(ks, xs), vs)
    case _ => xs[0]
  }

  function RefillAll(vs: seq<Value>, xs: seq<Value>): (r: seq<Value>)
    requires |xs| == |FlattenAll(vs)|
    ensures |r| == |vs|
  {
    if vs == [] then []
    else
      var n := |Flatten(vs[0])|;
      [Refill(vs[0], xs[..n])] + RefillAll(vs[1..], xs[n..])
  }

  /** Writing back the atoms a value already has gives the value back. */
  lemma {:induction false} RefillFlatten(x: Value)
    ensures Refill(x, Flatten(x)) == x
  {
    match x
    case Arr(items) => RefillAllFlattenAll(items);
    case SetOf(items) => RefillAllFlattenAll(items);
    case MapOf(ks, _) => RefillAllFlattenAll(ks);
    case _ =>
  }

  lemma {:induction false} RefillAllFlattenAll(vs: seq<Value>)
    ensures RefillAll(vs, FlattenAll(vs)) == vs
  {
    if vs != [] {
      var f := FlattenAll(vs);
      var n := |Flatten(vs[0])|;
      assert f[..n] == Flatten(vs[0]) && f[n..] == FlattenAll(vs[1..]);
      RefillFlatten(vs[0]);
      RefillAllFlattenAll(vs[1..]);
    }
  }

  /** Writing atoms back and flattening again yields exactly the atoms written. */
  lemma {:induction false} FlattenRefill(x: Value, xs: seq<Value>)
    requires |xs| == |Flatten(x)| && AllAtoms(xs)
    ensures Flatten(Refill(x, xs)) == xs
  {
    match x
    case Arr(items) => FlattenAllRefillAll(items, xs);
    case SetOf(items) => FlattenAllRefillAll(items, xs);
    case MapOf(ks, _) => FlattenAllRefillAll(ks, xs);
    case _ =>
  }

  lemma {:induction false} FlattenAllRefillAll(vs: seq<Value>, xs: seq<Value>)
    requires |xs| == |FlattenAll(vs)| && AllAtoms(xs)
    ensures FlattenAll(RefillAll(vs, xs)) == xs
  {
    if vs != [] {
      var n := |Flatten(vs[0])|;
      var r := RefillAll(vs, xs);
      assert r[0] == Refill(vs[0], xs[..n]) && r[1..] == RefillAll(vs[1..], xs[n..]);
      FlattenRefill(vs[0], xs[..n]);
      FlattenAllRefillAll(vs[1..], xs[n..]);
      assert xs == xs[..n] + xs[n..];
    }
  }

  // ----- the inline tests (dist/cli.mjs:158-165, 170-182) as lemmas -----

  lemma IterExamples()
    ensures FlattenAll([]) == []
    ensures FlattenAll([Null]) == [] && FlattenAll([Undefined]) == []
    ensures FlattenAll([Num(1)]) == [Num(1)]
    ensures FlattenAll([Arr([Num(1)])]) == [Num(1)]
    ensures FlattenAll([Arr([Num(1), Arr([Num(2), Num(3)]), Num(4)])]) == [Num(1), Num(2), Num(3), Num(4)]
  {
  }

  /** `x + 1` and `x % 2 === 0 ? x : null` on the numbers the tests use. */
  function Inc(x: Value): Value { if x.Num? then Num(x.n + 1) else Undefined }
  function EvenOnly(x: Value): Value { if x.Num? && x.n % 2 == 0 then x else Null }

  /** The nested input both `iterMap` tests use flattens to 1 through 5. */
  lemma NestedInputAtoms()
    ensures FlattenAll([Num(1), Num(2), Arr([Num(3), Arr([Num(4)])]), Num(5)]) == [Num(1), Num(2), Num(3), Num(4), Num(5)]
  {
    var inner := [Num(3), Arr([Num(4)])];
    assert inner[1..] == [Arr([Num(4)])] && [Arr([Num(4)])][1..] == [];
    assert FlattenAll(inner) == [Num(3), Num(4)];
    var xs := [Num(1), Num(2), Arr(inner), Num(5)];
    assert xs[1..] == [Num(2), Arr(inner), Num(5)];
    assert xs[1..][1..] == [Arr(inner), Num(5)];
    assert xs[1..][1..][1..] == [Num(5)];
    assert FlattenAll([Num(5)]) == [Num(5)];
    assert FlattenAll([Arr(inner), Num(5)]) == [Num(3), Num(4), Num(5)];
  }

  /** The inline `incs` test of `iterMap`: every number of the nested input,
      plus one, in order. */
  lemma IterMapIncs()
    ensures FlatMap(Inc, [Num(1), Num(2), Arr([Num(3), Arr([Num(4)])]), Num(5)]) == [Num(2), Num(3), Num(4), Num(5), Num(6)]
  {
    NestedInputAtoms();
    var atoms := [Num(1), Num(2), Num(3), Num(4), Num(5)];
    FiveAtoms(atoms);
    assert MapThenFlatten(Inc, atoms[4..]) == [Num(6)];
    assert MapThenFlatten(Inc, atoms[3..]) == [Num(5), Num(6)];
    assert MapThenFlatten(Inc, atoms[2..]) == [Num(4), Num(5), Num(6)];
    assert MapThenFlatten(Inc, atoms[1..]) == [Num(3), Num(4), Num(5), Num(6)];
  }

  /** The inline `evens` test of `iterMap`: a mapped `null` drops the value. */
  lemma IterMapEvens()
    ensures FlatMap(EvenOnly, [Num(1), Num(2), Arr([Num(3), Arr([Num(4)])]), Num(5)]) == [Num(2), Num(4)]
  {
    NestedInputAtoms();
    var atoms := [Num(1), Num(2), Num(3), Num(4), Num(5)];
    FiveAtoms(atoms);
    assert MapThenFlatten(EvenOnly, atoms[4..]) == [];
    assert MapThenFlatten(EvenOnly, atoms[3..]) == [Num(4)];
    assert MapThenFlatten(EvenOnly, atoms[1..]) == [Num(2), Num(4)];
  }

  /** The tails of the flattened nested input. */
  lemma FiveAtoms(atoms: seq<Value>)
    requires atoms == [Num(1), Num(2), Num(3), Num(4), Num(5)]
    ensures atoms[1..][1..] == atoms[2..] && atoms[2..][1..] == atoms[3..]
    ensures atoms[3..][1..] == atoms[4..] && atoms[4..][1..] == []
    ensures atoms[4..] == [Num(5)] && atoms[3..][0] == Num(4) && atoms[2..][0] == Num(3) && atoms[1..][0] == Num(2)
  {
  }

  /** Empty and nullish inputs give nothing, and only the numbers of a mixed
      input are mapped. */
  lemma IterMapExamples()
    ensures FlatMap(Inc, []) == []
    ensures FlatMap(Inc, [Arr([])]) == [] && FlatMap(Inc, [Null]) == [] && FlatMap(Inc, [Undefined]) == []
    ensures FlatMap(Inc, [Null, Undefined, Num(1)]) == [Num(2)]
  {
    var mixed := [Null, Undefined, Num(1)];
    assert mixed[1..] == [Undefined, Num(1)] && mixed[1..][1..] == [Num(1)];
    assert FlattenAll(mixed) == [Num(1)];
  }
}
