/** `deepAssign(target, ...sources)` of dist/cli.mjs:190-199: every key of a
    plain-object source is written into the target, recursing where both
    sides are objects (`typeof === "object"`, which includes null) and
    overwriting otherwise.  Objects are values here, so the merged target is
    returned rather than changed in place. */
module Merge {
  import opened JsValue

  /** Every plain object inside v has distinct keys, as JavaScript objects do. */
  predicate WellFormed(v: Value) {
    match v
    case Obj(ps) => DistinctKeys(ps) && forall i :: 0 <= i < |ps| ==> WellFormed(ps[i].val)
    case _ => true
  }

  /** `deepAssign(target, source)`: keys(source) is empty unless source is a plain object. */
  function Assign(target: Value, source: Value): Result<Value>
    decreases source, 0
  {
    if source.Obj? then AssignProps(target, source.props) else Ok(target)
  }

  /** The loop over the source's keys, one key after the other. */
  function AssignProps(target: Value, ps: seq<Prop>): Result<Value>
    decreases ps, 0
  {
    if ps == [] then Ok(target)
    else
      match AssignProps(target, ps[..|ps| - 1])
      case Err(f) => Err(f)
      case Ok(t) => AssignKey(t, ps[|ps| - 1].key, ps[|ps| - 1].val)
  }

  /** One step: recurse when `target[k]` and `source[k]` are both objects, overwrite otherwise.
      Reading a field of null or undefined throws, and so does writing one on a
      primitive in strict mode; fields of arrays, Maps, Sets, functions and
      other objects are not part of the model. */
  function AssignKey(target: Value, k: string, v: Value): Result<Value>
    decreases v, 1
  {
    match target
    case Obj(tp) =>
      var cur := Get(tp, k);
      if IsObjectType(cur) && IsObjectType(v) then
        match Assign(cur, v)
        case Err(f) => Err(f)
        case Ok(c) => Ok(Obj(Put(tp, k, c)))
      else Ok(Obj(Put(tp, k, v)))
    case Undefined => Err(TypeError)
    case Null => Err(TypeError)
    case Bool(_) => Err(TypeError)
    case Num(_) => Err(TypeError)
    case Str(_) => Err(TypeError)
    case _ => Err(Unsupported)
  }

  /** `deepAssign(target, ...sources)`: the sources merged in one after the other. */
  function AssignAll(target: Value, sources: seq<Value>): Result<Value>
  {
    if sources == [] then Ok(target)
    else
      match AssignAll(target, sources[..|sources| - 1])
      case Err(f) => Err(f)
      case Ok(t) => Assign(t, sources[|sources| - 1])
  }

  /** Once a merge throws, the keys after it are never reached. */
  lemma {:induction false} AssignPropsErrSticks(t: Value, ps: seq<Prop>, j: nat)
    requires j <= |ps| && AssignProps(t, ps[..j]).Err?
    ensures AssignProps(t, ps) == AssignProps(t, ps[..j])
    decreases |ps|
  {
    if j < |ps| {
      var init := ps[..|ps| - 1];
      assert init[..j] == ps[..j];
      AssignPropsErrSticks(t, init, j);
    } else {
      assert ps[..j] == ps;
    }
  }

  lemma {:induction false} AssignAllErrSticks(t: Value, sources: seq<Value>, j: nat)
    requires j <= |sources| && AssignAll(t, sources[..j]).Err?
    ensures AssignAll(t, sources) == AssignAll(t, sources[..j])
    decreases |sources|
  {
    if j < |sources| {
      var init := sources[..|sources| - 1];
      assert init[..j] == sources[..j];
      AssignAllErrSticks(t, init, j);
    } else {
      assert sources[..j] == sources;
    }
  }

  /** The recursive merge of one source, as the source code runs it: a loop over
      the keys that recurses into nested objects. */
  method AssignFrom(target: Value, source: Value) returns (r: Result<Value>)
    ensures r == Assign(target, source)
    decreases source, 0
  {
    if !source.Obj? {
      return Ok(target);
    }
    var ps := source.props;
    var t := target;
    for i := 0 to |ps|
      invariant AssignProps(target, ps[..i]) == Ok(t)
    {
      ghost var pre := ps[..i + 1];
      assert pre[..|pre| - 1] == ps[..i] && pre[|pre| - 1] == ps[i];
      var step := AssignKeyStep(t, ps[i].key, ps[i].val);
      assert AssignProps(target, pre) == step;
      if step.Err? {
        AssignPropsErrSticks(target, ps, i + 1);
        return step;
      }
      t := step.value;
    }
    assert ps[..|ps|] == ps;
    return Ok(t);
  }

  /** One pass of that loop: `target[k] = source[k]`, or the recursive call. */
  method AssignKeyStep(target: Value, k: string, v: Value) returns (r: Result<Value>)
    ensures r == AssignKey(target, k, v)
    decreases v, 1
  {
    match target {
      case Obj(tp) =>
        var cur := Get(tp, k);
        if IsObjectType(cur) && IsObjectType(v) {
          var sub := AssignFrom(cur, v);
          if sub.Err? {
            return Err(sub.fault);
          }
          r := Ok(Obj(Put(tp, k, sub.value)));
        } else {
          r := Ok(Obj(Put(tp, k, v)));
        }
      case Undefined => r := Err(TypeError);
      case Null => r := Err(TypeError);
      case Bool(_) => r := Err(TypeError);
      case Num(_) => r := Err(TypeError);
      case Str(_) => r := Err(TypeError);
      case _ => r := Err(Unsupported);
    }
  }

  /** `deepAssign(target, ...sources)`. */
  method DeepAssign(target: Value, sources: seq<Value>) returns (r: Result<Value>)
    ensures r == AssignAll(target, sources)
  {
    var t := target;
    for s := 0 to |sources|
      invariant AssignAll(target, sources[..s]) == Ok(t)
    {
      assert sources[..s + 1][..s] == sources[..s];
      var step := AssignFrom(t, sources[s]);
      if step.Err? {
        AssignAllErrSticks(target, sources, s + 1);
        return step;
      }
      t := step.value;
    }
    assert sources[..|sources|] == sources;
    return Ok(t);
  }

  // ----- what a merge does, key by key -----

  /** The value `target[k]` ends up with when source[k] is v. */
  function Merged(cur: Value, v: Value): Result<Value>
  {
    if IsObjectType(cur) && IsObjectType(v) then Assign(cur, v) else Ok(v)
  }

  function KeysOf(ps: seq<Prop>): set<string> {
    set i | 0 <= i < |ps| :: ps[i].key
  }

  /** A successful merge into a plain object: every key of the source holds the
      merge of the old value and the source's, every other key is untouched,
      and the keys are the old ones followed by the source's new ones. */
  lemma {:induction false} AssignPropsPointwise(tp: seq<Prop>, ps: seq<Prop>)
    requires DistinctKeys(ps)
    requires AssignProps(Obj(tp), ps).Ok?
    ensures AssignProps(Obj(tp), ps).value.Obj?
    ensures forall k :: k !in KeysOf(ps) ==> Get(AssignProps(Obj(tp), ps).value.props, k) == Get(tp, k)
    ensures forall i :: 0 <= i < |ps| ==>
      Merged(Get(tp, ps[i].key), ps[i].val) == Ok(Get(AssignProps(Obj(tp), ps).value.props, ps[i].key))
    ensures forall k :: HasKey(AssignProps(Obj(tp), ps).value.props, k) <==> HasKey(tp, k) || k in KeysOf(ps)
  {
    if ps != [] {
      var init := ps[..|ps| - 1];
      var k, v := ps[|ps| - 1].key, ps[|ps| - 1].val;
      assert DistinctKeys(init);
      AssignPropsPointwise(tp, init);
      var t := AssignProps(Obj(tp), init).value;
      var cur := Get(t.props, k);
      assert k !in KeysOf(init) by {
        forall i | 0 <= i < |init| ensures init[i].key != k { assert ps[i].key != ps[|ps| - 1].key; }
      }
      assert cur == Get(tp, k);
      var c := Merged(cur, v).value;
      var r := Obj(Put(t.props, k, c));
      assert AssignProps(Obj(tp), ps) == Ok(r);
      assert forall k' :: Get(r.props, k') == if k' == k then c else Get(t.props, k') by {
        forall k' ensures Get(r.props, k') == if k' == k then c else Get(t.props, k') {
          GetPut(t.props, k, c, k');
        }
      }
      assert KeysOf(ps) == KeysOf(init) + {k} by {
        forall x | x in KeysOf(ps) ensures x in KeysOf(init) + {k} {
          var i :| 0 <= i < |ps| && ps[i].key == x;
          if i < |ps| - 1 { assert init[i].key == x; }
        }
      }
      assert forall x :: HasKey(r.props, x) <==> HasKey(t.props, x) || x == k by {
        forall x ensures HasKey(r.props, x) <==> HasKey(t.props, x) || x == k {
          HasKeyIffInKeyList(r.props, x);
          HasKeyIffInKeyList(t.props, x);
        }
      }
      assert forall i :: 0 <= i < |ps| - 1 ==> init[i] == ps[i];
    }
  }

  /** A merge into a plain object with distinct keys leaves its keys distinct. */
  lemma {:induction false} AssignPropsKeepsDistinct(tp: seq<Prop>, ps: seq<Prop>)
    requires DistinctKeys(tp)
    requires AssignProps(Obj(tp), ps).Ok?
    ensures AssignProps(Obj(tp), ps).value.Obj?
    ensures DistinctKeys(AssignProps(Obj(tp), ps).value.props)
  {
    if ps != [] {
      var init := ps[..|ps| - 1];
      AssignPropsKeepsDistinct(tp, init);
      var t := AssignProps(Obj(tp), init).value;
      var k, v := ps[|ps| - 1].key, ps[|ps| - 1].val;
      var cur := Get(t.props, k);
      if IsObjectType(cur) && IsObjectType(v) {
        PutKeepsDistinct(t.props, k, Assign(cur, v).value);
      } else {
        PutKeepsDistinct(t.props, k, v);
      }
    }
  }

  /** A field the source sets to a value that is not an object: both merges leave that value. */
  lemma MergeBackOwn(cached: Value, source: Value, f: string)
    requires cached.Obj? && source.Obj? && DistinctKeys(cached.props) && DistinctKeys(source.props)
    requires Assign(cached, source).Ok? && Assign(source, Assign(cached, source).value).Ok?
    requires HasKey(source.props, f) && !IsObjectType(Get(source.props, f))
    ensures Assign(cached, source).value.Obj? && Assign(source, Assign(cached, source).value).value.Obj?
    ensures Get(Assign(cached, source).value.props, f) == Get(source.props, f)
    ensures Get(Assign(source, Assign(cached, source).value).value.props, f) == Get(source.props, f)
  {
    var c1 := Assign(cached, source).value;
    AssignPropsPointwise(cached.props, source.props);
    AssignPropsKeepsDistinct(cached.props, source.props);
    AssignPropsPointwise(source.props, c1.props);
    var i :| 0 <= i < |source.props| && source.props[i].key == f;
    GetAt(source.props, i);
    assert f in KeysOf(source.props);
    var n :| 0 <= n < |c1.props| && c1.props[n].key == f;
    GetAt(c1.props, n);
  }

  /** A key the source does not set reads in the merge as it did in the target. */
  lemma MergeKeepsOther(tp: seq<Prop>, ps: seq<Prop>, f: string)
    requires DistinctKeys(ps) && AssignProps(Obj(tp), ps).Ok?
    requires !HasKey(ps, f)
    ensures AssignProps(Obj(tp), ps).value.Obj?
    ensures Get(AssignProps(Obj(tp), ps).value.props, f) == Get(tp, f)
  {
    AssignPropsPointwise(tp, ps);
    assert f !in KeysOf(ps) by {
      forall i | 0 <= i < |ps| ensures ps[i].key != f { }
    }
  }

  /** Merging into a target that lacks a key copies the source's value for it. */
  lemma MergeCopiesNew(tp: seq<Prop>, ps: seq<Prop>, f: string)
    requires DistinctKeys(ps) && AssignProps(Obj(tp), ps).Ok?
    requires !HasKey(tp, f)
    ensures AssignProps(Obj(tp), ps).value.Obj?
    ensures Get(AssignProps(Obj(tp), ps).value.props, f) == Get(ps, f)
  {
    if HasKey(ps, f) {
      AssignPropsPointwise(tp, ps);
      var n :| 0 <= n < |ps| && ps[n].key == f;
      GetAt(ps, n);
    } else {
      MergeKeepsOther(tp, ps, f);
    }
  }

  /** A field only the cached object has: the source takes it from the merge. */
  lemma MergeBackOther(cached: Value, source: Value, f: string)
    requires cached.Obj? && source.Obj? && DistinctKeys(cached.props) && DistinctKeys(source.props)
    requires Assign(cached, source).Ok? && Assign(source, Assign(cached, source).value).Ok?
    requires !HasKey(source.props, f)
    ensures Assign(source, Assign(cached, source).value).value.Obj?
    ensures Get(Assign(source, Assign(cached, source).value).value.props, f) == Get(cached.props, f)
  {
    var c1 := Assign(cached, source).value;
    MergeKeepsOther(cached.props, source.props, f);
    AssignPropsKeepsDistinct(cached.props, source.props);
    MergeCopiesNew(source.props, c1.props, f);
  }

  /** The two merges key by key: the source's keys merge into the target's,
      the keys of the result merge back into the source, and the keys of each
      result are those of both sides. */
  lemma MergeBothWays(tp: seq<Prop>, sp: seq<Prop>)
    requires DistinctKeys(tp) && DistinctKeys(sp)
    requires AssignProps(Obj(tp), sp).Ok?
    requires Assign(Obj(sp), AssignProps(Obj(tp), sp).value).Ok?
    ensures var c1 := AssignProps(Obj(tp), sp).value;
      var i1 := Assign(Obj(sp), c1).value;
      c1.Obj? && i1.Obj? &&
      (forall f :: HasKey(sp, f) ==> Merged(Get(tp, f), Get(sp, f)) == Ok(Get(c1.props, f))) &&
      (forall f :: !HasKey(sp, f) ==> Get(c1.props, f) == Get(tp, f)) &&
      (forall f :: HasKey(c1.props, f) <==> HasKey(tp, f) || HasKey(sp, f)) &&
      (forall f :: HasKey(c1.props, f) ==> Merged(Get(sp, f), Get(c1.props, f)) == Ok(Get(i1.props, f))) &&
      (forall f :: HasKey(i1.props, f) <==> HasKey(c1.props, f))
  {
    var c1 := AssignProps(Obj(tp), sp).value;
    AssignPropsPointwise(tp, sp);
    AssignPropsKeepsDistinct(tp, sp);
    var i1 := AssignProps(Obj(sp), c1.props).value;
    AssignPropsPointwise(sp, c1.props);
    forall f | HasKey(sp, f) ensures Merged(Get(tp, f), Get(sp, f)) == Ok(Get(c1.props, f)) {
      var i :| 0 <= i < |sp| && sp[i].key == f;
      GetAt(sp, i);
    }
    forall f | !HasKey(sp, f) ensures Get(c1.props, f) == Get(tp, f) {
      assert f !in KeysOf(sp);
    }
    forall f ensures HasKey(c1.props, f) <==> HasKey(tp, f) || HasKey(sp, f) {
      if HasKey(sp, f) {
        var i :| 0 <= i < |sp| && sp[i].key == f;
        assert f in KeysOf(sp);
      }
    }
    forall f | HasKey(c1.props, f) ensures Merged(Get(sp, f), Get(c1.props, f)) == Ok(Get(i1.props, f)) {
      var i :| 0 <= i < |c1.props| && c1.props[i].key == f;
      GetAt(c1.props, i);
    }
    forall f ensures HasKey(i1.props, f) <==> HasKey(c1.props, f) {
      if HasKey(c1.props, f) {
        var i :| 0 <= i < |c1.props| && c1.props[i].key == f;
        assert f in KeysOf(c1.props);
      }
      if HasKey(sp, f) {
        var i :| 0 <= i < |sp| && sp[i].key == f;
        assert f in KeysOf(sp);
      }
    }
  }

  /** Merging a message into a cached object and the result back into the
      message: the message keeps every field it sets to a value that is not an
      object, the cached object takes those too, and the message gains every
      field only the cached object has. */
  lemma MergeBack(cached: Value, source: Value)
    requires cached.Obj? && source.Obj? && DistinctKeys(cached.props) && DistinctKeys(source.props)
    requires Assign(cached, source).Ok? && Assign(source, Assign(cached, source).value).Ok?
    ensures Assign(cached, source).value.Obj? && Assign(source, Assign(cached, source).value).value.Obj?
    ensures forall f :: HasKey(source.props, f) && !IsObjectType(Get(source.props, f)) ==>
      Get(Assign(cached, source).value.props, f) == Get(source.props, f) &&
      Get(Assign(source, Assign(cached, source).value).value.props, f) == Get(source.props, f)
    ensures forall f :: !HasKey(source.props, f) ==>
      Get(Assign(source, Assign(cached, source).value).value.props, f) == Get(cached.props, f)
  {
    AssignPropsKeepsDistinct(cached.props, source.props);
    AssignPropsPointwise(source.props, Assign(cached, source).value.props);
    forall f | HasKey(source.props, f) && !IsObjectType(Get(source.props, f))
      ensures Get(Assign(cached, source).value.props, f) == Get(source.props, f)
      ensures Get(Assign(source, Assign(cached, source).value).value.props, f) == Get(source.props, f)
    {
      MergeBackOwn(cached, source, f);
    }
    forall f | !HasKey(source.props, f)
      ensures Get(Assign(source, Assign(cached, source).value).value.props, f) == Get(cached.props, f)
    {
      MergeBackOther(cached, source, f);
    }
  }

  /** The inline test: `{a: 1, c: 3}` merged with `{a: {b: 2}}` is `{a: {b: 2}, c: 3}`. */
  lemma DeepAssignExample()
    ensures AssignAll(Obj([Prop("a", Num(1)), Prop("c", Num(3))]), [Obj([Prop("a", Obj([Prop("b", Num(2))]))])])
         == Ok(Obj([Prop("a", Obj([Prop("b", Num(2))])), Prop("c", Num(3))]))
  {
    var tgt := Obj([Prop("a", Num(1)), Prop("c", Num(3))]);
    var src := Obj([Prop("a", Obj([Prop("b", Num(2))]))]);
    var ps := src.props;
    assert ps[..0] == [];
    assert [src][..0] == [];
    assert AssignAll(tgt, [src][..0]) == Ok(tgt);
    assert Get(tgt.props, "a") == Num(1);
    assert AssignKey(tgt, "a", Obj([Prop("b", Num(2))])) == Ok(Obj(Put(tgt.props, "a", Obj([Prop("b", Num(2))]))));
    assert AssignProps(tgt, ps) == AssignKey(tgt, "a", Obj([Prop("b", Num(2))]));
    assert Assign(tgt, src) == AssignProps(tgt, ps);
    assert AssignAll(tgt, [src]) == Assign(tgt, src);
    assert Put(tgt.props, "a", Obj([Prop("b", Num(2))])) == [Prop("a", Obj([Prop("b", Num(2))])), Prop("c", Num(3))];
  }

  /** `typeof null === "object"`: a null source value never replaces an object
      already in the target, since `keys(null)` is empty. */
  lemma NullNeverOverwrites(tp: seq<Prop>, k: string)
    requires IsObjectType(Get(tp, k))
    ensures AssignKey(Obj(tp), k, Null) == Ok(Obj(Put(tp, k, Get(tp, k))))
    ensures Get(Put(tp, k, Get(tp, k)), k) == Get(tp, k)
  {
    GetPut(tp, k, Get(tp, k), k);
  }

  /** Reading a field of null or undefined, or writing one on a primitive,
      throws: merging a source that has keys into such a target fails on its
      first key. */
  lemma PrimitiveTargetThrows(target: Value, source: Value)
    requires target.Undefined? || target.Null? || target.Bool? || target.Num? || target.Str?
    requires source.Obj? && source.props != []
    ensures Assign(target, source) == Err(TypeError)
  {
    var ps := source.props;
    var first := ps[..1];
    assert first[..0] == [];
    assert AssignProps(target, first) == Err(TypeError);
    AssignPropsErrSticks(target, ps, 1);
  }

  /** The other side of the same test: a source object with keys meeting a null
      already in a plain-object target makes the whole merge throw, whatever
      the keys merged before it. */
  lemma NullTargetThrows(tp: seq<Prop>, sp: seq<Prop>, i: nat)
    requires DistinctKeys(sp) && i < |sp|
    requires Get(tp, sp[i].key).Null?
    requires sp[i].val.Obj? && sp[i].val.props != []
    ensures Assign(Obj(tp), Obj(sp)).Err?
  {
    var k, v := sp[i].key, sp[i].val;
    var pre := sp[..i + 1];
    assert pre[..|pre| - 1] == sp[..i] && pre[|pre| - 1] == sp[i];
    if AssignProps(Obj(tp), sp[..i]).Ok? {
      var t := AssignProps(Obj(tp), sp[..i]).value;
      assert t.Obj? && Get(t.props, k) == Null by {
        assert DistinctKeys(sp[..i]);
        AssignPropsPointwise(tp, sp[..i]);
        assert k !in KeysOf(sp[..i]) by {
          forall j | 0 <= j < i ensures sp[..i][j].key != k { }
        }
      }
      PrimitiveTargetThrows(Null, v);
      assert AssignProps(Obj(tp), pre) == AssignKey(t, k, v);
    } else {
      AssignPropsErrSticks(Obj(tp), pre, i);
    }
    AssignPropsErrSticks(Obj(tp), sp, i + 1);
  }

  /** The inline test's instance: `{a: null}` merged with `{a: {b: 1}}`. */
  lemma NullTargetExample()
    ensures Assign(Obj([Prop("a", Null)]), Obj([Prop("a", Obj([Prop("b", Num(1))]))])).Err?
  {
    NullTargetThrows([Prop("a", Null)], [Prop("a", Obj([Prop("b", Num(1))]))], 0);
  }

  /** Writing back the value a key already holds changes nothing. */
  lemma {:induction false} PutSame(ps: seq<Prop>, k: string, v: Value)
    requires HasKey(ps, k) && Get(ps, k) == v
    ensures Put(ps, k, v) == ps
  {
    if ps[0].key != k {
      var i :| 0 <= i < |ps| && ps[i].key == k;
      assert ps[1..][i - 1].key == k;
      PutSame(ps[1..], k, v);
    }
  }

  /** Merging a well-formed value into itself gives it back unchanged. */
  lemma {:induction false} AssignSelf(x: Value)
    requires WellFormed(x)
    ensures Assign(x, x) == Ok(x)
    decreases x, 1, 0
  {
    if x.Obj? {
      AssignPropsSelf(x.props, |x.props|);
      assert x.props[..|x.props|] == x.props;
    }
  }

  lemma {:induction false} AssignPropsSelf(ps: seq<Prop>, n: nat)
    requires WellFormed(Obj(ps)) && n <= |ps|
    ensures AssignProps(Obj(ps), ps[..n]) == Ok(Obj(ps))
    decreases ps, 0, n
  {
    if n > 0 {
      AssignPropsSelf(ps, n - 1);
      var pre := ps[..n];
      assert pre[..|pre| - 1] == ps[..n - 1] && pre[|pre| - 1] == ps[n - 1];
      var k, v := ps[n - 1].key, ps[n - 1].val;
      GetAt(ps, n - 1);
      if IsObjectType(v) {
        AssignSelf(v);
      }
      PutSame(ps, k, v);
    }
  }
}
