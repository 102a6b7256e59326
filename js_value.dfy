/** JavaScript values as the sift runtime sees them.
    Numbers are integers only; a plain object is an ordered list of
    properties (for..in order is insertion order); any object that is
    iterable but not a Map is an Arr (arrays, generators). */
module JsValue {

  datatype Value =
    | Undefined
    | Null
    | Bool(b: bool)
    | Num(n: int)
    | Str(s: string)
    | Fun(id: nat)                               // a function, known by its identity
    | Obj(props: seq<Prop>)                      // a plain object: prototype Object.prototype
    | Arr(items: seq<Value>)                     // an Array or any other iterable object
    | SetOf(items: seq<Value>)                   // a Set, in insertion order
    | MapOf(keys: seq<Value>, vals: seq<Value>)  // a Map: iteration yields its keys
    | Opaque(tag: nat)                           // any other object (a Promise, a Date, ...)

  datatype Prop = Prop(key: string, val: Value)

  /** Why an operation threw, or that it needs JavaScript the model leaves out:
      a TypeError of the language itself, an exception a plugin raised, a
      value the model has no semantics for, or a drain longer than the bound
      the caller allowed. */
  datatype Fault = TypeError | Thrown | Unsupported | OutOfFuel

  datatype Result<T> = Ok(value: T) | Err(fault: Fault)

  datatype Option<T> = None | Some(value: T)

  /** `x == null`: true of null and undefined. */
  predicate IsNullish(v: Value) {
    v.Undefined? || v.Null?
  }

  /** JavaScript truthiness (NaN is outside the integer model). */
  predicate Truthy(v: Value) {
    match v
    case Undefined => false
    case Null => false
    case Bool(b) => b
    case Num(n) => n != 0
    case Str(s) => s != ""
    case _ => true
  }

  /** `typeof v === "object"`, which holds of null too. */
  predicate IsObjectType(v: Value) {
    v.Null? || v.Obj? || v.Arr? || v.SetOf? || v.MapOf? || v.Opaque?
  }

  /** An object with `Symbol.iterator`. */
  predicate IsIterableObject(v: Value) {
    v.Arr? || v.SetOf? || v.MapOf?
  }

  // ----- sequences -----

  lemma Regroup<T>(a: seq<T>, b: seq<T>, c: seq<T>)
    ensures a + b + c == a + (b + c)
  {
  }

  lemma SplitAppend<T>(a: seq<T>, b: seq<T>, k: nat)
    requires k <= |a|
    ensures (a + b)[..k] == a[..k] && (a + b)[k..] == a[k..] + b
  {
  }

  // ----- property lists -----

  function KeyList(ps: seq<Prop>): (ks: seq<string>)
    ensures |ks| == |ps|
    ensures forall i :: 0 <= i < |ps| ==> ks[i] == ps[i].key
  {
    if ps == [] then [] else [ps[0].key] + KeyList(ps[1..])
  }

  /** What every plain object satisfies: no key occurs twice. */
  predicate DistinctKeys(ps: seq<Prop>) {
    forall i, j :: 0 <= i < j < |ps| ==> ps[i].key != ps[j].key
  }

  predicate HasKey(ps: seq<Prop>, k: string) {
    exists i :: 0 <= i < |ps| && ps[i].key == k
  }

  /** `obj[k]` on a plain object: the value under k, or undefined. */
  function Get(ps: seq<Prop>, k: string): (v: Value)
    ensures !HasKey(ps, k) ==> v == Undefined
  {
    if ps == [] then Undefined
    else if ps[0].key == k then ps[0].val
    else Get(ps[1..], k)
  }

  /** `obj[k] = v` on a plain object: an existing key keeps its place, a new key goes last. */
  function Put(ps: seq<Prop>, k: string, v: Value): (r: seq<Prop>)
    ensures HasKey(ps, k) ==> KeyList(r) == KeyList(ps)
    ensures !HasKey(ps, k) ==> KeyList(r) == KeyList(ps) + [k]
  {
    if ps == [] then [Prop(k, v)]
    else if ps[0].key == k then [Prop(k, v)] + ps[1..]
    else
      assert HasKey(ps, k) <==> HasKey(ps[1..], k) by {
        if HasKey(ps, k) {
          var i :| 0 <= i < |ps| && ps[i].key == k;
          assert ps[1..][i - 1].key == k;
        }
        if HasKey(ps[1..], k) {
          var i :| 0 <= i < |ps| - 1 && ps[1..][i].key == k;
          assert ps[i + 1].key == k;
        }
      }
      [ps[0]] + Put(ps[1..], k, v)
  }

  lemma {:induction false} GetPut(ps: seq<Prop>, k: string, v: Value, k': string)
    ensures Get(Put(ps, k, v), k') == if k' == k then v else Get(ps, k')
  {
    if ps != [] && ps[0].key != k {
      GetPut(ps[1..], k, v, k');
    }
  }

  lemma {:induction false} PutKeepsDistinct(ps: seq<Prop>, k: string, v: Value)
    requires DistinctKeys(ps)
    ensures DistinctKeys(Put(ps, k, v))
  {
    var r := Put(ps, k, v);
    var ks := KeyList(r);
    assert forall i :: 0 <= i < |r| ==> ks[i] == r[i].key;
    if HasKey(ps, k) {
      assert KeyList(r) == KeyList(ps);
    } else {
      assert KeyList(r) == KeyList(ps) + [k];
      forall i | 0 <= i < |ps| ensures ps[i].key != k { }
    }
  }

  lemma {:induction false} HasKeyIffInKeyList(ps: seq<Prop>, k: string)
    ensures HasKey(ps, k) <==> k in KeyList(ps)
  {
    var ks := KeyList(ps);
    if HasKey(ps, k) {
      var i :| 0 <= i < |ps| && ps[i].key == k;
      assert ks[i] == k;
    }
    if k in ks {
      var i :| 0 <= i < |ks| && ks[i] == k;
      assert ps[i].key == k;
    }
  }

  /** Under distinct keys, the i-th property is what `obj[key]` reads. */
  lemma {:induction false} GetAt(ps: seq<Prop>, i: int)
    requires DistinctKeys(ps) && 0 <= i < |ps|
    ensures Get(ps, ps[i].key) == ps[i].val
  {
    if i > 0 {
      GetAt(ps[1..], i - 1);
    }
  }

  // ----- keys and entries (dist/cli.mjs:148-157) -----

  /** `keys(obj)`: the keys of a plain object in insertion order, nothing for
      anything else. */
  function Keys(v: Value): (ks: seq<string>)
    ensures forall k :: k in ks <==> v.Obj? && HasKey(v.props, k)
    ensures |ks| == if v.Obj? then |v.props| else 0
    ensures v.Obj? ==> forall i :: 0 <= i < |ks| ==> ks[i] == v.props[i].key
  {
    if v.Obj? then
      assert forall k :: HasKey(v.props, k) <==> k in KeyList(v.props) by {
        forall k ensures HasKey(v.props, k) <==> k in KeyList(v.props) {
          HasKeyIffInKeyList(v.props, k);
        }
      }
      KeyList(v.props)
    else []
  }

  /** `entries(obj)`: `[k, obj[k]]` for each key of a plain object; on a plain
      object (whose keys are distinct) the i-th entry is the i-th property. */
  function Entries(v: Value): (es: seq<(string, Value)>)
    ensures |es| == |Keys(v)|
    ensures forall i :: 0 <= i < |es| ==> es[i].0 == Keys(v)[i]
    ensures v.Obj? && DistinctKeys(v.props) ==>
      forall i :: 0 <= i < |es| ==> es[i] == (v.props[i].key, v.props[i].val)
  {
    if v.Obj? then
      var es := seq(|v.props|, i requires 0 <= i < |v.props| => (v.props[i].key, Get(v.props, v.props[i].key)));
      assert DistinctKeys(v.props) ==> forall i :: 0 <= i < |es| ==> es[i] == (v.props[i].key, v.props[i].val) by {
        if DistinctKeys(v.props) {
          forall i | 0 <= i < |es| ensures es[i] == (v.props[i].key, v.props[i].val) {
            GetAt(v.props, i);
          }
        }
      }
      es
    else []
  }

  /** `v[k]` for a value that is not null or undefined; only plain objects have fields here. */
  function Member(v: Value, k: string): Value {
    if v.Obj? then Get(v.props, k) else Undefined
  }

  /** `v[k] = x` in strict mode: a plain object takes the field; writing a field
      of null, undefined or a primitive throws; fields of other objects are not
      part of the model. */
  function Write(v: Value, k: string, x: Value): (r: Result<Value>)
    ensures r.Ok? <==> v.Obj?
    ensures r.Ok? ==> r.value.Obj?
    ensures (v.Undefined? || v.Null? || v.Bool? || v.Num? || v.Str?) <==> r == Err(TypeError)
  {
    match v
    case Obj(ps) => Ok(Obj(Put(ps, k, x)))
    case Undefined => Err(TypeError)
    case Null => Err(TypeError)
    case Bool(_) => Err(TypeError)
    case Num(_) => Err(TypeError)
    case Str(_) => Err(TypeError)
    case _ => Err(Unsupported)
  }

  /** A write sets the field it names and no other. */
  lemma WriteFrame(v: Value, k: string, x: Value)
    requires v.Obj?
    ensures Member(Write(v, k, x).value, k) == x
    ensures forall k' :: k' != k ==> Member(Write(v, k, x).value, k') == Member(v, k')
  {
    forall k' ensures Member(Write(v, k, x).value, k') == if k' == k then x else Member(v, k') {
      GetPut(v.props, k, x, k');
    }
  }

  /** `v[k] ??= x` on a value that is not null or undefined. */
  function Default(v: Value, k: string, x: Value): (r: Result<Value>)
    ensures !IsNullish(Member(v, k)) ==> r == Ok(v)
  {
    if IsNullish(Member(v, k)) then Write(v, k, x) else Ok(v)
  }

  /** `v[k][j] = x`: the inner object is changed, so v holds the changed one. */
  function WriteIn(v: Value, k: string, j: string, x: Value): Result<Value> {
    match Write(Member(v, k), j, x)
    case Err(f) => Err(f)
    case Ok(inner) => Write(v, k, inner)
  }

  /** `v[k][j] = x` on a plain object whose field k is a plain object sets that
      one inner field: nothing else in v or in v[k] reads differently. */
  lemma WriteInFrame(v: Value, k: string, j: string, x: Value)
    requires v.Obj? && Member(v, k).Obj?
    ensures WriteIn(v, k, j, x).Ok?
    ensures WriteIn(v, k, j, x).value.Obj?
    ensures Member(WriteIn(v, k, j, x).value, k) == Write(Member(v, k), j, x).value
    ensures Member(Member(WriteIn(v, k, j, x).value, k), j) == x
    ensures forall j' :: j' != j ==> Member(Member(WriteIn(v, k, j, x).value, k), j') == Member(Member(v, k), j')
    ensures forall k' :: k' != k ==> Member(WriteIn(v, k, j, x).value, k') == Member(v, k')
  {
    WriteFrame(Member(v, k), j, x);
    WriteFrame(v, k, Write(Member(v, k), j, x).value);
  }

  // ----- property keys -----

  function Digit(d: nat): char
    requires d < 10
  {
    "0123456789"[d]
  }

  /** The decimal numeral of n. */
  function Decimal(n: nat): (s: string)
    ensures |s| >= 1 && forall i :: 0 <= i < |s| ==> '0' <= s[i] <= '9'
  {
    if n < 10 then [Digit(n)] else Decimal(n / 10) + [Digit(n % 10)]
  }

  /** The string a value becomes when used as a property key; lists, Sets, Maps,
      functions and other objects are not part of the model. */
  function PropKey(v: Value): (r: Result<string>)
    ensures v.Str? ==> r == Ok(v.s)
  {
    match v
    case Undefined => Ok("undefined")
    case Null => Ok("null")
    case Bool(b) => Ok(if b then "true" else "false")
    case Num(n) => Ok(if n < 0 then "-" + Decimal(-n) else Decimal(n))
    case Str(s) => Ok(s)
    case Obj(_) => Ok("[object Object]")
    case _ => Err(Unsupported)
  }
}
