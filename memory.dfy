/** The identity and index plugins of dist/cli.mjs:294-340 and the `config`
    plugin of dist/cli.mjs:363-370. Each is an extension that, given a message,
    returns a transition; the transitions change the state draft `state2` and
    the message draft `input` in place. Drafts are values here: a transition
    takes the message and the state and gives back the changed ones. */
module Memory {
  import opened JsValue
  import opened Iter
  import opened Merge

  /** What calling an indexer function on a message returns, or that it threw. */
  type Indexers = (nat, Value) -> Result<Value>

  /** `indexer(input)`: calling a value that is not a function throws. */
  function Call(ix: Indexers, f: Value, input: Value): Result<Value> {
    if f.Fun? then ix(f.id, input) else Err(TypeError)
  }

  // ----- acceptIndexes (dist/cli.mjs:294-301) -----

  /** `state2.indexers[name] = fn`, then `state2[name] ??= state2[name]`: the
      second assignment writes back what it read, so on an absent name it
      creates the field holding undefined and changes no lookup. */
  function Register(state: Value, name: string, f: Value): Result<Value> {
    match WriteIn(state, "indexers", name, f)
    case Err(e) => Err(e)
    case Ok(s1) => if IsNullish(Member(s1, name)) then Write(s1, name, Member(s1, name)) else Ok(s1)
  }

  function RegisterAll(state: Value, es: seq<(string, Value)>): Result<Value>
    decreases |es|
  {
    if es == [] then Ok(state)
    else
      match Register(state, es[0].0, es[0].1)
      case Err(e) => Err(e)
      case Ok(s1) => RegisterAll(s1, es[1..])
  }

  /** The transition `acceptIndexes(input)` returns, applied to the state. */
  function AcceptIndexes(input: Value, state: Value): Result<Value>
    requires !IsNullish(input) && state.Obj?
  {
    match Default(state, "indexers", Obj([]))
    case Err(e) => Err(e)
    case Ok(s1) => RegisterAll(s1, Entries(Member(input, "indexers")))
  }

  method AcceptIndexesLoop(input: Value, state: Value) returns (r: Result<Value>)
    requires !IsNullish(input) && state.Obj?
    ensures r == AcceptIndexes(input, state)
  {
    var s := state;
    if IsNullish(Member(s, "indexers")) {
      s := Write(s, "indexers", Obj([])).value;
    }
    var es := Entries(Member(input, "indexers"));
    for i := 0 to |es|
      invariant AcceptIndexes(input, state) == RegisterAll(s, es[i..])
    {
      assert es[i..][0] == es[i] && es[i..][1..] == es[i + 1..];
      var (name, f) := es[i];
      var t := WriteIn(s, "indexers", name, f);
      if t.Err? {
        return t;
      }
      s := t.value;
      if IsNullish(Member(s, name)) {
        t := Write(s, name, Member(s, name));
        if t.Err? {
          return t;
        }
        s := t.value;
      }
    }
    assert es[|es|..] == [];
    return Ok(s);
  }

  /** One registration: the name holds its function, and nothing else that is
      looked up reads differently. */
  lemma RegisterSpec(state: Value, name: string, f: Value)
    requires state.Obj? && Member(state, "indexers").Obj?
    ensures Register(state, name, f).Ok?
    ensures var s := Register(state, name, f).value;
      s.Obj? && Member(s, "indexers").Obj? &&
      Member(Member(s, "indexers"), name) == f &&
      (forall k :: k != "indexers" ==> Member(s, k) == Member(state, k)) &&
      (forall k :: k != name ==> Member(Member(s, "indexers"), k) == Member(Member(state, "indexers"), k))
  {
    WriteInFrame(state, "indexers", name, f);
    var s1 := WriteIn(state, "indexers", name, f).value;
    if IsNullish(Member(s1, name)) {
      WriteFrame(s1, name, Member(s1, name));
    }
  }

  /** Registering indexers into a plain `indexers` object: each name then holds
      its function, names not registered keep what they held, and no other
      field of the state reads differently. */
  lemma {:induction false} RegisterAllSpec(state: Value, es: seq<(string, Value)>)
    requires state.Obj? && Member(state, "indexers").Obj?
    requires forall i, j :: 0 <= i < j < |es| ==> es[i].0 != es[j].0
    ensures RegisterAll(state, es).Ok?
    ensures var s := RegisterAll(state, es).value;
      s.Obj? && Member(s, "indexers").Obj? &&
      (forall k :: k != "indexers" ==> Member(s, k) == Member(state, k)) &&
      (forall i :: 0 <= i < |es| ==> Member(Member(s, "indexers"), es[i].0) == es[i].1) &&
      (forall k :: (forall i :: 0 <= i < |es| ==> es[i].0 != k) ==>
         Member(Member(s, "indexers"), k) == Member(Member(state, "indexers"), k))
    decreases |es|
  {
    if es != [] {
      var (name, f) := es[0];
      RegisterSpec(state, name, f);
      var s2 := Register(state, name, f).value;
      var rest := es[1..];
      assert forall i :: 0 <= i < |rest| ==> rest[i] == es[i + 1];
      RegisterAllSpec(s2, rest);
      var s := RegisterAll(state, es).value;
      assert s == RegisterAll(s2, rest).value;
      forall i | 0 <= i < |es| ensures Member(Member(s, "indexers"), es[i].0) == es[i].1 {
        if i > 0 {
          assert rest[i - 1] == es[i];
        } else {
          assert forall j :: 0 <= j < |rest| ==> rest[j].0 != name;
        }
      }
      forall k | forall i :: 0 <= i < |es| ==> es[i].0 != k
        ensures Member(Member(s, "indexers"), k) == Member(Member(state, "indexers"), k)
      {
        assert es[0].0 != k;
        assert forall j :: 0 <= j < |rest| ==> rest[j].0 != k;
      }
    }
  }

  /** `acceptIndexes`: afterwards `state.indexers` holds every indexer the
      message declares, keeps the ones it does not name, and every other field
      of the state reads as before (the write on line 299 changes no lookup). */
  lemma AcceptIndexesRegisters(input: Value, state: Value)
    requires !IsNullish(input) && state.Obj?
    requires IsNullish(Member(state, "indexers")) || Member(state, "indexers").Obj?
    requires Member(input, "indexers").Obj? ==> DistinctKeys(Member(input, "indexers").props)
    ensures AcceptIndexes(input, state).Ok?
    ensures var s := AcceptIndexes(input, state).value;
      var es := Entries(Member(input, "indexers"));
      s.Obj? && Member(s, "indexers").Obj? &&
      (forall k :: k != "indexers" ==> Member(s, k) == Member(state, k)) &&
      (forall i :: 0 <= i < |es| ==> Member(Member(s, "indexers"), es[i].0) == es[i].1) &&
      (forall k :: (forall i :: 0 <= i < |es| ==> es[i].0 != k) ==>
         Member(Member(s, "indexers"), k) == (if IsNullish(Member(state, "indexers")) then Undefined else Member(Member(state, "indexers"), k)))
  {
    var s1 := Default(state, "indexers", Obj([])).value;
    if IsNullish(Member(state, "indexers")) {
      WriteFrame(state, "indexers", Obj([]));
    }
    var es := Entries(Member(input, "indexers"));
    RegisterAllSpec(s1, es);
  }

  // ----- findId (dist/cli.mjs:302-318) -----

  /** `if (input.id) return;`: a message that already has an id gets no transition. */
  predicate FindIdRuns(input: Value) {
    !Truthy(Member(input, "id"))
  }

  /** The entry of the first key that has a truthy entry in index, in yield order. */
  function Lookup(index: Value, keys: seq<Value>): Result<Option<Value>>
    decreases |keys|
  {
    if keys == [] then Ok(None)
    else
      match PropKey(keys[0])
      case Err(e) => Err(e)
      case Ok(k) => if Truthy(Member(index, k)) then Ok(Some(Member(index, k))) else Lookup(index, keys[1..])
  }

  /** The search over the registered indexers, in registration order: an indexer
      without a table ends the whole search, a hit sets `input.id`. */
  function Search(ix: Indexers, input: Value, state: Value, es: seq<(string, Value)>): Result<Value>
    decreases |es|
  {
    if es == [] then Ok(input)
    else
      var index := Member(state, es[0].0);
      if !Truthy(index) then Ok(input)
      else
        match Call(ix, es[0].1, input)
        case Err(e) => Err(e)
        case Ok(out) =>
          match Lookup(index, Flatten(out))
          case Err(e) => Err(e)
          case Ok(None) => Search(ix, input, state, es[1..])
          case Ok(Some(id)) => Write(input, "id", id)
  }

  /** The transition `findId(input)` returns, applied to the message and the state. */
  function FindId(ix: Indexers, input: Value, state: Value): Result<Value>
    requires !IsNullish(input) && state.Obj?
  {
    Search(ix, input, state, Entries(Member(state, "indexers")))
  }

  /** The inner loop of `findId`: the keys one indexer yields, looked up in its table. */
  method LookupLoop(index: Value, keys: seq<Value>) returns (r: Result<Option<Value>>)
    ensures r == Lookup(index, keys)
  {
    for j := 0 to |keys|
      invariant Lookup(index, keys) == Lookup(index, keys[j..])
    {
      assert keys[j..][0] == keys[j] && keys[j..][1..] == keys[j + 1..];
      var k := PropKey(keys[j]);
      if k.Err? {
        return Err(k.fault);
      }
      if Truthy(Member(index, k.value)) {
        return Ok(Some(Member(index, k.value)));
      }
    }
    assert keys[|keys|..] == [];
    return Ok(None);
  }

  method FindIdLoop(ix: Indexers, input: Value, state: Value) returns (r: Result<Value>)
    requires !IsNullish(input) && state.Obj?
    ensures r == FindId(ix, input, state)
  {
    r := SearchLoop(ix, input, state, Entries(Member(state, "indexers")));
  }

  /** The outer loop of `findId`, over the registered indexers. */
  method SearchLoop(ix: Indexers, input: Value, state: Value, es: seq<(string, Value)>) returns (r: Result<Value>)
    ensures r == Search(ix, input, state, es)
  {
    for i := 0 to |es|
      invariant Search(ix, input, state, es) == Search(ix, input, state, es[i..])
    {
      ghost var rest := es[i..];
      assert rest[0] == es[i] && rest[1..] == es[i + 1..];
      var (name, indexer) := es[i];
      var index := Member(state, name);
      if !Truthy(index) {
        assert Search(ix, input, state, rest) == Ok(input);
        return Ok(input);
      }
      var out := Call(ix, indexer, input);
      if out.Err? {
        assert Search(ix, input, state, rest) == Err(out.fault);
        return Err(out.fault);
      }
      var hit := LookupLoop(index, Flatten(out.value));
      if hit.Err? {
        assert Search(ix, input, state, rest) == Err(hit.fault);
        return Err(hit.fault);
      }
      if hit.value.Some? {
        assert Search(ix, input, state, rest) == Write(input, "id", hit.value.value);
        return Write(input, "id", hit.value.value);
      }
      assert Search(ix, input, state, rest) == Search(ix, input, state, es[i + 1..]);
    }
    assert es[|es|..] == [];
    assert es[0..] == es;
    return Ok(input);
  }

  /** No key in keys has a truthy entry in index. */
  predicate Misses(index: Value, keys: seq<Value>) {
    forall b :: 0 <= b < |keys| ==> PropKey(keys[b]).Ok? && !Truthy(Member(index, PropKey(keys[b]).value))
  }

  /** The indexer e was reached, has a table, and none of its keys is in it. */
  predicate Missed(ix: Indexers, input: Value, state: Value, e: (string, Value)) {
    Truthy(Member(state, e.0)) && Call(ix, e.1, input).Ok? &&
    Misses(Member(state, e.0), Flatten(Call(ix, e.1, input).value))
  }

  lemma {:induction false} LookupMiss(index: Value, keys: seq<Value>)
    requires Misses(index, keys)
    ensures Lookup(index, keys) == Ok(None)
  {
    if keys != [] {
      assert forall b :: 0 <= b < |keys[1..]| ==> keys[1..][b] == keys[b + 1];
      LookupMiss(index, keys[1..]);
    }
  }

  lemma {:induction false} LookupHit(index: Value, keys: seq<Value>, j: nat)
    requires j < |keys| && Misses(index, keys[..j])
    requires PropKey(keys[j]).Ok? && Truthy(Member(index, PropKey(keys[j]).value))
    ensures Lookup(index, keys) == Ok(Some(Member(index, PropKey(keys[j]).value)))
  {
    if j > 0 {
      assert keys[..j][0] == keys[0];
      assert keys[1..][j - 1] == keys[j];
      assert keys[1..][..j - 1] == keys[..j][1..];
      LookupHit(index, keys[1..], j - 1);
    }
  }

  /** findId's search: if every indexer before the i-th has a table without any
      of its keys, and the i-th is the first whose table has the j-th of its
      keys (and not the ones before), the message takes that entry as its id. */
  lemma {:induction false} SearchFirstHit(ix: Indexers, input: Value, state: Value, es: seq<(string, Value)>, i: nat, j: nat)
    requires i < |es| && forall a :: 0 <= a < i ==> Missed(ix, input, state, es[a])
    requires Truthy(Member(state, es[i].0)) && Call(ix, es[i].1, input).Ok?
    requires var keys := Flatten(Call(ix, es[i].1, input).value);
      j < |keys| && Misses(Member(state, es[i].0), keys[..j]) && PropKey(keys[j]).Ok? &&
      Truthy(Member(Member(state, es[i].0), PropKey(keys[j]).value))
    ensures var keys := Flatten(Call(ix, es[i].1, input).value);
      Search(ix, input, state, es) == Write(input, "id", Member(Member(state, es[i].0), PropKey(keys[j]).value))
  {
    if i == 0 {
      LookupHit(Member(state, es[0].0), Flatten(Call(ix, es[0].1, input).value), j);
    } else {
      LookupMiss(Member(state, es[0].0), Flatten(Call(ix, es[0].1, input).value));
      assert forall a :: 0 <= a < i - 1 ==> es[1..][a] == es[a + 1];
      assert es[1..][i - 1] == es[i];
      SearchFirstHit(ix, input, state, es[1..], i - 1, j);
    }
  }

  /** ... and if the search runs out of indexers, or reaches one with no table,
      before any hit, the message is left as it was. */
  lemma {:induction false} SearchNoHit(ix: Indexers, input: Value, state: Value, es: seq<(string, Value)>, i: nat)
    requires i <= |es| && forall a :: 0 <= a < i ==> Missed(ix, input, state, es[a])
    requires i < |es| ==> !Truthy(Member(state, es[i].0))
    ensures Search(ix, input, state, es) == Ok(input)
  {
    if i > 0 {
      LookupMiss(Member(state, es[0].0), Flatten(Call(ix, es[0].1, input).value));
      assert forall a :: 0 <= a < i - 1 ==> es[1..][a] == es[a + 1];
      if i < |es| {
        assert es[1..][i - 1] == es[i];
      }
      SearchNoHit(ix, input, state, es[1..], i - 1);
    }
  }

  // ----- populateFromId (dist/cli.mjs:319-329) -----

  /** The transition `populateFromId(input)` returns: a message with a truthy id
      whose `state.byId` entry is truthy is merged into that entry, and the
      entry, so merged, back into the message. */
  function PopulateFromId(input: Value, state: Value): Result<(Value, Value)>
    requires !IsNullish(input) && state.Obj?
  {
    var id := Member(input, "id");
    if !Truthy(id) then Ok((input, state))
    else
      match Default(state, "byId", Obj([]))
      case Err(e) => Err(e)
      case Ok(s1) =>
        match PropKey(id)
        case Err(e) => Err(e)
        case Ok(k) =>
          var cached := Member(Member(s1, "byId"), k);
          if !Truthy(cached) then Ok((input, s1))
          else
            match Assign(cached, input)
            case Err(e) => Err(e)
            case Ok(c1) =>
              match WriteIn(s1, "byId", k, c1)
              case Err(e) => Err(e)
              case Ok(s2) =>
                match Assign(input, c1)
                case Err(e) => Err(e)
                case Ok(i1) => Ok((i1, s2))
  }

  /** Merging with the cache: every field of the message is merged into the
      cached entry (a value that is not an object replaces, objects merge
      recursively), then every field of the entry so merged into the message;
      the entry gains the message's fields and keeps its own, the message
      gains the entry's, and nothing else in the state changes. So the
      message keeps every field it sets to a value that is not an object, and
      gains every field only the cached entry has. */
  lemma PopulateMergesBothWays(input: Value, state: Value)
    requires input.Obj? && DistinctKeys(input.props) && state.Obj?
    requires Truthy(Member(input, "id")) && PropKey(Member(input, "id")).Ok?
    requires var s1 := Default(state, "byId", Obj([])).value;
      var cached := Member(Member(s1, "byId"), PropKey(Member(input, "id")).value);
      cached.Obj? && DistinctKeys(cached.props)
    requires PopulateFromId(input, state).Ok?
    ensures var s1 := Default(state, "byId", Obj([])).value;
      var k := PropKey(Member(input, "id")).value;
      var cached := Member(Member(s1, "byId"), k);
      var (i1, s2) := PopulateFromId(input, state).value;
      var c1 := Member(Member(s2, "byId"), k);
      i1.Obj? && c1.Obj? &&
      (forall f :: HasKey(input.props, f) ==> Merged(Get(cached.props, f), Get(input.props, f)) == Ok(Get(c1.props, f))) &&
      (forall f :: !HasKey(input.props, f) ==> Get(c1.props, f) == Get(cached.props, f)) &&
      (forall f :: HasKey(c1.props, f) <==> HasKey(cached.props, f) || HasKey(input.props, f)) &&
      (forall f :: HasKey(c1.props, f) ==> Merged(Get(input.props, f), Get(c1.props, f)) == Ok(Get(i1.props, f))) &&
      (forall f :: HasKey(i1.props, f) <==> HasKey(c1.props, f)) &&
      (forall f :: HasKey(input.props, f) && !IsObjectType(Get(input.props, f)) ==>
         Get(i1.props, f) == Get(input.props, f) && Get(c1.props, f) == Get(input.props, f)) &&
      (forall f :: !HasKey(input.props, f) ==> Get(i1.props, f) == Get(cached.props, f)) &&
      (forall j :: j != k ==> Member(Member(s2, "byId"), j) == Member(Member(state, "byId"), j)) &&
      (forall t :: t != "byId" ==> Member(s2, t) == Member(state, t))
  {
    var s1 := Default(state, "byId", Obj([])).value;
    if IsNullish(Member(state, "byId")) {
      WriteFrame(state, "byId", Obj([]));
    }
    var k := PropKey(Member(input, "id")).value;
    var cached := Member(Member(s1, "byId"), k);
    var c1 := Assign(cached, input).value;
    var i1 := Assign(input, c1).value;
    MergeBack(cached, input);
    WriteInFrame(s1, "byId", k, c1);
    MergeBothWays(cached.props, input.props);
  }

  // ----- writeIndexes (dist/cli.mjs:330-340) -----

  /** The message and the state as the loop leaves them, and the (table, key)
      pairs it wrote, in order. */
  datatype Indexed = Indexed(input: Value, state: Value, written: seq<(string, string)>)

  /** One key of one indexer: `input.id ??= uuid()`, `input.createdAt ??= now`,
      then `state2[name][key] = input.id`. The fresh id and the time are inputs. */
  function WriteKey(newId: Value, now: Value, name: string, acc: Indexed, key: Value): Result<Indexed> {
    match Default(acc.input, "id", newId)
    case Err(e) => Err(e)
    case Ok(i1) =>
      match Default(i1, "createdAt", now)
      case Err(e) => Err(e)
      case Ok(i2) =>
        match PropKey(key)
        case Err(e) => Err(e)
        case Ok(k) =>
          match WriteIn(acc.state, name, k, Member(i2, "id"))
          case Err(e) => Err(e)
          case Ok(s) => Ok(Indexed(i2, s, acc.written + [(name, k)]))
  }

  function WriteKeys(newId: Value, now: Value, name: string, acc: Indexed, keys: seq<Value>): Result<Indexed>
    decreases |keys|
  {
    if keys == [] then Ok(acc)
    else
      match WriteKey(newId, now, name, acc, keys[0])
      case Err(e) => Err(e)
      case Ok(acc2) => WriteKeys(newId, now, name, acc2, keys[1..])
  }

  /** One indexer: `state2[name] ??= {}`, then every key it yields for the message. */
  function WriteTable(ix: Indexers, newId: Value, now: Value, acc: Indexed, e: (string, Value)): Result<Indexed> {
    match Default(acc.state, e.0, Obj([]))
    case Err(f) => Err(f)
    case Ok(s1) =>
      match Call(ix, e.1, acc.input)
      case Err(f) => Err(f)
      case Ok(out) => WriteKeys(newId, now, e.0, Indexed(acc.input, s1, acc.written), Flatten(out))
  }

  function WriteAll(ix: Indexers, newId: Value, now: Value, acc: Indexed, es: seq<(string, Value)>): Result<Indexed>
    decreases |es|
  {
    if es == [] then Ok(acc)
    else
      match WriteTable(ix, newId, now, acc, es[0])
      case Err(e) => Err(e)
      case Ok(acc2) => WriteAll(ix, newId, now, acc2, es[1..])
  }

  /** The transition `writeIndexes(input)` returns, applied to the message and the state. */
  function WriteIndexes(ix: Indexers, newId: Value, now: Value, input: Value, state: Value): Result<Indexed>
    requires !IsNullish(input) && state.Obj?
  {
    WriteAll(ix, newId, now, Indexed(input, state, []), Entries(Member(state, "indexers")))
  }

  /** The message once `input.id ??= uuid()` and `input.createdAt ??= now`
      have run on it (only a plain object takes them). */
  function Stamped(v: Value, newId: Value, now: Value): Value {
    if v.Obj? then Default(Default(v, "id", newId).value, "createdAt", now).value else v
  }

  /** The keys one indexer yields, as property keys of table `name`, in order. */
  function KeyPairs(name: string, keys: seq<Value>): Result<seq<(string, string)>>
    decreases |keys|
  {
    if keys == [] then Ok([])
    else
      match PropKey(keys[0])
      case Err(f) => Err(f)
      case Ok(k) =>
        match KeyPairs(name, keys[1..])
        case Err(f) => Err(f)
        case Ok(rest) => Ok([(name, k)] + rest)
  }

  /** The (table, key) pairs the indexers es yield, in order, with no state at
      all: each indexer is called on the message as it stands, which is the
      original one until some key was yielded (`stamped`) and the stamped one
      after. */
  function Yields(ix: Indexers, newId: Value, now: Value, orig: Value, stamped: bool, es: seq<(string, Value)>): Result<seq<(string, string)>>
    decreases |es|
  {
    if es == [] then Ok([])
    else
      match Call(ix, es[0].1, if stamped then Stamped(orig, newId, now) else orig)
      case Err(f) => Err(f)
      case Ok(out) =>
        match KeyPairs(es[0].0, Flatten(out))
        case Err(f) => Err(f)
        case Ok(ps) =>
          match Yields(ix, newId, now, orig, stamped || ps != [], es[1..])
          case Err(f) => Err(f)
          case Ok(rest) => Ok(ps + rest)
  }

  /** The inner loop of `writeIndexes`: every key one indexer yields. */
  method WriteKeysLoop(newId: Value, now: Value, name: string, acc: Indexed, keys: seq<Value>) returns (r: Result<Indexed>)
    ensures r == WriteKeys(newId, now, name, acc, keys)
  {
    var msg, st, written := acc.input, acc.state, acc.written;
    for j := 0 to |keys|
      invariant WriteKeys(newId, now, name, acc, keys) == WriteKeys(newId, now, name, Indexed(msg, st, written), keys[j..])
    {
      assert keys[j..][0] == keys[j] && keys[j..][1..] == keys[j + 1..];
      var m := Default(msg, "id", newId);
      if m.Err? {
        return Err(m.fault);
      }
      m := Default(m.value, "createdAt", now);
      if m.Err? {
        return Err(m.fault);
      }
      var k := PropKey(keys[j]);
      if k.Err? {
        return Err(k.fault);
      }
      var s := WriteIn(st, name, k.value, Member(m.value, "id"));
      if s.Err? {
        return Err(s.fault);
      }
      msg, st, written := m.value, s.value, written + [(name, k.value)];
    }
    assert keys[|keys|..] == [];
    return Ok(Indexed(msg, st, written));
  }

  /** The outer loop of `writeIndexes`: every indexer, in order. */
  method WriteAllLoop(ix: Indexers, newId: Value, now: Value, init: Indexed, es: seq<(string, Value)>) returns (r: Result<Indexed>)
    ensures r == WriteAll(ix, newId, now, init, es)
  {
    var acc := init;
    for i := 0 to |es|
      invariant WriteAll(ix, newId, now, init, es) == WriteAll(ix, newId, now, acc, es[i..])
    {
      assert es[i..][0] == es[i] && es[i..][1..] == es[i + 1..];
      var (name, indexer) := es[i];
      var t := Default(acc.state, name, Obj([]));
      if t.Err? {
        return Err(t.fault);
      }
      var out := Call(ix, indexer, acc.input);
      if out.Err? {
        return Err(out.fault);
      }
      var w := WriteKeysLoop(newId, now, name, Indexed(acc.input, t.value, acc.written), Flatten(out.value));
      if w.Err? {
        return w;
      }
      acc := w.value;
    }
    assert es[|es|..] == [];
    return Ok(acc);
  }

  method WriteIndexesLoop(ix: Indexers, newId: Value, now: Value, input: Value, state: Value) returns (r: Result<Indexed>)
    requires !IsNullish(input) && state.Obj?
    ensures r == WriteIndexes(ix, newId, now, input, state)
  {
    r := WriteAllLoop(ix, newId, now, Indexed(input, state, []), Entries(Member(state, "indexers")));
  }

  /** Every pair written so far maps to the message's current id. */
  ghost predicate PairsHold(acc: Indexed) {
    forall p :: p in acc.written ==> Member(Member(acc.state, p.0), p.1) == Member(acc.input, "id")
  }

  /** The message differs from the original only once a key was written, and
      then only in an id and a creation time that it did not have before. */
  ghost predicate Shaped(orig: Value, newId: Value, now: Value, acc: Indexed) {
    (acc.written == [] ==> acc.input == orig) &&
    (acc.written != [] ==>
       acc.input.Obj? && orig.Obj? && acc.input == Stamped(orig, newId, now) &&
       Member(acc.input, "id") == (if IsNullish(Member(orig, "id")) then newId else Member(orig, "id")) &&
       Member(acc.input, "createdAt") == (if IsNullish(Member(orig, "createdAt")) then now else Member(orig, "createdAt")) &&
       (forall f :: f != "id" && f != "createdAt" ==> Member(acc.input, f) == Member(orig, f)))
  }

  /** What the loop keeps true. */
  ghost predicate Consistent(orig: Value, newId: Value, now: Value, acc: Indexed) {
    acc.state.Obj? && PairsHold(acc) && Shaped(orig, newId, now, acc)
  }

  /** `input.id ??= uuid()` and `input.createdAt ??= now` on a plain object:
      each field is set only where it was null or undefined, and no other field
      changes. */
  lemma Stamp(v: Value, newId: Value, now: Value)
    requires v.Obj?
    ensures Default(v, "id", newId).Ok?
    ensures Default(Default(v, "id", newId).value, "createdAt", now).Ok?
    ensures var r := Default(Default(v, "id", newId).value, "createdAt", now).value;
      r.Obj? &&
      Member(r, "id") == (if IsNullish(Member(v, "id")) then newId else Member(v, "id")) &&
      Member(r, "createdAt") == (if IsNullish(Member(v, "createdAt")) then now else Member(v, "createdAt")) &&
      (forall f :: f != "id" && f != "createdAt" ==> Member(r, f) == Member(v, f))
  {
    var i1 := Default(v, "id", newId).value;
    if IsNullish(Member(v, "id")) {
      WriteFrame(v, "id", newId);
    }
    assert "createdAt" != "id";
    assert Member(i1, "createdAt") == Member(v, "createdAt");
    if IsNullish(Member(i1, "createdAt")) {
      WriteFrame(i1, "createdAt", now);
    }
  }

  /** Giving the message its id and creation time, before the pair is written. */
  lemma StampShaped(orig: Value, newId: Value, now: Value, acc: Indexed, i2: Value, s: Value, pair: (string, string))
    requires !IsNullish(newId) && !IsNullish(now)
    requires Shaped(orig, newId, now, acc)
    requires Default(acc.input, "id", newId).Ok?
    requires Default(Default(acc.input, "id", newId).value, "createdAt", now) == Ok(i2)
    ensures Shaped(orig, newId, now, Indexed(i2, s, acc.written + [pair]))
    ensures acc.written != [] ==> i2 == acc.input
    ensures !IsNullish(Member(i2, "id"))
  {
    assert acc.input.Obj?;
    Stamp(acc.input, newId, now);
  }

  lemma WriteKeyConsistent(orig: Value, newId: Value, now: Value, name: string, acc: Indexed, key: Value)
    requires !IsNullish(newId) && !IsNullish(now)
    requires Consistent(orig, newId, now, acc)
    requires WriteKey(newId, now, name, acc, key).Ok?
    ensures Consistent(orig, newId, now, WriteKey(newId, now, name, acc, key).value)
  {
    var i1 := Default(acc.input, "id", newId).value;
    var i2 := Default(i1, "createdAt", now).value;
    var k := PropKey(key).value;
    var id := Member(i2, "id");
    assert Member(acc.state, name).Obj?;
    WriteInFrame(acc.state, name, k, id);
    var s := WriteIn(acc.state, name, k, id).value;
    StampShaped(orig, newId, now, acc, i2, s, (name, k));
    var acc2 := WriteKey(newId, now, name, acc, key).value;
    assert acc2 == Indexed(i2, s, acc.written + [(name, k)]);
    forall p | p in acc2.written ensures Member(Member(s, p.0), p.1) == id {
      if p != (name, k) {
        assert p in acc.written;
        if p.0 != name {
          assert Member(s, p.0) == Member(acc.state, p.0);
        }
      }
    }
  }

  lemma {:induction false} WriteKeysConsistent(orig: Value, newId: Value, now: Value, name: string, acc: Indexed, keys: seq<Value>)
    requires !IsNullish(newId) && !IsNullish(now)
    requires Consistent(orig, newId, now, acc)
    requires WriteKeys(newId, now, name, acc, keys).Ok?
    ensures Consistent(orig, newId, now, WriteKeys(newId, now, name, acc, keys).value)
    decreases |keys|
  {
    if keys != [] {
      WriteKeyConsistent(orig, newId, now, name, acc, keys[0]);
      WriteKeysConsistent(orig, newId, now, name, WriteKey(newId, now, name, acc, keys[0]).value, keys[1..]);
    }
  }

  lemma WriteTableConsistent(ix: Indexers, orig: Value, newId: Value, now: Value, acc: Indexed, e: (string, Value))
    requires !IsNullish(newId) && !IsNullish(now)
    requires Consistent(orig, newId, now, acc)
    requires WriteTable(ix, newId, now, acc, e).Ok?
    ensures Consistent(orig, newId, now, WriteTable(ix, newId, now, acc, e).value)
  {
    var s1 := Default(acc.state, e.0, Obj([])).value;
    if IsNullish(Member(acc.state, e.0)) {
      WriteFrame(acc.state, e.0, Obj([]));
      forall p | p in acc.written ensures p.0 != e.0 {
        assert Member(Member(acc.state, p.0), p.1) == Member(acc.input, "id");
      }
    }
    assert PairsHold(Indexed(acc.input, s1, acc.written));
    var out := Call(ix, e.1, acc.input).value;
    WriteKeysConsistent(orig, newId, now, e.0, Indexed(acc.input, s1, acc.written), Flatten(out));
  }

  lemma {:induction false} WriteAllConsistent(ix: Indexers, orig: Value, newId: Value, now: Value, acc: Indexed, es: seq<(string, Value)>)
    requires !IsNullish(newId) && !IsNullish(now)
    requires Consistent(orig, newId, now, acc)
    requires WriteAll(ix, newId, now, acc, es).Ok?
    ensures Consistent(orig, newId, now, WriteAll(ix, newId, now, acc, es).value)
    decreases |es|
  {
    if es != [] {
      WriteTableConsistent(ix, orig, newId, now, acc, es[0]);
      WriteAllConsistent(ix, orig, newId, now, WriteTable(ix, newId, now, acc, es[0]).value, es[1..]);
    }
  }

  /** No field of s1 outside `names` reads differently from s0. */
  ghost predicate FieldsKept(s0: Value, s1: Value, names: set<string>) {
    forall f :: f !in names ==> Member(s1, f) == Member(s0, f)
  }

  /** No key of any table of s1 reads differently from s0, except the pairs written. */
  ghost predicate CellsKept(s0: Value, s1: Value, written: seq<(string, string)>) {
    forall t, k :: (t, k) !in written ==> Member(Member(s1, t), k) == Member(Member(s0, t), k)
  }

  lemma CellsKeptTrans(s0: Value, s1: Value, s2: Value, w1: seq<(string, string)>, w2: seq<(string, string)>)
    requires CellsKept(s0, s1, w1) && CellsKept(s1, s2, w2)
    requires forall p :: p in w1 ==> p in w2
    ensures CellsKept(s0, s2, w2)
  {
  }

  lemma FieldsKeptTrans(s0: Value, s1: Value, s2: Value, n1: set<string>, n2: set<string>)
    requires FieldsKept(s0, s1, n1) && FieldsKept(s1, s2, n2)
    ensures FieldsKept(s0, s2, n1 + n2)
  {
  }

  /** One key: the log gains exactly its pair, and no other field of the
      state, and no other key of any table, reads differently. */
  lemma WriteKeyLog(newId: Value, now: Value, name: string, acc: Indexed, key: Value)
    requires WriteKey(newId, now, name, acc, key).Ok?
    ensures PropKey(key).Ok?
    ensures var r := WriteKey(newId, now, name, acc, key).value;
      r.written == acc.written + [(name, PropKey(key).value)] &&
      FieldsKept(acc.state, r.state, {name}) &&
      CellsKept(acc.state, r.state, [(name, PropKey(key).value)])
  {
    var i2 := Default(Default(acc.input, "id", newId).value, "createdAt", now).value;
    var k := PropKey(key).value;
    assert Write(Member(acc.state, name), k, Member(i2, "id")).Ok?;
    assert acc.state.Obj?;
    WriteInFrame(acc.state, name, k, Member(i2, "id"));
  }

  /** Every key an indexer yields adds its pair to the log, in order. */
  lemma {:induction false} WriteKeysLog(newId: Value, now: Value, name: string, acc: Indexed, keys: seq<Value>)
    requires WriteKeys(newId, now, name, acc, keys).Ok?
    ensures KeyPairs(name, keys).Ok?
    ensures WriteKeys(newId, now, name, acc, keys).value.written == acc.written + KeyPairs(name, keys).value
    decreases |keys|
  {
    if keys != [] {
      var acc2 := WriteKey(newId, now, name, acc, keys[0]).value;
      assert PropKey(keys[0]).Ok? && acc2.written == acc.written + [(name, PropKey(keys[0]).value)] by {
        WriteKeyLog(newId, now, name, acc, keys[0]);
      }
      var p0 := (name, PropKey(keys[0]).value);
      assert WriteKeys(newId, now, name, acc, keys) == WriteKeys(newId, now, name, acc2, keys[1..]);
      WriteKeysLog(newId, now, name, acc2, keys[1..]);
      var rest := KeyPairs(name, keys[1..]).value;
      assert KeyPairs(name, keys) == Ok([p0] + rest);
      Regroup(acc.written, [p0], rest);
    }
  }

  /** The keys of one indexer change only table `name`, and in it only the keys written. */
  lemma {:induction false} WriteKeysFrame(newId: Value, now: Value, name: string, acc: Indexed, keys: seq<Value>)
    requires WriteKeys(newId, now, name, acc, keys).Ok?
    ensures var r := WriteKeys(newId, now, name, acc, keys).value;
      FieldsKept(acc.state, r.state, {name}) && CellsKept(acc.state, r.state, r.written)
    decreases |keys|
  {
    if keys != [] {
      WriteKeyLog(newId, now, name, acc, keys[0]);
      var acc2 := WriteKey(newId, now, name, acc, keys[0]).value;
      var r := WriteKeys(newId, now, name, acc2, keys[1..]).value;
      assert WriteKeys(newId, now, name, acc, keys).value == r;
      WriteKeysLog(newId, now, name, acc2, keys[1..]);
      WriteKeysFrame(newId, now, name, acc2, keys[1..]);
      FieldsKeptTrans(acc.state, acc2.state, r.state, {name}, {name});
      CellsKeptTrans(acc.state, acc2.state, r.state, [(name, PropKey(keys[0]).value)], r.written);
    }
  }

  /** One indexer: the log gains the pairs of the keys it yields for the
      message as it stands; creating its empty table changes no lookup. */
  lemma WriteTableLog(ix: Indexers, newId: Value, now: Value, acc: Indexed, e: (string, Value))
    requires WriteTable(ix, newId, now, acc, e).Ok?
    ensures Call(ix, e.1, acc.input).Ok?
    ensures KeyPairs(e.0, Flatten(Call(ix, e.1, acc.input).value)).Ok?
    ensures var r := WriteTable(ix, newId, now, acc, e).value;
      r.written == acc.written + KeyPairs(e.0, Flatten(Call(ix, e.1, acc.input).value)).value &&
      FieldsKept(acc.state, r.state, {e.0}) && CellsKept(acc.state, r.state, r.written)
  {
    var s1 := Default(acc.state, e.0, Obj([])).value;
    assert acc.state.Obj?;
    if IsNullish(Member(acc.state, e.0)) {
      WriteFrame(acc.state, e.0, Obj([]));
    }
    assert FieldsKept(acc.state, s1, {e.0});
    assert CellsKept(acc.state, s1, []);
    var out := Call(ix, e.1, acc.input).value;
    var mid := Indexed(acc.input, s1, acc.written);
    WriteKeysLog(newId, now, e.0, mid, Flatten(out));
    WriteKeysFrame(newId, now, e.0, mid, Flatten(out));
    var r := WriteKeys(newId, now, e.0, mid, Flatten(out)).value;
    FieldsKeptTrans(acc.state, s1, r.state, {e.0}, {e.0});
    CellsKeptTrans(acc.state, s1, r.state, [], r.written);
  }

  /** The names of the indexers es. */
  function Names(es: seq<(string, Value)>): set<string> {
    set i | 0 <= i < |es| :: es[i].0
  }

  lemma NamesCons(es: seq<(string, Value)>)
    requires es != []
    ensures Names(es) == {es[0].0} + Names(es[1..])
  {
    forall f ensures f in Names(es) <==> f in {es[0].0} + Names(es[1..]) {
      if f in Names(es) {
        var i :| 0 <= i < |es| && es[i].0 == f;
        if i > 0 {
          assert es[1..][i - 1] == es[i];
        }
      }
      if f in Names(es[1..]) {
        var i :| 0 <= i < |es[1..]| && es[1..][i].0 == f;
        assert es[i + 1] == es[1..][i];
      }
    }
  }

  /** All indexers: the log is exactly the pairs they yield, computed without
      any state; only their tables change, and in them only the keys written. */
  lemma {:induction false} WriteAllLog(ix: Indexers, orig: Value, newId: Value, now: Value, acc: Indexed, es: seq<(string, Value)>)
    requires !IsNullish(newId) && !IsNullish(now)
    requires Consistent(orig, newId, now, acc)
    requires WriteAll(ix, newId, now, acc, es).Ok?
    ensures Yields(ix, newId, now, orig, acc.written != [], es).Ok?
    ensures var r := WriteAll(ix, newId, now, acc, es).value;
      r.written == acc.written + Yields(ix, newId, now, orig, acc.written != [], es).value &&
      FieldsKept(acc.state, r.state, Names(es)) && CellsKept(acc.state, r.state, r.written)
    decreases |es|
  {
    if es != [] {
      assert acc.input == if acc.written != [] then Stamped(orig, newId, now) else orig;
      WriteTableLog(ix, newId, now, acc, es[0]);
      WriteTableConsistent(ix, orig, newId, now, acc, es[0]);
      var acc2 := WriteTable(ix, newId, now, acc, es[0]).value;
      var ps := KeyPairs(es[0].0, Flatten(Call(ix, es[0].1, acc.input).value)).value;
      assert (acc2.written != []) == (acc.written != [] || ps != []);
      var r := WriteAll(ix, newId, now, acc2, es[1..]).value;
      assert WriteAll(ix, newId, now, acc, es).value == r;
      WriteAllLog(ix, orig, newId, now, acc2, es[1..]);
      var rest := Yields(ix, newId, now, orig, acc2.written != [], es[1..]).value;
      assert Yields(ix, newId, now, orig, acc.written != [], es) == Ok(ps + rest);
      Regroup(acc.written, ps, rest);
      NamesCons(es);
      FieldsKeptTrans(acc.state, acc2.state, r.state, {es[0].0}, Names(es[1..]));
      CellsKeptTrans(acc.state, acc2.state, r.state, acc2.written, r.written);
    }
  }

  /** `writeIndexes`: afterwards every key every indexer yielded maps to the
      message's id in that indexer's table; the message gets an id (the new
      one) and a creation time (the given one) only where it had none, only
      once at least one key was yielded, and nothing else about it changes. */
  lemma WriteIndexesMapsKeys(ix: Indexers, newId: Value, now: Value, input: Value, state: Value)
    requires !IsNullish(input) && state.Obj?
    requires !IsNullish(newId) && !IsNullish(now)
    requires WriteIndexes(ix, newId, now, input, state).Ok?
    ensures var r := WriteIndexes(ix, newId, now, input, state).value;
      (forall p :: p in r.written ==> Member(Member(r.state, p.0), p.1) == Member(r.input, "id")) &&
      (r.written == [] ==> r.input == input) &&
      (r.written != [] ==>
         !IsNullish(Member(r.input, "id")) &&
         Member(r.input, "id") == (if IsNullish(Member(input, "id")) then newId else Member(input, "id")) &&
         Member(r.input, "createdAt") == (if IsNullish(Member(input, "createdAt")) then now else Member(input, "createdAt")) &&
         (forall f :: f != "id" && f != "createdAt" ==> Member(r.input, f) == Member(input, f))) &&
      Yields(ix, newId, now, input, false, Entries(Member(state, "indexers"))).Ok? &&
      r.written == Yields(ix, newId, now, input, false, Entries(Member(state, "indexers"))).value &&
      (forall f :: f !in Keys(Member(state, "indexers")) ==> Member(r.state, f) == Member(state, f)) &&
      (forall t, k :: (t, k) !in r.written ==> Member(Member(r.state, t), k) == Member(Member(state, t), k))
  {
    var es := Entries(Member(state, "indexers"));
    var init := Indexed(input, state, []);
    WriteAllConsistent(ix, input, newId, now, init, es);
    WriteAllLog(ix, input, newId, now, init, es);
    assert forall f :: f in Names(es) ==> f in Keys(Member(state, "indexers"));
  }

  // ----- config (dist/cli.mjs:363-370) -----

  /** `typeof input.config === "object"` (null included): only then is there a transition. */
  predicate ConfigRuns(input: Value) {
    IsObjectType(Member(input, "config"))
  }

  /** The transition `config(input)` returns: `state2.config ||= {}`, then
      `deepAssign(state2.config, input.config)`. */
  function Config(input: Value, state: Value): Result<Value>
    requires !IsNullish(input) && state.Obj?
  {
    var cur := if Truthy(Member(state, "config")) then Member(state, "config") else Obj([]);
    match Assign(cur, Member(input, "config"))
    case Err(e) => Err(e)
    case Ok(c) => Write(state, "config", c)
  }

  /** A config object is merged key by key into the existing configuration
      (or into a new one), the rest of the configuration and of the state is
      kept, and `config: null` only makes sure there is a configuration. */
  lemma ConfigMerges(input: Value, state: Value)
    requires !IsNullish(input) && state.Obj?
    requires ConfigRuns(input)
    requires Member(input, "config").Obj? ==> DistinctKeys(Member(input, "config").props)
    requires Config(input, state).Ok?
    ensures var cur := if Truthy(Member(state, "config")) then Member(state, "config") else Obj([]);
      var src := Member(input, "config");
      var s := Config(input, state).value;
      (forall f :: f != "config" ==> Member(s, f) == Member(state, f)) &&
      (src.Null? ==> Member(s, "config") == cur) &&
      (src.Obj? && cur.Obj? ==>
         Member(s, "config").Obj? &&
         (forall i :: 0 <= i < |src.props| ==>
            Merged(Get(cur.props, src.props[i].key), src.props[i].val) == Ok(Member(Member(s, "config"), src.props[i].key))) &&
         (forall f :: f !in KeysOf(src.props) ==> Member(Member(s, "config"), f) == Member(cur, f)))
  {
    var cur := if Truthy(Member(state, "config")) then Member(state, "config") else Obj([]);
    var src := Member(input, "config");
    var c := Assign(cur, src).value;
    WriteFrame(state, "config", c);
    if src.Obj? && cur.Obj? {
      AssignPropsPointwise(cur.props, src.props);
    }
  }
}
