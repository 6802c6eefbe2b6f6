/** The JSON-like values that the transfer protocol builds, hashes and restores:
    Python's None, bool, int, str, list and dict. A dict keeps its insertion
    order, as a Python dict does, so an object is a sequence of (key, value)
    entries; `Subscript` and `Store` are Python's `d[k]` and `d[k] = x`. */
module Json {
  import opened Wrappers
  import opened Errors

  datatype Value =
    | Null
    | Bool(b: bool)
    | Int(i: int)
    | Str(s: string)
    | Array(items: seq<Value>)
    | Object(fields: seq<(string, Value)>)

  /** The keys of a dict, in insertion order. */
  function Keys<T>(fields: seq<(string, T)>): (ks: seq<string>)
    ensures |ks| == |fields|
    ensures forall i :: 0 <= i < |fields| ==> ks[i] == fields[i].0
  {
    seq(|fields|, i requires 0 <= i < |fields| => fields[i].0)
  }

  /** No key occurs twice, as in every Python dict. */
  predicate UniqueKeys<T>(fields: seq<(string, T)>) {
    forall i, j :: 0 <= i < j < |fields| ==> fields[i].0 != fields[j].0
  }

  /** Every dict inside the value, at any depth, has unique keys. */
  predicate WellFormed(v: Value) {
    match v
    case Array(items) => forall i :: 0 <= i < |items| ==> WellFormed(items[i])
    case Object(fields) => UniqueKeys(fields) && forall i :: 0 <= i < |fields| ==> WellFormed(fields[i].1)
    case _ => true
  }

  /** The position of `key` among the entries: the first one carrying it. */
  function Find<T>(fields: seq<(string, T)>, key: string): (r: Option<nat>)
    ensures r.Some? ==> r.value < |fields| && fields[r.value].0 == key
    ensures r.Some? ==> forall j :: 0 <= j < r.value ==> fields[j].0 != key
    ensures r.None? <==> forall j :: 0 <= j < |fields| ==> fields[j].0 != key
  {
    if |fields| == 0 then None
    else if fields[0].0 == key then Some(0)
    else match Find(fields[1..], key)
      case None => None
      case Some(j) => Some(j + 1)
  }

  /** The first entry with `key` is the one `Find` returns. */
  lemma FindAt<T>(fields: seq<(string, T)>, key: string, i: nat)
    requires i < |fields| && fields[i].0 == key
    requires forall j :: 0 <= j < i ==> fields[j].0 != key
    ensures Find(fields, key) == Some(i)
  {
    var r := Find(fields, key);
    assert r.Some?;
    assert !(r.value < i) && !(i < r.value);
  }

  /** Where a key is found depends on the keys alone. */
  lemma FindByKeys<T, U>(a: seq<(string, T)>, b: seq<(string, U)>, key: string)
    requires Keys(a) == Keys(b)
    ensures Find(a, key) == Find(b, key)
  {
    var ra, rb := Find(a, key), Find(b, key);
    assert forall j :: 0 <= j < |a| ==> a[j].0 == Keys(a)[j] == Keys(b)[j] == b[j].0;
    if ra.Some? && rb.Some? {
      assert !(ra.value < rb.value) && !(rb.value < ra.value);
    }
  }

  /** The value stored under `key`, if any. */
  function Lookup<T>(fields: seq<(string, T)>, key: string): (r: Option<T>)
    ensures r.Some? <==> key in Keys(fields)
    ensures r.Some? ==> (key, r.value) in fields
  {
    match Find(fields, key)
    case None => None
    case Some(i) => Some(fields[i].1)
  }

  /** `v[key]` in Python: the entry of a dict, KeyError for a key the dict
      does not hold, TypeError for a list, a string, a number, a bool or None. */
  function Subscript(v: Value, key: string): (r: Result<Value, Error>)
    ensures r.Success? <==> v.Object? && key in Keys(v.fields)
    ensures r.Success? ==> Lookup(v.fields, key) == Some(r.value)
    ensures r.Failure? ==> r.error == if v.Object? then KeyError(key) else TypeError
  {
    if !v.Object? then Failure(TypeError)
    else match Lookup(v.fields, key)
      case None => Failure(KeyError(key))
      case Some(x) => Success(x)
  }

  /** `v[k1][k2]...`: subscripts applied left to right, stopping at the first that raises. */
  function Path(v: Value, keys: seq<string>): (r: Result<Value, Error>)
    ensures keys == [] ==> r == Success(v)
    ensures |keys| > 0 && Subscript(v, keys[0]).Failure? ==> r == Failure(Subscript(v, keys[0]).error)
    ensures r.Failure? ==> r.error == TypeError || (r.error.KeyError? && r.error.key in keys)
    decreases |keys|
  {
    if keys == [] then Success(v)
    else match Subscript(v, keys[0])
      case Failure(e) => Failure(e)
      case Success(x) => Path(x, keys[1..])
  }

  /** Following `a + b` is following `a`, then `b` from where `a` ends. */
  lemma {:induction false} PathConcat(v: Value, a: seq<string>, b: seq<string>)
    ensures Path(v, a + b) == match Path(v, a) case Failure(e) => Failure(e) case Success(x) => Path(x, b)
    decreases |a|
  {
    if a != [] {
      assert (a + b)[0] == a[0];
      assert (a + b)[1..] == a[1..] + b;
      match Subscript(v, a[0])
      case Failure(_) =>
      case Success(x) =>
        assert Path(v, a + b) == Path(x, a[1..] + b);
        PathConcat(x, a[1..], b);
    } else {
      assert a + b == b;
    }
  }

  /** `v[outer][inner]`: the two-key path that most lookups in the protocol use. */
  function Nested(v: Value, outer: string, inner: string): (r: Result<Value, Error>)
    ensures r == Path(v, [outer, inner])
    ensures r.Success? <==> Subscript(v, outer).Success? && Subscript(Subscript(v, outer).value, inner).Success?
  {
    assert [outer, inner][1..] == [inner];
    match Subscript(v, outer)
    case Failure(e) => Failure(e)
    case Success(x) =>
      assert Path(x, [inner]) == Subscript(x, inner) by {
        assert [inner][1..] == [];
      }
      Subscript(x, inner)
  }

  /** `d[key] = x` in Python: an existing key keeps its place and takes the new
      value; a new key is appended. No other entry changes. */
  function Store<T>(fields: seq<(string, T)>, key: string, x: T): (r: seq<(string, T)>)
    ensures Lookup(r, key) == Some(x)
    ensures forall k :: k != key ==> Lookup(r, k) == Lookup(fields, k)
    ensures Keys(r) == if key in Keys(fields) then Keys(fields) else Keys(fields) + [key]
    ensures UniqueKeys(fields) ==> UniqueKeys(r)
  {
    match Find(fields, key)
    case None =>
      var r := fields + [(key, x)];
      assert Keys(r) == Keys(fields) + [key];
      FindAppend(fields, key, x);
      r
    case Some(i) =>
      var r := fields[i := (key, x)];
      assert Keys(r) == Keys(fields);
      forall k | k != key ensures Lookup(r, k) == Lookup(fields, k) {
        FindByKeys(r, fields, k);
      }
      FindByKeys(r, fields, key);
      r
  }

  lemma FindAppend<T>(fields: seq<(string, T)>, key: string, x: T)
    requires Find(fields, key).None?
    ensures Lookup(fields + [(key, x)], key) == Some(x)
    ensures forall k :: k != key ==> Lookup(fields + [(key, x)], k) == Lookup(fields, k)
  {
    var r := fields + [(key, x)];
    assert r[|fields|].0 == key;
    forall k | k != key ensures Lookup(r, k) == Lookup(fields, k) {
      var a, b := Find(r, k), Find(fields, k);
      if b.Some? {
        assert r[b.value] == fields[b.value];
        assert !(a.value < b.value) && !(b.value < a.value);
      } else {
        assert forall j :: 0 <= j < |r| ==> r[j].0 != k;
      }
    }
  }

  /** Storing under a key that is present replaces its first entry in place. */
  lemma StoreAt<T>(fields: seq<(string, T)>, key: string, x: T, i: nat)
    requires i < |fields| && fields[i].0 == key
    requires forall j :: 0 <= j < i ==> fields[j].0 != key
    ensures Store(fields, key, x) == fields[i := (key, x)]
  {
    FindAt(fields, key, i);
  }

  /** Storing under the key of the first entry replaces that entry. */
  lemma StoreFront<T>(key: string, y: T, rest: seq<(string, T)>, x: T)
    ensures Store([(key, y)] + rest, key, x) == [(key, x)] + rest
  {
    var fields := [(key, y)] + rest;
    StoreAt(fields, key, x, 0);
    assert fields[0 := (key, x)] == [(key, x)] + rest;
  }

  /** Storing under the key of the last entry, absent before it, replaces that entry. */
  lemma StoreLast<T>(front: seq<(string, T)>, key: string, y: T, x: T)
    requires forall j :: 0 <= j < |front| ==> front[j].0 != key
    ensures Store(front + [(key, y)], key, x) == front + [(key, x)]
  {
    var fields := front + [(key, y)];
    StoreAt(fields, key, x, |front|);
    assert fields[|front| := (key, x)] == front + [(key, x)];
  }

  /** Storing twice under one key is storing the second value. */
  lemma StoreStore<T>(fields: seq<(string, T)>, key: string, x: T, y: T)
    ensures Store(Store(fields, key, x), key, y) == Store(fields, key, y)
  {
    var once := Store(fields, key, x);
    match Find(fields, key)
    case None =>
      FindAppend(fields, key, x);
      assert Find(once, key) == Some(|fields|);
    case Some(i) =>
      FindByKeys(once, fields, key);
  }

  /** Storing the value a key already holds changes nothing. */
  lemma StoreCurrent<T>(fields: seq<(string, T)>, key: string)
    requires key in Keys(fields)
    ensures Store(fields, key, Lookup(fields, key).value) == fields
  {
  }
}
