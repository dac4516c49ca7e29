/**
 * JavaScript objects and JSON values.
 *
 * An object is modelled as the list `Object.entries` returns: its string keys in
 * insertion order, each once, with their values. The same shape serves for a
 * Redis hash (fields kept in insertion order, which Redis guarantees only for a
 * small, listpack-encoded hash; a larger one returns its fields in an
 * unspecified order) and for a record-store collection (records in natural
 * order, keyed by id).
 */
module JsObjects {
  import opened Wrappers

  type Obj<V> = seq<(string, V)>

  predicate HasKey<V>(o: Obj<V>, k: string) {
    exists i :: 0 <= i < |o| && o[i].0 == k
  }

  /** Every key occurs once, as in a real object. */
  predicate UniqueKeys<V>(o: Obj<V>) {
    forall i, j :: 0 <= i < j < |o| ==> o[i].0 != o[j].0
  }

  /** Two objects with unique, disjoint keys concatenate to one with unique keys. */
  lemma UniqueConcat<V>(a: Obj<V>, b: Obj<V>)
    requires UniqueKeys(a) && UniqueKeys(b)
    requires forall i, j :: 0 <= i < |a| && 0 <= j < |b| ==> a[i].0 != b[j].0
    ensures UniqueKeys(a + b)
  {
    var r := a + b;
    forall i, j | 0 <= i < j < |r| ensures r[i].0 != r[j].0 {
      if j < |a| {
        assert r[i] == a[i] && r[j] == a[j];
      } else if i >= |a| {
        assert r[i] == b[i - |a|] && r[j] == b[j - |a|];
      } else {
        assert r[i] == a[i] && r[j] == b[j - |a|];
      }
    }
  }

  /** `o[k]`, `None` for `undefined`. */
  function Lookup<V>(o: Obj<V>, k: string): (r: Option<V>)
    ensures r.Some? <==> HasKey(o, k)
    ensures r.Some? ==> exists i :: 0 <= i < |o| && o[i] == (k, r.value)
  {
    if o == [] then None
    else if o[0].0 == k then Some(o[0].1)
    else
      var r := Lookup(o[1..], k);
      assert HasKey(o[1..], k) ==> HasKey(o, k) by {
        if HasKey(o[1..], k) {
          var i :| 0 <= i < |o[1..]| && o[1..][i].0 == k;
          assert o[i + 1].0 == k;
        }
      }
      assert r.Some? ==> exists i :: 0 <= i < |o| && o[i] == (k, r.value) by {
        if r.Some? {
          var i :| 0 <= i < |o[1..]| && o[1..][i] == (k, r.value);
          assert o[i + 1] == (k, r.value);
        }
      }
      r
  }

  /** The key set of `o`. */
  function KeySet<V>(o: Obj<V>): (ks: set<string>)
    ensures forall k :: k in ks <==> HasKey(o, k)
  {
    set i | 0 <= i < |o| :: o[i].0
  }

  /** Membership of a key in an object given by its first entry and the rest. */
  lemma HasKeyCons<V>(x: (string, V), o: Obj<V>, k: string)
    ensures HasKey([x] + o, k) <==> x.0 == k || HasKey(o, k)
  {
    var r := [x] + o;
    assert r[0] == x;
    if HasKey(r, k) && x.0 != k {
      var i :| 0 <= i < |r| && r[i].0 == k;
      assert o[i - 1].0 == k;
    }
    if HasKey(o, k) {
      var i :| 0 <= i < |o| && o[i].0 == k;
      assert r[i + 1].0 == k;
    }
  }

  /** Reading a key of an object given by its first entry and the rest. */
  lemma LookupCons<V>(x: (string, V), o: Obj<V>, k: string)
    ensures Lookup([x] + o, k) == if x.0 == k then Some(x.1) else Lookup(o, k)
  {
    assert ([x] + o)[1..] == o;
  }

  /** In an object with unique keys, the entry at `i` is what its key reads. */
  lemma LookupUnique<V>(o: Obj<V>, i: nat)
    requires UniqueKeys(o) && i < |o|
    ensures Lookup(o, o[i].0) == Some(o[i].1)
  {
    var r := Lookup(o, o[i].0);
    var j :| 0 <= j < |o| && o[j] == (o[i].0, r.value);
  }

  /** The assignment `o[k] = v`: an existing key keeps its position and takes the
      new value; a new key is appended. `PutLookup` and `PutKeys` state what the
      lookups and the key set become. */
  function Put<V>(o: Obj<V>, k: string, v: V): (r: Obj<V>)
    ensures !HasKey(o, k) ==> r == o + [(k, v)]
    ensures HasKey(o, k) ==> |r| == |o| && HasKey(r, k)
  {
    if o == [] then [(k, v)]
    else
      HasKeyCons(o[0], o[1..], k);
      assert o == [o[0]] + o[1..];
      if o[0].0 == k then
        var r := [(k, v)] + o[1..];
        assert r[0].0 == k;
        r
      else
        var rest := Put(o[1..], k, v);
        var r := [o[0]] + rest;
        HasKeyCons(o[0], rest, k);
        r
  }

  /** After `o[k] = v`, `k` reads `v` and every other key reads as before. */
  lemma {:induction false} PutLookup<V>(o: Obj<V>, k: string, v: V)
    ensures Lookup(Put(o, k, v), k) == Some(v)
    ensures forall k' :: k' != k ==> Lookup(Put(o, k, v), k') == Lookup(o, k')
  {
    var r := Put(o, k, v);
    if o == [] {
      assert r == [(k, v)];
    } else if o[0].0 == k {
      assert r == [(k, v)] + o[1..];
      assert r[0] == (k, v) && r[1..] == o[1..];
    } else {
      var rest := Put(o[1..], k, v);
      assert r == [o[0]] + rest;
      assert r[0] == o[0] && r[1..] == rest;
      PutLookup(o[1..], k, v);
    }
  }

  /** After `o[k] = v` the keys are the old ones and `k`, still each once. */
  lemma {:induction false} PutKeys<V>(o: Obj<V>, k: string, v: V)
    ensures forall k' :: HasKey(Put(o, k, v), k') <==> HasKey(o, k') || k' == k
    ensures UniqueKeys(o) ==> UniqueKeys(Put(o, k, v))
  {
    if o != [] {
      forall k' ensures HasKey(o, k') <==> o[0].0 == k' || HasKey(o[1..], k') {
        HasKeyCons(o[0], o[1..], k');
      }
      assert o == [o[0]] + o[1..];
      if o[0].0 == k {
        var r := [(k, v)] + o[1..];
        forall k' ensures HasKey(r, k') <==> k == k' || HasKey(o[1..], k') {
          HasKeyCons((k, v), o[1..], k');
        }
      } else {
        var rest := Put(o[1..], k, v);
        PutKeys(o[1..], k, v);
        forall k' ensures HasKey([o[0]] + rest, k') <==> o[0].0 == k' || HasKey(rest, k') {
          HasKeyCons(o[0], rest, k');
        }
        assert UniqueKeys(o) ==> UniqueKeys(o[1..]) && !HasKey(o[1..], o[0].0);
      }
    } else {
      var none: Obj<V> := [];
      forall k' ensures HasKey([(k, v)] + none, k') <==> k == k' {
        HasKeyCons((k, v), none, k');
      }
      assert [(k, v)] + none == [(k, v)];
    }
  }

  /** Assigning a key that is present replaces its first entry in place. */
  lemma {:induction false} PutAt<V>(o: Obj<V>, k: string, v: V, i: nat)
    requires i < |o| && o[i].0 == k
    requires forall j :: 0 <= j < i ==> o[j].0 != k
    ensures Put(o, k, v) == o[i := (k, v)]
  {
    if i > 0 {
      PutAt(o[1..], k, v, i - 1);
      assert o[1..][i - 1 := (k, v)] == o[i := (k, v)][1..];
    }
  }

  /** `a` and `b` list the same keys in the same order. */
  ghost predicate SameKeyOrder<V, W>(a: Obj<V>, b: Obj<W>) {
    |a| == |b| && forall j :: 0 <= j < |a| ==> a[j].0 == b[j].0
  }

  /** Every entry after `o[k] = v` is an old entry or the new pair. */
  lemma {:induction false} PutEntries<V>(o: Obj<V>, k: string, v: V)
    ensures forall e :: e in Put(o, k, v) ==> e in o || e == (k, v)
  {
    if o != [] && o[0].0 != k {
      PutEntries(o[1..], k, v);
      assert forall e :: e in o[1..] ==> e in o;
    }
  }

  /** The object without key `k` (`delete o[k]`); used for record deletion. */
  function Remove<V>(o: Obj<V>, k: string): (r: Obj<V>)
    ensures !HasKey(r, k)
    ensures forall k' :: k' != k ==> Lookup(r, k') == Lookup(o, k')
    ensures forall k' :: HasKey(r, k') <==> HasKey(o, k') && k' != k
    ensures UniqueKeys(o) ==> UniqueKeys(r)
  {
    if o == [] then []
    else
      assert o == [o[0]] + o[1..];
      forall k' ensures HasKey(o, k') <==> o[0].0 == k' || HasKey(o[1..], k') {
        HasKeyCons(o[0], o[1..], k');
      }
      var rest := Remove(o[1..], k);
      if o[0].0 == k then rest
      else
        var r := [o[0]] + rest;
        forall k' ensures HasKey(r, k') <==> o[0].0 == k' || HasKey(rest, k') {
          HasKeyCons(o[0], rest, k');
        }
        assert UniqueKeys(o) ==> UniqueKeys(o[1..]) && !HasKey(o[1..], o[0].0);
        r
  }

  /** A JSON value: what `JSON.parse` can return and `JSON.stringify` accepts. */
  datatype Json =
    | Null
    | Bool(b: bool)
    | Number(n: real)
    | Str(s: string)
    | Array(items: seq<Json>)
    | Object(fields: Obj<Json>)

  /** `Boolean(x)` for a request field that may be absent (`undefined`). */
  predicate Truthy(x: Option<Json>) {
    match x
    case None => false
    case Some(Null) => false
    case Some(Bool(b)) => b
    case Some(Number(n)) => n != 0.0
    case Some(Str(s)) => s != ""
    case Some(_) => true
  }

  /** `a || b` on an optional request string: an absent or empty string falls back. */
  function OrElse(a: Option<string>, b: string): (r: string)
    ensures a.Some? && a.value != "" ==> r == a.value
    ensures a.None? || a.value == "" ==> r == b
  {
    if a.Some? && a.value != "" then a.value else b
  }
}
