/**
 * The parts of the shared Redis cache the shop uses, as abstract state: hashes
 * keyed `<kind>:<id>`, plain string values (`orders`), the set `emails`, the
 * sorted set `productsSortedByRating` and the lock keys currently held.
 */
module Redis {
  import opened Wrappers
  import opened JsObjects
  import Codec
  import Strings

  /** `HSET key f1 v1 f2 v2 ...` from index `i` on: each pair overwrites its
      field in place or appends it; fields not named stay as they were. (The
      cache itself refuses an odd-length array; `Cache.HSet` requires an even one.) */
  function MergeFrom(h: Obj<string>, flat: seq<string>, i: nat): Obj<string>
    decreases |flat| - i
  {
    if i + 1 >= |flat| then h else MergeFrom(Put(h, flat[i], flat[i + 1]), flat, i + 2)
  }

  /** The hash after `HSET key ...flat` on a hash holding `h`. */
  function MergeFlat(h: Obj<string>, flat: seq<string>): Obj<string>
  {
    MergeFrom(h, flat, 0)
  }

  /** The hash after one `HSET key field value` per entry of `pairs`, in order. */
  function MergePairs(h: Obj<string>, pairs: Obj<string>): Obj<string>
    decreases |pairs|
  {
    if pairs == [] then h
    else
      var n := |pairs| - 1;
      Put(MergePairs(h, pairs[..n]), pairs[n].0, pairs[n].1)
  }

  /** The hash stored under `key`, `{}` when there is none. */
  function HashAt(hashes: map<string, Obj<string>>, key: string): Obj<string> {
    if key in hashes then hashes[key] else []
  }

  /** The hashes after one `HSET key field value` per entry of `pairs`; with no
      pairs nothing is written. */
  function WriteFields(hashes: map<string, Obj<string>>, key: string, pairs: Obj<string>): map<string, Obj<string>> {
    if pairs == [] then hashes else hashes[key := MergePairs(HashAt(hashes, key), pairs)]
  }

  lemma WriteFieldsStep(hashes: map<string, Obj<string>>, key: string, pairs: Obj<string>, i: nat)
    requires i < |pairs|
    ensures WriteFields(hashes, key, pairs[..i + 1])
      == WriteFields(hashes, key, pairs[..i])[key := Put(HashAt(WriteFields(hashes, key, pairs[..i]), key), pairs[i].0, pairs[i].1)]
  {
    assert pairs[..i + 1][..i] == pairs[..i];
    if i > 0 {
      assert pairs[..i] != [];
    }
  }

  /** Only `key` changes; the other hashes are untouched. */
  lemma WriteFieldsElsewhere(hashes: map<string, Obj<string>>, key: string, pairs: Obj<string>, other: string)
    requires other != key
    ensures HashAt(WriteFields(hashes, key, pairs), other) == HashAt(hashes, other)
    ensures other in WriteFields(hashes, key, pairs) <==> other in hashes
  {
  }

  /** `o` with every value passed through `f`. */
  function MapValues<V, W>(o: Obj<V>, f: V -> W): (r: Obj<W>)
    ensures |r| == |o|
    ensures forall i :: 0 <= i < |o| ==> r[i] == (o[i].0, f(o[i].1))
  {
    seq(|o|, i requires 0 <= i < |o| => (o[i].0, f(o[i].1)))
  }

  function Text(s: string): string { s }

  /** Reading a cached hash back as the controllers evidently intend: its entries
      flattened to `[f1, v1, f2, v2, ...]` and handed to `deserialize`. */
  function DecodeHash(h: Obj<string>, parse: string -> Option<Json>): Result<Obj<Json>, Codec.DecodeError> {
    Codec.Decode(Codec.Flat(h, Text), parse)
  }

  lemma MergeFromStep(h: Obj<string>, flat: seq<string>, i: nat, field: string, value: string)
    requires i + 1 < |flat| && flat[i] == field && flat[i + 1] == value
    ensures MergeFrom(h, flat, i) == MergeFrom(Put(h, field, value), flat, i + 2)
  {
  }

  /** Merging the flat array of `m`'s pairs, from pair `k` on, onto `m`'s first
      `k` entries rebuilds `m`. */
  lemma {:induction false} MergeFromPrefix(m: Obj<string>, a: seq<string>, k: nat)
    requires UniqueKeys(m) && k <= |m|
    requires a == Codec.Flat(m, Text)
    ensures MergeFrom(m[..k], a, 2 * k) == m
    decreases |m| - k
  {
    if k == |m| {
      assert m[..k] == m;
    } else {
      var i, key, value := 2 * k, m[k].0, m[k].1;
      assert 2 * (k + 1) == i + 2;
      assert a[i] == key && a[i + 1] == value;
      Codec.PrefixLacksNext(m, k);
      assert m[..k] + [(key, value)] == m[..k + 1];
      assert Put(m[..k], key, value) == m[..k + 1];
      MergeFromStep(m[..k], a, i, key, value);
      MergeFromPrefix(m, a, k + 1);
    }
  }

  /** Merging the flat array of `obj`'s pairs, from pair `k` on, onto a hash
      whose first `k` entries already hold `obj`'s texts and whose other
      entries carry `obj`'s keys, in order, rebuilds `obj`'s texts. */
  lemma {:induction false} MergeOverSameKeysFrom<V>(cur: Obj<string>, obj: Obj<V>, f: V -> string, k: nat)
    requires UniqueKeys(obj) && SameKeyOrder(cur, obj) && k <= |obj|
    requires forall j :: 0 <= j < k ==> cur[j] == (obj[j].0, f(obj[j].1))
    ensures MergeFrom(cur, Codec.Flat(obj, f), 2 * k) == MapValues(obj, f)
    decreases |obj| - k
  {
    if k == |obj| {
      assert cur == MapValues(obj, f);
    } else {
      var field, text := obj[k].0, f(obj[k].1);
      forall j | 0 <= j < k ensures cur[j].0 != field {
        assert cur[j].0 == obj[j].0;
      }
      MergeOverSameKeysFrom(cur[k := (field, text)], obj, f, k + 1);
      MergeOverStep(cur, Codec.Flat(obj, f), k, field, text, MapValues(obj, f));
    }
  }

  /** One pair of `MergeOverSameKeysFrom`: the field is present at entry `k`,
      so assigning it there is replacing entry `k`. */
  lemma MergeOverStep(cur: Obj<string>, a: seq<string>, k: nat, field: string, text: string, target: Obj<string>)
    requires 2 * k + 1 < |a| && a[2 * k] == field && a[2 * k + 1] == text
    requires k < |cur| && cur[k].0 == field && forall j :: 0 <= j < k ==> cur[j].0 != field
    requires MergeFrom(cur[k := (field, text)], a, 2 * (k + 1)) == target
    ensures MergeFrom(cur, a, 2 * k) == target
  {
    var i := 2 * k;
    assert 2 * (k + 1) == i + 2;
    PutAt(cur, field, text, k);
    assert Put(cur, field, text) == cur[k := (field, text)];
    MergeFromStep(cur, a, i, field, text);
  }

  /** `HSET` of `serialize(obj)` over a hash with exactly `obj`'s fields, in
      order, overwrites every field: the hash is then `obj`'s texts. */
  lemma MergeOverSameKeys<V>(h: Obj<string>, obj: Obj<V>, f: V -> string)
    requires UniqueKeys(obj) && SameKeyOrder(h, obj)
    ensures MergeFlat(h, Codec.Flat(obj, f)) == MapValues(obj, f)
  {
    MergeOverSameKeysFrom(h, obj, f, 0);
  }

  /** Merging leaves a field alone that no key position of the array names. */
  lemma {:induction false} MergeFromKeeps(h: Obj<string>, flat: seq<string>, i: nat, field: string)
    requires forall j :: i <= j < |flat| && (j - i) % 2 == 0 ==> flat[j] != field
    ensures Lookup(MergeFrom(h, flat, i), field) == Lookup(h, field)
    decreases |flat| - i
  {
    if i + 1 < |flat| {
      PutLookup(h, flat[i], flat[i + 1]);
      forall j | i + 2 <= j < |flat| && (j - (i + 2)) % 2 == 0 ensures flat[j] != field {
        assert (j - i) % 2 == 0;
      }
      MergeFromKeeps(Put(h, flat[i], flat[i + 1]), flat, i + 2, field);
    }
  }

  /** `HSET` of `serialize(obj)` on a key that held nothing stores each key of
      `obj` with the JSON text of its value, in order. */
  lemma MergeSerializedIntoEmpty<V>(obj: Obj<V>, f: V -> string)
    requires UniqueKeys(obj)
    ensures MergeFlat([], Codec.Flat(obj, f)) == MapValues(obj, f)
  {
    var m := MapValues(obj, f);
    assert m[..0] == [];
    FlatOfMapped(obj, f);
    MergeFromPrefix(m, Codec.Flat(obj, f), 0);
  }

  /** Flattening the stored text is flattening the record with `stringify`. */
  lemma FlatOfMapped<V>(obj: Obj<V>, f: V -> string)
    ensures Codec.Flat(MapValues(obj, f), Text) == Codec.Flat(obj, f)
  {
    var a := Codec.Flat(MapValues(obj, f), Text);
    var b := Codec.Flat(obj, f);
    forall i | 0 <= i < |a| ensures a[i] == b[i] {
      var k := i / 2;
      if i == 2 * k {
        assert a[2 * k] == b[2 * k];
      } else {
        assert i == 2 * k + 1 && k < |obj|;
        assert MapValues(obj, f)[k].1 == f(obj[k].1);
        assert a[2 * k + 1] == b[2 * k + 1];
      }
    }
  }

  /** Cache round trip: after `HSET key ...serialize(obj)` on an absent key,
      decoding the hash `HGETALL key` returns gives back `obj` exactly. */
  lemma CachedRecordRoundTrip(obj: Obj<Json>, stringify: Json -> string, parse: string -> Option<Json>)
    requires UniqueKeys(obj) && Codec.JsonRoundTrips(obj, stringify, parse)
    ensures DecodeHash(MergeFlat([], Codec.Flat(obj, stringify)), parse) == Success(obj)
  {
    MergeSerializedIntoEmpty(obj, stringify);
    FlatOfMapped(obj, stringify);
    Codec.RoundTrip(obj, stringify, parse);
  }

  /** `array[i]` when `array` is an object: the field named by the digits of
      `i`, if there is one. */
  function Field(h: Obj<string>, i: nat): Option<string> {
    Lookup(h, Strings.NatToString(i))
  }

  /** The least integer not below `n`: an integer `i` is below `n` exactly
      when it is below `Ceiling(n)`. */
  function Ceiling(n: real): (c: int)
    ensures n <= c as real < n + 1.0
  {
    -((-n).Floor)
  }

  /** The loop of `deserialize` from index `i` on, run over an object instead
      of an array: the key is the field named `i` (the text `undefined` when
      there is none), the value the parse of the field named `i + 1`, and
      `JSON.parse(undefined)` throws. */
  function FieldLoop(acc: Obj<Json>, h: Obj<string>, i: nat, bound: int, parse: string -> Option<Json>)
    : Result<Obj<Json>, Codec.DecodeError>
    decreases bound - i
  {
    if bound <= i then Success(acc)
    else
      var key := match Field(h, i) case Some(k) => k case None => "undefined";
      match Field(h, i + 1)
      case None => Failure(Codec.InvalidJson(i + 1))
      case Some(text) =>
        match parse(text)
        case None => Failure(Codec.InvalidJson(i + 1))
        case Some(v) => FieldLoop(Put(acc, key, v), h, i + 2, bound, parse)
  }

  /** `deserialize` as the controllers call it: on the object `HGETALL`
      returns instead of the flat array it expects. `array.length` is then the
      object's field `length`, or `undefined`. The test `i < array.length`
      converts that text with `Number` (`toNumber`, `None` for `NaN`), and a
      comparison with `undefined` or `NaN` is false, so the loop runs only
      when the hash has a field `length` holding a positive number. */
  function DeserializeHashAsWritten(h: Obj<string>, parse: string -> Option<Json>, toNumber: string -> Option<real>)
    : (r: Result<Obj<Json>, Codec.DecodeError>)
    ensures r != Success([]) ==>
      HasKey(h, "length") && toNumber(Lookup(h, "length").value).Some? && toNumber(Lookup(h, "length").value).value > 0.0
    ensures (&& HasKey(h, "length") && toNumber(Lookup(h, "length").value).Some?
             && toNumber(Lookup(h, "length").value).value > 0.0 && !HasKey(h, "1"))
            ==> r.Failure?
  {
    match Lookup(h, "length")
    case None => Success([])
    case Some(text) =>
      match toNumber(text)
      case None => Success([])
      case Some(n) =>
        if n <= 0.0 then Success([])
        else
          assert Strings.NatToString(1) == "1";
          FieldLoop([], h, 0, Ceiling(n), parse)
  }

  /** How a controller reads a cached hash back into an object: as the source
      does, by handing the object `HGETALL` returns to `deserialize`; or as
      evidently intended, by decoding the hash's entries. */
  datatype Reading = AsWritten | Corrected

  function ReadCached(how: Reading, h: Obj<string>, parse: string -> Option<Json>, toNumber: string -> Option<real>)
    : Result<Obj<Json>, Codec.DecodeError>
  {
    match how
    case AsWritten => DeserializeHashAsWritten(h, parse, toNumber)
    case Corrected => DecodeHash(h, parse)
  }

  lemma MapValuesKeys<V, W>(o: Obj<V>, f: V -> W, k: string)
    ensures HasKey(MapValues(o, f), k) <==> HasKey(o, k)
  {
    var m := MapValues(o, f);
    if HasKey(o, k) {
      var i :| 0 <= i < |o| && o[i].0 == k;
      assert m[i].0 == k;
    }
    if HasKey(m, k) {
      var i :| 0 <= i < |m| && m[i].0 == k;
      assert o[i].0 == k;
    }
  }

  /** The discrepancy at the call sites: a record without a field `length`,
      cached by `HSET key ...serialize(obj)`, reads back as `{}` the way the
      controllers read it, although decoding the hash's entries gives `obj`. */
  lemma CachedRecordReadsEmptyAsWritten(obj: Obj<Json>, stringify: Json -> string,
                                        parse: string -> Option<Json>, toNumber: string -> Option<real>)
    requires UniqueKeys(obj) && Codec.JsonRoundTrips(obj, stringify, parse)
    requires obj != [] && !HasKey(obj, "length")
    ensures ReadCached(AsWritten, MergeFlat([], Codec.Flat(obj, stringify)), parse, toNumber) == Success([])
    ensures ReadCached(Corrected, MergeFlat([], Codec.Flat(obj, stringify)), parse, toNumber) == Success(obj) != Success([])
  {
    MergeSerializedIntoEmpty(obj, stringify);
    MapValuesKeys(obj, stringify, "length");
    CachedRecordRoundTrip(obj, stringify, parse);
  }

  /** A member of the sorted set with its score. */
  datatype Scored = Scored(score: real, member: string)

  function Members(z: seq<Scored>): (ms: seq<string>)
    ensures |ms| == |z| && forall i :: 0 <= i < |z| ==> ms[i] == z[i].member
  {
    seq(|z|, i requires 0 <= i < |z| => z[i].member)
  }

  /** Byte-wise lexicographic order on strings, as the cache orders members
      of equal score. */
  predicate LexLess(a: string, b: string)
    decreases |a|
  {
    if a == [] then b != []
    else if b == [] then false
    else if a[0] != b[0] then a[0] < b[0]
    else LexLess(a[1..], b[1..])
  }

  lemma {:induction false} LexLessTotal(a: string, b: string)
    requires a != b
    ensures LexLess(a, b) || LexLess(b, a)
    decreases |a|
  {
    if a != [] && b != [] && a[0] == b[0] {
      assert a == [a[0]] + a[1..] && b == [b[0]] + b[1..];
      LexLessTotal(a[1..], b[1..]);
    }
  }

  lemma {:induction false} LexLessTrans(a: string, b: string, c: string)
    requires LexLess(a, b) && LexLess(b, c)
    ensures LexLess(a, c)
    decreases |a|
  {
    if a != [] && a[0] == b[0] && b[0] == c[0] {
      LexLessTrans(a[1..], b[1..], c[1..]);
    }
  }

  lemma BeforeTrans(x: Scored, y: Scored, w: Scored)
    requires Before(x, y) && Before(y, w)
    ensures Before(x, w)
  {
    if x.score == y.score == w.score {
      LexLessTrans(x.member, y.member, w.member);
    }
  }

  /** Rank order: ascending score, equal scores by member. */
  predicate Before(x: Scored, y: Scored) {
    x.score < y.score || (x.score == y.score && LexLess(x.member, y.member))
  }

  /** A sorted set in rank order, each member once. */
  ghost predicate Ranked(z: seq<Scored>) {
    && (forall i, j :: 0 <= i < j < |z| ==> Before(z[i], z[j]))
    && (forall i, j :: 0 <= i < j < |z| ==> z[i].member != z[j].member)
  }

  /** Ranks ascend by score: with the seeder's negated ratings, the cache lists
      higher-rated products first. */
  lemma RankedScores(z: seq<Scored>, i: nat, j: nat)
    requires Ranked(z) && i < j < |z|
    ensures z[i].score <= z[j].score
  {
    assert Before(z[i], z[j]);
  }

  /** An entry can go in front of a ranked set when it ranks before, and
      differs in member from, every entry there. */
  ghost predicate Leads(x: Scored, z: seq<Scored>) {
    forall e :: e in z ==> Before(x, e) && x.member != e.member
  }

  lemma RankedCons(x: Scored, z: seq<Scored>)
    ensures Ranked([x] + z) <==> Leads(x, z) && Ranked(z)
  {
    var r := [x] + z;
    if Ranked(r) {
      forall e | e in z ensures Before(x, e) && x.member != e.member {
        var j :| 0 <= j < |z| && z[j] == e;
        assert r[0] == x && r[j + 1] == e;
      }
      forall i, j | 0 <= i < j < |z| ensures Before(z[i], z[j]) && z[i].member != z[j].member {
        assert r[i + 1] == z[i] && r[j + 1] == z[j];
      }
    }
    if Leads(x, z) && Ranked(z) {
      forall i, j | 0 <= i < j < |r| ensures Before(r[i], r[j]) && r[i].member != r[j].member {
        if i == 0 {
          assert r[j] == z[j - 1] && z[j - 1] in z;
        } else {
          assert r[i] == z[i - 1] && r[j] == z[j - 1];
        }
      }
    }
  }

  /** The sorted set without `m`. */
  function ZRemove(z: seq<Scored>, m: string): (r: seq<Scored>)
    ensures forall e :: e in r <==> e in z && e.member != m
  {
    if z == [] then []
    else if z[0].member == m then ZRemove(z[1..], m)
    else
      var rest := ZRemove(z[1..], m);
      assert forall e :: e in z[1..] ==> e in z;
      [z[0]] + rest
  }

  lemma {:induction false} ZRemoveRanked(z: seq<Scored>, m: string)
    requires Ranked(z)
    ensures Ranked(ZRemove(z, m))
  {
    if z != [] {
      assert z == [z[0]] + z[1..];
      RankedCons(z[0], z[1..]);
      ZRemoveRanked(z[1..], m);
      if z[0].member != m {
        RankedCons(z[0], ZRemove(z[1..], m));
      }
    }
  }

  /** `e` placed in front of the first entry it ranks before. */
  function ZInsert(z: seq<Scored>, e: Scored): (r: seq<Scored>)
    ensures forall x :: x in r <==> x in z || x == e
  {
    if z == [] then [e]
    else if Before(e, z[0]) then [e] + z
    else
      assert forall x :: x in z[1..] ==> x in z;
      [z[0]] + ZInsert(z[1..], e)
  }

  lemma {:induction false} ZInsertRanked(z: seq<Scored>, e: Scored)
    requires Ranked(z) && forall x :: x in z ==> x.member != e.member
    ensures Ranked(ZInsert(z, e))
  {
    if z != [] {
      assert z == [z[0]] + z[1..];
      RankedCons(z[0], z[1..]);
      if Before(e, z[0]) {
        forall x | x in z ensures Before(e, x) && e.member != x.member {
          if x != z[0] {
            BeforeTrans(e, z[0], x);
          }
        }
        RankedCons(e, z);
      } else {
        assert forall x :: x in z[1..] ==> x in z;
        LexLessTotal(e.member, z[0].member);
        ZInsertRanked(z[1..], e);
        RankedCons(z[0], ZInsert(z[1..], e));
      }
    } else {
      RankedCons(e, z);
    }
  }

  /** `ZADD key score member`: the member's old entry, if any, replaced by the new
      score at its rank. */
  function ZAdd(z: seq<Scored>, score: real, m: string): (r: seq<Scored>)
    ensures forall e :: e in r <==> e == Scored(score, m) || (e in z && e.member != m)
  {
    ZInsert(ZRemove(z, m), Scored(score, m))
  }

  /** `ZADD` keeps the set ranked and each member in it once. */
  lemma ZAddRanked(z: seq<Scored>, score: real, m: string)
    requires Ranked(z)
    ensures Ranked(ZAdd(z, score, m))
  {
    ZRemoveRanked(z, m);
    ZInsertRanked(ZRemove(z, m), Scored(score, m));
  }

  /** `ZRANGE key start stop`: the members ranked `start` to `stop` inclusive; a
      negative index counts from the end, a start before the first rank reads
      from it, a stop past the last rank reads to it; an empty range is `[]`. */
  function ZRange(z: seq<Scored>, start: int, stop: int): (r: seq<string>)
    ensures 0 <= start && 0 <= stop ==>
      r == if start <= stop && start < |z|
           then Members(z)[start..if stop < |z| then stop + 1 else |z|]
           else []
  {
    var n := |z|;
    var s := if start >= 0 then start else if n + start >= 0 then n + start else 0;
    var e := if stop >= 0 then stop else n + stop;
    var last := if e < n then e else n - 1;
    if s > last || s >= n then [] else Members(z)[s..last + 1]
  }

  /** The cache state. Redis keeps all of these in one key space; the model
      keeps one map or set per kind of value. */
  class Cache {
    var hashes: map<string, Obj<string>>
    var values: map<string, string>
    var emails: set<string>
    var ranking: seq<Scored>
    var locks: set<string>

    ghost predicate Valid()
      reads this
    {
      && Ranked(ranking)
      && (forall k :: k in hashes ==> hashes[k] != [] && UniqueKeys(hashes[k]))
    }

    constructor ()
      ensures Valid()
      ensures hashes == map[] && values == map[] && emails == {} && ranking == [] && locks == {}
    {
      hashes, values, emails, ranking, locks := map[], map[], {}, [], {};
    }

    /** `HGETALL key`: the hash's fields, `{}` for an absent key. */
    function HGetAll(key: string): Obj<string>
      reads this
    {
      HashAt(hashes, key)
    }

    /** `HSET key ...flat` with a non-empty key/value array. */
    method HSet(key: string, flat: seq<string>)
      requires Valid() && |flat| % 2 == 0 && |flat| >= 2
      modifies this
      ensures Valid()
      ensures hashes == old(hashes)[key := MergeFlat(old(HGetAll(key)), flat)]
      ensures values == old(values) && emails == old(emails)
      ensures ranking == old(ranking) && locks == old(locks)
    {
      MergeKeepsShape(HGetAll(key), flat, 0);
      hashes := hashes[key := MergeFlat(HGetAll(key), flat)];
    }

    /** `HSET key field value`. */
    method HSetField(key: string, field: string, value: string)
      requires Valid()
      modifies this
      ensures Valid()
      ensures hashes == old(hashes)[key := Put(old(HGetAll(key)), field, value)]
      ensures values == old(values) && emails == old(emails)
      ensures ranking == old(ranking) && locks == old(locks)
    {
      var h := Put(HGetAll(key), field, value);
      PutKeys(HGetAll(key), field, value);
      assert HasKey(h, field);
      hashes := hashes[key := h];
    }

    /** `DEL key`, whatever kind of value the key holds. */
    method Del(key: string)
      requires Valid()
      modifies this
      ensures Valid()
      ensures hashes == old(hashes) - {key} && values == old(values) - {key}
      ensures emails == (if key == "emails" then {} else old(emails))
      ensures ranking == (if key == "productsSortedByRating" then [] else old(ranking))
      ensures locks == old(locks) - {key}
    {
      hashes, values, locks := hashes - {key}, values - {key}, locks - {key};
      if key == "emails" {
        emails := {};
      }
      if key == "productsSortedByRating" {
        ranking := [];
      }
    }

    /** `SADD emails email`. */
    method SAddEmail(email: string)
      requires Valid()
      modifies this
      ensures Valid()
      ensures emails == old(emails) + {email}
      ensures hashes == old(hashes) && values == old(values)
      ensures ranking == old(ranking) && locks == old(locks)
    {
      emails := emails + {email};
    }

    /** `SET key value`, with no expiry: the client drops positional `'EX'` arguments. */
    method Set(key: string, value: string)
      requires Valid()
      modifies this
      ensures Valid()
      ensures values == old(values)[key := value]
      ensures hashes == old(hashes) && emails == old(emails)
      ensures ranking == old(ranking) && locks == old(locks)
    {
      values := values[key := value];
    }

    /** `ZADD productsSortedByRating score member`. */
    method ZAddRanking(score: real, member: string)
      requires Valid()
      modifies this
      ensures Valid()
      ensures ranking == ZAdd(old(ranking), score, member)
      ensures hashes == old(hashes) && values == old(values)
      ensures emails == old(emails) && locks == old(locks)
    {
      ZAddRanked(ranking, score, member);
      ranking := ZAdd(ranking, score, member);
    }

    /** The keys that exist, whatever kind of value they hold. */
    function KeySpace(): set<string>
      reads this
    {
      hashes.Keys + values.Keys + locks
        + (if emails != {} then {"emails"} else {})
        + (if ranking != [] then {"productsSortedByRating"} else {})
    }

    /** `KEYS <prefix>*`. */
    function KeysWithPrefix(prefix: string): (ks: set<string>)
      reads this
      ensures forall k :: k in ks <==> k in KeySpace() && prefix <= k
    {
      set k | k in KeySpace() && prefix <= k
    }

    /** The lock helper: set the key only if it is absent; true when it was set. */
    method AcquireLock(key: string) returns (acquired: bool)
      requires Valid()
      modifies this
      ensures Valid()
      ensures acquired == (key !in old(locks))
      ensures locks == old(locks) + {key}
      ensures hashes == old(hashes) && values == old(values)
      ensures emails == old(emails) && ranking == old(ranking)
    {
      acquired := key !in locks;
      locks := locks + {key};
    }

    /** The lock helper's release: delete the key. */
    method ReleaseLock(key: string)
      requires Valid()
      modifies this
      ensures Valid()
      ensures locks == old(locks) - {key}
      ensures hashes == old(hashes) && values == old(values)
      ensures emails == old(emails) && ranking == old(ranking)
    {
      locks := locks - {key};
    }
  }

  /** `hSet(key, serialize(obj))`, the way the controllers cache a record. */
  method HSetObject(cache: Cache, key: string, obj: Obj<Json>, stringify: Json -> string)
    requires cache.Valid() && obj != []
    modifies cache
    ensures cache.Valid()
    ensures cache.hashes == old(cache.hashes)[key := MergeFlat(old(cache.HGetAll(key)), Codec.Flat(obj, stringify))]
    ensures cache.values == old(cache.values) && cache.emails == old(cache.emails)
    ensures cache.ranking == old(cache.ranking) && cache.locks == old(cache.locks)
  {
    var flat := Codec.Serialize(obj, stringify);
    cache.HSet(key, flat);
  }

  /** On a key that held nothing, `HSetObject` stores the record's JSON texts,
      which read back as the record whenever `JSON.parse` undoes
      `JSON.stringify` on its values. */
  lemma FreshlyCached(obj: Obj<Json>, stringify: Json -> string, parse: string -> Option<Json>)
    requires UniqueKeys(obj)
    ensures MergeFlat([], Codec.Flat(obj, stringify)) == MapValues(obj, stringify)
    ensures Codec.JsonRoundTrips(obj, stringify, parse) ==> DecodeHash(MapValues(obj, stringify), parse) == Success(obj)
  {
    MergeSerializedIntoEmpty(obj, stringify);
    if Codec.JsonRoundTrips(obj, stringify, parse) {
      CachedRecordRoundTrip(obj, stringify, parse);
    }
  }

  /** Merging a non-empty array keeps a hash non-empty and its fields unique. */
  lemma {:induction false} MergeKeepsShape(h: Obj<string>, flat: seq<string>, i: nat)
    requires UniqueKeys(h)
    requires h != [] || i + 1 < |flat|
    ensures MergeFrom(h, flat, i) != [] && UniqueKeys(MergeFrom(h, flat, i))
    decreases |flat| - i
  {
    if i + 1 < |flat| {
      var h' := Put(h, flat[i], flat[i + 1]);
      PutKeys(h, flat[i], flat[i + 1]);
      assert HasKey(h', flat[i]);
      MergeKeepsShape(h', flat, i + 2);
    }
  }

  /** Per-field merging keeps a hash's fields unique, non-empty once a pair was set. */
  lemma {:induction false} MergePairsKeepsShape(h: Obj<string>, pairs: Obj<string>)
    requires UniqueKeys(h)
    ensures UniqueKeys(MergePairs(h, pairs))
    ensures pairs != [] ==> MergePairs(h, pairs) != []
    decreases |pairs|
  {
    if pairs != [] {
      var n := |pairs| - 1;
      MergePairsKeepsShape(h, pairs[..n]);
      PutKeys(MergePairs(h, pairs[..n]), pairs[n].0, pairs[n].1);
    }
  }
}
