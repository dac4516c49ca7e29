/**
 * The flat-array codec of backend/utils/redisHelper.js.
 *
 * `serialize` turns an object into `[k1, JSON(v1), k2, JSON(v2), ...]`;
 * `deserialize` reads such an array back two elements at a time. JSON text is
 * produced and read by the runtime's `JSON.stringify` and `JSON.parse`, which
 * the model takes as parameters (`parse` answers `None` where `JSON.parse` throws).
 */
module Codec {
  import opened Wrappers
  import opened JsObjects

  /** The array `serialize` builds: every even index holds a key, the index after
      it the JSON text of that key's value, entries in the object's own order. */
  function Flat<V>(obj: Obj<V>, stringify: V -> string): (r: seq<string>)
    ensures |r| == 2 * |obj|
    ensures forall k :: 0 <= k < |obj| ==> r[2 * k] == obj[k].0 && r[2 * k + 1] == stringify(obj[k].1)
  {
    if obj == [] then []
    else Flat(obj[..|obj| - 1], stringify) + [obj[|obj| - 1].0, stringify(obj[|obj| - 1].1)]
  }

  /** `serialize(obj)`: the `reduce` that pushes each key and its JSON text onto
      the accumulator. */
  method Serialize<V>(obj: Obj<V>, stringify: V -> string) returns (acc: seq<string>)
    ensures acc == Flat(obj, stringify)
  {
    acc := [];
    for i := 0 to |obj|
      invariant acc == Flat(obj[..i], stringify)
    {
      assert obj[..i + 1][..i] == obj[..i];
      acc := acc + [obj[i].0, stringify(obj[i].1)];
    }
    assert obj[..|obj|] == obj;
  }

  /** Why `deserialize` throws: `JSON.parse` rejected the text at `index`, or the
      array ended before the value at `index` (odd length: `JSON.parse(undefined)`). */
  datatype DecodeError = InvalidJson(index: nat) | MissingValue(index: nat)

  /** The rest of the `deserialize` loop from index `i`, with `obj` built so far. */
  function DecodeFrom<V>(obj: Obj<V>, a: seq<string>, i: nat, parse: string -> Option<V>)
    : Result<Obj<V>, DecodeError>
    decreases |a| - i
  {
    if i >= |a| then Success(obj)
    else if i + 1 == |a| then Failure(MissingValue(i + 1))
    else match parse(a[i + 1])
      case None => Failure(InvalidJson(i + 1))
      case Some(v) => DecodeFrom(Put(obj, a[i], v), a, i + 2, parse)
  }

  /** What `deserialize(a)` returns or throws. */
  function Decode<V>(a: seq<string>, parse: string -> Option<V>): Result<Obj<V>, DecodeError> {
    DecodeFrom([], a, 0, parse)
  }

  /** `deserialize(array)`: the index-stepping loop assigning `obj[items[i]]`. */
  method Deserialize<V>(items: seq<string>, parse: string -> Option<V>)
    returns (r: Result<Obj<V>, DecodeError>)
    ensures r == Decode(items, parse)
  {
    var obj: Obj<V> := [];
    var i := 0;
    while i < |items|
      invariant i <= |items|
      invariant DecodeFrom(obj, items, i, parse) == Decode(items, parse)
      decreases |items| - i
    {
      if i + 1 == |items| {
        return Failure(MissingValue(i + 1));
      }
      var parsed := parse(items[i + 1]);
      if parsed.None? {
        return Failure(InvalidJson(i + 1));
      }
      obj := Put(obj, items[i], parsed.value);
      i := i + 2;
    }
    r := Success(obj);
  }

  /** The JSON law the round trip rests on, for the values of one object. */
  ghost predicate JsonRoundTrips<V>(obj: Obj<V>, stringify: V -> string, parse: string -> Option<V>) {
    forall k :: 0 <= k < |obj| ==> parse(stringify(obj[k].1)) == Some(obj[k].1)
  }

  /** In an object with unique keys, no entry before position `k` has `k`'s key. */
  lemma PrefixLacksNext<V>(obj: Obj<V>, k: nat)
    requires UniqueKeys(obj) && k < |obj|
    ensures !HasKey(obj[..k], obj[k].0)
  {
    forall j | 0 <= j < k ensures obj[..k][j].0 != obj[k].0 {
      assert obj[..k][j] == obj[j];
    }
  }

  lemma DecodeFromStep<V>(obj: Obj<V>, a: seq<string>, i: nat, parse: string -> Option<V>, key: string, v: V)
    requires i + 1 < |a| && a[i] == key && parse(a[i + 1]) == Some(v)
    ensures DecodeFrom(obj, a, i, parse) == DecodeFrom(Put(obj, key, v), a, i + 2, parse)
  {
  }

  lemma {:induction false} RoundTripFrom<V>(obj: Obj<V>, stringify: V -> string,
                                            parse: string -> Option<V>, k: nat)
    requires UniqueKeys(obj) && JsonRoundTrips(obj, stringify, parse)
    requires k <= |obj|
    ensures DecodeFrom(obj[..k], Flat(obj, stringify), 2 * k, parse) == Success(obj)
    decreases |obj| - k
  {
    var a := Flat(obj, stringify);
    if k == |obj| {
      assert obj[..k] == obj;
    } else {
      var i, key, value := 2 * k, obj[k].0, obj[k].1;
      assert 2 * (k + 1) == i + 2;
      assert a[i] == key && a[i + 1] == stringify(value);
      assert parse(a[i + 1]) == Some(value);
      PrefixLacksNext(obj, k);
      assert obj[..k] + [(key, value)] == obj[..k + 1];
      assert Put(obj[..k], key, value) == obj[..k + 1];
      DecodeFromStep(obj[..k], a, i, parse, key, value);
      RoundTripFrom(obj, stringify, parse, k + 1);
    }
  }

  /** `deserialize(serialize(obj))` gives back `obj`: the same keys, in the same
      order, with the same values, provided `JSON.parse` undoes
      `JSON.stringify` on its values. The empty object is the case `obj == []`. */
  lemma RoundTrip<V>(obj: Obj<V>, stringify: V -> string, parse: string -> Option<V>)
    requires UniqueKeys(obj) && JsonRoundTrips(obj, stringify, parse)
    ensures Decode(Flat(obj, stringify), parse) == Success(obj)
  {
    RoundTripFrom(obj, stringify, parse, 0);
  }

  /** The empty object serializes to the empty array, which deserializes to `{}`. */
  lemma EmptyObject<V>(stringify: V -> string, parse: string -> Option<V>)
    ensures Flat([], stringify) == [] && Decode([], parse) == Success([])
  {
  }

  lemma {:induction false} OddFailsFrom<V>(obj: Obj<V>, a: seq<string>, i: nat, parse: string -> Option<V>)
    requires |a| % 2 == 1 && i % 2 == 0 && i <= |a|
    ensures DecodeFrom(obj, a, i, parse).Failure?
    decreases |a| - i
  {
    if i + 1 < |a| && parse(a[i + 1]).Some? {
      OddFailsFrom(Put(obj, a[i], parse(a[i + 1]).value), a, i + 2, parse);
    }
  }

  /** An array of odd length always throws: its last key has no value, and
      `JSON.parse(undefined)` fails (if nothing failed before it). */
  lemma OddLengthFails<V>(a: seq<string>, parse: string -> Option<V>)
    requires |a| % 2 == 1
    ensures Decode(a, parse).Failure?
  {
    OddFailsFrom([], a, 0, parse);
  }

  /** `k` is held by an element at an even index at or after `i`. */
  ghost predicate KeyAtOrAfter(a: seq<string>, i: nat, k: string) {
    exists j :: i <= j < |a| && j % 2 == 0 && a[j] == k
  }

  /** No even index after `j` repeats the key at `j`. */
  ghost predicate LastOccurrence(a: seq<string>, j: nat) {
    j < |a| && forall m :: j < m < |a| && m % 2 == 0 ==> a[m] != a[j]
  }

  lemma KeyAtOrAfterStep(a: seq<string>, i: nat, k: string)
    requires i % 2 == 0 && i < |a|
    ensures KeyAtOrAfter(a, i, k) <==> k == a[i] || KeyAtOrAfter(a, i + 2, k)
  {
    if KeyAtOrAfter(a, i, k) && k != a[i] {
      var j :| i <= j < |a| && j % 2 == 0 && a[j] == k;
      assert i + 2 <= j;
    }
  }

  /** Decoding keeps keys unique and yields the starting keys plus the keys at even
      indexes from `i` on. */
  lemma {:induction false} DecodeFromKeys<V>(acc: Obj<V>, a: seq<string>, i: nat, parse: string -> Option<V>)
    requires i % 2 == 0 && i <= |a|
    requires DecodeFrom(acc, a, i, parse).Success?
    ensures UniqueKeys(acc) ==> UniqueKeys(DecodeFrom(acc, a, i, parse).value)
    ensures forall k :: HasKey(DecodeFrom(acc, a, i, parse).value, k) <==>
      HasKey(acc, k) || KeyAtOrAfter(a, i, k)
    decreases |a| - i
  {
    if i < |a| {
      var acc' := Put(acc, a[i], parse(a[i + 1]).value);
      PutKeys(acc, a[i], parse(a[i + 1]).value);
      DecodeFromKeys(acc', a, i + 2, parse);
      forall k ensures KeyAtOrAfter(a, i, k) <==> k == a[i] || KeyAtOrAfter(a, i + 2, k) {
        KeyAtOrAfterStep(a, i, k);
      }
    }
  }

  /** A key that no even index from `i` on holds keeps its starting value. */
  lemma {:induction false} DecodeFromKeeps<V>(acc: Obj<V>, a: seq<string>, i: nat,
                                              parse: string -> Option<V>, k: string)
    requires i % 2 == 0 && i <= |a|
    requires DecodeFrom(acc, a, i, parse).Success?
    requires !KeyAtOrAfter(a, i, k)
    ensures Lookup(DecodeFrom(acc, a, i, parse).value, k) == Lookup(acc, k)
    decreases |a| - i
  {
    if i < |a| {
      KeyAtOrAfterStep(a, i, k);
      PutLookup(acc, a[i], parse(a[i + 1]).value);
      DecodeFromKeeps(Put(acc, a[i], parse(a[i + 1]).value), a, i + 2, parse, k);
    }
  }

  /** The pair at even index `j` (from `i` on) whose key does not come again
      decides that key's value. */
  lemma {:induction false} DecodeFromLast<V>(acc: Obj<V>, a: seq<string>, i: nat,
                                             parse: string -> Option<V>, j: nat)
    requires i % 2 == 0 && i <= |a|
    requires DecodeFrom(acc, a, i, parse).Success?
    requires i <= j && j + 1 < |a| && j % 2 == 0 && LastOccurrence(a, j)
    ensures Lookup(DecodeFrom(acc, a, i, parse).value, a[j]) == parse(a[j + 1])
    decreases |a| - i
  {
    assert i + 1 < |a|;
    assert parse(a[i + 1]).Some?;
    var key, v := a[i], parse(a[i + 1]).value;
    var acc' := Put(acc, key, v);
    DecodeFromStep(acc, a, i, parse, key, v);
    if j == i {
      PutLookup(acc, key, v);
      assert !KeyAtOrAfter(a, i + 2, key);
      DecodeFromKeeps(acc', a, i + 2, parse, key);
    } else {
      DecodeFromLast(acc', a, i + 2, parse, j);
    }
  }

  /** The keys `deserialize` produces are exactly the elements at even indexes,
      each once. */
  lemma DecodedKeys<V>(a: seq<string>, parse: string -> Option<V>)
    requires Decode(a, parse).Success?
    ensures UniqueKeys(Decode(a, parse).value)
    ensures forall k :: HasKey(Decode(a, parse).value, k) <==> KeyAtOrAfter(a, 0, k)
  {
    DecodeFromKeys([], a, 0, parse);
  }

  /** When a key repeats, the last pair wins: the value of the key at even index
      `j` is the parse of `a[j + 1]` when no later even index holds that key. */
  lemma LastPairWins<V>(a: seq<string>, parse: string -> Option<V>, j: nat)
    requires Decode(a, parse).Success?
    requires j % 2 == 0 && j + 1 < |a|
    requires LastOccurrence(a, j)
    ensures Lookup(Decode(a, parse).value, a[j]) == parse(a[j + 1])
  {
    DecodeFromLast([], a, 0, parse, j);
  }
}
