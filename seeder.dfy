/**
 * The seeding script: importing the sample data into the store, the product
 * hashes and the rating index, and destroying it again.
 */
module Seeder {
  import opened Wrappers
  import opened JsObjects
  import opened Models
  import opened Redis
  import opened Strings
  import opened Products
  import Codec

  ghost predicate Distinct(ids: seq<string>) {
    forall i, j :: 0 <= i < j < |ids| ==> ids[i] != ids[j]
  }

  /** `insertMany`: the records under the ids the store assigns, in order. */
  function Zip<V>(ids: seq<string>, records: seq<V>): (o: Obj<V>)
    requires |ids| == |records|
    ensures |o| == |ids| && forall i :: 0 <= i < |o| ==> o[i] == (ids[i], records[i])
    ensures Distinct(ids) ==> UniqueKeys(o)
  {
    seq(|ids|, i requires 0 <= i < |ids| => (ids[i], records[i]))
  }

  /** The sample products with the first created user as their owner. */
  function Owned(samples: seq<Product>, owner: string): (ps: seq<Product>)
    ensures |ps| == |samples|
    ensures forall i :: 0 <= i < |ps| ==> ps[i] == samples[i].(user := owner)
  {
    seq(|samples|, i requires 0 <= i < |samples| => samples[i].(user := owner))
  }

  /** The hash keys of the seeded products. */
  function SeedKeys(seeded: Obj<Product>): (keys: seq<string>)
    ensures |keys| == |seeded| && forall i :: 0 <= i < |seeded| ==> keys[i] == ProductKey(seeded[i].0)
  {
    seq(|seeded|, i requires 0 <= i < |seeded| => ProductKey(seeded[i].0))
  }

  /** The flat arrays `serialize(product.toObject())` of the seeded products. */
  function SeedFlats(seeded: Obj<Product>, stringify: Json -> string): (flats: seq<seq<string>>)
    ensures |flats| == |seeded|
  {
    seq(|seeded|, i requires 0 <= i < |seeded| => Codec.Flat(ProductObject(seeded[i].0, seeded[i].1), stringify))
  }

  /** The hashes after the first `n` of the `HSET keys[i] ...flats[i]` calls. */
  function HashesAfter(hashes: map<string, Obj<string>>, keys: seq<string>, flats: seq<seq<string>>, n: nat)
    : map<string, Obj<string>>
    requires n <= |keys| && n <= |flats|
  {
    if n == 0 then hashes
    else
      var h := HashesAfter(hashes, keys, flats, n - 1);
      h[keys[n - 1] := MergeFlat(HashAt(h, keys[n - 1]), flats[n - 1])]
  }

  /** The index entries the first `n` seeded products are added with: minus
      their rating as score. */
  function Added(seeded: Obj<Product>, n: nat): set<Scored>
    requires n <= |seeded|
  {
    if n == 0 then {} else Added(seeded, n - 1) + {Scored(-seeded[n - 1].1.rating, seeded[n - 1].0)}
  }

  /** The ids of the first `n` seeded products. */
  function AddedIds(seeded: Obj<Product>, n: nat): set<string>
    requires n <= |seeded|
  {
    if n == 0 then {} else AddedIds(seeded, n - 1) + {seeded[n - 1].0}
  }

  /** The rating index after the first `n` seeded products were added, by its
      members: each added entry, and each old entry whose member was not added
      again. Together with `Ranked`, this fixes the index's order too. */
  ghost predicate SeededIndex(z: seq<Scored>, ranking: seq<Scored>, seeded: Obj<Product>, n: nat)
    requires n <= |seeded|
  {
    forall e :: e in z <==> e in Added(seeded, n) || (e in ranking && e.member !in AddedIds(seeded, n))
  }

  /** `importData`: clear the three collections, insert the users, then create,
      cache and rank each sample product. Without users `createdUsers[0]` is
      undefined and the script stops with the store already cleared. The cache
      is not cleared. */
  method ImportData(db: Db, cache: Cache, rt: Platform, users: seq<User>, userIds: seq<string>,
                    samples: seq<Product>, productIds: seq<string>)
    returns (ok: bool)
    requires db.Valid() && cache.Valid()
    requires |userIds| == |users| && Distinct(userIds)
    requires |productIds| == |samples| && Distinct(productIds)
    modifies db, cache
    ensures db.Valid() && cache.Valid()
    ensures ok <==> users != []
    ensures db.orders == [] && db.users == Zip(userIds, users)
    ensures !ok ==> db.products == [] && cache.hashes == old(cache.hashes) && cache.ranking == old(cache.ranking)
    ensures ok ==>
      var seeded := Zip(productIds, Owned(samples, userIds[0]));
      && db.products == seeded
      && cache.hashes == HashesAfter(old(cache.hashes), SeedKeys(seeded), SeedFlats(seeded, rt.stringify), |seeded|)
      && SeededIndex(cache.ranking, old(cache.ranking), seeded, |seeded|)
    ensures cache.emails == old(cache.emails) && cache.values == old(cache.values) && cache.locks == old(cache.locks)
  {
    db.orders, db.products, db.users := [], [], [];
    db.users := Zip(userIds, users);
    if users == [] {
      return false;
    }
    var adminUser := userIds[0];
    var seeded := Zip(productIds, Owned(samples, adminUser));
    CreateProducts(db, cache, rt, seeded);
    ok := true;
  }

  /** The loop creating, caching and ranking each product in turn. */
  method CreateProducts(db: Db, cache: Cache, rt: Platform, seeded: Obj<Product>)
    requires db.Valid() && cache.Valid() && UniqueKeys(seeded) && db.products == []
    modifies db, cache
    ensures db.Valid() && cache.Valid()
    ensures db.products == seeded && db.orders == old(db.orders) && db.users == old(db.users)
    ensures cache.hashes == HashesAfter(old(cache.hashes), SeedKeys(seeded), SeedFlats(seeded, rt.stringify), |seeded|)
    ensures SeededIndex(cache.ranking, old(cache.ranking), seeded, |seeded|)
    ensures cache.emails == old(cache.emails) && cache.values == old(cache.values) && cache.locks == old(cache.locks)
  {
    ghost var hashes0, ranking0 := cache.hashes, cache.ranking;
    ghost var keys, flats := SeedKeys(seeded), SeedFlats(seeded, rt.stringify);
    for i := 0 to |seeded|
      invariant db.Valid() && cache.Valid()
      invariant db.orders == old(db.orders) && db.users == old(db.users)
      invariant db.products == seeded[..i]
      invariant cache.hashes == HashesAfter(hashes0, keys, flats, i)
      invariant SeededIndex(cache.ranking, ranking0, seeded, i)
      invariant cache.emails == old(cache.emails) && cache.values == old(cache.values) && cache.locks == old(cache.locks)
    {
      var (id, product) := seeded[i];
      AppendNext(seeded, i);
      SeedStep(hashes0, seeded, rt.stringify, i, id, product);
      SeededIndexStep(cache.ranking, ranking0, seeded, i, id, product);
      SeedOne(db, cache, rt, id, product);
    }
    assert seeded[..|seeded|] == seeded;
  }

  /** One turn of the loop: `Product.create`, `hSet` of its `toObject()`, and
      `zAdd` with minus its rating as score. */
  method SeedOne(db: Db, cache: Cache, rt: Platform, id: string, product: Product)
    requires db.Valid() && cache.Valid() && UniqueKeys(db.products + [(id, product)])
    modifies db, cache
    ensures db.Valid() && cache.Valid()
    ensures db.products == old(db.products) + [(id, product)] && db.orders == old(db.orders) && db.users == old(db.users)
    ensures var key := ProductKey(id);
      cache.hashes == old(cache.hashes)[key := MergeFlat(HashAt(old(cache.hashes), key), Codec.Flat(ProductObject(id, product), rt.stringify))]
    ensures cache.ranking == ZAdd(old(cache.ranking), -product.rating, id)
    ensures cache.emails == old(cache.emails) && cache.values == old(cache.values) && cache.locks == old(cache.locks)
  {
    db.products := db.products + [(id, product)];
    HSetObject(cache, ProductKey(id), ProductObject(id, product), rt.stringify);
    cache.ZAddRanking(-product.rating, id);
  }

  /** What seeding product `i` adds to the hashes and to the index. */
  lemma SeedStep(hashes: map<string, Obj<string>>, seeded: Obj<Product>,
                 stringify: Json -> string, i: nat, id: string, product: Product)
    requires i < |seeded| && seeded[i] == (id, product)
    ensures var h := HashesAfter(hashes, SeedKeys(seeded), SeedFlats(seeded, stringify), i);
      HashesAfter(hashes, SeedKeys(seeded), SeedFlats(seeded, stringify), i + 1)
        == h[ProductKey(id) := MergeFlat(HashAt(h, ProductKey(id)), Codec.Flat(ProductObject(id, product), stringify))]
  {
  }

  /** `ZADD` of product `i` extends the seeded index by it. */
  lemma SeededIndexStep(z: seq<Scored>, ranking: seq<Scored>, seeded: Obj<Product>, i: nat, id: string, product: Product)
    requires i < |seeded| && seeded[i] == (id, product) && UniqueKeys(seeded)
    requires SeededIndex(z, ranking, seeded, i)
    ensures SeededIndex(ZAdd(z, -product.rating, id), ranking, seeded, i + 1)
  {
    assert Added(seeded, i + 1) == Added(seeded, i) + {Scored(-product.rating, id)};
    assert AddedIds(seeded, i + 1) == AddedIds(seeded, i) + {id};
    AddedMembers(seeded, i);
    NotYetAdded(seeded, i, i);
  }

  /** With unique ids, product `i` is not among the first `n <= i`. */
  lemma {:induction false} NotYetAdded(seeded: Obj<Product>, n: nat, i: nat)
    requires n <= i < |seeded| && UniqueKeys(seeded)
    ensures seeded[i].0 !in AddedIds(seeded, n)
  {
    if n > 0 {
      NotYetAdded(seeded, n - 1, i);
      assert seeded[n - 1].0 != seeded[i].0;
    }
  }

  /** The added entries are those of the added ids. */
  lemma {:induction false} AddedMembers(seeded: Obj<Product>, n: nat)
    requires n <= |seeded|
    ensures forall e :: e in Added(seeded, n) ==> e.member in AddedIds(seeded, n)
  {
    if n > 0 {
      AddedMembers(seeded, n - 1);
    }
  }

  /** Each added entry is some seeded product's. */
  lemma {:induction false} AddedFrom(seeded: Obj<Product>, n: nat, e: Scored)
    requires n <= |seeded| && e in Added(seeded, n)
    ensures exists k :: 0 <= k < n && e == Scored(-seeded[k].1.rating, seeded[k].0)
  {
    if e != Scored(-seeded[n - 1].1.rating, seeded[n - 1].0) {
      AddedFrom(seeded, n - 1, e);
    }
  }

  /** Extending a prefix of an object with unique keys by its next entry
      gives a longer prefix, whose keys are unique. */
  lemma AppendNext<V>(o: Obj<V>, i: nat)
    requires UniqueKeys(o) && i < |o|
    ensures o[..i] + [o[i]] == o[..i + 1]
    ensures UniqueKeys(o[..i + 1])
  {
    assert o[..i] + [o[i]] == o[..i + 1];
    var q := o[..i + 1];
    forall j, k | 0 <= j < k < |q| ensures q[j].0 != q[k].0 {
      assert q[j] == o[j] && q[k] == o[k];
    }
  }

  /** Every seeded product belongs to the first created user. */
  lemma SeededOwner(samples: seq<Product>, productIds: seq<string>, owner: string, i: nat)
    requires |productIds| == |samples| && i < |samples|
    ensures Zip(productIds, Owned(samples, owner))[i].1.user == owner
  {
  }

  /** The calls after the `m`-th leave a hash under another key alone. */
  lemma {:induction false} HashesAfterElsewhere(hashes: map<string, Obj<string>>, keys: seq<string>,
                                                flats: seq<seq<string>>, m: nat, n: nat, key: string)
    requires m <= n <= |keys| && n <= |flats|
    requires forall j :: m <= j < n ==> key != keys[j]
    ensures HashAt(HashesAfter(hashes, keys, flats, n), key) == HashAt(HashesAfter(hashes, keys, flats, m), key)
  {
    if n > m {
      HashesAfterElsewhere(hashes, keys, flats, m, n - 1, key);
    }
  }

  /** With distinct keys that held nothing, hash `i` holds what `HSET` of
      `flats[i]` writes into an empty hash. */
  lemma HashesAfterFresh(hashes: map<string, Obj<string>>, keys: seq<string>, flats: seq<seq<string>>, n: nat, i: nat)
    requires i < n <= |keys| && n <= |flats| && Distinct(keys) && keys[i] !in hashes
    ensures HashAt(HashesAfter(hashes, keys, flats, n), keys[i]) == MergeFlat([], flats[i])
  {
    HashesAfterElsewhere(hashes, keys, flats, 0, i, keys[i]);
    HashesAfterElsewhere(hashes, keys, flats, i + 1, n, keys[i]);
  }

  /** A cache key no seeded product uses is as it was. */
  lemma SeededHashElsewhere(hashes: map<string, Obj<string>>, seeded: Obj<Product>, stringify: Json -> string, key: string)
    requires forall i :: 0 <= i < |seeded| ==> key != ProductKey(seeded[i].0)
    ensures HashAt(HashesAfter(hashes, SeedKeys(seeded), SeedFlats(seeded, stringify), |seeded|), key) == HashAt(hashes, key)
  {
    HashesAfterElsewhere(hashes, SeedKeys(seeded), SeedFlats(seeded, stringify), 0, |seeded|, key);
  }

  /** On keys that held nothing, each seeded product's hash holds exactly its
      `toObject()` texts. */
  lemma SeededHash(hashes: map<string, Obj<string>>, seeded: Obj<Product>, stringify: Json -> string, i: nat)
    requires i < |seeded| && UniqueKeys(seeded)
    requires ProductKey(seeded[i].0) !in hashes
    ensures HashAt(HashesAfter(hashes, SeedKeys(seeded), SeedFlats(seeded, stringify), |seeded|), ProductKey(seeded[i].0))
      == MapValues(ProductObject(seeded[i].0, seeded[i].1), stringify)
  {
    var keys := SeedKeys(seeded);
    forall j, k | 0 <= j < k < |keys| ensures keys[j] != keys[k] {
      ProductKeyInjective(seeded[j].0, seeded[k].0);
    }
    HashesAfterFresh(hashes, keys, SeedFlats(seeded, stringify), |seeded|, i);
    MergeSerializedIntoEmpty(ProductObject(seeded[i].0, seeded[i].1), stringify);
  }

  /** The index lists a product's score as minus its stored rating. */
  ghost predicate ScoresAreNegatedRatings(z: seq<Scored>, products: Obj<Product>) {
    forall i :: 0 <= i < |z| ==>
      Lookup(products, z[i].member).Some? && z[i].score == -Lookup(products, z[i].member).value.rating
  }

  /** On an index whose scores are negated ratings, an ascending-score range
      lists higher-rated products first. */
  lemma HigherRatingsFirst(z: seq<Scored>, products: Obj<Product>, i: nat, j: nat)
    requires Ranked(z) && ScoresAreNegatedRatings(z, products) && i < j < |z|
    ensures Lookup(products, z[i].member).value.rating >= Lookup(products, z[j].member).value.rating
  {
    RankedScores(z, i, j);
  }

  /** Seeding an empty index gives scores that are the negated ratings of the
      seeded store. */
  lemma SeededScoresAreNegatedRatings(z: seq<Scored>, seeded: Obj<Product>)
    requires UniqueKeys(seeded) && SeededIndex(z, [], seeded, |seeded|)
    ensures ScoresAreNegatedRatings(z, seeded)
  {
    forall i | 0 <= i < |z|
      ensures Lookup(seeded, z[i].member).Some? && z[i].score == -Lookup(seeded, z[i].member).value.rating
    {
      assert z[i] in z;
      AddedFrom(seeded, |seeded|, z[i]);
      var k :| 0 <= k < |seeded| && z[i] == Scored(-seeded[k].1.rating, seeded[k].0);
      LookupUnique(seeded, k);
    }
  }

  /* ---------------- destroying ---------------- */

  predicate IsProductKey(k: string) {
    "product:" <= k
  }

  /** `product:*` never matches the two keys the script names itself. */
  lemma ProductKeysAreNotSpecial(k: string)
    requires IsProductKey(k)
    ensures k != "emails" && k != "productsSortedByRating"
  {
    assert k[7] == ':';
    assert "productsSortedByRating"[7] == 's';
  }

  /** `m` without the keys in `gone`. */
  function Without<V>(m: map<string, V>, gone: set<string>): (r: map<string, V>)
    ensures forall k :: k in r <==> k in m && k !in gone
    ensures forall k :: k in r ==> r[k] == m[k]
  {
    map k | k in m && k !in gone :: m[k]
  }

  lemma WithoutNothing<V>(m: map<string, V>)
    ensures Without(m, {}) == m
  {
  }

  /** Removing one more key. */
  lemma WithoutOneMore<V>(m: map<string, V>, gone: set<string>, key: string)
    ensures Without(m, gone) - {key} == Without(m, gone + {key})
  {
  }

  /** `destroyData`: clear the three collections, delete every key matching
      `product:*`, then the index. No other cache key is touched. */
  method DestroyData(db: Db, cache: Cache)
    requires db.Valid() && cache.Valid()
    modifies db, cache
    ensures db.Valid() && cache.Valid()
    ensures db.orders == [] && db.products == [] && db.users == []
    ensures var gone := (set k | k in old(cache.KeySpace()) && IsProductKey(k)) + {"productsSortedByRating"};
      && cache.hashes == Without(old(cache.hashes), gone)
      && cache.values == Without(old(cache.values), gone)
      && cache.locks == old(cache.locks) - gone
    ensures cache.ranking == [] && cache.emails == old(cache.emails)
  {
    db.orders, db.products, db.users := [], [], [];
    var productsInRedis := cache.KeysWithPrefix("product:");
    assert productsInRedis == set k | k in old(cache.KeySpace()) && IsProductKey(k);
    DeleteKeys(cache, productsInRedis);
    WithoutOneMore(old(cache.hashes), productsInRedis, "productsSortedByRating");
    WithoutOneMore(old(cache.values), productsInRedis, "productsSortedByRating");
    cache.Del("productsSortedByRating");
  }

  /** The loop deleting the matched keys one by one, in no particular order. */
  method DeleteKeys(cache: Cache, keys: set<string>)
    requires cache.Valid() && forall k :: k in keys ==> IsProductKey(k)
    modifies cache
    ensures cache.Valid()
    ensures cache.hashes == Without(old(cache.hashes), keys) && cache.values == Without(old(cache.values), keys)
    ensures cache.locks == old(cache.locks) - keys
    ensures cache.ranking == old(cache.ranking) && cache.emails == old(cache.emails)
  {
    var remaining := keys;
    assert keys - remaining == {};
    WithoutNothing(old(cache.hashes));
    WithoutNothing(old(cache.values));
    while remaining != {}
      invariant cache.Valid() && remaining <= keys
      invariant cache.hashes == Without(old(cache.hashes), keys - remaining)
      invariant cache.values == Without(old(cache.values), keys - remaining)
      invariant cache.locks == old(cache.locks) - (keys - remaining)
      invariant cache.ranking == old(cache.ranking) && cache.emails == old(cache.emails)
      decreases remaining
    {
      var key :| key in remaining;
      ProductKeysAreNotSpecial(key);
      ghost var done := keys - remaining;
      assert keys - (remaining - {key}) == done + {key};
      WithoutOneMore(old(cache.hashes), done, key);
      WithoutOneMore(old(cache.values), done, key);
      cache.Del(key);
      remaining := remaining - {key};
    }
    assert keys - remaining == keys;
  }

  /** After destroying, every product read is a 500. */
  lemma DestroyedProductsAreGone(how: Reading, hashes: map<string, Obj<string>>, keySpace: set<string>,
                                 rawId: string, rt: Platform)
    requires hashes.Keys <= keySpace
    ensures var gone := (set k | k in keySpace && IsProductKey(k)) + {"productsSortedByRating"};
      ProductById(how, Without(hashes, gone), rawId, rt) == ServerError(InternalError)
  {
    var key := ProductKey(Trim(rawId));
    assert IsProductKey(key);
  }

  /** After destroying, the empty index gives every page an empty product
      list. */
  lemma DestroyedIndexListsNothing(hashes: map<string, Obj<string>>, pageSizeSetting: string, query: Option<string>)
    requires ParseInt(pageSizeSetting).Some?
    ensures ProductsPage(hashes, [], pageSizeSetting, query).body.fields[0] == ("products", Array([]))
  {
    var pageSize := ParseInt(pageSizeSetting).value;
    assert PageIds([], PageNumber(query), pageSize) == [];
  }
}
