/**
 * The product controller: the paged product list over the rating index, the
 * cache-only product lookup, deletion and reviews.
 */
module Products {
  import opened Wrappers
  import opened Strings
  import opened JsObjects
  import opened Models
  import opened Redis
  import Codec

  const FetchFailed := "Error fetching products"
  const InternalError := "Internal Server Error"
  const ProductNotFound := "Product not found"
  const ProductRemoved := "Product removed"
  const AlreadyReviewed := "Product already reviewed"
  const ReviewAdded := "Review added"

  /** `product:<id>`, the cache key of a product. */
  function ProductKey(id: string): (k: string)
    ensures |k| == 8 + |id| && k[..8] == "product:" && k[8..] == id
  {
    "product:" + id
  }

  lemma ProductKeyInjective(a: string, b: string)
    ensures ProductKey(a) == ProductKey(b) <==> a == b
  {
  }

  /** No product key names the e-mail set or the rating index. */
  lemma ProductKeyIsNotSpecial(id: string)
    ensures ProductKey(id) != "emails" && ProductKey(id) != "productsSortedByRating"
  {
    assert ProductKey(id)[7] == ':';
    assert "productsSortedByRating"[7] == 's';
  }

  /* ---------------- paging arithmetic ---------------- */

  /** `parseInt(req.query.pageNumber, 10) || 1`: the parsed page, or 1 when
      the query is absent, has no digits (`NaN`) or reads as 0. */
  function PageNumber(query: Option<string>): (page: int)
    ensures page != 0
    ensures query.Some? && ParseInt(query.value).Some? && ParseInt(query.value).value != 0
            ==> page == ParseInt(query.value).value
    ensures query.None? || ParseInt(query.value).None? || ParseInt(query.value) == Some(0) ==> page == 1
  {
    match query
    case None => 1
    case Some(text) =>
      match ParseInt(text)
      case None => 1
      case Some(p) => if p == 0 then 1 else p
  }

  /** `Math.ceil(totalCount / pageSize)`; `None` is the `null` that
      `JSON.stringify` writes for the `NaN` or `Infinity` of a zero page size. */
  function TotalPages(count: nat, pageSize: int): (pages: Option<int>)
    ensures pageSize == 0 <==> pages.None?
    ensures pageSize > 0 ==>
      (pages.Some? && pages.value >= 0 && (pages.value - 1) * pageSize < count <= pages.value * pageSize)
    ensures pageSize < 0 ==>
      (pages.Some? && pages.value <= 0 && pages.value * pageSize <= count < (pages.value - 1) * pageSize)
  {
    if pageSize == 0 then None
    else if pageSize > 0 then
      var q := (count + pageSize - 1) / pageSize;
      CeilingBounds(count, pageSize, q);
      Some(q)
    else
      var q := count / -pageSize;
      FloorBounds(count, -pageSize, q);
      Some(-q)
  }

  lemma CeilingBounds(count: nat, size: int, q: int)
    requires size > 0 && q == (count + size - 1) / size
    ensures q >= 0 && (q - 1) * size < count <= q * size
  {
    var r := (count + size - 1) % size;
    assert count + size - 1 == q * size + r && 0 <= r < size;
    assert (q - 1) * size == q * size - size;
  }

  lemma FloorBounds(count: nat, size: int, q: int)
    requires size > 0 && q == count / size
    ensures q >= 0 && -q * -size <= count < (-q - 1) * -size
  {
    var r := count % size;
    assert count == q * size + r && 0 <= r < size;
    assert -q * -size == q * size;
    assert (-q - 1) * -size == q * size + size;
  }

  /** The rank range of a page: `(page - 1) * pageSize` to `page * pageSize - 1`. */
  function PageStart(page: int, pageSize: int): int { (page - 1) * pageSize }
  function PageStop(page: int, pageSize: int): int { page * pageSize - 1 }

  /** `ZRANGE productsSortedByRating start stop`: the ids of one page. */
  function PageIds(ranking: seq<Scored>, page: int, pageSize: int): seq<string> {
    ZRange(ranking, PageStart(page, pageSize), PageStop(page, pageSize))
  }

  function Min(a: int, b: int): int { if a <= b then a else b }

  /** The two bounds of a page are one page size apart. */
  lemma PageBounds(page: int, pageSize: int)
    requires pageSize > 0
    ensures page * pageSize == (page - 1) * pageSize + pageSize
    ensures page >= 1 ==> (page - 1) * pageSize >= 0
  {
  }

  lemma MulMonotone(a: int, b: int, size: int)
    requires size > 0 && a <= b
    ensures a * size <= b * size
  {
    assert b * size - a * size == (b - a) * size;
  }

  /** `ZRANGE s (e - 1)` for ranks `0 <= s < e`: the members from `s` up to `e`,
      cut at the end of the set. */
  lemma ZRangeSlice(z: seq<Scored>, s: int, e: int)
    requires 0 <= s < e
    ensures ZRange(z, s, e - 1) == Members(z)[Min(s, |z|)..Min(e, |z|)]
  {
  }

  /** A page from 1 on is the slice of the ranking between its two bounds,
      cut at the end of the ranking; it holds at most `pageSize` ids. */
  lemma PageIsSlice(ranking: seq<Scored>, page: int, pageSize: int)
    requires pageSize > 0 && page >= 1
    ensures PageIds(ranking, page, pageSize)
      == Members(ranking)[Min((page - 1) * pageSize, |ranking|)..Min(page * pageSize, |ranking|)]
    ensures |PageIds(ranking, page, pageSize)| <= pageSize
  {
    PageBounds(page, pageSize);
    ZRangeSlice(ranking, (page - 1) * pageSize, page * pageSize);
  }

  /** Consecutive pages are contiguous: page `p` followed by page `p + 1` is
      the slice from the start of `p` to the end of `p + 1`. */
  lemma ConsecutivePagesJoin(ranking: seq<Scored>, page: int, pageSize: int)
    requires pageSize > 0 && page >= 1
    ensures PageIds(ranking, page, pageSize) + PageIds(ranking, page + 1, pageSize)
      == Members(ranking)[Min((page - 1) * pageSize, |ranking|)..Min((page + 1) * pageSize, |ranking|)]
  {
    PageIsSlice(ranking, page, pageSize);
    PageIsSlice(ranking, page + 1, pageSize);
    PageBounds(page, pageSize);
    PageBounds(page + 1, pageSize);
    JoinSlices(Members(ranking), (page - 1) * pageSize, page * pageSize, (page + 1) * pageSize);
  }

  lemma JoinSlices<T>(ms: seq<T>, a: int, b: int, c: int)
    requires 0 <= a <= b <= c
    ensures ms[Min(a, |ms|)..Min(b, |ms|)] + ms[Min(b, |ms|)..Min(c, |ms|)] == ms[Min(a, |ms|)..Min(c, |ms|)]
  {
  }

  /** Two different pages share no id. */
  lemma PagesDisjoint(ranking: seq<Scored>, p: int, q: int, pageSize: int, id: string)
    requires Ranked(ranking) && pageSize > 0 && 1 <= p < q
    ensures !(id in PageIds(ranking, p, pageSize) && id in PageIds(ranking, q, pageSize))
  {
    PageIsSlice(ranking, p, pageSize);
    PageIsSlice(ranking, q, pageSize);
    PageBounds(p, pageSize);
    PageBounds(q, pageSize);
    MulMonotone(p, q - 1, pageSize);
    DisjointSlices(ranking, (p - 1) * pageSize, p * pageSize, (q - 1) * pageSize, q * pageSize, id);
  }

  /** Slices of a ranking over disjoint rank ranges share no member. */
  lemma DisjointSlices(z: seq<Scored>, a0: int, a1: int, b0: int, b1: int, id: string)
    requires Ranked(z) && 0 <= a0 <= a1 <= b0 <= b1
    ensures !(id in Members(z)[Min(a0, |z|)..Min(a1, |z|)] && id in Members(z)[Min(b0, |z|)..Min(b1, |z|)])
  {
  }

  /** Every rank is on exactly the page `rank / pageSize + 1`, at position
      `rank % pageSize`, and that page is at most the reported page count. */
  lemma RankOnPage(ranking: seq<Scored>, rank: nat, pageSize: int)
    requires pageSize > 0 && rank < |ranking|
    ensures var page := rank / pageSize + 1;
      && rank % pageSize < |PageIds(ranking, page, pageSize)|
      && PageIds(ranking, page, pageSize)[rank % pageSize] == ranking[rank].member
      && page <= TotalPages(|ranking|, pageSize).value
  {
    var q := rank / pageSize;
    var s := q * pageSize;
    DivBounds(rank, pageSize);
    PageIsSlice(ranking, q + 1, pageSize);
    PageBounds(q + 1, pageSize);
    RankInSlice(ranking, s, pageSize, rank);
    var t := TotalPages(|ranking|, pageSize).value;
    if q + 1 > t {
      MulMonotone(t, q, pageSize);
    }
  }

  lemma DivBounds(rank: nat, size: int)
    requires size > 0
    ensures 0 <= (rank / size) * size <= rank < (rank / size) * size + size
    ensures rank % size == rank - (rank / size) * size
    ensures (rank / size + 1 - 1) * size == (rank / size) * size
  {
  }

  lemma RankInSlice(z: seq<Scored>, s: int, size: int, rank: int)
    requires 0 <= s && size > 0 && rank < |z| && s <= rank < s + size
    ensures rank - s < |Members(z)[Min(s, |z|)..Min(s + size, |z|)]|
    ensures Members(z)[Min(s, |z|)..Min(s + size, |z|)][rank - s] == z[rank].member
  {
  }

  /** Pages after the last reported one are empty. */
  lemma PagesAfterLastAreEmpty(ranking: seq<Scored>, page: int, pageSize: int)
    requires pageSize > 0 && page > TotalPages(|ranking|, pageSize).value
    ensures PageIds(ranking, page, pageSize) == []
  {
    var t := TotalPages(|ranking|, pageSize).value;
    PageIsSlice(ranking, page, pageSize);
    MulMonotone(t, page - 1, pageSize);
  }

  /** A page size of 0 asks for ranks 0 to -1, which Redis reads as the whole
      index: every product is listed and the page count is `null`. */
  lemma ZeroPageSizeListsAll(ranking: seq<Scored>, page: int)
    ensures PageIds(ranking, page, 0) == Members(ranking)
    ensures TotalPages(|ranking|, 0).None?
  {
  }

  /** A negative page counts from the end of the index: page -1 is the last
      `pageSize` ids but one page, as Redis reads negative ranks. */
  lemma NegativePageCountsFromEnd(ranking: seq<Scored>, page: int, pageSize: int)
    requires pageSize > 0 && page <= -1 && (1 - page) * pageSize <= |ranking|
    ensures PageIds(ranking, page, pageSize)
      == Members(ranking)[|ranking| + (page - 1) * pageSize..|ranking| + page * pageSize]
  {
    assert page * pageSize <= -pageSize;
    assert (page - 1) * pageSize == page * pageSize - pageSize;
  }

  /* ---------------- the product list ---------------- */

  function StrJson(s: string): Json { Str(s) }

  /** What `res.json` sends for one `hGetAll` result: its fields as strings. */
  function HashJson(h: Obj<string>): Json {
    Object(MapValues(h, StrJson))
  }

  /** The listed products: one `hGetAll` per id, in the order of the ids, `{}`
      for an id whose hash is missing. */
  function Listed(hashes: map<string, Obj<string>>, ids: seq<string>): (js: seq<Json>)
    ensures |js| == |ids|
  {
    seq(|ids|, i requires 0 <= i < |ids| => HashJson(HashAt(hashes, ProductKey(ids[i]))))
  }

  function PagesJson(pages: Option<int>): Json {
    if pages.Some? then Num(pages.value) else Null
  }

  /** `getProducts` as a function of the cache and the configured page size. A
      page size with no digits makes every range bound `NaN`, which Redis
      refuses; the catch turns that into a 500. */
  function ProductsPage(hashes: map<string, Obj<string>>, ranking: seq<Scored>,
                        pageSizeSetting: string, query: Option<string>): Reply
  {
    match ParseInt(pageSizeSetting)
    case None => ServerError(FetchFailed)
    case Some(pageSize) =>
      var page := PageNumber(query);
      var ids := PageIds(ranking, page, pageSize);
      Ok(Object([("products", Array(Listed(hashes, ids))), ("page", Num(page)),
                 ("pages", PagesJson(TotalPages(|ranking|, pageSize)))]))
  }

  /** `getProducts`: read the page's ids from the index, then each product's
      hash, in order. */
  method GetProducts(cache: Cache, pageSizeSetting: string, query: Option<string>) returns (reply: Reply)
    ensures reply == ProductsPage(cache.hashes, cache.ranking, pageSizeSetting, query)
  {
    var parsed := ParseInt(pageSizeSetting);
    if parsed.None? {
      return ServerError(FetchFailed);
    }
    var pageSize := parsed.value;
    var page := PageNumber(query);
    var ids := PageIds(cache.ranking, page, pageSize);
    var products := ListProducts(cache, ids);
    reply := Ok(Object([("products", Array(products)), ("page", Num(page)),
                        ("pages", PagesJson(TotalPages(|cache.ranking|, pageSize)))]));
  }

  /** The loop of `getProducts`: one `hGetAll` per id, pushed in order. */
  method ListProducts(cache: Cache, ids: seq<string>) returns (products: seq<Json>)
    ensures products == Listed(cache.hashes, ids)
  {
    products := [];
    for i := 0 to |ids|
      invariant products == Listed(cache.hashes, ids[..i])
    {
      var productData := cache.HGetAll(ProductKey(ids[i]));
      ListedSnoc(cache.hashes, ids, i);
      products := products + [HashJson(productData)];
    }
    assert ids[..|ids|] == ids;
  }

  lemma ListedSnoc(hashes: map<string, Obj<string>>, ids: seq<string>, i: nat)
    requires i < |ids|
    ensures Listed(hashes, ids[..i + 1]) == Listed(hashes, ids[..i]) + [HashJson(HashAt(hashes, ProductKey(ids[i])))]
  {
    var a, b := Listed(hashes, ids[..i + 1]), Listed(hashes, ids[..i]) + [HashJson(HashAt(hashes, ProductKey(ids[i])))];
    forall j | 0 <= j < i + 1 ensures a[j] == b[j] {
      assert ids[..i + 1][j] == ids[j];
      if j < i {
        assert ids[..i][j] == ids[j];
      }
    }
  }

  /** The listing follows the index: entry `i` of the sent list is the hash of
      the `i`-th id of the page. */
  lemma ListedFollowsIndex(hashes: map<string, Obj<string>>, ids: seq<string>, i: nat)
    requires i < |ids|
    ensures Listed(hashes, ids)[i] == HashJson(HashAt(hashes, ProductKey(ids[i])))
    ensures ProductKey(ids[i]) !in hashes ==> Listed(hashes, ids)[i] == Object([])
  {
  }

  /* ---------------- one product ---------------- */

  /** `getProductById` as a function of the cache: the trimmed id's hash,
      read back, when it has fields; every other outcome, the missing product
      included, ends in the handler's own catch and is a 500. The record store
      is never read. */
  function ProductById(how: Reading, hashes: map<string, Obj<string>>, rawId: string, rt: Platform): (r: Reply)
    ensures r.Ok? || r == ServerError(InternalError)
    ensures HashAt(hashes, ProductKey(Trim(rawId))) == [] ==> r == ServerError(InternalError)
  {
    var h := HashAt(hashes, ProductKey(Trim(rawId)));
    if h == [] then ServerError(InternalError)
    else
      match ReadCached(how, h, rt.parse, rt.toNumber)
      case Success(record) => Ok(Object(record))
      case Failure(_) => ServerError(InternalError)
  }

  /** White space around the id makes no difference. */
  lemma ProductByIdTrims(how: Reading, hashes: map<string, Obj<string>>, rawId: string, rt: Platform)
    ensures ProductById(how, hashes, rawId, rt) == ProductById(how, hashes, Trim(rawId), rt)
  {
    TrimProperties(rawId);
    SameTrimSameProduct(how, hashes, rawId, Trim(rawId), rt);
  }

  /** The reply depends on the id only through its trimmed form. */
  lemma SameTrimSameProduct(how: Reading, hashes: map<string, Obj<string>>, a: string, b: string, rt: Platform)
    requires Trim(a) == Trim(b)
    ensures ProductById(how, hashes, a, rt) == ProductById(how, hashes, b, rt)
  {
  }

  /** As written, a product cached the way the seeder and the review handler
      cache it is sent as `{}`. */
  lemma CachedProductSentEmpty(hashes: map<string, Obj<string>>, rawId: string, id: string, p: Product, rt: Platform)
    requires HashAt(hashes, ProductKey(Trim(rawId))) == MapValues(ProductObject(id, p), rt.stringify)
    ensures ProductById(AsWritten, hashes, rawId, rt) == Ok(Object([]))
  {
    MapValuesKeys(ProductObject(id, p), rt.stringify, "length");
  }

  /** With the corrected reading, a record cached that way is sent back
      exactly. */
  lemma CachedProductIsSentCorrected(hashes: map<string, Obj<string>>, rawId: string, record: Obj<Json>, rt: Platform)
    requires UniqueKeys(record) && record != []
    requires HashAt(hashes, ProductKey(Trim(rawId))) == MapValues(record, rt.stringify)
    requires Codec.JsonRoundTrips(record, rt.stringify, rt.parse)
    ensures ProductById(Corrected, hashes, rawId, rt) == Ok(Object(record))
  {
    FreshlyCached(record, rt.stringify, rt.parse);
  }

  /* ---------------- deletion ---------------- */

  /** `deleteProduct`: remove the record and its hash; the rating index keeps
      the id. */
  method DeleteProduct(db: Db, cache: Cache, productId: string) returns (reply: Reply)
    requires db.Valid() && cache.Valid()
    modifies db, cache
    ensures db.Valid() && cache.Valid()
    ensures !HasKey(old(db.products), productId) ==>
      && reply == NotFound(ProductNotFound) && db.products == old(db.products)
      && cache.hashes == old(cache.hashes) && cache.values == old(cache.values) && cache.locks == old(cache.locks)
    ensures HasKey(old(db.products), productId) ==>
      && reply == Ok(Message(ProductRemoved))
      && db.products == Remove(old(db.products), productId)
      && cache.hashes == old(cache.hashes) - {ProductKey(productId)}
      && cache.values == old(cache.values) - {ProductKey(productId)}
      && cache.locks == old(cache.locks) - {ProductKey(productId)}
    ensures cache.ranking == old(cache.ranking) && cache.emails == old(cache.emails)
    ensures db.orders == old(db.orders) && db.users == old(db.users)
  {
    if !HasKey(db.products, productId) {
      return NotFound(ProductNotFound);
    }
    db.products := Remove(db.products, productId);
    ProductKeyIsNotSpecial(productId);
    cache.Del(ProductKey(productId));
    reply := Ok(Message(ProductRemoved));
  }

  /** A deleted product that is still ranked shows up in the product list as
      an empty object. */
  lemma DeletedProductListedEmpty(hashes: map<string, Obj<string>>, ids: seq<string>, id: string, i: nat)
    requires i < |ids| && ids[i] == id
    ensures Listed(hashes - {ProductKey(id)}, ids)[i] == Object([])
  {
  }

  /* ---------------- reviews ---------------- */

  /** `reviews.reduce((acc, item) => item.rating + acc, 0)`. */
  function SumRatings(rs: seq<Review>): real {
    if rs == [] then 0.0 else SumRatings(rs[..|rs| - 1]) + rs[|rs| - 1].rating
  }

  /** The product after `review` is pushed and the count and mean recomputed. */
  function Reviewed(p: Product, review: Review): (q: Product)
    ensures q.reviews == p.reviews + [review]
    ensures q.numReviews == |q.reviews|
    ensures q.rating * (q.numReviews as real) == SumRatings(q.reviews)
    ensures q.user == p.user && q.name == p.name && q.price == p.price && q.countInStock == p.countInStock
  {
    var reviews := p.reviews + [review];
    var n := |reviews|;
    assert reviews[..n - 1] == p.reviews;
    p.(reviews := reviews, numReviews := n, rating := SumRatings(reviews) / (n as real))
  }

  /** `reviews.find(r => r.user === userId)` found one. */
  predicate HasReviewed(p: Product, userId: string) {
    exists i :: 0 <= i < |p.reviews| && p.reviews[i].user == userId
  }

  /** `createProductReview` as a function of the store and the cache. */
  function AddReview(products: Obj<Product>, hashes: map<string, Obj<string>>, stringify: Json -> string,
                  productId: string, userId: string, userName: string, rating: real, comment: Json)
    : (Obj<Product>, map<string, Obj<string>>, Reply)
  {
    match Lookup(products, productId)
    case None => (products, hashes, NotFound(ProductNotFound))
    case Some(p) =>
      if HasReviewed(p, userId) then (products, hashes, BadRequest(AlreadyReviewed))
      else
        var q := Reviewed(p, Review(userName, rating, comment, userId));
        var key := ProductKey(productId);
        (Put(products, productId, q),
         hashes[key := MergeFlat(HashAt(hashes, key), Codec.Flat(ProductObject(productId, q), stringify))],
         Created(Message(ReviewAdded)))
  }

  /** `createProductReview`. */
  method CreateProductReview(db: Db, cache: Cache, rt: Platform, productId: string,
                             userId: string, userName: string, rating: real, comment: Json)
    returns (reply: Reply)
    requires db.Valid() && cache.Valid()
    modifies db, cache
    ensures db.Valid() && cache.Valid()
    ensures (db.products, cache.hashes, reply)
      == AddReview(old(db.products), old(cache.hashes), rt.stringify, productId, userId, userName, rating, comment)
    ensures db.orders == old(db.orders) && db.users == old(db.users)
    ensures cache.ranking == old(cache.ranking) && cache.values == old(cache.values)
    ensures cache.emails == old(cache.emails) && cache.locks == old(cache.locks)
  {
    var found := Lookup(db.products, productId);
    if found.None? {
      return NotFound(ProductNotFound);
    }
    var product := found.value;
    if HasReviewed(product, userId) {
      return BadRequest(AlreadyReviewed);
    }
    var review := Review(userName, rating, comment, userId);
    product := Reviewed(product, review);
    PutKeys(db.products, productId, product);
    db.products := Put(db.products, productId, product);
    HSetObject(cache, ProductKey(productId), ProductObject(productId, product), rt.stringify);
    reply := Created(Message(ReviewAdded));
  }

  /** A second review by the same user is refused and changes nothing; a first
      one keeps each user to at most one review of the product. */
  lemma ReviewOncePerUser(products: Obj<Product>, hashes: map<string, Obj<string>>, stringify: Json -> string,
                          productId: string, userId: string, userName: string, rating: real, comment: Json)
    requires UniqueKeys(products) && HasKey(products, productId)
    requires forall i, j :: 0 <= i < j < |Lookup(products, productId).value.reviews| ==>
      Lookup(products, productId).value.reviews[i].user != Lookup(products, productId).value.reviews[j].user
    ensures var (products', hashes', reply) := AddReview(products, hashes, stringify, productId, userId, userName, rating, comment);
      && (HasReviewed(Lookup(products, productId).value, userId) ==>
            reply == BadRequest(AlreadyReviewed) && products' == products && hashes' == hashes)
      && (var rs := Lookup(products', productId).value.reviews;
          forall i, j :: 0 <= i < j < |rs| ==> rs[i].user != rs[j].user)
  {
    var p := Lookup(products, productId).value;
    if !HasReviewed(p, userId) {
      var q := Reviewed(p, Review(userName, rating, comment, userId));
      PutLookup(products, productId, q);
      var rs := q.reviews;
      forall i, j | 0 <= i < j < |rs| ensures rs[i].user != rs[j].user {
        if j == |rs| - 1 {
          assert rs[i] == p.reviews[i];
        } else {
          assert rs[i] == p.reviews[i] && rs[j] == p.reviews[j];
        }
      }
    }
  }

  /** The review rewrites every field of a product cached with the
      `toObject()` layout, so the cache then reads as the reviewed product. */
  lemma ReviewRewritesCache(products: Obj<Product>, hashes: map<string, Obj<string>>, rt: Platform,
                            productId: string, userId: string, userName: string, rating: real, comment: Json,
                            p: Product)
    requires Lookup(products, productId) == Some(p) && !HasReviewed(p, userId)
    requires HashAt(hashes, ProductKey(productId)) == MapValues(ProductObject(productId, p), rt.stringify)
    ensures var q := Reviewed(p, Review(userName, rating, comment, userId));
      var hashes' := AddReview(products, hashes, rt.stringify, productId, userId, userName, rating, comment).1;
      HashAt(hashes', ProductKey(productId)) == MapValues(ProductObject(productId, q), rt.stringify)
  {
    var q := Reviewed(p, Review(userName, rating, comment, userId));
    var h := HashAt(hashes, ProductKey(productId));
    assert SameKeyOrder(h, ProductObject(productId, q));
    MergeOverSameKeys(h, ProductObject(productId, q), rt.stringify);
  }
}
