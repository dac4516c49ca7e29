/**
 * The order endpoints: creation behind a stock gate, the read-through lookup,
 * payment (one lock per line item, then a stock check and decrement item by
 * item, then the paid flag), delivery, and the whole-list cache.
 */
module Orders {
  import opened Wrappers
  import opened JsObjects
  import opened Models
  import opened Redis
  import Codec

  /** A line item as the client sends it: the fields an order keeps, and any others. */
  datatype RequestItem = RequestItem(name: Json, qty: int, image: Json, price: Json, product: string, others: Obj<Json>)

  /** The body of a create-order request; `orderItems` is `None` when absent. */
  datatype OrderRequest = OrderRequest(
    orderItems: Option<seq<RequestItem>>, shippingAddress: Json, paymentMethod: Json,
    itemsPrice: Json, taxPrice: Json, shippingPrice: Json, totalPrice: Json)

  /** The body of a payment request; an absent field is `None`. */
  datatype PaymentRequest = PaymentRequest(
    id: Option<Json>, status: Option<Json>, updateTime: Option<Json>, payer: Option<Json>)

  const NotAnArray := "Cannot read properties of undefined (reading 'map')"
  const NoItems := "No order items"
  const OutOfStockMessage := "One or more products are out of stock."
  const OrderNotFound := "Order not found"
  const LockRefused := "Failed to acquire lock"

  function OrderKey(id: string): string { "order:" + id }

  /** The fields of a request item that the order keeps. */
  function Project(it: RequestItem): OrderItem {
    OrderItem(it.name, it.qty, it.image, it.price, it.product)
  }

  function ProjectAll(items: seq<RequestItem>): (r: seq<OrderItem>)
    ensures |r| == |items| && forall i :: 0 <= i < |items| ==> r[i] == Project(items[i])
  {
    seq(|items|, i requires 0 <= i < |items| => Project(items[i]))
  }

  /** The stock gate for one item: the product exists and holds at least `qty`. */
  predicate InStock(products: Obj<Product>, it: RequestItem) {
    match Lookup(products, it.product)
    case None => false
    case Some(p) => p.countInStock >= it.qty
  }

  /** A new, unpaid, undelivered order for `userId`. */
  function NewOrder(req: OrderRequest, items: seq<RequestItem>, userId: string): Order {
    Order(userId, ProjectAll(items), req.shippingAddress, req.paymentMethod,
          req.itemsPrice, req.taxPrice, req.shippingPrice, req.totalPrice,
          false, None, None, false, None)
  }

  /** The loop writing each serialized field with its own `HSET`. */
  method WriteEach(cache: Cache, key: string, pairs: Obj<string>)
    requires cache.Valid()
    modifies cache
    ensures cache.Valid()
    ensures cache.hashes == WriteFields(old(cache.hashes), key, pairs)
    ensures cache.values == old(cache.values) && cache.emails == old(cache.emails)
    ensures cache.ranking == old(cache.ranking) && cache.locks == old(cache.locks)
  {
    for i := 0 to |pairs|
      invariant cache.Valid()
      invariant cache.hashes == WriteFields(old(cache.hashes), key, pairs[..i])
      invariant cache.values == old(cache.values) && cache.emails == old(cache.emails)
      invariant cache.ranking == old(cache.ranking) && cache.locks == old(cache.locks)
    {
      WriteFieldsStep(old(cache.hashes), key, pairs, i);
      cache.HSetField(key, pairs[i].0, pairs[i].1);
    }
    assert pairs[..|pairs|] == pairs;
  }

  /** `addOrderItems`. `newId` is the id the store gives the new order. */
  method AddOrderItems(db: Db, cache: Cache, rt: Platform, req: OrderRequest, userId: string, newId: string)
    returns (reply: Reply)
    requires db.Valid() && cache.Valid() && !HasKey(db.orders, newId)
    modifies db, cache
    ensures db.Valid() && cache.Valid()
    ensures db.products == old(db.products) && db.users == old(db.users)
    ensures cache.values == old(cache.values) && cache.emails == old(cache.emails)
    ensures cache.ranking == old(cache.ranking) && cache.locks == old(cache.locks)
    ensures req.orderItems.None? ==>
      reply == ServerError(NotAnArray) && db.orders == old(db.orders) && cache.hashes == old(cache.hashes)
    ensures req.orderItems == Some([]) ==>
      reply == BadRequest(NoItems) && db.orders == old(db.orders) && cache.hashes == old(cache.hashes)
    ensures req.orderItems.Some? && req.orderItems.value != [] ==>
      var items := req.orderItems.value;
      if exists i :: 0 <= i < |items| && !InStock(old(db.products), items[i]) then
        reply == BadRequest(OutOfStockMessage) && db.orders == old(db.orders) && cache.hashes == old(cache.hashes)
      else
        var obj := OrderObject(newId, NewOrder(req, items, userId));
        && db.orders == old(db.orders) + [(newId, NewOrder(req, items, userId))]
        && cache.hashes == WriteFields(old(cache.hashes), OrderKey(newId), rt.serializeOrder(obj))
        && reply == Created(Object(obj))
  {
    if req.orderItems.None? {
      return ServerError(NotAnArray);
    }
    var items := req.orderItems.value;
    if items == [] {
      return BadRequest(NoItems);
    }
    if exists i :: 0 <= i < |items| && !InStock(db.products, items[i]) {
      return BadRequest(OutOfStockMessage);
    }
    var order := NewOrder(req, items, userId);
    PutKeys(db.orders, newId, order);
    db.orders := Put(db.orders, newId, order);
    var obj := OrderObject(newId, order);
    WriteEach(cache, OrderKey(newId), rt.serializeOrder(obj));
    reply := Created(Object(obj));
  }

  /** The reply to a cached record: the object the hash reads back as, or the
      error `JSON.parse` throws. */
  function CachedReply(how: Reading, h: Obj<string>, rt: Platform): Reply {
    var read := ReadCached(how, h, rt.parse, rt.toNumber);
    if read.Success? then Ok(Object(read.value)) else ServerError(InvalidJson)
  }

  /** `getOrderById` as a function of the store and the cache: a non-empty
      cached hash is read back and sent; otherwise the store is read and, when
      the order exists, cached before it is sent. */
  function ReadOrder(how: Reading, rt: Platform, orders: Obj<Order>, hashes: map<string, Obj<string>>, orderId: string)
    : (map<string, Obj<string>>, Reply)
  {
    var key := OrderKey(orderId);
    if HashAt(hashes, key) != [] then (hashes, CachedReply(how, HashAt(hashes, key), rt))
    else match Lookup(orders, orderId)
      case None => (hashes, NotFound(OrderNotFound))
      case Some(o) =>
        var obj := OrderObject(orderId, o);
        (hashes[key := MergeFlat([], Codec.Flat(obj, rt.stringify))], Ok(Object(obj)))
  }

  /** As written, a miss sends the order and caches it, and the next lookup
      hits the cache and sends `{}`. */
  lemma ReadOrderCaches(rt: Platform, orders: Obj<Order>, hashes: map<string, Obj<string>>, orderId: string)
    requires HashAt(hashes, OrderKey(orderId)) == [] && HasKey(orders, orderId)
    ensures var (hashes', reply) := ReadOrder(AsWritten, rt, orders, hashes, orderId);
      && reply == Ok(Object(OrderObject(orderId, Lookup(orders, orderId).value)))
      && ReadOrder(AsWritten, rt, orders, hashes', orderId) == (hashes', Ok(Object([])))
  {
    var obj := OrderObject(orderId, Lookup(orders, orderId).value);
    FreshlyCached(obj, rt.stringify, rt.parse);
    MapValuesKeys(obj, rt.stringify, "length");
  }

  /** With the corrected reading, the next lookup sends the same order, provided
      `JSON.parse` undoes `JSON.stringify` on its fields. */
  lemma ReadOrderCachesCorrected(rt: Platform, orders: Obj<Order>, hashes: map<string, Obj<string>>, orderId: string)
    requires HashAt(hashes, OrderKey(orderId)) == [] && HasKey(orders, orderId)
    requires Codec.JsonRoundTrips(OrderObject(orderId, Lookup(orders, orderId).value), rt.stringify, rt.parse)
    ensures var (hashes', reply) := ReadOrder(Corrected, rt, orders, hashes, orderId);
      && reply == Ok(Object(OrderObject(orderId, Lookup(orders, orderId).value)))
      && ReadOrder(Corrected, rt, orders, hashes', orderId) == (hashes', reply)
  {
    var obj := OrderObject(orderId, Lookup(orders, orderId).value);
    FreshlyCached(obj, rt.stringify, rt.parse);
  }

  /** `getOrderById`. */
  method GetOrderById(db: Db, cache: Cache, rt: Platform, orderId: string) returns (reply: Reply)
    requires db.Valid() && cache.Valid()
    modifies cache
    ensures cache.Valid()
    ensures (cache.hashes, reply) == ReadOrder(AsWritten, rt, db.orders, old(cache.hashes), orderId)
    ensures cache.values == old(cache.values) && cache.emails == old(cache.emails)
    ensures cache.ranking == old(cache.ranking) && cache.locks == old(cache.locks)
  {
    var key := OrderKey(orderId);
    ghost var expected := ReadOrder(AsWritten, rt, db.orders, cache.hashes, orderId);
    var cached := cache.HGetAll(key);
    if cached != [] {
      assert expected == (cache.hashes, CachedReply(AsWritten, cached, rt));
      return CachedReply(AsWritten, cached, rt);
    }
    var found := Lookup(db.orders, orderId);
    if found.None? {
      assert expected == (cache.hashes, NotFound(OrderNotFound));
      return NotFound(OrderNotFound);
    }
    var obj := OrderObject(orderId, found.value);
    assert expected == (cache.hashes[key := MergeFlat([], Codec.Flat(obj, rt.stringify))], Ok(Object(obj)));
    HSetObject(cache, key, obj, rt.stringify);
    reply := Ok(Object(obj));
  }

  /** `getMyOrders`: the orders of `userId`, in store order. */
  function MyOrders(orders: Obj<Order>, userId: string): (r: Obj<Order>)
    ensures forall e :: e in r <==> e in orders && e.1.user == userId
  {
    if orders == [] then []
    else
      assert forall e :: e in orders <==> e == orders[0] || e in orders[1..];
      (if orders[0].1.user == userId then [orders[0]] else []) + MyOrders(orders[1..], userId)
  }

  /* ---------------- payment ---------------- */

  function LockKey(product: string): string { "locks:product:" + product }

  /** One lock key per line item, in line-item order. */
  function LockKeys(items: seq<OrderItem>): (keys: seq<string>)
    ensures |keys| == |items| && forall i :: 0 <= i < |items| ==> keys[i] == LockKey(items[i].product)
  {
    seq(|items|, i requires 0 <= i < |items| => LockKey(items[i].product))
  }

  /** The index of the first key the acquire loop fails on (`|keys|` when none
      fails), starting at `i` with `held` the locks held at that point. */
  function AcquireFrom(held: set<string>, keys: seq<string>, i: nat): (n: nat)
    requires i <= |keys|
    ensures i <= n <= |keys|
    decreases |keys| - i
  {
    if i == |keys| || keys[i] in held then i else AcquireFrom(held + {keys[i]}, keys, i + 1)
  }

  function Acquired(held: set<string>, keys: seq<string>): (n: nat)
    ensures n <= |keys|
  {
    AcquireFrom(held, keys, 0)
  }

  /** Why the stock loop stopped. */
  datatype StockFailure = ProductMissing(product: string) | OutOfStock(name: string)

  function FailureMessage(f: StockFailure): string {
    match f
    case ProductMissing(id) => "Product not found: " + id
    case OutOfStock(name) => "Product " + name + " out of stock."
  }

  /** The product record after `countInStock -= qty`. */
  function Decremented(p: Product, qty: int): Product {
    p.(countInStock := p.countInStock - qty)
  }

  /** The stock loop from item `i` on: each item's product is read from the
      store as it stands, checked and, if it passes, decremented and saved. The
      result is the store afterwards and the failure that stopped the loop. */

  function SettleFrom(products: Obj<Product>, items: seq<OrderItem>, i: nat): (Obj<Product>, Option<StockFailure>)
    decreases |items| - i
  {
    if i >= |items| then (products, None)
    else match Lookup(products, items[i].product)
      case None => (products, Some(ProductMissing(items[i].product)))
      case Some(p) =>
        if p.countInStock < items[i].qty then (products, Some(OutOfStock(p.name)))
        else SettleFrom(Put(products, items[i].product, Decremented(p, items[i].qty)), items, i + 1)
  }

  function Settle(products: Obj<Product>, items: seq<OrderItem>): (Obj<Product>, Option<StockFailure>) {
    SettleFrom(products, items, 0)
  }

  /** `req.body.payer.email_address`: fails when `payer` is absent or `null`;
      `undefined` (`None`) unless `payer` is an object with that field. */
  function PayerEmail(payer: Option<Json>): (r: Result<Option<Json>, string>)
    ensures r.Failure? <==> payer.None? || payer == Some(Null)
    ensures r.Success? && r.value.Some? <==>
      payer.Some? && payer.value.Object? && HasKey(payer.value.fields, "email_address")
    ensures r.Success? && r.value.Some? ==> Lookup(payer.value.fields, "email_address") == r.value
  {
    match payer
    case None => Failure("Cannot read properties of undefined (reading 'email_address')")
    case Some(Null) => Failure("Cannot read properties of null (reading 'email_address')")
    case Some(Object(fields)) => Success(Lookup(fields, "email_address"))
    case Some(_) => Success(None)
  }

  function MarkPaid(o: Order, req: PaymentRequest, now: int, email: Option<Json>): Order {
    o.(isPaid := true, paidAt := Some(now),
       paymentResult := Some(PaymentResult(req.id, req.status, req.updateTime, email)))
  }

  /** What `updateOrderToPaid` leaves behind. */
  datatype PayOutcome = PayOutcome(
    products: Obj<Product>, orders: Obj<Order>, hashes: map<string, Obj<string>>, reply: Reply)

  /** `updateOrderToPaid` as a function of the state it starts from; the locks
      come back to `held` on every path. */
  function Pay(rt: Platform, products: Obj<Product>, orders: Obj<Order>, hashes: map<string, Obj<string>>,
               held: set<string>, orderId: string, req: PaymentRequest, now: int): PayOutcome
  {
    match Lookup(orders, orderId)
    case None => PayOutcome(products, orders, hashes, NotFound(OrderNotFound))
    case Some(o) =>
      var keys := LockKeys(o.orderItems);
      if Acquired(held, keys) < |keys| then PayOutcome(products, orders, hashes, ServerError(LockRefused))
      else
        var settled := Settle(products, o.orderItems);
        if settled.1.Some? then PayOutcome(settled.0, orders, hashes, ServerError(FailureMessage(settled.1.value)))
        else match PayerEmail(req.payer)
          case Failure(msg) => PayOutcome(settled.0, orders, hashes, ServerError(msg))
          case Success(email) =>
            var paid := MarkPaid(o, req, now, email);
            var obj := OrderObject(orderId, paid);
            PayOutcome(settled.0, Put(orders, orderId, paid),
                       WriteFields(hashes, OrderKey(orderId), rt.serializeOrder(obj)), Ok(Object(obj)))
  }

  /** The acquire loop: one lock per key, in order, stopping at the first
      refusal. `acquired` is what was taken. */
  method AcquireLocks(cache: Cache, keys: seq<string>) returns (acquired: seq<string>, refused: bool)
    requires cache.Valid()
    modifies cache
    ensures cache.Valid()
    ensures acquired == keys[..Acquired(old(cache.locks), keys)]
    ensures refused <==> Acquired(old(cache.locks), keys) < |keys|
    ensures cache.locks == old(cache.locks) + set k | k in acquired
    ensures forall k :: k in acquired ==> k !in old(cache.locks)
    ensures cache.hashes == old(cache.hashes) && cache.values == old(cache.values)
    ensures cache.emails == old(cache.emails) && cache.ranking == old(cache.ranking)
  {
    acquired, refused := [], false;
    var i := 0;
    while i < |keys|
      invariant 0 <= i <= |keys| && cache.Valid()
      invariant acquired == keys[..i]
      invariant cache.locks == old(cache.locks) + set k | k in acquired
      invariant forall k :: k in acquired ==> k !in old(cache.locks)
      invariant !refused ==> AcquireFrom(cache.locks, keys, i) == Acquired(old(cache.locks), keys)
      invariant refused ==> Acquired(old(cache.locks), keys) == i < |keys|
      invariant cache.hashes == old(cache.hashes) && cache.values == old(cache.values)
      invariant cache.emails == old(cache.emails) && cache.ranking == old(cache.ranking)
      decreases |keys| - i
    {
      var ok := cache.AcquireLock(keys[i]);
      if !ok {
        refused := true;
        break;
      }
      acquired := acquired + [keys[i]];
      assert keys[..i + 1] == keys[..i] + [keys[i]];
      i := i + 1;
    }
  }

  /** The stock loop over the store; `failure` is what stopped it, if anything. */
  method SettleStock(db: Db, items: seq<OrderItem>) returns (failure: Option<StockFailure>)
    requires db.Valid()
    modifies db
    ensures db.Valid()
    ensures (db.products, failure) == Settle(old(db.products), items)
    ensures db.orders == old(db.orders) && db.users == old(db.users)
  {
    failure := None;
    var j := 0;
    while j < |items|
      invariant 0 <= j <= |items| && db.Valid()
      invariant failure.None? ==> SettleFrom(db.products, items, j) == Settle(old(db.products), items)
      invariant failure.Some? ==> Settle(old(db.products), items) == (db.products, failure)
      invariant db.orders == old(db.orders) && db.users == old(db.users)
      decreases |items| - j
    {
      var product := Lookup(db.products, items[j].product);
      if product.None? {
        failure := Some(ProductMissing(items[j].product));
        break;
      }
      var p := product.value;
      if p.countInStock < items[j].qty {
        failure := Some(OutOfStock(p.name));
        break;
      }
      var decremented := Decremented(p, items[j].qty);
      SettleFromStep(db.products, items, j, p);
      PutKeys(db.products, items[j].product, decremented);
      db.products := Put(db.products, items[j].product, decremented);
      j := j + 1;
    }
  }

  /** The `finally` loop: release each taken lock. */
  method ReleaseLocks(cache: Cache, acquired: seq<string>)
    requires cache.Valid()
    modifies cache
    ensures cache.Valid()
    ensures cache.locks == old(cache.locks) - set k | k in acquired
    ensures cache.hashes == old(cache.hashes) && cache.values == old(cache.values)
    ensures cache.emails == old(cache.emails) && cache.ranking == old(cache.ranking)
  {
    for r := 0 to |acquired|
      invariant cache.Valid()
      invariant cache.locks == old(cache.locks) - set k | k in acquired[..r]
      invariant cache.hashes == old(cache.hashes) && cache.values == old(cache.values)
      invariant cache.emails == old(cache.emails) && cache.ranking == old(cache.ranking)
    {
      assert acquired[..r + 1] == acquired[..r] + [acquired[r]];
      cache.ReleaseLock(acquired[r]);
    }
    assert acquired[..|acquired|] == acquired;
  }

  /** `updateOrderToPaid`. */
  method UpdateOrderToPaid(db: Db, cache: Cache, rt: Platform, orderId: string, req: PaymentRequest, now: int)
    returns (reply: Reply)
    requires db.Valid() && cache.Valid()
    modifies db, cache
    ensures db.Valid() && cache.Valid()
    ensures var out := Pay(rt, old(db.products), old(db.orders), old(cache.hashes), old(cache.locks), orderId, req, now);
      db.products == out.products && db.orders == out.orders && cache.hashes == out.hashes && reply == out.reply
    ensures cache.locks == old(cache.locks)
    ensures db.users == old(db.users)
    ensures cache.values == old(cache.values) && cache.emails == old(cache.emails) && cache.ranking == old(cache.ranking)
  {
    var found := Lookup(db.orders, orderId);
    if found.None? {
      return NotFound(OrderNotFound);
    }
    var order := found.value;
    var acquired, refused := AcquireLocks(cache, LockKeys(order.orderItems));
    if refused {
      reply := ServerError(LockRefused);
    } else {
      var stock := SettleStock(db, order.orderItems);
      if stock.Some? {
        reply := ServerError(FailureMessage(stock.value));
      } else {
        var email := PayerEmail(req.payer);
        if email.Failure? {
          reply := ServerError(email.error);
        } else {
          var paid := MarkPaid(order, req, now, email.value);
          PutKeys(db.orders, orderId, paid);
          db.orders := Put(db.orders, orderId, paid);
          var obj := OrderObject(orderId, paid);
          WriteEach(cache, OrderKey(orderId), rt.serializeOrder(obj));
          reply := Ok(Object(obj));
        }
      }
    }
    ReleaseLocks(cache, acquired);
  }

  /** `updateOrderToDelivered` as a function of the store and the cache. */
  function Deliver(rt: Platform, orders: Obj<Order>, hashes: map<string, Obj<string>>, orderId: string, now: int)
    : (Obj<Order>, map<string, Obj<string>>, Reply)
  {
    match Lookup(orders, orderId)
    case None => (orders, hashes, NotFound(OrderNotFound))
    case Some(o) =>
      var delivered := o.(isDelivered := true, deliveredAt := Some(now));
      var obj := OrderObject(orderId, delivered);
      (Put(orders, orderId, delivered), WriteFields(hashes, OrderKey(orderId), rt.serializeOrder(obj)), Ok(Object(obj)))
  }

  /** `updateOrderToDelivered`. */
  method UpdateOrderToDelivered(db: Db, cache: Cache, rt: Platform, orderId: string, now: int) returns (reply: Reply)
    requires db.Valid() && cache.Valid()
    modifies db, cache
    ensures db.Valid() && cache.Valid()
    ensures (db.orders, cache.hashes, reply) == Deliver(rt, old(db.orders), old(cache.hashes), orderId, now)
    ensures db.products == old(db.products) && db.users == old(db.users)
    ensures cache.values == old(cache.values) && cache.emails == old(cache.emails)
    ensures cache.ranking == old(cache.ranking) && cache.locks == old(cache.locks)
  {
    var found := Lookup(db.orders, orderId);
    if found.None? {
      return NotFound(OrderNotFound);
    }
    var delivered := found.value.(isDelivered := true, deliveredAt := Some(now));
    PutKeys(db.orders, orderId, delivered);
    db.orders := Put(db.orders, orderId, delivered);
    var obj := OrderObject(orderId, delivered);
    WriteEach(cache, OrderKey(orderId), rt.serializeOrder(obj));
    reply := Ok(Object(obj));
  }

  /** Delivery marks only the named order, and keeps its payment state. */
  lemma DeliverChangesOneOrder(rt: Platform, orders: Obj<Order>, hashes: map<string, Obj<string>>,
                               orderId: string, now: int, other: string)
    requires other != orderId
    ensures var (orders', hashes', _) := Deliver(rt, orders, hashes, orderId, now);
      && Lookup(orders', other) == Lookup(orders, other)
      && HashAt(hashes', OrderKey(other)) == HashAt(hashes, OrderKey(other))
      && (HasKey(orders, orderId) ==>
            var before, after := Lookup(orders, orderId).value, Lookup(orders', orderId).value;
            after.isDelivered && after.deliveredAt == Some(now)
            && after.isPaid == before.isPaid && after.paymentResult == before.paymentResult
            && after.orderItems == before.orderItems)
  {
    if HasKey(orders, orderId) {
      var o := Lookup(orders, orderId).value;
      PutLookup(orders, orderId, o.(isDelivered := true, deliveredAt := Some(now)));
      assert OrderKey(other) != OrderKey(orderId) by {
        assert OrderKey(other)[6..] == other && OrderKey(orderId)[6..] == orderId;
      }
    }
  }

  /** The store's orders as `JSON.stringify` sees the list. */
  function OrdersJson(orders: Obj<Order>): (j: Json)
    ensures j.Array? && |j.items| == |orders|
    ensures forall i :: 0 <= i < |orders| ==> j.items[i] == Object(OrderObject(orders[i].0, orders[i].1))
  {
    Array(seq(|orders|, i requires 0 <= i < |orders| => Object(OrderObject(orders[i].0, orders[i].1))))
  }

  /** `getOrders` as a function of the store and the cached values: a
      non-empty cached `orders` string is parsed and sent as it is, however the
      store has changed since; otherwise the store's list is cached and sent. */
  function ReadOrders(rt: Platform, orders: Obj<Order>, values: map<string, string>): (map<string, string>, Reply) {
    if "orders" in values && values["orders"] != "" then
      (values, match rt.parse(values["orders"])
               case Some(j) => Ok(j)
               case None => ServerError(InvalidJson))
    else
      (values["orders" := rt.stringify(OrdersJson(orders))], Ok(OrdersJson(orders)))
  }

  /** `getOrders`. */
  method GetOrders(db: Db, cache: Cache, rt: Platform) returns (reply: Reply)
    requires cache.Valid()
    modifies cache
    ensures cache.Valid()
    ensures (cache.values, reply) == ReadOrders(rt, db.orders, old(cache.values))
    ensures cache.hashes == old(cache.hashes) && cache.emails == old(cache.emails)
    ensures cache.ranking == old(cache.ranking) && cache.locks == old(cache.locks)
  {
    if "orders" in cache.values && cache.values["orders"] != "" {
      var parsed := rt.parse(cache.values["orders"]);
      reply := if parsed.Some? then Ok(parsed.value) else ServerError(InvalidJson);
    } else {
      var all := OrdersJson(db.orders);
      cache.Set("orders", rt.stringify(all));
      reply := Ok(all);
    }
  }

  /** Once cached, the list is sent as cached: creating an order (which leaves
      the cached values alone) does not change what `getOrders` sends. */
  lemma CachedOrdersAreStale(rt: Platform, orders: Obj<Order>, orders': Obj<Order>, values: map<string, string>)
    requires "orders" in values && values["orders"] != ""
    ensures ReadOrders(rt, orders', values) == ReadOrders(rt, orders, values)
  {
  }

  /* ---------------- properties of the payment workflow ---------------- */

  /** Lock keys name their product: two items share a key exactly when they
      name the same product. */
  lemma LockKeyInjective(a: string, b: string)
    ensures LockKey(a) == LockKey(b) <==> a == b
  {
    if LockKey(a) == LockKey(b) {
      assert LockKey(a)[14..] == a && LockKey(b)[14..] == b;
    }
  }

  ghost predicate DistinctFrom(keys: seq<string>, i: nat) {
    forall j, k :: i <= j < k < |keys| ==> keys[j] != keys[k]
  }

  /** The acquire loop from `i` takes every remaining lock exactly when none of
      the remaining keys is held and none repeats. */
  lemma {:induction false} AcquireFromAll(held: set<string>, keys: seq<string>, i: nat)
    requires i <= |keys|
    ensures AcquireFrom(held, keys, i) == |keys| <==>
      (forall j :: i <= j < |keys| ==> keys[j] !in held) && DistinctFrom(keys, i)
    decreases |keys| - i
  {
    if i < |keys| && keys[i] !in held {
      AcquireFromAll(held + {keys[i]}, keys, i + 1);
    }
  }

  /** Every lock is acquired exactly when no item's lock is already held and no
      product appears on two line items; a repeated product always aborts. */
  lemma AllLocksAcquired(held: set<string>, items: seq<OrderItem>)
    ensures Acquired(held, LockKeys(items)) == |items| <==>
      && (forall j :: 0 <= j < |items| ==> LockKey(items[j].product) !in held)
      && (forall j, k :: 0 <= j < k < |items| ==> items[j].product != items[k].product)
  {
    var keys := LockKeys(items);
    AcquireFromAll(held, keys, 0);
    forall j, k | 0 <= j < k < |items| ensures keys[j] == keys[k] <==> items[j].product == items[k].product {
      LockKeyInjective(items[j].product, items[k].product);
    }
  }

  /** Stock is never negative in any product record. */
  ghost predicate StockNonNegative(products: Obj<Product>) {
    forall e :: e in products ==> e.1.countInStock >= 0
  }

  /** One passing item: the loop decrements it and goes on with the next. */
  lemma SettleFromStep(products: Obj<Product>, items: seq<OrderItem>, i: nat, p: Product)
    requires i < |items| && Lookup(products, items[i].product) == Some(p) && p.countInStock >= items[i].qty
    ensures SettleFrom(products, items, i) == SettleFrom(Put(products, items[i].product, Decremented(p, items[i].qty)), items, i + 1)
    ensures StopAt(products, items, i) == StopAt(Put(products, items[i].product, Decremented(p, items[i].qty)), items, i + 1)
  {
  }

  /** The stock loop keeps every count non-negative: a product is decremented
      only after its count is checked against the quantity. */
  lemma {:induction false} SettleKeepsStockNonNegative(products: Obj<Product>, items: seq<OrderItem>, i: nat)
    requires StockNonNegative(products)
    ensures StockNonNegative(SettleFrom(products, items, i).0)
    decreases |items| - i
  {
    if i < |items| {
      var found := Lookup(products, items[i].product);
      if found.Some? && found.value.countInStock >= items[i].qty {
        var q := Decremented(found.value, items[i].qty);
        var next := Put(products, items[i].product, q);
        PutEntries(products, items[i].product, q);
        assert StockNonNegative(next);
        SettleFromStep(products, items, i, found.value);
        SettleKeepsStockNonNegative(next, items, i + 1);
      }
    }
  }

  /** The index of the item the stock loop stops on, `|items|` when none fails. */
  function StopAt(products: Obj<Product>, items: seq<OrderItem>, i: nat): (n: nat)
    ensures i <= n || i > |items|
    ensures n <= |items| || i > |items|
    decreases |items| - i
  {
    if i >= |items| then i
    else match Lookup(products, items[i].product)
      case None => i
      case Some(p) =>
        if p.countInStock < items[i].qty then i
        else StopAt(Put(products, items[i].product, Decremented(p, items[i].qty)), items, i + 1)
  }

  /** Item `k`'s product appears among items `i` to `n - 1`. */
  ghost predicate Mentions(items: seq<OrderItem>, i: nat, n: nat, k: string) {
    exists j :: i <= j < n && j < |items| && items[j].product == k
  }

  /** With distinct products, the stock loop from `i` leaves every item before
      the one it stops on decremented by its quantity, and every product not
      named by those items as it was; it reports a failure exactly when it
      stops before the end. Decrements are not undone on a failure. */
  lemma {:induction false} SettleFromOutcome(products: Obj<Product>, items: seq<OrderItem>, i: nat)
    requires i <= |items|
    requires forall j, k :: i <= j < k < |items| ==> items[j].product != items[k].product
    ensures var (after, failure) := SettleFrom(products, items, i);
      var n := StopAt(products, items, i);
      && (failure.None? <==> n == |items|)
      && (forall j :: i <= j < n ==>
            Lookup(products, items[j].product).Some?
            && Lookup(after, items[j].product) == Some(Decremented(Lookup(products, items[j].product).value, items[j].qty)))
      && (forall k :: !Mentions(items, i, n, k) ==> Lookup(after, k) == Lookup(products, k))
    decreases |items| - i
  {
    if i < |items| {
      var pid := items[i].product;
      var found := Lookup(products, pid);
      if found.Some? && found.value.countInStock >= items[i].qty {
        var q := Decremented(found.value, items[i].qty);
        var next := Put(products, pid, q);
        SettleFromStep(products, items, i, found.value);
        PutLookup(products, pid, q);
        SettleFromOutcome(next, items, i + 1);
        SettleOutcomeLift(products, items, i, next, SettleFrom(next, items, i + 1).0, StopAt(next, items, i + 1));
      }
    }
  }

  /** The inductive step of `SettleFromOutcome`, on named values. */
  lemma SettleOutcomeLift(products: Obj<Product>, items: seq<OrderItem>, i: nat,
                          next: Obj<Product>, after: Obj<Product>, n: nat)
    requires i < |items| && i + 1 <= n <= |items|
    requires forall j, k :: i <= j < k < |items| ==> items[j].product != items[k].product
    requires Lookup(products, items[i].product).Some?
    requires Lookup(next, items[i].product) == Some(Decremented(Lookup(products, items[i].product).value, items[i].qty))
    requires forall k :: k != items[i].product ==> Lookup(next, k) == Lookup(products, k)
    requires forall j :: i + 1 <= j < n ==>
            Lookup(next, items[j].product).Some?
            && Lookup(after, items[j].product) == Some(Decremented(Lookup(next, items[j].product).value, items[j].qty))
    requires forall k :: !Mentions(items, i + 1, n, k) ==> Lookup(after, k) == Lookup(next, k)
    ensures forall j :: i <= j < n ==>
            Lookup(products, items[j].product).Some?
            && Lookup(after, items[j].product) == Some(Decremented(Lookup(products, items[j].product).value, items[j].qty))
    ensures forall k :: !Mentions(items, i, n, k) ==> Lookup(after, k) == Lookup(products, k)
  {
    var pid := items[i].product;
    assert !Mentions(items, i + 1, n, pid);
    forall k | !Mentions(items, i, n, k) ensures Lookup(after, k) == Lookup(products, k) {
      assert !Mentions(items, i + 1, n, k);
      assert k != pid;
    }
    forall j | i <= j < n
      ensures Lookup(products, items[j].product).Some?
      ensures Lookup(after, items[j].product) == Some(Decremented(Lookup(products, items[j].product).value, items[j].qty))
    {
      if j > i {
        assert items[j].product != pid;
      }
    }
  }

  /** Settling is not all-or-nothing: the first item is decremented and saved
      although the second one is out of stock. */
  lemma SettleIsNotAtomic()
    ensures var products := [("a", Product("u", "A", 1.0, 5, 0.0, 0, [])), ("b", Product("u", "B", 1.0, 0, 0.0, 0, []))];
      var items := [OrderItem(Null, 2, Null, Null, "a"), OrderItem(Null, 1, Null, Null, "b")];
      Settle(products, items)
        == ([("a", Product("u", "A", 1.0, 3, 0.0, 0, [])), ("b", Product("u", "B", 1.0, 0, 0.0, 0, []))],
            Some(OutOfStock("B")))
  {
    var products := [("a", Product("u", "A", 1.0, 5, 0.0, 0, [])), ("b", Product("u", "B", 1.0, 0, 0.0, 0, []))];
    var items := [OrderItem(Null, 2, Null, Null, "a"), OrderItem(Null, 1, Null, Null, "b")];
    var after := [("a", Product("u", "A", 1.0, 3, 0.0, 0, [])), ("b", Product("u", "B", 1.0, 0, 0.0, 0, []))];
    assert Lookup(products, "a") == Some(products[0].1);
    assert Put(products, "a", Decremented(products[0].1, 2)) == after;
    assert Lookup(after, "b") == Some(after[1].1);
  }

  /** An order becomes paid only when every lock was taken, every item
      passed the stock check and the payer was given; on any other path the
      orders and their cached hashes are left as they were. */
  lemma PaidOnlyWhenSettled(rt: Platform, products: Obj<Product>, orders: Obj<Order>,
                            hashes: map<string, Obj<string>>, held: set<string>,
                            orderId: string, req: PaymentRequest, now: int)
    ensures var out := Pay(rt, products, orders, hashes, held, orderId, req, now);
      && (out.reply.Ok? <==>
            && HasKey(orders, orderId)
            && Acquired(held, LockKeys(Lookup(orders, orderId).value.orderItems)) == |Lookup(orders, orderId).value.orderItems|
            && Settle(products, Lookup(orders, orderId).value.orderItems).1.None?
            && PayerEmail(req.payer).Success?)
      && (!out.reply.Ok? ==> out.orders == orders && out.hashes == hashes)
  {
  }

  /** A successful payment stores the request's fields as its payment result;
      the result has an `email_address` field exactly when the payer object
      has one, so `payer: {}` pays and records no address. */
  lemma PaymentRecorded(rt: Platform, products: Obj<Product>, orders: Obj<Order>,
                        hashes: map<string, Obj<string>>, held: set<string>,
                        orderId: string, req: PaymentRequest, now: int)
    ensures var out := Pay(rt, products, orders, hashes, held, orderId, req, now);
      out.reply.Ok? ==>
        && Lookup(out.orders, orderId).Some?
        && Lookup(out.orders, orderId).value.paymentResult.Some?
        && req.payer.Some? && req.payer.value != Null
        && (var pr := Lookup(out.orders, orderId).value.paymentResult.value;
            && Lookup(PaymentObject(pr), "id") == req.id
            && Lookup(PaymentObject(pr), "status") == req.status
            && Lookup(PaymentObject(pr), "update_time") == req.updateTime
            && (HasKey(PaymentObject(pr), "email_address") <==>
                  req.payer.value.Object? && HasKey(req.payer.value.fields, "email_address")))
  {
    var out := Pay(rt, products, orders, hashes, held, orderId, req, now);
    PaidOnlyWhenSettled(rt, products, orders, hashes, held, orderId, req, now);
    if out.reply.Ok? {
      var o := Lookup(orders, orderId).value;
      var paid := MarkPaid(o, req, now, PayerEmail(req.payer).value);
      assert out.orders == Put(orders, orderId, paid);
      PutLookup(orders, orderId, paid);
      PaymentObjectFields(paid.paymentResult.value);
    }
  }

  /** Where the stock stands after a payment attempt: untouched when the order
      is missing or a lock is refused (no product is read), and otherwise what
      the stock loop left, failed or not, since its saves are not undone. */
  lemma PayStockEffect(rt: Platform, products: Obj<Product>, orders: Obj<Order>,
                       hashes: map<string, Obj<string>>, held: set<string>,
                       orderId: string, req: PaymentRequest, now: int)
    ensures var out := Pay(rt, products, orders, hashes, held, orderId, req, now);
      && (!HasKey(orders, orderId) ==> out == PayOutcome(products, orders, hashes, NotFound(OrderNotFound)))
      && (HasKey(orders, orderId) ==>
            var items := Lookup(orders, orderId).value.orderItems;
            out.products == (if Acquired(held, LockKeys(items)) < |items| then products else Settle(products, items).0))
  {
  }

  /** A successful payment marks the named order paid at `now` and changes no
      other order. */
  lemma PayChangesOneOrder(rt: Platform, products: Obj<Product>, orders: Obj<Order>,
                           hashes: map<string, Obj<string>>, held: set<string>,
                           orderId: string, req: PaymentRequest, now: int, other: string)
    requires other != orderId
    ensures var out := Pay(rt, products, orders, hashes, held, orderId, req, now);
      && Lookup(out.orders, other) == Lookup(orders, other)
      && (out.reply.Ok? ==> Lookup(out.orders, orderId).Some?
                            && Lookup(out.orders, orderId).value.isPaid
                            && Lookup(out.orders, orderId).value.paidAt == Some(now))
  {
    var out := Pay(rt, products, orders, hashes, held, orderId, req, now);
    PaidOnlyWhenSettled(rt, products, orders, hashes, held, orderId, req, now);
    if out.reply.Ok? {
      var o := Lookup(orders, orderId).value;
      var paid := MarkPaid(o, req, now, PayerEmail(req.payer).value);
      assert out.orders == Put(orders, orderId, paid);
      PutLookup(orders, orderId, paid);
    }
  }
}
