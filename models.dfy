/**
 * The records the shop keeps, their `toObject()` form, the record store, the
 * outcome of a request, and the library functions the controllers call but
 * whose code is not part of this model.
 */
module Models {
  import opened Wrappers
  import opened JsObjects

  datatype Review = Review(name: string, rating: real, comment: Json, user: string)

  /** A product: `user` is the id of its owner. */
  datatype Product = Product(
    user: string, name: string, price: real, countInStock: int,
    rating: real, numReviews: int, reviews: seq<Review>)

  /** A line item as an order stores it. */
  datatype OrderItem = OrderItem(name: Json, qty: int, image: Json, price: Json, product: string)

  /** `order.paymentResult`; a field the request left `undefined` is `None`
      and the saved document does not have it. */
  datatype PaymentResult = PaymentResult(
    id: Option<Json>, status: Option<Json>, updateTime: Option<Json>, emailAddress: Option<Json>)

  /** An order; `paidAt` and `deliveredAt` are `Date.now()` values. */
  datatype Order = Order(
    user: string, orderItems: seq<OrderItem>, shippingAddress: Json, paymentMethod: Json,
    itemsPrice: Json, taxPrice: Json, shippingPrice: Json, totalPrice: Json,
    isPaid: bool, paidAt: Option<int>, paymentResult: Option<PaymentResult>,
    isDelivered: bool, deliveredAt: Option<int>)

  datatype User = User(name: string, email: string, password: string, isAdmin: bool)

  function Num(n: int): Json { Number(n as real) }

  function ReviewObject(r: Review): Obj<Json> {
    [("name", Str(r.name)), ("rating", Number(r.rating)), ("comment", r.comment), ("user", Str(r.user))]
  }

  function ReviewsJson(rs: seq<Review>): (js: seq<Json>)
    ensures |js| == |rs|
  {
    seq(|rs|, i requires 0 <= i < |rs| => Object(ReviewObject(rs[i])))
  }

  /** `product.toObject()` for the product stored under `id`. */
  function ProductObject(id: string, p: Product): (o: Obj<Json>)
    ensures UniqueKeys(o) && !HasKey(o, "length")
  {
    [("_id", Str(id)), ("user", Str(p.user)), ("name", Str(p.name)), ("price", Number(p.price)),
     ("countInStock", Num(p.countInStock)), ("rating", Number(p.rating)),
     ("numReviews", Num(p.numReviews)), ("reviews", Array(ReviewsJson(p.reviews)))]
  }

  function ItemObject(it: OrderItem): Obj<Json> {
    [("name", it.name), ("qty", Num(it.qty)), ("image", it.image), ("price", it.price),
     ("product", Str(it.product))]
  }

  function ItemsJson(items: seq<OrderItem>): (js: seq<Json>)
    ensures |js| == |items|
  {
    seq(|items|, i requires 0 <= i < |items| => Object(ItemObject(items[i])))
  }

  /** The payment fields that are set, in schema order. */
  function PaymentObject(p: PaymentResult): Obj<Json> {
    var d := Present("email_address", p.emailAddress, []);
    var c := Present("update_time", p.updateTime, d);
    var b := Present("status", p.status, c);
    Present("id", p.id, b)
  }

  /** `rest` preceded by the field `k` when its value is set. */
  function Present(k: string, v: Option<Json>, rest: Obj<Json>): Obj<Json> {
    if v.Some? then [(k, v.value)] + rest else rest
  }

  /** What `Present` reads back, and that it keeps the keys unique. */
  lemma PresentFields(k: string, v: Option<Json>, rest: Obj<Json>)
    ensures forall k' :: Lookup(Present(k, v, rest), k') == if k' == k && v.Some? then v else Lookup(rest, k')
    ensures UniqueKeys(rest) && Lookup(rest, k).None? ==> UniqueKeys(Present(k, v, rest))
  {
    if v.Some? {
      forall k' {
        LookupCons((k, v.value), rest, k');
      }
    }
  }

  /** The stored payment result holds each field the request set, and only
      those: a field left `undefined` is absent. */
  lemma PaymentObjectFields(p: PaymentResult)
    ensures UniqueKeys(PaymentObject(p))
    ensures Lookup(PaymentObject(p), "id") == p.id && Lookup(PaymentObject(p), "status") == p.status
    ensures Lookup(PaymentObject(p), "update_time") == p.updateTime
    ensures Lookup(PaymentObject(p), "email_address") == p.emailAddress
  {
    var d := Present("email_address", p.emailAddress, []);
    var c := Present("update_time", p.updateTime, d);
    var b := Present("status", p.status, c);
    PresentFields("email_address", p.emailAddress, []);
    assert Lookup(d, "update_time") == None && Lookup(d, "status") == None && Lookup(d, "id") == None;
    PresentFields("update_time", p.updateTime, d);
    assert Lookup(c, "status") == None && Lookup(c, "id") == None;
    PresentFields("status", p.status, c);
    assert Lookup(b, "id") == None;
    PresentFields("id", p.id, b);
  }

  /** The fields every order has, in schema order. */
  function OrderCore(id: string, o: Order): (c: Obj<Json>)
    ensures UniqueKeys(c) && |c| == 11 && !HasKey(c, "length")
    ensures forall i :: 0 <= i < |c| ==> !IsOptionalOrderField(c[i].0)
  {
    [("_id", Str(id)), ("user", Str(o.user)), ("orderItems", Array(ItemsJson(o.orderItems))),
     ("shippingAddress", o.shippingAddress), ("paymentMethod", o.paymentMethod),
     ("itemsPrice", o.itemsPrice), ("taxPrice", o.taxPrice), ("shippingPrice", o.shippingPrice),
     ("totalPrice", o.totalPrice), ("isPaid", Bool(o.isPaid)), ("isDelivered", Bool(o.isDelivered))]
  }

  predicate IsOptionalOrderField(k: string) {
    k == "paidAt" || k == "paymentResult" || k == "deliveredAt"
  }

  /** The optional order fields that are set. */
  function OrderExtras(o: Order): (e: Obj<Json>)
    ensures UniqueKeys(e)
    ensures forall i :: 0 <= i < |e| ==> IsOptionalOrderField(e[i].0)
    ensures HasKey(e, "paidAt") <==> o.paidAt.Some?
  {
    var paid: Obj<Json> := if o.paidAt.Some? then [("paidAt", Num(o.paidAt.value))] else [];
    var payment: Obj<Json> :=
      if o.paymentResult.Some? then [("paymentResult", Object(PaymentObject(o.paymentResult.value)))] else [];
    var delivered: Obj<Json> := if o.deliveredAt.Some? then [("deliveredAt", Num(o.deliveredAt.value))] else [];
    var e := paid + payment + delivered;
    assert o.paidAt.Some? ==> e[0].0 == "paidAt";
    e
  }

  /** `order.toObject()`: the core fields, then the optional ones that are set. */
  function OrderObject(id: string, o: Order): (r: Obj<Json>)
    ensures UniqueKeys(r) && r != [] && !HasKey(r, "length")
  {
    var c := OrderCore(id, o);
    var e := OrderExtras(o);
    UniqueConcat(c, e);
    assert !HasKey(e, "length") by {
      forall i | 0 <= i < |e| ensures e[i].0 != "length" {
        assert IsOptionalOrderField(e[i].0);
      }
    }
    assert forall i :: 0 <= i < |c + e| ==> (c + e)[i] == if i < |c| then c[i] else e[i - |c|];
    c + e
  }

  /** `user.toObject()`. */
  function UserObject(id: string, u: User): (o: Obj<Json>)
    ensures UniqueKeys(o) && HasKey(o, "password") && !HasKey(o, "length")
  {
    var o := 
    [("_id", Str(id)), ("name", Str(u.name)), ("email", Str(u.email)), ("password", Str(u.password)),
     ("isAdmin", Bool(u.isAdmin))];
    assert o[3].0 == "password";
    o
  }

  /** `{ _id, name, email, isAdmin }`, the public view the user endpoints send. */
  function PublicUser(id: string, u: User): (o: Obj<Json>)
    ensures !HasKey(o, "password")
  {
    [("_id", Str(id)), ("name", Str(u.name)), ("email", Str(u.email)), ("isAdmin", Bool(u.isAdmin))]
  }

  /** `{ message }`. */
  function Message(text: string): Json {
    Object([("message", Str(text))])
  }

  /** The message of the error `JSON.parse` throws on text that is not JSON;
      the engine's exact wording depends on the text. */
  const InvalidJson := "Unexpected token in JSON"

  /** What a request handler sends: the status and the body, or the message of
      the error the shared error handler turns into a response. */
  datatype Reply =
    | Ok(body: Json)
    | Created(body: Json)
    | BadRequest(message: string)
    | Unauthorized(message: string)
    | NotFound(message: string)
    | ServerError(message: string)

  /** Library code the controllers call whose implementation is not modelled:
      `JSON.stringify`, `JSON.parse` (`None` when it throws), `Number` on a
      string (`None` for `NaN`), the order serializer the order controller
      imports, and the password check. */
  datatype Platform = Platform(
    stringify: Json -> string,
    parse: string -> Option<Json>,
    toNumber: string -> Option<real>,
    serializeOrder: Obj<Json> -> Obj<string>,
    matchPassword: (string, string) -> bool)

  /** The record store: one collection per model, in natural order, keyed by id. */
  class Db {
    var products: Obj<Product>
    var orders: Obj<Order>
    var users: Obj<User>

    ghost predicate Valid()
      reads this
    {
      UniqueKeys(products) && UniqueKeys(orders) && UniqueKeys(users)
    }

    constructor ()
      ensures Valid() && products == [] && orders == [] && users == []
    {
      products, orders, users := [], [], [];
    }
  }
}
