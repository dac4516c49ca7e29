/**
 * `updateCart` from the storefront's cart utilities: it recomputes the four
 * price fields of a cart state in place, from unrounded intermediate values,
 * and returns the same state.
 */
module CartUtils {
  import opened Money
  import opened CartSlice

  /** The `reduce` of `updateCart`: `acc + (price * 100 * qty) / 100`, in
      dollars, with `price` the unit price in dollars. */
  function ItemsDollars(items: seq<CartItem>): real {
    if items == [] then 0.0
    else
      var item := items[|items| - 1];
      ItemsDollars(items[..|items| - 1]) + Dollars(item.price) * 100.0 * (item.qty as real) / 100.0
  }

  /** The dollar sum is the cents total, in dollars. */
  lemma {:induction false} ItemsDollarsIsTotal(items: seq<CartItem>)
    ensures ItemsDollars(items) == Dollars(ItemsTotal(items))
  {
    if items != [] {
      var item := items[|items| - 1];
      ItemsDollarsIsTotal(items[..|items| - 1]);
      LineDollars(item.price, item.qty);
    }
  }

  lemma LineDollars(price: int, qty: int)
    ensures Dollars(price) * 100.0 * (qty as real) / 100.0 == Dollars(price * qty)
  {
    assert Dollars(price) * 100.0 == price as real;
    assert (price as real) * (qty as real) == (price * qty) as real;
  }

  /** `updateCart`: overwrite the price fields of `state` and return it. */
  method UpdateCart(state: CartState) returns (r: CartState)
    modifies state
    ensures r == state
    ensures state.cartItems == old(state.cartItems)
    ensures state.Priced()
  {
    var itemsPrice := ItemsDollars(state.cartItems);
    state.itemsPrice := AddDecimals(itemsPrice);
    var shippingPrice := if itemsPrice > 100.0 then 0.0 else 10.0;
    state.shippingPrice := AddDecimals(shippingPrice);
    var taxPrice := 0.15 * itemsPrice;
    state.taxPrice := AddDecimals(taxPrice);
    var totalPrice := itemsPrice + shippingPrice + taxPrice;
    state.totalPrice := AddDecimals(totalPrice);
    ghost var cents := ItemsTotal(state.cartItems);
    ghost var shipping := if cents > 10000 then 0 else 1000;
    ItemsDollarsIsTotal(state.cartItems);
    AddDecimalsOfCents(cents);
    AddDecimalsOfCents(shipping);
    AddDecimalsOfTax(cents);
    assert totalPrice == Dollars(cents + shipping) + 0.15 * Dollars(cents);
    AddDecimalsShift(cents + shipping, 0.15 * Dollars(cents));
    return state;
  }

  /** An empty cart costs nothing but the 10 dollars of shipping. */
  lemma EmptyCartPrices()
    ensures Prices([]) == (0, 1000, 0, 1000)
  {
  }

  /** Rounding the total once, from the unrounded tax, gives the same total as
      the slice's sum of the rounded fields. */
  lemma TotalsAgree(items: seq<CartItem>)
    ensures var cents := ItemsTotal(items);
      var shipping := if cents > 10000 then 0 else 1000;
      AddDecimals(Dollars(cents) + Dollars(shipping) + 0.15 * Dollars(cents)) == Prices(items).3
  {
    var cents := ItemsTotal(items);
    var shipping := if cents > 10000 then 0 else 1000;
    assert Dollars(cents) + Dollars(shipping) + 0.15 * Dollars(cents) == Dollars(cents + shipping) + 0.15 * Dollars(cents);
    AddDecimalsShift(cents + shipping, 0.15 * Dollars(cents));
    AddDecimalsOfTax(cents);
  }
}
