/**
 * The cart slice of the storefront: its items and the four price fields,
 * and the `addToCart` reducer. Prices are in cents.
 */
module CartSlice {
  import opened Money

  /** An item in the cart; `price` is per unit, in cents. */
  datatype CartItem = CartItem(id: string, name: string, price: int, qty: int)

  function LineTotal(item: CartItem): int {
    item.price * item.qty
  }

  /** The `reduce` over the items: the sum of price × qty, left to right. */
  function ItemsTotal(items: seq<CartItem>): int {
    if items == [] then 0 else ItemsTotal(items[..|items| - 1]) + LineTotal(items[|items| - 1])
  }

  predicate HasId(items: seq<CartItem>, id: string) {
    exists i :: 0 <= i < |items| && items[i].id == id
  }

  ghost predicate UniqueIds(items: seq<CartItem>) {
    forall i, j :: 0 <= i < j < |items| ==> items[i].id != items[j].id
  }

  /** `addToCart`'s new item list: an item whose id is present replaces every
      entry with that id where it stands (the quantity is not merged); a new
      id goes at the end. */
  function ReplaceOrAppend(items: seq<CartItem>, item: CartItem): (r: seq<CartItem>)
    ensures |r| == if HasId(items, item.id) then |items| else |items| + 1
    ensures forall i :: 0 <= i < |items| && items[i].id != item.id ==> r[i] == items[i]
    ensures forall i :: 0 <= i < |items| && items[i].id == item.id ==> r[i] == item
    ensures forall i :: 0 <= i < |r| && r[i].id == item.id ==> r[i] == item
    ensures HasId(r, item.id)
    ensures forall id :: HasId(r, id) <==> HasId(items, id) || id == item.id
    ensures UniqueIds(items) ==> UniqueIds(r)
  {
    if HasId(items, item.id) then
      var r := seq(|items|, i requires 0 <= i < |items| => if items[i].id == item.id then item else items[i]);
      assert forall id :: HasId(r, id) ==> HasId(items, id) || id == item.id by {
        forall id | HasId(r, id) ensures HasId(items, id) || id == item.id {
          var i :| 0 <= i < |r| && r[i].id == id;
        }
      }
      assert forall id :: HasId(items, id) ==> HasId(r, id) by {
        forall id | HasId(items, id) ensures HasId(r, id) {
          var i :| 0 <= i < |items| && items[i].id == id;
          assert r[i].id == id;
        }
      }
      var k :| 0 <= k < |items| && items[k].id == item.id;
      assert r[k] == item;
      r
    else
      var r := items + [item];
      assert r[|items|] == item;
      assert forall id :: HasId(r, id) ==> HasId(items, id) || id == item.id by {
        forall id | HasId(r, id) ensures HasId(items, id) || id == item.id {
          var i :| 0 <= i < |r| && r[i].id == id;
          if i < |items| {
            assert items[i].id == id;
          }
        }
      }
      assert forall id :: HasId(items, id) ==> HasId(r, id) by {
        forall id | HasId(items, id) ensures HasId(r, id) {
          var i :| 0 <= i < |items| && items[i].id == id;
          assert r[i].id == id;
        }
      }
      r
  }

  /** Appending adds the new line's total. */
  lemma ItemsTotalAppend(items: seq<CartItem>, item: CartItem)
    ensures ItemsTotal(items + [item]) == ItemsTotal(items) + LineTotal(item)
  {
    assert (items + [item])[..|items|] == items;
  }

  /** Changing the entry at `k` changes the total by the difference of the
      two lines. */
  lemma {:induction false} ItemsTotalUpdate(items: seq<CartItem>, k: nat, item: CartItem)
    requires k < |items|
    ensures ItemsTotal(items[k := item]) == ItemsTotal(items) - LineTotal(items[k]) + LineTotal(item)
  {
    var n := |items|;
    var r := items[k := item];
    if k == n - 1 {
      assert r[..n - 1] == items[..n - 1];
    } else {
      assert r[..n - 1] == items[..n - 1][k := item];
      ItemsTotalUpdate(items[..n - 1], k, item);
    }
  }

  /** With unique ids, adding an item raises the items total by its line,
      less the line of the entry it replaces. */
  lemma AddedItemTotal(items: seq<CartItem>, item: CartItem)
    requires UniqueIds(items)
    ensures !HasId(items, item.id) ==>
      ItemsTotal(ReplaceOrAppend(items, item)) == ItemsTotal(items) + LineTotal(item)
    ensures forall k :: 0 <= k < |items| && items[k].id == item.id ==>
      ItemsTotal(ReplaceOrAppend(items, item)) == ItemsTotal(items) - LineTotal(items[k]) + LineTotal(item)
  {
    var r := ReplaceOrAppend(items, item);
    forall k | 0 <= k < |items| && items[k].id == item.id
      ensures ItemsTotal(r) == ItemsTotal(items) - LineTotal(items[k]) + LineTotal(item)
    {
      assert HasId(items, item.id);
      forall j | 0 <= j < |r| ensures r[j] == items[k := item][j] {
        if j != k {
          assert items[j].id != item.id;
        }
      }
      assert r == items[k := item];
      ItemsTotalUpdate(items, k, item);
    }
    if !HasId(items, item.id) {
      assert r == items + [item] by {
        forall j | 0 <= j < |r| ensures r[j] == (items + [item])[j] {
          if j < |items| {
            assert items[j].id != item.id;
          }
        }
      }
      ItemsTotalAppend(items, item);
    }
  }

  /** The four price fields as the cart defines them from its items: the items
      total, shipping free strictly above 100 dollars and 10 dollars otherwise,
      15% tax to the cent, and their sum. */
  function Prices(items: seq<CartItem>): (p: (int, int, int, int))
    ensures p.0 == ItemsTotal(items)
    ensures p.1 == 0 <==> p.0 > 10000
    ensures p.1 == 0 || p.1 == 1000
    ensures 100 * p.2 - 50 <= 15 * p.0 < 100 * p.2 + 50
    ensures p.3 == p.0 + p.1 + p.2
  {
    var itemsPrice := ItemsTotal(items);
    var shipping := if itemsPrice > 10000 then 0 else 1000;
    var tax := Tax(itemsPrice);
    (itemsPrice, shipping, tax, itemsPrice + shipping + tax)
  }

  /** The cart state; the reducer replaces its fields. Saving it to local
      storage is not part of this model. */
  class CartState {
    var cartItems: seq<CartItem>
    var itemsPrice: int
    var shippingPrice: int
    var taxPrice: int
    var totalPrice: int

    /** The prices agree with the items. */
    ghost predicate Priced()
      reads this
    {
      (itemsPrice, shippingPrice, taxPrice, totalPrice) == Prices(cartItems)
    }

    /** `initialState`: an empty cart with every price 0. */
    constructor ()
      ensures cartItems == [] && itemsPrice == 0 && shippingPrice == 0 && taxPrice == 0 && totalPrice == 0
    {
      cartItems, itemsPrice, shippingPrice, taxPrice, totalPrice := [], 0, 0, 0, 0;
    }

    /** `addToCart`: replace or append the item, then recompute each price from
      the field before it, rounding each to the cent. */
    method AddToCart(item: CartItem)
      modifies this
      ensures cartItems == ReplaceOrAppend(old(cartItems), item)
      ensures Priced()
    {
      cartItems := ReplaceOrAppend(cartItems, item);
      itemsPrice := AddDecimals(Dollars(ItemsTotal(cartItems)));
      shippingPrice := AddDecimals(if Dollars(itemsPrice) > 100.0 then 0.0 else 10.0);
      taxPrice := AddDecimals(Dollars(AddDecimals(0.15 * Dollars(itemsPrice))));
      totalPrice := AddDecimals(Dollars(itemsPrice) + Dollars(shippingPrice) + Dollars(taxPrice));
      AddDecimalsOfCents(ItemsTotal(cartItems));
      AddDecimalsOfCents(if itemsPrice > 10000 then 0 else 1000);
      AddDecimalsOfTax(itemsPrice);
      AddDecimalsOfCents(Tax(itemsPrice));
      assert Dollars(itemsPrice) + Dollars(shippingPrice) + Dollars(taxPrice)
        == Dollars(itemsPrice + shippingPrice + taxPrice);
      AddDecimalsOfCents(itemsPrice + shippingPrice + taxPrice);
    }
  }

  /** Exactly 100 dollars of items still pays shipping; a cent more does not. */
  lemma ShippingThreshold(items: seq<CartItem>)
    ensures ItemsTotal(items) == 10000 ==> Prices(items).1 == 1000
    ensures ItemsTotal(items) == 10001 ==> Prices(items).1 == 0
  {
  }

  /** After `addToCart`, the cart holds the new item exactly once when the ids
      were unique. */
  lemma AddedOnce(items: seq<CartItem>, item: CartItem)
    requires UniqueIds(items)
    ensures var r := ReplaceOrAppend(items, item);
      exists k :: 0 <= k < |r| && r[k] == item && forall j :: 0 <= j < |r| && r[j].id == item.id ==> j == k
  {
    var r := ReplaceOrAppend(items, item);
    var k :| 0 <= k < |r| && r[k].id == item.id;
    assert r[k] == item;
  }
}
