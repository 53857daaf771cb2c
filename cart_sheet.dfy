/** The cart side sheet (frontend CartSheet.jsx): its totals, and the handlers that call the cart API and
    then replace the lines it shows. The server's answers are parameters: whether a request succeeded and
    what a refetch returned. */
module CartSheet {
  import opened Common
  import opened FoodCatalog
  import opened CartModel

  /** A cart line as the sheet reads it: the populated food's id ("" when the food is missing), the
      line's own id, the populated food's price, the line's own `price` field, and the quantity. None
      stands for an undefined field. */
  datatype SheetItem = SheetItem(foodId: string, id: string, foodPrice: Option<real>, price: Option<real>, quantity: int)

  /** The lines the sheet receives for a stored cart: `getCart` populates each line's food, and a cart
      line has no `price` of its own. */
  function SheetItemsOf(c: Catalog, items: seq<CartItem>): (r: seq<SheetItem>)
    ensures |r| == |items|
    ensures forall k :: 0 <= k < |items| ==> r[k].price == None && r[k].quantity == items[k].quantity
    ensures forall k :: 0 <= k < |items| ==>
      r[k].foodPrice == if items[k].food in c.foods then Some(c.foods[items[k].food].price) else None
  {
    seq(|items|, k requires 0 <= k < |items| =>
      SheetItem(if items[k].food in c.foods then items[k].food else "", "",
                if items[k].food in c.foods then Some(c.foods[items[k].food].price) else None,
                None, items[k].quantity))
  }

  /** A price times a quantity, NaN (None) when the price is undefined. */
  function Times(price: Option<real>, quantity: int): Option<real>
  {
    if price.Some? then Some(price.value * quantity as real) else None
  }

  /** NaN-propagating addition. */
  function Plus(a: Option<real>, b: Option<real>): Option<real>
  {
    if a.Some? && b.Some? then Some(a.value + b.value) else None
  }

  /** `calculateTotal` as written: Σ `item.price` × quantity, NaN as soon as one line has no `price`. */
  function CalculateTotalAsWritten(items: seq<SheetItem>): (r: Option<real>)
    ensures r.Some? <==> forall k :: 0 <= k < |items| ==> items[k].price.Some?
  {
    if items == [] then Some(0.0)
    else Plus(CalculateTotalAsWritten(items[..|items| - 1]), Times(items[|items| - 1].price, items[|items| - 1].quantity))
  }

  /** The lines of a stored cart carry no `price`, so the sheet shows NaN as the total of any cart that
      is not empty. */
  lemma AsWrittenTotalIsNaN(c: Catalog, items: seq<CartItem>)
    requires items != []
    ensures CalculateTotalAsWritten(SheetItemsOf(c, items)) == None
  {
    var lines := SheetItemsOf(c, items);
    assert lines[|lines| - 1].price == None;
  }

  /** `calculateTotal` as evidently meant: Σ the populated food's price × quantity. */
  function CalculateTotal(items: seq<SheetItem>): (r: Option<real>)
    ensures r.Some? <==> forall k :: 0 <= k < |items| ==> items[k].foodPrice.Some?
  {
    if items == [] then Some(0.0)
    else Plus(CalculateTotal(items[..|items| - 1]), Times(items[|items| - 1].foodPrice, items[|items| - 1].quantity))
  }

  /** For a cart whose foods all exist, the sheet's total is the server's priced total. */
  lemma {:induction false} SheetTotalMatchesServer(c: Catalog, items: seq<CartItem>)
    requires forall k :: 0 <= k < |items| ==> items[k].food in c.foods
    ensures CalculateTotal(SheetItemsOf(c, items)) == Some(PricedTotal(c, items))
    decreases |items|
  {
    if items != [] {
      var n := |items|;
      SheetTotalMatchesServer(c, items[..n - 1]);
      SheetTotalStep(c, items);
    }
  }

  /** The last line of the sheet adds the server's amount for the last entry. */
  lemma SheetTotalStep(c: Catalog, items: seq<CartItem>)
    requires items != [] && items[|items| - 1].food in c.foods
    ensures CalculateTotal(SheetItemsOf(c, items)) ==
      Plus(CalculateTotal(SheetItemsOf(c, items[..|items| - 1])), Some(LineAmount(c, items[|items| - 1])))
  {
    var n := |items|;
    var lines := SheetItemsOf(c, items);
    assert lines[..n - 1] == SheetItemsOf(c, items[..n - 1]);
    assert lines[n - 1].foodPrice == Some(c.foods[items[n - 1].food].price);
    assert lines[n - 1].quantity == items[n - 1].quantity;
    var last := Times(lines[n - 1].foodPrice, lines[n - 1].quantity);
    assert last.Some? && last.value == LineAmount(c, items[n - 1]);
  }

  /** `getTotalItems`: Σ quantity. */
  function GetTotalItems(items: seq<SheetItem>): (n: int)
    ensures (forall k :: 0 <= k < |items| ==> items[k].quantity >= 1) ==> n >= |items|
  {
    if items == [] then 0 else GetTotalItems(items[..|items| - 1]) + items[|items| - 1].quantity
  }

  /** The sheet counts the same units as the cart's `itemCount`. */
  lemma {:induction false} SheetCountMatchesServer(c: Catalog, items: seq<CartItem>)
    ensures GetTotalItems(SheetItemsOf(c, items)) == ItemCount(items)
    decreases |items|
  {
    if items != [] {
      var n := |items|;
      SheetCountMatchesServer(c, items[..n - 1]);
      assert SheetItemsOf(c, items)[..n - 1] == SheetItemsOf(c, items[..n - 1]);
    }
  }

  const UpdateFailed: string := "Failed to update quantity"
  const Updated: string := "Cart updated successfully"
  const LoadFailed: string := "Failed to load cart items"
  const Removed: string := "Item removed from cart"
  const RemoveFailed: string := "Failed to remove item"
  const Cleared: string := "Cart cleared successfully"
  const ClearFailed: string := "Failed to clear cart"
  const EmptyCart: string := "Your cart is empty"
  const Proceeding: string := "Proceeding to checkout..."

  /** The sheet's state: open or closed, the lines it shows, and the notices it has shown. */
  class Sheet {
    var isOpen: bool
    var cartItems: seq<SheetItem>
    var toasts: seq<string>

    constructor ()
      ensures !isOpen && cartItems == [] && toasts == []
    {
      isOpen := false;
      cartItems := [];
      toasts := [];
    }

    /** `fetchCart`: the refetched lines, or the old ones and a notice when the request failed. */
    method FetchCart(refetched: Option<seq<SheetItem>>)
      modifies this
      ensures isOpen == old(isOpen)
      ensures refetched.Some? ==> cartItems == refetched.value && toasts == old(toasts)
      ensures refetched.None? ==> cartItems == old(cartItems) && toasts == old(toasts) + [LoadFailed]
    {
      if refetched.Some? {
        cartItems := refetched.value;
      } else {
        toasts := toasts + [LoadFailed];
      }
    }

    /** `updateQuantity`. A quantity below 1 is ignored without a request; otherwise the request is made
        and, when it succeeds, the lines are refetched. */
    method UpdateQuantity(foodId: string, newQuantity: int, requestOk: bool, refetched: Option<seq<SheetItem>>)
      returns (requested: bool)
      modifies this
      ensures requested <==> newQuantity >= 1
      ensures !requested ==> cartItems == old(cartItems) && toasts == old(toasts)
      ensures isOpen == old(isOpen)
      ensures requested && !requestOk ==> cartItems == old(cartItems) && toasts == old(toasts) + [UpdateFailed]
      ensures requested && requestOk && refetched.Some? ==>
        cartItems == refetched.value && toasts == old(toasts) + [Updated]
      ensures requested && requestOk && refetched.None? ==>
        cartItems == old(cartItems) && toasts == old(toasts) + [LoadFailed, Updated]
    {
      if newQuantity < 1 {
        return false;
      }
      requested := true;
      if !requestOk {
        toasts := toasts + [UpdateFailed];
        return;
      }
      FetchCart(refetched);
      toasts := toasts + [Updated];
    }

    /** `removeItem`: the request, then on success a refetch and a notice; no guard. */
    method RemoveItem(foodId: string, requestOk: bool, refetched: Option<seq<SheetItem>>)
      modifies this
      ensures isOpen == old(isOpen)
      ensures !requestOk ==> cartItems == old(cartItems) && toasts == old(toasts) + [RemoveFailed]
      ensures requestOk && refetched.Some? ==> cartItems == refetched.value && toasts == old(toasts) + [Removed]
      ensures requestOk && refetched.None? ==> cartItems == old(cartItems) && toasts == old(toasts) + [LoadFailed, Removed]
    {
      if !requestOk {
        toasts := toasts + [RemoveFailed];
        return;
      }
      FetchCart(refetched);
      toasts := toasts + [Removed];
    }

    /** `clearCart`: the lines are emptied only when the request succeeds. */
    method ClearCart(requestOk: bool)
      modifies this
      ensures isOpen == old(isOpen)
      ensures requestOk ==> cartItems == [] && toasts == old(toasts) + [Cleared]
      ensures !requestOk ==> cartItems == old(cartItems) && toasts == old(toasts) + [ClearFailed]
    {
      if requestOk {
        cartItems := [];
        toasts := toasts + [Cleared];
      } else {
        toasts := toasts + [ClearFailed];
      }
    }

    /** `handleCheckout`: an empty cart is refused and the sheet stays as it is; otherwise it closes. */
    method HandleCheckout()
      modifies this
      ensures cartItems == old(cartItems)
      ensures old(cartItems) == [] ==> isOpen == old(isOpen) && toasts == old(toasts) + [EmptyCart]
      ensures old(cartItems) != [] ==> !isOpen && toasts == old(toasts) + [Proceeding]
    {
      if cartItems == [] {
        toasts := toasts + [EmptyCart];
        return;
      }
      isOpen := false;
      toasts := toasts + [Proceeding];
    }
  }
}
