/** The cart endpoints (backend/controllers/cartController.js): find the caller's cart, change its
    entries in place, save it (which recomputes the total), and answer; a thrown error is answered with
    500 and a fixed message per endpoint. Quantities are whole numbers, 0 standing for an absent one. */
module CartController {
  import opened Common
  import opened FoodCatalog
  import opened CartModel

  const InvalidAddRequest: string := "Food ID and quantity (min 1) are required"
  const FoodNotFound: string := "Food item not found"
  const AddFailed: string := "Error adding item to cart"
  const InvalidQuantity: string := "Quantity must be at least 1"
  const CartNotFound: string := "Cart not found"
  const ItemNotFound: string := "Item not found in cart"
  const UpdateFailed: string := "Error updating cart item"
  const RemoveFailed: string := "Error removing item from cart"
  const ClearFailed: string := "Error clearing cart"
  const GetFailed: string := "Error retrieving cart"

  /** The entries after adding `q` units of `foodId`: merged into its entry when there is one, appended
      otherwise. */
  function AddedItems(items: seq<CartItem>, foodId: string, q: int): seq<CartItem>
  {
    var i := FindIndex(items, foodId);
    if i >= 0 then items[i := items[i].(quantity := items[i].quantity + q)] else items + [CartItem(foodId, q)]
  }

  /** Changing one entry's quantity by `d` changes the cart's unit count by `d`. */
  lemma ItemCountUpdate(items: seq<CartItem>, i: int, d: int)
    requires 0 <= i < |items|
    ensures ItemCount(items[i := items[i].(quantity := items[i].quantity + d)]) == ItemCount(items) + d
  {
    var x := items[i];
    var y := x.(quantity := x.quantity + d);
    assert items == items[..i] + [x] + items[i + 1..];
    assert items[i := y] == items[..i] + [y] + items[i + 1..];
    ItemCountAppend(items[..i] + [x], items[i + 1..]);
    ItemCountAppend(items[..i] + [y], items[i + 1..]);
    ItemCountAppend(items[..i], [x]);
    ItemCountAppend(items[..i], [y]);
    assert [x][..0] == [] && [y][..0] == [];
  }

  /** Adding keeps one entry per food and leaves an entry for the food. */
  lemma AddedItemsUnique(items: seq<CartItem>, foodId: string, q: int)
    ensures UniqueFoods(items) ==> UniqueFoods(AddedItems(items, foodId, q))
    ensures FindIndex(AddedItems(items, foodId, q), foodId) >= 0
  {
    var r := AddedItems(items, foodId, q);
    var i := FindIndex(items, foodId);
    if i >= 0 {
      assert r[i].food == foodId;
      assert forall k :: 0 <= k < |r| ==> r[k].food == items[k].food;
    } else {
      assert r[|items|].food == foodId;
    }
  }

  /** Adding `q` units adds exactly `q` to the cart's unit count. */
  lemma AddedItemsCount(items: seq<CartItem>, foodId: string, q: int)
    ensures ItemCount(AddedItems(items, foodId, q)) == ItemCount(items) + q
  {
    var i := FindIndex(items, foodId);
    if i >= 0 {
      ItemCountUpdate(items, i, q);
    } else {
      ItemCountAppend(items, [CartItem(foodId, q)]);
      assert [CartItem(foodId, q)][..0] == [];
    }
  }

  /** Adding at least one unit of a named food keeps the entries valid. */
  lemma AddedItemsConform(items: seq<CartItem>, foodId: string, q: int)
    requires ItemsConform(items) && foodId != "" && q >= 1
    ensures ItemsConform(AddedItems(items, foodId, q))
  {
  }

  /** The entries after `splice(findIndex(foodId), 1)`; unchanged when there is no such entry. */
  function RemovedItems(items: seq<CartItem>, foodId: string): seq<CartItem>
  {
    var i := FindIndex(items, foodId);
    if i >= 0 then items[..i] + items[i + 1..] else items
  }

  /** Removing keeps the other entries in their order, keeps one entry per food, and leaves no entry for
      the food when there was one per food. */
  lemma RemovedItemsProperties(items: seq<CartItem>, foodId: string)
    requires UniqueFoods(items)
    ensures UniqueFoods(RemovedItems(items, foodId))
    ensures FindIndex(RemovedItems(items, foodId), foodId) == -1
    ensures FindIndex(items, foodId) >= 0 ==> |RemovedItems(items, foodId)| == |items| - 1
  {
    var i := FindIndex(items, foodId);
    var r := RemovedItems(items, foodId);
    if i >= 0 {
      forall a, b | 0 <= a < b < |r| ensures r[a].food != r[b].food {
        var a' := if a < i then a else a + 1;
        var b' := if b < i then b else b + 1;
        assert r[a] == items[a'] && r[b] == items[b'];
      }
      forall k | 0 <= k < |r| ensures r[k].food != foodId {
        var k' := if k < i then k else k + 1;
        assert r[k] == items[k'];
      }
    }
  }

  /** Removing a food that was just added to a cart without it gives the cart's entries back. */
  lemma RemoveAfterAdd(items: seq<CartItem>, foodId: string, q: int)
    requires FindIndex(items, foodId) == -1
    ensures RemovedItems(AddedItems(items, foodId, q), foodId) == items
  {
    var r := items + [CartItem(foodId, q)];
    var j := FindIndex(r, foodId);
    assert r[|items|].food == foodId;
    assert j == |items|;
    assert r[..j] == items;
  }

  /** The cart as saved: the pre-save hook recomputes the total from the catalog. */
  function Saved(c: Catalog, cart: Cart): (r: Cart)
    ensures r.user == cart.user && r.items == cart.items
    ensures cart.items == [] ==> r.totalAmount == 0.0
  {
    cart.(totalAmount := SavedTotal(c, cart))
  }

  /** `addToCart`. Invalid input is refused before the food is looked up; an unknown food is 404, a
      failing lookup 500; otherwise the units are merged into the caller's cart, created if missing. */
  method AddToCart(carts: CartStore, c: Catalog, user: string, foodId: string, quantity: int) returns (resp: Reply<Cart>)
    requires carts.Valid()
    modifies carts
    ensures carts.Valid()
    ensures foodId == "" || quantity < 1 ==> resp == Reply(400, InvalidAddRequest, None) && carts.carts == old(carts.carts)
    ensures foodId != "" && quantity >= 1 && FindById(c, foodId).NotFound? ==>
      resp == Reply(404, FoodNotFound, None) && carts.carts == old(carts.carts)
    ensures foodId != "" && quantity >= 1 && FindById(c, foodId).LookupError? ==>
      resp == Reply(500, AddFailed, None) && carts.carts == old(carts.carts)
    ensures foodId != "" && quantity >= 1 && FindById(c, foodId).Found? ==>
      (user == "" ==> resp == Reply(500, AddFailed, None) && carts.carts == old(carts.carts)) &&
      (user != "" ==>
        var before := if user in old(carts.carts) then old(carts.carts)[user] else Cart(user, [], 0.0);
        var after := Saved(c, before.(items := AddedItems(before.items, foodId, quantity)));
        resp == Reply(201, "", Some(after)) && carts.carts == old(carts.carts)[user := after])
  {
    if foodId == "" || quantity < 1 {
      return Reply(400, InvalidAddRequest, None);
    }
    match FindById(c, foodId) {
      case NotFound => return Reply(404, FoodNotFound, None);
      case LookupError => return Reply(500, AddFailed, None);
      case Found(_) =>
    }
    var found := carts.FindByUser(user);
    var doc: CartDoc;
    if found.None? {
      doc := new CartDoc.Create(user, [CartItem(foodId, quantity)]);
    } else {
      doc := new CartDoc.Load(found.value);
      var i := FindIndex(doc.items, foodId);
      if i > -1 {
        doc.AddQuantity(i, quantity);
      } else {
        doc.Push(CartItem(foodId, quantity));
      }
      AddedItemsConform(found.value.items, foodId, quantity);
    }
    var saved := carts.Save(doc, c);
    if saved.Err? {
      return Reply(500, AddFailed, None);
    }
    resp := Reply(201, "", Some(saved.value));
  }

  /** `updateCartItem`: sets exactly one entry's quantity; nothing else in the cart changes. */
  method UpdateCartItem(carts: CartStore, c: Catalog, user: string, foodId: string, quantity: int) returns (resp: Reply<Cart>)
    requires carts.Valid()
    modifies carts
    ensures carts.Valid()
    ensures quantity < 1 ==> resp == Reply(400, InvalidQuantity, None) && carts.carts == old(carts.carts)
    ensures quantity >= 1 && user !in old(carts.carts) ==> resp == Reply(404, CartNotFound, None) && carts.carts == old(carts.carts)
    ensures quantity >= 1 && user in old(carts.carts) ==>
      var before := old(carts.carts)[user];
      var i := FindIndex(before.items, foodId);
      (i == -1 ==> resp == Reply(404, ItemNotFound, None) && carts.carts == old(carts.carts)) &&
      (i >= 0 ==>
        var after := Saved(c, before.(items := before.items[i := before.items[i].(quantity := quantity)]));
        resp == Reply(200, "", Some(after)) && carts.carts == old(carts.carts)[user := after])
  {
    if quantity < 1 {
      return Reply(400, InvalidQuantity, None);
    }
    var found := carts.FindByUser(user);
    if found.None? {
      return Reply(404, CartNotFound, None);
    }
    var doc := new CartDoc.Load(found.value);
    var i := FindIndex(doc.items, foodId);
    if i == -1 {
      return Reply(404, ItemNotFound, None);
    }
    doc.SetQuantity(i, quantity);
    var saved := carts.Save(doc, c);
    resp := Reply(200, "", Some(saved.value));
  }

  /** Setting a quantity keeps one entry per food and changes the unit count by the difference. */
  lemma UpdateItemProperties(items: seq<CartItem>, i: int, quantity: int)
    requires 0 <= i < |items|
    ensures UniqueFoods(items) ==> UniqueFoods(items[i := items[i].(quantity := quantity)])
    ensures ItemCount(items[i := items[i].(quantity := quantity)]) == ItemCount(items) - items[i].quantity + quantity
  {
    ItemCountUpdate(items, i, quantity - items[i].quantity);
    assert items[i].(quantity := items[i].quantity + (quantity - items[i].quantity)) == items[i].(quantity := quantity);
  }

  /** `removeFromCart`. */
  method RemoveFromCart(carts: CartStore, c: Catalog, user: string, foodId: string) returns (resp: Reply<Cart>)
    requires carts.Valid()
    modifies carts
    ensures carts.Valid()
    ensures user !in old(carts.carts) ==> resp == Reply(404, CartNotFound, None) && carts.carts == old(carts.carts)
    ensures user in old(carts.carts) ==>
      var before := old(carts.carts)[user];
      (FindIndex(before.items, foodId) == -1 ==> resp == Reply(404, ItemNotFound, None) && carts.carts == old(carts.carts)) &&
      (FindIndex(before.items, foodId) >= 0 ==>
        var after := Saved(c, before.(items := RemovedItems(before.items, foodId)));
        resp == Reply(200, "", Some(after)) && carts.carts == old(carts.carts)[user := after])
  {
    var found := carts.FindByUser(user);
    if found.None? {
      return Reply(404, CartNotFound, None);
    }
    var doc := new CartDoc.Load(found.value);
    var i := FindIndex(doc.items, foodId);
    if i == -1 {
      return Reply(404, ItemNotFound, None);
    }
    doc.Splice(i);
    var saved := carts.Save(doc, c);
    resp := Reply(200, "", Some(saved.value));
  }

  /** `clearCart`: the entries are emptied and the save hook zeroes the total. */
  method ClearCart(carts: CartStore, c: Catalog, user: string) returns (resp: Reply<Cart>)
    requires carts.Valid()
    modifies carts
    ensures carts.Valid()
    ensures user !in old(carts.carts) ==> resp == Reply(404, CartNotFound, None) && carts.carts == old(carts.carts)
    ensures user in old(carts.carts) ==>
      var after := old(carts.carts)[user].(items := [], totalAmount := 0.0);
      resp == Reply(200, "", Some(after)) && carts.carts == old(carts.carts)[user := after]
  {
    var found := carts.FindByUser(user);
    if found.None? {
      return Reply(404, CartNotFound, None);
    }
    var doc := new CartDoc.Load(found.value);
    doc.ClearItems();
    var saved := carts.Save(doc, c);
    resp := Reply(200, "", Some(saved.value));
  }

  /** `getCart`: the caller's cart, or a new empty one saved on the spot. */
  method GetCart(carts: CartStore, c: Catalog, user: string) returns (resp: Reply<Cart>)
    requires carts.Valid()
    modifies carts
    ensures carts.Valid()
    ensures user in old(carts.carts) ==> resp == Reply(200, "", Some(old(carts.carts)[user])) && carts.carts == old(carts.carts)
    ensures user !in old(carts.carts) && user == "" ==> resp == Reply(500, GetFailed, None) && carts.carts == old(carts.carts)
    ensures user !in old(carts.carts) && user != "" ==>
      resp == Reply(200, "", Some(Cart(user, [], 0.0))) && carts.carts == old(carts.carts)[user := Cart(user, [], 0.0)]
  {
    var found := carts.FindByUser(user);
    if found.Some? {
      return Reply(200, "", found);
    }
    var doc := new CartDoc.Create(user, []);
    var saved := carts.Save(doc, c);
    if saved.Err? {
      return Reply(500, GetFailed, None);
    }
    resp := Reply(200, "", Some(saved.value));
  }

  /** The object `getCartSummary` answers with. */
  datatype CartSummary = CartSummary(itemCount: int, totalAmount: real, items: seq<CartItem>)

  /** `getCartSummary`: zeros and no entries without a cart. */
  function GetCartSummary(carts: map<string, Cart>, user: string): (s: CartSummary)
    ensures user !in carts ==> s == CartSummary(0, 0.0, [])
    ensures user in carts ==>
      s.items == carts[user].items && s.totalAmount == carts[user].totalAmount && s.itemCount == ItemCount(carts[user].items)
  {
    if user !in carts then CartSummary(0, 0.0, [])
    else CartSummary(ItemCount(carts[user].items), carts[user].totalAmount, carts[user].items)
  }

  /** A stored cart's summary counts at least one unit per entry. */
  lemma SummaryCountsUnits(carts: map<string, Cart>, user: string)
    requires user in carts && ItemsConform(carts[user].items)
    ensures GetCartSummary(carts, user).itemCount >= |GetCartSummary(carts, user).items|
  {
  }
}
