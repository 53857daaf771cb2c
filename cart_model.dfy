/** The per-user cart (backend/models/cartModel.js): its schema constraints, the `itemCount` virtual,
    the pre-save hook that recomputes `totalAmount` from catalog prices, and the `carts` collection
    with its one-cart-per-user index. */
module CartModel {
  import opened Common
  import opened FoodCatalog

  datatype CartItem = CartItem(food: string, quantity: int)

  datatype Cart = Cart(user: string, items: seq<CartItem>, totalAmount: real)

  predicate ItemsConform(items: seq<CartItem>)
  {
    forall k :: 0 <= k < |items| ==> items[k].food != "" && items[k].quantity >= 1
  }

  /** What the cart schema's validators accept: a user, and items that name a food with quantity at least 1. */
  predicate Conforms(c: Cart)
  {
    c.user != "" && ItemsConform(c.items)
  }

  /** At most one entry per food: kept by the cart controller, not by the schema. */
  predicate UniqueFoods(items: seq<CartItem>)
  {
    forall i, j :: 0 <= i < j < |items| ==> items[i].food != items[j].food
  }

  /** `items.findIndex(item => item.food.toString() === foodId)`. */
  function FindIndex(items: seq<CartItem>, foodId: string): (i: int)
    ensures -1 <= i < |items|
    ensures i >= 0 ==> items[i].food == foodId && forall k :: 0 <= k < i ==> items[k].food != foodId
    ensures i == -1 <==> forall k :: 0 <= k < |items| ==> items[k].food != foodId
  {
    if items == [] then -1
    else if items[0].food == foodId then 0
    else
      var j := FindIndex(items[1..], foodId);
      if j == -1 then -1 else j + 1
  }

  /** The `itemCount` virtual: the sum of the quantities. Each entry holds at least one unit, so a
      conforming cart holds at least as many units as entries. */
  function ItemCount(items: seq<CartItem>): (n: int)
    ensures ItemsConform(items) ==> n >= |items|
  {
    if items == [] then 0 else ItemCount(items[..|items| - 1]) + items[|items| - 1].quantity
  }

  lemma {:induction false} ItemCountAppend(a: seq<CartItem>, b: seq<CartItem>)
    ensures ItemCount(a + b) == ItemCount(a) + ItemCount(b)
    decreases |b|
  {
    if b == [] {
      assert a + b == a;
    } else {
      ItemCountAppend(a, b[..|b| - 1]);
      assert (a + b)[..|a + b| - 1] == a + b[..|b| - 1];
    }
  }

  /** The amount one entry contributes: price × quantity when its food exists, nothing otherwise. */
  function LineAmount(c: Catalog, item: CartItem): real
  {
    if item.food in c.foods then c.foods[item.food].price * item.quantity as real else 0.0
  }

  /** Σ price × quantity over the entries whose food exists; entries whose food is gone add nothing. */
  function PricedTotal(c: Catalog, items: seq<CartItem>): (t: real)
    ensures (forall k :: 0 <= k < |items| ==> items[k].food !in c.foods) ==> t == 0.0
  {
    if items == [] then 0.0 else PricedTotal(c, items[..|items| - 1]) + LineAmount(c, items[|items| - 1])
  }

  lemma {:induction false} PricedTotalAppend(c: Catalog, a: seq<CartItem>, b: seq<CartItem>)
    ensures PricedTotal(c, a + b) == PricedTotal(c, a) + PricedTotal(c, b)
    decreases |b|
  {
    if b == [] {
      assert a + b == a;
    } else {
      PricedTotalAppend(c, a, b[..|b| - 1]);
      assert (a + b)[..|a + b| - 1] == a + b[..|b| - 1];
    }
  }

  /** The total does not depend on the order of the entries: swapping two neighbours keeps it. */
  lemma PricedTotalSwap(c: Catalog, a: seq<CartItem>, x: CartItem, y: CartItem, b: seq<CartItem>)
    ensures PricedTotal(c, a + [x, y] + b) == PricedTotal(c, a + [y, x] + b)
  {
    PricedTotalAppend(c, a + [x, y], b);
    PricedTotalAppend(c, a + [y, x], b);
    PricedTotalAppend(c, a, [x, y]);
    PricedTotalAppend(c, a, [y, x]);
    assert [x, y][..1] == [x];
    assert [y, x][..1] == [y];
  }

  /** Some entry's food lookup fails. */
  predicate LookupFails(c: Catalog, items: seq<CartItem>)
  {
    exists k :: 0 <= k < |items| && items[k].food in c.unreachable
  }

  /** The `totalAmount` the pre-save hook leaves: 0 for an empty cart; the previous value when a lookup
      throws (the hook's catch swallows the error); the priced total otherwise. */
  function SavedTotal(c: Catalog, cart: Cart): (t: real)
    ensures !LookupFails(c, cart.items) ==> t == PricedTotal(c, cart.items)
    ensures LookupFails(c, cart.items) ==> t == cart.totalAmount
  {
    if cart.items == [] then 0.0
    else if LookupFails(c, cart.items) then cart.totalAmount
    else PricedTotal(c, cart.items)
  }

  /** A cart document: loaded from or about to be inserted into the collection. */
  class CartDoc {
    var user: string
    var items: seq<CartItem>
    var totalAmount: real
    var isNew: bool

    constructor Load(c: Cart)
      ensures user == c.user && items == c.items && totalAmount == c.totalAmount && !isNew
    {
      user, items, totalAmount, isNew := c.user, c.items, c.totalAmount, false;
    }

    /** `new Cart({user, items})`: `totalAmount` takes its default 0. */
    constructor Create(u: string, initial: seq<CartItem>)
      ensures user == u && items == initial && totalAmount == 0.0 && isNew
    {
      user, items, totalAmount, isNew := u, initial, 0.0, true;
    }

    function Data(): Cart
      reads this
    {
      Cart(user, items, totalAmount)
    }

    /** `items[i].quantity += q`. */
    method AddQuantity(i: int, q: int)
      requires 0 <= i < |items|
      modifies this`items
      ensures items == old(items)[i := old(items)[i].(quantity := old(items)[i].quantity + q)]
    {
      items := items[i := items[i].(quantity := items[i].quantity + q)];
    }

    /** `items[i].quantity = q`. */
    method SetQuantity(i: int, q: int)
      requires 0 <= i < |items|
      modifies this`items
      ensures items == old(items)[i := old(items)[i].(quantity := q)]
    {
      items := items[i := items[i].(quantity := q)];
    }

    /** `items.push(item)`. */
    method Push(item: CartItem)
      modifies this`items
      ensures items == old(items) + [item]
    {
      items := items + [item];
    }

    /** `items.splice(i, 1)`. */
    method Splice(i: int)
      requires 0 <= i < |items|
      modifies this`items
      ensures items == old(items)[..i] + old(items)[i + 1..]
    {
      items := items[..i] + items[i + 1..];
    }

    /** `items = []`. */
    method ClearItems()
      modifies this`items
      ensures items == []
    {
      items := [];
    }

    method SetTotalAmount(t: real)
      modifies this`totalAmount
      ensures totalAmount == t
    {
      totalAmount := t;
    }

    /** The pre-save hook: look every entry's food up in turn, summing price × quantity over those that
        exist; a lookup that throws abandons the sum and keeps the previous total. */
    method PreSave(c: Catalog)
      modifies this`totalAmount
      ensures totalAmount == SavedTotal(c, old(Data()))
    {
      if |items| > 0 {
        var total := 0.0;
        var i := 0;
        var failed := false;
        while i < |items| && !failed
          invariant 0 <= i <= |items|
          invariant !failed ==> total == PricedTotal(c, items[..i]) && !LookupFails(c, items[..i])
          invariant failed ==> LookupFails(c, items)
          decreases |items| - i, if failed then 0 else 1
        {
          match FindById(c, items[i].food)
          case LookupError =>
            failed := true;
          case NotFound =>
            assert items[..i + 1][..i] == items[..i];
            i := i + 1;
          case Found(food) =>
            assert items[..i + 1][..i] == items[..i];
            total := total + food.price * items[i].quantity as real;
            i := i + 1;
        }
        if !failed {
          assert items[..i] == items;
          totalAmount := total;
        }
      } else {
        totalAmount := 0.0;
      }
    }
  }

  const CartValidationFailed: string := "Cart validation failed"
  const DuplicateCart: string := "E11000 duplicate key error: user"

  /** The `carts` collection, keyed by user: the unique index on `user` allows one cart per user. */
  class CartStore {
    var carts: map<string, Cart>

    ghost predicate Valid()
      reads this
    {
      forall u :: u in carts ==> carts[u].user == u && Conforms(carts[u])
    }

    constructor ()
      ensures carts == map[] && Valid()
    {
      carts := map[];
    }

    /** `Cart.findOne({ user })`. */
    function FindByUser(u: string): (r: Option<Cart>)
      reads this
      requires Valid()
      ensures r.Some? <==> u in carts
      ensures r.Some? ==> r.value.user == u && Conforms(r.value)
    {
      if u in carts then Some(carts[u]) else None
    }

    /** `cart.save()`: validation, the unique index on insert, then the pre-save hook and the write. */
    method Save(doc: CartDoc, c: Catalog) returns (r: Result<Cart>)
      requires Valid()
      modifies this, doc
      ensures Valid()
      ensures doc.user == old(doc.user) && doc.items == old(doc.items)
      ensures !Conforms(old(doc.Data())) ==>
        r == Err(CartValidationFailed) && carts == old(carts) && doc.totalAmount == old(doc.totalAmount)
      ensures Conforms(old(doc.Data())) && old(doc.isNew) && old(doc.user) in old(carts) ==>
        r == Err(DuplicateCart) && carts == old(carts) && doc.totalAmount == old(doc.totalAmount)
      ensures Conforms(old(doc.Data())) && !(old(doc.isNew) && old(doc.user) in old(carts)) ==>
        var saved := old(doc.Data()).(totalAmount := SavedTotal(c, old(doc.Data())));
        r == Ok(saved) && doc.Data() == saved && !doc.isNew && carts == old(carts)[saved.user := saved]
    {
      if !Conforms(doc.Data()) {
        return Err(CartValidationFailed);
      }
      if doc.isNew && doc.user in carts {
        return Err(DuplicateCart);
      }
      doc.PreSave(c);
      doc.isNew := false;
      carts := carts[doc.user := doc.Data()];
      r := Ok(doc.Data());
    }
  }
}
