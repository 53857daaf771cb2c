/** The cart middleware (backend/middleware/cartValidation.js): decision chains that either answer the
    request themselves or pass it on to the next handler. Quantities are JSON numbers, None when the
    field is absent. */
module CartValidation {
  import opened Common
  import opened FoodCatalog
  import opened CartModel
  import CartController

  /** A middleware's decision: pass the request on (with the food it attached, if any), or answer it. */
  datatype Gate = Next(food: Option<Food>) | Respond(code: int, message: string)

  const MaxItems: int := 50
  const MaxQuantityPerItem: int := 20

  /** `Number.isInteger`. */
  predicate IsInteger(x: real)
  {
    x.Floor as real == x
  }

  /** `!quantity`: absent or zero. */
  predicate Falsy(q: Option<real>)
  {
    q.None? || q.value == 0.0
  }

  /** `validateCartItem`. */
  function ValidateCartItem(c: Catalog, foodId: string, quantity: Option<real>): (g: Gate)
    ensures foodId == "" || Falsy(quantity) ==> g == Respond(400, "Food ID and quantity are required")
    ensures g.Next? <==>
      foodId != "" && quantity.Some? && quantity.value >= 1.0 && IsInteger(quantity.value) &&
      foodId in c.foods && foodId !in c.unreachable && c.foods[foodId].isAvailable
    ensures g.Next? ==> g.food == Some(c.foods[foodId])
    ensures g.Respond? && g.code == 404 <==>
      foodId != "" && !Falsy(quantity) && quantity.value >= 1.0 && IsInteger(quantity.value) && FindById(c, foodId).NotFound?
  {
    if foodId == "" || Falsy(quantity) then Respond(400, "Food ID and quantity are required")
    else if quantity.value < 1.0 || !IsInteger(quantity.value) then Respond(400, "Quantity must be a positive integer")
    else match FindById(c, foodId)
      case LookupError => Respond(500, "Error validating cart item")
      case NotFound => Respond(404, "Food item not found")
      case Found(food) =>
        if !food.isAvailable then Respond(400, "This food item is currently unavailable") else Next(Some(food))
  }

  /** `validateCartOperation`. */
  function ValidateCartOperation(c: Catalog, foodId: string): (g: Gate)
    ensures foodId == "" ==> g == Respond(400, "Food ID is required")
    ensures g.Next? <==> foodId != "" && FindById(c, foodId).Found?
    ensures g.Next? ==> g.food == Some(c.foods[foodId])
    ensures foodId != "" && FindById(c, foodId).NotFound? ==> g == Respond(404, "Food item not found")
  {
    if foodId == "" then Respond(400, "Food ID is required")
    else match FindById(c, foodId)
      case LookupError => Respond(500, "Error validating cart operation")
      case NotFound => Respond(404, "Food item not found")
      case Found(food) => Next(Some(food))
  }

  const CartLimitsError: string := "Error checking cart limits"

  /** `checkCartLimits`. An absent quantity compares false with everything (`undefined > 20`, and the sum
      with it is NaN), so it passes both checks. `lookupFails`: `Cart.findOne` throws, and the catch
      answers 500. */
  function CheckCartLimits(carts: map<string, Cart>, user: string, quantity: Option<real>, lookupFails: bool): (g: Gate)
    ensures g.Respond? ==> g.code == 400 || g == Respond(500, CartLimitsError)
    ensures g == Respond(500, CartLimitsError) <==>
      lookupFails && (quantity.None? || quantity.value <= MaxQuantityPerItem as real)
    ensures g.Next? <==>
      !lookupFails &&
      (quantity.None? ||
       (quantity.value <= MaxQuantityPerItem as real &&
        (user in carts ==> ItemCount(carts[user].items) as real + quantity.value <= MaxItems as real)))
    ensures g.Next? ==> g.food == None
  {
    if quantity.Some? && quantity.value > MaxQuantityPerItem as real then Respond(400, "Maximum quantity per item is 20")
    else if lookupFails then Respond(500, CartLimitsError)
    else if user in carts && quantity.Some? && ItemCount(carts[user].items) as real + quantity.value > MaxItems as real then
      Respond(400, "Cart cannot exceed 50 total items")
    else Next(None)
  }

  /** A request without a quantity passes the limits whatever the cart holds, once the cart is read. */
  lemma AbsentQuantityPassesLimits(carts: map<string, Cart>, user: string)
    ensures CheckCartLimits(carts, user, None, false) == Next(None)
  {
  }

  /** Without a cart only the per-item limit applies. */
  lemma NoCartOnlyItemLimit(carts: map<string, Cart>, user: string, q: real)
    requires user !in carts
    ensures CheckCartLimits(carts, user, Some(q), false).Next? <==> q <= 20.0
  {
  }

  /** Adding a quantity that passed the limits to an existing cart leaves it within 50 units, and the
      added entry within 20 units when the food was not in the cart yet. */
  lemma LimitsBoundAddedCart(carts: map<string, Cart>, user: string, foodId: string, q: int)
    requires user in carts && CheckCartLimits(carts, user, Some(q as real), false).Next?
    ensures ItemCount(CartController.AddedItems(carts[user].items, foodId, q)) <= MaxItems
    ensures FindIndex(carts[user].items, foodId) == -1 ==> q <= MaxQuantityPerItem
  {
    CartController.AddedItemsCount(carts[user].items, foodId, q);
  }
}
