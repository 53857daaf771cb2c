/** The order-total middleware (backend/middleware/calculateTotalAmount.js): it prices the request's
    items from the catalog, ignoring any prices or total the client sent, and writes the sum into the
    request body. */
module CalculateTotalAmount {
  import opened Common
  import opened FoodCatalog

  /** An item of the request body as the middleware reads it: a food id and a quantity. */
  datatype RequestItem = RequestItem(food: string, quantity: real, clientPrice: Option<real>)

  /** The parts of the request body the model keeps apart: the items, the total, and everything else. */
  datatype OrderBody = OrderBody(items: seq<RequestItem>, totalAmount: Option<real>, rest: map<string, string>)

  /** What the middleware does with the request: passes it on with its body, answers it, or hands a
      thrown error to the error handler. */
  datatype Outcome = Next(body: OrderBody) | Respond(code: int, message: string) | Forward

  /** Σ catalog price × quantity over the items, all of whose foods exist. */
  function CatalogTotal(c: Catalog, items: seq<RequestItem>): real
    requires forall k :: 0 <= k < |items| ==> items[k].food in c.foods
  {
    if items == [] then 0.0
    else CatalogTotal(c, items[..|items| - 1]) + c.foods[items[|items| - 1].food].price * items[|items| - 1].quantity
  }

  /** The position of the first item whose lookup does not find a food, or |items|. */
  function FirstUnpriced(c: Catalog, items: seq<RequestItem>): (i: int)
    ensures 0 <= i <= |items|
    ensures forall k :: 0 <= k < i ==> FindById(c, items[k].food).Found?
    ensures i < |items| ==> !FindById(c, items[i].food).Found?
  {
    if items == [] then 0
    else if !FindById(c, items[0].food).Found? then 0
    else 1 + FirstUnpriced(c, items[1..])
  }

  const ItemsRequired: string := "Items are required"

  /** `calculateTotalAmount`. The items are looked up in order; the first one that is missing is
      answered with 404 and a failing lookup is forwarded, in both cases without a total; otherwise the
      body goes on with `totalAmount` replaced by the catalog total and nothing else changed. */
  method CalculateTotal(c: Catalog, body: OrderBody) returns (r: Outcome)
    ensures body.items == [] ==> r == Respond(400, ItemsRequired)
    ensures body.items != [] ==>
      var i := FirstUnpriced(c, body.items);
      (i < |body.items| && FindById(c, body.items[i].food).NotFound? ==>
        r == Respond(404, "Food item not found: " + body.items[i].food)) &&
      (i < |body.items| && FindById(c, body.items[i].food).LookupError? ==> r.Forward?) &&
      (i == |body.items| ==> r == Next(body.(totalAmount := Some(CatalogTotal(c, body.items)))))
  {
    var items := body.items;
    if items == [] {
      return Respond(400, ItemsRequired);
    }
    var total := 0.0;
    var i := 0;
    while i < |items|
      invariant 0 <= i <= |items|
      invariant forall k :: 0 <= k < i ==> FindById(c, items[k].food).Found?
      invariant total == CatalogTotal(c, items[..i])
    {
      match FindById(c, items[i].food) {
        case NotFound =>
          FirstUnpricedAt(c, items, i);
          return Respond(404, "Food item not found: " + items[i].food);
        case LookupError =>
          FirstUnpricedAt(c, items, i);
          return Forward;
        case Found(food) =>
          assert items[..i + 1][..i] == items[..i];
          total := total + food.price * items[i].quantity;
          i := i + 1;
      }
    }
    assert items[..i] == items;
    FirstUnpricedAt(c, items, i);
    r := Next(body.(totalAmount := Some(total)));
  }

  /** When every item before `i` is priced and item `i` is not (or `i` is the end), `i` is the first
      unpriced position. */
  lemma {:induction false} FirstUnpricedAt(c: Catalog, items: seq<RequestItem>, i: int)
    requires 0 <= i <= |items|
    requires forall k :: 0 <= k < i ==> FindById(c, items[k].food).Found?
    requires i < |items| ==> !FindById(c, items[i].food).Found?
    ensures FirstUnpriced(c, items) == i
    decreases i
  {
    if i > 0 {
      FirstUnpricedAt(c, items[1..], i - 1);
    }
  }

  /** The total depends only on the catalog and the quantities: whatever prices the client sent, two
      requests with the same foods and quantities get the same total. */
  lemma {:induction false} ClientPricesIgnored(c: Catalog, a: seq<RequestItem>, b: seq<RequestItem>)
    requires |a| == |b|
    requires forall k :: 0 <= k < |a| ==> a[k].food == b[k].food && a[k].quantity == b[k].quantity && a[k].food in c.foods
    ensures CatalogTotal(c, a) == CatalogTotal(c, b)
    decreases |a|
  {
    if a != [] {
      ClientPricesIgnored(c, a[..|a| - 1], b[..|b| - 1]);
    }
  }
}
