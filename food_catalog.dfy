/** The food catalog as the backend reads it (backend/models/foodModel.js): `Food.findById` finds a
    document, finds nothing, or fails (a database or cast error). */
module FoodCatalog {
  import opened Common

  datatype Food = Food(
    id: string,
    name: string,
    description: string,
    price: real,
    mainCategory: string,
    subCategory: string,
    isAvailable: bool)

  datatype Lookup = Found(food: Food) | NotFound | LookupError

  /** The `foods` collection; ids in `unreachable` make `findById` throw. */
  datatype Catalog = Catalog(foods: map<string, Food>, unreachable: set<string>)

  function FindById(c: Catalog, id: string): (r: Lookup)
    ensures r.LookupError? <==> id in c.unreachable
    ensures r.NotFound? <==> id !in c.unreachable && id !in c.foods
    ensures r.Found? ==> id in c.foods && r.food == c.foods[id]
  {
    if id in c.unreachable then LookupError
    else if id in c.foods then Found(c.foods[id])
    else NotFound
  }

  /** `populate('items.food')`: the stored food, or null when it no longer exists. */
  function Populated(c: Catalog, id: string): (f: Option<Food>)
    ensures f.Some? <==> id in c.foods
    ensures f.Some? ==> f.value == c.foods[id]
  {
    if id in c.foods then Some(c.foods[id]) else None
  }
}
