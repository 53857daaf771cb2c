/** The food list the menu components fetch (frontend MenuGrid.jsx and FeaturedMenu.jsx): an item as
    the client reads it, and the extraction of the list from the shapes the response may take. */
module MenuData {
  import opened Common

  /** A food item as the client sees it. Absent text fields are "", an absent `isAvailable` is None. */
  datatype MenuFood = MenuFood(
    id: string,
    name: string,
    description: string,
    price: real,
    mainCategory: string,
    subCategory: string,
    category: string,
    kind: string,
    isAvailable: Option<bool>)

  /** `response.data`: an array, an object whose `foods` and `items` fields each may or may not be an
      array (None when not), or anything else (missing, null, a string, ...). */
  datatype Payload = List(entries: seq<MenuFood>) | Record(foods: Option<seq<MenuFood>>, items: Option<seq<MenuFood>>) | Other

  /** The places the components look for the list, in the order they look: `data`, `data.foods`,
      `data.items`. */
  function Candidates(data: Payload): (r: seq<Option<seq<MenuFood>>>)
    ensures |r| == 3
  {
    match data
    case List(entries) => [Some(entries), None, None]
    case Record(foods, items) => [None, foods, items]
    case Other => [None, None, None]
  }

  /** The first present list, else []. */
  function FirstList(cands: seq<Option<seq<MenuFood>>>): (r: seq<MenuFood>)
    ensures (forall k :: 0 <= k < |cands| ==> cands[k].None?) ==> r == []
    ensures forall k :: 0 <= k < |cands| && cands[k].Some? && (forall m :: 0 <= m < k ==> cands[m].None?) ==>
      r == cands[k].value
  {
    if cands == [] then []
    else if cands[0].Some? then cands[0].value
    else
      assert forall k :: 1 <= k < |cands| ==> cands[k] == cands[1..][k - 1];
      FirstList(cands[1..])
  }

  /** The extraction both components perform, branch by branch: the first array among `data`,
      `data.foods` and `data.items`, else []. */
  function FoodsFrom(data: Payload): (r: seq<MenuFood>)
    ensures r == FirstList(Candidates(data))
  {
    var c := Candidates(data);
    assert data.Record? && data.foods.None? && data.items.Some? ==> c[0].None? && c[1].None? && c[2].Some?;
    if data.List? then data.entries
    else if data.Record? && data.foods.Some? then data.foods.value
    else if data.Record? && data.items.Some? then data.items.value
    else []
  }
}
