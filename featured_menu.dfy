/** The home page's featured dishes (frontend FeaturedMenu.jsx): the fetched list, narrowed to the items
    not marked unavailable, cut to its first six. */
module FeaturedMenu {
  import opened Common
  import opened MenuData
  import MenuGrid

  const FeaturedCount: nat := 6

  /** `food.isAvailable !== false`: an item without the field counts as available. */
  predicate Shown(f: MenuFood)
  {
    f.isAvailable != Some(false)
  }

  /** `slice(0, n)`. */
  function Prefix(s: seq<MenuFood>, n: nat): (r: seq<MenuFood>)
    ensures |r| == if |s| <= n then |s| else n
    ensures r <= s
  {
    if |s| <= n then s else s[..n]
  }

  /** `allFoods.filter(food => food.isAvailable !== false).slice(0, 6)`. */
  function Featured(foods: seq<MenuFood>): (r: seq<MenuFood>)
    ensures |r| <= FeaturedCount
    ensures forall k :: 0 <= k < |r| ==> Shown(r[k]) && r[k] in foods
  {
    var shown := MenuGrid.Where(foods, Shown);
    var r := Prefix(shown, FeaturedCount);
    assert forall k :: 0 <= k < |r| ==> r[k] in shown;
    r
  }

  /** The reference reading: walk the list once, taking available items until n are taken. */
  function TakeShown(foods: seq<MenuFood>, n: nat): seq<MenuFood>
  {
    if foods == [] || n == 0 then []
    else if Shown(foods[0]) then [foods[0]] + TakeShown(foods[1..], n - 1)
    else TakeShown(foods[1..], n)
  }

  /** Filtering and then cutting to n gives the first n available items in list order. */
  lemma PrefixOfShown(foods: seq<MenuFood>, n: nat)
    ensures Prefix(MenuGrid.Where(foods, Shown), n) == TakeShown(foods, n)
  {
    WhereIsAvailable(foods);
    PrefixOfAvailable(foods, n);
  }

  /** The available items in list order, walked the same way as `TakeShown`. */
  function Available(foods: seq<MenuFood>): seq<MenuFood>
  {
    if foods == [] then []
    else if Shown(foods[0]) then [foods[0]] + Available(foods[1..])
    else Available(foods[1..])
  }

  lemma {:induction false} WhereIsAvailable(foods: seq<MenuFood>)
    ensures MenuGrid.Where(foods, Shown) == Available(foods)
    decreases |foods|
  {
    if foods != [] {
      WhereIsAvailable(foods[1..]);
    }
  }

  lemma {:induction false} PrefixOfAvailable(foods: seq<MenuFood>, n: nat)
    ensures Prefix(Available(foods), n) == TakeShown(foods, n)
    decreases |foods|
  {
    if foods == [] {
    } else if n == 0 {
      assert Prefix(Available(foods), 0) == [];
    } else if Shown(foods[0]) {
      PrefixOfAvailable(foods[1..], n - 1);
      PrefixCons(foods[0], Available(foods[1..]), n);
    } else {
      PrefixOfAvailable(foods[1..], n);
    }
  }

  lemma PrefixCons(x: MenuFood, rest: seq<MenuFood>, n: nat)
    requires n > 0
    ensures Prefix([x] + rest, n) == [x] + Prefix(rest, n - 1)
  {
    if |rest| > n - 1 {
      assert ([x] + rest)[..n] == [x] + rest[..n - 1];
    }
  }

  /** The featured list is exactly the first min(6, k) available items, in the fetched order. */
  lemma FeaturedAreFirstAvailable(foods: seq<MenuFood>)
    ensures Featured(foods) == TakeShown(foods, FeaturedCount)
  {
    PrefixOfShown(foods, FeaturedCount);
  }

  /** `fetchFeaturedFoods`: the featured part of whatever list the response holds; when the request
      fails, the built-in sample list instead, shown as it is. */
  function FeaturedFoods(response: Option<Payload>, sample: seq<MenuFood>): (r: seq<MenuFood>)
    ensures response.Some? ==> r == TakeShown(FirstList(Candidates(response.value)), FeaturedCount)
    ensures response.None? ==> r == sample
  {
    match response
    case None => sample
    case Some(data) =>
      FeaturedAreFirstAvailable(FoodsFrom(data));
      Featured(FoodsFrom(data))
  }
}
