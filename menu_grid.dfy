/** The menu page's filter and sort pipeline (frontend MenuGrid.jsx): `applyFilters` narrows a copy of
    the fetched list by category, search text, diet and price range, then sorts it in place by name,
    price or category. */
module MenuGrid {
  import opened Common
  import opened MenuData

  /** The filter controls' state. */
  datatype Filters = Filters(category: string, search: string, sortBy: string, sortOrder: string, priceRange: string, veg: string)

  /** `clearFilters`: every control back to its initial value. */
  const Cleared: Filters := Filters("all", "", "name", "asc", "all", "all")

  /** `food.subCategory || food.category || food.type`. */
  function CategoryOf(f: MenuFood): string
  {
    OrElse(f.subCategory, OrElse(f.category, f.kind))
  }

  /** `food.mainCategory || food.category || food.type`. */
  function DietOf(f: MenuFood): string
  {
    OrElse(f.mainCategory, OrElse(f.category, f.kind))
  }

  /** The category filter: 'all' keeps everything, otherwise the item's category must be present and
      equal the selection ignoring case. */
  predicate CategoryKeeps(f: MenuFood, selected: string)
    ensures selected == "all" ==> CategoryKeeps(f, selected)
    ensures CategoryKeeps(f, selected) && selected != "all" ==> |CategoryOf(f)| == |selected| > 0
  {
    selected == "all" || (CategoryOf(f) != "" && ToLower(CategoryOf(f)) == ToLower(selected))
  }

  /** The search filter: an empty query keeps everything, otherwise the name or the description must
      contain the query ignoring case. */
  predicate SearchKeeps(f: MenuFood, query: string)
    ensures query == "" ==> SearchKeeps(f, query)
    ensures SearchKeeps(f, query) && query != "" ==> |query| <= |f.name| || |query| <= |f.description|
  {
    query == "" || Contains(ToLower(f.name), ToLower(query)) ||
    (f.description != "" && Contains(ToLower(f.description), ToLower(query)))
  }

  /** The diet filter, like the category filter on `mainCategory`. */
  predicate VegKeeps(f: MenuFood, selected: string)
    ensures selected == "all" ==> VegKeeps(f, selected)
    ensures VegKeeps(f, selected) && selected != "all" ==> |DietOf(f)| == |selected| > 0
  {
    selected == "all" || (DietOf(f) != "" && ToLower(DietOf(f)) == ToLower(selected))
  }

  /** `priceRange.split('-').map(Number)`: the bounds, None standing for NaN (and for a missing part). */
  function PriceBounds(range: string): (b: (Option<int>, Option<int>))
    ensures b.0.Some? ==> b.0.value >= 0
    ensures b.1.Some? ==> b.1.value >= 0
    ensures '-' !in range ==> b == (ParseNumber(range), None)
  {
    var parts := Split(range, '-');
    assert '-' !in range ==> parts == [range] by {
      if '-' !in range {
        SplitWithoutSeparator(range, '-');
      }
    }
    (ParseNumber(parts[0]), if |parts| > 1 then ParseNumber(parts[1]) else None)
  }

  /** The price filter: 'all' keeps everything; a non-zero upper bound keeps min ≤ price ≤ max; a zero or
      missing upper bound keeps price ≥ min; a NaN lower bound keeps nothing. */
  predicate PriceKeeps(f: MenuFood, range: string)
    ensures range == "all" ==> PriceKeeps(f, range)
    ensures PriceKeeps(f, range) && range != "all" ==>
      PriceBounds(range).0.Some? && f.price >= PriceBounds(range).0.value as real
  {
    range == "all" ||
    var (lo, hi) := PriceBounds(range);
    if hi.Some? && hi.value != 0 then lo.Some? && lo.value as real <= f.price <= hi.value as real
    else lo.Some? && f.price >= lo.value as real
  }

  /** All four filters. */
  predicate Keeps(f: MenuFood, s: Filters)
  {
    CategoryKeeps(f, s.category) && SearchKeeps(f, s.search) && VegKeeps(f, s.veg) && PriceKeeps(f, s.priceRange)
  }

  /** `xs.filter(p)`. */
  function Where(xs: seq<MenuFood>, p: MenuFood -> bool): (r: seq<MenuFood>)
    ensures forall x :: multiset(r)[x] == if p(x) then multiset(xs)[x] else 0
    ensures forall x :: x in r <==> x in xs && p(x)
  {
    if xs == [] then []
    else
      var rest := Where(xs[1..], p);
      assert xs == [xs[0]] + xs[1..];
      assert forall x :: multiset(xs)[x] == multiset([xs[0]])[x] + multiset(xs[1..])[x];
      if p(xs[0]) then [xs[0]] + rest else rest
  }

  /** A sort key: a lower-cased text or a price. */
  datatype Key = Text(s: string) | Num(x: real)

  /** `aValue > bValue` is false on two texts: code-point order, a prefix first. */
  predicate LexLe(s: string, t: string)
  {
    s == [] || (t != [] && (s[0] < t[0] || (s[0] == t[0] && LexLe(s[1..], t[1..]))))
  }

  lemma {:induction false} LexLeTotal(s: string, t: string)
    ensures LexLe(s, t) || LexLe(t, s)
    decreases |s|
  {
    if s != [] && t != [] && s[0] == t[0] {
      LexLeTotal(s[1..], t[1..]);
    }
  }

  lemma {:induction false} LexLeTransitive(s: string, t: string, u: string)
    requires LexLe(s, t) && LexLe(t, u)
    ensures LexLe(s, u)
    decreases |s|
  {
    if s != [] && t != [] && u != [] && s[0] == t[0] && t[0] == u[0] {
      LexLeTransitive(s[1..], t[1..], u[1..]);
    }
  }

  /** `!(aValue > bValue)`. Keys of one sort all have the same kind; prices go first should they mix. */
  predicate KeyLe(a: Key, b: Key)
  {
    match (a, b)
    case (Num(x), Num(y)) => x <= y
    case (Text(s), Text(t)) => LexLe(s, t)
    case (Num(_), Text(_)) => true
    case (Text(_), Num(_)) => false
  }

  /** The comparator's key: the price for 'price', the lower-cased category for 'category', and the
      lower-cased name for 'name' and every other value. */
  function SortKey(f: MenuFood, sortBy: string): (k: Key)
    ensures k.Num? <==> sortBy == "price"
    ensures k.Num? ==> k.x == f.price
    ensures k.Text? ==> forall i :: 0 <= i < |k.s| ==> !('A' <= k.s[i] <= 'Z')
  {
    if sortBy == "price" then Num(f.price)
    else if sortBy == "category" then Text(ToLower(CategoryOf(f)))
    else Text(ToLower(f.name))
  }

  /** `x` may come before `y`: its key is not greater in ascending order, not smaller in descending. */
  predicate Before(x: MenuFood, y: MenuFood, sortBy: string, asc: bool)
  {
    if asc then KeyLe(SortKey(x, sortBy), SortKey(y, sortBy)) else KeyLe(SortKey(y, sortBy), SortKey(x, sortBy))
  }

  lemma BeforeTotal(x: MenuFood, y: MenuFood, sortBy: string, asc: bool)
    ensures Before(x, y, sortBy, asc) || Before(y, x, sortBy, asc)
  {
    var kx, ky := SortKey(x, sortBy), SortKey(y, sortBy);
    if kx.Text? && ky.Text? {
      LexLeTotal(kx.s, ky.s);
    }
  }

  lemma BeforeTransitive(x: MenuFood, y: MenuFood, z: MenuFood, sortBy: string, asc: bool)
    requires Before(x, y, sortBy, asc) && Before(y, z, sortBy, asc)
    ensures Before(x, z, sortBy, asc)
  {
    var kx, ky, kz := SortKey(x, sortBy), SortKey(y, sortBy), SortKey(z, sortBy);
    if kx.Text? && ky.Text? && kz.Text? {
      if asc {
        LexLeTransitive(kx.s, ky.s, kz.s);
      } else {
        LexLeTransitive(kz.s, ky.s, kx.s);
      }
    }
  }

  /** A comparator under which any two elements compare one way or the other. */
  ghost predicate Total<T(!new)>(le: (T, T) -> bool)
  {
    forall x, y :: le(x, y) || le(y, x)
  }

  /** A comparator whose order chains. */
  ghost predicate Transitive<T(!new)>(le: (T, T) -> bool)
  {
    forall x, y, z :: le(x, y) && le(y, z) ==> le(x, z)
  }

  /** No element is followed by one it must come after. */
  predicate SortedBy<T>(r: seq<T>, le: (T, T) -> bool)
  {
    forall i, j :: 0 <= i < j < |r| ==> le(r[i], r[j])
  }

  /** `Array.prototype.sort` with a comparator, in place. The model inserts each element after the
      elements before it that it need not precede. */
  method Sort<T(!new)>(a: array<T>, le: (T, T) -> bool)
    requires Total(le) && Transitive(le)
    modifies a
    ensures multiset(a[..]) == multiset(old(a[..]))
    ensures SortedBy(a[..], le)
  {
    var i := 0;
    while i < a.Length
      invariant 0 <= i <= a.Length
      invariant multiset(a[..]) == multiset(old(a[..]))
      invariant forall p, q :: 0 <= p < q < i ==> le(a[p], a[q])
    {
      InsertAt(a, i, le);
      i := i + 1;
    }
  }

  /** One insertion step: `a[i]` moves left past the elements that must come after it, so that the first
      i + 1 elements are in order. */
  method InsertAt<T(!new)>(a: array<T>, i: int, le: (T, T) -> bool)
    requires Total(le) && Transitive(le)
    requires 0 <= i < a.Length
    requires forall p, q :: 0 <= p < q < i ==> le(a[p], a[q])
    modifies a
    ensures multiset(a[..]) == multiset(old(a[..]))
    ensures forall p, q :: 0 <= p < q <= i ==> le(a[p], a[q])
  {
    var j := i;
    while j > 0 && !le(a[j - 1], a[j])
      invariant 0 <= j <= i
      invariant multiset(a[..]) == multiset(old(a[..]))
      invariant Moving(a[..], i, j, le)
    {
      ghost var b := a[..];
      a[j - 1], a[j] := a[j], a[j - 1];
      SwapStep(b, a[..], i, j, le);
      j := j - 1;
    }
    InsertDone(a[..], i, j, le);
  }

  /** The insertion step's invariant: apart from the moving element at j, the first i + 1 elements are
      in order, and the moving element may precede everything to its right. */
  predicate Moving<T>(c: seq<T>, i: int, j: int, le: (T, T) -> bool)
    requires 0 <= j <= i < |c|
  {
    (forall p, q :: 0 <= p < q <= i && p != j && q != j ==> le(c[p], c[q])) &&
    (forall q :: j < q <= i ==> le(c[j], c[q]))
  }

  /** Swapping the moving element with its left neighbour, which must come after it, keeps the
      insertion step's invariants one place to the left. */
  lemma SwapStep<T(!new)>(b: seq<T>, c: seq<T>, i: int, j: int, le: (T, T) -> bool)
    requires Total(le)
    requires 0 < j <= i < |b| && !le(b[j - 1], b[j])
    requires Moving(b, i, j, le)
    requires c == b[j - 1 := b[j]][j := b[j - 1]]
    ensures multiset(c) == multiset(b)
    ensures Moving(c, i, j - 1, le)
  {
    assert le(b[j], b[j - 1]);
    forall p, q | 0 <= p < q <= i && p != j - 1 && q != j - 1
      ensures le(c[p], c[q])
    {
      if p == j {
        assert c[p] == b[j - 1] && c[q] == b[q];
      } else if q == j {
        assert c[p] == b[p] && c[q] == b[j - 1];
      } else {
        assert c[p] == b[p] && c[q] == b[q];
      }
    }
  }

  /** When the moving element stops, the first i + 1 elements are in order. */
  lemma InsertDone<T(!new)>(c: seq<T>, i: int, j: int, le: (T, T) -> bool)
    requires Transitive(le)
    requires 0 <= j <= i < |c| && (j == 0 || le(c[j - 1], c[j]))
    requires Moving(c, i, j, le)
    ensures forall p, q :: 0 <= p < q <= i ==> le(c[p], c[q])
  {
    forall p, q | 0 <= p < q <= i
      ensures le(c[p], c[q])
    {
      if q == j && p < j - 1 {
        assert le(c[p], c[j - 1]);
      }
    }
  }

  /** Sorted for the menu's comparator. */
  predicate Ordered(r: seq<MenuFood>, sortBy: string, asc: bool)
  {
    forall i, j :: 0 <= i < j < |r| ==> Before(r[i], r[j], sortBy, asc)
  }

  /** The menu's comparator orders consistently, whatever the sort field and direction. */
  lemma BeforeOrdersConsistently(sortBy: string, asc: bool)
    ensures Total((x, y) => Before(x, y, sortBy, asc))
    ensures Transitive((x, y) => Before(x, y, sortBy, asc))
  {
    forall x, y
      ensures Before(x, y, sortBy, asc) || Before(y, x, sortBy, asc)
    {
      BeforeTotal(x, y, sortBy, asc);
    }
    forall x, y, z | Before(x, y, sortBy, asc) && Before(y, z, sortBy, asc)
      ensures Before(x, z, sortBy, asc)
    {
      BeforeTransitive(x, y, z, sortBy, asc);
    }
  }

  /** The filtering half of `applyFilters`: each filter whose control is set narrows the copy in turn,
      so an item stays, as often as it was fetched, exactly when every filter keeps it. */
  method Narrow(foods: seq<MenuFood>, s: Filters) returns (filtered: seq<MenuFood>)
    ensures forall x :: multiset(filtered)[x] == if Keeps(x, s) then multiset(foods)[x] else 0
  {
    filtered := foods;
    if s.category != "all" {
      filtered := Where(filtered, f => CategoryKeeps(f, s.category));
    }
    ghost var afterCategory := filtered;
    if s.search != "" {
      filtered := Where(filtered, f => SearchKeeps(f, s.search));
    }
    ghost var afterSearch := filtered;
    if s.veg != "all" {
      filtered := Where(filtered, f => VegKeeps(f, s.veg));
    }
    ghost var afterVeg := filtered;
    if s.priceRange != "all" {
      filtered := Where(filtered, f => PriceKeeps(f, s.priceRange));
    }
    forall x
      ensures multiset(filtered)[x] == if Keeps(x, s) then multiset(foods)[x] else 0
    {
      assert multiset(afterCategory)[x] == if CategoryKeeps(x, s.category) then multiset(foods)[x] else 0;
      assert multiset(afterSearch)[x] == if SearchKeeps(x, s.search) then multiset(afterCategory)[x] else 0;
      assert multiset(afterVeg)[x] == if VegKeeps(x, s.veg) then multiset(afterSearch)[x] else 0;
      assert multiset(filtered)[x] == if PriceKeeps(x, s.priceRange) then multiset(afterVeg)[x] else 0;
    }
  }

  /** `applyFilters`. The result holds exactly the fetched items every filter keeps, each as often as it
      was fetched, in the comparator's order; the fetched list is a value and stays as it was. */
  method ApplyFilters(foods: seq<MenuFood>, s: Filters) returns (r: seq<MenuFood>)
    ensures forall x :: multiset(r)[x] == if Keeps(x, s) then multiset(foods)[x] else 0
    ensures forall x :: x in r <==> x in foods && Keeps(x, s)
    ensures Ordered(r, s.sortBy, s.sortOrder == "asc")
  {
    var filtered := Narrow(foods, s);
    var a := new MenuFood[|filtered|](k requires 0 <= k < |filtered| => filtered[k]);
    assert a[..] == filtered;
    BeforeOrdersConsistently(s.sortBy, s.sortOrder == "asc");
    Sort(a, (x, y) => Before(x, y, s.sortBy, s.sortOrder == "asc"));
    r := a[..];
    assert forall x :: x in r <==> multiset(r)[x] > 0;
    assert forall x :: x in foods <==> multiset(foods)[x] > 0;
  }

  /** After `clearFilters` every fetched item is shown. */
  lemma ClearedKeepsEverything(f: MenuFood)
    ensures Keeps(f, Cleared)
    ensures Before(f, f, Cleared.sortBy, true)
  {
    LexLeTotal(ToLower(f.name), ToLower(f.name));
  }

  /** "a-b" with digit strings a and b splits into exactly a and b. */
  lemma SplitAroundDash(a: string, b: string)
    requires forall i :: 0 <= i < |a| ==> IsDigit(a[i])
    requires forall i :: 0 <= i < |b| ==> IsDigit(b[i])
    ensures Split(a + "-" + b, '-') == [a, b]
  {
    assert '-' !in a && '-' !in b;
    SplitAfterPiece(a, b, '-');
    SplitWithoutSeparator(b, '-');
  }

  /** A closed range "min-max" with max ≠ 0 keeps exactly the prices between the bounds. */
  lemma ClosedRangeKeeps(f: MenuFood, lo: nat, hi: nat)
    requires hi != 0
    ensures PriceKeeps(f, NatToString(lo) + "-" + NatToString(hi)) <==> lo as real <= f.price <= hi as real
  {
    SplitAroundDash(NatToString(lo), NatToString(hi));
    ParseNatToString(lo);
    ParseNatToString(hi);
  }

  /** An open range "min-" keeps exactly the prices of at least min. */
  lemma OpenRangeKeeps(f: MenuFood, lo: nat)
    ensures PriceKeeps(f, NatToString(lo) + "-") <==> f.price >= lo as real
  {
    var range := NatToString(lo) + "-";
    assert range == NatToString(lo) + "-" + "";
    assert range[|range| - 1] == '-';
    SplitAroundDash(NatToString(lo), "");
    ParseNatToString(lo);
  }
}
