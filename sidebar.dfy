/** `src/components/SideBar.tsx`: the price breakpoints offered for the fetched
    facets, the three selection toggles, and which request `fetchFilters` and
    `fetchCategoryName` make. */
module SideBar {
  import opened Wrappers
  import opened Seqs
  import opened Text
  import Categories
  import Server

  // ---------------------------------------------------------------------------
  // Price ranges

  /** `Math.ceil`. */
  function Ceil(x: real): (n: int)
    ensures x <= n as real < x + 1.0
  {
    -((-x).Floor)
  }

  /** The four unrounded breakpoints for a price span (90-102). */
  function Breakpoints(min: real, max: real): (b: seq<real>)
    requires min <= max
    ensures |b| == 4 && b[0] == min && b[3] == max
    ensures forall i :: 0 <= i < 4 ==> min <= b[i]
    ensures max - min < 100.0 ==> b[1] == min + (max - min) / 4.0 && b[2] == min + (max - min) / 2.0
    ensures 100.0 <= max - min < 500.0 ==> b[1] == min + 100.0 && b[2] == min + 250.0
    ensures 500.0 <= max - min < 1000.0 ==> b[1] == min + 250.0 && b[2] == min + 500.0
    ensures 1000.0 <= max - min ==> b[1] == min + 500.0 && b[2] == min + 1000.0
  {
    var range := max - min;
    if range < 100.0 then [min, min + range / 4.0, min + range / 2.0, max]
    else if range < 500.0 then [min, min + 100.0, min + 250.0, max]
    else if range < 1000.0 then [min, min + 250.0, min + 500.0, max]
    else [min, min + 500.0, min + 1000.0, max]
  }

  /** The rounding step for a price: 10 below 100, 50 below 500, else 100. */
  function Step(price: real): (s: real)
    ensures s == 10.0 || s == 50.0 || s == 100.0
  {
    if price < 100.0 then 10.0 else if price < 500.0 then 50.0 else 100.0
  }

  /** `Math.ceil(price / step) * step`: rounded UP to the next multiple of its step. */
  function RoundUp(price: real): (r: real)
    ensures price <= r < price + Step(price)
    ensures IsMultiple(r, Step(price))
  {
    if price < 100.0 then CeilTimes10(price); Ceil(price / 10.0) as real * 10.0
    else if price < 500.0 then CeilTimes50(price); Ceil(price / 50.0) as real * 50.0
    else CeilTimes100(price); Ceil(price / 100.0) as real * 100.0
  }

  // The rounding facts, one fixed step at a time so that the arithmetic stays linear.

  lemma CeilTimes10(price: real)
    ensures price <= Ceil(price / 10.0) as real * 10.0 < price + 10.0
    ensures IsMultiple(Ceil(price / 10.0) as real * 10.0, 10.0)
  {
    var k := Ceil(price / 10.0) as real;
    assert (k * 10.0) / 10.0 == k;
  }

  lemma CeilTimes50(price: real)
    ensures price <= Ceil(price / 50.0) as real * 50.0 < price + 50.0
    ensures IsMultiple(Ceil(price / 50.0) as real * 50.0, 50.0)
  {
    var k := Ceil(price / 50.0) as real;
    assert (k * 50.0) / 50.0 == k;
  }

  lemma CeilTimes100(price: real)
    ensures price <= Ceil(price / 100.0) as real * 100.0 < price + 100.0
    ensures IsMultiple(Ceil(price / 100.0) as real * 100.0, 100.0)
  {
    var k := Ceil(price / 100.0) as real;
    assert (k * 100.0) / 100.0 == k;
  }

  /** `x` is a whole multiple of `step`. */
  predicate IsMultiple(x: real, step: real)
    requires step > 0.0
  {
    (x / step).Floor as real == x / step
  }

  predicate StrictlyAscending(s: seq<real>) {
    forall i, j :: 0 <= i < j < |s| ==> s[i] < s[j]
  }

  /** Inserts `x` into an ascending, duplicate-free sequence unless it is already there. */
  function Insert(s: seq<real>, x: real): (r: seq<real>)
    ensures |r| <= |s| + 1
  {
    if s == [] then [x]
    else if x < s[0] then [x] + s
    else if x == s[0] then s
    else [s[0]] + Insert(s[1..], x)
  }

  /** Prefixing a value below every element keeps a sequence strictly ascending. */
  lemma ConsAscending(a: real, t: seq<real>)
    requires StrictlyAscending(t)
    requires forall y :: y in t ==> a < y
    ensures StrictlyAscending([a] + t)
  {
    var r := [a] + t;
    forall i, j | 0 <= i < j < |r|
      ensures r[i] < r[j]
    {
      assert r[j] == t[j - 1];
      if i > 0 {
        assert r[i] == t[i - 1];
      } else {
        assert t[j - 1] in t;
      }
    }
  }

  /** `Insert` keeps the order and adds exactly `x`. */
  lemma {:induction false} InsertFacts(s: seq<real>, x: real)
    requires StrictlyAscending(s)
    ensures StrictlyAscending(Insert(s, x))
    ensures forall y :: y in Insert(s, x) <==> y in s || y == x
  {
    if s == [] {
    } else if x < s[0] {
      forall y | y in s ensures x < y {
        var i :| 0 <= i < |s| && s[i] == y;
        assert i == 0 || s[0] < s[i];
      }
      ConsAscending(x, s);
    } else if x == s[0] {
    } else {
      var t := s[1..];
      assert StrictlyAscending(t) by {
        forall i, j | 0 <= i < j < |t| ensures t[i] < t[j] {
          assert t[i] == s[i + 1] && t[j] == s[j + 1];
        }
      }
      InsertFacts(t, x);
      var rest := Insert(t, x);
      assert forall y :: y in s <==> y == s[0] || y in t by {
        assert s == [s[0]] + t;
      }
      forall y | y in rest ensures s[0] < y {
        if y != x {
          var i :| 0 <= i < |t| && t[i] == y;
          assert s[i + 1] == y;
        }
      }
      ConsAscending(s[0], rest);
    }
  }

  /** `[...new Set(xs)].sort((a, b) => a - b)`. */
  function SortedDistinct(xs: seq<real>): (r: seq<real>)
    ensures StrictlyAscending(r)
    ensures forall y :: y in r <==> y in xs
    ensures |r| <= |xs|
    ensures xs != [] ==> r != []
  {
    if xs == [] then []
    else
      var init := SortedDistinct(xs[..|xs| - 1]);
      var r := Insert(init, xs[|xs| - 1]);
      InsertFacts(init, xs[|xs| - 1]);
      assert xs == xs[..|xs| - 1] + [xs[|xs| - 1]];
      r
  }

  /** `generatePriceRanges(min, max)`. */
  function PriceRanges(min: real, max: real): (r: seq<real>)
    requires min <= max
    ensures StrictlyAscending(r)
    ensures 1 <= |r| <= 4
    ensures RoundUp(min) in r && RoundUp(max) in r
    ensures forall y :: y in r <==> exists i :: 0 <= i < 4 && y == RoundUp(Breakpoints(min, max)[i])
    ensures forall y :: y in r ==> min <= y
  {
    var b := Breakpoints(min, max);
    var rounded := Map(b, RoundUp);
    assert rounded[0] == RoundUp(min) && rounded[3] == RoundUp(max);
    SortedDistinct(rounded)
  }

  /** The prices 20..80 split into quarters 20, 35, 50, 80; rounding up to tens
      turns 35 into 40, so the offered bounds are 20, 40, 50, 80. */
  lemma PriceRangesTwentyToEighty()
    ensures PriceRanges(20.0, 80.0) == [20.0, 40.0, 50.0, 80.0]
  {
    var b := Breakpoints(20.0, 80.0);
    assert b == [20.0, 35.0, 50.0, 80.0];
    assert RoundUp(20.0) == 20.0 by { assert Ceil(2.0) == 2; }
    assert RoundUp(35.0) == 40.0 by { assert Ceil(3.5) == 4; }
    assert RoundUp(50.0) == 50.0 by { assert Ceil(5.0) == 5; }
    assert RoundUp(80.0) == 80.0 by { assert Ceil(8.0) == 8; }
    var rounded := Map(b, RoundUp);
    assert rounded == [20.0, 40.0, 50.0, 80.0];
    assert rounded[..3] == [20.0, 40.0, 50.0];
    assert rounded[..2] == [20.0, 40.0];
    assert rounded[..1] == [20.0];
    assert SortedDistinct(rounded[..1]) == [20.0];
    assert rounded[..2][..1] == rounded[..1];
    assert Insert([20.0], 40.0) == [20.0, 40.0] by {
      assert Insert([20.0][1..], 40.0) == [40.0];
    }
    assert SortedDistinct(rounded[..2]) == [20.0, 40.0];
    assert rounded[..3][..2] == rounded[..2];
    assert Insert([20.0, 40.0], 50.0) == [20.0, 40.0, 50.0] by {
      assert Insert([20.0, 40.0][1..], 50.0) == [40.0, 50.0] by {
        assert Insert([20.0, 40.0][1..][1..], 50.0) == [50.0];
      }
    }
    assert SortedDistinct(rounded[..3]) == [20.0, 40.0, 50.0];
    assert rounded[..4][..3] == rounded[..3];
    assert Insert([20.0, 40.0, 50.0], 80.0) == [20.0, 40.0, 50.0, 80.0] by {
      var t := [20.0, 40.0, 50.0];
      assert Insert(t[1..][1..][1..], 80.0) == [80.0];
      assert Insert(t[1..][1..], 80.0) == [50.0, 80.0];
      assert Insert(t[1..], 80.0) == [40.0, 50.0, 80.0];
    }
  }

  /** Every offered bound covers the most expensive product whose rounded price it is:
      each rounded breakpoint is at least its unrounded value. */
  lemma RoundedNotBelow(min: real, max: real, i: nat)
    requires min <= max && i < 4
    ensures Breakpoints(min, max)[i] <= RoundUp(Breakpoints(min, max)[i])
  {
  }

  function Min(s: seq<real>): (m: real)
    requires s != []
    ensures m in s && forall x :: x in s ==> m <= x
  {
    if |s| == 1 then s[0]
    else
      var rest := Min(s[1..]);
      assert forall x :: x in s ==> x == s[0] || x in s[1..];
      if s[0] <= rest then s[0] else rest
  }

  function Max(s: seq<real>): (m: real)
    requires s != []
    ensures m in s && forall x :: x in s ==> x <= m
  {
    if |s| == 1 then s[0]
    else
      var rest := Max(s[1..]);
      assert forall x :: x in s ==> x == s[0] || x in s[1..];
      if s[0] >= rest then s[0] else rest
  }

  function Price(f: Server.FacetRow): real {
    f.actualPrice
  }

  /** `priceRanges` after a successful fetch: `[]` for no rows, else the ranges between
      the cheapest and the dearest price. */
  function PriceRangesFor(rows: seq<Server.FacetRow>): (r: seq<real>)
    ensures rows == [] <==> r == []
    ensures rows != [] ==> 1 <= |r| <= 4 && StrictlyAscending(r)
    ensures rows != [] ==> forall y :: y in r ==> exists f :: f in rows && f.actualPrice <= y
    ensures rows != [] ==> |Map(rows, Price)| > 0 && r == PriceRanges(Min(Map(rows, Price)), Max(Map(rows, Price)))
  {
    if rows == [] then []
    else
      var prices := Map(rows, Price);
      var lo := Min(prices);
      var r := PriceRanges(lo, Max(prices));
      var k :| 0 <= k < |prices| && prices[k] == lo;
      assert rows[k] in rows && rows[k].actualPrice == lo;
      r
  }

  // ---------------------------------------------------------------------------
  // Selection toggles

  /** Removes a selected value, or appends an unselected one. */
  function Toggle<T(==,!new)>(selection: seq<T>, v: T): (r: seq<T>)
    ensures v in r <==> v !in selection
    ensures forall x :: x != v ==> (x in r <==> x in selection)
    ensures v !in selection ==> r == selection + [v]
    ensures v in selection ==> IsSubsequence(r, selection)
  {
    if v in selection then
      FilterIsSubsequence(selection, (x: T) => x != v);
      Filter(selection, (x: T) => x != v)
    else selection + [v]
  }

  /** Toggling an unselected value twice restores the selection exactly. */
  lemma ToggleTwiceRestores<T(!new)>(selection: seq<T>, v: T)
    requires v !in selection
    ensures Toggle(Toggle(selection, v), v) == selection
  {
    FilterAppend(selection, [v], (x: T) => x != v);
    FilterKeepsAll(selection, (x: T) => x != v);
    assert Filter([v], (x: T) => x != v) == [] by {
      assert [v][1..] == [];
    }
  }

  /** A toggle keeps a duplicate-free selection duplicate-free. */
  lemma ToggleKeepsDistinct<T(!new)>(selection: seq<T>, v: T)
    requires forall i, j :: 0 <= i < j < |selection| ==> selection[i] != selection[j]
    ensures var r := Toggle(selection, v);
      forall i, j :: 0 <= i < j < |r| ==> r[i] != r[j]
  {
    if v in selection {
      FilterDistinct(selection, (x: T) => x != v);
      assert Toggle(selection, v) == Filter(selection, (x: T) => x != v);
    } else {
      assert Toggle(selection, v) == selection + [v];
    }
  }

  lemma {:induction false} FilterDistinct<T(!new)>(s: seq<T>, p: T -> bool)
    requires forall i, j :: 0 <= i < j < |s| ==> s[i] != s[j]
    ensures var r := Filter(s, p);
      forall i, j :: 0 <= i < j < |r| ==> r[i] != r[j]
  {
    if s != [] {
      FilterDistinct(s[1..], p);
      assert s[0] !in s[1..];
      assert s[0] !in Filter(s[1..], p);
    }
  }

  /** The upper price bound reported to the results page. */
  datatype Bound = Finite(value: real) | Infinity

  /** The sidebar's selections; each handler returns what it reports to its callback. */
  class SideBarState {
    var selectedBrands: seq<string>
    var selectedRatings: seq<int>
    var selectedPriceRanges: seq<real>

    constructor ()
      ensures selectedBrands == [] && selectedRatings == [] && selectedPriceRanges == []
    {
      selectedBrands := [];
      selectedRatings := [];
      selectedPriceRanges := [];
    }

    /** `handleBrandChange`. */
    method BrandChange(brand: string) returns (reported: seq<string>)
      modifies this`selectedBrands
      ensures selectedBrands == Toggle(old(selectedBrands), brand) && reported == selectedBrands
    {
      selectedBrands := Toggle(selectedBrands, brand);
      reported := selectedBrands;
    }

    /** `handleRatingChange`. */
    method RatingChange(rating: int) returns (reported: seq<int>)
      modifies this`selectedRatings
      ensures selectedRatings == Toggle(old(selectedRatings), rating) && reported == selectedRatings
    {
      selectedRatings := Toggle(selectedRatings, rating);
      reported := selectedRatings;
    }

    /** `handlePriceRangeChange`: reports `(0, max(selection))`, or `(0, Infinity)` when
        nothing is selected. */
    method PriceRangeChange(price: real) returns (min: real, max: Bound)
      modifies this`selectedPriceRanges
      ensures selectedPriceRanges == Toggle(old(selectedPriceRanges), price)
      ensures min == 0.0
      ensures selectedPriceRanges == [] <==> max == Infinity
      ensures max.Finite? ==>
        && max.value in selectedPriceRanges
        && forall p :: p in selectedPriceRanges ==> p <= max.value
    {
      selectedPriceRanges := Toggle(selectedPriceRanges, price);
      min := 0.0;
      if |selectedPriceRanges| > 0 {
        max := Finite(Max(selectedPriceRanges));
      } else {
        max := Infinity;
      }
    }
  }

  // ---------------------------------------------------------------------------
  // Which request the sidebar makes

  /** The first of `names` whose lowercased, whitespace-free form equals the search's. */
  function MatchedCategoryIn(names: seq<string>, search: string): (r: Option<string>)
    ensures r.Some? ==> r.value in names && Normalise(r.value) == Normalise(search)
    ensures r.None? ==> forall c :: c in names ==> Normalise(c) != Normalise(search)
  {
    Find(names, (c: string) => Normalise(c) == Normalise(search))
  }

  /** The `matchedCategory` of `fetchFilters`, over `allCategoryNames`. */
  function MatchedCategory(search: string): Option<string> {
    MatchedCategoryIn(Categories.AllCategoryNames(), search)
  }

  /** When no two names share a key, a search that matches one name finds that one. */
  lemma MatchedUnique(names: seq<string>, search: string, k: nat)
    requires forall i, j :: 0 <= i < j < |names| ==> Normalise(names[i]) != Normalise(names[j])
    requires k < |names| && Normalise(names[k]) == Normalise(search)
    ensures MatchedCategoryIn(names, search) == Some(names[k])
  {
    var r := MatchedCategoryIn(names, search);
    var j :| 0 <= j < |names| && names[j] == r.value;
  }

  /** The known category names have distinct keys, so the sidebar's `find` is unambiguous:
      a search whose key is that of the `k`-th name resolves to the `k`-th name. */
  lemma MatchedCategoryIsUnique(search: string, k: nat)
    requires k < |Categories.AllCategoryNames()|
    requires Normalise(Categories.AllCategoryNames()[k]) == Normalise(search)
    ensures MatchedCategory(search) == Some(Categories.AllCategoryNames()[k])
  {
    Categories.NormalisedNamesDistinct();
    MatchedUnique(Categories.AllCategoryNames(), search, k);
  }

  /** The `/filters` request `fetchFilters` sends, or none. */
  datatype FiltersRequest = ByCategory(category: string) | BySearch(search: string) | NoRequest

  /** `fetchFilters`' choice, for a given `matchedCategory`. */
  function FiltersRequestWith(matched: Option<string>, category: string, search: string): (r: FiltersRequest)
    ensures search != "" && matched.Some? && matched.value != "" ==> r == ByCategory(matched.value)
    ensures (search == "" || matched.None?) && category != "" ==> r == ByCategory(category)
    ensures (search == "" || matched.None?) && category == "" && search != "" ==> r == BySearch(search)
    ensures category == "" && search == "" ==> r == NoRequest
    ensures r == NoRequest ==> category == "" && search == ""
  {
    var filterCategory := if search != "" && matched.Some? then matched.value else category;
    if filterCategory != "" then ByCategory(filterCategory)
    else if search != "" then BySearch(search)
    else NoRequest
  }

  function FiltersRequestFor(category: string, search: string): (r: FiltersRequest)
    ensures r == NoRequest <==> category == "" && search == ""
    ensures search != "" && MatchedCategory(search).None? ==>
      r == (if category != "" then ByCategory(category) else BySearch(search))
    ensures search != "" && MatchedCategory(search).Some? && r.ByCategory? ==>
      r.category == MatchedCategory(search).value
  {
    FiltersRequestWith(MatchedCategory(search), category, search)
  }

  /** The category name shown in the sidebar's heading (`fetchCategoryName`), given the
      catalogue the server answers `/filters-category-name` from; `None` is `null`. */
  function CategoryNameShown(products: seq<Server.Product>, category: string, search: string): (r: Option<string>)
    ensures search != "" && search in Categories.AllCategoryNames() ==> r == Some(search)
    ensures search == "" ==> r == (if category == "" then None else Some(category))
    ensures search != "" && search !in Categories.AllCategoryNames() ==>
      r == Server.FiltersCategoryName(products, search)
  {
    if search != "" && search in Categories.AllCategoryNames() then Some(search)
    else if search != "" then Server.FiltersCategoryName(products, search)
    else if category != "" then Some(category)
    else None
  }
}
