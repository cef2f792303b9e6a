/** `src/components/SearchResults.tsx`: which request fills `allProducts`, and the
    brand, rating and price filters the sidebar's selections apply to it. */
module SearchResults {
  import opened Wrappers
  import opened Seqs
  import opened Server
  import SideBar

  /** `allProducts` after the fetch: the `/products` search when there is a search
      query, else `/category-products`, else `[]`; `None` when the request failed. */
  function FetchedProducts(products: seq<Product>, search: string, category: string): (r: Option<seq<Product>>)
    ensures search != "" ==> r == Some(SearchProducts(products, search))
    ensures search == "" && category == "" ==> r == Some([])
    ensures search == "" && category != "" ==>
      (r.None? <==> CategoryProducts(products, category).Error?)
  {
    if search != "" then Some(SearchProducts(products, search))
    else if category != "" then
      match CategoryProducts(products, category)
      case Ok(rows) => Some(rows)
      case Error(_, _) => None
    else Some([])
  }

  /** A search query wins over a category. */
  lemma SearchWinsOverCategory(products: seq<Product>, search: string, c1: string, c2: string)
    requires search != ""
    ensures FetchedProducts(products, search, c1) == FetchedProducts(products, search, c2)
  {
  }

  predicate BrandSelected(brands: seq<string>, p: Product) {
    p.brand in brands
  }

  predicate RatingSelected(ratings: seq<int>, p: Product) {
    p.ratings.Floor in ratings
  }

  predicate InPriceRange(min: real, max: SideBar.Bound, p: Product) {
    min <= p.actualPrice && (max.Finite? ==> p.actualPrice <= max.value)
  }

  /** The filter effect (97-109): the brand and rating filters run only for a non-empty
      selection, the price filter always. */
  function FilterProducts(all: seq<Product>, brands: seq<string>, ratings: seq<int>,
                          min: real, max: SideBar.Bound): (r: seq<Product>)
    ensures |r| <= |all|
    ensures forall p :: p in r ==> p in all && Kept(brands, ratings, min, max, p)
  {
    var byBrand := if |brands| > 0 then Filter(all, (p: Product) => BrandSelected(brands, p)) else all;
    var byRating := if |ratings| > 0 then Filter(byBrand, (p: Product) => RatingSelected(ratings, p)) else byBrand;
    Filter(byRating, (p: Product) => InPriceRange(min, max, p))
  }

  predicate BrandKeep(brands: seq<string>, p: Product) {
    |brands| > 0 ==> BrandSelected(brands, p)
  }

  predicate RatingKeep(ratings: seq<int>, p: Product) {
    |ratings| > 0 ==> RatingSelected(ratings, p)
  }

  /** The one predicate a product must meet. */
  predicate Kept(brands: seq<string>, ratings: seq<int>, min: real, max: SideBar.Bound, p: Product) {
    BrandKeep(brands, p) && RatingKeep(ratings, p) && InPriceRange(min, max, p)
  }

  /** The brand step is a filter by `BrandKeep`, whether or not it runs. */
  lemma BrandStep(all: seq<Product>, brands: seq<string>)
    ensures (if |brands| > 0 then Filter(all, (p: Product) => BrandSelected(brands, p)) else all)
      == Filter(all, (p: Product) => BrandKeep(brands, p))
  {
    if |brands| > 0 {
      FilterSamePredicate(all, (p: Product) => BrandSelected(brands, p), (p: Product) => BrandKeep(brands, p));
    } else {
      FilterKeepsAll(all, (p: Product) => BrandKeep(brands, p));
    }
  }

  /** The rating step is a filter by `RatingKeep`, whether or not it runs. */
  lemma RatingStep(s: seq<Product>, ratings: seq<int>)
    ensures (if |ratings| > 0 then Filter(s, (p: Product) => RatingSelected(ratings, p)) else s)
      == Filter(s, (p: Product) => RatingKeep(ratings, p))
  {
    if |ratings| > 0 {
      FilterSamePredicate(s, (p: Product) => RatingSelected(ratings, p), (p: Product) => RatingKeep(ratings, p));
    } else {
      FilterKeepsAll(s, (p: Product) => RatingKeep(ratings, p));
    }
  }

  /** The chain of filters is one filter by the conjunction, so the order in which the
      three are applied does not matter. */
  lemma FilterProductsIsConjunction(all: seq<Product>, brands: seq<string>, ratings: seq<int>,
                                    min: real, max: SideBar.Bound)
    ensures FilterProducts(all, brands, ratings, min, max)
      == Filter(all, (p: Product) => Kept(brands, ratings, min, max, p))
  {
    var b := (p: Product) => BrandKeep(brands, p);
    var r := (p: Product) => RatingKeep(ratings, p);
    var br := (p: Product) => BrandKeep(brands, p) && RatingKeep(ratings, p);
    var c := (p: Product) => InPriceRange(min, max, p);
    BrandStep(all, brands);
    var byBrand := Filter(all, b);
    RatingStep(byBrand, ratings);
    FilterFilter(all, b, r, br);
    FilterFilter(all, br, c, (p: Product) => Kept(brands, ratings, min, max, p));
  }

  /** What the results page shows: an order-preserving subsequence of `allProducts`
      holding exactly the products that meet every active filter. */
  lemma FilteredProductsSpec(all: seq<Product>, brands: seq<string>, ratings: seq<int>,
                             min: real, max: SideBar.Bound)
    ensures var r := FilterProducts(all, brands, ratings, min, max);
      && IsSubsequence(r, all)
      && (forall p :: p in r <==> p in all && Kept(brands, ratings, min, max, p))
  {
    FilterProductsIsConjunction(all, brands, ratings, min, max);
    FilterIsSubsequence(all, (p: Product) => Kept(brands, ratings, min, max, p));
  }

  /** With no selection and the default bounds 0 and Infinity, every product with a
      non-negative price is shown, in order. */
  lemma DefaultsKeepAll(all: seq<Product>)
    requires forall p :: p in all ==> p.actualPrice >= 0.0
    ensures FilterProducts(all, [], [], 0.0, SideBar.Infinity) == all
  {
    FilterKeepsAll(all, (p: Product) => InPriceRange(0.0, SideBar.Infinity, p));
  }
}
