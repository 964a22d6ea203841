/** The product listing (`app/products/page.tsx`): the query filter built from
    the search parameters, and the price or price range shown per product. */
module ProductsPage {
  import opened Common
  import opened Store

  /** The `where` object: `isActive: true`, plus a category id and a search
      term when they are set. */
  datatype Filter = Filter(categoryId: Option<int>, search: Option<string>)

  /** A missing parameter reads as `''`. */
  function Param(p: Option<string>): (r: string)
    ensures p.None? ==> r == ""
    ensures p.Some? ==> r == p.value
  {
    StrOr(p, "")
  }

  /** The filter, given the parameters and what the category lookup found
      (`None` when there is no category with the slug, or the lookup failed).
      The lookup is consulted only for a non-empty slug, and a falsy id adds
      no condition. */
  function BuildFilter(search: Option<string>, category: Option<string>, foundCategoryId: Option<int>): (f: Filter)
    ensures f.categoryId.Some? <==> Param(category) != "" && IntTruthy(foundCategoryId)
    ensures f.categoryId.Some? ==> f.categoryId == foundCategoryId
    ensures f.search.Some? <==> Param(search) != ""
    ensures f.search.Some? ==> f.search.value == Param(search)
  {
    var term := Param(search);
    var slug := Param(category);
    var categoryId := if slug != "" then foundCategoryId else None;
    Filter(if IntTruthy(categoryId) then categoryId else None, if term != "" then Some(term) else None)
  }

  /** What the store's `findMany({ where })` keeps: active products, in the
      category when one is set, and whose name or description contains the
      term when one is set (a null description contains nothing). */
  predicate Matches(f: Filter, p: Product) {
    && p.isActive
    && (f.categoryId.Some? ==> p.categoryId == f.categoryId)
    && (f.search.Some? ==> Contains(p.name, f.search.value)
                           || (p.description.Some? && Contains(p.description.value, f.search.value)))
  }

  function Listed(products: map<int, Product>, f: Filter): (ids: set<int>)
    ensures ids <= products.Keys
    ensures forall id :: id in ids ==> products[id].isActive
  {
    set id | id in products && Matches(f, products[id])
  }

  /** Without parameters the page lists exactly the active products. */
  lemma NoParamsListsActive(products: map<int, Product>, foundCategoryId: Option<int>)
    ensures Listed(products, BuildFilter(None, None, foundCategoryId)) == set id | id in products && products[id].isActive
  {
    var f := BuildFilter(None, None, foundCategoryId);
    assert f == Filter(None, None);
    forall id | id in products ensures Matches(f, products[id]) == products[id].isActive { }
  }

  /** A slug that resolves to no category does not narrow the list. */
  lemma UnknownCategoryIgnored(products: map<int, Product>, search: Option<string>, category: Option<string>)
    ensures Listed(products, BuildFilter(search, category, None)) == Listed(products, BuildFilter(search, None, None))
  {
  }

  datatype PageResult = RedirectHome | Listing(filter: Filter)

  /** A store that hides the product list sends the browser to `/`. */
  function Page(showProductList: bool, search: Option<string>, category: Option<string>,
                foundCategoryId: Option<int>): (r: PageResult)
    ensures r.RedirectHome? <==> !showProductList
    ensures r.Listing? ==> r.filter == BuildFilter(search, category, foundCategoryId)
  {
    if !showProductList then RedirectHome else Listing(BuildFilter(search, category, foundCategoryId))
  }

  /** `variants.filter(v => v.price).map(v => v.price!)`: the non-null, non-zero prices. */
  function TruthyPrices(prices: seq<Option<int>>): (r: seq<int>)
    ensures forall x :: x in r <==> Some(x) in prices && x != 0
  {
    if prices == [] then []
    else
      var rest := TruthyPrices(prices[..|prices| - 1]);
      var last := prices[|prices| - 1];
      assert prices == prices[..|prices| - 1] + [last];
      if IntTruthy(last) then rest + [last.value] else rest
  }

  function SeqMin(xs: seq<int>): (m: int)
    requires xs != []
    ensures m in xs
    ensures forall i :: 0 <= i < |xs| ==> m <= xs[i]
  {
    if |xs| == 1 then xs[0]
    else
      var init := xs[..|xs| - 1];
      var rest := SeqMin(init);
      assert forall i :: 0 <= i < |init| ==> xs[i] == init[i];
      if xs[|xs| - 1] < rest then xs[|xs| - 1] else rest
  }

  function SeqMax(xs: seq<int>): (m: int)
    requires xs != []
    ensures m in xs
    ensures forall i :: 0 <= i < |xs| ==> xs[i] <= m
  {
    if |xs| == 1 then xs[0]
    else
      var init := xs[..|xs| - 1];
      var rest := SeqMax(init);
      assert forall i :: 0 <= i < |init| ==> xs[i] == init[i];
      if xs[|xs| - 1] > rest then xs[|xs| - 1] else rest
  }

  datatype PriceRange = PriceRange(min: int, max: int)

  /** `minPrice` and `maxPrice` over the prices of the product's active
      variants: the least and greatest truthy price, or the base price twice
      when no variant has one. */
  function Range(basePrice: int, prices: seq<Option<int>>): (r: PriceRange)
    ensures r.min <= r.max
    ensures TruthyPrices(prices) == [] ==> r == PriceRange(basePrice, basePrice)
    ensures TruthyPrices(prices) != [] ==>
      && Some(r.min) in prices && Some(r.max) in prices && r.min != 0 && r.max != 0
      && forall x :: Some(x) in prices && x != 0 ==> r.min <= x <= r.max
  {
    var truthy := TruthyPrices(prices);
    if |prices| > 0 && truthy != [] then PriceRange(SeqMin(truthy), SeqMax(truthy))
    else PriceRange(basePrice, basePrice)
  }

  datatype PriceDisplay = Single(price: int) | Between(low: int, high: int)

  /** One price when the two ends agree, `min - max` otherwise. */
  function Display(r: PriceRange): (d: PriceDisplay)
    ensures d.Single? <==> r.min == r.max
    ensures d.Single? ==> d.price == r.min
    ensures d.Between? ==> d.low == r.min && d.high == r.max
  {
    if r.min == r.max then Single(r.min) else Between(r.min, r.max)
  }

  /** The range shown for a product is never reversed, and a product whose
      variants have at most one distinct truthy price shows one price. */
  lemma OnePriceShownOnce(basePrice: int, prices: seq<Option<int>>, p: int)
    requires p != 0 && Some(p) in prices
    requires forall x :: Some(x) in prices && x != 0 ==> x == p
    ensures Display(Range(basePrice, prices)) == Single(p)
  {
    assert p in TruthyPrices(prices);
  }
}
