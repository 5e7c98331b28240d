/**
 * The product grid (src/components/ProductGrid.tsx): what the grid shows
 * for a loading, failed or loaded catalog, and the category filter and
 * limit applied to the loaded products.
 */
module Grid {
  import opened Wrappers
  import opened JsArray
  import opened Catalog
  import opened Products

  /** The number of placeholder cards shown while loading. */
  const SkeletonCards := 8

  datatype GridView = Skeleton(cards: nat) | LoadFailed | NoProducts | Cards(products: seq<Product>)

  /** `category && category !== "all"`: a category that is given, not empty and not "all" filters. */
  predicate Filters(category: Option<string>)
  {
    category.Some? && category.value != "" && category.value != "all"
  }

  /** `if (limit)`: a limit that is given and not 0 cuts the list. */
  predicate Limits(limit: Option<int>)
  {
    limit.Some? && limit.value != 0
  }

  predicate InCategory(c: string, p: Product)
  {
    Categorize(p) == c
  }

  /** `products.filter(product => categorizeProduct(product) === c)`. */
  function OfCategory(products: seq<Product>, c: string): seq<Product>
  {
    Filter(p => InCategory(c, p), products)
  }

  lemma OfCategoryCons(products: seq<Product>, c: string)
    requires products != []
    ensures OfCategory(products, c) ==
      (if Categorize(products[0]) == c then [products[0]] else []) + OfCategory(products[1..], c)
  {
  }

  /** The products of the chosen category, in catalog order. */
  function ByCategory(products: seq<Product>, category: Option<string>): seq<Product>
  {
    if Filters(category) then OfCategory(products, category.value) else products
  }

  /** `products.slice(0, limit)` when a limit applies. */
  function Limited(products: seq<Product>, limit: Option<int>): seq<Product>
  {
    if Limits(limit) then products[..SliceEnd(|products|, limit.value)] else products
  }

  /** The filter-then-limit pipeline. */
  function Listing(products: seq<Product>, category: Option<string>, limit: Option<int>): (r: seq<Product>)
    ensures |r| <= |products|
    ensures forall p :: p in r ==> p in products
    ensures Filters(category) ==> forall p :: p in r ==> Categorize(p) == category.value
  {
    var filtered := ByCategory(products, category);
    var r := Limited(filtered, limit);
    assert forall p :: p in r ==> p in filtered;
    r
  }

  /** What the grid renders: placeholders while loading, the error, the empty notice, or the cards. */
  function Render(isLoading: bool, failed: bool, data: Option<seq<Product>>,
                  category: Option<string>, limit: Option<int>): (v: GridView)
    ensures isLoading ==> v == Skeleton(SkeletonCards)
    ensures !isLoading && failed ==> v == LoadFailed
    ensures v.Cards? ==> v.products != [] && data.Some? && v.products == Listing(data.value, category, limit)
  {
    if isLoading then Skeleton(SkeletonCards)
    else if failed then LoadFailed
    else
      var products := Listing(if data.Some? then data.value else [], category, limit);
      if |products| == 0 then NoProducts else Cards(products)
  }

  // ---------------------------------------------------------------- properties

  /** Without a filter and a limit every product is listed, in order. */
  lemma ListingAll(products: seq<Product>, category: Option<string>, limit: Option<int>)
    requires !Filters(category) && !Limits(limit)
    ensures Listing(products, category, limit) == products
  {
  }

  /** With a filter, a product is listed (absent a limit) exactly when it is in the category. */
  lemma ListingCategory(products: seq<Product>, c: string, p: Product)
    requires c != "" && c != "all"
    ensures p in Listing(products, Some(c), None) <==> p in products && Categorize(p) == c
  {
  }

  /** A positive limit keeps the first `limit` products; a negative one drops that many from the end. */
  lemma ListingLimit(products: seq<Product>, category: Option<string>, n: int)
    requires n != 0
    ensures var f := ByCategory(products, category);
      Listing(products, category, Some(n)) == f[..SliceEnd(|f|, n)]
    ensures n > 0 ==> |Listing(products, category, Some(n))| == if n < |ByCategory(products, category)| then n else |ByCategory(products, category)|
  {
  }

  /** A category no product can have (anything but "caps", "clothes" and "others") lists nothing. */
  lemma UnknownCategory(products: seq<Product>, c: string, limit: Option<int>)
    requires c != "" && c != "all" && c != Caps && c != Clothes && c != Others
    ensures Listing(products, Some(c), limit) == []
  {
    FilterNone(p => InCategory(c, p), products);
  }

  /** Every product falls in exactly one of the three categories, so their listings partition the catalog. */
  lemma {:induction false} CategoriesPartition(products: seq<Product>)
    ensures |OfCategory(products, Caps)| + |OfCategory(products, Clothes)| + |OfCategory(products, Others)| == |products|
  {
    if products != [] {
      CategoriesPartition(products[1..]);
      OfCategoryCons(products, Caps);
      OfCategoryCons(products, Clothes);
      OfCategoryCons(products, Others);
    }
  }

  /** The three category listings are the filters `OfCategory` computes. */
  lemma CategoryListings(products: seq<Product>, c: string)
    requires c == Caps || c == Clothes || c == Others
    ensures Listing(products, Some(c), None) == OfCategory(products, c)
  {
  }

  /** After loading without error, the grid is empty exactly when the listing is. */
  lemma RenderLoaded(data: Option<seq<Product>>, category: Option<string>, limit: Option<int>)
    ensures var products := if data.Some? then data.value else [];
      Render(false, false, data, category, limit) ==
        if Listing(products, category, limit) == [] then NoProducts else Cards(Listing(products, category, limit))
  {
  }
}
