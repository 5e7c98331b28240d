/**
 * The client-side product helpers (src/hooks/useProducts.ts): keyword
 * categorisation of a product and lookup of one product by id in the
 * fetched catalog.
 */
module Products {
  import opened Wrappers
  import opened JsString
  import opened JsArray
  import opened Catalog

  const Caps := "caps"
  const Clothes := "clothes"
  const Others := "others"

  /** The test for caps, on the lower-cased title and tags: a tag "cap" or "hat", or either word anywhere in the title. */
  predicate CapsTest(title: string, tags: seq<string>)
  {
    "cap" in tags || "hat" in tags || Includes(title, "cap") || Includes(title, "hat")
  }

  /** The test for clothes, on the lower-cased title and tags: one of six tags, or one of three words in the title. */
  predicate ClothesTest(title: string, tags: seq<string>)
  {
    "shirt" in tags || "tshirt" in tags || "t-shirt" in tags
    || "hoodie" in tags || "jacket" in tags || "sweater" in tags
    || Includes(title, "shirt") || Includes(title, "hoodie") || Includes(title, "jacket")
  }

  /** `categorizeProduct`: caps are checked first, then clothes; everything else is "others". */
  function Categorize(p: Product): (r: string)
    ensures r == Caps || r == Clothes || r == Others
  {
    var title := ToLower(p.title);
    var tags := Map(ToLower, p.tags);
    if CapsTest(title, tags) then Caps
    else if ClothesTest(title, tags) then Clothes
    else Others
  }

  // ---------------------------------------------------------------- reference definitions

  /** Some tag of `p`, lower-cased, is one of `keys`. */
  predicate HasTagIn(p: Product, keys: set<string>)
  {
    exists t :: t in p.tags && ToLower(t) in keys
  }

  /** Some word of `words` occurs somewhere in the lower-cased title of `p`. */
  predicate TitleMentions(p: Product, words: set<string>)
  {
    exists w, i: nat :: w in words && i <= |p.title| && OccursAt(ToLower(p.title), w, i)
  }

  predicate IsCap(p: Product)
  {
    HasTagIn(p, {"cap", "hat"}) || TitleMentions(p, {"cap", "hat"})
  }

  predicate IsClothing(p: Product)
  {
    HasTagIn(p, {"shirt", "tshirt", "t-shirt", "hoodie", "jacket", "sweater"})
    || TitleMentions(p, {"shirt", "hoodie", "jacket"})
  }

  lemma LoweredTagsMeans(tags: seq<string>, k: string)
    ensures k in Map(ToLower, tags) <==> exists t :: t in tags && ToLower(t) == k
  {
    if k in Map(ToLower, tags) {
      var i :| 0 <= i < |tags| && Map(ToLower, tags)[i] == k;
      assert tags[i] in tags;
    }
    if exists t :: t in tags && ToLower(t) == k {
      var t :| t in tags && ToLower(t) == k;
      var i :| 0 <= i < |tags| && tags[i] == t;
      assert Map(ToLower, tags)[i] == k;
    }
  }

  lemma IncludesMeans(title: string, w: string)
    ensures Includes(ToLower(title), w) <==> exists i: nat :: i <= |title| && OccursAt(ToLower(title), w, i)
  {
  }

  /**
   * The category is decided by the reference tests: caps whenever the caps
   * keywords match (whatever else matches), clothes when only the clothes
   * keywords match, and others otherwise.
   */
  lemma CategorizeMeaning(p: Product)
    ensures Categorize(p) == Caps <==> IsCap(p)
    ensures Categorize(p) == Clothes <==> !IsCap(p) && IsClothing(p)
    ensures Categorize(p) == Others <==> !IsCap(p) && !IsClothing(p)
  {
    var title := ToLower(p.title);
    forall k ensures k in Map(ToLower, p.tags) <==> exists t :: t in p.tags && ToLower(t) == k {
      LoweredTagsMeans(p.tags, k);
    }
    forall w ensures Includes(title, w) <==> exists i: nat :: i <= |p.title| && OccursAt(title, w, i) {
      IncludesMeans(p.title, w);
    }
  }

  /** Only the lower-cased title and tags matter: lower-casing them first changes nothing. */
  lemma {:induction false} CategorizeIgnoresCase(p: Product)
    ensures Categorize(p.(title := ToLower(p.title), tags := Map(ToLower, p.tags))) == Categorize(p)
  {
    var q := p.(title := ToLower(p.title), tags := Map(ToLower, p.tags));
    ToLowerIdempotent(p.title);
    forall i | 0 <= i < |p.tags| ensures ToLower(q.tags[i]) == ToLower(p.tags[i]) {
      ToLowerIdempotent(p.tags[i]);
    }
    assert Map(ToLower, q.tags) == Map(ToLower, p.tags);
  }

  /** The substring test also fires inside longer words: "Landscape Hoodie" holds "cap", so it is a cap. */
  lemma SubstringExample(p: Product)
    requires p.title == "Landscape Hoodie" && p.tags == ["hoodie"]
    ensures Categorize(p) == Caps
  {
    assert OccursAt(ToLower(p.title), "cap", 5) by {
      assert ToLower(p.title)[5..8] == "cap";
    }
  }

  // ---------------------------------------------------------------- lookup

  predicate HasId(id: string, p: Product)
  {
    p.id == id
  }

  /** `data?.products.find(p => p.id === productId)`: nothing while the catalog is not loaded. */
  function FindProduct(data: Option<seq<Product>>, id: string): (r: Option<Product>)
    ensures r.Some? ==> data.Some? && r.value in data.value && r.value.id == id
    ensures r.None? <==> data.None? || forall p :: p in data.value ==> p.id != id
  {
    match data
    case None => None
    case Some(products) => Find(p => HasId(id, p), products)
  }

  /** The product found is the first one with that id. */
  lemma FindProductFirst(products: seq<Product>, id: string, k: nat)
    requires k < |products| && products[k].id == id
    requires forall j :: 0 <= j < k ==> products[j].id != id
    ensures FindProduct(Some(products), id) == Some(products[k])
  {
    FindFirstIndex(p => HasId(id, p), products, k);
  }
}
