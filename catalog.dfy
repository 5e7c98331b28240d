/**
 * The catalog normaliser of the proxy function
 * (supabase/functions/printify-products/index.ts): every raw product record
 * of the print-on-demand API becomes one storefront `Product`.
 */
module Catalog {
  import opened Wrappers
  import opened JsString
  import opened JsArray
  import opened Sorting

  /** An upstream variant; the price is in integer cents. */
  datatype RawVariant = RawVariant(
    id: int, title: Option<string>, priceCents: int, sku: string, isEnabled: bool, isAvailable: bool)

  datatype RawImage = RawImage(src: string, isDefault: bool)

  /** An upstream product record; any of the optional fields may be missing from the JSON. */
  datatype RawProduct = RawProduct(
    id: string, title: string, description: Option<string>,
    variants: Option<seq<RawVariant>>, images: Option<seq<RawImage>>, tags: Option<seq<string>>,
    visible: bool, createdAt: string)

  /** A variant as the storefront sees it; the price is in dollars. */
  datatype Variant = Variant(id: int, title: Option<string>, price: real, sku: string, isAvailable: bool)

  datatype Product = Product(
    id: string, title: string, description: string, priceUSD: real,
    images: seq<string>, primaryImage: string, sizes: seq<string>, colors: seq<string>,
    variants: seq<Variant>, tags: seq<string>, visible: bool, createdAt: string)

  const Placeholder := "/placeholder.svg"

  /** Variant titles read "Color / Size" or just "Size". */
  const TitleSeparator := " / "

  /** The canonical size order used by the sort. */
  const SizeOrder: seq<string> := ["XXS", "XS", "S", "M", "L", "XL", "2XL", "3XL", "4XL", "5XL"]

  // ---------------------------------------------------------------- sizes

  /**
   * The size pattern, matched case-insensitively against a whole trimmed
   * segment: a canonical size, "ONE SIZE", or a run of decimal digits.
   */
  predicate IsSizeToken(t: string)
  {
    var u := ToUpper(t);
    u in SizeOrder || u == "ONE SIZE" || (t != [] && AllDigits(t))
  }

  /** The segments of a variant title; a variant without a title has none. */
  function TitleParts(v: RawVariant): seq<string>
  {
    match v.title
    case None => []
    case Some(t) => Split(t, TitleSeparator)
  }

  /** Every trimmed title segment of the variants, variant by variant, in order. */
  function Tokens(vs: seq<RawVariant>): seq<string>
  {
    if vs == [] then [] else Tokens(vs[..|vs| - 1]) + Map(Trim, TitleParts(vs[|vs| - 1]))
  }

  /** The trimmed segments of the variant list, when there is one. */
  function AllTokens(variants: Option<seq<RawVariant>>): seq<string>
  {
    match variants
    case None => []
    case Some(vs) => Tokens(vs)
  }

  /** Segment `t` comes from some title segment of `v` once trimmed. */
  predicate Yields(v: RawVariant, t: string)
  {
    exists p :: p in TitleParts(v) && Trim(p) == t
  }

  lemma MapTrimMembers(ps: seq<string>, t: string)
    ensures t in Map(Trim, ps) <==> exists p :: p in ps && Trim(p) == t
  {
    if t in Map(Trim, ps) {
      var i :| 0 <= i < |ps| && Map(Trim, ps)[i] == t;
      assert ps[i] in ps;
    }
  }

  lemma TokensSnoc(vs: seq<RawVariant>, i: nat)
    requires i < |vs|
    ensures Tokens(vs[..i + 1]) == Tokens(vs[..i]) + Map(Trim, TitleParts(vs[i]))
  {
    assert vs[..i + 1][..i] == vs[..i];
  }

  /** The tokens are exactly the trimmed title segments of the variants. */
  lemma {:induction false} TokensMembers(vs: seq<RawVariant>, t: string)
    ensures t in Tokens(vs) <==> exists k :: 0 <= k < |vs| && Yields(vs[k], t)
  {
    if vs != [] {
      var n := |vs| - 1;
      assert Tokens(vs) == Tokens(vs[..n]) + Map(Trim, TitleParts(vs[n]));
      TokensMembers(vs[..n], t);
      MapTrimMembers(TitleParts(vs[n]), t);
      var holds := v => Yields(v, t);
      ExistsSnoc(holds, vs);
      assert forall k :: 0 <= k < |vs| ==> holds(vs[k]) == Yields(vs[k], t);
      assert forall k :: 0 <= k < n ==> holds(vs[..n][k]) == Yields(vs[..n][k], t);
    }
  }

  /** Some element satisfies `P` iff one before the last does or the last one does. */
  lemma ExistsSnoc<T>(P: T -> bool, s: seq<T>)
    requires s != []
    ensures var n := |s| - 1;
      (exists k :: 0 <= k < |s| && P(s[k])) <==> (exists k :: 0 <= k < n && P(s[..n][k])) || P(s[n])
  {
    var n := |s| - 1;
    if exists k :: 0 <= k < |s| && P(s[k]) {
      var k :| 0 <= k < |s| && P(s[k]);
      if k < n {
        assert s[..n][k] == s[k];
      }
    }
    if exists k :: 0 <= k < n && P(s[..n][k]) {
      var k :| 0 <= k < n && P(s[..n][k]);
      assert s[..n][k] == s[k];
    }
  }

  /** One step of the extraction: a size token not seen before is appended. */
  function AddToken(acc: seq<string>, t: string): seq<string>
  {
    if IsSizeToken(t) && t !in acc then acc + [t] else acc
  }

  /** The extraction over a list of trimmed segments, in first-seen order. */
  function KeepSizes(ts: seq<string>): (r: seq<string>)
    ensures forall t :: t in r <==> IsSizeToken(t) && t in ts
    ensures Distinct(r)
  {
    if ts == [] then []
    else
      var prev := KeepSizes(ts[..|ts| - 1]);
      assert ts == ts[..|ts| - 1] + [ts[|ts| - 1]];
      AddToken(prev, ts[|ts| - 1])
  }

  lemma KeepSizesSnoc(ts: seq<string>, t: string)
    ensures KeepSizes(ts + [t]) == AddToken(KeepSizes(ts), t)
  {
    assert (ts + [t])[..|ts|] == ts;
  }

  lemma MapTrimSnoc(parts: seq<string>, j: nat)
    requires j < |parts|
    ensures Map(Trim, parts[..j + 1]) == Map(Trim, parts[..j]) + [Trim(parts[j])]
  {
  }

  /** One more segment extends the extraction by one step. */
  lemma CollectStep(seen: seq<string>, parts: seq<string>, j: nat)
    requires j < |parts|
    ensures KeepSizes(seen + Map(Trim, parts[..j + 1])) == AddToken(KeepSizes(seen + Map(Trim, parts[..j])), Trim(parts[j]))
  {
    var before := seen + Map(Trim, parts[..j]);
    MapTrimSnoc(parts, j);
    assert seen + Map(Trim, parts[..j + 1]) == before + [Trim(parts[j])];
    KeepSizesSnoc(before, Trim(parts[j]));
  }

  /** The sizes extracted from a product's variants, before sorting. */
  function ExtractedSizes(variants: Option<seq<RawVariant>>): seq<string>
  {
    KeepSizes(AllTokens(variants))
  }

  /**
   * The inner `forEach` over one title's segments: each trimmed segment
   * that matches the size pattern and is not yet listed is pushed.
   */
  method CollectFromParts(extracted: seq<string>, parts: seq<string>, ghost seen: seq<string>)
    returns (updated: seq<string>)
    requires extracted == KeepSizes(seen)
    ensures updated == KeepSizes(seen + Map(Trim, parts))
  {
    updated := extracted;
    var j := 0;
    assert seen + Map(Trim, parts[..0]) == seen;
    while j < |parts|
      invariant 0 <= j <= |parts|
      invariant updated == KeepSizes(seen + Map(Trim, parts[..j]))
    {
      var trimmed := Trim(parts[j]);
      CollectStep(seen, parts, j);
      if IsSizeToken(trimmed) && trimmed !in updated {
        updated := updated + [trimmed];
      }
      j := j + 1;
    }
    assert parts[..j] == parts;
  }

  /** The outer `forEach` over the variants that builds the list of extracted sizes. */
  method CollectSizes(variants: Option<seq<RawVariant>>) returns (extracted: seq<string>)
    ensures extracted == ExtractedSizes(variants)
    ensures Distinct(extracted)
    ensures forall t :: t in extracted <==> IsSizeToken(t) && t in AllTokens(variants)
  {
    extracted := [];
    if variants.Some? {
      var vs := variants.value;
      var i := 0;
      while i < |vs|
        invariant 0 <= i <= |vs|
        invariant extracted == KeepSizes(Tokens(vs[..i]))
      {
        extracted := CollectFromParts(extracted, TitleParts(vs[i]), Tokens(vs[..i]));
        TokensSnoc(vs, i);
        i := i + 1;
      }
      assert vs[..i] == vs;
    }
  }

  /** `sizeOrder.indexOf(t.toUpperCase())`. */
  function SizeIndex(t: string): (i: int)
    ensures -1 <= i < |SizeOrder|
    ensures i >= 0 <==> ToUpper(t) in SizeOrder
    ensures i >= 0 ==> SizeOrder[i] == ToUpper(t)
  {
    IndexOf(SizeOrder, ToUpper(t))
  }

  /**
   * The sort's comparator: two canonical sizes by their index, a
   * canonical size before any other token, and two other tokens
   * lexicographically.
   */
  function CompareSizes(a: string, b: string): int
  {
    var ai, bi := SizeIndex(a), SizeIndex(b);
    if ai != -1 && bi != -1 then ai - bi
    else if ai != -1 then -1
    else if bi != -1 then 1
    else CompareStrings(a, b)
  }

  /** Swapping the operands flips the comparator's sign. */
  lemma CompareSizesFlip(a: string, b: string)
    ensures CompareSizes(a, b) < 0 <==> CompareSizes(b, a) > 0
    ensures CompareSizes(a, b) == 0 <==> CompareSizes(b, a) == 0
  {
    if SizeIndex(a) == -1 && SizeIndex(b) == -1 {
      CompareStringsFlip(a, b);
    }
  }

  /** The comparator's "at most" is transitive. */
  lemma CompareSizesTrans(a: string, b: string, c: string)
    requires CompareSizes(a, b) <= 0 && CompareSizes(b, c) <= 0
    ensures CompareSizes(a, c) <= 0
  {
    if SizeIndex(a) == -1 && SizeIndex(b) == -1 && SizeIndex(c) == -1 {
      CompareStringsTrans(a, b, c);
    }
  }

  /** The comparator is one `sort` can rely on. */
  lemma CompareSizesConsistent()
    ensures Consistent(CompareSizes)
  {
    forall a, b ensures CompareSizes(a, b) < 0 <==> CompareSizes(b, a) > 0 {
      CompareSizesFlip(a, b);
    }
    forall a, b, c | CompareSizes(a, b) <= 0 && CompareSizes(b, c) <= 0 ensures CompareSizes(a, c) <= 0 {
      CompareSizesTrans(a, b, c);
    }
  }

  /** `sizes.sort(...)` with the size comparator. */
  function SortSizes(s: seq<string>): seq<string>
  {
    Sort(CompareSizes, s)
  }

  predicate SortedSizes(s: seq<string>)
  {
    SortedBy(CompareSizes, s)
  }

  /** Sorting the sizes yields a permutation in comparator order, without introducing repeats. */
  lemma SortSizesCorrect(s: seq<string>)
    ensures multiset(SortSizes(s)) == multiset(s)
    ensures SortedSizes(SortSizes(s))
    ensures Distinct(s) ==> Distinct(SortSizes(s))
  {
    CompareSizesConsistent();
    SortSorted(CompareSizes, s);
    if Distinct(s) {
      SortDistinct(CompareSizes, s);
    }
  }

  /**
   * What a sorted size list looks like: canonical sizes come first, in
   * canonical order, and every other token follows in lexicographic order.
   */
  lemma SortedSizesLayout(s: seq<string>, i: nat, j: nat)
    requires SortedSizes(s) && i < j < |s|
    ensures SizeIndex(s[j]) != -1 ==> SizeIndex(s[i]) != -1 && SizeIndex(s[i]) <= SizeIndex(s[j])
    ensures SizeIndex(s[i]) == -1 ==> SizeIndex(s[j]) == -1 && CompareStrings(s[i], s[j]) <= 0
  {
    assert CompareSizes(s[i], s[j]) <= 0;
  }

  /** L, XS and M sort as XS, M, L. */
  lemma SortExample()
    ensures SortSizes(["L", "XS", "M"]) == ["XS", "M", "L"]
  {
    ExampleComparisons();
    SortThree(CompareSizes, "L", "XS", "M");
  }

  lemma ExampleComparisons()
    ensures CompareSizes("XS", "L") < 0 && CompareSizes("M", "XS") > 0 && CompareSizes("M", "L") < 0
  {
    ExampleIndices();
  }

  lemma ExampleIndices()
    ensures SizeIndex("L") == 4 && SizeIndex("XS") == 1 && SizeIndex("M") == 3
  {
    UpperIndex("L", 4);
    UpperIndex("XS", 1);
    UpperIndex("M", 3);
  }

  /** An upper-case canonical size sits at its place in the canonical order. */
  lemma UpperIndex(t: string, k: nat)
    requires k < |SizeOrder| && SizeOrder[k] == t
    ensures SizeIndex(t) == k
  {
    assert ToUpper(t) == t by {
      forall i | 0 <= i < |t| ensures UpperChar(t[i]) == t[i] {
        assert t[i] in "XSML2345";
      }
    }
    forall j | 0 <= j < k ensures SizeOrder[j] != t {
      assert |SizeOrder[j]| != |t| || SizeOrder[j][0] != t[0] || SizeOrder[j][|t| - 1] != t[|t| - 1];
    }
  }

  // ---------------------------------------------------------------- price, variants, images

  predicate Enabled(v: RawVariant)
  {
    v.isEnabled
  }

  /** Upstream cents to dollars. */
  function FromCents(cents: int): real
  {
    cents as real / 100.0
  }

  /** `product.variants?.find(v => v.is_enabled)`. */
  function FirstEnabled(variants: Option<seq<RawVariant>>): Option<RawVariant>
  {
    match variants
    case None => None
    case Some(vs) => Find(Enabled, vs)
  }

  /** The product price: the first enabled variant's, or 0. */
  function PriceUSD(variants: Option<seq<RawVariant>>): real
  {
    match FirstEnabled(variants)
    case None => 0.0
    case Some(v) => FromCents(v.priceCents)
  }

  function ToVariant(v: RawVariant): Variant
  {
    Variant(v.id, v.title, FromCents(v.priceCents), v.sku, v.isAvailable)
  }

  /** `product.variants?.filter(v => v.is_enabled).map(...) || []`. */
  function EnabledVariants(variants: Option<seq<RawVariant>>): seq<Variant>
  {
    match variants
    case None => []
    case Some(vs) => Map(ToVariant, Filter(Enabled, vs))
  }

  predicate IsDefault(img: RawImage)
  {
    img.isDefault
  }

  function Src(img: RawImage): string
  {
    img.src
  }

  /** The default image's source, else the first image's, else the placeholder; an empty source counts as missing. */
  function PrimaryImage(images: Option<seq<RawImage>>): string
  {
    match images
    case None => Placeholder
    case Some(imgs) =>
      var d := Find(IsDefault, imgs);
      if d.Some? && d.value.src != "" then d.value.src
      else if |imgs| > 0 && imgs[0].src != "" then imgs[0].src
      else Placeholder
  }

  /** The image sources; only a missing image list becomes the placeholder list. */
  function ImageSources(images: Option<seq<RawImage>>): seq<string>
  {
    match images
    case None => [Placeholder]
    case Some(imgs) => Map(Src, imgs)
  }

  /** The normalised record for one upstream product. */
  function NormalizeProduct(raw: RawProduct): (p: Product)
    ensures p.id == raw.id && p.title == raw.title
    ensures p.visible == raw.visible && p.createdAt == raw.createdAt
    ensures p.colors == []
    ensures p.description == (if raw.description.Some? then raw.description.value else "")
    ensures p.tags == (if raw.tags.Some? then raw.tags.value else [])
  {
    Product(
      id := raw.id,
      title := raw.title,
      description := if raw.description.Some? && raw.description.value != "" then raw.description.value else "",
      priceUSD := PriceUSD(raw.variants),
      images := ImageSources(raw.images),
      primaryImage := PrimaryImage(raw.images),
      sizes := SortSizes(ExtractedSizes(raw.variants)),
      colors := [],
      variants := EnabledVariants(raw.variants),
      tags := if raw.tags.Some? then raw.tags.value else [],
      visible := raw.visible,
      createdAt := raw.createdAt)
  }

  // ---------------------------------------------------------------- properties

  /**
   * The product's sizes: every trimmed title segment that matches the size
   * pattern, each once, sorted by the comparator; nothing else.
   */
  lemma NormalizedSizes(raw: RawProduct)
    ensures var sizes := NormalizeProduct(raw).sizes;
      && (forall t :: t in sizes <==> IsSizeToken(t) && t in AllTokens(raw.variants))
      && Distinct(sizes)
      && SortedSizes(sizes)
      && multiset(sizes) == multiset(ExtractedSizes(raw.variants))
  {
    var extracted := ExtractedSizes(raw.variants);
    SortSizesCorrect(extracted);
    SameMembers(SortSizes(extracted), extracted);
  }

  /** A title segment becomes a size exactly when, trimmed, it matches the size pattern. */
  lemma SizeFromSegment(raw: RawProduct, t: string)
    requires raw.variants.Some?
    ensures t in NormalizeProduct(raw).sizes <==>
      IsSizeToken(t) && exists k :: 0 <= k < |raw.variants.value| && Yields(raw.variants.value[k], t)
  {
    NormalizedSizes(raw);
    TokensMembers(raw.variants.value, t);
  }

  /** The price is the first enabled variant's cents over 100, and 0 when there is none. */
  lemma NormalizedPrice(raw: RawProduct)
    ensures raw.variants.None? ==> NormalizeProduct(raw).priceUSD == 0.0
    ensures raw.variants.Some? && (forall v :: v in raw.variants.value ==> !v.isEnabled)
      ==> NormalizeProduct(raw).priceUSD == 0.0
    ensures forall k ::
      (raw.variants.Some? && 0 <= k < |raw.variants.value| && raw.variants.value[k].isEnabled
       && (forall j :: 0 <= j < k ==> !raw.variants.value[j].isEnabled))
      ==> NormalizeProduct(raw).priceUSD == raw.variants.value[k].priceCents as real / 100.0
  {
    if raw.variants.Some? {
      var vs := raw.variants.value;
      forall k | 0 <= k < |vs| && vs[k].isEnabled && (forall j :: 0 <= j < k ==> !vs[j].isEnabled)
        ensures NormalizeProduct(raw).priceUSD == vs[k].priceCents as real / 100.0
      {
        FindFirstIndex(Enabled, vs, k);
      }
    }
  }

  /** The price agrees with the first normalised variant, and is 0 when no variant survives. */
  lemma PriceMatchesVariants(raw: RawProduct)
    ensures var p := NormalizeProduct(raw);
      (p.variants == [] ==> p.priceUSD == 0.0) && (p.variants != [] ==> p.priceUSD == p.variants[0].price)
  {
    if raw.variants.Some? {
      FindIsFirstFiltered(Enabled, raw.variants.value);
    }
  }

  /** Normalising the variants of a concatenation concatenates the normalised variants. */
  lemma VariantsConcat(a: seq<RawVariant>, b: seq<RawVariant>)
    ensures EnabledVariants(Some(a + b)) == EnabledVariants(Some(a)) + EnabledVariants(Some(b))
  {
    FilterAppend(Enabled, a, b);
  }

  /** A single upstream variant survives, converted to dollars, exactly when it is enabled; a missing list gives none. */
  lemma VariantsSingle(v: RawVariant)
    ensures EnabledVariants(Some([v])) ==
      if v.isEnabled then [Variant(v.id, v.title, v.priceCents as real / 100.0, v.sku, v.isAvailable)] else []
    ensures EnabledVariants(None) == []
  {
    assert [v][1..] == [];
  }

  /** A normalised variant is the conversion of an enabled upstream variant, and every enabled one is there. */
  lemma VariantsMembers(a: seq<RawVariant>, w: Variant)
    ensures w in EnabledVariants(Some(a)) <==> exists u :: u in a && u.isEnabled && w == ToVariant(u)
  {
    var fa := Filter(Enabled, a);
    if w in EnabledVariants(Some(a)) {
      var i :| 0 <= i < |fa| && ToVariant(fa[i]) == w;
      assert fa[i] in fa;
    }
    if exists u :: u in a && u.isEnabled && w == ToVariant(u) {
      var u :| u in a && u.isEnabled && w == ToVariant(u);
      assert u in fa;
      var i :| 0 <= i < |fa| && fa[i] == u;
      assert EnabledVariants(Some(a))[i] == w;
    }
  }

  /** No image is marked default, or the first one marked default has an empty source. */
  predicate NoUsableDefault(imgs: seq<RawImage>)
  {
    forall k :: 0 <= k < |imgs| && imgs[k].isDefault && (forall j :: 0 <= j < k ==> !imgs[j].isDefault)
      ==> imgs[k].src == ""
  }

  /** The primary image follows the fallback chain and is never empty. */
  lemma NormalizedPrimaryImage(raw: RawProduct)
    ensures NormalizeProduct(raw).primaryImage != ""
    ensures raw.images.None? ==> NormalizeProduct(raw).primaryImage == Placeholder
    ensures raw.images.Some? && raw.images.value == [] ==> NormalizeProduct(raw).primaryImage == Placeholder
    ensures forall k ::
      (raw.images.Some? && 0 <= k < |raw.images.value| && raw.images.value[k].isDefault
       && raw.images.value[k].src != "" && (forall j :: 0 <= j < k ==> !raw.images.value[j].isDefault))
      ==> NormalizeProduct(raw).primaryImage == raw.images.value[k].src
    ensures raw.images.Some? && NoUsableDefault(raw.images.value) && raw.images.value != []
      ==> NormalizeProduct(raw).primaryImage == (if raw.images.value[0].src != "" then raw.images.value[0].src else Placeholder)
  {
    if raw.images.Some? {
      var imgs := raw.images.value;
      if Find(IsDefault, imgs).Some? {
        var k := FindIndex(IsDefault, imgs);
      }
      forall k | 0 <= k < |imgs| && imgs[k].isDefault && imgs[k].src != ""
        && (forall j :: 0 <= j < k ==> !imgs[j].isDefault)
        ensures NormalizeProduct(raw).primaryImage == imgs[k].src
      {
        FindFirstIndex(IsDefault, imgs, k);
      }
    }
  }

  /** The image list is the sources in order; only a missing list becomes the placeholder list. */
  lemma NormalizedImages(raw: RawProduct)
    ensures raw.images.None? ==> NormalizeProduct(raw).images == [Placeholder]
    ensures raw.images.Some? ==> |NormalizeProduct(raw).images| == |raw.images.value|
    ensures forall k ::
      (raw.images.Some? && 0 <= k < |raw.images.value|)
      ==> NormalizeProduct(raw).images[k] == raw.images.value[k].src
  {
  }

  /** 1999 cents is 19.99 dollars. */
  lemma CentsExample()
    ensures FromCents(1999) == 19.99
  {
  }
}
