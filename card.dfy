/**
 * The product card (src/components/ProductCard.tsx): the link it points
 * to, the price line, the note shown next to rupee prices, and the short
 * size summary.
 */
module Card {
  import opened Wrappers
  import opened JsString
  import opened JsArray
  import opened Catalog
  import opened Currency

  const ProductPath := "/product/"

  /** The card's link: the product page for the product's id. */
  function ProductLink(id: string): (r: string)
    ensures |r| == |ProductPath| + |id| && r[..|ProductPath|] == ProductPath && r[|ProductPath|..] == id
  {
    ProductPath + id
  }

  /** The price line, in the selected currency. */
  function CardPrice(c: Currency, product: Product): (r: string)
    ensures PriceText(c, product.priceUSD, r)
  {
    FormatPriceShape(c, product.priceUSD);
    FormatPrice(c, product.priceUSD)
  }

  const RateNoteText := "*Varies on live USD rate"

  /** The note under the price, shown for rupee prices only. */
  function RateNote(c: Currency): (r: Option<string>)
    ensures r.Some? <==> c == INR
    ensures r.Some? ==> r.value == RateNoteText
  {
    if c == INR then Some(RateNoteText) else None
  }

  const SizeSeparator := ", "

  /** The number of sizes the card lists. */
  const ListedSizes := 4

  /** `sizes.slice(0, 4).join(", ")`. */
  function SizeList(sizes: seq<string>): string
  {
    Join(sizes[..SliceEnd(|sizes|, ListedSizes)], SizeSeparator)
  }

  /** ` +N more` for the sizes beyond the first four, nothing when there are none. */
  function MoreSuffix(sizes: seq<string>): (r: string)
    ensures r == "" <==> |sizes| <= ListedSizes
  {
    if |sizes| > ListedSizes then " +" + NatToString(|sizes| - ListedSizes) + " more" else ""
  }

  /** The size line: absent for a product without sizes, otherwise the list and the suffix. */
  function SizeSummary(sizes: seq<string>): (r: Option<string>)
    ensures r.None? <==> sizes == []
    ensures r.Some? ==> r.value == SizeList(sizes) + MoreSuffix(sizes)
  {
    if |sizes| > 0 then Some(SizeList(sizes) + MoreSuffix(sizes)) else None
  }

  // ---------------------------------------------------------------- properties

  /** The list names the first four sizes, or all of them when there are fewer: splitting it at the separator gives them back. */
  lemma SizeListRoundTrip(sizes: seq<string>)
    requires sizes != [] && forall s :: s in sizes ==> ',' !in s
    ensures var n := if |sizes| < ListedSizes then |sizes| else ListedSizes;
      Split(SizeList(sizes), SizeSeparator) == sizes[..n]
  {
    var listed := sizes[..SliceEnd(|sizes|, ListedSizes)];
    forall s | s in listed ensures SizeSeparator[0] !in s {
      assert s in sizes;
    }
    JoinSplit(listed, SizeSeparator);
  }

  /** The suffix counts the sizes left out: its number is their count. */
  lemma MoreCount(sizes: seq<string>)
    requires |sizes| > ListedSizes
    ensures var d := NatToString(|sizes| - ListedSizes);
      MoreSuffix(sizes) == " +" + d + " more" && AllDigits(d) && DigitsValue(d) == |sizes| - ListedSizes
  {
    NatToStringValue(|sizes| - ListedSizes);
  }

  /** No size token holds a comma, so the size list of a card separates its sizes unambiguously. */
  lemma SizeTokenNoComma(t: string)
    requires IsSizeToken(t)
    ensures ',' !in t
  {
    forall i | 0 <= i < |t| ensures t[i] != ',' {
      assert ToUpper(t)[i] == UpperChar(t[i]);
      if t != [] && AllDigits(t) {
        assert IsDigit(t[i]);
      }
    }
  }

  /** The card of a normalised product lists its first sizes, recoverable from the text. */
  lemma CardSizes(raw: RawProduct)
    requires NormalizeProduct(raw).sizes != []
    ensures var sizes := NormalizeProduct(raw).sizes;
      var n := if |sizes| < ListedSizes then |sizes| else ListedSizes;
      SizeSummary(sizes).Some? && Split(SizeList(sizes), SizeSeparator) == sizes[..n]
  {
    var sizes := NormalizeProduct(raw).sizes;
    NormalizedSizes(raw);
    forall s | s in sizes ensures ',' !in s {
      SizeTokenNoComma(s);
    }
    SizeListRoundTrip(sizes);
  }
}
