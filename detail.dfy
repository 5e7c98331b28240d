/**
 * The product page (src/pages/ProductDetail.tsx): which state it shows,
 * the page's selection state (size, colour, quantity, image), the
 * add-to-cart guard and the defaults it fills in, the buy-now message,
 * the main image and the tag stripping of the description.
 */
module Detail {
  import opened Wrappers
  import opened JsString
  import opened JsArray
  import opened Catalog
  import opened Products
  import opened Currency
  import opened Cart

  // ---------------------------------------------------------------- page state

  datatype DetailView = Loading | NotFound | Found(product: Product)

  /**
   * The page for the route id: placeholders while the catalog loads, the
   * not-found notice on an error or when no product has that id, and the
   * product otherwise. A missing route id is looked up as "".
   */
  function View(isLoading: bool, error: bool, data: Option<seq<Product>>, routeId: Option<string>): (v: DetailView)
    ensures isLoading <==> v == Loading
    ensures var id := if routeId.Some? then routeId.value else "";
      v == NotFound <==> !isLoading && (error || FindProduct(data, id).None?)
    ensures v.Found? ==> data.Some? && v.product in data.value
    ensures v.Found? ==> v.product.id == if routeId.Some? then routeId.value else ""
  {
    var product := FindProduct(data, if routeId.Some? then routeId.value else "");
    if isLoading then Loading
    else if error || product.None? then NotFound
    else Found(product.value)
  }

  /** `value || fallback` on strings: the empty string gives way to the fallback. */
  function OrDefault(value: string, fallback: string): (r: string)
    ensures value != "" ==> r == value
    ensures value == "" ==> r == fallback
  {
    if value == "" then fallback else value
  }

  const OneSize := "One Size"

  /** `product.sizes.length > 0 && !selectedSize`: both action buttons are disabled and adding does nothing. */
  predicate NeedsSize(product: Product, selectedSize: string)
  {
    |product.sizes| > 0 && selectedSize == ""
  }

  /** The item `handleAddToCart` hands to the cart. */
  function ItemFor(product: Product, selectedSize: string, selectedColor: string, quantity: int): (item: NewItem)
    ensures item.productId == product.id && item.title == product.title
    ensures item.image == product.primaryImage && item.priceUSD == product.priceUSD
    ensures item.size == (if selectedSize == "" then OneSize else selectedSize)
    ensures item.color == selectedColor && item.quantity == quantity
  {
    NewItem(product.id, product.title, product.primaryImage, product.priceUSD,
            OrDefault(selectedSize, OneSize), OrDefault(selectedColor, ""), quantity)
  }

  const ColorPrefix := "Color: "

  /** The lines of the buy-now message; a colour line only when a colour is selected. */
  function BuyNowLines(product: Product, selectedSize: string, selectedColor: string, quantity: int, c: Currency): seq<string>
  {
    ["Hi! I'd like to order:", "", product.title, "Size: " + OrDefault(selectedSize, OneSize)]
    + (if selectedColor != "" then [ColorPrefix + selectedColor] else [])
    + ["Qty: " + IntToString(quantity), BuyNowPrice(product, quantity, c), "", "Please confirm availability!"]
  }

  /** The price line: the product's price times the quantity, in the selected currency. */
  function BuyNowPrice(product: Product, quantity: int, c: Currency): string
  {
    "Price: " + FormatPrice(c, product.priceUSD * quantity as real)
  }

  /** The buy-now message: its lines joined by newlines. */
  function BuyNowMessage(product: Product, selectedSize: string, selectedColor: string, quantity: int, c: Currency): string
  {
    Join(BuyNowLines(product, selectedSize, selectedColor, quantity, c), "\n")
  }

  /** `images[activeImage] || primaryImage`: an index past the end, or an empty source, falls back to the primary image. */
  function MainImage(product: Product, activeImage: nat): (src: string)
    ensures activeImage < |product.images| && product.images[activeImage] != "" ==> src == product.images[activeImage]
    ensures activeImage >= |product.images| || product.images[activeImage] == "" ==> src == product.primaryImage
  {
    if activeImage < |product.images| then OrDefault(product.images[activeImage], product.primaryImage)
    else product.primaryImage
  }

  /** The selection state of the page. */
  class DetailPage {
    var selectedSize: string
    var selectedColor: string
    var quantity: int
    var activeImage: nat

    /** The stepper never goes below 1. */
    ghost predicate Valid()
      reads this
    {
      quantity >= 1
    }

    constructor ()
      ensures Valid()
      ensures selectedSize == "" && selectedColor == "" && quantity == 1 && activeImage == 0
    {
      selectedSize, selectedColor, quantity, activeImage := "", "", 1, 0;
    }

    method SelectSize(size: string)
      modifies this
      ensures selectedSize == size
      ensures selectedColor == old(selectedColor) && quantity == old(quantity) && activeImage == old(activeImage)
    {
      selectedSize := size;
    }

    method SelectColor(color: string)
      modifies this
      ensures selectedColor == color
      ensures selectedSize == old(selectedSize) && quantity == old(quantity) && activeImage == old(activeImage)
    {
      selectedColor := color;
    }

    method SelectImage(index: nat)
      modifies this
      ensures activeImage == index
      ensures selectedSize == old(selectedSize) && selectedColor == old(selectedColor) && quantity == old(quantity)
    {
      activeImage := index;
    }

    /** The minus button: `Math.max(1, quantity - 1)`. */
    method Decrement()
      requires Valid()
      modifies this
      ensures Valid()
      ensures quantity == if old(quantity) > 1 then old(quantity) - 1 else 1
      ensures selectedSize == old(selectedSize) && selectedColor == old(selectedColor) && activeImage == old(activeImage)
    {
      quantity := if 1 > quantity - 1 then 1 else quantity - 1;
    }

    /** The plus button. */
    method Increment()
      requires Valid()
      modifies this
      ensures Valid()
      ensures quantity == old(quantity) + 1
      ensures selectedSize == old(selectedSize) && selectedColor == old(selectedColor) && activeImage == old(activeImage)
    {
      quantity := quantity + 1;
    }

    /** `handleAddToCart`: nothing while a size is needed; otherwise the item, with its defaults, goes to the cart. */
    method AddToCart(cart: CartStore, product: Product)
      requires cart.Valid()
      modifies cart
      ensures cart.Valid()
      ensures NeedsSize(product, selectedSize) ==> cart.items == old(cart.items) && cart.isOpen == old(cart.isOpen)
      ensures !NeedsSize(product, selectedSize) ==>
        cart.items == Added(old(cart.items), ItemFor(product, selectedSize, selectedColor, quantity)) && cart.isOpen
    {
      if NeedsSize(product, selectedSize) {
        return;
      }
      cart.AddItem(ItemFor(product, selectedSize, selectedColor, quantity));
    }

    /** `handleBuyNow`: add to the cart, then the message for the clipboard. */
    method BuyNow(cart: CartStore, product: Product, c: Currency) returns (message: string)
      requires cart.Valid()
      modifies cart
      ensures cart.Valid()
      ensures NeedsSize(product, selectedSize) ==> cart.items == old(cart.items) && cart.isOpen == old(cart.isOpen)
      ensures !NeedsSize(product, selectedSize) ==>
        cart.items == Added(old(cart.items), ItemFor(product, selectedSize, selectedColor, quantity)) && cart.isOpen
      ensures message == BuyNowMessage(product, selectedSize, selectedColor, quantity, c)
    {
      AddToCart(cart, product);
      message := BuyNowMessage(product, selectedSize, selectedColor, quantity, c);
    }
  }

  // ---------------------------------------------------------------- description

  /**
   * `description.replace(/<[^>]*>/g, "")`: scanning from the left, a `<`
   * with some `>` after it starts a match that ends at the first such `>`
   * and is removed; any other character is kept.
   */
  function StripTags(s: string): string
    decreases |s|
  {
    if s == [] then []
    else if s[0] == '<' && '>' in s[1..] then StripTags(s[1..][IndexOf(s[1..], '>') + 1..])
    else [s[0]] + StripTags(s[1..])
  }

  /** No `<` has a `>` anywhere after it: nothing the pattern could match. */
  predicate NoTagPair(s: string)
  {
    forall i, j :: 0 <= i < j < |s| && s[i] == '<' ==> s[j] != '>'
  }

  /** The description paragraph: shown only for a non-empty description, with its tags stripped. */
  function ShownDescription(product: Product): (r: Option<string>)
    ensures r.None? <==> product.description == ""
    ensures r.Some? ==> r.value == StripTags(product.description) && NoTagPair(r.value)
  {
    if product.description == "" then None
    else
      StripNoTagPair(product.description);
      Some(StripTags(product.description))
  }

  // ---------------------------------------------------------------- properties

  /** Stripping only removes characters: every character left was in the input. */
  lemma {:induction false} StripKeeps(s: string, c: char)
    ensures c in StripTags(s) ==> c in s
    decreases |s|
  {
    if s != [] {
      if s[0] == '<' && '>' in s[1..] {
        var t := s[1..][IndexOf(s[1..], '>') + 1..];
        StripKeeps(t, c);
        if c in t {
          var k :| 0 <= k < |t| && t[k] == c;
          assert s[IndexOf(s[1..], '>') + 2 + k] == c;
        }
      } else {
        StripKeeps(s[1..], c);
        if c in StripTags(s[1..]) {
          var k :| 0 <= k < |s[1..]| && s[1..][k] == c;
          assert s[k + 1] == c;
        }
      }
    }
  }

  /** After stripping, no `<` is followed anywhere by a `>`. */
  lemma {:induction false} StripNoTagPair(s: string)
    ensures NoTagPair(StripTags(s))
    decreases |s|
  {
    if s != [] {
      if s[0] == '<' && '>' in s[1..] {
        StripNoTagPair(s[1..][IndexOf(s[1..], '>') + 1..]);
      } else {
        StripNoTagPair(s[1..]);
        if s[0] == '<' {
          StripKeeps(s[1..], '>');
        }
        ConsNoTagPair(s[0], StripTags(s[1..]));
      }
    }
  }

  /** A character in front of a text without tag pairs makes none, unless it is a `<` before some `>`. */
  lemma ConsNoTagPair(c: char, rest: string)
    requires NoTagPair(rest) && (c == '<' ==> '>' !in rest)
    ensures NoTagPair([c] + rest)
  {
    var r := [c] + rest;
    forall i, j | 0 <= i < j < |r| && r[i] == '<' ensures r[j] != '>' {
      assert r[j] == rest[j - 1];
      if i > 0 {
        assert r[i] == rest[i - 1];
      }
    }
  }

  /** Text with nothing to match is left as it is. */
  lemma {:induction false} StripPlain(s: string)
    requires NoTagPair(s)
    ensures StripTags(s) == s
    decreases |s|
  {
    if s != [] {
      if s[0] == '<' {
        forall j | 0 <= j < |s[1..]| ensures s[1..][j] != '>' {
          assert s[j + 1] != '>';
        }
      }
      assert NoTagPair(s[1..]) by {
        forall i, j | 0 <= i < j < |s[1..]| && s[1..][i] == '<' ensures s[1..][j] != '>' {
          assert s[i + 1] == '<';
        }
      }
      StripPlain(s[1..]);
      assert [s[0]] + s[1..] == s;
    }
  }

  /** Stripping changes a text exactly when it holds a `<` followed somewhere by a `>`. */
  lemma StripUnchanged(s: string)
    ensures StripTags(s) == s <==> NoTagPair(s)
  {
    StripNoTagPair(s);
    if NoTagPair(s) {
      StripPlain(s);
    }
  }

  /** Stripping twice is stripping once. */
  lemma StripIdempotent(s: string)
    ensures StripTags(StripTags(s)) == StripTags(s)
  {
    StripNoTagPair(s);
    StripPlain(StripTags(s));
  }

  /** The colour line, fifth in the message, is there exactly when a colour is selected. */
  lemma BuyNowColorLine(product: Product, selectedSize: string, selectedColor: string, quantity: int, c: Currency)
    ensures var lines := BuyNowLines(product, selectedSize, selectedColor, quantity, c);
      |lines| == (if selectedColor != "" then 9 else 8)
      && (|lines[4]| >= |ColorPrefix| && lines[4][..|ColorPrefix|] == ColorPrefix <==> selectedColor != "")
  {
    var lines := BuyNowLines(product, selectedSize, selectedColor, quantity, c);
    if selectedColor == "" {
      assert lines[4] == "Qty: " + IntToString(quantity);
      if |lines[4]| >= |ColorPrefix| {
        assert lines[4][..|ColorPrefix|][0] == 'Q';
      }
    } else {
      assert lines[4] == ColorPrefix + selectedColor;
    }
  }

  /** The price line, third from the end, prices the whole quantity in the selected currency. */
  lemma BuyNowPriceLine(product: Product, selectedSize: string, selectedColor: string, quantity: int, c: Currency)
    ensures var lines := BuyNowLines(product, selectedSize, selectedColor, quantity, c);
      |lines| >= 8 && lines[|lines| - 3] == BuyNowPrice(product, quantity, c)
      && lines[2] == product.title && lines[3] == "Size: " + OrDefault(selectedSize, OneSize)
  {
  }

  /** A character that opens no tag is kept. */
  lemma StripKeepsFirst(s: string)
    requires s != [] && s[0] != '<'
    ensures StripTags(s) == [s[0]] + StripTags(s[1..])
  {
  }

  /** A `<` whose first following `>` is at `j` is removed together with everything up to that `>`. */
  lemma StripDropsTag(s: string, j: nat)
    requires 0 < j < |s| && s[0] == '<' && s[j] == '>'
    requires forall k :: 0 < k < j ==> s[k] != '>'
    ensures StripTags(s) == StripTags(s[j + 1..])
  {
    var t := s[1..];
    assert t[j - 1] == '>';
    var i := IndexOf(t, '>');
    assert i == j - 1 by {
      assert forall k :: 0 <= k < j - 1 ==> t[k] == s[k + 1];
    }
    assert t[i + 1..] == s[j + 1..];
  }

  /** A tag disappears and the text around it stays. */
  lemma StripExample()
    ensures StripTags("a<br>b") == "ab"
  {
    var s := "a<br>b";
    StripKeepsFirst(s);
    assert s[1..] == "<br>b";
    StripDropsTag(s[1..], 3);
    assert s[1..][4..] == "b";
    StripKeepsFirst("b");
  }
}
