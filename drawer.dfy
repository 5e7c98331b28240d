/**
 * The cart drawer (src/components/CartDrawer.tsx): the order text it
 * builds for an Instagram message, always priced in dollars, and the
 * quantity and remove buttons wired to the cart.
 */
module Drawer {
  import opened JsString
  import opened Currency
  import opened Cart

  /** The drawer's own `formatPrice`: a dollar sign and `toFixed(2)`, whatever currency is selected. */
  function UsdPrice(priceUSD: real): string
  {
    DollarSign + ToFixed2(priceUSD)
  }

  const Greeting := "Hi! I'd like to place an order:\n\n"
  const Closing := "\nPlease confirm availability and payment details."
  const ColorLabel := "   Color: "

  /** The lines of the block for the cart line at `index`; the colour line only when a colour is set. */
  function BlockLines(index: nat, item: CartItem): seq<string>
  {
    [NatToString(index + 1) + ". " + item.title, "   Size: " + item.size]
    + (if item.color != "" then [ColorLabel + item.color] else [])
    + ["   Qty: " + IntToString(item.quantity), PriceLine(item)]
  }

  /** The price line: the line's price times its quantity, in dollars. */
  function PriceLine(item: CartItem): string
  {
    "   Price: " + UsdPrice(item.priceUSD * item.quantity as real)
  }

  /** Lines, each ended by a newline. */
  function Text(lines: seq<string>): string
  {
    if lines == [] then "" else lines[0] + "\n" + Text(lines[1..])
  }

  /** A block is its lines and a blank line. */
  function Block(index: nat, item: CartItem): string
  {
    Text(BlockLines(index, item)) + "\n"
  }

  /** The text of `block(k, items[k])` for each element in turn, numbering from `start`. */
  function Numbered<T>(block: (nat, T) -> string, start: nat, items: seq<T>): string
    decreases items
  {
    if items == [] then "" else block(start, items[0]) + Numbered(block, start + 1, items[1..])
  }

  /** The blocks of `items`, numbered from `start`. */
  function Blocks(start: nat, items: seq<CartItem>): string
  {
    Numbered(Block, start, items)
  }

  /** The text `generateOrderMessage` builds, before it is URI-encoded. */
  function OrderMessage(items: seq<CartItem>, total: real): string
  {
    Greeting + Blocks(0, items) + TotalLine(total) + Closing
  }

  function TotalLine(total: real): string
  {
    "Total: " + UsdPrice(total) + "\n"
  }

  /** `generateOrderMessage`: one block per line of the cart, appended in a loop, then the total and the closing line. */
  method GenerateOrderMessage(cart: CartStore) returns (message: string)
    ensures message == OrderMessage(cart.items, TotalPrice(cart.items))
  {
    var items := cart.items;
    message := Greeting;
    var i := 0;
    assert Blocks(0, items[..0]) == [];
    assert message == Greeting + [];
    while i < |items|
      invariant 0 <= i <= |items|
      invariant message == Greeting + Blocks(0, items[..i])
    {
      TakeSnoc(items, i);
      var block := Block(i, items[i]);
      BlocksSnoc(0, items[..i], items[i]);
      Assoc(Greeting, Blocks(0, items[..i]), block);
      message := message + block;
      i := i + 1;
    }
    assert items[..i] == items;
    message := message + TotalLine(TotalPrice(items));
    message := message + Closing;
  }

  /** The minus button: one less, which removes a line whose quantity is 1. */
  method PressMinus(cart: CartStore, item: CartItem)
    requires cart.Valid()
    modifies cart
    ensures cart.Valid()
    ensures cart.items == Updated(old(cart.items), item.id, item.quantity - 1) && cart.isOpen == old(cart.isOpen)
  {
    cart.UpdateQuantity(item.id, item.quantity - 1);
  }

  /** The plus button: one more. */
  method PressPlus(cart: CartStore, item: CartItem)
    requires cart.Valid()
    modifies cart
    ensures cart.Valid()
    ensures cart.items == Updated(old(cart.items), item.id, item.quantity + 1) && cart.isOpen == old(cart.isOpen)
  {
    cart.UpdateQuantity(item.id, item.quantity + 1);
  }

  /** The trash button. */
  method PressRemove(cart: CartStore, item: CartItem)
    requires cart.Valid()
    modifies cart
    ensures cart.Valid()
    ensures cart.items == Removed(old(cart.items), item.id) && cart.isOpen == old(cart.isOpen)
  {
    cart.RemoveItem(item.id);
  }

  // ---------------------------------------------------------------- properties

  /** The drawer prices in dollars: its format is the context's format for USD, whatever currency the visitor picked. */
  lemma UsdPriceIsDollarFormat(priceUSD: real)
    ensures UsdPrice(priceUSD) == FormatPrice(USD, priceUSD)
  {
  }

  lemma {:induction false} TextAppend(a: seq<string>, b: seq<string>)
    ensures Text(a + b) == Text(a) + Text(b)
  {
    if a == [] {
      assert a + b == b;
    } else {
      assert (a + b)[1..] == a[1..] + b;
      TextAppend(a[1..], b);
    }
  }

  /** Appending a line appends its block, numbered by its position. */
  lemma BlocksSnoc(start: nat, items: seq<CartItem>, x: CartItem)
    ensures Blocks(start, items + [x]) == Blocks(start, items) + Block(start + |items|, x)
  {
    NumberedSnoc(Block, start, items, x);
  }

  lemma {:induction false} NumberedSnoc<T>(block: (nat, T) -> string, start: nat, items: seq<T>, x: T)
    ensures Numbered(block, start, items + [x]) == Numbered(block, start, items) + block(start + |items|, x)
    decreases items
  {
    if items == [] {
      assert [x][1..] == [];
    } else {
      assert (items + [x])[1..] == items[1..] + [x];
      NumberedSnoc(block, start + 1, items[1..], x);
    }
  }

  /** The blocks of two lists are the blocks of the first, then those of the second numbered on from it. */
  lemma {:induction false} NumberedAppend<T>(block: (nat, T) -> string, start: nat, a: seq<T>, b: seq<T>)
    ensures Numbered(block, start, a + b) == Numbered(block, start, a) + Numbered(block, start + |a|, b)
    decreases a
  {
    if a == [] {
      assert a + b == b;
    } else {
      assert (a + b)[1..] == a[1..] + b;
      NumberedAppend(block, start + 1, a[1..], b);
    }
  }

  lemma TakeSnoc<T>(s: seq<T>, i: nat)
    requires i < |s|
    ensures s[..i + 1] == s[..i] + [s[i]]
  {
  }

  lemma Assoc<T>(a: seq<T>, b: seq<T>, c: seq<T>)
    ensures a + b + c == a + (b + c)
  {
  }

  lemma Frame<T>(a: seq<T>, b: seq<T>, c: seq<T>)
    ensures var m := a + b + c; |m| >= |a| + |c| && m[..|a|] == a && m[|m| - |c|..] == c
  {
  }

  /** The message opens with the greeting and ends with the total line and the closing request. */
  lemma MessageFrame(items: seq<CartItem>, total: real)
    ensures var m := OrderMessage(items, total); var t := TotalLine(total) + Closing;
      |m| >= |Greeting| + |t| && m[..|Greeting|] == Greeting && m[|m| - |t|..] == t
  {
    var t := TotalLine(total) + Closing;
    Frame(Greeting, Blocks(0, items), t);
    assert OrderMessage(items, total) == Greeting + Blocks(0, items) + t;
  }

  /** The `k`-th line's block sits between the blocks of the lines before and after it. */
  lemma LineBlock(items: seq<CartItem>, k: nat)
    requires k < |items|
    ensures Blocks(0, items) == Blocks(0, items[..k]) + Block(k, items[k]) + Blocks(k + 1, items[k + 1..])
  {
    var f := Block;
    NumberedSplit(f, 0, items, k);
    var a, b, c := Blocks(0, items[..k]), Block(k, items[k]), Blocks(k + 1, items[k + 1..]);
    assert f(0 + k, items[k]) == b;
    assert Blocks(0, items) == Numbered(f, 0, items);
    assert Numbered(f, 0, items) == a + f(0 + k, items[k]) + c;
  }

  lemma NumberedSplit<T>(block: (nat, T) -> string, start: nat, items: seq<T>, k: nat)
    requires k < |items|
    ensures Numbered(block, start, items) ==
      Numbered(block, start, items[..k]) + block(start + k, items[k]) + Numbered(block, start + k + 1, items[k + 1..])
  {
    assert items == items[..k] + items[k..];
    NumberedAppend(block, start, items[..k], items[k..]);
    assert items[k..][1..] == items[k + 1..];
  }

  /** The block of the line at `index` opens with its number, counting from 1, and the item's title. */
  lemma BlockHeading(index: nat, item: CartItem)
    ensures var h := NatToString(index + 1) + ". " + item.title + "\n";
      |Block(index, item)| >= |h| && Block(index, item)[..|h|] == h
  {
    var lines := BlockLines(index, item);
    var h := NatToString(index + 1) + ". " + item.title + "\n";
    assert Text(lines) == lines[0] + "\n" + Text(lines[1..]);
    Frame(h, Text(lines[1..]), "\n");
    assert Block(index, item) == h + Text(lines[1..]) + "\n";
  }

  predicate StartsWith(l: string, prefix: string)
  {
    |l| >= |prefix| && l[..|prefix|] == prefix
  }

  /** A line that starts with a digit, or whose fourth character is not `C`, is no colour line. */
  lemma NotColorLine(l: string)
    requires |l| >= 1 && (IsDigit(l[0]) || (|l| >= 4 && l[3] != 'C'))
    ensures !StartsWith(l, ColorLabel)
  {
    if |l| >= |ColorLabel| {
      assert l[..|ColorLabel|][0] == l[0] && l[..|ColorLabel|][3] == l[3];
    }
  }

  /** A block has a colour line exactly when the item's colour is set; no other line starts like one. */
  lemma ColorLine(index: nat, item: CartItem)
    ensures (exists l :: l in BlockLines(index, item) && StartsWith(l, ColorLabel)) <==> item.color != ""
  {
    var lines := BlockLines(index, item);
    if item.color == "" {
      var number := NatToString(index + 1);
      assert lines[0][0] == number[0];
      NotColorLine(lines[0]);
      NotColorLine(lines[1]);
      NotColorLine(lines[2]);
      NotColorLine(lines[3]);
      assert |lines| == 4;
    } else {
      assert lines[2] == ColorLabel + item.color;
      assert StartsWith(lines[2], ColorLabel);
    }
  }

  /** The last two lines of a block give the quantity and the line's price times its quantity, in dollars. */
  lemma BlockShape(index: nat, item: CartItem)
    ensures var lines := BlockLines(index, item);
      && |lines| == (if item.color != "" then 5 else 4)
      && lines[|lines| - 1] == PriceLine(item)
      && lines[|lines| - 2] == "   Qty: " + IntToString(item.quantity)
  {
  }

  /** On a line of quantity 1 the minus button removes it. */
  lemma MinusAtOne(items: seq<CartItem>, item: CartItem)
    requires item.quantity == 1
    ensures Updated(items, item.id, item.quantity - 1) == Removed(items, item.id)
  {
  }

  /** Plus keeps every quantity positive, and minus does too, since a line it would bring to 0 is removed. */
  lemma ButtonsKeepPositive(items: seq<CartItem>, item: CartItem)
    requires UniqueIds(items) && Keyed(items) && AllPositive(items) && item in items
    ensures AllPositive(Updated(items, item.id, item.quantity + 1))
    ensures AllPositive(Updated(items, item.id, item.quantity - 1))
  {
    UpdatedKeeps(items, item.id, item.quantity + 1);
    UpdatedKeeps(items, item.id, item.quantity - 1);
  }
}
