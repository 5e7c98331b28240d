/**
 * The shopping cart (src/contexts/CartContext.tsx): a list of line items
 * keyed by product, size and colour, and the drawer's open flag. Each
 * operation's effect on the list is a function of the old list; the
 * store applies it in place.
 */
module Cart {
  import opened JsArray

  /** A line of the cart; `id` is derived from the product, size and colour. */
  datatype CartItem = CartItem(
    id: string, productId: string, title: string, image: string,
    priceUSD: real, size: string, color: string, quantity: int)

  /** What a caller hands to `addItem`: a line without its id. */
  datatype NewItem = NewItem(
    productId: string, title: string, image: string,
    priceUSD: real, size: string, color: string, quantity: int)

  /** `${productId}-${size}-${color}`. */
  function LineId(productId: string, size: string, color: string): string
  {
    productId + "-" + size + "-" + color
  }

  function ItemId(item: NewItem): string
  {
    LineId(item.productId, item.size, item.color)
  }

  function WithId(item: NewItem): CartItem
  {
    CartItem(ItemId(item), item.productId, item.title, item.image, item.priceUSD, item.size, item.color, item.quantity)
  }

  predicate HasLine(id: string, i: CartItem)
  {
    i.id == id
  }

  predicate OtherLine(id: string, i: CartItem)
  {
    i.id != id
  }

  /** The line with `id` gets `q` more; every other line is kept. */
  function Bump(id: string, q: int, i: CartItem): CartItem
  {
    if i.id == id then i.(quantity := i.quantity + q) else i
  }

  /** The line with `id` gets quantity `q`; every other line is kept. */
  function SetQuantity(id: string, q: int, i: CartItem): CartItem
  {
    if i.id == id then i.(quantity := q) else i
  }

  /** `addItem`: merge into the line with the same id, or append a new line. */
  function Added(items: seq<CartItem>, item: NewItem): seq<CartItem>
  {
    var id := ItemId(item);
    if Find(i => HasLine(id, i), items).Some? then Map(i => Bump(id, item.quantity, i), items)
    else items + [WithId(item)]
  }

  /** `removeItem`: every line but the one with `id`, in order. */
  function Removed(items: seq<CartItem>, id: string): seq<CartItem>
  {
    Filter(i => OtherLine(id, i), items)
  }

  /** `updateQuantity`: below 1 the line is removed, otherwise its quantity is replaced. */
  function Updated(items: seq<CartItem>, id: string, q: int): seq<CartItem>
  {
    if q < 1 then Removed(items, id) else Map(i => SetQuantity(id, q, i), items)
  }

  /** `items.reduce((sum, item) => sum + item.quantity, 0)`. */
  function TotalItems(items: seq<CartItem>): int
  {
    if items == [] then 0 else TotalItems(items[..|items| - 1]) + items[|items| - 1].quantity
  }

  /** `items.reduce((sum, item) => sum + item.priceUSD * item.quantity, 0)`. */
  function TotalPrice(items: seq<CartItem>): real
  {
    if items == [] then 0.0 else TotalPrice(items[..|items| - 1]) + LinePrice(items[|items| - 1])
  }

  /** What one line costs: its unit price times its quantity. */
  function LinePrice(i: CartItem): real
  {
    i.priceUSD * i.quantity as real
  }

  /** No two lines share an id. */
  predicate UniqueIds(items: seq<CartItem>)
  {
    forall i, j :: 0 <= i < j < |items| ==> items[i].id != items[j].id
  }

  /** Every line's id is the one its product, size and colour give. */
  predicate Keyed(items: seq<CartItem>)
  {
    forall i :: 0 <= i < |items| ==> items[i].id == LineId(items[i].productId, items[i].size, items[i].color)
  }

  predicate AllPositive(items: seq<CartItem>)
  {
    forall i :: 0 <= i < |items| ==> items[i].quantity >= 1
  }

  /** The cart and its drawer. */
  class CartStore {
    var items: seq<CartItem>
    var isOpen: bool

    ghost predicate Valid()
      reads this
    {
      UniqueIds(items) && Keyed(items)
    }

    constructor ()
      ensures Valid() && items == [] && !isOpen
    {
      items := [];
      isOpen := false;
    }

    method AddItem(item: NewItem)
      requires Valid()
      modifies this
      ensures Valid()
      ensures items == Added(old(items), item) && isOpen
    {
      AddedKeeps(items, item);
      items := Added(items, item);
      isOpen := true;
    }

    method RemoveItem(id: string)
      requires Valid()
      modifies this
      ensures Valid()
      ensures items == Removed(old(items), id) && isOpen == old(isOpen)
    {
      RemovedKeeps(items, id);
      items := Removed(items, id);
    }

    method UpdateQuantity(id: string, q: int)
      requires Valid()
      modifies this
      ensures Valid()
      ensures items == Updated(old(items), id, q) && isOpen == old(isOpen)
    {
      if q < 1 {
        RemoveItem(id);
        return;
      }
      UpdatedKeeps(items, id, q);
      items := Map(i => SetQuantity(id, q, i), items);
    }

    method ClearCart()
      requires Valid()
      modifies this
      ensures Valid()
      ensures items == [] && isOpen == old(isOpen)
    {
      items := [];
    }

    method SetIsOpen(open: bool)
      modifies this
      ensures isOpen == open && items == old(items)
    {
      isOpen := open;
    }

    /** `totalItems` and `totalPriceUSD` of the context: the two `reduce` folds, one line at a time. */
    method Totals() returns (count: int, price: real)
      ensures count == TotalItems(items) && price == TotalPrice(items)
    {
      count, price := 0, 0.0;
      var i := 0;
      while i < |items|
        invariant 0 <= i <= |items|
        invariant count == TotalItems(items[..i]) && price == TotalPrice(items[..i])
      {
        assert items[..i + 1][..i] == items[..i];
        count := count + items[i].quantity;
        price := price + items[i].priceUSD * items[i].quantity as real;
        i := i + 1;
      }
      assert items[..i] == items;
    }
  }

  // ---------------------------------------------------------------- properties

  /** Adding an item whose line exists adds `quantity` to that line only, and adds no line. */
  lemma AddedExisting(items: seq<CartItem>, item: NewItem, k: nat)
    requires UniqueIds(items) && k < |items| && items[k].id == ItemId(item)
    ensures |Added(items, item)| == |items|
    ensures Added(items, item)[k] == items[k].(quantity := items[k].quantity + item.quantity)
    ensures forall j :: 0 <= j < |items| && j != k ==> Added(items, item)[j] == items[j]
  {
    assert items[k] in items;
  }

  /** Adding an item with a new line appends exactly that line. */
  lemma AddedNew(items: seq<CartItem>, item: NewItem)
    requires forall i :: i in items ==> i.id != ItemId(item)
    ensures Added(items, item) == items + [WithId(item)]
  {
  }

  /** The id is the product id, a dash, the size, a dash and the colour. */
  lemma LineIdParts(productId: string, size: string, color: string)
    ensures var id := LineId(productId, size, color);
      && |id| == |productId| + |size| + |color| + 2
      && id[..|productId|] == productId && id[|productId|] == '-'
      && id[|productId| + 1..|productId| + 1 + |size|] == size && id[|productId| + 1 + |size|] == '-'
      && id[|id| - |color|..] == color
  {
  }

  /** Two lists whose lines agree on id, product, size and colour, position by position. */
  predicate SameKeys(a: seq<CartItem>, b: seq<CartItem>)
  {
    |a| == |b| && forall j :: 0 <= j < |a| ==>
      a[j].id == b[j].id && a[j].productId == b[j].productId && a[j].size == b[j].size && a[j].color == b[j].color
  }

  lemma SameKeysKeep(a: seq<CartItem>, b: seq<CartItem>)
    requires SameKeys(a, b) && UniqueIds(a) && Keyed(a)
    ensures UniqueIds(b) && Keyed(b)
  {
    forall i, j | 0 <= i < j < |b| ensures b[i].id != b[j].id {
      assert a[i].id != a[j].id;
    }
  }

  /** Adding keeps the ids unique and each line keyed by its product, size and colour. */
  lemma AddedKeeps(items: seq<CartItem>, item: NewItem)
    requires UniqueIds(items) && Keyed(items)
    ensures UniqueIds(Added(items, item)) && Keyed(Added(items, item))
    ensures AllPositive(items) && item.quantity >= 1 ==> AllPositive(Added(items, item))
  {
    var id := ItemId(item);
    if Find(i => HasLine(id, i), items).None? {
      var r := items + [WithId(item)];
      forall i, j | 0 <= i < j < |r| ensures r[i].id != r[j].id {
        if j == |items| {
          assert items[i] in items;
        }
      }
    } else {
      SameKeysKeep(items, Map(i => Bump(id, item.quantity, i), items));
    }
  }

  /** Removing keeps the ids unique and the lines keyed. */
  lemma RemovedKeeps(items: seq<CartItem>, id: string)
    requires UniqueIds(items) && Keyed(items)
    ensures UniqueIds(Removed(items, id)) && Keyed(Removed(items, id))
    ensures AllPositive(items) ==> AllPositive(Removed(items, id))
  {
    FilterUnique(i => OtherLine(id, i), items);
    FilterEvery(i => OtherLine(id, i), items);
  }

  /** Filtering a list of unique ids keeps them unique. */
  lemma {:induction false} FilterUnique(f: CartItem -> bool, items: seq<CartItem>)
    requires UniqueIds(items)
    ensures UniqueIds(Filter(f, items))
  {
    if items != [] {
      var x, tail := items[0], items[1..];
      var rest := Filter(f, tail);
      assert UniqueIds(tail);
      FilterUnique(f, tail);
      if f(x) {
        forall y | y in rest ensures y.id != x.id {
          var k :| 0 <= k < |tail| && tail[k] == y;
          assert items[k + 1] == y;
        }
        ConsUnique(x, rest);
      } else {
        assert Filter(f, items) == rest;
      }
    }
  }

  /** A line in front of lines with unique ids, none of them its own, keeps the ids unique. */
  lemma ConsUnique(x: CartItem, rest: seq<CartItem>)
    requires UniqueIds(rest) && forall y :: y in rest ==> y.id != x.id
    ensures UniqueIds([x] + rest)
  {
    var r := [x] + rest;
    forall i, j | 0 <= i < j < |r| ensures r[i].id != r[j].id {
      assert r[j] == rest[j - 1];
      if i > 0 {
        assert r[i] == rest[i - 1];
      }
    }
  }

  /** A property of every line survives any filter. */
  lemma FilterEvery(f: CartItem -> bool, items: seq<CartItem>)
    ensures Keyed(items) ==> Keyed(Filter(f, items))
    ensures AllPositive(items) ==> AllPositive(Filter(f, items))
  {
    var r := Filter(f, items);
    forall i | 0 <= i < |r| ensures exists j :: 0 <= j < |items| && items[j] == r[i] {
      assert r[i] in items;
    }
  }

  /** Updating keeps the ids unique and the lines keyed; with a quantity of at least 1 it keeps every quantity positive. */
  lemma UpdatedKeeps(items: seq<CartItem>, id: string, q: int)
    requires UniqueIds(items) && Keyed(items)
    ensures UniqueIds(Updated(items, id, q)) && Keyed(Updated(items, id, q))
    ensures AllPositive(items) ==> AllPositive(Updated(items, id, q))
  {
    if q < 1 {
      RemovedKeeps(items, id);
    } else {
      SameKeysKeep(items, Map(i => SetQuantity(id, q, i), items));
    }
  }

  /** Updating to a quantity below 1 is removing. */
  lemma UpdateBelowOne(items: seq<CartItem>, id: string, q: int)
    requires q < 1
    ensures Updated(items, id, q) == Removed(items, id)
  {
  }

  /** Updating to a quantity of at least 1 replaces that line's quantity and changes nothing else. */
  lemma UpdateSets(items: seq<CartItem>, id: string, q: int)
    requires q >= 1
    ensures |Updated(items, id, q)| == |items|
    ensures forall j :: 0 <= j < |items| ==>
      Updated(items, id, q)[j] == if items[j].id == id then items[j].(quantity := q) else items[j]
  {
  }

  /** Removing drops exactly the lines with that id and keeps the others in order. */
  lemma RemovedMembers(a: seq<CartItem>, b: seq<CartItem>, id: string, x: CartItem)
    ensures x in Removed(a, id) <==> x in a && x.id != id
    ensures Removed(a + b, id) == Removed(a, id) + Removed(b, id)
  {
    FilterAppend(i => OtherLine(id, i), a, b);
  }

  /** Removing an id no line has changes nothing. */
  lemma RemoveUnknown(items: seq<CartItem>, id: string)
    requires forall i :: i in items ==> i.id != id
    ensures Removed(items, id) == items
  {
    FilterAll(i => OtherLine(id, i), items);
  }

  /** The totals of a concatenation are the sums of the totals. */
  lemma {:induction false} TotalsAppend(a: seq<CartItem>, b: seq<CartItem>)
    ensures TotalItems(a + b) == TotalItems(a) + TotalItems(b)
    ensures TotalPrice(a + b) == TotalPrice(a) + TotalPrice(b)
  {
    if b == [] {
      assert a + b == a;
    } else {
      var b' := b[..|b| - 1];
      assert (a + b)[..|a + b| - 1] == a + b';
      TotalsAppend(a, b');
    }
  }

  /** Adding a new line adds its quantity to the item count and its price times quantity to the total. */
  lemma TotalsAddedNew(items: seq<CartItem>, item: NewItem)
    requires forall i :: i in items ==> i.id != ItemId(item)
    ensures TotalItems(Added(items, item)) == TotalItems(items) + item.quantity
    ensures TotalPrice(Added(items, item)) == TotalPrice(items) + item.priceUSD * item.quantity as real
  {
    TotalsAppend(items, [WithId(item)]);
    assert [WithId(item)][..0] == [];
  }

  /** Merging `q` into the one line with `id` raises the item count by `q`. */
  lemma {:induction false} TotalItemsBump(items: seq<CartItem>, id: string, q: int, k: nat)
    requires UniqueIds(items) && k < |items| && items[k].id == id
    ensures TotalItems(Map(i => Bump(id, q, i), items)) == TotalItems(items) + q
  {
    var n := |items| - 1;
    var bumped := Map(i => Bump(id, q, i), items);
    assert bumped[..n] == Map(i => Bump(id, q, i), items[..n]);
    if k < n {
      TotalItemsBump(items[..n], id, q, k);
    } else {
      NoLineBump(items[..n], id, q);
    }
  }

  lemma {:induction false} NoLineBump(items: seq<CartItem>, id: string, q: int)
    requires forall j :: 0 <= j < |items| ==> items[j].id != id
    ensures TotalItems(Map(i => Bump(id, q, i), items)) == TotalItems(items)
  {
    if items != [] {
      var n := |items| - 1;
      assert Map(i => Bump(id, q, i), items)[..n] == Map(i => Bump(id, q, i), items[..n]);
      NoLineBump(items[..n], id, q);
    }
  }

  /** Adding an item raises the item count by its quantity, whether it merges or appends. */
  lemma TotalItemsAdded(items: seq<CartItem>, item: NewItem)
    requires UniqueIds(items)
    ensures TotalItems(Added(items, item)) == TotalItems(items) + item.quantity
  {
    var id := ItemId(item);
    var found := Find(i => HasLine(id, i), items);
    if found.Some? {
      var k :| 0 <= k < |items| && items[k] == found.value;
      TotalItemsBump(items, id, item.quantity, k);
    } else {
      TotalsAddedNew(items, item);
    }
  }

  /** Both totals split around the line at `k`. */
  lemma TotalsSplit(items: seq<CartItem>, k: nat)
    requires k < |items|
    ensures TotalItems(items) == TotalItems(items[..k]) + items[k].quantity + TotalItems(items[k + 1..])
    ensures TotalPrice(items) == TotalPrice(items[..k]) + LinePrice(items[k]) + TotalPrice(items[k + 1..])
  {
    var a, x, b := items[..k], items[k], items[k + 1..];
    assert items == (a + [x]) + b;
    TotalsAppend(a + [x], b);
    assert (a + [x])[..|a|] == a;
  }

  /** Changing only the line at `k` changes both totals by that line's difference. */
  lemma OneLineTotals(items: seq<CartItem>, f: CartItem -> CartItem, k: nat)
    requires k < |items|
    requires forall j :: 0 <= j < |items| && j != k ==> f(items[j]) == items[j]
    ensures TotalItems(Map(f, items)) == TotalItems(items) - items[k].quantity + f(items[k]).quantity
    ensures TotalPrice(Map(f, items)) == TotalPrice(items) - LinePrice(items[k]) + LinePrice(f(items[k]))
  {
    var m := Map(f, items);
    assert m[..k] == items[..k];
    assert m[k + 1..] == items[k + 1..];
    TotalsSplit(items, k);
    TotalsSplit(m, k);
  }

  /** Merging `q` more into a line makes it dearer by its unit price times `q`. */
  lemma LinePriceBump(id: string, q: int, x: CartItem)
    requires x.id == id
    ensures LinePrice(Bump(id, q, x)) == LinePrice(x) + x.priceUSD * q as real
  {
    assert x.priceUSD * (x.quantity + q) as real == x.priceUSD * x.quantity as real + x.priceUSD * q as real;
  }

  /** A line set to quantity `q` costs its unit price times `q`. */
  lemma LinePriceSet(id: string, q: int, x: CartItem)
    requires x.id == id
    ensures LinePrice(SetQuantity(id, q, x)) == x.priceUSD * q as real
  {
  }

  /** With unique ids, every line but the one at `k` has another id. */
  lemma OtherIndices(items: seq<CartItem>, id: string, k: nat)
    requires UniqueIds(items) && k < |items| && items[k].id == id
    ensures forall j :: 0 <= j < |items| && j != k ==> items[j].id != id
  {
  }

  /**
   * Merging into the line at `k` raises the count by the merged quantity and
   * swaps that line's price for the price of the merged line, which
   * `LinePriceBump` says is dearer by its unit price times the merged quantity.
   */
  lemma TotalsAddedExisting(items: seq<CartItem>, item: NewItem, k: nat)
    requires UniqueIds(items) && k < |items| && items[k].id == ItemId(item)
    ensures TotalItems(Added(items, item)) == TotalItems(items) + item.quantity
    ensures TotalPrice(Added(items, item))
      == TotalPrice(items) - LinePrice(items[k]) + LinePrice(Bump(ItemId(item), item.quantity, items[k]))
  {
    var id := ItemId(item);
    var f := i => Bump(id, item.quantity, i);
    assert Added(items, item) == Map(f, items) by {
      FindFirstIndex(i => HasLine(id, i), items, k);
    }
    OtherIndices(items, id, k);
    OneLineTotals(items, f, k);
  }

  /**
   * Setting the line at `k` to `q >= 1` changes the count by the difference in
   * its quantity and swaps that line's price for its price at quantity `q`,
   * which `LinePriceSet` says is its unit price times `q`.
   */
  lemma TotalsUpdated(items: seq<CartItem>, id: string, q: int, k: nat)
    requires UniqueIds(items) && k < |items| && items[k].id == id && q >= 1
    ensures TotalItems(Updated(items, id, q)) == TotalItems(items) - items[k].quantity + q
    ensures TotalPrice(Updated(items, id, q)) == TotalPrice(items) - LinePrice(items[k]) + LinePrice(SetQuantity(id, q, items[k]))
  {
    var f := i => SetQuantity(id, q, i);
    assert Updated(items, id, q) == Map(f, items);
    OtherIndices(items, id, k);
    OneLineTotals(items, f, k);
  }

  /** With unique ids, removing the id of the line at `k` leaves the lines before and after it. */
  lemma RemovedAt(items: seq<CartItem>, id: string, k: nat)
    requires UniqueIds(items) && k < |items| && items[k].id == id
    ensures Removed(items, id) == items[..k] + items[k + 1..]
  {
    var a, x, b := items[..k], items[k], items[k + 1..];
    assert items == a + [x] + b;
    OthersDiffer(items, id, k);
    RemovedAround(a, x, b, id);
  }

  /** Removing the id of `x` from `a + [x] + b`, where no line of `a` or `b` has it, leaves `a + b`. */
  lemma RemovedAround(a: seq<CartItem>, x: CartItem, b: seq<CartItem>, id: string)
    requires x.id == id
    requires forall i :: i in a ==> i.id != id
    requires forall i :: i in b ==> i.id != id
    ensures Removed(a + [x] + b, id) == a + b
  {
    assert Removed([x], id) == [] by {
      FilterNone(i => OtherLine(id, i), [x]);
    }
    assert Removed(a + [x], id) == a by {
      RemovedAppend(a, [x], id);
      RemoveUnknown(a, id);
    }
    RemovedAppend(a + [x], b, id);
    RemoveUnknown(b, id);
  }

  lemma RemovedAppend(a: seq<CartItem>, b: seq<CartItem>, id: string)
    ensures Removed(a + b, id) == Removed(a, id) + Removed(b, id)
  {
    FilterAppend(i => OtherLine(id, i), a, b);
  }

  /** With unique ids, no line before or after the one at `k` has its id. */
  lemma OthersDiffer(items: seq<CartItem>, id: string, k: nat)
    requires UniqueIds(items) && k < |items| && items[k].id == id
    ensures forall i :: i in items[..k] ==> i.id != id
    ensures forall i :: i in items[k + 1..] ==> i.id != id
  {
    forall i | i in items[..k] ensures i.id != id {
      var j :| 0 <= j < k && items[..k][j] == i;
    }
    forall i | i in items[k + 1..] ensures i.id != id {
      var j :| 0 <= j < |items| - k - 1 && items[k + 1..][j] == i;
      assert items[k + 1 + j] == i;
    }
  }

  /** Removing the line at `k` takes its quantity off the count and its price times quantity off the total. */
  lemma TotalsRemoved(items: seq<CartItem>, id: string, k: nat)
    requires UniqueIds(items) && k < |items| && items[k].id == id
    ensures TotalItems(Removed(items, id)) == TotalItems(items) - items[k].quantity
    ensures TotalPrice(Removed(items, id)) == TotalPrice(items) - LinePrice(items[k])
  {
    RemovedAt(items, id, k);
    TotalsSplit(items, k);
    TotalsAppend(items[..k], items[k + 1..]);
  }

  /** An empty cart counts no items and costs nothing. */
  lemma TotalsEmpty()
    ensures TotalItems([]) == 0 && TotalPrice([]) == 0.0
  {
  }
}
