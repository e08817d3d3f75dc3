/** The stock save hook of an order: the check phase, the update phase, and the
    catalog it changes. The catalog maps product ids to products; lookups go
    through findById, so a hidden product is not found. */
module Inventory {
  import opened Common
  import opened ProductModel
  import opened OrderModel

  type Products = map<ProductId, Product>

  datatype ReserveError =
    | ProductNotFound(product: ProductId)
    | SizeNotFound(product: ProductId, size: string)
    | InsufficientStock(product: ProductId, size: string)

  /** Every stored inventory entry satisfies the schema's bounds. */
  predicate ValidCatalog(c: Products) {
    forall p :: p in c ==> ValidInventory(c[p].inventory)
  }

  /** `inventory.find(item => item.size === size)`: the index of the first entry of the size. */
  function FindSize(inv: seq<InventoryEntry>, size: string): (r: Option<nat>)
    ensures r.Some? ==> r.value < |inv| && inv[r.value].size == size
    ensures r.Some? ==> forall j :: 0 <= j < r.value ==> inv[j].size != size
    ensures r.None? ==> forall j :: 0 <= j < |inv| ==> inv[j].size != size
  {
    if inv == [] then None
    else if inv[0].size == size then Some(0)
    else match FindSize(inv[1..], size)
      case None => None
      case Some(k) => Some(k + 1)
  }

  /** The counter a line of the order reads: the first entry of its size in its
      (visible) product. None when the product or the size is missing. */
  function EntryFor(c: Products, p: ProductId, s: string): (r: Option<InventoryEntry>)
    ensures r.Some? ==> p in c && c[p].isShow && r.value in c[p].inventory && r.value.size == s
    ensures r.None? ==> p !in c || !c[p].isShow || forall j :: 0 <= j < |c[p].inventory| ==> c[p].inventory[j].size != s
    ensures r.Some? ==> FindSize(c[p].inventory, s).Some? && r.value == c[p].inventory[FindSize(c[p].inventory, s).value]
  {
    match FindById(c, p)
    case None => None
    case Some(prod) =>
      match FindSize(prod.inventory, s)
      case None => None
      case Some(k) => Some(prod.inventory[k])
  }

  /** The check of one line against the catalog c; None when it passes. */
  function CheckLine(c: Products, item: OrderItem): (r: Option<ReserveError>)
    ensures r.None? <==> EntryFor(c, item.product, item.size).Some? &&
                         item.quantity <= EntryFor(c, item.product, item.size).value.stock
    ensures r == Some(ProductNotFound(item.product)) <==> FindById(c, item.product).None?
    ensures r == Some(SizeNotFound(item.product, item.size)) <==>
      FindById(c, item.product).Some? && EntryFor(c, item.product, item.size).None?
    ensures r.Some? ==> r.value.product == item.product
    ensures EntryFor(c, item.product, item.size).Some? &&
            EntryFor(c, item.product, item.size).value.stock < item.quantity ==>
      r == Some(InsufficientStock(item.product, item.size))
  {
    if FindById(c, item.product).None? then Some(ProductNotFound(item.product))
    else if EntryFor(c, item.product, item.size).None? then Some(SizeNotFound(item.product, item.size))
    else if EntryFor(c, item.product, item.size).value.stock < item.quantity then
      Some(InsufficientStock(item.product, item.size))
    else None
  }

  /** The `map` over the stored inventory: every entry of the size takes the new
      stock and sold count. */
  function RewriteSize(inv: seq<InventoryEntry>, size: string, stock: int, sold: int): (r: seq<InventoryEntry>)
    ensures |r| == |inv|
    ensures forall i :: 0 <= i < |inv| ==> r[i].size == inv[i].size
    ensures forall i :: 0 <= i < |inv| && inv[i].size != size ==> r[i] == inv[i]
    ensures forall i :: 0 <= i < |inv| && inv[i].size == size ==> r[i].stock == stock && r[i].soldAmount == sold
  {
    seq(|inv|, i requires 0 <= i < |inv| =>
      if inv[i].size == size then inv[i].(stock := stock, soldAmount := sold) else inv[i])
  }

  /** The update of one line: the first entry of the size loses the quantity
      from its stock and gains it in its sold count, and every entry of that size
      is rewritten with those two values. A line that does not resolve changes
      nothing (the check phase has excluded it). */
  function ApplyLine(c: Products, item: OrderItem): (r: Products)
    ensures r.Keys == c.Keys
  {
    match FindById(c, item.product)
    case None => c
    case Some(prod) =>
      match FindSize(prod.inventory, item.size)
      case None => c
      case Some(k) =>
        var e := prod.inventory[k];
        c[item.product := prod.(inventory := RewriteSize(prod.inventory, item.size,
                                                         e.stock - item.quantity,
                                                         e.soldAmount + item.quantity))]
  }

  /** The quantity the lines order of the counter (p, s). */
  function Qty(items: seq<OrderItem>, p: ProductId, s: string): int {
    if items == [] then 0
    else (if items[0].product == p && items[0].size == s then items[0].quantity else 0) + Qty(items[1..], p, s)
  }

  /** A counter shifted by an ordered quantity: stock down, sold count up. */
  function Shift(e: Option<InventoryEntry>, q: int): Option<InventoryEntry> {
    match e
    case None => None
    case Some(x) => Some(x.(stock := x.stock - q, soldAmount := x.soldAmount + q))
  }

  /** No two lines of the order name the same (product, size) counter. */
  predicate DistinctPairs(items: seq<OrderItem>) {
    forall i, j :: 0 <= i < j < |items| ==>
      items[i].product != items[j].product || items[i].size != items[j].size
  }

  // ---------------------------------------------------------------------
  // The hook as written: check every line against the stock before the
  // order, then apply every line.
  // ---------------------------------------------------------------------

  /** Line i is the first line of the order that fails its check against c. */
  predicate FirstFailure(c: Products, items: seq<OrderItem>, i: int) {
    0 <= i < |items| && CheckLine(c, items[i]).Some? &&
    forall j :: 0 <= j < i ==> CheckLine(c, items[j]).None?
  }

  lemma {:induction false} FirstFailureCons(c: Products, items: seq<OrderItem>, i: int)
    requires items != [] && CheckLine(c, items[0]).None?
    requires FirstFailure(c, items[1..], i)
    ensures FirstFailure(c, items, i + 1) && CheckLine(c, items[i + 1]) == CheckLine(c, items[1..][i])
  {
    forall j | 1 <= j < i + 1 ensures CheckLine(c, items[j]).None? {
      assert items[j] == items[1..][j - 1];
    }
  }

  /** The check phase: the error of the first line that fails against c. */
  function CheckAll(c: Products, items: seq<OrderItem>): (r: Option<ReserveError>)
    ensures r.None? <==> forall i :: 0 <= i < |items| ==> CheckLine(c, items[i]).None?
    ensures r.Some? ==> exists i :: FirstFailure(c, items, i) && r == CheckLine(c, items[i])
    decreases |items|
  {
    if items == [] then None
    else match CheckLine(c, items[0])
      case Some(e) =>
        assert FirstFailure(c, items, 0);
        Some(e)
      case None =>
        var r := CheckAll(c, items[1..]);
        assert r.Some? ==> exists i :: FirstFailure(c, items, i) && r == CheckLine(c, items[i]) by {
          if r.Some? {
            var i :| FirstFailure(c, items[1..], i) && r == CheckLine(c, items[1..][i]);
            FirstFailureCons(c, items, i);
          }
        }
        assert r.None? ==> forall i :: 0 <= i < |items| ==> CheckLine(c, items[i]).None? by {
          if r.None? {
            forall i | 1 <= i < |items| ensures CheckLine(c, items[i]).None? {
              assert items[i] == items[1..][i - 1];
            }
          }
        }
        r
  }

  /** The update phase: every line applied in order. */
  function ApplyAll(c: Products, items: seq<OrderItem>): (r: Products)
    ensures r.Keys == c.Keys
    decreases |items|
  {
    if items == [] then c else ApplyAll(ApplyLine(c, items[0]), items[1..])
  }

  /** The stock hook as written: it writes only when every line passes its
      check against the stock before the order, and otherwise reports the
      first failing line's error. */
  function ReserveAsWritten(c: Products, items: seq<OrderItem>): (r: Result<Products, ReserveError>)
    ensures r.Ok? <==> forall i :: 0 <= i < |items| ==> CheckLine(c, items[i]).None?
    ensures r.Err? ==> exists i :: FirstFailure(c, items, i) && CheckLine(c, items[i]) == Some(r.error)
    ensures r.Ok? ==> r.value.Keys == c.Keys
  {
    match CheckAll(c, items)
    case Some(e) => Err(e)
    case None => Ok(ApplyAll(c, items))
  }

  // ---------------------------------------------------------------------
  // The corrected hook: each line is checked against the stock that the
  // lines before it have left.
  // ---------------------------------------------------------------------

  function Reserve(c: Products, items: seq<OrderItem>): (r: Result<Products, ReserveError>)
    ensures r.Ok? ==> r.value.Keys == c.Keys
  {
    if items == [] then Ok(c)
    else match CheckLine(c, items[0])
      case Some(e) => Err(e)
      case None => Reserve(ApplyLine(c, items[0]), items[1..])
  }

  // ---------------------------------------------------------------------
  // One line
  // ---------------------------------------------------------------------

  lemma {:induction false} FindSizeSameSizes(a: seq<InventoryEntry>, b: seq<InventoryEntry>, s: string)
    requires |a| == |b| && forall i :: 0 <= i < |a| ==> a[i].size == b[i].size
    ensures FindSize(a, s) == FindSize(b, s)
    decreases |a|
  {
    if a != [] {
      FindSizeSameSizes(a[1..], b[1..], s);
    }
  }

  /** A line changes only its own product, keeps every product's fields other
      than the inventory, and keeps the length and the sizes of the inventory. */
  lemma {:induction false} ApplyLineShape(c: Products, item: OrderItem, p: ProductId)
    ensures ApplyLine(c, item).Keys == c.Keys
    ensures p in c ==> c[p].(inventory := ApplyLine(c, item)[p].inventory) == ApplyLine(c, item)[p]
    ensures p in c ==> |ApplyLine(c, item)[p].inventory| == |c[p].inventory|
    ensures p in c ==> forall i :: 0 <= i < |c[p].inventory| ==>
      ApplyLine(c, item)[p].inventory[i].size == c[p].inventory[i].size
    ensures p in c && p != item.product ==> ApplyLine(c, item)[p] == c[p]
    ensures p in c ==> forall i :: (0 <= i < |c[p].inventory| &&
      (p != item.product || c[p].inventory[i].size != item.size)) ==>
      ApplyLine(c, item)[p].inventory[i] == c[p].inventory[i]
  {
  }

  /** The counter view of one line: the line's own counter is shifted by its
      quantity, every other counter is as it was. */
  lemma {:induction false} ApplyLineEntry(c: Products, item: OrderItem, p: ProductId, s: string)
    requires EntryFor(c, item.product, item.size).Some?
    ensures EntryFor(ApplyLine(c, item), p, s) ==
      if p == item.product && s == item.size then Shift(EntryFor(c, p, s), item.quantity)
      else EntryFor(c, p, s)
  {
    var c' := ApplyLine(c, item);
    if p != item.product {
      ApplyLineShape(c, item, p);
    } else {
      var prod := c[p];
      var k := FindSize(prod.inventory, item.size).value;
      var e := prod.inventory[k];
      var inv' := RewriteSize(prod.inventory, item.size, e.stock - item.quantity, e.soldAmount + item.quantity);
      assert c'[p] == prod.(inventory := inv');
      FindSizeSameSizes(prod.inventory, inv', s);
      if s == item.size {
        assert inv'[k] == e.(stock := e.stock - item.quantity, soldAmount := e.soldAmount + item.quantity);
      }
    }
  }

  /** A line that passes its check keeps the catalog within the schema's bounds. */
  lemma {:induction false} ApplyLineValid(c: Products, item: OrderItem)
    requires ValidCatalog(c) && item.quantity >= 0
    requires CheckLine(c, item).None?
    ensures ValidCatalog(ApplyLine(c, item))
  {
    var c' := ApplyLine(c, item);
    forall p | p in c' ensures ValidInventory(c'[p].inventory) {
      ApplyLineShape(c, item, p);
      if p == item.product {
        var inv := c[p].inventory;
        var k := FindSize(inv, item.size).value;
        assert ValidEntry(inv[k]);
        forall i | 0 <= i < |inv| ensures ValidEntry(c'[p].inventory[i]) {
          assert ValidEntry(inv[i]);
        }
      }
    }
  }

  /** A line that resolves to a counter passes the check in a catalog exactly
      when the check passes in any catalog with the same counter. */
  lemma {:induction false} CheckLineByEntry(c: Products, d: Products, item: OrderItem)
    requires FindById(c, item.product).Some? <==> FindById(d, item.product).Some?
    requires EntryFor(c, item.product, item.size) == EntryFor(d, item.product, item.size)
    ensures CheckLine(c, item) == CheckLine(d, item)
  {
  }

  lemma {:induction false} ApplyLineVisibility(c: Products, item: OrderItem, p: ProductId)
    ensures FindById(ApplyLine(c, item), p).Some? <==> FindById(c, p).Some?
  {
    ApplyLineShape(c, item, p);
  }

  // ---------------------------------------------------------------------
  // The whole order, corrected
  // ---------------------------------------------------------------------

  /** On success every counter has lost exactly the quantity the order asks of
      it from its stock and gained it in its sold count; missing counters stay
      missing. */
  lemma {:induction false} ReserveCounters(c: Products, items: seq<OrderItem>, p: ProductId, s: string)
    requires Reserve(c, items).Ok?
    ensures EntryFor(Reserve(c, items).value, p, s) == Shift(EntryFor(c, p, s), Qty(items, p, s))
    decreases |items|
  {
    if items == [] {
      ShiftNone(EntryFor(c, p, s));
    } else {
      var l := items[0];
      var rest := items[1..];
      var c1 := ApplyLine(c, l);
      assert CheckLine(c, l).None?;
      assert Reserve(c, items) == Reserve(c1, rest);
      ReserveCounters(c1, rest, p, s);
      ApplyLineEntry(c, l, p, s);
      var q0 := if l.product == p && l.size == s then l.quantity else 0;
      var qr := Qty(rest, p, s);
      var e := EntryFor(c, p, s);
      assert Qty(items, p, s) == q0 + qr;
      ShiftNone(e);
      ShiftAdd(e, q0, qr);
      assert EntryFor(c1, p, s) == Shift(e, q0);
      assert EntryFor(Reserve(c1, rest).value, p, s) == Shift(Shift(e, q0), qr);
    }
  }

  lemma ShiftNone(e: Option<InventoryEntry>)
    ensures Shift(e, 0) == e
  {
  }

  lemma ShiftAdd(e: Option<InventoryEntry>, a: int, b: int)
    ensures Shift(Shift(e, a), b) == Shift(e, a + b)
  {
  }

  /** On success the catalog keeps its products, each product keeps every field
      but its inventory, every inventory keeps its length and its sizes, and
      every entry whose (product, size) no line names is unchanged. */
  lemma {:induction false} ReserveShape(c: Products, items: seq<OrderItem>, p: ProductId)
    requires Reserve(c, items).Ok?
    ensures Reserve(c, items).value.Keys == c.Keys
    ensures p in c ==> c[p].(inventory := Reserve(c, items).value[p].inventory) == Reserve(c, items).value[p]
    ensures p in c ==> |Reserve(c, items).value[p].inventory| == |c[p].inventory|
    ensures p in c ==> forall i :: 0 <= i < |c[p].inventory| ==>
      Reserve(c, items).value[p].inventory[i].size == c[p].inventory[i].size
    ensures p in c ==> forall i :: (0 <= i < |c[p].inventory| &&
      (forall k :: 0 <= k < |items| ==> items[k].product != p || items[k].size != c[p].inventory[i].size)) ==>
      Reserve(c, items).value[p].inventory[i] == c[p].inventory[i]
    decreases |items|
  {
    if items != [] {
      var c1 := ApplyLine(c, items[0]);
      ApplyLineShape(c, items[0], p);
      ReserveShape(c1, items[1..], p);
    }
  }

  /** A product that no line names is left exactly as it was. */
  lemma {:induction false} ReserveUntouchedProduct(c: Products, items: seq<OrderItem>, p: ProductId)
    requires Reserve(c, items).Ok? && p in c
    requires forall k :: 0 <= k < |items| ==> items[k].product != p
    ensures Reserve(c, items).value[p] == c[p]
  {
    ReserveShape(c, items, p);
    var c' := Reserve(c, items).value;
    assert c'[p].inventory == c[p].inventory;
  }

  /** With quantities of at least zero, a successful reservation keeps every
      stock and sold count non-negative. */
  lemma {:induction false} ReservePreservesValid(c: Products, items: seq<OrderItem>)
    requires ValidCatalog(c)
    requires forall k :: 0 <= k < |items| ==> items[k].quantity >= 0
    requires Reserve(c, items).Ok?
    ensures ValidCatalog(Reserve(c, items).value)
    decreases |items|
  {
    if items != [] {
      ApplyLineValid(c, items[0]);
      ReservePreservesValid(ApplyLine(c, items[0]), items[1..]);
    }
  }

  lemma {:induction false} QtyAppend(a: seq<OrderItem>, b: seq<OrderItem>, p: ProductId, s: string)
    ensures Qty(a + b, p, s) == Qty(a, p, s) + Qty(b, p, s)
    decreases |a|
  {
    if a == [] {
      assert a + b == b;
    } else {
      assert (a + b)[1..] == a[1..] + b;
      QtyAppend(a[1..], b, p, s);
    }
  }

  /** The line m fits when its counter exists and the quantity that the lines
      of prefix order of that counter is within its stock in c. */
  predicate LineFits(c: Products, prefix: seq<OrderItem>, m: OrderItem) {
    EntryFor(c, m.product, m.size).Some? &&
    Qty(prefix, m.product, m.size) <= EntryFor(c, m.product, m.size).value.stock
  }

  /** Every line fits, counting the lines before it and itself. */
  predicate AllFit(c: Products, items: seq<OrderItem>) {
    forall k :: 0 <= k < |items| ==> LineFits(c, items[..k + 1], items[k])
  }

  /** After a passing line l, a line fits against the updated catalog exactly
      when it fits against the old one with l counted in front. */
  lemma {:induction false} LineFitsAfter(c: Products, l: OrderItem, prefix: seq<OrderItem>, m: OrderItem)
    requires CheckLine(c, l).None?
    ensures LineFits(ApplyLine(c, l), prefix, m) <==> LineFits(c, [l] + prefix, m)
  {
    ApplyLineEntry(c, l, m.product, m.size);
    QtyAppend([l], prefix, m.product, m.size);
    assert Qty([l], m.product, m.size) == if l.product == m.product && l.size == m.size then l.quantity else 0;
  }

  /** The corrected hook succeeds exactly when, for every line, its counter
      exists and the quantity ordered of that counter by this line and the lines
      before it fits in the counter's stock before the order. */
  lemma {:induction false} ReserveSucceedsIff(c: Products, items: seq<OrderItem>)
    ensures Reserve(c, items).Ok? <==> AllFit(c, items)
    decreases |items|
  {
    if items != [] {
      var l := items[0];
      var rest := items[1..];
      assert items[..1] == [l];
      assert Qty([l], l.product, l.size) == l.quantity;
      assert LineFits(c, items[..1], l) <==> CheckLine(c, l).None?;
      if CheckLine(c, l).None? {
        var c1 := ApplyLine(c, l);
        ReserveSucceedsIff(c1, rest);
        forall k | 0 <= k < |rest|
          ensures LineFits(c1, rest[..k + 1], rest[k]) <==> LineFits(c, items[..k + 2], items[k + 1])
        {
          assert items[..k + 2] == [l] + rest[..k + 1];
          LineFitsAfter(c, l, rest[..k + 1], rest[k]);
        }
        assert AllFit(c1, rest) <==> AllFit(c, items) by {
          if AllFit(c, items) {
            forall k | 0 <= k < |rest| ensures LineFits(c1, rest[..k + 1], rest[k]) {
              assert LineFits(c, items[..(k + 1) + 1], items[k + 1]);
            }
          }
          if AllFit(c1, rest) {
            forall k | 0 <= k < |items| ensures LineFits(c, items[..k + 1], items[k]) {
              if k > 0 {
                assert LineFits(c1, rest[..(k - 1) + 1], rest[k - 1]);
              }
            }
          }
        }
      }
    }
  }

  lemma {:induction false} QtyNonNegative(items: seq<OrderItem>, p: ProductId, s: string)
    requires forall k :: 0 <= k < |items| ==> items[k].quantity >= 0
    ensures Qty(items, p, s) >= 0
    decreases |items|
  {
    if items != [] {
      QtyNonNegative(items[1..], p, s);
    }
  }

  /** If some line's quantity alone exceeds its counter's stock, or its counter
      is missing, the corrected hook fails (so nothing is written). */
  lemma {:induction false} ReserveRejectsShortLine(c: Products, items: seq<OrderItem>, k: nat)
    requires forall j :: 0 <= j < |items| ==> items[j].quantity >= 0
    requires k < |items|
    requires CheckLine(c, items[k]).Some?
    ensures Reserve(c, items).Err?
  {
    var m := items[k];
    assert items[..k + 1] == items[..k] + [m];
    QtyAppend(items[..k], [m], m.product, m.size);
    QtyNonNegative(items[..k], m.product, m.size);
    assert Qty([m], m.product, m.size) == m.quantity;
    assert !LineFits(c, items[..k + 1], m);
    ReserveSucceedsIff(c, items);
  }

  /** With non-negative quantities, a line fits counting the lines up to it
      whenever the whole order's quantity of its counter fits. */
  lemma {:induction false} PrefixQtyBounded(items: seq<OrderItem>, k: nat, p: ProductId, s: string)
    requires forall j :: 0 <= j < |items| ==> items[j].quantity >= 0
    requires k <= |items|
    ensures Qty(items[..k], p, s) <= Qty(items, p, s)
  {
    assert items == items[..k] + items[k..];
    QtyAppend(items[..k], items[k..], p, s);
    QtyNonNegative(items[k..], p, s);
  }

  /** On a valid catalog and with non-negative quantities, the corrected hook
      succeeds exactly when every ordered counter exists and the order's total
      quantity of each counter is at most its stock. */
  lemma {:induction false} ReserveIffTotalsFit(c: Products, items: seq<OrderItem>)
    requires ValidCatalog(c)
    requires forall j :: 0 <= j < |items| ==> items[j].quantity >= 0
    ensures Reserve(c, items).Ok? <==>
      forall k :: 0 <= k < |items| ==> LineFits(c, items, items[k])
  {
    ReserveSucceedsIff(c, items);
    if Reserve(c, items).Ok? {
      var c' := Reserve(c, items).value;
      ReservePreservesValid(c, items);
      forall k | 0 <= k < |items| ensures LineFits(c, items, items[k]) {
        var m := items[k];
        assert LineFits(c, items[..k + 1], m);
        ReserveCounters(c, items, m.product, m.size);
        var e' := EntryFor(c', m.product, m.size).value;
        assert ValidEntry(e');
      }
    } else {
      var k :| 0 <= k < |items| && !LineFits(c, items[..k + 1], items[k]);
      PrefixQtyBounded(items, k + 1, items[k].product, items[k].size);
    }
  }

  // ---------------------------------------------------------------------
  // The hook as written, compared with the corrected one
  // ---------------------------------------------------------------------

  /** If a line fails its check against the stock before the order, the hook as
      written writes nothing. */
  lemma {:induction false} AsWrittenRejectsShortLine(c: Products, items: seq<OrderItem>, k: nat)
    requires k < |items| && CheckLine(c, items[k]).Some?
    ensures ReserveAsWritten(c, items).Err?
  {
  }

  lemma {:induction false} CheckAllUnaffected(c: Products, l: OrderItem, rest: seq<OrderItem>)
    requires CheckLine(c, l).None?
    requires forall k :: 0 <= k < |rest| ==> rest[k].product != l.product || rest[k].size != l.size
    ensures CheckAll(ApplyLine(c, l), rest) == CheckAll(c, rest)
    decreases |rest|
  {
    if rest != [] {
      var m := rest[0];
      ApplyLineEntry(c, l, m.product, m.size);
      ApplyLineVisibility(c, l, m.product);
      CheckLineByEntry(ApplyLine(c, l), c, m);
      CheckAllUnaffected(c, l, rest[1..]);
    }
  }

  /** A counter that exists before a line is applied still exists after it. */
  lemma {:induction false} ApplyLineKeepsCounter(c: Products, l: OrderItem, p: ProductId, s: string)
    requires EntryFor(c, l.product, l.size).Some? && EntryFor(c, p, s).Some?
    ensures EntryFor(ApplyLine(c, l), p, s).Some?
  {
    ApplyLineEntry(c, l, p, s);
  }

  /** One line shifts the counter (p, s) by the quantity it orders of it. */
  lemma {:induction false} ShiftedByLine(c: Products, l: OrderItem, p: ProductId, s: string)
    requires EntryFor(c, l.product, l.size).Some?
    ensures EntryFor(ApplyLine(c, l), p, s) ==
      Shift(EntryFor(c, p, s), if l.product == p && l.size == s then l.quantity else 0)
  {
    ApplyLineEntry(c, l, p, s);
    ShiftNone(EntryFor(c, p, s));
  }

  /** The update phase over lines whose counters all exist: every counter
      is shifted by the total quantity the lines order of it. */
  lemma {:induction false} ApplyAllCounters(c: Products, items: seq<OrderItem>, p: ProductId, s: string)
    requires forall i :: 0 <= i < |items| ==> EntryFor(c, items[i].product, items[i].size).Some?
    ensures EntryFor(ApplyAll(c, items), p, s) == Shift(EntryFor(c, p, s), Qty(items, p, s))
    decreases |items|
  {
    if items == [] {
      ShiftNone(EntryFor(c, p, s));
    } else {
      var l := items[0];
      var rest := items[1..];
      var c1 := ApplyLine(c, l);
      assert EntryFor(c, l.product, l.size).Some?;
      forall i | 0 <= i < |rest| ensures EntryFor(c1, rest[i].product, rest[i].size).Some? {
        assert rest[i] == items[i + 1];
        ApplyLineKeepsCounter(c, l, rest[i].product, rest[i].size);
      }
      assert ApplyAll(c, items) == ApplyAll(c1, rest);
      ApplyAllCounters(c1, rest, p, s);
      var q0 := if l.product == p && l.size == s then l.quantity else 0;
      var e := EntryFor(c, p, s);
      ShiftedByLine(c, l, p, s);
      assert Qty(items, p, s) == q0 + Qty(rest, p, s);
      ShiftAdd(e, q0, Qty(rest, p, s));
    }
  }

  /** What the hook as written writes: on success every counter has lost, from
      its stock, the total quantity the order asks of it (the stock may go
      below zero), and has gained that amount in its sold count. */
  lemma {:induction false} AsWrittenCounters(c: Products, items: seq<OrderItem>, p: ProductId, s: string)
    requires ReserveAsWritten(c, items).Ok?
    ensures EntryFor(ReserveAsWritten(c, items).value, p, s) == Shift(EntryFor(c, p, s), Qty(items, p, s))
  {
    forall i | 0 <= i < |items| ensures EntryFor(c, items[i].product, items[i].size).Some? {
      assert CheckLine(c, items[i]).None?;
    }
    ApplyAllCounters(c, items, p, s);
  }

  /** When no two lines share a counter, the hook as written and the corrected
      hook agree: the defect needs a repeated (product, size). */
  lemma {:induction false} AsWrittenAgreesOnDistinctPairs(c: Products, items: seq<OrderItem>)
    requires DistinctPairs(items)
    ensures ReserveAsWritten(c, items) == Reserve(c, items)
    decreases |items|
  {
    if items != [] {
      var l := items[0];
      if CheckLine(c, l).None? {
        var rest := items[1..];
        assert forall k :: 0 <= k < |rest| ==> rest[k] == items[k + 1];
        CheckAllUnaffected(c, l, rest);
        AsWrittenAgreesOnDistinctPairs(ApplyLine(c, l), rest);
      }
    }
  }

  /** The defect: one size with stock 5 and two lines of 3 each. Each line passes
      against the stock before the order, and the hook as written leaves stock -1;
      the corrected hook rejects the order. */
  lemma {:induction false} OverdrawAsWritten()
    ensures var c := map["P" := Product("P", "Tee", "TEE1", "d", 10, 0, "red", [InventoryEntry("M", 5, 0)], "c.jpg", "shirts", true, "C")];
            var items := [OrderItem("P", 10, "M", 3), OrderItem("P", 10, "M", 3)];
            ValidCatalog(c) &&
            ReserveAsWritten(c, items).Ok? &&
            EntryFor(ReserveAsWritten(c, items).value, "P", "M") == Some(InventoryEntry("M", -1, 6)) &&
            Reserve(c, items) == Err(InsufficientStock("P", "M"))
  {
    var c := map["P" := Product("P", "Tee", "TEE1", "d", 10, 0, "red", [InventoryEntry("M", 5, 0)], "c.jpg", "shirts", true, "C")];
    var l := OrderItem("P", 10, "M", 3);
    var items := [l, l];
    assert FindSize([InventoryEntry("M", 5, 0)], "M") == Some(0);
    assert CheckLine(c, l).None?;
    assert CheckAll(c, items).None?;
    var c1 := ApplyLine(c, l);
    assert c1["P"].inventory == [InventoryEntry("M", 2, 3)];
    assert FindSize(c1["P"].inventory, "M") == Some(0);
    var c2 := ApplyLine(c1, l);
    assert c2["P"].inventory == [InventoryEntry("M", -1, 6)];
    assert ApplyAll(c, items) == ApplyAll(c1, [l]) == ApplyAll(c2, []) == c2;
    assert items[1..] == [l];
    assert CheckLine(c1, l) == Some(InsufficientStock("P", "M"));
  }

  /** The corrected hook on an order split into its first line and the rest. */
  lemma {:induction false} ReserveHead(c: Products, l: OrderItem, rest: seq<OrderItem>)
    ensures Reserve(c, [l] + rest) ==
      if CheckLine(c, l).Some? then Err(CheckLine(c, l).value) else Reserve(ApplyLine(c, l), rest)
  {
    assert ([l] + rest)[0] == l && ([l] + rest)[1..] == rest;
  }

  /** A line whose entry at index k holds enough stock passes its check. */
  lemma {:induction false} CheckLineAt(c: Products, item: OrderItem, product: Product, k: nat)
    requires FindById(c, item.product) == Some(product)
    requires FindSize(product.inventory, item.size) == Some(k)
    requires item.quantity <= product.inventory[k].stock
    ensures CheckLine(c, item).None?
  {
  }

  /** The update of a line that resolves to the entry at index k of its product. */
  lemma {:induction false} ApplyLineAt(c: Products, item: OrderItem, product: Product, k: nat)
    requires FindById(c, item.product) == Some(product)
    requires FindSize(product.inventory, item.size) == Some(k)
    ensures ApplyLine(c, item) ==
      c[item.product := product.(inventory := RewriteSize(product.inventory, item.size,
                                                          product.inventory[k].stock - item.quantity,
                                                          product.inventory[k].soldAmount + item.quantity))]
  {
  }

  // ---------------------------------------------------------------------
  // The catalog store
  // ---------------------------------------------------------------------

  /** The product collection the stock hook reads and writes. */
  class Catalog {
    var products: Products

    constructor(initial: Products)
      ensures products == initial
    {
      products := initial;
    }

    /** The stock hook (corrected): every line is checked against the stock
        left by the lines before it, on a staged copy; the copy replaces the
        stored products only when every line has passed. */
    method ReserveStock(items: seq<OrderItem>) returns (err: Option<ReserveError>)
      modifies this
      ensures Reserve(old(products), items).Ok? ==>
        err.None? && products == Reserve(old(products), items).value
      ensures Reserve(old(products), items).Err? ==>
        err == Some(Reserve(old(products), items).error) && products == old(products)
      ensures (err.None? && ValidCatalog(old(products)) &&
               (forall k :: 0 <= k < |items| ==> items[k].quantity >= 0)) ==> ValidCatalog(products)
    {
      var staged := products;
      var i := 0;
      while i < |items|
        invariant 0 <= i <= |items|
        invariant products == old(products)
        invariant Reserve(products, items) == Reserve(staged, items[i..])
      {
        assert items[i..] == [items[i]] + items[i + 1..];
        ReserveHead(staged, items[i], items[i + 1..]);
        var next := ReserveLine(staged, items[i]);
        if next.Err? {
          return Some(next.error);
        }
        staged := next.value;
        i := i + 1;
      }
      assert items[i..] == [];
      products := staged;
      err := None;
      if ValidCatalog(old(products)) && forall k :: 0 <= k < |items| ==> items[k].quantity >= 0 {
        ReservePreservesValid(old(products), items);
      }
    }
  }

  /** One line of the hook on the staged products: the check, and the rewrite
      of the line's product when it passes. */
  method ReserveLine(staged: Products, item: OrderItem) returns (next: Result<Products, ReserveError>)
    ensures CheckLine(staged, item).Some? ==> next == Err(CheckLine(staged, item).value)
    ensures CheckLine(staged, item).None? ==> next == Ok(ApplyLine(staged, item))
  {
    var found := FindById(staged, item.product);
    if found.None? {
      return Err(ProductNotFound(item.product));
    }
    var product := found.value;
    var k := FindSize(product.inventory, item.size);
    if k.None? {
      return Err(SizeNotFound(item.product, item.size));
    }
    var entry := product.inventory[k.value];
    if entry.stock < item.quantity {
      return Err(InsufficientStock(item.product, item.size));
    }
    var rewritten := RewriteEntries(product.inventory, item.size,
                                    entry.stock - item.quantity, entry.soldAmount + item.quantity);
    ApplyLineAt(staged, item, product, k.value);
    CheckLineAt(staged, item, product, k.value);
    return Ok(staged[item.product := product.(inventory := rewritten)]);
  }

  /** The `map` over a product's inventory, built entry by entry. */
  method RewriteEntries(inv: seq<InventoryEntry>, size: string, stock: int, sold: int)
    returns (rewritten: seq<InventoryEntry>)
    ensures rewritten == RewriteSize(inv, size, stock, sold)
  {
    rewritten := [];
    var j := 0;
    while j < |inv|
      invariant 0 <= j <= |inv|
      invariant rewritten == RewriteSize(inv, size, stock, sold)[..j]
    {
      var e := inv[j];
      if e.size == size {
        e := e.(stock := stock, soldAmount := sold);
      }
      rewritten := rewritten + [e];
      j := j + 1;
    }
  }
}
