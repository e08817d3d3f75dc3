/** The admin handler that merges requested stock figures into a product's
    stored inventory, matching entries by size. */
module ProductController {
  import opened Common
  import opened ProductModel

  /** One requested entry: a size and its new stock. */
  datatype StockUpdate = StockUpdate(size: string, stock: int)

  /** The stock given by the last requested entry of the size, if any. */
  function LastStockFor(req: seq<StockUpdate>, size: string): (r: Option<int>)
    ensures r.None? <==> forall i :: 0 <= i < |req| ==> req[i].size != size
    ensures r.Some? ==> exists i :: 0 <= i < |req| && req[i].size == size && req[i].stock == r.value &&
                                    forall j :: i < j < |req| ==> req[j].size != size
  {
    if req == [] then None
    else if req[|req| - 1].size == size then Some(req[|req| - 1].stock)
    else
      var pre := req[..|req| - 1];
      var r := LastStockFor(pre, size);
      assert r.Some? ==> exists i :: 0 <= i < |req| && req[i].size == size && req[i].stock == r.value &&
                                     forall j :: i < j < |req| ==> req[j].size != size by {
        if r.Some? {
          var i :| 0 <= i < |pre| && pre[i].size == size && pre[i].stock == r.value &&
                   forall j :: i < j < |pre| ==> pre[j].size != size;
          assert req[i] == pre[i];
          assert forall j :: i < j < |pre| ==> req[j] == pre[j];
        }
      }
      r
  }

  /** One stored entry after the merge: the last requested stock of its size,
      or unchanged when its size is not requested. */
  function MergedEntry(e: InventoryEntry, req: seq<StockUpdate>): (r: InventoryEntry)
    ensures r.size == e.size && r.soldAmount == e.soldAmount
  {
    match LastStockFor(req, e.size)
    case None => e
    case Some(st) => e.(stock := st)
  }

  /** The stored inventory after the merge: the same entries, in the same order. */
  function MergedInventory(inv: seq<InventoryEntry>, req: seq<StockUpdate>): (r: seq<InventoryEntry>)
    ensures |r| == |inv|
    ensures forall k :: 0 <= k < |inv| ==> r[k].size == inv[k].size && r[k].soldAmount == inv[k].soldAmount
  {
    seq(|inv|, k requires 0 <= k < |inv| => MergedEntry(inv[k], req))
  }

  /** A stored entry whose size is requested takes the stock of the last
      requested entry of that size. */
  lemma {:induction false} MergeLastWins(inv: seq<InventoryEntry>, req: seq<StockUpdate>, k: nat, j: nat)
    requires k < |inv| && j < |req| && req[j].size == inv[k].size
    requires forall j' :: j < j' < |req| ==> req[j'].size != inv[k].size
    ensures MergedInventory(inv, req)[k].stock == req[j].stock
  {
    var r := LastStockFor(req, inv[k].size);
    var i :| 0 <= i < |req| && req[i].size == inv[k].size && req[i].stock == r.value &&
             forall j' :: i < j' < |req| ==> req[j'].size != inv[k].size;
    assert i == j;
  }

  /** A stored entry whose size is not requested is unchanged. */
  lemma {:induction false} MergeAbsentUnchanged(inv: seq<InventoryEntry>, req: seq<StockUpdate>, k: nat)
    requires k < |inv|
    requires forall j :: 0 <= j < |req| ==> req[j].size != inv[k].size
    ensures MergedInventory(inv, req)[k] == inv[k]
  {
  }

  lemma {:induction false} LastStockSkips(req1: seq<StockUpdate>, u: StockUpdate, req2: seq<StockUpdate>, size: string)
    requires u.size != size
    ensures LastStockFor(req1 + [u] + req2, size) == LastStockFor(req1 + req2, size)
    decreases |req2|
  {
    if req2 == [] {
      assert (req1 + [u] + req2)[..|req1| + 1 - 1] == req1;
      assert req1 + req2 == req1;
    } else {
      var n := |req2| - 1;
      assert (req1 + [u] + req2)[..|req1 + [u] + req2| - 1] == req1 + [u] + req2[..n];
      assert (req1 + req2)[..|req1 + req2| - 1] == req1 + req2[..n];
      LastStockSkips(req1, u, req2[..n], size);
    }
  }

  /** A requested entry whose size the stored inventory lacks has no effect:
      it is neither added nor applied to another entry. */
  lemma {:induction false} MergeIgnoresUnknownSize(inv: seq<InventoryEntry>, req1: seq<StockUpdate>, u: StockUpdate, req2: seq<StockUpdate>)
    requires forall k :: 0 <= k < |inv| ==> inv[k].size != u.size
    ensures MergedInventory(inv, req1 + [u] + req2) == MergedInventory(inv, req1 + req2)
  {
    forall k | 0 <= k < |inv|
      ensures MergedInventory(inv, req1 + [u] + req2)[k] == MergedInventory(inv, req1 + req2)[k]
    {
      LastStockSkips(req1, u, req2, inv[k].size);
    }
  }

  /** The merge keeps the schema's bounds when every requested stock is non-negative. */
  lemma {:induction false} MergeKeepsValid(inv: seq<InventoryEntry>, req: seq<StockUpdate>)
    requires ValidInventory(inv)
    requires forall j :: 0 <= j < |req| ==> req[j].stock >= 0
    ensures ValidInventory(MergedInventory(inv, req))
  {
    forall k | 0 <= k < |inv| ensures ValidEntry(MergedInventory(inv, req)[k]) {
      assert ValidEntry(inv[k]);
      var r := LastStockFor(req, inv[k].size);
      if r.Some? {
        var i :| 0 <= i < |req| && req[i].size == inv[k].size && req[i].stock == r.value &&
                 forall j :: i < j < |req| ==> req[j].size != inv[k].size;
      }
    }
  }

  /** The nested loop of the handler: for each stored entry, every requested
      entry of its size overwrites its stock, in request order. */
  method MergeStock(inv: array<InventoryEntry>, req: seq<StockUpdate>)
    modifies inv
    ensures inv[..] == MergedInventory(old(inv[..]), req)
  {
    var k := 0;
    while k < inv.Length
      invariant 0 <= k <= inv.Length
      invariant forall m :: 0 <= m < k ==> inv[m] == MergedEntry(old(inv[m]), req)
      invariant forall m :: k <= m < inv.Length ==> inv[m] == old(inv[m])
    {
      var i := 0;
      while i < |req|
        invariant 0 <= i <= |req|
        invariant inv[k] == MergedEntry(old(inv[k]), req[..i])
        invariant forall m :: 0 <= m < k ==> inv[m] == MergedEntry(old(inv[m]), req)
        invariant forall m :: k < m < inv.Length ==> inv[m] == old(inv[m])
      {
        assert req[..i + 1][..i] == req[..i];
        if inv[k].size == req[i].size {
          inv[k] := inv[k].(stock := req[i].stock);
        }
        i := i + 1;
      }
      assert req[..i] == req;
      k := k + 1;
    }
  }

  datatype HandlerError = ProductNotFound

  /** updateProductInventory: without a requested inventory the request passes
      through unchanged (None); otherwise the merged copy of the stored
      inventory becomes the inventory the update handler writes. A missing or
      hidden product is an error. */
  method UpdateProductInventory(products: map<ProductId, Product>, id: ProductId, req: Option<seq<StockUpdate>>)
    returns (r: Result<Option<seq<InventoryEntry>>, HandlerError>)
    ensures req.None? ==> r == Ok(None)
    ensures req.Some? && FindById(products, id).None? ==> r == Err(ProductNotFound)
    ensures req.Some? && FindById(products, id).Some? ==>
      r == Ok(Some(MergedInventory(products[id].inventory, req.value)))
  {
    if req.None? {
      return Ok(None);
    }
    var found := FindById(products, id);
    if found.None? {
      return Err(ProductNotFound);
    }
    var stored := found.value.inventory;
    var a := new InventoryEntry[|stored|](i requires 0 <= i < |stored| => stored[i]);
    assert a[..] == stored;
    MergeStock(a, req.value);
    return Ok(Some(a[..]));
  }
}
