/**
 Two transactions over an in-memory adapter whose saves both come before either commit. A save
 checks versions, but the commit that follows does not check them again. The adapters of both
 services are built this way.
 */
module LostUpdate {
  import opened Stock
  import opened StockStore
  import opened MemoryStock
  import InventoryUseCases
  import Ordering
  import Orders = OrderUseCases
  import Outbox
  import Warehouse

  /** Two saves that were both accepted on the same rows could also have happened one after the
      other exactly if they have no SKU in common. */
  lemma HarmlessIffDisjoint(v: View, xs: seq<Saved>, ys: seq<Saved>)
    requires MemorySave(v, xs).Ok? && MemorySave(v, ys).Ok?
    ensures MemorySave(WriteAll(v, xs, |xs|), ys).Ok? <==> SkusOf(xs) !! SkusOf(ys)
  {
    var w := WriteAll(v, xs, |xs|);
    if s :| s in SkusOf(xs) && s in SkusOf(ys) {
      var i :| 0 <= i < |xs| && xs[i].sku == s;
      var k := InventoryUseCases.SomeLastCopy(xs, i);
      WriteAllLast(v, xs, |xs|, k);
      var j :| 0 <= j < |ys| && ys[j].sku == s;
      assert NextVersion(v, xs[k]).Some? && NextVersion(v, ys[j]).Some?;
      assert NextVersion(w, ys[j]).None?;
    } else {
      forall j | 0 <= j < |ys| ensures NextVersion(w, ys[j]).Some? {
        assert ys[j].sku in SkusOf(ys);
        assert forall i :: 0 <= i < |xs| ==> xs[i].sku in SkusOf(xs);
        WriteAllElsewhere(v, xs, |xs|, ys[j].sku);
        assert NextVersion(v, ys[j]).Some?;
      }
    }
  }

  /** If they do share one, the later commit leaves it as if the earlier one had never been. */
  lemma LaterCommitWins(v: View, xs: seq<Saved>, ys: seq<Saved>, s: Sku)
    requires s in SkusOf(ys)
    ensures s in WriteAll(WriteAll(v, xs, |xs|), ys, |ys|) && s in WriteAll(v, ys, |ys|)
    ensures WriteAll(WriteAll(v, xs, |xs|), ys, |ys|)[s] == WriteAll(v, ys, |ys|)[s]
  {
    var i :| 0 <= i < |ys| && ys[i].sku == s;
    var k := InventoryUseCases.SomeLastCopy(ys, i);
    WriteAllLast(v, ys, |ys|, k);
    WriteAllLast(WriteAll(v, xs, |xs|), ys, |ys|, k);
  }

  /** A replenishment up to, but not including, its commit. */
  method PrepareReplenishment(rows: StockRows, sku: Sku, quantity: nat) returns (tx: Staging, ghost y: Saved)
    requires rows.Valid() && sku in rows.view && quantity > 0
    ensures fresh(tx) && tx.target == rows && Staged(tx.writes, [y])
    ensures var x := ItemAt(rows.view, sku); y == x.(level := x.level.(available := x.level.available + quantity))
  {
    hide RowOf, Storable;
    InventoryUseCases.StoredStorable(rows, sku);
    OpKeepsStorable(sku, rows.view[sku].level, ItemOp.Replenish(quantity));
    var item := rows.Load(sku);
    var err := item.value.Replenish(quantity);
    y := AsSaved(item.value);
    tx := new Staging(rows);
    assert NextVersion(rows.view, [y][0]).Some?;
    var conflict := tx.Save([item.value], [y]);
    assert conflict.None?;
  }

  /** So two replenishments of one SKU can both report success and add up to the second alone. */
  method InterleavedReplenishments(rows: StockRows, sku: Sku, first: nat, second: nat)
    requires rows.Valid() && sku in rows.view && first > 0 && second > 0
    modifies rows
    ensures rows.Valid() && sku in rows.view
    ensures rows.view[sku].level.available == old(rows.view)[sku].level.available + second
    ensures rows.view[sku].version == old(rows.view)[sku].version + 1
  {
    hide RowOf, Staged;
    var one, y := PrepareReplenishment(rows, sku, first);
    var two, z := PrepareReplenishment(rows, sku, second);
    one.Commit([y]);
    ghost var between := rows.view;
    two.Commit([z]);
    assert WriteAll(between, [z], 1) == Written(WriteAll(between, [z], 0), z);
  }

  // ---------- The same with orders ----------

  /** Two saves of orders that were both accepted on the same rows could also have happened one
      after the other exactly if they are of different orders. */
  lemma OrdersHarmlessIffDistinct(m: Orders.Rows, a: Ordering.OrderImage, b: Ordering.OrderImage)
    requires Orders.NextVersion(m, a).Some? && Orders.NextVersion(m, b).Some?
    ensures var after := m[a.id := Ordering.EncodeOrder(a.(version := Orders.NextVersion(m, a).value))];
      Orders.NextVersion(after, b).Some? <==> a.id != b.id
  {
  }

  /** So two cancellations of one order can both report success, and the log then has two cancel
      events for it. */
  method InterleavedCancellations(rows: Orders.OrderRows, stores: Outbox.Stores<Warehouse.Message>, idText: string,
                                  first: Outbox.Id, second: Outbox.Id)
    requires Orders.ValidRows(rows.m)
    requires Ordering.NewId(idText).Ok? && Orders.Cancelled(rows.m, Ordering.OrderId(Ordering.NewId(idText).value)).Ok?
    modifies rows, stores
    ensures var id := Ordering.OrderId(Ordering.NewId(idText).value);
      var ref := Ordering.DeriveReservationRef(id);
      && rows.m == old(rows.m)[id := Orders.Cancelled(old(rows.m), id).value]
      && stores.log == old(stores.log) + [Orders.CancelMessage(first, ref), Orders.CancelMessage(second, ref)]
  {
    hide Orders.Cancelled, Orders.ValidRows;
    var errOne, one := Orders.PrepareCancel(rows, stores, idText, first);
    var errTwo, two := Orders.PrepareCancel(rows, stores, idText, second);
    assert errOne.None? && errTwo.None?;  // both cancellations are accepted
    one.Commit();
    Orders.OneWrite(old(rows.m), one.writes);
    ghost var between := rows.m;
    two.Commit();
    Orders.OneWrite(between, two.writes);
  }
}
