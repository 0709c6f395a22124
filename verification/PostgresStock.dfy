/**
 The PostgreSQL adapter: one table of items and one of reservations, with 32-bit columns. A save
 writes the items one by one inside a transaction, each under the condition that its version is
 still the one that was read, and replaces its reservations. The second half compares it with the
 in-memory adapter.
 */
module PostgresStock {
  import opened Common
  import opened Stock
  import opened StockStore
  import opened MemoryStock
  import opened Allocation
  import opened Warehouse
  import opened InventoryUseCases
  import Text

  datatype ItemId = ItemId(text: string)

  /** Rows as the CHECK constraints let them be: nothing stored is negative. */
  datatype ItemRow = ItemRow(id: ItemId, available: nat, version: nat)

  datatype HoldRow = HoldRow(quantity: nat, status: Status, expiresAt: Time)

  type Items = map<Sku, ItemRow>

  /** The reservation rows, by their primary key. */
  type Holds = map<ItemId, map<Ref, HoldRow>>

  // ---------- What the columns make of a level ----------

  /** The value passes the CHECK constraint of its column after conversion to 32 bits. */
  predicate Accepted(r: Reservation) {
    Int32(r.qty) >= 1
  }

  ghost predicate AllAccepted(rs: Holders) {
    forall k :: k in rs ==> Accepted(rs[k])
  }

  ghost predicate Accepts(x: Saved) {
    Int32(x.level.available) >= 0 && Int32(x.version + 1) >= 1 && AllAccepted(x.level.reservations)
  }

  function ToHold(r: Reservation): HoldRow
    requires Accepted(r)
  {
    HoldRow(Int32(r.qty), r.status, if r.status.Pending? then r.expiresAt else ZERO_TIME)
  }

  function HoldsOf(rs: Holders): map<Ref, HoldRow>
    requires AllAccepted(rs)
  {
    map k | k in rs :: ToHold(rs[k])
  }

  function HoldersOf(hs: map<Ref, HoldRow>): Holders {
    map k | k in hs :: Reservation(k, hs[k].quantity, hs[k].status, hs[k].expiresAt)
  }

  /** The level that will be read back. */
  function Narrow(l: Level): Level
    requires Int32(l.available) >= 0 && AllAccepted(l.reservations)
  {
    Level(Int32(l.available), HoldersOf(HoldsOf(l.reservations)))
  }

  predicate Fits32(l: Level) {
    l.available < INT32_LIMIT && forall k :: k in l.reservations ==> l.reservations[k].qty < INT32_LIMIT
  }

  /** A storable level survives the trip to the tables and back exactly if its amounts fit 32 bits;
      then the tables also accept it. */
  lemma SurvivesIffItFits(sku: Sku, l: Level)
    requires Storable(sku, l)
    ensures Fits32(l) <==> Int32(l.available) >= 0 && AllAccepted(l.reservations) && Narrow(l) == l
  {
    Int32Fits(l.available);
    forall k | k in l.reservations
      ensures Int32(l.reservations[k].qty) == l.reservations[k].qty <==> l.reservations[k].qty < INT32_LIMIT
    {
      Int32Fits(l.reservations[k].qty);
    }
    if Int32(l.available) >= 0 && AllAccepted(l.reservations) {
      assert forall k :: k in l.reservations ==> Narrow(l).reservations[k].qty == Int32(l.reservations[k].qty);
      assert Fits32(l) ==> Narrow(l).reservations == l.reservations;
    }
  }

  /** A larger level may be refused, or stored as a different one: 2^32 + 5 free units read back
      as 5. */
  lemma TooLargeIsNotAlwaysRefused(sku: Sku)
    ensures var l := Level(0x1_0000_0005, map[]);
      Int32(l.available) >= 0 && AllAccepted(l.reservations) && Narrow(l) == Level(5, map[])
  {
  }

  /** The values a reservation and an item have to have after the conversion to 32 bits. */
  predicate InRange(qty: nat, least: nat) {
    least <= qty % 0x1_0000_0000 < 0x8000_0000
  }

  lemma InRangeIsAccepted(qty: nat)
    ensures InRange(qty, 0) <==> Int32(qty) >= 0
    ensures InRange(qty, 1) <==> Int32(qty) >= 1
    ensures InRange(qty, 0) ==> Int32(qty) == qty % 0x1_0000_0000
  {
    var turns := Int32Turns(qty);
    var rest := qty % 0x1_0000_0000;
    assert rest == Int32(qty) || rest == Int32(qty) + 0x1_0000_0000;
  }

  /** Which levels are refused, and what is stored of the others: the amounts modulo 2^32. */
  lemma RefusedIffOutOfRange(l: Level)
    ensures Int32(l.available) >= 0 && AllAccepted(l.reservations) <==>
      && InRange(l.available, 0)
      && forall k :: k in l.reservations ==> InRange(l.reservations[k].qty, 1)
    ensures Int32(l.available) >= 0 && AllAccepted(l.reservations) ==>
      var n := Narrow(l);
      && n.available == l.available % 0x1_0000_0000 && n.reservations.Keys == l.reservations.Keys
      && forall k :: k in l.reservations ==>
           n.reservations[k] == Reservation(k, l.reservations[k].qty % 0x1_0000_0000, l.reservations[k].status,
             if l.reservations[k].status.Pending? then l.reservations[k].expiresAt else ZERO_TIME)
  {
    InRangeIsAccepted(l.available);
    forall k | k in l.reservations
      ensures Accepted(l.reservations[k]) <==> InRange(l.reservations[k].qty, 1)
      ensures InRange(l.reservations[k].qty, 1) ==>
        Int32(l.reservations[k].qty) == l.reservations[k].qty % 0x1_0000_0000
    {
      InRangeIsAccepted(l.reservations[k].qty);
    }
    hide InRange, Int32;
  }

  // ---------- The rule of saving ----------

  predicate IdTaken(v: View, id: string) {
    exists s :: s in v && v[s].id == id
  }

  /** Writing one item: an insertion guarded by unique SKU and id, or an update of the row with the
      version that was read, together with its reservations. The checks of a row to be inserted
      come before the unique columns. */
  ghost function PgWrite(v: View, x: Saved): Result<View, StoreError> {
    if x.version == 0 && Int32(x.level.available) < 0 then Err(Rejected)
    else if x.version == 0 && (x.sku in v || IdTaken(v, x.id)) then Err(Conflict)
    else if x.version > 0 && (x.sku !in v || v[x.sku].version != Int32(x.version)) then Err(Conflict)
    else if !Accepts(x) then Err(Rejected)
    else Ok(v[x.sku := Stored(x.id, Int32(x.version + 1), Narrow(x.level))])
  }

  /** Every item meets the rows as its predecessors left them; the first error ends the save. */
  ghost function PgSave(v: View, xs: seq<Saved>, n: nat): Result<View, StoreError>
    requires n <= |xs|
  {
    if n == 0 then Ok(v)
    else
      match PgSave(v, xs, n - 1)
      case Err(e) => Err(e)
      case Ok(w) => PgWrite(w, xs[n - 1])
  }

  lemma {:induction false} ErrorEndsSave(v: View, xs: seq<Saved>, n: nat, m: nat)
    requires n <= m <= |xs| && PgSave(v, xs, n).Err?
    ensures PgSave(v, xs, m) == PgSave(v, xs, n)
  {
    if n < m { ErrorEndsSave(v, xs, n, m - 1); }
  }

  // ---------- The tables ----------

  function HoldsAt(holds: Holds, id: ItemId): map<Ref, HoldRow> {
    if id in holds then holds[id] else map[]
  }

  function ViewOf(items: Items, holds: Holds): View {
    map s | s in items ::
      Stored(items[s].id.text, items[s].version, Level(items[s].available, HoldersOf(HoldsAt(holds, items[s].id))))
  }

  ghost predicate UniqueItemIds(items: Items) {
    forall s, t :: s in items && t in items && items[s].id == items[t].id ==> s == t
  }

  ghost predicate Consistent(items: Items, holds: Holds) {
    && UniqueItemIds(items)
    && forall s :: s in items ==> items[s].version > 0 && Storable(s, ViewOf(items, holds)[s].level)
  }

  /** Replacing one item's row and its reservations changes that item only. */
  lemma OneItemWritten(items: Items, holds: Holds, sku: Sku, row: ItemRow, after: Holds)
    requires UniqueItemIds(items)
    requires if sku in items then items[sku].id == row.id else forall s :: s in items ==> items[s].id != row.id
    requires forall id :: id != row.id ==> HoldsAt(after, id) == HoldsAt(holds, id)
    ensures UniqueItemIds(items[sku := row])
    ensures ViewOf(items[sku := row], after) ==
      ViewOf(items, holds)[sku :=
        Stored(row.id.text, row.version, Level(row.available, HoldersOf(HoldsAt(after, row.id))))]
  {
    forall s | s in items && s != sku ensures HoldsAt(after, items[s].id) == HoldsAt(holds, items[s].id) {
    }
  }

  /** What was storable passes the checks that are made on the way back. */
  lemma Readable(sku: Sku, l: Level)
    requires Storable(sku, l)
    ensures NewSku(sku.text) == Ok(sku)
    ensures forall k :: k in l.reservations ==> NewRef(k.text) == Ok(k)
  {
    Text.TrimSettles(sku.text);
    forall k | k in l.reservations ensures NewRef(k.text) == Ok(k) {
      Text.TrimSettles(k.text);
    }
  }

  lemma {:induction false} NotFiled(list: seq<Reservation>, n: nat, ref: Ref)
    requires n <= |list| && forall i :: 0 <= i < n ==> list[i].ref != ref
    ensures ref !in Filed(list, n)
  {
    if n > 0 { NotFiled(list, n - 1, ref); }
  }

  /** One more reservation row, under a key that is still free. */
  lemma OneMoreHold(list: seq<Reservation>, i: nat)
    requires i < |list| && AllAccepted(Filed(list, i)) && Accepted(list[i])
    requires forall a, b :: 0 <= a < b < |list| ==> list[a].ref != list[b].ref
    ensures list[i].ref !in HoldsOf(Filed(list, i))
    ensures AllAccepted(Filed(list, i + 1))
    ensures HoldsOf(Filed(list, i + 1)) == HoldsOf(Filed(list, i))[list[i].ref := ToHold(list[i])]
  {
    hide ToHold, Accepted;
    NotFiled(list, i, list[i].ref);
    assert Filed(list, i + 1) == Filed(list, i)[list[i].ref := list[i]];
  }

  /** Checks the reservation rows, taken in any order, and lists what they stand for. */
  method DecodeHolds(rows: map<Ref, HoldRow>) returns (list: Result<seq<Reservation>, StoreError>)
    requires forall k :: k in rows ==> NewRef(k.text) == Ok(k)
    ensures list.Ok? && Filed(list.value, |list.value|) == HoldersOf(rows)
  {
    hide NewRef, Listing, Filed;
    ghost var rs := HoldersOf(rows);
    var out: seq<Reservation> := [];
    var todo := rows.Keys;
    assert rs.Keys == todo;
    ListingWhole(rs, out);
    while todo != {}
      invariant todo <= rows.Keys && Listing(rs, todo, out)
      decreases |todo|
    {
      var k :| k in todo;
      ListingStep(rs, todo, out, k);
      var ref := NewRef(k.text);
      if ref.Err? {
        return Err(BadRow);
      }
      out, todo := out + [Reservation(ref.value, rows[k].quantity, rows[k].status, rows[k].expiresAt)], todo - {k};
    }
    ListingWhole(rs, out);
    return Ok(out);
  }

  class Tables {
    var items: Items
    var holds: Holds

    function Contents(): View
      reads this
    {
      ViewOf(items, holds)
    }

    ghost predicate Valid()
      reads this
    {
      Consistent(items, holds)
    }

    constructor ()
      ensures Valid() && Contents() == map[]
    {
      items, holds := map[], map[];
    }

    /** Rebuilds an item from its row and its reservation rows. */
    method Rebuild(sku: Sku) returns (item: Result<StockItem, StoreError>)
      requires Valid() && sku in items
      ensures item.Ok? && fresh(item.value)
      ensures AsSaved(item.value) == ItemAt(Contents(), sku) && item.value.State().events == []
    {
      hide Storable, NewRef, NewSku, UniqueItemIds;
      Readable(sku, Contents()[sku].level);
      var loadedSku := NewSku(sku.text);
      if loadedSku.Err? {
        return Err(BadRow);
      }
      var row := items[sku];
      var list := DecodeHolds(HoldsAt(holds, row.id));
      if list.Err? {
        return Err(BadRow);
      }
      var it := new StockItem.Reconstitute(row.id.text, loadedSku.value, row.available, row.version, list.value);
      return Ok(it);
    }

    method Load(sku: Sku) returns (item: Option<StockItem>)
      requires Valid()
      ensures item.Some? <==> sku in Contents()
      ensures item.Some? ==>
        fresh(item.value) && AsSaved(item.value) == ItemAt(Contents(), sku) && item.value.events == []
    {
      if sku !in items {
        return None;
      }
      var it := Rebuild(sku);
      return Some(it.value);
    }

    /** Rebuilds an item for each known SKU asked for, in order and as often as it is asked for. */
    method LoadMany(skus: seq<Sku>) returns (found: seq<StockItem>, ghost xs: seq<Saved>)
      requires Valid()
      ensures Loaded(found, xs, Contents()) && forall i :: 0 <= i < |found| ==> fresh(found[i])
      ensures xs == Found(Contents(), skus, |skus|)
    {
      hide Loaded, ItemAt, Consistent, ViewOf;
      found, xs := [], [];
      FirstLoaded(Contents());
      for k := 0 to |skus|
        invariant forall i :: 0 <= i < |found| ==> fresh(found[i])
        invariant Loaded(found, xs, Contents()) && xs == Found(Contents(), skus, k)
      {
        var item := Load(skus[k]);
        if item.None? {
          continue;
        }
        AlsoLoaded(found, xs, Contents(), item.value, skus[k]);
        found, xs := found + [item.value], xs + [ItemAt(Contents(), skus[k])];
      }
    }

    /** Deletes an item's reservations and inserts the current ones, in any order. No insertion
        meets a row that is there already. */
    method SaveReservations(item: StockItem) returns (err: Option<StoreError>)
      requires WellFormed(item.State().level)
      modifies `holds
      ensures err == if AllAccepted(item.State().level.reservations) then None else Some(Rejected)
      ensures err.None? ==> HoldsAt(holds, ItemId(item.id)) == HoldsOf(item.State().level.reservations)
      ensures forall id :: id != ItemId(item.id) ==> HoldsAt(holds, id) == HoldsAt(old(holds), id)
    {
      var id := ItemId(item.id);
      holds := holds - {id};
      var list := item.Reservations();
      for i := 0 to |list|
        invariant AllAccepted(Filed(list, i)) && HoldsAt(holds, id) == HoldsOf(Filed(list, i))
        invariant forall o :: o != id ==> HoldsAt(holds, o) == HoldsAt(old(holds), o)
      {
        var r := list[i];
        if !Accepted(r) {
          assert r.ref in item.reservations;
          return Some(Rejected);
        }
        OneMoreHold(list, i);
        assert r.ref !in HoldsAt(holds, id);
        holds := holds[id := HoldsAt(holds, id)[r.ref := ToHold(r)]];
      }
      return None;
    }

    /** The insertion or the conditional update of the item's own row. */
    method WriteItem(item: StockItem) returns (err: Option<StoreError>)
      modifies `items
      ensures var x, v := AsSaved(item), old(Contents());
        if x.version == 0 && Int32(x.level.available) < 0 then err == Some(Rejected)
        else if x.version == 0 && (x.sku in v || IdTaken(v, x.id)) then err == Some(Conflict)
        else if x.version > 0 && (x.sku !in v || v[x.sku].version != Int32(x.version)) then err == Some(Conflict)
        else if Int32(x.level.available) < 0 || Int32(x.version + 1) < 1 then err == Some(Rejected)
        else
          && err == None
          && items == old(items)[x.sku := ItemRow(
               if x.version == 0 then ItemId(x.id) else old(items)[x.sku].id,
               Int32(x.level.available), Int32(x.version + 1))]
      ensures err.Some? ==> items == old(items)
    {
      var available := Int32(item.available);
      if item.version == 0 {
        if available < 0 {
          return Some(Rejected);
        }
        assert IdTaken(Contents(), item.id) <==> exists s :: s in items && items[s].id == ItemId(item.id) by {
          if s :| s in items && items[s].id == ItemId(item.id) { assert Contents()[s].id == item.id; }
          if s :| s in Contents() && Contents()[s].id == item.id { assert items[s].id == ItemId(item.id); }
        }
        if item.sku in items || exists s :: s in items && items[s].id == ItemId(item.id) {
          return Some(Conflict);
        }
        items := items[item.sku := ItemRow(ItemId(item.id), available, 1)];
        return None;
      }
      if item.sku !in items || items[item.sku].version != Int32(item.version) {
        return Some(Conflict);
      }
      var next := Int32(item.version + 1);
      if available < 0 || next < 1 {
        return Some(Rejected);
      }
      items := items[item.sku := items[item.sku].(available := available, version := next)];
      return None;
    }

    /** Writes one item. After an error nothing is promised: the transaction is about to be rolled
        back. */
    method SaveOne(item: StockItem) returns (err: Option<StoreError>)
      requires Valid() && Storable(item.sku, item.State().level) && KnownId(Contents(), AsSaved(item))
      modifies this, item
      ensures match PgWrite(old(Contents()), old(AsSaved(item)))
        case Ok(w) => err == None && Valid() && Contents() == w && item.State().level == old(item.State()).level
        case Err(e) => err == Some(e)
    {
      hide Storable, ViewOf, Consistent, Narrow, HoldsAt, HoldersOf;
      ghost var x := AsSaved(item);
      err := WriteItem(item);
      if err.Some? {
        return;
      }
      item.MarkPersisted(item.version + 1);
      StorableMeans(item.sku, x.level);
      err := SaveReservations(item);
      if err.Some? {
        return;
      }
      SavedOne(old(items), old(holds), x, items, holds);
    }

    /** One transaction that saves some items: all of them, or, after the first error, none. */
    method Save(batch: seq<StockItem>, ghost xs: seq<Saved>) returns (err: Option<StoreError>)
      requires Valid() && KnownIds(Contents(), xs)
      requires AllDistinct(batch) && Match(batch, xs)
      requires forall i :: 0 <= i < |xs| ==> Storable(xs[i].sku, xs[i].level)
      modifies this, batch
      ensures Valid()
      ensures match PgSave(old(Contents()), xs, |xs|)
        case Ok(w) => err == None && Contents() == w
        case Err(e) => err == Some(e) && items == old(items) && holds == old(holds)
    {
      hide Storable, ViewOf, UniqueItemIds, PgWrite;
      var itemsBefore, holdsBefore := items, holds;
      for i := 0 to |batch|
        invariant PgSave(old(Contents()), xs, i) == Ok(Contents())
        invariant Valid() && KnownIds(Contents(), xs)
        invariant forall j :: i <= j < |batch| ==> AsSaved(batch[j]) == xs[j]
      {
        ghost var v := Contents();
        err := SaveOne(batch[i]);
        if err.Some? {
          ErrorEndsSave(old(Contents()), xs, i + 1, |xs|);
          items, holds := itemsBefore, holdsBefore;  // rollback
          return;
        }
        IdsStayKnown(v, xs, i);
      }
      return None;
    }
  }

  /** A stored item keeps its id, so whoever loaded an item knows it. */
  predicate KnownId(v: View, x: Saved) {
    x.version > 0 && x.sku in v ==> v[x.sku].id == x.id
  }

  ghost predicate KnownIds(v: View, xs: seq<Saved>) {
    && (forall i :: 0 <= i < |xs| ==> KnownId(v, xs[i]))
    && forall i, j :: 0 <= i < |xs| && 0 <= j < |xs| && xs[i].version > 0 && xs[j].sku == xs[i].sku ==>
      xs[j].id == xs[i].id
  }

  lemma IdsStayKnown(v: View, xs: seq<Saved>, n: nat)
    requires n < |xs| && KnownIds(v, xs) && PgWrite(v, xs[n]).Ok?
    ensures KnownIds(PgWrite(v, xs[n]).value, xs)
  {
  }

  lemma StorableMeans(sku: Sku, l: Level)
    requires Storable(sku, l)
    ensures WellFormed(l)
  {
  }

  lemma NarrowStorable(sku: Sku, l: Level)
    requires Storable(sku, l) && Int32(l.available) >= 0 && AllAccepted(l.reservations)
    ensures Storable(sku, Narrow(l))
  {
  }

  /** The row that was written still has the item's id, and nobody else has it. */
  lemma SameIdWritten(items: Items, holds: Holds, x: Saved)
    requires KnownId(ViewOf(items, holds), x) && PgWrite(ViewOf(items, holds), x).Ok?
    ensures if x.sku in items then x.version > 0 && items[x.sku].id == ItemId(x.id)
            else x.version == 0 && forall s :: s in items ==> items[s].id != ItemId(x.id)
  {
    var v := ViewOf(items, holds);
    assert v.Keys == items.Keys && forall s :: s in items ==> v[s].id == items[s].id.text;
    assert forall s :: s in items ==> items[s].id == ItemId(v[s].id);
  }

  lemma StaysConsistent(items: Items, holds: Holds, sku: Sku, row: ItemRow, after: Holds)
    requires Consistent(items, holds) && UniqueItemIds(items[sku := row]) && row.version > 0
    requires var v := ViewOf(items, holds);
      var level := Level(row.available, HoldersOf(HoldsAt(after, row.id)));
      && Storable(sku, level)
      && ViewOf(items[sku := row], after) == v[sku := Stored(row.id.text, row.version, level)]
    ensures Consistent(items[sku := row], after)
  {
    hide Storable, UniqueItemIds, HoldsAt, HoldersOf;
    var v, w := ViewOf(items, holds), ViewOf(items[sku := row], after);
    assert forall s :: s in items && s != sku ==> w[s] == v[s];
  }

  /** An accepted write passes the checks of all its columns. */
  lemma AcceptedWrite(v: View, x: Saved)
    requires PgWrite(v, x).Ok?
    ensures Int32(x.version + 1) > 0 && Int32(x.level.available) >= 0 && AllAccepted(x.level.reservations)
    ensures PgWrite(v, x).value == v[x.sku := Stored(x.id, Int32(x.version + 1), Narrow(x.level))]
  {
  }

  lemma NarrowHolds(available: int, l: Level)
    requires available == Int32(l.available) && available >= 0 && AllAccepted(l.reservations)
    ensures Level(available, HoldersOf(HoldsOf(l.reservations))) == Narrow(l)
  {
  }

  lemma UniqueIds(items: Items, holds: Holds)
    requires Consistent(items, holds)
    ensures UniqueItemIds(items)
  {
  }

  /** What the two statements leave is what the rule says, and the tables stay consistent. */
  lemma SavedOne(items: Items, holds: Holds, x: Saved, itemsAfter: Items, holdsAfter: Holds)
    requires Consistent(items, holds) && Storable(x.sku, x.level) && KnownId(ViewOf(items, holds), x)
    requires PgWrite(ViewOf(items, holds), x).Ok?
    requires var id := if x.version == 0 then ItemId(x.id) else items[x.sku].id;
      itemsAfter == items[x.sku := ItemRow(id, Int32(x.level.available), Int32(x.version + 1))]
    requires HoldsAt(holdsAfter, ItemId(x.id)) == HoldsOf(x.level.reservations)
    requires forall id :: id != ItemId(x.id) ==> HoldsAt(holdsAfter, id) == HoldsAt(holds, id)
    ensures Consistent(itemsAfter, holdsAfter)
    ensures ViewOf(itemsAfter, holdsAfter) == PgWrite(ViewOf(items, holds), x).value
  {
    hide Storable, ViewOf, HoldsAt, HoldersOf, HoldsOf, PgWrite, Consistent, UniqueItemIds, KnownId, Narrow,
      AllAccepted;
    AcceptedWrite(ViewOf(items, holds), x);
    UniqueIds(items, holds);
    SameIdWritten(items, holds, x);
    NarrowStorable(x.sku, x.level);
    NarrowHolds(itemsAfter[x.sku].available, x.level);
    OneItemWritten(items, holds, x.sku, itemsAfter[x.sku], holdsAfter);
    StaysConsistent(items, holds, x.sku, itemsAfter[x.sku], holdsAfter);
  }

  // ---------- The two adapters compared ----------

  /** The values fit the columns, and the ids drawn for new items are unused elsewhere. */
  ghost predicate Fitting(v: View, xs: seq<Saved>) {
    && (forall i :: 0 <= i < |xs| ==>
        xs[i].version + 1 < INT32_LIMIT && Storable(xs[i].sku, xs[i].level) && Fits32(xs[i].level))
    && (forall i :: 0 <= i < |xs| && xs[i].version == 0 ==> !IdTaken(v, xs[i].id))
    && forall i, j :: 0 <= i < |xs| && 0 <= j < |xs| && xs[i].version == 0 && xs[j].id == xs[i].id ==>
      xs[j].sku == xs[i].sku
  }

  /** A value that fits is written as it is. */
  lemma FittingWrite(v: View, x: Saved)
    requires x.version + 1 < INT32_LIMIT && Storable(x.sku, x.level) && Fits32(x.level)
    requires x.version == 0 && x.sku !in v ==> !IdTaken(v, x.id)
    ensures PgWrite(v, x) == if NextVersion(v, x).Some? then Ok(Written(v, x)) else Err(Conflict)
  {
    Int32Fits(x.version);
    Int32Fits(x.version + 1);
    SurvivesIffItFits(x.sku, x.level);
  }

  /** An item that memory would store is stored the same by the tables exactly if its amounts and
      its next version fit 32 bits. */
  lemma StoredAsItIsIffItFits(v: View, x: Saved)
    requires Storable(x.sku, x.level) && NextVersion(v, x).Some? && (x.version == 0 ==> !IdTaken(v, x.id))
    ensures PgWrite(v, x) == Ok(Written(v, x)) <==> Fits32(x.level) && x.version + 1 < INT32_LIMIT
  {
    Int32Fits(x.version + 1);
    SurvivesIffItFits(x.sku, x.level);
    if Fits32(x.level) && x.version + 1 < INT32_LIMIT {
      FittingWrite(v, x);
    } else if PgWrite(v, x).Ok? {
      AcceptedWrite(v, x);
      assert Written(v, x)[x.sku].version == x.version + 1 && Written(v, x)[x.sku].level == x.level;
      assert PgWrite(v, x).value[x.sku].level == Narrow(x.level);
    }
  }

  lemma {:induction false} IdStaysFree(v: View, xs: seq<Saved>, n: nat, id: string, sku: Sku)
    requires n <= |xs| && !IdTaken(v, id)
    requires forall j :: 0 <= j < n && xs[j].id == id ==> xs[j].sku == sku
    ensures forall s :: s in WriteAll(v, xs, n) && WriteAll(v, xs, n)[s].id == id ==> s == sku
  {
    if n > 0 { IdStaysFree(v, xs, n - 1, id, sku); }
  }

  /** None of the first `n` items has the SKU of a later one of them. */
  ghost predicate DistinctUpTo(xs: seq<Saved>, n: nat)
    requires n <= |xs|
  {
    forall i, j :: 0 <= i < j < n ==> xs[i].sku != xs[j].sku
  }

  /** The next item of a save whose SKU did not come before: both adapters check the same row. */
  lemma NextIsFresh(v: View, xs: seq<Saved>, n: nat)
    requires n < |xs| && Fitting(v, xs)
    requires forall i :: 0 <= i < n ==> xs[i].sku != xs[n].sku
    ensures PgWrite(WriteAll(v, xs, n), xs[n]) ==
      if NextVersion(v, xs[n]).Some? then Ok(WriteAll(v, xs, n + 1)) else Err(Conflict)
  {
    var w := WriteAll(v, xs, n);
    WriteAllElsewhere(v, xs, n, xs[n].sku);
    if xs[n].version == 0 { IdStaysFree(v, xs, n, xs[n].id, xs[n].sku); }
    FittingWrite(w, xs[n]);
  }

  /** A SKU that came before has moved on to a newer version than the one that was read. */
  lemma NextIsStale(v: View, xs: seq<Saved>, n: nat, i: nat)
    requires i < n < |xs| && Fitting(v, xs) && DistinctUpTo(xs, n)
    requires xs[i].sku == xs[n].sku && NextVersion(v, xs[i]).Some? && NextVersion(v, xs[n]).Some?
    ensures PgWrite(WriteAll(v, xs, n), xs[n]) == Err(Conflict)
  {
    WriteAllLast(v, xs, n, i);
    Int32Fits(xs[n].level.available);
    Int32Fits(xs[n].version);
  }

  lemma OneMoreSku(xs: seq<Saved>, n: nat)
    requires n < |xs|
    ensures DistinctUpTo(xs, n + 1) <==> DistinctUpTo(xs, n) && xs[n].sku !in SkusUpTo(xs, n)
  {
  }

  lemma NextItem(v: View, xs: seq<Saved>, n: nat)
    requires n < |xs| && Fitting(v, xs) && DistinctUpTo(xs, n)
    requires forall i :: 0 <= i <= n ==> NextVersion(v, xs[i]).Some?
    ensures PgWrite(WriteAll(v, xs, n), xs[n]) ==
      if xs[n].sku in SkusUpTo(xs, n) then Err(Conflict) else Ok(WriteAll(v, xs, n + 1))
  {
    hide Fitting, PgWrite, WriteAll, NextVersion, DistinctUpTo;
    if i :| 0 <= i < n && xs[i].sku == xs[n].sku {
      NextIsStale(v, xs, n, i);
    } else {
      NextIsFresh(v, xs, n);
    }
  }

  lemma {:induction false} SavePrefix(v: View, xs: seq<Saved>, n: nat)
    requires n <= |xs| && Fitting(v, xs)
    requires forall i :: 0 <= i < n ==> NextVersion(v, xs[i]).Some?
    ensures DistinctUpTo(xs, n) ==> PgSave(v, xs, n) == Ok(WriteAll(v, xs, n))
    ensures !DistinctUpTo(xs, n) ==> PgSave(v, xs, n) == Err(Conflict)
  {
    hide Fitting, PgWrite, NextVersion, DistinctUpTo, SkusUpTo;
    if n > 0 {
      SavePrefix(v, xs, n - 1);
      OneMoreSku(xs, n - 1);
      if DistinctUpTo(xs, n - 1) { NextItem(v, xs, n - 1); }
    } else {
      OneSku(xs);
    }
  }

  lemma OneSku(xs: seq<Saved>)
    ensures DistinctUpTo(xs, 0)
  {
  }

  /** Saves of distinct SKUs: both adapters accept or refuse together, and store the same. A SKU
      that is saved twice in one go is kept in its last copy by memory, and never gets through in
      PostgreSQL, because the first copy has moved the version on. */
  lemma AdaptersAgree(v: View, xs: seq<Saved>)
    requires Fitting(v, xs)
    ensures DistinctSkus(xs) ==> PgSave(v, xs, |xs|) == MemorySave(v, xs)
    ensures MemorySave(v, xs).Ok? && !DistinctSkus(xs) ==> PgSave(v, xs, |xs|) == Err(Conflict)
  {
    if MemorySave(v, xs).Ok? {
      SavePrefix(v, xs, |xs|);
    } else if DistinctSkus(xs) {
      var i := FirstRefused(v, xs, 0);
      SavePrefix(v, xs, i);
      NextIsFresh(v, xs, i);
      ErrorEndsSave(v, xs, i + 1, |xs|);
    }
  }

  /** The stored items after the first `n` saves, each a transaction of its own; a refused one
      leaves no trace. */
  function MemoryAfter(v: View, saves: seq<seq<Saved>>, n: nat): View
    requires n <= |saves|
  {
    if n == 0 then v
    else
      var before := MemoryAfter(v, saves, n - 1);
      match MemorySave(before, saves[n - 1])
      case Ok(w) => w
      case Err(_) => before
  }

  ghost function PgAfter(v: View, saves: seq<seq<Saved>>, n: nat): View
    requires n <= |saves|
  {
    if n == 0 then v
    else
      var before := PgAfter(v, saves, n - 1);
      match PgSave(before, saves[n - 1], |saves[n - 1]|)
      case Ok(w) => w
      case Err(_) => before
  }

  /** Over any serial history of such saves, accepted and refused ones alike, the two adapters give
      the same answers and hold the same items. */
  lemma {:induction false} HistoriesAgree(v: View, saves: seq<seq<Saved>>, n: nat)
    requires n <= |saves|
    requires forall i :: 0 <= i < n ==> DistinctSkus(saves[i]) && Fitting(MemoryAfter(v, saves, i), saves[i])
    ensures PgAfter(v, saves, n) == MemoryAfter(v, saves, n)
    ensures forall i :: 0 <= i < n ==>
      (PgSave(PgAfter(v, saves, i), saves[i], |saves[i]|) == MemorySave(MemoryAfter(v, saves, i), saves[i]))
  {
    hide Fitting, DistinctSkus, PgSave, MemorySave;
    if n > 0 {
      HistoriesAgree(v, saves, n - 1);
      AdaptersAgree(MemoryAfter(v, saves, n - 1), saves[n - 1]);
    }
  }

  lemma {:induction false} FirstRefused(v: View, xs: seq<Saved>, from: nat) returns (i: nat)
    requires from <= |xs| && forall j :: 0 <= j < from ==> NextVersion(v, xs[j]).Some?
    requires MemorySave(v, xs).Err?
    ensures i < |xs| && NextVersion(v, xs[i]).None? && forall j :: 0 <= j < i ==> NextVersion(v, xs[j]).Some?
    decreases |xs| - from
  {
    if from == |xs| {
      assert false;
    } else if NextVersion(v, xs[from]).None? {
      i := from;
    } else {
      i := FirstRefused(v, xs, from + 1);
    }
  }

  lemma SameSkus(xs: seq<Saved>, ys: seq<Saved>)
    requires |xs| == |ys| && forall i :: 0 <= i < |xs| ==> ys[i].sku == xs[i].sku
    ensures DistinctSkus(xs) <==> DistinctSkus(ys)
  {
  }

  /** No stocked SKU is named on two lines. */
  predicate NoneRepeated(v: View, lines: seq<Line>) {
    forall i, j :: 0 <= i < j < |lines| && lines[i].sku == lines[j].sku ==> lines[i].sku !in v
  }

  /** The save of a reservation goes through on PostgreSQL exactly if no stocked SKU is named on two
      lines. Otherwise, whatever is stored when an attempt starts, the attempt conflicts with itself,
      although memory accepts the same save. */
  lemma ReservesIffNoneRepeated(v: View, skus: seq<Sku>, ref: Ref, lines: seq<Line>, stamps: seq<Time>, ttl: int)
    requires |skus| == |lines| == |stamps| && forall k :: 0 <= k < |lines| ==> skus[k] == lines[k].sku
    requires forall s :: s in v ==> v[s].version > 0
    requires Fitting(v, Allotment(Found(v, skus, |skus|), ref, lines, stamps, ttl))
    ensures var ys := Allotment(Found(v, skus, |skus|), ref, lines, stamps, ttl);
      && (PgSave(v, ys, |ys|).Ok? <==> NoneRepeated(v, lines))
      && PgSave(v, ys, |ys|) == (if NoneRepeated(v, lines) then MemorySave(v, ys) else Err(Conflict))
      && MemorySave(v, ys) ==
        Ok(Touched(v, ReserveAll(LevelsOf(v), ref, lines, stamps, ttl), SkusOf(Found(v, skus, |skus|))))
  {
    hide Fitting, FromView, LastCopy, WriteAll, Touched, Found, DistinctSkus, PgSave;
    var xs := Found(v, skus, |skus|);
    var ys := Allotment(xs, ref, lines, stamps, ttl);
    FoundIsFromView(v, skus, |skus|);
    if NoneRepeated(v, lines) {
      FoundOnce(v, skus, |skus|);
    } else {
      var i, j :| 0 <= i < j < |lines| && lines[i].sku == lines[j].sku && lines[i].sku in v;
      FoundTwice(v, skus, |skus|, i, j);
    }
    SameSkus(xs, ys);
    NoConflict(v, xs, ys);
    AllotmentWrites(v, xs, ref, lines, stamps, ttl);
    AdaptersAgree(v, ys);
  }

  // ---------- The queries behind the loaders ----------

  /** SELECT DISTINCT stock_item_id ... WHERE ref = $1 */
  function SelectHolding(items: Items, holds: Holds, ref: Ref): set<Sku> {
    set s | s in items && ref in HoldsAt(holds, items[s].id)
  }

  /** SELECT DISTINCT stock_item_id ... WHERE status = 'pending' AND expires_at IS NOT NULL AND expires_at < $1 */
  function SelectExpired(items: Items, holds: Holds, before: Time): set<Sku> {
    set s | s in items && exists k ::
      k in HoldsAt(holds, items[s].id) && DueBefore(HoldsAt(holds, items[s].id)[k], before)
  }

  predicate DueBefore(h: HoldRow, before: Time) {
    h.status.Pending? && h.expiresAt != ZERO_TIME && h.expiresAt < before
  }

  /** The query by reference finds what memory finds. The sweep's query is strict where the domain
      is not: it misses an item exactly if everything the reaper would free there falls due at that
      very instant, and finds it one instant later. */
  lemma QueriesAgreeWithMemory(items: Items, holds: Holds, ref: Ref, before: Time)
    ensures SelectHolding(items, holds, ref) == Holding(LevelsOf(ViewOf(items, holds)), ref)
    ensures SelectExpired(items, holds, before) <= Affected(LevelsOf(ViewOf(items, holds)), before)
    ensures forall s :: s in Affected(LevelsOf(ViewOf(items, holds)), before) ==>
      var l := ViewOf(items, holds)[s].level;
      s !in SelectExpired(items, holds, before) <==>
        forall k :: k in Expired(l, before) ==> l.reservations[k].expiresAt == before
    ensures before != ZERO_TIME ==>
      Affected(LevelsOf(ViewOf(items, holds)), before) <= SelectExpired(items, holds, before + 1)
  {
    var v := ViewOf(items, holds);
    forall s | s in items && s in SelectExpired(items, holds, before) ensures s in Affected(LevelsOf(v), before) {
      var k :| k in HoldsAt(holds, items[s].id) && DueBefore(HoldsAt(holds, items[s].id)[k], before);
      assert k in Expired(v[s].level, before);
    }
    forall s, k | s in items && k in Expired(v[s].level, before)
      ensures k in HoldsAt(holds, items[s].id)
      ensures v[s].level.reservations[k].expiresAt < before ==> DueBefore(HoldsAt(holds, items[s].id)[k], before)
      ensures DueBefore(HoldsAt(holds, items[s].id)[k], before + 1)
    {
    }
  }
}
