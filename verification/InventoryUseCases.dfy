/**
 The inventory use cases over the in-memory adapter, each one transaction: load, apply the domain
 operation to the loaded items in place, save, commit. Each is proved to have the effect the
 `Warehouse` module describes on all stored items at once.
 */
module InventoryUseCases {
  import opened Common
  import opened Stock
  import opened StockStore
  import opened MemoryStock
  import opened EventReports
  import opened Allocation
  import opened Warehouse
  import Text

  /** The items `touched` have been saved with the levels `next`; each save advances the version. */
  function Touched(v: View, next: Levels, touched: set<Sku>): View {
    map s | s in v :: if s in touched && s in next then Stored(v[s].id, v[s].version + 1, next[s]) else v[s]
  }

  /** Loaded items with their levels replaced. */
  ghost function Relevelled(xs: seq<Saved>, next: Levels): (ys: seq<Saved>)
    ensures |ys| == |xs|
    ensures forall i :: 0 <= i < |xs| ==> ys[i] == if xs[i].sku in next then xs[i].(level := next[xs[i].sku]) else xs[i]
  {
    if xs == [] then []
    else
      var x := xs[|xs| - 1];
      Relevelled(xs[..|xs| - 1], next) + [if x.sku in next then x.(level := next[x.sku]) else x]
  }

  /** Items that were loaded and not touched by anyone else since are saved without a conflict. */
  lemma NoConflict(v: View, xs: seq<Saved>, ys: seq<Saved>)
    requires FromView(v, xs) && |xs| == |ys| && forall s :: s in v ==> v[s].version > 0
    requires forall i :: 0 <= i < |xs| ==> ys[i].sku == xs[i].sku && ys[i].version == xs[i].version
    ensures MemorySave(v, ys) == Ok(WriteAll(v, ys, |ys|))
  {
    forall i | 0 <= i < |ys| ensures NextVersion(v, ys[i]).Some? {
      assert xs[i] == ItemAt(v, xs[i].sku);
    }
  }

  /** Writing back relevelled items, each SKU once, touches exactly those SKUs. */
  lemma WritesTouch(v: View, xs: seq<Saved>, next: Levels)
    requires FromView(v, xs) && DistinctSkus(xs) && next.Keys == v.Keys
    ensures WriteAll(v, Relevelled(xs, next), |xs|) == Touched(v, next, SkusOf(xs))
  {
    hide WriteAll;
    var ys := Relevelled(xs, next);
    assert forall j :: 0 <= j < |ys| ==> ys[j].sku == xs[j].sku && xs[j].sku in SkusOf(xs);
    var after := WriteAll(v, ys, |ys|);
    forall s ensures (s in after <==> s in v) && (s in v ==> after[s] == Touched(v, next, SkusOf(xs))[s]) {
      if s in SkusOf(xs) {
        var i :| 0 <= i < |xs| && xs[i].sku == s;
        WriteAllLast(v, ys, |ys|, i);
      } else {
        WriteAllElsewhere(v, ys, |ys|, s);
      }
    }
  }

  /** Saves and commits in one serial step. */
  method SaveAndCommit(rows: StockRows, items: seq<StockItem>, ghost xs: seq<Saved>, ghost ys: seq<Saved>)
    returns (err: Option<StoreError>)
    requires rows.Valid()
    requires AllDistinct(items) && Match(items, ys) && |xs| == |ys| && FromView(rows.view, xs)
    requires forall i :: 0 <= i < |xs| ==> ys[i].sku == xs[i].sku && ys[i].version == xs[i].version
    requires forall i :: 0 <= i < |ys| ==> Storable(ys[i].sku, ys[i].level)
    modifies rows, items
    ensures err == None
    ensures rows.Valid() && rows.view == WriteAll(old(rows.view), ys, |ys|)
    ensures forall i :: 0 <= i < |items| ==> items[i].events == old(items[i].events)
  {
    hide RowOf, Storable;
    var staging := new Staging(rows);
    NoConflict(rows.view, xs, ys);
    err := staging.Save(items, ys);
    staging.Commit(ys);
  }

  /** If an operation keeps every item storable, what was loaded can be saved afterwards. */
  lemma StillStorable(rows: StockRows, xs: seq<Saved>, next: Levels)
    requires rows.Valid() && FromView(rows.view, xs)
    requires forall s :: s in rows.view && Storable(s, rows.view[s].level) ==> s in next && Storable(s, next[s])
    ensures forall i :: 0 <= i < |xs| ==> Storable(xs[i].sku, xs[i].level)
    ensures forall i :: 0 <= i < |xs| ==> Storable(xs[i].sku, Relevelled(xs, next)[i].level)
  {
    hide Storable, DecodeRow;
    forall i | 0 <= i < |xs|
      ensures Storable(xs[i].sku, xs[i].level) && Storable(xs[i].sku, Relevelled(xs, next)[i].level)
    {
      assert RowOf(rows.m[xs[i].sku], ItemAt(rows.view, xs[i].sku));
    }
  }

  // ---------- Events ----------

  /** The items are what `ys` says, and each has recorded its part of `es`. */
  ghost predicate Worked(items: seq<StockItem>, ys: seq<Saved>, es: seq<seq<Event>>)
    reads items
  {
    Match(items, ys) && |es| == |items| && forall i :: 0 <= i < |items| ==> items[i].events == es[i]
  }

  /** Takes the recorded events off the items, in item order. */
  method CollectEvents(items: seq<StockItem>, ghost es: seq<seq<Event>>) returns (events: seq<Event>)
    requires AllDistinct(items) && |es| == |items| && forall i :: 0 <= i < |items| ==> items[i].events == es[i]
    modifies items
    ensures events == Flat(es, |es|)
    ensures forall i :: 0 <= i < |items| ==> items[i].events == []
  {
    events := [];
    for i := 0 to |items|
      invariant events == Flat(es, i)
      invariant forall j :: 0 <= j < |items| ==> items[j].events == if j < i then [] else es[j]
    {
      var pulled := items[i].PullEvents();
      events := events + pulled;
    }
  }

  /** The events report the work on exactly the items of the SKUs `touched`, in some order. */
  ghost predicate Reports(events: seq<Event>, v: View, touched: set<Sku>, xs: seq<Saved>, es: seq<seq<Event>>) {
    && FromView(v, xs) && DistinctSkus(xs) && SkusOf(xs) == touched
    && |es| == |xs| && events == Flat(es, |es|)
  }

  // ---------- Confirm ----------

  function ConfirmRecord(xs: seq<Saved>, ref: Ref): (es: seq<seq<Event>>)
    ensures |es| == |xs| && forall i :: 0 <= i < |xs| ==> es[i] == ConfirmEvents(xs[i].level, xs[i].sku, ref)
  {
    seq(|xs|, i requires 0 <= i < |xs| => ConfirmEvents(xs[i].level, xs[i].sku, ref))
  }

  method ConfirmItem(item: StockItem, ref: Ref, ghost x: Saved, ghost y: Saved)
    requires AsSaved(item) == x && item.events == []
    requires ref in x.level.reservations && y == x.(level := ConfirmOne(x.level, ref))
    modifies item
    ensures AsSaved(item) == y && item.events == ConfirmEvents(x.level, x.sku, ref)
  {
    assert ConfirmLevel(x.level, ref) == Ok(y.level);
    hide ConfirmLevel, ConfirmOne, ConfirmEvents;
    var es := item.events;
    assert es + ConfirmEvents(x.level, x.sku, ref) == ConfirmEvents(x.level, x.sku, ref);
    var e := item.Confirm(ref);
    assert e.None?;
  }

  method ConfirmItems(items: seq<StockItem>, ref: Ref, ghost xs: seq<Saved>, ghost ys: seq<Saved>)
    requires AllDistinct(items) && Match(items, xs) && |ys| == |xs|
    requires forall i :: 0 <= i < |items| ==> items[i].events == []
    requires forall i :: 0 <= i < |xs| ==>
      ref in xs[i].level.reservations && ys[i] == xs[i].(level := ConfirmOne(xs[i].level, ref))
    modifies items
    ensures Worked(items, ys, ConfirmRecord(xs, ref))
  {
    hide ConfirmLevel, ConfirmOne, ConfirmEvents;
    ghost var es := ConfirmRecord(xs, ref);
    for i := 0 to |items|
      invariant forall j :: 0 <= j < i ==> AsSaved(items[j]) == ys[j] && items[j].events == es[j]
      invariant forall j :: i <= j < |items| ==> AsSaved(items[j]) == xs[j] && items[j].events == []
    {
      ConfirmItem(items[i], ref, xs[i], ys[i]);
    }
  }

  lemma ConfirmKeepsStorable(v: View, ref: Ref)
    ensures forall s :: s in v && Storable(s, v[s].level) ==> Storable(s, ConfirmAll(LevelsOf(v), ref)[s])
  {
    forall s | s in v && Storable(s, v[s].level) ensures Storable(s, ConfirmAll(LevelsOf(v), ref)[s]) {
      if ref in v[s].level.reservations { OpKeepsStorable(s, v[s].level, ItemOp.Confirm(ref)); }
    }
  }

  /** What loading by reference brings in. */
  lemma LoadedHolders(v: View, xs: seq<Saved>, ref: Ref)
    requires FromView(v, xs) && SkusOf(xs) == Holding(LevelsOf(v), ref)
    ensures SkusOf(xs) == {} <==> xs == []
    ensures forall i :: 0 <= i < |xs| ==>
      xs[i].sku in v && xs[i].level == v[xs[i].sku].level && ref in xs[i].level.reservations
  {
    assert forall i :: 0 <= i < |xs| ==> xs[i].sku in SkusOf(xs);
    if xs != [] { assert xs[0].sku in SkusOf(xs); }
  }

  /** The stored items after a confirmation: every holder confirmed and rewritten, or nothing. */
  ghost predicate AfterConfirm(v: View, refText: string, err: Option<StockError>, after: View) {
    match NewRef(refText)
    case Err(_) => err == Some(InvalidRef) && after == v
    case Ok(ref) =>
      var held := Holding(LevelsOf(v), ref);
      if held == {} then err == Some(ReservationNotFound) && after == v
      else err == None && after == Touched(v, ConfirmAll(LevelsOf(v), ref), held)
  }

  /** Confirms every reservation under the reference, or reports that there is none. */
  method Confirm(rows: StockRows, refText: string)
    returns (err: Option<StockError>, events: seq<Event>, ghost xs: seq<Saved>)
    requires rows.Valid()
    modifies rows
    ensures rows.Valid() && AfterConfirm(old(rows.view), refText, err, rows.view)
    ensures err.Some? ==> events == []
    ensures err.None? ==>
      var ref := NewRef(refText).value;
      Reports(events, old(rows.view), Holding(LevelsOf(old(rows.view)), ref), xs, ConfirmRecord(xs, ref))
  {
    hide RowOf, Storable, WriteAll, Touched, Holding, SkusOf, FromView, ConfirmOne, DistinctSkus, Flat;
    events, xs := [], [];
    var ref := NewRef(refText);
    if ref.Err? {
      return Some(InvalidRef), [], [];
    }
    ghost var v := rows.view;
    var items;
    items, xs := rows.LoadByReservation(ref.value);
    LoadedHolders(v, xs, ref.value);
    if |items| == 0 {
      return Some(ReservationNotFound), [], xs;
    }
    ghost var next := ConfirmAll(LevelsOf(v), ref.value);
    ghost var ys := Relevelled(xs, next);
    ConfirmKeepsStorable(v, ref.value);
    StillStorable(rows, xs, next);
    ConfirmItems(items, ref.value, xs, ys);
    var conflict := SaveAndCommit(rows, items, xs, ys);
    err := None;
    WritesTouch(v, xs, next);
    events := CollectEvents(items, ConfirmRecord(xs, ref.value));
  }

  // ---------- Release ----------

  function ReleaseRecord(xs: seq<Saved>, ref: Ref): (es: seq<seq<Event>>)
    ensures |es| == |xs| && forall i :: 0 <= i < |xs| ==> es[i] == ReleaseEvents(xs[i].level, xs[i].sku, ref)
  {
    seq(|xs|, i requires 0 <= i < |xs| => ReleaseEvents(xs[i].level, xs[i].sku, ref))
  }

  method ReleaseItems(items: seq<StockItem>, ref: Ref, ghost xs: seq<Saved>, ghost ys: seq<Saved>)
    requires AllDistinct(items) && Match(items, xs) && |ys| == |xs|
    requires forall i :: 0 <= i < |items| ==> items[i].events == []
    requires forall i :: 0 <= i < |xs| ==> ys[i] == xs[i].(level := ReleaseLevel(xs[i].level, ref))
    modifies items
    ensures Worked(items, ys, ReleaseRecord(xs, ref))
  {
    hide ReleaseLevel, ReleaseEvents;
    ghost var es := ReleaseRecord(xs, ref);
    for i := 0 to |items|
      invariant forall j :: 0 <= j < i ==> AsSaved(items[j]) == ys[j] && items[j].events == es[j]
      invariant forall j :: i <= j < |items| ==> AsSaved(items[j]) == xs[j] && items[j].events == []
    {
      assert [] + es[i] == es[i];
      items[i].Release(ref);
    }
  }

  lemma ReleaseKeepsStorable(v: View, ref: Ref)
    ensures forall s :: s in v && Storable(s, v[s].level) ==> Storable(s, ReleaseAll(LevelsOf(v), ref)[s])
  {
    forall s | s in v && Storable(s, v[s].level) ensures Storable(s, ReleaseAll(LevelsOf(v), ref)[s]) {
      OpKeepsStorable(s, v[s].level, ItemOp.Release(ref));
    }
  }

  /** The stored items after a release: every holder released and rewritten. */
  ghost predicate AfterRelease(v: View, refText: string, err: Option<StockError>, after: View) {
    match NewRef(refText)
    case Err(_) => err == Some(InvalidRef) && after == v
    case Ok(ref) => err == None && after == Touched(v, ReleaseAll(LevelsOf(v), ref), Holding(LevelsOf(v), ref))
  }

  /** Releases every reservation under the reference; releasing nothing is fine. */
  method Release(rows: StockRows, refText: string)
    returns (err: Option<StockError>, events: seq<Event>, ghost xs: seq<Saved>)
    requires rows.Valid()
    modifies rows
    ensures rows.Valid() && AfterRelease(old(rows.view), refText, err, rows.view)
    ensures err.Some? ==> events == []
    ensures err.None? ==>
      var ref := NewRef(refText).value;
      Reports(events, old(rows.view), Holding(LevelsOf(old(rows.view)), ref), xs, ReleaseRecord(xs, ref))
  {
    hide RowOf, Storable, WriteAll, Touched, Holding, SkusOf, DistinctSkus, Flat;
    events, xs := [], [];
    var ref := NewRef(refText);
    if ref.Err? {
      return Some(InvalidRef), [], [];
    }
    ghost var v := rows.view;
    var items;
    items, xs := rows.LoadByReservation(ref.value);
    ghost var next := ReleaseAll(LevelsOf(v), ref.value);
    ghost var ys := Relevelled(xs, next);
    ReleaseKeepsStorable(v, ref.value);
    StillStorable(rows, xs, next);
    ReleaseItems(items, ref.value, xs, ys);
    var conflict := SaveAndCommit(rows, items, xs, ys);
    err := None;
    WritesTouch(v, xs, next);
    events := CollectEvents(items, ReleaseRecord(xs, ref.value));
  }

  // ---------- Sweep ----------

  /** What the loader brings in is as much as one sweep may pick. */
  lemma LoadedPicks(v: View, xs: seq<Saved>, now: Time, batch: nat)
    requires DistinctSkus(xs) && SkusOf(xs) <= Affected(LevelsOf(v), now)
    requires |xs| <= batch && (|xs| < batch ==> SkusOf(xs) == Affected(LevelsOf(v), now))
    ensures Picks(LevelsOf(v), now, batch, SkusOf(xs))
    ensures forall i :: 0 <= i < |xs| ==> xs[i].sku in SkusOf(xs)
  {
    SizeOfSkus(xs);
    SubsetSize(SkusOf(xs), Affected(LevelsOf(v), now));
  }

  /** `es` are the events of reaping the items, each of which was walked along its trail: the release
      of everything expired, each once. */
  ghost predicate Reaped(xs: seq<Saved>, now: Time, trails: seq<Trail>, es: seq<seq<Event>>) {
    |trails| == |es| == |xs| && forall i :: 0 <= i < |xs| ==> ReapedOne(xs[i], now, trails[i], es[i])
  }

  ghost predicate ReapedOne(x: Saved, now: Time, trail: Trail, events: seq<Event>) {
    && Visits(trail, Expired(x.level, now))
    && events == WalkEvents(x.level, x.sku, trail)
    && ReportsAll(events, x.level, x.sku, Expired(x.level, now))
  }

  method ReapItem(item: StockItem, now: Time, ghost x: Saved, ghost y: Saved)
    returns (events: seq<Event>, ghost trail: Trail)
    requires AsSaved(item) == x && WellFormed(x.level) && y == x.(level := ReapLevel(x.level, now))
    modifies item
    ensures AsSaved(item) == y && ReapedOne(x, now, trail, events)
  {
    hide WellFormed, ReapLevel, Visits, WalkEvents, Expired, ReportsAll;
    events, trail := item.ReapExpired(now);
  }

  /** Reaps the items and collects what each of them freed. */
  method ReapItems(items: seq<StockItem>, now: Time, ghost xs: seq<Saved>, ghost ys: seq<Saved>)
    returns (events: seq<Event>, ghost trails: seq<Trail>, ghost es: seq<seq<Event>>)
    requires AllDistinct(items) && Match(items, xs) && |ys| == |xs|
    requires forall i :: 0 <= i < |xs| ==>
      WellFormed(xs[i].level) && ys[i] == xs[i].(level := ReapLevel(xs[i].level, now))
    modifies items
    ensures Match(items, ys)
    ensures Reaped(xs, now, trails, es) && events == Flat(es, |es|)
  {
    hide WellFormed, ReapLevel, ReapedOne;
    events, trails, es := [], [], [];
    for i := 0 to |items|
      invariant forall j :: 0 <= j < i ==> AsSaved(items[j]) == ys[j]
      invariant forall j :: i <= j < |items| ==> AsSaved(items[j]) == xs[j]
      invariant |trails| == |es| == i && events == Flat(es, i)
      invariant forall j :: 0 <= j < i ==> ReapedOne(xs[j], now, trails[j], es[j])
    {
      assert AsSaved(items[i]) == xs[i];
      var released, trail := ReapItem(items[i], now, xs[i], ys[i]);
      FlatPrefix(es, es + [released], i);
      events, trails, es := events + released, trails + [trail], es + [released];
    }
  }

  lemma SweepKeepsStorable(v: View, now: Time, picked: set<Sku>)
    ensures forall s :: s in v && Storable(s, v[s].level) ==> Storable(s, SweepSome(LevelsOf(v), now, picked)[s])
  {
    forall s | s in v && Storable(s, v[s].level) ensures Storable(s, SweepSome(LevelsOf(v), now, picked)[s]) {
      OpKeepsStorable(s, v[s].level, ItemOp.Reap(now));
    }
  }

  lemma {:induction false} SizeUpTo(xs: seq<Saved>, n: nat)
    requires n <= |xs| && DistinctSkus(xs)
    ensures |SkusUpTo(xs, n)| == n
  {
    if n > 0 {
      SizeUpTo(xs, n - 1);
      assert SkusUpTo(xs, n) == SkusUpTo(xs, n - 1) + {xs[n - 1].sku};
      assert xs[n - 1].sku !in SkusUpTo(xs, n - 1);
    }
  }

  lemma SizeOfSkus(xs: seq<Saved>)
    requires DistinctSkus(xs)
    ensures |SkusOf(xs)| == |xs|
  {
    SizeUpTo(xs, |xs|);
    assert SkusOf(xs) == SkusUpTo(xs, |xs|);
  }

  /** The stored items after a sweep of `picked`. */
  ghost predicate AfterSweep(v: View, now: Time, batch: nat, picked: set<Sku>, after: View) {
    && Picks(LevelsOf(v), now, batch, picked)
    && after == Touched(v, SweepSome(LevelsOf(v), now, picked), picked)
  }

  /** One sweep with a positive batch (the constructor turns any other into 100): reaps as many of
      the affected items as the batch allows, and nothing else, and reports what it freed. */
  method Sweep(rows: StockRows, now: Time, batch: nat)
    returns (events: seq<Event>, ghost picked: set<Sku>, ghost xs: seq<Saved>, ghost trails: seq<Trail>,
             ghost es: seq<seq<Event>>)
    requires rows.Valid() && batch > 0
    modifies rows
    ensures rows.Valid() && AfterSweep(old(rows.view), now, batch, picked, rows.view)
    ensures FromView(old(rows.view), xs) && DistinctSkus(xs) && SkusOf(xs) == picked
    ensures Reaped(xs, now, trails, es) && events == Flat(es, |es|)
  {
    hide RowOf, Storable, WriteAll, Touched, WellFormed, ReapLevel, Reaped, Expired, SkusOf, DistinctSkus, Picks;
    ghost var v := rows.view;
    var items;
    items, xs := rows.LoadExpiredPending(now, batch);
    picked := SkusOf(xs);
    LoadedPicks(v, xs, now, batch);
    ghost var next := SweepSome(LevelsOf(v), now, picked);
    ghost var ys := Relevelled(xs, next);
    SweepKeepsStorable(v, now, picked);
    StillStorable(rows, xs, next);
    LoadedWellFormed(xs);
    events, trails, es := ReapItems(items, now, xs, ys);
    var e := SaveAndCommit(rows, items, xs, ys);
    WritesTouch(v, xs, next);
  }

  lemma LoadedWellFormed(xs: seq<Saved>)
    requires forall i :: 0 <= i < |xs| ==> Storable(xs[i].sku, xs[i].level)
    ensures forall i :: 0 <= i < |xs| ==> WellFormed(xs[i].level)
  {
  }

  lemma SubsetSize<T>(a: set<T>, b: set<T>)
    requires a <= b
    ensures |a| <= |b|
    ensures |a| == |b| ==> a == b
  {
    assert b == a + (b - a);
  }

  // ---------- Replenish ----------

  method SaveSingle(rows: StockRows, item: StockItem, ghost y: Saved)
    requires rows.Valid() && AsSaved(item) == y && Storable(y.sku, y.level)
    requires NextVersion(rows.view, y).Some?
    modifies rows, item
    ensures rows.Valid() && rows.view == Written(old(rows.view), y)
    ensures AsSaved(item) == Advanced(y) && item.events == old(item.events)
  {
    hide RowOf, Storable, NextVersion;
    var staging := new Staging(rows);
    ghost var ys := [y];
    assert NextVersion(rows.view, ys[0]).Some?;
    var items := [item];
    var e := staging.Save(items, ys);
    assert AsSaved(items[0]) == Advanced(ys[0]) && items[0].events == old(item.events);
    staging.Commit(ys);
    assert WriteAll(old(rows.view), ys, 1) == Written(WriteAll(old(rows.view), ys, 0), y);
  }

  /** More units of a SKU, which starts out empty and under the fresh id if it is not known yet. */
  function Replenished(v: View, sku: Sku, quantity: nat, freshId: string): View {
    var x := if sku in v then v[sku] else Stored(freshId, 0, EMPTY_LEVEL);
    v[sku := Stored(x.id, x.version + 1, x.level.(available := x.level.available + quantity))]
  }

  /** The stored item, or a new one under the fresh id. */
  method LoadOrCreate(rows: StockRows, sku: Sku, freshId: string) returns (item: StockItem, ghost x: Saved)
    requires rows.Valid() && Storable(sku, EMPTY_LEVEL)
    ensures fresh(item) && AsSaved(item) == x && Storable(sku, x.level) && item.events == []
    ensures x == if sku in rows.view then ItemAt(rows.view, sku) else Saved(freshId, sku, 0, EMPTY_LEVEL)
  {
    hide Storable;
    var loaded := rows.Load(sku);
    if loaded.Some? {
      item := loaded.value;
      StoredStorable(rows, sku);
    } else {
      item := new StockItem.New(freshId, sku);
    }
    x := AsSaved(item);
  }

  /** The stored items after a replenishment, or the reason why there was none. */
  ghost predicate AfterReplenish(v: View, skuText: string, quantity: int, freshId: string,
                                 err: Option<ReplenishError>, after: View) {
    if NewSku(skuText).Err? then err == Some(BadSku) && after == v
    else if quantity <= 0 then err == Some(BadQuantity) && after == v
    else err == None && after == Replenished(v, NewSku(skuText).value, quantity, freshId)
  }

  datatype ReplenishError = BadSku | BadQuantity

  datatype StockResult = StockResult(sku: string, available: nat, reserved: nat, version: nat)

  /** What the caller is told: the item as it is stored now. */
  ghost predicate Tells(r: StockResult, v: View, sku: Sku) {
    sku in v && r == StockResult(sku.text, v[sku].level.available, Total(v[sku].level.reservations), v[sku].version)
  }

  method Describe(item: StockItem) returns (r: StockResult)
    ensures r == StockResult(item.sku.text, item.State().level.available,
                             Total(item.State().level.reservations), item.version)
  {
    var reserved := item.Reserved();
    r := StockResult(item.sku.text, item.available, reserved, item.version);
  }

  method SaveAndDescribe(rows: StockRows, item: StockItem, ghost y: Saved) returns (r: StockResult, events: seq<Event>)
    requires rows.Valid() && AsSaved(item) == y && Storable(y.sku, y.level)
    requires NextVersion(rows.view, y).Some?
    modifies rows, item
    ensures rows.Valid() && rows.view == Written(old(rows.view), y)
    ensures r == StockResult(y.sku.text, y.level.available, Total(y.level.reservations), y.version + 1)
    ensures events == old(item.events)
  {
    hide Storable, NextVersion, Written;
    SaveSingle(rows, item, y);
    events := item.PullEvents();
    r := Describe(item);
  }

  /** Adds units to a SKU, creating its item under the fresh id if there is none yet. */
  method Replenish(rows: StockRows, skuText: string, quantity: int, freshId: string)
    returns (err: Option<ReplenishError>, result: Option<StockResult>, events: seq<Event>)
    requires rows.Valid()
    modifies rows
    ensures rows.Valid() && AfterReplenish(old(rows.view), skuText, quantity, freshId, err, rows.view)
    ensures err.Some? ==> result == None && events == []
    ensures err.None? ==>
      var sku := NewSku(skuText).value;
      && result.Some? && Tells(result.value, rows.view, sku)
      && events == [StockReplenished(sku, quantity, rows.view[sku].level.available)]
  {
    hide RowOf, Storable;
    result, events := None, [];
    var sku := NewSku(skuText);
    if sku.Err? {
      return Some(BadSku), None, [];
    }
    if quantity < 0 {
      return Some(BadQuantity), None, [];
    }
    ghost var v := rows.view;
    EmptyStorable(skuText);
    var item, x := LoadOrCreate(rows, sku.value, freshId);
    var refused := item.Replenish(quantity);
    if refused.Some? {
      return Some(BadQuantity), None, [];
    }
    OpKeepsStorable(sku.value, x.level, ItemOp.Replenish(quantity));
    var told, recorded := SaveAndDescribe(rows, item, AsSaved(item));
    return None, Some(told), recorded;
  }

  lemma EmptyStorable(skuText: string)
    ensures NewSku(skuText).Ok? ==> Storable(NewSku(skuText).value, EMPTY_LEVEL)
  {
    Text.TrimSettles(skuText);
  }

  lemma StoredStorable(rows: StockRows, s: Sku)
    requires rows.Valid() && s in rows.view
    ensures Storable(s, rows.view[s].level)
  {
    assert RowOf(rows.m[s], ItemAt(rows.view, s));
  }

  // ---------- Reserve ----------

  datatype ReserveLine = ReserveLine(sku: string, quantity: int)

  function ToLine(l: ReserveLine): Result<Line, StoreError> {
    match NewSku(l.sku)
    case Err(e) => Err(e)
    case Ok(sku) =>
      match NewQuantity(l.quantity)
      case Err(e) => Err(e)
      case Ok(q) => Ok(Line(sku, q))
  }

  /** Converts the request lines, or names the first one that cannot be. */
  method ToReservationLines(input: seq<ReserveLine>) returns (lines: seq<Line>, skus: seq<Sku>, bad: Option<nat>)
    ensures match bad
      case None =>
        && |lines| == |skus| == |input|
        && forall i :: 0 <= i < |input| ==> ToLine(input[i]) == Ok(lines[i]) && skus[i] == lines[i].sku
      case Some(b) =>
        && b < |input| && ToLine(input[b]).Err?
        && forall i :: 0 <= i < b ==> ToLine(input[i]).Ok?
  {
    lines, skus := [], [];
    for i := 0 to |input|
      invariant |lines| == |skus| == i
      invariant forall j :: 0 <= j < i ==> ToLine(input[j]) == Ok(lines[j]) && skus[j] == lines[j].sku
    {
      var l := ToLine(input[i]);
      if l.Err? {
        return [], [], Some(i);
      }
      lines, skus := lines + [l.value], skus + [l.value.sku];
    }
    bad := None;
  }

  /** The last of the loaded copies of each SKU is the one the allocation works on. */
  ghost predicate LastCopy(xs: seq<Saved>, i: nat)
    requires i < |xs|
  {
    forall j :: i < j < |xs| ==> xs[j].sku != xs[i].sku
  }

  lemma {:induction false} LastIsIndexed(items: seq<StockItem>, n: nat, i: nat)
    requires i < n <= |items|
    requires forall j :: i < j < n ==> items[j].sku != items[i].sku
    ensures IndexUpTo(items, n)[items[i].sku] == items[i]
  {
    if i < n - 1 { LastIsIndexed(items, n - 1, i); }
  }

  /** Items after the allocation: the last copy of each SKU allotted, earlier copies as loaded. */
  ghost function Allotment(xs: seq<Saved>, ref: Ref, lines: seq<Line>, stamps: seq<Time>, ttl: int): (ys: seq<Saved>)
    requires |lines| == |stamps|
    ensures |ys| == |xs|
    ensures forall i :: 0 <= i < |xs| ==>
      ys[i] == if LastCopy(xs, i)
        then xs[i].(level := Allotted(xs[i].level, xs[i].sku, ref, lines, stamps, ttl, |lines|)) else xs[i]
  {
    seq(|xs|, i requires 0 <= i < |xs| =>
      if LastCopy(xs, i)
        then xs[i].(level := Allotted(xs[i].level, xs[i].sku, ref, lines, stamps, ttl, |lines|)) else xs[i])
  }

  lemma {:induction false} SomeLastCopy(xs: seq<Saved>, i: nat) returns (k: nat)
    requires i < |xs|
    ensures i <= k < |xs| && xs[k].sku == xs[i].sku && LastCopy(xs, k)
    decreases |xs| - i
  {
    if LastCopy(xs, i) {
      k := i;
    } else {
      var j :| i < j < |xs| && xs[j].sku == xs[i].sku;
      k := SomeLastCopy(xs, j);
    }
  }

  /** Whatever copies were loaded, saving them all leaves each SKU with its last, allotted copy. */
  lemma AllotmentWrites(v: View, xs: seq<Saved>, ref: Ref, lines: seq<Line>, stamps: seq<Time>, ttl: int)
    requires |lines| == |stamps| && FromView(v, xs)
    ensures WriteAll(v, Allotment(xs, ref, lines, stamps, ttl), |xs|)
         == Touched(v, ReserveAll(LevelsOf(v), ref, lines, stamps, ttl), SkusOf(xs))
  {
    hide WriteAll, Allotted, Asked, FirstLine;
    var ys := Allotment(xs, ref, lines, stamps, ttl);
    var after := WriteAll(v, ys, |ys|);
    var next := ReserveAll(LevelsOf(v), ref, lines, stamps, ttl);
    forall s ensures (s in after <==> s in v) && (s in v ==> after[s] == Touched(v, next, SkusOf(xs))[s]) {
      if s in SkusOf(xs) {
        var i :| 0 <= i < |xs| && xs[i].sku == s;
        var k := SomeLastCopy(xs, i);
        assert xs[k] == ItemAt(v, s);
        WriteAllLast(v, ys, |ys|, k);
      } else {
        assert forall j :: 0 <= j < |ys| ==> ys[j].sku == xs[j].sku && xs[j].sku in SkusOf(xs);
        WriteAllElsewhere(v, ys, |ys|, s);
      }
    }
  }

  /** Only the levels of the SKUs that are asked for matter to the verdict. */
  lemma {:induction false} VerdictIsLocal(a: Levels, b: Levels, ref: Ref, lines: seq<Line>, n: nat)
    requires n <= |lines|
    requires forall i :: 0 <= i < |lines| ==>
      (lines[i].sku in a <==> lines[i].sku in b) && (lines[i].sku in a ==> a[lines[i].sku] == b[lines[i].sku])
    ensures Verdict(a, ref, lines, n) == Verdict(b, ref, lines, n)
  {
    if n > 0 { VerdictIsLocal(a, b, ref, lines, n - 1); }
  }

  lemma AllotmentStorable(v: View, xs: seq<Saved>, ref: Ref, lines: seq<Line>, stamps: seq<Time>, ttl: int)
    requires |lines| == |stamps| && FromView(v, xs) && Text.Trimmed(ref.text)
    requires Verdict(LevelsOf(v), ref, lines, |lines|).None?
    requires forall i :: 0 <= i < |xs| ==> Storable(xs[i].sku, xs[i].level)
    ensures forall i :: 0 <= i < |xs| ==> Storable(xs[i].sku, Allotment(xs, ref, lines, stamps, ttl)[i].level)
  {
    VerdictMeans(LevelsOf(v), ref, lines, |lines|);
    hide Storable, Verdict;
    forall i | 0 <= i < |xs| ensures Storable(xs[i].sku, Allotment(xs, ref, lines, stamps, ttl)[i].level) {
      var s, l := xs[i].sku, xs[i].level;
      AllocationHolds(LevelsOf(v), ref, lines, stamps, ttl, s);
      if Asked(lines, s, |lines|) && ref !in l.reservations {
        var k := FirstLine(lines, s, |lines|);
        OpKeepsStorable(s, l, ItemOp.Reserve(ref, lines[k].qty, stamps[k] + ttl));
      }
    }
  }

  /** The levels the allocation looks at are the stored ones. */
  lemma IndexedLevels(items: seq<StockItem>, xs: seq<Saved>, v: View, ref: Ref, lines: seq<Line>, skus: seq<Sku>)
    requires Loaded(items, xs, v)
    requires forall s :: s in SkusOf(xs) <==> s in skus && s in v
    requires |skus| == |lines| && forall i :: 0 <= i < |lines| ==> skus[i] == lines[i].sku
    ensures Verdict(LevelsIn(StatesOf(Index(items))), ref, lines, |lines|) == Verdict(LevelsOf(v), ref, lines, |lines|)
  {
    var ix, ls := Index(items), LevelsIn(StatesOf(Index(items)));
    forall s ensures s in ix <==> s in SkusOf(xs) {
      if s in ix {
        var i :| 0 <= i < |items| && items[i] == ix[s];
        assert xs[i].sku == s;
      }
      if s in SkusOf(xs) {
        var i :| 0 <= i < |xs| && xs[i].sku == s;
        assert items[i] in items && items[i].sku == s;
      }
    }
    forall s | s in ix ensures ls[s] == v[s].level {
      var i :| 0 <= i < |items| && items[i] == ix[s];
      assert AsSaved(items[i]) == xs[i] == ItemAt(v, xs[i].sku);
    }
    forall i | 0 <= i < |lines| ensures lines[i].sku in ls <==> lines[i].sku in v {
      assert skus[i] in skus;
    }
    VerdictIsLocal(ls, LevelsOf(v), ref, lines, |lines|);
  }

  /** The allocation works on the last copy of each SKU. */
  lemma AllottedItem(items: seq<StockItem>, xs: seq<Saved>, i: nat)
    requires i < |items| == |xs| && AllDistinct(items)
    requires forall k :: 0 <= k < |items| ==> items[k].sku == xs[k].sku
    ensures items[i] in items
    ensures Index(items)[items[i].sku] == items[i] <==> LastCopy(xs, i)
  {
    var k := SomeLastCopy(xs, i);
    LastIsIndexed(items, |items|, k);
    assert k != i ==> items[i] != items[k];
  }

  /** What each item recorded: an allotted copy its reservation, an earlier copy nothing. */
  ghost function AllotmentRecord(xs: seq<Saved>, ref: Ref, lines: seq<Line>): (es: seq<seq<Event>>)
    ensures |es| == |xs|
    ensures forall i :: 0 <= i < |xs| ==>
      es[i] == if LastCopy(xs, i) then AllottedEvents(xs[i].level, xs[i].sku, ref, lines, |lines|) else []
  {
    seq(|xs|, i requires 0 <= i < |xs| =>
      if LastCopy(xs, i) then AllottedEvents(xs[i].level, xs[i].sku, ref, lines, |lines|) else [])
  }

  /** Allocates over the loaded items and says, item by item, what they are afterwards. */
  method AllocateLoaded(items: seq<StockItem>, ref: Ref, lines: seq<Line>, stamps: seq<Time>, ttl: int, skus: seq<Sku>,
                        ghost xs: seq<Saved>, ghost v: View)
    returns (err: Option<StockError>)
    requires Loaded(items, xs, v)
    requires forall s :: s in SkusOf(xs) <==> s in skus && s in v
    requires |skus| == |lines| == |stamps| && forall i :: 0 <= i < |lines| ==> skus[i] == lines[i].sku
    modifies items
    ensures err == Verdict(LevelsOf(v), ref, lines, |lines|)
    ensures err.None? ==> Worked(items, Allotment(xs, ref, lines, stamps, ttl), AllotmentRecord(xs, ref, lines))
  {
    hide Verdict, FromView, Allotted, AllottedEvents, LastCopy;
    IndexedLevels(items, xs, v, ref, lines, skus);
    err := Allocate(items, ref, lines, stamps, ttl);
    if err.None? {
      forall i | 0 <= i < |items|
        ensures AsSaved(items[i]) == Allotment(xs, ref, lines, stamps, ttl)[i]
        ensures items[i].events == AllotmentRecord(xs, ref, lines)[i]
      {
        AllottedItem(items, xs, i);
        var es := AllottedEvents(xs[i].level, xs[i].sku, ref, lines, |lines|);
        assert [] + es == es;
      }
    }
  }

  datatype ReserveError = BadRef | BadLine(i: nat) | Refused(reason: StockError)

  /** The request lines as the domain sees them. */
  ghost predicate Converted(input: seq<ReserveLine>, lines: seq<Line>) {
    |lines| == |input| && forall i :: 0 <= i < |input| ==> ToLine(input[i]) == Ok(lines[i])
  }

  /** The SKUs the lines name, as far as they are stored. */
  function Named(v: View, lines: seq<Line>): set<Sku> {
    set s | s in v && Asked(lines, s, |lines|)
  }

  /** The stored items after a reservation: all lines reserved, or nothing changed and the first
      reason given. */
  ghost predicate AfterReserve(v: View, refText: string, input: seq<ReserveLine>, lines: seq<Line>,
                               stamps: seq<Time>, ttl: int, err: Option<ReserveError>, after: View)
    requires |stamps| == |input|
  {
    match NewRef(refText)
    case Err(_) => err == Some(BadRef) && after == v
    case Ok(ref) =>
      match err
      case Some(BadRef) => false
      case Some(BadLine(b)) =>
        && b < |input| && ToLine(input[b]).Err? && (forall i :: 0 <= i < b ==> ToLine(input[i]).Ok?)
        && after == v
      case Some(Refused(e)) =>
        Converted(input, lines) && Verdict(LevelsOf(v), ref, lines, |lines|) == Some(e) && after == v
      case None =>
        && Converted(input, lines) && Verdict(LevelsOf(v), ref, lines, |lines|) == None
        && after == Touched(v, ReserveAll(LevelsOf(v), ref, lines, stamps, ttl), Named(v, lines))
  }

  /** Reserves every line or nothing. Repeated SKUs are reserved once, with the first quantity. */
  method Reserve(rows: StockRows, refText: string, input: seq<ReserveLine>, stamps: seq<Time>, ttl: int)
    returns (err: Option<ReserveError>, lines: seq<Line>, events: seq<Event>, ghost xs: seq<Saved>)
    requires rows.Valid() && |stamps| == |input|
    modifies rows
    ensures rows.Valid() && AfterReserve(old(rows.view), refText, input, lines, stamps, ttl, err, rows.view)
    ensures err.Some? ==> events == []
    ensures err.None? ==>
      && |lines| == |input| && FromView(old(rows.view), xs) && SkusOf(xs) == Named(old(rows.view), lines)
      && var es := AllotmentRecord(xs, NewRef(refText).value, lines); events == Flat(es, |es|)
  {
    hide RowOf, Storable, WriteAll, Touched, Verdict, Flat, SkusOf, FromView;
    lines, events, xs := [], [], [];
    var ref := NewRef(refText);
    if ref.Err? {
      return Some(BadRef), [], [], [];
    }
    var skus, bad;
    lines, skus, bad := ToReservationLines(input);
    if bad.Some? {
      return Some(BadLine(bad.value)), [], [], [];
    }
    ghost var v := rows.view;
    var items;
    items, xs := rows.LoadMany(skus);
    var e := AllocateLoaded(items, ref.value, lines, stamps, ttl, skus, xs, v);
    if e.Some? {
      return Some(ReserveError.Refused(e.value)), lines, [], xs;
    }
    Text.TrimSettles(refText);
    StillStorable(rows, xs, LevelsOf(v));
    AllotmentStorable(v, xs, ref.value, lines, stamps, ttl);
    var saved := SaveAndCommit(rows, items, xs, Allotment(xs, ref.value, lines, stamps, ttl));
    AllotmentWrites(v, xs, ref.value, lines, stamps, ttl);
    AskedSkus(v, xs, lines, skus);
    events := CollectEvents(items, AllotmentRecord(xs, ref.value, lines));
    err := None;
  }

  lemma AskedSkus(v: View, xs: seq<Saved>, lines: seq<Line>, skus: seq<Sku>)
    requires forall s :: s in SkusOf(xs) <==> s in skus && s in v
    requires |skus| == |lines| && forall i :: 0 <= i < |lines| ==> skus[i] == lines[i].sku
    ensures SkusOf(xs) == Named(v, lines)
  {
    forall s ensures s in skus <==> Asked(lines, s, |lines|) {
      AskedMeans(lines, s, |lines|);
    }
  }
}
