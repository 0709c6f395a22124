/**
 What a stored order keeps of its reservation: exactly what was still held when its confirm command
 was handed over, so everything if that came before the deadlines. At rest every stored order's
 command has been handed over.
 */
module Deadlines {
  import opened Common
  import opened Stock
  import opened MemoryStock
  import opened Allocation
  import opened Warehouse
  import opened Platform
  import opened Refinement
  import Inventory = InventoryUseCases
  import Ordering
  import Orders = OrderUseCases
  import Outbox
  import Saga
  import Subscriber

  /** The next message of a relay goes to its consumer. */
  predicate HandsOver(w: World, e: Platform.Event, m: Message) {
    && e.HandOver? && e.r in w.relay.relays
    && w.relay.relays[e.r].batch != [] && w.relay.relays[e.r].batch[0].body == m
  }

  /** Inventory carries out the reservation of an order. */
  predicate Granted(e: Platform.Event, id: Ordering.OrderId) {
    e.ReserveArrives? && e.id == id && e.noReserve.None?
  }

  /** The hold on a SKU that a granted reservation makes: the first line that asks decides. */
  function HoldGiven(e: Platform.Event, sku: Sku): Option<Reservation> {
    if e.ReserveArrives? && |e.stamps| == |e.lines| && Asked(e.lines, sku, |e.lines|) then
      var k := FirstLine(e.lines, sku, |e.lines|);
      Some(Reservation(Ref(e.id.text), e.lines[k].qty, Pending, e.stamps[k] + e.ttl))
    else None
  }

  /** That hold is not due yet; one without a deadline never is. */
  predicate NotDue(e: Platform.Event, sku: Sku, now: Time) {
    var hold := HoldGiven(e, sku);
    hold.Some? ==> hold.value.expiresAt == ZERO_TIME || now < hold.value.expiresAt
  }

  /** The lines are those the placement asked for. */
  predicate AsksFor(e: Platform.Event, w: World, id: Ordering.OrderId) {
    && e.ReserveArrives? && |e.lines| == |e.stamps|
    && id in w.calls && e.lines == SagaLines(w.calls[id].order.lines)
  }

  predicate InTime(es: seq<Platform.Event>, n: nat, id: Ordering.OrderId, sku: Sku, now: Time)
    requires n <= |es|
  {
    forall i :: 0 <= i < n && Granted(es[i], id) ==> NotDue(es[i], sku, now)
  }

  /** The hold of an order on a SKU it asked for, confirmed, in the quantity of the first line. */
  function FullHold(w: World, sku: Sku, id: Ordering.OrderId): Option<Reservation>
    requires id in w.calls
  {
    var lines := SagaLines(w.calls[id].order.lines);
    if Asked(lines, sku, |lines|)
    then Some(Reservation(Ref(id.text), lines[FirstLine(lines, sku, |lines|)].qty, Confirmed, ZERO_TIME)) else None
  }

  // ---------- Single events ----------

  lemma ApplicationStep(w: World, e: Platform.Event, n: World, id: Ordering.OrderId)
    requires Next(w, e, n) && id in n.calls && n.calls[id].applied
    ensures Granted(e, id) || (id in w.calls && w.calls[id].applied)
  {
    hide Inventory.AfterReserve, Inventory.AfterReplenish, Inventory.AfterRelease, Inventory.AfterSweep;
    hide Orders.AfterCancel, Subscriber.Consumed, Placeable, Outbox.Step, Outbox.Enabled;
  }

  lemma OrderStep(w: World, e: Platform.Event, n: World, id: Ordering.OrderId)
    requires Next(w, e, n) && id in w.calls
    ensures id in n.calls && n.calls[id].order == w.calls[id].order
  {
    hide Inventory.AfterReserve, Inventory.AfterReplenish, Inventory.AfterRelease, Inventory.AfterSweep;
    hide Orders.AfterCancel, Subscriber.Consumed, Outbox.Step, Outbox.Enabled;
  }

  lemma PublicationStep(w: World, e: Platform.Event, n: World, m: Orders.Message)
    requires Next(w, e, n) && m in n.relay.published
    ensures m in w.relay.published || HandsOver(w, e, m.body)
  {
    hide Inventory.AfterReserve, Inventory.AfterReplenish, Inventory.AfterRelease, Inventory.AfterSweep;
    hide Orders.AfterCancel, Subscriber.Consumed, Placeable, Outbox.Without;
  }

  lemma GrantedMeans(w: World, e: Platform.Event, n: World, id: Ordering.OrderId)
    requires Next(w, e, n) && Granted(e, id)
    ensures ReserveEvent(w, id, e.lines, e.stamps, e.ttl, None, n) && id in w.calls
  {
    hide Inventory.AfterReserve;
  }

  /** A granted reservation holds the first line's quantity of every SKU that was asked for. */
  lemma HeldWhenGranted(s: Saga.State, w: World, e: Platform.Event, n: World, sku: Sku, id: Ordering.OrderId)
    requires Shows(s, w) && Next(w, e, n) && Granted(e, id)
    ensures AsksFor(e, w, id) && Held(n, sku, Ref(id.text)) == HoldGiven(e, sku)
  {
    hide Saga.Inv, WorldOk, Mirrors, ReserveEvent, Saga.Enabled, Next, ReserveAll, Verdict, LevelsOf, Held,
      Inventory.Touched, Inventory.Named, Asked, FirstLine, CallOk, SagaLines;
    GrantedMeans(w, e, n, id);
    CallKnown(s, w, id);
    ReserveIsEnabled(s, w, id, e.lines, e.stamps, e.ttl, n);
    ReserveMeans(s, w, id, e.lines, e.stamps, e.ttl, n);
    NothingHeldYet(s, sku, Ref(id.text), e.stamps, e.ttl);
    Saga.CellAfterReserve(s.stock, Ref(id.text), e.lines, e.stamps, e.ttl, Saga.Key(sku, Ref(id.text)));
    HeldIsCell(n, sku, Ref(id.text));
  }

  lemma NothingHeldYet(s: Saga.State, sku: Sku, ref: Ref, stamps: seq<Time>, ttl: int)
    requires Saga.Inv(s) && Saga.Enabled(s, Saga.ReserveApplied(ref, stamps, ttl))
    ensures Saga.Cell(s.stock, sku, ref).None?
    ensures |stamps| == |s.places[ref].lines| && Verdict(s.stock, ref, s.places[ref].lines, |s.places[ref].lines|).None?
  {
    assert Saga.CellOk(s, Saga.Key(sku, ref));
  }

  /** When its confirm command is handed over, the order is stored and nothing was compensated. */
  lemma StoredAtHandOver(s: Saga.State, w: World, e: Platform.Event, id: Ordering.OrderId)
    requires Shows(s, w) && HandsOver(w, e, ConfirmRequested(Ref(id.text)))
    ensures ConfirmRequested(Ref(id.text)) in s.log && Ref(id.text) in s.orders
    ensures Ref(id.text) in s.places && s.places[Ref(id.text)].applied && Ref(id.text) !in s.compensated
    ensures id in w.calls && w.calls[id].applied
  {
    NextMessage(s, w, e.r);
    assert Saga.RefOk(s, Ref(id.text));
    MirrorMeans(s, w);
    PlaceKnown(w.calls, Ref(id.text));
  }

  /** All that is held then is confirmed, and nothing else comes to be held. */
  lemma HandOverConfirms(s: Saga.State, w: World, e: Platform.Event, n: World, sku: Sku, id: Ordering.OrderId)
    requires Shows(s, w) && Next(w, e, n) && HandsOver(w, e, ConfirmRequested(Ref(id.text)))
    ensures Held(n, sku, Ref(id.text)) ==
      if Held(w, sku, Ref(id.text)).Some? then Some(ConfirmReservation(Held(w, sku, Ref(id.text)).value)) else None
  {
    hide Saga.Inv, WorldOk, Mirrors, Subscriber.Addressee, LevelsOf, Deliver, Held, Inventory.Touched, Saga.RefOk;
    var m := ConfirmRequested(Ref(id.text));
    StoredAtHandOver(s, w, e, id);
    SagaKnows(s, m.ref);
    WorldMeans(w);
    LoggedIsAddressed(s, w, m);
    assert LevelsOf(n.stock) == Deliver(LevelsOf(w.stock), m);
    ConfirmedCells(LevelsOf(w.stock), sku, m.ref);
    HeldIsCell(w, sku, m.ref);
    HeldIsCell(n, sku, m.ref);
  }

  lemma ConfirmedCells(ls: Levels, sku: Sku, ref: Ref)
    ensures var c := Saga.Cell(ls, sku, ref);
      Saga.Cell(Deliver(ls, ConfirmRequested(ref)), sku, ref) ==
        if c.Some? then Some(ConfirmReservation(c.value)) else None
  {
    assert Saga.Cell(ls, sku, ref).Some? <==> sku in Holding(ls, ref);
  }

  // ---------- Whole histories ----------

  lemma {:induction false} OrderKept(ws: seq<World>, es: seq<Platform.Event>, i: nat, j: nat, id: Ordering.OrderId)
    requires History(ws, es) && i <= j <= |es| && id in ws[i].calls
    ensures id in ws[j].calls && ws[j].calls[id].order == ws[i].calls[id].order
  {
    hide Next;
    if i < j {
      OrderKept(ws, es, i, j - 1, id);
      OrderStep(ws[j - 1], es[j - 1], ws[j], id);
    }
  }

  /** An applied reservation was granted by an earlier event. */
  lemma {:induction false} GrantedEarlier(ws: seq<World>, es: seq<Platform.Event>, j: nat, id: Ordering.OrderId)
    returns (i: nat)
    requires History(ws, es) && ws[0] == EMPTY && j <= |es|
    requires id in ws[j].calls && ws[j].calls[id].applied
    ensures i < j && Granted(es[i], id)
  {
    hide Next;
    if j == 0 {
      assert false;
    } else {
      ApplicationStep(ws[j - 1], es[j - 1], ws[j], id);
      if Granted(es[j - 1], id) {
        i := j - 1;
      } else {
        i := GrantedEarlier(ws, es, j - 1, id);
      }
    }
  }

  /** A published message was handed over by an earlier event. */
  lemma {:induction false} HandedOverEarlier(ws: seq<World>, es: seq<Platform.Event>, j: nat, m: Orders.Message)
    returns (h: nat)
    requires History(ws, es) && ws[0] == EMPTY && j <= |es| && m in ws[j].relay.published
    ensures h < j && HandsOver(ws[h], es[h], m.body)
  {
    hide Next, HandsOver;
    if j == 0 {
      assert false;
    } else {
      PublicationStep(ws[j - 1], es[j - 1], ws[j], m);
      if HandsOver(ws[j - 1], es[j - 1], m.body) {
        h := j - 1;
      } else {
        h := HandedOverEarlier(ws, es, j - 1, m);
      }
    }
  }

  /** At rest the confirm command of every stored order has been handed over. */
  lemma HandedOverAtRest(ws: seq<World>, es: seq<Platform.Event>, j: nat, id: Ordering.OrderId) returns (h: nat)
    requires History(ws, es) && ws[0] == EMPTY && j <= |es| && AtRest(ws[j]) && id in ws[j].orders
    ensures h < j && HandsOver(ws[h], es[h], ConfirmRequested(Ref(id.text)))
  {
    hide Next, HandsOver, Saga.Run, Saga.Inv, Mirrors, WorldOk;
    var actions, s := HistoriesAreRuns(ws, es, j);
    StoredLogMatchesOrders(ws, es, j, id);
    WorldMeans(ws[j]);
    var log := ws[j].relay.log;
    var i :| 0 <= i < |log| && Bodies(log)[i] == ConfirmRequested(Ref(id.text));
    Outbox.WithoutMembers(log, ws[j].relay.gone);
    assert log[i] in ws[j].relay.published;
    h := HandedOverEarlier(ws, es, j, log[i]);
  }

  /** An order that is stored as confirmed later on has had no cancellation carried out before. */
  lemma NotCancelledBefore(s: Saga.State, actions: seq<Saga.Action>, t: Saga.State, ref: Ref)
    requires Saga.Inv(s) && Saga.Run(s, actions, t) && ref in t.orders && !t.orders[ref].cancelled
    ensures OrderCancelled(ref) !in s.consumed
  {
    assert Saga.RefOk(s, ref);
    if OrderCancelled(ref) in s.consumed {
      assert OrderCancelled(ref) in s.log;
      Saga.CancelledStays(s, actions, t, ref);
    }
  }

  lemma PendingHasDeadline(s: Saga.State, k: Saga.Key)
    requires Saga.Inv(s) && Saga.Cell(s.stock, k.sku, k.ref).Some?
    requires Saga.Cell(s.stock, k.sku, k.ref).value.status.Pending?
    ensures k in s.deadline && s.deadline[k] == Saga.Cell(s.stock, k.sku, k.ref).value.expiresAt
  {
    assert Saga.CellOk(s, k);
  }

  /** From its granting on, a reservation is held until its deadline. */
  lemma HeldWhenInTime(ws: seq<World>, es: seq<Platform.Event>, i: nat, h: nat, j: nat, sku: Sku, id: Ordering.OrderId)
    requires History(ws, es) && ws[0] == EMPTY && i < h <= j <= |es| && h < |es|
    requires Granted(es[i], id) && NotDue(es[i], sku, ws[h].now)
    requires HandsOver(ws[h], es[h], ConfirmRequested(Ref(id.text))) && StoredAs(ws[j], id, Ordering.Confirmed)
    ensures id in ws[h].calls
    ensures var lines := SagaLines(ws[h].calls[id].order.lines);
      Asked(lines, sku, |lines|) ==> Held(ws[h], sku, Ref(id.text)).Some?
  {
    hide Next, HandsOver, Saga.Run, Saga.Inv, Mirrors, WorldOk, Held, StoredAs, Saga.Cell, LevelsOf;
    var k := Saga.Key(sku, Ref(id.text));
    var before, s0 := HistoriesAreRuns(ws, es, i);
    var step, s1 := EventShown(s0, ws[i], es[i], ws[i + 1]);
    HeldWhenGranted(s0, ws[i], es[i], ws[i + 1], sku, id);
    OrderKept(ws, es, i, h, id);
    var held, s := HistoryShown(ws, es, s1, i + 1, h);
    var later, t := HistoryShown(ws, es, s, h, j);
    StoresShown(s1, ws[i + 1], sku, id);
    StoresShown(s, ws[h], sku, id);
    StoresShown(t, ws[j], sku, id);
    StoredAtHandOver(s, ws[h], es[h], id);
    NotCancelledBefore(s, later, t, k.ref);
    MirrorMeans(s, ws[h]);
    if HoldGiven(es[i], sku).Some? {
      PendingHasDeadline(s1, k);
      Saga.HeldUntilDeadline(s1, held, s, k);
    }
  }

  /** What a confirmed order holds after its confirm command was handed over is exactly what it still
      held at that moment, confirmed, in the quantity of the first line. */
  lemma HeldAsHandedOver(ws: seq<World>, es: seq<Platform.Event>, h: nat, j: nat, sku: Sku, id: Ordering.OrderId)
    requires History(ws, es) && ws[0] == EMPTY && h < j <= |es|
    requires HandsOver(ws[h], es[h], ConfirmRequested(Ref(id.text))) && StoredAs(ws[j], id, Ordering.Confirmed)
    ensures id in ws[j].calls
    ensures if Held(ws[h], sku, Ref(id.text)).Some?
            then FullHold(ws[j], sku, id).Some? && Held(ws[j], sku, Ref(id.text)) == FullHold(ws[j], sku, id)
            else Held(ws[j], sku, Ref(id.text)) == None
  {
    hide Next, HandsOver, Saga.Run, Saga.Inv, Mirrors, WorldOk, Held, StoredAs, Saga.Cell, LevelsOf;
    var before, s := HistoriesAreRuns(ws, es, h);
    StoredAtHandOver(s, ws[h], es[h], id);
    HandOverConfirms(s, ws[h], es[h], ws[h + 1], sku, id);
    OrderKept(ws, es, h, j, id);
    if Held(ws[h], sku, Ref(id.text)).Some? {
      StoredStockIsSafe(ws, es, h + 1, j, sku, id);
      StoredConfirmationsAreOrders(ws, es, j, sku, id);
    } else {
      var later, t := HistoryShown(ws, es, s, h, j);
      StoresShown(s, ws[h], sku, id);
      StoresShown(t, ws[j], sku, id);
      Saga.GoneStaysGone(s, later, t, Saga.Key(sku, Ref(id.text)));
    }
  }

  /** So if the command was handed over before the deadline of a SKU, that SKU is held and confirmed
      for as long as the order is. */
  lemma StoredInTime(ws: seq<World>, es: seq<Platform.Event>, h: nat, j: nat, sku: Sku, id: Ordering.OrderId)
    requires History(ws, es) && ws[0] == EMPTY && h < j <= |es|
    requires HandsOver(ws[h], es[h], ConfirmRequested(Ref(id.text))) && StoredAs(ws[j], id, Ordering.Confirmed)
    requires InTime(es, h, id, sku, ws[h].now)
    ensures id in ws[j].calls && Held(ws[j], sku, Ref(id.text)) == FullHold(ws[j], sku, id)
  {
    hide Next, HandsOver, Saga.Run, Saga.Inv, Shows, Held, StoredAs;
    var before, s := HistoriesAreRuns(ws, es, h);
    StoredAtHandOver(s, ws[h], es[h], id);
    var i := GrantedEarlier(ws, es, h, id);
    HeldWhenInTime(ws, es, i, h, j, sku, id);
    HeldAsHandedOver(ws, es, h, j, sku, id);
    OrderKept(ws, es, h, j, id);
  }

  /** At rest a cancelled order holds nothing. */
  lemma CancelledAtRest(ws: seq<World>, es: seq<Platform.Event>, j: nat, sku: Sku, id: Ordering.OrderId)
    requires History(ws, es) && ws[0] == EMPTY && j <= |es| && AtRest(ws[j])
    requires StoredAs(ws[j], id, Ordering.Cancelled)
    ensures Held(ws[j], sku, Ref(id.text)).None?
  {
    hide Saga.Run, Next, Saga.Inv, WorldOk;
    var actions, s := HistoriesAreRuns(ws, es, j);
    StoresShown(s, ws[j], sku, id);
    RestShown(s, ws[j]);
    Saga.CancelledOrdersHoldNothing(actions, s, Saga.Key(sku, Ref(id.text)));
  }

  /** At rest the confirm command of a confirmed order has been handed over at some event `h`, and of
      every SKU the order then holds either all it asked for, confirmed, or nothing: all of it exactly
      if it was still held at `h`, which is certain before the deadline. */
  lemma StoredOrdersAtRest(ws: seq<World>, es: seq<Platform.Event>, j: nat, id: Ordering.OrderId) returns (h: nat)
    requires History(ws, es) && ws[0] == EMPTY && j <= |es| && AtRest(ws[j])
    requires StoredAs(ws[j], id, Ordering.Confirmed)
    ensures h < j && HandsOver(ws[h], es[h], ConfirmRequested(Ref(id.text))) && id in ws[j].calls
    ensures forall sku ::
      && (Held(ws[h], sku, Ref(id.text)).Some? ==> Held(ws[j], sku, Ref(id.text)) == FullHold(ws[j], sku, id))
      && (Held(ws[h], sku, Ref(id.text)).None? ==> Held(ws[j], sku, Ref(id.text)) == None)
      && (InTime(es, h, id, sku, ws[h].now) ==> Held(ws[j], sku, Ref(id.text)) == FullHold(ws[j], sku, id))
  {
    hide Next, HandsOver, InTime, Held, SagaLines;
    h := HandedOverAtRest(ws, es, j, id);
    HeldAsHandedOver(ws, es, h, j, Sku(""), id);
    forall sku
      ensures Held(ws[h], sku, Ref(id.text)).Some? ==> Held(ws[j], sku, Ref(id.text)) == FullHold(ws[j], sku, id)
      ensures Held(ws[h], sku, Ref(id.text)).None? ==> Held(ws[j], sku, Ref(id.text)) == None
      ensures InTime(es, h, id, sku, ws[h].now) ==> Held(ws[j], sku, Ref(id.text)) == FullHold(ws[j], sku, id)
    {
      HeldAsHandedOver(ws, es, h, j, sku, id);
      if InTime(es, h, id, sku, ws[h].now) { StoredInTime(ws, es, h, j, sku, id); }
    }
  }
}
