/**
 Every history of the platform is a run of the saga: whatever order the use cases, the relays and
 the clock take turns in, there is a run of the saga that ends in the same stored items, orders,
 log and queue. What is proved of all runs of the saga therefore holds of the stores, and is stated
 of them below.
 */
module Refinement {
  import opened Common
  import opened Stock
  import opened StockStore
  import opened MemoryStock
  import opened Allocation
  import opened Warehouse
  import opened Platform
  import Inventory = InventoryUseCases
  import Ordering
  import Orders = OrderUseCases
  import Outbox
  import PostgresStock
  import Saga
  import Serializability
  import Subscriber
  import Text

  // ---------- How the saga sees the stores ----------

  function SagaOrder(row: Ordering.OrderRow): Saga.Order {
    Saga.Order(row.status == Ordering.StatusText(Ordering.Cancelled), row.version)
  }

  function SagaOrders(m: Orders.Rows): map<Ref, Saga.Order> {
    map id | id in m :: Ref(id.text) := SagaOrder(m[id])
  }

  function SagaLine(l: Ordering.OrderLine): Line {
    Line(Sku(l.sku.text), if l.quantity >= 0 then l.quantity else 0)
  }

  function SagaLines(lines: seq<Ordering.OrderLine>): (ls: seq<Line>)
    ensures |ls| == |lines| && forall i :: 0 <= i < |lines| ==> ls[i] == SagaLine(lines[i])
  {
    seq(|lines|, i requires 0 <= i < |lines| => SagaLine(lines[i]))
  }

  function SagaPhase(stage: Stage): Saga.Phase {
    match stage
    case Asking => Saga.Reserving
    case Granted => Saga.Reserved
    case Kept => Saga.Placed
    case Failed => Saga.Compensating
    case GivenUp => Saga.Abandoned
  }

  function SagaPlace(c: Call): Saga.Placement {
    Saga.Placement(SagaLines(c.order.lines), SagaPhase(c.stage), c.applied)
  }

  function SagaPlaces(calls: map<Ordering.OrderId, Call>): map<Ref, Saga.Placement> {
    map id | id in calls :: Ref(id.text) := SagaPlace(calls[id])
  }

  function Bodies(log: seq<Orders.Message>): seq<Message> {
    seq(|log|, i requires 0 <= i < |log| => log[i].body)
  }

  function BodySet(q: seq<Orders.Message>): set<Message> {
    set m | m in q :: m.body
  }

  ghost predicate Mirrors(s: Saga.State, w: World) {
    && s.stock == LevelsOf(w.stock) && s.orders == SagaOrders(w.orders) && s.places == SagaPlaces(w.calls)
    && s.log == Bodies(w.relay.log) && s.queue == BodySet(w.relay.queue) && s.now == w.now
    && s.cancels == map[] && s.findings == map[] && s.missed == map[]
    && forall m :: m in w.relay.published ==> m.body in s.consumed
  }

  ghost predicate CallOk(id: Ordering.OrderId, c: Call) {
    && c.order.id == id && Ordering.Identified(id.text) && c.order.ref == Ordering.DeriveReservationRef(id)
    && c.order.version == 0 && c.order.status.Confirmed?
    && Ordering.ValidLines(c.order.lines)
  }

  ghost predicate WorldOk(w: World) {
    && Outbox.Inv(w.relay) && Orders.ValidRows(w.orders)
    && forall id :: id in w.calls ==> CallOk(id, w.calls[id])
  }

  ghost predicate Shows(s: Saga.State, w: World) {
    Saga.Inv(s) && WorldOk(w) && Mirrors(s, w)
  }

  // ---------- Updates of the stores, seen from the saga ----------

  lemma OneMoreBody(log: seq<Orders.Message>, m: Orders.Message)
    ensures Bodies(log + [m]) == Bodies(log) + [m.body]
    ensures BodySet(log + [m]) == BodySet(log) + {m.body}
  {
    forall b | b in BodySet(log) + {m.body} ensures b in BodySet(log + [m]) {
      if b == m.body {
        assert m in log + [m];
      } else {
        var x :| x in log && x.body == b;
        assert x in log + [m];
      }
    }
  }

  lemma OrderKnown(m: Orders.Rows, r: Ref)
    ensures r in SagaOrders(m) <==> Ordering.OrderId(r.text) in m
    ensures r in SagaOrders(m) ==> SagaOrders(m)[r] == SagaOrder(m[Ordering.OrderId(r.text)])
  {
    if Ordering.OrderId(r.text) in m { assert Ref(Ordering.OrderId(r.text).text) == r; }
  }

  lemma OneMoreOrder(m: Orders.Rows, id: Ordering.OrderId, row: Ordering.OrderRow)
    ensures SagaOrders(m[id := row]) == SagaOrders(m)[Ref(id.text) := SagaOrder(row)]
  {
    var a, b := SagaOrders(m[id := row]), SagaOrders(m)[Ref(id.text) := SagaOrder(row)];
    forall r ensures r in a <==> r in b {
      OrderKnown(m[id := row], r);
      OrderKnown(m, r);
    }
    forall r | r in a ensures a[r] == b[r] {
      OrderKnown(m[id := row], r);
      OrderKnown(m, r);
    }
  }

  lemma PlaceKnown(calls: map<Ordering.OrderId, Call>, r: Ref)
    ensures r in SagaPlaces(calls) <==> Ordering.OrderId(r.text) in calls
    ensures r in SagaPlaces(calls) ==> SagaPlaces(calls)[r] == SagaPlace(calls[Ordering.OrderId(r.text)])
  {
    if Ordering.OrderId(r.text) in calls { assert Ref(Ordering.OrderId(r.text).text) == r; }
  }

  lemma OneMorePlace(calls: map<Ordering.OrderId, Call>, id: Ordering.OrderId, c: Call)
    ensures SagaPlaces(calls[id := c]) == SagaPlaces(calls)[Ref(id.text) := SagaPlace(c)]
  {
    var a, b := SagaPlaces(calls[id := c]), SagaPlaces(calls)[Ref(id.text) := SagaPlace(c)];
    forall r ensures r in a <==> r in b {
      PlaceKnown(calls[id := c], r);
      PlaceKnown(calls, r);
    }
    forall r | r in a ensures a[r] == b[r] {
      PlaceKnown(calls[id := c], r);
      PlaceKnown(calls, r);
    }
  }

  lemma RowsRewritten(v: View, next: Levels, touched: set<Sku>)
    requires next.Keys == v.Keys
    requires forall s :: s in v && s !in touched ==> next[s] == v[s].level
    ensures LevelsOf(Inventory.Touched(v, next, touched)) == next
  {
  }

  lemma SweptLevels(v: View, at: Time, picked: set<Sku>)
    ensures LevelsOf(Inventory.Touched(v, SweepSome(LevelsOf(v), at, picked), picked)) ==
      SweepSome(LevelsOf(v), at, picked)
  {
    RowsRewritten(v, SweepSome(LevelsOf(v), at, picked), picked);
  }

  lemma ReleasedLevels(v: View, ref: Ref)
    ensures LevelsOf(Inventory.Touched(v, ReleaseAll(LevelsOf(v), ref), Holding(LevelsOf(v), ref))) ==
      ReleaseAll(LevelsOf(v), ref)
  {
    RowsRewritten(v, ReleaseAll(LevelsOf(v), ref), Holding(LevelsOf(v), ref));
  }

  lemma ReservedLevels(v: View, ref: Ref, lines: seq<Line>, stamps: seq<Time>, ttl: int)
    requires |lines| == |stamps|
    ensures var next := ReserveAll(LevelsOf(v), ref, lines, stamps, ttl);
      LevelsOf(Inventory.Touched(v, next, Inventory.Named(v, lines))) == next
  {
    RowsRewritten(v, ReserveAll(LevelsOf(v), ref, lines, stamps, ttl), Inventory.Named(v, lines));
  }

  lemma ReplenishedLevels(v: View, sku: Sku, qty: nat, freshId: string)
    ensures LevelsOf(Inventory.Replenished(v, sku, qty, freshId)) == Restocked(LevelsOf(v), sku, qty)
  {
  }

  lemma OneStep(s: Saga.State, a: Saga.Action)
    requires Saga.Enabled(s, a)
    ensures Saga.Run(s, [a], Saga.Step(s, a))
  {
    assert [a][1..] == [];
  }

  lemma TwoSteps(s: Saga.State, a: Saga.Action, b: Saga.Action)
    requires Saga.Enabled(s, a) && Saga.Enabled(Saga.Step(s, a), b)
    ensures Saga.Run(s, [a, b], Saga.Step(Saga.Step(s, a), b))
  {
    assert [a, b][1..] == [b];
    OneStep(Saga.Step(s, a), b);
  }

  // ---------- Events that change the stored items ----------

  /** Only the stock, the placements and what was consumed may differ. */
  predicate SameButInventory(s: Saga.State, t: Saga.State) {
    && t.orders == s.orders && t.log == s.log && t.queue == s.queue && t.now == s.now
    && t.cancels == s.cancels && t.findings == s.findings && t.missed == s.missed && s.consumed <= t.consumed
  }

  predicate SameButStock(s: Saga.State, t: Saga.State) {
    SameButInventory(s, t) && t.places == s.places
  }

  lemma StockMoves(s: Saga.State, w: World, t: Saga.State, n: World)
    requires Mirrors(s, w) && n == w.(stock := n.stock) && SameButStock(s, t) && t.stock == LevelsOf(n.stock)
    ensures Mirrors(t, n) && (WorldOk(w) ==> WorldOk(n))
  {
  }

  /** Also the placements under way move on. */
  lemma CallMoves(s: Saga.State, w: World, t: Saga.State, n: World, id: Ordering.OrderId, c: Call)
    requires Mirrors(s, w) && n == w.(stock := n.stock, calls := w.calls[id := c])
    requires SameButInventory(s, t) && t.stock == LevelsOf(n.stock)
    requires t.places == s.places[Ref(id.text) := SagaPlace(c)]
    ensures Mirrors(t, n)
  {
    OneMorePlace(w.calls, id, c);
    hide SagaPlaces, SagaOrders, SagaPlace, LevelsOf, Bodies, BodySet;
  }

  lemma CallsStayOk(w: World, n: World, id: Ordering.OrderId, c: Call)
    requires WorldOk(w) && CallOk(id, c) && n == w.(stock := n.stock, calls := w.calls[id := c])
    ensures WorldOk(n)
  {
    hide CallOk, Outbox.Inv, Orders.ValidRows;
  }

  lemma MirrorMeans(s: Saga.State, w: World)
    requires Mirrors(s, w)
    ensures s.stock == LevelsOf(w.stock) && s.now == w.now && s.findings == map[] && s.cancels == map[]
    ensures s.places == SagaPlaces(w.calls) && s.orders == SagaOrders(w.orders)
    ensures s.log == Bodies(w.relay.log) && s.queue == BodySet(w.relay.queue) && s.missed == map[]
  {
  }

  lemma RestockedAtOnce(s: Saga.State, sku: Sku, qty: nat) returns (actions: seq<Saga.Action>, t: Saga.State)
    requires qty > 0
    ensures Saga.Run(s, actions, t) && SameButStock(s, t) && t.stock == Restocked(s.stock, sku, qty)
  {
    OneStep(s, Saga.Restock(sku, qty));
    actions, t := [Saga.Restock(sku, qty)], Saga.Step(s, Saga.Restock(sku, qty));
  }

  lemma SweptAtOnce(s: Saga.State, at: Time, picked: set<Sku>) returns (actions: seq<Saga.Action>, t: Saga.State)
    requires at <= s.now
    ensures Saga.Run(s, actions, t) && SameButStock(s, t) && t.stock == SweepSome(s.stock, at, picked)
  {
    OneStep(s, Saga.Swept(at, picked));
    hide SweepSome, Saga.Reaped;
    actions, t := [Saga.Swept(at, picked)], Saga.Step(s, Saga.Swept(at, picked));
  }

  lemma NothingHappens(s: Saga.State)
    ensures Saga.Run(s, [], s)
  {
  }

  lemma ReplenishShown(s: Saga.State, w: World, skuText: string, quantity: int, freshId: string,
                       refused: Option<Inventory.ReplenishError>, n: World)
    returns (actions: seq<Saga.Action>, t: Saga.State)
    requires Mirrors(s, w) && WorldOk(w)
    requires n == w.(stock := n.stock)
      && Inventory.AfterReplenish(w.stock, skuText, quantity, freshId, refused, n.stock)
    ensures Saga.Run(s, actions, t) && Mirrors(t, n) && WorldOk(n)
  {
    hide Saga.Run, WorldOk, Mirrors, SameButStock, LevelsOf, Inventory.Replenished, Restocked;
    if refused.Some? {
      assert n == w;
      NothingHappens(s);
      return [], s;
    }
    var sku := NewSku(skuText).value;
    MirrorMeans(s, w);
    ReplenishedLevels(w.stock, sku, quantity, freshId);
    actions, t := RestockedAtOnce(s, sku, quantity);
    StockMoves(s, w, t, n);
  }

  lemma SweepShown(s: Saga.State, w: World, at: Time, batch: nat, picked: set<Sku>, n: World)
    returns (actions: seq<Saga.Action>, t: Saga.State)
    requires Mirrors(s, w) && WorldOk(w)
    requires at <= w.now && n == w.(stock := n.stock) && Inventory.AfterSweep(w.stock, at, batch, picked, n.stock)
    ensures Saga.Run(s, actions, t) && Mirrors(t, n) && WorldOk(n)
  {
    hide Saga.Run, WorldOk, Mirrors, SameButStock, LevelsOf, Inventory.Touched, SweepSome, Picks;
    MirrorMeans(s, w);
    SweptLevels(w.stock, at, picked);
    actions, t := SweptAtOnce(s, at, picked);
    StockMoves(s, w, t, n);
  }

  /** Looking a reference up and finishing at once takes effect on every item that holds it. */
  lemma LookupAtOnce(s: Saga.State, job: Saga.Job, ref: Ref)
    requires s.findings == map[] && Saga.Due(s, job, ref)
    ensures Saga.Enabled(s, Saga.Found(0, job, ref))
    ensures Saga.Step(s, Saga.Found(0, job, ref)) ==
      s.(findings := map[0 := Saga.Finding(job, ref, Holding(s.stock, ref))])
    ensures ConfirmFound(s.stock, ref, Holding(s.stock, ref)) == ConfirmAll(s.stock, ref)
    ensures ReleaseFound(s.stock, ref, Holding(s.stock, ref)) == ReleaseAll(s.stock, ref)
  {
    FoundAreAll(s.stock, ref, Holding(s.stock, ref));
  }

  lemma IdentifiedRef(text: string)
    requires Ordering.Identified(text)
    ensures NewRef(text) == Ok(Ref(text)) && Subscriber.Addressee(Subscriber.Readable(text)) == Some(Ref(text))
  {
    Text.TrimSettles(text);
  }

  /** A compensation, carried out at once. */
  lemma Compensated(s: Saga.State, ref: Ref) returns (actions: seq<Saga.Action>, t: Saga.State)
    requires s.findings == map[] && Saga.Due(s, Saga.ToCompensate, ref)
    ensures Saga.Run(s, actions, t) && SameButStock(s, t) && t.stock == ReleaseAll(s.stock, ref)
  {
    LookupAtOnce(s, Saga.ToCompensate, ref);
    hide Holding, ReleaseFound, ConfirmFound, ReleaseAll, ConfirmAll;
    actions := [Saga.Found(0, Saga.ToCompensate, ref), Saga.CompensationSettled(0)];
    TwoSteps(s, actions[0], actions[1]);
    t := Saga.Step(Saga.Step(s, actions[0]), actions[1]);
  }

  /** What the records say of a placement under way. */
  lemma CallKnown(s: Saga.State, w: World, id: Ordering.OrderId)
    requires Mirrors(s, w) && WorldOk(w) && id in w.calls
    ensures CallOk(id, w.calls[id]) && NewRef(w.calls[id].order.ref.text) == Ok(Ref(id.text)) && !Ref(id.text).IsZero()
    ensures Ref(id.text) in s.places && s.places[Ref(id.text)] == SagaPlace(w.calls[id])
  {
    IdentifiedRef(id.text);
    PlaceKnown(w.calls, Ref(id.text));
  }

  lemma ReleaseShown(s: Saga.State, w: World, id: Ordering.OrderId, refused: Option<StockError>, n: World)
    returns (actions: seq<Saga.Action>, t: Saga.State)
    requires Mirrors(s, w) && WorldOk(w) && At(w, id, Failed)
    requires n == w.(stock := n.stock) && Inventory.AfterRelease(w.stock, w.calls[id].order.ref.text, refused, n.stock)
    ensures Saga.Run(s, actions, t) && Mirrors(t, n) && WorldOk(n)
  {
    hide Saga.Run, WorldOk, Mirrors, SameButStock, LevelsOf, Inventory.Touched, ReleaseAll, Holding, NewRef, CallOk;
    MirrorMeans(s, w);
    CallKnown(s, w, id);
    ReleasedLevels(w.stock, Ref(id.text));
    actions, t := Compensated(s, Ref(id.text));
    StockMoves(s, w, t, n);
  }

  lemma ConfirmedAtOnce(s: Saga.State, ref: Ref) returns (actions: seq<Saga.Action>, t: Saga.State)
    requires s.findings == map[] && ConfirmRequested(ref) in s.log
    ensures Saga.Run(s, actions, t) && SameButStock(s, t) && t.stock == ConfirmAll(s.stock, ref)
      && ConfirmRequested(ref) in t.consumed
  {
    LookupAtOnce(s, Saga.ToConfirm, ref);
    hide Holding, ReleaseFound, ConfirmFound, ReleaseAll, ConfirmAll;
    actions := [Saga.Found(0, Saga.ToConfirm, ref), Saga.ConfirmSettled(0)];
    TwoSteps(s, actions[0], actions[1]);
    t := Saga.Step(Saga.Step(s, actions[0]), actions[1]);
  }

  lemma CancelledAtOnce(s: Saga.State, ref: Ref) returns (actions: seq<Saga.Action>, t: Saga.State)
    requires s.findings == map[] && OrderCancelled(ref) in s.log
    ensures Saga.Run(s, actions, t) && SameButStock(s, t) && t.stock == ReleaseAll(s.stock, ref)
      && OrderCancelled(ref) in t.consumed
  {
    LookupAtOnce(s, Saga.ToCancel, ref);
    hide Holding, ReleaseFound, ConfirmFound, ReleaseAll, ConfirmAll;
    actions := [Saga.Found(0, Saga.ToCancel, ref), Saga.CancelSettled(0)];
    TwoSteps(s, actions[0], actions[1]);
    t := Saga.Step(Saga.Step(s, actions[0]), actions[1]);
  }

  /** A delivery, carried out at once. */
  lemma DeliveredAtOnce(s: Saga.State, m: Message) returns (actions: seq<Saga.Action>, t: Saga.State)
    requires s.findings == map[] && m in s.log
    ensures Saga.Run(s, actions, t) && SameButStock(s, t) && t.stock == Deliver(s.stock, m) && m in t.consumed
  {
    hide Saga.Run, SameButStock;
    DeliverIsLocal(s.stock, m);
    if m.ConfirmRequested? {
      actions, t := ConfirmedAtOnce(s, m.ref);
    } else {
      actions, t := CancelledAtOnce(s, m.ref);
    }
  }

  // ---------- Reserving ----------

  /** The lines inventory works on are those the placement asked for. */
  lemma SameLines(order: Ordering.OrderImage, lines: seq<Line>)
    requires Ordering.ValidLines(order.lines) && Inventory.Converted(AskedLines(order.lines), lines)
    ensures lines == SagaLines(order.lines)
  {
    forall i | 0 <= i < |lines| ensures lines[i] == SagaLine(order.lines[i]) {
      assert Ordering.ValidLine(order.lines[i]);
      Text.TrimSettles(order.lines[i].sku.text);
    }
  }

  lemma ReserveStep(s: Saga.State, ref: Ref, stamps: seq<Time>, ttl: int) returns (t: Saga.State)
    requires Saga.Enabled(s, Saga.ReserveApplied(ref, stamps, ttl))
    ensures Saga.Run(s, [Saga.ReserveApplied(ref, stamps, ttl)], t)
    ensures t.stock == ReserveAll(s.stock, ref, s.places[ref].lines, stamps, ttl)
    ensures t.places == s.places[ref := s.places[ref].(applied := true)] && SameButInventory(s, t)
  {
    OneStep(s, Saga.ReserveApplied(ref, stamps, ttl));
    hide ReserveAll, Saga.Asking, Verdict;
    t := Saga.Step(s, Saga.ReserveApplied(ref, stamps, ttl));
  }

  /** Enough is known of the placement for the saga to reserve. */
  lemma ReserveIsEnabled(s: Saga.State, w: World, id: Ordering.OrderId, lines: seq<Line>, stamps: seq<Time>,
                         ttl: int, n: World)
    requires Mirrors(s, w) && WorldOk(w) && ReserveEvent(w, id, lines, stamps, ttl, None, n)
    ensures Saga.Enabled(s, Saga.ReserveApplied(Ref(id.text), stamps, ttl))
    ensures |lines| == |stamps| && s.places[Ref(id.text)].lines == lines
    ensures n.stock == Inventory.Touched(w.stock, ReserveAll(LevelsOf(w.stock), Ref(id.text), lines, stamps, ttl),
                                         Inventory.Named(w.stock, lines))
    ensures n == w.(stock := n.stock, calls := w.calls[id := w.calls[id].(applied := true)])
  {
    hide WorldOk, Mirrors, LevelsOf, Inventory.Touched, ReserveAll, Verdict, Inventory.Named, NewRef;
    MirrorMeans(s, w);
    CallKnown(s, w, id);
    SameLines(w.calls[id].order, lines);
  }

  lemma AppliedStaysOk(id: Ordering.OrderId, c: Call)
    ensures CallOk(id, c) ==> CallOk(id, c.(applied := true))
    ensures SagaPlace(c.(applied := true)) == SagaPlace(c).(applied := true)
  {
  }

  lemma ReserveMeans(s: Saga.State, w: World, id: Ordering.OrderId, lines: seq<Line>, stamps: seq<Time>,
                     ttl: int, n: World)
    requires Mirrors(s, w) && WorldOk(w) && ReserveEvent(w, id, lines, stamps, ttl, None, n)
    ensures Saga.Enabled(s, Saga.ReserveApplied(Ref(id.text), stamps, ttl))
    ensures |s.places[Ref(id.text)].lines| == |stamps|
    ensures LevelsOf(n.stock) == ReserveAll(s.stock, Ref(id.text), s.places[Ref(id.text)].lines, stamps, ttl)
  {
    hide ReserveEvent, Saga.Enabled, WorldOk, Mirrors, LevelsOf, Inventory.Touched, ReserveAll, Inventory.Named;
    MirrorMeans(s, w);
    ReserveIsEnabled(s, w, id, lines, stamps, ttl, n);
    ReservedLevels(w.stock, Ref(id.text), lines, stamps, ttl);
  }

  lemma AppliedCall(s: Saga.State, w: World, id: Ordering.OrderId, lines: seq<Line>, stamps: seq<Time>,
                    ttl: int, n: World)
    returns (c: Call)
    requires Mirrors(s, w) && WorldOk(w) && ReserveEvent(w, id, lines, stamps, ttl, None, n)
    ensures n == w.(stock := n.stock, calls := w.calls[id := c]) && CallOk(id, c)
    ensures Ref(id.text) in s.places && SagaPlace(c) == s.places[Ref(id.text)].(applied := true)
  {
    hide WorldOk, Mirrors, CallOk, SagaPlace, Inventory.AfterReserve;
    CallKnown(s, w, id);
    AppliedStaysOk(id, w.calls[id]);
    c := w.calls[id].(applied := true);
  }

  lemma ReserveGranted(s: Saga.State, w: World, id: Ordering.OrderId, lines: seq<Line>, stamps: seq<Time>,
                       ttl: int, n: World)
    returns (actions: seq<Saga.Action>, t: Saga.State)
    requires Mirrors(s, w) && WorldOk(w) && ReserveEvent(w, id, lines, stamps, ttl, None, n)
    ensures Saga.Run(s, actions, t) && Mirrors(t, n) && WorldOk(n)
  {
    hide ReserveEvent, Saga.Run, Saga.Enabled, WorldOk, Mirrors, LevelsOf, ReserveAll, SameButInventory,
      CallOk, SagaPlace;
    ReserveMeans(s, w, id, lines, stamps, ttl, n);
    var c := AppliedCall(s, w, id, lines, stamps, ttl, n);
    actions := [Saga.ReserveApplied(Ref(id.text), stamps, ttl)];
    t := ReserveStep(s, Ref(id.text), stamps, ttl);
    CallMoves(s, w, t, n, id, c);
    CallsStayOk(w, n, id, c);
  }

  lemma RefusedMeans(w: World, id: Ordering.OrderId, lines: seq<Line>, stamps: seq<Time>, ttl: int,
                     refused: Option<Inventory.ReserveError>, n: World)
    requires ReserveEvent(w, id, lines, stamps, ttl, refused, n) && refused.Some?
    ensures n == w
  {
    hide Verdict, Inventory.Converted, NewRef;
    assert w.calls[id := w.calls[id].(applied := false)] == w.calls;
  }

  lemma ReserveShown(s: Saga.State, w: World, id: Ordering.OrderId, lines: seq<Line>, stamps: seq<Time>, ttl: int,
                     refused: Option<Inventory.ReserveError>, n: World)
    returns (actions: seq<Saga.Action>, t: Saga.State)
    requires Mirrors(s, w) && WorldOk(w) && ReserveEvent(w, id, lines, stamps, ttl, refused, n)
    ensures Saga.Run(s, actions, t) && Mirrors(t, n) && WorldOk(n)
  {
    hide ReserveEvent, Saga.Run, WorldOk, Mirrors;
    if refused.Some? {
      RefusedMeans(w, id, lines, stamps, ttl, refused, n);
      NothingHappens(s);
      actions, t := [], s;
    } else {
      actions, t := ReserveGranted(s, w, id, lines, stamps, ttl, n);
    }
  }

  // ---------- Placements moving on ----------

  /** A step that moves one placement and nothing else. */
  ghost predicate MovesPlace(s: Saga.State, a: Saga.Action, ref: Ref, p: Saga.Placement) {
    && Saga.Enabled(s, a)
    && var t := Saga.Step(s, a);
    && t.places == s.places[ref := p] && SameButInventory(s, t) && t.stock == s.stock
  }

  lemma PlacingMoves(s: Saga.State, ref: Ref, lines: seq<Line>)
    requires ref !in s.places && !ref.IsZero() && lines != []
    ensures MovesPlace(s, Saga.Place(ref, lines), ref, Saga.Placement(lines, Saga.Reserving, false))
  {
    hide ReserveAll, ConfirmFound, ReleaseFound, SweepSome, Restocked, Holding, Verdict, Saga.Reaped, Saga.Asking;
  }

  lemma AcknowledgingMoves(s: Saga.State, ref: Ref)
    requires ref in s.places && s.places[ref].phase.Reserving? && s.places[ref].applied
    ensures MovesPlace(s, Saga.ReserveAcknowledged(ref), ref, s.places[ref].(phase := Saga.Reserved))
  {
    hide ReserveAll, ConfirmFound, ReleaseFound, SweepSome, Restocked, Holding, Verdict, Saga.Reaped, Saga.Asking;
  }

  lemma GivingUpMoves(s: Saga.State, ref: Ref)
    requires ref in s.places && s.places[ref].phase.Reserving?
    ensures MovesPlace(s, Saga.ReserveFailed(ref), ref, s.places[ref].(phase := Saga.Abandoned))
  {
    hide ReserveAll, ConfirmFound, ReleaseFound, SweepSome, Restocked, Holding, Verdict, Saga.Reaped, Saga.Asking;
  }

  lemma LosingMoves(s: Saga.State, ref: Ref)
    requires ref in s.places && s.places[ref].phase.Reserved?
    ensures MovesPlace(s, Saga.OrderLost(ref), ref, s.places[ref].(phase := Saga.Compensating))
  {
    hide ReserveAll, ConfirmFound, ReleaseFound, SweepSome, Restocked, Holding, Verdict, Saga.Reaped, Saga.Asking;
  }

  lemma NewPlace(s: Saga.State, w: World, id: Ordering.OrderId)
    requires Mirrors(s, w) && id !in w.calls
    ensures Ref(id.text) !in s.places
  {
    hide Mirrors, SagaPlaces;
    MirrorMeans(s, w);
    PlaceKnown(w.calls, Ref(id.text));
  }

  lemma PlaceableMeans(w: World, o: Ordering.OrderImage)
    requires Placeable(w, o)
    ensures o.id !in w.calls && !Ref(o.id.text).IsZero() && SagaLines(o.lines) != []
    ensures CallOk(o.id, Call(o, Asking, false))
  {
    hide Ordering.ValidLines;
  }

  lemma StageStaysOk(id: Ordering.OrderId, c: Call, stage: Stage)
    requires CallOk(id, c)
    ensures CallOk(id, c.(stage := stage))
    ensures SagaPlace(c.(stage := stage)) == SagaPlace(c).(phase := SagaPhase(stage))
  {
  }

  /** Which step of the saga an event is, and what it makes of which placement. */
  lemma CallStep(s: Saga.State, w: World, e: Platform.Event, n: World)
    returns (a: Saga.Action, id: Ordering.OrderId, c: Call)
    requires Mirrors(s, w) && WorldOk(w) && CallEvent(w, e, n)
    ensures n == w.(calls := w.calls[id := c]) && CallOk(id, c)
    ensures MovesPlace(s, a, Ref(id.text), SagaPlace(c))
  {
    hide WorldOk, Mirrors, MovesPlace, Placeable, CallOk, SagaLines;
    match e {
      case Place(o) =>
        a, id, c := Saga.Place(Ref(o.id.text), SagaLines(o.lines)), o.id, Call(o, Asking, false);
        PlaceableMeans(w, o);
        NewPlace(s, w, o.id);
        PlacingMoves(s, Ref(o.id.text), SagaLines(o.lines));
      case ReserveAnswered(i) =>
        a, id, c := Saga.ReserveAcknowledged(Ref(i.text)), i, w.calls[i].(stage := Granted);
        CallKnown(s, w, i);
        StageStaysOk(i, w.calls[i], Granted);
        AcknowledgingMoves(s, Ref(i.text));
      case ReserveGivenUp(i) =>
        a, id, c := Saga.ReserveFailed(Ref(i.text)), i, w.calls[i].(stage := GivenUp);
        CallKnown(s, w, i);
        StageStaysOk(i, w.calls[i], GivenUp);
        GivingUpMoves(s, Ref(i.text));
      case StoreFails(i) =>
        a, id, c := Saga.OrderLost(Ref(i.text)), i, w.calls[i].(stage := Failed);
        CallKnown(s, w, i);
        StageStaysOk(i, w.calls[i], Failed);
        LosingMoves(s, Ref(i.text));
    }
  }

  lemma CallEventShown(s: Saga.State, w: World, e: Platform.Event, n: World)
    returns (actions: seq<Saga.Action>, t: Saga.State)
    requires Mirrors(s, w) && WorldOk(w) && CallEvent(w, e, n)
    ensures Saga.Run(s, actions, t) && Mirrors(t, n) && WorldOk(n)
  {
    hide CallEvent, Saga.Run, WorldOk, Mirrors, SameButInventory, CallOk, Saga.Step, Saga.Enabled;
    var a, id, c := CallStep(s, w, e, n);
    OneStep(s, a);
    actions, t := [a], Saga.Step(s, a);
    MirrorMeans(s, w);
    CallMoves(s, w, t, n, id, c);
    CallsStayOk(w, n, id, c);
  }

  // ---------- Orders and messages ----------

  /** Only orders, log and queue may differ, and one placement. */
  predicate SameButOrders(s: Saga.State, t: Saga.State) {
    && t.stock == s.stock && t.now == s.now && t.cancels == s.cancels && t.findings == s.findings
    && t.missed == s.missed && s.consumed <= t.consumed
  }

  /** An order is written and its message sent. */
  lemma OrderMoves(s: Saga.State, w: World, t: Saga.State, n: World, id: Ordering.OrderId, row: Ordering.OrderRow,
                   m: Orders.Message)
    requires Mirrors(s, w) && Sends(w, m, n)
    requires n == w.(orders := w.orders[id := row], relay := n.relay, calls := n.calls)
    requires SameButOrders(s, t) && t.places == SagaPlaces(n.calls)
    requires t.orders == s.orders[Ref(id.text) := SagaOrder(row)]
    requires t.log == s.log + [m.body] && t.queue == s.queue + {m.body}
    ensures Mirrors(t, n)
  {
    OneMoreOrder(w.orders, id, row);
    OneMoreBody(w.relay.log, m);
    OneMoreBody(w.relay.queue, m);
    hide SagaPlaces, SagaOrders, SagaOrder, LevelsOf, Bodies, BodySet, Outbox.Enabled;
  }

  lemma SendingStaysOk(w: World, m: Orders.Message, n: World)
    requires Outbox.Inv(w.relay) && Sends(w, m, n)
    ensures Outbox.Inv(n.relay)
  {
    Outbox.StepKeepsInv(w.relay, Outbox.Commit([m]));
  }

  lemma CommitStep(s: Saga.State, ref: Ref)
    requires ref in s.places && s.places[ref].phase.Reserved?
    ensures Saga.Enabled(s, Saga.OrderCommitted(ref))
    ensures var t := Saga.Step(s, Saga.OrderCommitted(ref));
      && SameButOrders(s, t) && t.places == s.places[ref := s.places[ref].(phase := Saga.Placed)]
      && t.orders == s.orders[ref := Saga.Order(false, 1)]
      && t.log == s.log + [ConfirmRequested(ref)] && t.queue == s.queue + {ConfirmRequested(ref)}
  {
  }

  lemma StoreShown(s: Saga.State, w: World, id: Ordering.OrderId, messageId: Outbox.Id, n: World)
    returns (actions: seq<Saga.Action>, t: Saga.State)
    requires Mirrors(s, w) && WorldOk(w) && StoreEvent(w, id, messageId, n)
    ensures Saga.Run(s, actions, t) && Mirrors(t, n) && WorldOk(n)
  {
    hide Saga.Run, WorldOk, Mirrors, SameButOrders, CallOk, Saga.Step, Saga.Enabled, Sends, Ordering.EncodeOrder,
      SagaPlaces, SagaOrder, SagaLines;
    var ref, c := Ref(id.text), w.calls[id];
    MirrorMeans(s, w);
    CallKnown(s, w, id);
    StageStaysOk(id, c, Kept);
    OneMorePlace(w.calls, id, c.(stage := Kept));
    CommitStep(s, ref);
    OneStep(s, Saga.OrderCommitted(ref));
    actions, t := [Saga.OrderCommitted(ref)], Saga.Step(s, Saga.OrderCommitted(ref));
    StoredMeans(w, id, messageId, n);
    OrderMoves(s, w, t, n, id, n.orders[id], Orders.ConfirmMessage(messageId, c.order.ref));
  }

  lemma StoredMeans(w: World, id: Ordering.OrderId, messageId: Outbox.Id, n: World)
    requires WorldOk(w) && StoreEvent(w, id, messageId, n)
    ensures id in n.orders && n.orders == w.orders[id := n.orders[id]]
      && SagaOrder(n.orders[id]) == Saga.Order(false, 1)
    ensures Orders.ConfirmMessage(messageId, w.calls[id].order.ref).body == ConfirmRequested(Ref(id.text))
    ensures n.calls == w.calls[id := w.calls[id].(stage := Kept)]
    ensures n == w.(orders := n.orders, relay := n.relay, calls := n.calls)
    ensures WorldOk(n)
  {
    hide Sends, Outbox.Inv, Ordering.EncodeLines, Ordering.ValidLines;
    var c := w.calls[id];
    assert CallOk(id, c);
    SendingStaysOk(w, Orders.ConfirmMessage(messageId, c.order.ref), n);
    Orders.OneMoreValidRow(w.orders, c.order);
    StageStaysOk(id, c, Kept);
    hide CallOk, Orders.ValidRows;
  }

  lemma CancelledRow(orders: Orders.Rows, id: Ordering.OrderId)
    requires Orders.ValidRows(orders) && Orders.Cancelled(orders, id).Ok?
    ensures var row := Orders.Cancelled(orders, id).value;
      && id in orders && row.version > 1 && SagaOrder(orders[id]) == Saga.Order(false, row.version - 1)
      && SagaOrder(row) == Saga.Order(true, row.version) && Orders.ValidRows(orders[id := row])
  {
    Orders.CancelledMeans(orders, id);
    Orders.DecodedIsSound(orders[id]);
    assert Ordering.DecodeOrder(orders[id]).value.status == Ordering.Confirmed;
  }

  /** Loading and cancelling an order at once. */
  lemma CancelledOrder(s: Saga.State, ref: Ref) returns (actions: seq<Saga.Action>, t: Saga.State)
    requires ref in s.orders && !s.orders[ref].cancelled && s.cancels == map[]
    ensures Saga.Run(s, actions, t) && SameButOrders(s, t) && t.places == s.places
    ensures t.orders == s.orders[ref := Saga.Order(true, s.orders[ref].version + 1)]
    ensures t.log == s.log + [OrderCancelled(ref)] && t.queue == s.queue + {OrderCancelled(ref)}
  {
    actions := [Saga.CancelLoaded(0, ref), Saga.CancelCommitted(0)];
    TwoSteps(s, actions[0], actions[1]);
    t := Saga.Step(Saga.Step(s, actions[0]), actions[1]);
  }

  lemma OrdersStayOk(w: World, n: World)
    requires WorldOk(w) && Outbox.Inv(n.relay) && Orders.ValidRows(n.orders) && n.calls == w.calls
    ensures WorldOk(n)
  {
  }

  lemma WorldMeans(w: World)
    requires WorldOk(w)
    ensures Outbox.Inv(w.relay) && Orders.ValidRows(w.orders)
  {
  }

  lemma CancelSucceeds(s: Saga.State, w: World, id: Ordering.OrderId, messageId: Outbox.Id, n: World)
    returns (actions: seq<Saga.Action>, t: Saga.State)
    requires Mirrors(s, w) && WorldOk(w) && Orders.Cancelled(w.orders, id).Ok?
    requires n == w.(orders := w.orders[id := Orders.Cancelled(w.orders, id).value], relay := n.relay)
    requires Sends(w, Orders.CancelMessage(messageId, Ordering.DeriveReservationRef(id)), n)
    ensures Saga.Run(s, actions, t) && Mirrors(t, n) && WorldOk(n)
  {
    hide Saga.Run, WorldOk, Mirrors, SameButOrders, Sends, Orders.Cancelled, Orders.ValidRows, Outbox.Inv,
      SagaOrder, SagaPlaces;
    var row, m := Orders.Cancelled(w.orders, id).value,
      Orders.CancelMessage(messageId, Ordering.DeriveReservationRef(id));
    WorldMeans(w);
    MirrorMeans(s, w);
    CancelledRow(w.orders, id);
    OrderKnown(w.orders, Ref(id.text));
    actions, t := CancelledOrder(s, Ref(id.text));
    OrderMoves(s, w, t, n, id, row, m);
    SendingStaysOk(w, m, n);
    OrdersStayOk(w, n);
  }

  lemma CancelShown(s: Saga.State, w: World, idText: string, messageId: Outbox.Id, refused: Option<Ordering.OrderError>,
                    sent: Option<Ordering.ReservationRef>, n: World)
    returns (actions: seq<Saga.Action>, t: Saga.State)
    requires Mirrors(s, w) && WorldOk(w) && CancelEvent(w, idText, messageId, refused, sent, n)
    ensures Saga.Run(s, actions, t) && Mirrors(t, n) && WorldOk(n)
  {
    hide Saga.Run, WorldOk, Mirrors, Sends, Orders.Cancelled, Ordering.NewId;
    if sent.None? {
      assert n == w;
      NothingHappens(s);
      actions, t := [], s;
    } else {
      actions, t := CancelSucceeds(s, w, Ordering.OrderId(Ordering.NewId(idText).value), messageId, n);
    }
  }

  // ---------- Relays ----------

  /** Nothing but the relay changes, and of that neither the log nor what was published. */
  lemma RelayMoves(s: Saga.State, w: World, t: Saga.State, n: World)
    requires Mirrors(s, w) && n == w.(relay := n.relay)
    requires n.relay.log == w.relay.log && n.relay.published == w.relay.published
    requires t == s.(queue := BodySet(n.relay.queue))
    ensures Mirrors(t, n)
  {
  }

  lemma BodyAt(log: seq<Orders.Message>, i: nat)
    requires i < |log|
    ensures Bodies(log)[i] == log[i].body
  {
  }

  ghost predicate DistinctBodies(log: seq<Orders.Message>) {
    forall i, j :: 0 <= i < j < |Bodies(log)| ==> Bodies(log)[i] != Bodies(log)[j]
  }

  /** In a log whose bodies differ, a body names its message. */
  lemma SameBodySameMessage(log: seq<Orders.Message>, a: Orders.Message, b: Orders.Message)
    requires DistinctBodies(log)
    requires a in log && b in log && a.body == b.body
    ensures a == b
  {
    var i :| 0 <= i < |log| && log[i] == a;
    var j :| 0 <= j < |log| && log[j] == b;
    BodyAt(log, i);
    BodyAt(log, j);
  }

  /** Taking a message off the queue takes its body off. */
  lemma MarkedQueue(q: seq<Orders.Message>, log: seq<Orders.Message>, m: Orders.Message)
    requires DistinctBodies(log)
    requires Outbox.UniqueIds(log) && m in log && forall x :: x in q ==> x in log
    ensures BodySet(Outbox.Without(q, {m.id})) == BodySet(q) - {m.body}
  {
    var rest := Outbox.Without(q, {m.id});
    Outbox.WithoutMembers(q, {m.id});
    forall x | x in q ensures x in rest <==> x.body != m.body {
      if x.body == m.body { SameBodySameMessage(log, x, m); }
      if x.id == m.id { Outbox.SameIdSameMessage(log, x, m); }
    }
    forall b ensures b in BodySet(rest) <==> b in BodySet(q) && b != m.body {
      if b in BodySet(rest) {
        var x :| x in rest && x.body == b;
      }
      if b in BodySet(q) && b != m.body {
        var x :| x in q && x.body == b;
        assert x in rest;
      }
    }
  }

  lemma MarkStep(s: Saga.State, m: Message) returns (actions: seq<Saga.Action>, t: Saga.State)
    requires m in s.consumed
    ensures Saga.Run(s, actions, t) && t == s.(queue := s.queue - {m})
  {
    if m in s.queue {
      actions, t := [Saga.MarkedPublished(m)], Saga.Step(s, Saga.MarkedPublished(m));
      OneStep(s, Saga.MarkedPublished(m));
    } else {
      assert s.queue - {m} == s.queue;
      NothingHappens(s);
      actions, t := [], s;
    }
  }

  /** What the relay's next message is, seen from the saga. */
  lemma NextMessage(s: Saga.State, w: World, r: Outbox.RelayId)
    requires Mirrors(s, w) && WorldOk(w) && r in w.relay.relays && w.relay.relays[r].batch != []
    ensures var m := w.relay.relays[r].batch[0];
      m in w.relay.log && m.body in s.log && (w.relay.relays[r].awaitsMark ==> m.body in s.consumed)
    ensures Outbox.UniqueIds(w.relay.log) && forall x :: x in w.relay.queue ==> x in w.relay.log
  {
    assert Outbox.RelayOk(w.relay, w.relay.relays[r]);
    Outbox.WithoutMembers(w.relay.log, w.relay.gone);
    var m := w.relay.relays[r].batch[0];
    var i :| 0 <= i < |w.relay.log| && w.relay.log[i] == m;
    BodyAt(w.relay.log, i);
  }

  lemma LoggedOnce(s: Saga.State, w: World)
    requires Mirrors(s, w) && Saga.LogOk(s)
    ensures DistinctBodies(w.relay.log)
  {
    hide Mirrors;
    MirrorMeans(s, w);
  }

  lemma MarkShown(s: Saga.State, w: World, r: Outbox.RelayId, n: World)
    returns (actions: seq<Saga.Action>, t: Saga.State)
    requires Mirrors(s, w) && WorldOk(w) && Saga.LogOk(s) && RelayEvent(w, Outbox.Mark(r), n)
    ensures Saga.Run(s, actions, t) && Mirrors(t, n)
  {
    hide Saga.Run, WorldOk, Mirrors, BodySet, Outbox.UniqueIds, DistinctBodies, Outbox.Without, Saga.LogOk;
    MirrorMeans(s, w);
    NextMessage(s, w, r);
    LoggedOnce(s, w);
    var m := w.relay.relays[r].batch[0];
    MarkedQueue(w.relay.queue, w.relay.log, m);
    actions, t := MarkStep(s, m.body);
    RelayMoves(s, w, t, n);
  }

  lemma RelayEventShown(s: Saga.State, w: World, a: Outbox.Action<Message>, n: World)
    returns (actions: seq<Saga.Action>, t: Saga.State)
    requires Mirrors(s, w) && WorldOk(w) && Saga.LogOk(s) && RelayEvent(w, a, n)
    ensures Saga.Run(s, actions, t) && Mirrors(t, n) && WorldOk(n)
  {
    hide Saga.Run, WorldOk, Mirrors, Outbox.Inv, Saga.LogOk, Outbox.Without, BodySet;
    WorldMeans(w);
    Outbox.StepKeepsInv(w.relay, a);
    OrdersStayOk(w, n);
    if a.Mark? {
      actions, t := MarkShown(s, w, a.r, n);
    } else {
      MirrorMeans(s, w);
      NothingHappens(s);
      actions, t := [], s;
      RelayMoves(s, w, t, n);
    }
  }

  /** The consumer of a logged message finds the reference in its payload. */
  lemma LoggedIsAddressed(s: Saga.State, w: World, m: Message)
    requires Mirrors(s, w) && Orders.ValidRows(w.orders) && m in s.log && Saga.RefOk(s, m.ref)
    ensures Subscriber.Addressee(Subscriber.Readable(m.ref.text)) == Some(m.ref)
    ensures Subscriber.MessageFor(RouteOf(m), m.ref) == m
  {
    hide Mirrors, Subscriber.Addressee;
    MirrorMeans(s, w);
    OrderKnown(w.orders, m.ref);
    assert m.ref in s.orders;
    IdentifiedRef(m.ref.text);
  }

  lemma HandOverMoves(s: Saga.State, w: World, t: Saga.State, mid: World, n: World, m: Message)
    requires Mirrors(t, mid) && m in t.consumed && n == mid.(relay := n.relay)
    requires n.relay.log == mid.relay.log && n.relay.queue == mid.relay.queue
    requires forall x :: x in n.relay.published ==> x in mid.relay.published || x.body == m
    ensures Mirrors(t, n)
  {
  }

  lemma HandOverShown(s: Saga.State, w: World, r: Outbox.RelayId, acknowledged: bool,
                      refused: Option<Subscriber.ConsumeError>, n: World)
    returns (actions: seq<Saga.Action>, t: Saga.State)
    requires Mirrors(s, w) && WorldOk(w) && HandOverEvent(w, r, acknowledged, refused, n)
    requires Saga.RefOk(s, w.relay.relays[r].batch[0].body.ref)
    ensures Saga.Run(s, actions, t) && Mirrors(t, n) && WorldOk(n)
  {
    hide Saga.Run, WorldOk, Mirrors, Outbox.Inv, SameButStock, LevelsOf, Deliver, Subscriber.Addressee, Saga.RefOk,
      Orders.ValidRows;
    var m := w.relay.relays[r].batch[0].body;
    WorldMeans(w);
    MirrorMeans(s, w);
    NextMessage(s, w, r);
    LoggedIsAddressed(s, w, m);
    actions, t := DeliveredAtOnce(s, m);
    var mid := w.(stock := n.stock);
    StockMoves(s, w, t, mid);
    if acknowledged { Outbox.StepKeepsInv(w.relay, Outbox.Publish(r)); }
    HandOverMoves(s, w, t, mid, n, m);
    OrdersStayOk(w, n);
  }

  lemma TickShown(s: Saga.State, w: World, to: Time, n: World) returns (actions: seq<Saga.Action>, t: Saga.State)
    requires Mirrors(s, w) && WorldOk(w) && to >= w.now && n == w.(now := to)
    ensures Saga.Run(s, actions, t) && Mirrors(t, n) && WorldOk(n)
  {
    hide Saga.Run, LevelsOf, SagaOrders, SagaPlaces, Bodies, BodySet, Outbox.Inv, Orders.ValidRows, CallOk;
    OneStep(s, Saga.Tick(to));
    actions, t := [Saga.Tick(to)], Saga.Step(s, Saga.Tick(to));
  }

  // ---------- Whole histories ----------

  lemma StockEventShown(s: Saga.State, w: World, e: Platform.Event, n: World)
    returns (actions: seq<Saga.Action>, t: Saga.State)
    requires Mirrors(s, w) && WorldOk(w) && StockEvent(w, e, n)
    ensures Saga.Run(s, actions, t) && Mirrors(t, n) && WorldOk(n)
  {
    hide Saga.Run, WorldOk, Mirrors, Inventory.AfterReplenish, Inventory.AfterRelease, Inventory.AfterSweep;
    match e {
      case Replenish(skuText, quantity, freshId, refused) =>
        actions, t := ReplenishShown(s, w, skuText, quantity, freshId, refused, n);
      case ReleaseArrives(id, refused) => actions, t := ReleaseShown(s, w, id, refused, n);
      case Sweep(at, batch, picked) => actions, t := SweepShown(s, w, at, batch, picked, n);
    }
  }

  lemma SagaKnows(s: Saga.State, ref: Ref)
    requires Saga.Inv(s)
    ensures Saga.LogOk(s) && Saga.RefOk(s, ref)
  {
  }

  /** Whatever happens on the platform is some run of the saga, and its steps are enabled. */
  lemma EventShown(s: Saga.State, w: World, e: Platform.Event, n: World)
    returns (actions: seq<Saga.Action>, t: Saga.State)
    requires Shows(s, w) && Next(w, e, n)
    ensures Saga.Run(s, actions, t) && Shows(t, n)
  {
    hide Saga.Run, WorldOk, Mirrors, Saga.Inv, Saga.LogOk, Saga.RefOk;
    hide StockEvent, CallEvent, StoreEvent, CancelEvent, RelayEvent, ReserveEvent;
    match e {
      case ReserveArrives(id, lines, stamps, ttl, refused) =>
        actions, t := ReserveShown(s, w, id, lines, stamps, ttl, refused, n);
      case Store(id, messageId) => actions, t := StoreShown(s, w, id, messageId, n);
      case Cancel(idText, messageId, refused, sent) =>
        actions, t := CancelShown(s, w, idText, messageId, refused, sent, n);
      case Relay(a) =>
        SagaKnows(s, Ref(""));
        actions, t := RelayEventShown(s, w, a, n);
      case HandOver(r, acknowledged, refused) =>
        SagaKnows(s, w.relay.relays[r].batch[0].body.ref);
        actions, t := HandOverShown(s, w, r, acknowledged, refused, n);
      case Tick(to) => actions, t := TickShown(s, w, to, n);
      case _ =>
        if StockEvent(w, e, n) {
          actions, t := StockEventShown(s, w, e, n);
        } else {
          actions, t := CallEventShown(s, w, e, n);
        }
    }
    Saga.RunKeepsInv(s, actions, t);
  }

  lemma {:induction false} RunOn(s: Saga.State, a: seq<Saga.Action>, mid: Saga.State, b: seq<Saga.Action>,
                                 end: Saga.State)
    requires Saga.Run(s, a, mid) && Saga.Run(mid, b, end)
    ensures Saga.Run(s, a + b, end)
    decreases |a|
  {
    hide Saga.Step, Saga.Enabled;
    if a == [] {
      assert a + b == b;
    } else {
      assert (a + b)[1..] == a[1..] + b;
      RunOn(Saga.Step(s, a[0]), a[1..], mid, b, end);
    }
  }

  /** The rest of a history, from a state that shows where it stands. */
  lemma {:induction false} HistoryShown(ws: seq<World>, es: seq<Platform.Event>, s: Saga.State, i: nat, j: nat)
    returns (actions: seq<Saga.Action>, t: Saga.State)
    requires History(ws, es) && i <= j <= |es| && Shows(s, ws[i])
    ensures Saga.Run(s, actions, t) && Shows(t, ws[j])
    decreases j - i
  {
    hide Shows, Saga.Run, Next;
    if i == j {
      NothingHappens(s);
      actions, t := [], s;
    } else {
      var first, mid := EventShown(s, ws[i], es[i], ws[i + 1]);
      var later;
      later, t := HistoryShown(ws, es, mid, i + 1, j);
      RunOn(s, first, mid, later, t);
      actions := first + later;
    }
  }

  lemma EmptyMirrored()
    ensures Mirrors(Saga.INITIAL, EMPTY)
  {
    assert SagaOrders(map[]) == map[] && SagaPlaces(map[]) == map[] && BodySet([]) == {} && LevelsOf(map[]) == map[];
  }

  lemma EmptyOk()
    ensures WorldOk(EMPTY)
  {
    assert Outbox.Without(EMPTY.relay.log, {}) == [];
  }

  lemma EmptyShown()
    ensures Shows(Saga.INITIAL, EMPTY)
  {
    hide Mirrors, WorldOk, Saga.Inv;
    EmptyMirrored();
    EmptyOk();
    NothingHappens(Saga.INITIAL);
    Saga.Reachable([], Saga.INITIAL);
  }

  /** Every history of the platform is a run of the saga that ends in the same stores. */
  lemma HistoriesAreRuns(ws: seq<World>, es: seq<Platform.Event>, j: nat)
    returns (actions: seq<Saga.Action>, s: Saga.State)
    requires History(ws, es) && ws[0] == EMPTY && j <= |es|
    ensures Saga.Run(Saga.INITIAL, actions, s) && Shows(s, ws[j])
  {
    EmptyShown();
    actions, s := HistoryShown(ws, es, Saga.INITIAL, 0, j);
  }

  // ---------- What that means for the stores ----------

  /** A reservation as it is stored. */
  function Held(w: World, sku: Sku, ref: Ref): Option<Reservation> {
    if sku in w.stock && ref in w.stock[sku].level.reservations
    then Some(w.stock[sku].level.reservations[ref]) else None
  }

  predicate HeldConfirmed(w: World, sku: Sku, ref: Ref) {
    Held(w, sku, ref).Some? && Held(w, sku, ref).value.status.Confirmed?
  }

  predicate StoredAs(w: World, id: Ordering.OrderId, status: Ordering.OrderStatus) {
    id in w.orders && w.orders[id].status == Ordering.StatusText(status)
  }

  lemma HeldIsCell(w: World, sku: Sku, ref: Ref)
    ensures Held(w, sku, ref) == Saga.Cell(LevelsOf(w.stock), sku, ref)
  {
  }

  lemma StoresShown(s: Saga.State, w: World, sku: Sku, id: Ordering.OrderId)
    requires Shows(s, w)
    ensures Saga.Inv(s) && Held(w, sku, Ref(id.text)) == Saga.Cell(s.stock, sku, Ref(id.text))
    ensures id in w.orders <==> Ref(id.text) in s.orders
    ensures StoredAs(w, id, Ordering.Confirmed) ==> Ref(id.text) in s.orders && !s.orders[Ref(id.text)].cancelled
    ensures id in w.orders ==> (StoredAs(w, id, Ordering.Cancelled) <==> s.orders[Ref(id.text)].cancelled)
  {
    hide Saga.Inv, WorldOk, Mirrors, Held, Saga.Cell, LevelsOf, SagaOrders;
    MirrorMeans(s, w);
    HeldIsCell(w, sku, Ref(id.text));
    OrderKnown(w.orders, Ref(id.text));
  }

  /** In every history stock is confirmed only for orders that are stored, with the quantity of the
      first line that asks for it. */
  lemma StoredConfirmationsAreOrders(ws: seq<World>, es: seq<Platform.Event>, j: nat, sku: Sku, id: Ordering.OrderId)
    requires History(ws, es) && ws[0] == EMPTY && j <= |es|
    requires HeldConfirmed(ws[j], sku, Ref(id.text))
    ensures id in ws[j].orders && id in ws[j].calls
    ensures var lines := SagaLines(ws[j].calls[id].order.lines);
      && Asked(lines, sku, |lines|)
      && Held(ws[j], sku, Ref(id.text)).value ==
        Reservation(Ref(id.text), lines[FirstLine(lines, sku, |lines|)].qty, Confirmed, ZERO_TIME)
  {
    hide Saga.Run, Saga.Inv, Next, WorldOk;
    var actions, s := HistoriesAreRuns(ws, es, j);
    StoresShown(s, ws[j], sku, id);
    Saga.ConfirmedMeansDurable(actions, s, Saga.Key(sku, Ref(id.text)));
    PlaceKnown(ws[j].calls, Ref(id.text));
  }

  /** And while the order stays confirmed, no further history takes it away or changes it. */
  lemma StoredStockIsSafe(ws: seq<World>, es: seq<Platform.Event>, i: nat, j: nat, sku: Sku, id: Ordering.OrderId)
    requires History(ws, es) && ws[0] == EMPTY && i <= j <= |es|
    requires HeldConfirmed(ws[i], sku, Ref(id.text)) && StoredAs(ws[j], id, Ordering.Confirmed)
    ensures Held(ws[j], sku, Ref(id.text)) == Held(ws[i], sku, Ref(id.text))
  {
    hide Saga.Run, Shows, Next, Saga.Inv;
    var before, s := HistoriesAreRuns(ws, es, i);
    var actions, t := HistoryShown(ws, es, s, i, j);
    StoresShown(s, ws[i], sku, id);
    StoresShown(t, ws[j], sku, id);
    Saga.ConfirmedStockIsSafe(s, actions, t, Saga.Key(sku, Ref(id.text)));
  }

  /** The log tells which orders are stored and which of them are cancelled, each once. */
  lemma StoredLogMatchesOrders(ws: seq<World>, es: seq<Platform.Event>, j: nat, id: Ordering.OrderId)
    requires History(ws, es) && ws[0] == EMPTY && j <= |es|
    ensures DistinctBodies(ws[j].relay.log)
    ensures ConfirmRequested(Ref(id.text)) in Bodies(ws[j].relay.log) <==> id in ws[j].orders
    ensures OrderCancelled(Ref(id.text)) in Bodies(ws[j].relay.log) <==> StoredAs(ws[j], id, Ordering.Cancelled)
  {
    hide Saga.Run, Next, Saga.Inv;
    var actions, s := HistoriesAreRuns(ws, es, j);
    StoresShown(s, ws[j], Sku(""), id);
    Saga.LogMatchesOrders(actions, s);
    MirrorMeans(s, ws[j]);
  }

  /** Nothing is queued and no placement waits for an answer or for its commit. */
  predicate AtRest(w: World) {
    w.relay.queue == [] && forall id :: id in w.calls ==> !w.calls[id].stage.Asking? && !w.calls[id].stage.Granted?
  }

  lemma RestShown(s: Saga.State, w: World)
    requires Shows(s, w) && AtRest(w)
    ensures Saga.Quiescent(s)
  {
    hide Saga.Inv, WorldOk, Mirrors, SagaPlaces, SagaLines;
    MirrorMeans(s, w);
    forall r | r in s.places ensures !s.places[r].phase.Reserving? && !s.places[r].phase.Reserved? {
      PlaceKnown(w.calls, r);
    }
  }

  /** With one relay over the log the saga produced, a cancellation is never published unless its
      order's confirm command has been. */
  lemma ConfirmIsPublishedFirst(steps: seq<Saga.Action>, s: Saga.State,
                                actions: seq<Outbox.Action<Message>>, relayed: Outbox.State<Message>,
                                sent: Orders.Message)
    requires Saga.Run(Saga.INITIAL, steps, s)
    requires Outbox.Run(Outbox.Initial<Message>(), actions, relayed) && forall a :: a in actions ==> Outbox.OneRelay(a)
    requires s.log == Bodies(relayed.log)
    requires sent in relayed.published && sent.body.OrderCancelled?
    ensures exists c :: c in relayed.published && c.body == ConfirmRequested(sent.body.ref)
  {
    Saga.LogMatchesOrders(steps, s);
    Outbox.NothingIsLost([], Outbox.Initial<Message>(), actions, relayed);
    var l :| 0 <= l < |relayed.log| && relayed.log[l] == sent;
    assert s.log[l] == OrderCancelled(sent.body.ref);
    var i :| 0 <= i < l && s.log[i] == ConfirmRequested(sent.body.ref);
    Outbox.EarlierFirst(actions, relayed, i, l);
    assert relayed.log[i].body == s.log[i];
  }

  // ---------- Writes under a version condition ----------

  /** Stored items as the two tables of the concurrent model. */
  function TablesOf(v: View): Serializability.Database {
    Serializability.Database(
      map s | s in v :: Serializability.VersionedRow(v[s].version, v[s].level.available),
      map s | s in v :: v[s].level.reservations)
  }

  /** The write of the PostgreSQL adapter goes through exactly when the guarded write of the
      concurrent transactions does, and leaves what their commit leaves. */
  lemma GuardsAgree(v: View, x: Saved)
    requires forall s :: s in v ==> v[s].version > 0
    requires x.version + 1 < INT32_LIMIT && Storable(x.sku, x.level) && PostgresStock.Fits32(x.level)
    requires x.version == 0 ==> !PostgresStock.IdTaken(v, x.id)
    ensures PostgresStock.PgWrite(v, x).Ok? <==> Serializability.RowAt(TablesOf(v), x.sku).version == x.version
    ensures PostgresStock.PgWrite(v, x).Ok? ==>
      var after := TablesOf(PostgresStock.PgWrite(v, x).value);
      && Serializability.LevelAt(after, x.sku) == x.level
      && Serializability.RowAt(after, x.sku).version == Serializability.RowAt(TablesOf(v), x.sku).version + 1
      && forall s :: s != x.sku ==>
           Serializability.RowAt(after, s) == Serializability.RowAt(TablesOf(v), s)
           && Serializability.LevelAt(after, s) == Serializability.LevelAt(TablesOf(v), s)
  {
    PostgresStock.FittingWrite(v, x);
  }
}
