/**
 Both services over their in-memory stores, one transaction after the other in any order: the stored
 items, the stored orders, the queue and log with their relays, and the placements under way. Each
 transition is what a use case's contract says of the stores.
 */
module Platform {
  import opened Common
  import opened Stock
  import opened StockStore
  import Allocation
  import Inventory = InventoryUseCases
  import Ordering
  import Orders = OrderUseCases
  import Outbox
  import Subscriber
  import Warehouse

  datatype Stage =
    | Asking   // the call to inventory is out
    | Granted  // it was answered with a success
    | Kept     // the order is stored
    | Failed   // storing it failed; inventory is asked to release
    | GivenUp  // the call was refused, or its answer never came

  /** A placement whose input was valid; `applied` says that inventory carried the call out. */
  datatype Call = Call(order: Ordering.OrderImage, stage: Stage, applied: bool)

  datatype World = World(
    stock: View,
    orders: Orders.Rows,
    relay: Outbox.State<Warehouse.Message>,
    calls: map<Ordering.OrderId, Call>,
    now: Time)

  datatype Event =
    | Replenish(skuText: string, quantity: int, freshId: string, noReplenish: Option<Inventory.ReplenishError>)
    | Place(order: Ordering.OrderImage)
    | ReserveArrives(id: Ordering.OrderId, lines: seq<Allocation.Line>, stamps: seq<Time>, ttl: int,
                     noReserve: Option<Inventory.ReserveError>)
    | ReserveAnswered(id: Ordering.OrderId)
    | ReserveGivenUp(id: Ordering.OrderId)
    | Store(id: Ordering.OrderId, messageId: Outbox.Id)
    | StoreFails(id: Ordering.OrderId)
    | ReleaseArrives(id: Ordering.OrderId, noRelease: Option<StockError>)
    | Cancel(idText: string, messageId: Outbox.Id, noCancel: Option<Ordering.OrderError>,
             sent: Option<Ordering.ReservationRef>)
    | Relay(a: Outbox.Action<Warehouse.Message>)
    | HandOver(r: Outbox.RelayId, acknowledged: bool, noDelivery: Option<Subscriber.ConsumeError>)
    | Sweep(at: Time, batch: nat, picked: set<Sku>)
    | Tick(to: Time)

  ghost const EMPTY := World(map[], map[], Outbox.Initial<Warehouse.Message>(), map[], 1)

  /** A valid new order under an id that was never used. */
  ghost predicate Placeable(w: World, o: Ordering.OrderImage) {
    && o.id !in w.calls
    && Ordering.Identified(o.id.text) && Ordering.Identified(o.customer.text)
    && Ordering.ValidLines(o.lines) && o.lines != []
    && Ordering.Accumulated(o.lines, |o.lines|).Ok?
    && o == Ordering.NewImage(o.id, o.customer, o.lines, Ordering.Accumulated(o.lines, |o.lines|).value)
  }

  /** The lines inventory is asked for. */
  function AskedLines(lines: seq<Ordering.OrderLine>): (asked: seq<Inventory.ReserveLine>)
    ensures |asked| == |lines| && forall i :: 0 <= i < |lines| ==> asked[i] == Orders.ToReserveLine(lines[i])
  {
    seq(|lines|, i requires 0 <= i < |lines| => Orders.ToReserveLine(lines[i]))
  }

  predicate At(w: World, id: Ordering.OrderId, stage: Stage) {
    id in w.calls && w.calls[id].stage == stage
  }

  function InStage(w: World, id: Ordering.OrderId, stage: Stage): World
    requires id in w.calls
  {
    w.(calls := w.calls[id := w.calls[id].(stage := stage)])
  }

  function RouteOf(m: Warehouse.Message): Subscriber.Route {
    if m.ConfirmRequested? then Subscriber.ToConfirm else Subscriber.ToRelease
  }

  // ---------- What each event does ----------

  /** Only the stored items change. */
  ghost predicate StockEvent(w: World, e: Event, n: World) {
    && n == w.(stock := n.stock)
    && match e
       case Replenish(skuText, quantity, freshId, refused) =>
         Inventory.AfterReplenish(w.stock, skuText, quantity, freshId, refused, n.stock)
       case ReleaseArrives(id, refused) =>
         At(w, id, Failed) && Inventory.AfterRelease(w.stock, w.calls[id].order.ref.text, refused, n.stock)
       case Sweep(at, batch, picked) =>
         at <= w.now && batch > 0 && Inventory.AfterSweep(w.stock, at, batch, picked, n.stock)
       case _ => false
  }

  ghost predicate ReserveEvent(w: World, id: Ordering.OrderId, lines: seq<Allocation.Line>, stamps: seq<Time>, ttl: int,
                               refused: Option<Inventory.ReserveError>, n: World)
  {
    && id in w.calls && !w.calls[id].applied
    && (w.calls[id].stage.Asking? || w.calls[id].stage.GivenUp?)
    && |stamps| == |w.calls[id].order.lines|
    && Inventory.AfterReserve(w.stock, w.calls[id].order.ref.text, AskedLines(w.calls[id].order.lines),
                              lines, stamps, ttl, refused, n.stock)
    && n == w.(stock := n.stock, calls := w.calls[id := w.calls[id].(applied := refused.None?)])
  }

  ghost predicate CallEvent(w: World, e: Event, n: World) {
    match e
    case Place(o) => Placeable(w, o) && n == w.(calls := w.calls[o.id := Call(o, Asking, false)])
    case ReserveAnswered(id) => At(w, id, Asking) && w.calls[id].applied && n == InStage(w, id, Granted)
    case ReserveGivenUp(id) => At(w, id, Asking) && n == InStage(w, id, GivenUp)
    case StoreFails(id) => At(w, id, Granted) && n == InStage(w, id, Failed)
    case _ => false
  }

  /** An order is stored together with its message. */
  ghost predicate Sends(w: World, m: Orders.Message, n: World) {
    && Outbox.Enabled(w.relay, Outbox.Commit([m]))
    && n.relay == Outbox.Step(w.relay, Outbox.Commit([m]))
  }

  ghost predicate StoreEvent(w: World, id: Ordering.OrderId, messageId: Outbox.Id, n: World) {
    && At(w, id, Granted)
    && Sends(w, Orders.ConfirmMessage(messageId, w.calls[id].order.ref), n)
    && n == InStage(w, id, Kept).(orders := Orders.AfterStore(w.orders, w.calls[id].order), relay := n.relay)
  }

  ghost predicate CancelEvent(w: World, idText: string, messageId: Outbox.Id, refused: Option<Ordering.OrderError>,
                              sent: Option<Ordering.ReservationRef>, n: World)
  {
    && Orders.AfterCancel(w.orders, idText, refused, n.orders, sent)
    && (if sent.Some? then Sends(w, Orders.CancelMessage(messageId, sent.value), n) else n.relay == w.relay)
    && n == w.(orders := n.orders, relay := n.relay)
  }

  /** The consumer handles the next message of a relay; the relay may not hear of it. */
  ghost predicate HandOverEvent(w: World, r: Outbox.RelayId, acknowledged: bool,
                                refused: Option<Subscriber.ConsumeError>, n: World) {
    && Outbox.Enabled(w.relay, Outbox.Publish(r))
    && var m := w.relay.relays[r].batch[0].body;
    && Subscriber.Consumed(w.stock, RouteOf(m), Subscriber.Readable(m.ref.text), refused, n.stock)
    && (acknowledged ==> refused.None?)
    && n == w.(stock := n.stock, relay := if acknowledged then Outbox.Step(w.relay, Outbox.Publish(r)) else w.relay)
  }

  ghost predicate RelayEvent(w: World, a: Outbox.Action<Warehouse.Message>, n: World) {
    && !a.Commit? && !a.Publish? && Outbox.Enabled(w.relay, a)
    && n == w.(relay := Outbox.Step(w.relay, a))
  }

  ghost predicate Next(w: World, e: Event, n: World) {
    match e
    case ReserveArrives(id, lines, stamps, ttl, refused) => ReserveEvent(w, id, lines, stamps, ttl, refused, n)
    case Store(id, messageId) => StoreEvent(w, id, messageId, n)
    case Cancel(idText, messageId, refused, sent) => CancelEvent(w, idText, messageId, refused, sent, n)
    case Relay(a) => RelayEvent(w, a, n)
    case HandOver(r, acknowledged, refused) => HandOverEvent(w, r, acknowledged, refused, n)
    case Tick(to) => to >= w.now && n == w.(now := to)
    case _ => StockEvent(w, e, n) || CallEvent(w, e, n)
  }

  /** `ws` are the worlds before, between and after the events. */
  ghost predicate History(ws: seq<World>, es: seq<Event>) {
    |ws| == |es| + 1 && forall i :: 0 <= i < |es| ==> Next(ws[i], es[i], ws[i + 1])
  }
}
