/**
 The consumers of the ordering service's messages and the router that picks one by message type.
 What a delivery does to the stored levels is `Warehouse.Deliver`, so everything proved there about
 repeated and reordered deliveries holds of the stored rows.
 */
module Subscriber {
  import opened Common
  import opened Stock
  import opened StockStore
  import opened MemoryStock
  import opened Warehouse
  import opened InventoryUseCases
  import UseCases = InventoryUseCases

  /** The decoded payload, if decoding worked; a missing field decodes as "". */
  datatype Payload = Unreadable | Readable(reservationRef: string)

  datatype ConsumeError = NoRoute | BadPayload | Refused(reason: StockError)

  datatype MessageType = MessageType(text: string)

  const CONFIRM_TYPE := MessageType("ordering.reservation.confirm_requested")
  const CANCELLED_TYPE := MessageType("ordering.order.cancelled")

  datatype Route = ToConfirm | ToRelease

  /** The reference a payload is about, if it names one at all. */
  function Addressee(p: Payload): Option<Ref> {
    if p.Readable? && p.reservationRef != "" && NewRef(p.reservationRef).Ok?
    then Some(NewRef(p.reservationRef).value) else None
  }

  /** The levels after the delivery, and the rows that were rewritten for it. */
  ghost predicate Delivered(before: View, m: Message, after: View) {
    && after == Touched(before, Deliver(LevelsOf(before), m), Holding(LevelsOf(before), m.ref))
    && LevelsOf(after) == Deliver(LevelsOf(before), m)
  }

  function MessageFor(route: Route, ref: Ref): Message {
    if route.ToConfirm? then ConfirmRequested(ref) else OrderCancelled(ref)
  }

  /** The stored items after a consumer has handled a payload: a payload that names no reference is
      refused, any other is delivered. */
  ghost predicate Consumed(v: View, route: Route, p: Payload, err: Option<ConsumeError>, after: View) {
    match Addressee(p)
    case None => err.Some? && after == v
    case Some(ref) => err == None && Delivered(v, MessageFor(route, ref), after)
  }

  lemma DeliveredConfirm(v: View, ref: Ref)
    ensures Holding(LevelsOf(v), ref) == {} ==> Delivered(v, ConfirmRequested(ref), v)
    ensures Holding(LevelsOf(v), ref) != {} ==>
      Delivered(v, ConfirmRequested(ref), Touched(v, ConfirmAll(LevelsOf(v), ref), Holding(LevelsOf(v), ref)))
  {
    var ls := LevelsOf(v);
    forall s | s in v && s !in Holding(ls, ref) ensures ConfirmAll(ls, ref)[s] == ls[s] {
      assert ref !in ls[s].reservations;
    }
  }

  lemma DeliveredCancel(v: View, ref: Ref)
    ensures Delivered(v, OrderCancelled(ref), Touched(v, ReleaseAll(LevelsOf(v), ref), Holding(LevelsOf(v), ref)))
  {
    var ls := LevelsOf(v);
    forall s | s in v && s !in Holding(ls, ref) ensures ReleaseAll(ls, ref)[s] == ls[s] {
      assert ref !in ls[s].reservations;
    }
  }

  /** Confirms; finding nothing to confirm is no error, so that the message is not sent again. */
  method OnConfirmReservation(rows: StockRows, p: Payload) returns (err: Option<ConsumeError>)
    requires rows.Valid()
    modifies rows
    ensures rows.Valid() && Consumed(old(rows.view), ToConfirm, p, err, rows.view)
  {
    hide Touched, Delivered;
    if p.Unreadable? || p.reservationRef == "" {
      return Some(BadPayload);
    }
    if NewRef(p.reservationRef).Ok? { DeliveredConfirm(rows.view, NewRef(p.reservationRef).value); }
    var e, events, xs := UseCases.Confirm(rows, p.reservationRef);
    if e == Some(ReservationNotFound) || e == None {
      return None;
    }
    return Some(ConsumeError.Refused(e.value));
  }

  method OnOrderCancelled(rows: StockRows, p: Payload) returns (err: Option<ConsumeError>)
    requires rows.Valid()
    modifies rows
    ensures rows.Valid() && Consumed(old(rows.view), ToRelease, p, err, rows.view)
  {
    hide Touched, Delivered;
    if p.Unreadable? || p.reservationRef == "" {
      return Some(BadPayload);
    }
    if NewRef(p.reservationRef).Ok? { DeliveredCancel(rows.view, NewRef(p.reservationRef).value); }
    var e, events, xs := UseCases.Release(rows, p.reservationRef);
    if e.None? {
      return None;
    }
    return Some(ConsumeError.Refused(e.value));
  }

  /** Routes by message type; a later registration of a type replaces the earlier one, and a
      message without a route is refused rather than dropped. */
  class Router {
    var routes: map<MessageType, Route>

    constructor ()
      ensures routes == map[]
    {
      routes := map[];
    }

    method Register(msgType: MessageType, route: Route)
      modifies this
      ensures routes == old(routes)[msgType := route]
    {
      routes := routes[msgType := route];
    }

    method Deliver(rows: StockRows, msgType: MessageType, p: Payload) returns (err: Option<ConsumeError>)
      requires rows.Valid()
      modifies rows
      ensures rows.Valid()
      ensures msgType !in routes ==> err == Some(NoRoute) && rows.view == old(rows.view)
      ensures msgType in routes ==> Consumed(old(rows.view), routes[msgType], p, err, rows.view)
    {
      hide Consumed;
      if msgType !in routes {
        return Some(NoRoute);
      }
      match routes[msgType] {
        case ToConfirm => err := OnConfirmReservation(rows, p);
        case ToRelease => err := OnOrderCancelled(rows, p);
      }
    }
  }

  /** The inventory service's own routes. */
  method InventoryRouter() returns (router: Router)
    ensures fresh(router) && router.routes == map[CONFIRM_TYPE := ToConfirm, CANCELLED_TYPE := ToRelease]
  {
    router := new Router();
    router.Register(CONFIRM_TYPE, ToConfirm);
    router.Register(CANCELLED_TYPE, ToRelease);
  }
}
