/**
 Placing and cancelling orders across the two services. Ordering reserves stock by a remote call,
 then stores the order and queues a confirm command in one transaction, and compensates if that
 fails; cancelling stores the cancellation and queues an event. Messages are delivered at least
 once, at any time and in any order, and a reaper frees pending reservations that expired.
 Confirming and releasing first look up the items that hold a reference and load them afterwards,
 so that other steps may come in between. The steps below may interleave in every way; the
 invariant holds in all of it.
 */
module Saga {
  import opened Common
  import opened Stock
  import opened Allocation
  import opened Warehouse

  datatype Phase =
    | Reserving     // the reserve call is out
    | Reserved      // it was acknowledged
    | Placed        // order and confirm command are committed
    | Compensating  // the commit failed; a release may or may not get through
    | Abandoned     // the reserve call was refused, or reported unavailable

  /** One placement; `applied` says that inventory carried the reservation out. */
  datatype Placement = Placement(lines: seq<Line>, phase: Phase, applied: bool)

  datatype Order = Order(cancelled: bool, version: nat)

  /** A cancellation that has loaded its order at some version and not yet saved. */
  datatype Cancelling = Cancelling(ref: Ref, version: nat)

  datatype Key = Key(sku: Sku, ref: Ref)

  /** Why inventory looks up a reference: a confirm command, a cancellation, or a release called to
      compensate. */
  datatype Job = ToConfirm | ToCancel | ToCompensate

  /** A job whose items have been looked up and are now being loaded one by one. */
  datatype Finding = Finding(job: Job, ref: Ref, found: set<Sku>)

  /** `deadline`, `swept`, `consumedAt`, `confirmedAt`, `missed` and `compensated` only record what
      happened: `consumedAt` when a confirm command was first consumed, `confirmedAt` when it first
      took effect, `missed` the items because of which a first consumption had none. */
  datatype State = State(
    stock: Levels,
    places: map<Ref, Placement>,
    orders: map<Ref, Order>,
    cancels: map<nat, Cancelling>,
    log: seq<Message>,
    queue: set<Message>,
    findings: map<nat, Finding>,
    consumed: set<Message>,
    now: Time,
    deadline: map<Key, Time>,
    swept: map<Key, Time>,
    consumedAt: map<Ref, Time>,
    confirmedAt: map<Ref, Time>,
    missed: map<Ref, Key>,
    compensated: set<Ref>)

  datatype Action =
    | Restock(sku: Sku, qty: nat)
    | Place(ref: Ref, lines: seq<Line>)
    | ReserveApplied(ref: Ref, stamps: seq<Time>, ttl: int)
    | ReserveAcknowledged(ref: Ref)
    | ReserveFailed(ref: Ref)
    | OrderCommitted(ref: Ref)
    | OrderLost(ref: Ref)
    | CancelLoaded(t: nat, ref: Ref)
    | CancelCommitted(t: nat)
    | CancelDropped(t: nat)
    | Found(d: nat, job: Job, ref: Ref)
    | ConfirmSettled(d: nat)
    | CancelSettled(d: nat)
    | CompensationSettled(d: nat)
    | Missed(d: nat, sku: Sku)
    | FindingDropped(d: nat)
    | MarkedPublished(m: Message)
    | Swept(at: Time, picked: set<Sku>)
    | Tick(to: Time)

  // ---------- The steps ----------

  /** The message that asks for the job is in the log, or the placement is being compensated. */
  predicate Due(s: State, job: Job, ref: Ref) {
    match job
    case ToConfirm => ConfirmRequested(ref) in s.log
    case ToCancel => OrderCancelled(ref) in s.log
    case ToCompensate => ref in s.places && s.places[ref].phase.Compensating?
  }

  predicate Enabled(s: State, a: Action) {
    match a
    case Restock(_, qty) => qty > 0
    case Place(ref, lines) => ref !in s.places && !ref.IsZero() && lines != []
    case ReserveApplied(ref, stamps, _) =>
      // the call may still arrive after the caller gave up on it
      && ref in s.places && !s.places[ref].applied
      && (s.places[ref].phase.Reserving? || s.places[ref].phase.Abandoned?)
      && |stamps| == |s.places[ref].lines|
      && Verdict(s.stock, ref, s.places[ref].lines, |s.places[ref].lines|).None?
    case ReserveAcknowledged(ref) => ref in s.places && s.places[ref].phase.Reserving? && s.places[ref].applied
    case ReserveFailed(ref) => ref in s.places && s.places[ref].phase.Reserving?
    case OrderCommitted(ref) => ref in s.places && s.places[ref].phase.Reserved?
    case OrderLost(ref) => ref in s.places && s.places[ref].phase.Reserved?
    case CancelLoaded(t, ref) => t !in s.cancels && ref in s.orders && !s.orders[ref].cancelled
    case CancelCommitted(t) =>
      && t in s.cancels && s.cancels[t].ref in s.orders
      && s.orders[s.cancels[t].ref].version == s.cancels[t].version
    case CancelDropped(t) => t in s.cancels
    case Found(d, job, ref) => d !in s.findings && Due(s, job, ref)
    case ConfirmSettled(d) =>
      // an item that changed after it was loaded makes the commit fail with a conflict
      d in s.findings && s.findings[d].job.ToConfirm? && s.findings[d].found <= Holding(s.stock, s.findings[d].ref)
    case CancelSettled(d) => d in s.findings && s.findings[d].job.ToCancel?
    case CompensationSettled(d) => d in s.findings && s.findings[d].job.ToCompensate?
    case Missed(d, sku) =>
      // one found item no longer held the reference when it was loaded: "not found", which the
      // consumer takes for a success
      && d in s.findings && s.findings[d].job.ToConfirm?
      && sku in s.findings[d].found && sku !in Holding(s.stock, s.findings[d].ref)
    case FindingDropped(d) => d in s.findings
    case MarkedPublished(m) => m in s.queue && m in s.consumed
    case Swept(at, _) => at <= s.now
    case Tick(to) => to >= s.now
  }

  function InPhase(s: State, ref: Ref, phase: Phase): State
    requires ref in s.places
  {
    s.(places := s.places[ref := s.places[ref].(phase := phase)])
  }

  /** The keys a sweep frees. */
  function Reaped(ls: Levels, at: Time, picked: set<Sku>): set<Key> {
    set sku, ref | sku in ls && sku in picked && ref in Expired(ls[sku], at) :: Key(sku, ref)
  }

  /** The keys a reservation call puts a deadline on. */
  function Asking(ls: Levels, lines: seq<Line>, ref: Ref): set<Key> {
    set sku | sku in ls && Asked(lines, sku, |lines|) :: Key(sku, ref)
  }

  function First(times: map<Ref, Time>, ref: Ref, now: Time): map<Ref, Time> {
    if ref in times then times else times[ref := now]
  }

  ghost function Step(s: State, a: Action): State
    requires Enabled(s, a)
  {
    match a
    case Restock(sku, qty) => s.(stock := Restocked(s.stock, sku, qty))
    case Place(ref, lines) => s.(places := s.places[ref := Placement(lines, Reserving, false)])
    case ReserveApplied(ref, stamps, ttl) =>
      var lines := s.places[ref].lines;
      s.(stock := ReserveAll(s.stock, ref, lines, stamps, ttl),
         places := s.places[ref := s.places[ref].(applied := true)],
         deadline := s.deadline + map k | k in Asking(s.stock, lines, ref) ::
                       if Asked(lines, k.sku, |lines|) then stamps[FirstLine(lines, k.sku, |lines|)] + ttl
                         else ZERO_TIME)
    case ReserveAcknowledged(ref) => InPhase(s, ref, Reserved)
    case ReserveFailed(ref) => InPhase(s, ref, Abandoned)
    case OrderCommitted(ref) =>
      InPhase(s, ref, Placed).(orders := s.orders[ref := Order(false, 1)],
                               log := s.log + [ConfirmRequested(ref)], queue := s.queue + {ConfirmRequested(ref)})
    case OrderLost(ref) => InPhase(s, ref, Compensating)
    case CancelLoaded(t, ref) => s.(cancels := s.cancels[t := Cancelling(ref, s.orders[ref].version)])
    case CancelCommitted(t) =>
      var ref := s.cancels[t].ref;
      s.(orders := s.orders[ref := Order(true, s.orders[ref].version + 1)], cancels := s.cancels - {t},
         log := s.log + [OrderCancelled(ref)], queue := s.queue + {OrderCancelled(ref)})
    case CancelDropped(t) => s.(cancels := s.cancels - {t})
    case Found(d, job, ref) => s.(findings := s.findings[d := Finding(job, ref, Holding(s.stock, ref))])
    case ConfirmSettled(d) =>
      var ref := s.findings[d].ref;
      s.(findings := s.findings - {d}, stock := ConfirmFound(s.stock, ref, s.findings[d].found),
         consumed := s.consumed + {ConfirmRequested(ref)},
         consumedAt := First(s.consumedAt, ref, s.now), confirmedAt := First(s.confirmedAt, ref, s.now))
    case CancelSettled(d) =>
      var ref := s.findings[d].ref;
      s.(findings := s.findings - {d}, stock := ReleaseFound(s.stock, ref, s.findings[d].found),
         consumed := s.consumed + {OrderCancelled(ref)})
    case CompensationSettled(d) =>
      var ref := s.findings[d].ref;
      s.(findings := s.findings - {d}, stock := ReleaseFound(s.stock, ref, s.findings[d].found),
         compensated := s.compensated + {ref})
    case Missed(d, sku) =>
      var ref := s.findings[d].ref;
      s.(findings := s.findings - {d}, consumed := s.consumed + {ConfirmRequested(ref)},
         consumedAt := First(s.consumedAt, ref, s.now),
         missed := if ref in s.consumedAt then s.missed else s.missed[ref := Key(sku, ref)])
    case FindingDropped(d) => s.(findings := s.findings - {d})
    case MarkedPublished(m) => s.(queue := s.queue - {m})
    case Swept(at, picked) =>
      s.(stock := SweepSome(s.stock, at, picked),
         swept := s.swept + map k | k in Reaped(s.stock, at, picked) :: at)
    case Tick(to) => s.(now := to)
  }

  ghost predicate Run(s: State, actions: seq<Action>, end: State)
    decreases |actions|
  {
    if actions == [] then end == s
    else Enabled(s, actions[0]) && Run(Step(s, actions[0]), actions[1..], end)
  }

  const INITIAL := State(map[], map[], map[], map[], [], {}, map[], {}, 1, map[], map[], map[], map[], map[], {})

  // ---------- The invariant ----------

  function Cell(ls: Levels, sku: Sku, ref: Ref): Option<Reservation> {
    if sku in ls && ref in ls[sku].reservations then Some(ls[sku].reservations[ref]) else None
  }

  predicate WasReserved(s: State, k: Key) {
    k.ref in s.places && s.places[k.ref].applied && Asked(s.places[k.ref].lines, k.sku, |s.places[k.ref].lines|)
  }

  /** The three things that can have taken a reservation away again. */
  predicate WasFreed(s: State, k: Key) {
    k in s.swept || OrderCancelled(k.ref) in s.consumed || k.ref in s.compensated
  }

  /** A reservation exists exactly if it was made and not taken away; it has the quantity of the
      order's first line for the SKU, and it is confirmed exactly once the confirm command has
      taken effect. Until then it has the deadline it was given. */
  predicate CellOk(s: State, k: Key) {
    var c := Cell(s.stock, k.sku, k.ref);
    && (k in s.deadline <==> WasReserved(s, k))
    && (c.Some? <==> WasReserved(s, k) && !WasFreed(s, k))
    && (c.Some? ==>
          && var lines := s.places[k.ref].lines;
          && c.value.ref == k.ref
          && c.value.qty == lines[FirstLine(lines, k.sku, |lines|)].qty
          && (c.value.status.Confirmed? <==> k.ref in s.confirmedAt)
          && (c.value.status.Pending? ==> c.value.expiresAt == s.deadline[k])
          && (c.value.status.Confirmed? ==> c.value.expiresAt == ZERO_TIME))
  }

  /** A sweep took a reservation only at or after its deadline, and never after its confirmation. */
  predicate SweptOk(s: State, k: Key) {
    k in s.swept ==>
      && k in s.deadline && s.deadline[k] != ZERO_TIME
      && s.deadline[k] <= s.swept[k] <= s.now
      && (k.ref in s.confirmedAt ==> s.swept[k] <= s.confirmedAt[k.ref])
  }

  predicate RefOk(s: State, ref: Ref) {
    && (ref in s.orders <==> ref in s.places && s.places[ref].phase.Placed?)
    && (ref in s.places
        && (s.places[ref].phase.Reserved? || s.places[ref].phase.Placed? || s.places[ref].phase.Compensating?)
        ==> s.places[ref].applied)
    && (ref in s.compensated ==> ref in s.places && s.places[ref].phase.Compensating?)
    && (ref in s.orders ==> s.orders[ref].version == if s.orders[ref].cancelled then 2 else 1)
    && (ConfirmRequested(ref) in s.log <==> ref in s.orders)
    && (OrderCancelled(ref) in s.log <==> ref in s.orders && s.orders[ref].cancelled)
  }

  /** The confirm command took effect when it was first consumed, or else one of the order's items
      had been swept, or the order cancelled, by then. */
  predicate ConsumedOk(s: State, ref: Ref) {
    && (ref in s.consumedAt <==> ConfirmRequested(ref) in s.consumed)
    && (ref in s.confirmedAt ==> ref in s.consumedAt && s.consumedAt[ref] <= s.confirmedAt[ref] <= s.now)
    && (ref in s.consumedAt ==> s.consumedAt[ref] <= s.now)
    && (ref in s.consumedAt && ref !in s.missed ==> ref in s.confirmedAt && s.confirmedAt[ref] == s.consumedAt[ref])
    && (ref in s.missed ==>
          && var k := s.missed[ref];
          && ref in s.consumedAt && k.ref == ref && WasReserved(s, k)
          && (OrderCancelled(ref) in s.consumed || (k in s.swept && s.swept[k] <= s.consumedAt[ref])))
  }

  /** Since the lookup no other item has come to hold the reference. */
  predicate FindingOk(s: State, f: Finding) {
    && Holding(s.stock, f.ref) <= f.found
    && (forall sku :: sku in f.found ==> WasReserved(s, Key(sku, f.ref)))
    && Due(s, f.job, f.ref)
  }

  ghost predicate LogOk(s: State) {
    && (forall i, j :: 0 <= i < j < |s.log| ==> s.log[i] != s.log[j])
    && (forall i :: 0 <= i < |s.log| && s.log[i].OrderCancelled? ==> ConfirmRequested(s.log[i].ref) in s.log[..i])
    && (forall m :: m in s.consumed ==> m in s.log)
    && (forall m :: m in s.queue ==> m in s.log)
    && (forall m :: m in s.log && m !in s.queue ==> m in s.consumed)
    && (forall t :: t in s.cancels ==> s.cancels[t].version == 1)
  }

  ghost predicate Inv(s: State) {
    && (forall k :: CellOk(s, k) && SweptOk(s, k))
    && (forall ref :: RefOk(s, ref) && ConsumedOk(s, ref))
    && (forall d :: d in s.findings ==> FindingOk(s, s.findings[d]))
    && LogOk(s)
  }

  // ---------- How the operations move one reservation ----------

  lemma CellAfterReserve(ls: Levels, ref: Ref, lines: seq<Line>, stamps: seq<Time>, ttl: int, k: Key)
    requires |lines| == |stamps| && Verdict(ls, ref, lines, |lines|).None?
    requires Cell(ls, k.sku, ref).None?
    ensures Asked(lines, k.sku, |lines|) ==> k.sku in ls
    ensures Cell(ReserveAll(ls, ref, lines, stamps, ttl), k.sku, k.ref) ==
      if k.ref == ref && Asked(lines, k.sku, |lines|)
      then var i := FirstLine(lines, k.sku, |lines|);
           Some(Reservation(ref, lines[i].qty, Pending, stamps[i] + ttl))
      else Cell(ls, k.sku, k.ref)
  {
    VerdictMeans(ls, ref, lines, |lines|);
    if Asked(lines, k.sku, |lines|) {
      assert LineError(ls, ref, lines[..|lines|][FirstLine(lines, k.sku, |lines|)]).None?;
    }
    if k.sku in ls {
      AllocationHolds(ls, ref, lines, stamps, ttl, k.sku);
      var next := Allotted(ls[k.sku], k.sku, ref, lines, stamps, ttl, |lines|);
      if k.ref != ref && next != ls[k.sku] {
        assert k.ref in next.reservations <==> k.ref in next.reservations - {ref};
      }
    }
  }

  /** The items found are all the items that hold the reference, whatever came in between. */
  lemma CellAfterFound(ls: Levels, ref: Ref, found: set<Sku>, k: Key)
    requires Holding(ls, ref) <= found
    ensures Cell(ConfirmFound(ls, ref, found), k.sku, k.ref) ==
      if k.ref == ref && Cell(ls, k.sku, k.ref).Some? then Some(ConfirmReservation(Cell(ls, k.sku, k.ref).value))
      else Cell(ls, k.sku, k.ref)
    ensures Cell(ReleaseFound(ls, ref, found), k.sku, k.ref) == if k.ref == ref then None else Cell(ls, k.sku, k.ref)
  {
    FoundAreAll(ls, ref, found);
  }

  lemma CellAfterSweep(ls: Levels, at: Time, picked: set<Sku>, k: Key)
    ensures Cell(SweepSome(ls, at, picked), k.sku, k.ref) ==
      if k in Reaped(ls, at, picked) then None else Cell(ls, k.sku, k.ref)
    ensures k in Reaped(ls, at, picked) ==> Cell(ls, k.sku, k.ref).Some? && Cell(ls, k.sku, k.ref).value.Reapable(at)
  {
  }

  // ---------- What each step leaves alone ----------

  predicate Settles(a: Action) {
    a.ConfirmSettled? || a.CancelSettled? || a.CompensationSettled?
  }

  lemma StockStays(s: State, a: Action)
    requires Enabled(s, a) && !Settles(a) && !a.Restock? && !a.ReserveApplied? && !a.Swept?
    ensures Step(s, a).stock == s.stock
  {
    hide ConfirmFound, ReleaseFound, ReserveAll, SweepSome, Restocked, Reaped, Asking, First, Holding;
  }

  lemma HoldRecordsStay(s: State, a: Action)
    requires Enabled(s, a)
    ensures var n := Step(s, a);
      && (!a.ReserveApplied? ==> n.deadline == s.deadline)
      && (!a.Swept? ==> n.swept == s.swept)
      && (!a.CompensationSettled? ==> n.compensated == s.compensated)
      && s.now <= n.now && (!a.Tick? ==> n.now == s.now)
  {
    hide ConfirmFound, ReleaseFound, ReserveAll, SweepSome, Restocked, Reaped, Asking, First, Holding;
  }

  lemma ConsumedStays(s: State, a: Action)
    requires Enabled(s, a) && !a.ConfirmSettled? && !a.CancelSettled? && !a.Missed?
    ensures Step(s, a).consumed == s.consumed
  {
    hide ConfirmFound, ReleaseFound, ReserveAll, SweepSome, Restocked, Reaped, Asking, First, Holding;
  }

  lemma ConfirmationRecordsStay(s: State, a: Action)
    requires Enabled(s, a) && !a.ConfirmSettled?
    ensures Step(s, a).confirmedAt == s.confirmedAt
    ensures !a.Missed? ==> Step(s, a).missed == s.missed && Step(s, a).consumedAt == s.consumedAt
  {
    hide ConfirmFound, ReleaseFound, ReserveAll, SweepSome, Restocked, Reaped, Asking, First, Holding;
  }

  lemma RecordsStay(s: State, a: Action)
    requires Enabled(s, a)
    ensures var n := Step(s, a);
      && (!a.ReserveApplied? ==> n.deadline == s.deadline)
      && (!a.Swept? ==> n.swept == s.swept)
      && (!a.ConfirmSettled? ==> n.confirmedAt == s.confirmedAt)
      && (!a.CompensationSettled? ==> n.compensated == s.compensated)
      && (!a.Missed? ==> n.missed == s.missed)
      && (!a.ConfirmSettled? && !a.Missed? ==> n.consumedAt == s.consumedAt)
      && (!a.ConfirmSettled? && !a.CancelSettled? && !a.Missed? ==> n.consumed == s.consumed)
      && s.now <= n.now && (!a.Tick? ==> n.now == s.now)
  {
    HoldRecordsStay(s, a);
    if a.ConfirmSettled? {
      assert Step(s, a).missed == s.missed;
    } else {
      hide Enabled, Step;
      ConfirmationRecordsStay(s, a);
      if !a.CancelSettled? && !a.Missed? {
        ConsumedStays(s, a);
      }
    }
  }

  lemma OrdersStay(s: State, a: Action)
    requires Enabled(s, a) && !a.OrderCommitted? && !a.CancelCommitted?
    ensures Step(s, a).orders == s.orders && Step(s, a).log == s.log
  {
    hide ConfirmFound, ReleaseFound, ReserveAll, SweepSome, Restocked, Reaped, Asking, First, Holding;
  }

  lemma QueueStays(s: State, a: Action)
    requires Enabled(s, a) && !a.OrderCommitted? && !a.CancelCommitted? && !a.MarkedPublished?
    ensures Step(s, a).queue == s.queue
  {
    hide ConfirmFound, ReleaseFound, ReserveAll, SweepSome, Restocked, Reaped, Asking, First, Holding;
  }

  lemma CancelsStay(s: State, a: Action)
    requires Enabled(s, a) && !a.CancelLoaded?
    ensures forall t :: t in Step(s, a).cancels ==> t in s.cancels && Step(s, a).cancels[t] == s.cancels[t]
  {
    hide ConfirmFound, ReleaseFound, ReserveAll, SweepSome, Restocked, Reaped, Asking, First, Holding;
  }

  lemma PlacesStay(s: State, a: Action, ref: Ref)
    requires Enabled(s, a)
    ensures ref in s.places ==> ref in Step(s, a).places && Step(s, a).places[ref].lines == s.places[ref].lines
    ensures ref in s.places && s.places[ref].applied ==> Step(s, a).places[ref].applied
    ensures !a.ReserveApplied? ==>
      (ref in Step(s, a).places && Step(s, a).places[ref].applied <==> ref in s.places && s.places[ref].applied)
  {
    hide ConfirmFound, ReleaseFound, ReserveAll, SweepSome, Restocked, Reaped, Asking, First, Holding;
  }

  // ---------- Every step keeps the invariant ----------

  /** All that is known of one reservation and its reference. */
  predicate Known(s: State, k: Key) {
    CellOk(s, k) && SweptOk(s, k) && RefOk(s, k.ref) && ConsumedOk(s, k.ref)
  }

  /** A reservation of the order itself: it did not exist before, and now does where it was asked. */
  lemma ReserveMakesCell(s: State, stamps: seq<Time>, ttl: int, k: Key)
    requires Enabled(s, ReserveApplied(k.ref, stamps, ttl)) && Known(s, k) && LogOk(s)
    ensures CellOk(Step(s, ReserveApplied(k.ref, stamps, ttl)), k)
      && SweptOk(Step(s, ReserveApplied(k.ref, stamps, ttl)), k)
  {
    hide ReserveAll, Asking, Verdict, Asked, FirstLine;
    var n, lines := Step(s, ReserveApplied(k.ref, stamps, ttl)), s.places[k.ref].lines;
    NotConsumedYet(s, k);
    CellAfterReserve(s.stock, k.ref, lines, stamps, ttl, k);
    DeadlinesSet(s, k.ref, stamps, ttl, k);
    assert n.swept == s.swept && n.consumed == s.consumed && n.compensated == s.compensated
      && n.confirmedAt == s.confirmedAt && n.now == s.now;
    hide Enabled, LogOk;
    assert !WasFreed(n, k);
    assert WasReserved(n, k) <==> Asked(lines, k.sku, |lines|);
  }

  /** Before the reservation is carried out nothing has happened to it. */
  lemma NotConsumedYet(s: State, k: Key)
    requires Known(s, k) && LogOk(s)
    requires k.ref in s.places && !s.places[k.ref].applied && !s.places[k.ref].phase.Placed?
    ensures !WasReserved(s, k) && !WasFreed(s, k) && k.ref !in s.confirmedAt
  {
  }

  lemma ReserveKeepsCells(s: State, ref: Ref, stamps: seq<Time>, ttl: int, k: Key)
    requires Enabled(s, ReserveApplied(ref, stamps, ttl)) && k.ref != ref
    requires CellOk(s, k) && SweptOk(s, k) && CellOk(s, Key(k.sku, ref)) && RefOk(s, ref)
    ensures CellOk(Step(s, ReserveApplied(ref, stamps, ttl)), k)
      && SweptOk(Step(s, ReserveApplied(ref, stamps, ttl)), k)
  {
    var n := Step(s, ReserveApplied(ref, stamps, ttl));
    assert !WasReserved(s, Key(k.sku, ref));
    CellAfterReserve(s.stock, ref, s.places[ref].lines, stamps, ttl, k);
    DeadlinesSet(s, ref, stamps, ttl, k);
    hide ReserveAll, Asking, Enabled, Verdict, Asked, FirstLine;
    assert WasReserved(n, k) == WasReserved(s, k);
  }

  lemma DeadlinesSet(s: State, ref: Ref, stamps: seq<Time>, ttl: int, k: Key)
    requires Enabled(s, ReserveApplied(ref, stamps, ttl))
    ensures var lines, n := s.places[ref].lines, Step(s, ReserveApplied(ref, stamps, ttl));
      if k.ref == ref && k.sku in s.stock && Asked(lines, k.sku, |lines|)
      then k in n.deadline && n.deadline[k] == stamps[FirstLine(lines, k.sku, |lines|)] + ttl
      else (k in n.deadline <==> k in s.deadline) && (k in s.deadline ==> n.deadline[k] == s.deadline[k])
  {
    var lines := s.places[ref].lines;
    assert k in Asking(s.stock, lines, ref) <==> k.ref == ref && k.sku in s.stock && Asked(lines, k.sku, |lines|);
  }

  lemma ConfirmKeepsCells(s: State, d: nat, k: Key)
    requires Known(s, k) && Enabled(s, ConfirmSettled(d)) && FindingOk(s, s.findings[d])
    ensures CellOk(Step(s, ConfirmSettled(d)), k) && SweptOk(Step(s, ConfirmSettled(d)), k)
  {
    var n := Step(s, ConfirmSettled(d));
    CellAfterFound(s.stock, s.findings[d].ref, s.findings[d].found, k);
    assert WasReserved(n, k) == WasReserved(s, k) && WasFreed(n, k) == WasFreed(s, k);
  }

  lemma CancelKeepsCells(s: State, d: nat, k: Key)
    requires Known(s, k) && Enabled(s, CancelSettled(d)) && FindingOk(s, s.findings[d])
    ensures CellOk(Step(s, CancelSettled(d)), k) && SweptOk(Step(s, CancelSettled(d)), k)
  {
    var n := Step(s, CancelSettled(d));
    CellAfterFound(s.stock, s.findings[d].ref, s.findings[d].found, k);
    assert WasReserved(n, k) == WasReserved(s, k) && WasFreed(n, k) == (WasFreed(s, k) || k.ref == s.findings[d].ref);
  }

  lemma CompensationKeepsCells(s: State, d: nat, k: Key)
    requires Known(s, k) && Enabled(s, CompensationSettled(d)) && FindingOk(s, s.findings[d])
    ensures CellOk(Step(s, CompensationSettled(d)), k) && SweptOk(Step(s, CompensationSettled(d)), k)
  {
    var n := Step(s, CompensationSettled(d));
    CellAfterFound(s.stock, s.findings[d].ref, s.findings[d].found, k);
    assert WasReserved(n, k) == WasReserved(s, k) && WasFreed(n, k) == (WasFreed(s, k) || k.ref == s.findings[d].ref);
  }

  lemma SweepKeepsCells(s: State, at: Time, picked: set<Sku>, k: Key)
    requires Inv(s) && Enabled(s, Swept(at, picked))
    ensures CellOk(Step(s, Swept(at, picked)), k) && SweptOk(Step(s, Swept(at, picked)), k)
  {
    assert CellOk(s, k) && SweptOk(s, k) && RefOk(s, k.ref);
    CellAfterSweep(s.stock, at, picked, k);
  }

  lemma OtherStepsKeepCells(s: State, a: Action, k: Key)
    requires CellOk(s, k) && SweptOk(s, k) && Enabled(s, a)
    requires !Settles(a) && !a.Restock? && !a.ReserveApplied? && !a.Swept?
    ensures CellOk(Step(s, a), k) && SweptOk(Step(s, a), k)
  {
    StockStays(s, a);
    RecordsStay(s, a);
    PlacesStay(s, a, k.ref);
    ReleasesStay(s, a, k.ref);
    hide Step, Enabled, Asked, FirstLine;
  }

  lemma ReleasesStay(s: State, a: Action, ref: Ref)
    requires Enabled(s, a) && !Settles(a)
    ensures OrderCancelled(ref) in Step(s, a).consumed <==> OrderCancelled(ref) in s.consumed
  {
    RecordsStay(s, a);
  }

  lemma RestockKeepsCells(s: State, sku: Sku, qty: nat, k: Key)
    requires CellOk(s, k) && SweptOk(s, k) && Enabled(s, Restock(sku, qty))
    ensures CellOk(Step(s, Restock(sku, qty)), k) && SweptOk(Step(s, Restock(sku, qty)), k)
  {
    var n := Step(s, Restock(sku, qty));
    assert Cell(n.stock, k.sku, k.ref) == Cell(s.stock, k.sku, k.ref);
    assert WasReserved(n, k) == WasReserved(s, k);
  }

  lemma CommitsKeepRef(s: State, a: Action, ref: Ref)
    requires Inv(s) && Enabled(s, a) && (a.OrderCommitted? || a.CancelCommitted?)
    ensures RefOk(Step(s, a), ref)
  {
    assert RefOk(s, ref);
    if a.CancelCommitted? { assert RefOk(s, s.cancels[a.t].ref); }
  }

  lemma PhasesKeepRef(s: State, a: Action, ref: Ref)
    requires Inv(s) && Enabled(s, a)
    requires a.Place? || a.ReserveApplied? || a.ReserveAcknowledged? || a.ReserveFailed? || a.OrderLost?
    ensures RefOk(Step(s, a), ref)
  {
    assert RefOk(s, ref) && RefOk(s, a.ref);
  }

  lemma CompensationKeepsRef(s: State, d: nat, ref: Ref)
    requires RefOk(s, ref) && Enabled(s, CompensationSettled(d)) && FindingOk(s, s.findings[d])
    ensures RefOk(Step(s, CompensationSettled(d)), ref)
  {
  }

  lemma StepKeepsRef(s: State, a: Action, ref: Ref)
    requires Inv(s) && Enabled(s, a)
    ensures RefOk(Step(s, a), ref)
  {
    assert RefOk(s, ref);
    match a
    case OrderCommitted(_) => CommitsKeepRef(s, a, ref);
    case CancelCommitted(_) => CommitsKeepRef(s, a, ref);
    case ConfirmSettled(_) =>
    case CancelSettled(_) =>
    case CompensationSettled(d) =>
      assert FindingOk(s, s.findings[d]);
      CompensationKeepsRef(s, d, ref);
    case Restock(_, _) =>
    case CancelLoaded(_, _) =>
    case CancelDropped(_) =>
    case Found(_, _, _) =>
    case Missed(_, _) =>
    case FindingDropped(_) =>
    case MarkedPublished(_) =>
    case Swept(_, _) =>
    case Tick(_) =>
    case _ => PhasesKeepRef(s, a, ref);
  }

  /** What a sweep frees had not been swept before. */
  lemma SweptOnce(s: State, at: Time, picked: set<Sku>, k: Key)
    requires Inv(s)
    ensures k in Reaped(s.stock, at, picked) ==> k !in s.swept
  {
    assert CellOk(s, k);
    CellAfterSweep(s.stock, at, picked, k);
  }

  lemma MissKeepsConsumed(s: State, d: nat, sku: Sku, ref: Ref)
    requires Enabled(s, Missed(d, sku)) && FindingOk(s, s.findings[d])
    requires ConsumedOk(s, ref) && Known(s, Key(sku, s.findings[d].ref))
    ensures ConsumedOk(Step(s, Missed(d, sku)), ref)
  {
    var n, k := Step(s, Missed(d, sku)), Key(sku, s.findings[d].ref);
    assert WasReserved(s, k) && Cell(s.stock, k.sku, k.ref).None?;
    assert WasReserved(n, k) == WasReserved(s, k);
    assert ref in s.missed ==> WasReserved(n, s.missed[ref]) == WasReserved(s, s.missed[ref]);
  }

  lemma ConfirmKeepsConsumed(s: State, d: nat, ref: Ref)
    requires ConsumedOk(s, ref) && Enabled(s, ConfirmSettled(d))
    ensures ConsumedOk(Step(s, ConfirmSettled(d)), ref)
  {
    assert ref in s.missed ==> WasReserved(Step(s, ConfirmSettled(d)), s.missed[ref]) == WasReserved(s, s.missed[ref]);
  }

  lemma CancelKeepsConsumed(s: State, d: nat, ref: Ref)
    requires ConsumedOk(s, ref) && Enabled(s, CancelSettled(d))
    ensures ConsumedOk(Step(s, CancelSettled(d)), ref)
  {
    assert ref in s.missed ==> WasReserved(Step(s, CancelSettled(d)), s.missed[ref]) == WasReserved(s, s.missed[ref]);
  }

  lemma OthersKeepConsumed(s: State, a: Action, ref: Ref)
    requires Inv(s) && Enabled(s, a) && !a.ConfirmSettled? && !a.CancelSettled? && !a.Missed?
    ensures ConsumedOk(Step(s, a), ref)
  {
    assert ConsumedOk(s, ref);
    RecordsStay(s, a);
    if ref in s.missed {
      PlacesStay(s, a, ref);
      SweptStays(s, a, s.missed[ref]);
    }
    hide Step, Enabled, Inv;
  }

  lemma SweptStays(s: State, a: Action, k: Key)
    requires Inv(s) && Enabled(s, a)
    ensures k in s.swept ==> k in Step(s, a).swept && Step(s, a).swept[k] == s.swept[k]
  {
    if a.Swept? {
      SweptOnce(s, a.at, a.picked, k);
    } else {
      RecordsStay(s, a);
    }
  }

  lemma StepKeepsConsumed(s: State, a: Action, ref: Ref)
    requires Inv(s) && Enabled(s, a)
    ensures ConsumedOk(Step(s, a), ref)
  {
    assert ConsumedOk(s, ref);
    if a.ConfirmSettled? {
      ConfirmKeepsConsumed(s, a.d, ref);
    } else if a.CancelSettled? {
      CancelKeepsConsumed(s, a.d, ref);
    } else if a.Missed? {
      assert FindingOk(s, s.findings[a.d]) && Known(s, Key(a.sku, s.findings[a.d].ref));
      MissKeepsConsumed(s, a.d, a.sku, ref);
    } else {
      OthersKeepConsumed(s, a, ref);
    }
  }

  /** Once a reservation has been carried out, no item comes to hold its reference any more. */
  lemma NoNewHolder(s: State, a: Action, k: Key)
    requires Inv(s) && Enabled(s, a) && k.ref in s.places && s.places[k.ref].applied
    requires Cell(s.stock, k.sku, k.ref).None?
    ensures Cell(Step(s, a).stock, k.sku, k.ref).None?
  {
    match a
    case ReserveApplied(ref, stamps, ttl) =>
      assert CellOk(s, Key(k.sku, ref));
      CellAfterReserve(s.stock, ref, s.places[ref].lines, stamps, ttl, k);
    case ConfirmSettled(d) =>
      assert FindingOk(s, s.findings[d]);
      CellAfterFound(s.stock, s.findings[d].ref, s.findings[d].found, k);
    case CancelSettled(d) =>
      assert FindingOk(s, s.findings[d]);
      CellAfterFound(s.stock, s.findings[d].ref, s.findings[d].found, k);
    case CompensationSettled(d) =>
      assert FindingOk(s, s.findings[d]);
      CellAfterFound(s.stock, s.findings[d].ref, s.findings[d].found, k);
    case Swept(at, picked) => CellAfterSweep(s.stock, at, picked, k);
    case _ =>
  }

  lemma DueMeansApplied(s: State, job: Job, ref: Ref)
    requires Inv(s) && Due(s, job, ref)
    ensures ref in s.places && s.places[ref].applied
  {
    assert RefOk(s, ref);
  }

  lemma DueStays(s: State, a: Action, job: Job, ref: Ref)
    requires Enabled(s, a) && Due(s, job, ref)
    ensures Due(Step(s, a), job, ref)
  {
    if !a.OrderCommitted? && !a.CancelCommitted? { OrdersStay(s, a); }
  }

  lemma StepKeepsFinding(s: State, a: Action, f: Finding)
    requires Inv(s) && Enabled(s, a) && FindingOk(s, f)
    ensures FindingOk(Step(s, a), f)
  {
    var n := Step(s, a);
    DueMeansApplied(s, f.job, f.ref);
    forall sku | sku in Holding(n.stock, f.ref) ensures sku in f.found {
      if sku !in Holding(s.stock, f.ref) { NoNewHolder(s, a, Key(sku, f.ref)); }
    }
    PlacesStay(s, a, f.ref);
    DueStays(s, a, f.job, f.ref);
  }

  lemma LookupFindsHolders(s: State, d: nat, job: Job, ref: Ref)
    requires Inv(s) && Enabled(s, Found(d, job, ref))
    ensures FindingOk(Step(s, Found(d, job, ref)), Finding(job, ref, Holding(s.stock, ref)))
  {
    forall sku | sku in Holding(s.stock, ref) ensures WasReserved(s, Key(sku, ref)) {
      assert CellOk(s, Key(sku, ref));
    }
  }

  lemma StepKeepsFindings(s: State, a: Action)
    requires Inv(s) && Enabled(s, a)
    ensures forall d :: d in Step(s, a).findings ==> FindingOk(Step(s, a), Step(s, a).findings[d])
  {
    var n := Step(s, a);
    forall d | d in n.findings ensures FindingOk(n, n.findings[d]) {
      if a.Found? && a.d == d {
        LookupFindsHolders(s, d, a.job, a.ref);
      } else {
        assert d in s.findings && n.findings[d] == s.findings[d];
        StepKeepsFinding(s, a, s.findings[d]);
      }
    }
  }

  /** A new message, its confirm command being in the log already if it is a cancellation. */
  lemma AppendKeepsLog(s: State, m: Message, n: State)
    requires LogOk(s) && m !in s.log
    requires m.OrderCancelled? ==> ConfirmRequested(m.ref) in s.log
    requires n.log == s.log + [m] && n.queue == s.queue + {m} && n.consumed == s.consumed
    requires forall t :: t in n.cancels ==> t in s.cancels && n.cancels[t] == s.cancels[t]
    ensures LogOk(n)
  {
    assert n.log[..|s.log|] == s.log;
    assert forall i :: 0 <= i < |s.log| ==> n.log[i] == s.log[i] && n.log[..i] == s.log[..i];
  }

  lemma QuietStepsKeepLog(s: State, a: Action)
    requires LogOk(s) && Enabled(s, a)
    requires !a.OrderCommitted? && !a.CancelLoaded? && !a.CancelCommitted?
    requires !a.ConfirmSettled? && !a.CancelSettled? && !a.Missed? && !a.MarkedPublished?
    ensures LogOk(Step(s, a))
  {
    OrdersStay(s, a);
    QueueStays(s, a);
    CancelsStay(s, a);
    RecordsStay(s, a);
    hide Step, Enabled;
  }

  lemma ConfirmConsumed(s: State, a: Action)
    requires Enabled(s, a) && (a.ConfirmSettled? || a.Missed?)
    ensures Step(s, a).consumed == s.consumed + {ConfirmRequested(s.findings[a.d].ref)}
    ensures s.findings[a.d].job.ToConfirm?
  {
    hide ConfirmFound;
  }

  lemma CancelConsumed(s: State, d: nat)
    requires Enabled(s, CancelSettled(d))
    ensures Step(s, CancelSettled(d)).consumed == s.consumed + {OrderCancelled(s.findings[d].ref)}
    ensures s.findings[d].job.ToCancel?
  {
    hide ReleaseFound;
  }

  /** One of the logged messages is consumed. */
  lemma ConsumptionKeepsLog(s: State, a: Action, m: Message)
    requires LogOk(s) && Enabled(s, a) && !a.OrderCommitted? && !a.CancelCommitted? && !a.CancelLoaded?
      && !a.MarkedPublished?
    requires m in s.log && Step(s, a).consumed == s.consumed + {m}
    ensures LogOk(Step(s, a))
  {
    OrdersStay(s, a);
    QueueStays(s, a);
    CancelsStay(s, a);
    hide Step, Enabled;
  }

  lemma MarkKeepsLog(s: State, m: Message)
    requires LogOk(s) && Enabled(s, MarkedPublished(m))
    ensures LogOk(Step(s, MarkedPublished(m)))
  {
  }

  lemma OrderStepsKeepLog(s: State, a: Action)
    requires LogOk(s) && Enabled(s, a) && (a.OrderCommitted? || a.CancelLoaded? || a.CancelCommitted?)
    requires RefOk(s, if a.CancelCommitted? then s.cancels[a.t].ref else a.ref)
    ensures LogOk(Step(s, a))
  {
    match a
    case OrderCommitted(ref) => AppendKeepsLog(s, ConfirmRequested(ref), Step(s, a));
    case CancelCommitted(t) => AppendKeepsLog(s, OrderCancelled(s.cancels[t].ref), Step(s, a));
    case CancelLoaded(t, ref) =>
  }

  lemma StepKeepsLog(s: State, a: Action)
    requires Inv(s) && Enabled(s, a)
    ensures LogOk(Step(s, a))
  {
    hide Step, LogOk;
    if a.OrderCommitted? || a.CancelLoaded? || a.CancelCommitted? {
      assert RefOk(s, if a.CancelCommitted? then s.cancels[a.t].ref else a.ref);
      OrderStepsKeepLog(s, a);
    } else if a.ConfirmSettled? || a.Missed? {
      ConfirmConsumed(s, a);
      assert FindingOk(s, s.findings[a.d]);
      ConsumptionKeepsLog(s, a, ConfirmRequested(s.findings[a.d].ref));
    } else if a.CancelSettled? {
      CancelConsumed(s, a.d);
      assert FindingOk(s, s.findings[a.d]);
      ConsumptionKeepsLog(s, a, OrderCancelled(s.findings[a.d].ref));
    } else if a.MarkedPublished? {
      MarkKeepsLog(s, a.m);
    } else {
      QuietStepsKeepLog(s, a);
    }
  }

  lemma StepKeepsInv(s: State, a: Action)
    requires Inv(s) && Enabled(s, a)
    ensures Inv(Step(s, a))
  {
    forall k ensures CellOk(Step(s, a), k) && SweptOk(Step(s, a), k) {
      match a
      case Restock(sku, qty) => RestockKeepsCells(s, sku, qty, k);
      case ReserveApplied(ref, stamps, ttl) =>
        assert Known(s, k) && CellOk(s, Key(k.sku, ref)) && RefOk(s, ref);
        if k.ref == ref {
          ReserveMakesCell(s, stamps, ttl, k);
        } else {
          ReserveKeepsCells(s, ref, stamps, ttl, k);
        }
      case ConfirmSettled(d) =>
        assert Known(s, k) && FindingOk(s, s.findings[d]);
        ConfirmKeepsCells(s, d, k);
      case CancelSettled(d) =>
        assert Known(s, k) && FindingOk(s, s.findings[d]);
        CancelKeepsCells(s, d, k);
      case CompensationSettled(d) =>
        assert Known(s, k) && FindingOk(s, s.findings[d]);
        CompensationKeepsCells(s, d, k);
      case Swept(at, picked) => SweepKeepsCells(s, at, picked, k);
      case _ => OtherStepsKeepCells(s, a, k);
    }
    forall ref ensures RefOk(Step(s, a), ref) && ConsumedOk(Step(s, a), ref) {
      StepKeepsRef(s, a, ref);
      StepKeepsConsumed(s, a, ref);
    }
    StepKeepsFindings(s, a);
    StepKeepsLog(s, a);
  }

  lemma {:induction false} RunKeepsInv(s: State, actions: seq<Action>, end: State)
    requires Inv(s) && Run(s, actions, end)
    ensures Inv(end)
    decreases |actions|
  {
    if actions != [] {
      StepKeepsInv(s, actions[0]);
      RunKeepsInv(Step(s, actions[0]), actions[1..], end);
    }
  }

  lemma Reachable(actions: seq<Action>, s: State)
    requires Run(INITIAL, actions, s)
    ensures Inv(s)
  {
    RunKeepsInv(INITIAL, actions, s);
  }

  // ---------- What holds in every run ----------

  /** Stock is confirmed only for orders that are durable, and then with the quantity of the
      order's first line for the SKU and no deadline. */
  lemma ConfirmedMeansDurable(actions: seq<Action>, s: State, k: Key)
    requires Run(INITIAL, actions, s)
    requires Cell(s.stock, k.sku, k.ref).Some? && Cell(s.stock, k.sku, k.ref).value.status.Confirmed?
    ensures k.ref in s.orders && k.ref in s.places
    ensures var lines := s.places[k.ref].lines;
      && Asked(lines, k.sku, |lines|)
      && Cell(s.stock, k.sku, k.ref).value ==
        Reservation(k.ref, lines[FirstLine(lines, k.sku, |lines|)].qty, Confirmed, ZERO_TIME)
  {
    Reachable(actions, s);
    assert CellOk(s, k) && RefOk(s, k.ref);
  }

  lemma SettlingMovesCell(s: State, a: Action, k: Key)
    requires Enabled(s, a) && Settles(a) && FindingOk(s, s.findings[a.d])
    ensures s.findings[a.d].ref != k.ref ==> Cell(Step(s, a).stock, k.sku, k.ref) == Cell(s.stock, k.sku, k.ref)
    ensures s.findings[a.d].ref == k.ref ==>
      Cell(Step(s, a).stock, k.sku, k.ref) ==
        if a.ConfirmSettled? && Cell(s.stock, k.sku, k.ref).Some?
        then Some(ConfirmReservation(Cell(s.stock, k.sku, k.ref).value)) else None
    ensures a.CompensationSettled? ==> s.places[s.findings[a.d].ref].phase.Compensating?
    ensures a.CancelSettled? ==> OrderCancelled(s.findings[a.d].ref) in s.log
  {
    CellAfterFound(s.stock, s.findings[a.d].ref, s.findings[a.d].found, k);
  }

  /** The step in which a delivered cancellation takes effect. */
  predicate DeliversCancellation(s: State, a: Action, ref: Ref) {
    a.CancelSettled? && a.d in s.findings && s.findings[a.d].ref == ref
  }

  /** What the invariant says of the reservation, and of what the step is about. */
  lemma StepKnows(s: State, a: Action, k: Key)
    requires Inv(s) && Enabled(s, a)
    ensures Known(s, k) && LogOk(s)
    ensures Settles(a) ==> a.d in s.findings && FindingOk(s, s.findings[a.d])
    ensures a.ReserveApplied? ==> RefOk(s, a.ref) && CellOk(s, Key(k.sku, a.ref))
  {
  }

  /** Once confirmed, a reservation survives every step of the whole system, of whatever order,
      unchanged, except the delivery of its own order's cancellation. */
  lemma OnlyCancellationFrees(s: State, a: Action, k: Key)
    requires Inv(s) && Enabled(s, a)
    requires Cell(s.stock, k.sku, k.ref).Some? && Cell(s.stock, k.sku, k.ref).value.status.Confirmed?
    ensures if DeliversCancellation(s, a, k.ref)
            then Cell(Step(s, a).stock, k.sku, k.ref).None? && k.ref in s.orders && s.orders[k.ref].cancelled
            else Cell(Step(s, a).stock, k.sku, k.ref) == Cell(s.stock, k.sku, k.ref)
  {
    hide Step, Enabled, Inv, FindingOk, LogOk, Asked, FirstLine;
    StepKnows(s, a, k);
    if Settles(a) {
      SettlingMovesCell(s, a, k);
    } else {
      ConfirmedCellStays(s, a, k);
    }
  }

  lemma ConfirmedCellStays(s: State, a: Action, k: Key)
    requires Enabled(s, a) && !Settles(a)
    requires Cell(s.stock, k.sku, k.ref).Some? && Cell(s.stock, k.sku, k.ref).value.status.Confirmed?
    requires a.ReserveApplied? ==> RefOk(s, a.ref) && CellOk(s, Key(k.sku, a.ref))
    ensures Cell(Step(s, a).stock, k.sku, k.ref) == Cell(s.stock, k.sku, k.ref)
  {
    if a.ReserveApplied? {
      assert !WasReserved(s, Key(k.sku, a.ref));
      CellAfterReserve(s.stock, a.ref, s.places[a.ref].lines, a.stamps, a.ttl, k);
    } else if a.Swept? {
      CellAfterSweep(s.stock, a.at, a.picked, k);
    } else if !a.Restock? {
      StockStays(s, a);
    }
  }

  lemma CancellationStays(s: State, a: Action, ref: Ref)
    requires Inv(s) && Enabled(s, a) && ref in s.orders && s.orders[ref].cancelled
    ensures ref in Step(s, a).orders && Step(s, a).orders[ref].cancelled
  {
    if a.OrderCommitted? {
      assert RefOk(s, a.ref);
    } else if !a.CancelCommitted? {
      OrdersStay(s, a);
      hide Step;
    }
  }

  /** A cancelled order stays cancelled. */
  lemma {:induction false} CancelledStays(s: State, actions: seq<Action>, end: State, ref: Ref)
    requires Inv(s) && Run(s, actions, end) && ref in s.orders && s.orders[ref].cancelled
    ensures ref in end.orders && end.orders[ref].cancelled
    decreases |actions|
  {
    if actions != [] {
      StepKeepsInv(s, actions[0]);
      CancellationStays(s, actions[0], ref);
      hide Step, Enabled, Inv;
      CancelledStays(Step(s, actions[0]), actions[1..], end, ref);
    }
  }

  /** So while its order stays confirmed, no run takes a confirmed reservation away or changes it. */
  lemma {:induction false} ConfirmedStockIsSafe(s: State, actions: seq<Action>, end: State, k: Key)
    requires Inv(s) && Run(s, actions, end)
    requires Cell(s.stock, k.sku, k.ref).Some? && Cell(s.stock, k.sku, k.ref).value.status.Confirmed?
    requires k.ref in end.orders && !end.orders[k.ref].cancelled
    ensures Cell(end.stock, k.sku, k.ref) == Cell(s.stock, k.sku, k.ref)
    decreases |actions|
  {
    if actions != [] {
      StepKeepsInv(s, actions[0]);
      OnlyCancellationFrees(s, actions[0], k);
      if DeliversCancellation(s, actions[0], k.ref) {
        CancelledStays(s, actions, end, k.ref);
      }
      ConfirmedStockIsSafe(Step(s, actions[0]), actions[1..], end, k);
    }
  }

  // ---------- Until the deadline ----------

  lemma FreedStays(s: State, a: Action, k: Key)
    requires Enabled(s, a) && WasFreed(s, k)
    ensures WasFreed(Step(s, a), k)
  {
    RecordsStay(s, a);
    hide ConfirmFound, ReleaseFound, ReserveAll, SweepSome, Restocked, Reaped, Asking, First, Holding;
  }

  lemma DeadlineStaysPut(s: State, a: Action, k: Key)
    requires CellOk(s, k) && Enabled(s, a) && k in s.deadline
    ensures k in Step(s, a).deadline && Step(s, a).deadline[k] == s.deadline[k]
  {
    RecordsStay(s, a);
    if a.ReserveApplied? { DeadlinesSet(s, a.ref, a.stamps, a.ttl, k); }
    hide ReserveAll, Asking;
  }

  lemma {:induction false} DeadlineStays(s: State, actions: seq<Action>, end: State, k: Key)
    requires Inv(s) && Run(s, actions, end) && k in s.deadline
    ensures k in end.deadline && end.deadline[k] == s.deadline[k]
    decreases |actions|
  {
    if actions != [] {
      StepKeepsInv(s, actions[0]);
      assert CellOk(s, k);
      DeadlineStaysPut(s, actions[0], k);
      hide Step, Enabled, Inv;
      DeadlineStays(Step(s, actions[0]), actions[1..], end, k);
    }
  }

  lemma GoneStep(s: State, a: Action, k: Key)
    requires CellOk(s, k) && Enabled(s, a) && CellOk(Step(s, a), k)
    requires k.ref in s.places && s.places[k.ref].applied && Cell(s.stock, k.sku, k.ref).None?
    ensures k.ref in Step(s, a).places && Step(s, a).places[k.ref].applied
    ensures Cell(Step(s, a).stock, k.sku, k.ref).None?
  {
    hide Step, Enabled, Cell, Asked, FirstLine;
    PlacesStay(s, a, k.ref);
    if WasFreed(s, k) { FreedStays(s, a, k); }
  }

  /** Once a reservation is gone it never comes back. */
  lemma {:induction false} GoneStaysGone(s: State, actions: seq<Action>, end: State, k: Key)
    requires Inv(s) && Run(s, actions, end)
    requires k.ref in s.places && s.places[k.ref].applied && Cell(s.stock, k.sku, k.ref).None?
    ensures Cell(end.stock, k.sku, k.ref).None?
    decreases |actions|
  {
    if actions != [] {
      StepKeepsInv(s, actions[0]);
      assert CellOk(s, k) && CellOk(Step(s, actions[0]), k);
      GoneStep(s, actions[0], k);
      hide Step, Enabled, Inv, Cell, CellOk;
      GoneStaysGone(Step(s, actions[0]), actions[1..], end, k);
    }
  }

  /** And it is not gone before its deadline, unless its order was cancelled or given up. */
  lemma HeldUntilDeadline(s: State, actions: seq<Action>, end: State, k: Key)
    requires Inv(s) && Run(s, actions, end) && Cell(s.stock, k.sku, k.ref).Some? && k in s.deadline
    requires s.deadline[k] == ZERO_TIME || end.now < s.deadline[k]
    requires OrderCancelled(k.ref) !in end.consumed && k.ref !in end.compensated
    ensures Cell(end.stock, k.sku, k.ref).Some?
  {
    DeadlineStays(s, actions, end, k);
    RunKeepsInv(s, actions, end);
    assert CellOk(end, k) && SweptOk(end, k);
  }

  // ---------- Log and orders ----------

  /** The log says exactly what became of the orders: one confirm command per durable order, one
      cancel event per cancelled order, after its confirm command, and nothing else, however many
      cancellations raced and retried. */
  lemma LogMatchesOrders(actions: seq<Action>, s: State)
    requires Run(INITIAL, actions, s)
    ensures forall i, j :: 0 <= i < j < |s.log| ==> s.log[i] != s.log[j]
    ensures forall ref :: ConfirmRequested(ref) in s.log <==> ref in s.orders
    ensures forall ref :: OrderCancelled(ref) in s.log <==> ref in s.orders && s.orders[ref].cancelled
    ensures forall i :: 0 <= i < |s.log| && s.log[i].OrderCancelled? ==> ConfirmRequested(s.log[i].ref) in s.log[..i]
  {
    Reachable(actions, s);
    forall ref
      ensures ConfirmRequested(ref) in s.log <==> ref in s.orders
      ensures OrderCancelled(ref) in s.log <==> ref in s.orders && s.orders[ref].cancelled
    {
      assert RefOk(s, ref);
    }
  }

  // ---------- When everything has come to rest ----------

  /** No placement is under way and every logged message has been taken off the queue. */
  predicate Quiescent(s: State) {
    && s.queue == {}
    && forall ref :: ref in s.places ==> !s.places[ref].phase.Reserving? && !s.places[ref].phase.Reserved?
  }

  /** A cancelled order then holds nothing anywhere. */
  lemma CancelledOrdersHoldNothing(actions: seq<Action>, s: State, k: Key)
    requires Run(INITIAL, actions, s) && Quiescent(s)
    requires k.ref in s.orders && s.orders[k.ref].cancelled
    ensures Cell(s.stock, k.sku, k.ref).None?
  {
    Reachable(actions, s);
    assert CellOk(s, k) && RefOk(s, k.ref);
  }

  /** What a confirmed order then holds: all that no sweep took, confirmed if its confirm command
      ever took effect and still pending if not. It can only have had no effect if a sweep had taken
      one of the order's own items, after the deadline, by the time it was first consumed. */
  lemma ConfirmedOrdersHoldTheirStock(actions: seq<Action>, s: State, k: Key)
    requires Run(INITIAL, actions, s) && Quiescent(s)
    requires k.ref in s.orders && !s.orders[k.ref].cancelled
    ensures k.ref in s.places && k.ref in s.consumedAt
    ensures var lines := s.places[k.ref].lines;
      if Asked(lines, k.sku, |lines|) && k !in s.swept
      then k in s.deadline &&
           Cell(s.stock, k.sku, k.ref) == Some(
             if k.ref in s.confirmedAt
             then Reservation(k.ref, lines[FirstLine(lines, k.sku, |lines|)].qty, Confirmed, ZERO_TIME)
             else Reservation(k.ref, lines[FirstLine(lines, k.sku, |lines|)].qty, Pending, s.deadline[k]))
      else Cell(s.stock, k.sku, k.ref) == None
    ensures k in s.swept ==>
      && k in s.deadline && s.deadline[k] != ZERO_TIME && s.deadline[k] <= s.swept[k]
      && (k.ref in s.confirmedAt ==> s.swept[k] <= s.confirmedAt[k.ref])
    ensures k.ref !in s.missed ==> k.ref in s.confirmedAt && s.confirmedAt[k.ref] == s.consumedAt[k.ref]
    ensures k.ref in s.missed ==>
      var w := s.missed[k.ref];
      w.ref == k.ref && WasReserved(s, w) && w in s.swept && s.swept[w] <= s.consumedAt[k.ref]
  {
    Reachable(actions, s);
    assert CellOk(s, k) && SweptOk(s, k) && RefOk(s, k.ref) && ConsumedOk(s, k.ref);
  }

  /** So if none of its items had been swept when its confirm command was first consumed, every SKU
      it asked for is confirmed with the quantity of the first line. */
  lemma ConfirmedInTime(actions: seq<Action>, s: State, k: Key)
    requires Run(INITIAL, actions, s) && Quiescent(s)
    requires k.ref in s.orders && !s.orders[k.ref].cancelled
    requires k.ref in s.consumedAt ==> forall w :: w in s.swept && w.ref == k.ref ==> s.swept[w] > s.consumedAt[k.ref]
    ensures k.ref in s.places
    ensures var lines := s.places[k.ref].lines;
      Asked(lines, k.sku, |lines|) ==>
        Cell(s.stock, k.sku, k.ref) ==
          Some(Reservation(k.ref, lines[FirstLine(lines, k.sku, |lines|)].qty, Confirmed, ZERO_TIME))
  {
    ConfirmedOrdersHoldTheirStock(actions, s, k);
  }

  /** In particular if the command was consumed before the first deadline of its items. */
  lemma ConfirmedBeforeDeadline(actions: seq<Action>, s: State, k: Key)
    requires Run(INITIAL, actions, s) && Quiescent(s)
    requires k.ref in s.orders && !s.orders[k.ref].cancelled
    requires k.ref in s.consumedAt ==>
      forall w :: w in s.deadline && w.ref == k.ref && s.deadline[w] != ZERO_TIME ==>
        s.deadline[w] > s.consumedAt[k.ref]
    ensures k.ref in s.places
    ensures var lines := s.places[k.ref].lines;
      Asked(lines, k.sku, |lines|) ==>
        Cell(s.stock, k.sku, k.ref) ==
          Some(Reservation(k.ref, lines[FirstLine(lines, k.sku, |lines|)].qty, Confirmed, ZERO_TIME))
  {
    Reachable(actions, s);
    assert forall w :: w in s.swept && w.ref == k.ref ==> SweptOk(s, w);
    ConfirmedInTime(actions, s, k);
  }

  /** And exactly: at rest all that a confirmed order asked for is confirmed if and only if no sweep
      ever took any of it. */
  lemma AllConfirmedIffNoneSwept(actions: seq<Action>, s: State, ref: Ref)
    requires Run(INITIAL, actions, s) && Quiescent(s)
    requires ref in s.orders && !s.orders[ref].cancelled
    ensures ref in s.places
    ensures (forall sku :: Asked(s.places[ref].lines, sku, |s.places[ref].lines|) ==>
              Cell(s.stock, sku, ref).Some? && Cell(s.stock, sku, ref).value.status.Confirmed?)
       <==> (forall sku :: Key(sku, ref) !in s.swept)
  {
    Reachable(actions, s);
    assert RefOk(s, ref) && ConsumedOk(s, ref);
    forall sku ensures CellOk(s, Key(sku, ref)) && SweptOk(s, Key(sku, ref)) {
    }
    if forall sku :: Key(sku, ref) !in s.swept {
      assert ref in s.missed ==> Key(s.missed[ref].sku, ref) == s.missed[ref];
      forall sku | Asked(s.places[ref].lines, sku, |s.places[ref].lines|)
        ensures Cell(s.stock, sku, ref).Some? && Cell(s.stock, sku, ref).value.status.Confirmed?
      {
        ConfirmedOrdersHoldTheirStock(actions, s, Key(sku, ref));
      }
    }
  }

  /** What is held without having been confirmed is pending until its deadline, and the next sweep
      to pick its item after that frees it: a stored order's remainder as much as anything else. */
  lemma UnconfirmedHoldsExpire(actions: seq<Action>, s: State, k: Key)
    requires Run(INITIAL, actions, s) && k.ref !in s.confirmedAt
    requires Cell(s.stock, k.sku, k.ref).Some?
    ensures Cell(s.stock, k.sku, k.ref).value.status.Pending?
    ensures k in s.deadline && Cell(s.stock, k.sku, k.ref).value.expiresAt == s.deadline[k]
    ensures forall at, picked ::
      Enabled(s, Swept(at, picked)) && k.sku in picked && s.deadline[k] != ZERO_TIME && s.deadline[k] <= at ==>
      Cell(Step(s, Swept(at, picked)).stock, k.sku, k.ref).None?
  {
    Reachable(actions, s);
    assert CellOk(s, k);
    hide Inv, SweepSome, Reaped;
    forall at, picked | Enabled(s, Swept(at, picked)) && k.sku in picked && s.deadline[k] != ZERO_TIME
      && s.deadline[k] <= at
      ensures Cell(Step(s, Swept(at, picked)).stock, k.sku, k.ref).None?
    {
      CellAfterSweep(s.stock, at, picked, k);
    }
  }

  /** An order that was never stored ends up with nothing confirmed, and with nothing at all once
      its compensation got through. */
  lemma LostOrdersHoldNothingConfirmed(actions: seq<Action>, s: State, k: Key)
    requires Run(INITIAL, actions, s) && k.ref !in s.orders
    requires Cell(s.stock, k.sku, k.ref).Some?
    ensures k.ref !in s.confirmedAt && k.ref !in s.compensated
    ensures Cell(s.stock, k.sku, k.ref).value.status.Pending?
  {
    Reachable(actions, s);
    assert CellOk(s, k) && RefOk(s, k.ref) && ConsumedOk(s, k.ref);
    UnconfirmedHoldsExpire(actions, s, k);
  }

  // ---------- A confirmation that had no effect ----------

  lemma {:induction false} OneMoreStep(s: State, actions: seq<Action>, mid: State, a: Action)
    requires Run(s, actions, mid) && Enabled(mid, a)
    ensures Run(s, actions + [a], Step(mid, a))
    decreases |actions|
  {
    if actions == [] {
      assert [a][1..] == [];
    } else {
      assert (actions + [a])[1..] == actions[1..] + [a];
      OneMoreStep(Step(s, actions[0]), actions[1..], mid, a);
    }
  }

  /** An order of one unit of each of two SKUs, whose reservation holds until time 2. */
  ghost predicate OneOrder(s: State, a: Sku, b: Sku, ref: Ref, phase: Phase) {
    && s.places == map[ref := Placement([Line(a, 1), Line(b, 1)], phase, true)]
    && s.findings == map[] && s.consumed == {} && s.consumedAt == map[] && s.swept == map[]
    && Cell(s.stock, a, ref) == Some(Reservation(ref, 1, Pending, 2))
    && Cell(s.stock, b, ref) == Some(Reservation(ref, 1, Pending, 2))
  }

  /** Stored, its confirm command queued. */
  ghost predicate Waiting(s: State, ref: Ref) {
    && s.orders == map[ref := Order(false, 1)]
    && s.log == [ConfirmRequested(ref)] && s.queue == {ConfirmRequested(ref)}
  }

  lemma Stocked(a: Sku, b: Sku, ref: Ref) returns (actions: seq<Action>, s: State)
    requires a != b && !ref.IsZero()
    ensures Run(INITIAL, actions, s) && Enabled(s, ReserveApplied(ref, [1, 1], 1))
    ensures s == INITIAL.(stock := s.stock, places := map[ref := Placement([Line(a, 1), Line(b, 1)], Reserving, false)])
    ensures s.stock == map[a := Level(1, map[]), b := Level(1, map[])]
  {
    var steps := [Restock(a, 1), Restock(b, 1), Place(ref, [Line(a, 1), Line(b, 1)])];
    var s1 := Step(INITIAL, steps[0]);
    var s2 := Step(s1, steps[1]);
    s := Step(s2, steps[2]);
    OneMoreStep(INITIAL, [], INITIAL, steps[0]);
    OneMoreStep(INITIAL, [] + [steps[0]], s1, steps[1]);
    actions := [] + [steps[0]] + [steps[1]] + [steps[2]];
    OneMoreStep(INITIAL, [] + [steps[0]] + [steps[1]], s2, steps[2]);
    var lines := s.places[ref].lines;
    assert LineError(s.stock, ref, lines[0]).None? && LineError(s.stock, ref, lines[1]).None?;
    assert Verdict(s.stock, ref, lines, 0).None? && Verdict(s.stock, ref, lines, 1).None?;
  }

  lemma ReservedBoth(a: Sku, b: Sku, ref: Ref) returns (actions: seq<Action>, s: State)
    requires a != b && !ref.IsZero()
    ensures Run(INITIAL, actions, s) && OneOrder(s, a, b, ref, Reserving)
    ensures s.orders == map[] && s.log == [] && s.queue == {} && s.now == 1
  {
    hide Run;
    var before, s0 := Stocked(a, b, ref);
    var lines := s0.places[ref].lines;
    assert Asked(lines, a, 1) && Asked(lines, b, 2) && !Asked(lines, b, 1) && !Asked(lines, a, 0)
      && !Asked(lines, b, 0);
    assert FirstLine(lines, a, 1) == 0 && FirstLine(lines, a, 2) == 0 && FirstLine(lines, b, 2) == 1;
    CellAfterReserve(s0.stock, ref, lines, [1, 1], 1, Key(a, ref));
    CellAfterReserve(s0.stock, ref, lines, [1, 1], 1, Key(b, ref));
    OneMoreStep(INITIAL, before, s0, ReserveApplied(ref, [1, 1], 1));
    hide ReserveAll, Asking, Verdict, Asked, FirstLine;
    actions, s := before + [ReserveApplied(ref, [1, 1], 1)], Step(s0, ReserveApplied(ref, [1, 1], 1));
  }

  lemma Stored(a: Sku, b: Sku, ref: Ref) returns (actions: seq<Action>, s: State)
    requires a != b && !ref.IsZero()
    ensures Run(INITIAL, actions, s) && OneOrder(s, a, b, ref, Placed) && Waiting(s, ref) && s.now == 1
  {
    var before, s0 := ReservedBoth(a, b, ref);
    OneMoreStep(INITIAL, before, s0, ReserveAcknowledged(ref));
    var s1 := Step(s0, ReserveAcknowledged(ref));
    OneMoreStep(INITIAL, before + [ReserveAcknowledged(ref)], s1, OrderCommitted(ref));
    hide Run;
    actions, s := before + [ReserveAcknowledged(ref)] + [OrderCommitted(ref)], Step(s1, OrderCommitted(ref));
  }

  lemma LookedUp(a: Sku, b: Sku, ref: Ref) returns (actions: seq<Action>, s: State)
    requires a != b && !ref.IsZero()
    ensures Run(INITIAL, actions, s) && Waiting(s, ref) && s.now == 2
    ensures s.findings.Keys == {0} && s.findings[0].job == ToConfirm && s.findings[0].ref == ref
      && a in s.findings[0].found
    ensures OneOrder(s.(findings := map[]), a, b, ref, Placed)
  {
    var before, s0 := Stored(a, b, ref);
    OneMoreStep(INITIAL, before, s0, Tick(2));
    var s1 := Step(s0, Tick(2));
    OneMoreStep(INITIAL, before + [Tick(2)], s1, Found(0, ToConfirm, ref));
    hide Run;
    actions, s := before + [Tick(2)] + [Found(0, ToConfirm, ref)], Step(s1, Found(0, ToConfirm, ref));
  }

  lemma SweptBetween(a: Sku, b: Sku, ref: Ref) returns (actions: seq<Action>, s: State)
    requires a != b && !ref.IsZero()
    ensures Run(INITIAL, actions, s) && Waiting(s, ref) && s.now == 2
    ensures s.places == map[ref := Placement([Line(a, 1), Line(b, 1)], Placed, true)]
    ensures Enabled(s, Missed(0, a)) && s.findings[0].ref == ref
    ensures Cell(s.stock, a, ref).None? && Cell(s.stock, b, ref) == Some(Reservation(ref, 1, Pending, 2))
  {
    hide Run, Reaped, SweepSome;
    var before, s0 := LookedUp(a, b, ref);
    OneMoreStep(INITIAL, before, s0, Swept(2, {a}));
    SweptAway(s0, 2, a, ref);
    CellAfterSweep(s0.stock, 2, {a}, Key(b, ref));
    actions, s := before + [Swept(2, {a})], Step(s0, Swept(2, {a}));
    assert Key(b, ref) !in Reaped(s0.stock, 2, {a}) by {
      NotPicked(s0, 2, {a}, Key(b, ref));
    }
  }

  lemma NotPicked(s: State, at: Time, picked: set<Sku>, k: Key)
    requires k.sku !in picked
    ensures k !in Reaped(s.stock, at, picked)
  {
  }

  lemma SweptAway(s: State, at: Time, sku: Sku, ref: Ref)
    requires at <= s.now && Cell(s.stock, sku, ref).Some? && Cell(s.stock, sku, ref).value.Reapable(at)
    ensures Cell(Step(s, Swept(at, {sku})).stock, sku, ref).None?
  {
    CellAfterSweep(s.stock, at, {sku}, Key(sku, ref));
  }

  lemma ConsumedWithoutEffect(a: Sku, b: Sku, ref: Ref) returns (actions: seq<Action>, s: State)
    requires a != b && !ref.IsZero()
    ensures Run(INITIAL, actions, s) && s.now == 2
    ensures s.orders == map[ref := Order(false, 1)] && s.queue == {} && ConfirmRequested(ref) in s.consumed
    ensures s.places == map[ref := Placement([Line(a, 1), Line(b, 1)], Placed, true)]
    ensures Cell(s.stock, a, ref).None? && Cell(s.stock, b, ref) == Some(Reservation(ref, 1, Pending, 2))
  {
    var before, s0 := SweptBetween(a, b, ref);
    OneMoreStep(INITIAL, before, s0, Missed(0, a));
    var s1 := Step(s0, Missed(0, a));
    OneMoreStep(INITIAL, before + [Missed(0, a)], s1, MarkedPublished(ConfirmRequested(ref)));
    hide Run;
    actions, s := before + [Missed(0, a)] + [MarkedPublished(ConfirmRequested(ref))],
      Step(s1, MarkedPublished(ConfirmRequested(ref)));
  }

  /** A sweep that frees one SKU between the lookup and the loading: the confirm command is consumed
      and off the queue, the order is confirmed, and its other SKU is left pending at rest, where a
      later sweep frees it. */
  lemma TornConfirmation(a: Sku, b: Sku, ref: Ref) returns (actions: seq<Action>, s: State)
    requires a != b && !ref.IsZero()
    ensures Run(INITIAL, actions, s) && Quiescent(s)
    ensures ref in s.orders && !s.orders[ref].cancelled && ConfirmRequested(ref) in s.consumed
    ensures Cell(s.stock, a, ref).None? && Cell(s.stock, b, ref) == Some(Reservation(ref, 1, Pending, 2))
    ensures Enabled(s, Swept(2, {b})) && Cell(Step(s, Swept(2, {b})).stock, b, ref).None?
  {
    actions, s := ConsumedWithoutEffect(a, b, ref);
    SweptAway(s, 2, b, ref);
    hide Run, Step;
  }
}
