/**
 What each inventory use case does to all stock items at once, and what follows for sequences of
 them: messages may arrive in any order and any number of times, and repeated sweeps drain every
 expired reservation.
 */
module Warehouse {
  import opened Common
  import opened Stock
  import opened Allocation

  function Holding(ls: Levels, ref: Ref): set<Sku> {
    set s | s in ls && ref in ls[s].reservations
  }

  function ConfirmOne(l: Level, ref: Ref): Level {
    if ref in l.reservations then ConfirmLevel(l, ref).value else l
  }

  /** Confirming a reference confirms it on every item that holds it. */
  function ConfirmAll(ls: Levels, ref: Ref): Levels {
    map s | s in ls :: ConfirmOne(ls[s], ref)
  }

  function ReleaseAll(ls: Levels, ref: Ref): Levels {
    map s | s in ls :: ReleaseLevel(ls[s], ref)
  }

  /** The same, but only for items that were found to hold the reference some time before. */
  function ConfirmFound(ls: Levels, ref: Ref, found: set<Sku>): Levels {
    map s | s in ls :: if s in found then ConfirmOne(ls[s], ref) else ls[s]
  }

  function ReleaseFound(ls: Levels, ref: Ref, found: set<Sku>): Levels {
    map s | s in ls :: if s in found then ReleaseLevel(ls[s], ref) else ls[s]
  }

  /** As long as no other item came to hold it since, that makes no difference. */
  lemma FoundAreAll(ls: Levels, ref: Ref, found: set<Sku>)
    requires Holding(ls, ref) <= found
    ensures ConfirmFound(ls, ref, found) == ConfirmAll(ls, ref)
    ensures ReleaseFound(ls, ref, found) == ReleaseAll(ls, ref)
  {
    forall s | s in ls && s !in found ensures ref !in ls[s].reservations {
      assert s !in Holding(ls, ref);
    }
  }

  function ReserveAll(ls: Levels, ref: Ref, lines: seq<Line>, stamps: seq<Time>, ttl: int): Levels
    requires |lines| == |stamps|
  {
    map s | s in ls :: Allotted(ls[s], s, ref, lines, stamps, ttl, |lines|)
  }

  /** More units of a SKU; an unknown one starts out empty. */
  function Restocked(ls: Levels, sku: Sku, qty: nat): Levels {
    ls[sku := if sku in ls then ls[sku].(available := ls[sku].available + qty) else Level(qty, map[])]
  }

  /** The SKUs with something for the reaper to free. */
  function Affected(ls: Levels, now: Time): set<Sku> {
    set s | s in ls && Expired(ls[s], now) != {}
  }

  /** A sweep reaps the items it picked; its batch limit may leave others for later. */
  ghost function SweepSome(ls: Levels, now: Time, picked: set<Sku>): Levels {
    map s | s in ls :: if s in picked then ReapLevel(ls[s], now) else ls[s]
  }

  ghost predicate AllWellFormed(ls: Levels) {
    forall s :: s in ls ==> WellFormed(ls[s])
  }

  // ---------- Conservation ----------

  /** Confirming, releasing and sweeping leave the amount on hand of every SKU as it was. */
  lemma UseCasesConserve(ls: Levels, ref: Ref, now: Time, picked: set<Sku>, s: Sku)
    requires s in ls && AllWellFormed(ls)
    ensures OnHand(ConfirmAll(ls, ref)[s]) == OnHand(ls[s]) && WellFormed(ConfirmAll(ls, ref)[s])
    ensures OnHand(ReleaseAll(ls, ref)[s]) == OnHand(ls[s]) && WellFormed(ReleaseAll(ls, ref)[s])
    ensures OnHand(SweepSome(ls, now, picked)[s]) == OnHand(ls[s]) && WellFormed(SweepSome(ls, now, picked)[s])
  {
    if ref in ls[s].reservations { OpConserves(ls[s], Confirm(ref)); }
    OpConserves(ls[s], Release(ref));
    OpConserves(ls[s], Reap(now));
  }

  /** So does reserving, which moves units from free to held. */
  lemma ReserveConserves(ls: Levels, ref: Ref, lines: seq<Line>, stamps: seq<Time>, ttl: int, s: Sku)
    requires s in ls && WellFormed(ls[s]) && |lines| == |stamps|
    requires Verdict(ls, ref, lines, |lines|).None?
    ensures OnHand(ReserveAll(ls, ref, lines, stamps, ttl)[s]) == OnHand(ls[s])
    ensures WellFormed(ReserveAll(ls, ref, lines, stamps, ttl)[s])
  {
    AllocationHolds(ls, ref, lines, stamps, ttl, s);
    VerdictMeans(ls, ref, lines, |lines|);
    var next := ReserveAll(ls, ref, lines, stamps, ttl)[s];
    if next != ls[s] {
      assert forall k :: k in next.reservations && k != ref ==> k in (next.reservations - {ref});
    }
  }

  /** Reserving again under the same reference succeeds and changes nothing, whatever the clock says
      by then. */
  lemma ReservingAgain(ls: Levels, ref: Ref, lines: seq<Line>, stamps: seq<Time>, later: seq<Time>, ttl: int)
    requires |lines| == |stamps| == |later| && Verdict(ls, ref, lines, |lines|).None?
    ensures var n := ReserveAll(ls, ref, lines, stamps, ttl);
      Verdict(n, ref, lines, |lines|).None? && ReserveAll(n, ref, lines, later, ttl) == n
  {
    hide Verdict, Allotted, Asked, FirstLine;
    var n := ReserveAll(ls, ref, lines, stamps, ttl);
    AcceptedIfAllServed(ls, ref, lines);
    forall s | s in ls
      ensures Asked(lines, s, |lines|) ==> ref in n[s].reservations
    {
      AllocationHolds(ls, ref, lines, stamps, ttl, s);
    }
    forall i | 0 <= i < |lines| ensures Serves(n, ref, lines[i]) {
      AskedMeans(lines, lines[i].sku, |lines|);
      assert Serves(ls, ref, lines[i]);
    }
    AcceptedIfAllServed(n, ref, lines);
    forall s | s in ls ensures ReserveAll(n, ref, lines, later, ttl)[s] == n[s] {
      AllocationHolds(n, ref, lines, later, ttl, s);
    }
  }

  // ---------- Delivery of messages ----------

  datatype Message = ConfirmRequested(ref: Ref) | OrderCancelled(ref: Ref)

  /** The consumers. A confirmation that finds nothing to confirm is a harmless no-op. */
  function Deliver(ls: Levels, m: Message): Levels {
    match m
    case ConfirmRequested(ref) => if Holding(ls, ref) == {} then ls else ConfirmAll(ls, ref)
    case OrderCancelled(ref) => ReleaseAll(ls, ref)
  }

  function DeliverAll(ls: Levels, ms: seq<Message>): Levels {
    if ms == [] then ls else Deliver(DeliverAll(ls, ms[..|ms| - 1]), ms[|ms| - 1])
  }

  function SetOf(ms: seq<Message>): set<Message> {
    set m | m in ms
  }

  function Confirmed(ms: set<Message>): set<Ref> {
    set m | m in ms && m.ConfirmRequested? :: m.ref
  }

  function Cancelled(ms: set<Message>): set<Ref> {
    set m | m in ms && m.OrderCancelled? :: m.ref
  }

  /** Where a level ends up once every message of a set has been delivered: cancelled references
      are gone and their units free again, the confirmed ones among the rest are confirmed. */
  ghost function Settled(l: Level, ms: set<Message>): Level {
    var kept := l.reservations - Cancelled(ms);
    Level(l.available + Total(Restrict(l.reservations, Cancelled(ms))),
          map r | r in kept :: if r in Confirmed(ms) then ConfirmReservation(kept[r]) else kept[r])
  }

  lemma SettledNothing(l: Level)
    ensures Settled(l, {}) == l
  {
    assert Restrict(l.reservations, Cancelled({})) == map[];
    assert l.reservations - Cancelled({}) == l.reservations;
  }

  lemma SettledConfirm(l: Level, ms: set<Message>, ref: Ref)
    ensures ConfirmOne(Settled(l, ms), ref) == Settled(l, ms + {ConfirmRequested(ref)})
  {
    var more := ms + {ConfirmRequested(ref)};
    assert Confirmed(more) == Confirmed(ms) + {ref} by {
      assert ConfirmRequested(ref) in more;
    }
    assert Cancelled(more) == Cancelled(ms);
    assert ConfirmOne(Settled(l, ms), ref).reservations == Settled(l, more).reservations;
  }

  lemma SettledCancel(l: Level, ms: set<Message>, ref: Ref)
    ensures ReleaseLevel(Settled(l, ms), ref) == Settled(l, ms + {OrderCancelled(ref)})
  {
    var more := ms + {OrderCancelled(ref)};
    assert Cancelled(more) == Cancelled(ms) + {ref} by {
      assert OrderCancelled(ref) in more;
    }
    assert Confirmed(more) == Confirmed(ms);
    var freed, freedMore := Restrict(l.reservations, Cancelled(ms)), Restrict(l.reservations, Cancelled(more));
    if ref in l.reservations && ref !in Cancelled(ms) {
      TotalRemove(freedMore, ref);
      assert freedMore - {ref} == freed;
    } else {
      assert freedMore == freed;
    }
    assert ReleaseLevel(Settled(l, ms), ref).reservations == Settled(l, more).reservations;
  }

  function DeliverOne(l: Level, m: Message): Level {
    match m
    case ConfirmRequested(ref) => ConfirmOne(l, ref)
    case OrderCancelled(ref) => ReleaseLevel(l, ref)
  }

  lemma DeliverIsLocal(ls: Levels, m: Message)
    ensures Deliver(ls, m) == map s | s in ls :: DeliverOne(ls[s], m)
  {
    if Holding(ls, m.ref) == {} {
      forall s | s in ls ensures DeliverOne(ls[s], m) == ls[s] {
        assert s !in Holding(ls, m.ref);
      }
    }
  }

  lemma SettledOneMore(l: Level, ms: set<Message>, m: Message)
    ensures DeliverOne(Settled(l, ms), m) == Settled(l, ms + {m})
  {
    match m
    case ConfirmRequested(ref) => SettledConfirm(l, ms, ref);
    case OrderCancelled(ref) => SettledCancel(l, ms, ref);
  }

  /** Delivery depends only on which messages arrived. */
  lemma {:induction false} DeliverySettles(ls: Levels, ms: seq<Message>)
    ensures DeliverAll(ls, ms).Keys == ls.Keys
    ensures forall s :: s in ls ==> DeliverAll(ls, ms)[s] == Settled(ls[s], SetOf(ms))
  {
    if ms == [] {
      forall s | s in ls ensures Settled(ls[s], SetOf(ms)) == ls[s] {
        assert SetOf(ms) == {};
        SettledNothing(ls[s]);
      }
    } else {
      var before, m := ms[..|ms| - 1], ms[|ms| - 1];
      DeliverySettles(ls, before);
      assert SetOf(ms) == SetOf(before) + {m} by {
        assert ms == before + [m];
      }
      DeliverIsLocal(DeliverAll(ls, before), m);
      forall s | s in ls ensures DeliverAll(ls, ms)[s] == Settled(ls[s], SetOf(ms)) {
        SettledOneMore(ls[s], SetOf(before), m);
      }
    }
  }

  /** Any two deliveries of the same messages, in whatever order and however often each message
      is repeated, leave every SKU with the same free amount and the same reservations. */
  lemma DeliveryConverges(ls: Levels, a: seq<Message>, b: seq<Message>)
    requires forall m :: m in a <==> m in b
    ensures DeliverAll(ls, a) == DeliverAll(ls, b)
  {
    DeliverySettles(ls, a);
    DeliverySettles(ls, b);
    assert SetOf(a) == SetOf(b);
  }

  // ---------- Confirmed stock over time ----------

  datatype UseCase =
    | DoReplenish(sku: Sku, qty: nat)
    | DoReserve(ref: Ref, lines: seq<Line>, stamps: seq<Time>, ttl: int)
    | DoConfirm(ref: Ref)
    | DoRelease(ref: Ref)
    | DoSweep(now: Time, picked: set<Sku>)

  /** The levels after a use case; a refused one changes nothing. */
  ghost function After(ls: Levels, u: UseCase): Levels {
    match u
    case DoReplenish(sku, qty) =>
      if qty == 0 then ls else Restocked(ls, sku, qty)
    case DoReserve(ref, lines, stamps, ttl) =>
      if |stamps| != |lines| || Verdict(ls, ref, lines, |lines|).Some? then ls
      else ReserveAll(ls, ref, lines, stamps, ttl)
    case DoConfirm(ref) => ConfirmAll(ls, ref)
    case DoRelease(ref) => ReleaseAll(ls, ref)
    case DoSweep(now, picked) => SweepSome(ls, now, picked)
  }

  ghost function AfterAll(ls: Levels, us: seq<UseCase>): Levels {
    if us == [] then ls else After(AfterAll(ls, us[..|us| - 1]), us[|us| - 1])
  }

  ghost predicate ConfirmedAs(ls: Levels, s: Sku, ref: Ref, r: Reservation) {
    && s in ls && ref in ls[s].reservations && ls[s].reservations[ref] == r
    && r.status.Confirmed?
  }

  lemma ConfirmedThrough(ls: Levels, u: UseCase, s: Sku, ref: Ref, r: Reservation)
    requires ConfirmedAs(ls, s, ref, r) && u != DoRelease(ref)
    ensures ConfirmedAs(After(ls, u), s, ref, r)
  {
  }

  /** Once confirmed, a reservation stays exactly as it is through any sequence of replenishments,
      reservations, confirmations, sweeps at any time, and releases of other references. */
  lemma {:induction false} ConfirmedUntilReleased(ls: Levels, ref: Ref, us: seq<UseCase>, s: Sku)
    requires s in Holding(ls, ref) && DoRelease(ref) !in us
    ensures ConfirmedAs(AfterAll(ConfirmAll(ls, ref), us), s, ref, ConfirmReservation(ls[s].reservations[ref]))
    decreases |us|
  {
    if us != [] {
      assert DoRelease(ref) !in us[..|us| - 1];
      ConfirmedUntilReleased(ls, ref, us[..|us| - 1], s);
      ConfirmedThrough(AfterAll(ConfirmAll(ls, ref), us[..|us| - 1]), us[|us| - 1], s, ref,
                       ConfirmReservation(ls[s].reservations[ref]));
    }
  }

  // ---------- Sweeping ----------

  /** A sweep drains exactly the items it picked and brings up nothing new. */
  lemma SweepDrains(ls: Levels, now: Time, picked: set<Sku>)
    ensures Affected(SweepSome(ls, now, picked), now) == Affected(ls, now) - picked
  {
    forall s | s in ls
      ensures s in Affected(SweepSome(ls, now, picked), now) <==> s in Affected(ls, now) - picked
    {
      assert s in picked ==> Expired(ReapLevel(ls[s], now), now) == {};
    }
  }

  /** A conflict-free sweep picks as many affected items as its batch allows. */
  ghost predicate Picks(ls: Levels, now: Time, batch: nat, picked: set<Sku>) {
    && picked <= Affected(ls, now)
    && |picked| == if |Affected(ls, now)| <= batch then |Affected(ls, now)| else batch
  }

  /** Sweeping again and again at one instant, whatever items each sweep happens to pick. */
  ghost predicate Sweeps(from: Levels, now: Time, batch: nat, picks: seq<set<Sku>>, to: Levels) {
    if picks == [] then to == from
    else Picks(from, now, batch, picks[0]) && Sweeps(SweepSome(from, now, picks[0]), now, batch, picks[1..], to)
  }

  /** After n sweeps all but n batches of the affected items are done; enough sweeps leave
      nothing expired anywhere. */
  lemma {:induction false} SweepsFinish(from: Levels, now: Time, batch: nat, picks: seq<set<Sku>>, to: Levels)
    requires batch > 0 && Sweeps(from, now, batch, picks, to)
    ensures |Affected(to, now)| == if |Affected(from, now)| <= |picks| * batch then 0
      else |Affected(from, now)| - |picks| * batch
  {
    if picks != [] {
      var mid := SweepSome(from, now, picks[0]);
      SweepDrains(from, now, picks[0]);
      SubsetDifference(Affected(from, now), picks[0]);
      SweepsFinish(mid, now, batch, picks[1..], to);
      OneBatchMore(|picks[1..]|, batch);
    }
  }

  lemma NothingExpired(l: Level, now: Time)
    ensures Expired(l, now) == {} ==> ReapLevel(l, now) == l
    ensures ReapLevel(ReapLevel(l, now), now) == ReapLevel(l, now)
  {
    assert Restrict(l.reservations, {}) == map[] && l.reservations - {} == l.reservations;
    var after := ReapLevel(l, now);
    assert Expired(after, now) == {};
    assert Restrict(after.reservations, {}) == map[] && after.reservations - {} == after.reservations;
  }

  /** What the sweeps did on the way: an item they drained is exactly what one reaping of it
      gives, the others are as they were. */
  lemma {:induction false} SweepsOnlyReap(from: Levels, now: Time, batch: nat, picks: seq<set<Sku>>, to: Levels)
    requires Sweeps(from, now, batch, picks, to)
    ensures to == map s | s in from :: if s in Affected(to, now) then from[s] else ReapLevel(from[s], now)
  {
    if picks == [] {
      forall s | s in from && s !in Affected(from, now) ensures ReapLevel(from[s], now) == from[s] {
        NothingExpired(from[s], now);
      }
    } else {
      var mid := SweepSome(from, now, picks[0]);
      SweepsOnlyReap(mid, now, batch, picks[1..], to);
      forall s | s in from
        ensures to[s] == if s in Affected(to, now) then from[s] else ReapLevel(from[s], now)
      {
        NothingExpired(from[s], now);
      }
    }
  }

  lemma OneBatchMore(n: nat, batch: nat)
    ensures (n + 1) * batch == n * batch + batch && n * batch >= 0
  {
  }

  lemma SubsetDifference<T>(a: set<T>, b: set<T>)
    requires b <= a
    ensures |a - b| == |a| - |b|
  {
    assert a == (a - b) + b;
  }
}
