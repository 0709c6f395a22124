/**
 The events of a stock item tell its whole story: folding them over the starting amounts gives
 back the free amount and every holder, each event's figures are right where it stands, and a
 depletion is announced exactly when a reservation takes the last unit.
 */
module StockReplay {
  import opened Common
  import opened Stock

  datatype Held = Held(qty: nat, status: Status)

  /** What events can tell about a level: everything but the deadlines. */
  datatype Ledger = Ledger(available: int, held: map<Ref, Held>)

  function Snapshot(l: Level): Ledger {
    Ledger(l.available, map r | r in l.reservations :: Held(l.reservations[r].qty, l.reservations[r].status))
  }

  function ApplyEvent(g: Ledger, e: Event): Ledger {
    match e
    case StockReplenished(_, added, _) => g.(available := g.available + added)
    case StockReserved(_, ref, qty, _) => Ledger(g.available - qty, g.held[ref := Held(qty, Pending)])
    case StockDepleted(_) => g
    case StockReservationConfirmed(_, ref) =>
      if ref in g.held then g.(held := g.held[ref := g.held[ref].(status := Confirmed)]) else g
    case StockReleased(_, ref, qty, _) => Ledger(g.available + qty, g.held - {ref})
  }

  function Replay(g: Ledger, es: seq<Event>): Ledger {
    if es == [] then g else ApplyEvent(Replay(g, es[..|es| - 1]), es[|es| - 1])
  }

  /** The event is right for an item whose amounts are `g` just before it. */
  predicate Truthful(g: Ledger, sku: Sku, e: Event) {
    && e.sku == sku
    && match e
       case StockReplenished(_, added, available) => added > 0 && available == g.available + added
       case StockReserved(_, ref, qty, available) => qty > 0 && ref !in g.held && available == g.available - qty
       case StockDepleted(_) => g.available == 0
       case StockReservationConfirmed(_, ref) => ref in g.held && g.held[ref].status.Pending?
       case StockReleased(_, ref, qty, available) =>
         ref in g.held && g.held[ref].qty == qty && available == g.available + qty
  }

  ghost predicate AllTruthful(g: Ledger, sku: Sku, es: seq<Event>) {
    forall i :: 0 <= i < |es| ==> Truthful(Replay(g, es[..i]), sku, es[i])
  }

  predicate TakesLast(e: Event) {
    e.StockReserved? && e.available == 0
  }

  predicate MarkedAt(es: seq<Event>, i: nat)
    requires i <= |es|
  {
    (i < |es| && es[i].StockDepleted?) <==> (i > 0 && TakesLast(es[i - 1]))
  }

  /** A depletion follows each reservation that took the last unit, and nothing else. */
  ghost predicate DepletionsMarked(es: seq<Event>) {
    forall i :: 0 <= i <= |es| ==> MarkedAt(es, i)
  }

  // ---------- One operation after another ----------

  /** One step of a stock item's life: an operation, and the way a reaper walked the map. */
  datatype LifeStep = LifeStep(op: ItemOp, trail: Trail)

  ghost predicate Possible(l: Level, s: LifeStep) {
    s.op.Reap? ==> Visits(s.trail, Expired(l, s.op.now))
  }

  /** The level an operation leaves; a refused one leaves the level alone. */
  ghost function NextLevel(l: Level, s: LifeStep): Level {
    match ApplyOp(l, s.op)
    case Ok(next) => next
    case Err(_) => l
  }

  /** The events the methods of the stock item record (or return, for the reaper). */
  ghost function StepEvents(l: Level, sku: Sku, s: LifeStep): seq<Event> {
    match s.op
    case Replenish(qty) => if qty == 0 then [] else [StockReplenished(sku, qty, l.available + qty)]
    case Reserve(ref, qty, expiresAt) =>
      if ReserveLevel(l, ref, qty, expiresAt).Ok? then ReserveEvents(l, sku, ref, qty) else []
    case Confirm(ref) => ConfirmEvents(l, sku, ref)
    case Release(ref) => ReleaseEvents(l, sku, ref)
    case Reap(_) => WalkEvents(l, sku, s.trail)
  }

  ghost function LifeLevel(l: Level, life: seq<LifeStep>): Level {
    if life == [] then l else NextLevel(LifeLevel(l, life[..|life| - 1]), life[|life| - 1])
  }

  ghost function LifeEvents(l: Level, sku: Sku, life: seq<LifeStep>): seq<Event> {
    if life == [] then []
    else
      var before := life[..|life| - 1];
      LifeEvents(l, sku, before) + StepEvents(LifeLevel(l, before), sku, life[|life| - 1])
  }

  ghost predicate PossibleLife(l: Level, life: seq<LifeStep>) {
    life != [] ==>
      var before := life[..|life| - 1];
      PossibleLife(l, before) && Possible(LifeLevel(l, before), life[|life| - 1])
  }

  // ---------- Proofs ----------

  /** `es` is a correct account of getting from `l` to `next`. */
  ghost predicate Accounts(l: Level, sku: Sku, es: seq<Event>, next: Level) {
    && Replay(Snapshot(l), es) == Snapshot(next)
    && AllTruthful(Snapshot(l), sku, es)
    && DepletionsMarked(es)
  }

  lemma {:induction false} ReplayConcat(g: Ledger, a: seq<Event>, b: seq<Event>)
    ensures Replay(g, a + b) == Replay(Replay(g, a), b)
  {
    if b == [] {
      assert a + b == a;
    } else {
      assert (a + b)[..|a + b| - 1] == a + b[..|b| - 1];
      ReplayConcat(g, a, b[..|b| - 1]);
    }
  }

  lemma AccountsConcat(l: Level, sku: Sku, a: seq<Event>, mid: Level, b: seq<Event>, next: Level)
    requires Accounts(l, sku, a, mid) && Accounts(mid, sku, b, next)
    ensures Accounts(l, sku, a + b, next)
  {
    var g := Snapshot(l);
    ReplayConcat(g, a, b);
    forall i | 0 <= i < |a + b| ensures Truthful(Replay(g, (a + b)[..i]), sku, (a + b)[i]) {
      if i < |a| {
        assert (a + b)[..i] == a[..i];
      } else {
        assert (a + b)[..i] == a + b[..i - |a|];
        ReplayConcat(g, a, b[..i - |a|]);
      }
    }
    forall i | 0 <= i <= |a + b| ensures MarkedAt(a + b, i) {
      assert MarkedAt(a, |a|) && MarkedAt(b, 0);
      assert if i < |a| then MarkedAt(a, i) else MarkedAt(b, i - |a|);
    }
  }

  lemma AccountsNothing(l: Level, sku: Sku)
    ensures Accounts(l, sku, [], l)
  {
  }

  lemma AccountsOne(l: Level, sku: Sku, e: Event, next: Level)
    requires Truthful(Snapshot(l), sku, e) && ApplyEvent(Snapshot(l), e) == Snapshot(next)
    requires !e.StockDepleted? && !TakesLast(e)
    ensures Accounts(l, sku, [e], next)
  {
    assert [e][..0] == [];
    assert Replay(Snapshot(l), [e]) == Snapshot(next);
  }

  lemma AccountsRelease(l: Level, sku: Sku, ref: Ref)
    ensures Accounts(l, sku, ReleaseEvents(l, sku, ref), ReleaseLevel(l, ref))
  {
    if ref in l.reservations {
      var next := ReleaseLevel(l, ref);
      var e := StockReleased(sku, ref, l.reservations[ref].qty, next.available);
      assert ApplyEvent(Snapshot(l), e).held == Snapshot(next).held;
      AccountsOne(l, sku, e, next);
    }
  }

  lemma AccountsReserve(l: Level, sku: Sku, ref: Ref, qty: nat, expiresAt: Time)
    requires ReserveLevel(l, ref, qty, expiresAt).Ok?
    ensures Accounts(l, sku, ReserveEvents(l, sku, ref, qty), ReserveLevel(l, ref, qty, expiresAt).value)
  {
    if ref !in l.reservations {
      var next := ReserveLevel(l, ref, qty, expiresAt).value;
      var e := StockReserved(sku, ref, qty, next.available);
      assert ApplyEvent(Snapshot(l), e).held == Snapshot(next).held;
      if next.available > 0 {
        AccountsOne(l, sku, e, next);
      } else {
        var es := [e, StockDepleted(sku)];
        assert es[..0] == [] && es[..1] == [e] && [e][..0] == [];
        assert ReserveEvents(l, sku, ref, qty) == es;
        assert Replay(Snapshot(l), [e]) == Snapshot(next);
      }
    }
  }

  lemma {:induction false} AccountsWalk(l: Level, sku: Sku, trail: Trail)
    ensures Accounts(l, sku, WalkEvents(l, sku, trail), WalkLevel(l, trail))
  {
    match trail
    case Start => AccountsNothing(l, sku);
    case Step(before, ref) =>
      AccountsWalk(l, sku, before);
      AccountsRelease(WalkLevel(l, before), sku, ref);
      AccountsConcat(l, sku, WalkEvents(l, sku, before), WalkLevel(l, before),
                     ReleaseEvents(WalkLevel(l, before), sku, ref), WalkLevel(l, trail));
  }

  lemma AccountsStep(l: Level, sku: Sku, s: LifeStep)
    requires Possible(l, s)
    ensures Accounts(l, sku, StepEvents(l, sku, s), NextLevel(l, s))
  {
    match s.op
    case Replenish(qty) =>
      if qty > 0 {
        AccountsOne(l, sku, StockReplenished(sku, qty, l.available + qty), NextLevel(l, s));
      }
    case Reserve(ref, qty, expiresAt) =>
      if ReserveLevel(l, ref, qty, expiresAt).Ok? { AccountsReserve(l, sku, ref, qty, expiresAt); }
    case Confirm(ref) =>
      if ref in l.reservations {
        var next := NextLevel(l, s);
        if l.reservations[ref].status.Pending? {
          var e := StockReservationConfirmed(sku, ref);
          assert ApplyEvent(Snapshot(l), e).held == Snapshot(next).held;
          AccountsOne(l, sku, e, next);
        } else {
          assert next == l;
        }
      }
    case Release(ref) => AccountsRelease(l, sku, ref);
    case Reap(now) =>
      AccountsWalk(l, sku, s.trail);
      WalkFrees(l, s.trail, Expired(l, now));
  }

  /** For every life of a stock item, whatever the operations, refused or not, and in whatever
      order its reapers walk, the recorded events account for it exactly. */
  lemma {:induction false} EventsReplayTheLife(l: Level, sku: Sku, life: seq<LifeStep>)
    requires PossibleLife(l, life)
    ensures Replay(Snapshot(l), LifeEvents(l, sku, life)) == Snapshot(LifeLevel(l, life))
    ensures AllTruthful(Snapshot(l), sku, LifeEvents(l, sku, life))
    ensures DepletionsMarked(LifeEvents(l, sku, life))
  {
    assert Accounts(l, sku, LifeEvents(l, sku, life), LifeLevel(l, life)) by {
      if life == [] {
        AccountsNothing(l, sku);
      } else {
        var before, last := life[..|life| - 1], life[|life| - 1];
        EventsReplayTheLife(l, sku, before);
        AccountsStep(LifeLevel(l, before), sku, last);
        AccountsConcat(l, sku, LifeEvents(l, sku, before), LifeLevel(l, before),
                       StepEvents(LifeLevel(l, before), sku, last), LifeLevel(l, life));
      }
    }
  }
}
