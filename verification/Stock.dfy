/**
 The stock item aggregate of the inventory context: how much of one SKU is free, and who
 holds the rest. `Level` is the value the operations transform; the functions below say what
 each operation does to it, and class `StockItem` performs them in place.
 */
module Stock {
  import opened Common

  /** A stock keeping unit. */
  datatype Sku = Sku(text: string)

  /** The opaque correlation id a reservation is filed under. */
  datatype Ref = Ref(text: string) {
    predicate IsZero() { text == "" }
  }

  datatype Status = Pending | Confirmed

  datatype Reservation = Reservation(ref: Ref, qty: nat, status: Status, expiresAt: Time) {
    predicate IsExpired(now: Time) {
      expiresAt != ZERO_TIME && expiresAt <= now
    }

    /** What the reaper may free: a pending reservation whose time is up. */
    predicate Reapable(now: Time) {
      status.Pending? && IsExpired(now)
    }
  }

  type Holders = map<Ref, Reservation>

  datatype Level = Level(available: nat, reservations: Holders)

  const EMPTY_LEVEL := Level(0, map[])

  datatype StockError =
    | InvalidRef
    | InvalidQuantity
    | InsufficientStock
    | ReservationNotFound
    | StockItemNotFound
    | ConcurrencyConflict

  datatype Event =
    | StockReplenished(sku: Sku, added: nat, available: nat)
    | StockReserved(sku: Sku, ref: Ref, qty: nat, available: nat)
    | StockDepleted(sku: Sku)
    | StockReservationConfirmed(sku: Sku, ref: Ref)
    | StockReleased(sku: Sku, ref: Ref, qty: nat, available: nat)

  // ---------- Totals over a reservation map ----------

  /** The sum of all reserved quantities. */
  ghost function Total(rs: Holders): nat
    decreases |rs|
  {
    if rs == map[] then 0
    else
      var k :| k in rs;
      rs[k].qty + Total(rs - {k})
  }

  function Restrict(rs: Holders, ks: set<Ref>): Holders {
    map k | k in rs && k in ks :: rs[k]
  }

  /** The sum does not depend on which reservation is counted first. */
  lemma {:induction false} TotalRemove(rs: Holders, k: Ref)
    requires k in rs
    ensures Total(rs) == rs[k].qty + Total(rs - {k})
    decreases |rs|
  {
    var k0 :| k0 in rs && Total(rs) == rs[k0].qty + Total(rs - {k0});
    if k0 != k {
      TotalRemove(rs - {k0}, k);
      TotalRemove(rs - {k}, k0);
      assert rs - {k0} - {k} == rs - {k} - {k0};
    }
  }

  lemma TotalAdd(rs: Holders, k: Ref, r: Reservation)
    requires k !in rs
    ensures Total(rs[k := r]) == Total(rs) + r.qty
  {
    TotalRemove(rs[k := r], k);
    assert rs[k := r] - {k} == rs;
  }

  lemma TotalReplace(rs: Holders, k: Ref, r: Reservation)
    requires k in rs && r.qty == rs[k].qty
    ensures Total(rs[k := r]) == Total(rs)
  {
    TotalRemove(rs, k);
    TotalRemove(rs[k := r], k);
    assert rs[k := r] - {k} == rs - {k};
  }

  /** Splitting the holders in two splits the total. */
  lemma {:induction false} TotalSplit(rs: Holders, ks: set<Ref>)
    ensures Total(rs) == Total(rs - ks) + Total(Restrict(rs, ks))
    decreases |rs|
  {
    if rs == map[] {
      assert rs - ks == rs && Restrict(rs, ks) == rs;
    } else {
      var k :| k in rs;
      TotalSplit(rs - {k}, ks);
      TotalRemove(rs, k);
      if k in ks {
        TotalRemove(Restrict(rs, ks), k);
        assert Restrict(rs, ks) - {k} == Restrict(rs - {k}, ks);
        assert rs - {k} - ks == rs - ks;
      } else {
        TotalRemove(rs - ks, k);
        assert rs - ks - {k} == rs - {k} - ks;
        assert Restrict(rs - {k}, ks) == Restrict(rs, ks);
      }
    }
  }

  lemma {:induction false} TotalAtLeast(rs: Holders, k: Ref)
    requires k in rs
    ensures rs[k].qty <= Total(rs)
  {
    TotalRemove(rs, k);
  }

  // ---------- What each operation does to a level ----------

  /** The amount on hand: what is free plus what is held. */
  ghost function OnHand(l: Level): nat {
    l.available + Total(l.reservations)
  }

  /** At most one reservation per reference (it is a map), each filed under its own reference,
      each of at least one unit, and confirmed ones without a deadline. */
  ghost predicate WellFormed(l: Level) {
    forall k :: k in l.reservations ==>
      && !k.IsZero()
      && l.reservations[k].ref == k
      && l.reservations[k].qty > 0
      && (l.reservations[k].status.Confirmed? ==> l.reservations[k].expiresAt == ZERO_TIME)
  }

  function ReplenishLevel(l: Level, qty: nat): Result<Level, StockError> {
    if qty == 0 then Err(InvalidQuantity)
    else Ok(l.(available := l.available + qty))
  }

  function ReserveLevel(l: Level, ref: Ref, qty: nat, expiresAt: Time): Result<Level, StockError> {
    if ref.IsZero() then Err(InvalidRef)
    else if qty == 0 then Err(InvalidQuantity)
    else if ref in l.reservations then Ok(l)
    else if qty > l.available then Err(InsufficientStock)
    else Ok(Level(l.available - qty, l.reservations[ref := Reservation(ref, qty, Pending, expiresAt)]))
  }

  function ConfirmReservation(r: Reservation): Reservation {
    if r.status.Confirmed? then r else r.(status := Confirmed, expiresAt := ZERO_TIME)
  }

  function ConfirmLevel(l: Level, ref: Ref): Result<Level, StockError> {
    if ref !in l.reservations then Err(ReservationNotFound)
    else Ok(l.(reservations := l.reservations[ref := ConfirmReservation(l.reservations[ref])]))
  }

  function ReleaseLevel(l: Level, ref: Ref): Level {
    if ref !in l.reservations then l
    else Level(l.available + l.reservations[ref].qty, l.reservations - {ref})
  }

  function Expired(l: Level, now: Time): set<Ref> {
    set k | k in l.reservations && l.reservations[k].Reapable(now)
  }

  /** Frees a set of holders at once. */
  ghost function FreeLevel(l: Level, ks: set<Ref>): Level {
    Level(l.available + Total(Restrict(l.reservations, ks)), l.reservations - ks)
  }

  ghost function ReapLevel(l: Level, now: Time): Level {
    FreeLevel(l, Expired(l, now))
  }

  // ---------- Events each operation records ----------

  function ReserveEvents(l: Level, sku: Sku, ref: Ref, qty: nat): seq<Event>
    requires ReserveLevel(l, ref, qty, ZERO_TIME).Ok?
  {
    if ref in l.reservations then []
    else [StockReserved(sku, ref, qty, l.available - qty)] +
         if l.available == qty then [StockDepleted(sku)] else []
  }

  function ConfirmEvents(l: Level, sku: Sku, ref: Ref): seq<Event> {
    if ref in l.reservations && l.reservations[ref].status.Pending?
    then [StockReservationConfirmed(sku, ref)] else []
  }

  function ReleaseEvents(l: Level, sku: Sku, ref: Ref): seq<Event> {
    if ref in l.reservations
    then [StockReleased(sku, ref, l.reservations[ref].qty, l.available + l.reservations[ref].qty)] else []
  }

  /** Where an operation leaves a level, and the events it produced on the way. */
  datatype Traced = Traced(level: Level, events: seq<Event>)

  /** A walk through references, one step at a time. */
  datatype Trail = Start | Step(before: Trail, ref: Ref)

  /** The walk visits exactly the references `ks`, each once. */
  ghost predicate Visits(trail: Trail, ks: set<Ref>) {
    match trail
    case Start => ks == {}
    case Step(before, ref) => ref in ks && Visits(before, ks - {ref})
  }

  /** Releasing the references of a walk one after the other. */
  function WalkLevel(l: Level, trail: Trail): Level {
    match trail
    case Start => l
    case Step(before, ref) => ReleaseLevel(WalkLevel(l, before), ref)
  }

  function WalkEvents(l: Level, sku: Sku, trail: Trail): seq<Event> {
    match trail
    case Start => []
    case Step(before, ref) => WalkEvents(l, sku, before) + ReleaseEvents(WalkLevel(l, before), sku, ref)
  }

  /** Whatever order the reaper walks the reservations in, it ends at the same level. */
  lemma {:induction false} WalkFrees(l: Level, trail: Trail, ks: set<Ref>)
    requires Visits(trail, ks) && ks <= l.reservations.Keys
    ensures WalkLevel(l, trail) == FreeLevel(l, ks)
  {
    match trail
    case Start =>
      assert Restrict(l.reservations, ks) == map[];
      assert l.reservations - ks == l.reservations;
    case Step(before, k) =>
      WalkFrees(l, before, ks - {k});
      TotalRemove(Restrict(l.reservations, ks), k);
      assert Restrict(l.reservations, ks) - {k} == Restrict(l.reservations, ks - {k});
      assert l.reservations - (ks - {k}) - {k} == l.reservations - ks;
  }

  /** The event reports the release of a reservation that `l` has. */
  predicate ReportsRelease(e: Event, l: Level, sku: Sku) {
    && e.StockReleased? && e.sku == sku
    && e.ref in l.reservations && e.qty == l.reservations[e.ref].qty
  }

  function RefsIn(es: seq<Event>): set<Ref> {
    set e | e in es && e.StockReleased? :: e.ref
  }

  /** The events report the release of each of the references once, and nothing else. */
  ghost predicate ReportsAll(es: seq<Event>, l: Level, sku: Sku, ks: set<Ref>) {
    (forall e :: e in es ==> ReportsRelease(e, l, sku)) && RefsIn(es) == ks && |es| == |ks|
  }

  lemma ReportsOneMore(es: seq<Event>, e: Event, l: Level, sku: Sku, ks: set<Ref>, k: Ref)
    requires ReportsAll(es, l, sku, ks - {k}) && k in ks && ReportsRelease(e, l, sku) && e.ref == k
    ensures ReportsAll(es + [e], l, sku, ks)
  {
    assert RefsIn(es + [e]) == RefsIn(es) + {k} by {
      assert e in es + [e];
      assert forall x :: x in es ==> x in es + [e];
    }
  }

  /** A walk reports exactly the references it visits. */
  lemma {:induction false} WalkReports(l: Level, sku: Sku, trail: Trail, ks: set<Ref>)
    requires Visits(trail, ks) && ks <= l.reservations.Keys
    ensures ReportsAll(WalkEvents(l, sku, trail), l, sku, ks)
  {
    match trail
    case Start =>
    case Step(before, k) =>
      WalkReports(l, sku, before, ks - {k});
      WalkFrees(l, before, ks - {k});
      var last := ReleaseEvents(WalkLevel(l, before), sku, k);
      assert |last| == 1 && ReportsRelease(last[0], l, sku) && last == [last[0]];
      ReportsOneMore(WalkEvents(l, sku, before), last[0], l, sku, ks, k);
  }

  /** The reaper's loop with the references `todo` still to look at: the expired ones among the
      others have been released along `trail`, which led from `start` to `l`. */
  ghost predicate Reaping(start: Level, sku: Sku, now: Time, todo: set<Ref>, trail: Trail, l: Level,
                          released: seq<Event>) {
    && todo <= start.reservations.Keys
    && Visits(trail, Expired(start, now) - todo)
    && l == WalkLevel(start, trail)
    && released == WalkEvents(start, sku, trail)
  }

  lemma ReapingStep(start: Level, sku: Sku, now: Time, todo: set<Ref>, trail: Trail, l: Level,
                    released: seq<Event>, k: Ref)
    requires Reaping(start, sku, now, todo, trail, l, released) && k in todo
    requires WellFormed(start)
    ensures k in l.reservations && l.reservations[k].ref == k
    ensures var r := l.reservations[k];
      if r.Reapable(now)
      then Reaping(start, sku, now, todo - {k}, Step(trail, k), Level(l.available + r.qty, l.reservations - {k}),
                   released + [StockReleased(sku, r.ref, r.qty, l.available + r.qty)])
      else Reaping(start, sku, now, todo - {k}, trail, l, released)
  {
    var freed := Expired(start, now) - todo;
    WalkFrees(start, trail, freed);
    assert l.reservations[k] == start.reservations[k];
    if l.reservations[k].Reapable(now) {
      assert Expired(start, now) - (todo - {k}) == freed + {k};
      assert freed + {k} - {k} == freed;
    } else {
      assert Expired(start, now) - (todo - {k}) == freed;
    }
  }

  lemma ReapingBegins(start: Level, sku: Sku, now: Time)
    ensures Reaping(start, sku, now, start.reservations.Keys, Start, start, [])
    ensures forall todo, trail, l, released :: Reaping(start, sku, now, todo, trail, l, released) ==>
      todo <= start.reservations.Keys
  {
  }

  /** Reaping frees exactly the pending holds whose deadline has come, and their units. */
  lemma ReapingFrees(l: Level, now: Time)
    requires WellFormed(l)
    ensures var n := ReapLevel(l, now);
      && (forall k :: k in n.reservations <==>
            k in l.reservations && !(l.reservations[k].status.Pending?
              && l.reservations[k].expiresAt != 0 && l.reservations[k].expiresAt <= now))
      && (forall k :: k in n.reservations ==> n.reservations[k] == l.reservations[k])
      && n.available + Total(n.reservations) == l.available + Total(l.reservations)
  {
    OpConserves(l, ItemOp.Reap(now));
  }

  lemma ReapingDone(start: Level, sku: Sku, now: Time, trail: Trail, l: Level, released: seq<Event>)
    requires Reaping(start, sku, now, {}, trail, l, released)
    ensures l == ReapLevel(start, now) && Visits(trail, Expired(start, now))
    ensures released == WalkEvents(start, sku, trail)
  {
    assert Expired(start, now) - {} == Expired(start, now);
    WalkFrees(start, trail, Expired(start, now));
  }

  // ---------- Laws of the operations ----------

  /** One operation on one item, as the use cases apply it. */
  datatype ItemOp =
    | Replenish(qty: nat)
    | Reserve(ref: Ref, qty: nat, expiresAt: Time)
    | Confirm(ref: Ref)
    | Release(ref: Ref)
    | Reap(now: Time)

  ghost function ApplyOp(l: Level, op: ItemOp): Result<Level, StockError> {
    match op
    case Replenish(qty) => ReplenishLevel(l, qty)
    case Reserve(ref, qty, expiresAt) => ReserveLevel(l, ref, qty, expiresAt)
    case Confirm(ref) => ConfirmLevel(l, ref)
    case Release(ref) => Ok(ReleaseLevel(l, ref))
    case Reap(now) => Ok(ReapLevel(l, now))
  }

  function Added(op: ItemOp): nat {
    if op.Replenish? then op.qty else 0
  }

  /** Only a replenishment changes what is on hand; every other operation moves units between
      free and held. The invariant of the aggregate is kept, `available` never goes below zero. */
  lemma OpConserves(l: Level, op: ItemOp)
    requires WellFormed(l) && ApplyOp(l, op).Ok?
    ensures WellFormed(ApplyOp(l, op).value)
    ensures OnHand(ApplyOp(l, op).value) == OnHand(l) + Added(op)
  {
    match op
    case Replenish(_) =>
    case Reserve(ref, qty, expiresAt) =>
      if ref !in l.reservations {
        TotalAdd(l.reservations, ref, Reservation(ref, qty, Pending, expiresAt));
      }
    case Confirm(ref) =>
      TotalReplace(l.reservations, ref, ConfirmReservation(l.reservations[ref]));
    case Release(ref) =>
      if ref in l.reservations { TotalRemove(l.reservations, ref); }
    case Reap(now) =>
      TotalSplit(l.reservations, Expired(l, now));
  }

  /** The amounts are 64-bit integers in the program. As long as what is on hand fits, no operation
      makes any of them wrap, so that the unbounded numbers used here are the program's. */
  lemma NoOperationWraps(l: Level, op: ItemOp)
    requires WellFormed(l) && ApplyOp(l, op).Ok?
    requires OnHand(l) + Added(op) < INT64_LIMIT
    ensures var n := ApplyOp(l, op).value;
      && Wrap64(n.available) == n.available
      && Wrap64(Total(n.reservations)) == Total(n.reservations)
      && forall k :: k in n.reservations ==> Wrap64(n.reservations[k].qty) == n.reservations[k].qty
  {
    OpConserves(l, op);
    var n := ApplyOp(l, op).value;
    WrapFits(n.available);
    WrapFits(Total(n.reservations));
    forall k | k in n.reservations ensures Wrap64(n.reservations[k].qty) == n.reservations[k].qty {
      TotalAtLeast(n.reservations, k);
      WrapFits(n.reservations[k].qty);
    }
  }

  /** A confirmed reservation is untouchable: no operation on the same item other than a
      release of that very reference changes it. */
  lemma ConfirmedStays(l: Level, op: ItemOp, ref: Ref)
    requires ApplyOp(l, op).Ok?
    requires ref in l.reservations && l.reservations[ref].status.Confirmed?
    requires op != Release(ref)
    ensures ref in ApplyOp(l, op).value.reservations
    ensures ApplyOp(l, op).value.reservations[ref] == l.reservations[ref]
  {
  }

  // ---------- Reservations as a list ----------

  /** The holders the first `n` entries of a list stand for; a later entry of the same reference
      replaces an earlier one. */
  function Filed(list: seq<Reservation>, n: nat): Holders
    requires n <= |list|
  {
    if n == 0 then map[] else Filed(list, n - 1)[list[n - 1].ref := list[n - 1]]
  }

  lemma {:induction false} FiledPrefix(a: seq<Reservation>, b: seq<Reservation>, n: nat)
    requires n <= |a| <= |b| && a == b[..|a|]
    ensures Filed(b, n) == Filed(a, n)
  {
    if n > 0 { FiledPrefix(a, b, n - 1); }
  }

  /** The holders are those of the references listed. */
  lemma {:induction false} FiledAll(list: seq<Reservation>, n: nat, k: Ref)
    requires n <= |list|
    ensures k in Filed(list, n) <==> exists i :: 0 <= i < n && list[i].ref == k
  {
    if n > 0 { FiledAll(list, n - 1, k); }
  }

  /** Each has the last entry of its reference. */
  lemma {:induction false} FiledKeepsLast(list: seq<Reservation>, n: nat, i: nat)
    requires i < n <= |list| && forall j :: i < j < n ==> list[j].ref != list[i].ref
    ensures list[i].ref in Filed(list, n) && Filed(list, n)[list[i].ref] == list[i]
  {
    if i < n - 1 { FiledKeepsLast(list, n - 1, i); }
  }

  /** Part of a map has been listed; the references `todo` are still to come. */
  ghost predicate Listing(rs: Holders, todo: set<Ref>, out: seq<Reservation>) {
    && todo <= rs.Keys
    && Filed(out, |out|) == rs - todo
    && (forall r :: r in out <==> r.ref in rs && r.ref !in todo && rs[r.ref] == r)
    && forall i, j :: 0 <= i < j < |out| ==> out[i].ref != out[j].ref
  }

  lemma ListingStep(rs: Holders, todo: set<Ref>, out: seq<Reservation>, k: Ref)
    requires Listing(rs, todo, out) && k in todo && rs[k].ref == k
    ensures Listing(rs, todo - {k}, out + [rs[k]])
  {
    FiledPrefix(out, out + [rs[k]], |out|);
    assert (rs - todo)[k := rs[k]] == rs - (todo - {k});
  }

  lemma ListingWhole(rs: Holders, out: seq<Reservation>)
    ensures Listing(rs, rs.Keys, [])
    ensures Listing(rs, {}, out) ==>
      && Filed(out, |out|) == rs
      && (forall r :: r in out <==> r.ref in rs && rs[r.ref] == r)
      && forall i, j :: 0 <= i < j < |out| ==> out[i].ref != out[j].ref
  {
    assert rs - rs.Keys == map[] && rs - {} == rs;
  }

  // ---------- The aggregate ----------

  /** Everything about an item that its methods can change. */
  datatype ItemState = ItemState(level: Level, events: seq<Event>, version: nat)

  /** The image after one call of `Reserve`; a refused call changes nothing. */
  function ReservedState(m: ItemState, sku: Sku, ref: Ref, qty: nat, expiresAt: Time): ItemState {
    match ReserveLevel(m.level, ref, qty, expiresAt)
    case Ok(l) => m.(level := l, events := m.events + ReserveEvents(m.level, sku, ref, qty))
    case Err(_) => m
  }

  function ReplenishedState(m: ItemState, sku: Sku, qty: nat): ItemState {
    match ReplenishLevel(m.level, qty)
    case Ok(l) => m.(level := l, events := m.events + [StockReplenished(sku, qty, l.available)])
    case Err(_) => m
  }

  function ConfirmedState(m: ItemState, sku: Sku, ref: Ref): ItemState {
    match ConfirmLevel(m.level, ref)
    case Ok(l) => m.(level := l, events := m.events + ConfirmEvents(m.level, sku, ref))
    case Err(_) => m
  }

  function ReleasedState(m: ItemState, sku: Sku, ref: Ref): ItemState {
    m.(level := ReleaseLevel(m.level, ref), events := m.events + ReleaseEvents(m.level, sku, ref))
  }

  function ErrorOf<T>(r: Result<T, StockError>): Option<StockError> {
    match r
    case Ok(_) => None
    case Err(e) => Some(e)
  }

  class StockItem {
    const id: string
    const sku: Sku
    var available: nat
    var reservations: Holders
    var version: nat
    var events: seq<Event>

    function State(): ItemState
      reads this
    {
      ItemState(Level(available, reservations), events, version)
    }

    /** A new item: nothing free, nothing held, not yet stored. */
    constructor New(id: string, sku: Sku)
      ensures this.id == id && this.sku == sku
      ensures State() == ItemState(EMPTY_LEVEL, [], 0)
    {
      this.id, this.sku := id, sku;
      available, reservations, version, events := 0, map[], 0, [];
    }

    /** Rebuilds an item from stored state; records no event. */
    constructor Reconstitute(id: string, sku: Sku, available: nat, version: nat, list: seq<Reservation>)
      ensures this.id == id && this.sku == sku
      ensures State() == ItemState(Level(available, Filed(list, |list|)), [], version)
    {
      var m: Holders := map[];
      for i := 0 to |list|
        invariant m == Filed(list, i)
      {
        m := m[list[i].ref := list[i]];
      }
      this.id, this.sku := id, sku;
      this.available, this.reservations, this.version, events := available, m, version, [];
    }

    method Replenish(qty: nat) returns (err: Option<StockError>)
      modifies this
      ensures err == ErrorOf(ReplenishLevel(old(State()).level, qty))
      ensures State() == ReplenishedState(old(State()), sku, qty)
      ensures err == if qty == 0 then Some(InvalidQuantity) else None
      ensures available == old(available) + qty && reservations == old(reservations) && version == old(version)
      ensures events == old(events) + if qty == 0 then [] else [StockReplenished(sku, qty, old(available) + qty)]
    {
      if qty == 0 {
        return Some(InvalidQuantity);
      }
      available := available + qty;
      events := events + [StockReplenished(sku, qty, available)];
      return None;
    }

    method Reserve(ref: Ref, qty: nat, now: Time, ttl: int) returns (err: Option<StockError>)
      modifies this
      ensures err == ErrorOf(ReserveLevel(old(State()).level, ref, qty, now + ttl))
      ensures State() == ReservedState(old(State()), sku, ref, qty, now + ttl)
      ensures err ==
        if ref.text == "" then Some(InvalidRef)
        else if qty == 0 then Some(InvalidQuantity)
        else if ref !in old(reservations) && qty > old(available) then Some(InsufficientStock)
        else None
      ensures err.Some? || ref in old(reservations) ==>
        available == old(available) && reservations == old(reservations) && events == old(events)
      ensures err.None? && ref !in old(reservations) ==>
        && available == old(available) - qty
        && reservations == old(reservations)[ref := Reservation(ref, qty, Pending, now + ttl)]
        && events == old(events) + [StockReserved(sku, ref, qty, available)]
                     + if available == 0 then [StockDepleted(sku)] else []
    {
      if ref.IsZero() {
        return Some(InvalidRef);
      }
      if qty == 0 {
        return Some(InvalidQuantity);
      }
      if ref in reservations {
        assert events + [] == events;
        return None;
      }
      if qty > available {
        return Some(InsufficientStock);
      }
      available := available - qty;
      reservations := reservations[ref := Reservation(ref, qty, Pending, now + ttl)];
      events := events + [StockReserved(sku, ref, qty, available)];
      if available == 0 {
        events := events + [StockDepleted(sku)];
      }
      return None;
    }

    method Confirm(ref: Ref) returns (err: Option<StockError>)
      modifies this
      ensures err == ErrorOf(ConfirmLevel(old(State()).level, ref))
      ensures State() == ConfirmedState(old(State()), sku, ref)
      ensures err == if ref in old(reservations) then None else Some(ReservationNotFound)
      ensures available == old(available) && version == old(version)
      ensures if ref in old(reservations) && old(reservations)[ref].status.Pending?
        then
          && reservations == old(reservations)[ref :=
               old(reservations)[ref].(status := Confirmed, expiresAt := ZERO_TIME)]
          && events == old(events) + [StockReservationConfirmed(sku, ref)]
        else reservations == old(reservations) && events == old(events)
    {
      if ref !in reservations {
        return Some(ReservationNotFound);
      }
      var r := reservations[ref];
      if r.status.Confirmed? {
        assert reservations[ref := r] == reservations && events + [] == events;
        return None;
      }
      r := r.(status := Confirmed, expiresAt := ZERO_TIME);
      reservations := reservations[ref := r];
      events := events + [StockReservationConfirmed(sku, ref)];
      return None;
    }

    method Release(ref: Ref)
      modifies this
      ensures State() == ReleasedState(old(State()), sku, ref)
      ensures reservations == old(reservations) - {ref} && version == old(version)
      ensures if ref in old(reservations)
        then
          && available == old(available) + old(reservations)[ref].qty
          && events == old(events) + [StockReleased(sku, ref, old(reservations)[ref].qty, available)]
        else available == old(available) && events == old(events)
    {
      if ref !in reservations {
        assert events + [] == events;
        return;
      }
      var r := reservations[ref];
      available := available + r.qty;
      reservations := reservations - {ref};
      events := events + [StockReleased(sku, ref, r.qty, available)];
    }

    /** Frees every expired pending reservation, walking the map in any order (`trail` is the
        one taken), and returns the events instead of recording them. */
    method ReapExpired(now: Time) returns (released: seq<Event>, ghost trail: Trail)
      requires WellFormed(State().level)
      modifies this
      ensures State() == old(State()).(level := ReapLevel(old(State()).level, now))
      ensures Visits(trail, Expired(old(State()).level, now))
      ensures released == WalkEvents(old(State()).level, sku, trail)
      ensures ReportsAll(released, old(State()).level, sku, Expired(old(State()).level, now))
      ensures forall k :: k in reservations <==>
        k in old(reservations) && !(old(reservations)[k].status.Pending?
          && old(reservations)[k].expiresAt != 0 && old(reservations)[k].expiresAt <= now)
      ensures forall k :: k in reservations ==> reservations[k] == old(reservations)[k]
      ensures available + Total(reservations) == old(available + Total(reservations))
    {
      ghost var start := State().level;
      hide Reaping, ReapLevel, WellFormed, Total, ReportsAll, Visits;
      ReapingBegins(start, sku, now);
      released, trail := [], Start;
      var todo := reservations.Keys;
      while todo != {}
        invariant Reaping(start, sku, now, todo, trail, Level(available, reservations), released)
        invariant events == old(events) && version == old(version)
        decreases |todo|
      {
        var key :| key in todo;
        ReapingStep(start, sku, now, todo, trail, Level(available, reservations), released, key);
        todo := todo - {key};
        var r := reservations[key];
        if !r.status.Pending? || !r.IsExpired(now) {
          continue;
        }
        available := available + r.qty;
        reservations := reservations - {key};
        released := released + [StockReleased(sku, r.ref, r.qty, available)];
        trail := Step(trail, key);
      }
      ReapingDone(start, sku, now, trail, Level(available, reservations), released);
      ReapingFrees(start, now);
      WalkReports(start, sku, trail, Expired(start, now));
    }

    /** The held amount, derived from the reservations. */
    method Reserved() returns (total: nat)
      ensures total == Total(State().level.reservations)
    {
      total := 0;
      var rest := reservations;
      while rest != map[]
        invariant total + Total(rest) == Total(reservations)
        decreases |rest|
      {
        var k :| k in rest;
        TotalRemove(rest, k);
        total := total + rest[k].qty;
        rest := rest - {k};
      }
    }

    /** The reservations as a list, each once, in any order. */
    method Reservations() returns (out: seq<Reservation>)
      requires WellFormed(State().level)
      ensures Filed(out, |out|) == State().level.reservations
      ensures forall r :: r in out <==> r.ref in State().level.reservations && State().level.reservations[r.ref] == r
      ensures forall i, j :: 0 <= i < j < |out| ==> out[i].ref != out[j].ref
    {
      hide Listing, Filed;
      out := [];
      var todo := reservations.Keys;
      ListingWhole(reservations, out);
      while todo != {}
        invariant todo <= reservations.Keys && Listing(reservations, todo, out)
        decreases |todo|
      {
        var k :| k in todo;
        ListingStep(reservations, todo, out, k);
        out, todo := out + [reservations[k]], todo - {k};
      }
      ListingWhole(reservations, out);
    }

    method PullEvents() returns (pulled: seq<Event>)
      modifies this
      ensures pulled == old(State()).events
      ensures State() == old(State()).(events := [])
    {
      pulled := events;
      events := [];
    }

    method MarkPersisted(v: nat)
      modifies `version
      ensures State() == old(State()).(version := v)
    {
      version := v;
    }
  }
}
