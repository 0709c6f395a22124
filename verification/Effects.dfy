/**
 What the inventory use cases promise, said of the stored items, the request and the events alone:
 which requests are refused and why, what each stored item is afterwards, and which events there are.
 The predicates here repeat none of the functions the use cases are specified by; the lemmas say that
 both come to the same.
 */
module Effects {
  import opened Common
  import opened Stock
  import opened StockStore
  import opened MemoryStock
  import opened EventReports
  import opened Allocation
  import opened Warehouse
  import opened InventoryUseCases
  import Subscriber
  import Text

  ghost predicate AllStorable(v: View) {
    forall s :: s in v ==> Storable(s, v[s].level)
  }

  predicate Holds(v: View, s: Sku, ref: Ref) {
    s in v && ref in v[s].level.reservations
  }

  predicate HoldsPending(v: View, s: Sku, ref: Ref) {
    Holds(v, s, ref) && v[s].level.reservations[ref].status.Pending?
  }

  /** The item has been written once more, with this level. */
  predicate Rewritten(v: View, after: View, s: Sku, level: Level) {
    s in v && s in after && after[s] == Stored(v[s].id, v[s].version + 1, level)
  }

  // ---------- Confirming and releasing ----------

  /** Every hold under the reference is confirmed and without a deadline, and nothing else about its
      item changes but the version. */
  ghost predicate AllConfirmed(v: View, after: View, ref: Ref) {
    && after.Keys == v.Keys
    && forall s :: s in v ==>
         if ref in v[s].level.reservations
         then Rewritten(v, after, s, ConfirmedLevel(v[s].level, ref))
         else after[s] == v[s]
  }

  ghost predicate AllReleased(v: View, after: View, ref: Ref) {
    && after.Keys == v.Keys
    && forall s :: s in v ==>
         if ref in v[s].level.reservations
         then Rewritten(v, after, s, Level(v[s].level.available + v[s].level.reservations[ref].qty,
                                           v[s].level.reservations - {ref}))
         else after[s] == v[s]
  }

  lemma ConfirmEffect(v: View, refText: string, err: Option<StockError>, after: View)
    requires AllStorable(v) && AfterConfirm(v, refText, err, after)
    ensures err == Some(InvalidRef) <==> Text.Blank(refText)
    ensures err == Some(ReservationNotFound) <==>
      !Text.Blank(refText) && forall s :: !Holds(v, s, Ref(Text.Trim(refText)))
    ensures err.Some? ==> after == v && (err == Some(InvalidRef) || err == Some(ReservationNotFound))
    ensures err.None? ==> AllConfirmed(v, after, Ref(Text.Trim(refText)))
  {
    RefusedOnTheWayIn(refText, 0);
    var ref := Ref(Text.Trim(refText));
    HoldersMean(v, ref);
    hide Text.Trim, Storable, ConfirmOne, Holding;
    forall s | s in v ensures ConfirmOne(v[s].level, ref) == ConfirmedLevel(v[s].level, ref) {
      ConfirmingOne(s, v[s].level, ref);
    }
  }

  /** The level with the reference's hold confirmed, if there is one. */
  function ConfirmedLevel(l: Level, ref: Ref): Level {
    if ref in l.reservations
    then Level(l.available, l.reservations[ref := Reservation(ref, l.reservations[ref].qty, Confirmed, ZERO_TIME)])
    else l
  }

  lemma ConfirmingOne(s: Sku, l: Level, ref: Ref)
    requires Storable(s, l)
    ensures ConfirmOne(l, ref) == ConfirmedLevel(l, ref)
  {
  }

  lemma HoldersMean(v: View, ref: Ref)
    ensures forall s :: s in Holding(LevelsOf(v), ref) <==> Holds(v, s, ref)
    ensures Holding(LevelsOf(v), ref) == {} <==> forall s :: !Holds(v, s, ref)
  {
    assert forall s :: Holds(v, s, ref) ==> s in Holding(LevelsOf(v), ref);
  }

  lemma ReleaseEffect(v: View, refText: string, err: Option<StockError>, after: View)
    requires AllStorable(v) && AfterRelease(v, refText, err, after)
    ensures err == if Text.Blank(refText) then Some(InvalidRef) else None
    ensures err.Some? ==> after == v
    ensures err.None? ==> AllReleased(v, after, Ref(Text.Trim(refText)))
  {
    RefusedOnTheWayIn(refText, 0);
    hide Text.Trim, Storable;
  }

  /** The event of confirming a hold that was pending. */
  predicate ConfirmsHold(e: Event, v: View, ref: Ref) {
    e.StockReservationConfirmed? && e.ref == ref && HoldsPending(v, e.sku, ref)
  }

  /** The event of releasing a hold, with the units that are free then. */
  predicate ReleasesHold(e: Event, v: View, ref: Ref) {
    && e.StockReleased? && e.ref == ref && Holds(v, e.sku, ref)
    && e.qty == v[e.sku].level.reservations[ref].qty && e.available == v[e.sku].level.available + e.qty
  }

  /** What is gathered if the last copy of each touched item has recorded the events `due` says. */
  lemma Gathered(xs: seq<Saved>, es: seq<seq<Event>>, touched: set<Sku>, due: Sku -> seq<Event>)
    requires SkusOf(xs) == touched && |es| == |xs|
    requires forall i :: 0 <= i < |xs| ==> es[i] == if LastCopy(xs, i) then due(xs[i].sku) else []
    requires forall s, e :: e in due(s) ==> e.sku == s
    requires forall s :: NoRepeats(due(s))
    ensures forall e :: e in Flat(es, |es|) <==> e.sku in touched && e in due(e.sku)
    ensures NoRepeats(Flat(es, |es|))
  {
    hide SkusOf, Flat, NoRepeats;
    OneEvent([]);
    ItemsApart(xs, es);
    hide LastCopy;
    FlatNoRepeats(xs, es, |es|);
    FlatIsComplete(es, |es|);
    forall e: Event ensures (exists i :: 0 <= i < |es| && e in es[i]) <==> e.sku in touched && e in due(e.sku) {
      SkuAt(xs, e.sku);
      if i :| 0 <= i < |xs| && xs[i].sku == e.sku {
        var k := SomeLastCopy(xs, i);
        assert es[k] == due(e.sku);
      }
    }
  }

  function Listed(e: Option<Event>): seq<Event> {
    if e.Some? then [e.value] else []
  }

  lemma ListedOnce()
    ensures forall e :: NoRepeats(Listed(e))
  {
    forall e ensures NoRepeats(Listed(e)) { OneEvent(Listed(e)); }
  }

  lemma ItemsApart(xs: seq<Saved>, es: seq<seq<Event>>)
    requires |es| == |xs|
    requires forall i :: 0 <= i < |xs| ==> LastCopy(xs, i) || es[i] == []
    requires forall i, e :: 0 <= i < |xs| && e in es[i] ==> e.sku == xs[i].sku
    ensures OwnItems(xs, es)
  {
  }

  lemma OnlyCopies(xs: seq<Saved>)
    requires DistinctSkus(xs)
    ensures forall i :: 0 <= i < |xs| ==> LastCopy(xs, i)
  {
  }

  lemma SkuAt(xs: seq<Saved>, s: Sku)
    ensures s in SkusOf(xs) <==> exists i :: 0 <= i < |xs| && xs[i].sku == s
  {
  }

  function PendingEvent(v: View, s: Sku, ref: Ref): Option<Event> {
    if HoldsPending(v, s, ref) then Some(StockReservationConfirmed(s, ref)) else None
  }

  function ReleasedEvent(v: View, s: Sku, ref: Ref): Option<Event> {
    if Holds(v, s, ref)
    then Some(StockReleased(s, ref, v[s].level.reservations[ref].qty,
                            v[s].level.available + v[s].level.reservations[ref].qty))
    else None
  }

  lemma Recorded(v: View, ref: Ref, xs: seq<Saved>)
    requires FromView(v, xs)
    ensures forall i :: 0 <= i < |xs| ==> ConfirmRecord(xs, ref)[i] == Listed(PendingEvent(v, xs[i].sku, ref))
    ensures forall i :: 0 <= i < |xs| ==> ReleaseRecord(xs, ref)[i] == Listed(ReleasedEvent(v, xs[i].sku, ref))
  {
  }

  lemma InOrder(es: seq<seq<Event>>)
    ensures forall i :: 0 <= i < |es| ==> Flat(es, i) + es[i] <= Flat(es, |es|)
  {
    forall i | 0 <= i < |es| ensures Flat(es, i) + es[i] <= Flat(es, |es|) { FlatKeepsOrder(es, i, |es|); }
  }

  /** The events of a confirmation: one for every hold that was pending, in item order. */
  lemma ConfirmReports(events: seq<Event>, v: View, ref: Ref, xs: seq<Saved>)
    requires Reports(events, v, Holding(LevelsOf(v), ref), xs, ConfirmRecord(xs, ref))
    ensures forall e :: e in events <==> ConfirmsHold(e, v, ref)
    ensures NoRepeats(events)
    ensures forall i :: 0 <= i < |xs| ==>
      Flat(ConfirmRecord(xs, ref), i) + Listed(PendingEvent(v, xs[i].sku, ref)) <= events
  {
    hide ConfirmRecord, FromView, SkusOf, LevelsOf, Flat, NoRepeats, DistinctSkus;
    Recorded(v, ref, xs);
    HoldersMean(v, ref);
    hide Holding;
    InOrder(ConfirmRecord(xs, ref));
    OnlyCopies(xs);
    ListedOnce();
    hide LastCopy;
    Gathered(xs, ConfirmRecord(xs, ref), Holding(LevelsOf(v), ref), s => Listed(PendingEvent(v, s, ref)));
  }

  /** The events of a release: one for every hold, with the units that are free again. */
  lemma ReleaseReports(events: seq<Event>, v: View, ref: Ref, xs: seq<Saved>)
    requires Reports(events, v, Holding(LevelsOf(v), ref), xs, ReleaseRecord(xs, ref))
    ensures forall e :: e in events <==> ReleasesHold(e, v, ref)
    ensures NoRepeats(events)
    ensures forall i :: 0 <= i < |xs| ==>
      Flat(ReleaseRecord(xs, ref), i) + Listed(ReleasedEvent(v, xs[i].sku, ref)) <= events
  {
    hide ReleaseRecord, FromView, SkusOf, LevelsOf, Flat, NoRepeats, DistinctSkus;
    Recorded(v, ref, xs);
    HoldersMean(v, ref);
    hide Holding;
    InOrder(ReleaseRecord(xs, ref));
    OnlyCopies(xs);
    ListedOnce();
    hide LastCopy;
    Gathered(xs, ReleaseRecord(xs, ref), Holding(LevelsOf(v), ref), s => Listed(ReleasedEvent(v, s, ref)));
  }

  lemma OneEvent(es: seq<Event>)
    ensures |es| <= 1 ==> NoRepeats(es)
  {
    if |es| == 1 { assert SetIn(es) == {es[0]}; }
    if |es| == 0 { assert SetIn(es) == {}; }
  }

  // ---------- Sweeping ----------

  /** A pending hold whose deadline has come. */
  predicate Due(r: Reservation, now: Time) {
    r.status.Pending? && r.expiresAt != ZERO_TIME && r.expiresAt <= now
  }

  predicate HasDue(v: View, s: Sku, now: Time) {
    s in v && exists k :: k in v[s].level.reservations && Due(v[s].level.reservations[k], now)
  }

  /** Exactly the due holds are gone, their units are free again, and the item was written once. */
  ghost predicate AllDueFreed(v: View, after: View, s: Sku, now: Time)
    requires s in v && s in after
  {
    var from, to := v[s].level, after[s].level;
    && after[s].id == v[s].id && after[s].version == v[s].version + 1
    && (forall k :: k in to.reservations <==> k in from.reservations && !Due(from.reservations[k], now))
    && (forall k :: k in to.reservations ==> to.reservations[k] == from.reservations[k])
    && to.available + Total(to.reservations) == from.available + Total(from.reservations)
  }

  lemma SweepEffect(v: View, now: Time, batch: nat, picked: set<Sku>, after: View)
    requires AllStorable(v) && AfterSweep(v, now, batch, picked, after)
    ensures after.Keys == v.Keys
    ensures forall s :: s in picked ==> HasDue(v, s, now) && AllDueFreed(v, after, s, now)
    ensures forall s :: s in v && s !in picked ==> after[s] == v[s]
    ensures |picked| <= batch && (|picked| < batch ==> forall s :: HasDue(v, s, now) ==> s in picked)
  {
    hide Storable;
    DueMeans(v, now);
    forall s | s in picked ensures AllDueFreed(v, after, s, now) {
      LevelOk(s, v[s].level);
      ReapingFrees(v[s].level, now);
    }
    if |picked| < batch { SubsetSize(picked, Affected(LevelsOf(v), now)); }
  }

  /** The release of a due hold of one of the items picked. */
  predicate FreesDue(e: Event, v: View, picked: set<Sku>, now: Time) {
    && e.StockReleased? && e.sku in picked && Holds(v, e.sku, e.ref)
    && Due(v[e.sku].level.reservations[e.ref], now) && e.qty == v[e.sku].level.reservations[e.ref].qty
  }

  /** The events of a sweep: each due hold of each item picked is reported once, and nothing else. */
  lemma SweepReports(events: seq<Event>, v: View, now: Time, picked: set<Sku>, xs: seq<Saved>, trails: seq<Trail>,
                     es: seq<seq<Event>>)
    requires FromView(v, xs) && DistinctSkus(xs) && SkusOf(xs) == picked
    requires Reaped(xs, now, trails, es) && events == Flat(es, |es|)
    ensures forall e :: e in events ==> FreesDue(e, v, picked, now)
    ensures forall i :: 0 <= i < |xs| ==>
      && |es[i]| == |RefsIn(es[i])|
      && forall k :: Holds(v, xs[i].sku, k) && Due(v[xs[i].sku].level.reservations[k], now) ==> k in RefsIn(es[i])
    ensures forall i :: 0 <= i < |xs| ==> Flat(es, i) + es[i] <= events
  {
    InOrder(es);
    FlatIsComplete(es, |es|);
    hide Flat, WalkEvents, Visits, DistinctSkus;
    forall i | 0 <= i < |xs|
      ensures forall e :: e in es[i] ==> FreesDue(e, v, picked, now)
      ensures |es[i]| == |RefsIn(es[i])|
      ensures forall k :: Holds(v, xs[i].sku, k) && Due(v[xs[i].sku].level.reservations[k], now) ==> k in RefsIn(es[i])
    {
      assert xs[i].sku in SkusOf(xs) && xs[i].level == v[xs[i].sku].level;
      assert ReapedOne(xs[i], now, trails[i], es[i]);
      assert forall e :: e in es[i] ==> e.StockReleased? && e.ref in RefsIn(es[i]);
    }
  }

  lemma LevelOk(s: Sku, l: Level)
    requires Storable(s, l)
    ensures WellFormed(l)
  {
  }

  lemma DueMeans(v: View, now: Time)
    ensures forall s :: s in Affected(LevelsOf(v), now) <==> HasDue(v, s, now)
  {
    forall s | s in v ensures s in Affected(LevelsOf(v), now) <==> HasDue(v, s, now) {
      if k :| k in v[s].level.reservations && Due(v[s].level.reservations[k], now) {
        assert k in Expired(v[s].level, now);
      }
      if k :| k in Expired(v[s].level, now) {
        assert Due(v[s].level.reservations[k], now);
      }
    }
  }

  // ---------- Reserving ----------

  /** The lines are those of the request, one by one. */
  predicate Taken(input: seq<ReserveLine>, lines: seq<Line>) {
    && |lines| == |input|
    && forall i :: 0 <= i < |input| ==>
         lines[i].sku.text == Text.Trim(input[i].sku) && lines[i].qty == input[i].quantity
  }

  ghost predicate BadInput(l: ReserveLine) {
    Text.Blank(l.sku) || l.quantity < 0
  }

  lemma LineTaken(l: ReserveLine)
    ensures ToLine(l).Err? <==> BadInput(l)
    ensures ToLine(l).Ok? ==> ToLine(l).value.sku.text == Text.Trim(l.sku) && ToLine(l).value.qty == l.quantity
  {
    hide Text.Blank, Text.Trim;
    RefusedOnTheWayIn(l.sku, l.quantity);
  }

  /** Line `k` is the first that asks for the SKU. */
  predicate FirstFor(lines: seq<Line>, s: Sku, k: nat) {
    k < |lines| && lines[k].sku == s && forall j :: 0 <= j < k ==> lines[j].sku != s
  }

  /** Every SKU that a line names holds the reference: as before, or newly, pending and with the
      quantity and the deadline of its first line. The others are untouched. */
  ghost predicate AllReserved(v: View, after: View, ref: Ref, lines: seq<Line>, stamps: seq<Time>, ttl: int)
    requires |lines| == |stamps|
  {
    after.Keys == v.Keys && forall s :: s in v ==> ReservedItem(v, after, s, ref, lines, stamps, ttl)
  }

  ghost predicate ReservedItem(v: View, after: View, s: Sku, ref: Ref, lines: seq<Line>, stamps: seq<Time>, ttl: int)
    requires |lines| == |stamps| && s in v && s in after
  {
    && (forall k: nat :: FirstFor(lines, s, k) ==>
          Rewritten(v, after, s, Given(v[s].level, ref, lines[k].qty, stamps[k] + ttl)))
    && ((forall i :: 0 <= i < |lines| ==> lines[i].sku != s) ==> after[s] == v[s])
  }

  /** The level after giving a quantity to the reference, unless it holds some already. */
  function Given(l: Level, ref: Ref, qty: nat, deadline: Time): Level {
    if ref in l.reservations || qty > l.available then l
    else Level(l.available - qty, l.reservations[ref := Reservation(ref, qty, Pending, deadline)])
  }

  /** Line `i` is the first that cannot be served, for this reason. */
  predicate Unserved(v: View, ref: Ref, lines: seq<Line>, i: nat, why: StockError) {
    && i < |lines| && !Serves(LevelsOf(v), ref, lines[i])
    && (forall j :: 0 <= j < i ==> Serves(LevelsOf(v), ref, lines[j]))
    && why == if lines[i].sku !in v then StockItemNotFound
              else if lines[i].qty == 0 then InvalidQuantity
              else InsufficientStock
  }

  /** Every line of the request is converted, or the first bad one is named. */
  lemma RequestConverted(input: seq<ReserveLine>, lines: seq<Line>)
    ensures forall i :: 0 <= i < |input| ==> (ToLine(input[i]).Err? <==> BadInput(input[i]))
    ensures Converted(input, lines) ==> Taken(input, lines)
  {
    forall i | 0 <= i < |input|
      ensures ToLine(input[i]).Err? <==> BadInput(input[i])
      ensures ToLine(input[i]).Ok? ==>
        ToLine(input[i]).value.sku.text == Text.Trim(input[i].sku) && ToLine(input[i]).value.qty == input[i].quantity
    {
      LineTaken(input[i]);
    }
    hide ToLine, Text.Trim, Text.Blank, BadInput;
  }

  lemma VerdictExplained(v: View, ref: Ref, lines: seq<Line>)
    requires ref.text != ""
    ensures Verdict(LevelsOf(v), ref, lines, |lines|).None? ==>
      forall i :: 0 <= i < |lines| ==> Serves(LevelsOf(v), ref, lines[i])
    ensures forall e :: Verdict(LevelsOf(v), ref, lines, |lines|) == Some(e) ==>
      exists i :: Unserved(v, ref, lines, i, e)
  {
    hide Serves, Unserved, Verdict;
    AcceptedIfAllServed(LevelsOf(v), ref, lines);
    if Verdict(LevelsOf(v), ref, lines, |lines|).Some? {
      var i := SomeUnserved(LevelsOf(v), ref, lines, 0);
      FirstUnservedLine(LevelsOf(v), ref, lines, i);
      UnservedMeans(v, ref, lines, i, Verdict(LevelsOf(v), ref, lines, |lines|).value);
    }
  }

  lemma ReserveEffect(v: View, refText: string, input: seq<ReserveLine>, lines: seq<Line>, stamps: seq<Time>, ttl: int,
                      err: Option<ReserveError>, after: View)
    requires |stamps| == |input| && AfterReserve(v, refText, input, lines, stamps, ttl, err, after)
    ensures err == Some(BadRef) <==> Text.Blank(refText)
    ensures err.Some? ==> after == v
    ensures err.Some? && err.value.BadLine? ==>
      && err.value.i < |input| && BadInput(input[err.value.i])
      && forall j :: 0 <= j < err.value.i ==> !BadInput(input[j])
    ensures err.None? || err.value.Refused? ==> Taken(input, lines)
    ensures err.Some? && err.value.Refused? ==>
      exists i :: Unserved(v, Ref(Text.Trim(refText)), lines, i, err.value.reason)
    ensures err.None? ==>
      && (forall i :: 0 <= i < |lines| ==> Serves(LevelsOf(v), Ref(Text.Trim(refText)), lines[i]))
      && AllReserved(v, after, Ref(Text.Trim(refText)), lines, stamps, ttl)
  {
    RefusedOnTheWayIn(refText, 0);
    RequestConverted(input, lines);
    hide ToLine, Text.Trim, Text.Blank, Verdict, BadInput, Serves, Touched, Named, ReserveAll, AllReserved, Unserved,
      Taken, LevelsOf;
    if NewRef(refText).Ok? && (err.None? || err.value.Refused?) {
      VerdictExplained(v, NewRef(refText).value, lines);
      ReservedItems(v, NewRef(refText).value, lines, stamps, ttl);
    }
  }

  lemma UnservedMeans(v: View, ref: Ref, lines: seq<Line>, i: nat, why: StockError)
    requires i < |lines| && !Serves(LevelsOf(v), ref, lines[i])
    requires forall j :: 0 <= j < i ==> Serves(LevelsOf(v), ref, lines[j])
    requires why == if lines[i].sku !in LevelsOf(v) then StockItemNotFound
                    else if lines[i].qty == 0 then InvalidQuantity
                    else InsufficientStock
    ensures Unserved(v, ref, lines, i, why)
  {
  }

  lemma {:induction false} SomeUnserved(ls: Levels, ref: Ref, lines: seq<Line>, from: nat) returns (i: nat)
    requires from <= |lines| && forall j :: 0 <= j < from ==> Serves(ls, ref, lines[j])
    requires exists j :: 0 <= j < |lines| && !Serves(ls, ref, lines[j])
    ensures i < |lines| && !Serves(ls, ref, lines[i]) && forall j :: 0 <= j < i ==> Serves(ls, ref, lines[j])
    decreases |lines| - from
  {
    if !Serves(ls, ref, lines[from]) {
      i := from;
    } else {
      i := SomeUnserved(ls, ref, lines, from + 1);
    }
  }

  lemma ReservedItems(v: View, ref: Ref, lines: seq<Line>, stamps: seq<Time>, ttl: int)
    requires |lines| == |stamps|
    ensures AllReserved(v, Touched(v, ReserveAll(LevelsOf(v), ref, lines, stamps, ttl), Named(v, lines)),
                        ref, lines, stamps, ttl)
  {
    var after := Touched(v, ReserveAll(LevelsOf(v), ref, lines, stamps, ttl), Named(v, lines));
    hide ReservedItem, Asked;
    forall s | s in v ensures ReservedItem(v, after, s, ref, lines, stamps, ttl) {
      ReservedOne(v, s, ref, lines, stamps, ttl);
    }
  }

  lemma ReservedOne(v: View, s: Sku, ref: Ref, lines: seq<Line>, stamps: seq<Time>, ttl: int)
    requires |lines| == |stamps| && s in v
    ensures ReservedItem(v, Touched(v, ReserveAll(LevelsOf(v), ref, lines, stamps, ttl), Named(v, lines)), s,
                         ref, lines, stamps, ttl)
  {
    hide Asked, FirstLine;
    AskedMeans(lines, s, |lines|);
    assert LevelsOf(v)[s] == v[s].level;
    forall k: nat | FirstFor(lines, s, k) ensures Asked(lines, s, |lines|) && FirstLine(lines, s, |lines|) == k {
      assert lines[k].sku == s;
    }
  }

  /** The events of a new hold: the reservation, and the depletion if it took the last unit. */
  function HoldEvents(v: View, s: Sku, ref: Ref, lines: seq<Line>): seq<Event> {
    if s in v && ref !in v[s].level.reservations && Asked(lines, s, |lines|)
      && lines[FirstLine(lines, s, |lines|)].qty <= v[s].level.available
    then
      var left := v[s].level.available - lines[FirstLine(lines, s, |lines|)].qty;
      [StockReserved(s, ref, lines[FirstLine(lines, s, |lines|)].qty, left)]
      + if left == 0 then [StockDepleted(s)] else []
    else []
  }

  lemma HoldEventsOnce(v: View, ref: Ref, lines: seq<Line>)
    ensures forall s :: NoRepeats(HoldEvents(v, s, ref, lines))
    ensures forall s, e :: e in HoldEvents(v, s, ref, lines) ==> e.sku == s
  {
    forall s ensures NoRepeats(HoldEvents(v, s, ref, lines)) {
      var es := HoldEvents(v, s, ref, lines);
      OneEvent(es);
      if |es| == 2 {
        SetInConcat([es[0]], [es[1]]);
        assert es == [es[0]] + [es[1]] && SetIn(es) == {es[0], es[1]} && es[0] != es[1];
      }
    }
  }

  lemma AllotmentRecorded(v: View, ref: Ref, lines: seq<Line>, xs: seq<Saved>)
    requires FromView(v, xs) && ref.text != ""
    requires forall i :: 0 <= i < |lines| ==> Serves(LevelsOf(v), ref, lines[i])
    ensures forall i :: 0 <= i < |xs| ==>
      AllotmentRecord(xs, ref, lines)[i] == if LastCopy(xs, i) then HoldEvents(v, xs[i].sku, ref, lines) else []
  {
    hide LastCopy, Asked, FirstLine;
    forall i | 0 <= i < |xs|
      ensures AllottedEvents(xs[i].level, xs[i].sku, ref, lines, |lines|) == HoldEvents(v, xs[i].sku, ref, lines)
    {
      if Asked(lines, xs[i].sku, |lines|) {
        assert Serves(LevelsOf(v), ref, lines[FirstLine(lines, xs[i].sku, |lines|)]);
      }
    }
  }

  /** The events of a reservation: those of every new hold, and nothing else. */
  lemma ReserveReports(events: seq<Event>, v: View, ref: Ref, lines: seq<Line>, xs: seq<Saved>)
    requires FromView(v, xs) && SkusOf(xs) == Named(v, lines) && ref.text != ""
    requires forall i :: 0 <= i < |lines| ==> Serves(LevelsOf(v), ref, lines[i])
    requires var es := AllotmentRecord(xs, ref, lines); events == Flat(es, |es|)
    ensures forall e :: e in events <==> e in HoldEvents(v, e.sku, ref, lines)
    ensures NoRepeats(events)
    ensures forall i :: 0 <= i < |xs| && LastCopy(xs, i) ==>
      Flat(AllotmentRecord(xs, ref, lines), i) + HoldEvents(v, xs[i].sku, ref, lines) <= events
  {
    hide FromView, SkusOf, LevelsOf, Flat, NoRepeats, LastCopy, Serves, HoldEvents, Named, AllottedEvents;
    var es := AllotmentRecord(xs, ref, lines);
    AllotmentRecorded(v, ref, lines, xs);
    HoldEventsOnce(v, ref, lines);
    NamedWithEvents(v, ref, lines);
    InOrder(es);
    Gathered(xs, es, Named(v, lines), s => HoldEvents(v, s, ref, lines));
  }

  lemma NamedWithEvents(v: View, ref: Ref, lines: seq<Line>)
    ensures forall s, e :: e in HoldEvents(v, s, ref, lines) ==> s in Named(v, lines)
  {
  }

  // ---------- Replenishing ----------

  lemma ReplenishEffect(v: View, skuText: string, quantity: int, freshId: string, err: Option<ReplenishError>,
                        after: View)
    requires AfterReplenish(v, skuText, quantity, freshId, err, after)
    ensures err == if Text.Blank(skuText) then Some(BadSku) else if quantity < 1 then Some(BadQuantity) else None
    ensures err.Some? ==> after == v
    ensures err.None? ==>
      var sku := Sku(Text.Trim(skuText));
      && after.Keys == v.Keys + {sku}
      && (forall s :: s in v && s != sku ==> after[s] == v[s])
      && (sku in v ==> Rewritten(v, after, sku, Level(v[sku].level.available + quantity, v[sku].level.reservations)))
      && (sku !in v ==> after[sku] == Stored(freshId, 1, Level(quantity, map[])))
  {
    RefusedOnTheWayIn(skuText, quantity);
    hide Text.Trim, Text.Blank;
  }

  // ---------- Messages ----------

  lemma ConfirmDelivered(v: View, ref: Ref, after: View)
    requires AllStorable(v) && Subscriber.Delivered(v, ConfirmRequested(ref), after)
    ensures AllConfirmed(v, after, ref)
  {
    DeliverIsLocal(LevelsOf(v), ConfirmRequested(ref));
    hide Storable, ConfirmOne, Deliver, ConfirmedLevel;
    forall s | s in v ensures ConfirmOne(v[s].level, ref) == ConfirmedLevel(v[s].level, ref) {
      ConfirmingOne(s, v[s].level, ref);
    }
  }

  lemma ReleaseDelivered(v: View, ref: Ref, after: View)
    requires Subscriber.Delivered(v, OrderCancelled(ref), after)
    ensures AllReleased(v, after, ref)
  {
  }

  /** A consumer confirms or releases every hold under the reference its payload names, whatever white
      space is around it, and refuses a payload that names none. Nothing to confirm is a success. */
  lemma ConsumerEffect(v: View, route: Subscriber.Route, p: Subscriber.Payload,
                       err: Option<Subscriber.ConsumeError>, after: View)
    requires AllStorable(v) && Subscriber.Consumed(v, route, p, err, after)
    ensures err.Some? <==> p.Unreadable? || Text.Blank(p.reservationRef)
    ensures err.Some? ==> after == v
    ensures err.None? && route.ToConfirm? ==> AllConfirmed(v, after, Ref(Text.Trim(p.reservationRef)))
    ensures err.None? && route.ToRelease? ==> AllReleased(v, after, Ref(Text.Trim(p.reservationRef)))
  {
    hide AllStorable, AllConfirmed, AllReleased, Subscriber.Delivered, Text.Trim;
    if p.Readable? {
      RefusedOnTheWayIn(p.reservationRef, 0);
      var ref := Ref(Text.Trim(p.reservationRef));
      if !Text.Blank(p.reservationRef) {
        if route.ToConfirm? {
          ConfirmDelivered(v, ref, after);
        } else {
          ReleaseDelivered(v, ref, after);
        }
      }
    }
  }
}
