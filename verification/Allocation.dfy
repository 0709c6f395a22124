/**
 Reserving several SKUs for one reference, all or nothing. The service indexes the items it is
 given by SKU (the last copy wins), checks every line without changing anything, and only then
 reserves line by line.
 */
module Allocation {
  import opened Common
  import opened Stock

  datatype Line = Line(sku: Sku, qty: nat)

  type Levels = map<Sku, Level>

  /** One of the first `n` lines asks for the SKU. */
  predicate Asked(lines: seq<Line>, sku: Sku, n: nat)
    requires n <= |lines|
  {
    n > 0 && (Asked(lines, sku, n - 1) || lines[n - 1].sku == sku)
  }

  /** The position of the first line that asks for a SKU. */
  function FirstLine(lines: seq<Line>, sku: Sku, n: nat): (k: nat)
    requires n <= |lines| && Asked(lines, sku, n)
    ensures k < n && lines[k].sku == sku
    ensures forall j :: 0 <= j < k ==> lines[j].sku != sku
  {
    if Asked(lines, sku, n - 1) then FirstLine(lines, sku, n - 1)
    else AskedMeans(lines, sku, n - 1); n - 1
  }

  lemma {:induction false} AskedMeans(lines: seq<Line>, sku: Sku, n: nat)
    requires n <= |lines|
    ensures Asked(lines, sku, n) <==> exists i :: 0 <= i < n && lines[i].sku == sku
  {
    if n > 0 { AskedMeans(lines, sku, n - 1); }
  }

  // ---------- The rule of the checking pass ----------

  function LineError(levels: Levels, ref: Ref, l: Line): Option<StockError> {
    if l.sku !in levels then Some(StockItemNotFound)
    else if l.qty == 0 then Some(InvalidQuantity)
    else if ref !in levels[l.sku].reservations && l.qty > levels[l.sku].available then Some(InsufficientStock)
    else None
  }

  /** Why an allocation is refused, if it is: the reference first, then the first bad line. */
  ghost predicate RefusedWith(levels: Levels, ref: Ref, lines: seq<Line>, e: StockError) {
    if ref.IsZero() then e == InvalidRef
    else exists i ::
      0 <= i < |lines| && FirstBadLine(levels, ref, lines, i)
      && LineError(levels, ref, lines[i]) == Some(e)
  }

  ghost predicate FirstBadLine(levels: Levels, ref: Ref, lines: seq<Line>, i: nat)
    requires i < |lines|
  {
    && LineError(levels, ref, lines[i]).Some?
    && forall j :: 0 <= j < i ==> LineError(levels, ref, lines[j]).None?
  }

  ghost predicate Allocatable(levels: Levels, ref: Ref, lines: seq<Line>) {
    && !ref.IsZero()
    && forall i :: 0 <= i < |lines| ==> LineError(levels, ref, lines[i]).None?
  }

  /** The outcome of checking the first `n` lines. */
  function Verdict(levels: Levels, ref: Ref, lines: seq<Line>, n: nat): Option<StockError>
    requires n <= |lines|
  {
    if ref.IsZero() then Some(InvalidRef)
    else if n == 0 then None
    else
      var sofar := Verdict(levels, ref, lines, n - 1);
      if sofar.Some? then sofar else LineError(levels, ref, lines[n - 1])
  }

  /** The verdict over all lines says exactly whether every line can be served, and otherwise
      names the first reason in line order. */
  lemma {:induction false} VerdictMeans(levels: Levels, ref: Ref, lines: seq<Line>, n: nat)
    requires n <= |lines|
    ensures Verdict(levels, ref, lines, n).None? <==> Allocatable(levels, ref, lines[..n])
    ensures forall e :: Verdict(levels, ref, lines, n) == Some(e) <==> RefusedWith(levels, ref, lines[..n], e)
  {
    if !ref.IsZero() && n > 0 {
      VerdictMeans(levels, ref, lines, n - 1);
      var a, b := lines[..n - 1], lines[..n];
      assert forall i :: 0 <= i < n - 1 ==> a[i] == b[i];
      assert forall i :: 0 <= i < n - 1 ==> (FirstBadLine(levels, ref, a, i) <==> FirstBadLine(levels, ref, b, i));
      assert b[n - 1] == lines[n - 1];
      if Verdict(levels, ref, lines, n - 1).None? {
        assert forall i :: 0 <= i < n - 1 ==> LineError(levels, ref, b[i]) == LineError(levels, ref, a[i]);
        assert LineError(levels, ref, b[n - 1]).Some? ==> FirstBadLine(levels, ref, b, n - 1);
      }
    }
  }

  /** Lines after the first bad one do not change the verdict. */
  lemma {:induction false} BadLineDecides(levels: Levels, ref: Ref, lines: seq<Line>, n: nat, m: nat)
    requires n <= m <= |lines| && Verdict(levels, ref, lines, n).Some?
    ensures Verdict(levels, ref, lines, m) == Verdict(levels, ref, lines, n)
  {
    if n < m { BadLineDecides(levels, ref, lines, n, m - 1); }
  }

  /** A line can be served: its SKU is stocked, it asks for something, and the item either holds the
      reference already or has enough left. */
  predicate Serves(levels: Levels, ref: Ref, l: Line) {
    l.sku in levels && l.qty > 0 && (ref in levels[l.sku].reservations || l.qty <= levels[l.sku].available)
  }

  /** An allocation is accepted exactly if the reference is set and every line can be served.
      Otherwise the reference is named first, then the first line that cannot be served. */
  lemma AcceptedIfAllServed(levels: Levels, ref: Ref, lines: seq<Line>)
    ensures Verdict(levels, ref, lines, |lines|).None? <==>
      ref.text != "" && forall i :: 0 <= i < |lines| ==> Serves(levels, ref, lines[i])
    ensures ref.text == "" ==> Verdict(levels, ref, lines, |lines|) == Some(InvalidRef)
  {
    VerdictMeans(levels, ref, lines, |lines|);
    assert lines[..|lines|] == lines;
    assert forall i :: 0 <= i < |lines| ==> (LineError(levels, ref, lines[i]).None? <==> Serves(levels, ref, lines[i]));
  }

  /** Which error the first line that cannot be served gives. */
  lemma FirstUnservedLine(levels: Levels, ref: Ref, lines: seq<Line>, i: nat)
    requires ref.text != "" && i < |lines| && !Serves(levels, ref, lines[i])
    requires forall j :: 0 <= j < i ==> Serves(levels, ref, lines[j])
    ensures Verdict(levels, ref, lines, |lines|) == Some(
      if lines[i].sku !in levels then StockItemNotFound
      else if lines[i].qty == 0 then InvalidQuantity
      else InsufficientStock)
  {
    VerdictMeans(levels, ref, lines, i);
    assert forall j :: 0 <= j < i ==> LineError(levels, ref, lines[..i][j]).None?;
    BadLineDecides(levels, ref, lines, i + 1, |lines|);
  }

  // ---------- What a successful allocation does to one SKU ----------

  /** After the first `n` lines: a SKU that was asked for and did not yet hold the reference has
      given the quantity of its FIRST line, stamped when that line was reached. Every other SKU
      keeps its level. */
  function Allotted(l: Level, sku: Sku, ref: Ref, lines: seq<Line>, stamps: seq<Time>, ttl: int, n: nat): Level
    requires n <= |lines| == |stamps|
  {
    if Asked(lines, sku, n) && ref !in l.reservations then
      var k := FirstLine(lines, sku, n);
      if lines[k].qty > l.available then l
      else Level(l.available - lines[k].qty,
                 l.reservations[ref := Reservation(ref, lines[k].qty, Pending, stamps[k] + ttl)])
    else l
  }

  function AllottedEvents(l: Level, sku: Sku, ref: Ref, lines: seq<Line>, n: nat): seq<Event>
    requires n <= |lines|
  {
    if Asked(lines, sku, n) && ReserveLevel(l, ref, lines[FirstLine(lines, sku, n)].qty, ZERO_TIME).Ok?
    then ReserveEvents(l, sku, ref, lines[FirstLine(lines, sku, n)].qty)
    else []
  }

  /** Level and recorded events together. */
  function AllottedState(m: ItemState, sku: Sku, ref: Ref, lines: seq<Line>, stamps: seq<Time>, ttl: int,
                         n: nat): ItemState
    requires n <= |lines| == |stamps|
  {
    m.(level := Allotted(m.level, sku, ref, lines, stamps, ttl, n),
       events := m.events + AllottedEvents(m.level, sku, ref, lines, n))
  }

  function LevelsIn(ms: map<Sku, ItemState>): Levels {
    map s | s in ms :: ms[s].level
  }

  /** Calling `Reserve` on an item for those of the first `n` lines that name its SKU. */
  function ServedState(m: ItemState, sku: Sku, ref: Ref, lines: seq<Line>, stamps: seq<Time>, ttl: int,
                       n: nat): ItemState
    requires n <= |lines| == |stamps|
  {
    if n == 0 then m
    else
      var so := ServedState(m, sku, ref, lines, stamps, ttl, n - 1);
      if lines[n - 1].sku != sku then so
      else ReservedState(so, sku, ref, lines[n - 1].qty, stamps[n - 1] + ttl)
  }

  /** Every line of one SKU can be served from the level. */
  predicate Servable(l: Level, sku: Sku, ref: Ref, lines: seq<Line>) {
    && !ref.IsZero()
    && forall i :: 0 <= i < |lines| && lines[i].sku == sku ==>
         lines[i].qty > 0 && (ref in l.reservations || lines[i].qty <= l.available)
  }

  /** However many lines name a SKU, its item ends up with the quantity of the first of them, and
      no line is refused once the checking pass is through. */
  lemma {:induction false} ServedIsFirstLine(m: ItemState, sku: Sku, ref: Ref, lines: seq<Line>, stamps: seq<Time>,
                                             ttl: int, n: nat)
    requires n <= |lines| == |stamps|
    requires Servable(m.level, sku, ref, lines)
    ensures ServedState(m, sku, ref, lines, stamps, ttl, n) == AllottedState(m, sku, ref, lines, stamps, ttl, n)
    ensures n < |lines| && lines[n].sku == sku ==>
      ReserveLevel(ServedState(m, sku, ref, lines, stamps, ttl, n).level, ref, lines[n].qty, stamps[n] + ttl).Ok?
  {
    if n == 0 {
      assert m.events + [] == m.events;
    } else {
      ServedIsFirstLine(m, sku, ref, lines, stamps, ttl, n - 1);
      var so := AllottedState(m, sku, ref, lines, stamps, ttl, n - 1);
      assert so.events + [] == so.events && m.events + [] == m.events;
    }
  }

  lemma AllServable(ms: map<Sku, ItemState>, ref: Ref, lines: seq<Line>, stamps: seq<Time>, ttl: int)
    requires |lines| == |stamps|
    requires Verdict(LevelsIn(ms), ref, lines, |lines|).None?
    ensures forall n :: 0 <= n < |lines| ==> lines[n].sku in ms
    ensures forall s :: s in ms ==> Servable(ms[s].level, s, ref, lines)
    ensures forall s :: s in ms ==>
      ServedState(ms[s], s, ref, lines, stamps, ttl, |lines|) ==
        AllottedState(ms[s], s, ref, lines, stamps, ttl, |lines|)
  {
    VerdictMeans(LevelsIn(ms), ref, lines, |lines|);
    assert lines[..|lines|] == lines;
    forall n | 0 <= n < |lines| ensures lines[n].sku in ms {
      assert LineError(LevelsIn(ms), ref, lines[n]).None?;
    }
    forall s | s in ms
      ensures Servable(ms[s].level, s, ref, lines)
      ensures ServedState(ms[s], s, ref, lines, stamps, ttl, |lines|) ==
        AllottedState(ms[s], s, ref, lines, stamps, ttl, |lines|)
    {
      forall n | 0 <= n < |lines| && lines[n].sku == s
        ensures lines[n].qty > 0 && (ref in ms[s].level.reservations || lines[n].qty <= ms[s].level.available)
      {
        assert LineError(LevelsIn(ms), ref, lines[n]).None?;
      }
      ServedIsFirstLine(ms[s], s, ref, lines, stamps, ttl, |lines|);
    }
  }

  /** What a successful allocation promises its caller: every line's SKU now holds the reference,
      those that did not hold it before hold the first line's quantity as a pending reservation
      with that line's deadline, nothing on hand is gained or lost, and no other SKU moves. */
  lemma AllocationHolds(levels: Levels, ref: Ref, lines: seq<Line>, stamps: seq<Time>, ttl: int, sku: Sku)
    requires |lines| == |stamps| && sku in levels
    requires Verdict(levels, ref, lines, |lines|).None?
    ensures var next := Allotted(levels[sku], sku, ref, lines, stamps, ttl, |lines|);
      if Asked(lines, sku, |lines|) && ref !in levels[sku].reservations
      then var k := FirstLine(lines, sku, |lines|);
           && ref in next.reservations
           && next.reservations[ref] == Reservation(ref, lines[k].qty, Pending, stamps[k] + ttl)
           && next.reservations - {ref} == levels[sku].reservations
           && OnHand(next) == OnHand(levels[sku])
           && lines[k].qty > 0
      else next == levels[sku] && (Asked(lines, sku, |lines|) ==> ref in next.reservations)
  {
    VerdictMeans(levels, ref, lines, |lines|);
    assert lines[..|lines|] == lines;
    if Asked(lines, sku, |lines|) && ref !in levels[sku].reservations {
      var k := FirstLine(lines, sku, |lines|);
      assert LineError(levels, ref, lines[k]).None?;
      TotalAdd(levels[sku].reservations, ref, Reservation(ref, lines[k].qty, Pending, stamps[k] + ttl));
    }
  }

  // ---------- The domain service ----------

  /** The item each SKU resolves to: the last one among the first `n` of the list. */
  function IndexUpTo(items: seq<StockItem>, n: nat): (ix: map<Sku, StockItem>)
    requires n <= |items|
    ensures forall s :: s in ix ==> ix[s].sku == s && ix[s] in items
    ensures forall i :: 0 <= i < n ==> items[i].sku in ix
  {
    if n == 0 then map[] else IndexUpTo(items, n - 1)[items[n - 1].sku := items[n - 1]]
  }

  function Index(items: seq<StockItem>): map<Sku, StockItem> {
    IndexUpTo(items, |items|)
  }

  function StatesOf(ix: map<Sku, StockItem>): map<Sku, ItemState>
    reads set s | s in ix :: ix[s]
  {
    map s | s in ix :: ix[s].State()
  }

  /** Indexing pass: later items replace earlier ones of the same SKU. */
  method IndexItems(items: seq<StockItem>) returns (bySku: map<Sku, StockItem>)
    ensures bySku == Index(items)
  {
    bySku := map[];
    for n := 0 to |items|
      invariant bySku == IndexUpTo(items, n)
    {
      bySku := bySku[items[n].sku := items[n]];
    }
  }

  /** Checking pass: changes nothing, stops at the first bad line. */
  method CheckLines(bySku: map<Sku, StockItem>, ref: Ref, lines: seq<Line>) returns (err: Option<StockError>)
    requires !ref.IsZero()
    ensures err == Verdict(LevelsIn(StatesOf(bySku)), ref, lines, |lines|)
  {
    for i := 0 to |lines|
      invariant Verdict(LevelsIn(StatesOf(bySku)), ref, lines, i).None?
    {
      var l := lines[i];
      if l.sku !in bySku {
        BadLineDecides(LevelsIn(StatesOf(bySku)), ref, lines, i + 1, |lines|);
        return Some(StockItemNotFound);
      }
      var it := bySku[l.sku];
      if l.qty == 0 {
        BadLineDecides(LevelsIn(StatesOf(bySku)), ref, lines, i + 1, |lines|);
        return Some(InvalidQuantity);
      }
      if ref in it.reservations {
        continue;
      }
      if l.qty > it.available {
        BadLineDecides(LevelsIn(StatesOf(bySku)), ref, lines, i + 1, |lines|);
        return Some(InsufficientStock);
      }
    }
    return None;
  }

  /** Reserving pass over the indexed items, the set `objects`. */
  method ReserveLines(bySku: map<Sku, StockItem>, ref: Ref, lines: seq<Line>, stamps: seq<Time>, ttl: int,
                      ghost objects: set<StockItem>)
    requires |stamps| == |lines|
    requires forall s :: s in bySku ==> bySku[s].sku == s && bySku[s] in objects
    requires forall n :: 0 <= n < |lines| ==> lines[n].sku in bySku
    requires forall s :: s in bySku ==> Servable(bySku[s].State().level, s, ref, lines)
    modifies objects
    ensures forall s :: s in bySku ==>
      bySku[s].State() == ServedState(old(bySku[s].State()), s, ref, lines, stamps, ttl, |lines|)
  {
    hide Servable, ReserveLevel, ReservedState;
    for n := 0 to |lines|
      invariant forall s :: s in bySku ==>
        bySku[s].State() == ServedState(old(bySku[s].State()), s, ref, lines, stamps, ttl, n)
    {
      var l := lines[n];
      var it := bySku[l.sku];
      ServedIsFirstLine(old(it.State()), l.sku, ref, lines, stamps, ttl, n);
      var e := it.Reserve(ref, l.qty, stamps[n], ttl);
      assert e.None?;  // the defensive return of the second pass is never taken
    }
  }

  /** All or nothing over any list of items and lines: items may repeat, several items may carry
      the same SKU, lines may repeat a SKU. `stamps` are the clock readings, one per line. */
  method Allocate(items: seq<StockItem>, ref: Ref, lines: seq<Line>, stamps: seq<Time>, ttl: int)
    returns (err: Option<StockError>)
    requires |stamps| == |lines|
    modifies items
    ensures err == Verdict(old(LevelsIn(StatesOf(Index(items)))), ref, lines, |lines|)
    ensures forall it :: it in items ==>
      it.State() == if err.None? && Index(items)[it.sku] == it
                     then AllottedState(old(it.State()), it.sku, ref, lines, stamps, ttl, |lines|)
                     else old(it.State())
  {
    if ref.IsZero() {
      return Some(InvalidRef);
    }
    var bySku := IndexItems(items);
    err := CheckLines(bySku, ref, lines);
    if err.Some? {
      return;
    }
    ghost var before, objects := StatesOf(bySku), set s | s in bySku :: bySku[s];
    AllServable(before, ref, lines, stamps, ttl);
    assert forall s :: s in bySku ==> before[s] == bySku[s].State();
    ReserveLines(bySku, ref, lines, stamps, ttl, objects);
    assert forall it :: it in items && bySku[it.sku] != it ==> it !in objects;
  }
}
