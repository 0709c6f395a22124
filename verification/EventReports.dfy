/**
 Events of several items gathered in one list: which events are in it, in which order, and that
 none is in it twice.
 */
module EventReports {
  import opened Common
  import opened Stock
  import opened StockStore

  /** The lists of the first `n` items, one after the other. */
  function Flat(es: seq<seq<Event>>, n: nat): seq<Event>
    requires n <= |es|
  {
    if n == 0 then [] else Flat(es, n - 1) + es[n - 1]
  }

  /** Every item's events stand together, behind those of the items before it. */
  lemma {:induction false} FlatKeepsOrder(es: seq<seq<Event>>, i: nat, n: nat)
    requires i < n <= |es|
    ensures Flat(es, i) + es[i] <= Flat(es, n)
  {
    if i < n - 1 { FlatKeepsOrder(es, i, n - 1); }
  }

  function Sizes(es: seq<seq<Event>>, n: nat): nat
    requires n <= |es|
  {
    if n == 0 then 0 else |es[n - 1]| + Sizes(es, n - 1)
  }

  /** And there are no others. */
  lemma {:induction false} FlatIsComplete(es: seq<seq<Event>>, n: nat)
    requires n <= |es|
    ensures |Flat(es, n)| == Sizes(es, n)
    ensures forall e :: e in Flat(es, n) <==> exists i :: 0 <= i < n && e in es[i]
  {
    if n > 0 { FlatIsComplete(es, n - 1); }
  }

  lemma {:induction false} FlatPrefix(a: seq<seq<Event>>, b: seq<seq<Event>>, n: nat)
    requires n <= |a| <= |b| && forall i :: 0 <= i < n ==> a[i] == b[i]
    ensures Flat(a, n) == Flat(b, n)
  {
    if n > 0 { FlatPrefix(a, b, n - 1); }
  }

  // ---------- No event twice ----------

  function SetIn(events: seq<Event>): set<Event> {
    set e | e in events
  }

  /** As many events as there are different ones. */
  predicate NoRepeats(events: seq<Event>) {
    |events| == |SetIn(events)|
  }

  lemma SetInConcat(a: seq<Event>, b: seq<Event>)
    ensures SetIn(a + b) == SetIn(a) + SetIn(b)
  {
  }

  /** Each list speaks of its own item, and of several copies of an item only one is spoken of. */
  ghost predicate OwnItems(xs: seq<Saved>, es: seq<seq<Event>>) {
    && |es| == |xs|
    && (forall i, e :: 0 <= i < |xs| && e in es[i] ==> e.sku == xs[i].sku)
    && forall i, j :: 0 <= i < j < |xs| && es[i] != [] && es[j] != [] ==> xs[i].sku != xs[j].sku
  }

  lemma NotReportedBefore(xs: seq<Saved>, es: seq<seq<Event>>, n: nat, e: Event)
    requires n < |xs| && OwnItems(xs, es)
    ensures e in Flat(es, n) ==> e !in es[n]
  {
    FlatIsComplete(es, n);
  }

  lemma {:induction false} FlatNoRepeats(xs: seq<Saved>, es: seq<seq<Event>>, n: nat)
    requires n <= |xs| && OwnItems(xs, es)
    requires forall i :: 0 <= i < |es| ==> NoRepeats(es[i])
    ensures NoRepeats(Flat(es, n))
  {
    if n > 0 {
      FlatNoRepeats(xs, es, n - 1);
      SetInConcat(Flat(es, n - 1), es[n - 1]);
      var before, last := SetIn(Flat(es, n - 1)), SetIn(es[n - 1]);
      forall e | e in before ensures e !in last {
        NotReportedBefore(xs, es, n - 1, e);
      }
      assert before !! last;
    }
  }
}
