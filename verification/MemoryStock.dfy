/**
 The in-memory adapter: committed rows, loaders, and a `Save` that checks versions against the
 committed rows and only stages what it will write. The commit then overwrites without checking
 again.
 */
module MemoryStock {
  import opened Common
  import opened Stock
  import opened StockStore
  import Allocation
  import Warehouse

  type Rows = map<Sku, StockRow>

  datatype Keyed = Keyed(key: Sku, row: StockRow)

  function ItemAt(v: View, s: Sku): Saved
    requires s in v
  {
    Saved(v[s].id, s, v[s].version, v[s].level)
  }

  function LevelsOf(v: View): Allocation.Levels {
    map s | s in v :: v[s].level
  }

  // ---------- The rule of saving, on values ----------

  /** The version a save would write, or a conflict: a new item must not exist yet, an old one
      must still be at the version that was read. */
  function NextVersion(v: View, x: Saved): Option<nat> {
    if x.version == 0 then if x.sku in v then None else Some(1)
    else if x.sku !in v || v[x.sku].version != x.version then None
    else Some(x.version + 1)
  }

  function Written(v: View, x: Saved): View {
    v[x.sku := Stored(x.id, x.version + 1, x.level)]
  }

  /** Writing the first `n` items; a later item of the same SKU replaces an earlier one. */
  function WriteAll(v: View, xs: seq<Saved>, n: nat): View
    requires n <= |xs|
  {
    if n == 0 then v else Written(WriteAll(v, xs, n - 1), xs[n - 1])
  }

  /** What memory makes of a save: every item is checked against the rows as they were. */
  function MemorySave(v: View, xs: seq<Saved>): Result<View, StoreError> {
    if forall i :: 0 <= i < |xs| ==> NextVersion(v, xs[i]).Some? then Ok(WriteAll(v, xs, |xs|)) else Err(Conflict)
  }

  lemma {:induction false} WriteAllLast(v: View, xs: seq<Saved>, n: nat, i: nat)
    requires i < n <= |xs|
    requires forall j :: i < j < n ==> xs[j].sku != xs[i].sku
    ensures xs[i].sku in WriteAll(v, xs, n)
    ensures WriteAll(v, xs, n)[xs[i].sku] == Stored(xs[i].id, xs[i].version + 1, xs[i].level)
  {
    if i < n - 1 { WriteAllLast(v, xs, n - 1, i); }
  }

  lemma {:induction false} WriteAllElsewhere(v: View, xs: seq<Saved>, n: nat, s: Sku)
    requires n <= |xs| && forall j :: 0 <= j < n ==> xs[j].sku != s
    ensures s in WriteAll(v, xs, n) <==> s in v
    ensures s in v ==> WriteAll(v, xs, n)[s] == v[s]
  {
    if n > 0 { WriteAllElsewhere(v, xs, n - 1, s); }
  }

  // ---------- The store ----------

  ghost predicate AllDistinct(items: seq<StockItem>) {
    forall i, j :: 0 <= i < j < |items| ==> items[i] != items[j]
  }

  /** The items are, one by one, what `xs` says. */
  ghost predicate Match(items: seq<StockItem>, xs: seq<Saved>)
    reads items
  {
    && |items| == |xs|
    && forall i :: 0 <= i < |items| ==> AsSaved(items[i]) == xs[i]
  }

  ghost predicate FromView(v: View, xs: seq<Saved>) {
    forall i :: 0 <= i < |xs| ==> xs[i].sku in v && xs[i] == ItemAt(v, xs[i].sku)
  }

  ghost predicate DistinctSkus(xs: seq<Saved>) {
    forall i, j :: 0 <= i < j < |xs| ==> xs[i].sku != xs[j].sku
  }

  function SkusOf(xs: seq<Saved>): set<Sku> {
    set i | 0 <= i < |xs| :: xs[i].sku
  }

  /** What loading a list of SKUs finds, copies included. */
  function Found(v: View, skus: seq<Sku>, n: nat): seq<Saved>
    requires n <= |skus|
  {
    if n == 0 then []
    else if skus[n - 1] in v then Found(v, skus, n - 1) + [ItemAt(v, skus[n - 1])]
    else Found(v, skus, n - 1)
  }

  lemma {:induction false} FoundIsFromView(v: View, skus: seq<Sku>, n: nat)
    requires n <= |skus|
    ensures FromView(v, Found(v, skus, n))
    ensures forall i :: 0 <= i < n && skus[i] in v ==> ItemAt(v, skus[i]) in Found(v, skus, n)
  {
    if n > 0 { FoundIsFromView(v, skus, n - 1); }
  }

  lemma {:induction false} FoundTwice(v: View, skus: seq<Sku>, n: nat, i: nat, j: nat)
    requires i < j < n <= |skus| && skus[i] == skus[j] && skus[i] in v
    ensures !DistinctSkus(Found(v, skus, n))
  {
    if j < n - 1 {
      FoundTwice(v, skus, n - 1, i, j);
      var before := Found(v, skus, n - 1);
      var a, b :| 0 <= a < b < |before| && before[a].sku == before[b].sku;
      assert before <= Found(v, skus, n);
      assert Found(v, skus, n)[a].sku == Found(v, skus, n)[b].sku;
    } else {
      FoundIsFromView(v, skus, n - 1);
      var before := Found(v, skus, n - 1);
      var a :| 0 <= a < |before| && before[a] == ItemAt(v, skus[i]);
      assert Found(v, skus, n)[a].sku == Found(v, skus, n)[|before|].sku;
    }
  }

  /** What is found is every stocked SKU of the list, copy by copy and in the order of the list. */
  lemma {:induction false} FoundInOrder(v: View, skus: seq<Sku>, n: nat)
    requires n <= |skus|
    ensures forall i :: 0 <= i < n && skus[i] in v ==> Found(v, skus, i) + [ItemAt(v, skus[i])] <= Found(v, skus, n)
  {
    if n > 0 { FoundInOrder(v, skus, n - 1); }
  }

  /** The positions among the first `n` that name a stocked SKU. */
  function StockedAt(v: View, skus: seq<Sku>, n: nat): set<nat>
    requires n <= |skus|
  {
    set i: nat | i < n && skus[i] in v
  }

  lemma {:induction false} FoundAll(v: View, skus: seq<Sku>, n: nat)
    requires n <= |skus|
    ensures |Found(v, skus, n)| == |StockedAt(v, skus, n)|
  {
    if n > 0 {
      FoundAll(v, skus, n - 1);
      var before := StockedAt(v, skus, n - 1);
      assert n - 1 !in before && StockedAt(v, skus, n) == if skus[n - 1] in v then before + {n - 1} else before;
    }
  }

  /** Without repeated stocked SKUs nothing is found twice. */
  lemma {:induction false} FoundOnce(v: View, skus: seq<Sku>, n: nat)
    requires n <= |skus|
    requires forall i, j :: 0 <= i < j < n && skus[i] == skus[j] ==> skus[i] !in v
    ensures DistinctSkus(Found(v, skus, n))
    ensures forall k :: 0 <= k < |Found(v, skus, n)| ==> Found(v, skus, n)[k].sku in skus[..n]
  {
    if n > 0 {
      FoundOnce(v, skus, n - 1);
      assert skus[..n] == skus[..n - 1] + [skus[n - 1]];
    }
  }

  function SkusUpTo(xs: seq<Saved>, n: nat): set<Sku>
    requires n <= |xs|
  {
    set i | 0 <= i < n :: xs[i].sku
  }

  class StockRows {
    var m: Rows
    /** The stored items the rows stand for. */
    ghost var view: View

    ghost predicate Valid()
      reads this
    {
      && m.Keys == view.Keys
      && forall s :: s in m ==> RowOf(m[s], ItemAt(view, s)) && view[s].version > 0
    }

    constructor ()
      ensures Valid() && view == map[]
    {
      m, view := map[], map[];
    }

    method HasReservation(s: Sku, ref: Ref) returns (b: bool)
      requires Valid() && s in m
      ensures b <==> s in Warehouse.Holding(LevelsOf(view), ref)
    {
      LoaderPredicates(m[s], ItemAt(view, s), 0, ref);
      b := RowHasReservation(m[s], ref.text);
    }

    method HasExpiredPending(s: Sku, before: Time) returns (b: bool)
      requires Valid() && s in m
      ensures b <==> s in Warehouse.Affected(LevelsOf(view), before)
    {
      LoaderPredicates(m[s], ItemAt(view, s), before, Ref(""));
      b := RowHasExpiredPending(m[s], before);
    }

    method Rebuild(s: Sku) returns (item: StockItem)
      requires Valid() && s in m
      ensures fresh(item) && AsSaved(item) == ItemAt(view, s) && item.events == []
    {
      assert RowOf(m[s], ItemAt(view, s));
      var r := StockRowToStockItem(m[s]);
      item := r.value;
    }

    /** Rebuilds one committed item. */
    method Load(sku: Sku) returns (item: Option<StockItem>)
      requires Valid()
      ensures item.Some? <==> sku in view
      ensures item.Some? ==> fresh(item.value) && AsSaved(item.value) == ItemAt(view, sku) && item.value.events == []
    {
      if sku !in m {
        return None;
      }
      var it := Rebuild(sku);
      return Some(it);
    }

    /** Rebuilds an item for each SKU asked for, in order; unknown SKUs are left out, and a SKU
        asked for twice is rebuilt twice. */
    method LoadMany(skus: seq<Sku>) returns (items: seq<StockItem>, ghost xs: seq<Saved>)
      requires Valid()
      ensures Loaded(items, xs, view) && forall i :: 0 <= i < |items| ==> fresh(items[i])
      ensures forall s :: s in SkusOf(xs) <==> s in skus && s in view
      ensures xs == Found(view, skus, |skus|)
    {
      hide Loaded, RowOf, FromView, ItemAt, SkusOf;
      items, xs := [], [];
      NoSkus(view);
      FirstLoaded(view);
      for k := 0 to |skus|
        invariant forall i :: 0 <= i < |items| ==> fresh(items[i])
        invariant Loaded(items, xs, view)
        invariant forall s :: s in SkusOf(xs) <==> s in skus[..k] && s in view
        invariant xs == Found(view, skus, k)
      {
        assert skus[..k + 1] == skus[..k] + [skus[k]];
        if skus[k] !in m {
          continue;
        }
        var item := Rebuild(skus[k]);
        AlsoLoaded(items, xs, view, item, skus[k]);
        items, xs := items + [item], xs + [ItemAt(view, skus[k])];
      }
      assert skus[..|skus|] == skus;
    }

    /** Rebuilds every item that holds the reference, in any order. */
    method LoadByReservation(ref: Ref) returns (items: seq<StockItem>, ghost xs: seq<Saved>)
      requires Valid()
      ensures Loaded(items, xs, view) && forall i :: 0 <= i < |items| ==> fresh(items[i])
      ensures DistinctSkus(xs) && SkusOf(xs) == Warehouse.Holding(LevelsOf(view), ref)
    {
      hide RowOf, LevelsOf, Warehouse.Holding, Loading, ItemAt;
      items, xs := [], [];
      var todo := m.Keys;
      ghost var wanted := Warehouse.Holding(LevelsOf(view), ref);
      KnownSkus(view, ref, ZERO_TIME);
      LoadingStarts(view, wanted);
      while todo != {}
        invariant todo <= m.Keys
        invariant forall i :: 0 <= i < |items| ==> fresh(items[i])
        invariant Loading(items, xs, view, wanted, todo)
        decreases |todo|
      {
        var s :| s in todo;
        var held := HasReservation(s, ref);
        LoadingStep(items, xs, view, wanted, todo, s);
        todo := todo - {s};
        if !held {
          continue;
        }
        var item := Rebuild(s);
        OneMoreLoaded(items, xs, view, wanted, todo, item, s);
        items, xs := items + [item], xs + [ItemAt(view, s)];
      }
      LoadingEnds(items, xs, view, wanted);
    }

    /** Rebuilds items with something expired, in any order, and stops at the limit. */
    method LoadExpiredPending(before: Time, limit: int) returns (items: seq<StockItem>, ghost xs: seq<Saved>)
      requires Valid()
      ensures Loaded(items, xs, view) && forall i :: 0 <= i < |items| ==> fresh(items[i])
      ensures DistinctSkus(xs) && SkusOf(xs) <= Warehouse.Affected(LevelsOf(view), before)
      ensures limit > 0 ==> |xs| <= limit
      ensures limit <= 0 || |xs| < limit ==> SkusOf(xs) == Warehouse.Affected(LevelsOf(view), before)
    {
      hide RowOf, LevelsOf, Warehouse.Affected, Loading, ItemAt;
      items, xs := [], [];
      var todo := m.Keys;
      ghost var wanted := Warehouse.Affected(LevelsOf(view), before);
      KnownSkus(view, Ref(""), before);
      LoadingStarts(view, wanted);
      while todo != {}
        invariant todo <= m.Keys
        invariant forall i :: 0 <= i < |items| ==> fresh(items[i])
        invariant Loading(items, xs, view, wanted, todo)
        invariant limit > 0 ==> |items| < limit
        decreases |todo|
      {
        var s :| s in todo;
        var expired := HasExpiredPending(s, before);
        LoadingStep(items, xs, view, wanted, todo, s);
        todo := todo - {s};
        if !expired {
          continue;
        }
        var item := Rebuild(s);
        OneMoreLoaded(items, xs, view, wanted, todo, item, s);
        items, xs := items + [item], xs + [ItemAt(view, s)];
        LoadingEnds(items, xs, view, wanted);
        if limit > 0 && |items| >= limit {
          return;
        }
      }
      LoadingEnds(items, xs, view, wanted);
    }

    /** The version the item may be written at, or none if somebody else got there first. */
    method CheckVersion(item: StockItem) returns (next: Option<nat>)
      requires Valid()
      ensures next == NextVersion(view, AsSaved(item))
    {
      if item.version == 0 {
        return if item.sku in m then None else Some(1);
      }
      if item.sku in m {
        assert RowOf(m[item.sku], ItemAt(view, item.sku));
      }
      if item.sku !in m || m[item.sku].version != item.version {
        return None;
      }
      return Some(item.version + 1);
    }

    method Put(w: Keyed, ghost x: Saved)
      requires Valid() && StagedAs(w, x)
      modifies this
      ensures Valid() && view == Written(old(view), x)
    {
      m := m[w.key := w.row];
      view := Written(view, x);
    }
  }

  /** Distinct objects that are, one by one, the stored items `xs`, with no events recorded yet. */
  ghost predicate Loaded(items: seq<StockItem>, xs: seq<Saved>, v: View)
    reads items
  {
    && AllDistinct(items) && Match(items, xs) && FromView(v, xs)
    && forall i :: 0 <= i < |items| ==> items[i].events == []
  }

  lemma FirstLoaded(v: View)
    ensures Loaded([], [], v)
  {
  }

  lemma AlsoLoaded(items: seq<StockItem>, xs: seq<Saved>, v: View, item: StockItem, s: Sku)
    requires Loaded(items, xs, v) && item !in items && item.events == []
    requires s in v && AsSaved(item) == ItemAt(v, s)
    ensures Loaded(items + [item], xs + [ItemAt(v, s)], v)
    ensures SkusOf(xs + [ItemAt(v, s)]) == SkusOf(xs) + {s}
  {
    OneMoreItem(v, xs, s);
  }

  /** A loader with the SKUs `todo` still to look at has loaded those it wants among the others. */
  ghost predicate Loading(items: seq<StockItem>, xs: seq<Saved>, v: View, wanted: set<Sku>, todo: set<Sku>)
    reads items
  {
    Loaded(items, xs, v) && DistinctSkus(xs) && SkusOf(xs) == wanted - todo
  }

  lemma LoadingStarts(v: View, wanted: set<Sku>)
    requires wanted <= v.Keys
    ensures Loading([], [], v, wanted, v.Keys)
  {
  }

  lemma LoadingStep(items: seq<StockItem>, xs: seq<Saved>, v: View, wanted: set<Sku>, todo: set<Sku>, s: Sku)
    requires Loading(items, xs, v, wanted, todo) && s in todo
    ensures s !in wanted ==> Loading(items, xs, v, wanted, todo - {s})
    ensures s in wanted ==> Loading(items, xs, v, wanted - {s}, todo - {s})
  {
    if s in wanted {
      assert wanted - {s} - (todo - {s}) == wanted - todo;
    } else {
      assert wanted - (todo - {s}) == wanted - todo;
    }
  }

  lemma OneMoreLoaded(items: seq<StockItem>, xs: seq<Saved>, v: View, wanted: set<Sku>, todo: set<Sku>,
                      item: StockItem, s: Sku)
    requires Loading(items, xs, v, wanted - {s}, todo) && s in wanted && s !in todo
    requires item !in items && item.events == [] && s in v && AsSaved(item) == ItemAt(v, s)
    ensures Loading(items + [item], xs + [ItemAt(v, s)], v, wanted, todo)
  {
    assert s !in SkusOf(xs);
    OneMoreItem(v, xs, s);
    assert wanted - {s} - todo + {s} == wanted - todo;
  }

  lemma LoadingEnds(items: seq<StockItem>, xs: seq<Saved>, v: View, wanted: set<Sku>)
    ensures forall todo :: Loading(items, xs, v, wanted, todo) ==>
      Loaded(items, xs, v) && DistinctSkus(xs) && SkusOf(xs) <= wanted && |items| == |xs|
    ensures Loading(items, xs, v, wanted, {}) ==> SkusOf(xs) == wanted
  {
    assert wanted - {} == wanted;
  }

  lemma KnownSkus(v: View, ref: Ref, before: Time)
    ensures Warehouse.Holding(LevelsOf(v), ref) <= v.Keys && Warehouse.Affected(LevelsOf(v), before) <= v.Keys
  {
  }

  lemma NoSkus(v: View)
    ensures SkusOf([]) == {} && DistinctSkus([]) && FromView(v, [])
  {
  }

  lemma OneMoreItem(v: View, xs: seq<Saved>, s: Sku)
    requires s in v && FromView(v, xs)
    ensures FromView(v, xs + [ItemAt(v, s)])
    ensures SkusOf(xs + [ItemAt(v, s)]) == SkusOf(xs) + {s}
    ensures DistinctSkus(xs) && s !in SkusOf(xs) ==> DistinctSkus(xs + [ItemAt(v, s)])
  {
    var ys := xs + [ItemAt(v, s)];
    forall q | q in SkusOf(xs) + {s} ensures q in SkusOf(ys) {
      if q == s {
        assert ys[|xs|].sku == s;
      } else {
        var i :| 0 <= i < |xs| && xs[i].sku == q;
        assert ys[i].sku == q;
      }
    }
  }

  /** The writes of one transaction; they take effect when it commits. */
  class Staging {
    const target: StockRows
    var writes: seq<Keyed>

    constructor (target: StockRows)
      ensures this.target == target && writes == []
    {
      this.target, writes := target, [];
    }

    /** Checks and stages one item, and moves it on to the version it will be stored at. */
    method SaveItem(item: StockItem, ghost x: Saved) returns (conflict: bool)
      requires target.Valid() && AsSaved(item) == x && Storable(x.sku, x.level)
      modifies `writes, item`version
      ensures conflict <==> NextVersion(target.view, x).None?
      ensures conflict ==> writes == old(writes) && AsSaved(item) == x
      ensures !conflict ==>
        && AsSaved(item) == Advanced(x)
        && |writes| == |old(writes)| + 1 && writes[..|old(writes)|] == old(writes)
        && StagedAs(writes[|old(writes)|], x)
    {
      hide RowOf, Storable;
      var next := target.CheckVersion(item);
      if next.None? {
        return true;
      }
      var row := StockItemToRow(item, next.value);
      writes := writes + [Keyed(item.sku, row)];
      item.MarkPersisted(next.value);
      return false;
    }

    /** Checks and stages all items, or stops at the first conflict. The rows are not touched. */
    method Save(items: seq<StockItem>, ghost xs: seq<Saved>) returns (err: Option<StoreError>)
      requires target.Valid() && writes == []
      requires AllDistinct(items) && Match(items, xs)
      requires forall i :: 0 <= i < |xs| ==> Storable(xs[i].sku, xs[i].level)
      modifies this, items
      ensures err == if MemorySave(target.view, xs).Ok? then None else Some(Conflict)
      ensures err.None? ==> Staged(writes, xs)
      ensures err.None? ==> forall i :: 0 <= i < |xs| ==> AsSaved(items[i]) == Advanced(xs[i])
      ensures forall i :: 0 <= i < |items| ==> items[i].events == old(items[i].events)
    {
      hide RowOf, Storable, NextVersion, StagedAs;
      for i := 0 to |items|
        invariant |writes| == i && forall j :: 0 <= j < i ==> StagedAs(writes[j], xs[j])
        invariant forall j :: 0 <= j < i ==> NextVersion(target.view, xs[j]).Some?
        invariant forall j :: 0 <= j < |items| ==> AsSaved(items[j]) == if j < i then Advanced(xs[j]) else xs[j]
        invariant forall j :: 0 <= j < |items| ==> items[j].events == old(items[j].events)
      {
        var conflict := SaveItem(items[i], xs[i]);
        if conflict {
          return Some(Conflict);
        }
      }
      return None;
    }

    /** Applies the staged writes in one go, without looking at versions again. */
    method Commit(ghost xs: seq<Saved>)
      requires target.Valid() && Staged(writes, xs)
      modifies target
      ensures target.Valid() && target.view == WriteAll(old(target.view), xs, |xs|)
    {
      hide RowOf, Storable;
      for i := 0 to |writes|
        invariant target.Valid() && target.view == WriteAll(old(target.view), xs, i)
      {
        target.Put(writes[i], xs[i]);
      }
    }
  }

  /** The item once it is stored. */
  function Advanced(x: Saved): Saved {
    x.(version := x.version + 1)
  }

  ghost predicate StagedAs(w: Keyed, x: Saved) {
    w.key == x.sku && RowOf(w.row, Advanced(x))
  }

  ghost predicate Staged(writes: seq<Keyed>, xs: seq<Saved>) {
    |writes| == |xs| && forall i :: 0 <= i < |xs| ==> StagedAs(writes[i], xs[i])
  }
}
