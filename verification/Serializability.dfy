/**
 Concurrent inventory transactions over PostgreSQL. A transaction reads each item's row and, in a
 later statement, its reservations, so the two may come from different moments; it computes its
 result, writes each item under the condition that the row's version is still the one it read
 (holding the row from then on), and commits. Whatever the interleaving, every commit is the
 domain operation applied to the state committed at that very moment: a torn read never commits.
 */
module Serializability {
  import opened Common
  import opened Stock

  type TxId = nat

  /** The committed tables: the item row and, separately, its reservation rows. */
  datatype VersionedRow = VersionedRow(version: nat, available: nat)

  datatype Database = Database(items: map<Sku, VersionedRow>, reservations: map<Sku, Holders>)

  /** What a transaction has read of one item; version 0 means there was no row. */
  datatype Reading =
    | Unread
    | RowRead(row: VersionedRow)
    | AllRead(row: VersionedRow, reservations: Holders)

  /** A transaction's work on one item: its operation, its reading, and the write it has made. */
  datatype Work = Work(op: ItemOp, reading: Reading, written: Option<Level>)

  type Txn = map<Sku, Work>

  /** `added` sums the committed replenishments of each SKU. */
  datatype State = State(tables: Database, locks: map<Sku, TxId>, txns: map<TxId, Txn>, added: map<Sku, nat>)

  datatype Action =
    | Begin(t: TxId, plan: map<Sku, ItemOp>)
    | BeginByReference(t: TxId, op: ItemOp)  // the items are those a query finds under the reference
    | ReadRow(t: TxId, sku: Sku)
    | ReadReservations(t: TxId, sku: Sku)
    | Write(t: TxId, sku: Sku)
    | Commit(t: TxId)
    | Abort(t: TxId)

  function RowAt(tb: Database, sku: Sku): VersionedRow {
    if sku in tb.items then tb.items[sku] else VersionedRow(0, 0)
  }

  function HoldersAt(tb: Database, sku: Sku): Holders {
    if sku in tb.reservations then tb.reservations[sku] else map[]
  }

  function LevelAt(tb: Database, sku: Sku): Level {
    Level(RowAt(tb, sku).available, HoldersAt(tb, sku))
  }

  function AddedAt(s: State, sku: Sku): nat {
    if sku in s.added then s.added[sku] else 0
  }

  /** SELECT DISTINCT stock_item_id ... WHERE ref = $1, at one moment. */
  function Finds(tb: Database, ref: Ref): set<Sku> {
    set sku | sku in tb.reservations && ref in tb.reservations[sku]
  }

  // ---------- The steps ----------

  /** What the transaction would compute from its reading. */
  ghost function Computed(w: Work): Result<Level, StockError> {
    match w.reading
    case AllRead(row, rs) => ApplyOp(Level(row.available, rs), w.op)
    case _ => Err(StockItemNotFound)
  }

  ghost predicate Enabled(s: State, a: Action) {
    if a.Begin? then a.t !in s.txns
    else if a.BeginByReference? then a.t !in s.txns && (a.op.Confirm? || a.op.Release?)
    else
      && a.t in s.txns
      && match a
         case ReadRow(t, sku) => sku in s.txns[t] && s.txns[t][sku].reading.Unread?
         case ReadReservations(t, sku) => sku in s.txns[t] && s.txns[t][sku].reading.RowRead?
         case Write(t, sku) =>
           // UPDATE ... WHERE sku = $3 AND version = $4, or an INSERT guarded by the unique SKU;
           // it waits for whoever holds the row, and only replenishment inserts.
           && sku in s.txns[t] && sku !in s.locks
           && s.txns[t][sku].reading.AllRead?
           && Computed(s.txns[t][sku]).Ok?
           && RowAt(s.tables, sku).version == s.txns[t][sku].reading.row.version
           && (RowAt(s.tables, sku).version == 0 ==> s.txns[t][sku].op.Replenish?)
         case Commit(t) => forall sku :: sku in s.txns[t] ==> s.txns[t][sku].written.Some?
         case _ => true
  }

  function WithWork(s: State, t: TxId, sku: Sku, w: Work): State
    requires t in s.txns
  {
    s.(txns := s.txns[t := s.txns[t][sku := w]])
  }

  function Unlock(locks: map<Sku, TxId>, t: TxId): map<Sku, TxId> {
    map sku | sku in locks && locks[sku] != t :: locks[sku]
  }

  ghost function Step(s: State, a: Action): State
    requires Enabled(s, a)
  {
    match a
    case Begin(t, plan) =>
      s.(txns := s.txns[t := map sku | sku in plan :: Work(plan[sku], Unread, None)])
    case BeginByReference(t, op) =>
      s.(txns := s.txns[t := map sku | sku in Finds(s.tables, op.ref) :: Work(op, Unread, None)])
    case ReadRow(t, sku) =>
      WithWork(s, t, sku, s.txns[t][sku].(reading := RowRead(RowAt(s.tables, sku))))
    case ReadReservations(t, sku) =>
      var w := s.txns[t][sku];
      WithWork(s, t, sku, w.(reading := AllRead(w.reading.row, HoldersAt(s.tables, sku))))
    case Write(t, sku) =>
      var w := s.txns[t][sku];
      WithWork(s, t, sku, w.(written := Some(Computed(w).value))).(locks := s.locks[sku := t])
    case Commit(t) =>
      var tx := s.txns[t];
      State(Database(
              map sku | sku in s.tables.items.Keys + tx.Keys ::
                if sku in tx then VersionedRow(RowAt(s.tables, sku).version + 1, tx[sku].written.value.available)
                else s.tables.items[sku],
              map sku | sku in s.tables.reservations.Keys + tx.Keys ::
                if sku in tx then tx[sku].written.value.reservations else s.tables.reservations[sku]),
            Unlock(s.locks, t),
            s.txns - {t},
            map sku | sku in s.added.Keys + tx.Keys ::
              AddedAt(s, sku) + if sku in tx then Added(tx[sku].op) else 0)
    case Abort(t) =>
      s.(locks := Unlock(s.locks, t), txns := s.txns - {t})
  }

  // ---------- The invariant ----------

  /** A reading is never ahead of the tables; as long as the version has not moved since, it is
      exactly what is committed, even though it was taken in two statements. */
  ghost predicate Current(tb: Database, sku: Sku, r: Reading) {
    match r
    case Unread => true
    case RowRead(row) =>
      row.version <= RowAt(tb, sku).version && (row.version == RowAt(tb, sku).version ==> row == RowAt(tb, sku))
    case AllRead(row, rs) =>
      row.version <= RowAt(tb, sku).version &&
      (row.version == RowAt(tb, sku).version ==> row == RowAt(tb, sku) && rs == HoldersAt(tb, sku))
  }

  /** A write that has been made still stands on the committed version, because its row is held. */
  ghost predicate Held(s: State, t: TxId, sku: Sku, w: Work) {
    w.written.Some? ==>
      && sku in s.locks && s.locks[sku] == t
      && w.reading.AllRead?
      && w.reading.row.version == RowAt(s.tables, sku).version
      && Computed(w) == Ok(w.written.value)
      && (w.reading.row.version == 0 ==> w.op.Replenish?)
  }

  ghost predicate TxnsCurrent(s: State) {
    forall t, sku :: t in s.txns && sku in s.txns[t] ==>
      Current(s.tables, sku, s.txns[t][sku].reading) && Held(s, t, sku, s.txns[t][sku])
  }

  ghost predicate Balanced(s: State) {
    && (forall sku :: sku in s.tables.items ==> s.tables.items[sku].version > 0)
    && (forall sku :: sku in s.tables.reservations ==> sku in s.tables.items)
    && forall sku :: WellFormed(LevelAt(s.tables, sku)) && OnHand(LevelAt(s.tables, sku)) == AddedAt(s, sku)
  }

  ghost predicate Inv(s: State) {
    TxnsCurrent(s) && Balanced(s)
  }

  // ---------- Proofs ----------

  /** The heart of the matter: when a transaction commits, everything it wrote is its operation
      applied to the level committed right now, for all its items together, and each version goes
      up by one. Nothing else changes. */
  lemma CommitIsTheOperation(s: State, t: TxId, sku: Sku)
    requires Inv(s) && Enabled(s, Commit(t))
    ensures sku in s.txns[t] ==>
      && ApplyOp(LevelAt(s.tables, sku), s.txns[t][sku].op) == Ok(LevelAt(Step(s, Commit(t)).tables, sku))
      && RowAt(Step(s, Commit(t)).tables, sku).version == RowAt(s.tables, sku).version + 1
    ensures sku !in s.txns[t] ==>
      && LevelAt(Step(s, Commit(t)).tables, sku) == LevelAt(s.tables, sku)
      && RowAt(Step(s, Commit(t)).tables, sku) == RowAt(s.tables, sku)
  {
  }

  lemma CommitBalances(s: State, t: TxId)
    requires Inv(s) && Enabled(s, Commit(t))
    ensures Balanced(Step(s, Commit(t)))
  {
    var n := Step(s, Commit(t));
    forall sku ensures WellFormed(LevelAt(n.tables, sku)) && OnHand(LevelAt(n.tables, sku)) == AddedAt(n, sku) {
      CommitIsTheOperation(s, t, sku);
      if sku in s.txns[t] {
        OpConserves(LevelAt(s.tables, sku), s.txns[t][sku].op);
      }
    }
  }

  /** Others' readings stay honest when somebody commits: a row that changed has a newer version. */
  lemma CommitKeepsTxns(s: State, t: TxId)
    requires Inv(s) && Enabled(s, Commit(t))
    ensures TxnsCurrent(Step(s, Commit(t)))
  {
    var n := Step(s, Commit(t));
    forall u, sku | u in n.txns && sku in n.txns[u]
      ensures Current(n.tables, sku, n.txns[u][sku].reading) && Held(n, u, sku, n.txns[u][sku])
    {
      CommitIsTheOperation(s, t, sku);
      assert n.txns[u] == s.txns[u];
      if sku in s.txns[t] {
        assert s.locks[sku] == t;
      }
    }
  }

  lemma LocalStepKeepsTxns(s: State, a: Action)
    requires Inv(s) && Enabled(s, a) && !a.Commit?
    ensures TxnsCurrent(Step(s, a))
  {
    hide Balanced, ApplyOp, Total, WellFormed, HoldersAt, Finds;
    var n := Step(s, a);
    forall u, sku | u in n.txns && sku in n.txns[u]
      ensures Current(n.tables, sku, n.txns[u][sku].reading) && Held(n, u, sku, n.txns[u][sku])
    {
      if u in s.txns && sku in s.txns[u] {
        assert Current(s.tables, sku, s.txns[u][sku].reading) && Held(s, u, sku, s.txns[u][sku]);
      }
    }
  }

  lemma StepKeepsInv(s: State, a: Action)
    requires Inv(s) && Enabled(s, a)
    ensures Inv(Step(s, a))
  {
    if a.Commit? {
      CommitBalances(s, a.t);
      CommitKeepsTxns(s, a.t);
    } else {
      LocalStepKeepsTxns(s, a);
      assert Step(s, a).tables == s.tables && Step(s, a).added == s.added;
      assert forall sku :: AddedAt(Step(s, a), sku) == AddedAt(s, sku);
    }
  }

  // ---------- Whole runs ----------

  ghost predicate Run(s: State, actions: seq<Action>, end: State)
    decreases |actions|
  {
    if actions == [] then end == s
    else Enabled(s, actions[0]) && Run(Step(s, actions[0]), actions[1..], end)
  }

  lemma {:induction false} RunKeepsInv(s: State, actions: seq<Action>, end: State)
    requires Inv(s) && Run(s, actions, end)
    ensures Inv(end)
    decreases |actions|
  {
    if actions != [] {
      StepKeepsInv(s, actions[0]);
      RunKeepsInv(Step(s, actions[0]), actions[1..], end);
    }
  }

  const INITIAL := State(Database(map[], map[]), map[], map[], map[])

  /** In every state any interleaving can reach, each SKU has well-formed reservations, at most one
      per reference, and holds exactly what was replenished in total. */
  lemma ReachableIsBalanced(actions: seq<Action>, end: State, sku: Sku)
    requires Run(INITIAL, actions, end)
    ensures WellFormed(LevelAt(end.tables, sku))
    ensures LevelAt(end.tables, sku).available + Total(HoldersAt(end.tables, sku)) == AddedAt(end, sku)
  {
    RunKeepsInv(INITIAL, actions, end);
  }

  /** In every reachable state, a transaction that is able to commit commits its operations as if
      it had read everything just now: torn and stale readings never get this far. */
  lemma EveryCommitIsTheOperation(actions: seq<Action>, s: State, t: TxId)
    requires Run(INITIAL, actions, s) && Enabled(s, Commit(t))
    ensures forall sku :: sku in s.txns[t] ==>
      && ApplyOp(LevelAt(s.tables, sku), s.txns[t][sku].op) == Ok(LevelAt(Step(s, Commit(t)).tables, sku))
      && RowAt(Step(s, Commit(t)).tables, sku).version == RowAt(s.tables, sku).version + 1
    ensures forall sku :: sku !in s.txns[t] ==>
      LevelAt(Step(s, Commit(t)).tables, sku) == LevelAt(s.tables, sku)
        && RowAt(Step(s, Commit(t)).tables, sku) == RowAt(s.tables, sku)
  {
    RunKeepsInv(INITIAL, actions, s);
    forall sku
      ensures sku in s.txns[t] ==>
        && ApplyOp(LevelAt(s.tables, sku), s.txns[t][sku].op) == Ok(LevelAt(Step(s, Commit(t)).tables, sku))
        && RowAt(Step(s, Commit(t)).tables, sku).version == RowAt(s.tables, sku).version + 1
      ensures sku !in s.txns[t] ==>
        LevelAt(Step(s, Commit(t)).tables, sku) == LevelAt(s.tables, sku)
          && RowAt(Step(s, Commit(t)).tables, sku) == RowAt(s.tables, sku)
    {
      CommitIsTheOperation(s, t, sku);
    }
  }

  // ---------- Transactions over the items a query found ----------

  /** The state after the first `n` actions of a run. */
  ghost function StateAt(s: State, actions: seq<Action>, n: nat): State
    requires n <= |actions|
    decreases n
  {
    if n == 0 || !Enabled(s, actions[0]) then s else StateAt(Step(s, actions[0]), actions[1..], n - 1)
  }

  predicate Begins(a: Action, t: TxId) {
    (a.Begin? || a.BeginByReference?) && a.t == t
  }

  /** What a step may do to another's unfinished reading. */
  lemma ReadingStep(s: State, a: Action, t: TxId, sku: Sku)
    requires Enabled(s, a) && !Begins(a, t)
    requires t in Step(s, a).txns && sku in Step(s, a).txns[t]
    ensures t in s.txns && sku in s.txns[t] && Step(s, a).txns[t][sku].op == s.txns[t][sku].op
    ensures Step(s, a).txns[t][sku].reading.AllRead? ==>
      if s.txns[t][sku].reading.AllRead? then Step(s, a).txns[t][sku].reading == s.txns[t][sku].reading
      else Step(s, a).txns[t][sku].reading.reservations == HoldersAt(s.tables, sku)
  {
  }

  /** The reservations a transaction works on are those committed at one moment of its life. */
  lemma {:induction false} ReadAtSomeMoment(s: State, actions: seq<Action>, end: State, t: TxId, sku: Sku)
    returns (i: nat)
    requires Run(s, actions, end) && forall a :: a in actions ==> !Begins(a, t)
    requires t in end.txns && sku in end.txns[t] && end.txns[t][sku].reading.AllRead?
    ensures t in s.txns && sku in s.txns[t] && end.txns[t][sku].op == s.txns[t][sku].op
    ensures i <= |actions|
    ensures if s.txns[t][sku].reading.AllRead? then end.txns[t][sku].reading == s.txns[t][sku].reading
            else end.txns[t][sku].reading.reservations == HoldersAt(StateAt(s, actions, i).tables, sku)
    decreases |actions|
  {
    if actions == [] {
      i := 0;
    } else {
      var n := Step(s, actions[0]);
      assert !Begins(actions[0], t);
      var j := ReadAtSomeMoment(n, actions[1..], end, t, sku);
      ReadingStep(s, actions[0], t, sku);
      i := if n.txns[t][sku].reading.AllRead? then 0 else j + 1;
    }
  }

  /** What a transaction has found stays its set of items. */
  lemma {:induction false} ItemsStay(s: State, actions: seq<Action>, end: State, t: TxId)
    requires Run(s, actions, end) && forall a :: a in actions ==> !Begins(a, t)
    requires t in end.txns
    ensures t in s.txns && end.txns[t].Keys == s.txns[t].Keys
    decreases |actions|
  {
    if actions != [] {
      assert !Begins(actions[0], t);
      ItemsStay(Step(s, actions[0]), actions[1..], end, t);
      WorkingStep(s, actions[0], t);
    }
  }

  lemma WorkingStep(s: State, a: Action, t: TxId)
    requires Enabled(s, a) && !Begins(a, t) && t in Step(s, a).txns
    ensures t in s.txns && Step(s, a).txns[t].Keys == s.txns[t].Keys
  {
  }

  /** One found item: it is confirmed without an error exactly if it was read at a moment `i` when it
      held the reference. Nobody is asked for a version then, so find and reading need not agree. */
  lemma FoundItem(s: State, t: TxId, ref: Ref, actions: seq<Action>, end: State, sku: Sku) returns (i: nat)
    requires Enabled(s, BeginByReference(t, Confirm(ref)))
    requires Run(Step(s, BeginByReference(t, Confirm(ref))), actions, end) && forall a :: a in actions ==> !Begins(a, t)
    requires t in end.txns && sku in end.txns[t] && end.txns[t][sku].reading.AllRead?
    ensures sku in Finds(s.tables, ref) && i <= |actions|
    ensures var seen := StateAt(Step(s, BeginByReference(t, Confirm(ref))), actions, i).tables;
      && end.txns[t][sku].reading.reservations == HoldersAt(seen, sku)
      && (Computed(end.txns[t][sku]).Err? <==> ref !in HoldersAt(seen, sku))
    ensures Computed(end.txns[t][sku]).Err? ==> Computed(end.txns[t][sku]) == Err(ReservationNotFound)
  {
    i := ReadAtSomeMoment(Step(s, BeginByReference(t, Confirm(ref))), actions, end, t, sku);
  }

  /** The first error among the first `n` items, as they are confirmed one after the other. */
  ghost function FirstError(tx: Txn, items: seq<Sku>, n: nat): Option<StockError>
    requires n <= |items| && forall k :: 0 <= k < |items| ==> items[k] in tx
  {
    if n == 0 then None
    else if FirstError(tx, items, n - 1).Some? then FirstError(tx, items, n - 1)
    else
      match Computed(tx[items[n - 1]])
      case Ok(_) => None
      case Err(e) => Some(e)
  }

  /** How a confirmation ends before it saves anything: finding nothing is "not found" as well. */
  ghost function ConfirmationEnds(tx: Txn, items: seq<Sku>): Option<StockError>
    requires forall k :: 0 <= k < |items| ==> items[k] in tx
  {
    if items == [] then Some(ReservationNotFound) else FirstError(tx, items, |items|)
  }

  lemma {:induction false} FirstErrorMeans(tx: Txn, items: seq<Sku>, n: nat)
    requires n <= |items| && forall k :: 0 <= k < |items| ==> items[k] in tx
    requires forall k :: 0 <= k < |items| && Computed(tx[items[k]]).Err? ==>
      Computed(tx[items[k]]) == Err(ReservationNotFound)
    ensures FirstError(tx, items, n) ==
      if exists k :: 0 <= k < n && Computed(tx[items[k]]).Err? then Some(ReservationNotFound) else None
  {
    if n > 0 { FirstErrorMeans(tx, items, n - 1); }
  }

  /** A confirmation that has loaded all it found, in whatever order, ends in "not found" exactly if
      it found nothing or some found item was read at a moment when it had lost the reference again;
      `at` are the moments the items were read. It fails for no other reason. */
  lemma FoundThenLost(s: State, t: TxId, ref: Ref, actions: seq<Action>, end: State, items: seq<Sku>)
    returns (at: map<Sku, nat>)
    requires Enabled(s, BeginByReference(t, Confirm(ref)))
    requires Run(Step(s, BeginByReference(t, Confirm(ref))), actions, end) && forall a :: a in actions ==> !Begins(a, t)
    requires t in end.txns && forall sku :: sku in end.txns[t] ==> end.txns[t][sku].reading.AllRead?
    requires forall sku :: sku in items <==> sku in end.txns[t]
    ensures end.txns[t].Keys == Finds(s.tables, ref) == at.Keys
    ensures forall sku :: sku in at ==>
      && at[sku] <= |actions|
      && end.txns[t][sku].reading.reservations ==
           HoldersAt(StateAt(Step(s, BeginByReference(t, Confirm(ref))), actions, at[sku]).tables, sku)
    ensures ConfirmationEnds(end.txns[t], items) == Some(ReservationNotFound) <==>
      || Finds(s.tables, ref) == {}
      || exists sku :: sku in at &&
           ref !in HoldersAt(StateAt(Step(s, BeginByReference(t, Confirm(ref))), actions, at[sku]).tables, sku)
    ensures ConfirmationEnds(end.txns[t], items) in {None, Some(ReservationNotFound)}
  {
    hide Run, Enabled, Computed, StateAt;
    var found := Step(s, BeginByReference(t, Confirm(ref)));
    ItemsStay(found, actions, end, t);
    FoundKeys(s, t, ref);
    at := ReadAll(s, t, ref, actions, end, items, |items|);
    FirstErrorMeans(end.txns[t], items, |items|);
    assert items == [] <==> Finds(s.tables, ref) == {} by {
      if items != [] { assert items[0] in items; }
    }
  }

  lemma FoundKeys(s: State, t: TxId, ref: Ref)
    requires Enabled(s, BeginByReference(t, Confirm(ref)))
    ensures var n := Step(s, BeginByReference(t, Confirm(ref)));
      t in n.txns && n.txns[t].Keys == Finds(s.tables, ref)
  {
  }

  /** The moments at which the first `n` items were read. */
  lemma {:induction false} ReadAll(s: State, t: TxId, ref: Ref, actions: seq<Action>, end: State, items: seq<Sku>,
                                   n: nat)
    returns (at: map<Sku, nat>)
    requires Enabled(s, BeginByReference(t, Confirm(ref)))
    requires Run(Step(s, BeginByReference(t, Confirm(ref))), actions, end) && forall a :: a in actions ==> !Begins(a, t)
    requires t in end.txns && n <= |items|
    requires forall k :: 0 <= k < |items| ==>
      items[k] in end.txns[t] && end.txns[t][items[k]].reading.AllRead?
    ensures forall sku :: sku in at <==> sku in items[..n]
    ensures forall sku :: sku in at ==>
      && sku in end.txns[t] && at[sku] <= |actions|
      && var seen := StateAt(Step(s, BeginByReference(t, Confirm(ref))), actions, at[sku]).tables;
      && end.txns[t][sku].reading.reservations == HoldersAt(seen, sku)
      && (Computed(end.txns[t][sku]).Err? <==> ref !in HoldersAt(seen, sku))
      && (Computed(end.txns[t][sku]).Err? ==> Computed(end.txns[t][sku]) == Err(ReservationNotFound))
  {
    hide Run, Enabled, Step, Computed, StateAt;
    at := map[];
    if n > 0 {
      var before := ReadAll(s, t, ref, actions, end, items, n - 1);
      var i := FoundItem(s, t, ref, actions, end, items[n - 1]);
      at := before[items[n - 1] := i];
      assert items[..n] == items[..n - 1] + [items[n - 1]];
    }
  }

  /** An item that loses the reference only after it was read cannot be written any more, so the
      confirmation meets a conflict and is tried again. */
  lemma LostAfterReadingConflicts(actions: seq<Action>, s: State, t: TxId, sku: Sku, ref: Ref)
    requires Run(INITIAL, actions, s)
    requires t in s.txns && sku in s.txns[t] && s.txns[t][sku].reading.AllRead? && s.txns[t][sku].op == Confirm(ref)
    requires ref in s.txns[t][sku].reading.reservations && ref !in HoldersAt(s.tables, sku)
    ensures !Enabled(s, Write(t, sku)) && !Enabled(s, Commit(t))
  {
    RunKeepsInv(INITIAL, actions, s);
    assert Current(s.tables, sku, s.txns[t][sku].reading) && Held(s, t, sku, s.txns[t][sku]);
  }

  /** So a confirmation that commits confirms every item it found, and every one of them still
      holds the reference at that moment. */
  lemma CommittedConfirmation(actions: seq<Action>, s: State, t: TxId, ref: Ref, sku: Sku)
    requires Run(INITIAL, actions, s) && Enabled(s, Commit(t))
    requires sku in s.txns[t] && s.txns[t][sku].op == Confirm(ref)
    ensures ref in HoldersAt(s.tables, sku)
    ensures var after := HoldersAt(Step(s, Commit(t)).tables, sku);
      ref in after && after[ref] == ConfirmReservation(HoldersAt(s.tables, sku)[ref])
  {
    EveryCommitIsTheOperation(actions, s, t);
  }

  /** The serial history a run amounts to: the plans in the order they were committed. */
  ghost function Committed(s: State, actions: seq<Action>, end: State): seq<map<Sku, ItemOp>>
    requires Run(s, actions, end)
    decreases |actions|
  {
    if actions == [] then []
    else
      var rest := Committed(Step(s, actions[0]), actions[1..], end);
      if actions[0].Commit? then [PlanOf(s.txns[actions[0].t])] + rest else rest
  }

  function PlanOf(tx: Txn): map<Sku, ItemOp> {
    map sku | sku in tx :: tx[sku].op
  }

  /** Executing the plans one after the other, each as a whole, on nothing but levels. */
  ghost predicate Serially(before: Sku -> Level, plans: seq<map<Sku, ItemOp>>, after: Sku -> Level)
    decreases |plans|
  {
    if plans == [] then forall sku :: after(sku) == before(sku)
    else exists mid: Sku -> Level :: PlanTakes(before, plans[0], mid) && Serially(mid, plans[1..], after)
  }

  ghost predicate PlanTakes(before: Sku -> Level, plan: map<Sku, ItemOp>, mid: Sku -> Level) {
    forall sku ::
      if sku in plan then ApplyOp(before(sku), plan[sku]) == Ok(mid(sku)) else mid(sku) == before(sku)
  }

  /** Every interleaved run has the effect of running its committed transactions alone, one after
      the other, in commit order. */
  lemma {:induction false} RunsAreSerializable(s: State, actions: seq<Action>, end: State)
    requires Inv(s) && Run(s, actions, end)
    ensures Serially(sku => LevelAt(s.tables, sku), Committed(s, actions, end), sku => LevelAt(end.tables, sku))
    decreases |actions|
  {
    if actions != [] {
      var a := actions[0];
      var n := Step(s, a);
      StepKeepsInv(s, a);
      RunsAreSerializable(n, actions[1..], end);
      var before, mid, after :=
        sku => LevelAt(s.tables, sku), sku => LevelAt(n.tables, sku), sku => LevelAt(end.tables, sku);
      if a.Commit? {
        forall sku
          ensures if sku in s.txns[a.t] then ApplyOp(before(sku), s.txns[a.t][sku].op) == Ok(mid(sku))
            else mid(sku) == before(sku)
        {
          CommitIsTheOperation(s, a.t, sku);
        }
        assert PlanTakes(before, PlanOf(s.txns[a.t]), mid);
        assert Committed(s, actions, end)[1..] == Committed(n, actions[1..], end);
      } else {
        assert n.tables == s.tables;
      }
    }
  }

  /** In every reachable state, a write whose item has been read in full is refused for one reason
      only: since the row was read, somebody else committed a newer version of that very item. If
      nobody did, the reading is the committed level, although it was taken in two statements. */
  lemma ConflictMeansInterference(actions: seq<Action>, s: State, t: TxId, sku: Sku)
    requires Run(INITIAL, actions, s)
    requires t in s.txns && sku in s.txns[t] && s.txns[t][sku].reading.AllRead?
    ensures var seen := s.txns[t][sku].reading;
      if RowAt(s.tables, sku).version == seen.row.version
      then LevelAt(s.tables, sku) == Level(seen.row.available, seen.reservations)
      else RowAt(s.tables, sku).version > seen.row.version
  {
    RunKeepsInv(INITIAL, actions, s);
    assert Current(s.tables, sku, s.txns[t][sku].reading);
  }
}
