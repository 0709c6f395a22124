/**
 Where stock items are kept. Two adapters store them: rows in memory, written through a staging
 list, and two PostgreSQL tables, written row by row under a version condition. Both are proved
 against one picture of the stored items, `View`, and then compared.
 */
module StockStore {
  import opened Common
  import opened Stock
  import Text

  /** One stored item, as either adapter would rebuild it. */
  datatype Stored = Stored(id: string, version: nat, level: Level)

  type View = map<Sku, Stored>

  /** An item handed to `Save`. */
  datatype Saved = Saved(id: string, sku: Sku, version: nat, level: Level)

  datatype StoreError = Conflict | BadRow | Rejected

  function AsSaved(it: StockItem): Saved
    reads it
  {
    Saved(it.id, it.sku, it.version, it.State().level)
  }

  ghost predicate CanonicalRefs(rs: Holders) {
    forall r :: r in rs ==> !r.IsZero() && Text.Trimmed(r.text)
  }

  /** Identifiers were trimmed when they entered the system, and the level is well formed. */
  ghost predicate Storable(sku: Sku, l: Level) {
    && Text.Trimmed(sku.text) && sku.text != ""
    && CanonicalRefs(l.reservations)
    && WellFormed(l)
  }

  /** Operations whose reference was trimmed on entry keep an item storable. */
  lemma OpKeepsStorable(sku: Sku, l: Level, op: ItemOp)
    requires Storable(sku, l) && ApplyOp(l, op).Ok?
    requires op.Reserve? ==> Text.Trimmed(op.ref.text)
    ensures Storable(sku, ApplyOp(l, op).value)
  {
    OpConserves(l, op);
  }

  // ---------- Validation on the way in ----------

  function NewRef(text: string): Result<Ref, StoreError> {
    if Text.Trim(text) == "" then Err(BadRow) else Ok(Ref(Text.Trim(text)))
  }

  function NewSku(text: string): Result<Sku, StoreError> {
    if Text.Trim(text) == "" then Err(BadRow) else Ok(Sku(Text.Trim(text)))
  }

  function NewQuantity(n: int): Result<nat, StoreError> {
    if n < 0 then Err(BadRow) else Ok(n)
  }

  /** An identifier is accepted with any white space around it, and is what stands between. */
  lemma IdentifierIsTheCore(a: string, t: string, b: string)
    requires Text.Blank(a) && Text.Blank(b) && Text.Trimmed(t)
    ensures t != "" ==> NewRef(a + t + b) == Ok(Ref(t)) && NewSku(a + t + b) == Ok(Sku(t))
    ensures t == "" ==> NewRef(a + t + b) == Err(BadRow) && NewSku(a + t + b) == Err(BadRow)
  {
    Text.TrimIsTheCore(a, t, b);
  }

  /** Only blank text is refused, and only negative quantities are. */
  lemma RefusedOnTheWayIn(text: string, n: int)
    ensures NewRef(text).Err? <==> Text.Blank(text)
    ensures NewSku(text).Err? <==> Text.Blank(text)
    ensures NewQuantity(n).Err? <==> n < 0
    ensures NewRef(text).Ok? ==> NewRef(text).value.text == Text.Trim(text)
    ensures NewSku(text).Ok? ==> NewSku(text).value.text == Text.Trim(text)
    ensures NewQuantity(n).Ok? ==> NewQuantity(n).value == n
  {
    Text.BlankIsNothing(text);
  }

  // ---------- Rows in memory ----------

  datatype ReservationRow = ReservationRow(ref: string, quantity: int, status: Status, expiresAt: Time)

  datatype StockRow = StockRow(id: string, sku: string, available: int, version: nat, reservations: seq<ReservationRow>)

  function DecodeReservation(rr: ReservationRow): Result<Reservation, StoreError> {
    match NewRef(rr.ref)
    case Err(e) => Err(e)
    case Ok(ref) =>
      match NewQuantity(rr.quantity)
      case Err(e) => Err(e)
      case Ok(q) => Ok(Reservation(ref, q, rr.status, rr.expiresAt))
  }

  /** The holders the first `n` rows stand for; a later row of the same reference wins. */
  function DecodeReservations(rows: seq<ReservationRow>, n: nat): Result<Holders, StoreError>
    requires n <= |rows|
  {
    if n == 0 then Ok(map[])
    else
      match DecodeReservations(rows, n - 1)
      case Err(e) => Err(e)
      case Ok(rs) =>
        match DecodeReservation(rows[n - 1])
        case Err(e) => Err(e)
        case Ok(r) => Ok(rs[r.ref := r])
  }

  function DecodeRow(row: StockRow): Result<Saved, StoreError> {
    if row.available < 0 then Err(BadRow)
    else
      match NewSku(row.sku)
      case Err(e) => Err(e)
      case Ok(sku) =>
        match DecodeReservations(row.reservations, |row.reservations|)
        case Err(e) => Err(e)
        case Ok(rs) => Ok(Saved(row.id, sku, row.version, Level(row.available, rs)))
  }

  /** The reservation a row stands for. */
  function ReservationIn(rr: ReservationRow): Reservation
    requires rr.quantity >= 0
  {
    Reservation(Ref(Text.Trim(rr.ref)), rr.quantity, rr.status, rr.expiresAt)
  }

  predicate ReadableReservation(rr: ReservationRow) {
    Text.Trim(rr.ref) != "" && rr.quantity >= 0
  }

  function EncodeReservation(r: Reservation): ReservationRow {
    ReservationRow(r.ref.text, r.qty, r.status, r.expiresAt)
  }

  /** Encoding a list of reservations row by row and decoding it again gives the same holders. */
  lemma {:induction false} EncodedReadsBack(list: seq<Reservation>, rows: seq<ReservationRow>, n: nat)
    requires n <= |list| == |rows|
    requires forall i :: 0 <= i < |list| ==> rows[i] == EncodeReservation(list[i])
    requires CanonicalRefs(Filed(list, n))
    ensures DecodeReservations(rows, n) == Ok(Filed(list, n))
  {
    if n > 0 {
      var r := list[n - 1];
      assert r.ref in Filed(list, n);
      Text.TrimSettles(r.ref.text);
      forall k | k in Filed(list, n - 1) ensures !k.IsZero() && Text.Trimmed(k.text) {
        assert k in Filed(list, n);
      }
      EncodedReadsBack(list, rows, n - 1);
    }
  }

  /** The row stands for the item: it reads back as it, and its reservation rows are the item's
      holders, each written once and under its own reference. */
  ghost predicate RowOf(row: StockRow, x: Saved) {
    && DecodeRow(row) == Ok(x)
    && Storable(x.sku, x.level)
    && (forall rr :: rr in row.reservations ==>
          Ref(rr.ref) in x.level.reservations && rr == EncodeReservation(x.level.reservations[Ref(rr.ref)]))
    && (forall k :: k in x.level.reservations ==> EncodeReservation(x.level.reservations[k]) in row.reservations)
  }

  /** Writes an item as a row, listing its reservations in any order. The row reads back as the
      same item, whatever the order was. */
  method StockItemToRow(item: StockItem, version: nat) returns (row: StockRow)
    requires Storable(item.sku, item.State().level)
    ensures RowOf(row, AsSaved(item).(version := version))
  {
    var list := item.Reservations();
    var rows: seq<ReservationRow> := [];
    for i := 0 to |list|
      invariant |rows| == i && forall j :: 0 <= j < i ==> rows[j] == EncodeReservation(list[j])
    {
      rows := rows + [EncodeReservation(list[i])];
    }
    EncodedReadsBack(list, rows, |list|);
    forall k | k in item.reservations ensures EncodeReservation(item.reservations[k]) in rows {
      var i :| 0 <= i < |list| && list[i] == item.reservations[k];
      assert rows[i] == EncodeReservation(item.reservations[k]);
    }
    Text.TrimSettles(item.sku.text);
    row := StockRow(item.id, item.sku.text, item.available, version, rows);
  }

  /** The reservations the first `n` rows rebuild to. */
  lemma {:induction false} DecodedIsFiled(rows: seq<ReservationRow>, list: seq<Reservation>, n: nat)
    requires n <= |list| <= |rows|
    requires forall i :: 0 <= i < |list| ==> DecodeReservation(rows[i]) == Ok(list[i])
    ensures DecodeReservations(rows, n) == Ok(Filed(list, n))
  {
    if n > 0 { DecodedIsFiled(rows, list, n - 1); }
  }

  lemma {:induction false} BadRowSpoils(rows: seq<ReservationRow>, bad: nat, n: nat)
    requires bad < n <= |rows| && DecodeReservation(rows[bad]).Err?
    ensures DecodeReservations(rows, n).Err?
  {
    if bad < n - 1 { BadRowSpoils(rows, bad, n - 1); }
  }

  /** A row is readable exactly if no amount is negative and no identifier blank, and stands for the
      item with the same amounts and the trimmed identifiers; of several reservation rows of one
      reference the last counts. */
  lemma DecodedRow(row: StockRow, list: seq<Reservation>)
    requires |list| == |row.reservations|
    requires forall i :: 0 <= i < |list| && ReadableReservation(row.reservations[i]) ==>
      list[i] == ReservationIn(row.reservations[i])
    ensures DecodeRow(row).Ok? <==>
      && row.available >= 0 && Text.Trim(row.sku) != ""
      && forall i :: 0 <= i < |list| ==> ReadableReservation(row.reservations[i])
    ensures DecodeRow(row).Ok? ==>
      DecodeRow(row).value ==
        Saved(row.id, Sku(Text.Trim(row.sku)), row.version, Level(row.available, Filed(list, |list|)))
  {
    hide Text.Trim;
    if bad :| 0 <= bad < |list| && !ReadableReservation(row.reservations[bad]) {
      BadRowSpoils(row.reservations, bad, |list|);
    } else {
      DecodedIsFiled(row.reservations, list, |list|);
    }
  }

  /** Rebuilds an item from a row, checking every stored value again. */
  method StockRowToStockItem(row: StockRow) returns (item: Result<StockItem, StoreError>)
    ensures item.Ok? <==> DecodeRow(row).Ok?
    ensures item.Ok? ==>
      && fresh(item.value)
      && AsSaved(item.value) == DecodeRow(row).value
      && item.value.State().events == []
    ensures item.Err? ==> item.error == BadRow
  {
    var qty := NewQuantity(row.available);
    if qty.Err? { return Err(BadRow); }
    var sku := NewSku(row.sku);
    if sku.Err? { return Err(BadRow); }
    var list: seq<Reservation> := [];
    for i := 0 to |row.reservations|
      invariant |list| == i && forall j :: 0 <= j < i ==> DecodeReservation(row.reservations[j]) == Ok(list[j])
    {
      var r := DecodeReservation(row.reservations[i]);
      if r.Err? {
        BadRowSpoils(row.reservations, i, |row.reservations|);
        return Err(BadRow);
      }
      list := list + [r.value];
    }
    DecodedIsFiled(row.reservations, list, |list|);
    var it := new StockItem.Reconstitute(row.id, sku.value, qty.value, row.version, list);
    return Ok(it);
  }

  // ---------- The predicates of the loaders ----------

  predicate RowHasReservation(row: StockRow, ref: string) {
    exists rr :: rr in row.reservations && rr.ref == ref
  }

  predicate ExpiredRow(rr: ReservationRow, before: Time) {
    rr.status.Pending? && rr.expiresAt != ZERO_TIME && rr.expiresAt <= before
  }

  predicate RowHasExpiredPending(row: StockRow, before: Time) {
    exists rr :: rr in row.reservations && ExpiredRow(rr, before)
  }

  /** The sweep's loader picks a row exactly when the reaper frees something on the item rebuilt
      from it, and the loader by reference picks exactly the items that hold the reference. */
  lemma LoaderPredicates(row: StockRow, x: Saved, before: Time, ref: Ref)
    requires RowOf(row, x)
    ensures RowHasExpiredPending(row, before) <==> Expired(x.level, before) != {}
    ensures RowHasReservation(row, ref.text) <==> ref in x.level.reservations
  {
    if RowHasExpiredPending(row, before) {
      var rr :| rr in row.reservations && ExpiredRow(rr, before);
      assert Ref(rr.ref) in Expired(x.level, before);
    }
    if k :| k in Expired(x.level, before) {
      assert ExpiredRow(EncodeReservation(x.level.reservations[k]), before);
    }
    if ref in x.level.reservations {
      assert EncodeReservation(x.level.reservations[ref]) in row.reservations;
    }
    if RowHasReservation(row, ref.text) {
      var rr :| rr in row.reservations && rr.ref == ref.text;
      assert Ref(rr.ref) == ref;
    }
  }
}
