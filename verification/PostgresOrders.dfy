/**
 Orders in PostgreSQL: a head row and one row per line, written by an insertion of everything or by
 a conditional update of status and version alone. Compared with the in-memory adapter, which
 rewrites the whole order and checks nothing but the version.
 */
module PostgresOrders {
  import opened Common
  import opened Ordering
  import opened OrderUseCases

  datatype SaveError = Conflict | Rejected

  /** The row of an order as the columns keep it: quantities are narrowed to 32 bits. */
  function NarrowLine(l: LineRow): LineRow {
    l.(quantity := Int32(l.quantity))
  }

  /** A line passes the CHECK constraints of its table. */
  predicate LineAccepted(l: LineRow) {
    Int32(l.quantity) >= 1 && l.unitPrice >= 0
  }

  /** The first `n` line rows. */
  function NarrowLines(ls: seq<OrderLine>, n: nat): seq<LineRow>
    requires n <= |ls|
  {
    if n == 0 then [] else NarrowLines(ls, n - 1) + [NarrowLine(EncodeLine(ls[n - 1]))]
  }

  ghost predicate LinesAccepted(ls: seq<OrderLine>, n: nat)
    requires n <= |ls|
  {
    forall i :: 0 <= i < n ==> LineAccepted(EncodeLine(ls[i]))
  }

  function InsertedRow(o: OrderImage): OrderRow {
    EncodeOrder(o.(version := 1)).(lines := NarrowLines(o.lines, |o.lines|))
  }

  /** What a save makes of the stored orders: a new order is inserted as a whole, a known one has
      its status and version replaced if the version is the one that was read. */
  ghost function PgSave(m: Rows, o: OrderImage): Result<Rows, SaveError> {
    if o.version == 0 then
      if o.total.amount < 0 then Err(Rejected)
      else if o.id in m then Err(Conflict)
      else if !LinesAccepted(o.lines, |o.lines|) then Err(Rejected)
      else Ok(m[o.id := InsertedRow(o)])
    else if o.id !in m || m[o.id].version != Int32(o.version) then Err(Conflict)
    else if Int32(o.version + 1) < 1 then Err(Rejected)
    else Ok(m[o.id := m[o.id].(status := StatusText(o.status), version := Int32(o.version + 1))])
  }

  /** The head row of the `orders` table; its lines are in a table of their own. */
  datatype Head = Head(id: string, customerId: string, status: string, totalAmount: int, totalCurrency: string,
                       reservationRef: string, version: nat)

  function RowOf(h: Head, lines: seq<LineRow>): OrderRow {
    OrderRow(h.id, h.customerId, h.status, h.totalAmount, h.totalCurrency, h.reservationRef, h.version, lines)
  }

  function LinesAt(lines: map<OrderId, seq<LineRow>>, id: OrderId): seq<LineRow> {
    if id in lines then lines[id] else []
  }

  function HeadOf(id: OrderId, customer: CustomerId, status: OrderStatus, total: Money, ref: ReservationRef): Head {
    Head(id.text, customer.text, StatusText(status), total.amount, total.currency, ref.text, 1)
  }

  function ContentsOf(heads: map<OrderId, Head>, lines: map<OrderId, seq<LineRow>>): Rows {
    map id | id in heads :: RowOf(heads[id], LinesAt(lines, id))
  }

  class OrderTables {
    var heads: map<OrderId, Head>
    var lines: map<OrderId, seq<LineRow>>

    function Contents(): Rows
      reads this
    {
      ContentsOf(heads, lines)
    }

    /** Lines are kept only for stored orders, as the foreign key demands. */
    ghost predicate Valid()
      reads this
    {
      lines.Keys <= heads.Keys
    }

    constructor ()
      ensures Valid() && Contents() == map[]
    {
      heads, lines := map[], map[];
    }

    /** Inserts the line rows of a new order, in order. */
    method InsertLines(o: Order) returns (err: Option<SaveError>)
      requires o.id !in lines
      modifies `lines
      ensures err == if LinesAccepted(o.lines, |o.lines|) then None else Some(Rejected)
      ensures err.None? ==> LinesAt(lines, o.id) == NarrowLines(o.lines, |o.lines|)
      ensures lines.Keys <= old(lines).Keys + {o.id}
      ensures forall id :: id != o.id ==> LinesAt(lines, id) == LinesAt(old(lines), id)
    {
      for i := 0 to |o.lines|
        invariant LinesAccepted(o.lines, i)
        invariant LinesAt(lines, o.id) == NarrowLines(o.lines, i)
        invariant lines.Keys <= old(lines).Keys + {o.id}
        invariant forall id :: id != o.id ==> LinesAt(lines, id) == LinesAt(old(lines), id)
      {
        var row := EncodeLine(o.lines[i]);
        if !LineAccepted(row) {
          return Some(Rejected);
        }
        lines := lines[o.id := LinesAt(lines, o.id) + [NarrowLine(row)]];
      }
      return None;
    }

    /** Inserts head and lines. After an error nothing is promised: the transaction rolls back. */
    method Insert(o: Order) returns (err: Option<SaveError>)
      requires Valid() && o.version == 0
      modifies this, o`version
      ensures match PgSave(old(Contents()), old(o.Image()))
        case Ok(m) => err == None && Valid() && Contents() == m && o.version == 1
        case Err(e) => err == Some(e) && o.version == 0
    {
      hide EncodeOrder, StatusText, LinesAccepted, LinesAt;
      if o.total.amount < 0 {
        return Some(Rejected);
      }
      if o.id in heads {
        return Some(Conflict);
      }
      ghost var image := o.Image();
      heads := heads[o.id := HeadOf(o.id, o.customer, o.status, o.total, o.ref)];
      err := InsertLines(o);
      if err.Some? {
        return;
      }
      o.MarkPersisted(1);
      InsertedContents(old(heads), old(lines), heads, lines, image);
    }

    /** Replaces status and version of the row with the version that was read. */
    method Update(o: Order) returns (err: Option<SaveError>)
      requires Valid() && o.version > 0
      modifies this, o`version
      ensures match PgSave(old(Contents()), old(o.Image()))
        case Ok(m) => err == None && Valid() && Contents() == m && o.version == old(o.version) + 1
        case Err(e) => err == Some(e) && o.version == old(o.version) && Contents() == old(Contents()) && Valid()
    {
      var next := Int32(o.version + 1);
      if o.id !in heads || heads[o.id].version != Int32(o.version) {
        return Some(Conflict);
      }
      if next < 1 {
        return Some(Rejected);
      }
      heads := heads[o.id := heads[o.id].(status := StatusText(o.status), version := next)];
      o.MarkPersisted(o.version + 1);
      return None;
    }

    /** One transaction that saves an order, or leaves the tables as they were. */
    method Save(o: Order) returns (err: Option<SaveError>)
      requires Valid()
      modifies this, o`version
      ensures Valid()
      ensures match PgSave(old(Contents()), old(o.Image()))
        case Ok(m) => err == None && Contents() == m && o.version == old(o.version) + 1
        case Err(e) => err == Some(e) && Contents() == old(Contents()) && o.version == old(o.version)
    {
      var headsBefore, linesBefore := heads, lines;
      if o.version == 0 {
        err := Insert(o);
      } else {
        err := Update(o);
      }
      if err.Some? {
        heads, lines := headsBefore, linesBefore;  // rollback
      }
    }
  }

  lemma InsertedContents(heads: map<OrderId, Head>, lines: map<OrderId, seq<LineRow>>,
                         headsAfter: map<OrderId, Head>, linesAfter: map<OrderId, seq<LineRow>>, o: OrderImage)
    requires headsAfter == heads[o.id := HeadOf(o.id, o.customer, o.status, o.total, o.ref)]
    requires LinesAt(linesAfter, o.id) == NarrowLines(o.lines, |o.lines|)
    requires forall id :: id != o.id ==> LinesAt(linesAfter, id) == LinesAt(lines, id)
    ensures ContentsOf(headsAfter, linesAfter) == ContentsOf(heads, lines)[o.id := InsertedRow(o)]
  {
    hide NarrowLines, StatusText, LinesAt;
    forall id | id in heads && id != o.id ensures LinesAt(linesAfter, id) == LinesAt(lines, id) {
    }
  }

  // ---------- What is accepted, and how it compares ----------

  /** The lines are accepted and kept as they are exactly if all their quantities fit 32 bits. */
  lemma {:induction false} NarrowIsExact(ls: seq<OrderLine>, n: nat)
    requires n <= |ls| && ValidLines(ls)
    ensures |NarrowLines(ls, n)| == n
    ensures LinesAccepted(ls, n) && NarrowLines(ls, n) == EncodeLines(ls, n) <==>
      forall i :: 0 <= i < n ==> ls[i].quantity < INT32_LIMIT
  {
    if n > 0 {
      NarrowIsExact(ls, n - 1);
      assert ValidLine(ls[n - 1]);
      Int32Fits(ls[n - 1].quantity);
      var narrowed, encoded := NarrowLines(ls, n), EncodeLines(ls, n);
      if narrowed == encoded {
        assert narrowed[..n - 1] == NarrowLines(ls, n - 1) && encoded[..|encoded| - 1] == EncodeLines(ls, n - 1);
        assert narrowed[n - 1] == encoded[|encoded| - 1];
      }
    }
  }

  /** The quantities fit their column. */
  predicate FitsOrder(o: OrderImage) {
    forall i :: 0 <= i < |o.lines| ==> o.lines[i].quantity < INT32_LIMIT
  }

  /** A new order is stored as memory stores it exactly if its total is not negative, its id is free
      and every quantity is below 2^31. In all other cases it is refused, conflicts, or is stored as
      a different order. */
  lemma StoredAsItIsIffItFits(m: Rows, o: OrderImage)
    requires o.version == 0 && Sound(o)
    ensures PgSave(m, o) == Ok(m[o.id := EncodeOrder(o.(version := 1))]) <==>
      o.total.amount >= 0 && o.id !in m && FitsOrder(o)
  {
    NarrowIsExact(o.lines, |o.lines|);
    var row := EncodeOrder(o.(version := 1));
    if o.total.amount >= 0 && o.id !in m && LinesAccepted(o.lines, |o.lines|) {
      assert m[o.id := InsertedRow(o)][o.id] == InsertedRow(o) && m[o.id := row][o.id] == row;
    }
  }

  /** The values a line has to have after the conversion of its quantity to 32 bits. */
  predicate InRange(l: OrderLine) {
    1 <= l.quantity % 0x1_0000_0000 < 0x8000_0000 && l.unitPrice.amount >= 0
  }

  lemma InRangeIsAccepted(l: OrderLine)
    ensures LineAccepted(EncodeLine(l)) <==> InRange(l)
    ensures InRange(l) ==> NarrowLine(EncodeLine(l)).quantity == l.quantity % 0x1_0000_0000
  {
    var turns := Int32Turns(l.quantity);
    var rest := l.quantity % 0x1_0000_0000;
    assert rest == Int32(l.quantity) || rest == Int32(l.quantity) + 0x1_0000_0000;
  }

  lemma {:induction false} NarrowedLines(ls: seq<OrderLine>, n: nat)
    requires n <= |ls|
    ensures |NarrowLines(ls, n)| == n
    ensures forall i :: 0 <= i < n ==> NarrowLines(ls, n)[i] == NarrowLine(EncodeLine(ls[i]))
  {
    if n > 0 { NarrowedLines(ls, n - 1); }
  }

  /** Which new orders are refused, and what is stored of the others: the quantities modulo 2^32. */
  lemma RefusedIffOutOfRange(m: Rows, o: OrderImage)
    requires o.version == 0
    ensures o.total.amount < 0 ==> PgSave(m, o) == Err(Rejected)
    ensures o.total.amount >= 0 && o.id in m ==> PgSave(m, o) == Err(Conflict)
    ensures o.total.amount >= 0 && o.id !in m ==>
      if exists i :: 0 <= i < |o.lines| && !InRange(o.lines[i]) then PgSave(m, o) == Err(Rejected)
      else
        && PgSave(m, o).Ok? && o.id in PgSave(m, o).value
        && var row := PgSave(m, o).value[o.id];
        && |row.lines| == |o.lines|
        && forall i :: 0 <= i < |o.lines| ==>
             row.lines[i] == EncodeLine(o.lines[i].(quantity := o.lines[i].quantity % 0x1_0000_0000))
  {
    NarrowedLines(o.lines, |o.lines|);
    forall i | 0 <= i < |o.lines|
      ensures LineAccepted(EncodeLine(o.lines[i])) <==> InRange(o.lines[i])
      ensures InRange(o.lines[i]) ==>
        NarrowLine(EncodeLine(o.lines[i])).quantity == o.lines[i].quantity % 0x1_0000_0000
    {
      InRangeIsAccepted(o.lines[i]);
    }
    hide InRange, LineAccepted, Int32, NarrowLines;
  }

  /** A new order of fitting quantities is refused exactly if its total is negative, so exactly if
      memory would store a row that can never be read; otherwise both adapters store the same. */
  lemma InsertionsAgree(m: Rows, o: OrderImage)
    requires o.version == 0 && Sound(o) && FitsOrder(o)
    ensures PgSave(m, o) == Err(Rejected) <==> DecodeOrder(EncodeOrder(o)).Err?
    ensures o.total.amount >= 0 ==>
      PgSave(m, o) == if NextVersion(m, o).Some? then Ok(m[o.id := EncodeOrder(o.(version := 1))]) else Err(Conflict)
  {
    NarrowIsExact(o.lines, |o.lines|);
    ReadsBackUnlessNegative(o);
  }

  /** Cancelling a stored order: updating two columns gives what rewriting the row gives, and a stale
      version is refused by both. */
  lemma CancellationsAgree(m: Rows, stored: OrderImage, o: OrderImage)
    requires o == stored.(status := OrderStatus.Cancelled) && 0 < o.version && o.version + 1 < INT32_LIMIT
    requires o.id in m && m[o.id].version > 0 && (m[o.id].version == stored.version ==> m[o.id] == EncodeOrder(stored))
    ensures PgSave(m, o) ==
      if NextVersion(m, o).Some? then Ok(m[o.id := EncodeOrder(o.(version := o.version + 1))]) else Err(Conflict)
  {
    Int32Fits(o.version);
    Int32Fits(o.version + 1);
  }

  /** A quantity beyond 32 bits is not always refused: 2^32 + 1 units are stored as one. */
  lemma NarrowedOrder(m: Rows, o: OrderImage, sku: Sku, price: Money)
    requires o.version == 0 && o.id !in m && o.total.amount >= 0
    requires o.lines == [OrderLine(sku, 0x1_0000_0001, price)] && ValidLines(o.lines)
    ensures PgSave(m, o).Ok? && PgSave(m, o).value[o.id].lines == [EncodeLine(OrderLine(sku, 1, price))]
  {
    assert ValidLine(o.lines[0]);
    assert NarrowLines(o.lines, 0) == [];
  }
}
