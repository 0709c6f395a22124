/**
 Orders: money in whole minor units of 64 bits, order lines, the order aggregate, and the rows it
 is kept in. An order's total is the wrapped sum of its lines; whether that is the real sum decides
 whether the order can ever be read back.
 */
module Ordering {
  import opened Common
  import Text

  // The context's own identifiers; the inventory service sees them as plain strings.
  datatype Sku = Sku(text: string)
  datatype OrderId = OrderId(text: string)
  datatype CustomerId = CustomerId(text: string)
  datatype ReservationRef = ReservationRef(text: string)

  datatype OrderError =
    | EmptyOrder | InvalidMoney | InvalidSku | InvalidQuantity
    | InvalidId | BadStatus | NotConfirmed | NotFound

  // ---------- Money ----------

  datatype Money = Money(amount: int, currency: string) {
    predicate IsZero() { amount == 0 && currency == "" }

    function Mul(n: int): Money {
      Money(Wrap64(amount * n), currency)
    }

    /** The zero value is neutral; otherwise the currencies have to agree. */
    function Add(other: Money): Result<Money, OrderError> {
      if IsZero() then Ok(other)
      else if other.IsZero() then Ok(this)
      else if currency != other.currency then Err(InvalidMoney)
      else Ok(Money(Wrap64(amount + other.amount), currency))
    }
  }

  const NO_MONEY := Money(0, "")

  function NewMoney(amount: int, currency: string): Result<Money, OrderError> {
    if amount < 0 || Text.Trim(currency) == "" then Err(InvalidMoney) else Ok(Money(amount, Text.Trim(currency)))
  }

  // ---------- Lines ----------

  datatype OrderLine = OrderLine(sku: Sku, quantity: int, unitPrice: Money) {
    function Subtotal(): Money {
      unitPrice.Mul(quantity)
    }
  }

  function NewSku(text: string): Result<Sku, OrderError> {
    if Text.Trim(text) == "" then Err(InvalidSku) else Ok(Sku(Text.Trim(text)))
  }

  function NewQuantity(n: int): Result<int, OrderError> {
    if n < 1 then Err(InvalidQuantity) else Ok(n)
  }

  /** What the constructors of the value objects let through. */
  predicate ValidLine(l: OrderLine) {
    && Text.Trimmed(l.sku.text) && l.sku.text != ""
    && l.quantity >= 1
    && l.unitPrice.amount >= 0 && Text.Trimmed(l.unitPrice.currency) && l.unitPrice.currency != ""
  }

  ghost predicate ValidLines(lines: seq<OrderLine>) {
    forall i :: 0 <= i < |lines| ==> ValidLine(lines[i])
  }

  // ---------- The total ----------

  /** Adding up the first `n` subtotals in order, as the aggregate does. */
  function Accumulated(lines: seq<OrderLine>, n: nat): Result<Money, OrderError>
    requires n <= |lines|
  {
    if n == 0 then Ok(NO_MONEY)
    else
      match Accumulated(lines, n - 1)
      case Err(e) => Err(e)
      case Ok(m) => m.Add(lines[n - 1].Subtotal())
  }

  lemma {:induction false} ErrorStays(lines: seq<OrderLine>, n: nat, m: nat)
    requires n <= m <= |lines| && Accumulated(lines, n).Err?
    ensures Accumulated(lines, m) == Accumulated(lines, n)
  {
    if n < m { ErrorStays(lines, n, m - 1); }
  }

  function Price(l: OrderLine): int {
    l.unitPrice.amount * l.quantity
  }

  /** The amount the customer owes, as an unbounded number. */
  function Owed(lines: seq<OrderLine>): int {
    if lines == [] then 0 else Owed(lines[..|lines| - 1]) + Price(lines[|lines| - 1])
  }

  ghost predicate OneCurrency(lines: seq<OrderLine>, currency: string) {
    forall l :: l in lines ==> l.unitPrice.currency == currency
  }

  /** The fold succeeds exactly for lines of one currency, and then gives what is owed, wrapped to
      64 bits: no order of adding and no intermediate overflow makes a difference. */
  lemma {:induction false} AccumulatedIsOwed(lines: seq<OrderLine>, n: nat)
    requires n <= |lines| && ValidLines(lines) && n > 0
    ensures Accumulated(lines, n).Ok? <==> OneCurrency(lines[..n], lines[0].unitPrice.currency)
    ensures Accumulated(lines, n) == Err(InvalidMoney) ||
      Accumulated(lines, n) == Ok(Money(Wrap64(Owed(lines[..n])), lines[0].unitPrice.currency))
  {
    assert lines[..n][..n - 1] == lines[..n - 1] && lines[..n] == lines[..n - 1] + [lines[n - 1]];
    assert ValidLine(lines[n - 1]) && ValidLine(lines[0]);
    if n == 1 {
      assert lines[..0] == [] && lines[..1] == [lines[0]];
      assert Accumulated(lines, 0) == Ok(NO_MONEY);
    } else {
      AccumulatedIsOwed(lines, n - 1);
      WrapSum(Owed(lines[..n - 1]), Wrap64(Price(lines[n - 1])));
      WrapSum(Price(lines[n - 1]), Owed(lines[..n - 1]));
    }
  }

  lemma {:induction false} OwedConcat(a: seq<OrderLine>, b: seq<OrderLine>)
    ensures Owed(a + b) == Owed(a) + Owed(b)
  {
    if b == [] {
      assert a + b == a;
    } else {
      assert (a + b)[..|a + b| - 1] == a + b[..|b| - 1];
      OwedConcat(a, b[..|b| - 1]);
    }
  }

  /** One line is owed its unit price times its quantity; with `OwedConcat` this fixes every sum. */
  lemma OwedOne(l: OrderLine)
    ensures Owed([l]) == l.unitPrice.amount * l.quantity && Owed([]) == 0
  {
    assert [l][..0] == [];
  }

  lemma OwedSnoc(a: seq<OrderLine>, l: OrderLine)
    ensures Owed(a + [l]) == Owed(a) + Price(l)
  {
    assert (a + [l])[..|a|] == a;
  }

  lemma OwedWithout(a: seq<OrderLine>, l: OrderLine, b: seq<OrderLine>)
    ensures Owed(a + [l] + b) == Owed(a + b) + Price(l)
  {
    hide Owed, Price;
    OwedConcat(a + [l], b);
    OwedSnoc(a, l);
    OwedConcat(a, b);
  }

  /** Splits a sequence around an element that occurs in it. */
  lemma SplitAt(b: seq<OrderLine>, l: OrderLine) returns (front: seq<OrderLine>, back: seq<OrderLine>)
    requires l in b
    ensures b == front + [l] + back
  {
    var i :| 0 <= i < |b| && b[i] == l;
    front, back := b[..i], b[i + 1..];
  }

  /** What is owed does not depend on the order of the lines. */
  lemma {:induction false} OwedPermuted(a: seq<OrderLine>, b: seq<OrderLine>)
    requires multiset(a) == multiset(b)
    ensures Owed(a) == Owed(b)
    decreases |a|
  {
    if a == [] {
      assert |multiset(b)| == 0;
    } else {
      var rest, last := a[..|a| - 1], a[|a| - 1];
      assert a == rest + [last];
      assert last in multiset(b);
      var front, back := SplitAt(b, last);
      assert multiset(rest) == multiset(a) - multiset{last};
      assert multiset(front + back) == multiset(b) - multiset{last};
      OwedPermuted(rest, front + back);
      OwedWithout(front, last, back);
    }
  }

  lemma SameLines(a: seq<OrderLine>, b: seq<OrderLine>)
    requires multiset(a) == multiset(b)
    ensures |a| == |b| && forall l :: l in a <==> l in b
  {
    assert |a| == |multiset(a)| == |multiset(b)| == |b|;
    assert forall l :: l in a <==> l in multiset(a);
    assert forall l :: l in b <==> l in multiset(b);
  }

  /** The outcome and the total are those of any other arrangement of the lines. */
  lemma TotalIgnoresOrder(a: seq<OrderLine>, b: seq<OrderLine>)
    requires multiset(a) == multiset(b) && ValidLines(a) && ValidLines(b) && a != []
    ensures |a| == |b| && Accumulated(a, |a|) == Accumulated(b, |b|)
  {
    hide Owed, Accumulated, ValidLines;
    SameLines(a, b);
    assert a[..|a|] == a && b[..|b|] == b;
    AccumulatedIsOwed(a, |a|);
    AccumulatedIsOwed(b, |b|);
    OwedPermuted(a, b);
    assert a[0] in b && b[0] in a;
  }

  lemma {:induction false} OwedIsPositive(lines: seq<OrderLine>)
    requires ValidLines(lines)
    ensures Owed(lines) >= 0
  {
    if lines != [] {
      var l := lines[|lines| - 1];
      assert ValidLine(l) && Price(l) >= 0;
      OwedIsPositive(lines[..|lines| - 1]);
    }
  }

  /** The total is the real sum exactly if the sum fits 64 bits. Beyond that it may come out
      negative, or as a smaller amount: one line of four at 2^62 is free of charge. */
  lemma TotalIsExact(lines: seq<OrderLine>)
    requires ValidLines(lines) && lines != [] && OneCurrency(lines, lines[0].unitPrice.currency)
    ensures Accumulated(lines, |lines|).Ok?
    ensures Accumulated(lines, |lines|).value.amount == Owed(lines) <==> Owed(lines) < INT64_LIMIT
  {
    assert lines[..|lines|] == lines;
    AccumulatedIsOwed(lines, |lines|);
    OwedIsPositive(lines);
    WrapFits(Owed(lines));
  }

  // ---------- The aggregate ----------

  datatype OrderStatus = Confirmed | Cancelled

  datatype OrderEvent =
    | OrderPlaced(id: OrderId, customer: CustomerId, ref: ReservationRef, total: Money)
    | OrderCancelled(id: OrderId, ref: ReservationRef)

  /** The reference an order's stock is reserved under: the same for every attempt. */
  function DeriveReservationRef(id: OrderId): ReservationRef {
    ReservationRef(id.text)
  }

  /** Everything an order is stored with. */
  datatype OrderImage = OrderImage(
    id: OrderId, customer: CustomerId, lines: seq<OrderLine>, status: OrderStatus,
    total: Money, ref: ReservationRef, version: nat)

  function NewImage(id: OrderId, customer: CustomerId, lines: seq<OrderLine>, total: Money): OrderImage {
    OrderImage(id, customer, lines, Confirmed, total, DeriveReservationRef(id), 0)
  }

  class Order {
    const id: OrderId
    const customer: CustomerId
    const lines: seq<OrderLine>
    const total: Money
    const ref: ReservationRef
    var status: OrderStatus
    var version: nat
    var events: seq<OrderEvent>

    function Image(): OrderImage
      reads this
    {
      OrderImage(id, customer, lines, status, total, ref, version)
    }

    constructor Reconstitute(image: OrderImage)
      ensures Image() == image && events == []
    {
      id, customer, lines, status := image.id, image.customer, image.lines, image.status;
      total, ref, version, events := image.total, image.ref, image.version, [];
    }

    /** Only a confirmed order can be cancelled, and only once; the event is recorded with it. */
    method Cancel() returns (err: Option<OrderError>)
      modifies this
      ensures if old(status).Confirmed?
        then err == None && Image() == old(Image()).(status := Cancelled)
          && events == old(events) + [OrderCancelled(id, ref)]
        else err == Some(NotConfirmed) && Image() == old(Image()) && events == old(events)
    {
      if status != Confirmed {
        return Some(NotConfirmed);
      }
      status := Cancelled;
      events := events + [OrderCancelled(id, ref)];
      return None;
    }

    method RecordEvent(e: OrderEvent)
      modifies `events
      ensures events == old(events) + [e]
    {
      events := events + [e];
    }

    method PullEvents() returns (pulled: seq<OrderEvent>)
      modifies `events
      ensures pulled == old(events) && events == []
    {
      pulled := events;
      events := [];
    }

    method MarkPersisted(v: nat)
      modifies `version
      ensures version == v
    {
      version := v;
    }
  }

  /** A new order over its lines, with the total accumulated line by line. */
  method NewOrder(id: OrderId, customer: CustomerId, lines: seq<OrderLine>) returns (r: Result<Order, OrderError>)
    ensures lines == [] ==> r == Err(EmptyOrder)
    ensures lines != [] ==>
      match Accumulated(lines, |lines|)
      case Err(e) => r == Err(e)
      case Ok(total) =>
        && r.Ok? && fresh(r.value)
        && r.value.Image() == NewImage(id, customer, lines, total)
        && r.value.events == [OrderPlaced(id, customer, DeriveReservationRef(id), total)]
  {
    if |lines| == 0 {
      return Err(EmptyOrder);
    }
    var total := NO_MONEY;
    for i := 0 to |lines|
      invariant Accumulated(lines, i) == Ok(total)
    {
      var next := total.Add(lines[i].Subtotal());
      if next.Err? {
        ErrorStays(lines, i + 1, |lines|);
        return Err(next.error);
      }
      total := next.value;
    }
    var o := new Order.Reconstitute(NewImage(id, customer, lines, total));
    o.RecordEvent(OrderPlaced(id, customer, o.ref, total));
    return Ok(o);
  }

  // ---------- Rows ----------

  datatype LineRow = LineRow(sku: string, quantity: int, unitPrice: int, currency: string)

  datatype OrderRow = OrderRow(
    id: string, customerId: string, status: string, totalAmount: int, totalCurrency: string,
    reservationRef: string, version: nat, lines: seq<LineRow>)

  function StatusText(st: OrderStatus): string {
    match st
    case Confirmed => "confirmed"
    case Cancelled => "cancelled"
  }

  function ParseStatus(text: string): Result<OrderStatus, OrderError> {
    if text == "confirmed" then Ok(Confirmed)
    else if text == "cancelled" then Ok(Cancelled)
    else Err(BadStatus)
  }

  function NewId(text: string): Result<string, OrderError> {
    if Text.Trim(text) == "" then Err(InvalidId) else Ok(Text.Trim(text))
  }

  function EncodeLine(l: OrderLine): LineRow {
    LineRow(l.sku.text, l.quantity, l.unitPrice.amount, l.unitPrice.currency)
  }

  function EncodeLines(lines: seq<OrderLine>, n: nat): seq<LineRow>
    requires n <= |lines|
  {
    if n == 0 then [] else EncodeLines(lines, n - 1) + [EncodeLine(lines[n - 1])]
  }

  function EncodeOrder(o: OrderImage): OrderRow {
    OrderRow(o.id.text, o.customer.text, StatusText(o.status), o.total.amount, o.total.currency, o.ref.text, o.version,
             EncodeLines(o.lines, |o.lines|))
  }

  function DecodeLine(lr: LineRow): Result<OrderLine, OrderError> {
    match NewSku(lr.sku)
    case Err(e) => Err(e)
    case Ok(sku) =>
      match NewQuantity(lr.quantity)
      case Err(e) => Err(e)
      case Ok(qty) =>
        match NewMoney(lr.unitPrice, lr.currency)
        case Err(e) => Err(e)
        case Ok(price) => Ok(OrderLine(sku, qty, price))
  }

  /** The first `n` lines, or the error of the first of them that is unreadable. */
  function DecodeLines(rows: seq<LineRow>, n: nat): Result<seq<OrderLine>, OrderError>
    requires n <= |rows|
  {
    if n == 0 then Ok([])
    else
      match DecodeLines(rows, n - 1)
      case Err(e) => Err(e)
      case Ok(ls) =>
        match DecodeLine(rows[n - 1])
        case Err(e) => Err(e)
        case Ok(l) => Ok(ls + [l])
  }

  function DecodeOrder(r: OrderRow): Result<OrderImage, OrderError> {
    match (NewId(r.id), NewId(r.customerId), ParseStatus(r.status), NewMoney(r.totalAmount, r.totalCurrency),
           NewId(r.reservationRef), DecodeLines(r.lines, |r.lines|))
    case (Err(e), _, _, _, _, _) => Err(e)
    case (_, Err(e), _, _, _, _) => Err(e)
    case (_, _, Err(e), _, _, _) => Err(e)
    case (_, _, _, Err(e), _, _) => Err(e)
    case (_, _, _, _, Err(e), _) => Err(e)
    case (_, _, _, _, _, Err(e)) => Err(e)
    case (Ok(id), Ok(customer), Ok(st), Ok(total), Ok(ref), Ok(lines)) =>
      Ok(OrderImage(OrderId(id), CustomerId(customer), lines, st, total, ReservationRef(ref), r.version))
  }

  /** Writes an order as a row at a given version. */
  method OrderToOrderRow(o: Order, version: nat) returns (row: OrderRow)
    ensures row == EncodeOrder(o.Image().(version := version))
    ensures row.id == o.id.text && row.customerId == o.customer.text && row.version == version
    ensures row.status == if o.status.Confirmed? then "confirmed" else "cancelled"
    ensures row.totalAmount == o.total.amount && row.totalCurrency == o.total.currency
    ensures row.reservationRef == o.ref.text && |row.lines| == |o.lines|
    ensures forall i :: 0 <= i < |o.lines| ==>
      row.lines[i] == LineRow(o.lines[i].sku.text, o.lines[i].quantity,
                              o.lines[i].unitPrice.amount, o.lines[i].unitPrice.currency)
  {
    var lines: seq<LineRow> := [];
    for i := 0 to |o.lines|
      invariant lines == EncodeLines(o.lines, i)
    {
      lines := lines + [EncodeLine(o.lines[i])];
    }
    EncodedLines(o.lines, |o.lines|);
    row := OrderRow(o.id.text, o.customer.text, StatusText(o.status), o.total.amount, o.total.currency, o.ref.text,
                    version, lines);
  }

  lemma {:induction false} BadLineSpoils(rows: seq<LineRow>, n: nat, m: nat)
    requires n <= m <= |rows| && DecodeLines(rows, n).Err?
    ensures DecodeLines(rows, m) == DecodeLines(rows, n)
  {
    if n < m { BadLineSpoils(rows, n, m - 1); }
  }

  /** Rebuilds an order from a row, checking every stored value again. */
  method OrderRowToOrder(r: OrderRow) returns (o: Result<Order, OrderError>)
    ensures match DecodeOrder(r)
      case Err(e) => o == Err(e)
      case Ok(image) => o.Ok? && fresh(o.value) && o.value.Image() == image && o.value.events == []
  {
    hide NewId, ParseStatus, NewMoney, DecodeLine;
    var id := NewId(r.id);
    if id.Err? { return Err(id.error); }
    var customer := NewId(r.customerId);
    if customer.Err? { return Err(customer.error); }
    var st := ParseStatus(r.status);
    if st.Err? { return Err(st.error); }
    var total := NewMoney(r.totalAmount, r.totalCurrency);
    if total.Err? { return Err(total.error); }
    var ref := NewId(r.reservationRef);
    if ref.Err? { return Err(ref.error); }
    var lines: seq<OrderLine> := [];
    for i := 0 to |r.lines|
      invariant DecodeLines(r.lines, i) == Ok(lines)
    {
      var l := DecodeLine(r.lines[i]);
      if l.Err? {
        BadLineSpoils(r.lines, i + 1, |r.lines|);
        return Err(l.error);
      }
      lines := lines + [l.value];
    }
    var order := new Order.Reconstitute(
      OrderImage(OrderId(id.value), CustomerId(customer.value), lines, st.value, total.value,
                 ReservationRef(ref.value), r.version));
    return Ok(order);
  }

  // ---------- The round trip ----------

  predicate Identified(text: string) {
    text != "" && Text.Trimmed(text)
  }

  /** An identifier is accepted with any white space around it, and is what stands between. */
  lemma IdentifierIsTheCore(a: string, t: string, b: string)
    requires Text.Blank(a) && Text.Blank(b) && Text.Trimmed(t)
    ensures NewId(a + t + b) == if t == "" then Err(InvalidId) else Ok(t)
    ensures NewSku(a + t + b) == if t == "" then Err(InvalidSku) else Ok(Sku(t))
    ensures forall n :: NewMoney(n, a + t + b) == if n < 0 || t == "" then Err(InvalidMoney) else Ok(Money(n, t))
  {
    Text.TrimIsTheCore(a, t, b);
  }

  /** What is wrong with the values of a line, if anything: SKU, quantity, amount and currency are
      looked at in this order. */
  ghost function LineFault(sku: string, quantity: int, amount: int, currency: string): Option<OrderError> {
    if Text.Blank(sku) then Some(InvalidSku)
    else if quantity < 1 then Some(InvalidQuantity)
    else if amount < 0 || Text.Blank(currency) then Some(InvalidMoney)
    else None
  }

  /** A line without a fault is taken as it is, with its identifiers trimmed. */
  lemma DecodedLine(lr: LineRow)
    ensures match LineFault(lr.sku, lr.quantity, lr.unitPrice, lr.currency)
      case Some(e) => DecodeLine(lr) == Err(e)
      case None =>
        DecodeLine(lr) ==
          Ok(OrderLine(Sku(Text.Trim(lr.sku)), lr.quantity, Money(lr.unitPrice, Text.Trim(lr.currency))))
  {
    hide Text.Blank, Text.Trim;
    Text.BlankIsNothing(lr.sku);
    Text.BlankIsNothing(lr.currency);
  }

  lemma {:induction false} DecodedEach(rows: seq<LineRow>, n: nat)
    requires n <= |rows|
    ensures DecodeLines(rows, n).Ok? <==> forall i :: 0 <= i < n ==> DecodeLine(rows[i]).Ok?
    ensures DecodeLines(rows, n).Ok? ==>
      && |DecodeLines(rows, n).value| == n
      && forall i :: 0 <= i < n ==> DecodeLine(rows[i]) == Ok(DecodeLines(rows, n).value[i])
    ensures DecodeLines(rows, n).Err? ==>
      exists b :: 0 <= b < n && DecodeLine(rows[b]) == Err(DecodeLines(rows, n).error)
                  && forall i :: 0 <= i < b ==> DecodeLine(rows[i]).Ok?
  {
    hide DecodeLine;
    if n > 0 { DecodedEach(rows, n - 1); }
  }

  /** What is wrong with the head of a row, if anything, in the order it is looked at. */
  ghost function HeadFault(r: OrderRow): Option<OrderError> {
    if Text.Blank(r.id) || Text.Blank(r.customerId) then Some(InvalidId)
    else if r.status != "confirmed" && r.status != "cancelled" then Some(BadStatus)
    else if r.totalAmount < 0 || Text.Blank(r.totalCurrency) then Some(InvalidMoney)
    else if Text.Blank(r.reservationRef) then Some(InvalidId)
    else None
  }

  /** A row is readable exactly if neither its head nor any of its lines has a fault, and stands for
      the order with the same values and the trimmed identifiers. */
  lemma DecodedOrder(r: OrderRow)
    ensures HeadFault(r).Some? ==> DecodeOrder(r) == Err(HeadFault(r).value)
    ensures HeadFault(r).None? ==>
      (DecodeOrder(r).Ok? <==> forall i :: 0 <= i < |r.lines| ==> DecodeLine(r.lines[i]).Ok?)
    ensures HeadFault(r).None? && DecodeOrder(r).Err? ==>
      exists b :: 0 <= b < |r.lines| && DecodeLine(r.lines[b]) == Err(DecodeOrder(r).error)
                  && forall i :: 0 <= i < b ==> DecodeLine(r.lines[i]).Ok?
    ensures DecodeOrder(r).Ok? ==>
      var o := DecodeOrder(r).value;
      && o.id.text == Text.Trim(r.id) && o.customer.text == Text.Trim(r.customerId)
      && (o.status.Confirmed? <==> r.status == "confirmed")
      && o.total == Money(r.totalAmount, Text.Trim(r.totalCurrency))
      && o.ref.text == Text.Trim(r.reservationRef) && o.version == r.version
      && |o.lines| == |r.lines| && forall i :: 0 <= i < |r.lines| ==> DecodeLine(r.lines[i]) == Ok(o.lines[i])
  {
    Text.BlankIsNothing(r.id);
    Text.BlankIsNothing(r.customerId);
    Text.BlankIsNothing(r.totalCurrency);
    Text.BlankIsNothing(r.reservationRef);
    DecodedEach(r.lines, |r.lines|);
    hide Text.Blank, Text.Trim, DecodeLine, DecodeLines;
  }

  /** An order all of whose parts were validated. */
  ghost predicate Sound(o: OrderImage) {
    && Identified(o.id.text) && Identified(o.customer.text) && Identified(o.ref.text) && Identified(o.total.currency)
    && ValidLines(o.lines)
  }

  lemma LineReadsBack(l: OrderLine)
    requires ValidLine(l)
    ensures DecodeLine(EncodeLine(l)) == Ok(l)
  {
    Text.TrimSettles(l.sku.text);
    Text.TrimSettles(l.unitPrice.currency);
  }

  lemma {:induction false} LinesReadBack(lines: seq<OrderLine>, n: nat)
    requires n <= |lines| && ValidLines(lines)
    ensures |EncodeLines(lines, |lines|)| == |lines|
    ensures forall i :: 0 <= i < |lines| ==> EncodeLines(lines, |lines|)[i] == EncodeLine(lines[i])
    ensures DecodeLines(EncodeLines(lines, |lines|), n) == Ok(lines[..n])
  {
    EncodedLines(lines, |lines|);
    hide EncodeLine, EncodeLines, DecodeLine, ValidLine;
    if n > 0 {
      LinesReadBack(lines, n - 1);
      var l := lines[n - 1];
      assert ValidLine(l);
      LineReadsBack(l);
      assert lines[..n] == lines[..n - 1] + [l];
    }
  }

  lemma {:induction false} EncodedLines(lines: seq<OrderLine>, n: nat)
    requires n <= |lines|
    ensures |EncodeLines(lines, n)| == n
    ensures forall i :: 0 <= i < n ==> EncodeLines(lines, n)[i] == EncodeLine(lines[i])
  {
    if n > 0 { EncodedLines(lines, n - 1); }
  }

  /** A sound order comes back from its row unchanged, unless its total is negative: then the row
      cannot be read at all. */
  lemma ReadsBackUnlessNegative(o: OrderImage)
    requires Sound(o)
    ensures DecodeOrder(EncodeOrder(o)) == if o.total.amount >= 0 then Ok(o) else Err(InvalidMoney)
  {
    LinesReadBack(o.lines, |o.lines|);
    assert o.lines[..|o.lines|] == o.lines;
    Text.TrimSettles(o.id.text);
    Text.TrimSettles(o.customer.text);
    Text.TrimSettles(o.ref.text);
    Text.TrimSettles(o.total.currency);
  }

  /** What that means for new orders: the row can be read back exactly if what is owed does not
      wrap to a negative number, in particular whenever it fits 64 bits. */
  lemma NewOrdersReadBack(id: OrderId, customer: CustomerId, lines: seq<OrderLine>, version: nat)
    requires Identified(id.text) && Identified(customer.text) && ValidLines(lines) && lines != []
    requires Accumulated(lines, |lines|).Ok?
    ensures var o := NewImage(id, customer, lines, Accumulated(lines, |lines|).value).(version := version);
      && Sound(o)
      && (DecodeOrder(EncodeOrder(o)) == Ok(o) <==> Wrap64(Owed(lines)) >= 0)
      && (DecodeOrder(EncodeOrder(o)).Ok? <==> Wrap64(Owed(lines)) >= 0)
      && (Owed(lines) < INT64_LIMIT ==> o.total.amount == Owed(lines) && Wrap64(Owed(lines)) >= 0)
  {
    var o := NewImage(id, customer, lines, Accumulated(lines, |lines|).value).(version := version);
    assert lines[..|lines|] == lines;
    AccumulatedIsOwed(lines, |lines|);
    assert ValidLine(lines[0]);
    OwedIsPositive(lines);
    hide Owed, Accumulated, EncodeOrder, DecodeOrder;
    WrapFits(Owed(lines));
    ReadsBackUnlessNegative(o);
  }

  /** An order the aggregate accepts although it can never be read back: two units at 2^62. */
  lemma OverflowingOrder(sku: Sku, currency: string) returns (lines: seq<OrderLine>)
    requires Identified(sku.text) && Identified(currency)
    ensures ValidLines(lines) && lines != [] && Accumulated(lines, |lines|).Ok?
    ensures Wrap64(Owed(lines)) == -INT64_LIMIT
  {
    lines := [OrderLine(sku, 2, Money(0x4000_0000_0000_0000, currency))];
    assert lines[..1] == lines && lines[..0] == [];
    assert Owed(lines) == 0x8000_0000_0000_0000;
    AccumulatedIsOwed(lines, 1);
  }
}
