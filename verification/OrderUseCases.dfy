/**
 Placing and cancelling an order over the in-memory adapter. Placing reserves stock by a remote
 call outside any transaction, then stores the order and its confirm command in one transaction,
 and compensates if that fails. Cancelling stores the cancellation together with its event.
 */
module OrderUseCases {
  import opened Common
  import opened Ordering
  import opened UnitOfWork
  import Inventory = InventoryUseCases
  import Outbox
  import Stock
  import Text
  import Warehouse

  type Rows = map<OrderId, OrderRow>

  type Message = Outbox.Envelope<Warehouse.Message>

  ghost predicate ValidRows(m: Rows) {
    forall id :: id in m ==>
      && m[id].id == id.text && Identified(id.text) && m[id].version > 0
      && m[id].reservationRef == DeriveReservationRef(id).text
  }

  /** The version an order would be written at, or none if it cannot be. */
  function NextVersion(m: Rows, o: OrderImage): Option<nat> {
    if o.version == 0 then if o.id in m then None else Some(1)
    else if o.id !in m || m[o.id].version != o.version then None
    else Some(o.version + 1)
  }

  class OrderRows {
    var m: Rows

    constructor ()
      ensures m == map[]
    {
      m := map[];
    }

    method Load(id: OrderId) returns (o: Result<Order, OrderError>)
      ensures id !in m ==> o == Err(NotFound)
      ensures id in m ==>
        match DecodeOrder(m[id])
        case Err(e) => o == Err(e)
        case Ok(image) => o.Ok? && fresh(o.value) && o.value.Image() == image && o.value.events == []
    {
      if id !in m {
        return Err(NotFound);
      }
      o := OrderRowToOrder(m[id]);
    }
  }

  datatype Keyed = Keyed(key: OrderId, row: OrderRow)

  /** A transaction: what it will write and the messages it will send take effect together. */
  class Transaction {
    const rows: OrderRows
    const stores: Outbox.Stores<Warehouse.Message>
    var writes: seq<Keyed>
    var messages: seq<Message>

    constructor (rows: OrderRows, stores: Outbox.Stores<Warehouse.Message>)
      ensures this.rows == rows && this.stores == stores && writes == [] && messages == []
    {
      this.rows, this.stores, writes, messages := rows, stores, [], [];
    }

    /** Checks the version against the committed rows, stages the row and moves the order on. */
    method Save(o: Order) returns (conflict: bool)
      modifies `writes, o`version
      ensures conflict <==> NextVersion(rows.m, old(o.Image())).None?
      ensures conflict ==> writes == old(writes) && o.Image() == old(o.Image())
      ensures !conflict ==>
        && o.Image() == old(o.Image()).(version := NextVersion(rows.m, old(o.Image())).value)
        && writes == old(writes) + [Keyed(o.id, EncodeOrder(o.Image()))]
    {
      var next: nat;
      if o.version == 0 {
        if o.id in rows.m {
          return true;
        }
        next := 1;
      } else {
        if o.id !in rows.m || rows.m[o.id].version != o.version {
          return true;
        }
        next := o.version + 1;
      }
      var row := OrderToOrderRow(o, next);
      writes := writes + [Keyed(o.id, row)];
      o.MarkPersisted(next);
      return false;
    }

    method Enqueue(m: Message)
      modifies `messages
      ensures messages == old(messages) + [m]
    {
      messages := messages + [m];
    }

    method Commit()
      modifies rows, stores
      ensures rows.m == Applied(old(rows.m), writes, |writes|)
      ensures stores.queue == old(stores.queue) + messages && stores.log == old(stores.log) + messages
    {
      for i := 0 to |writes|
        invariant rows.m == Applied(old(rows.m), writes, i)
        invariant stores.queue == old(stores.queue) && stores.log == old(stores.log)
      {
        rows.m := rows.m[writes[i].key := writes[i].row];
      }
      stores.CommitStaged(messages);
    }
  }

  function Applied(m: Rows, writes: seq<Keyed>, n: nat): Rows
    requires n <= |writes|
  {
    if n == 0 then m else Applied(m, writes, n - 1)[writes[n - 1].key := writes[n - 1].row]
  }

  /** Of several writes to one order the last remains. */
  lemma {:induction false} AppliedLast(m: Rows, writes: seq<Keyed>, n: nat, i: nat)
    requires i < n <= |writes| && forall j :: i < j < n ==> writes[j].key != writes[i].key
    ensures writes[i].key in Applied(m, writes, n) && Applied(m, writes, n)[writes[i].key] == writes[i].row
  {
    if i < n - 1 { AppliedLast(m, writes, n - 1, i); }
  }

  /** Orders that are not written stay as they are. */
  lemma {:induction false} AppliedElsewhere(m: Rows, writes: seq<Keyed>, n: nat, id: OrderId)
    requires n <= |writes| && forall i :: 0 <= i < n ==> writes[i].key != id
    ensures id in Applied(m, writes, n) <==> id in m
    ensures id in m ==> Applied(m, writes, n)[id] == m[id]
  {
    if n > 0 { AppliedElsewhere(m, writes, n - 1, id); }
  }

  // ---------- Messages ----------

  function ConfirmMessage(id: Outbox.Id, ref: ReservationRef): Message {
    Outbox.Envelope(id, Warehouse.ConfirmRequested(Stock.Ref(ref.text)))
  }

  function CancelMessage(id: Outbox.Id, ref: ReservationRef): Message {
    Outbox.Envelope(id, Warehouse.OrderCancelled(Stock.Ref(ref.text)))
  }

  /** Only cancellations cross over to the inventory service. */
  function ToOutboxMessage(id: Outbox.Id, e: OrderEvent): Option<Message> {
    match e
    case OrderPlaced(_, _, _, _) => None
    case OrderCancelled(_, ref) => Some(CancelMessage(id, ref))
  }

  // ---------- Placing ----------

  datatype PlaceOrderLine = PlaceOrderLine(sku: string, quantity: int, unitPriceAmount: int, currency: string)

  function ToOrderLine(l: PlaceOrderLine): Result<OrderLine, OrderError> {
    DecodeLine(LineRow(l.sku, l.quantity, l.unitPriceAmount, l.currency))
  }

  function ToReserveLine(l: OrderLine): Inventory.ReserveLine {
    Inventory.ReserveLine(l.sku.text, l.quantity)
  }

  ghost predicate SameAsked(lines: seq<OrderLine>, asked: seq<Inventory.ReserveLine>) {
    |asked| == |lines| && forall i :: 0 <= i < |lines| ==> asked[i] == ToReserveLine(lines[i])
  }

  /** Validates the input lines, or names the first bad one. */
  method ToOrderLines(input: seq<PlaceOrderLine>)
    returns (lines: seq<OrderLine>, asked: seq<Inventory.ReserveLine>, bad: Option<nat>)
    ensures match bad
      case None =>
        && |lines| == |input| && (forall i :: 0 <= i < |input| ==> ToOrderLine(input[i]) == Ok(lines[i]))
        && SameAsked(lines, asked)
      case Some(b) => b < |input| && ToOrderLine(input[b]).Err? && forall i :: 0 <= i < b ==> ToOrderLine(input[i]).Ok?
  {
    lines, asked := [], [];
    for i := 0 to |input|
      invariant |lines| == i && (forall j :: 0 <= j < i ==> ToOrderLine(input[j]) == Ok(lines[j]))
      invariant SameAsked(lines, asked)
    {
      var l := ToOrderLine(input[i]);
      if l.Err? {
        return [], [], Some(i);
      }
      lines, asked := lines + [l.value], asked + [ToReserveLine(l.value)];
    }
    bad := None;
  }

  /** The lines of the order and those inventory is asked for are those of the request, one by one. */
  predicate Taken(input: seq<PlaceOrderLine>, lines: seq<OrderLine>, asked: seq<Inventory.ReserveLine>) {
    && |lines| == |asked| == |input|
    && forall i :: 0 <= i < |input| ==>
         && lines[i].sku.text == Text.Trim(input[i].sku)
         && lines[i].quantity == input[i].quantity
         && lines[i].unitPrice == Money(input[i].unitPriceAmount, Text.Trim(input[i].currency))
         && asked[i] == Inventory.ReserveLine(Text.Trim(input[i].sku), input[i].quantity)
  }

  /** What is wrong with a line of the request, if anything. */
  ghost function Fault(l: PlaceOrderLine): Option<OrderError> {
    LineFault(l.sku, l.quantity, l.unitPriceAmount, l.currency)
  }

  lemma LineTaken(l: PlaceOrderLine)
    ensures ToOrderLine(l).Err? <==> Fault(l).Some?
    ensures ToOrderLine(l).Ok? ==>
      ToOrderLine(l).value ==
        OrderLine(Sku(Text.Trim(l.sku)), l.quantity, Money(l.unitPriceAmount, Text.Trim(l.currency)))
  {
    hide DecodeLine, Text.Trim;
    DecodedLine(LineRow(l.sku, l.quantity, l.unitPriceAmount, l.currency));
  }

  lemma BadLineMeans(input: seq<PlaceOrderLine>, b: nat)
    requires b < |input| && ToOrderLine(input[b]).Err? && forall j :: 0 <= j < b ==> ToOrderLine(input[j]).Ok?
    ensures Fault(input[b]).Some? && forall j :: 0 <= j < b ==> Fault(input[j]).None?
  {
    hide ToOrderLine, Fault;
    LineTaken(input[b]);
    forall j | 0 <= j < b ensures Fault(input[j]).None? { LineTaken(input[j]); }
  }

  lemma CustomerTaken(text: string)
    ensures NewId(text).Err? <==> Text.Blank(text)
    ensures NewId(text).Ok? ==> NewId(text).value == Text.Trim(text)
  {
    Text.BlankIsNothing(text);
  }

  lemma LinesTaken(input: seq<PlaceOrderLine>, lines: seq<OrderLine>, asked: seq<Inventory.ReserveLine>)
    requires |lines| == |input| && forall i :: 0 <= i < |input| ==> ToOrderLine(input[i]) == Ok(lines[i])
    requires SameAsked(lines, asked)
    ensures Taken(input, lines, asked) && forall i :: 0 <= i < |input| ==> Fault(input[i]).None?
  {
    hide Text.Trim, ToOrderLine, Fault;
    forall i | 0 <= i < |input| ensures Fault(input[i]).None? {
      LineTaken(input[i]);
    }
    forall i | 0 <= i < |input|
      ensures lines[i] == OrderLine(Sku(Text.Trim(input[i].sku)), input[i].quantity,
                                    Money(input[i].unitPriceAmount, Text.Trim(input[i].currency)))
    {
      LineTaken(input[i]);
    }
  }

  lemma DecodedLinesAreValid(input: seq<PlaceOrderLine>, lines: seq<OrderLine>)
    requires |lines| == |input| && forall i :: 0 <= i < |input| ==> ToOrderLine(input[i]) == Ok(lines[i])
    ensures ValidLines(lines)
  {
    forall i | 0 <= i < |lines| ensures ValidLine(lines[i]) {
      Text.TrimSettles(input[i].sku);
      Text.TrimSettles(input[i].currency);
    }
  }

  datatype Call = ReserveCall(ref: ReservationRef, lines: seq<Inventory.ReserveLine>) | ReleaseCall(ref: ReservationRef)

  /** The inventory service as this service sees it: calls go out, and it answers somehow. */
  class StockReserver {
    var calls: seq<Call>

    constructor ()
      ensures calls == []
    {
      calls := [];
    }

    method Reserve(ref: ReservationRef, lines: seq<Inventory.ReserveLine>, granted: bool) returns (ok: bool)
      modifies this
      ensures calls == old(calls) + [ReserveCall(ref, lines)] && ok == granted
    {
      calls := calls + [ReserveCall(ref, lines)];
      return granted;
    }

    /** Best effort: nobody looks at the answer. */
    method Release(ref: ReservationRef)
      modifies this
      ensures calls == old(calls) + [ReleaseCall(ref)]
    {
      calls := calls + [ReleaseCall(ref)];
    }
  }

  datatype PlaceError =
    | BadCustomer
    | BadLine(i: nat)
    | BadOrder(why: OrderError)
    | ReservationRefused
    | NotStored(how: RunError)

  /** The rows once a new order has been stored. */
  function AfterStore(m: Rows, o: OrderImage): Rows {
    m[o.id := EncodeOrder(o.(version := 1))]
  }

  /** The transaction that makes a new order durable, its confirm command with it. */
  method StoreOrder(rows: OrderRows, stores: Outbox.Stores<Warehouse.Message>, o: Order, messageId: Outbox.Id)
    requires o.version == 0 && o.id !in rows.m
    modifies rows, stores, o
    ensures rows.m == AfterStore(old(rows.m), old(o.Image()))
    ensures stores.queue == old(stores.queue) + [ConfirmMessage(messageId, o.ref)]
    ensures stores.log == old(stores.log) + [ConfirmMessage(messageId, o.ref)]
  {
    hide EncodeOrder;
    var tx := new Transaction(rows, stores);
    var conflict := tx.Save(o);
    tx.Enqueue(ConfirmMessage(messageId, o.ref));
    tx.Commit();
    OneWrite(old(rows.m), tx.writes);
  }

  lemma OneMoreValidRow(m: Rows, o: OrderImage)
    requires ValidRows(m) && Identified(o.id.text) && o.ref == DeriveReservationRef(o.id)
    ensures ValidRows(AfterStore(m, o))
  {
  }

  /** The row a placed order is stored as. */
  lemma PlacedRow(m: Rows, id: OrderId, customer: CustomerId, lines: seq<OrderLine>, total: Money)
    ensures var after := AfterStore(m, NewImage(id, customer, lines, total));
      && after.Keys == m.Keys + {id} && (forall o :: o in m && o != id ==> after[o] == m[o])
      && after[id].(lines := []) ==
           OrderRow(id.text, customer.text, "confirmed", total.amount, total.currency, id.text, 1, [])
      && |after[id].lines| == |lines|
      && forall i :: 0 <= i < |lines| ==>
           after[id].lines[i] == LineRow(lines[i].sku.text, lines[i].quantity,
                                         lines[i].unitPrice.amount, lines[i].unitPrice.currency)
  {
    EncodedLines(lines, |lines|);
  }

  lemma OneWrite(m: Rows, writes: seq<Keyed>)
    requires |writes| == 1
    ensures Applied(m, writes, 1) == m[writes[0].key := writes[0].row]
  {
    assert Applied(m, writes, 0) == m;
  }

  /** Places an order. `granted` is inventory's answer; `script` and `cancels` say how the attempts
      to commit would end, anything but the last one leaving nothing behind. */
  method Place(rows: OrderRows, stores: Outbox.Stores<Warehouse.Message>, reserver: StockReserver, x: Executor,
               customerText: string, input: seq<PlaceOrderLine>, freshId: string, messageId: Outbox.Id,
               granted: bool, script: seq<Attempt>, cancels: seq<Option<nat>>)
    returns (r: Result<OrderId, PlaceError>, lines: seq<OrderLine>, asked: seq<Inventory.ReserveLine>,
             ghost attempts: nat)
    requires x.maxAttempts >= 1 && |script| >= x.maxAttempts && |cancels| >= x.maxAttempts
    requires Identified(freshId) && OrderId(freshId) !in rows.m
    modifies rows, stores, reserver
    ensures var id, ref := OrderId(freshId), DeriveReservationRef(OrderId(freshId));
      match r
      case Ok(placed) =>
        // one reservation, the order at version 1, and exactly one confirm command
        && placed == id && ValidLines(lines) && lines != [] && SameAsked(lines, asked)
        && Accumulated(lines, |lines|).Ok?
        && reserver.calls == old(reserver.calls) + [ReserveCall(ref, asked)]
        && NewId(customerText).Ok?
        && rows.m == AfterStore(old(rows.m),
             NewImage(id, CustomerId(NewId(customerText).value), lines, Accumulated(lines, |lines|).value))
        && stores.queue == old(stores.queue) + [ConfirmMessage(messageId, ref)]
        && stores.log == old(stores.log) + [ConfirmMessage(messageId, ref)]
      case Err(e) =>
        && rows.m == old(rows.m) && stores.queue == old(stores.queue) && stores.log == old(stores.log)
        && reserver.calls == old(reserver.calls) +
             (match e
              case ReservationRefused => [ReserveCall(ref, asked)]
              case NotStored(_) => [ReserveCall(ref, asked), ReleaseCall(ref)]
              case _ => [])
        && match e
           case BadCustomer => NewId(customerText).Err?
           case BadLine(i) => i < |input| && ToOrderLine(input[i]).Err?
             && forall j :: 0 <= j < i ==> ToOrderLine(input[j]).Ok?
           case BadOrder(why) =>
             if input == [] then why == EmptyOrder
             else |lines| == |input| && ValidLines(lines) && Accumulated(lines, |lines|) == Err(why)
           case ReservationRefused => SameAsked(lines, asked) && !granted
           case NotStored(how) => SameAsked(lines, asked) && granted && Ends(x, script, cancels, attempts, Some(how))
    ensures r.Ok? || r.error.ReservationRefused? || r.error.NotStored? || r.error.BadOrder? ==>
      Taken(input, lines, asked) && forall i :: 0 <= i < |input| ==> Fault(input[i]).None?
    ensures r.Err? && r.error.BadLine? ==>
      && r.error.i < |input| && Fault(input[r.error.i]).Some?
      && forall j :: 0 <= j < r.error.i ==> Fault(input[j]).None?
    ensures r.Ok? ==>
      var confirm := Outbox.Envelope(messageId, Warehouse.ConfirmRequested(Stock.Ref(freshId)));
      stores.queue == old(stores.queue) + [confirm] && stores.log == old(stores.log) + [confirm]
    ensures r == Err(BadCustomer) <==> Text.Blank(customerText)
    ensures r.Ok? ==> NewId(customerText).value == Text.Trim(customerText)
    ensures old(ValidRows(rows.m)) ==> ValidRows(rows.m)
    ensures r.Ok? ==> granted && Ends(x, script, cancels, attempts, None)
  {
    CustomerTaken(customerText);
    hide NewId, ToOrderLine, ValidLines, SameAsked, Accumulated, EncodeOrder, ValidRows, Ends, Taken, Fault, Text.Trim,
      Text.Blank;
    lines, asked, attempts := [], [], 0;
    var customer := NewId(customerText);
    if customer.Err? {
      return Err(BadCustomer), lines, asked, attempts;
    }
    var bad;
    lines, asked, bad := ToOrderLines(input);
    if bad.Some? {
      BadLineMeans(input, bad.value);
      return Err(BadLine(bad.value)), lines, asked, attempts;
    }
    DecodedLinesAreValid(input, lines);
    LinesTaken(input, lines, asked);
    var created := NewOrder(OrderId(freshId), CustomerId(customer.value), lines);
    if created.Err? {
      return Err(BadOrder(created.error)), lines, asked, attempts;
    }
    var o := created.value;
    var ok := reserver.Reserve(o.ref, asked, granted);
    if !ok {
      return Err(ReservationRefused), lines, asked, attempts;
    }
    var err, tries, waited := Run(x, script, cancels);
    attempts := tries;
    if err.Some? {
      reserver.Release(o.ref);
      return Err(NotStored(err.value)), lines, asked, attempts;
    }
    ghost var image := o.Image();
    StoreOrder(rows, stores, o, messageId);
    if old(ValidRows(rows.m)) { OneMoreValidRow(old(rows.m), image); }
    return Ok(o.id), lines, asked, attempts;
  }

  // ---------- Cancelling ----------

  /** The row a cancellation writes, or why there is none. */
  function Cancelled(m: Rows, id: OrderId): Result<OrderRow, OrderError> {
    if id !in m then Err(NotFound)
    else
      match DecodeOrder(m[id])
      case Err(e) => Err(e)
      case Ok(o) =>
        if o.status != Confirmed then Err(NotConfirmed)
        else Ok(EncodeOrder(o.(status := OrderStatus.Cancelled, version := o.version + 1)))
  }

  /** Whatever can be read from a row went through the validation of its parts. */
  lemma DecodedIsSound(r: OrderRow)
    ensures DecodeOrder(r).Ok? ==>
      var o := DecodeOrder(r).value;
      && Sound(o) && o.total.amount >= 0 && o.version == r.version
      && (Identified(r.id) ==> o.id.text == r.id)
      && (Identified(r.reservationRef) ==> o.ref.text == r.reservationRef)
  {
    if DecodeOrder(r).Ok? {
      Text.TrimSettles(r.id);
      Text.TrimSettles(r.customerId);
      Text.TrimSettles(r.reservationRef);
      Text.TrimSettles(r.totalCurrency);
      DecodedLines(r.lines, |r.lines|);
    }
  }

  lemma {:induction false} DecodedLines(rows: seq<LineRow>, n: nat)
    requires n <= |rows|
    ensures DecodeLines(rows, n).Ok? ==> ValidLines(DecodeLines(rows, n).value)
  {
    if n > 0 && DecodeLines(rows, n).Ok? {
      DecodedLines(rows, n - 1);
      Text.TrimSettles(rows[n - 1].sku);
      Text.TrimSettles(rows[n - 1].currency);
    }
  }

  /** The cancelled image is written in the place it was read from, one version on. */
  lemma CancelledMeans(m: Rows, id: OrderId)
    requires ValidRows(m)
    ensures id !in m ==> Cancelled(m, id) == Err(NotFound)
    ensures id in m && DecodeOrder(m[id]).Err? ==> Cancelled(m, id) == Err(DecodeOrder(m[id]).error)
    ensures id in m && DecodeOrder(m[id]).Ok? && DecodeOrder(m[id]).value.status != Confirmed ==>
      Cancelled(m, id) == Err(NotConfirmed)
    ensures id in m && DecodeOrder(m[id]).Ok? && DecodeOrder(m[id]).value.status == Confirmed ==>
      var o := DecodeOrder(m[id]).value;
      var next := o.(status := OrderStatus.Cancelled);
      && o.id == id
      && NextVersion(m, next) == Some(o.version + 1)
      && Cancelled(m, id) == Ok(EncodeOrder(next.(version := o.version + 1)))
      && o.ref == DeriveReservationRef(id)
      && ValidRows(m[id := Cancelled(m, id).value])
  {
    if id in m { DecodedIsSound(m[id]); }
  }

  /** Saves the order and collects its events into messages, without committing yet. */
  method StageCancelled(tx: Transaction, o: Order, messageId: Outbox.Id)
    requires tx.writes == [] && tx.messages == []
    requires NextVersion(tx.rows.m, o.Image()).Some? && o.events == [OrderCancelled(o.id, o.ref)]
    modifies tx, o
    ensures var image := old(o.Image());
      tx.writes == [Keyed(o.id, EncodeOrder(image.(version := NextVersion(tx.rows.m, image).value)))]
    ensures tx.messages == [CancelMessage(messageId, o.ref)]
  {
    hide EncodeOrder, NextVersion;
    var conflict := tx.Save(o);
    var events := o.PullEvents();
    for i := 0 to |events|
      modifies tx`messages
      invariant tx.messages == if i == 0 then [] else [ToOutboxMessage(messageId, events[0]).value]
    {
      var m := ToOutboxMessage(messageId, events[i]);
      if m.None? {
        continue;
      }
      tx.Enqueue(m.value);
    }
  }

  /** A cancellation up to, but not including, its commit. */
  method PrepareCancel(rows: OrderRows, stores: Outbox.Stores<Warehouse.Message>, idText: string, messageId: Outbox.Id)
    returns (err: Option<OrderError>, tx: Transaction)
    requires ValidRows(rows.m)
    ensures fresh(tx) && tx.rows == rows && tx.stores == stores
    ensures NewId(idText).Err? ==> err == Some(InvalidId)
    ensures NewId(idText).Ok? ==>
      var id := OrderId(NewId(idText).value);
      match Cancelled(rows.m, id)
      case Err(e) => err == Some(e)
      case Ok(row) =>
        && err == None
        && tx.writes == [Keyed(id, row)] && tx.messages == [CancelMessage(messageId, DeriveReservationRef(id))]
  {
    hide Cancelled, DecodeOrder, EncodeOrder, ValidRows, NextVersion;
    tx := new Transaction(rows, stores);
    var id := NewId(idText);
    if id.Err? {
      return Some(InvalidId), tx;
    }
    CancelledMeans(rows.m, OrderId(id.value));
    var loaded := rows.Load(OrderId(id.value));
    if loaded.Err? {
      return Some(loaded.error), tx;
    }
    var o := loaded.value;
    err := o.Cancel();
    if err.Some? {
      return;
    }
    StageCancelled(tx, o, messageId);
  }

  /** The rows after a cancellation, and the reference its event is sent for. */
  ghost predicate AfterCancel(m: Rows, idText: string, err: Option<OrderError>, after: Rows,
                              sent: Option<ReservationRef>) {
    match NewId(idText)
    case Err(_) => err == Some(InvalidId) && after == m && sent == None
    case Ok(text) =>
      match Cancelled(m, OrderId(text))
      case Err(e) => err == Some(e) && after == m && sent == None
      case Ok(row) =>
        err == None && after == m[OrderId(text) := row] && sent == Some(DeriveReservationRef(OrderId(text)))
  }

  /** Cancels an order in one transaction that nobody interferes with: the cancelled row and exactly
      one event, or the first error and nothing. */
  method Cancel(rows: OrderRows, stores: Outbox.Stores<Warehouse.Message>, idText: string, messageId: Outbox.Id)
    returns (err: Option<OrderError>, ghost sent: Option<ReservationRef>)
    requires ValidRows(rows.m)
    modifies rows, stores
    ensures ValidRows(rows.m) && AfterCancel(old(rows.m), idText, err, rows.m, sent)
    ensures var messages := if sent.Some? then [CancelMessage(messageId, sent.value)] else [];
      stores.queue == old(stores.queue) + messages && stores.log == old(stores.log) + messages
  {
    hide Cancelled, ValidRows;
    sent := None;
    var tx;
    err, tx := PrepareCancel(rows, stores, idText, messageId);
    if err.Some? {
      assert stores.queue + [] == stores.queue && stores.log + [] == stores.log;
      return;
    }
    CancelledMeans(rows.m, OrderId(NewId(idText).value));
    sent := Some(DeriveReservationRef(OrderId(NewId(idText).value)));
    tx.Commit();
    OneWrite(old(rows.m), tx.writes);
  }

  /** Cancelling changes a stored order's status and version and nothing else, and only a confirmed
      order whose total is not negative can be cancelled. */
  lemma CancelledRow(m: Rows, id: OrderId, o: OrderImage)
    requires id in m && m[id] == EncodeOrder(o) && Sound(o) && o.id == id
    ensures Cancelled(m, id) ==
      if o.total.amount < 0 then Err(InvalidMoney)
      else if o.status != Confirmed then Err(NotConfirmed)
      else Ok(m[id].(status := "cancelled", version := m[id].version + 1))
    ensures CancelMessage(0, DeriveReservationRef(id)) ==
      Outbox.Envelope(0, Warehouse.OrderCancelled(Stock.Ref(id.text)))
  {
    ReadsBackUnlessNegative(o);
  }

  /** A cancelled order cannot be cancelled again, so there is never a second event. */
  lemma CancelledOnce(m: Rows, id: OrderId)
    requires ValidRows(m) && Cancelled(m, id).Ok?
    ensures Cancelled(m[id := Cancelled(m, id).value], id) == Err(NotConfirmed)
  {
    DecodedIsSound(m[id]);
    var o := DecodeOrder(m[id]).value;
    ReadsBackUnlessNegative(o.(status := OrderStatus.Cancelled, version := o.version + 1));
  }

  /** A placed order can be cancelled exactly if what is owed for it does not wrap to a negative
      number. Otherwise it is stored, its stock is confirmed, and it can never be loaded again. */
  lemma CancellableUnlessNegative(m: Rows, id: OrderId, customer: CustomerId, lines: seq<OrderLine>)
    requires Identified(id.text) && Identified(customer.text) && ValidLines(lines) && lines != []
    requires Accumulated(lines, |lines|).Ok?
    ensures var placed := AfterStore(m, NewImage(id, customer, lines, Accumulated(lines, |lines|).value));
      && (Cancelled(placed, id).Ok? <==> Wrap64(Owed(lines)) >= 0)
      && (Wrap64(Owed(lines)) < 0 ==> Cancelled(placed, id) == Err(InvalidMoney))
      && (Owed(lines) < INT64_LIMIT ==> Cancelled(placed, id).Ok?)
  {
    NewOrdersReadBack(id, customer, lines, 1);
    ReadsBackUnlessNegative(NewImage(id, customer, lines, Accumulated(lines, |lines|).value).(version := 1));
  }
}
