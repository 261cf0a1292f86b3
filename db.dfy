/**
  The four tables the order repository writes to, and what its two
  operations do to them, as functions on table values.

  A successful write stores one order as one DELIVERY row, one PAYMENT row,
  one ORDERS row that refers to both by their generated ids, and one ITEMS
  row per item that refers to the ORDERS row's generated id. A read joins
  ORDERS with PAYMENT and DELIVERY and, for each joined row, selects that
  order's ITEMS rows.

  An insert fails when the statement the repository formats would not
  parse: string values are placed between single quotes without escaping,
  and `oof_shard` is placed with no quotes at all. It also fails when the
  database refuses it for a reason outside the statement's text; those
  failures, and failing selects, are given as `rejected` sets of stages.
*/
module Db {
  import opened Wrappers
  import opened Structures

  // ---------------------------------------------------------------------
  // Rows and tables

  /** A row of a table whose primary key is a serial `id`. */
  datatype Row<T> = Row(id: int, value: T)

  /** The non-key columns of an ORDERS row. */
  datatype OrderRecord = OrderRecord(
    orderUid: string,
    trackNumber: string,
    entry: string,
    deliveryId: int,
    paymentId: int,
    locale: string,
    internalSignature: string,
    customerId: string,
    deliveryService: string,
    shardkey: string,
    smId: I32,
    dateCreated: string,
    oofShard: string)

  /** An ITEMS row: the item's columns and the `ORDER_ID` it belongs to. */
  datatype ItemRow = ItemRow(orderId: int, item: Item)

  datatype Tables = Tables(
    deliveries: seq<Row<Delivery>>,
    payments: seq<Row<Payment>>,
    orders: seq<Row<OrderRecord>>,
    items: seq<ItemRow>,
    nextDeliveryId: int,
    nextPaymentId: int,
    nextOrderId: int)
  {
    function AppendDelivery(d: Delivery): Tables {
      this.(deliveries := deliveries + [Row(nextDeliveryId, d)], nextDeliveryId := nextDeliveryId + 1)
    }

    function AppendPayment(p: Payment): Tables {
      this.(payments := payments + [Row(nextPaymentId, p)], nextPaymentId := nextPaymentId + 1)
    }

    function AppendOrder(r: OrderRecord): Tables {
      this.(orders := orders + [Row(nextOrderId, r)], nextOrderId := nextOrderId + 1)
    }

    function AppendItem(orderId: int, it: Item): Tables {
      this.(items := items + [ItemRow(orderId, it)])
    }
  }

  /** Empty tables; serial ids start at 1. */
  const Empty: Tables := Tables([], [], [], [], 1, 1, 1)

  // ---------------------------------------------------------------------
  // Statements as the repository formats them

  /** A value placed between single quotes stays one literal only if it holds no quote. */
  predicate QuoteFree(s: string) {
    '\'' !in s
  }

  /**
    `oof_shard` is written into the ORDERS insert with no quotes, so it must be
    a bare numeric literal; the model accepts the canonical unsigned decimal
    form, one that reads back unchanged.
  */
  predicate BareNumeral(s: string) {
    && |s| > 0
    && (forall i :: 0 <= i < |s| ==> '0' <= s[i] <= '9')
    && (s[0] == '0' ==> |s| == 1)
  }

  predicate DeliveryStatementParses(d: Delivery) {
    QuoteFree(d.name) && QuoteFree(d.phone) && QuoteFree(d.zip) && QuoteFree(d.city) &&
    QuoteFree(d.address) && QuoteFree(d.region) && QuoteFree(d.email)
  }

  predicate PaymentStatementParses(p: Payment) {
    QuoteFree(p.transaction) && QuoteFree(p.requestId) && QuoteFree(p.currency) &&
    QuoteFree(p.provider) && QuoteFree(p.bank)
  }

  predicate OrderStatementParses(r: OrderRecord) {
    QuoteFree(r.orderUid) && QuoteFree(r.trackNumber) && QuoteFree(r.entry) &&
    QuoteFree(r.locale) && QuoteFree(r.internalSignature) && QuoteFree(r.customerId) &&
    QuoteFree(r.deliveryService) && QuoteFree(r.shardkey) && QuoteFree(r.dateCreated) &&
    BareNumeral(r.oofShard)
  }

  predicate ItemStatementParses(it: Item) {
    QuoteFree(it.trackNumber) && QuoteFree(it.rid) && QuoteFree(it.name) &&
    QuoteFree(it.size) && QuoteFree(it.brand)
  }

  // ---------------------------------------------------------------------
  // The write side: add_order

  /** The inserts of one write, in the order they are issued. */
  datatype Stage = DeliveryInsert | PaymentInsert | OrderInsert | ItemInsert(index: nat)

  /** The selects of one read: the join, then one item select per joined row. */
  datatype Select = JoinSelect | ItemsSelect(row: nat)

  datatype DbError = InsertFailed(stage: Stage) | SelectFailed(select: Select)

  datatype Written = Written(tables: Tables, result: Result<(), DbError>)

  /** The ORDERS columns of `o`, linked to the delivery and payment rows. */
  function RecordOf(o: Order, deliveryId: int, paymentId: int): OrderRecord {
    OrderRecord(o.orderUid, o.trackNumber, o.entry, deliveryId, paymentId, o.locale,
                o.internalSignature, o.customerId, o.deliveryService, o.shardkey, o.smId,
                o.dateCreated, o.oofShard)
  }

  predicate ItemAccepted(items: seq<Item>, i: nat, rejected: set<Stage>)
    requires i < |items|
  {
    ItemStatementParses(items[i]) && ItemInsert(i) !in rejected
  }

  /**
    The effect of `add_order`: the delivery, payment and order inserts in
    turn, each consuming the previous generated ids, then the items. The
    first failing insert ends the write with an error; what earlier inserts
    wrote stays.
  */
  function Write(t: Tables, o: Order, rejected: set<Stage>): Written {
    if !DeliveryStatementParses(o.delivery) || DeliveryInsert in rejected then
      Written(t, Err(InsertFailed(DeliveryInsert)))
    else
      var deliveryId := t.nextDeliveryId;
      var t1 := t.AppendDelivery(o.delivery);
      if !PaymentStatementParses(o.payment) || PaymentInsert in rejected then
        Written(t1, Err(InsertFailed(PaymentInsert)))
      else
        var paymentId := t1.nextPaymentId;
        var t2 := t1.AppendPayment(o.payment);
        var record := RecordOf(o, deliveryId, paymentId);
        if !OrderStatementParses(record) || OrderInsert in rejected then
          Written(t2, Err(InsertFailed(OrderInsert)))
        else
          var orderId := t2.nextOrderId;
          WriteItems(t2.AppendOrder(record), o.items, 0, orderId, rejected)
  }

  /** The item inserts of a write, from position `i` on. */
  function WriteItems(t: Tables, items: seq<Item>, i: nat, orderId: int, rejected: set<Stage>): Written
    requires i <= |items|
    decreases |items| - i
  {
    if i == |items| then Written(t, Ok(()))
    else if !ItemAccepted(items, i, rejected) then Written(t, Err(InsertFailed(ItemInsert(i))))
    else WriteItems(t.AppendItem(orderId, items[i]), items, i + 1, orderId, rejected)
  }

  // ---------------------------------------------------------------------
  // The read side: get_orders

  /** A row of `orders join payment join delivery`, columns in that order. */
  datatype JoinedRow = JoinedRow(order: Row<OrderRecord>, payment: Row<Payment>, delivery: Row<Delivery>)

  /**
    The value `row.get("id")` returns: `select *` lists the ORDERS columns
    first, so of the three `id` columns the first one, the order's, is taken.
  */
  function RowId(row: JoinedRow): int {
    row.order.id
  }

  /** The row with primary key `id`, if any (the last one, were ids repeated). */
  function Find<T>(rows: seq<Row<T>>, id: int): Option<Row<T>> {
    if rows == [] then None
    else if rows[|rows| - 1].id == id then Some(rows[|rows| - 1])
    else Find(rows[..|rows| - 1], id)
  }

  /** The inner join: orders rows without a matching payment or delivery yield nothing. */
  function Join(orders: seq<Row<OrderRecord>>, payments: seq<Row<Payment>>,
                deliveries: seq<Row<Delivery>>): seq<JoinedRow>
  {
    if orders == [] then []
    else
      var o := orders[|orders| - 1];
      Join(orders[..|orders| - 1], payments, deliveries) +
        match (Find(payments, o.value.paymentId), Find(deliveries, o.value.deliveryId))
        case (Some(p), Some(d)) => [JoinedRow(o, p, d)]
        case _ => []
  }

  /** `select * from ITEMS where ORDER_ID = orderId`, in table order. */
  function ItemsWhere(rows: seq<ItemRow>, orderId: int): seq<ItemRow> {
    if rows == [] then []
    else
      ItemsWhere(rows[..|rows| - 1], orderId) +
        (if rows[|rows| - 1].orderId == orderId then [rows[|rows| - 1]] else [])
  }

  /** The items held by item rows, in order. */
  function Values(rows: seq<ItemRow>): seq<Item> {
    if rows == [] then [] else Values(rows[..|rows| - 1]) + [rows[|rows| - 1].item]
  }

  /** The aggregate built from one joined row and its items. */
  function Reassemble(row: JoinedRow, items: seq<Item>): Order {
    var r := row.order.value;
    Order(r.orderUid, r.trackNumber, r.entry, row.delivery.value, row.payment.value, items,
          r.locale, r.internalSignature, r.customerId, r.deliveryService, r.shardkey, r.smId,
          r.dateCreated, r.oofShard)
  }

  /** The orders read from the joined rows from position `i` on; the first failing select ends it. */
  function Assemble(rows: seq<JoinedRow>, itemTable: seq<ItemRow>, i: nat, rejected: set<Select>)
    : Result<seq<Order>, DbError>
    requires i <= |rows|
    decreases |rows| - i
  {
    if i == |rows| then Ok([])
    else if ItemsSelect(i) in rejected then Err(SelectFailed(ItemsSelect(i)))
    else
      var items := Values(ItemsWhere(itemTable, RowId(rows[i])));
      Prefixed([Reassemble(rows[i], items)], Assemble(rows, itemTable, i + 1, rejected))
  }

  function Prefixed(prefix: seq<Order>, r: Result<seq<Order>, DbError>): Result<seq<Order>, DbError> {
    match r
    case Ok(rest) => Ok(prefix + rest)
    case Err(e) => Err(e)
  }

  lemma PrefixedAppend(a: seq<Order>, b: seq<Order>, r: Result<seq<Order>, DbError>)
    ensures Prefixed(a, Prefixed(b, r)) == Prefixed(a + b, r)
    ensures Prefixed([], r) == r
  {
    if r.Ok? {
      assert a + (b + r.value) == (a + b) + r.value;
      assert [] + r.value == r.value;
    }
  }

  /** The result of `get_orders`. */
  function Read(t: Tables, rejected: set<Select>): Result<seq<Order>, DbError> {
    if JoinSelect in rejected then Err(SelectFailed(JoinSelect))
    else Assemble(Join(t.orders, t.payments, t.deliveries), t.items, 0, rejected)
  }

  // ---------------------------------------------------------------------
  // Consistency of the tables

  predicate IdsBelow<T>(rows: seq<Row<T>>, next: int) {
    forall i :: 0 <= i < |rows| ==> 1 <= rows[i].id < next
  }

  predicate IdsIncreasing<T>(rows: seq<Row<T>>) {
    forall i, j :: 0 <= i < j < |rows| ==> rows[i].id < rows[j].id
  }

  /**
    Ids are serial (positive, increasing, below the next one handed out)
    and every foreign key refers to an existing row.
  */
  predicate Consistent(t: Tables) {
    && 1 <= t.nextDeliveryId && 1 <= t.nextPaymentId && 1 <= t.nextOrderId
    && IdsBelow(t.deliveries, t.nextDeliveryId) && IdsIncreasing(t.deliveries)
    && IdsBelow(t.payments, t.nextPaymentId) && IdsIncreasing(t.payments)
    && IdsBelow(t.orders, t.nextOrderId) && IdsIncreasing(t.orders)
    && (forall i :: 0 <= i < |t.orders| ==>
          Find(t.deliveries, t.orders[i].value.deliveryId).Some? &&
          Find(t.payments, t.orders[i].value.paymentId).Some?)
    && (forall i :: 0 <= i < |t.items| ==> Find(t.orders, t.items[i].orderId).Some?)
  }
}
