/**
  The database the repository talks to, and the repository's two
  operations written the way the repository runs them.

  The database is a class whose fields are the four tables and the serial
  counters behind the generated ids. An insert either appends a row (and,
  for the three tables with a returned id, hands out the next id) or fails.
  `AddOrder` and `GetOrders` issue their statements one by one against it
  and are proved to agree with `Write` and `Read`, whose properties are
  proved in `DbProperties`.
*/
module Repository {
  import opened Wrappers
  import opened Structures
  import opened Db
  import opened DbProperties

  // ---------------------------------------------------------------------
  // The database

  class Database {
    var deliveries: seq<Row<Delivery>>
    var payments: seq<Row<Payment>>
    var orders: seq<Row<OrderRecord>>
    var items: seq<ItemRow>
    var nextDeliveryId: int
    var nextPaymentId: int
    var nextOrderId: int

    function State(): Tables
      reads this
    {
      Tables(deliveries, payments, orders, items, nextDeliveryId, nextPaymentId, nextOrderId)
    }

    ghost predicate Valid()
      reads this
    {
      Consistent(State())
    }

    /** A database whose tables are empty. */
    constructor ()
      ensures State() == Empty && Valid()
    {
      deliveries, payments, orders, items := [], [], [], [];
      nextDeliveryId, nextPaymentId, nextOrderId := 1, 1, 1;
    }

    /** `insert into DELIVERY ... returning ID`. */
    method InsertDelivery(d: Delivery, rejected: bool) returns (id: Option<int>)
      modifies this
      ensures if DeliveryStatementParses(d) && !rejected
              then id == Some(old(nextDeliveryId)) && State() == old(State()).AppendDelivery(d)
              else id == None && State() == old(State())
    {
      if !DeliveryStatementParses(d) || rejected {
        return None;
      }
      id := Some(nextDeliveryId);
      deliveries := deliveries + [Row(nextDeliveryId, d)];
      nextDeliveryId := nextDeliveryId + 1;
    }

    /** `insert into PAYMENT ... returning ID`. */
    method InsertPayment(p: Payment, rejected: bool) returns (id: Option<int>)
      modifies this
      ensures if PaymentStatementParses(p) && !rejected
              then id == Some(old(nextPaymentId)) && State() == old(State()).AppendPayment(p)
              else id == None && State() == old(State())
    {
      if !PaymentStatementParses(p) || rejected {
        return None;
      }
      id := Some(nextPaymentId);
      payments := payments + [Row(nextPaymentId, p)];
      nextPaymentId := nextPaymentId + 1;
    }

    /** `insert into ORDERS ... returning ID`. */
    method InsertOrder(r: OrderRecord, rejected: bool) returns (id: Option<int>)
      modifies this
      ensures if OrderStatementParses(r) && !rejected
              then id == Some(old(nextOrderId)) && State() == old(State()).AppendOrder(r)
              else id == None && State() == old(State())
    {
      if !OrderStatementParses(r) || rejected {
        return None;
      }
      id := Some(nextOrderId);
      orders := orders + [Row(nextOrderId, r)];
      nextOrderId := nextOrderId + 1;
    }

    /** `insert into ITEMS ...`; no id is returned. */
    method InsertItem(it: Item, orderId: int, rejected: bool) returns (ok: bool)
      modifies this
      ensures ok == (ItemStatementParses(it) && !rejected)
      ensures State() == if ok then old(State()).AppendItem(orderId, it) else old(State())
    {
      ok := ItemStatementParses(it) && !rejected;
      if ok {
        items := items + [ItemRow(orderId, it)];
      }
    }

    /** `select * from orders join payment ... join delivery ...`. */
    function Joined(): seq<JoinedRow>
      reads this
    {
      Join(orders, payments, deliveries)
    }

    /** `select * from ITEMS where ORDER_ID = orderId`. */
    function ItemsOfOrder(orderId: int): seq<ItemRow>
      reads this
    {
      ItemsWhere(items, orderId)
    }
  }

  // ---------------------------------------------------------------------
  // The repository

  /**
    `add_order`: inserts the delivery, the payment, the order linked to
    both, then each item linked to the order. The first failing insert
    returns its error at once; nothing already written is undone.
  */
  method AddOrder(db: Database, o: Order, rejected: set<Stage>) returns (r: Result<(), DbError>)
    modifies db
    ensures Write(old(db.State()), o, rejected) == Written(db.State(), r)
    ensures old(db.Valid()) ==> db.Valid()
  {
    if db.Valid() {
      WritePreservesConsistency(db.State(), o, rejected);
    }
    var deliveryId := db.InsertDelivery(o.delivery, DeliveryInsert in rejected);
    if deliveryId.None? {
      return Err(InsertFailed(DeliveryInsert));
    }
    var paymentId := db.InsertPayment(o.payment, PaymentInsert in rejected);
    if paymentId.None? {
      return Err(InsertFailed(PaymentInsert));
    }
    var orderId := db.InsertOrder(RecordOf(o, deliveryId.value, paymentId.value), OrderInsert in rejected);
    if orderId.None? {
      return Err(InsertFailed(OrderInsert));
    }
    ghost var afterOrder := db.State();
    for i := 0 to |o.items|
      invariant WriteItems(db.State(), o.items, i, orderId.value, rejected) ==
                WriteItems(afterOrder, o.items, 0, orderId.value, rejected)
    {
      var ok := db.InsertItem(o.items[i], orderId.value, ItemInsert(i) in rejected);
      if !ok {
        return Err(InsertFailed(ItemInsert(i)));
      }
    }
    r := Ok(());
  }

  /**
    `get_orders`: one aggregate per joined row, its items gathered by a
    second select keyed by the row's id. Any failing select returns its
    error and no orders. The database is only read.
  */
  method GetOrders(db: Database, rejected: set<Select>) returns (r: Result<seq<Order>, DbError>)
    ensures r == Read(db.State(), rejected)
    ensures db.Valid() && r.Ok? ==> |r.value| == |db.orders|
  {
    if JoinSelect in rejected {
      return Err(SelectFailed(JoinSelect));
    }
    var rows := db.Joined();
    var ans: seq<Order> := [];
    PrefixedAppend([], [], Assemble(rows, db.items, 0, rejected));
    for i := 0 to |rows|
      invariant Assemble(rows, db.items, 0, rejected) == Prefixed(ans, Assemble(rows, db.items, i, rejected))
    {
      if ItemsSelect(i) in rejected {
        return Err(SelectFailed(ItemsSelect(i)));
      }
      var itemRows := db.ItemsOfOrder(RowId(rows[i]));
      var items: seq<Item> := [];
      for j := 0 to |itemRows|
        invariant items == Values(itemRows[..j])
      {
        assert itemRows[..j + 1][..j] == itemRows[..j];
        items := items + [itemRows[j].item];
      }
      assert itemRows[..|itemRows|] == itemRows;
      PrefixedAppend(ans, [Reassemble(rows[i], items)], Assemble(rows, db.items, i + 1, rejected));
      ans := ans + [Reassemble(rows[i], items)];
    }
    assert ans + [] == ans;
    r := Ok(ans);
    if db.Valid() {
      ReadCountsOrders(db.State(), rejected);
    }
  }
}
