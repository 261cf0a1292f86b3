/**
  What `add_order` and `get_orders` promise about the tables: the rows one
  write adds and how they are linked, what a failing write leaves behind,
  that writes keep the tables consistent, what the join and the item
  select return, and that an order written is read back.
*/
module DbProperties {
  import opened Wrappers
  import opened Structures
  import opened Db

  // ---------------------------------------------------------------------
  // Row lookup by id

  lemma FindAppend<T>(rows: seq<Row<T>>, r: Row<T>, id: int)
    ensures Find(rows + [r], id) == if r.id == id then Some(r) else Find(rows, id)
  {
    assert (rows + [r])[..|rows|] == rows;
  }

  /** `Find` only returns a row of the table with the id asked for, and finds one whenever there is one. */
  lemma {:induction false} FindSound<T>(rows: seq<Row<T>>, id: int)
    ensures Find(rows, id).Some? ==> Find(rows, id).value in rows && Find(rows, id).value.id == id
    ensures Find(rows, id).None? <==> forall i :: 0 <= i < |rows| ==> rows[i].id != id
  {
    if rows != [] {
      var init := rows[..|rows| - 1];
      FindSound(init, id);
      assert rows == init + [rows[|rows| - 1]];
    }
  }

  /** With increasing ids a row is the one `Find` returns for its id. */
  lemma {:induction false} FindUnique<T>(rows: seq<Row<T>>, r: Row<T>)
    requires IdsIncreasing(rows)
    ensures Find(rows, r.id) == Some(r) <==> r in rows
  {
    FindSound(rows, r.id);
    if r in rows && rows[|rows| - 1] != r {
      var init := rows[..|rows| - 1];
      assert rows == init + [rows[|rows| - 1]];
      assert r in init;
      FindUnique(init, r);
    }
  }

  lemma FoundBelow<T>(rows: seq<Row<T>>, id: int, next: int)
    requires IdsBelow(rows, next) && Find(rows, id).Some?
    ensures 1 <= id < next
  {
    FindSound(rows, id);
  }

  /** Appending a row with a fresh id leaves every lookup that already succeeded unchanged. */
  lemma AppendKeepsFind<T>(rows: seq<Row<T>>, next: int, v: T, id: int)
    requires IdsBelow(rows, next) && Find(rows, id).Some?
    ensures Find(rows + [Row(next, v)], id) == Find(rows, id)
  {
    FoundBelow(rows, id, next);
    FindAppend(rows, Row(next, v), id);
  }

  lemma AppendKeepsIds<T>(rows: seq<Row<T>>, next: int, v: T)
    requires IdsBelow(rows, next) && IdsIncreasing(rows) && 1 <= next
    ensures IdsBelow(rows + [Row(next, v)], next + 1) && IdsIncreasing(rows + [Row(next, v)])
  {
  }

  // ---------------------------------------------------------------------
  // The tables a write leaves

  /** The ITEMS rows that hold `items` for the order `orderId`, in order. */
  function ItemRows(items: seq<Item>, orderId: int): seq<ItemRow> {
    seq(|items|, j requires 0 <= j < |items| => ItemRow(orderId, items[j]))
  }

  /** The tables after the delivery, payment and order inserts of `o` all succeed. */
  function Headed(t: Tables, o: Order): Tables {
    t.AppendDelivery(o.delivery).AppendPayment(o.payment).AppendOrder(RecordOf(o, t.nextDeliveryId, t.nextPaymentId))
  }

  /** ... and the inserts of the first `k` items as well. */
  function WithItems(t: Tables, o: Order, k: nat): Tables
    requires k <= |o.items|
  {
    var h := Headed(t, o);
    h.(items := h.items + ItemRows(o.items[..k], t.nextOrderId))
  }

  predicate DeliveryAccepted(o: Order, rejected: set<Stage>) {
    DeliveryStatementParses(o.delivery) && DeliveryInsert !in rejected
  }

  predicate PaymentAccepted(o: Order, rejected: set<Stage>) {
    PaymentStatementParses(o.payment) && PaymentInsert !in rejected
  }

  /** The generated ids are numbers, so they never decide whether the ORDERS statement parses. */
  predicate OrderAccepted(o: Order, rejected: set<Stage>) {
    OrderStatementParses(RecordOf(o, 0, 0)) && OrderInsert !in rejected
  }

  predicate HeadAccepted(o: Order, rejected: set<Stage>) {
    DeliveryAccepted(o, rejected) && PaymentAccepted(o, rejected) && OrderAccepted(o, rejected)
  }

  /** Every insert of the write of `o` succeeds. */
  predicate AllAccepted(o: Order, rejected: set<Stage>) {
    HeadAccepted(o, rejected) && forall j :: 0 <= j < |o.items| ==> ItemAccepted(o.items, j, rejected)
  }

  /** The position of the first failing item insert from `i` on, or `|items|` when none fails. */
  function FirstRejectedItem(items: seq<Item>, i: nat, rejected: set<Stage>): (k: nat)
    requires i <= |items|
    ensures i <= k <= |items|
    ensures forall j :: i <= j < k ==> ItemAccepted(items, j, rejected)
    ensures k < |items| ==> !ItemAccepted(items, k, rejected)
    decreases |items| - i
  {
    if i == |items| || !ItemAccepted(items, i, rejected) then i
    else FirstRejectedItem(items, i + 1, rejected)
  }

  /** The item loop inserts items up to the first failing one and reports that one's position. */
  lemma {:induction false} WriteItemsEffect(t: Tables, items: seq<Item>, i: nat, orderId: int, rejected: set<Stage>)
    requires i <= |items|
    ensures var k := FirstRejectedItem(items, i, rejected);
      WriteItems(t, items, i, orderId, rejected) ==
        Written(t.(items := t.items + ItemRows(items[i..k], orderId)),
                if k == |items| then Ok(()) else Err(InsertFailed(ItemInsert(k))))
    decreases |items| - i
  {
    var k := FirstRejectedItem(items, i, rejected);
    if i == |items| || !ItemAccepted(items, i, rejected) {
      assert ItemRows(items[i..k], orderId) == [];
      assert t.items + [] == t.items;
    } else {
      var t' := t.AppendItem(orderId, items[i]);
      WriteItemsEffect(t', items, i + 1, orderId, rejected);
      assert ItemRows(items[i..k], orderId) == [ItemRow(orderId, items[i])] + ItemRows(items[i + 1..k], orderId);
      assert t.items + ItemRows(items[i..k], orderId) ==
             t'.items + ItemRows(items[i + 1..k], orderId);
    }
  }

  // ---------------------------------------------------------------------
  // add_order: outcome

  /** `add_order` succeeds exactly when every one of its inserts does, and then it has written the whole order. */
  lemma AddOrderSucceeds(t: Tables, o: Order, rejected: set<Stage>)
    ensures Write(t, o, rejected).result == Ok(()) <==> AllAccepted(o, rejected)
    ensures Write(t, o, rejected).result == Ok(()) ==> Write(t, o, rejected).tables == WithItems(t, o, |o.items|)
  {
    if HeadAccepted(o, rejected) {
      WriteItemsEffect(Headed(t, o), o.items, 0, t.nextOrderId, rejected);
      var k := FirstRejectedItem(o.items, 0, rejected);
      assert o.items[0..k] == o.items[..k];
    }
  }

  /**
    A successful `add_order` adds one DELIVERY, one PAYMENT and one ORDERS
    row and one ITEMS row per item, and nothing else. The order row holds the
    ids generated for the delivery and payment rows, and the `j`-th new item
    row holds `items[j]` and the id generated for the order row.
  */
  lemma AddOrderRows(t: Tables, o: Order, rejected: set<Stage>)
    requires Write(t, o, rejected).result == Ok(())
    ensures var w := Write(t, o, rejected).tables;
      && |w.deliveries| == |t.deliveries| + 1 && w.deliveries[..|t.deliveries|] == t.deliveries
      && |w.payments| == |t.payments| + 1 && w.payments[..|t.payments|] == t.payments
      && |w.orders| == |t.orders| + 1 && w.orders[..|t.orders|] == t.orders
      && |w.items| == |t.items| + |o.items| && w.items[..|t.items|] == t.items
      && var delivery, payment, order := w.deliveries[|t.deliveries|], w.payments[|t.payments|], w.orders[|t.orders|];
      && delivery.value == o.delivery
      && payment.value == o.payment
      && order.value == RecordOf(o, delivery.id, payment.id)
      && (forall j :: 0 <= j < |o.items| ==> w.items[|t.items| + j] == ItemRow(order.id, o.items[j]))
  {
    AddOrderSucceeds(t, o, rejected);
    assert o.items[..|o.items|] == o.items;
  }

  /** A rejected delivery insert ends `add_order` before anything is written. */
  lemma FailedDeliveryInsertWritesNothing(t: Tables, o: Order, rejected: set<Stage>)
    ensures Write(t, o, rejected).result == Err(InsertFailed(DeliveryInsert)) <==> !DeliveryAccepted(o, rejected)
    ensures !DeliveryAccepted(o, rejected) ==> Write(t, o, rejected).tables == t
  {
    if HeadAccepted(o, rejected) {
      WriteItemsEffect(Headed(t, o), o.items, 0, t.nextOrderId, rejected);
    }
  }

  /** A rejected payment insert ends `add_order`; the delivery row it has written stays. */
  lemma FailedPaymentInsertKeepsDelivery(t: Tables, o: Order, rejected: set<Stage>)
    ensures Write(t, o, rejected).result == Err(InsertFailed(PaymentInsert)) <==>
            DeliveryAccepted(o, rejected) && !PaymentAccepted(o, rejected)
    ensures DeliveryAccepted(o, rejected) && !PaymentAccepted(o, rejected) ==>
            Write(t, o, rejected).tables == t.AppendDelivery(o.delivery)
  {
    if HeadAccepted(o, rejected) {
      WriteItemsEffect(Headed(t, o), o.items, 0, t.nextOrderId, rejected);
    }
  }

  /** A rejected order insert ends `add_order`; the delivery and payment rows stay, referenced by nothing. */
  lemma FailedOrderInsertKeepsDeliveryAndPayment(t: Tables, o: Order, rejected: set<Stage>)
    ensures Write(t, o, rejected).result == Err(InsertFailed(OrderInsert)) <==>
            DeliveryAccepted(o, rejected) && PaymentAccepted(o, rejected) && !OrderAccepted(o, rejected)
    ensures DeliveryAccepted(o, rejected) && PaymentAccepted(o, rejected) && !OrderAccepted(o, rejected) ==>
            Write(t, o, rejected).tables == t.AppendDelivery(o.delivery).AppendPayment(o.payment)
  {
    if HeadAccepted(o, rejected) {
      WriteItemsEffect(Headed(t, o), o.items, 0, t.nextOrderId, rejected);
    }
  }

  /**
    A rejected item insert ends `add_order` at the first failing item; the
    delivery, payment and order rows and the rows of the items before it stay.
  */
  lemma FailedItemInsertLeavesPartialOrder(t: Tables, o: Order, rejected: set<Stage>, k: nat)
    ensures Write(t, o, rejected).result == Err(InsertFailed(ItemInsert(k))) <==>
            HeadAccepted(o, rejected) && k < |o.items| && !ItemAccepted(o.items, k, rejected) &&
            forall j :: 0 <= j < k ==> ItemAccepted(o.items, j, rejected)
    ensures Write(t, o, rejected).result == Err(InsertFailed(ItemInsert(k))) ==>
            k < |o.items| && Write(t, o, rejected).tables == WithItems(t, o, k)
  {
    if HeadAccepted(o, rejected) {
      WriteItemsEffect(Headed(t, o), o.items, 0, t.nextOrderId, rejected);
      var f := FirstRejectedItem(o.items, 0, rejected);
      assert o.items[0..f] == o.items[..f];
      if k < |o.items| && !ItemAccepted(o.items, k, rejected) && forall j :: 0 <= j < k ==> ItemAccepted(o.items, j, rejected) {
        assert !(f < k);
      }
    }
  }

  // ---------------------------------------------------------------------
  // add_order keeps the tables consistent

  lemma AppendDeliveryConsistent(t: Tables, d: Delivery)
    requires Consistent(t)
    ensures Consistent(t.AppendDelivery(d))
  {
    AppendKeepsIds(t.deliveries, t.nextDeliveryId, d);
    forall i | 0 <= i < |t.orders|
      ensures Find(t.AppendDelivery(d).deliveries, t.orders[i].value.deliveryId).Some?
    {
      AppendKeepsFind(t.deliveries, t.nextDeliveryId, d, t.orders[i].value.deliveryId);
    }
  }

  lemma AppendPaymentConsistent(t: Tables, p: Payment)
    requires Consistent(t)
    ensures Consistent(t.AppendPayment(p))
  {
    AppendKeepsIds(t.payments, t.nextPaymentId, p);
    forall i | 0 <= i < |t.orders|
      ensures Find(t.AppendPayment(p).payments, t.orders[i].value.paymentId).Some?
    {
      AppendKeepsFind(t.payments, t.nextPaymentId, p, t.orders[i].value.paymentId);
    }
  }

  lemma AppendOrderConsistent(t: Tables, r: OrderRecord)
    requires Consistent(t)
    requires Find(t.deliveries, r.deliveryId).Some? && Find(t.payments, r.paymentId).Some?
    ensures Consistent(t.AppendOrder(r))
  {
    AppendKeepsIds(t.orders, t.nextOrderId, r);
    forall i | 0 <= i < |t.items|
      ensures Find(t.AppendOrder(r).orders, t.items[i].orderId).Some?
    {
      AppendKeepsFind(t.orders, t.nextOrderId, r, t.items[i].orderId);
    }
  }

  lemma HeadedConsistent(t: Tables, o: Order)
    requires Consistent(t)
    ensures Consistent(t.AppendDelivery(o.delivery))
    ensures Consistent(t.AppendDelivery(o.delivery).AppendPayment(o.payment))
    ensures Consistent(Headed(t, o))
    ensures Find(Headed(t, o).orders, t.nextOrderId) == Some(Row(t.nextOrderId, RecordOf(o, t.nextDeliveryId, t.nextPaymentId)))
  {
    var t1 := t.AppendDelivery(o.delivery);
    var t2 := t1.AppendPayment(o.payment);
    AppendDeliveryConsistent(t, o.delivery);
    AppendPaymentConsistent(t1, o.payment);
    FindAppend(t.deliveries, Row(t.nextDeliveryId, o.delivery), t.nextDeliveryId);
    FindAppend(t1.payments, Row(t.nextPaymentId, o.payment), t.nextPaymentId);
    var r := RecordOf(o, t.nextDeliveryId, t.nextPaymentId);
    AppendOrderConsistent(t2, r);
    FindAppend(t2.orders, Row(t.nextOrderId, r), t.nextOrderId);
  }

  /** Whatever its outcome, `add_order` leaves consistent tables consistent: ids stay serial and every new reference resolves. */
  lemma WritePreservesConsistency(t: Tables, o: Order, rejected: set<Stage>)
    requires Consistent(t)
    ensures Consistent(Write(t, o, rejected).tables)
  {
    HeadedConsistent(t, o);
    if HeadAccepted(o, rejected) {
      var h := Headed(t, o);
      var k := FirstRejectedItem(o.items, 0, rejected);
      WriteItemsEffect(h, o.items, 0, t.nextOrderId, rejected);
      var added := ItemRows(o.items[0..k], t.nextOrderId);
      forall i | 0 <= i < |h.items + added|
        ensures Find(h.orders, (h.items + added)[i].orderId).Some?
      {
        if i >= |h.items| {
          assert (h.items + added)[i] == added[i - |h.items|];
        }
      }
    }
  }

  // ---------------------------------------------------------------------
  // get_orders: the join and the item select

  /**
    The join is an inner join: a triple of rows is in it exactly when the
    three rows are in their tables and the order row refers to the other two.
  */
  lemma {:induction false} JoinIsInnerJoin(orders: seq<Row<OrderRecord>>, payments: seq<Row<Payment>>,
                                           deliveries: seq<Row<Delivery>>, row: JoinedRow)
    requires IdsIncreasing(payments) && IdsIncreasing(deliveries)
    ensures row in Join(orders, payments, deliveries) <==>
            && row.order in orders && row.payment in payments && row.delivery in deliveries
            && row.payment.id == row.order.value.paymentId
            && row.delivery.id == row.order.value.deliveryId
  {
    FindUnique(payments, row.payment);
    FindUnique(deliveries, row.delivery);
    if orders != [] {
      var init, last := orders[..|orders| - 1], orders[|orders| - 1];
      JoinIsInnerJoin(init, payments, deliveries, row);
      assert orders == init + [last];
      FindSound(payments, last.value.paymentId);
      FindSound(deliveries, last.value.deliveryId);
    }
  }

  /** When every order row's references resolve, the join keeps every order row, in table order. */
  lemma {:induction false} JoinKeepsEveryOrder(orders: seq<Row<OrderRecord>>, payments: seq<Row<Payment>>,
                                               deliveries: seq<Row<Delivery>>)
    requires forall i :: 0 <= i < |orders| ==>
               Find(payments, orders[i].value.paymentId).Some? && Find(deliveries, orders[i].value.deliveryId).Some?
    ensures |Join(orders, payments, deliveries)| == |orders|
    ensures forall i :: 0 <= i < |orders| ==> Join(orders, payments, deliveries)[i].order == orders[i]
  {
    if orders != [] {
      var init := orders[..|orders| - 1];
      JoinKeepsEveryOrder(init, payments, deliveries);
    }
  }

  /** Every joined row's order row comes from the ORDERS table. */
  lemma {:induction false} JoinRowsFromOrders(orders: seq<Row<OrderRecord>>, payments: seq<Row<Payment>>,
                                              deliveries: seq<Row<Delivery>>)
    ensures forall r :: r in Join(orders, payments, deliveries) ==> r.order in orders
  {
    if orders != [] {
      var init := orders[..|orders| - 1];
      JoinRowsFromOrders(init, payments, deliveries);
      assert orders == init + [orders[|orders| - 1]];
    }
  }

  lemma JoinAppendOrder(orders: seq<Row<OrderRecord>>, r: Row<OrderRecord>, payments: seq<Row<Payment>>,
                        deliveries: seq<Row<Delivery>>, p: Row<Payment>, d: Row<Delivery>)
    requires Find(payments, r.value.paymentId) == Some(p) && Find(deliveries, r.value.deliveryId) == Some(d)
    ensures Join(orders + [r], payments, deliveries) == Join(orders, payments, deliveries) + [JoinedRow(r, p, d)]
  {
    assert (orders + [r])[..|orders|] == orders;
  }

  /** The join over order rows whose lookups give the same rows in two pairs of tables is the same. */
  lemma {:induction false} JoinStable(orders: seq<Row<OrderRecord>>, payments: seq<Row<Payment>>, payments': seq<Row<Payment>>,
                                      deliveries: seq<Row<Delivery>>, deliveries': seq<Row<Delivery>>)
    requires forall i :: 0 <= i < |orders| ==>
               Find(payments', orders[i].value.paymentId) == Find(payments, orders[i].value.paymentId) &&
               Find(deliveries', orders[i].value.deliveryId) == Find(deliveries, orders[i].value.deliveryId)
    ensures Join(orders, payments', deliveries') == Join(orders, payments, deliveries)
  {
    if orders != [] {
      JoinStable(orders[..|orders| - 1], payments, payments', deliveries, deliveries');
    }
  }

  lemma {:induction false} ItemsWhereAppend(a: seq<ItemRow>, b: seq<ItemRow>, orderId: int)
    ensures ItemsWhere(a + b, orderId) == ItemsWhere(a, orderId) + ItemsWhere(b, orderId)
  {
    if b == [] {
      assert a + b == a;
    } else {
      var init, last := b[..|b| - 1], b[|b| - 1];
      ItemsWhereAppend(a, init, orderId);
      assert (a + b)[..|a + b| - 1] == a + init;
      assert (a + b)[|a + b| - 1] == last;
      var tail := if last.orderId == orderId then [last] else [];
      assert ItemsWhere(a + b, orderId) == (ItemsWhere(a, orderId) + ItemsWhere(init, orderId)) + tail;
      assert ItemsWhere(b, orderId) == ItemsWhere(init, orderId) + tail;
      assert (ItemsWhere(a, orderId) + ItemsWhere(init, orderId)) + tail ==
             ItemsWhere(a, orderId) + (ItemsWhere(init, orderId) + tail);
    }
  }

  /**
    The item select returns each row of ITEMS whose `ORDER_ID` is the one
    asked for, as many times as the table holds it, and no other row.
  */
  lemma {:induction false} ItemsWhereExact(rows: seq<ItemRow>, orderId: int, r: ItemRow)
    ensures multiset(ItemsWhere(rows, orderId))[r] == if r.orderId == orderId then multiset(rows)[r] else 0
  {
    if rows != [] {
      var init := rows[..|rows| - 1];
      ItemsWhereExact(init, orderId, r);
      assert rows == init + [rows[|rows| - 1]];
    }
  }

  lemma ItemsWhereNone(rows: seq<ItemRow>, orderId: int)
    requires forall i :: 0 <= i < |rows| ==> rows[i].orderId != orderId
    ensures ItemsWhere(rows, orderId) == []
  {
    if rows != [] {
      ItemsWhereNone(rows[..|rows| - 1], orderId);
    }
  }

  lemma ItemsWhereAll(items: seq<Item>, orderId: int)
    ensures ItemsWhere(ItemRows(items, orderId), orderId) == ItemRows(items, orderId)
    ensures Values(ItemRows(items, orderId)) == items
  {
    if items != [] {
      var init := items[..|items| - 1];
      ItemsWhereAll(init, orderId);
      assert ItemRows(items, orderId)[..|items| - 1] == ItemRows(init, orderId);
    }
  }

  // ---------------------------------------------------------------------
  // get_orders: the result

  /** The aggregates read from joined rows, each with the items selected for its order id. */
  function Rebuild(rows: seq<JoinedRow>, itemTable: seq<ItemRow>): seq<Order> {
    seq(|rows|, i requires 0 <= i < |rows| => Reassemble(rows[i], Values(ItemsWhere(itemTable, RowId(rows[i])))))
  }

  /** Everything `get_orders` returns when none of its selects fails. */
  function ReadAll(t: Tables): seq<Order> {
    Rebuild(Join(t.orders, t.payments, t.deliveries), t.items)
  }

  lemma {:induction false} AssembleOutcome(rows: seq<JoinedRow>, itemTable: seq<ItemRow>, i: nat, rejected: set<Select>)
    requires i <= |rows|
    ensures Assemble(rows, itemTable, i, rejected).Ok? <==> forall j :: i <= j < |rows| ==> ItemsSelect(j) !in rejected
    ensures Assemble(rows, itemTable, i, rejected).Ok? ==> Assemble(rows, itemTable, i, rejected).value == Rebuild(rows, itemTable)[i..]
    ensures Assemble(rows, itemTable, i, rejected).Err? ==>
              exists j :: i <= j < |rows| && ItemsSelect(j) in rejected &&
                          Assemble(rows, itemTable, i, rejected).error == SelectFailed(ItemsSelect(j))
    decreases |rows| - i
  {
    if i < |rows| && ItemsSelect(i) !in rejected {
      AssembleOutcome(rows, itemTable, i + 1, rejected);
      var rest := Assemble(rows, itemTable, i + 1, rejected);
      if rest.Ok? {
        assert Rebuild(rows, itemTable)[i..] == [Rebuild(rows, itemTable)[i]] + Rebuild(rows, itemTable)[i + 1..];
      }
    }
  }

  /**
    `get_orders` returns every aggregate when no select fails, and otherwise
    the error of a failing select and no orders at all.
  */
  lemma ReadOutcome(t: Tables, rejected: set<Select>)
    ensures Read(t, rejected).Ok? <==>
            JoinSelect !in rejected &&
            forall j :: 0 <= j < |Join(t.orders, t.payments, t.deliveries)| ==> ItemsSelect(j) !in rejected
    ensures Read(t, rejected).Ok? ==> Read(t, rejected).value == ReadAll(t)
    ensures Read(t, rejected).Err? ==> Read(t, rejected).error.SelectFailed? && Read(t, rejected).error.select in rejected
  {
    if JoinSelect !in rejected {
      AssembleOutcome(Join(t.orders, t.payments, t.deliveries), t.items, 0, rejected);
    }
  }

  /**
    On consistent tables `get_orders` returns one aggregate per ORDERS row, in
    table order: every ORDERS column comes back (the row is the record of the
    aggregate read), with the delivery and payment rows it references and the
    items selected by its id.
  */
  lemma OneAggregatePerOrderRow(t: Tables)
    requires Consistent(t)
    ensures |ReadAll(t)| == |t.orders|
    ensures forall i :: 0 <= i < |t.orders| ==>
              && ReadAll(t)[i].orderUid == t.orders[i].value.orderUid
              && RecordOf(ReadAll(t)[i], t.orders[i].value.deliveryId, t.orders[i].value.paymentId) == t.orders[i].value
              && ReadAll(t)[i].delivery == Find(t.deliveries, t.orders[i].value.deliveryId).value.value
              && ReadAll(t)[i].payment == Find(t.payments, t.orders[i].value.paymentId).value.value
              && ReadAll(t)[i].items == Values(ItemsWhere(t.items, t.orders[i].id))
  {
    var rows := Join(t.orders, t.payments, t.deliveries);
    JoinKeepsEveryOrder(t.orders, t.payments, t.deliveries);
    forall i | 0 <= i < |t.orders|
      ensures rows[i].delivery == Find(t.deliveries, t.orders[i].value.deliveryId).value
      ensures rows[i].payment == Find(t.payments, t.orders[i].value.paymentId).value
    {
      assert rows[i] in rows;
      JoinIsInnerJoin(t.orders, t.payments, t.deliveries, rows[i]);
      FindUnique(t.deliveries, rows[i].delivery);
      FindUnique(t.payments, rows[i].payment);
    }
  }

  /** On consistent tables a successful `get_orders` returns as many aggregates as there are ORDERS rows. */
  lemma ReadCountsOrders(t: Tables, rejected: set<Select>)
    requires Consistent(t) && Read(t, rejected).Ok?
    ensures |Read(t, rejected).value| == |t.orders|
  {
    ReadOutcome(t, rejected);
    OneAggregatePerOrderRow(t);
  }

  // ---------------------------------------------------------------------
  // Writing then reading

  /** The new delivery and payment rows do not change the rows that existing orders refer to. */
  lemma HeadKeepsLookups(t: Tables, o: Order)
    requires Consistent(t)
    ensures var t2 := t.AppendDelivery(o.delivery).AppendPayment(o.payment);
      forall i :: 0 <= i < |t.orders| ==>
        Find(t2.payments, t.orders[i].value.paymentId) == Find(t.payments, t.orders[i].value.paymentId) &&
        Find(t2.deliveries, t.orders[i].value.deliveryId) == Find(t.deliveries, t.orders[i].value.deliveryId)
  {
    forall i | 0 <= i < |t.orders|
      ensures Find(t.payments + [Row(t.nextPaymentId, o.payment)], t.orders[i].value.paymentId) ==
              Find(t.payments, t.orders[i].value.paymentId)
      ensures Find(t.deliveries + [Row(t.nextDeliveryId, o.delivery)], t.orders[i].value.deliveryId) ==
              Find(t.deliveries, t.orders[i].value.deliveryId)
    {
      AppendKeepsFind(t.deliveries, t.nextDeliveryId, o.delivery, t.orders[i].value.deliveryId);
      AppendKeepsFind(t.payments, t.nextPaymentId, o.payment, t.orders[i].value.paymentId);
    }
  }

  /** Delivery and payment rows that no order refers to are never read. */
  lemma ReadAllIgnoresUnreferenced(t: Tables, o: Order)
    requires Consistent(t)
    ensures ReadAll(t.AppendDelivery(o.delivery)) == ReadAll(t)
    ensures ReadAll(t.AppendDelivery(o.delivery).AppendPayment(o.payment)) == ReadAll(t)
  {
    var t1 := t.AppendDelivery(o.delivery);
    HeadKeepsLookups(t, o);
    JoinStable(t.orders, t.payments, t1.payments, t.deliveries, t1.deliveries);
    JoinStable(t.orders, t.payments, t1.AppendPayment(o.payment).payments, t.deliveries, t1.deliveries);
  }

  lemma RebuildIgnoresOtherItems(rows: seq<JoinedRow>, itemTable: seq<ItemRow>, added: seq<ItemRow>, orderId: int)
    requires forall i :: 0 <= i < |rows| ==> RowId(rows[i]) != orderId
    requires forall i :: 0 <= i < |added| ==> added[i].orderId == orderId
    ensures Rebuild(rows, itemTable + added) == Rebuild(rows, itemTable)
  {
    forall i | 0 <= i < |rows|
      ensures ItemsWhere(itemTable + added, RowId(rows[i])) == ItemsWhere(itemTable, RowId(rows[i]))
    {
      ItemsWhereAppend(itemTable, added, RowId(rows[i]));
      ItemsWhereNone(added, RowId(rows[i]));
    }
  }

  /** The join over the tables with the new order row is the old join followed by the new order's row. */
  lemma JoinAfterHead(t: Tables, o: Order)
    requires Consistent(t)
    ensures var h := Headed(t, o);
      Join(h.orders, h.payments, h.deliveries) ==
        Join(t.orders, t.payments, t.deliveries) +
          [JoinedRow(Row(t.nextOrderId, RecordOf(o, t.nextDeliveryId, t.nextPaymentId)),
                     Row(t.nextPaymentId, o.payment), Row(t.nextDeliveryId, o.delivery))]
  {
    var did, pid, oid := t.nextDeliveryId, t.nextPaymentId, t.nextOrderId;
    var t2 := t.AppendDelivery(o.delivery).AppendPayment(o.payment);
    HeadKeepsLookups(t, o);
    JoinStable(t.orders, t.payments, t2.payments, t.deliveries, t2.deliveries);
    FindAppend(t.payments, Row(pid, o.payment), pid);
    FindAppend(t.deliveries, Row(did, o.delivery), did);
    JoinAppendOrder(t.orders, Row(oid, RecordOf(o, did, pid)), t2.payments, t2.deliveries,
                    Row(pid, o.payment), Row(did, o.delivery));
  }

  /** The item select for a new order id finds exactly the item rows added for it. */
  lemma NewOrderItems(items: seq<ItemRow>, added: seq<ItemRow>, orders: seq<Row<OrderRecord>>, orderId: int)
    requires IdsBelow(orders, orderId)
    requires forall i :: 0 <= i < |items| ==> Find(orders, items[i].orderId).Some?
    requires forall i :: 0 <= i < |added| ==> added[i].orderId == orderId
    ensures ItemsWhere(items + added, orderId) == ItemsWhere(added, orderId)
  {
    forall i | 0 <= i < |items| ensures items[i].orderId != orderId {
      FoundBelow(orders, items[i].orderId, orderId);
    }
    ItemsWhereAppend(items, added, orderId);
    ItemsWhereNone(items, orderId);
  }

  /**
    After the order and its first `k` items are written, a read returns what
    it returned before followed by the order with those `k` items.
  */
  lemma ReadAllWithItems(t: Tables, o: Order, k: nat)
    requires Consistent(t) && k <= |o.items|
    ensures ReadAll(WithItems(t, o, k)) == ReadAll(t) + [o.(items := o.items[..k])]
  {
    var w := WithItems(t, o, k);
    var oid := t.nextOrderId;
    var added := ItemRows(o.items[..k], oid);
    var before := Join(t.orders, t.payments, t.deliveries);
    var newRow := JoinedRow(Row(oid, RecordOf(o, t.nextDeliveryId, t.nextPaymentId)),
                            Row(t.nextPaymentId, o.payment), Row(t.nextDeliveryId, o.delivery));
    JoinAfterHead(t, o);
    assert Rebuild(before + [newRow], w.items) ==
           Rebuild(before, w.items) + [Reassemble(newRow, Values(ItemsWhere(w.items, oid)))];

    JoinRowsFromOrders(t.orders, t.payments, t.deliveries);
    forall i | 0 <= i < |before| ensures RowId(before[i]) != oid {
      assert before[i] in before;
    }
    RebuildIgnoresOtherItems(before, t.items, added, oid);

    NewOrderItems(t.items, added, t.orders, oid);
    ItemsWhereAll(o.items[..k], oid);
  }

  /** A read after a successful `add_order(o)` returns what it returned before followed by `o`. */
  lemma ReadAfterWrite(t: Tables, o: Order, rejected: set<Stage>)
    requires Consistent(t) && Write(t, o, rejected).result == Ok(())
    ensures ReadAll(Write(t, o, rejected).tables) == ReadAll(t) + [o]
  {
    AddOrderSucceeds(t, o, rejected);
    ReadAllWithItems(t, o, |o.items|);
    assert o.items[..|o.items|] == o.items;
  }

  /** After a failed item insert a read returns the order with only the items inserted before the failure. */
  lemma ReadAfterFailedItemInsert(t: Tables, o: Order, rejected: set<Stage>, k: nat)
    requires Consistent(t) && Write(t, o, rejected).result == Err(InsertFailed(ItemInsert(k)))
    ensures k < |o.items|
    ensures ReadAll(Write(t, o, rejected).tables) == ReadAll(t) + [o.(items := o.items[..k])]
  {
    FailedItemInsertLeavesPartialOrder(t, o, rejected, k);
    ReadAllWithItems(t, o, k);
  }

  /** After a failed delivery, payment or order insert a read returns the same orders as before. */
  lemma ReadAfterFailedHeadInsert(t: Tables, o: Order, rejected: set<Stage>)
    requires Consistent(t) && !HeadAccepted(o, rejected)
    ensures Write(t, o, rejected).result.Err?
    ensures ReadAll(Write(t, o, rejected).tables) == ReadAll(t)
  {
    FailedDeliveryInsertWritesNothing(t, o, rejected);
    FailedPaymentInsertKeepsDelivery(t, o, rejected);
    FailedOrderInsertKeepsDeliveryAndPayment(t, o, rejected);
    ReadAllIgnoresUnreferenced(t, o);
  }

  /**
    Equal field by field, with equal items up to order: the item select has
    no ordering, so nothing stronger is promised about a read-back order.
  */
  predicate SameAggregate(a: Order, b: Order) {
    a.(items := []) == b.(items := []) && multiset(a.items) == multiset(b.items)
  }

  /**
    The round trip: when none of its statements is malformed or rejected,
    `add_order(o)` succeeds and a later `get_orders` returns the orders
    there were before and, after them, an aggregate equal to `o`.
  */
  lemma RoundTrip(t: Tables, o: Order, rejected: set<Stage>)
    requires Consistent(t) && AllAccepted(o, rejected)
    ensures Write(t, o, rejected).result == Ok(())
    ensures var r := Read(Write(t, o, rejected).tables, {});
      && r.Ok? && |r.value| == |ReadAll(t)| + 1 && r.value[..|ReadAll(t)|] == ReadAll(t)
      && SameAggregate(r.value[|ReadAll(t)|], o)
      && exists i :: 0 <= i < |r.value| && SameAggregate(r.value[i], o)
  {
    AddOrderSucceeds(t, o, rejected);
    ReadAfterWrite(t, o, rejected);
    ReadOutcome(Write(t, o, rejected).tables, {});
  }

  /**
    No uniqueness check on `order_uid`: writing the same order twice makes
    `get_orders` list it twice.
  */
  lemma DuplicateOrdersBothListed(t: Tables, o: Order, rejected: set<Stage>)
    requires Consistent(t) && AllAccepted(o, rejected)
    ensures var t1 := Write(t, o, rejected).tables;
      && Write(t1, o, rejected).result == Ok(())
      && |Write(t1, o, rejected).tables.orders| == |t.orders| + 2
      && ReadAll(Write(t1, o, rejected).tables) == ReadAll(t) + [o, o]
  {
    var t1 := Write(t, o, rejected).tables;
    AddOrderSucceeds(t, o, rejected);
    AddOrderRows(t, o, rejected);
    WritePreservesConsistency(t, o, rejected);
    ReadAfterWrite(t, o, rejected);
    AddOrderSucceeds(t1, o, rejected);
    AddOrderRows(t1, o, rejected);
    ReadAfterWrite(t1, o, rejected);
  }
}
