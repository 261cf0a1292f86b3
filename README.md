# Order repository model

This project models the persistence core of an order service. The service
takes an order aggregate: an order that owns one delivery, one payment and
a list of items. Its repository stores each aggregate in four PostgreSQL
tables, DELIVERY, PAYMENT, ORDERS and ITEMS, and reassembles aggregates
from those tables on request.

The model has six modules:

- `Structures` holds the four aggregate types. Integer fields keep their
  fixed widths through the subset types `I32` and `I64`.
- `Serde` holds the payload contract that the derived `Serialize` and
  `Deserialize` give these types. A payload is an abstract JSON value whose
  objects map field names to values. Every declared field is mandatory,
  except `internal_signature` and `request_id`, which default to `""`.
  Integers must lie in their field's range, and undeclared fields are
  ignored. Encoding then decoding returns the aggregate unchanged.
- `Db` holds the tables as a value (`Tables`) and the two operations as
  specification functions on it, `Write` and `Read`.
  - An insert fails when the formatted statement would not parse. String
    values are placed between single quotes without escaping, so a value
    containing `'` breaks its statement. `oof_shard` is placed with no
    quotes, so it must be a bare number.
  - An insert or select also fails when its stage is in a `rejected` set.
    This set stands for every failure outside the statement text.
  - The error names the failing stage (`InsertFailed(ItemInsert(k))` and so
    on). That tag is the model's own bookkeeping: the repository returns an
    opaque boxed error that does not say which statement failed.
- `DbProperties` proves what the repository promises, in these groups:
  - the rows a successful write adds and how they are linked;
  - what each kind of failed write leaves behind, given that no write is
    undone;
  - writes keep the tables consistent;
  - the read is an inner join plus a per-order item select;
  - a written order is read back, and a duplicate is listed twice.
- `Repository` holds the database as a class (`Database`). The class keeps
  the four tables and the serial counters of the three tables whose
  generated `id` is returned. `AddOrder` and `GetOrders` are methods written
  the way the repository works: statement after statement, with a loop over
  the items and nested loops on the read side. Each is proved equal to
  `Write` or `Read`, and both keep the tables consistent.

## Model

| member | source | states |
|---|---|---|
| Serde.EncodeDelivery | src/structures.rs:23-32 | decoding the encoded delivery gives the same delivery back |
| Serde.EncodePayment | src/structures.rs:34-47 | decoding the encoded payment gives the same payment back |
| Serde.EncodeItem | src/structures.rs:49-62 | decoding the encoded item gives the same item back |
| Serde.EncodeItems | src/structures.rs:11 | an items array has one element per item and decodes back to the same sequence |
| Serde.EncodeOrder | src/structures.rs:4-21 | round trip: decoding the encoded order gives the same aggregate back |
| Serde.DecodeItemsElementwise | src/structures.rs:11 | an items array decodes to a sequence iff the lengths agree and each element decodes to the item at its position |
| Serde.AbsentSignatureDefaultsToEmpty | src/structures.rs:13-14 | an order payload without `internal_signature` decodes as if it held `""`; a decoded order then has `internal_signature == ""` |
| Serde.AbsentRequestIdDefaultsToEmpty | src/structures.rs:37-38 | a payment without `request_id` decodes as if it held `""`; the decoded order's payment then has `request_id == ""` |
| Serde.DefaultedFieldsMustBeStrings | src/structures.rs:13-14 | a defaulted field that is present but is not a string rejects the order |
| Serde.MissingOrderFieldRejected | src/structures.rs:5-21 | an order payload missing any field other than `internal_signature` fails to decode |
| Serde.MissingDeliveryFieldRejected | src/structures.rs:24-32 | a delivery missing any of its seven fields makes the order fail to decode |
| Serde.MissingPaymentFieldRejected | src/structures.rs:35-47 | a payment missing any field other than `request_id` makes the order fail to decode |
| Serde.MissingItemFieldRejected | src/structures.rs:50-62 | an item at any position missing any of its fields makes the order fail to decode |
| Serde.OrderSmIdOutOfRange | src/structures.rs:18 | an `sm_id` outside the 32-bit range makes the order fail to decode |
| Serde.PaymentIntegerOutOfRange | src/structures.rs:41-46 | `amount`, `delivery_cost`, `goods_total` and `custom_fee` outside 32 bits, or `payment_dt` outside 64 bits, reject the order |
| Serde.ItemIntegerOutOfRange | src/structures.rs:51-61 | `price`, `sale`, `total_price` and `status` outside 32 bits, or `chrt_id` and `nm_id` outside 64 bits, in any item reject the order |
| Serde.KeyOf | src/structures.rs:4-62 | a JSON field name becomes the key with that spelling; it is `Undeclared` only when no declared field has that spelling |
| Serde.UnknownFieldsIgnored | src/structures.rs:4-21 | removing the fields an order does not declare does not change the outcome of decoding |
| Repository.Database.InsertDelivery | src/db.rs:65-81 | the delivery insert appends a row with the next id and returns that id iff its statement parses and it is not rejected; otherwise nothing changes |
| Repository.Database.InsertPayment | src/db.rs:83-90 | the same for the payment insert |
| Repository.Database.InsertOrder | src/db.rs:92-99 | the same for the order insert, whose statement also needs a bare numeric `oof_shard` |
| Repository.Database.InsertItem | src/db.rs:103-106 | the item insert appends a row carrying the order id iff its statement parses and it is not rejected; otherwise nothing changes |
| Repository.AddOrder | src/db.rs:60-109 | the new tables and the result are those of `Write`: the inserts in turn, the ids passed on, and the first failure returned with earlier rows kept; consistent tables stay consistent |
| Repository.GetOrders | src/db.rs:112-191 | the result is that of `Read`: the join, then per joined row the item select keyed by the order's id; the database is not modified, and on consistent tables a success has one aggregate per ORDERS row |
| DbProperties.FirstRejectedItem | src/db.rs:101-107 | the first failing item position: every item before it is accepted and the one at it is not |
| DbProperties.WriteItemsEffect | src/db.rs:101-107 | the item loop appends rows for the items before the first failing one and reports that position, or succeeds when none fails |
| DbProperties.AddOrderSucceeds | src/db.rs:65-108 | `add_order` returns `Ok` iff every one of its inserts is accepted; it has then written delivery, payment, order and all items |
| DbProperties.AddOrderRows | src/db.rs:79-107 | a success adds exactly one DELIVERY, one PAYMENT, one ORDERS row and one ITEMS row per item and keeps all earlier rows. The order row carries the new delivery and payment ids, and the `j`-th new item row carries `items[j]` and the new order id |
| DbProperties.FailedDeliveryInsertWritesNothing | src/db.rs:79 | the delivery insert fails iff it is not accepted; the tables are then unchanged |
| DbProperties.FailedPaymentInsertKeepsDelivery | src/db.rs:88 | the payment insert fails iff the delivery is accepted and the payment is not; the delivery row then stays |
| DbProperties.FailedOrderInsertKeepsDeliveryAndPayment | src/db.rs:97 | the order insert fails iff delivery and payment are accepted and the order is not; both of their rows then stay |
| DbProperties.FailedItemInsertLeavesPartialOrder | src/db.rs:101-107 | the error names item `k` iff all earlier inserts are accepted and `k` is the first rejected item; delivery, payment, order and items `0..k` then stay |
| DbProperties.WritePreservesConsistency | src/db.rs:60-109 | whatever the outcome, ids stay serial and every foreign key still resolves |
| DbProperties.JoinIsInnerJoin | src/db.rs:115-122 | a triple is in the join iff its three rows are in their tables and the order row references the other two |
| DbProperties.JoinKeepsEveryOrder | src/db.rs:115-122 | when every reference resolves, the join has one row per ORDERS row, in table order |
| DbProperties.ItemsWhereExact | src/db.rs:149-154 | the item select returns every ITEMS row with the requested `ORDER_ID`, with its multiplicity, and no other row |
| DbProperties.AssembleOutcome | src/db.rs:123-190 | the per-row loop yields all reassembled orders iff no item select fails, and otherwise the error of a failing select |
| DbProperties.ReadOutcome | src/db.rs:112-191 | `get_orders` succeeds iff no select fails, and then returns every aggregate; otherwise it returns a select error and no partial vector |
| DbProperties.OneAggregatePerOrderRow | src/db.rs:123-188 | on consistent tables, one aggregate per ORDERS row whose order record is exactly that row (all eleven copied columns plus the two foreign keys), carrying the delivery and payment rows it references, and the items selected by its own id, since `row.get("id")` takes the orders id |
| DbProperties.ReadCountsOrders | src/db.rs:112-191 | on consistent tables a successful `get_orders` returns as many aggregates as there are ORDERS rows |
| DbProperties.ReadAllIgnoresUnreferenced | src/db.rs:79-88 | delivery and payment rows left by a failed write change no read |
| DbProperties.ReadAllWithItems | src/db.rs:92-107 | after the order and its first `k` items are written, a read returns the earlier orders followed by the order holding those `k` items |
| DbProperties.ReadAfterWrite | src/db.rs:60-191 | after a successful `add_order(o)`, a read returns the earlier orders followed by `o` |
| DbProperties.ReadAfterFailedItemInsert | src/db.rs:101-107 | after a failure at item `k`, a read shows the order with only its first `k` items |
| DbProperties.ReadAfterFailedHeadInsert | src/db.rs:79-97 | after a failed delivery, payment or order insert, a read returns the same orders as before |
| DbProperties.RoundTrip | src/db.rs:65-188 | when no statement is malformed or rejected, `add_order(o)` succeeds and a later `get_orders` returns one more aggregate than before, and one of them equals `o` field by field with the same multiset of items. In the model's row order it is the last, after the earlier orders |
| DbProperties.DuplicateOrdersBothListed | src/db.rs:92-97 | no uniqueness check on `order_uid`: writing the same order twice adds two ORDERS rows, and a read lists the order twice |

## Left out

- `db_model::new` and `db_model::init`: the field-copying constructor, building the connection URL, and the connection task. These are configuration and network I/O.
- `src/main.rs`: command-line parsing, logging set-up, and the HTTP router and handlers. The handlers forward to the two repository operations.
- The shared `RwLock` state and any concurrency: each operation is modelled as running alone.
- Logging (`debug!`, `info!`, `error!`): it has no effect on the data.
- Failures outside the statement text are modelled by the `rejected` sets, and nothing else about them. That covers a statement the server refuses: a constraint violation, or a value the column type refuses.
- A failure reported after the server applied the insert is not modelled. Each statement runs on its own (autocommit), so a connection lost between the commit and the reply leaves the row in place while `add_order` still returns an error. In the model a rejected insert writes nothing.
- Db.BareNumeral: the ORDERS insert is modelled as parsing only when `oof_shard` is a canonical unsigned decimal numeral. PostgreSQL also accepts other bare literals there, such as leading zeros, signs, decimals and some expressions, so the model's success condition is narrower than the database's.
- The SQL grammar itself: a quote inside a quoted value is modelled as a statement that fails. The model does not cover a quote that happens to form another valid statement.
- Generated ids are unbounded integers. The model does not cover 32-bit serial overflow, or sequence values consumed by failed inserts: the model advances a counter only on a successful insert.
- The `unwrap` on an empty `returning` result: in the model a successful insert always returns its id.
- Row order: the selects carry no `ORDER BY`. Db.Read returns joined rows in ORDERS table order and items in ITEMS table order. Against a real database only this much is promised: after a successful write the read has one more aggregate, and one of them equals the order with its items as a multiset. That is the `exists` clause of DbProperties.RoundTrip, together with its length clause.
- DbProperties.RoundTrip, DbProperties.ReadAfterWrite, DbProperties.ReadAllWithItems, DbProperties.ReadAfterFailedItemInsert, DbProperties.ReadAfterFailedHeadInsert, DbProperties.DuplicateOrdersBothListed, DbProperties.ReadOutcome, DbProperties.AssembleOutcome, DbProperties.OneAggregatePerOrderRow and DbProperties.JoinKeepsEveryOrder state positions in the result (exact sequence equality, or the `i`-th aggregate for the `i`-th ORDERS row). These hold for the model's fixed row order. Against a real database the same statements hold only up to the order of rows and of items.
- JSON text: character-level parsing and printing, floating-point numbers, and duplicate keys. Also left out is serde's acceptance of a struct written as an array. Payloads are abstract values with integer numbers. A text field name stands for the key Serde.KeyOf gives it, so `Undeclared` never carries a declared spelling. The decoding lemmas also hold for maps outside that image, which no text produces.
- Serde.UnknownFieldsIgnored is stated for the order object's own fields. Nested objects ignore undeclared fields in the same way, since their decoders read only declared keys, but no separate lemma states it.
