/**
  The serialization contract of the aggregate at the HTTP boundary, as the
  derived `Serialize`/`Deserialize` implementations give it. A payload is an
  abstract JSON value whose objects are maps from field name to value.
  Every field is mandatory except `internal_signature` (of an order) and
  `request_id` (of a payment), which default to the empty string when
  absent. Integer fields must lie in their type's range. Fields the
  structure does not declare are ignored.
*/
module Serde {
  import opened Wrappers
  import opened Structures

  datatype Json =
    | Null
    | Bool(b: bool)
    | Number(n: int)
    | Str(s: string)
    | Array(elems: seq<Json>)
    | Object(fields: map<Key, Json>)

  /**
    A field name of a JSON object. Every name that one of the four
    structures declares has its own constructor (its spelling on the wire is
    given by `Spelling`); `Undeclared` stands for any other name.
  */
  datatype Key =
    | OrderUid | TrackNumber | Entry | DeliveryField | PaymentField | ItemsField | Locale
    | InternalSignature | CustomerId | DeliveryService | Shardkey | SmId | DateCreated | OofShard
    | Name | Phone | Zip | City | Address | Region | Email
    | Transaction | RequestId | Currency | Provider | Amount | PaymentDt | Bank
    | DeliveryCost | GoodsTotal | CustomFee
    | ChrtId | Price | Rid | Sale | Size | TotalPrice | NmId | Brand | Status
    | Undeclared(name: string)

  function Spelling(k: Key): string {
    match k
    case OrderUid => "order_uid"
    case TrackNumber => "track_number"
    case Entry => "entry"
    case DeliveryField => "delivery"
    case PaymentField => "payment"
    case ItemsField => "items"
    case Locale => "locale"
    case InternalSignature => "internal_signature"
    case CustomerId => "customer_id"
    case DeliveryService => "delivery_service"
    case Shardkey => "shardkey"
    case SmId => "sm_id"
    case DateCreated => "date_created"
    case OofShard => "oof_shard"
    case Name => "name"
    case Phone => "phone"
    case Zip => "zip"
    case City => "city"
    case Address => "address"
    case Region => "region"
    case Email => "email"
    case Transaction => "transaction"
    case RequestId => "request_id"
    case Currency => "currency"
    case Provider => "provider"
    case Amount => "amount"
    case PaymentDt => "payment_dt"
    case Bank => "bank"
    case DeliveryCost => "delivery_cost"
    case GoodsTotal => "goods_total"
    case CustomFee => "custom_fee"
    case ChrtId => "chrt_id"
    case Price => "price"
    case Rid => "rid"
    case Sale => "sale"
    case Size => "size"
    case TotalPrice => "total_price"
    case NmId => "nm_id"
    case Brand => "brand"
    case Status => "status"
    case Undeclared(name) => name
  }

  /** Every key a structure declares. */
  const DeclaredKeys: seq<Key> := [OrderUid, TrackNumber, Entry, DeliveryField, PaymentField, ItemsField, Locale, InternalSignature, CustomerId, DeliveryService, Shardkey, SmId, DateCreated, OofShard, Name, Phone, Zip, City, Address, Region, Email, Transaction, RequestId, Currency, Provider, Amount, PaymentDt, Bank, DeliveryCost, GoodsTotal, CustomFee, ChrtId, Price, Rid, Sale, Size, TotalPrice, NmId, Brand, Status]

  lemma DeclaredKeysDeclared()
    ensures forall i :: 0 <= i < |DeclaredKeys| ==> !DeclaredKeys[i].Undeclared?
  {
  }

  lemma DeclaredKeysComplete(d: Key)
    requires !d.Undeclared?
    ensures d in DeclaredKeys
  {
  }

  /** The first key of `keys` spelled `name`, or `Undeclared(name)`. */
  function LookupKey(keys: seq<Key>, name: string): (k: Key)
    requires forall i :: 0 <= i < |keys| ==> !keys[i].Undeclared?
    ensures Spelling(k) == name
    ensures k.Undeclared? ==> forall i :: 0 <= i < |keys| ==> Spelling(keys[i]) != name
  {
    if keys == [] then Undeclared(name)
    else if Spelling(keys[0]) == name then keys[0]
    else LookupKey(keys[1..], name)
  }

  /**
    The key a field name of a JSON text object stands for: a declared
    spelling is its own constructor, any other name is `Undeclared`. So no
    payload read from text holds `Undeclared` with a declared spelling.
  */
  function KeyOf(name: string): (k: Key)
    ensures Spelling(k) == name
    ensures k.Undeclared? ==> forall d: Key :: !d.Undeclared? ==> Spelling(d) != name
  {
    DeclaredKeysDeclared();
    var k := LookupKey(DeclaredKeys, name);
    if k.Undeclared? then
      assert forall d: Key :: !d.Undeclared? ==> Spelling(d) != name by {
        forall d: Key | !d.Undeclared? ensures Spelling(d) != name {
          DeclaredKeysComplete(d);
        }
      }
      k
    else k
  }

  type Fields = map<Key, Json>

  const DeliveryKeys: set<Key> := {Name, Phone, Zip, City, Address, Region, Email}

  const PaymentKeys: set<Key> :=
    {Transaction, RequestId, Currency, Provider, Amount, PaymentDt, Bank,
     DeliveryCost, GoodsTotal, CustomFee}

  const ItemKeys: set<Key> :=
    {ChrtId, TrackNumber, Price, Rid, Name, Sale, Size, TotalPrice, NmId, Brand, Status}

  const OrderKeys: set<Key> :=
    {OrderUid, TrackNumber, Entry, DeliveryField, PaymentField, ItemsField, Locale,
     InternalSignature, CustomerId, DeliveryService, Shardkey, SmId, DateCreated, OofShard}

  /** Fields of the four structures that carry `#[serde(default)]`. */
  const DefaultedPaymentKeys: set<Key> := {RequestId}
  const DefaultedOrderKeys: set<Key> := {InternalSignature}

  const PaymentI32Keys: set<Key> := {Amount, DeliveryCost, GoodsTotal, CustomFee}
  const ItemI32Keys: set<Key> := {Price, Sale, TotalPrice, Status}
  const ItemI64Keys: set<Key> := {ChrtId, NmId}

  // ---------------------------------------------------------------------
  // Field access

  /** A mandatory string field. */
  function Text(f: Fields, key: Key): Option<string> {
    if key in f && f[key].Str? then Some(f[key].s) else None
  }

  /** A string field with `#[serde(default)]`: absent means "". */
  function TextOrEmpty(f: Fields, key: Key): Option<string> {
    if key !in f then Some("")
    else if f[key].Str? then Some(f[key].s)
    else None
  }

  /** A mandatory `i32` field. */
  function Int32(f: Fields, key: Key): Option<I32> {
    if key in f && f[key].Number? && InI32(f[key].n) then Some(f[key].n) else None
  }

  /** A mandatory `i64` field. */
  function Int64(f: Fields, key: Key): Option<I64> {
    if key in f && f[key].Number? && InI64(f[key].n) then Some(f[key].n) else None
  }

  // ---------------------------------------------------------------------
  // Decoding

  function DecodeDelivery(v: Json): Option<Delivery> {
    if !v.Object? then None
    else
      var f := v.fields;
      var name :- Text(f, Name);
      var phone :- Text(f, Phone);
      var zip :- Text(f, Zip);
      var city :- Text(f, City);
      var address :- Text(f, Address);
      var region :- Text(f, Region);
      var email :- Text(f, Email);
      Some(Delivery(name, phone, zip, city, address, region, email))
  }

  function DecodePayment(v: Json): Option<Payment> {
    if !v.Object? then None
    else
      var f := v.fields;
      var transaction :- Text(f, Transaction);
      var requestId :- TextOrEmpty(f, RequestId);
      var currency :- Text(f, Currency);
      var provider :- Text(f, Provider);
      var amount :- Int32(f, Amount);
      var paymentDt :- Int64(f, PaymentDt);
      var bank :- Text(f, Bank);
      var deliveryCost :- Int32(f, DeliveryCost);
      var goodsTotal :- Int32(f, GoodsTotal);
      var customFee :- Int32(f, CustomFee);
      Some(Payment(transaction, requestId, currency, provider, amount, paymentDt,
                   bank, deliveryCost, goodsTotal, customFee))
  }

  function DecodeItem(v: Json): Option<Item> {
    if !v.Object? then None
    else
      var f := v.fields;
      var chrtId :- Int64(f, ChrtId);
      var trackNumber :- Text(f, TrackNumber);
      var price :- Int32(f, Price);
      var rid :- Text(f, Rid);
      var name :- Text(f, Name);
      var sale :- Int32(f, Sale);
      var size :- Text(f, Size);
      var totalPrice :- Int32(f, TotalPrice);
      var nmId :- Int64(f, NmId);
      var brand :- Text(f, Brand);
      var status :- Int32(f, Status);
      Some(Item(chrtId, trackNumber, price, rid, name, sale, size, totalPrice, nmId, brand, status))
  }

  /** A JSON array of items decodes element by element; one bad element rejects it. */
  function DecodeItems(vs: seq<Json>): Option<seq<Item>> {
    if vs == [] then Some([])
    else
      var head :- DecodeItem(vs[0]);
      var tail :- DecodeItems(vs[1..]);
      Some([head] + tail)
  }

  /** The items field: present, an array, and every element an item. */
  function ItemsOf(f: Fields): Option<seq<Item>> {
    if ItemsField in f && f[ItemsField].Array? then DecodeItems(f[ItemsField].elems) else None
  }

  /** The mandatory nested delivery. */
  function DeliveryOf(f: Fields): Option<Delivery> {
    if DeliveryField in f then DecodeDelivery(f[DeliveryField]) else None
  }

  /** The mandatory nested payment. */
  function PaymentOf(f: Fields): Option<Payment> {
    if PaymentField in f then DecodePayment(f[PaymentField]) else None
  }

  function DecodeOrder(v: Json): Option<Order> {
    if !v.Object? then None
    else
      var f := v.fields;
      var orderUid :- Text(f, OrderUid);
      var trackNumber :- Text(f, TrackNumber);
      var entry :- Text(f, Entry);
      var delivery :- DeliveryOf(f);
      var payment :- PaymentOf(f);
      var items :- ItemsOf(f);
      var locale :- Text(f, Locale);
      var internalSignature :- TextOrEmpty(f, InternalSignature);
      var customerId :- Text(f, CustomerId);
      var deliveryService :- Text(f, DeliveryService);
      var shardkey :- Text(f, Shardkey);
      var smId :- Int32(f, SmId);
      var dateCreated :- Text(f, DateCreated);
      var oofShard :- Text(f, OofShard);
      Some(Order(orderUid, trackNumber, entry, delivery, payment, items, locale,
                 internalSignature, customerId, deliveryService, shardkey, smId,
                 dateCreated, oofShard))
  }

  // ---------------------------------------------------------------------
  // Encoding: every field is written, the defaulted ones included.

  function DeliveryFields(d: Delivery): Fields {
    map[Name := Str(d.name), Phone := Str(d.phone), Zip := Str(d.zip), City := Str(d.city),
        Address := Str(d.address), Region := Str(d.region), Email := Str(d.email)]
  }

  function PaymentFields(p: Payment): Fields {
    map[Transaction := Str(p.transaction), RequestId := Str(p.requestId),
        Currency := Str(p.currency), Provider := Str(p.provider), Amount := Number(p.amount),
        PaymentDt := Number(p.paymentDt), Bank := Str(p.bank),
        DeliveryCost := Number(p.deliveryCost), GoodsTotal := Number(p.goodsTotal),
        CustomFee := Number(p.customFee)]
  }

  function ItemFields(it: Item): Fields {
    map[ChrtId := Number(it.chrtId), TrackNumber := Str(it.trackNumber),
        Price := Number(it.price), Rid := Str(it.rid), Name := Str(it.name),
        Sale := Number(it.sale), Size := Str(it.size), TotalPrice := Number(it.totalPrice),
        NmId := Number(it.nmId), Brand := Str(it.brand), Status := Number(it.status)]
  }

  /** The fields of an encoded order, given its already encoded parts. */
  function OrderFields(o: Order, delivery: Json, payment: Json, items: Json): Fields {
    map[OrderUid := Str(o.orderUid), TrackNumber := Str(o.trackNumber), Entry := Str(o.entry),
        DeliveryField := delivery, PaymentField := payment, ItemsField := items,
        Locale := Str(o.locale), InternalSignature := Str(o.internalSignature),
        CustomerId := Str(o.customerId), DeliveryService := Str(o.deliveryService),
        Shardkey := Str(o.shardkey), SmId := Number(o.smId), DateCreated := Str(o.dateCreated),
        OofShard := Str(o.oofShard)]
  }

  function EncodeDelivery(d: Delivery): (v: Json)
    ensures DecodeDelivery(v) == Some(d)
  {
    DeliveryFieldsRead(d);
    Object(DeliveryFields(d))
  }

  function EncodePayment(p: Payment): (v: Json)
    ensures DecodePayment(v) == Some(p)
  {
    PaymentFieldsRead(p);
    Object(PaymentFields(p))
  }

  function EncodeItem(it: Item): (v: Json)
    ensures DecodeItem(v) == Some(it)
  {
    ItemFieldsRead(it);
    Object(ItemFields(it))
  }

  function EncodeItems(items: seq<Item>): (vs: seq<Json>)
    ensures |vs| == |items|
    ensures DecodeItems(vs) == Some(items)
  {
    var vs := seq(|items|, i requires 0 <= i < |items| => EncodeItem(items[i]));
    DecodeItemsElementwise(vs, items);
    vs
  }

  function EncodeOrder(o: Order): (v: Json)
    ensures DecodeOrder(v) == Some(o)
  {
    var delivery, payment, items :=
      EncodeDelivery(o.delivery), EncodePayment(o.payment), Array(EncodeItems(o.items));
    OrderFieldsRead(o, delivery, payment, items);
    Object(OrderFields(o, delivery, payment, items))
  }

  // Each encoded field reads back as the value it was written from.

  lemma DeliveryFieldsRead(d: Delivery)
    ensures Text(DeliveryFields(d), Name) == Some(d.name)
    ensures Text(DeliveryFields(d), Phone) == Some(d.phone)
    ensures Text(DeliveryFields(d), Zip) == Some(d.zip)
    ensures Text(DeliveryFields(d), City) == Some(d.city)
    ensures Text(DeliveryFields(d), Address) == Some(d.address)
    ensures Text(DeliveryFields(d), Region) == Some(d.region)
    ensures Text(DeliveryFields(d), Email) == Some(d.email)
  {
  }

  lemma PaymentFieldsRead(p: Payment)
    ensures Text(PaymentFields(p), Transaction) == Some(p.transaction)
    ensures TextOrEmpty(PaymentFields(p), RequestId) == Some(p.requestId)
    ensures Text(PaymentFields(p), Currency) == Some(p.currency)
    ensures Text(PaymentFields(p), Provider) == Some(p.provider)
    ensures Int32(PaymentFields(p), Amount) == Some(p.amount)
    ensures Int64(PaymentFields(p), PaymentDt) == Some(p.paymentDt)
    ensures Text(PaymentFields(p), Bank) == Some(p.bank)
    ensures Int32(PaymentFields(p), DeliveryCost) == Some(p.deliveryCost)
    ensures Int32(PaymentFields(p), GoodsTotal) == Some(p.goodsTotal)
    ensures Int32(PaymentFields(p), CustomFee) == Some(p.customFee)
  {
  }

  lemma ItemFieldsRead(it: Item)
    ensures Int64(ItemFields(it), ChrtId) == Some(it.chrtId)
    ensures Text(ItemFields(it), TrackNumber) == Some(it.trackNumber)
    ensures Int32(ItemFields(it), Price) == Some(it.price)
    ensures Text(ItemFields(it), Rid) == Some(it.rid)
    ensures Text(ItemFields(it), Name) == Some(it.name)
    ensures Int32(ItemFields(it), Sale) == Some(it.sale)
    ensures Text(ItemFields(it), Size) == Some(it.size)
    ensures Int32(ItemFields(it), TotalPrice) == Some(it.totalPrice)
    ensures Int64(ItemFields(it), NmId) == Some(it.nmId)
    ensures Text(ItemFields(it), Brand) == Some(it.brand)
    ensures Int32(ItemFields(it), Status) == Some(it.status)
  {
  }

  lemma OrderFieldsRead(o: Order, delivery: Json, payment: Json, items: Json)
    requires DecodeDelivery(delivery) == Some(o.delivery)
    requires DecodePayment(payment) == Some(o.payment)
    requires items.Array? && DecodeItems(items.elems) == Some(o.items)
    ensures var f := OrderFields(o, delivery, payment, items);
      && Text(f, OrderUid) == Some(o.orderUid)
      && Text(f, TrackNumber) == Some(o.trackNumber)
      && Text(f, Entry) == Some(o.entry)
      && DeliveryOf(f) == Some(o.delivery)
      && PaymentOf(f) == Some(o.payment)
      && ItemsOf(f) == Some(o.items)
      && Text(f, Locale) == Some(o.locale)
      && TextOrEmpty(f, InternalSignature) == Some(o.internalSignature)
      && Text(f, CustomerId) == Some(o.customerId)
      && Text(f, DeliveryService) == Some(o.deliveryService)
      && Text(f, Shardkey) == Some(o.shardkey)
      && Int32(f, SmId) == Some(o.smId)
      && Text(f, DateCreated) == Some(o.dateCreated)
      && Text(f, OofShard) == Some(o.oofShard)
  {
    OrderHeadRead(o, delivery, payment, items);
    OrderTailRead(o, delivery, payment, items);
  }

  lemma OrderHeadRead(o: Order, delivery: Json, payment: Json, items: Json)
    requires DecodeDelivery(delivery) == Some(o.delivery)
    requires DecodePayment(payment) == Some(o.payment)
    requires items.Array? && DecodeItems(items.elems) == Some(o.items)
    ensures var f := OrderFields(o, delivery, payment, items);
      && Text(f, OrderUid) == Some(o.orderUid)
      && Text(f, TrackNumber) == Some(o.trackNumber)
      && Text(f, Entry) == Some(o.entry)
      && DeliveryOf(f) == Some(o.delivery)
      && PaymentOf(f) == Some(o.payment)
      && ItemsOf(f) == Some(o.items)
  {
  }

  lemma OrderTailRead(o: Order, delivery: Json, payment: Json, items: Json)
    ensures var f := OrderFields(o, delivery, payment, items);
      && Text(f, Locale) == Some(o.locale)
      && TextOrEmpty(f, InternalSignature) == Some(o.internalSignature)
      && Text(f, CustomerId) == Some(o.customerId)
      && Text(f, DeliveryService) == Some(o.deliveryService)
      && Text(f, Shardkey) == Some(o.shardkey)
      && Int32(f, SmId) == Some(o.smId)
      && Text(f, DateCreated) == Some(o.dateCreated)
      && Text(f, OofShard) == Some(o.oofShard)
  {
  }

  /** Two objects whose payment fields read alike decode alike. */
  lemma PaymentDecodeCongruent(f: Fields, g: Fields)
    requires Text(f, Transaction) == Text(g, Transaction)
    requires TextOrEmpty(f, RequestId).Some? && TextOrEmpty(g, RequestId).Some?
    requires TextOrEmpty(f, RequestId).value == TextOrEmpty(g, RequestId).value
    requires Text(f, Currency) == Text(g, Currency)
    requires Text(f, Provider) == Text(g, Provider)
    requires Int32(f, Amount) == Int32(g, Amount)
    requires Int64(f, PaymentDt) == Int64(g, PaymentDt)
    requires Text(f, Bank) == Text(g, Bank)
    requires Int32(f, DeliveryCost) == Int32(g, DeliveryCost)
    requires Int32(f, GoodsTotal) == Int32(g, GoodsTotal)
    requires Int32(f, CustomFee) == Int32(g, CustomFee)
    ensures DecodePayment(Object(f)) == DecodePayment(Object(g))
  {
  }

  /** Two objects whose order fields read alike decode alike. */
  lemma OrderDecodeCongruent(f: Fields, g: Fields)
    requires Text(f, OrderUid) == Text(g, OrderUid)
    requires Text(f, TrackNumber) == Text(g, TrackNumber)
    requires Text(f, Entry) == Text(g, Entry)
    requires DeliveryOf(f) == DeliveryOf(g)
    requires PaymentOf(f) == PaymentOf(g)
    requires ItemsOf(f) == ItemsOf(g)
    requires Text(f, Locale) == Text(g, Locale)
    requires TextOrEmpty(f, InternalSignature) == TextOrEmpty(g, InternalSignature)
    requires Text(f, CustomerId) == Text(g, CustomerId)
    requires Text(f, DeliveryService) == Text(g, DeliveryService)
    requires Text(f, Shardkey) == Text(g, Shardkey)
    requires Int32(f, SmId) == Int32(g, SmId)
    requires Text(f, DateCreated) == Text(g, DateCreated)
    requires Text(f, OofShard) == Text(g, OofShard)
    ensures DecodeOrder(Object(f)) == DecodeOrder(Object(g))
  {
  }

  // ---------------------------------------------------------------------
  // Properties of decoding

  /** An items array decodes exactly when every element decodes, position by position. */
  lemma {:induction false} DecodeItemsElementwise(vs: seq<Json>, items: seq<Item>)
    ensures DecodeItems(vs) == Some(items) <==>
              |vs| == |items| && forall i :: 0 <= i < |vs| ==> DecodeItem(vs[i]) == Some(items[i])
  {
    if vs != [] && items != [] {
      DecodeItemsElementwise(vs[1..], items[1..]);
      assert items == [items[0]] + items[1..];
      if DecodeItems(vs) == Some(items) {
        forall i | 0 <= i < |vs| ensures DecodeItem(vs[i]) == Some(items[i]) {
          if i > 0 { assert vs[1..][i - 1] == vs[i]; }
        }
      }
      if |vs| == |items| && forall i :: 0 <= i < |vs| ==> DecodeItem(vs[i]) == Some(items[i]) {
        forall i | 0 <= i < |vs| - 1 ensures DecodeItem(vs[1..][i]) == Some(items[1..][i]) {
          assert DecodeItem(vs[i + 1]) == Some(items[i + 1]);
        }
      }
    } else if vs != [] {
      DecodeItemsElementwise(vs[1..], []);
    }
  }

  /** A payload without `internal_signature` decodes as if it carried "" there. */
  lemma AbsentSignatureDefaultsToEmpty(f: Fields)
    requires InternalSignature !in f
    ensures DecodeOrder(Object(f)) == DecodeOrder(Object(f[InternalSignature := Str("")]))
    ensures DecodeOrder(Object(f)).Some? ==> DecodeOrder(Object(f)).value.internalSignature == ""
  {
    OrderDecodeCongruent(f, f[InternalSignature := Str("")]);
  }

  /** A payment without `request_id` decodes as if it carried "" there. */
  lemma AbsentRequestIdDefaultsToEmpty(f: Fields, g: Fields)
    requires PaymentField in f && f[PaymentField] == Object(g) && RequestId !in g
    ensures DecodeOrder(Object(f)) ==
              DecodeOrder(Object(f[PaymentField := Object(g[RequestId := Str("")])]))
    ensures DecodeOrder(Object(f)).Some? ==> DecodeOrder(Object(f)).value.payment.requestId == ""
  {
    var g' := g[RequestId := Str("")];
    PaymentDecodeCongruent(g, g');
    OrderDecodeCongruent(f, f[PaymentField := Object(g')]);
    OrderDecodeParts(f);
  }

  /** What a decoded order holds for its payment and its signature. */
  lemma OrderDecodeParts(f: Fields)
    ensures DecodeOrder(Object(f)).Some? ==>
              && PaymentOf(f) == Some(DecodeOrder(Object(f)).value.payment)
              && TextOrEmpty(f, InternalSignature) == Some(DecodeOrder(Object(f)).value.internalSignature)
    ensures DecodePayment(Object(f)).Some? ==>
              TextOrEmpty(f, RequestId) == Some(DecodePayment(Object(f)).value.requestId)
  {
  }

  /** A defaulted field that is present must still be a string. */
  lemma DefaultedFieldsMustBeStrings(f: Fields, g: Fields)
    ensures InternalSignature in f && !f[InternalSignature].Str? ==> DecodeOrder(Object(f)) == None
    ensures (PaymentField in f && f[PaymentField] == Object(g) && RequestId in g && !g[RequestId].Str?)
              ==> DecodeOrder(Object(f)) == None
  {
  }

  /** An order payload missing any field other than `internal_signature` is rejected. */
  lemma MissingOrderFieldRejected(f: Fields, key: Key)
    requires key in OrderKeys - DefaultedOrderKeys && key !in f
    ensures DecodeOrder(Object(f)) == None
  {
  }

  /** A delivery missing any of its fields rejects the whole order. */
  lemma MissingDeliveryFieldRejected(f: Fields, key: Key)
    requires DeliveryField in f && f[DeliveryField].Object?
    requires key in DeliveryKeys && key !in f[DeliveryField].fields
    ensures DecodeOrder(Object(f)) == None
  {
    assert DecodeDelivery(f[DeliveryField]) == None;
  }

  /** A payment missing any field other than `request_id` rejects the whole order. */
  lemma MissingPaymentFieldRejected(f: Fields, key: Key)
    requires PaymentField in f && f[PaymentField].Object?
    requires key in PaymentKeys - DefaultedPaymentKeys && key !in f[PaymentField].fields
    ensures DecodeOrder(Object(f)) == None
  {
    assert DecodePayment(f[PaymentField]) == None;
  }

  /** An item missing any of its fields rejects the whole order. */
  lemma MissingItemFieldRejected(f: Fields, i: nat, key: Key)
    requires ItemsField in f && f[ItemsField].Array? && i < |f[ItemsField].elems|
    requires f[ItemsField].elems[i].Object?
    requires key in ItemKeys && key !in f[ItemsField].elems[i].fields
    ensures DecodeOrder(Object(f)) == None
  {
    ItemAtRejects(f[ItemsField].elems, i);
  }

  /** One item that does not decode makes the items array fail. */
  lemma ItemAtRejects(vs: seq<Json>, i: nat)
    requires i < |vs| && DecodeItem(vs[i]) == None
    ensures DecodeItems(vs) == None
  {
    if DecodeItems(vs).Some? {
      DecodeItemsElementwise(vs, DecodeItems(vs).value);
    }
  }

  /** `sm_id` outside the 32-bit range rejects the order. */
  lemma OrderSmIdOutOfRange(f: Fields, n: int)
    requires SmId in f && f[SmId] == Number(n) && !InI32(n)
    ensures DecodeOrder(Object(f)) == None
  {
  }

  /** Payment integers outside their widths reject the order. */
  lemma PaymentIntegerOutOfRange(f: Fields, key: Key, n: int)
    requires PaymentField in f && f[PaymentField].Object? && key in f[PaymentField].fields
    requires f[PaymentField].fields[key] == Number(n)
    requires (key in PaymentI32Keys && !InI32(n)) || (key == PaymentDt && !InI64(n))
    ensures DecodeOrder(Object(f)) == None
  {
    assert DecodePayment(f[PaymentField]) == None;
  }

  /** Item integers outside their widths reject the order. */
  lemma ItemIntegerOutOfRange(f: Fields, i: nat, key: Key, n: int)
    requires ItemsField in f && f[ItemsField].Array? && i < |f[ItemsField].elems|
    requires f[ItemsField].elems[i].Object? && key in f[ItemsField].elems[i].fields
    requires f[ItemsField].elems[i].fields[key] == Number(n)
    requires (key in ItemI32Keys && !InI32(n)) || (key in ItemI64Keys && !InI64(n))
    ensures DecodeOrder(Object(f)) == None
  {
    assert DecodeItem(f[ItemsField].elems[i]) == None;
    ItemAtRejects(f[ItemsField].elems, i);
  }

  /** Fields the order does not declare do not change the outcome of decoding. */
  lemma UnknownFieldsIgnored(f: Fields)
    ensures DecodeOrder(Object(f)) ==
              DecodeOrder(Object(map k | k in f && k in OrderKeys :: f[k]))
  {
  }
}
