/**
  The order aggregate: an order owns exactly one delivery, one payment
  and a sequence of items. Integer fields keep the fixed widths of the
  original structures (`i32` and `i64`).
*/
module Structures {

  /** A signed 32-bit integer. */
  type I32 = n: int | -0x8000_0000 <= n <= 0x7fff_ffff

  /** A signed 64-bit integer. */
  type I64 = n: int | -0x8000_0000_0000_0000 <= n <= 0x7fff_ffff_ffff_ffff

  predicate InI32(n: int) { -0x8000_0000 <= n <= 0x7fff_ffff }

  predicate InI64(n: int) { -0x8000_0000_0000_0000 <= n <= 0x7fff_ffff_ffff_ffff }

  datatype Delivery = Delivery(
    name: string,
    phone: string,
    zip: string,
    city: string,
    address: string,
    region: string,
    email: string)

  datatype Payment = Payment(
    transaction: string,
    requestId: string,
    currency: string,
    provider: string,
    amount: I32,
    paymentDt: I64,
    bank: string,
    deliveryCost: I32,
    goodsTotal: I32,
    customFee: I32)

  datatype Item = Item(
    chrtId: I64,
    trackNumber: string,
    price: I32,
    rid: string,
    name: string,
    sale: I32,
    size: string,
    totalPrice: I32,
    nmId: I64,
    brand: string,
    status: I32)

  datatype Order = Order(
    orderUid: string,
    trackNumber: string,
    entry: string,
    delivery: Delivery,
    payment: Payment,
    items: seq<Item>,
    locale: string,
    internalSignature: string,
    customerId: string,
    deliveryService: string,
    shardkey: string,
    smId: I32,
    dateCreated: string,
    oofShard: string)
}
