/**
 * The order aggregate of internal/models: the header, its one Delivery, its
 * one Payment and its Items. Go's 64-bit ints are unbounded here: nothing in
 * the core does arithmetic on them.
 */
module Models {

  /** `time.Time`, kept opaque: the core only ever leaves it at its zero value or copies it. */
  datatype Time = ZeroTime | Instant(stamp: string)

  datatype Delivery = Delivery(
    orderUID: string,      // foreign key to the order header
    name: string,
    phone: string,
    zip: string,
    city: string,
    address: string,
    region: string,
    email: string)

  datatype Payment = Payment(
    orderUID: string,      // foreign key to the order header
    transaction: string,
    requestID: string,
    currency: string,
    provider: string,
    amount: int,
    paymentDt: int,
    bank: string,
    deliveryCost: int,
    goodsTotal: int,
    customFee: int)

  /** One line item (`models.Items`); `id` is the store's auto-increment key. */
  datatype Item = Item(
    id: nat,
    orderID: string,       // foreign key to the order header
    chrtId: int,
    trackNumber: string,
    price: int,
    rid: string,
    name: string,
    sale: int,
    size: string,
    totalPrice: int,
    nmId: int,
    brand: string,
    status: int)

  datatype Order = Order(
    orderUID: string,      // primary key
    trackNumber: string,
    entry: string,
    locale: string,
    internalSignature: string,
    customerId: string,
    deliveryService: string,
    shardKey: string,
    smId: int,
    dateCreated: Time,
    oofShard: string,
    delivery: Delivery,
    payment: Payment,
    items: seq<Item>)

  /** Go's zero values of the two owned structs. */
  const ZeroDelivery := Delivery("", "", "", "", "", "", "", "")
  const ZeroPayment := Payment("", "", "", "", "", 0, 0, "", 0, 0, 0)
}
