/**
 * The stored documents the modelled services read and write: providers,
 * invoices with their embedded payment snapshot, and payments.
 */
module Records {
  import opened Wrappers
  import opened JsValues

  /** A document identifier (`_id`). */
  type Id = string

  datatype Provider = Provider(name: Value)

  /**
   * The payment snapshot embedded in an invoice, and the field set of a
   * payment update. `Undefined` marks a field that is not present;
   * `paymentType` is the source's `type` field (`type` is a Dafny keyword).
   */
  datatype PaymentInfo = PaymentInfo(paymentDate: Value, paymentType: Value, numCheque: Value, paid: Value)

  /** An invoice document. `re == None` means the document has no `re` field. */
  datatype Invoice = Invoice(
    nameProvider: Value,
    nInvoice: Value,
    dateInvoice: Value,
    dateRegister: Value,
    taxBase: real,
    provider: Id,
    concept: Value,
    iva: real,
    re: Option<real>,
    total: real,
    payment: PaymentInfo,
    nOrder: Option<int>,
    deliveryOrders: Option<seq<Id>>)

  /** A payment document: the settled fields and the invoices it covers. */
  datatype Payment = Payment(paymentDate: Value, paymentType: Value, numCheque: Value, paid: Value, invoices: seq<Id>)
}
