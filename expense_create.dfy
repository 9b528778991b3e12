/**
 * Creation of a direct-expense invoice: the IVA, surcharge ("re") and total
 * amounts computed from the tax base and the two rates, and the invoice
 * document assembled from the request and the provider's name.
 */
module ExpenseCreate {
  import opened Wrappers
  import opened JsValues
  import opened Records

  /**
   * The request fields `create` destructures. `iva` and `re` are rates;
   * `re == None` is a request without a surcharge rate.
   */
  datatype ExpenseData = ExpenseData(
    nInvoice: Value,
    dateInvoice: Value,
    dateRegister: Value,
    taxBase: real,
    provider: Id,
    concept: Value,
    iva: real,
    re: Option<real>,
    paymentType: Value,
    paymentDate: Value)

  /**
   * The provider lookup found nothing: reading `name` from the null result
   * throws, so no invoice is built or saved.
   */
  datatype ExpenseError = ProviderLookupFailed

  /** JavaScript truthiness of the numeric surcharge rate (absent or 0 is falsy). */
  predicate RateTruthy(re: Option<real>)
  {
    re.Some? && re.value != 0.0
  }

  /** What a stored `re` field adds to a total: nothing when the field is absent. */
  function ReAmount(re: Option<real>): (a: real)
    ensures re.None? ==> a == 0.0
    ensures re.Some? ==> a == re.value
  {
    match re
    case None => 0.0
    case Some(v) => v
  }

  /** An expense invoice whose total is its tax base plus its IVA plus its surcharge, unrounded. */
  ghost predicate TotalsConsistent(inv: Invoice)
  {
    inv.total == inv.taxBase + inv.iva + ReAmount(inv.re)
  }

  /**
   * `create`, up to the final `save()`: `round` is the repository's
   * `roundNumber`, whose definition is not part of this model.
   */
  function Create(data: ExpenseData, providers: map<Id, Provider>, round: real -> real): (r: Result<Invoice, ExpenseError>)
    ensures r.Failure? <==> data.provider !in providers
    ensures r.Failure? ==> r.error == ProviderLookupFailed
    ensures r.Success? ==>
      && r.value.iva == round(data.taxBase * data.iva)
      && (RateTruthy(data.re) ==> r.value.re == Some(round(data.taxBase * data.re.value)))
      && (!RateTruthy(data.re) <==> r.value.re.None?)
      && TotalsConsistent(r.value)
    ensures r.Success? ==>
      && r.value.nameProvider == providers[data.provider].name
      && r.value.nInvoice == data.nInvoice
      && r.value.dateInvoice == data.dateInvoice
      && r.value.dateRegister == data.dateRegister
      && r.value.taxBase == data.taxBase
      && r.value.provider == data.provider
      && r.value.concept == data.concept
    ensures r.Success? ==>
      && r.value.payment.paymentType == data.paymentType
      && (r.value.payment.paymentDate != Undefined <==> Truthy(data.paymentDate))
      && (Truthy(data.paymentDate) ==> r.value.payment.paymentDate == data.paymentDate)
      && r.value.payment.numCheque == Undefined
      && r.value.payment.paid == Undefined
    ensures r.Success? ==> r.value.nOrder.None? && r.value.deliveryOrders.None?
  {
    var ivaCalc := round(data.taxBase * data.iva);
    var reCalc := if RateTruthy(data.re) then round(data.taxBase * data.re.value) else 0.0;
    var total := data.taxBase + ivaCalc + reCalc;
    if data.provider !in providers then
      Failure(ProviderLookupFailed)
    else
      Success(Invoice(
        nameProvider := providers[data.provider].name,
        nInvoice := data.nInvoice,
        dateInvoice := data.dateInvoice,
        dateRegister := data.dateRegister,
        taxBase := data.taxBase,
        provider := data.provider,
        concept := data.concept,
        iva := ivaCalc,
        re := if RateTruthy(data.re) then Some(reCalc) else None,
        total := total,
        payment := PaymentInfo(IfTruthy(data.paymentDate), data.paymentType, Undefined, Undefined),
        nOrder := None,
        deliveryOrders := None))
  }

  /**
   * Rounding is applied to the two products and nowhere else: with a rounding
   * function that changes nothing, the total is the tax base times one plus
   * both rates.
   */
  lemma CreateWithExactRounding(data: ExpenseData, providers: map<Id, Provider>)
    requires data.provider in providers
    ensures Create(data, providers, x => x).Success?
    ensures Create(data, providers, x => x).value.total
            == data.taxBase * (1.0 + data.iva + (if RateTruthy(data.re) then data.re.value else 0.0))
  {
  }

  /** Only the provider named by the request is read from the provider table. */
  lemma CreateReadsOnlyItsProvider(data: ExpenseData, providers: map<Id, Provider>, round: real -> real, other: Id, p: Provider)
    requires other != data.provider
    ensures Create(data, providers[other := p], round) == Create(data, providers, round)
  {
  }
}
