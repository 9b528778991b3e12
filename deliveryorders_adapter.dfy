/**
 * Response shapes of the delivery-order endpoints: projections of stored
 * delivery orders onto the fields each response exposes.
 */
module DeliveryOrdersAdapter {
  import opened JsValues

  /** A product line of a delivery order. */
  datatype Product = Product(name: Value, price: Value, quantity: Value, taxBase: Value, iva: Value, re: Value, total: Value)

  /** A stored delivery order with its aggregate totals. */
  datatype DeliveryOrder = DeliveryOrder(
    id: Value,
    provider: Value,
    nameProvider: Value,
    date: Value,
    products: seq<Product>,
    nOrder: Value,
    invoice: Value,
    nInvoice: Value,
    iva: Value,
    re: Value,
    total: Value,
    taxBase: Value,
    rate: Value)

  /** The data `ordersResponse` is given: the linked orders, their count and the free orders. */
  datatype OrdersData = OrdersData(inInvoices: seq<DeliveryOrder>, inInvoiceCount: Value, free: seq<DeliveryOrder>)

  datatype InInvoiceEntry = InInvoiceEntry(id: Value, date: Value, total: Value, nOrder: Value, nInvoice: Value)
  datatype FreeProduct = FreeProduct(name: Value, price: Value, quantity: Value, taxBase: Value)
  datatype FreeEntry = FreeEntry(id: Value, date: Value, taxBase: Value, iva: Value, re: Value, total: Value, products: seq<FreeProduct>)
  datatype InInvoices = InInvoices(count: Value, data: seq<InInvoiceEntry>)
  datatype OrdersResponse = OrdersResponse(free: seq<FreeEntry>, inInvoices: InInvoices)

  datatype Totals = Totals(iva: Value, re: Value, total: Value, taxBase: Value, rate: Value)
  datatype StandardResponse = StandardResponse(
    id: Value, provider: Value, nameProvider: Value, date: Value,
    products: seq<Product>, nOrder: Value, invoice: Value, totals: Totals)
  datatype BasicResponse = BasicResponse(id: Value, date: Value)
  datatype ProductsResponse = ProductsResponse(products: seq<Product>, totals: Totals)

  /** One entry of `inInvoices.data`. */
  function InInvoiceEntryOf(d: DeliveryOrder): InInvoiceEntry
  {
    InInvoiceEntry(d.id, d.date, d.total, d.nOrder, d.nInvoice)
  }

  /** The `inInvoices.map(...)` of `_inInvoiceResponse`. */
  function InInvoiceData(ds: seq<DeliveryOrder>): (r: seq<InInvoiceEntry>)
    ensures |r| == |ds|
    ensures forall i :: 0 <= i < |ds| ==>
      r[i].id == ds[i].id && r[i].date == ds[i].date && r[i].total == ds[i].total
      && r[i].nOrder == ds[i].nOrder && r[i].nInvoice == ds[i].nInvoice
  {
    if ds == [] then [] else [InInvoiceEntryOf(ds[0])] + InInvoiceData(ds[1..])
  }

  /** `_inInvoiceResponse`. */
  function InInvoiceResponse(data: OrdersData): (r: InInvoices)
    ensures r.count == data.inInvoiceCount
    ensures r.data == InInvoiceData(data.inInvoices)
  {
    InInvoices(data.inInvoiceCount, InInvoiceData(data.inInvoices))
  }

  function FreeProductOf(p: Product): FreeProduct
  {
    FreeProduct(p.name, p.price, p.quantity, p.taxBase)
  }

  /** The inner `products.map(...)` of `_freeResponse`. */
  function FreeProducts(ps: seq<Product>): (r: seq<FreeProduct>)
    ensures |r| == |ps|
    ensures forall i :: 0 <= i < |ps| ==>
      r[i].name == ps[i].name && r[i].price == ps[i].price
      && r[i].quantity == ps[i].quantity && r[i].taxBase == ps[i].taxBase
  {
    if ps == [] then [] else [FreeProductOf(ps[0])] + FreeProducts(ps[1..])
  }

  function FreeEntryOf(d: DeliveryOrder): FreeEntry
  {
    FreeEntry(d.id, d.date, d.taxBase, d.iva, d.re, d.total, FreeProducts(d.products))
  }

  /** `_freeResponse`. */
  function FreeResponse(data: OrdersData): (r: seq<FreeEntry>)
    ensures |r| == |data.free|
    ensures forall i :: 0 <= i < |data.free| ==>
      var d := data.free[i];
      && r[i].id == d.id && r[i].date == d.date && r[i].taxBase == d.taxBase
      && r[i].iva == d.iva && r[i].re == d.re && r[i].total == d.total
      && r[i].products == FreeProducts(d.products)
  {
    FreeEntries(data.free)
  }

  function FreeEntries(ds: seq<DeliveryOrder>): (r: seq<FreeEntry>)
    ensures |r| == |ds|
    ensures forall i :: 0 <= i < |ds| ==> r[i] == FreeEntryOf(ds[i])
  {
    if ds == [] then [] else [FreeEntryOf(ds[0])] + FreeEntries(ds[1..])
  }

  /** `ordersResponse`. */
  function OrdersResponseOf(data: OrdersData): (r: OrdersResponse)
    ensures r.inInvoices.count == data.inInvoiceCount
    ensures |r.inInvoices.data| == |data.inInvoices| && |r.free| == |data.free|
    ensures r.free == FreeResponse(data) && r.inInvoices == InInvoiceResponse(data)
  {
    OrdersResponse(FreeResponse(data), InInvoiceResponse(data))
  }

  /** `_generateTotals`. */
  function GenerateTotals(iva: Value, re: Value, total: Value, taxBase: Value, rate: Value): (t: Totals)
    ensures t.iva == iva && t.re == re && t.total == total && t.taxBase == taxBase && t.rate == rate
  {
    Totals(iva, re, total, taxBase, rate)
  }

  /** `standardResponse`. */
  function StandardResponseOf(d: DeliveryOrder): (r: StandardResponse)
    ensures r.id == d.id && r.provider == d.provider && r.nameProvider == d.nameProvider
    ensures r.date == d.date && r.products == d.products && r.nOrder == d.nOrder && r.invoice == d.invoice
    ensures r.totals == GenerateTotals(d.iva, d.re, d.total, d.taxBase, d.rate)
  {
    StandardResponse(d.id, d.provider, d.nameProvider, d.date, d.products, d.nOrder, d.invoice,
                     GenerateTotals(d.iva, d.re, d.total, d.taxBase, d.rate))
  }

  /** `basicResponse`. */
  function BasicResponseOf(d: DeliveryOrder): (r: BasicResponse)
    ensures r.id == d.id && r.date == d.date
  {
    BasicResponse(d.id, d.date)
  }

  /** `productsResponse`. */
  function ProductsResponseOf(d: DeliveryOrder): (r: ProductsResponse)
    ensures r.products == d.products
    ensures r.totals == GenerateTotals(d.iva, d.re, d.total, d.taxBase, d.rate)
  {
    ProductsResponse(d.products, GenerateTotals(d.iva, d.re, d.total, d.taxBase, d.rate))
  }

  /**
   * The delivery order a standard response describes, with `nInvoice`, the
   * one field the response drops, left undefined.
   */
  function FromStandardResponse(r: StandardResponse): DeliveryOrder
  {
    DeliveryOrder(r.id, r.provider, r.nameProvider, r.date, r.products, r.nOrder, r.invoice, Undefined,
                  r.totals.iva, r.totals.re, r.totals.total, r.totals.taxBase, r.totals.rate)
  }

  /** `standardResponse` loses nothing but `nInvoice`. */
  lemma StandardResponseRoundTrip(d: DeliveryOrder)
    ensures FromStandardResponse(StandardResponseOf(d)) == d.(nInvoice := Undefined)
  {
  }

  /** The standard and the products response carry the same totals group. */
  lemma StandardAndProductsTotalsAgree(d: DeliveryOrder)
    ensures StandardResponseOf(d).totals == ProductsResponseOf(d).totals
  {
  }

  /** The projections distribute over concatenation: each entry depends on its own order only. */
  lemma {:induction false} InInvoiceDataAppend(a: seq<DeliveryOrder>, b: seq<DeliveryOrder>)
    ensures InInvoiceData(a + b) == InInvoiceData(a) + InInvoiceData(b)
  {
    if a != [] {
      assert (a + b)[1..] == a[1..] + b;
      InInvoiceDataAppend(a[1..], b);
    }
  }

  lemma {:induction false} FreeEntriesAppend(a: seq<DeliveryOrder>, b: seq<DeliveryOrder>)
    ensures FreeEntries(a + b) == FreeEntries(a) + FreeEntries(b)
  {
    if a != [] {
      assert (a + b)[1..] == a[1..] + b;
      FreeEntriesAppend(a[1..], b);
    }
  }
}
