# carpinteria-erp-api: invoices, payments, product checks and responses in Dafny

This project models five small pieces of an invoicing and delivery-order backend for a
carpentry business. The backend is written in JavaScript with Express and Mongoose.
The five pieces are:

- **Direct-expense invoice creation** (`ExpenseCreate`). The IVA and surcharge ("re")
  amounts are computed from the tax base and the two rates. The total is the sum of the
  three amounts. The invoice document is assembled from the request and the provider's
  name, which is looked up in a provider table.
- **Payment confirmation** (`PaymentConfirm`). A class holds the payment and invoice
  collections as maps. `Confirm` merges the settled fields into the payment. It then loops
  over the payment's invoice list and writes the same fields into each listed invoice's
  `payment`.
- **Product request validators** (`ProductValidator`). These are accept/reject checks with
  JavaScript truthiness, plus a product-id existence check against a set of stored ids.
- **Delivery-order response shapes** (`DeliveryOrdersAdapter`). These are projections of
  delivery orders onto the fields each response exposes.
- **The client-invoice controller** (`ClientInvoicesController`):
  - the classification of a failure by its error name;
  - the `delete`, `invoiceConfirm` and `swap` handlers as chains of fallible steps. A chain
    stops at the first failure and sends that failure to the error handler.

Shared modules: `Wrappers` (Option/Result/Outcome) and `JsValues` (JavaScript values,
truthiness, `typeof`, property reads where a missing key is `undefined`). `Records` holds
the stored provider, invoice and payment documents. A record field holding `Undefined`
stands for a field that is absent. Dafny does not allow a leading underscore or the keyword
`type` as a field name, so `_id` is written `id` and a payment's `type` is `paymentType`.

Two behaviours of the code worth stating directly:
- A missing payment id makes the payment update yield `null`, and reading `invoices` from it
  throws a `TypeError`. The model names this failure `PaymentNotFound` and leaves both
  stores unchanged.
- A direct-expense invoice computes `iva` and `re` from the given rates, rounding each
  product, and does not round the total. `ExpenseCreate.Create` does the same.

## Model

| member | source | states |
|---|---|---|
| ExpenseCreate.Create | api/services/invoice/services/expenseCreate.js:11-35 | fails exactly when the provider id is not in the provider table; otherwise `iva` is round(taxBase × iva rate), `re` is present iff the surcharge rate is truthy and is then round(taxBase × re rate), total = taxBase + iva + re (0 when absent) with no outer rounding, the six input fields are copied unchanged, `nameProvider` is the provider's name, the embedded payment has `type` and has `paymentDate` only when truthy, and there is no `nOrder` and no `deliveryOrders` |
| ExpenseCreate.CreateWithExactRounding | api/services/invoice/services/expenseCreate.js:14-16 | rounding applies to the two products only: with a rounding that changes nothing, total = taxBase × (1 + iva rate + re rate when truthy) |
| ExpenseCreate.CreateReadsOnlyItsProvider | api/services/invoice/services/expenseCreate.js:18 | changing any other provider's entry does not change the result |
| PaymentConfirm.PaymentData | api/services/payment/confirm.js:34-39 | `paid` is true, `paymentDate` and `type` are copied verbatim, and `numCheque` is present iff it is truthy, and then it is the given value |
| PaymentConfirm.Merge | api/services/payment/confirm.js:11-12 | the update overwrites `paymentDate`, `type`, `paid`, and `numCheque` only when the update carries it; the invoice list and an unsent `numCheque` keep their stored values |
| PaymentConfirm.SetPayment | api/services/payment/confirm.js:23 | one update by id without upsert: the same ids; a stored invoice with that id gets the payment data as `payment` and keeps every other field; every other invoice is unchanged |
| PaymentConfirm.Propagate | api/services/payment/confirm.js:21-24 | the loop over the list keeps the store's ids; each stored listed invoice gets the payment data as `payment`; every unlisted invoice is unchanged |
| PaymentConfirm.PropagateIsStamped | api/services/payment/confirm.js:21-24 | running the loop over the list in order gives the same store as stamping the set of listed ids at once: order does not matter |
| PaymentConfirm.PropagateTouchesExactlyListed | api/services/payment/confirm.js:22-23 | after the loop the store has the same ids; every stored listed invoice has the payment data as `payment` and is otherwise unchanged; every unlisted invoice is unchanged; listed ids that match no invoice add nothing |
| PaymentConfirm.PropagateRepeatedId | api/services/payment/confirm.js:22-23 | appending an id that is already listed leaves the final store unchanged |
| PaymentConfirm.PropagateIdempotent | api/services/payment/confirm.js:22-23 | running the loop twice leaves the store as running it once |
| PaymentConfirm.ConfirmSpec | api/services/payment/confirm.js:33-44 | fails with `PaymentNotFound` exactly when no payment has the id; on success the payment is the merge of the stored one with the payment data and no other payment changes |
| PaymentConfirm.ConfirmFansOut | api/services/payment/confirm.js:41-43 | after a successful confirm, each stored invoice listed by the payment carries the payment data, each other invoice is unchanged, and no invoice is added |
| PaymentConfirm.ConfirmIdempotent | api/services/payment/confirm.js:33-44 | confirming twice with the same body gives the same stores as confirming once |
| PaymentConfirm.PaymentStore.UpdatePayment | api/services/payment/confirm.js:11-12 | for an existing id, stores and returns the merged payment; otherwise returns none and changes nothing |
| PaymentConfirm.PaymentStore.UpdateInvoices | api/services/payment/confirm.js:21-24 | the invoice store becomes the result of processing the list in order, one update per id |
| PaymentConfirm.PaymentStore.Confirm | api/services/payment/confirm.js:33-44 | the new stores and outcome are those of `ConfirmSpec`; on failure neither store changes |
| ProductValidator.CheckId | api/validators/product/product.validator.js:10-13 | passes iff the id is a stored product id; otherwise fails with `ProductNotFound` |
| ProductValidator.ValidateId | api/validators/product/product.validator.js:20 | passes iff the object's `id` is a stored product id; otherwise `ProductNotFound` |
| ProductValidator.ValidateIdParam | api/validators/product/product.validator.js:21 | passes iff `params.id` is a stored product id; otherwise `ProductNotFound` |
| ProductValidator.ValidateProductBody | api/validators/product/product.validator.js:22 | passes iff `body.product` is a stored product id; otherwise `ProductNotFound` |
| ProductValidator.IdChecksAgree | api/validators/product/product.validator.js:20-22 | when `params.id` and `body.product` are the same value, the two checks give the same verdict |
| ProductValidator.ValidateFields | api/validators/product/product.validator.js:36-43 | passes iff `name`, `iva`, `re` and `profit` are all truthy; otherwise fails with `ProductMissingParams` |
| ProductValidator.ValidateFieldsBody | api/validators/product/product.validator.js:45 | the same verdict on the request body's fields |
| ProductValidator.ValidateFieldsIgnoresOtherKeys | api/validators/product/product.validator.js:36-43 | setting any key other than the four required ones, such as `code`, `provider` or `fee`, never changes the verdict |
| ProductValidator.ValidateFieldsRejectsFalsyPresent | api/validators/product/product.validator.js:42 | a required key that is present but 0, NaN, empty, null or false is rejected with `ProductMissingParams` |
| ProductValidator.UpdatePriceBody | api/validators/product/product.validator.js:52-55 | passes iff `price` and `date` are both non-zero numbers (not NaN, not another type); otherwise fails with `ProductMissingUpdate` |
| DeliveryOrdersAdapter.InInvoiceData | api/adapters/deliveryorders/deliveryorders.adapter.js:9-19 | same length as the input; entry i carries exactly `_id`, `date`, `total`, `nOrder`, `nInvoice` of order i |
| DeliveryOrdersAdapter.InInvoiceResponse | api/adapters/deliveryorders/deliveryorders.adapter.js:8-25 | `count` is `inInvoiceCount` and `data` is the projection of `inInvoices` |
| DeliveryOrdersAdapter.InInvoiceDataAppend | api/adapters/deliveryorders/deliveryorders.adapter.js:9-19 | projecting a concatenation is concatenating the projections |
| DeliveryOrdersAdapter.FreeProducts | api/adapters/deliveryorders/deliveryorders.adapter.js:42-49 | same length as the products; entry i carries `name`, `price`, `quantity`, `taxBase` of product i |
| DeliveryOrdersAdapter.FreeEntries | api/adapters/deliveryorders/deliveryorders.adapter.js:33-50 | same length; entry i is the free-entry projection of order i |
| DeliveryOrdersAdapter.FreeEntriesAppend | api/adapters/deliveryorders/deliveryorders.adapter.js:33-50 | projecting a concatenation is concatenating the projections |
| DeliveryOrdersAdapter.FreeResponse | api/adapters/deliveryorders/deliveryorders.adapter.js:33-50 | same length as `free`; entry i keeps `_id`, `date`, `taxBase`, `iva`, `re`, `total` of order i and the projection of its products |
| DeliveryOrdersAdapter.OrdersResponseOf | api/adapters/deliveryorders/deliveryorders.adapter.js:57-60 | `inInvoices.count` is `inInvoiceCount`; both lists keep their input lengths; `free` is the `_freeResponse` of the data and `inInvoices` its `_inInvoiceResponse` |
| DeliveryOrdersAdapter.GenerateTotals | api/adapters/deliveryorders/deliveryorders.adapter.js:67-75 | the group holds the five given values under their own names |
| DeliveryOrdersAdapter.StandardResponseOf | api/adapters/deliveryorders/deliveryorders.adapter.js:84-101 | copies `_id`, `provider`, `nameProvider`, `date`, `products`, `nOrder`, `invoice` and groups `iva`, `re`, `total`, `taxBase`, `rate` under `totals` |
| DeliveryOrdersAdapter.StandardResponseRoundTrip | api/adapters/deliveryorders/deliveryorders.adapter.js:84-101 | the order can be rebuilt from its standard response except for `nInvoice`, the one field the response drops |
| DeliveryOrdersAdapter.BasicResponseOf | api/adapters/deliveryorders/deliveryorders.adapter.js:107-110 | keeps `_id` and `date` |
| DeliveryOrdersAdapter.ProductsResponseOf | api/adapters/deliveryorders/deliveryorders.adapter.js:116-127 | passes `products` through; `totals` is the totals group of the order |
| DeliveryOrdersAdapter.StandardAndProductsTotalsAgree | api/adapters/deliveryorders/deliveryorders.adapter.js:84-127 | the standard and the products response carry the same totals |
| ClientInvoicesController.HandleError | api/controllers/v0/clientInvoices/clientInvoices.controller.js:42-61 | NotFound iff the name is one of the three not-found names, BadRequest iff it is one of the five bad-request names, Generic iff it is neither; every name gets exactly one class |
| ClientInvoicesController.Execute | api/controllers/v0/clientInvoices/clientInvoices.controller.js:116-123 | steps are called in chain order; a step is called only if every earlier call succeeded; the chain fails exactly when its last call failed; on success every step was called |
| ClientInvoicesController.TapPassed | api/controllers/v0/clientInvoices/clientInvoices.controller.js:117 | a `tap` whose check passes records a successful call on its input and runs the rest of the chain on the same value |
| ClientInvoicesController.TapFailed | api/controllers/v0/clientInvoices/clientInvoices.controller.js:117 | a `tap` whose check fails is the last call, recorded as failed, and the chain fails with that check's error |
| ClientInvoicesController.ThenSucceeded | api/controllers/v0/clientInvoices/clientInvoices.controller.js:119 | a `then` whose step succeeds records a successful call and runs the rest of the chain on the step's result |
| ClientInvoicesController.ThenFailed | api/controllers/v0/clientInvoices/clientInvoices.controller.js:119 | a `then` whose step fails is the last call, recorded as failed, and the chain fails with that step's error |
| ClientInvoicesController.Respond | api/controllers/v0/clientInvoices/clientInvoices.controller.js:121-123 | a failure goes to the error handler with its class; a success sends the data, or an empty 204 |
| ClientInvoicesController.DeleteChain | api/controllers/v0/clientInvoices/clientInvoices.controller.js:116-120 | the steps of `delete`, in order: `validateId` and `isRemovable` as taps, `invoiceDelete` as a then, `decrementClientInvoice` as a tap |
| ClientInvoicesController.Delete | api/controllers/v0/clientInvoices/clientInvoices.controller.js:114-124 | a chain that succeeds gets an empty 204; a chain that fails sends its error to the error handler with that error's class |
| ClientInvoicesController.DeleteOutcome | api/controllers/v0/clientInvoices/clientInvoices.controller.js:116-120 | the chain fails with the error of the first failing step, in the order `validateId`, `isRemovable`, `invoiceDelete`, `decrementClientInvoice`; otherwise it succeeds with what `invoiceDelete` returned |
| ClientInvoicesController.DeleteOrder | api/controllers/v0/clientInvoices/clientInvoices.controller.js:116-120 | `validateId` then `isRemovable` are called on the parameters; `invoiceDelete` is called, on the parameters, iff both passed; `decrementClientInvoice` is called, on what `invoiceDelete` returned, iff that succeeded; 204 iff all four succeeded |
| ClientInvoicesController.AfterConfirmChain | api/controllers/v0/clientInvoices/clientInvoices.controller.js:206-209 | the steps after the confirmation, in order: payment creation, billing add and billing refresh as taps, then the response adapter |
| ClientInvoicesController.ConfirmChain | api/controllers/v0/clientInvoices/clientInvoices.controller.js:203-209 | the steps of `invoiceConfirm`: `validateIdParam` and `confirmParams` as taps, `invoiceConfirm` as a then, followed by the steps after the confirmation |
| ClientInvoicesController.InvoiceConfirm | api/controllers/v0/clientInvoices/clientInvoices.controller.js:200-212 | a chain that succeeds sends its final value; a chain that fails sends its error to the error handler with that error's class |
| ClientInvoicesController.InvoiceConfirmValidatesFirst | api/controllers/v0/clientInvoices/clientInvoices.controller.js:202-205 | `confirmParams` is called, on the request, iff `validateIdParam` passed on it; `invoiceConfirm` is called, on the request, iff both passed; a failing validator or confirmation makes the chain fail with its own error |
| ClientInvoicesController.InvoiceConfirmThenFansOut | api/controllers/v0/clientInvoices/clientInvoices.controller.js:205-209 | after the validators, later steps run iff the confirmation succeeded; they are then exactly the after-confirmation chain run on its result, and decide the outcome |
| ClientInvoicesController.AfterConfirmInputs | api/controllers/v0/clientInvoices/clientInvoices.controller.js:206-209 | payment creation, billing add, billing refresh and the adapter are all called on the confirmed invoice; taps pass it on unchanged; billing add is called iff payment creation passed, billing refresh iff both passed, the adapter iff all three passed, each call's success flag is its step's outcome; the chain fails with the error of the first failing tap, and otherwise settles with the adapter's result |
| ClientInvoicesController.SwapChain | api/controllers/v0/clientInvoices/clientInvoices.controller.js:226-227 | the steps of `swap`: `validateTwoIds` as a tap, then the swap service |
| ClientInvoicesController.SwapOrder | api/controllers/v0/clientInvoices/clientInvoices.controller.js:226-227 | `validateTwoIds` is called on the parameters; the swap service is called, on them, iff it passed; the chain fails with the validator's error or settles with the swap's result |
| ClientInvoicesController.Swap | api/controllers/v0/clientInvoices/clientInvoices.controller.js:223-231 | 204 iff `validateTwoIds` passed and the swap service then succeeded; a failing validation or swap is sent to the error handler with its class |

## Left out

- Persistence is not modelled: the final `save()` of the expense invoice, Mongo queries, and promise asynchrony. Stores are maps, and steps run one after another.
- `roundNumber` lives in the repository's utilities, which are not part of this model. It is the parameter `round` of `ExpenseCreate.Create`, so every contract holds for any rounding function.
- Amounts are reals. IEEE double arithmetic, NaN and Infinity in the arithmetic, and JavaScript's conversion of non-number operands in `taxBase * iva` are not modelled. `taxBase` and `iva` are numbers, and the surcharge rate is a number or absent.
- `JsValues.Value` has no `Infinity`. That value is truthy and of type number, so `UpdatePriceBody` would accept it.
- The model does not cover Mongoose casting of query ids: malformed ObjectIds and `undefined` filters. An id exists iff it is in the set or map of stored ids.
- `PaymentConfirm.Merge`: a key sent with the value `undefined` (`paymentDate` or `type` missing from the body) is stored as that value. The model does not cover the driver turning it into `null` or unsetting it.
- In the update loop and the adapters, `invoices`, `free`, `inInvoices` and `products` are always lists. The model does not cover the `TypeError` the source throws when one of them is missing.
- JSON serialisation drops `undefined` fields from responses. This is not modelled. A projected field that is missing in its input reads as `Undefined`.
- Controller: the model leaves out logging (`LogService`), `res.status`/`res.send`, the error handler's status codes and constructor dependency injection. The collaborating services (`invoiceConfirm`, `invoiceDelete`, `swap`, `decrementClientInvoice`, payment and billing services, validators, adapters) are not part of this model. They are function parameters that may pass, fail or return any value.
- The other controller handlers (`invoice`, `invoices`, `invoicesShort`, `create`, `edit`, `addDeliveryOrder`, `editDeliveryOrder`, `deleteDeliveryOrder`, `addProduct`, `export`) are not modelled.
- The invoice-numbering and aggregation services (`nOrder` allocation, decrement, swap, totals aggregation, `refresh`) are not part of this model: their source is only re-exported by api/services/invoice/invoice.service.js.
- The error classes in errors/product.errors.js appear only as the constructors of `ProductValidator.ProductError`. Their messages are not modelled.
