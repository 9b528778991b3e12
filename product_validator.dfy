/**
 * Request checks for the product endpoints: required fields, the body of a
 * price update, and the existence of a product id.
 */
module ProductValidator {
  import opened Wrappers
  import opened JsValues

  /** The product error classes; only `ProductMissingParams` carries the code 400. */
  datatype ProductError =
    | ProductMissingParams
    | ProductMissingUpdate
    | ProductNotFound
    | ProviderNotFound
    | ProductCodeExists

  /** A request: its route parameters and its body, as plain objects. */
  datatype Request = Request(params: Obj, body: Obj)

  /** The keys `validateFields` reads. */
  const RequiredFields: set<string> := {"name", "iva", "re", "profit"}

  /**
   * `_checkId`: the product exists; `products` is the set of `_id` values
   * stored in the product collection.
   */
  function CheckId(id: Value, products: set<Value>): (r: Outcome<ProductError>)
    ensures r.Pass? <==> id in products
    ensures r.Fail? ==> r.error == ProductNotFound
  {
    if id !in products then Fail(ProductNotFound) else Pass
  }

  /** `validateId`: the `id` key of the given object names a product. */
  function ValidateId(o: Obj, products: set<Value>): (r: Outcome<ProductError>)
    ensures r.Pass? <==> Get(o, "id") in products
    ensures r.Fail? ==> r.error == ProductNotFound
  {
    CheckId(Get(o, "id"), products)
  }

  /** `validateIdParam`: the route parameter `id` names a product. */
  function ValidateIdParam(req: Request, products: set<Value>): (r: Outcome<ProductError>)
    ensures r.Pass? <==> Get(req.params, "id") in products
    ensures r.Fail? ==> r.error == ProductNotFound
  {
    ValidateId(req.params, products)
  }

  /** `validateProductBody`: the body key `product` names a product. */
  function ValidateProductBody(req: Request, products: set<Value>): (r: Outcome<ProductError>)
    ensures r.Pass? <==> Get(req.body, "product") in products
    ensures r.Fail? ==> r.error == ProductNotFound
  {
    CheckId(Get(req.body, "product"), products)
  }

  /** The two id checks are the same check applied to different request keys. */
  lemma IdChecksAgree(req: Request, products: set<Value>)
    requires Get(req.params, "id") == Get(req.body, "product")
    ensures ValidateIdParam(req, products) == ValidateProductBody(req, products)
  {
  }

  /** `validateFields`: rejects unless `name`, `iva`, `re` and `profit` are all truthy. */
  function ValidateFields(body: Obj): (r: Outcome<ProductError>)
    ensures r.Pass? <==> forall k :: k in RequiredFields ==> Truthy(Get(body, k))
    ensures r.Fail? ==> r.error == ProductMissingParams
  {
    if !Truthy(Get(body, "name")) || !Truthy(Get(body, "iva")) || !Truthy(Get(body, "re")) || !Truthy(Get(body, "profit")) then
      Fail(ProductMissingParams)
    else
      Pass
  }

  /** `validateFieldsBody`: `validateFields` applied to the request body. */
  function ValidateFieldsBody(req: Request): (r: Outcome<ProductError>)
    ensures r.Pass? <==> forall k :: k in RequiredFields ==> Truthy(Get(req.body, k))
    ensures r.Fail? ==> r.error == ProductMissingParams
  {
    ValidateFields(req.body)
  }

  /** A key other than the four required ones never changes the verdict (so `code`, `provider` and `fee` do not). */
  lemma ValidateFieldsIgnoresOtherKeys(body: Obj, k: string, v: Value)
    requires k !in RequiredFields
    ensures ValidateFields(body[k := v]) == ValidateFields(body)
  {
    assert forall f :: f in RequiredFields ==> Get(body[k := v], f) == Get(body, f);
  }

  /** A zero rate or an empty name is rejected even though the key is present. */
  lemma ValidateFieldsRejectsFalsyPresent(body: Obj, k: string)
    requires k in RequiredFields
    requires k in body && body[k] in {Number(0.0), Str(""), NaN, Null, Boolean(false)}
    ensures ValidateFields(body) == Fail(ProductMissingParams)
  {
    assert !Truthy(Get(body, k));
  }

  /** `updatePriceBody`: `price` and `date` must both be truthy and of type number. */
  function UpdatePriceBody(req: Request): (r: Outcome<ProductError>)
    ensures r.Pass? <==>
      && Get(req.body, "price").Number? && Get(req.body, "price").n != 0.0
      && Get(req.body, "date").Number? && Get(req.body, "date").n != 0.0
    ensures r.Fail? ==> r.error == ProductMissingUpdate
  {
    var price := Get(req.body, "price");
    var date := Get(req.body, "date");
    if !Truthy(price) || TypeOf(price) != "number" || !Truthy(date) || TypeOf(date) != "number" then
      Fail(ProductMissingUpdate)
    else
      Pass
  }
}
