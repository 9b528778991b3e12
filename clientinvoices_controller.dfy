/**
 * The client-invoice controller: how a failure is classified for the
 * response, and the order in which the steps of the `delete`,
 * `invoiceConfirm` and `swap` handlers run.
 */
module ClientInvoicesController {
  import opened Wrappers

  /** A thrown error, known by its `name`. */
  datatype Error = Error(name: string)

  /** The error handler a failure is sent to. */
  datatype ErrorClass = NotFound | BadRequest | Generic

  const NotFoundNames: set<string> := {"ClientIdNotFound", "InvoiceIdNotFound", "DeliveryOrderNotFound"}
  const BadRequestNames: set<string> :=
    {"ParamNotValidError", "InvoiceParamsMissing", "InvoiceNoRemovable", "DateNotValid", "DeliveryOrderNoRemovable"}

  /** `_handleError`: the `switch` on the error name. */
  function HandleError(e: Error): (c: ErrorClass)
    ensures c == NotFound <==> e.name in NotFoundNames
    ensures c == BadRequest <==> e.name in BadRequestNames
    ensures c == Generic <==> e.name !in NotFoundNames + BadRequestNames
  {
    match e.name
    case "ClientIdNotFound" => NotFound
    case "InvoiceIdNotFound" => NotFound
    case "DeliveryOrderNotFound" => NotFound
    case "ParamNotValidError" => BadRequest
    case "InvoiceParamsMissing" => BadRequest
    case "InvoiceNoRemovable" => BadRequest
    case "DateNotValid" => BadRequest
    case "DeliveryOrderNoRemovable" => BadRequest
    case _ => Generic
  }

  /**
   * A promise chain: `Tap` runs a check on the current value and passes the
   * value on unchanged, `Then` replaces the value with its step's result;
   * either fails the chain with the error it raises.
   */
  datatype Chain<!V> =
    | Done
    | Tap(name: string, check: V -> Outcome<Error>, next: Chain<V>)
    | Then(name: string, step: V -> Result<V, Error>, next: Chain<V>)

  /** A step that was called, the value it was called on, and whether it succeeded. */
  datatype Call<V> = Call(name: string, input: V, succeeded: bool)

  /** The calls a chain made, in order, and how it settled. */
  datatype Run<V> = Run(calls: seq<Call<V>>, result: Result<V, Error>)

  function Names<V>(c: Chain<V>): seq<string>
  {
    match c
    case Done => []
    case Tap(name, _, next) => [name] + Names(next)
    case Then(name, _, next) => [name] + Names(next)
  }

  /**
   * Run a chain on a value. The steps are called in chain order, each only
   * after every earlier call succeeded; a chain fails exactly when its last
   * call failed, and one that succeeds has called every step.
   */
  function Execute<V>(c: Chain<V>, v: V): (r: Run<V>)
    ensures |r.calls| <= |Names(c)|
    ensures forall i :: 0 <= i < |r.calls| ==> r.calls[i].name == Names(c)[i]
    ensures forall i :: 0 <= i < |r.calls| - 1 ==> r.calls[i].succeeded
    ensures r.result.Success? ==> |r.calls| == |Names(c)| && forall i :: 0 <= i < |r.calls| ==> r.calls[i].succeeded
    ensures r.result.Failure? ==> |r.calls| >= 1 && !r.calls[|r.calls| - 1].succeeded
    ensures c.Done? ==> r == Run([], Success(v))
  {
    match c
    case Done => Run([], Success(v))
    case Tap(name, check, next) =>
      (match check(v)
       case Fail(e) => Run([Call(name, v, false)], Failure(e))
       case Pass =>
         var rest := Execute(next, v);
         Run([Call(name, v, true)] + rest.calls, rest.result))
    case Then(name, step, next) =>
      (match step(v)
       case Failure(e) => Run([Call(name, v, false)], Failure(e))
       case Success(w) =>
         var rest := Execute(next, w);
         Run([Call(name, v, true)] + rest.calls, rest.result))
  }

  /** What the handler sends: the data, an empty 204, or the error to its handler. */
  datatype Response<V> = Send(data: V) | NoContent | ErrorResponse(kind: ErrorClass, error: Error)

  /** The final `.then(...)` and `.catch(this._handleError)` of a handler. */
  function Respond<V>(r: Run<V>, empty: bool): (resp: Response<V>)
    ensures r.result.Failure? ==> resp == ErrorResponse(HandleError(r.result.error), r.result.error)
    ensures r.result.Success? && empty ==> resp == NoContent
    ensures r.result.Success? && !empty ==> resp == Send(r.result.value)
  {
    match r.result
    case Failure(e) => ErrorResponse(HandleError(e), e)
    case Success(data) => if empty then NoContent else Send(data)
  }

  /** The kind of each step of a chain, in order: "tap" or "then". */
  function Kinds<V>(c: Chain<V>): seq<string>
  {
    match c
    case Done => []
    case Tap(_, _, next) => ["tap"] + Kinds(next)
    case Then(_, _, next) => ["then"] + Kinds(next)
  }

  /** A passing `tap` records its call and hands the same value to the rest of the chain. */
  lemma TapPassed<V>(name: string, check: V -> Outcome<Error>, next: Chain<V>, v: V)
    requires check(v).Pass?
    ensures Execute(Tap(name, check, next), v) ==
            Run([Call(name, v, true)] + Execute(next, v).calls, Execute(next, v).result)
  {
  }

  /** A failing `tap` is the last call, and the chain fails with its error. */
  lemma TapFailed<V>(name: string, check: V -> Outcome<Error>, next: Chain<V>, v: V)
    requires check(v).Fail?
    ensures Execute(Tap(name, check, next), v) == Run([Call(name, v, false)], Failure(check(v).error))
  {
  }

  /** A succeeding `then` records its call and hands its result to the rest of the chain. */
  lemma ThenSucceeded<V>(name: string, step: V -> Result<V, Error>, next: Chain<V>, v: V)
    requires step(v).Success?
    ensures Execute(Then(name, step, next), v) ==
            Run([Call(name, v, true)] + Execute(next, step(v).value).calls, Execute(next, step(v).value).result)
  {
  }

  /** A failing `then` is the last call, and the chain fails with its error. */
  lemma ThenFailed<V>(name: string, step: V -> Result<V, Error>, next: Chain<V>, v: V)
    requires step(v).Failure?
    ensures Execute(Then(name, step, next), v) == Run([Call(name, v, false)], Failure(step(v).error))
  {
  }

  /** The collaborators the `delete` handler calls. */
  datatype DeleteServices<!V> = DeleteServices(
    validateId: V -> Outcome<Error>,
    isRemovable: V -> Outcome<Error>,
    invoiceDelete: V -> Result<V, Error>,
    decrementClientInvoice: V -> Outcome<Error>)

  /** The chain of `delete`: two checks, the deletion, then the renumbering check. */
  function DeleteChain<V>(s: DeleteServices<V>): (c: Chain<V>)
    ensures Names(c) == ["validateId", "isRemovable", "invoiceDelete", "decrementClientInvoice"]
    ensures Kinds(c) == ["tap", "tap", "then", "tap"]
  {
    var c3 := Tap("decrementClientInvoice", s.decrementClientInvoice, Done);
    var c2 := Then("invoiceDelete", s.invoiceDelete, c3);
    var c1 := Tap("isRemovable", s.isRemovable, c2);
    assert Names(c3) == ["decrementClientInvoice"] && Kinds(c3) == ["tap"];
    assert Names(c2) == ["invoiceDelete", "decrementClientInvoice"] && Kinds(c2) == ["then", "tap"];
    assert Names(c1) == ["isRemovable", "invoiceDelete", "decrementClientInvoice"] && Kinds(c1) == ["tap", "then", "tap"];
    Tap("validateId", s.validateId, c1)
  }

  /** `delete`: run on the route parameters; 204 with no body, or the failure to `_handleError`. */
  function Delete<V>(s: DeleteServices<V>, params: V): (resp: Response<V>)
    ensures var r := Execute(DeleteChain(s), params);
      && (r.result.Success? ==> resp == NoContent)
      && (r.result.Failure? ==> resp == ErrorResponse(HandleError(r.result.error), r.result.error))
  {
    Respond(Execute(DeleteChain(s), params), true)
  }

  /**
   * In `delete` both validators are called on the parameters and must pass
   * before `invoiceDelete` is called on them; `decrementClientInvoice` is
   * called, on what `invoiceDelete` returned, only after it succeeded; the
   * handler answers 204 exactly when all four steps succeeded.
   */
  lemma DeleteOrder<V>(s: DeleteServices<V>, params: V)
    ensures var r := Execute(DeleteChain(s), params);
      && r.calls[0] == Call("validateId", params, s.validateId(params).Pass?)
      && (|r.calls| >= 2 <==> s.validateId(params).Pass?)
      && (|r.calls| >= 2 ==> r.calls[1] == Call("isRemovable", params, s.isRemovable(params).Pass?))
      && (|r.calls| >= 3 <==> s.validateId(params).Pass? && s.isRemovable(params).Pass?)
      && (|r.calls| >= 3 ==> r.calls[2] == Call("invoiceDelete", params, s.invoiceDelete(params).Success?))
      && (|r.calls| == 4 <==> |r.calls| >= 3 && s.invoiceDelete(params).Success?)
      && (|r.calls| == 4 ==> r.calls[3] == Call("decrementClientInvoice", s.invoiceDelete(params).value,
                                                s.decrementClientInvoice(s.invoiceDelete(params).value).Pass?))
      && (Delete(s, params).NoContent? <==> |r.calls| == 4 && r.calls[3].succeeded)
  {
    var c3 := Tap("decrementClientInvoice", s.decrementClientInvoice, Done);
    var c2 := Then("invoiceDelete", s.invoiceDelete, c3);
    var c1 := Tap("isRemovable", s.isRemovable, c2);
    if s.validateId(params).Fail? {
      TapFailed("validateId", s.validateId, c1, params);
    } else {
      TapPassed("validateId", s.validateId, c1, params);
      if s.isRemovable(params).Fail? {
        TapFailed("isRemovable", s.isRemovable, c2, params);
      } else {
        TapPassed("isRemovable", s.isRemovable, c2, params);
        if s.invoiceDelete(params).Failure? {
          ThenFailed("invoiceDelete", s.invoiceDelete, c3, params);
        } else {
          ThenSucceeded("invoiceDelete", s.invoiceDelete, c3, params);
          var w := s.invoiceDelete(params).value;
          if s.decrementClientInvoice(w).Fail? {
            TapFailed("decrementClientInvoice", s.decrementClientInvoice, Done, w);
          } else {
            TapPassed("decrementClientInvoice", s.decrementClientInvoice, Done, w);
          }
        }
      }
    }
  }

  /**
   * How `delete` settles: with the error of the first step that fails, or
   * with what `invoiceDelete` returned, passed on by the last `tap`.
   */
  lemma DeleteOutcome<V>(s: DeleteServices<V>, params: V)
    ensures Execute(DeleteChain(s), params).result ==
      if s.validateId(params).Fail? then Failure(s.validateId(params).error)
      else if s.isRemovable(params).Fail? then Failure(s.isRemovable(params).error)
      else if s.invoiceDelete(params).Failure? then Failure(s.invoiceDelete(params).error)
      else if s.decrementClientInvoice(s.invoiceDelete(params).value).Fail? then
        Failure(s.decrementClientInvoice(s.invoiceDelete(params).value).error)
      else Success(s.invoiceDelete(params).value)
  {
    var c3 := Tap("decrementClientInvoice", s.decrementClientInvoice, Done);
    var c2 := Then("invoiceDelete", s.invoiceDelete, c3);
    var c1 := Tap("isRemovable", s.isRemovable, c2);
    if s.validateId(params).Fail? {
      TapFailed("validateId", s.validateId, c1, params);
    } else {
      TapPassed("validateId", s.validateId, c1, params);
      if s.isRemovable(params).Fail? {
        TapFailed("isRemovable", s.isRemovable, c2, params);
      } else {
        TapPassed("isRemovable", s.isRemovable, c2, params);
        if s.invoiceDelete(params).Failure? {
          ThenFailed("invoiceDelete", s.invoiceDelete, c3, params);
        } else {
          ThenSucceeded("invoiceDelete", s.invoiceDelete, c3, params);
          var w := s.invoiceDelete(params).value;
          if s.decrementClientInvoice(w).Fail? {
            TapFailed("decrementClientInvoice", s.decrementClientInvoice, Done, w);
          } else {
            TapPassed("decrementClientInvoice", s.decrementClientInvoice, Done, w);
          }
        }
      }
    }
  }

  /** The collaborators the `invoiceConfirm` handler calls. */
  datatype ConfirmServices<!V> = ConfirmServices(
    validateIdParam: V -> Outcome<Error>,
    confirmParams: V -> Outcome<Error>,
    invoiceConfirm: V -> Result<V, Error>,
    paymentCreate: V -> Outcome<Error>,
    billingAdd: V -> Outcome<Error>,
    billingRefresh: V -> Outcome<Error>,
    dataAndPaymentResponse: V -> Result<V, Error>)

  /** The steps after the confirmation: three checks, then the response adapter. */
  function AfterConfirmChain<V>(s: ConfirmServices<V>): (c: Chain<V>)
    ensures Names(c) == ["paymentService.create", "billingService.add", "billingService.refresh",
                         "invoiceAdapter.dataAndPaymentResponse"]
    ensures Kinds(c) == ["tap", "tap", "tap", "then"]
  {
    var c3 := Then("invoiceAdapter.dataAndPaymentResponse", s.dataAndPaymentResponse, Done);
    var c2 := Tap("billingService.refresh", s.billingRefresh, c3);
    var c1 := Tap("billingService.add", s.billingAdd, c2);
    assert Names(c3) == ["invoiceAdapter.dataAndPaymentResponse"] && Kinds(c3) == ["then"];
    assert Names(c2) == ["billingService.refresh", "invoiceAdapter.dataAndPaymentResponse"] && Kinds(c2) == ["tap", "then"];
    assert Names(c1) == ["billingService.add", "billingService.refresh", "invoiceAdapter.dataAndPaymentResponse"]
        && Kinds(c1) == ["tap", "tap", "then"];
    Tap("paymentService.create", s.paymentCreate, c1)
  }

  /** The chain of `invoiceConfirm`: two checks, the confirmation, then the steps after it. */
  function ConfirmChain<V>(s: ConfirmServices<V>): (c: Chain<V>)
    ensures Names(c) == ["validateIdParam", "confirmParams", "invoiceConfirm"] + Names(AfterConfirmChain(s))
    ensures Kinds(c) == ["tap", "tap", "then"] + Kinds(AfterConfirmChain(s))
  {
    var c2 := Then("invoiceConfirm", s.invoiceConfirm, AfterConfirmChain(s));
    var c1 := Tap("confirmParams", s.confirmParams, c2);
    assert Names(c1) == ["confirmParams"] + (["invoiceConfirm"] + Names(AfterConfirmChain(s)));
    assert Kinds(c1) == ["tap"] + (["then"] + Kinds(AfterConfirmChain(s)));
    Tap("validateIdParam", s.validateIdParam, c1)
  }

  /** `invoiceConfirm`: run on the request; send the adapted data, or the failure to `_handleError`. */
  function InvoiceConfirm<V>(s: ConfirmServices<V>, req: V): (resp: Response<V>)
    ensures var r := Execute(ConfirmChain(s), req);
      && (r.result.Success? ==> resp == Send(r.result.value))
      && (r.result.Failure? ==> resp == ErrorResponse(HandleError(r.result.error), r.result.error))
  {
    Respond(Execute(ConfirmChain(s), req), false)
  }

  /**
   * The `tap` steps after the confirmation all see the confirmed invoice:
   * each passes the value on unchanged, so the adapter is called on it too.
   * Billing add runs only once payment creation passed, billing refresh only
   * once both passed, and the adapter only once all three passed. The chain
   * settles with the error of the first failing step, or with the adapter's
   * result.
   */
  lemma AfterConfirmInputs<V>(s: ConfirmServices<V>, inv: V)
    ensures var r := Execute(AfterConfirmChain(s), inv);
      forall i :: 0 <= i < |r.calls| ==> r.calls[i].input == inv
    ensures var r := Execute(AfterConfirmChain(s), inv);
      && r.calls[0].succeeded == s.paymentCreate(inv).Pass?
      && (|r.calls| >= 2 <==> s.paymentCreate(inv).Pass?)
      && (|r.calls| >= 2 ==> r.calls[1].succeeded == s.billingAdd(inv).Pass?)
      && (|r.calls| >= 3 <==> s.paymentCreate(inv).Pass? && s.billingAdd(inv).Pass?)
      && (|r.calls| >= 3 ==> r.calls[2].succeeded == s.billingRefresh(inv).Pass?)
      && (|r.calls| == 4 <==> s.paymentCreate(inv).Pass? && s.billingAdd(inv).Pass? && s.billingRefresh(inv).Pass?)
      && (|r.calls| == 4 ==> r.calls[3].succeeded == s.dataAndPaymentResponse(inv).Success?)
    ensures Execute(AfterConfirmChain(s), inv).result ==
      if s.paymentCreate(inv).Fail? then Failure(s.paymentCreate(inv).error)
      else if s.billingAdd(inv).Fail? then Failure(s.billingAdd(inv).error)
      else if s.billingRefresh(inv).Fail? then Failure(s.billingRefresh(inv).error)
      else s.dataAndPaymentResponse(inv)
  {
    var c3 := Then("invoiceAdapter.dataAndPaymentResponse", s.dataAndPaymentResponse, Done);
    var c2 := Tap("billingService.refresh", s.billingRefresh, c3);
    var c1 := Tap("billingService.add", s.billingAdd, c2);
    if s.paymentCreate(inv).Fail? {
      TapFailed("paymentService.create", s.paymentCreate, c1, inv);
    } else {
      TapPassed("paymentService.create", s.paymentCreate, c1, inv);
      if s.billingAdd(inv).Fail? {
        TapFailed("billingService.add", s.billingAdd, c2, inv);
      } else {
        TapPassed("billingService.add", s.billingAdd, c2, inv);
        if s.billingRefresh(inv).Fail? {
          TapFailed("billingService.refresh", s.billingRefresh, c3, inv);
        } else {
          TapPassed("billingService.refresh", s.billingRefresh, c3, inv);
          if s.dataAndPaymentResponse(inv).Failure? {
            ThenFailed("invoiceAdapter.dataAndPaymentResponse", s.dataAndPaymentResponse, Done, inv);
          } else {
            ThenSucceeded("invoiceAdapter.dataAndPaymentResponse", s.dataAndPaymentResponse, Done, inv);
          }
        }
      }
    }
  }

  /**
   * In `invoiceConfirm` both validators must pass on the request before the
   * confirmation is called on it; a failing validator or confirmation
   * settles the chain with its own error.
   */
  lemma InvoiceConfirmValidatesFirst<V>(s: ConfirmServices<V>, req: V)
    ensures var r := Execute(ConfirmChain(s), req);
      && r.calls[0] == Call("validateIdParam", req, s.validateIdParam(req).Pass?)
      && (|r.calls| >= 2 <==> s.validateIdParam(req).Pass?)
      && (|r.calls| >= 2 ==> r.calls[1] == Call("confirmParams", req, s.confirmParams(req).Pass?))
      && (|r.calls| >= 3 <==> s.validateIdParam(req).Pass? && s.confirmParams(req).Pass?)
      && (|r.calls| >= 3 ==> r.calls[2] == Call("invoiceConfirm", req, s.invoiceConfirm(req).Success?))
      && (s.validateIdParam(req).Fail? ==> r.result == Failure(s.validateIdParam(req).error))
      && (s.validateIdParam(req).Pass? && s.confirmParams(req).Fail? ==> r.result == Failure(s.confirmParams(req).error))
      && (s.validateIdParam(req).Pass? && s.confirmParams(req).Pass? && s.invoiceConfirm(req).Failure? ==>
            r.result == Failure(s.invoiceConfirm(req).error))
  {
    var c2 := Then("invoiceConfirm", s.invoiceConfirm, AfterConfirmChain(s));
    var c1 := Tap("confirmParams", s.confirmParams, c2);
    if s.validateIdParam(req).Fail? {
      TapFailed("validateIdParam", s.validateIdParam, c1, req);
    } else {
      TapPassed("validateIdParam", s.validateIdParam, c1, req);
      if s.confirmParams(req).Fail? {
        TapFailed("confirmParams", s.confirmParams, c2, req);
      } else {
        TapPassed("confirmParams", s.confirmParams, c2, req);
        if s.invoiceConfirm(req).Failure? {
          ThenFailed("invoiceConfirm", s.invoiceConfirm, AfterConfirmChain(s), req);
        } else {
          ThenSucceeded("invoiceConfirm", s.invoiceConfirm, AfterConfirmChain(s), req);
        }
      }
    }
  }

  /**
   * The steps after the confirmation run only once it succeeded, on the
   * invoice it returned, in the order payment creation, billing add, billing
   * refresh, response adapter; their outcome is the handler's outcome.
   */
  lemma InvoiceConfirmThenFansOut<V>(s: ConfirmServices<V>, req: V)
    requires s.validateIdParam(req).Pass? && s.confirmParams(req).Pass?
    ensures var r := Execute(ConfirmChain(s), req);
      && (|r.calls| >= 4 <==> s.invoiceConfirm(req).Success?)
      && (s.invoiceConfirm(req).Success? ==>
            && r.calls[3..] == Execute(AfterConfirmChain(s), s.invoiceConfirm(req).value).calls
            && r.result == Execute(AfterConfirmChain(s), s.invoiceConfirm(req).value).result)
  {
    var after := AfterConfirmChain(s);
    var c2 := Then("invoiceConfirm", s.invoiceConfirm, after);
    var c1 := Tap("confirmParams", s.confirmParams, c2);
    TapPassed("validateIdParam", s.validateIdParam, c1, req);
    TapPassed("confirmParams", s.confirmParams, c2, req);
    if s.invoiceConfirm(req).Success? {
      ThenSucceeded("invoiceConfirm", s.invoiceConfirm, after, req);
      assert Execute(ConfirmChain(s), req).calls ==
        [Call("validateIdParam", req, true), Call("confirmParams", req, true), Call("invoiceConfirm", req, true)]
        + Execute(after, s.invoiceConfirm(req).value).calls;
    }
  }

  /** The collaborators the `swap` handler calls. */
  datatype SwapServices<!V> = SwapServices(validateTwoIds: V -> Outcome<Error>, swap: V -> Result<V, Error>)

  /** The chain of `swap`: the id check, then the swap service. */
  function SwapChain<V>(s: SwapServices<V>): (c: Chain<V>)
    ensures Names(c) == ["validateTwoIds", "invoiceService.swap"]
    ensures Kinds(c) == ["tap", "then"]
  {
    var c1 := Then("invoiceService.swap", s.swap, Done);
    assert Names(c1) == ["invoiceService.swap"] && Kinds(c1) == ["then"];
    Tap("validateTwoIds", s.validateTwoIds, c1)
  }

  /**
   * In `swap` the service is called, on the route parameters, exactly when
   * `validateTwoIds` passed on them; the chain settles with the validator's
   * error or with the service's result.
   */
  lemma SwapOrder<V>(s: SwapServices<V>, params: V)
    ensures var r := Execute(SwapChain(s), params);
      && r.calls[0] == Call("validateTwoIds", params, s.validateTwoIds(params).Pass?)
      && (|r.calls| == 2 <==> s.validateTwoIds(params).Pass?)
      && (|r.calls| == 2 ==> r.calls[1] == Call("invoiceService.swap", params, s.swap(params).Success?))
      && r.result == if s.validateTwoIds(params).Fail? then Failure(s.validateTwoIds(params).error) else s.swap(params)
  {
    var c1 := Then("invoiceService.swap", s.swap, Done);
    if s.validateTwoIds(params).Fail? {
      TapFailed("validateTwoIds", s.validateTwoIds, c1, params);
    } else {
      TapPassed("validateTwoIds", s.validateTwoIds, c1, params);
      if s.swap(params).Failure? {
        ThenFailed("invoiceService.swap", s.swap, Done, params);
      } else {
        ThenSucceeded("invoiceService.swap", s.swap, Done, params);
      }
    }
  }

  /** `swap`: an empty 204 once both steps succeeded, otherwise the failure to `_handleError`. */
  function Swap<V>(s: SwapServices<V>, params: V): (resp: Response<V>)
    ensures resp.NoContent? <==> s.validateTwoIds(params).Pass? && s.swap(params).Success?
    ensures s.validateTwoIds(params).Fail? ==>
      resp == ErrorResponse(HandleError(s.validateTwoIds(params).error), s.validateTwoIds(params).error)
    ensures s.validateTwoIds(params).Pass? && s.swap(params).Failure? ==>
      resp == ErrorResponse(HandleError(s.swap(params).error), s.swap(params).error)
  {
    SwapOrder(s, params);
    Respond(Execute(SwapChain(s), params), true)
  }
}
