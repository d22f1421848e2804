/**
 The `POST /api/bity/createOrder` handler: it validates the request body,
 authenticates with the fiat provider, asks it to create the order, and maps
 the outcome to an HTTP status and payload. Authentication and order
 creation are the provider's, so their outcomes are parameters.
 */
module CreateOrderHandler {
  import opened JsSemantics

  /** The parsed request body; each of its three fields may be missing. */
  datatype RequestBody = RequestBody(tradeRequest: Option<Json>, bankInfo: Option<Json>, ethInfo: Option<Json>)

  /** The error the provider's client throws; `orderError` marks a rejected order. */
  datatype ServiceError = ServiceError(message: Option<Json>, orderError: Option<Json>, errors: Option<Json>)

  datatype OrderOutcome = Created(order: Json) | Failed(error: ServiceError)

  datatype AuthOutcome = Authorized | AuthFailed

  datatype ResponseBody = Text(text: string) | JsonBody(json: Json)

  /** A response, or an error that escapes the handler (authentication is outside its `try`). */
  datatype HandlerResult = Reply(status: int, body: ResponseBody) | Unhandled

  const NoBody := Reply(400, Text("no body"))
  const WrongBody := Reply(400, Text("wrong body"))
  const ServerError := Reply(500, Text("Unexpected server error"))

  /** The body names all three parts of an order. */
  predicate WellFormed(body: RequestBody)
  {
    JsonTruthy(body.tradeRequest) && JsonTruthy(body.bankInfo) && JsonTruthy(body.ethInfo)
  }

  /**
   The object sent back for a rejected order: `message`, `_orderError` and
   `errors` copied from the error; as in `JSON.stringify`, an undefined field
   is left out.
   */
  function ErrorPayload(e: ServiceError): (j: Json)
    ensures j.JObj? && |j.fields| <= 3
    ensures e.orderError.Some? ==> ("_orderError", e.orderError.value) in j.fields
    ensures e.message.Some? ==> ("message", e.message.value) in j.fields
    ensures e.errors.Some? ==> ("errors", e.errors.value) in j.fields
    ensures forall f :: f in j.fields ==>
              || (f.0 == "message" && e.message == Some(f.1))
              || (f.0 == "_orderError" && e.orderError == Some(f.1))
              || (f.0 == "errors" && e.errors == Some(f.1))
    ensures forall i, k :: 0 <= i < k < |j.fields| ==> j.fields[i].0 != j.fields[k].0
  {
    JObj(DefinedField("message", e.message)
         + DefinedField("_orderError", e.orderError)
         + DefinedField("errors", e.errors))
  }

  function DefinedField(key: string, value: Option<Json>): seq<(string, Json)>
  {
    match value
    case None => []
    case Some(v) => [(key, v)]
  }

  /**
   The handler. `createOrder` stands for the provider's order creation on the
   three body parts; it is consulted only for a well-formed body.
   */
  function Handle(
    body: Option<RequestBody>,
    auth: AuthOutcome,
    createOrder: (Json, Json, Json) -> OrderOutcome): (r: HandlerResult)
    ensures body.None? ==> r == NoBody
    ensures body.Some? && !WellFormed(body.value) ==> r == WrongBody
    ensures r.Reply? && r.status == 200 <==>
              body.Some? && WellFormed(body.value) && auth.Authorized?
              && createOrder(body.value.tradeRequest.value, body.value.bankInfo.value, body.value.ethInfo.value).Created?
    ensures r.Reply? && r.status == 200 ==>
              r.body == JsonBody(createOrder(body.value.tradeRequest.value, body.value.bankInfo.value, body.value.ethInfo.value).order)
    ensures r.Unhandled? <==> body.Some? && WellFormed(body.value) && auth.AuthFailed?
    ensures r.Reply? ==> r.status == 200 || r.status == 400 || r.status == 500
  {
    match body
    case None => NoBody
    case Some(b) =>
      if !WellFormed(b) then WrongBody
      else if auth.AuthFailed? then Unhandled
      else
        var outcome := createOrder(b.tradeRequest.value, b.bankInfo.value, b.ethInfo.value);
        match outcome
        case Created(order) => Reply(200, JsonBody(order))
        case Failed(e) =>
          if JsonTruthy(e.orderError) then Reply(400, JsonBody(ErrorPayload(e)))
          else ServerError
  }

  /**
   A failed order creation is answered 400 with the error's payload when the
   provider marked it as an order error, and 500 with a generic text otherwise.
   */
  lemma FailureClassification(
    b: RequestBody,
    createOrder: (Json, Json, Json) -> OrderOutcome)
    requires WellFormed(b)
    requires createOrder(b.tradeRequest.value, b.bankInfo.value, b.ethInfo.value).Failed?
    ensures var e := createOrder(b.tradeRequest.value, b.bankInfo.value, b.ethInfo.value).error;
            var r := Handle(Some(b), Authorized, createOrder);
            && (JsonTruthy(e.orderError) ==> r == Reply(400, JsonBody(ErrorPayload(e))))
            && (!JsonTruthy(e.orderError) ==> r == ServerError)
            && (r.Reply? && r.status == 400 <==> JsonTruthy(e.orderError))
  {
  }

  /**
   Validation happens before the provider is contacted: for a missing or
   malformed body the answer does not depend on authentication or on what
   order creation would do.
   */
  lemma ValidationPrecedesService(
    body: Option<RequestBody>,
    auth1: AuthOutcome,
    auth2: AuthOutcome,
    create1: (Json, Json, Json) -> OrderOutcome,
    create2: (Json, Json, Json) -> OrderOutcome)
    requires body.None? || !WellFormed(body.value)
    ensures Handle(body, auth1, create1) == Handle(body, auth2, create2)
    ensures Handle(body, auth1, create1).Reply? && Handle(body, auth1, create1).status == 400
  {
  }
}
