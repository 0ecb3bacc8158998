/** PaystackController: the three ways a payment is confirmed (the browser
    callback, the client's verify request and the provider's webhook), the
    initialize request that writes the unpaid record, and the redirect to
    the result page. The payment store and the order state machine are the
    controller's two pieces of state. */
module Controller {
  import opened Php
  import opened Model
  import opened Service

  datatype Route = PaymentSuccess | PaymentFail

  /** The one flash message a redirect carries. */
  datatype Flash = Flash(key: string, message: string)

  datatype Redirect = Redirect(route: Route, params: map<string, string>, flash: Flash)

  /** A response message: literal text, or a key of the plugin's language file. */
  datatype Message = Text(text: string) | Trans(key: string)

  /** `json_success(...)` has `success` true, `json_fail(...)` false. */
  datatype Json = Json(success: bool, message: Message, data: map<string, string>)

  /** What a JSON route action ends with: its JSON answer, or an `Error`
      that no `catch (\Exception)` of the action catches. */
  datatype Reply = Answer(json: Json) | Uncaught(message: string)

  /** What `redirectToPaymentResult(orderNumber, error)` returns: the fail
      page with the error as flash when the error is non-empty, the success
      page with "Payment successful" otherwise, and the order number as its
      one parameter only when that is non-empty. */
  predicate IsResultPage(r: Redirect, orderNumber: Option<string>, error: Option<string>) {
    var failed := error.Some? && Truthy(error.value);
    && (r.route == PaymentFail <==> failed)
    && r.flash == (if failed then Flash("error", error.value) else Flash("success", "Payment successful"))
    && r.params.Keys <= {"order_number"}
    && ("order_number" in r.params <==> orderNumber.Some? && Truthy(orderNumber.value))
    && ("order_number" in r.params ==> r.params["order_number"] == orderNumber.value)
  }

  /** The order number the callback reads out of a reference: the second
      `_`-separated piece, or nothing when there is no `_`. */
  function ReferenceOrderNumber(reference: string): (r: Option<string>)
    ensures r.Some? <==> '_' in reference
    ensures r.Some? ==> '_' !in r.value
  {
    var parts := Explode('_', reference);
    if |parts| < 2 then None else Some(parts[1])
  }

  /** The callback reads back the order number a generated reference was
      built from exactly when that number holds no `_`. */
  lemma ReferenceRoundTrip(number: string, now: nat)
    ensures ReferenceOrderNumber(TransactionReference(number, now)).Some?
    ensures ReferenceOrderNumber(TransactionReference(number, now)) == Some(number) <==> '_' !in number
  {
    var reference := TransactionReference(number, now);
    assert reference[5] == '_';
    if '_' !in number {
      ReferencePieces(number, now);
    }
  }

  /** The amount check of every confirmation: a `data.amount` that is absent
      counts as 0 and must equal the expected sub-unit amount exactly. */
  predicate AmountMatches(data: ChargeData, expected: int) {
    data.amount.GetOr(0) == expected
  }

  /** A verify response that lets the callback and verify write the paid
      record: `status` true, `data.status` "success", the expected amount,
      and a `data.reference` key, which both read without a default. A
      `reference` present as `null` passes and is written as a null
      `charge_id`. */
  predicate Confirms(v: VerifyResponse, expected: int) {
    && v.status == Value(true)
    && v.data.status == Value("success")
    && AmountMatches(v.data, expected)
    && !v.data.reference.Absent?
  }

  /** The record every passing confirmation writes. */
  function PaidRecord(order: Order, data: ChargeData): PaymentRecord {
    PaymentRecord(order.total, true, EncodedData(data), data.reference.OrNull())
  }

  /** The two writes of a passing confirmation: the paid record first, then
      the PAID transition, which is logged unless the state machine throws. */
  predicate ConfirmedWrites(
    order: Order, data: ChargeData, env: Env,
    payments0: map<int, PaymentRecord>, log0: seq<int>,
    payments1: map<int, PaymentRecord>, log1: seq<int>)
  {
    && payments1 == payments0[order.id := PaidRecord(order, data)]
    && log1 == log0 + (if env.changeStatusError(order).None? then [order.id] else [])
  }

  /** A second passing confirmation of the same payment leaves the record as
      the first one wrote it but fires PAID once more: nothing makes the
      confirmation idempotent. */
  lemma ConfirmingTwice(
    order: Order, data: ChargeData, env: Env,
    payments0: map<int, PaymentRecord>, log0: seq<int>,
    payments1: map<int, PaymentRecord>, log1: seq<int>,
    payments2: map<int, PaymentRecord>, log2: seq<int>)
    requires ConfirmedWrites(order, data, env, payments0, log0, payments1, log1)
    requires ConfirmedWrites(order, data, env, payments1, log1, payments2, log2)
    requires env.changeStatusError(order).None?
    ensures payments2 == payments1 && payments2[order.id].paid
    ensures log2 == log0 + [order.id, order.id]
  {
  }

  // ---- browser callback ----

  /** The callback's reference: `reference`, or `trxref` when `reference` is absent. */
  function CallbackReference(query: map<string, string>): (r: Option<string>)
    ensures r.Some? <==> "reference" in query || "trxref" in query
    ensures "reference" in query ==> r == Some(query["reference"])
    ensures "reference" !in query && "trxref" in query ==> r == Some(query["trxref"])
  {
    Coalesce(Lookup(query, "reference"), Lookup(query, "trxref"))
  }

  /** The callback has a non-empty reference with an order number in it. */
  predicate CallbackParsed(query: map<string, string>) {
    var reference := CallbackReference(query);
    reference.Some? && Truthy(reference.value) && ReferenceOrderNumber(reference.value).Some?
  }

  function CallbackOrderNumber(query: map<string, string>): string
    requires CallbackParsed(query)
  {
    ReferenceOrderNumber(CallbackReference(query).value).value
  }

  predicate CallbackFindsOrder(query: map<string, string>, env: Env) {
    CallbackParsed(query) && CallbackOrderNumber(query) in env.orders
  }

  function CallbackOrder(query: map<string, string>, env: Env): Order
    requires CallbackFindsOrder(query, env)
  {
    env.orders[CallbackOrderNumber(query)]
  }

  /** The provider's answer about the callback's reference. */
  function CallbackVerification(query: map<string, string>, env: Env): Http<VerifyResponse>
    requires CallbackParsed(query) && !IsEmpty(env.secretKey)
  {
    env.verifyApi(env.secretKey.value, CallbackReference(query).value)
  }

  /** Every guard of the callback passes. */
  predicate CallbackAccepts(query: map<string, string>, env: Env) {
    && CallbackFindsOrder(query, env)
    && !IsEmpty(env.secretKey)
    && CallbackVerification(query, env).Successful?
    && Confirms(CallbackVerification(query, env).json, env.subunit(CallbackOrder(query, env)))
  }

  /** The page the callback redirects to, with its message, on each path. */
  predicate CallbackPage(query: map<string, string>, env: Env, r: Redirect) {
    var reference := CallbackReference(query);
    if reference.None? || !Truthy(reference.value) then
      IsResultPage(r, None, Some("Invalid reference"))
    else if ReferenceOrderNumber(reference.value).None? then
      IsResultPage(r, None, Some("Invalid reference format"))
    else
      var number := ReferenceOrderNumber(reference.value).value;
      if number !in env.orders then
        IsResultPage(r, None, Some("Order not found"))
      else if env.secretKey.None? then
        IsResultPage(r, Some(number), Some(NullToStringProperty(ServiceClass, "secretKey")))
      else if !Truthy(env.secretKey.value) then
        IsResultPage(r, Some(number), Some("Invalid Paystack secret key"))
      else
        var http := env.verifyApi(env.secretKey.value, reference.value);
        if http.Failed? then
          IsResultPage(r, Some(number), Some(http.message))
        else if http.Unsuccessful? then
          IsResultPage(r, Some(number), Some("Failed to verify payment: " + http.body))
        else if http.json.status != Value(true) then
          IsResultPage(r, Some(number), Some("Payment verification failed"))
        else if http.json.data.status != Value("success") then
          IsResultPage(r, Some(number), Some("Payment status: " + http.json.data.status.OrNull().GetOr("")))
        else if !AmountMatches(http.json.data, env.subunit(env.orders[number])) then
          IsResultPage(r, Some(number), Some("Payment amount verification failed"))
        else if http.json.data.reference.Absent? then
          IsResultPage(r, Some(number), Some(UndefinedKey("reference")))
        else
          IsResultPage(r, Some(number), env.changeStatusError(env.orders[number]))
  }

  /** The callback lands on the success page exactly when every guard passed
      and the PAID transition threw nothing with a truthy message, or when
      the call to the provider never got a response and the exception's
      message is falsy (then nothing is written); every other path goes to
      the fail page. */
  lemma CallbackSucceedsOnlyWhenAccepted(query: map<string, string>, env: Env, r: Redirect)
    requires CallbackPage(query, env, r)
    ensures r.route == PaymentSuccess <==>
      || (CallbackAccepts(query, env) && IsEmpty(env.changeStatusError(CallbackOrder(query, env))))
      || (&& CallbackFindsOrder(query, env) && !IsEmpty(env.secretKey)
          && CallbackVerification(query, env).Failed?
          && !Truthy(CallbackVerification(query, env).message))
  {
  }

  /** A reference generated for an order, returned under either query key,
      leads the callback to that very order, when its number holds no `_`. */
  lemma CallbackFindsStartedOrder(order: Order, now: nat, env: Env, key: string)
    requires key == "reference" || key == "trxref"
    requires order.number in env.orders && env.orders[order.number] == order
    requires '_' !in order.number
    ensures var query := map[key := TransactionReference(order.number, now)];
      CallbackFindsOrder(query, env) && CallbackOrder(query, env) == order
  {
    var query := map[key := TransactionReference(order.number, now)];
    ReferenceRoundTrip(order.number, now);
    assert |TransactionReference(order.number, now)| > 1;
    assert CallbackReference(query) == Some(TransactionReference(order.number, now));
  }

  // ---- client verify ----

  predicate VerifyFindsOrder(reference: Option<string>, orderNumber: Option<string>, env: Env) {
    && reference.Some? && Truthy(reference.value)
    && orderNumber.Some? && Truthy(orderNumber.value)
    && orderNumber.value in env.orders
  }

  /** Every guard of verify passes. */
  predicate VerifyAccepts(reference: Option<string>, orderNumber: Option<string>, env: Env) {
    && VerifyFindsOrder(reference, orderNumber, env)
    && !IsEmpty(env.secretKey)
    && var http := env.verifyApi(env.secretKey.value, reference.value);
    && http.Successful?
    && Confirms(http.json, env.subunit(env.orders[orderNumber.value]))
  }

  /** What verify answers with on each path. */
  function VerifyReply(reference: Option<string>, orderNumber: Option<string>, env: Env): Reply {
    if reference.None? || !Truthy(reference.value) || orderNumber.None? || !Truthy(orderNumber.value) then
      Answer(Json(false, Trans("verify_fail"), map[]))
    else if orderNumber.value !in env.orders then
      Answer(Json(false, Trans("order_not_found"), map[]))
    else if env.secretKey.None? then
      Uncaught(NullToStringProperty(ServiceClass, "secretKey"))
    else if !Truthy(env.secretKey.value) then
      Answer(Json(false, Text("Invalid Paystack secret key"), map[]))
    else
      var order := env.orders[orderNumber.value];
      var http := env.verifyApi(env.secretKey.value, reference.value);
      if http.Failed? then
        Answer(Json(false, Text(http.message), map[]))
      else if http.Unsuccessful? then
        Answer(Json(false, Text("Failed to verify payment: " + http.body), map[]))
      else if http.json.status.Absent? then
        Answer(Json(false, Text(UndefinedKey("status")), map[]))
      else if http.json.status != Value(true) then
        Answer(Json(false, Trans("verify_fail"), map[]))
      else if http.json.data.status.Absent? then
        Answer(Json(false, Text(UndefinedKey("status")), map[]))
      else if http.json.data.status != Value("success") || !AmountMatches(http.json.data, env.subunit(order)) then
        Answer(Json(false, Trans("verify_fail"), map[]))
      else if http.json.data.reference.Absent? then
        Answer(Json(false, Text(UndefinedKey("reference")), map[]))
      else if env.changeStatusError(order).Some? then
        Answer(Json(false, Text(env.changeStatusError(order).value), map[]))
      else
        Answer(Json(true, Trans("payment_success"), map[]))
  }

  /** Verify answers with success exactly when every guard passed and the
      PAID transition did not throw; every other path is an error answer
      or an uncaught error. */
  lemma VerifySucceedsOnlyWhenAccepted(reference: Option<string>, orderNumber: Option<string>, env: Env)
    ensures VerifyReply(reference, orderNumber, env).Answer? && VerifyReply(reference, orderNumber, env).json.success
      <==> VerifyAccepts(reference, orderNumber, env) && env.changeStatusError(env.orders[orderNumber.value]).None?
  {
  }

  /** Verify checks the reference only with the provider: a successful
      transaction whose reference names one order confirms another order of
      the same sub-unit amount. */
  lemma VerifyAcceptsForeignReference(env: Env, paid: Order, other: Order, now: nat)
    requires '_' !in paid.number && paid.number != other.number
    requires other.number in env.orders && Truthy(other.number)
    requires !IsEmpty(env.secretKey)
    requires var http := env.verifyApi(env.secretKey.value, TransactionReference(paid.number, now));
      http.Successful? && Confirms(http.json, env.subunit(env.orders[other.number]))
    ensures ReferenceOrderNumber(TransactionReference(paid.number, now)) == Some(paid.number)
    ensures VerifyAccepts(Some(TransactionReference(paid.number, now)), Some(other.number), env)
  {
    ReferenceRoundTrip(paid.number, now);
    assert |TransactionReference(paid.number, now)| > 1;
  }

  // ---- webhook ----

  /** Both the secret key and the signature are non-empty and the signature
      is the HMAC-SHA512 of the raw body under the secret key. */
  predicate WebhookAuthentic(request: WebhookRequest, env: Env) {
    && !IsEmpty(env.secretKey)
    && !IsEmpty(request.signature)
    && env.hmacSha512(request.body, env.secretKey.value) == request.signature.value
  }

  function WebhookEvent(request: WebhookRequest, env: Env): Envelope {
    env.decodeJson(request.body)
  }

  /** An authentic `charge.success` event naming a known order in its metadata. */
  predicate WebhookFindsOrder(request: WebhookRequest, env: Env) {
    var event := WebhookEvent(request, env);
    && WebhookAuthentic(request, env)
    && event.event.GetOr("") == "charge.success"
    && event.data.orderNumber.Some?
    && event.data.orderNumber.value in env.orders
  }

  function WebhookOrder(request: WebhookRequest, env: Env): Order
    requires WebhookFindsOrder(request, env)
  {
    env.orders[WebhookEvent(request, env).data.orderNumber.value]
  }

  /** Every guard of the webhook passes. */
  predicate WebhookAccepts(request: WebhookRequest, env: Env) {
    && WebhookFindsOrder(request, env)
    && AmountMatches(WebhookEvent(request, env).data, env.subunit(WebhookOrder(request, env)))
  }

  /** The acknowledgement the webhook sends on each path, guard by guard. */
  function WebhookReply(request: WebhookRequest, env: Env): Json {
    if IsEmpty(env.secretKey) || IsEmpty(request.signature) then
      Json(true, Text("Event received"), map[])
    else if env.hmacSha512(request.body, env.secretKey.value) != request.signature.value then
      Json(true, Text("Event received"), map[])
    else
      var requestData := env.decodeJson(request.body);
      var data := requestData.data;
      if requestData.event.GetOr("") != "charge.success" || data.orderNumber.None? then
        Json(true, Text("Event received"), map[])
      else if data.orderNumber.value !in env.orders then
        Json(true, Text("Event received"), map[])
      else
        var order := env.orders[data.orderNumber.value];
        if !AmountMatches(data, env.subunit(order)) then
          Json(true, Text("Event received"), map[])
        else if env.changeStatusError(order).Some? then
          Json(true, Text("Error processed"), map[])
        else
          Json(true, Trans("payment_success"), map[])
  }

  /** The webhook reports the payment as processed exactly when every guard
      passed and the PAID transition did not throw. */
  lemma WebhookProcessesOnlyWhenAccepted(request: WebhookRequest, env: Env)
    ensures WebhookReply(request, env).message == Trans("payment_success")
      <==> WebhookAccepts(request, env) && env.changeStatusError(WebhookOrder(request, env)).None?
  {
  }

  /** An authentic `charge.success` event whose metadata is the one sent
      when the payment started leads the webhook to that very order. */
  lemma WebhookFindsStartedOrder(order: Order, now: nat, request: WebhookRequest, env: Env)
    requires order.number in env.orders && env.orders[order.number] == order
    requires WebhookAuthentic(request, env)
    requires WebhookEvent(request, env).event == Some("charge.success")
    requires WebhookEvent(request, env).data.orderNumber == Some(InitRequestFor(order, now).metadata.orderNumber)
    ensures WebhookFindsOrder(request, env) && WebhookOrder(request, env) == order
  {
  }

  // ---- initialize ----

  /** The query builder's match: the requested number, owned by the current customer. */
  predicate InitializeFindsOrder(orderNumber: Option<string>, env: Env) {
    && orderNumber.Some?
    && orderNumber.value in env.orders
    && env.orders[orderNumber.value].customerId == env.customerId
  }

  function InitializeCall(orderNumber: Option<string>, now: nat, env: Env): Http<InitResponse>
    requires InitializeFindsOrder(orderNumber, env) && !IsEmpty(env.secretKey)
  {
    env.initApi(env.secretKey.value, InitRequestFor(env.orders[orderNumber.value], now))
  }

  predicate InitializeAccepts(orderNumber: Option<string>, now: nat, env: Env) {
    && InitializeFindsOrder(orderNumber, env)
    && !IsEmpty(env.secretKey)
    && InitializeCall(orderNumber, now, env).Successful?
    && InitializeCall(orderNumber, now, env).json.status
  }

  /** What initialize answers with on each path. */
  function InitializeReply(orderNumber: Option<string>, now: nat, env: Env): Reply {
    if !InitializeFindsOrder(orderNumber, env) then
      Answer(Json(false, Trans("order_not_found"), map[]))
    else if env.secretKey.None? then
      Uncaught(NullToStringProperty(ServiceClass, "secretKey"))
    else if !Truthy(env.secretKey.value) then
      Answer(Json(false, Text("Invalid Paystack secret key"), map[]))
    else
      var http := InitializeCall(orderNumber, now, env);
      if http.Failed? then
        Answer(Json(false, Text(http.message), map[]))
      else if http.Unsuccessful? then
        Answer(Json(false, Text("Failed to initialize payment: " + http.body), map[]))
      else if !http.json.status then
        Answer(Json(false, Trans("initialize_fail"), map[]))
      else
        Answer(Json(true, Trans("initialize_success"),
          map["authorization_url" := http.json.data.authorizationUrl,
              "reference" := http.json.data.reference]))
  }

  /** Initialize answers with success exactly when every guard passed;
      its success answer hands over the provider's URL and reference. */
  lemma InitializeSucceedsOnlyWhenAccepted(orderNumber: Option<string>, now: nat, env: Env)
    ensures InitializeReply(orderNumber, now, env).Answer? && InitializeReply(orderNumber, now, env).json.success
      <==> InitializeAccepts(orderNumber, now, env)
    ensures InitializeAccepts(orderNumber, now, env) ==>
      InitializeReply(orderNumber, now, env).json.data["reference"] == InitializeCall(orderNumber, now, env).json.data.reference
  {
  }

  class PaystackController {
    /** The payment store, one record per order id (createOrUpdatePayment). */
    var payments: map<int, PaymentRecord>
    /** The order ids sent through the PAID transition, in order. */
    var paidLog: seq<int>

    constructor (payments: map<int, PaymentRecord>, paidLog: seq<int>)
      ensures this.payments == payments && this.paidLog == paidLog
    {
      this.payments := payments;
      this.paidLog := paidLog;
    }

    /** Writes the paid record, then fires PAID; returns the state machine's
        exception message when it throws. */
    method RecordPaid(order: Order, data: ChargeData, env: Env) returns (error: Option<string>)
      modifies this
      ensures ConfirmedWrites(order, data, env, old(payments), old(paidLog), payments, paidLog)
      ensures error == env.changeStatusError(order)
    {
      payments := payments[order.id := PaidRecord(order, data)];
      error := env.changeStatusError(order);
      if error.None? {
        paidLog := paidLog + [order.id];
      }
    }

    /** `redirectToPaymentResult($orderNumber, $error)`. */
    static method RedirectToPaymentResult(orderNumber: Option<string>, error: Option<string>)
      returns (r: Redirect)
      ensures IsResultPage(r, orderNumber, error)
    {
      var params: map<string, string> := map[];
      if orderNumber.Some? && Truthy(orderNumber.value) {
        params := params["order_number" := orderNumber.value];
      }
      if error.Some? && Truthy(error.value) {
        r := Redirect(PaymentFail, params, Flash("error", error.value));
      } else {
        r := Redirect(PaymentSuccess, params, Flash("success", "Payment successful"));
      }
    }

    /** `handlePaystackCallback`: the browser's return from the payment page. */
    method HandlePaystackCallback(query: map<string, string>, env: Env) returns (r: Redirect)
      modifies this
      ensures CallbackPage(query, env, r)
      ensures !CallbackAccepts(query, env) ==> payments == old(payments) && paidLog == old(paidLog)
      ensures CallbackAccepts(query, env) ==>
        ConfirmedWrites(CallbackOrder(query, env), CallbackVerification(query, env).json.data, env,
          old(payments), old(paidLog), payments, paidLog)
    {
      var reference := CallbackReference(query);
      if reference.None? || !Truthy(reference.value) {
        r := RedirectToPaymentResult(None, Some("Invalid reference"));
        return;
      }
      var parts := Explode('_', reference.value);
      if |parts| < 2 {
        r := RedirectToPaymentResult(None, Some("Invalid reference format"));
        return;
      }
      var orderNumber := parts[1];
      if orderNumber !in env.orders {
        r := RedirectToPaymentResult(None, Some("Order not found"));
        return;
      }
      var order := env.orders[orderNumber];
      var service := PaystackService.Create(order, env.secretKey);
      if !service.Built? {
        r := RedirectToPaymentResult(Some(orderNumber), Some(service.message));
        return;
      }
      var response := service.service.VerifyTransaction(reference.value, env.verifyApi);
      if response.Err? {
        r := RedirectToPaymentResult(Some(orderNumber), Some(response.message));
        return;
      }
      var verified := response.value;
      if !verified.status.Value? {
        r := RedirectToPaymentResult(Some(orderNumber), Some("Payment verification failed"));
        return;
      }
      if !verified.status.value {
        r := RedirectToPaymentResult(Some(orderNumber), Some("Payment verification failed"));
        return;
      }
      var paymentStatus := verified.data.status.OrNull();
      if paymentStatus != Some("success") {
        r := RedirectToPaymentResult(Some(orderNumber), Some("Payment status: " + paymentStatus.GetOr("")));
        return;
      }
      var expectedAmount := env.subunit(order);
      var actualAmount := verified.data.amount.GetOr(0);
      if actualAmount != expectedAmount {
        r := RedirectToPaymentResult(Some(orderNumber), Some("Payment amount verification failed"));
        return;
      }
      if verified.data.reference.Absent? {
        r := RedirectToPaymentResult(Some(orderNumber), Some(UndefinedKey("reference")));
        return;
      }
      var error := RecordPaid(order, verified.data, env);
      r := RedirectToPaymentResult(Some(orderNumber), error);
    }

    /** `callback`: the route action that hands over to the callback handler. */
    method Callback(query: map<string, string>, env: Env) returns (r: Redirect)
      modifies this
      ensures CallbackPage(query, env, r)
      ensures !CallbackAccepts(query, env) ==> payments == old(payments) && paidLog == old(paidLog)
      ensures CallbackAccepts(query, env) ==>
        ConfirmedWrites(CallbackOrder(query, env), CallbackVerification(query, env).json.data, env,
          old(payments), old(paidLog), payments, paidLog)
    {
      r := HandlePaystackCallback(query, env);
    }

    /** `verify`: the client asks whether its payment went through. */
    method Verify(reference: Option<string>, orderNumber: Option<string>, env: Env) returns (r: Reply)
      modifies this
      ensures r == VerifyReply(reference, orderNumber, env)
      ensures !VerifyAccepts(reference, orderNumber, env) ==> payments == old(payments) && paidLog == old(paidLog)
      ensures VerifyAccepts(reference, orderNumber, env) ==>
        ConfirmedWrites(env.orders[orderNumber.value], env.verifyApi(env.secretKey.value, reference.value).json.data, env,
          old(payments), old(paidLog), payments, paidLog)
    {
      if reference.None? || !Truthy(reference.value) || orderNumber.None? || !Truthy(orderNumber.value) {
        return Answer(Json(false, Trans("verify_fail"), map[]));
      }
      if orderNumber.value !in env.orders {
        return Answer(Json(false, Trans("order_not_found"), map[]));
      }
      var order := env.orders[orderNumber.value];
      var service := PaystackService.Create(order, env.secretKey);
      if service.TypeFailed? {
        return Uncaught(service.message);
      }
      if service.Thrown? {
        return Answer(Json(false, Text(service.message), map[]));
      }
      var response := service.service.VerifyTransaction(reference.value, env.verifyApi);
      if response.Err? {
        return Answer(Json(false, Text(response.message), map[]));
      }
      var verified := response.value;
      if verified.status.Absent? {
        return Answer(Json(false, Text(UndefinedKey("status")), map[]));
      }
      if verified.status != Value(true) {
        return Answer(Json(false, Trans("verify_fail"), map[]));
      }
      if verified.data.status.Absent? {
        return Answer(Json(false, Text(UndefinedKey("status")), map[]));
      }
      if verified.data.status != Value("success") {
        return Answer(Json(false, Trans("verify_fail"), map[]));
      }
      var expectedAmount := env.subunit(order);
      var actualAmount := verified.data.amount.GetOr(0);
      if actualAmount != expectedAmount {
        return Answer(Json(false, Trans("verify_fail"), map[]));
      }
      if verified.data.reference.Absent? {
        return Answer(Json(false, Text(UndefinedKey("reference")), map[]));
      }
      var error := RecordPaid(order, verified.data, env);
      if error.Some? {
        return Answer(Json(false, Text(error.value), map[]));
      }
      r := Answer(Json(true, Trans("payment_success"), map[]));
    }

    /** `handlePaystackWebhook`: a server-to-server event from the provider. */
    method HandlePaystackWebhook(request: WebhookRequest, env: Env) returns (r: Json)
      modifies this
      ensures r == WebhookReply(request, env) && r.success
      ensures !WebhookAccepts(request, env) ==> payments == old(payments) && paidLog == old(paidLog)
      ensures WebhookAccepts(request, env) ==>
        ConfirmedWrites(WebhookOrder(request, env), WebhookEvent(request, env).data, env,
          old(payments), old(paidLog), payments, paidLog)
    {
      var signature := request.signature;
      if IsEmpty(env.secretKey) || IsEmpty(signature) {
        return Json(true, Text("Event received"), map[]);
      }
      var secretKey := env.secretKey.value;
      var computedSignature := env.hmacSha512(request.body, secretKey);
      if computedSignature != signature.value {
        return Json(true, Text("Event received"), map[]);
      }
      var requestData := env.decodeJson(request.body);
      var event := requestData.event.GetOr("");
      var data := requestData.data;
      if event == "charge.success" && data.orderNumber.Some? {
        var orderNumber := data.orderNumber.value;
        if orderNumber in env.orders {
          var order := env.orders[orderNumber];
          var service := PaystackService.Create(order, env.secretKey);
          if !service.Built? {
            return Json(true, Text("Error processed"), map[]);
          }
          var expectedAmount := env.subunit(order);
          var actualAmount := data.amount.GetOr(0);
          if actualAmount != expectedAmount {
            return Json(true, Text("Event received"), map[]);
          }
          var error := RecordPaid(order, data, env);
          if error.Some? {
            return Json(true, Text("Error processed"), map[]);
          }
          return Json(true, Trans("payment_success"), map[]);
        }
      }
      r := Json(true, Text("Event received"), map[]);
    }

    /** `webhook`: the route action; whatever happens, the provider gets a
        success acknowledgement. */
    method Webhook(request: WebhookRequest, env: Env) returns (r: Json)
      modifies this
      ensures r == WebhookReply(request, env) && r.success
      ensures !WebhookAccepts(request, env) ==> payments == old(payments) && paidLog == old(paidLog)
      ensures WebhookAccepts(request, env) ==>
        ConfirmedWrites(WebhookOrder(request, env), WebhookEvent(request, env).data, env,
          old(payments), old(paidLog), payments, paidLog)
    {
      r := HandlePaystackWebhook(request, env);
    }

    /** `initialize`: starts a transaction and stores the unpaid record. */
    method Initialize(orderNumber: Option<string>, now: nat, env: Env) returns (r: Reply)
      modifies this
      ensures r == InitializeReply(orderNumber, now, env)
      ensures paidLog == old(paidLog)
      ensures !InitializeAccepts(orderNumber, now, env) ==> payments == old(payments)
      ensures InitializeAccepts(orderNumber, now, env) ==>
        var order := env.orders[orderNumber.value];
        payments == old(payments)[order.id := PaymentRecord(order.total, false,
          TransactionRef(InitializeCall(orderNumber, now, env).json.data.reference), None)]
    {
      if orderNumber.None? || orderNumber.value !in env.orders
        || env.orders[orderNumber.value].customerId != env.customerId {
        return Answer(Json(false, Trans("order_not_found"), map[]));
      }
      var order := env.orders[orderNumber.value];
      var service := PaystackService.Create(order, env.secretKey);
      if service.TypeFailed? {
        return Uncaught(service.message);
      }
      if service.Thrown? {
        return Answer(Json(false, Text(service.message), map[]));
      }
      var response := service.service.InitializeTransaction(now, env.initApi);
      if response.Err? {
        return Answer(Json(false, Text(response.message), map[]));
      }
      if !response.value.status {
        return Answer(Json(false, Trans("initialize_fail"), map[]));
      }
      var data := response.value.data;
      payments := payments[order.id := PaymentRecord(order.total, false, TransactionRef(data.reference), None)];
      r := Answer(Json(true, Trans("initialize_success"),
        map["authorization_url" := data.authorizationUrl, "reference" := data.reference]));
    }
  }
}
