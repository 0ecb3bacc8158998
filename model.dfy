/** The data the Paystack plugin reads and writes, and the external
    collaborators it calls, given here as plain values and functions. */
module Model {
  import opened Php

  /** The fields of a shop order that the plugin reads. */
  datatype Order = Order(
    id: int,
    number: string,
    total: real,
    email: string,
    customerId: int,
    customerName: string,
    telephone: string,
    paymentTelephone: string,
    paymentCity: string,
    paymentAddress: string,
    paymentZipcode: string)

  /** The `data` object of a verify response or of a webhook event: the
      provider's status string, the amount in sub-units as `(int)` gives it,
      the provider's reference and `metadata.order_number`. The status and
      the reference, which some handler reads without a default, tell an
      absent key from a `null`; the amount and the order number are only
      read through `??` or `isset`, so for them `None` is either. */
  datatype ChargeData = ChargeData(
    status: Field<string>,
    amount: Option<int>,
    reference: Field<string>,
    orderNumber: Option<string>)

  /** The decoded body of `GET /transaction/verify/{reference}`. */
  datatype VerifyResponse = VerifyResponse(status: Field<bool>, data: ChargeData)

  /** The `data` object of the decoded body of `POST /transaction/initialize`. */
  datatype InitData = InitData(reference: string, authorizationUrl: string, accessCode: string)

  /** The decoded body of `POST /transaction/initialize`. */
  datatype InitResponse = InitResponse(status: bool, data: InitData)

  /** The `metadata` object sent with a new transaction. */
  datatype Metadata = Metadata(orderNumber: string, customerId: int, customerName: string)

  /** The body sent to `POST /transaction/initialize` (its amount is not modelled). */
  datatype InitRequest = InitRequest(email: string, metadata: Metadata, reference: string)

  /** An HTTP exchange with api.paystack.co: a successful status with the
      decoded JSON body, an unsuccessful one with the raw body, or no
      response at all: the connection failed or timed out and the client
      threw its `ConnectionException` (an `Exception`) with this message. */
  datatype Http<T> = Successful(json: T) | Unsuccessful(body: string) | Failed(message: string)

  /** A webhook event envelope `{event, data}` as decoded from the body. */
  datatype Envelope = Envelope(event: Option<string>, data: ChargeData)

  /** An incoming webhook: the `x-paystack-signature` header and the raw body. */
  datatype WebhookRequest = WebhookRequest(signature: Option<string>, body: string)

  /** The `reference` column of a payment record: the transaction reference
      written at initialization, or the JSON encoding of the provider's
      `data` object (kept here as the value it encodes). */
  datatype RecordReference = TransactionRef(value: string) | EncodedData(data: ChargeData)

  /** A payment record as `createOrUpdatePayment` stores it. */
  datatype PaymentRecord = PaymentRecord(
    amount: real,
    paid: bool,
    reference: RecordReference,
    chargeId: Option<string>)

  /** The collaborators a request handler consults, fixed for one request. */
  datatype Env = Env(
    // OrderRepo::getOrderByNumber, keyed by order number
    orders: map<string, Order>,
    // current_customer_id()
    customerId: int,
    // plugin_setting('paystack.secret_key'), None when the setting is null;
    // then 'paystack.public_key' and 'base.meta_title'
    secretKey: Option<string>,
    publicKey: string,
    metaTitle: string,
    // getOrderAmountInSubunit(), which is not part of this model
    subunit: Order -> int,
    // the two HTTP calls, given the bearer key and the request
    initApi: (string, InitRequest) -> Http<InitResponse>,
    verifyApi: (string, string) -> Http<VerifyResponse>,
    // hash_hmac('sha512', payload, key)
    hmacSha512: (string, string) -> string,
    // $request->json()->all() of a webhook body
    decodeJson: string -> Envelope,
    // StateMachineService changeStatus(PAID): None when it succeeds, or the
    // message of the exception it throws
    changeStatusError: Order -> Option<string>)
}
