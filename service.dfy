/** PaystackService: the transaction reference and metadata sent when a
    payment starts, the two calls to the Paystack API, the data handed to
    the mobile app and the customer data derived from an order. */
module Service {
  import opened Php
  import opened Model

  /** The reference of a new transaction: `order_<number>_<time()>`. */
  function TransactionReference(number: string, now: nat): string {
    "order_" + number + "_" + Decimal(now)
  }

  /** The body of the initialize call for `order` at time `now`. */
  function InitRequestFor(order: Order, now: nat): InitRequest {
    InitRequest(
      order.email,
      Metadata(order.number, order.customerId, order.customerName),
      TransactionReference(order.number, now))
  }

  /** A generated reference splits on `_` into exactly the prefix, the order
      number and the timestamp, provided the number holds no `_`. */
  lemma ReferencePieces(number: string, now: nat)
    requires '_' !in number
    ensures Explode('_', TransactionReference(number, now)) == ["order", number, Decimal(now)]
  {
    var t := Decimal(now);
    assert '_' !in t by {
      forall i | 0 <= i < |t| ensures t[i] != '_' {
        assert '0' <= t[i] <= '9';
      }
    }
    assert TransactionReference(number, now) == "order" + ['_'] + (number + ['_'] + t);
    ExplodeAfterPiece('_', "order", number + ['_'] + t);
    ExplodeAfterPiece('_', number, t);
    ExplodeWithoutSeparator('_', t);
  }

  /** `first_name` of the customer data: the text before the first space. */
  function FirstName(name: string): string {
    Explode(' ', name)[0]
  }

  /** `last_name` of the customer data: the remaining space-separated words
      joined again with a space. */
  function LastName(name: string): string {
    Implode(" ", Explode(' ', name)[1..])
  }

  /** The split into first and last name loses nothing exactly when the name
      holds a space; without one, the first name is the whole name and the
      last name is empty. */
  lemma NameSplit(name: string)
    ensures FirstName(name) + " " + LastName(name) == name <==> ' ' in name
    ensures ' ' !in FirstName(name) && FirstName(name) <= name
    ensures ' ' !in name ==> FirstName(name) == name && LastName(name) == ""
  {
    var parts := Explode(' ', name);
    ImplodeExplode(' ', name);
    if ' ' in name {
      assert Implode(" ", parts) == parts[0] + " " + Implode(" ", parts[1..]);
    } else {
      ExplodeWithoutSeparator(' ', name);
      assert |FirstName(name) + " " + LastName(name)| > |name|;
    }
  }

  /** `getCustomerData()` without the country, which is read from the database. */
  datatype Customer = Customer(
    firstName: string,
    lastName: string,
    email: string,
    phone: string,
    city: string,
    address: string,
    postalCode: string)

  /** The values `getMobilePaymentData()` hands to the mobile app. */
  datatype MobilePaymentData = MobilePaymentData(
    isAllowDelay: bool,
    merchantName: string,
    accessCode: string,
    authorizationUrl: string,
    reference: string,
    publicKey: string)

  /** The class name PHP reports in its messages. */
  const ServiceClass := "Plugin\\Paystack\\Services\\PaystackService"

  /** How `new PaystackService($order)` ends: with the service, with the
      `Exception` its constructor throws, or with the `TypeError` of the
      property assignment. */
  datatype Construction =
    | Built(service: PaystackService)
    | Thrown(message: string)
    | TypeFailed(message: string)

  class PaystackService {
    const order: Order
    const secretKey: string

    constructor (order: Order, secretKey: string)
      ensures this.order == order && this.secretKey == secretKey
    {
      this.order := order;
      this.secretKey := secretKey;
    }

    /** `new PaystackService($order)`: reads the secret key setting into the
        property declared `string $secretKey`, which fails with a `TypeError`
        when the setting is null, and throws when the key is empty. */
    static method Create(order: Order, setting: Option<string>) returns (r: Construction)
      ensures r.TypeFailed? <==> setting.None?
      ensures r.TypeFailed? ==> r.message == NullToStringProperty(ServiceClass, "secretKey")
      ensures r.Thrown? <==> setting.Some? && !Truthy(setting.value)
      ensures r.Thrown? ==> r.message == "Invalid Paystack secret key"
      ensures r.Built? ==> fresh(r.service) && r.service.order == order && r.service.secretKey == setting.value
    {
      if setting.None? {
        return TypeFailed(NullToStringProperty(ServiceClass, "secretKey"));
      }
      var service := new PaystackService(order, setting.value);
      if !Truthy(service.secretKey) {
        return Thrown("Invalid Paystack secret key");
      }
      r := Built(service);
    }

    /** `initializeTransaction()`: posts the request for this order with the
        secret key as bearer token; an unsuccessful HTTP status throws, a
        successful one returns the decoded body as it is. A failed connection
        lets the client's exception through. */
    method InitializeTransaction(now: nat, api: (string, InitRequest) -> Http<InitResponse>)
      returns (r: Result<InitResponse>)
      ensures var http := api(secretKey, InitRequestFor(order, now));
        && (r.Ok? <==> http.Successful?)
        && (r.Ok? ==> r.value == http.json)
        && (http.Unsuccessful? ==> r.message == "Failed to initialize payment: " + http.body)
        && (http.Failed? ==> r.message == http.message)
    {
      var request := InitRequestFor(order, now);
      var response := api(secretKey, request);
      if response.Failed? {
        return Err(response.message);
      }
      if response.Unsuccessful? {
        return Err("Failed to initialize payment: " + response.body);
      }
      r := Ok(response.json);
    }

    /** `verifyTransaction($reference)`: asks the provider about one
        reference; an unsuccessful HTTP status throws, a successful one
        returns the decoded body as it is. A failed connection lets the
        client's exception through. */
    method VerifyTransaction(reference: string, api: (string, string) -> Http<VerifyResponse>)
      returns (r: Result<VerifyResponse>)
      ensures var http := api(secretKey, reference);
        && (r.Ok? <==> http.Successful?)
        && (r.Ok? ==> r.value == http.json)
        && (http.Unsuccessful? ==> r.message == "Failed to verify payment: " + http.body)
        && (http.Failed? ==> r.message == http.message)
    {
      var response := api(secretKey, reference);
      if response.Failed? {
        return Err(response.message);
      }
      if response.Unsuccessful? {
        return Err("Failed to verify payment: " + response.body);
      }
      r := Ok(response.json);
    }

    /** `getMobilePaymentData()`: starts a transaction and throws unless the
        provider's `status` is true; otherwise copies access code,
        authorization URL and reference from the provider's `data`. */
    method GetMobilePaymentData(
      now: nat, api: (string, InitRequest) -> Http<InitResponse>, metaTitle: string, publicKey: string)
      returns (r: Result<MobilePaymentData>)
      ensures var http := api(secretKey, InitRequestFor(order, now));
        && (r.Ok? <==> http.Successful? && http.json.status)
        && (http.Unsuccessful? ==> r.message == "Failed to initialize payment: " + http.body)
        && (http.Failed? ==> r.message == http.message)
        && (http.Successful? && !http.json.status ==> r.message == "Failed to initialize payment")
        && (r.Ok? ==> r.value == MobilePaymentData(
              true, metaTitle,
              http.json.data.accessCode, http.json.data.authorizationUrl, http.json.data.reference,
              publicKey))
    {
      var init := InitializeTransaction(now, api);
      if init.Err? {
        return Err(init.message);
      }
      var response := init.value;
      if !response.status {
        return Err("Failed to initialize payment");
      }
      r := Ok(MobilePaymentData(
        true, metaTitle,
        response.data.accessCode, response.data.authorizationUrl, response.data.reference,
        publicKey));
    }

    /** `getCustomerData()`: the customer's name split in two, and the order's
        own telephone unless it is empty, else the payment telephone. */
    function CustomerData(): (c: Customer)
      ensures c.firstName + " " + c.lastName == order.customerName <==> ' ' in order.customerName
      ensures ' ' !in c.firstName && c.firstName <= order.customerName
      ensures Truthy(order.telephone) ==> c.phone == order.telephone
      ensures !Truthy(order.telephone) ==> c.phone == order.paymentTelephone
    {
      NameSplit(order.customerName);
      Customer(
        FirstName(order.customerName),
        LastName(order.customerName),
        order.email,
        if Truthy(order.telephone) then order.telephone else order.paymentTelephone,
        order.paymentCity,
        order.paymentAddress,
        order.paymentZipcode)
    }
  }
}
