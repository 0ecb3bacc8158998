# Paystack payment confirmation, modelled in Dafny

This project models the Paystack plugin of an InnoShop storefront. It covers
how a payment is started, and how it is confirmed by one of three routes:

- the **browser callback** (`callback` → `handlePaystackCallback`): the order
  number is read out of the transaction reference and the provider is asked
  to verify it;
- the **client verify** request (`verify`): the client supplies the reference
  and the order number;
- the **server webhook** (`webhook` → `handlePaystackWebhook`): a signed
  `charge.success` event. Its metadata names the order.

The routes file `plugins/Paystack/Routes/front.php` registers `initialize`,
`verify` and the two webhook paths, but no route for `callback`. The callback
is reachable only through a route declared outside these files.

Each route is a chain of early-return guards. When every guard passes, the
route makes two writes in order: a paid payment record
(`createOrUpdatePayment`), then the order's PAID transition. Otherwise
nothing is written.

Files:

- `php.dfy` (module `Php`): the PHP rules the code relies on.
  - String truthiness: `""` and `"0"` are false.
  - `??` and `empty()`.
  - `explode`, `implode` and the decimal form of `time()`.
  - Lemmas: `implode(explode(s)) == s`, and how `explode` splits `a . sep . b`.
- `model.dfy` (module `Model`): the data.
  - Orders, provider responses, webhook envelopes and payment records.
  - `Env`: the external collaborators as values and functions (see "Left out").
- `service.dfy` (module `Service`): `PaystackService`.
  - A class whose constructor path (`Create`) throws on an empty secret key,
    and fails with a `TypeError` on a null one.
  - The two API calls, against HTTP oracles.
  - The mobile payment data, and the customer data with its name split.
  - The transaction reference `order_<number>_<time()>` and the metadata.
- `controller.dfy` (module `Controller`): `PaystackController`.
  - A class whose state is the payment store (a map from order id to
    record) and the log of PAID transitions (a sequence of order ids).
  - One method per handler. Each is written as the source's guard chain.
  - Each handler's `ensures` says which reply or redirect comes back on
    every path. It gives the new store and log in terms of an `...Accepts`
    predicate: the conjunction of that route's guards.

Main properties proved:

- **Safety.** No route writes a record or fires PAID unless every guard
  passed. When every guard passed, the record is the paid record and PAID
  is fired, except when the state machine throws. In that case the record
  stays written and the log is unchanged.
- **The webhook always answers with success.** This holds on every path:
  a bad signature, a mismatch, an unknown event, or an exception.
- **The reference round trip.** The callback's parse of a generated
  reference returns the order number if and only if the number holds no
  `_`. Such a reference, returned under `reference` or `trxref`, leads the
  callback to the order it was made for.
- **The name split.** `first_name + " " + last_name` equals the customer
  name if and only if the name holds a space.

Two features of the code are modelled as written:

- There is no already-paid check. A second passing confirmation rewrites
  the same record and fires PAID again (`ConfirmingTwice`).
- `verify` never checks that the reference belongs to the order it is given.
  A successful transaction made for one order confirms any other order with
  the same sub-unit amount (`VerifyAcceptsForeignReference`).

The webhook checks its signature with the `secret_key` setting. The
`webhook_secret` setting declared in `plugins/Paystack/fields.php` is never
read, and the model uses the key the code uses.

## Model

| member | source | states |
|---|---|---|
| `Php.Explode` | plugins/Paystack/Controllers/PaystackController.php:187-190 | `explode` always gives at least one piece. It gives two or more exactly when the separator occurs, and no piece contains the separator. |
| `Php.ImplodeExplode` | plugins/Paystack/Services/PaystackService.php:122-123 | Joining the pieces of `explode` with the same separator gives back the original string. |
| `Php.ExplodeWithoutSeparator` | plugins/Paystack/Services/PaystackService.php:122 | A string without the separator explodes into itself alone. |
| `Php.ExplodeAfterPiece` | plugins/Paystack/Controllers/PaystackController.php:187 | `explode(a . sep . b)`, where `a` holds no separator, is `a` followed by the pieces of `b`. |
| `Php.Decimal` | plugins/Paystack/Services/PaystackService.php:53 | The string form of `time()` is non-empty and made of decimal digits only, so it holds no `_`. |
| `Service.ReferencePieces` | plugins/Paystack/Services/PaystackService.php:53 | The reference `order_<number>_<time>` splits on `_` into exactly `["order", number, time]` when the number holds no `_`. |
| `Service.NameSplit` | plugins/Paystack/Services/PaystackService.php:122-123 | `first_name + " " + last_name == name` iff the name holds a space. `first_name` is a space-free prefix of the name. With no space, `first_name` is the whole name and `last_name` is empty. |
| `Service.PaystackService.Create` | plugins/Paystack/Services/PaystackService.php:21-33 | A null setting fails the assignment to the `string` property with a `TypeError`, which is an `Error` and not an `Exception`. A non-null setting that is empty throws "Invalid Paystack secret key". Otherwise it stores the order and the key. |
| `Service.PaystackService.InitializeTransaction` | plugins/Paystack/Services/PaystackService.php:41-66 | It posts the order's request, with the reference and metadata, under the secret key. An unsuccessful HTTP status throws and carries the body. A successful one returns the decoded body unchanged. A failed connection throws the client's own exception message. |
| `Service.PaystackService.VerifyTransaction` | plugins/Paystack/Services/PaystackService.php:75-86 | It asks about the given reference under the secret key. An unsuccessful HTTP status throws and carries the body. A successful one returns the decoded body unchanged. A failed connection throws the client's own exception message. |
| `Service.PaystackService.GetMobilePaymentData` | plugins/Paystack/Services/PaystackService.php:94-110 | It succeeds iff initialization succeeds with `status` true. On success it copies `access_code`, `authorization_url` and `reference` verbatim, with `isAllowDelay` true and the two settings. Otherwise it throws with the matching message. |
| `Service.PaystackService.CustomerData` | plugins/Paystack/Services/PaystackService.php:117-131 | The name split is lossless iff the name holds a space, and `first_name` holds no space. The phone is `telephone` when that is truthy (neither `""` nor `"0"`), else `payment_telephone`. |
| `Service.TransactionReference` | plugins/Paystack/Services/PaystackService.php:53 | The reference `"order_" . number . "_" . time()`. Its shape is proved in `ReferencePieces` and `ReferenceRoundTrip`. |
| `Service.InitRequestFor` | plugins/Paystack/Services/PaystackService.php:45-54 | The initialize body: the order's email, the metadata `order_number`, `customer_id`, `customer_name`, and the generated reference. `WebhookFindsStartedOrder` is proved about its metadata. |
| `Service.FirstName` | plugins/Paystack/Services/PaystackService.php:122 | `explode(' ', name)[0]`. Its properties are proved in `NameSplit`. |
| `Service.LastName` | plugins/Paystack/Services/PaystackService.php:123 | `implode(' ', array_slice(explode(' ', name), 1))`. Its properties are proved in `NameSplit`. |
| `Php.Implode` | plugins/Paystack/Services/PaystackService.php:123 | `implode` of the pieces with the glue between them. `ImplodeExplode` proves it undoes `explode`. |
| `Controller.PaidRecord` | plugins/Paystack/Controllers/PaystackController.php:120-125 | The paid record: the order total, `paid` true, the encoded `data`, and `data.reference` as `charge_id` (null when that key is `null`). The same record is written at lines 246-251 and 324-329. |
| `Controller.CallbackReference` | plugins/Paystack/Controllers/PaystackController.php:176 | `reference` when present, else `trxref`. It is absent exactly when both keys are. |
| `Controller.CallbackSucceedsOnlyWhenAccepted` | plugins/Paystack/Controllers/PaystackController.php:174-269 | The callback ends on the success page iff either every guard passed and the PAID transition threw nothing with a truthy message, or the provider call got no response and the exception's message is falsy. In the second case nothing is written. Every other path ends on the fail page. |
| `Controller.VerifySucceedsOnlyWhenAccepted` | plugins/Paystack/Controllers/PaystackController.php:83-137 | Verify answers with success iff every guard passed and the PAID transition did not throw. |
| `Controller.WebhookProcessesOnlyWhenAccepted` | plugins/Paystack/Controllers/PaystackController.php:277-346 | `WebhookReply`, written as the guard chain of lines 286-340, answers `payment_success` iff the conjunction `WebhookAccepts` holds and the PAID transition did not throw. |
| `Controller.InitializeSucceedsOnlyWhenAccepted` | plugins/Paystack/Controllers/PaystackController.php:31-74 | Initialize answers with success iff every guard passed, and its answer carries the provider's reference. |
| `Controller.ReferenceOrderNumber` | plugins/Paystack/Controllers/PaystackController.php:187-195 | An order number is read from a reference iff it holds `_`, and the number read holds no `_`. |
| `Controller.ReferenceRoundTrip` | plugins/Paystack/Controllers/PaystackController.php:187-195 | A generated reference always parses. The parse gives back the order number it was built from iff that number holds no `_`. |
| `Controller.CallbackFindsStartedOrder` | plugins/Paystack/Controllers/PaystackController.php:176-199 | A generated reference, under `reference` or `trxref`, passes the presence and format guards. The callback then looks up the very order the reference was built for. |
| `Controller.WebhookFindsStartedOrder` | plugins/Paystack/Controllers/PaystackController.php:300-307 | An authentic `charge.success` event carrying the metadata sent at initialization reaches the order the payment was started for. |
| `Controller.VerifyAcceptsForeignReference` | plugins/Paystack/Controllers/PaystackController.php:86-126 | A verified reference generated for order A confirms a different order B when the amounts match. The reference is never matched against the order number. |
| `Controller.ConfirmingTwice` | plugins/Paystack/Controllers/PaystackController.php:244-257 | Two passing confirmations of one payment leave the record as the first one wrote it, and log PAID twice. |
| `Controller.PaystackController.RecordPaid` | plugins/Paystack/Controllers/PaystackController.php:244-257 | It writes the paid record (`paid` true, `charge_id` = `data.reference`, amount = order total, reference = encoded data). Then it fires PAID, which is logged unless the state machine throws; the thrown message is returned. |
| `Controller.PaystackController.RedirectToPaymentResult` | plugins/Paystack/Controllers/PaystackController.php:355-378 | A truthy error (neither `""` nor `"0"`) gives the fail route with an `error` flash. Otherwise it is the success route with "Payment successful", so an exception message `"0"` lands on the success page. `order_number` is the only parameter, and it is present iff the number is truthy. |
| `Controller.PaystackController.HandlePaystackCallback` | plugins/Paystack/Controllers/PaystackController.php:174-269 | It gives the page and message for each guard in order: reference, format, order, key, connection, HTTP, status, `data.status`, amount, and the `data.reference` key read without a default (a `null` there passes and is written as a null `charge_id`). A null secret key setting ends on the fail page with the `TypeError` message. Store and log are unchanged unless every guard passes; then the paid record is written and PAID fired. |
| `Controller.PaystackController.Callback` | plugins/Paystack/Controllers/PaystackController.php:387-390 | Same contract as the callback handler it forwards to. |
| `Controller.PaystackController.Verify` | plugins/Paystack/Controllers/PaystackController.php:83-137 | A missing reference or order number fails before any lookup. Otherwise the same found/status/amount gate applies, with JSON messages per path. An absent `status`, `data.status` or `data.reference` throws and fails. A `null` `status` or `data.status` gives `verify_fail`, and a `null` `data.reference` is written as a null `charge_id`. A null secret key setting ends in an uncaught `TypeError`. A failed connection fails with the exception's own message. The record and PAID change only when every guard passes. |
| `Controller.PaystackController.HandlePaystackWebhook` | plugins/Paystack/Controllers/PaystackController.php:277-346 | The reply always has success true. Store and log change only for a non-empty key and signature, an equal HMAC, a `charge.success` event, a known `metadata.order_number` and a matching amount. |
| `Controller.PaystackController.Webhook` | plugins/Paystack/Controllers/PaystackController.php:150-166 | Same contract as the webhook handler; the answer is always a success acknowledgement. |
| `Controller.PaystackController.Initialize` | plugins/Paystack/Controllers/PaystackController.php:31-74 | Replies per path: order not found, key (a null setting ends in an uncaught `TypeError`), connection failure (the exception's message), HTTP, init status. PAID is never fired. Only a successful initialization writes a record, which is unpaid and holds the provider's reference. |

## Left out

- Amount conversion: `round(convertByRate(...), 2) * 100` is float arithmetic in a currency library that is not part of this model. `getOrderAmountInSubunit` is not part of this model either. The expected amount is an opaque function `Env.subunit`, and the amount field of the initialize request is not modelled.
- HTTP calls to api.paystack.co are oracle functions `Env.initApi` and `Env.verifyApi`. Each takes the bearer key and the request. It gives a successful decoded body, an unsuccessful raw body, or `Failed(message)`: the connection failed or timed out, and the client's `ConnectionException` carries that message. Its text is not modelled; it is whatever the oracle gives. A decoded body that is not an array, and `(int)` casts of non-integer amounts, are not modelled: amounts arrive as integers or absent.
- Reading an array key with no `??` default throws under PHP 8 and the framework's error handler, which turns warnings into exceptions. The model follows this for the keys on the confirmation path: `status`, `data.status` and `data.reference` in verify, and `data.reference` in the callback. These keys tell absent from `null`, and a `null` is read without an exception. An absent or `null` `data` object is treated as one with no keys; the only difference in the code is the exception message. For `data.amount` and `metadata.order_number`, which are only read through `??` or `isset`, `None` stands for both absent and `null`. The initialize response is modelled as always carrying `status` and the three `data` fields.
- `hash_hmac('sha512', ...)` is the function `Env.hmacSha512`. `hash_equals` is string equality; its constant-time behaviour is not modelled.
- JSON decoding of the webhook body is the function `Env.decodeJson`. `json_encode($data)` stored in the record is kept as the `ChargeData` value it encodes.
- The order repository: `getOrderByNumber` is the map `Env.orders`. The `initialize` query builder is modelled as that map filtered by the current customer; an absent `order_number` finds no order.
- The payment repository is a map from order id to the whole record: every write replaces it. Any field-by-field merge `createOrUpdatePayment` may do is not modelled, and neither are its failures.
- The state machine: `setShipment()->changeStatus(PAID)` is a log entry. Its exceptions are `Env.changeStatusError`. Which transitions it allows, and the order's status itself, are not modelled.
- Laravel request input is a map from key to string. Middleware that turns empty strings into null is not modelled, so an empty `reference` does not fall back to `trxref`.
- `webhook`'s own catch, replying "Error received": the webhook handler already catches everything, so this branch cannot be reached in the model.
- An `Error` that escapes `verify` or `initialize` (their `catch (\Exception)` does not catch a `TypeError`) is the reply `Uncaught` with its message. The framework's rendering of it as an error response is not modelled. A setting of a type other than string or null is not modelled.
- `Log`, `trans` (messages appear as their language keys), `front_route`/`redirect`, and the URL built in `redirectToPaymentResult`'s fallback branch. That branch reaches the same route with the same parameter.
- `getShippingAddress` and the country lookups are database reads and field copies. The customer data's `country` is left out for the same reason.
- `time()` is the parameter `now` of `Initialize`.
- Concurrency between routes, and any idempotency: the code has neither a lock nor an already-paid check.
- Views, routes, plugin boot, settings declarations and language files are not modelled.
