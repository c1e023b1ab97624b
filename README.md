# Portal backend: in-memory store and request handlers

A Dafny model of the Flask backend in `app2.py`. The backend keeps customers, invoices,
cached payment tokens and cached transactions in four module-level dictionaries. It
serves local CRUD handlers over them, and it adapts three calls to an external payment
gateway: token creation, transaction submission and transaction lookup. Each handler
checks its request and then either replies with an error and leaves the store alone, or
writes one or two entries. The one exception is `post_transaction` with a truthy list or
dict `invoiceId`: it caches the transaction first, then the invoice lookup raises
TypeError and the handler replies 500 with the transaction already cached.

Layout:

- `json.dfy`: module `Wrappers` (an `Option`) and module `Json`. `Json` has decoded JSON
  values (`Value`, `Record = map<string, Value>`) and the Python meanings the handlers
  rely on: truthiness, `dict.get`, `a or b`, hashability, and the text of the
  AttributeError and TypeError the handlers can hit.
- `invoice_numbers.dfy`: module `InvoiceNumbers`. This is Python's decimal `str(n)`,
  proved to round-trip, and the `INV-n` invoice numbers with 2000 ≤ n ≤ 9999.
- `gateway.dfy`: module `Gateway`. It holds the reply type, the upstream outcome type
  `Upstream`, and the error translation shared by the three gateway handlers. It also has
  the imperative preparation of outbound payloads: the copy-and-delete of token
  creation, and the `pop('invoiceId')` of transaction submission.
- `portal.dfy`: module `Portal`. It has the record builders, the invoice-status
  invariant, and the class `Store` with one field per dictionary and one method per
  handler.
- `scenarios.dfy`: module `Scenarios`. These are client methods that chain handler calls
  and prove what a caller sees, for example that a second transaction lookup is served
  from the cache.

Modelling choices:

- Each outbound HTTP call is replaced by an `Upstream` parameter: the decoded success
  body, an HTTP error (status, the body as JSON if it is JSON, and the raw text), a
  network failure, or any other exception with its text. `CreateToken` and
  `PostTransaction` also return `forwarded`, the payload they would send; `None` means
  local validation refused the request and nothing was sent. `GetTransaction`, which
  sends no body, returns `called` instead: whether it consulted upstream at all, which it
  does not when the id is already cached.
- A generated id `cust-xxxxxxxx` / `inv-xxxxxxxx` is a parameter `uid`: eight lower-case
  hex characters that are not yet a key. The `random.randint(2000, 9999)` draw is a
  parameter in that range.
- Token and transaction ids come from the upstream body, so they can be any JSON value.
  For that reason `tokens` and `transactions` are keyed by `Value`. A list or dict id
  raises TypeError in Python. The model follows the handler's catch-all here: a 500
  reply and no cache write.
- Behaviour of the code that the model keeps:
  - When a token request has both a card and a bank account, `create_token` deletes
    `bankAccountInformation` and forwards the card (app2.py:173-174).
  - `add_customer` spreads the body after the defaults. A body that carries its own `id`
    or `tokenId` therefore overrides the generated id and the `None` token inside the
    stored record. The storage key is always the generated one.
  - `save_customer_token` answers 404 for an unknown customer before it reads the body.
  - `post_transaction` reports `invoiceStatusUpdated` as true whenever the body had a
    non-null `invoiceId`, even when no invoice was updated.
- The demo records of `app2.py:33-34` are the constructor's initial state. The demo
  invoice number `INV-1001` is below the generated range. That is why the invoice-number
  form is a property of `AddInvoice` and not an invariant of the store.

## Model

| member | source | states |
|---|---|---|
| `InvoiceNumbers.DecimalRoundTrip` | app2.py:123 | `str(n)` is a well-formed numeral with no leading zero, and it reads back as `n` |
| `InvoiceNumbers.NumeralRoundTrip` | app2.py:123 | every well-formed numeral is `str` of the number it denotes |
| `InvoiceNumbers.FourDigits` | app2.py:123 | a number from 1000 to 9999 prints as four characters |
| `InvoiceNumbers.InvoiceNumber` | app2.py:123 | `f"INV-{n}"` for 2000 ≤ n ≤ 9999 is 8 characters of the generated form and carries `n` back |
| `InvoiceNumbers.InvoiceNumberOfForm` | app2.py:123 | every string of the generated form is the invoice number of its own number, so number and string determine each other |
| `Gateway.ErrorDetail` | app2.py:222-225 | the detail is the upstream `error` field if truthy, else `message` if truthy, else the raw text; non-JSON or non-object bodies give the raw text |
| `Gateway.Translate` | app2.py:220-235 | an upstream HTTP error is relayed with upstream's own status and the chosen detail; a network failure gives 503 and the fixed diagnostic; any other exception gives 500 with its text |
| `Gateway.TranslateUniform` | app2.py:319-334 | all three gateway handlers translate a failure to the same status and detail, and they give the identical reply for a network failure |
| `Gateway.SanitizeTokenRequest` | app2.py:163-182 | a missing `emailAddress`/`payerName` gives 400 before the payment-method check; no payment method gives 400; otherwise the payload is the body minus the other payment method, with nothing else changed |
| `Gateway.ExactlyOneMethod` | app2.py:173-180 | a sanitised payload carries exactly one payment method: the card when present (the bank account is deleted), otherwise the bank account, with the body unchanged |
| `Gateway.StripTransactionRequest` | app2.py:265-268 | a missing `amount`/`tokenId` gives 400; otherwise the payload is exactly the body minus `invoiceId`; putting the popped value back restores the body; an absent `invoiceId` pops as `None` |
| `Gateway.UpstreamId` | app2.py:204-207 | the id is the truthy primary field, else the truthy `id` field, and `Missing` when neither is truthy; a non-object body is reported as such because `.get` raises |
| `Portal.NewCustomer` | app2.py:68-71 | the stored customer has the body's fields plus `id` and `tokenId`; body fields win; `tokenId` is `None` and `id` the generated key unless the body supplies them |
| `Portal.WithToken` | app2.py:97-98 | linking sets `tokenId` to the given token and leaves every other field of the customer as it was |
| `Portal.WithTokenOverwrites` | app2.py:98 | linking twice is the same as linking the second token once |
| `Portal.NewInvoice` | app2.py:122-132 | a new invoice has exactly the six fields; status `Outstanding`, `transactionId` `None`, customer and amount from the body, and an invoice number of the `INV-n` form carrying the drawn `n` |
| `Portal.MarkPaid` | app2.py:147-149 | marking paid sets status `Paid` and `transactionId` to the given value, and leaves every other field as it was |
| `Portal.TransactionRecord` | app2.py:290-302 | the cached transaction has the five fields; its status is upstream's `status` when present, else `Completed`; its details are the forwarded payload |
| `Portal.PayKeepsInvariant` | app2.py:147-149 | marking one stored invoice paid keeps every invoice well formed (customer present, status Outstanding or Paid) and only advances statuses |
| `Portal.StatusAdvancesTransitive` | app2.py:148 | the status-advance relation composes, so it holds over any run of handlers |
| `Portal.StatusNeverReverts` | app2.py:307 | along status-advancing steps a Paid invoice stays Paid, and an invoice that is Outstanding afterwards was Outstanding before |
| `Portal.Store.constructor` | app2.py:27-34 | the store starts with the demo customer `cust-1`, the demo invoice `inv-1`, and empty token and transaction caches |
| `Portal.Store.AddCustomer` | app2.py:62-76 | without `name` or `email` it gives 400 and changes nothing; otherwise exactly one customer is added under the fresh key and it replies 201 with that customer |
| `Portal.Store.GetCustomer` | app2.py:78-82 | it gives 404 for an unknown id, else the stored customer |
| `Portal.Store.SaveCustomerToken` | app2.py:85-103 | an unknown customer gives 404 whatever the body; a falsy `tokenId` gives 400; otherwise only that customer's `tokenId` changes and the linked customer is returned |
| `Portal.Store.ListInvoices` | app2.py:107-114 | every result is a stored invoice; for a non-empty, known customer id the result is exactly that customer's invoices; otherwise, including an unknown id, it is every invoice |
| `Portal.Store.AddInvoice` | app2.py:116-137 | without `customerId` or `amount` it gives 400 and changes nothing; otherwise one Outstanding invoice is added under the fresh key; statuses of existing invoices are untouched |
| `Portal.Store.MarkInvoicePaid` | app2.py:139-151 | an unknown invoice gives 404 and changes nothing; otherwise only that invoice is marked Paid with the body's `transactionId`, which may be `None` |
| `Portal.Store.CreateToken` | app2.py:158-235 | refused requests are never forwarded; the forwarded payload is the sanitised body; an upstream failure is translated; on success the original unsanitised body is cached under the returned token id; no id, a non-object body or an unhashable id gives 500 and caches nothing |
| `Portal.Store.PostTransaction` | app2.py:261-334 | the forwarded payload, and so the cached `details`, is exactly the body minus `invoiceId`; with no id upstream it gives 500 and leaves transactions and invoices alone; otherwise the record is cached under the id; the invoice is marked Paid and stamped only when `invoiceId` is truthy and known; `invoiceStatusUpdated` is whether `invoiceId` was non-null |
| `Portal.Store.RecordTransaction` | app2.py:296-317 | after a successful submission the record is cached under the id; the invoice is marked Paid and stamped only when `invoiceId` is truthy and a known key; a truthy list or dict `invoiceId` gives 500 after caching; otherwise it replies 201 with `invoiceStatusUpdated` set to whether `invoiceId` was non-null |
| `Portal.Store.GetTransaction` | app2.py:338-385 | a cached id is answered from the cache without consulting upstream; on a miss, success caches the upstream body verbatim under the id, and failure is translated and caches nothing |
| `Scenarios.LinkThenFetch` | app2.py:78-103 | after a token is linked, fetching the customer shows that token |
| `Scenarios.CreateThenFetch` | app2.py:62-82 | a customer created from name and email is fetched under its generated id with `tokenId` `None` |
| `Scenarios.LookupTwice` | app2.py:342-366 | after one successful lookup the next one is served from the cache, whatever upstream would answer |
| `Scenarios.PaidStaysPaid` | app2.py:116-149 | an invoice marked paid is still Paid after another invoice is created |

## Left out

- Flask routing and response plumbing are not modelled, because they are framework glue: `jsonify`, `url_for` and the `Location` headers (including the one copied from upstream), CORS, and the root route. A reply is modelled as a status with a body, or an error status with the message that `api_error` wraps in `{"error": ...}`.
- `list_customers` (app2.py:58-60) is not modelled. It returns the values of `customers` with no logic of its own.
- The outbound `requests` calls are not modelled: credentials, basic auth, headers, the 30-second timeout and disabled certificate verification. They are network I/O, and their outcome is the `Upstream` parameter.
- `get_fees` (app2.py:240-257) is not modelled. It is floating-point arithmetic with `round` and `%.2f`.
- `Portal.NewInvoice`: it stores `amount` as the body gives it. The `float(...)` coercion is not modelled, nor the unhandled ValueError or TypeError (a bare Flask 500) that it raises for an amount `float` cannot convert, such as a non-numeric string, `None`, a list or a dict.
- uuid and `random.randint` are nondeterministic, so they are parameters. A uuid prefix that collides with an existing key would overwrite that entry in Python. The freshness precondition excludes that case.
- Concurrency and last-write-wins races between requests are not modelled. The source has no locking to model.
- Dictionary insertion order is not modelled. `list_invoices` returns a list in insertion order, while `Store.ListInvoices` returns the matching entries as a map.
- `Gateway.Translate`: the relayed upstream error message is kept as its three parts (the API label, the status and the detail value). It is not rendered as the f-string text, because Python's `str()` of a dict- or list-valued detail depends on key order, which a map does not keep.
- Python's equality of `True`, `1` and `1.0` as dictionary keys is not modelled. `Value` keys are compared structurally. JSON numbers are `int` or exact `real`, not IEEE doubles.
- Request bodies that are not JSON objects (`None`, a list, a string, a number or a bool from `get_json()`) are not modelled; depending on the body, the handlers that read one then reply 400 (a list or string lacking the required keys) or raise. Every body is a `Record`. `get_customer`, `list_invoices` and `get_transaction` read no body.
- A successful upstream response whose body is not JSON is not modelled directly. Depending on the `requests` version, `.json()` then raises an exception that the handler reports as 503 or 500. In the model that case is `NetErr` or `OtherErr`.
- `create_token` computes its payment-method flags before the payer-field check. The order has no observable effect, and `SanitizeTokenRequest` checks the payer fields first.
