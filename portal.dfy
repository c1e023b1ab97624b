/**
 * The in-memory store of the portal backend — customers, invoices, tokens and
 * transactions — and the request handlers that read and change it. Each
 * handler validates its request, then either replies with an error and leaves
 * the store alone, or writes the one or two entries its contract names. The one
 * exception is a transaction whose `invoiceId` is a truthy list or dict: it is
 * cached before the invoice lookup raises, so its 500 reply follows a write.
 */
module Portal {
  import opened Wrappers
  import opened Json
  import opened Gateway
  import opened InvoiceNumbers

  const OUTSTANDING := Str("Outstanding")
  const PAID := Str("Paid")

  const MISSING_NAME_OR_EMAIL := "Missing required fields: name or email"
  const CUSTOMER_NOT_FOUND := "Customer not found"
  const MISSING_TOKEN_ID := "Missing 'tokenId' in request body."
  const TOKEN_LINKED := "Token successfully linked to customer."
  const MISSING_CUSTOMER_OR_AMOUNT := "Missing required fields: customerId or amount"
  const INVOICE_NOT_FOUND := "Invoice not found"
  const NO_TOKEN_ID := "Token API succeeded but did not return a Token ID."
  const TOKEN_CREATED := "Token created successfully."
  const NO_TRANSACTION_ID := "Transaction API succeeded but did not return a Transaction ID."

  // ---- generated identifiers -------------------------------------------------

  predicate IsHexDigit(c: char)
  {
    '0' <= c <= '9' || 'a' <= c <= 'f'
  }

  /** The first eight characters of `str(uuid.uuid4())`. */
  predicate IsUuidPrefix(u: string)
  {
    |u| == 8 && forall i :: 0 <= i < |u| ==> IsHexDigit(u[i])
  }

  function CustomerKey(uid: string): string
  {
    "cust-" + uid
  }

  function InvoiceKey(uid: string): string
  {
    "inv-" + uid
  }

  // ---- records ---------------------------------------------------------------

  /** `{'id': id, 'tokenId': None, **data}`: the body's own fields win over the defaults. */
  function NewCustomer(id: string, data: Record): (c: Record)
    ensures c.Keys == data.Keys + {"id", "tokenId"}
    ensures forall k :: k in data ==> c[k] == data[k]
    ensures "id" !in data ==> c["id"] == Str(id)
    ensures "tokenId" !in data ==> c["tokenId"] == Null
  {
    map["id" := Str(id), "tokenId" := Null] + data
  }

  /** `customer['tokenId'] = token`. */
  function WithToken(c: Record, token: Value): (r: Record)
    ensures r.Keys == c.Keys + {"tokenId"} && r["tokenId"] == token
    ensures forall k :: k in c && k != "tokenId" ==> r[k] == c[k]
  {
    c["tokenId" := token]
  }

  /** Linking a second token replaces the first: the handler is an overwrite. */
  lemma WithTokenOverwrites(c: Record, first: Value, second: Value)
    ensures WithToken(WithToken(c, first), second) == WithToken(c, second)
  {
  }

  /** The invoice `add_invoice` builds; the amount is stored as given. */
  function NewInvoice(id: string, data: Record, number: nat): (inv: Record)
    requires "customerId" in data && "amount" in data
    requires MIN_NUMBER <= number <= MAX_NUMBER
    ensures inv.Keys == {"id", "customerId", "invoiceNumber", "amount", "status", "transactionId"}
    ensures inv["id"] == Str(id)
    ensures inv["customerId"] == data["customerId"] && inv["amount"] == data["amount"]
    ensures inv["status"] == OUTSTANDING && inv["transactionId"] == Null
    ensures inv["invoiceNumber"].Str? && IsInvoiceNumber(inv["invoiceNumber"].s)
    ensures NumberOf(inv["invoiceNumber"].s) == number
  {
    map[
      "id" := Str(id),
      "customerId" := data["customerId"],
      "invoiceNumber" := Str(InvoiceNumber(number)),
      "amount" := data["amount"],
      "status" := OUTSTANDING,
      "transactionId" := Null
    ]
  }

  /** `invoice['status'] = 'Paid'; invoice['transactionId'] = transaction`. */
  function MarkPaid(inv: Record, transaction: Value): (r: Record)
    ensures r.Keys == inv.Keys + {"status", "transactionId"}
    ensures r["status"] == PAID && r["transactionId"] == transaction
    ensures forall k :: k in inv && k != "status" && k != "transactionId" ==> r[k] == inv[k]
  {
    inv["status" := PAID]["transactionId" := transaction]
  }

  /** The record `post_transaction` caches; `payload` is the body that was forwarded. */
  function TransactionRecord(body: Record, id: Value, payload: Record, invoiceId: Value): (r: Value)
    ensures r.Obj? && r.fields.Keys == {"id", "publicId", "status", "details", "local_invoice_id"}
    ensures r.fields["id"] == id && r.fields["publicId"] == Get(body, "publicId")
    ensures "status" in body ==> r.fields["status"] == body["status"]
    ensures "status" !in body ==> r.fields["status"] == Str("Completed")
    ensures r.fields["details"] == Obj(payload) && r.fields["local_invoice_id"] == invoiceId
  {
    Obj(map[
      "id" := id,
      "publicId" := Get(body, "publicId"),
      "status" := GetOr(body, "status", Str("Completed")),
      "details" := Obj(payload),
      "local_invoice_id" := invoiceId
    ])
  }

  // ---- invoice status ---------------------------------------------------------

  function Status(inv: Record): Value
  {
    Get(inv, "status")
  }

  /** What every stored invoice carries: the customer it is filtered by, and one of the two statuses. */
  ghost predicate WellFormedInvoices(invoices: map<string, Record>)
  {
    forall id :: id in invoices ==>
      "customerId" in invoices[id] && (Status(invoices[id]) == OUTSTANDING || Status(invoices[id]) == PAID)
  }

  /** No invoice disappears, and an invoice's status either stays or becomes Paid. */
  ghost predicate StatusAdvances(before: map<string, Record>, after: map<string, Record>)
  {
    forall id :: id in before ==>
      id in after && (Status(after[id]) == Status(before[id]) || Status(after[id]) == PAID)
  }

  lemma StatusAdvancesTransitive(a: map<string, Record>, b: map<string, Record>, c: map<string, Record>)
    requires StatusAdvances(a, b) && StatusAdvances(b, c)
    ensures StatusAdvances(a, c)
  {
  }

  /** Along status-advancing steps a Paid invoice stays Paid, and an Outstanding one was always Outstanding. */
  lemma StatusNeverReverts(before: map<string, Record>, after: map<string, Record>, id: string)
    requires StatusAdvances(before, after) && id in before
    ensures Status(before[id]) == PAID ==> Status(after[id]) == PAID
    ensures Status(after[id]) == OUTSTANDING ==> Status(before[id]) == OUTSTANDING
  {
  }

  lemma StatusAdvancesReflexive(invoices: map<string, Record>)
    ensures StatusAdvances(invoices, invoices)
  {
  }

  /** Marking one stored invoice paid keeps every invoice well formed and only advances statuses. */
  lemma PayKeepsInvariant(invoices: map<string, Record>, id: string, transaction: Value)
    requires WellFormedInvoices(invoices) && id in invoices
    ensures WellFormedInvoices(invoices[id := MarkPaid(invoices[id], transaction)])
    ensures StatusAdvances(invoices, invoices[id := MarkPaid(invoices[id], transaction)])
  {
  }

  // ---- reconciliation ---------------------------------------------------------

  /**
   * `invoice_id and invoice_id in invoices` for a hashable id: the reconciliation
   * check after a transaction is cached. A truthy unhashable id makes that check
   * raise instead; that case is `RaisesOnLookup`.
   */
  predicate Links(invoiceId: Value, invoices: map<string, Record>)
  {
    Truthy(invoiceId) && invoiceId.Str? && invoiceId.s in invoices
  }

  /** A truthy list or dict id makes `invoice_id in invoices` raise TypeError. */
  predicate RaisesOnLookup(invoiceId: Value)
  {
    Truthy(invoiceId) && !Hashable(invoiceId)
  }

  /** The upstream id under which a successful response can be cached. */
  predicate Storable(body: Value, primary: string)
  {
    UpstreamId(body, primary).Found? && Hashable(UpstreamId(body, primary).id)
  }

  // ---- the store --------------------------------------------------------------

  class Store {
    var customers: map<string, Record>
    var invoices: map<string, Record>
    var tokens: map<Value, Record>
    var transactions: map<Value, Value>

    ghost predicate Valid()
      reads this
    {
      WellFormedInvoices(invoices)
    }

    /** The state at start-up, holding the two demo records. */
    constructor ()
      ensures Valid()
      ensures customers == map["cust-1" := map[
        "id" := Str("cust-1"), "name" := Str("Alice Johnson"), "email" := Str("alice@example.com"),
        "phone" := Str("555-1234"), "tokenId" := Null]]
      ensures invoices == map["inv-1" := map[
        "id" := Str("inv-1"), "customerId" := Str("cust-1"), "invoiceNumber" := Str("INV-1001"),
        "amount" := Float(75.50), "status" := OUTSTANDING, "transactionId" := Null]]
      ensures tokens == map[] && transactions == map[]
    {
      customers := map["cust-1" := map[
        "id" := Str("cust-1"), "name" := Str("Alice Johnson"), "email" := Str("alice@example.com"),
        "phone" := Str("555-1234"), "tokenId" := Null]];
      invoices := map["inv-1" := map[
        "id" := Str("inv-1"), "customerId" := Str("cust-1"), "invoiceNumber" := Str("INV-1001"),
        "amount" := Float(75.50), "status" := OUTSTANDING, "transactionId" := Null]];
      tokens := map[];
      transactions := map[];
    }

    /** `POST /api/customers`. */
    method AddCustomer(data: Record, uid: string) returns (reply: Reply)
      requires Valid()
      requires IsUuidPrefix(uid) && CustomerKey(uid) !in customers
      modifies this
      ensures Valid()
      ensures invoices == old(invoices) && tokens == old(tokens) && transactions == old(transactions)
      ensures !("name" in data && "email" in data) ==>
        reply == ApiError(400, Text(MISSING_NAME_OR_EMAIL)) && customers == old(customers)
      ensures "name" in data && "email" in data ==>
        && customers == old(customers)[CustomerKey(uid) := NewCustomer(CustomerKey(uid), data)]
        && customers.Keys == old(customers).Keys + {CustomerKey(uid)}
        && reply == Body(201, Obj(NewCustomer(CustomerKey(uid), data)))
    {
      if !("name" in data && "email" in data) {
        return ApiError(400, Text(MISSING_NAME_OR_EMAIL));
      }
      var id := CustomerKey(uid);
      var customer := NewCustomer(id, data);
      customers := customers[id := customer];
      reply := Body(201, Obj(customer));
    }

    /** `GET /api/customers/<id>`. */
    method GetCustomer(id: string) returns (reply: Reply)
      ensures id !in customers ==> reply == ApiError(404, Text(CUSTOMER_NOT_FOUND))
      ensures id in customers ==> reply == Body(200, Obj(customers[id]))
    {
      if id !in customers {
        return ApiError(404, Text(CUSTOMER_NOT_FOUND));
      }
      reply := Body(200, Obj(customers[id]));
    }

    /** `POST /api/customers/<id>/token`: the customer is looked up before the body is read. */
    method SaveCustomerToken(id: string, data: Record) returns (reply: Reply)
      requires Valid()
      modifies this
      ensures Valid()
      ensures invoices == old(invoices) && tokens == old(tokens) && transactions == old(transactions)
      ensures id !in old(customers) ==>
        reply == ApiError(404, Text(CUSTOMER_NOT_FOUND)) && customers == old(customers)
      ensures id in old(customers) && !Truthy(Get(data, "tokenId")) ==>
        reply == ApiError(400, Text(MISSING_TOKEN_ID)) && customers == old(customers)
      ensures id in old(customers) && Truthy(Get(data, "tokenId")) ==>
        && customers == old(customers)[id := WithToken(old(customers)[id], data["tokenId"])]
        && reply == Body(200, Obj(map["message" := Str(TOKEN_LINKED), "customer" := Obj(customers[id])]))
    {
      if id !in customers {
        return ApiError(404, Text(CUSTOMER_NOT_FOUND));
      }
      var token := Get(data, "tokenId");
      if !Truthy(token) {
        return ApiError(400, Text(MISSING_TOKEN_ID));
      }
      customers := customers[id := WithToken(customers[id], token)];
      reply := Body(200, Obj(map["message" := Str(TOKEN_LINKED), "customer" := Obj(customers[id])]));
    }

    /** Whether `list_invoices` filters: the query names a known customer. */
    predicate Filters(customerId: Option<string>)
      reads this
    {
      customerId.Some? && customerId.value != "" && customerId.value in customers
    }

    /**
     * `GET /api/invoices?customerId=...`: the invoices of a known customer, and
     * every invoice when the query is absent, empty or names no known customer.
     */
    function ListInvoices(customerId: Option<string>): (r: map<string, Record>)
      reads this
      requires Valid()
      ensures forall id :: id in r ==> id in invoices && r[id] == invoices[id]
      ensures Filters(customerId) ==>
        forall id :: id in invoices ==> (id in r <==> invoices[id]["customerId"] == Str(customerId.value))
      ensures !Filters(customerId) ==> r == invoices
    {
      if Filters(customerId) then
        map id | id in invoices && invoices[id]["customerId"] == Str(customerId.value) :: invoices[id]
      else
        invoices
    }

    /** `POST /api/invoices`. */
    method AddInvoice(data: Record, uid: string, number: nat) returns (reply: Reply)
      requires Valid()
      requires IsUuidPrefix(uid) && InvoiceKey(uid) !in invoices
      requires MIN_NUMBER <= number <= MAX_NUMBER
      modifies this
      ensures Valid() && StatusAdvances(old(invoices), invoices)
      ensures customers == old(customers) && tokens == old(tokens) && transactions == old(transactions)
      ensures !("customerId" in data && "amount" in data) ==>
        reply == ApiError(400, Text(MISSING_CUSTOMER_OR_AMOUNT)) && invoices == old(invoices)
      ensures "customerId" in data && "amount" in data ==>
        && invoices == old(invoices)[InvoiceKey(uid) := NewInvoice(InvoiceKey(uid), data, number)]
        && reply == Body(201, Obj(NewInvoice(InvoiceKey(uid), data, number)))
    {
      if !("customerId" in data && "amount" in data) {
        return ApiError(400, Text(MISSING_CUSTOMER_OR_AMOUNT));
      }
      var id := InvoiceKey(uid);
      var invoice := NewInvoice(id, data, number);
      invoices := invoices[id := invoice];
      reply := Body(201, Obj(invoice));
    }

    /** `POST /api/invoices/<id>/paid`: the transaction id is stored as given, even when absent. */
    method MarkInvoicePaid(id: string, data: Record) returns (reply: Reply)
      requires Valid()
      modifies this
      ensures Valid() && StatusAdvances(old(invoices), invoices)
      ensures customers == old(customers) && tokens == old(tokens) && transactions == old(transactions)
      ensures id !in old(invoices) ==>
        reply == ApiError(404, Text(INVOICE_NOT_FOUND)) && invoices == old(invoices)
      ensures id in old(invoices) ==>
        && invoices == old(invoices)[id := MarkPaid(old(invoices)[id], Get(data, "transactionId"))]
        && reply == Body(200, Obj(invoices[id]))
    {
      if id !in invoices {
        return ApiError(404, Text(INVOICE_NOT_FOUND));
      }
      var invoice := MarkPaid(invoices[id], Get(data, "transactionId"));
      PayKeepsInvariant(invoices, id, Get(data, "transactionId"));
      invoices := invoices[id := invoice];
      reply := Body(200, Obj(invoice));
    }

    /**
     * `POST /api/epay/tokens`. `forwarded` is the payload sent upstream, `None`
     * when local validation refused the request and nothing was sent.
     */
    method CreateToken(data: Record, upstream: Upstream) returns (reply: Reply, forwarded: Option<Record>)
      requires Valid()
      modifies this
      ensures Valid()
      ensures customers == old(customers) && invoices == old(invoices) && transactions == old(transactions)
      ensures forwarded.Some? <==> HasPayerFields(data) && HasPaymentMethod(data)
      ensures forwarded.Some? ==> SanitizedFrom(data, forwarded.value)
      ensures !HasPayerFields(data) ==> reply == ApiError(400, Text(MISSING_PAYER_FIELDS))
      ensures HasPayerFields(data) && !HasPaymentMethod(data) ==> reply == ApiError(400, Text(MISSING_PAYMENT_METHOD))
      ensures forwarded.Some? && !upstream.Ok? ==> reply == Translate(TokenApi, upstream)
      ensures forwarded.Some? && upstream.Ok? ==>
        var found := UpstreamId(upstream.body, TOKEN_ID);
        && (found.NotAnObject? ==> reply == ServerSideError(TokenApi, NoGetMessage(upstream.body)))
        && (found.Missing? ==> reply == ApiError(500, Text(NO_TOKEN_ID)))
        && (found.Found? && !Hashable(found.id) ==> reply == ServerSideError(TokenApi, UnhashableMessage(found.id)))
        && (found.Found? && Hashable(found.id) ==>
              reply == Body(201, Obj(map["tokenId" := found.id, "message" := Str(TOKEN_CREATED)])))
      ensures tokens ==
        if forwarded.Some? && upstream.Ok? && Storable(upstream.body, TOKEN_ID)
        then old(tokens)[UpstreamId(upstream.body, TOKEN_ID).id := data]
        else old(tokens)
    {
      var out := SanitizeTokenRequest(data);
      if out.Reject? {
        return out.reply, None;
      }
      forwarded := Some(out.payload);
      if !upstream.Ok? {
        reply := Translate(TokenApi, upstream);
        return;
      }
      match UpstreamId(upstream.body, TOKEN_ID)
      case NotAnObject(got) =>
        reply := ServerSideError(TokenApi, NoGetMessage(got));
      case Missing =>
        reply := ApiError(500, Text(NO_TOKEN_ID));
      case Found(id) =>
        if !Hashable(id) {
          reply := ServerSideError(TokenApi, UnhashableMessage(id));
        } else {
          // the original, unsanitised body is what is cached
          tokens := tokens[id := data];
          reply := Body(201, Obj(map["tokenId" := id, "message" := Str(TOKEN_CREATED)]));
        }
    }

    /**
     * `POST /api/epay/transactions`. `forwarded` is the payload sent upstream;
     * a successful submission is cached and reconciled with the invoice it names.
     */
    method PostTransaction(data: Record, upstream: Upstream) returns (reply: Reply, forwarded: Option<Record>)
      requires Valid()
      modifies this
      ensures Valid() && StatusAdvances(old(invoices), invoices)
      ensures customers == old(customers) && tokens == old(tokens)
      ensures forwarded.Some? <==> AMOUNT in data && TOKEN_ID in data
      ensures forwarded.None? ==> reply == ApiError(400, Text(MISSING_PAYMENT_FIELDS))
      ensures forwarded.Some? ==> INVOICE_ID !in forwarded.value && forwarded.value == data - {INVOICE_ID}
      ensures forwarded.Some? ==>
        forall k :: k in data && k != INVOICE_ID ==> k in forwarded.value && forwarded.value[k] == data[k]
      ensures forwarded.Some? && !upstream.Ok? ==> reply == Translate(TransactionApi, upstream)
      ensures forwarded.Some? && upstream.Ok? ==>
        var found := UpstreamId(upstream.body, "transactionId");
        && (found.NotAnObject? ==> reply == ServerSideError(TransactionApi, NoGetMessage(upstream.body)))
        && (found.Missing? ==> reply == ApiError(500, Text(NO_TRANSACTION_ID)))
        && (found.Found? && !Hashable(found.id) ==> reply == ServerSideError(TransactionApi, UnhashableMessage(found.id)))
        && (found.Found? && Hashable(found.id) && RaisesOnLookup(Get(data, INVOICE_ID)) ==>
              reply == ServerSideError(TransactionApi, UnhashableMessage(Get(data, INVOICE_ID))))
        && (found.Found? && Hashable(found.id) && !RaisesOnLookup(Get(data, INVOICE_ID)) ==>
              reply == Body(201, Obj(map[
                "id" := found.id,
                "publicId" := Get(upstream.body.fields, "publicId"),
                "invoiceStatusUpdated" := Bool(Get(data, INVOICE_ID) != Null)])))
      ensures transactions ==
        if forwarded.Some? && upstream.Ok? && Storable(upstream.body, "transactionId")
        then
          var id := UpstreamId(upstream.body, "transactionId").id;
          old(transactions)[id := TransactionRecord(upstream.body.fields, id, forwarded.value, Get(data, INVOICE_ID))]
        else old(transactions)
      ensures invoices ==
        if forwarded.Some? && upstream.Ok? && Storable(upstream.body, "transactionId")
           && Links(Get(data, INVOICE_ID), old(invoices))
        then
          var invoiceId := Get(data, INVOICE_ID).s;
          old(invoices)[invoiceId := MarkPaid(old(invoices)[invoiceId], UpstreamId(upstream.body, "transactionId").id)]
        else old(invoices)
    {
      var out, invoiceId := StripTransactionRequest(data);
      if out.Reject? {
        return out.reply, None;
      }
      var payload := out.payload;
      forwarded := Some(payload);
      assert invoiceId == Get(data, INVOICE_ID);
      if !upstream.Ok? {
        reply := Translate(TransactionApi, upstream);
        return;
      }
      match UpstreamId(upstream.body, "transactionId")
      case NotAnObject(got) =>
        reply := ServerSideError(TransactionApi, NoGetMessage(got));
      case Missing =>
        reply := ApiError(500, Text(NO_TRANSACTION_ID));
      case Found(id) =>
        if !Hashable(id) {
          reply := ServerSideError(TransactionApi, UnhashableMessage(id));
          return;
        }
        reply := RecordTransaction(upstream.body.fields, id, payload, invoiceId);
    }

    /**
     * The local update after a successful submission: cache the record, then mark
     * the named invoice paid. The record is already cached when the invoice lookup raises.
     */
    method RecordTransaction(body: Record, id: Value, payload: Record, invoiceId: Value) returns (reply: Reply)
      requires Valid() && Hashable(id)
      modifies this
      ensures Valid() && StatusAdvances(old(invoices), invoices)
      ensures customers == old(customers) && tokens == old(tokens)
      ensures transactions == old(transactions)[id := TransactionRecord(body, id, payload, invoiceId)]
      ensures invoices ==
        if Links(invoiceId, old(invoices))
        then old(invoices)[invoiceId.s := MarkPaid(old(invoices)[invoiceId.s], id)]
        else old(invoices)
      ensures RaisesOnLookup(invoiceId) ==> reply == ServerSideError(TransactionApi, UnhashableMessage(invoiceId))
      ensures !RaisesOnLookup(invoiceId) ==>
        reply == Body(201, Obj(map[
          "id" := id,
          "publicId" := Get(body, "publicId"),
          "invoiceStatusUpdated" := Bool(invoiceId != Null)]))
    {
      transactions := transactions[id := TransactionRecord(body, id, payload, invoiceId)];
      StatusAdvancesReflexive(invoices);
      if RaisesOnLookup(invoiceId) {
        reply := ServerSideError(TransactionApi, UnhashableMessage(invoiceId));
        return;
      }
      if Links(invoiceId, invoices) {
        PayKeepsInvariant(invoices, invoiceId.s, id);
        invoices := invoices[invoiceId.s := MarkPaid(invoices[invoiceId.s], id)];
      }
      reply := Body(201, Obj(map[
        "id" := id,
        "publicId" := Get(body, "publicId"),
        "invoiceStatusUpdated" := Bool(invoiceId != Null)]));
    }

    /**
     * `GET /api/epay/transactions/<id>`: served from the cache when it can be;
     * `called` tells whether the upstream outcome was consulted at all.
     */
    method GetTransaction(id: string, upstream: Upstream) returns (reply: Reply, called: bool)
      requires Valid()
      modifies this
      ensures Valid()
      ensures customers == old(customers) && invoices == old(invoices) && tokens == old(tokens)
      ensures called <==> Str(id) !in old(transactions)
      ensures !called ==> reply == Body(200, old(transactions)[Str(id)]) && transactions == old(transactions)
      ensures called && upstream.Ok? ==>
        reply == Body(200, upstream.body) && transactions == old(transactions)[Str(id) := upstream.body]
      ensures called && !upstream.Ok? ==>
        reply == Translate(StatusApi, upstream) && transactions == old(transactions)
    {
      if Str(id) in transactions {
        return Body(200, transactions[Str(id)]), false;
      }
      called := true;
      if !upstream.Ok? {
        reply := Translate(StatusApi, upstream);
        return;
      }
      transactions := transactions[Str(id) := upstream.body];
      reply := Body(200, upstream.body);
    }
  }
}
