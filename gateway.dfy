/**
 * The local half of the payment gateway adapter: what a handler replies, how
 * the outcome of an upstream call is represented, how upstream failures are
 * translated into replies (the same way by all three gateway handlers), and
 * how request bodies are prepared before they are forwarded.
 */
module Gateway {
  import opened Wrappers
  import opened Json

  /** The text of an `{"error": ...}` reply. */
  datatype Message =
    | Text(text: string)
      /** `f"{prefix} ({upstreamStatus}): {detail}"`, with `detail` taken from the upstream response */
    | Relayed(prefix: string, upstreamStatus: int, detail: Value)

  /** A handler's reply: `jsonify(body)` with a status, or `api_error(message, status)`. */
  datatype Reply =
    | Body(status: int, body: Value)
    | ApiError(status: int, message: Message)

  /** The outcome of one outbound call, given to a handler instead of the call itself. */
  datatype Upstream =
      /** `raise_for_status()` passed and `.json()` decoded this body */
    | Ok(body: Value)
      /** `raise_for_status()` raised; `json` is the decoded body when it is JSON, `text` the raw body */
    | HttpErr(status: int, json: Option<Value>, text: string)
      /** any other `RequestException`: refused connection, TLS failure, timeout */
    | NetErr
      /** any other exception, with its `str(e)` */
    | OtherErr(text: string)

  /** The three upstream endpoints; they differ only in the words of their error messages. */
  datatype Api = TokenApi | TransactionApi | StatusApi

  const BASE_URL := "https://api.epaypolicydemo.com:443/api/v1"

  const NETWORK_DIAGNOSTIC :=
    "Network Error (503): Connection failed. Check if API Key/Secret is correct, "
    + "or if your firewall blocks port 443 access to " + BASE_URL + ". (Check IP Whitelisting)"

  function Label(api: Api): string
  {
    match api
    case TokenApi => "External Token API Error"
    case TransactionApi => "External Transaction API Error"
    case StatusApi => "External Status Check API Error"
  }

  function Context(api: Api): string
  {
    match api
    case TokenApi => "token creation"
    case TransactionApi => "transaction post"
    case StatusApi => "status check"
  }

  /** The 500 reply of the catch-all `except Exception` of a gateway handler. */
  function ServerSideError(api: Api, text: string): Reply
  {
    ApiError(500, Text("Server-side error during " + Context(api) + ": " + text))
  }

  /** Field `k` of an upstream error body, `None` when the body is no JSON object. */
  function Field(json: Option<Value>, k: string): Value
  {
    if json.Some? && json.value.Obj? then Get(json.value.fields, k) else Null
  }

  /**
   * `json.get('error') or json.get('message') or text`, where a body that is not
   * JSON, or whose `.get` fails because it is not an object, gives the raw text.
   */
  function ErrorDetail(json: Option<Value>, text: string): (d: Value)
    ensures Truthy(Field(json, "error")) ==> d == Field(json, "error")
    ensures !Truthy(Field(json, "error")) && Truthy(Field(json, "message")) ==> d == Field(json, "message")
    ensures !Truthy(Field(json, "error")) && !Truthy(Field(json, "message")) ==> d == Str(text)
  {
    match json
    case Some(Obj(m)) => Or(Or(Get(m, "error"), Get(m, "message")), Str(text))
    case _ => Str(text)
  }

  /** The reply a gateway handler gives when its upstream call did not succeed. */
  function Translate(api: Api, u: Upstream): (r: Reply)
    requires !u.Ok?
    ensures r.ApiError?
    ensures u.HttpErr? ==> r.status == u.status
    ensures u.HttpErr? ==> r.message == Relayed(Label(api), u.status, ErrorDetail(u.json, u.text))
    ensures u.NetErr? ==> r.status == 503 && r.message == Text(NETWORK_DIAGNOSTIC)
    ensures u.OtherErr? ==> r == ServerSideError(api, u.text)
  {
    match u
    case HttpErr(status, json, text) => ApiError(status, Relayed(Label(api), status, ErrorDetail(json, text)))
    case NetErr => ApiError(503, Text(NETWORK_DIAGNOSTIC))
    case OtherErr(text) => ServerSideError(api, text)
  }

  /** The three handlers translate a failure alike: same status, same detail, same diagnostic. */
  lemma TranslateUniform(a: Api, b: Api, u: Upstream)
    requires !u.Ok?
    ensures Translate(a, u).status == Translate(b, u).status
    ensures u.HttpErr? ==> Translate(a, u).message.detail == Translate(b, u).message.detail
    ensures u.NetErr? ==> Translate(a, u) == Translate(b, u)
  {
  }

  /** A request body after local validation: refused with a reply, or forwarded upstream. */
  datatype Outbound = Reject(reply: Reply) | Forward(payload: Record)

  // ---- token creation -------------------------------------------------------

  const EMAIL := "emailAddress"
  const PAYER := "payerName"
  const CARD := "creditCardInformation"
  const BANK := "bankAccountInformation"

  const MISSING_PAYER_FIELDS := "Missing required customer fields: 'emailAddress' or 'payerName'."
  const MISSING_PAYMENT_METHOD := "Missing 'creditCardInformation' or 'bankAccountInformation' in request body."

  predicate HasPayerFields(data: Record)
  {
    EMAIL in data && PAYER in data
  }

  predicate HasPaymentMethod(data: Record)
  {
    CARD in data || BANK in data
  }

  /** The payment method that is not forwarded: the bank account when a card is given. */
  function DroppedMethod(data: Record): string
  {
    if CARD in data then BANK else CARD
  }

  /** `payload` is `data` with the non-applicable payment method taken out and nothing else changed. */
  ghost predicate SanitizedFrom(data: Record, payload: Record)
  {
    && payload.Keys == data.Keys - {DroppedMethod(data)}
    && forall k :: k in payload ==> payload[k] == data[k]
  }

  /** Validation and clean-up of a token request: copy the body, then delete one payment method. */
  method SanitizeTokenRequest(data: Record) returns (out: Outbound)
    ensures !HasPayerFields(data) ==> out == Reject(ApiError(400, Text(MISSING_PAYER_FIELDS)))
    ensures HasPayerFields(data) && !HasPaymentMethod(data) ==> out == Reject(ApiError(400, Text(MISSING_PAYMENT_METHOD)))
    ensures out.Forward? <==> HasPayerFields(data) && HasPaymentMethod(data)
    ensures out.Forward? ==> SanitizedFrom(data, out.payload)
  {
    var isCard := CARD in data;
    var isBank := BANK in data;
    if !HasPayerFields(data) {
      return Reject(ApiError(400, Text(MISSING_PAYER_FIELDS)));
    }
    var external := data;
    if isCard && isBank {
      external := external - {BANK};
    } else if isBank {
      if CARD in external {
        external := external - {CARD};
      }
    } else if isCard {
      if BANK in external {
        external := external - {BANK};
      }
    } else {
      return Reject(ApiError(400, Text(MISSING_PAYMENT_METHOD)));
    }
    return Forward(external);
  }

  /** A sanitised payload carries exactly one payment method: the card if there is one, else the bank account. */
  lemma ExactlyOneMethod(data: Record, payload: Record)
    requires HasPaymentMethod(data) && SanitizedFrom(data, payload)
    ensures (CARD in payload) != (BANK in payload)
    ensures CARD in data ==> CARD in payload && payload[CARD] == data[CARD]
    ensures CARD !in data ==> payload == data
  {
  }

  // ---- transaction submission -----------------------------------------------

  const AMOUNT := "amount"
  const TOKEN_ID := "tokenId"
  const INVOICE_ID := "invoiceId"

  const MISSING_PAYMENT_FIELDS := "Missing required fields: amount or tokenId."

  /** Validation of a transaction request and `data.pop('invoiceId', None)`. */
  method StripTransactionRequest(data: Record) returns (out: Outbound, invoiceId: Value)
    ensures !(AMOUNT in data && TOKEN_ID in data) ==> out == Reject(ApiError(400, Text(MISSING_PAYMENT_FIELDS)))
    ensures out.Forward? <==> AMOUNT in data && TOKEN_ID in data
    ensures out.Forward? ==> INVOICE_ID !in out.payload && out.payload == data - {INVOICE_ID}
    ensures out.Forward? ==> forall k :: k in data && k != INVOICE_ID ==> k in out.payload && out.payload[k] == data[k]
    ensures out.Forward? && INVOICE_ID in data ==> out.payload[INVOICE_ID := invoiceId] == data
    ensures out.Forward? && INVOICE_ID !in data ==> out.payload == data && invoiceId == Null
  {
    invoiceId := Null;
    if !(AMOUNT in data && TOKEN_ID in data) {
      out := Reject(ApiError(400, Text(MISSING_PAYMENT_FIELDS)));
      return;
    }
    var payload := data;
    if INVOICE_ID in payload {
      invoiceId := payload[INVOICE_ID];
      payload := payload - {INVOICE_ID};
    }
    out := Forward(payload);
  }

  // ---- successful upstream bodies -------------------------------------------

  /** What `body.get(primary) or body.get('id')` gives on a successful upstream body. */
  datatype IdLookup =
      /** `.get` raised AttributeError: the body is not a JSON object */
    | NotAnObject(got: Value)
      /** neither field is truthy */
    | Missing
    | Found(id: Value)

  function UpstreamId(body: Value, primary: string): (r: IdLookup)
    ensures r.NotAnObject? <==> !body.Obj?
    ensures r.NotAnObject? ==> r.got == body
    ensures body.Obj? && Truthy(Get(body.fields, primary)) ==> r == Found(body.fields[primary])
    ensures body.Obj? && !Truthy(Get(body.fields, primary)) && Truthy(Get(body.fields, "id")) ==> r == Found(body.fields["id"])
    ensures body.Obj? && !Truthy(Get(body.fields, primary)) && !Truthy(Get(body.fields, "id")) ==> r == Missing
    ensures r.Found? ==> Truthy(r.id)
  {
    match body
    case Obj(m) =>
      var id := Or(Get(m, primary), Get(m, "id"));
      if Truthy(id) then Found(id) else Missing
    case _ => NotAnObject(body)
  }
}
