/**
 * The `POST /api/send-receipt` handler: it checks the recipient, builds a mail transport from the
 * environment, verifies the transport, renders the order confirmation and sends it, and maps the
 * outcome to an HTTP status. The mail library's `verify` and `sendMail` are given as their outcomes;
 * the handler returns, beside the response, the transport calls it made, in order.
 */
module ReceiptRoute {
  import opened Wrappers
  import JsNumber

  // ---------------------------------------------------------------------------------------------
  // Request

  /** `customer.email` is `undefined` when the client left it out. */
  datatype Customer = Customer(email: Option<string>, fullName: string, address: string, phone: string)

  /** The fields of a posted item that the receipt reads. */
  datatype ReceiptItem = ReceiptItem(name: string, quantity: int, price: int)

  datatype Request = Request(customer: Customer, items: seq<ReceiptItem>, total: int)

  /** What `await req.json()` and the destructuring give: the request, or the message of the error they threw. */
  datatype Body = Received(request: Request) | Unreadable(message: string)

  /** `customer.email` is truthy: present and not the empty string. */
  predicate HasRecipient(c: Customer) {
    c.email.Some? && c.email.value != ""
  }

  /** JavaScript's rendering of a value that may be `undefined` inside a template literal. */
  function JsText(v: Option<string>): string {
    if v.Some? then v.value else "undefined"
  }

  // ---------------------------------------------------------------------------------------------
  // Transport configuration

  /** The environment variables the handler reads; `None` is an unset variable. */
  datatype Env = Env(smtpHost: Option<string>, smtpPort: Option<string>, smtpUser: Option<string>, smtpPass: Option<string>)

  const DEFAULT_HOST := "smtp.gmail.com"
  const DEFAULT_PORT := 587
  const CONNECTION_TIMEOUT_MS := 10000

  datatype TransportConfig = TransportConfig(
    host: string, port: int, secure: bool, user: Option<string>, pass: Option<string>, connectionTimeout: int)

  /** `process.env.SMTP_HOST || "smtp.gmail.com"`: the variable unless it is unset or empty. */
  function Host(v: Option<string>): (host: string)
    ensures host != ""
    ensures v.Some? && v.value != "" ==> host == v.value
    ensures v.None? || v.value == "" ==> host == DEFAULT_HOST
  {
    if v.Some? && v.value != "" then v.value else DEFAULT_HOST
  }

  /** `Number(process.env.SMTP_PORT) || 587`: the number unless it reads as NaN or 0. */
  function Port(v: Option<string>): (port: int)
  {
    var n := if v.Some? then JsNumber.ToNumber(v.value) else JsNumber.NaN;
    if JsNumber.Truthy(n) then n.value else DEFAULT_PORT
  }

  /** The port falls back to 587 exactly when the variable is unset or reads as NaN or 0, and is never 0. */
  lemma PortDefaults(v: Option<string>)
    ensures Port(v) != 0
    ensures v.None? ==> Port(v) == DEFAULT_PORT
    ensures v.Some? && JsNumber.Truthy(JsNumber.ToNumber(v.value)) ==> Port(v) == JsNumber.ToNumber(v.value).value
    ensures v.Some? && !JsNumber.Truthy(JsNumber.ToNumber(v.value)) ==> Port(v) == DEFAULT_PORT
  {
  }

  /** A port written out in decimal is the port used. */
  lemma PortRoundTrip(p: int)
    requires p != 0
    ensures Port(Some(JsNumber.IntToString(p))) == p
  {
    JsNumber.ToNumberRoundTrip(p);
  }

  /** An empty or blank variable reads as 0, which is falsy, so the port falls back to 587. */
  lemma PortBlank(s: string)
    requires forall k | 0 <= k < |s| :: JsNumber.IsJsWhitespace(s[k])
    ensures Port(Some(s)) == DEFAULT_PORT
  {
    JsNumber.BlankIsZero(s);
  }

  /** A variable holding a character that can occur in no JavaScript numeric literal falls back to 587. */
  lemma NonNumericPortDefaults(s: string, k: nat)
    requires k < |s| && JsNumber.Stray(s[k])
    ensures Port(Some(s)) == DEFAULT_PORT
  {
    JsNumber.StrayIsNaN(s, k);
  }

  function TransportConfigFrom(env: Env): TransportConfig {
    TransportConfig(Host(env.smtpHost), Port(env.smtpPort), false, env.smtpUser, env.smtpPass, CONNECTION_TIMEOUT_MS)
  }

  // ---------------------------------------------------------------------------------------------
  // Rendering

  /** One `<tr>` of the item table: the name, the quantity and the unit price as shown. */
  datatype ItemRow = ItemRow(name: string, quantityText: string, priceText: string)

  /** The confirmation body: the greeting name, the item rows in order, and the TOTAL row's amount. */
  datatype ReceiptHtml = ReceiptHtml(greetingName: string, rows: seq<ItemRow>, totalText: string)

  const PESO: char := '\U{20B1}'

  /** `₱${n}` */
  function PesoAmount(n: int): string {
    [PESO] + JsNumber.IntToString(n)
  }

  function ParsePesoAmount(s: string): Option<int> {
    if |s| > 0 && s[0] == PESO then JsNumber.ParseInteger(s[1..]) else None
  }

  lemma PesoAmountRoundTrip(n: int)
    ensures ParsePesoAmount(PesoAmount(n)) == Some(n)
  {
    assert PesoAmount(n)[1..] == JsNumber.IntToString(n);
    JsNumber.IntToStringRoundTrip(n);
  }

  /** The row of one item shows its name, its quantity and its unit price, each readable back. */
  function RenderRow(item: ReceiptItem): (row: ItemRow)
    ensures row.name == item.name
    ensures JsNumber.ParseInteger(row.quantityText) == Some(item.quantity)
    ensures ParsePesoAmount(row.priceText) == Some(item.price)
  {
    JsNumber.IntToStringRoundTrip(item.quantity);
    PesoAmountRoundTrip(item.price);
    ItemRow(item.name, JsNumber.IntToString(item.quantity), PesoAmount(item.price))
  }

  /** `items.map(item => <tr>…</tr>).join("")`: one row per item, in the items' order. */
  function ItemListHtml(items: seq<ReceiptItem>): (rows: seq<ItemRow>)
    ensures |rows| == |items|
    ensures forall i | 0 <= i < |items| ::
      && rows[i].name == items[i].name
      && JsNumber.ParseInteger(rows[i].quantityText) == Some(items[i].quantity)
      && ParsePesoAmount(rows[i].priceText) == Some(items[i].price)
  {
    if items == [] then [] else [RenderRow(items[0])] + ItemListHtml(items[1..])
  }

  /** The email body: greeting by full name, the item rows, and the request's `total` as sent. */
  function EmailHtml(customer: Customer, items: seq<ReceiptItem>, total: int): (html: ReceiptHtml)
    ensures html.greetingName == customer.fullName
    ensures html.rows == ItemListHtml(items)
    ensures ParsePesoAmount(html.totalText) == Some(total)
  {
    PesoAmountRoundTrip(total);
    ReceiptHtml(customer.fullName, ItemListHtml(items), PesoAmount(total))
  }

  /** A row shows the unit price, not price times quantity, whenever the two differ. */
  lemma RowShowsUnitPrice(items: seq<ReceiptItem>, i: nat)
    requires i < |items| && items[i].quantity != 1 && items[i].price != 0
    ensures ItemListHtml(items)[i].priceText != PesoAmount(items[i].price * items[i].quantity)
  {
    var item := items[i];
    PesoAmountRoundTrip(item.price * item.quantity);
    ScaledDiffers(item.price, item.quantity);
  }

  /** Scaling a non-zero price by a quantity other than 1 changes it. */
  lemma ScaledDiffers(price: int, quantity: int)
    requires price != 0 && quantity != 1
    ensures price * quantity != price
  {
  }

  /** The TOTAL row shows the posted total whatever the items add up to: it is not recomputed. */
  lemma TotalIsNotRecomputed(customer: Customer, items: seq<ReceiptItem>, total: int, total': int)
    requires total != total'
    ensures EmailHtml(customer, items, total).rows == EmailHtml(customer, items, total').rows
    ensures EmailHtml(customer, items, total).totalText != EmailHtml(customer, items, total').totalText
  {
  }

  // ---------------------------------------------------------------------------------------------
  // The handler

  datatype Mail = Mail(from: string, to: string, subject: string, html: ReceiptHtml)

  /** A call the handler makes on the mail library. */
  datatype Effect = CreateTransport(config: TransportConfig) | VerifyTransport | SendMail(mail: Mail)

  /** How a call to `verify` or `sendMail` settles: fulfilled, or rejected with an error message. */
  datatype Outcome = Ok | Fail(message: string)

  datatype ResponseBody = Success | Error(error: string, details: Option<string>)

  datatype Response = Response(status: int, body: ResponseBody)

  const MISSING_RECIPIENT := "Recipient email is missing"
  const SEND_FAILED := "Failed to send email"
  const CONNECTION_FAILED := "SMTP Connection failed"
  const SENDER_NAME := "\"ARC APPAREL\""

  /** `{ error: "Failed to send email", details: error.message }` with status 500. */
  function ServerError(message: string): Response {
    Response(500, Error(SEND_FAILED, Some(message)))
  }

  function Sender(user: Option<string>): string {
    SENDER_NAME + " <" + JsText(user) + ">"
  }

  const SUBJECT_PREFIX := "Order Confirmation #"

  /** The subject is the fixed prefix followed by the order number, which reads back exactly. */
  function Subject(orderRef: nat): (subject: string)
    ensures |subject| > |SUBJECT_PREFIX| && subject[..|SUBJECT_PREFIX|] == SUBJECT_PREFIX
    ensures JsNumber.ParseInteger(subject[|SUBJECT_PREFIX|..]) == Some(orderRef)
  {
    var digits := JsNumber.NatToString(orderRef);
    JsNumber.ParseNatural(orderRef);
    assert (SUBJECT_PREFIX + digits)[|SUBJECT_PREFIX|..] == digits;
    SUBJECT_PREFIX + digits
  }

  /** The transport calls in the only order allowed: create, then verify, then at most one send. */
  predicate InProtocolOrder(effects: seq<Effect>) {
    && |effects| <= 3
    && (|effects| >= 1 ==> effects[0].CreateTransport?)
    && (|effects| >= 2 ==> effects[1].VerifyTransport?)
    && (|effects| == 3 ==> effects[2].SendMail?)
  }

  /**
   * `POST(req)`, with `verify` and `send` standing for how `transporter.verify()` and
   * `transporter.sendMail(...)` settle, and `orderRef` for the random order number in the subject.
   */
  method Post(body: Body, env: Env, verify: Outcome, send: Outcome, orderRef: nat)
    returns (response: Response, effects: seq<Effect>)
    requires orderRef < 100000
    ensures InProtocolOrder(effects)
    ensures response.status in {200, 400, 500}
    // A body that cannot be read fails before anything else.
    ensures body.Unreadable? ==> response == ServerError(body.message) && effects == []
    // A missing or empty recipient is the only 400, and it creates no transport.
    ensures response.status == 400 <==> body.Received? && !HasRecipient(body.request.customer)
    ensures response.status == 400 ==> response.body == Error(MISSING_RECIPIENT, None) && effects == []
    // Past validation the transport is built from the environment and verified first.
    ensures body.Received? && HasRecipient(body.request.customer) ==>
      |effects| >= 2 && effects[0] == CreateTransport(TransportConfigFrom(env))
    // A failed verification stops the request before any send.
    ensures body.Received? && HasRecipient(body.request.customer) && verify.Fail? ==>
      response == ServerError(CONNECTION_FAILED) && |effects| == 2
    // A send is attempted exactly when verification succeeded, to the one recipient.
    ensures |effects| == 3 <==> body.Received? && HasRecipient(body.request.customer) && verify.Ok?
    ensures |effects| == 3 ==>
      var request := body.request;
      effects[2].mail == Mail(Sender(env.smtpUser), request.customer.email.value, Subject(orderRef),
                              EmailHtml(request.customer, request.items, request.total))
    // A failed send reports the error's own message.
    ensures |effects| == 3 && send.Fail? ==> response == ServerError(send.message)
    // Success only after both verify and send succeeded.
    ensures response.status == 200 <==> |effects| == 3 && send.Ok?
    ensures response.status == 200 ==> response.body == Success
  {
    effects := [];
    if body.Unreadable? {
      return ServerError(body.message), effects;
    }
    var request := body.request;
    if !HasRecipient(request.customer) {
      return Response(400, Error(MISSING_RECIPIENT, None)), effects;
    }
    effects := effects + [CreateTransport(TransportConfigFrom(env))];
    effects := effects + [VerifyTransport];
    if verify.Fail? {
      return ServerError(CONNECTION_FAILED), effects;
    }
    var html := EmailHtml(request.customer, request.items, request.total);
    var mail := Mail(Sender(env.smtpUser), request.customer.email.value, Subject(orderRef), html);
    effects := effects + [SendMail(mail)];
    if send.Fail? {
      return ServerError(send.message), effects;
    }
    response := Response(200, Success);
  }
}
