/** The PayPal controller: creating an order from the checkout payload and
    capturing an approved order, which records the purchase and grants the
    course or a single-use book download. The PayPal API calls are inputs:
    the records they return, or their failure. */
module PayPal {
  import opened Wrappers
  import opened Text
  import opened Models
  import opened Db
  import Mailer
  import Courses

  // ---------------------------------------------------------------------
  // Configuration

  const DEFAULT_FRONTEND: string := "http://localhost:3000"

  /** `FRONTEND_URL` or its default, without one trailing slash (this
      controller does not trim). */
  function FrontendFromEnv(v: string): (r: string)
    ensures var t := Or(v, DEFAULT_FRONTEND); r == t || r + "/" == t
    ensures var t := Or(v, DEFAULT_FRONTEND); (|t| == 0 || t[|t| - 1] != '/') ==> r == t
    ensures var t := Or(v, DEFAULT_FRONTEND); |t| > 0 && t[|t| - 1] == '/' ==> r == t[..|t| - 1]
  {
    var t := Or(v, DEFAULT_FRONTEND);
    if |t| > 0 && t[|t| - 1] == '/' then
      assert t == t[..|t| - 1] + "/";
      t[..|t| - 1]
    else t
  }

  datatype Environment = Sandbox | Live

  /** `PAYPAL_ENV`, case-insensitive: only "live" selects the live API. */
  function EnvironmentOf(raw: string): (e: Environment)
    ensures e == Live <==> ToLower(raw) == "live"
  {
    assert ToLower("sandbox") != "live" by { assert |ToLower("sandbox")| == 7; }
    if ToLower(Or(raw, "sandbox")) == "live" then Live else Sandbox
  }

  /** The configuration the controller reads once. */
  datatype PaypalConfig = PaypalConfig(frontendUrl: string, hasPaypalCreds: bool, hasEmailCreds: bool, smtpUser: string)

  function ConfigFromEnv(frontendVar: string, clientId: string, clientSecret: string, smtpUser: string, smtpPass: string): (c: PaypalConfig)
    ensures c.hasPaypalCreds <==> clientId != "" && clientSecret != ""
    ensures c.hasEmailCreds <==> smtpUser != "" && smtpPass != ""
    ensures frontendVar == "" ==> c.frontendUrl == DEFAULT_FRONTEND
    ensures frontendVar != "" ==> c.frontendUrl == FrontendFromEnv(frontendVar)
    ensures c.smtpUser == smtpUser
  {
    PaypalConfig(FrontendFromEnv(frontendVar), clientId != "" && clientSecret != "", smtpUser != "" && smtpPass != "", smtpUser)
  }

  /** A string field of a JSON object, "" when missing. */
  function Get(m: map<string, string>, key: string): string
  {
    if key in m then m[key] else ""
  }

  // ---------------------------------------------------------------------
  // createOrder

  /** An entry of `items`. `unitAmount` is `Number(...)` of the amount and
      `currency` the raw code, both None when absent. */
  datatype OrderItem = OrderItem(itemType: string, sku: string, name: string, quantity: int,
                                 unitAmount: Option<Num>, currency: Option<string>)

  /** The body of `POST /create-order`: `items` (empty unless an array),
      `meta` (empty when absent), and the simple payload `price`, `currency`,
      `title` and `metadata` (None when absent). */
  datatype OrderRequest = OrderRequest(
    items: seq<OrderItem>,
    meta: map<string, string>,
    price: Option<Num>,
    currency: Option<string>,
    title: string,
    metadata: Option<map<string, string>>)

  /** Whether the simple payload is used: no items and a truthy price. The
      price is the body's JSON number, so it is truthy exactly when it is
      neither 0 nor NaN; a price sent as a string (truthy whenever it is not
      empty) is not part of this model. */
  predicate SimplePayload(req: OrderRequest)
  {
    |req.items| == 0 && req.price.Some? && req.price.value.Truthy()
  }

  /** The item built from the simple payload. */
  function SimpleItem(req: OrderRequest): (it: OrderItem)
    requires req.price.Some?
    ensures var md := req.metadata.GetOr(map[]);
      it.itemType == Or(Get(md, "type"), "book")
      && it.sku == Or(Get(md, "courseSlug"), Or(Get(md, "slug"), "libro-001"))
      && it.name != "" && (req.title != "" ==> it.name == req.title)
      && it.quantity == 1 && it.unitAmount == req.price
      && it.currency == Some(ToUpper(req.currency.GetOr("USD")))
  {
    var md := req.metadata.GetOr(map[]);
    OrderItem(Or(Get(md, "type"), "book"), Or(Get(md, "courseSlug"), Or(Get(md, "slug"), "libro-001")),
              Or(req.title, "Producto SINEW"), 1, req.price, Some(ToUpper(req.currency.GetOr("USD"))))
  }

  /** `items` after the compatibility step pushed the simple item. */
  function EffectiveItems(req: OrderRequest): (r: seq<OrderItem>)
    ensures SimplePayload(req) ==> r == [SimpleItem(req)]
    ensures !SimplePayload(req) ==> r == req.items
  {
    if SimplePayload(req) then [SimpleItem(req)] else req.items
  }

  /** `meta` after the compatibility step copied `metadata` into it. */
  function EffectiveMeta(req: OrderRequest): (r: map<string, string>)
    ensures SimplePayload(req) && |req.meta| == 0 && req.metadata.Some? ==> r == req.metadata.value
    ensures !(SimplePayload(req) && |req.meta| == 0 && req.metadata.Some?) ==> r == req.meta
  {
    if SimplePayload(req) && |req.meta| == 0 && req.metadata.Some? then req.metadata.value else req.meta
  }

  /** The purchase unit sent to PayPal (intent CAPTURE, PAY_NOW, brand
      SINEW). `value` is the amount before `toFixed(2)`. */
  datatype OrderBody = OrderBody(currencyCode: string, value: Num, description: string, customId: string)

  const COURSE_PREFIX: string := "course:"
  const BOOK_SKU: string := "libro-001"

  /** The custom id: the course of `meta`, else the book. */
  function CustomId(meta: map<string, string>): (r: string)
    ensures Get(meta, "courseSlug") != "" ==> r == COURSE_PREFIX + Get(meta, "courseSlug")
    ensures Get(meta, "courseSlug") == "" ==> r == BOOK_SKU
  {
    if Get(meta, "courseSlug") != "" then COURSE_PREFIX + Get(meta, "courseSlug") else BOOK_SKU
  }

  function OrderBodyOf(req: OrderRequest): (b: OrderBody)
    ensures var items := EffectiveItems(req);
      (|items| == 0 ==> b.value == Finite(35.0) && b.currencyCode == "USD" && b.description == "Producto SINEW")
      && (|items| > 0 ==> b.value == items[0].unitAmount.GetOr(Finite(35.0))
                          && b.currencyCode == ToUpper(items[0].currency.GetOr("USD"))
                          && b.description == Or(items[0].name, "Producto SINEW"))
    ensures b.customId == CustomId(EffectiveMeta(req))
    ensures ToUpper(b.currencyCode) == b.currencyCode
  {
    var items := EffectiveItems(req);
    var currency := if |items| > 0 then ToUpper(items[0].currency.GetOr("USD")) else "USD";
    ToUpperIdempotent(if |items| > 0 then items[0].currency.GetOr("USD") else "USD");
    assert ToUpper("USD") == "USD";
    OrderBody(
      currency,
      if |items| > 0 then items[0].unitAmount.GetOr(Finite(35.0)) else Finite(35.0),
      if |items| > 0 then Or(items[0].name, "Producto SINEW") else "Producto SINEW",
      CustomId(EffectiveMeta(req)))
  }

  /** The simple payload with a price and no items gives one item whose
      type, sku and currency come from the metadata, the defaults and the
      upper-cased currency. */
  lemma SimplePayloadOrder(req: OrderRequest)
    requires |req.items| == 0 && req.price.Some? && req.price.value.Truthy()
    ensures var md := req.metadata.GetOr(map[]);
      EffectiveItems(req) == [SimpleItem(req)]
      && SimpleItem(req).itemType == Or(Get(md, "type"), "book")
      && SimpleItem(req).sku == Or(Get(md, "courseSlug"), Or(Get(md, "slug"), "libro-001"))
      && OrderBodyOf(req).currencyCode == ToUpper(req.currency.GetOr("USD"))
      && OrderBodyOf(req).value == req.price.value
  {
    ToUpperIdempotent(req.currency.GetOr("USD"));
  }

  /** A link of the created order. */
  datatype Link = Link(rel: string, href: string)

  /** The position of the first link whose `rel` is "approve". */
  function FirstApprove(links: seq<Link>): (r: Option<nat>)
    ensures r.Some? ==> r.value < |links| && links[r.value].rel == "approve"
    ensures r.Some? ==> forall j | 0 <= j < r.value :: links[j].rel != "approve"
    ensures r.None? ==> forall j | 0 <= j < |links| :: links[j].rel != "approve"
  {
    if |links| == 0 then None
    else if links[0].rel == "approve" then Some(0)
    else
      match FirstApprove(links[1..])
      case None => None
      case Some(k) => Some(k + 1)
  }

  /** `links.find(l => l.rel === 'approve')?.href || null` ("" for null). */
  function ApproveUrl(links: seq<Link>): (r: string)
    ensures (forall j | 0 <= j < |links| :: links[j].rel != "approve") ==> r == ""
    ensures r != "" ==> exists j | 0 <= j < |links| :: links[j].rel == "approve" && links[j].href == r
    ensures FirstApprove(links).Some? ==> r == links[FirstApprove(links).value].href
  {
    match FirstApprove(links)
    case None => ""
    case Some(i) => links[i].href
  }

  datatype CreatedOrder = CreatedOrder(id: string, status: string, links: seq<Link>)

  datatype CreateOrderReply =
    | OrderNotConfigured            // 500, "PayPal no configurado"
    | CreateOrderFailed             // 500
    | OrderCreated(id: string, status: string, approveUrl: string, links: seq<Link>)  // 201

  /** `createOrder`; `execute` is the API call (None when it throws). */
  function CreateOrder(cfg: PaypalConfig, req: OrderRequest, execute: OrderBody -> Option<CreatedOrder>): (r: CreateOrderReply)
    ensures !cfg.hasPaypalCreds ==> r == OrderNotConfigured
    ensures cfg.hasPaypalCreds ==> (r.OrderCreated? <==> execute(OrderBodyOf(req)).Some?)
    ensures r.OrderCreated? ==>
      var o := execute(OrderBodyOf(req)).value;
      r.id == o.id && r.links == o.links && r.approveUrl == ApproveUrl(o.links)
  {
    if !cfg.hasPaypalCreds then OrderNotConfigured
    else
      match execute(OrderBodyOf(req))
      case None => CreateOrderFailed
      case Some(o) => OrderCreated(o.id, o.status, ApproveUrl(o.links), o.links)
  }

  // ---------------------------------------------------------------------
  // captureOrder

  /** The body of `POST /capture-order` ("" for a missing field). */
  datatype CaptureRequest = CaptureRequest(orderId: string, courseSlug: string, email: string, name: string)

  /** What the capture call returns: its status, the first purchase unit's
      custom id and description, the first capture's amount (`Number` of
      the value, 0 when missing) and currency, and the payer. */
  datatype Capture = Capture(
    status: string,
    customId: string,
    description: string,
    amount: Num,
    currencyCode: string,
    payerEmail: string,
    givenName: string,
    surname: string)

  /** The payer's given name and surname, the present ones joined by a
      space. */
  function PayerName(c: Capture): (r: string)
    ensures c.givenName != "" && c.surname != "" ==> r == c.givenName + " " + c.surname
    ensures c.givenName == "" ==> r == c.surname
    ensures c.surname == "" ==> r == c.givenName
  {
    if c.givenName != "" && c.surname != "" then c.givenName + " " + c.surname
    else Or(c.givenName, c.surname)
  }

  /** The e-mail of the body, else the payer's ("" for null). */
  function FinalEmail(req: CaptureRequest, c: Capture): string
  {
    Or(req.email, c.payerEmail)
  }

  function FinalName(req: CaptureRequest, c: Capture): string
  {
    Trim(Or(req.name, Or(PayerName(c), "Buyer")))
  }

  /** The course of the capture: the text after "course:" (case-sensitive)
      in the custom id, up to the next colon, when that text is non-empty;
      else the body's ("course:" and "course::x" give the body's). */
  function CaptureSlug(customId: string, bodySlug: string): (r: string)
    ensures StartsWith(customId, COURSE_PREFIX) && Field(customId, ':', 1) != "" ==> r == Field(customId, ':', 1)
    ensures !(StartsWith(customId, COURSE_PREFIX) && Field(customId, ':', 1) != "") ==> r == bodySlug
  {
    Or(if StartsWith(customId, COURSE_PREFIX) then Field(customId, ':', 1) else "", bodySlug)
  }

  /** A custom id made by `createOrder` for a course gives that course
      back, whatever the body says; the book's gives the body's slug, and
      with none the book is granted. */
  lemma CustomIdRoundTrip(meta: map<string, string>, bodySlug: string)
    requires ':' !in Get(meta, "courseSlug")
    ensures Get(meta, "courseSlug") != "" ==> CaptureSlug(CustomId(meta), bodySlug) == Get(meta, "courseSlug")
    ensures Get(meta, "courseSlug") == "" ==> CaptureSlug(CustomId(meta), bodySlug) == bodySlug
  {
    var slug := Get(meta, "courseSlug");
    if slug != "" {
      assert CustomId(meta) == "course" + [':'] + slug;
      assert CustomId(meta)[..7] == COURSE_PREFIX;
      SplitAtFirst("course", ':', slug);
      SplitNoSep(slug, ':');
    } else {
      assert CustomId(meta)[0] == 'l';
    }
  }

  const PROVIDER: string := "paypal"
  const TEMP_HASH: string := "TEMP"

  function PurchaseInputOf(orderId: string, c: Capture, userId: Option<UserId>, slug: string, now: Millis): (i: PurchaseInput)
    ensures i.orderId == orderId && i.userId == userId && i.price == c.amount
    ensures i.bookId == (if slug != "" then None else Some(BOOK_SKU))
    ensures i.status == Some("paid") && i.currency == Some(ToUpper(Or(c.currencyCode, "USD")))
  {
    PurchaseInput(userId, if slug != "" then None else Some(BOOK_SKU), Some(now), c.amount,
                  Some(ToUpper(Or(c.currencyCode, "USD"))), Some("paid"), orderId, Some(PROVIDER),
                  if slug != "" then Some(slug) else None)
  }

  /** The buyer: the authenticated user; else, with an e-mail, the user
      stored under it or a new one; else none. Store errors are not caught
      here: they end the capture with 500. */
  method CaptureBuyer(store: Store, reqUser: Option<UserId>, email: string, name: string)
    returns (r: Result<Option<UserId>, DbError>)
    requires store.Valid()
    modifies store
    ensures store.Valid()
    ensures reqUser.Some? ==> r == Ok(reqUser) && store.users == old(store.users)
    ensures reqUser.None? && email == "" ==> r == Ok(None) && store.users == old(store.users)
    ensures reqUser.None? && email != "" && !old(store.online) ==> r == Err(Unavailable)
    ensures reqUser.None? && email != "" && old(store.online) && old(store.EmailOwner(EmailSetter(email))).Some? ==>
      r == Ok(old(store.EmailOwner(EmailSetter(email)))) && store.users == old(store.users)
    ensures reqUser.None? && email != "" && old(store.online) && old(store.EmailOwner(EmailSetter(email))).None? ==>
      (r.Ok? <==> EmailSetter(email) != "" && MatchesLooseEmail(EmailSetter(email)))
    ensures reqUser.None? && r.Ok? && r.value.Some? ==>
      r.value.value in store.users && store.users[r.value.value].email == EmailSetter(email)
    ensures r.Err? ==> store.users == old(store.users)
    ensures Grows(old(store.users), store.users)
    ensures store.online == old(store.online) && store.purchases == old(store.purchases) && store.tokens == old(store.tokens)
      && store.access == old(store.access) && store.resets == old(store.resets)
      && store.courses == old(store.courses) && store.books == old(store.books)
  {
    if reqUser.Some? { return Ok(reqUser); }
    if email == "" { return Ok(None); }
    r := BuyerByEmail(store, email, name);
  }

  /** The user stored under a given e-mail, or a new one. */
  method BuyerByEmail(store: Store, email: string, name: string) returns (r: Result<Option<UserId>, DbError>)
    requires store.Valid()
    modifies store
    ensures store.Valid()
    ensures !old(store.online) ==> r == Err(Unavailable)
    ensures old(store.online) && old(store.EmailOwner(EmailSetter(email))).Some? ==>
      r == Ok(old(store.EmailOwner(EmailSetter(email)))) && store.users == old(store.users)
    ensures old(store.online) && old(store.EmailOwner(EmailSetter(email))).None? ==>
      (r.Ok? <==> EmailSetter(email) != "" && MatchesLooseEmail(EmailSetter(email)))
    ensures r.Ok? ==> r.value.Some? && r.value.value in store.users && store.users[r.value.value].email == EmailSetter(email)
    ensures r.Err? ==> store.users == old(store.users)
    ensures Grows(old(store.users), store.users)
    ensures store.online == old(store.online) && store.purchases == old(store.purchases) && store.tokens == old(store.tokens)
      && store.access == old(store.access) && store.resets == old(store.resets)
      && store.courses == old(store.courses) && store.books == old(store.books)
  {
    var found := store.FindUserByEmail(email);
    if found.Err? { return Err(found.error); }
    if found.value.Some? { return Ok(Some(found.value.value.id)); }
    var created := store.CreateUser(Some(name), email, TEMP_HASH);
    if created.Err? { return Err(created.error); }
    return Ok(Some(created.value.id));
  }

  /** A mail the capture asks for: one through the mailer, or the plain
      SMTP fallback sent when the mailer throws for a book. */
  datatype OutgoingMail =
    | ViaMailer(request: Mailer.MailRequest)
    | FallbackSmtp(from: string, to: string, subject: string, html: string)

  function CourseUrl(cfg: PaypalConfig, slug: string): string
  {
    cfg.frontendUrl + "/cursos/" + slug + "?paid=1"
  }

  function DownloadUrl(cfg: PaypalConfig, token: string): string
  {
    cfg.frontendUrl + "/gracias?status=success&download=" + EncodeUriComponent(token)
  }

  /** The fallback message's body. */
  const FALLBACK_SUBJECT: string := "Tu enlace de descarga del libro"

  /** The sender of the direct SMTP fallback. */
  function FallbackFrom(cfg: PaypalConfig): string
  {
    "\"SINEW\" <" + cfg.smtpUser + ">"
  }

  function FallbackHtml(name: string, url: string): string
  {
    "<p>Hola " + name + ",</p>\n                   <p>Gracias por tu compra. Descarga tu libro (24h):</p>\n                   <a href=\""
      + url + "\">" + url + "</a>"
  }

  /** The course e-mail a PayPal grant requests: none without an address,
      else the course mail through the mailer, greeted by the trimmed name
      or "Alumno", with the title (else the default) and the course page. */
  function CourseMails(cfg: PaypalConfig, email: string, name: string, slug: string, title: string): seq<OutgoingMail>
  {
    if email == "" then []
    else [ViaMailer(Mailer.CourseAccessMail(email, Trim(Or(name, "Alumno")), Or(title, Mailer.DEFAULT_COURSE_TITLE), CourseUrl(cfg, slug)))]
  }

  /** `fulfillCourseAccess` of this controller: an insert-only upsert, so an
      existing grant of the pair keeps its provider, origin and date. */
  method FulfillCourseAccess(store: Store, cfg: PaypalConfig, userId: Option<UserId>, email: string, name: string,
                             slug: string, title: string, now: Millis)
    returns (r: Result<Option<string>, DbError>, mails: seq<OutgoingMail>)
    requires store.Valid()
    modifies store
    ensures store.Valid()
    ensures slug == "" ==> r == Ok(None) && mails == [] && store.access == old(store.access)
    ensures slug != "" ==> (r.Ok? <==> old(store.online))
    ensures slug != "" && r.Ok? ==>
      r.value == Some(CourseUrl(cfg, slug))
      && store.access == InsertGrant(old(store.access), AccessKey(userId, slug), PROVIDER, ByPaypal, now)
      && mails == CourseMails(cfg, email, name, slug, title)
    ensures r.Err? ==> store.access == old(store.access) && mails == []
    ensures store.users == old(store.users) && store.nextId == old(store.nextId) && store.online == old(store.online)
      && store.purchases == old(store.purchases) && store.tokens == old(store.tokens) && store.resets == old(store.resets)
      && store.courses == old(store.courses) && store.books == old(store.books)
  {
    mails := [];
    if slug == "" { return Ok(None), mails; }
    var up := store.UpsertAccessSetOnInsert(AccessKey(userId, slug), PROVIDER, ByPaypal, now);
    if up.Err? { return Err(up.error), mails; }
    mails := CourseMails(cfg, email, name, slug, title);
    return Ok(Some(CourseUrl(cfg, slug))), mails;
  }

  /** The purchase mail of a book sale, through the mailer. */
  function BookMail(email: string, name: string, url: string): OutgoingMail
  {
    ViaMailer(Mailer.PurchaseMail(email, Trim(Or(name, "Buyer")), url, None, ""))
  }

  /** The direct SMTP mail sent when the mailer threw. */
  function FallbackMail(cfg: PaypalConfig, email: string, name: string, url: string): OutgoingMail
  {
    FallbackSmtp(FallbackFrom(cfg), email, FALLBACK_SUBJECT, FallbackHtml(name, url))
  }

  /** The mails of a book sale: none without an e-mail; otherwise the
      purchase mail, and the direct SMTP fallback when the mailer threw
      and SMTP credentials are set. */
  function BookMails(cfg: PaypalConfig, email: string, name: string, url: string, mailerThrows: bool): (r: seq<OutgoingMail>)
    ensures |r| == (if email == "" then 0 else if mailerThrows && cfg.hasEmailCreds then 2 else 1)
    ensures |r| > 0 ==> r[0] == BookMail(email, name, url)
    ensures |r| == 2 ==> r[1] == FallbackMail(cfg, email, name, url)
  {
    if email == "" then []
    else if mailerThrows && cfg.hasEmailCreds then [BookMail(email, name, url), FallbackMail(cfg, email, name, url)]
    else [BookMail(email, name, url)]
  }

  /** `fulfillBookDownload` of this controller: a fresh 24-hour token and a
      purchase e-mail; when the mailer throws (`mailerThrows`) and SMTP
      credentials exist, a plain fallback message is sent as well. */
  method FulfillBookDownload(store: Store, cfg: PaypalConfig, userId: Option<UserId>, email: string, name: string,
                             random: seq<byte>, mailerThrows: bool, now: Millis)
    returns (r: Result<string, DbError>, mails: seq<OutgoingMail>)
    requires store.Valid() && |random| == 32
    modifies store
    ensures store.Valid()
    ensures r.Ok? <==> old(store.online) && HexEncode(random) !in old(store.tokens)
    ensures r.Ok? ==>
      var token := HexEncode(random);
      var url := DownloadUrl(cfg, token);
      r.value == url
      && store.tokens == old(store.tokens)[token := DownloadToken(userId, token, now + DAY_MS, false)]
      && mails == BookMails(cfg, email, name, url, mailerThrows)
    ensures r.Err? ==> store.tokens == old(store.tokens) && mails == []
    ensures store.users == old(store.users) && store.nextId == old(store.nextId) && store.online == old(store.online)
      && store.purchases == old(store.purchases) && store.access == old(store.access) && store.resets == old(store.resets)
      && store.courses == old(store.courses) && store.books == old(store.books)
  {
    mails := [];
    var token := HexEncode(random);
    assert |token| == 64;
    assert NewDownloadToken(userId, token, Some(now + DAY_MS), Some(false)).Ok?;
    var made := store.CreateToken(userId, token, Some(now + DAY_MS), Some(false));
    if made.Err? { return Err(made.error), mails; }
    var url := DownloadUrl(cfg, token);
    mails := BookMails(cfg, email, name, url, mailerThrows);
    return Ok(url), mails;
  }

  datatype CaptureReply =
    | CaptureNotConfigured          // 500, "PayPal no configurado"
    | MissingOrderId                // 400, "Falta orderID"
    | OrderNotApproved              // 400, "Orden no aprobada"
    | PaymentNotCompleted           // 400, "Pago no completado"
    | CaptureFailed                 // 500, "Error capturando pago"
    | CaptureOk(redirectTo: string) // success: true
    | Unauthorized                  // 401, "UNAUTHORIZED", from `authRequired`

  const UNAUTHORIZED: string := "UNAUTHORIZED"

  /** `authRequired` in front of `capture-order`: the user of a Bearer
      token that verifies, or None for its 401 answer: no token, no secret
      configured (the verification throws), a token that does not verify,
      or claims with neither `id` nor `userId`. */
  function CaptureAuth(header: string, hasSecret: bool, verify: string -> Option<Courses.Claims>): (r: Option<UserId>)
    ensures Courses.BearerToken(header) == "" || !hasSecret ==> r.None?
    ensures var t := Courses.BearerToken(header);
      t != "" && hasSecret && verify(t).None? ==> r.None?
    ensures var t := Courses.BearerToken(header);
      t != "" && hasSecret && verify(t).Some? ==> r == Courses.ClaimedUser(verify(t).value)
  {
    var t := Courses.BearerToken(header);
    if t == "" || !hasSecret then None
    else if verify(t).None? then None
    else Courses.ClaimedUser(verify(t).value)
  }

  /** Whether the capture gets past its guards: credentials, an order id,
      an order read as APPROVED, and a capture COMPLETED (both exact). */
  predicate CaptureGatePasses(cfg: PaypalConfig, orderId: string, getOrder: string -> Option<string>,
                              capture: string -> Option<Capture>)
  {
    cfg.hasPaypalCreds && orderId != "" && getOrder(orderId) == Some("APPROVED")
    && capture(orderId).Some? && capture(orderId).value.status == "COMPLETED"
  }

  /** `captureOrder`. `getOrder` reads the order's status and `capture`
      captures it (None when the call throws); `reqUser` is the
      authenticated user. `calls` counts the PayPal calls made. */
  method CaptureOrder(store: Store, cfg: PaypalConfig, req: CaptureRequest, reqUser: Option<UserId>,
                      getOrder: string -> Option<string>, capture: string -> Option<Capture>,
                      random: seq<byte>, mailerThrows: bool, now: Millis)
    returns (reply: CaptureReply, mails: seq<OutgoingMail>, ghost calls: nat, ghost buyer: Option<UserId>)
    requires store.Valid() && |random| == 32
    modifies store
    ensures store.Valid()
    ensures reply != Unauthorized
    ensures !cfg.hasPaypalCreds ==> reply == CaptureNotConfigured && calls == 0
    ensures cfg.hasPaypalCreds && req.orderId == "" ==> reply == MissingOrderId && calls == 0
    ensures cfg.hasPaypalCreds && req.orderId != "" && getOrder(req.orderId).None? ==> reply == CaptureFailed
    ensures cfg.hasPaypalCreds && req.orderId != "" && getOrder(req.orderId).Some? && getOrder(req.orderId) != Some("APPROVED") ==>
      reply == OrderNotApproved && calls == 1
    ensures cfg.hasPaypalCreds && req.orderId != "" && getOrder(req.orderId) == Some("APPROVED") && capture(req.orderId).None? ==>
      reply == CaptureFailed
    ensures cfg.hasPaypalCreds && req.orderId != "" && getOrder(req.orderId) == Some("APPROVED") && capture(req.orderId).Some?
            && capture(req.orderId).value.status != "COMPLETED" ==>
      reply == PaymentNotCompleted
    ensures !CaptureGatePasses(cfg, req.orderId, getOrder, capture) ==> store.State() == old(store.State()) && mails == []
    ensures CaptureGatePasses(cfg, req.orderId, getOrder, capture) ==>
      var c := capture(req.orderId).value;
      var slug := CaptureSlug(c.customId, req.courseSlug);
      var token := HexEncode(random);
      (reqUser.Some? ==> buyer == reqUser)
      && (req.orderId in old(store.purchases) ==>
            reply == CaptureFailed && store.purchases == old(store.purchases)
            && store.access == old(store.access) && store.tokens == old(store.tokens))
      && (reply.CaptureOk? ==>
            c.amount.Finite? && req.orderId !in old(store.purchases)
            && store.purchases == old(store.purchases)[req.orderId := NewPurchase(PurchaseInputOf(req.orderId, c, buyer, slug, now), now).value])
      && (reply.CaptureOk? && slug != "" ==>
            reply.redirectTo == CourseUrl(cfg, slug) && store.tokens == old(store.tokens)
            && store.access == InsertGrant(old(store.access), AccessKey(buyer, slug), PROVIDER, ByPaypal, now)
            && mails == CourseMails(cfg, FinalEmail(req, c), FinalName(req, c), slug, c.description))
      && (reply.CaptureOk? && slug == "" ==>
            reply.redirectTo == DownloadUrl(cfg, token) && store.access == old(store.access)
            && store.tokens == old(store.tokens)[token := DownloadToken(buyer, token, now + DAY_MS, false)]
            && mails == BookMails(cfg, FinalEmail(req, c), FinalName(req, c), DownloadUrl(cfg, token), mailerThrows))
      && (old(store.online) && c.amount.Finite? && req.orderId !in old(store.purchases)
          && (reqUser.Some? || FinalEmail(req, c) == "") && (slug != "" || token !in old(store.tokens)) ==>
            reply.CaptureOk?)
    ensures CaptureGatePasses(cfg, req.orderId, getOrder, capture) && reqUser.None? ==>
      var email := FinalEmail(req, capture(req.orderId).value);
      (email == "" ==> buyer == None)
      && (email != "" && old(store.online) && old(store.EmailOwner(EmailSetter(email))).Some? ==>
            buyer == old(store.EmailOwner(EmailSetter(email))))
      && (buyer.Some? ==> buyer.value in store.users && store.users[buyer.value].email == EmailSetter(email))
    ensures reply == CaptureFailed ==> store.access == old(store.access) && store.tokens == old(store.tokens) && mails == []
    ensures Grows(old(store.purchases), store.purchases) && Grows(old(store.users), store.users)
    ensures store.online == old(store.online) && store.resets == old(store.resets)
      && store.courses == old(store.courses) && store.books == old(store.books)
  {
    mails, calls, buyer := [], 0, None;
    if !cfg.hasPaypalCreds { return CaptureNotConfigured, mails, calls, buyer; }
    if req.orderId == "" { return MissingOrderId, mails, calls, buyer; }
    var orderId := req.orderId;
    var before := getOrder(orderId);
    calls := 1;
    if before.None? { return CaptureFailed, mails, calls, buyer; }
    if before.value != "APPROVED" { return OrderNotApproved, mails, calls, buyer; }
    var captured := capture(orderId);
    calls := 2;
    if captured.None? { return CaptureFailed, mails, calls, buyer; }
    var c := captured.value;
    if c.status != "COMPLETED" { return PaymentNotCompleted, mails, calls, buyer; }
    var slug := CaptureSlug(c.customId, req.courseSlug);
    reply, mails, buyer := RecordAndGrant(store, cfg, orderId, c, slug, reqUser, FinalEmail(req, c), FinalName(req, c),
                                          random, mailerThrows, now);
  }

  /** `POST /capture-order`: `authRequired`, then `captureOrder` with the
      token's user. A refused request reaches neither PayPal nor the store;
      an accepted one records the purchase under the token's user. */
  method CaptureRoute(store: Store, cfg: PaypalConfig, header: string, hasSecret: bool,
                      verify: string -> Option<Courses.Claims>, req: CaptureRequest,
                      getOrder: string -> Option<string>, capture: string -> Option<Capture>,
                      random: seq<byte>, mailerThrows: bool, now: Millis)
    returns (reply: CaptureReply, mails: seq<OutgoingMail>, ghost calls: nat)
    requires store.Valid() && |random| == 32
    modifies store
    ensures store.Valid()
    ensures reply == Unauthorized <==> CaptureAuth(header, hasSecret, verify).None?
    ensures reply == Unauthorized ==> store.State() == old(store.State()) && mails == [] && calls == 0
    ensures CaptureAuth(header, hasSecret, verify).Some? && !cfg.hasPaypalCreds ==> reply == CaptureNotConfigured && calls == 0
    ensures CaptureAuth(header, hasSecret, verify).Some? && cfg.hasPaypalCreds && req.orderId == "" ==>
      reply == MissingOrderId && calls == 0
    ensures CaptureAuth(header, hasSecret, verify).Some? && cfg.hasPaypalCreds && req.orderId != "" && getOrder(req.orderId).None? ==>
      reply == CaptureFailed
    ensures CaptureAuth(header, hasSecret, verify).Some? && cfg.hasPaypalCreds && req.orderId != ""
            && getOrder(req.orderId).Some? && getOrder(req.orderId) != Some("APPROVED") ==>
      reply == OrderNotApproved && calls == 1
    ensures CaptureAuth(header, hasSecret, verify).Some? && cfg.hasPaypalCreds && req.orderId != ""
            && getOrder(req.orderId) == Some("APPROVED") && capture(req.orderId).None? ==>
      reply == CaptureFailed
    ensures CaptureAuth(header, hasSecret, verify).Some? && cfg.hasPaypalCreds && req.orderId != ""
            && getOrder(req.orderId) == Some("APPROVED") && capture(req.orderId).Some?
            && capture(req.orderId).value.status != "COMPLETED" ==>
      reply == PaymentNotCompleted
    ensures !CaptureGatePasses(cfg, req.orderId, getOrder, capture) ==> store.State() == old(store.State()) && mails == []
    ensures CaptureAuth(header, hasSecret, verify).Some? && CaptureGatePasses(cfg, req.orderId, getOrder, capture) ==>
      var user := CaptureAuth(header, hasSecret, verify);
      var c := capture(req.orderId).value;
      var slug := CaptureSlug(c.customId, req.courseSlug);
      var token := HexEncode(random);
      (req.orderId in old(store.purchases) ==>
         reply == CaptureFailed && store.purchases == old(store.purchases)
         && store.access == old(store.access) && store.tokens == old(store.tokens))
      && (reply.CaptureOk? ==>
            c.amount.Finite? && req.orderId !in old(store.purchases)
            && store.purchases == old(store.purchases)[req.orderId := NewPurchase(PurchaseInputOf(req.orderId, c, user, slug, now), now).value])
      && (reply.CaptureOk? && slug != "" ==>
            reply.redirectTo == CourseUrl(cfg, slug) && store.tokens == old(store.tokens)
            && store.access == InsertGrant(old(store.access), AccessKey(user, slug), PROVIDER, ByPaypal, now)
            && mails == CourseMails(cfg, FinalEmail(req, c), FinalName(req, c), slug, c.description))
      && (reply.CaptureOk? && slug == "" ==>
            reply.redirectTo == DownloadUrl(cfg, token) && store.access == old(store.access)
            && store.tokens == old(store.tokens)[token := DownloadToken(user, token, now + DAY_MS, false)]
            && mails == BookMails(cfg, FinalEmail(req, c), FinalName(req, c), DownloadUrl(cfg, token), mailerThrows))
      && (old(store.online) && c.amount.Finite? && req.orderId !in old(store.purchases)
          && (slug != "" || token !in old(store.tokens)) ==>
            reply.CaptureOk?)
    ensures reply == CaptureFailed ==> store.access == old(store.access) && store.tokens == old(store.tokens) && mails == []
    ensures Grows(old(store.purchases), store.purchases) && Grows(old(store.users), store.users)
    ensures store.online == old(store.online) && store.resets == old(store.resets)
      && store.courses == old(store.courses) && store.books == old(store.books)
  {
    var user := CaptureAuth(header, hasSecret, verify);
    if user.None? {
      return Unauthorized, [], 0;
    }
    ghost var buyer;
    reply, mails, calls, buyer := CaptureOrder(store, cfg, req, user, getOrder, capture, random, mailerThrows, now);
  }

  /** The buyer and the purchase. A second capture of the same order hits
      the unique order id and fails. */
  method RecordCapture(store: Store, orderId: string, c: Capture, slug: string,
                       reqUser: Option<UserId>, email: string, name: string, now: Millis)
    returns (userId: Option<UserId>, recorded: bool)
    requires store.Valid()
    modifies store
    ensures store.Valid()
    ensures reqUser.Some? ==> userId == reqUser
    ensures reqUser.None? && email == "" ==> userId == None
    ensures reqUser.None? && email != "" && old(store.online) && old(store.EmailOwner(EmailSetter(email))).Some? ==>
      userId == old(store.EmailOwner(EmailSetter(email)))
    ensures reqUser.None? && userId.Some? ==>
      userId.value in store.users && store.users[userId.value].email == EmailSetter(email)
    ensures recorded ==>
      c.amount.Finite? && orderId !in old(store.purchases)
      && store.purchases == old(store.purchases)[orderId := NewPurchase(PurchaseInputOf(orderId, c, userId, slug, now), now).value]
    ensures recorded ==> store.online
    ensures !recorded ==> store.purchases == old(store.purchases)
    ensures old(store.online) && c.amount.Finite? && orderId !in old(store.purchases) && (reqUser.Some? || email == "") ==>
      recorded
    ensures Grows(old(store.purchases), store.purchases) && Grows(old(store.users), store.users)
    ensures store.online == old(store.online) && store.tokens == old(store.tokens) && store.access == old(store.access)
      && store.resets == old(store.resets) && store.courses == old(store.courses) && store.books == old(store.books)
  {
    var who := CaptureBuyer(store, reqUser, email, name);
    if who.Err? { return None, false; }
    userId := who.value;
    ghost var users := store.users;
    var input := PurchaseInputOf(orderId, c, userId, slug, now);
    assert NewPurchase(input, now).Err? <==> c.amount.NaN?;
    var purchase := store.CreatePurchase(input, now);
    assert store.users == users;
    recorded := purchase.Ok?;
  }

  /** The capture's writes: the buyer, the purchase, then the grant. Any
      store error ends it with 500. */
  method RecordAndGrant(store: Store, cfg: PaypalConfig, orderId: string, c: Capture, slug: string,
                        reqUser: Option<UserId>, email: string, name: string,
                        random: seq<byte>, mailerThrows: bool, now: Millis)
    returns (reply: CaptureReply, mails: seq<OutgoingMail>, ghost buyer: Option<UserId>)
    requires store.Valid() && |random| == 32
    modifies store
    ensures store.Valid()
    ensures reply == CaptureFailed || reply.CaptureOk?
    ensures reqUser.Some? ==> buyer == reqUser
    ensures reqUser.None? && email == "" ==> buyer == None
    ensures reqUser.None? && email != "" && old(store.online) && old(store.EmailOwner(EmailSetter(email))).Some? ==>
      buyer == old(store.EmailOwner(EmailSetter(email)))
    ensures reqUser.None? && buyer.Some? ==>
      buyer.value in store.users && store.users[buyer.value].email == EmailSetter(email)
    ensures orderId in old(store.purchases) ==>
      reply == CaptureFailed && store.purchases == old(store.purchases)
      && store.access == old(store.access) && store.tokens == old(store.tokens)
    ensures reply.CaptureOk? ==>
      c.amount.Finite? && orderId !in old(store.purchases)
      && store.purchases == old(store.purchases)[orderId := NewPurchase(PurchaseInputOf(orderId, c, buyer, slug, now), now).value]
    ensures reply.CaptureOk? && slug != "" ==>
      reply.redirectTo == CourseUrl(cfg, slug) && store.tokens == old(store.tokens)
      && store.access == InsertGrant(old(store.access), AccessKey(buyer, slug), PROVIDER, ByPaypal, now)
      && mails == CourseMails(cfg, email, name, slug, c.description)
    ensures reply.CaptureOk? && slug == "" ==>
      var token := HexEncode(random);
      reply.redirectTo == DownloadUrl(cfg, token) && store.access == old(store.access)
      && store.tokens == old(store.tokens)[token := DownloadToken(buyer, token, now + DAY_MS, false)]
      && mails == BookMails(cfg, email, name, DownloadUrl(cfg, token), mailerThrows)
    ensures old(store.online) && c.amount.Finite? && orderId !in old(store.purchases)
            && (reqUser.Some? || email == "") && (slug != "" || HexEncode(random) !in old(store.tokens)) ==>
      reply.CaptureOk?
    ensures reply == CaptureFailed ==> store.access == old(store.access) && store.tokens == old(store.tokens) && mails == []
    ensures Grows(old(store.purchases), store.purchases) && Grows(old(store.users), store.users)
    ensures store.online == old(store.online) && store.resets == old(store.resets)
      && store.courses == old(store.courses) && store.books == old(store.books)
  {
    mails := [];
    ghost var tokens, access := store.tokens, store.access;
    var userId, recorded := RecordCapture(store, orderId, c, slug, reqUser, email, name, now);
    buyer := userId;
    if !recorded { return CaptureFailed, mails, buyer; }
    assert store.tokens == tokens && store.access == access;
    if slug != "" {
      var r;
      r, mails := FulfillCourseAccess(store, cfg, userId, email, name, slug, c.description, now);
      if r.Err? { return CaptureFailed, [], buyer; }
      return CaptureOk(CourseUrl(cfg, slug)), mails, buyer;
    } else {
      var r;
      r, mails := FulfillBookDownload(store, cfg, userId, email, name, random, mailerThrows, now);
      if r.Err? { return CaptureFailed, [], buyer; }
      return CaptureOk(r.value), mails, buyer;
    }
  }
}
