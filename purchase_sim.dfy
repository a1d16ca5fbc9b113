/** The simulated book purchase (`POST /buy/:bookId`), of which the backend
    carries two copies that behave alike: it records a "manual" purchase,
    issues a 24-hour single-use download token and mails the link with an
    invoice, reporting whether the mail went out. */
module PurchaseSim {
  import opened Wrappers
  import opened Text
  import opened Models
  import opened Db
  import Courses
  import Mailer

  // ---------------------------------------------------------------------
  // authMiddleware

  datatype AuthOutcome =
    | NoToken              // 401, "No autorizado (falta token)"
    | NoUserId             // 401, "Token inválido (sin userId)"
    | BadToken             // 401, "Token inválido" (jwt.verify threw)
    | Authorized(userId: UserId)

  /** `authMiddleware`: `verify` is `jwt.verify` with the secret (None when
      it throws); with no secret configured `jwt.verify` always throws. */
  function AuthMiddleware(header: string, hasSecret: bool, verify: string -> Option<Courses.Claims>): (r: AuthOutcome)
    ensures r == NoToken <==> Courses.BearerToken(header) == ""
    ensures r.Authorized? <==>
      (r != NoToken && hasSecret && verify(Courses.BearerToken(header)).Some?
       && Courses.ClaimedUser(verify(Courses.BearerToken(header)).value).Some?)
    ensures r.Authorized? ==> Some(r.userId) == Courses.ClaimedUser(verify(Courses.BearerToken(header)).value)
    ensures !hasSecret ==> !r.Authorized?
  {
    var token := Courses.BearerToken(header);
    if token == "" then NoToken
    else if !hasSecret then BadToken
    else
      match verify(token)
      case None => BadToken
      case Some(c) =>
        match Courses.ClaimedUser(c)
        case None => NoUserId
        case Some(id) => Authorized(id)
  }

  // ---------------------------------------------------------------------
  // The purchase

  const DEFAULT_PRICE: real := 13.0
  const GREETING: string := "¡Hola!"

  /** `Number(book.price || 13.0)`: a price of 0 falls back as well. */
  function Amount(b: Book): (r: real)
    ensures b.price != 0.0 ==> r == b.price
    ensures b.price == 0.0 ==> r == DEFAULT_PRICE
    ensures r != 0.0
  {
    if b.price != 0.0 then b.price else DEFAULT_PRICE
  }

  /** `(book.currency || "USD").toUpperCase()`. */
  function Currency(b: Book): (r: string)
    ensures r == ToUpper(Or(b.currency, "USD"))
    ensures ToUpper(r) == r
  {
    ToUpperIdempotent(Or(b.currency, "USD"));
    ToUpper(Or(b.currency, "USD"))
  }

  /** `SIM-${Date.now()}`. */
  function OrderId(now: Millis): (r: string)
    ensures |r| > 4 && r[..4] == "SIM-"
  {
    "SIM-" + IntToString(now)
  }

  function PurchaseInputOf(userId: UserId, b: Book, now: Millis): (i: PurchaseInput)
    ensures i.userId == Some(userId) && i.bookId == Some(b.id) && i.price == Finite(Amount(b))
    ensures i.currency == Some(Currency(b)) && i.status == Some("paid") && i.orderId == OrderId(now)
    ensures i.provider == Some("manual") && i.purchaseDate == Some(now)
  {
    PurchaseInput(Some(userId), Some(b.id), Some(now), Finite(Amount(b)), Some(Currency(b)), Some("paid"),
                  OrderId(now), Some("manual"), None)
  }

  function ThankYouUrl(frontendUrl: string, token: string): string
  {
    frontendUrl + "/gracias?status=success&download=" + EncodeUriComponent(token)
  }

  function RawDownload(token: string): string
  {
    "/api/download/" + token
  }

  /** The purchase e-mail of the simulated flow. */
  function PurchaseMailOf(u: User, link: string, invoice: seq<byte>, invoiceNumber: string): (m: Mailer.MailRequest)
    ensures m.PurchaseMail? && m.toEmail == u.email && m.downloadLink == link && m.invoice == Some(invoice)
    ensures m.buyerName == Or(Trim(u.name), GREETING)
    ensures m.invoiceName == "Factura-" + invoiceNumber + ".pdf"
  {
    Mailer.PurchaseMail(u.email, Or(Trim(u.name), GREETING), link, Some(invoice), "Factura-" + invoiceNumber + ".pdf")
  }

  datatype BuyReply =
    | MissingSecret        // 500, "Falta JWT_SECRET en .env"
    | UserNotFound         // 404, "Usuario no encontrado"
    | BookNotFound         // 404, "Libro no encontrado"
    | BuyFailed            // 500, "Error en la compra"
    | Bought(emailed: bool, downloadLink: string, rawDownload: string)

  /** The handler after `authMiddleware` let `userId` through. `random` is
      the 32 random bytes of the token, `invoice` the PDF (None when
      building it fails) and `invoiceNumber` its number; the mail is sent by
      `Mailer.Send` over `env`, `tpl` and `t`, and `emailed` is its
      success. */
  method Buy(store: Store, frontendUrl: string, hasSecret: bool, userId: UserId, bookId: string,
             random: seq<byte>, invoice: Option<seq<byte>>, invoiceNumber: string,
             env: Mailer.Env, tpl: Mailer.Templates, t: Mailer.Transports, now: Millis)
    returns (reply: BuyReply, mails: seq<Mailer.MailRequest>)
    requires store.Valid() && |random| == 32
    modifies store
    ensures store.Valid()
    ensures !hasSecret ==> reply == MissingSecret && store.State() == old(store.State())
    ensures hasSecret && !old(store.online) ==> reply == BuyFailed && store.State() == old(store.State()) && mails == []
    ensures hasSecret && old(store.online) && userId !in old(store.users) ==>
      reply == UserNotFound && store.State() == old(store.State())
    ensures hasSecret && old(store.online) && userId in old(store.users) && bookId !in old(store.books) ==>
      reply == BookNotFound && store.State() == old(store.State())
    ensures reply.Bought? ==>
      var token := HexEncode(random);
      userId in old(store.users) && bookId in old(store.books) && invoice.Some?
      && OrderId(now) !in old(store.purchases) && token !in old(store.tokens)
      && store.purchases == old(store.purchases)[OrderId(now) :=
           NewPurchase(PurchaseInputOf(userId, old(store.books)[bookId], now), now).value]
      && store.tokens == old(store.tokens)[token := DownloadToken(Some(userId), token, now + DAY_MS, false)]
      && reply.downloadLink == ThankYouUrl(frontendUrl, token) && reply.rawDownload == RawDownload(token)
      && mails == [PurchaseMailOf(old(store.users)[userId], reply.downloadLink, invoice.value, invoiceNumber)]
      && (reply.emailed <==> Mailer.Send(env, mails[0], tpl, t).Ok?)
    ensures hasSecret && old(store.online) && userId in old(store.users) && bookId in old(store.books)
            && OrderId(now) !in old(store.purchases) && HexEncode(random) !in old(store.tokens) && invoice.Some? ==>
      reply.Bought?
    ensures !reply.Bought? ==> store.tokens == old(store.tokens) || (invoice.None? && reply == BuyFailed)
    ensures !reply.Bought? ==> mails == []
    ensures store.users == old(store.users) && store.nextId == old(store.nextId) && store.online == old(store.online)
      && store.access == old(store.access) && store.resets == old(store.resets)
      && store.courses == old(store.courses) && store.books == old(store.books)
  {
    mails := [];
    if !hasSecret { return MissingSecret, mails; }
    var user := store.FindUserById(Some(userId));
    if user.Err? { return BuyFailed, mails; }
    if user.value.None? { return UserNotFound, mails; }
    var u := user.value.value;
    var book := store.FindBook(bookId);
    if book.Err? { return BuyFailed, mails; }
    if book.value.None? { return BookNotFound, mails; }
    var b := book.value.value;
    reply, mails := Fulfil(store, frontendUrl, u, b, random, invoice, invoiceNumber, env, tpl, t, now);
  }

  /** The writes and the mail once the user and the book are known. */
  method Fulfil(store: Store, frontendUrl: string, u: User, b: Book,
                random: seq<byte>, invoice: Option<seq<byte>>, invoiceNumber: string,
                env: Mailer.Env, tpl: Mailer.Templates, t: Mailer.Transports, now: Millis)
    returns (reply: BuyReply, mails: seq<Mailer.MailRequest>)
    requires store.Valid() && |random| == 32
    modifies store
    ensures store.Valid()
    ensures reply.Bought? || reply == BuyFailed
    ensures reply.Bought? ==>
      var token := HexEncode(random);
      invoice.Some? && OrderId(now) !in old(store.purchases) && token !in old(store.tokens)
      && store.purchases == old(store.purchases)[OrderId(now) := NewPurchase(PurchaseInputOf(u.id, b, now), now).value]
      && store.tokens == old(store.tokens)[token := DownloadToken(Some(u.id), token, now + DAY_MS, false)]
      && reply.downloadLink == ThankYouUrl(frontendUrl, token) && reply.rawDownload == RawDownload(token)
      && mails == [PurchaseMailOf(u, reply.downloadLink, invoice.value, invoiceNumber)]
      && (reply.emailed <==> Mailer.Send(env, mails[0], tpl, t).Ok?)
    ensures old(store.online) && OrderId(now) !in old(store.purchases) && HexEncode(random) !in old(store.tokens) && invoice.Some? ==>
      reply.Bought?
    ensures !reply.Bought? ==> store.tokens == old(store.tokens) || invoice.None?
    ensures !reply.Bought? ==> mails == []
    ensures store.users == old(store.users) && store.nextId == old(store.nextId) && store.online == old(store.online)
      && store.access == old(store.access) && store.resets == old(store.resets)
      && store.courses == old(store.courses) && store.books == old(store.books)
  {
    mails := [];
    var recorded := Record(store, u.id, b, random, now);
    if !recorded { return BuyFailed, mails; }
    var token := HexEncode(random);
    var link := ThankYouUrl(frontendUrl, token);
    if invoice.None? { return BuyFailed, mails; }
    var request := PurchaseMailOf(u, link, invoice.value, invoiceNumber);
    mails := [request];
    var emailed := Mailer.Send(env, request, tpl, t).Ok?;
    return Bought(emailed, link, RawDownload(token)), mails;
  }

  /** The two writes: the purchase, then the token. A duplicate order id
      stops before the token. */
  method Record(store: Store, userId: UserId, b: Book, random: seq<byte>, now: Millis) returns (ok: bool)
    requires store.Valid() && |random| == 32
    modifies store
    ensures store.Valid()
    ensures ok <==> store.online && OrderId(now) !in old(store.purchases) && HexEncode(random) !in old(store.tokens)
    ensures ok ==>
      store.purchases == old(store.purchases)[OrderId(now) := NewPurchase(PurchaseInputOf(userId, b, now), now).value]
    ensures ok ==>
      var token := HexEncode(random);
      store.tokens == old(store.tokens)[token := DownloadToken(Some(userId), token, now + DAY_MS, false)]
    ensures !ok ==> store.tokens == old(store.tokens)
    ensures OrderId(now) in old(store.purchases) || !old(store.online) ==> store.purchases == old(store.purchases)
    ensures store.users == old(store.users) && store.nextId == old(store.nextId) && store.online == old(store.online)
      && store.access == old(store.access) && store.resets == old(store.resets)
      && store.courses == old(store.courses) && store.books == old(store.books)
  {
    var input := PurchaseInputOf(userId, b, now);
    assert NewPurchase(input, now).Ok?;
    var purchase := store.CreatePurchase(input, now);
    if purchase.Err? { return false; }
    var token := HexEncode(random);
    assert |token| == 64;
    assert NewDownloadToken(Some(userId), token, Some(now + DAY_MS), Some(false)).Ok?;
    var made := store.CreateToken(Some(userId), token, Some(now + DAY_MS), Some(false));
    return made.Ok?;
  }

  /** Behind `authMiddleware` the handler's own check for a missing secret
      is never reached: without a secret the middleware has refused. */
  lemma SecretCheckUnreachable(header: string, verify: string -> Option<Courses.Claims>)
    ensures !AuthMiddleware(header, false, verify).Authorized?
  {
  }
}
