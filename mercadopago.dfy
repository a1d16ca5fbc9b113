/** The Mercado Pago routes: the checkout preference, the browser return
    after payment and the notification webhook, which record the purchase
    and grant a course or a single-use book download. The Mercado Pago API
    calls are inputs: the payment, preference and merchant order records
    they return, or their failure. */
module MercadoPago {
  import opened Wrappers
  import opened Text
  import opened Models
  import opened Db
  import Mailer

  // ---------------------------------------------------------------------
  // Configuration

  /** The two public base URLs and whether an access token is configured. */
  datatype MpConfig = MpConfig(frontendUrl: string, backendUrl: string, hasClient: bool)

  /** `norm(v, def)`: the value or its default, trimmed, without one
      trailing slash. */
  function Norm(v: string, def: string): (r: string)
    ensures var t := Trim(Or(v, def)); r == t || r + "/" == t
    ensures var t := Trim(Or(v, def)); (|t| == 0 || t[|t| - 1] != '/') ==> r == t
    ensures var t := Trim(Or(v, def)); |t| > 0 && t[|t| - 1] == '/' ==> r == t[..|t| - 1]
  {
    var t := Trim(Or(v, def));
    if |t| > 0 && t[|t| - 1] == '/' then
      assert t == t[..|t| - 1] + "/";
      t[..|t| - 1]
    else t
  }

  /** An unset variable takes a default that needs no trimming. */
  lemma NormDefault(def: string)
    requires |def| > 0 && !IsSpace(def[0]) && !IsSpace(def[|def| - 1]) && def[|def| - 1] != '/'
    ensures Norm("", def) == def
  {
    TrimOfTrimmed(def);
  }

  const DEFAULT_FRONTEND: string := "http://localhost:3000"
  const DEFAULT_BACKEND: string := "http://localhost:5001"

  function ConfigFromEnv(frontendVar: string, backendVar: string, accessToken: string): (c: MpConfig)
    ensures c.hasClient <==> accessToken != ""
    ensures frontendVar == "" ==> c.frontendUrl == DEFAULT_FRONTEND
    ensures backendVar == "" ==> c.backendUrl == DEFAULT_BACKEND
    ensures frontendVar != "" ==> c.frontendUrl == Norm(frontendVar, DEFAULT_FRONTEND)
    ensures backendVar != "" ==> c.backendUrl == Norm(backendVar, DEFAULT_BACKEND)
  {
    NormDefault(DEFAULT_FRONTEND);
    NormDefault(DEFAULT_BACKEND);
    MpConfig(Norm(frontendVar, DEFAULT_FRONTEND), Norm(backendVar, DEFAULT_BACKEND), accessToken != "")
  }

  /** `/^https:\/\//i`. */
  predicate IsHttps(u: string)
  {
    StartsWithIgnoreCase(u, "https://")
  }

  /** `/localhost|127\.0\.0\.1/i`. */
  predicate IsLocal(u: string)
  {
    ContainsIgnoreCase(u, "localhost") || ContainsIgnoreCase(u, "127.0.0.1")
  }

  /** The notification URL and the backend return are used only for a
      public HTTPS backend. */
  predicate BackendIsPublic(cfg: MpConfig)
  {
    IsHttps(cfg.backendUrl) && !IsLocal(cfg.backendUrl)
  }

  /** With no `BACKEND_URL` configured, the backend is not public. */
  lemma DefaultBackendNotPublic(frontendVar: string, accessToken: string)
    ensures !BackendIsPublic(ConfigFromEnv(frontendVar, "", accessToken))
  {
    var w := DEFAULT_BACKEND[..8];
    assert w[4] == ':';
    assert ToLower(w)[4] == ':';
    assert ToLower("https://")[4] == 's';
    assert !IsHttps(DEFAULT_BACKEND);
  }

  // ---------------------------------------------------------------------
  // Records returned by the Mercado Pago API ("" stands for a missing field)

  datatype MpPayment = MpPayment(
    id: string,
    status: string,
    metadataCourseSlug: string,
    metadataTitle: string,
    firstItemId: string,
    payerEmail: string,
    additionalPayerEmail: string,
    externalReference: string,
    payerFirstName: string,
    payerName: string,
    additionalPayerFirstName: string,
    transactionAmount: Num,
    currencyId: string,
    description: string)

  datatype MpPreference = MpPreference(metadataCourseSlug: string, metadataSlug: string)

  /** The status test of both handlers, case-insensitive. */
  predicate Approved(status: string)
  {
    ToLower(status) == "approved"
  }

  const COURSE_PREFIX: string := "course:"

  /** `pickCourseSlugFromPayment`: the metadata slug, else the text after
      "course:" (any letter case) in the first item id, else none (""). */
  function PickCourseSlugFromPayment(p: MpPayment): (r: string)
    ensures p.metadataCourseSlug != "" ==> r == p.metadataCourseSlug
    ensures p.metadataCourseSlug == "" && !StartsWithIgnoreCase(p.firstItemId, COURSE_PREFIX) ==> r == ""
    ensures p.metadataCourseSlug == "" && StartsWithIgnoreCase(p.firstItemId, COURSE_PREFIX) ==>
      r == Field(p.firstItemId, ':', 1) && ':' !in r
  {
    if p.metadataCourseSlug != "" then p.metadataCourseSlug
    else if p.firstItemId != "" && StartsWithIgnoreCase(p.firstItemId, COURSE_PREFIX) then
      Field(p.firstItemId, ':', 1)
    else ""
  }

  /** `pickCourseSlugFromPreference`. */
  function PickCourseSlugFromPreference(pref: MpPreference): (r: string)
    ensures r == "" <==> pref.metadataCourseSlug == "" && pref.metadataSlug == ""
    ensures pref.metadataCourseSlug != "" ==> r == pref.metadataCourseSlug
  {
    Or(pref.metadataCourseSlug, pref.metadataSlug)
  }

  /** The item id a course preference carries gives its slug back. */
  lemma ItemIdRoundTrip(p: MpPayment, slug: string)
    requires p.metadataCourseSlug == "" && p.firstItemId == COURSE_PREFIX + slug && ':' !in slug
    ensures PickCourseSlugFromPayment(p) == slug
  {
    assert p.firstItemId == "course" + [':'] + slug;
    assert p.firstItemId[..7] == COURSE_PREFIX;
    SplitAtFirst("course", ':', slug);
    SplitNoSep(slug, ':');
  }

  /** A book preference's item id names no course. */
  lemma BookItemIdNoCourse(p: MpPayment)
    requires p.metadataCourseSlug == "" && p.firstItemId == BOOK_ITEM_ID
    ensures PickCourseSlugFromPayment(p) == ""
  {
    assert ToLower(p.firstItemId[..7])[0] == 'l';
  }

  /** The buyer's e-mail: payer, then additional info, then the external
      reference, then a placeholder built from the payment id. */
  function BuyerEmail(p: MpPayment): (r: string)
    ensures r != ""
    ensures p.payerEmail != "" ==> r == p.payerEmail
    ensures p.payerEmail == "" && p.additionalPayerEmail != "" ==> r == p.additionalPayerEmail
    ensures p.payerEmail == "" && p.additionalPayerEmail == "" && p.externalReference != "" ==>
      r == p.externalReference
    ensures p.payerEmail == "" && p.additionalPayerEmail == "" && p.externalReference == "" ==>
      r == "mp+" + p.id + "@sinew.test"
  {
    Or(p.payerEmail, Or(p.additionalPayerEmail, Or(p.externalReference, "mp+" + p.id + "@sinew.test")))
  }

  /** The buyer's name: the payer's first name, then the payer's name, then
      the additional-info first name, then "Cliente MP". */
  function BuyerName(p: MpPayment): (r: string)
    ensures r != ""
    ensures p.payerFirstName != "" ==> r == p.payerFirstName
    ensures p.payerFirstName == "" && p.payerName != "" ==> r == p.payerName
    ensures p.payerFirstName == "" && p.payerName == "" && p.additionalPayerFirstName != "" ==>
      r == p.additionalPayerFirstName
    ensures p.payerFirstName == "" && p.payerName == "" && p.additionalPayerFirstName == "" ==>
      r == "Cliente MP"
  {
    Or(p.payerFirstName, Or(p.payerName, Or(p.additionalPayerFirstName, "Cliente MP")))
  }

  /** How the browser return titles the product: the description, then the
      metadata title, then a default that depends on whether a course was
      bought. */
  function ReturnTitle(p: MpPayment, slug: string): (r: string)
    ensures r != ""
    ensures p.description != "" ==> r == p.description
    ensures p.description == "" && p.metadataTitle != "" ==> r == p.metadataTitle
    ensures p.description == "" && p.metadataTitle == "" ==>
      r == (if slug != "" then "Curso SINEW" else "Libro SINEW")
  {
    Or(p.description, Or(p.metadataTitle, if slug != "" then "Curso SINEW" else "Libro SINEW"))
  }

  /** How the webhook titles the product (it ignores the metadata title). */
  function WebhookTitle(p: MpPayment, slug: string): (r: string)
    ensures r != ""
    ensures p.description != "" ==> r == p.description
    ensures p.description == "" ==> r == (if slug != "" then "Curso SINEW" else "Libro SINEW")
  {
    Or(p.description, if slug != "" then "Curso SINEW" else "Libro SINEW")
  }

  /** The two handlers title a product alike exactly when the description
      is set, or the metadata title is missing or equals the default. */
  lemma TitlesAgree(p: MpPayment, slug: string)
    ensures WebhookTitle(p, slug) == ReturnTitle(p, slug) <==>
      p.description != "" || p.metadataTitle == ""
      || p.metadataTitle == (if slug != "" then "Curso SINEW" else "Libro SINEW")
  {
  }

  const BOOK_ITEM_ID: string := "libro-001"
  const PROVIDER: string := "mercadopago"

  /** What both handlers pass to `Purchase.create`. */
  function PurchaseInputOf(p: MpPayment, userId: Option<UserId>, slug: string, now: Millis): (i: PurchaseInput)
    ensures i.orderId == p.id && i.userId == userId && i.price == p.transactionAmount
    ensures i.bookId == (if slug != "" then None else Some(BOOK_ITEM_ID))
    ensures i.status == Some("paid") && i.currency == Some(Or(p.currencyId, "ARS"))
  {
    PurchaseInput(userId, if slug != "" then None else Some(BOOK_ITEM_ID), Some(now), p.transactionAmount,
                  Some(Or(p.currencyId, "ARS")), Some("paid"), p.id, Some(PROVIDER),
                  if slug != "" then Some(slug) else None)
  }

  // ---------------------------------------------------------------------
  // The checkout preference

  /** The body of `POST /create-preference`. `price` and `title` are None
      when absent; "" stands for other missing strings. */
  datatype PreferenceRequest = PreferenceRequest(
    price: Option<Num>,
    currency: string,
    title: Option<string>,
    buyerName: string,
    buyerEmail: string,
    metadata: map<string, string>)

  datatype BackUrls = BackUrls(success: string, failure: string, pending: string)

  datatype PreferenceBody = PreferenceBody(
    itemId: string,
    title: string,
    quantity: int,
    currencyId: string,
    unitPrice: Num,
    payerName: string,
    payerEmail: string,
    identificationNumber: string,
    installments: int,
    backUrls: BackUrls,
    externalReference: string,
    metadata: map<string, string>,
    notificationUrl: Option<string>,
    autoReturn: Option<string>)

  function Meta(m: map<string, string>, key: string): string
  {
    if key in m then m[key] else ""
  }

  /** The course a preference is for: `metadata.courseSlug`, or
      `metadata.slug` when `metadata.type` is "course". */
  function PreferenceSlug(m: map<string, string>): (r: string)
    ensures Meta(m, "courseSlug") != "" ==> r == Meta(m, "courseSlug")
    ensures Meta(m, "courseSlug") == "" ==> r == (if Meta(m, "type") == "course" then Meta(m, "slug") else "")
  {
    Or(Meta(m, "courseSlug"), if Meta(m, "type") == "course" then Meta(m, "slug") else "")
  }

  function BackUrlsFor(cfg: MpConfig): (b: BackUrls)
    ensures BackendIsPublic(cfg) ==> b.success == cfg.backendUrl + "/api/mp/return"
    ensures !BackendIsPublic(cfg) ==> b.success == cfg.frontendUrl + "/gracias?status=success"
    ensures b.failure == cfg.frontendUrl + "/gracias?status=failure"
    ensures b.pending == cfg.frontendUrl + "/gracias?status=pending"
  {
    BackUrls(
      if BackendIsPublic(cfg) then cfg.backendUrl + "/api/mp/return" else cfg.frontendUrl + "/gracias?status=success",
      cfg.frontendUrl + "/gracias?status=failure",
      cfg.frontendUrl + "/gracias?status=pending")
  }

  /** The preference sent to Mercado Pago. */
  function PreferenceBodyOf(cfg: MpConfig, req: PreferenceRequest, now: Millis): (b: PreferenceBody)
    ensures var slug := PreferenceSlug(req.metadata);
      (slug != "" ==> b.itemId == COURSE_PREFIX + slug && b.externalReference == COURSE_PREFIX + slug)
      && (slug == "" ==> b.itemId == BOOK_ITEM_ID && b.externalReference == "book:libro-001")
      && b.metadata == req.metadata["courseSlug" := slug]["itemId" := b.itemId]["title" := b.title]
    ensures req.price.None? ==> b.unitPrice == Finite(12900.0)
    ensures req.price.Some? ==> b.unitPrice == req.price.value
    ensures b.currencyId == ToUpper(Or(req.currency, "ARS"))
    ensures b.title == req.title.GetOr("Producto SINEW")
    ensures '@' in b.payerEmail
    ensures b.payerName != "" ==> !IsSpace(b.payerName[0])
    ensures b.backUrls == BackUrlsFor(cfg)
    ensures b.notificationUrl.Some? <==> BackendIsPublic(cfg)
    ensures b.autoReturn.Some? <==> BackendIsPublic(cfg)
    ensures b.notificationUrl.Some? ==> b.notificationUrl.value == cfg.backendUrl + "/api/mp/webhook"
  {
    var slug := PreferenceSlug(req.metadata);
    var itemId := if slug != "" then COURSE_PREFIX + slug else BOOK_ITEM_ID;
    var external := if slug != "" then COURSE_PREFIX + slug else "book:libro-001";
    var title := req.title.GetOr("Producto SINEW");
    var email := if '@' in req.buyerEmail then req.buyerEmail else "test_" + IntToString(now) + "@sinew.test";
    assert '@' in email by {
      if '@' !in req.buyerEmail {
        var e := "test_" + IntToString(now) + "@sinew.test";
        assert e[|e| - 11] == '@';
      }
    }
    var public := BackendIsPublic(cfg);
    PreferenceBody(
      itemId, title, 1, ToUpper(Or(req.currency, "ARS")),
      if req.price.Some? then req.price.value else Finite(12900.0),
      Trim(Or(req.buyerName, "APRO")), email, "12345678", 1,
      BackUrlsFor(cfg), external,
      req.metadata["courseSlug" := slug]["itemId" := itemId]["title" := title],
      if public then Some(cfg.backendUrl + "/api/mp/webhook") else None,
      if public then Some("approved") else None)
  }

  /** What Mercado Pago answers to the creation: the ids at the top level
      or under `body` ("" when missing). */
  datatype PreferenceCreated = PreferenceCreated(id: string, bodyId: string, initPoint: string, bodyInitPoint: string)

  datatype PreferenceReply =
    | PreferenceNotConfigured  // 500, "Mercado Pago no configurado"
    | PreferenceFailed         // 500, MP_CREATE_PREFERENCE_FAILED
    | PreferenceOk(id: string, initPoint: string)  // 201

  /** `POST /create-preference`; `create` is the API call (None when it
      throws). */
  function CreatePreference(cfg: MpConfig, req: PreferenceRequest, now: Millis,
                            create: PreferenceBody -> Option<PreferenceCreated>): (r: PreferenceReply)
    ensures !cfg.hasClient ==> r == PreferenceNotConfigured
    ensures cfg.hasClient ==> (r.PreferenceOk? <==> create(PreferenceBodyOf(cfg, req, now)).Some?)
    ensures r.PreferenceOk? ==>
      var c := create(PreferenceBodyOf(cfg, req, now)).value;
      r.id == Or(c.id, c.bodyId) && r.initPoint == Or(c.initPoint, c.bodyInitPoint)
  {
    if !cfg.hasClient then PreferenceNotConfigured
    else
      match create(PreferenceBodyOf(cfg, req, now))
      case None => PreferenceFailed
      case Some(c) => PreferenceOk(Or(c.id, c.bodyId), Or(c.initPoint, c.bodyInitPoint))
  }

  /** A preference for a course makes the payment name that course again,
      through the item id, whatever the metadata comes back as. */
  lemma PreferenceEncodesCourse(cfg: MpConfig, req: PreferenceRequest, now: Millis, p: MpPayment)
    requires PreferenceSlug(req.metadata) != "" && ':' !in PreferenceSlug(req.metadata)
    requires p.metadataCourseSlug == "" && p.firstItemId == PreferenceBodyOf(cfg, req, now).itemId
    ensures PickCourseSlugFromPayment(p) == PreferenceSlug(req.metadata)
  {
    ItemIdRoundTrip(p, PreferenceSlug(req.metadata));
  }

  /** The external reference of a preference made here is no e-mail address
      (for a slug without '@'), so a payment that carries no payer e-mail
      files its buyer under a string the User schema refuses. */
  lemma ExternalReferenceIsNoEmail(cfg: MpConfig, req: PreferenceRequest, now: Millis, p: MpPayment)
    requires '@' !in PreferenceSlug(req.metadata)
    requires p.payerEmail == "" && p.additionalPayerEmail == ""
    requires p.externalReference == PreferenceBodyOf(cfg, req, now).externalReference
    ensures BuyerEmail(p) == p.externalReference
    ensures !MatchesLooseEmail(EmailSetter(BuyerEmail(p)))
  {
    ExternalReferenceHasNoAt(cfg, req, now);
    NoAtNoEmail(p.externalReference);
  }

  lemma ExternalReferenceHasNoAt(cfg: MpConfig, req: PreferenceRequest, now: Millis)
    requires '@' !in PreferenceSlug(req.metadata)
    ensures var x := PreferenceBodyOf(cfg, req, now).externalReference; x != "" && '@' !in x
  {
    ReferenceHasNoAt(PreferenceSlug(req.metadata));
  }

  lemma ReferenceHasNoAt(slug: string)
    requires '@' !in slug
    ensures var x := if slug != "" then COURSE_PREFIX + slug else "book:libro-001"; x != "" && '@' !in x
  {
    if slug != "" {
      assert forall i | 0 <= i < |COURSE_PREFIX| :: COURSE_PREFIX[i] != '@';
      assert '@' !in COURSE_PREFIX;
    } else {
      var x := "book:libro-001";
      assert forall i | 0 <= i < |x| :: x[i] != '@';
    }
  }

  lemma NoAtNoEmail(x: string)
    requires '@' !in x
    ensures !MatchesLooseEmail(EmailSetter(x))
  {
    assert forall i | 0 <= i < |x| :: ToLower(x)[i] != '@';
    Models.TrimIsSlice(ToLower(x));
    assert '@' !in EmailSetter(x);
  }

  // ---------------------------------------------------------------------
  // Fulfilment

  /** The password hash a user created from a payment gets. */
  const TEMP_HASH: string := "TEMP"

  /** The user the buyer is filed under: the one stored under the e-mail,
      else a new one named after the buyer. None when the lookup or the
      creation fails; the error is only logged and the purchase goes on
      without a user. */
  method FindOrCreateBuyer(store: Store, email: string, name: string) returns (userId: Option<UserId>)
    requires store.Valid()
    modifies store
    ensures store.Valid()
    ensures !old(store.online) ==> userId.None?
    ensures old(store.online) && old(store.EmailOwner(EmailSetter(email))).Some? ==>
      userId == old(store.EmailOwner(EmailSetter(email))) && store.users == old(store.users)
    ensures old(store.online) && old(store.EmailOwner(EmailSetter(email))).None? ==>
      (userId.Some? <==> EmailSetter(email) != "" && MatchesLooseEmail(EmailSetter(email)))
    ensures old(store.EmailOwner(EmailSetter(email))).None? && userId.Some? ==>
      userId == Some(old(store.nextId))
      && store.users == old(store.users)[old(store.nextId) := User(old(store.nextId), Trim(name), EmailSetter(email), TEMP_HASH)]
    ensures userId.None? ==> store.users == old(store.users)
    ensures userId.Some? ==> userId.value in store.users && store.users[userId.value].email == EmailSetter(email)
    ensures userId == BuyerIn(old(store.State()), email)
    ensures store.State() == Filed(old(store.State()), userId, email, name)
    ensures Grows(old(store.users), store.users)
    ensures store.online == old(store.online) && store.purchases == old(store.purchases) && store.tokens == old(store.tokens)
      && store.access == old(store.access) && store.resets == old(store.resets)
      && store.courses == old(store.courses) && store.books == old(store.books)
  {
    var found := store.FindUserByEmail(email);
    if found.Err? { return None; }
    if found.value.Some? { return Some(found.value.value.id); }
    TrimIdempotent(name);
    var created := store.CreateUser(Some(Trim(name)), email, TEMP_HASH);
    if created.Err? { return None; }
    return Some(created.value.id);
  }

  /** The page a granted course is opened on. */
  function CourseUrl(cfg: MpConfig, slug: string): string
  {
    cfg.frontendUrl + "/cursos/" + slug + "?paid=1"
  }

  /** The greeting name both fulfilments pass to the mailer. */
  function MailName(name: string): (r: string)
    ensures r != ""
    ensures Trim(name) != "" ==> r == Trim(name)
    ensures Trim(name) == "" ==> r == "\U{00A1}Hola!"
  {
    Or(Trim(name), "\U{00A1}Hola!")
  }

  /** The course e-mail a grant of `slug` to the buyer of `p` requests: to
      the buyer's address, greeted by `MailName`, with the title (else the
      default) and the course page. */
  function CourseMail(cfg: MpConfig, p: MpPayment, slug: string, title: string): Mailer.MailRequest
  {
    Mailer.CourseAccessMail(BuyerEmail(p), MailName(BuyerName(p)), Or(title, Mailer.DEFAULT_COURSE_TITLE), CourseUrl(cfg, slug))
  }

  /** The purchase e-mail a book grant of `token` to the buyer of `p`
      requests: the download page of the token, and no invoice. */
  function BookMail(cfg: MpConfig, p: MpPayment, token: string): Mailer.MailRequest
  {
    Mailer.PurchaseMail(BuyerEmail(p), MailName(BuyerName(p)), ThankYouUrl(cfg, token), None, "")
  }

  /** `fulfillCourseAccess`: nothing without a slug; otherwise the grant of
      (user, course) is upserted with provider "mercadopago" and the date,
      and a course e-mail is requested. A store failure is thrown (Err);
      the e-mail's failure is only logged. */
  method FulfillCourseAccess(store: Store, cfg: MpConfig, userId: Option<UserId>, email: string, name: string,
                             slug: string, title: string, now: Millis)
    returns (r: Result<Option<string>, DbError>, mails: seq<Mailer.MailRequest>)
    requires store.Valid()
    modifies store
    ensures store.Valid()
    ensures slug == "" ==> r == Ok(None) && mails == [] && store.access == old(store.access)
    ensures slug != "" ==> (r.Ok? <==> old(store.online))
    ensures slug != "" && r.Ok? ==>
      r.value == Some(CourseUrl(cfg, slug))
      && store.access == SetGrant(old(store.access), AccessKey(userId, slug), PROVIDER, now)
      && mails == (if email != "" then [Mailer.CourseAccessMail(email, MailName(name), Or(title, Mailer.DEFAULT_COURSE_TITLE), CourseUrl(cfg, slug))] else [])
    ensures r.Err? ==> store.access == old(store.access) && mails == []
    ensures store.users == old(store.users) && store.nextId == old(store.nextId) && store.online == old(store.online)
      && store.purchases == old(store.purchases) && store.tokens == old(store.tokens) && store.resets == old(store.resets)
      && store.courses == old(store.courses) && store.books == old(store.books)
  {
    mails := [];
    if slug == "" { return Ok(None), mails; }
    var up := store.UpsertAccessSet(AccessKey(userId, slug), PROVIDER, now);
    if up.Err? { return Err(up.error), mails; }
    var courseUrl := CourseUrl(cfg, slug);
    if email != "" {
      mails := [Mailer.CourseAccessMail(email, MailName(name), Or(title, Mailer.DEFAULT_COURSE_TITLE), courseUrl)];
    }
    return Ok(Some(courseUrl)), mails;
  }

  /** What the book fulfilment hands back. */
  datatype BookGrant = BookGrant(token: string, thankYouUrl: string, rawDownload: string)

  /** A download page link carrying the token. */
  function ThankYouUrl(cfg: MpConfig, token: string): string
  {
    cfg.frontendUrl + "/gracias?status=success&download=" + EncodeUriComponent(token)
  }

  /** `fulfillBookDownload`: a fresh token, the hex form of 32 random bytes,
      unused and valid for 24 hours, and a purchase e-mail with the link. A
      store failure (a token already stored included) is thrown (Err). */
  method FulfillBookDownload(store: Store, cfg: MpConfig, userId: Option<UserId>, email: string, name: string,
                             random: seq<byte>, now: Millis)
    returns (r: Result<BookGrant, DbError>, mails: seq<Mailer.MailRequest>)
    requires store.Valid()
    requires |random| == 32
    modifies store
    ensures store.Valid()
    ensures r.Ok? <==> old(store.online) && HexEncode(random) !in old(store.tokens)
    ensures r.Ok? ==>
      var token := HexEncode(random);
      r.value == BookGrant(token, ThankYouUrl(cfg, token), "/api/download/" + token)
      && |token| == 64 && token == EncodeUriComponent(token)
      && store.tokens == old(store.tokens)[token := DownloadToken(userId, token, now + DAY_MS, false)]
      && mails == (if email != "" then [Mailer.PurchaseMail(email, MailName(name), ThankYouUrl(cfg, token), None, "")] else [])
    ensures r.Err? ==> store.tokens == old(store.tokens) && mails == []
    ensures store.users == old(store.users) && store.nextId == old(store.nextId) && store.online == old(store.online)
      && store.purchases == old(store.purchases) && store.access == old(store.access) && store.resets == old(store.resets)
      && store.courses == old(store.courses) && store.books == old(store.books)
  {
    mails := [];
    var token := HexEncode(random);
    assert |token| == 64;
    assert NewDownloadToken(userId, token, Some(now + DAY_MS), Some(false)).Ok?;
    var made := store.CreateToken(userId, token, Some(now + DAY_MS), Some(false));
    if made.Err? { return Err(made.error), mails; }
    EncodeHexIsIdentity(random);
    var thankYouUrl := ThankYouUrl(cfg, token);
    if email != "" {
      mails := [Mailer.PurchaseMail(email, MailName(name), thankYouUrl, None, "")];
    }
    return Ok(BookGrant(token, thankYouUrl, "/api/download/" + token)), mails;
  }

  /** How recording a paid order and granting its product ends. */
  datatype Fulfilment =
    | RecordFailed(error: DbError)   // the purchase insert failed other than on the order id
    | GrantFailed(error: DbError)    // the grant threw
    | CourseGranted(courseUrl: string)
    | BookGranted(grant: BookGrant)

  /** Whether recording the purchase of `p` fails whatever else holds: no
      store, or an amount the Number cast refuses. */
  predicate RecordFails(p: MpPayment, online: bool)
  {
    !online || p.transactionAmount.NaN?
  }

  /** The stored form of the buyer's e-mail. */
  function BuyerKey(p: MpPayment): string
  {
    EmailSetter(BuyerEmail(p))
  }

  /** Whether the User schema accepts the buyer's e-mail. */
  predicate BuyerEmailAccepted(p: MpPayment)
  {
    BuyerKey(p) != "" && MatchesLooseEmail(BuyerKey(p))
  }

  /** The user `findOrCreateBuyer` files an e-mail under in store state
      `s`: the holder of its stored form, else, when the User schema accepts
      it, the user created with the next id; none when the store is offline
      or the address is refused. */
  ghost function BuyerIn(s: StoreState, email: string): Option<UserId>
  {
    if !s.online then None
    else if Owner(s.users, EmailSetter(email)).Some? then Owner(s.users, EmailSetter(email))
    else if EmailSetter(email) != "" && MatchesLooseEmail(EmailSetter(email)) then Some(s.nextId)
    else None
  }

  /** The users after `findOrCreateBuyer` settled on `u`: a buyer created
      under the next id is added with the trimmed name, the stored e-mail
      and the placeholder hash; a found buyer or none changes nothing. */
  ghost function FiledUsers(s: StoreState, u: Option<UserId>, email: string, name: string): map<UserId, User>
  {
    if u == Some(s.nextId) then s.users[s.nextId := User(s.nextId, Trim(name), EmailSetter(email), TEMP_HASH)]
    else s.users
  }

  /** The next id after settling on `u`: moved on past a created buyer. */
  ghost function FiledNextId(s: StoreState, u: Option<UserId>): UserId
  {
    if u == Some(s.nextId) then s.nextId + 1 else s.nextId
  }

  /** The store after `findOrCreateBuyer` settled on `u`. */
  ghost function Filed(s: StoreState, u: Option<UserId>, email: string, name: string): StoreState
  {
    s.(users := FiledUsers(s, u, email, name), nextId := FiledNextId(s, u))
  }

  /** The purchases after recording `p` for buyer `u`: a new payment id is
      inserted with the purchase, an id already stored is kept; nothing is
      inserted when recording fails. */
  ghost function RecordedPurchases(s: StoreState, p: MpPayment, u: Option<UserId>, slug: string, now: Millis): map<string, Purchase>
  {
    if RecordFails(p, s.online) || p.id in s.purchases then s.purchases
    else
      var made := NewPurchase(PurchaseInputOf(p, u, slug, now), now);
      if made.Ok? then s.purchases[p.id := made.value] else s.purchases
  }

  /** The store after the buyer `u` of `p` is filed and the purchase
      recorded. */
  ghost function Recorded(s: StoreState, p: MpPayment, u: Option<UserId>, slug: string, now: Millis): StoreState
  {
    s.(users := FiledUsers(s, u, BuyerEmail(p), BuyerName(p)), nextId := FiledNextId(s, u),
       purchases := RecordedPurchases(s, p, u, slug, now))
  }

  /** The grants after a recorded payment: the course upserted for the
      buyer when a slug is given. */
  ghost function GrantedAccess(s: StoreState, p: MpPayment, u: Option<UserId>, slug: string, now: Millis): map<AccessKey, CourseAccess>
  {
    if !RecordFails(p, s.online) && slug != "" then SetGrant(s.access, AccessKey(u, slug), PROVIDER, now)
    else s.access
  }

  /** The download tokens after a recorded payment: without a slug, a new
      token of the buyer's unless that token is already stored. */
  ghost function GrantedTokens(s: StoreState, p: MpPayment, u: Option<UserId>, slug: string, random: seq<byte>, now: Millis)
    : map<string, DownloadToken>
  {
    var token := HexEncode(random);
    if !RecordFails(p, s.online) && slug == "" && token !in s.tokens then
      s.tokens[token := DownloadToken(u, token, now + DAY_MS, false)]
    else s.tokens
  }

  /** The store after an approved payment is recorded and granted to the
      buyer `u`. */
  ghost function Fulfilled(s: StoreState, p: MpPayment, u: Option<UserId>, slug: string, random: seq<byte>, now: Millis)
    : StoreState
  {
    s.(users := FiledUsers(s, u, BuyerEmail(p), BuyerName(p)), nextId := FiledNextId(s, u),
       purchases := RecordedPurchases(s, p, u, slug, now),
       access := GrantedAccess(s, p, u, slug, now), tokens := GrantedTokens(s, p, u, slug, random, now))
  }

  /** The buyer a payment is credited to holds the buyer's stored e-mail
      afterwards. */
  lemma FulfilledCreditsBuyer(s: StoreState, p: MpPayment, slug: string, random: seq<byte>, now: Millis)
    requires forall id | id in s.users :: id < s.nextId
    ensures var u := BuyerIn(s, BuyerEmail(p)); var t := Fulfilled(s, p, u, slug, random, now);
      u.Some? ==> u.value in t.users && t.users[u.value].email == BuyerKey(p)
  {
  }

  /** The purchase filed for a new payment id names the payment's buyer. */
  lemma FulfilledRecordsBuyer(s: StoreState, p: MpPayment, slug: string, random: seq<byte>, now: Millis)
    ensures var u := BuyerIn(s, BuyerEmail(p)); var t := Fulfilled(s, p, u, slug, random, now);
      !RecordFails(p, s.online) && p.id !in s.purchases ==>
        p.id in t.purchases && t.purchases[p.id].userId == u && t.purchases[p.id].orderId == p.id
  {
    var u := BuyerIn(s, BuyerEmail(p));
    if !RecordFails(p, s.online) && p.id !in s.purchases {
      assert NewPurchase(PurchaseInputOf(p, u, slug, now), now).Ok?;
    }
  }

  /** A recorded course is granted to the buyer by this provider, and a
      new book token is the buyer's. */
  lemma FulfilledGrantsBuyer(s: StoreState, p: MpPayment, slug: string, random: seq<byte>, now: Millis)
    ensures var u := BuyerIn(s, BuyerEmail(p)); var t := Fulfilled(s, p, u, slug, random, now);
      !RecordFails(p, s.online) && slug != "" ==>
        AccessKey(u, slug) in t.access && t.access[AccessKey(u, slug)].provider == Some(PROVIDER)
    ensures var u := BuyerIn(s, BuyerEmail(p)); var t := Fulfilled(s, p, u, slug, random, now);
      !RecordFails(p, s.online) && slug == "" && HexEncode(random) !in s.tokens ==>
        HexEncode(random) in t.tokens && t.tokens[HexEncode(random)].userId == u
  {
  }

  /** A repeated run files the same buyer: once filed, the buyer's stored
      e-mail leads back to the same user. */
  lemma FulfilledKeepsBuyer(s: StoreState, p: MpPayment, slug: string, random: seq<byte>, now: Millis)
    requires forall id | id in s.users :: id < s.nextId
    ensures var u := BuyerIn(s, BuyerEmail(p)); BuyerIn(Fulfilled(s, p, u, slug, random, now), BuyerEmail(p)) == u
  {
    var u := BuyerIn(s, BuyerEmail(p));
    var t := Fulfilled(s, p, u, slug, random, now);
    if u == Some(s.nextId) {
      assert s.nextId !in s.users;
      OwnerIs(t.users, BuyerKey(p), s.nextId);
    }
  }

  /** The steps both handlers share once a payment is approved: file the
      buyer, insert the purchase (an order id already stored is no error,
      and the product is granted again), then grant the course or a new
      download token. */
  method RecordAndGrant(store: Store, cfg: MpConfig, p: MpPayment, slug: string, title: string,
                        random: seq<byte>, now: Millis)
    returns (userId: Option<UserId>, outcome: Fulfilment, mails: seq<Mailer.MailRequest>)
    requires store.Valid() && |random| == 32
    modifies store
    ensures store.Valid()
    ensures outcome.RecordFailed? <==> RecordFails(p, old(store.online))
    ensures userId == BuyerIn(old(store.State()), BuyerEmail(p))
    ensures store.State() == Fulfilled(old(store.State()), p, userId, slug, random, now)
    ensures outcome.RecordFailed? ==>
      store.purchases == old(store.purchases) && store.access == old(store.access) && store.tokens == old(store.tokens)
    ensures !outcome.RecordFailed? ==>
      p.id in store.purchases && store.purchases.Keys == old(store.purchases).Keys + {p.id}
    ensures old(store.online) && old(store.EmailOwner(BuyerKey(p))).Some? ==> userId == old(store.EmailOwner(BuyerKey(p)))
    ensures old(store.online) && old(store.EmailOwner(BuyerKey(p))).None? ==> (userId.Some? <==> BuyerEmailAccepted(p))
    ensures userId.None? ==> store.users == old(store.users)
    ensures p.id in old(store.purchases) ==> store.purchases == old(store.purchases)
    ensures p.id !in old(store.purchases) && !RecordFails(p, old(store.online)) ==>
      store.purchases == old(store.purchases)[p.id := NewPurchase(PurchaseInputOf(p, userId, slug, now), now).value]
    ensures slug != "" && !outcome.RecordFailed? ==>
      outcome == CourseGranted(CourseUrl(cfg, slug))
      && store.access == SetGrant(old(store.access), AccessKey(userId, slug), PROVIDER, now)
      && store.tokens == old(store.tokens)
      && mails == [CourseMail(cfg, p, slug, title)]
    ensures slug == "" && !outcome.RecordFailed? ==>
      (outcome.BookGranted? || outcome.GrantFailed?)
      && (outcome.BookGranted? <==> HexEncode(random) !in old(store.tokens)) && store.access == old(store.access)
    ensures outcome.BookGranted? ==>
      var token := HexEncode(random);
      outcome.grant == BookGrant(token, ThankYouUrl(cfg, token), "/api/download/" + token)
      && store.tokens == old(store.tokens)[token := DownloadToken(userId, token, now + DAY_MS, false)]
      && mails == [BookMail(cfg, p, token)]
    ensures outcome.GrantFailed? ==> store.access == old(store.access) && store.tokens == old(store.tokens)
    ensures outcome.RecordFailed? || outcome.GrantFailed? ==> mails == []
    ensures userId.Some? ==> userId.value in store.users && store.users[userId.value].email == EmailSetter(BuyerEmail(p))
    ensures Grows(old(store.purchases), store.purchases) && Grows(old(store.users), store.users)
    ensures store.online == old(store.online) && store.resets == old(store.resets)
      && store.courses == old(store.courses) && store.books == old(store.books)
  {
    mails := [];
    var recorded;
    userId, recorded := RecordPurchase(store, p, slug, now);
    if recorded.Err? { return userId, RecordFailed(recorded.error), mails; }
    outcome, mails := Grant(store, cfg, userId, p, slug, title, random, now);
  }

  /** File the buyer and insert the purchase; an order id already stored
      counts as recorded. */
  method RecordPurchase(store: Store, p: MpPayment, slug: string, now: Millis)
    returns (userId: Option<UserId>, recorded: Result<(), DbError>)
    requires store.Valid()
    modifies store
    ensures store.Valid()
    ensures recorded.Err? <==> RecordFails(p, old(store.online))
    ensures userId == BuyerIn(old(store.State()), BuyerEmail(p))
    ensures store.State() == Recorded(old(store.State()), p, userId, slug, now)
    ensures recorded.Err? ==> store.purchases == old(store.purchases)
    ensures recorded.Ok? ==> p.id in store.purchases && store.purchases.Keys == old(store.purchases).Keys + {p.id}
    ensures old(store.online) && old(store.EmailOwner(BuyerKey(p))).Some? ==> userId == old(store.EmailOwner(BuyerKey(p)))
    ensures old(store.online) && old(store.EmailOwner(BuyerKey(p))).None? ==> (userId.Some? <==> BuyerEmailAccepted(p))
    ensures userId.None? ==> store.users == old(store.users)
    ensures p.id in old(store.purchases) ==> store.purchases == old(store.purchases)
    ensures p.id !in old(store.purchases) && !RecordFails(p, old(store.online)) ==>
      store.purchases == old(store.purchases)[p.id := NewPurchase(PurchaseInputOf(p, userId, slug, now), now).value]
    ensures userId.Some? ==> userId.value in store.users && store.users[userId.value].email == EmailSetter(BuyerEmail(p))
    ensures Grows(old(store.purchases), store.purchases) && Grows(old(store.users), store.users)
    ensures store.online == old(store.online) && store.tokens == old(store.tokens) && store.access == old(store.access)
      && store.resets == old(store.resets) && store.courses == old(store.courses) && store.books == old(store.books)
  {
    ghost var owner := store.EmailOwner(BuyerKey(p));
    userId := FindOrCreateBuyer(store, BuyerEmail(p), BuyerName(p));
    assert old(store.online) && owner.Some? ==> userId == owner;
    assert old(store.online) && owner.None? ==> (userId.Some? <==> BuyerEmailAccepted(p));
    ghost var users := store.users;
    var input := PurchaseInputOf(p, userId, slug, now);
    assert input.orderId == p.id;
    assert NewPurchase(input, now).Err? <==> p.transactionAmount.NaN?;
    var purchase := store.CreatePurchase(input, now);
    assert store.users == users;
    if purchase.Err? && purchase.error != DuplicateKey(OrderIdIndex) {
      return userId, Err(purchase.error);
    }
    return userId, Ok(());
  }

  /** The grant step: the course upsert, or a new download token. */
  method Grant(store: Store, cfg: MpConfig, userId: Option<UserId>, p: MpPayment, slug: string, title: string,
               random: seq<byte>, now: Millis)
    returns (outcome: Fulfilment, mails: seq<Mailer.MailRequest>)
    requires store.Valid() && store.online && |random| == 32
    modifies store
    ensures store.Valid()
    ensures !outcome.RecordFailed?
    ensures slug != "" ==>
      outcome == CourseGranted(CourseUrl(cfg, slug))
      && store.access == SetGrant(old(store.access), AccessKey(userId, slug), PROVIDER, now)
      && store.tokens == old(store.tokens)
      && mails == [CourseMail(cfg, p, slug, title)]
    ensures slug == "" ==>
      (outcome.BookGranted? || outcome.GrantFailed?)
      && (outcome.BookGranted? <==> HexEncode(random) !in old(store.tokens)) && store.access == old(store.access)
    ensures outcome.BookGranted? ==>
      var token := HexEncode(random);
      outcome.grant == BookGrant(token, ThankYouUrl(cfg, token), "/api/download/" + token)
      && store.tokens == old(store.tokens)[token := DownloadToken(userId, token, now + DAY_MS, false)]
      && mails == [BookMail(cfg, p, token)]
    ensures outcome.GrantFailed? ==> store.access == old(store.access) && store.tokens == old(store.tokens) && mails == []
    ensures store.users == old(store.users) && store.nextId == old(store.nextId) && store.purchases == old(store.purchases)
      && store.online == old(store.online) && store.resets == old(store.resets)
      && store.courses == old(store.courses) && store.books == old(store.books)
  {
    var email := BuyerEmail(p);
    var name := BuyerName(p);
    if slug != "" {
      var r;
      r, mails := FulfillCourseAccess(store, cfg, userId, email, name, slug, title, now);
      return CourseGranted(r.value.value), mails;
    } else {
      var r;
      r, mails := FulfillBookDownload(store, cfg, userId, email, name, random, now);
      if r.Err? { return GrantFailed(r.error), mails; }
      return BookGranted(r.value), mails;
    }
  }

  /** The browser return and the webhook (in either order), or a repeated
      notification, running the shared steps one after the other for the
      same approved payment. Each run derives its slug: the webhook always
      from the payment, the return from the payment or, when the payment
      names no course, from the preference. The purchase is recorded once
      under the payment id with the first run's slug, and both runs file
      the same buyer. When the payment names a course, both grant it and
      the one grant of the pair is refreshed by the later run. Otherwise
      each run grants what its own slug says: a return that took a course
      from the preference and a webhook that did not end with that course
      granted and an extra book token. */
  method RecordAndGrantTwice(store: Store, cfg: MpConfig, p: MpPayment, slug1: string, slug2: string,
                             title1: string, title2: string,
                             random1: seq<byte>, random2: seq<byte>, t1: Millis, t2: Millis)
    returns (ghost buyer: Option<UserId>)
    requires store.Valid() && |random1| == 32 && |random2| == 32
    requires slug1 == PickCourseSlugFromPayment(p) || PickCourseSlugFromPayment(p) == ""
    requires slug2 == PickCourseSlugFromPayment(p) || PickCourseSlugFromPayment(p) == ""
    modifies store
    ensures store.Valid()
    ensures buyer == BuyerIn(old(store.State()), BuyerEmail(p))
    ensures RecordFails(p, old(store.online)) ==>
      store.purchases == old(store.purchases) && store.access == old(store.access) && store.tokens == old(store.tokens)
    ensures !RecordFails(p, old(store.online)) ==>
      store.purchases == if p.id in old(store.purchases) then old(store.purchases)
                         else old(store.purchases)[p.id := NewPurchase(PurchaseInputOf(p, buyer, slug1, t1), t1).value]
    ensures !RecordFails(p, old(store.online)) && PickCourseSlugFromPayment(p) != "" ==>
      store.access == SetGrant(old(store.access), AccessKey(buyer, PickCourseSlugFromPayment(p)), PROVIDER, t2)
      && store.tokens == old(store.tokens)
    ensures !RecordFails(p, old(store.online)) && slug1 != "" && slug2 != "" ==>
      store.access == SetGrant(SetGrant(old(store.access), AccessKey(buyer, slug1), PROVIDER, t1),
                               AccessKey(buyer, slug2), PROVIDER, t2)
      && store.tokens == old(store.tokens)
    ensures !RecordFails(p, old(store.online)) && slug1 != "" && slug2 == "" ==>
      var k2 := HexEncode(random2);
      store.access == SetGrant(old(store.access), AccessKey(buyer, slug1), PROVIDER, t1)
      && (k2 !in old(store.tokens) ==> store.tokens == old(store.tokens)[k2 := DownloadToken(buyer, k2, t2 + DAY_MS, false)])
    ensures !RecordFails(p, old(store.online)) && slug1 == "" && slug2 != "" ==>
      var k1 := HexEncode(random1);
      store.access == SetGrant(old(store.access), AccessKey(buyer, slug2), PROVIDER, t2)
      && (k1 !in old(store.tokens) ==> store.tokens == old(store.tokens)[k1 := DownloadToken(buyer, k1, t1 + DAY_MS, false)])
    ensures !RecordFails(p, old(store.online)) && slug1 == "" && slug2 == "" ==>
      var k1 := HexEncode(random1);
      var k2 := HexEncode(random2);
      store.access == old(store.access)
      && (k1 != k2 && k1 !in old(store.tokens) && k2 !in old(store.tokens) ==>
         store.tokens == old(store.tokens)[k1 := DownloadToken(buyer, k1, t1 + DAY_MS, false)]
                                          [k2 := DownloadToken(buyer, k2, t2 + DAY_MS, false)])
  {
    ghost var s0 := store.State();
    var u1, o1, m1 := RecordAndGrant(store, cfg, p, slug1, title1, random1, t1);
    FulfilledKeepsBuyer(s0, p, slug1, random1, t1);
    assert store.State() == Fulfilled(s0, p, u1, slug1, random1, t1);
    var u2, o2, m2 := RecordAndGrant(store, cfg, p, slug2, title2, random2, t2);
    assert u2 == u1;
    buyer := u1;
    if !RecordFails(p, old(store.online)) && PickCourseSlugFromPayment(p) != "" {
      SetGrantTwice(old(store.access), AccessKey(u1, slug1), PROVIDER, t1, PROVIDER, t2);
    }
  }

  // ---------------------------------------------------------------------
  // The browser return: GET /return?payment_id&preference_id

  /** The front-end page the return redirects to. */
  datatype ReturnPage =
    | MissingPaymentId
    | ServerError
    | NotApproved
    | CoursePaid(slug: string)
    | Download(token: string)

  datatype ReturnReply = ReturnNotConfigured | RedirectTo(page: ReturnPage)

  function PageUrl(cfg: MpConfig, page: ReturnPage): string
  {
    match page
    case MissingPaymentId => cfg.frontendUrl + "/gracias?status=error&error=missing_payment_id"
    case ServerError => cfg.frontendUrl + "/gracias?status=error&error=server_error"
    case NotApproved => cfg.frontendUrl + "/gracias?status=not_approved"
    case CoursePaid(slug) => cfg.frontendUrl + "/cursos/" + slug + "?paid=1&success=1"
    case Download(token) => ThankYouUrl(cfg, token)
  }

  /** The course the return settles on: the payment's, else, when it names
      none and a preference id came back, the preference's (a failed read
      of the preference leaves none). */
  function ReturnSlug(p: MpPayment, preferenceId: string, fetchPreference: string -> Option<MpPreference>): string
  {
    var fromPayment := PickCourseSlugFromPayment(p);
    if fromPayment == "" && preferenceId != "" then
      match fetchPreference(preferenceId)
      case None => ""
      case Some(pref) => PickCourseSlugFromPreference(pref)
    else fromPayment
  }

  /** The preference is read only when the payment names no course and a
      preference id is present: otherwise no answer of the preference API
      changes the slug. */
  lemma PreferenceReadOnlyAsFallback(p: MpPayment, preferenceId: string,
                                     f: string -> Option<MpPreference>, g: string -> Option<MpPreference>)
    ensures PickCourseSlugFromPayment(p) != "" || preferenceId == "" ==>
      ReturnSlug(p, preferenceId, f) == ReturnSlug(p, preferenceId, g) == PickCourseSlugFromPayment(p)
    ensures PickCourseSlugFromPayment(p) == "" && preferenceId != "" && f(preferenceId).None? ==>
      ReturnSlug(p, preferenceId, f) == ""
  {
  }

  /** Whether the return goes past its guards to the writes: a client, a
      payment id, a payment the API returns, and an approved status. */
  predicate ReturnWrites(cfg: MpConfig, paymentId: string, fetchPayment: string -> Option<MpPayment>)
  {
    cfg.hasClient && paymentId != "" && fetchPayment(paymentId).Some? && Approved(fetchPayment(paymentId).value.status)
  }

  /** `GET /return`. `fetchPayment` and `fetchPreference` are the API reads
      (None when they throw); `random` the 32 bytes a book token is made
      of. */
  method Return(store: Store, cfg: MpConfig, paymentId: string, preferenceId: string,
                fetchPayment: string -> Option<MpPayment>, fetchPreference: string -> Option<MpPreference>,
                random: seq<byte>, now: Millis)
    returns (reply: ReturnReply, mails: seq<Mailer.MailRequest>, ghost buyer: Option<UserId>)
    requires store.Valid() && |random| == 32
    modifies store
    ensures store.Valid()
    ensures reply == ReturnNotConfigured <==> !cfg.hasClient
    ensures cfg.hasClient && paymentId == "" ==> reply == RedirectTo(MissingPaymentId)
    ensures cfg.hasClient && paymentId != "" && fetchPayment(paymentId).None? ==> reply == RedirectTo(ServerError)
    ensures cfg.hasClient && paymentId != "" && fetchPayment(paymentId).Some? && !Approved(fetchPayment(paymentId).value.status) ==>
      reply == RedirectTo(NotApproved)
    ensures !ReturnWrites(cfg, paymentId, fetchPayment) ==> store.State() == old(store.State()) && mails == []
    ensures ReturnWrites(cfg, paymentId, fetchPayment) ==>
      var p := fetchPayment(paymentId).value;
      var slug := ReturnSlug(p, preferenceId, fetchPreference);
      var token := HexEncode(random);
      buyer == BuyerIn(old(store.State()), BuyerEmail(p))
      && store.State() == Fulfilled(old(store.State()), p, buyer, slug, random, now)
      && (buyer.Some? ==> buyer.value in store.users && store.users[buyer.value].email == BuyerKey(p))
      && (p.id !in old(store.purchases) && !RecordFails(p, old(store.online)) ==>
            store.purchases == old(store.purchases)[p.id := NewPurchase(PurchaseInputOf(p, buyer, slug, now), now).value])
      && (reply == RedirectTo(ServerError) <==> RecordFails(p, old(store.online)) || (slug == "" && token in old(store.tokens)))
      && (reply == RedirectTo(ServerError) ==> store.access == old(store.access) && store.tokens == old(store.tokens) && mails == [])
      && (reply != RedirectTo(ServerError) ==> p.id in store.purchases)
      && (slug != "" && reply != RedirectTo(ServerError) ==>
            reply == RedirectTo(CoursePaid(slug)) && store.tokens == old(store.tokens)
            && store.access == SetGrant(old(store.access), AccessKey(buyer, slug), PROVIDER, now)
            && mails == [CourseMail(cfg, p, slug, ReturnTitle(p, slug))])
      && (slug == "" && reply != RedirectTo(ServerError) ==>
            reply == RedirectTo(Download(token)) && store.access == old(store.access)
            && store.tokens == old(store.tokens)[token := DownloadToken(buyer, token, now + DAY_MS, false)]
            && mails == [BookMail(cfg, p, token)])
    ensures Grows(old(store.purchases), store.purchases) && Grows(old(store.users), store.users)
    ensures store.online == old(store.online) && store.resets == old(store.resets)
      && store.courses == old(store.courses) && store.books == old(store.books)
  {
    mails, buyer := [], None;
    if !cfg.hasClient { return ReturnNotConfigured, mails, buyer; }
    if paymentId == "" { return RedirectTo(MissingPaymentId), mails, buyer; }
    var fetched := fetchPayment(paymentId);
    if fetched.None? { return RedirectTo(ServerError), mails, buyer; }
    var p := fetched.value;
    if !Approved(p.status) { return RedirectTo(NotApproved), mails, buyer; }
    var slug := ReturnSlug(p, preferenceId, fetchPreference);
    var userId, outcome;
    userId, outcome, mails := RecordAndGrant(store, cfg, p, slug, ReturnTitle(p, slug), random, now);
    buyer := userId;
    match outcome {
      case RecordFailed(_) => reply := RedirectTo(ServerError);
      case GrantFailed(_) => reply := RedirectTo(ServerError);
      case CourseGranted(_) => reply := RedirectTo(CoursePaid(slug));
      case BookGranted(g) => reply := RedirectTo(Download(g.token));
    }
  }

  // ---------------------------------------------------------------------
  // The notification webhook: ALL /webhook

  /** How `processApprovedPayment` ends: false for a payment that is not
      approved, true once fulfilled, an attempt to answer `ok: false` when
      the purchase insert fails, or a throw from the grant. */
  datatype ProcessResult = Skipped | Processed | RecordRefused | ProcessThrew

  /** `processApprovedPayment` on a payment the API returned. */
  method ProcessPayment(store: Store, cfg: MpConfig, p: MpPayment, random: seq<byte>, now: Millis)
    returns (result: ProcessResult, mails: seq<Mailer.MailRequest>, ghost buyer: Option<UserId>)
    requires store.Valid() && |random| == 32
    modifies store
    ensures store.Valid()
    ensures !Approved(p.status) ==> result == Skipped && store.State() == old(store.State()) && mails == []
    ensures Approved(p.status) ==> result != Skipped && (result == RecordRefused <==> RecordFails(p, old(store.online)))
    ensures Approved(p.status) ==>
      buyer == BuyerIn(old(store.State()), BuyerEmail(p))
      && store.State() == Fulfilled(old(store.State()), p, buyer, PickCourseSlugFromPayment(p), random, now)
    ensures buyer.Some? ==> buyer.value in store.users && store.users[buyer.value].email == BuyerKey(p)
    ensures Approved(p.status) && p.id !in old(store.purchases) && !RecordFails(p, old(store.online)) ==>
      store.purchases == old(store.purchases)[p.id := NewPurchase(PurchaseInputOf(p, buyer, PickCourseSlugFromPayment(p), now), now).value]
    ensures result == RecordRefused ==>
      store.purchases == old(store.purchases) && store.access == old(store.access) && store.tokens == old(store.tokens) && mails == []
    ensures result == Processed || result == ProcessThrew ==> p.id in store.purchases
    ensures result == ProcessThrew ==>
      PickCourseSlugFromPayment(p) == "" && HexEncode(random) in old(store.tokens)
      && store.access == old(store.access) && store.tokens == old(store.tokens) && mails == []
    ensures result == Processed && PickCourseSlugFromPayment(p) != "" ==>
      var slug := PickCourseSlugFromPayment(p);
      store.access == SetGrant(old(store.access), AccessKey(buyer, slug), PROVIDER, now)
      && store.tokens == old(store.tokens)
      && mails == [CourseMail(cfg, p, slug, WebhookTitle(p, slug))]
    ensures result == Processed && PickCourseSlugFromPayment(p) == "" ==>
      var token := HexEncode(random);
      token !in old(store.tokens)
      && store.tokens == old(store.tokens)[token := DownloadToken(buyer, token, now + DAY_MS, false)]
      && store.access == old(store.access)
      && mails == [BookMail(cfg, p, token)]
    ensures Grows(old(store.purchases), store.purchases) && Grows(old(store.users), store.users)
    ensures store.online == old(store.online) && store.resets == old(store.resets)
      && store.courses == old(store.courses) && store.books == old(store.books)
  {
    mails, buyer := [], None;
    if !Approved(p.status) { return Skipped, mails, buyer; }
    var slug := PickCourseSlugFromPayment(p);
    var userId, outcome;
    userId, outcome, mails := RecordAndGrant(store, cfg, p, slug, WebhookTitle(p, slug), random, now);
    buyer := userId;
    match outcome {
      case RecordFailed(_) => result := RecordRefused;
      case GrantFailed(_) => result := ProcessThrew;
      case CourseGranted(_) => result := Processed;
      case BookGranted(_) => result := Processed;
    }
  }

  /** Where the webhook reads its topic and id: the query, then the body. */
  datatype WebhookRequest = WebhookRequest(
    queryTopic: string, bodyTopic: string, bodyType: string,
    queryId: string, bodyId: string, bodyDataId: string)

  /** The topic, lower-cased: the query's, then the body's `topic`, then
      the body's `type`. */
  function Topic(req: WebhookRequest): (r: string)
    ensures ToLower(r) == r
    ensures req.queryTopic != "" ==> r == ToLower(req.queryTopic)
    ensures req.queryTopic == "" && req.bodyTopic != "" ==> r == ToLower(req.bodyTopic)
    ensures req.queryTopic == "" && req.bodyTopic == "" ==> r == ToLower(req.bodyType)
    ensures r == "" <==> req.queryTopic == "" && req.bodyTopic == "" && req.bodyType == ""
  {
    var raw := Or(req.queryTopic, Or(req.bodyTopic, req.bodyType));
    ToLowerIdempotent(raw);
    assert raw != "" ==> ToLower(raw)[0] == LowerChar(raw[0]) && ToLower(raw) != "";
    ToLower(raw)
  }

  /** The notification id: the query's, then the body's `id`, then the
      body's `data.id`. */
  function NotificationId(req: WebhookRequest): (r: string)
    ensures r == "" <==> req.queryId == "" && req.bodyId == "" && req.bodyDataId == ""
    ensures req.queryId != "" ==> r == req.queryId
    ensures req.queryId == "" && req.bodyId != "" ==> r == req.bodyId
    ensures req.queryId == "" && req.bodyId == "" ==> r == req.bodyDataId
  {
    Or(req.queryId, Or(req.bodyId, req.bodyDataId))
  }

  /** The merchant-order read: a throw, a response that is not ok, or the
      ids of its payments (none when the list is missing). */
  datatype MerchantOrder = OrderFetchThrew | OrderNotOk | OrderPayments(paymentIds: seq<string>)

  /** The JSON the webhook answers; each carries `received: true`. */
  datatype WebhookReply =
    | WebhookNotConfigured          // 500, error "MP_NOT_CONFIGURED"
    | Received                      // no topic or id, or a topic not handled
    | Acknowledged(ok: bool, topic: string)
    | RecordNotOk                   // ok: false, sent from inside processApprovedPayment
    | ReceivedError                 // error: true

  /** A returned, approved payment whose purchase cannot be recorded. */
  predicate RefusedRecord(fetched: Option<MpPayment>, online: bool)
  {
    fetched.Some? && Approved(fetched.value.status) && RecordFails(fetched.value, online)
  }

  /** A returned, approved payment whose purchase is recorded. */
  predicate Recordable(fetched: Option<MpPayment>, online: bool)
  {
    fetched.Some? && Approved(fetched.value.status) && !RecordFails(fetched.value, online)
  }

  predicate ApprovedFetch(fetched: Option<MpPayment>)
  {
    fetched.Some? && Approved(fetched.value.status)
  }

  /** What one payment of a merchant order requests by mail, and the token
      keys after it, from the token keys `keys` before it: nothing for a
      payment that is not returned and approved or whose purchase cannot be
      recorded, the course e-mail for a payment naming a course, and for a
      book the purchase e-mail of a new token unless that token is already
      stored (the grant then throws). */
  function StepMails(cfg: MpConfig, fetched: Option<MpPayment>, random: seq<byte>, online: bool, keys: set<string>)
    : (seq<Mailer.MailRequest>, set<string>)
  {
    if !ApprovedFetch(fetched) || RecordFails(fetched.value, online) then ([], keys)
    else
      var p := fetched.value;
      var slug := PickCourseSlugFromPayment(p);
      if slug != "" then ([CourseMail(cfg, p, slug, WebhookTitle(p, slug))], keys)
      else if HexEncode(random) in keys then ([], keys)
      else ([BookMail(cfg, p, HexEncode(random))], keys + {HexEncode(random)})
  }

  /** The mails of the payments `ids[k..]` of a merchant order handled in
      order, starting from the token keys `keys`. */
  function OrderMails(cfg: MpConfig, ids: seq<string>, k: nat, fetchPayment: string -> Option<MpPayment>,
                      random: nat -> seq<byte>, online: bool, keys: set<string>): seq<Mailer.MailRequest>
    decreases |ids| - k
  {
    if k >= |ids| then []
    else
      var step := StepMails(cfg, fetchPayment(ids[k]), random(k), online, keys);
      step.0 + OrderMails(cfg, ids, k + 1, fetchPayment, random, online, step.1)
  }

  /** A merchant order requests at most one e-mail per payment, and each
      goes to the buyer of an approved payment of the order whose purchase
      can be recorded. */
  lemma {:induction false} OrderMailsPerPayment(cfg: MpConfig, ids: seq<string>, k: nat,
                                                fetchPayment: string -> Option<MpPayment>,
                                                random: nat -> seq<byte>, online: bool, keys: set<string>)
    requires k <= |ids|
    ensures |OrderMails(cfg, ids, k, fetchPayment, random, online, keys)| <= |ids| - k
    ensures forall m | m in OrderMails(cfg, ids, k, fetchPayment, random, online, keys) ::
      exists j | k <= j < |ids| :: Recordable(fetchPayment(ids[j]), online) && m.toEmail == BuyerEmail(fetchPayment(ids[j]).value)
    decreases |ids| - k
  {
    if k < |ids| {
      var step := StepMails(cfg, fetchPayment(ids[k]), random(k), online, keys);
      assert |step.0| <= 1;
      OrderMailsPerPayment(cfg, ids, k + 1, fetchPayment, random, online, step.1);
      var rest := OrderMails(cfg, ids, k + 1, fetchPayment, random, online, step.1);
      forall m | m in step.0 + rest
        ensures exists j | k <= j < |ids| :: Recordable(fetchPayment(ids[j]), online) && m.toEmail == BuyerEmail(fetchPayment(ids[j]).value)
      {
        if m in step.0 {
          assert Recordable(fetchPayment(ids[k]), online) && m.toEmail == BuyerEmail(fetchPayment(ids[k]).value);
        } else {
          assert m in rest;
        }
      }
    }
  }

  /** What the merchant-order loop has established after the first `i`
      payments, from the store state `s0` before the loop to `s`: the first
      `ok: false` recorded exactly when an earlier payment was refused,
      every recordable payment so far recorded, nothing written while no
      payment was approved, the store only grown, the store being
      `OrderState` of the payments so far, and the mails so far followed by
      those of the rest equal to the mails of the whole order. */
  ghost predicate OrderLoop(cfg: MpConfig, ids: seq<string>, i: nat, fetchPayment: string -> Option<MpPayment>,
                            random: nat -> seq<byte>, now: Millis, s0: StoreState, s: StoreState,
                            firstReply: Option<WebhookReply>, mails: seq<Mailer.MailRequest>)
  {
    i <= |ids|
    && s == OrderState(ids, i, fetchPayment, random, s0, now)
    && (firstReply.Some? <==> exists j | 0 <= j < i :: RefusedRecord(fetchPayment(ids[j]), s0.online))
    && (firstReply.Some? ==> firstReply.value == RecordNotOk)
    && (forall j | 0 <= j < i :: Recordable(fetchPayment(ids[j]), s0.online) ==> fetchPayment(ids[j]).value.id in s.purchases)
    && ((forall j | 0 <= j < i :: !ApprovedFetch(fetchPayment(ids[j]))) ==> s == s0 && mails == [])
    && Grows(s0.purchases, s.purchases) && Grows(s0.users, s.users)
    && s.online == s0.online && s.resets == s0.resets && s.courses == s0.courses && s.books == s0.books
    && mails + OrderMails(cfg, ids, i, fetchPayment, random, s0.online, s.tokens.Keys)
       == OrderMails(cfg, ids, 0, fetchPayment, random, s0.online, s0.tokens.Keys)
  }

  /** The store after one payment of a merchant order: a returned, approved
      payment is fulfilled with its own slug; any other changes nothing. */
  ghost function PaymentEffect(fetched: Option<MpPayment>, random: seq<byte>, s: StoreState, now: Millis): StoreState
  {
    if ApprovedFetch(fetched) then
      var p := fetched.value;
      Fulfilled(s, p, BuyerIn(s, BuyerEmail(p)), PickCourseSlugFromPayment(p), random, now)
    else s
  }

  /** The store after the first `i` payments of a merchant order, from
      `s0`, payment `j` drawing its token from `random(j)`. */
  ghost function OrderState(ids: seq<string>, i: nat, fetchPayment: string -> Option<MpPayment>,
                            random: nat -> seq<byte>, s0: StoreState, now: Millis): StoreState
    requires i <= |ids|
    decreases i
  {
    if i == 0 then s0
    else PaymentEffect(fetchPayment(ids[i - 1]), random(i - 1), OrderState(ids, i - 1, fetchPayment, random, s0, now), now)
  }

  /** One payment leaves the connection state alone. */
  lemma PaymentEffectOnline(fetched: Option<MpPayment>, random: seq<byte>, s: StoreState, now: Millis)
    ensures PaymentEffect(fetched, random, s, now).online == s.online
  {
  }

  /** One payment keeps every grant this provider made: a grant is only
      ever upserted with provider "mercadopago". */
  lemma PaymentEffectKeepsGrant(fetched: Option<MpPayment>, random: seq<byte>, s: StoreState, now: Millis, k: AccessKey)
    requires k in s.access && s.access[k].provider == Some(PROVIDER)
    ensures var t := PaymentEffect(fetched, random, s, now);
      k in t.access && t.access[k].provider == Some(PROVIDER)
  {
  }

  /** One payment leaves every stored download token as it was. */
  lemma PaymentEffectKeepsToken(fetched: Option<MpPayment>, random: seq<byte>, s: StoreState, now: Millis, token: string)
    requires token in s.tokens
    ensures var t := PaymentEffect(fetched, random, s, now);
      token in t.tokens && t.tokens[token] == s.tokens[token]
  {
  }

  /** The payments of a merchant order leave the connection state alone. */
  lemma {:induction false} OrderStateOnline(ids: seq<string>, i: nat, fetchPayment: string -> Option<MpPayment>,
                                            random: nat -> seq<byte>, s0: StoreState, now: Millis)
    requires i <= |ids|
    ensures OrderState(ids, i, fetchPayment, random, s0, now).online == s0.online
    decreases i
  {
    if i > 0 {
      OrderStateOnline(ids, i - 1, fetchPayment, random, s0, now);
      PaymentEffectOnline(fetchPayment(ids[i - 1]), random(i - 1), OrderState(ids, i - 1, fetchPayment, random, s0, now), now);
    }
  }

  /** The buyer payment `j` of a merchant order is credited to: the one
      `findOrCreateBuyer` settles on in the store the earlier payments left. */
  ghost function OrderBuyer(ids: seq<string>, j: nat, fetchPayment: string -> Option<MpPayment>,
                            random: nat -> seq<byte>, s0: StoreState, now: Millis): Option<UserId>
    requires j < |ids| && fetchPayment(ids[j]).Some?
  {
    BuyerIn(OrderState(ids, j, fetchPayment, random, s0, now), BuyerEmail(fetchPayment(ids[j]).value))
  }

  /** After the first `i` payments of a merchant order, every recordable
      one naming a course has granted that course to its own buyer with
      provider "mercadopago". */
  lemma {:induction false} OrderGrantsCourses(ids: seq<string>, i: nat, fetchPayment: string -> Option<MpPayment>,
                                              random: nat -> seq<byte>, s0: StoreState, now: Millis)
    requires i <= |ids|
    ensures forall j | 0 <= j < i && Recordable(fetchPayment(ids[j]), s0.online)
                       && PickCourseSlugFromPayment(fetchPayment(ids[j]).value) != "" ::
      var key := AccessKey(OrderBuyer(ids, j, fetchPayment, random, s0, now), PickCourseSlugFromPayment(fetchPayment(ids[j]).value));
      var t := OrderState(ids, i, fetchPayment, random, s0, now);
      key in t.access && t.access[key].provider == Some(PROVIDER)
    decreases i
  {
    if i > 0 {
      OrderGrantsCourses(ids, i - 1, fetchPayment, random, s0, now);
      var s := OrderState(ids, i - 1, fetchPayment, random, s0, now);
      var f := fetchPayment(ids[i - 1]);
      forall j | 0 <= j < i && Recordable(fetchPayment(ids[j]), s0.online)
                 && PickCourseSlugFromPayment(fetchPayment(ids[j]).value) != ""
        ensures var key := AccessKey(OrderBuyer(ids, j, fetchPayment, random, s0, now), PickCourseSlugFromPayment(fetchPayment(ids[j]).value));
          key in OrderState(ids, i, fetchPayment, random, s0, now).access
          && OrderState(ids, i, fetchPayment, random, s0, now).access[key].provider == Some(PROVIDER)
      {
        var key := AccessKey(OrderBuyer(ids, j, fetchPayment, random, s0, now), PickCourseSlugFromPayment(fetchPayment(ids[j]).value));
        if j == i - 1 {
          OrderStateOnline(ids, i - 1, fetchPayment, random, s0, now);
          FulfilledGrantsBuyer(s, f.value, PickCourseSlugFromPayment(f.value), random(i - 1), now);
        } else {
          PaymentEffectKeepsGrant(f, random(i - 1), s, now, key);
        }
      }
    }
  }

  /** After the first `i` payments of a merchant order, every recordable
      one buying a book that drew a new token holds that token for its own
      buyer. */
  lemma {:induction false} OrderGrantsBooks(ids: seq<string>, i: nat, fetchPayment: string -> Option<MpPayment>,
                                            random: nat -> seq<byte>, s0: StoreState, now: Millis)
    requires i <= |ids|
    ensures forall j | 0 <= j < i && Recordable(fetchPayment(ids[j]), s0.online)
                       && PickCourseSlugFromPayment(fetchPayment(ids[j]).value) == ""
                       && HexEncode(random(j)) !in OrderState(ids, j, fetchPayment, random, s0, now).tokens ::
      var t := OrderState(ids, i, fetchPayment, random, s0, now);
      HexEncode(random(j)) in t.tokens && t.tokens[HexEncode(random(j))].userId == OrderBuyer(ids, j, fetchPayment, random, s0, now)
    decreases i
  {
    if i > 0 {
      OrderGrantsBooks(ids, i - 1, fetchPayment, random, s0, now);
      var s := OrderState(ids, i - 1, fetchPayment, random, s0, now);
      var f := fetchPayment(ids[i - 1]);
      forall j | 0 <= j < i && Recordable(fetchPayment(ids[j]), s0.online)
                 && PickCourseSlugFromPayment(fetchPayment(ids[j]).value) == ""
                 && HexEncode(random(j)) !in OrderState(ids, j, fetchPayment, random, s0, now).tokens
        ensures HexEncode(random(j)) in OrderState(ids, i, fetchPayment, random, s0, now).tokens
          && OrderState(ids, i, fetchPayment, random, s0, now).tokens[HexEncode(random(j))].userId
             == OrderBuyer(ids, j, fetchPayment, random, s0, now)
      {
        if j == i - 1 {
          OrderStateOnline(ids, i - 1, fetchPayment, random, s0, now);
          FulfilledGrantsBuyer(s, f.value, PickCourseSlugFromPayment(f.value), random(i - 1), now);
        } else {
          PaymentEffectKeepsToken(f, random(i - 1), s, now, HexEncode(random(j)));
        }
      }
    }
  }

  /** What one payment of a merchant order does, from store state `s` to
      `t`: the store becomes `PaymentEffect`; it is refused exactly when it
      is approved but cannot be recorded,
      nothing changes unless it is approved, a recordable one is recorded,
      its mails and the token keys after it are those of `StepMails`, and
      the store only grows. */
  ghost predicate OrderStep(cfg: MpConfig, fetched: Option<MpPayment>, random: seq<byte>, now: Millis,
                            s: StoreState, t: StoreState, refused: bool, mails: seq<Mailer.MailRequest>)
  {
    t == PaymentEffect(fetched, random, s, now)
    && (refused <==> RefusedRecord(fetched, s.online))
    && (!ApprovedFetch(fetched) ==> t == s && mails == [])
    && (Recordable(fetched, s.online) ==> fetched.value.id in t.purchases)
    && mails == StepMails(cfg, fetched, random, s.online, s.tokens.Keys).0
    && t.tokens.Keys == StepMails(cfg, fetched, random, s.online, s.tokens.Keys).1
    && Grows(s.purchases, t.purchases) && Grows(s.users, t.users)
    && t.online == s.online && t.resets == s.resets && t.courses == s.courses && t.books == s.books
  }

  /** Handling payment `i` moves its mails from the rest of the order to
      the mails so far. */
  lemma OrderMailsStep(cfg: MpConfig, ids: seq<string>, i: nat, fetchPayment: string -> Option<MpPayment>,
                       random: nat -> seq<byte>, online: bool, keys: set<string>, keys': set<string>,
                       mails: seq<Mailer.MailRequest>, m: seq<Mailer.MailRequest>)
    requires i < |ids|
    requires m == StepMails(cfg, fetchPayment(ids[i]), random(i), online, keys).0
    requires keys' == StepMails(cfg, fetchPayment(ids[i]), random(i), online, keys).1
    ensures (mails + m) + OrderMails(cfg, ids, i + 1, fetchPayment, random, online, keys')
         == mails + OrderMails(cfg, ids, i, fetchPayment, random, online, keys)
  {
    var rest := OrderMails(cfg, ids, i + 1, fetchPayment, random, online, keys');
    assert OrderMails(cfg, ids, i, fetchPayment, random, online, keys) == m + rest;
    assert (mails + m) + rest == mails + (m + rest);
  }

  /** The first `ok: false` is set once a payment so far was refused. */
  lemma RefusedStep(ids: seq<string>, i: nat, fetchPayment: string -> Option<MpPayment>, online: bool,
                    firstReply: Option<WebhookReply>, refused: bool, firstReply': Option<WebhookReply>)
    requires i < |ids|
    requires firstReply.Some? <==> exists j | 0 <= j < i :: RefusedRecord(fetchPayment(ids[j]), online)
    requires refused <==> RefusedRecord(fetchPayment(ids[i]), online)
    requires firstReply' == if refused && firstReply.None? then Some(RecordNotOk) else firstReply
    ensures firstReply'.Some? <==> exists j | 0 <= j < i + 1 :: RefusedRecord(fetchPayment(ids[j]), online)
  {
    if refused {
      assert RefusedRecord(fetchPayment(ids[i]), online);
    }
  }

  /** Every recordable payment passed stays recorded: the store only grows,
      and the step records payment `i`. */
  lemma RecordedStep(ids: seq<string>, i: nat, fetchPayment: string -> Option<MpPayment>, online: bool,
                     before: map<string, Purchase>, after: map<string, Purchase>)
    requires i < |ids|
    requires forall j | 0 <= j < i :: Recordable(fetchPayment(ids[j]), online) ==> fetchPayment(ids[j]).value.id in before
    requires Grows(before, after)
    requires Recordable(fetchPayment(ids[i]), online) ==> fetchPayment(ids[i]).value.id in after
    ensures forall j | 0 <= j < i + 1 :: Recordable(fetchPayment(ids[j]), online) ==> fetchPayment(ids[j]).value.id in after
  {
  }

  /** One step of the merchant-order loop keeps `OrderLoop`. */
  lemma OrderLoopStep(cfg: MpConfig, ids: seq<string>, i: nat, fetchPayment: string -> Option<MpPayment>,
                      random: nat -> seq<byte>, now: Millis, s0: StoreState, s: StoreState, t: StoreState,
                      firstReply: Option<WebhookReply>, mails: seq<Mailer.MailRequest>,
                      refused: bool, m: seq<Mailer.MailRequest>,
                      firstReply': Option<WebhookReply>, mails': seq<Mailer.MailRequest>)
    requires i < |ids|
    requires OrderLoop(cfg, ids, i, fetchPayment, random, now, s0, s, firstReply, mails)
    requires OrderStep(cfg, fetchPayment(ids[i]), random(i), now, s, t, refused, m)
    requires firstReply' == if refused && firstReply.None? then Some(RecordNotOk) else firstReply
    requires mails' == mails + m
    ensures OrderLoop(cfg, ids, i + 1, fetchPayment, random, now, s0, t, firstReply', mails')
  {
    OrderMailsStep(cfg, ids, i, fetchPayment, random, s0.online, s.tokens.Keys, t.tokens.Keys, mails, m);
    RefusedStep(ids, i, fetchPayment, s0.online, firstReply, refused, firstReply');
    RecordedStep(ids, i, fetchPayment, s0.online, s.purchases, t.purchases);
  }

  /** Once every payment is handled, the loop's facts are the order's. */
  lemma OrderLoopDone(cfg: MpConfig, ids: seq<string>, fetchPayment: string -> Option<MpPayment>,
                      random: nat -> seq<byte>, now: Millis, s0: StoreState, s: StoreState,
                      firstReply: Option<WebhookReply>, mails: seq<Mailer.MailRequest>)
    requires OrderLoop(cfg, ids, |ids|, fetchPayment, random, now, s0, s, firstReply, mails)
    ensures s == OrderState(ids, |ids|, fetchPayment, random, s0, now)
    ensures mails == OrderMails(cfg, ids, 0, fetchPayment, random, s0.online, s0.tokens.Keys)
  {
    assert OrderMails(cfg, ids, |ids|, fetchPayment, random, s0.online, s.tokens.Keys) == [];
    assert mails + [] == mails;
  }

  /** The loop over a merchant order's payments. A failed read is caught
      and the loop goes on; only the first `ok: false` reaches the client.
      A later payment's `ok: false` finds the reply already sent, so its
      `res.json` throws inside the loop's `try` and is caught there; the
      handler's own final reply after the loop is not inside that `try`
      (see `Webhook`). Payment `i` draws its token from `random(i)`. */
  method ProcessMerchantOrder(store: Store, cfg: MpConfig, ids: seq<string>, fetchPayment: string -> Option<MpPayment>,
                              random: nat -> seq<byte>, now: Millis)
    returns (firstReply: Option<WebhookReply>, mails: seq<Mailer.MailRequest>)
    requires store.Valid()
    requires forall k :: |random(k)| == 32
    modifies store
    ensures store.Valid()
    ensures firstReply.Some? <==> exists j | 0 <= j < |ids| :: RefusedRecord(fetchPayment(ids[j]), old(store.online))
    ensures firstReply.Some? ==> firstReply.value == RecordNotOk
    ensures forall j | 0 <= j < |ids| :: Recordable(fetchPayment(ids[j]), old(store.online)) ==>
      fetchPayment(ids[j]).value.id in store.purchases
    ensures (forall j | 0 <= j < |ids| :: !ApprovedFetch(fetchPayment(ids[j]))) ==>
      store.State() == old(store.State()) && mails == []
    ensures store.State() == OrderState(ids, |ids|, fetchPayment, random, old(store.State()), now)
    ensures mails == OrderMails(cfg, ids, 0, fetchPayment, random, old(store.online), old(store.tokens).Keys)
    ensures Grows(old(store.purchases), store.purchases) && Grows(old(store.users), store.users)
    ensures store.online == old(store.online) && store.resets == old(store.resets)
      && store.courses == old(store.courses) && store.books == old(store.books)
  {
    firstReply, mails := None, [];
    ghost var s0 := store.State();
    var i := 0;
    while i < |ids|
      invariant store.Valid()
      invariant OrderLoop(cfg, ids, i, fetchPayment, random, now, s0, store.State(), firstReply, mails)
    {
      ghost var s, reply0, mails0 := store.State(), firstReply, mails;
      var refused, m := MerchantOrderStep(store, cfg, fetchPayment(ids[i]), random(i), now);
      mails := mails + m;
      if refused && firstReply.None? {
        firstReply := Some(RecordNotOk);
      }
      OrderLoopStep(cfg, ids, i, fetchPayment, random, now, s0, s, store.State(), reply0, mails0, refused, m, firstReply, mails);
      i := i + 1;
    }
    OrderLoopDone(cfg, ids, fetchPayment, random, now, s0, store.State(), firstReply, mails);
  }

  /** One payment of a merchant order: its read, then
      `processApprovedPayment`, inside the loop's own try. */
  method MerchantOrderStep(store: Store, cfg: MpConfig, fetched: Option<MpPayment>, random: seq<byte>, now: Millis)
    returns (refused: bool, mails: seq<Mailer.MailRequest>)
    requires store.Valid() && |random| == 32
    modifies store
    ensures store.Valid()
    ensures OrderStep(cfg, fetched, random, now, old(store.State()), store.State(), refused, mails)
  {
    refused, mails := false, [];
    ghost var s := store.State();
    if fetched.Some? {
      var result, m, _ := ProcessPayment(store, cfg, fetched.value, random, now);
      mails := m;
      refused := result == RecordRefused;
      ghost var step := StepMails(cfg, fetched, random, s.online, s.tokens.Keys);
      match result {
        case Skipped =>
          assert mails == step.0;
        case RecordRefused =>
          assert mails == step.0;
        case ProcessThrew =>
          assert mails == step.0;
        case Processed =>
          assert mails == step.0;
      }
    }
    EffectStep(cfg, fetched, random, now, s, store.State(), refused, mails);
  }

  /** A payment whose store, refusal and mails are those the spec gives
      meets all of `OrderStep`. */
  lemma EffectStep(cfg: MpConfig, fetched: Option<MpPayment>, random: seq<byte>, now: Millis,
                   s: StoreState, t: StoreState, refused: bool, mails: seq<Mailer.MailRequest>)
    requires forall id | id in s.users :: id < s.nextId
    requires t == PaymentEffect(fetched, random, s, now)
    requires refused <==> RefusedRecord(fetched, s.online)
    requires mails == StepMails(cfg, fetched, random, s.online, s.tokens.Keys).0
    ensures OrderStep(cfg, fetched, random, now, s, t, refused, mails)
  {
    if ApprovedFetch(fetched) {
      var p, u, slug := fetched.value, BuyerIn(s, BuyerEmail(fetched.value)), PickCourseSlugFromPayment(fetched.value);
      FulfilledUsersGrow(s, p, u, slug, random, now);
      FulfilledPurchasesGrow(s, p, u, slug, random, now);
      FulfilledTokenKeys(s, p, u, slug, random, now);
    }
  }

  /** Fulfilling a payment adds at most the new token's key. */
  lemma FulfilledTokenKeys(s: StoreState, p: MpPayment, u: Option<UserId>, slug: string, random: seq<byte>, now: Millis)
    ensures Fulfilled(s, p, u, slug, random, now).tokens.Keys
         == if !RecordFails(p, s.online) && slug == "" && HexEncode(random) !in s.tokens
            then s.tokens.Keys + {HexEncode(random)} else s.tokens.Keys
  {
  }

  /** Fulfilling a payment only adds users. */
  lemma FulfilledUsersGrow(s: StoreState, p: MpPayment, u: Option<UserId>, slug: string, random: seq<byte>, now: Millis)
    requires forall id | id in s.users :: id < s.nextId
    ensures Grows(s.users, Fulfilled(s, p, u, slug, random, now).users)
  {
  }

  /** Fulfilling a payment only adds purchases, and stores a recordable
      one. */
  lemma FulfilledPurchasesGrow(s: StoreState, p: MpPayment, u: Option<UserId>, slug: string, random: seq<byte>, now: Millis)
    ensures Grows(s.purchases, Fulfilled(s, p, u, slug, random, now).purchases)
    ensures !RecordFails(p, s.online) ==> p.id in Fulfilled(s, p, u, slug, random, now).purchases
  {
    if !RecordFails(p, s.online) && p.id !in s.purchases {
      assert NewPurchase(PurchaseInputOf(p, u, slug, now), now).Ok?;
    }
  }

  /** `ALL /webhook`. `fetchPayment` is the payment read (None when it
      throws), `merchantOrder` the merchant-order read; the first answer
      sent is the one the client gets. Once `processApprovedPayment` has
      sent `ok: false`, the handler's own `res.json` after it (the payment
      topic's reply, or the reply after the merchant-order loop) throws
      because the headers are already sent, and so does the `res.json` of
      the outer `catch`: the rejection leaves the async route uncaught.
      `escapes` says when that happens. */
  method Webhook(store: Store, cfg: MpConfig, req: WebhookRequest, fetchPayment: string -> Option<MpPayment>,
                 merchantOrder: string -> MerchantOrder, random: nat -> seq<byte>, now: Millis)
    returns (reply: WebhookReply, mails: seq<Mailer.MailRequest>, escapes: bool, ghost buyer: Option<UserId>)
    requires store.Valid()
    requires forall k :: |random(k)| == 32
    modifies store
    ensures store.Valid()
    ensures escapes <==> reply == RecordNotOk
    ensures escapes ==> cfg.hasClient && (Topic(req) == "payment" || Topic(req) == "merchant_order")
    ensures !cfg.hasClient ==> reply == WebhookNotConfigured
    ensures cfg.hasClient && (Topic(req) == "" || NotificationId(req) == "") ==> reply == Received
    ensures cfg.hasClient && Topic(req) != "" && NotificationId(req) != "" && Topic(req) != "payment" && Topic(req) != "merchant_order" ==>
      reply == Received
    ensures reply == WebhookNotConfigured || reply == Received ==> store.State() == old(store.State()) && mails == []
    ensures cfg.hasClient && Topic(req) == "payment" && NotificationId(req) != "" ==>
      var fetched := fetchPayment(NotificationId(req));
      (fetched.None? ==> reply == ReceivedError && store.State() == old(store.State()) && mails == [])
      && (fetched.Some? && !Approved(fetched.value.status) ==>
            reply == Acknowledged(true, "payment") && store.State() == old(store.State()) && mails == [])
      && (ApprovedFetch(fetched) ==>
            buyer == BuyerIn(old(store.State()), BuyerEmail(fetched.value))
            && store.State() == Fulfilled(old(store.State()), fetched.value, buyer, PickCourseSlugFromPayment(fetched.value), random(0), now)
            && (buyer.Some? ==> buyer.value in store.users && store.users[buyer.value].email == BuyerKey(fetched.value))
            && (reply == RecordNotOk <==> RecordFails(fetched.value, old(store.online)))
            && (reply != RecordNotOk ==> fetched.value.id in store.purchases)
            && (reply == Acknowledged(true, "payment") || reply == RecordNotOk || reply == ReceivedError)
            && (reply == Acknowledged(true, "payment") && PickCourseSlugFromPayment(fetched.value) != "" ==>
                  var slug := PickCourseSlugFromPayment(fetched.value);
                  store.access == SetGrant(old(store.access), AccessKey(buyer, slug), PROVIDER, now)
                  && store.tokens == old(store.tokens)
                  && mails == [CourseMail(cfg, fetched.value, slug, WebhookTitle(fetched.value, slug))])
            && (reply == Acknowledged(true, "payment") && PickCourseSlugFromPayment(fetched.value) == "" ==>
                  var token := HexEncode(random(0));
                  store.tokens == old(store.tokens)[token := DownloadToken(buyer, token, now + DAY_MS, false)]
                  && store.access == old(store.access)
                  && mails == [BookMail(cfg, fetched.value, token)])
            && (reply == RecordNotOk ==> mails == [])
            && (reply == ReceivedError ==>
                  PickCourseSlugFromPayment(fetched.value) == "" && HexEncode(random(0)) in old(store.tokens)
                  && store.access == old(store.access) && store.tokens == old(store.tokens) && mails == []))
    ensures cfg.hasClient && Topic(req) == "merchant_order" && NotificationId(req) != "" ==>
      match merchantOrder(NotificationId(req))
      case OrderFetchThrew => reply == ReceivedError && store.State() == old(store.State()) && mails == []
      case OrderNotOk => reply == Acknowledged(false, "merchant_order") && store.State() == old(store.State()) && mails == []
      case OrderPayments(ids) =>
        (reply == RecordNotOk <==> exists j | 0 <= j < |ids| :: RefusedRecord(fetchPayment(ids[j]), old(store.online)))
        && (reply != RecordNotOk ==> reply == Acknowledged(true, "merchant_order"))
        && (forall j | 0 <= j < |ids| :: Recordable(fetchPayment(ids[j]), old(store.online)) ==>
              fetchPayment(ids[j]).value.id in store.purchases)
        && store.State() == OrderState(ids, |ids|, fetchPayment, random, old(store.State()), now)
        && mails == OrderMails(cfg, ids, 0, fetchPayment, random, old(store.online), old(store.tokens).Keys)
    ensures Grows(old(store.purchases), store.purchases) && Grows(old(store.users), store.users)
    ensures store.online == old(store.online) && store.resets == old(store.resets)
      && store.courses == old(store.courses) && store.books == old(store.books)
  {
    mails, buyer := [], None;
    if !cfg.hasClient { return WebhookNotConfigured, mails, false, buyer; }
    var topic := Topic(req);
    var id := NotificationId(req);
    if topic == "" || id == "" { return Received, mails, false, buyer; }
    if topic == "payment" {
      var fetched := fetchPayment(id);
      if fetched.None? { return ReceivedError, mails, false, buyer; }
      var result, m;
      result, m, buyer := ProcessPayment(store, cfg, fetched.value, random(0), now);
      mails := m;
      match result {
        case Skipped => reply := Acknowledged(true, "payment");
        case Processed => reply := Acknowledged(true, "payment");
        case RecordRefused => reply := RecordNotOk;
        case ProcessThrew => reply := ReceivedError;
      }
      escapes := reply == RecordNotOk;
      return;
    }
    if topic == "merchant_order" {
      match merchantOrder(id) {
        case OrderFetchThrew => return ReceivedError, mails, false, buyer;
        case OrderNotOk => return Acknowledged(false, "merchant_order"), mails, false, buyer;
        case OrderPayments(ids) =>
          var first;
          first, mails := ProcessMerchantOrder(store, cfg, ids, fetchPayment, random, now);
          reply := first.GetOr(Acknowledged(true, "merchant_order"));
          escapes := first.Some?;
          return;
      }
    }
    return Received, mails, false, buyer;
  }
}
