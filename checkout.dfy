/** The checkout page: the product's price, title and metadata, the form
    and login gate, the Mercado Pago redirect and the PayPal order and
    capture bodies it sends to the backend. */
module Checkout {
  import opened Wrappers
  import opened Text
  import RegisterForm
  import PayPal
  import MercadoPago

  /** An entry of the page's course table. */
  datatype CourseOffer = CourseOffer(slug: string, title: string, priceUSD: string, priceARS: int)

  const COURSES: seq<CourseOffer> := [
    CourseOffer("pro-avanzado", "Comunicación, tecnología y el plan de Dios", "35.00", 34900),
    CourseOffer("masterclass", "Renovación de la Mente", "35.00", 34900)
  ]

  const PRICE_USD_BOOK: string := "13.00"
  const PRICE_ARS_BOOK: int := 12900
  const DEFAULT_COURSE_USD: string := "35.00"
  const DEFAULT_COURSE_ARS: int := 35000
  const BOOK_TITLE: string := "Libro digital - SINEW"
  const DEFAULT_COURSE_TITLE: string := "Curso SINEW"

  /** The two selects: `productType` ("book" or anything else, a course)
      and the chosen course. */
  datatype Product = Product(productType: string, courseSlug: string)
  {
    predicate IsBook() { productType == "book" }
  }

  datatype CheckoutForm = CheckoutForm(nombre: string, email: string, metodoPago: string)

  /** `COURSES.find(c => c.slug === slug)`. */
  function FindCourse(offers: seq<CourseOffer>, slug: string): (r: Option<CourseOffer>)
    ensures r.Some? ==> r.value in offers && r.value.slug == slug
    ensures r.None? <==> forall i | 0 <= i < |offers| :: offers[i].slug != slug
    ensures r.Some? ==> exists i | 0 <= i < |offers| :: offers[i] == r.value && forall j | 0 <= j < i :: offers[j].slug != slug
  {
    if |offers| == 0 then None
    else if offers[0].slug == slug then Some(offers[0])
    else
      var r := FindCourse(offers[1..], slug);
      assert r.Some? ==> exists i | 0 <= i < |offers[1..]| :: offers[1..][i] == r.value && forall j | 0 <= j < i :: offers[1..][j].slug != slug;
      assert r.Some? ==> exists i | 0 <= i < |offers| :: offers[i] == r.value && forall j | 0 <= j < i :: offers[j].slug != slug by {
        if r.Some? {
          var i :| 0 <= i < |offers[1..]| && offers[1..][i] == r.value && forall j | 0 <= j < i :: offers[1..][j].slug != slug;
          assert offers[i + 1] == r.value;
          assert forall j | 0 <= j < i + 1 :: offers[j].slug != slug by {
            forall j | 0 <= j < i + 1 ensures offers[j].slug != slug {
              if j > 0 { assert offers[j] == offers[1..][j - 1]; }
            }
          }
        }
      }
      r
  }

  /** `currentUSD`. */
  function CurrentUSD(p: Product): (r: string)
    ensures p.IsBook() ==> r == PRICE_USD_BOOK
    ensures !p.IsBook() && FindCourse(COURSES, p.courseSlug).Some? ==> r == FindCourse(COURSES, p.courseSlug).value.priceUSD
    ensures !p.IsBook() && FindCourse(COURSES, p.courseSlug).None? ==> r == DEFAULT_COURSE_USD
  {
    if p.IsBook() then PRICE_USD_BOOK
    else
      match FindCourse(COURSES, p.courseSlug)
      case Some(c) => Or(c.priceUSD, DEFAULT_COURSE_USD)
      case None => DEFAULT_COURSE_USD
  }

  /** `currentARS`; a price of 0 would count as missing. */
  function CurrentARS(p: Product): (r: int)
    ensures p.IsBook() ==> r == PRICE_ARS_BOOK
    ensures !p.IsBook() && FindCourse(COURSES, p.courseSlug).Some? ==> r == FindCourse(COURSES, p.courseSlug).value.priceARS
    ensures !p.IsBook() && FindCourse(COURSES, p.courseSlug).None? ==> r == DEFAULT_COURSE_ARS
  {
    if p.IsBook() then PRICE_ARS_BOOK
    else
      match FindCourse(COURSES, p.courseSlug)
      case Some(c) => if c.priceARS != 0 then c.priceARS else DEFAULT_COURSE_ARS
      case None => DEFAULT_COURSE_ARS
  }

  function CurrentTitle(p: Product): (r: string)
    ensures r != ""
    ensures p.IsBook() ==> r == BOOK_TITLE
    ensures !p.IsBook() && FindCourse(COURSES, p.courseSlug).Some? ==> r == FindCourse(COURSES, p.courseSlug).value.title
    ensures !p.IsBook() && FindCourse(COURSES, p.courseSlug).None? ==> r == DEFAULT_COURSE_TITLE
  {
    if p.IsBook() then BOOK_TITLE
    else
      match FindCourse(COURSES, p.courseSlug)
      case Some(c) => Or(c.title, DEFAULT_COURSE_TITLE)
      case None => DEFAULT_COURSE_TITLE
  }

  /** Examples only: the prices and titles the page shows on each choice it
      offers. The all-inputs lookup is `FindCourse`. */
  lemma PriceTable()
    ensures CurrentUSD(Product("book", "")) == "13.00" && CurrentARS(Product("book", "")) == 12900
    ensures CurrentUSD(Product("course", "masterclass")) == "35.00" && CurrentARS(Product("course", "masterclass")) == 34900
    ensures CurrentTitle(Product("course", "masterclass")) == "Renovación de la Mente"
    ensures CurrentARS(Product("course", "pro-avanzado")) == 34900
    ensures CurrentUSD(Product("course", "otro")) == "35.00" && CurrentARS(Product("course", "otro")) == 35000
    ensures CurrentTitle(Product("course", "otro")) == "Curso SINEW"
  {
    assert FindCourse(COURSES, "masterclass") == Some(COURSES[1]);
    assert FindCourse(COURSES, "pro-avanzado") == Some(COURSES[0]);
    assert FindCourse(COURSES, "otro") == None;
  }

  /** The metadata for the backend: `{source}` for the book, the course
      under `slug` and `courseSlug` otherwise. */
  function Metadata(p: Product): (m: map<string, string>)
    ensures p.IsBook() ==> m == map["source" := "checkout_spa"]
    ensures !p.IsBook() ==> (m.Keys == {"type", "slug", "courseSlug"} && m["type"] == "course"
      && m["slug"] == p.courseSlug && m["courseSlug"] == p.courseSlug)
  {
    if p.IsBook() then map["source" := "checkout_spa"]
    else map["type" := "course", "slug" := p.courseSlug, "courseSlug" := p.courseSlug]
  }

  /** `isFormValid`: a trimmed name of two characters or more and an e-mail
      the strict pattern accepts, as typed (not trimmed). */
  predicate IsFormValid(f: CheckoutForm)
  {
    |Trim(f.nombre)| > 1 && RegisterForm.StrictEmail(f.email)
  }

  /** The token the page reads: "token" first, then "auth_token". */
  function StoredToken(storage: map<string, string>): (r: string)
    ensures "token" in storage && storage["token"] != "" ==> r == storage["token"]
    ensures ("token" !in storage || storage["token"] == "") && "auth_token" in storage ==> r == storage["auth_token"]
    ensures ("token" !in storage || storage["token"] == "") && "auth_token" !in storage ==> r == ""
    ensures r != "" ==> r in storage.Values
  {
    Or(if "token" in storage then storage["token"] else "", if "auth_token" in storage then storage["auth_token"] else "")
  }

  const LOGIN_REQUIRED: string := "Debes iniciar sesión para comprar."
  const FORM_INCOMPLETE: string := "Completá nombre y un email válido."
  const LOGIN_ROUTE: string := "/login"
  const EMPTY_PREFERENCE: string := "Respuesta vacía de la API de preferencias."
  const NO_CHECKOUT_URL: string := "La preferencia no devolvió URL de checkout. Verificá que el backend envíe `init_point`/`sandbox_init_point` y que uses credenciales APP_USR válidas."
  const MP_DEFAULT_ERROR: string := "No se pudo iniciar Mercado Pago."
  const MP_ERROR_PREFIX: string := "Error iniciando Mercado Pago.\nDetalle: "

  /** The preference request the page posts for Mercado Pago. */
  function PreferenceRequestOf(p: Product, f: CheckoutForm): (r: MercadoPago.PreferenceRequest)
    ensures r.price == Some(Finite(CurrentARS(p) as real)) && r.currency == "ARS"
    ensures r.title == Some(CurrentTitle(p)) && r.buyerName == Or(f.nombre, "APRO") && r.buyerEmail == f.email
    ensures r.metadata == Metadata(p)
  {
    MercadoPago.PreferenceRequest(Some(Finite(CurrentARS(p) as real)), "ARS", Some(CurrentTitle(p)),
      Or(f.nombre, "APRO"), f.email, Metadata(p))
  }

  /** The preference the page builds names the same product on the server:
      its course, or the book. */
  lemma PreferenceNamesProduct(cfg: MercadoPago.MpConfig, p: Product, f: CheckoutForm, now: int)
    ensures var b := MercadoPago.PreferenceBodyOf(cfg, PreferenceRequestOf(p, f), now);
      (p.IsBook() || p.courseSlug == "" ==> b.itemId == MercadoPago.BOOK_ITEM_ID)
      && (!p.IsBook() && p.courseSlug != "" ==> b.itemId == MercadoPago.COURSE_PREFIX + p.courseSlug)
      && b.title == CurrentTitle(p) && b.currencyId == "ARS"
  {
    var m := Metadata(p);
    assert MercadoPago.PreferenceSlug(m) == (if p.IsBook() then "" else p.courseSlug);
    assert ToUpper("ARS") == "ARS";
  }

  /** The Mercado Pago answer as the page sees it ("" for missing links). */
  datatype Pref = Pref(initPoint: string, sandboxInitPoint: string)

  /** What `createPreference` does: it throws (with the response's `error`
      and the error's `message`, "" when absent) or returns a value, null
      included. */
  datatype PrefOutcome = PrefThrown(responseError: string, message: string) | PrefReturned(pref: Option<Pref>)

  /** The checkout URL: `init_point` before `sandbox_init_point`; the
      error message when the answer is null or has neither. */
  function CheckoutUrl(pref: Option<Pref>): (r: Result<string, string>)
    ensures pref.None? ==> r == Err(EMPTY_PREFERENCE)
    ensures pref.Some? && pref.value.initPoint != "" ==> r == Ok(pref.value.initPoint)
    ensures pref.Some? && pref.value.initPoint == "" ==>
      r == (if pref.value.sandboxInitPoint != "" then Ok(pref.value.sandboxInitPoint) else Err(NO_CHECKOUT_URL))
    ensures r.Ok? ==> r.value != ""
  {
    match pref
    case None => Err(EMPTY_PREFERENCE)
    case Some(p) =>
      var url := Or(p.initPoint, p.sandboxInitPoint);
      if url == "" then Err(NO_CHECKOUT_URL) else Ok(url)
  }

  /** The redirect or the error text of one `handleMercadoPago` call that
      got past the gate. */
  function MercadoPagoResult(o: PrefOutcome): (r: Result<string, string>)
    ensures o.PrefReturned? && CheckoutUrl(o.pref).Ok? ==> r == CheckoutUrl(o.pref)
    ensures o.PrefReturned? && CheckoutUrl(o.pref).Err? ==> r == Err(MP_ERROR_PREFIX + CheckoutUrl(o.pref).error)
    ensures o.PrefThrown? ==> r == Err(MP_ERROR_PREFIX + Or(Or(o.responseError, o.message), MP_DEFAULT_ERROR))
    ensures r.Err? ==> StartsWith(r.error, MP_ERROR_PREFIX)
  {
    match o
    case PrefThrown(responseError, message) => Err(MP_ERROR_PREFIX + Or(Or(responseError, message), MP_DEFAULT_ERROR))
    case PrefReturned(pref) =>
      match CheckoutUrl(pref)
      case Ok(url) => Ok(url)
      case Err(msg) => Err(MP_ERROR_PREFIX + msg)
  }

  // ---------------------------------------------------------------------
  // PayPal

  const BOOK_SKU: string := "libro-001"
  const CAPTURE_DEFAULT_ERROR: string := "Error capturando pago"
  const PAYPAL_DEFAULT_ERROR: string := "Error con PayPal"

  /** Whether the PayPal buttons are drawn. */
  predicate ShowPayPalButtons(f: CheckoutForm, clientId: string)
  {
    f.metodoPago == "paypal" && clientId != ""
  }

  /** The body of `create-order`. `parseFloat` is the number parser applied
      to the price text. */
  function OrderRequestOf(p: Product, f: CheckoutForm, parseFloat: string -> Num): (r: PayPal.OrderRequest)
    ensures |r.items| == 1 && r.items[0].quantity == 1 && r.items[0].name == CurrentTitle(p)
    ensures r.items[0].itemType == (if p.IsBook() then "book" else "course")
    ensures r.items[0].sku == (if p.IsBook() then BOOK_SKU else p.courseSlug)
    ensures r.items[0].unitAmount == Some(parseFloat(CurrentUSD(p))) && r.items[0].currency == Some("USD")
    ensures p.IsBook() ==> r.meta == map["buyerEmail" := f.email]
    ensures !p.IsBook() ==> r.meta == map["courseSlug" := p.courseSlug, "buyerEmail" := f.email]
  {
    var isCourse := !p.IsBook();
    PayPal.OrderRequest(
      [PayPal.OrderItem(if isCourse then "course" else "book", if isCourse then p.courseSlug else BOOK_SKU,
                        CurrentTitle(p), 1, Some(parseFloat(CurrentUSD(p))), Some("USD"))],
      if isCourse then map["courseSlug" := p.courseSlug, "buyerEmail" := f.email] else map["buyerEmail" := f.email],
      None, None, "", None)
  }

  /** The body of `capture-order`: the course only for a course. */
  function CaptureRequestOf(p: Product, f: CheckoutForm, orderId: string): (r: PayPal.CaptureRequest)
    ensures r.orderId == orderId && r.email == f.email && r.name == f.nombre
    ensures r.courseSlug == (if p.IsBook() then "" else p.courseSlug)
  {
    PayPal.CaptureRequest(orderId, if p.IsBook() then "" else p.courseSlug, f.email, f.nombre)
  }

  /** An order created from this page and captured from it grants the
      product chosen: the course picked, or the book when there is none. */
  lemma OrderAndCaptureAgree(p: Product, f: CheckoutForm, parseFloat: string -> Num, orderId: string)
    requires ':' !in p.courseSlug
    ensures var req := OrderRequestOf(p, f, parseFloat);
      var customId := PayPal.OrderBodyOf(req).customId;
      PayPal.CaptureSlug(customId, CaptureRequestOf(p, f, orderId).courseSlug) == (if p.IsBook() then "" else p.courseSlug)
      && (p.IsBook() ==> customId == PayPal.BOOK_SKU)
      && (!p.IsBook() && p.courseSlug != "" ==> customId == PayPal.COURSE_PREFIX + p.courseSlug)
  {
    var req := OrderRequestOf(p, f, parseFloat);
    assert !PayPal.SimplePayload(req);
    var meta := PayPal.EffectiveMeta(req);
    assert meta == req.meta;
    assert PayPal.Get(meta, "courseSlug") == (if p.IsBook() then "" else p.courseSlug);
    PayPal.CustomIdRoundTrip(meta, CaptureRequestOf(p, f, orderId).courseSlug);
  }

  /** The capture answer ("" for missing fields). */
  datatype CaptureAnswer = CaptureAnswer(redirectTo: string, downloadLink: string)

  /** Where the page goes after a capture: the redirect, or the thank-you
      page with the download link and the payer's name. */
  datatype AfterCapture = ReplaceWith(url: string) | ToGracias(downloadLink: Option<string>, payerName: string)

  /** `redirectTo`/`downloadLink`: the link only when there is no
      redirect. */
  function CaptureLinks(a: CaptureAnswer): (r: (Option<string>, Option<string>))
    ensures r.0.Some? <==> a.redirectTo != ""
    ensures r.0.Some? ==> r.0.value == a.redirectTo && r.1.None?
    ensures r.0.None? ==> (r.1.Some? <==> a.downloadLink != "") && (r.1.Some? ==> r.1.value == a.downloadLink)
  {
    var redirectTo := if a.redirectTo != "" then Some(a.redirectTo) else None;
    var downloadLink := if a.redirectTo != "" then None else if a.downloadLink != "" then Some(a.downloadLink) else None;
    (redirectTo, downloadLink)
  }

  function NextAfterCapture(a: CaptureAnswer, f: CheckoutForm): (r: AfterCapture)
    ensures a.redirectTo != "" ==> r == ReplaceWith(a.redirectTo)
    ensures a.redirectTo == "" ==> r == ToGracias(CaptureLinks(a).1, f.nombre)
  {
    var links := CaptureLinks(a);
    if links.0.Some? then ReplaceWith(links.0.value) else ToGracias(links.1, f.nombre)
  }

  /** A capture error: the response's `error`, the message, or the
      default. */
  function CaptureErrorText(responseError: string, message: string): (r: string)
    ensures r != ""
    ensures responseError != "" ==> r == responseError
    ensures responseError == "" && message != "" ==> r == message
    ensures responseError == "" && message == "" ==> r == CAPTURE_DEFAULT_ERROR
  {
    Or(Or(responseError, message), CAPTURE_DEFAULT_ERROR)
  }

  // ---------------------------------------------------------------------
  // Page state

  /** The state the handlers change: the error banner, the Mercado Pago
      spinner, the page the browser was sent to, the routes navigated to,
      and the navigation state last handed to the thank-you page (its
      download link and payer name). */
  class CheckoutPage {
    var errorMsg: string
    var mpLoading: bool
    var location: Option<string>
    var navigations: seq<string>
    var graciasState: Option<(Option<string>, string)>

    constructor ()
      ensures errorMsg == "" && !mpLoading && location.None? && navigations == [] && graciasState.None?
    {
      errorMsg := "";
      mpLoading := false;
      location := None;
      navigations := [];
      graciasState := None;
    }

    /** `handleChange`: typing clears the banner. */
    method OnChange()
      modifies this
      ensures errorMsg == "" && mpLoading == old(mpLoading) && location == old(location) && navigations == old(navigations)
      ensures graciasState == old(graciasState)
    {
      errorMsg := "";
    }

    /** `requireLoginAndForm`: login is checked before the form; either
        failure sets the banner and answers false, and only the first sends
        the visitor to the login page. */
    method RequireLoginAndForm(isLoggedIn: bool, f: CheckoutForm) returns (ok: bool)
      modifies this
      ensures ok <==> isLoggedIn && IsFormValid(f)
      ensures !isLoggedIn ==> errorMsg == LOGIN_REQUIRED && navigations == old(navigations) + [LOGIN_ROUTE]
      ensures isLoggedIn && !IsFormValid(f) ==> errorMsg == FORM_INCOMPLETE && navigations == old(navigations)
      ensures ok ==> errorMsg == old(errorMsg) && navigations == old(navigations)
      ensures mpLoading == old(mpLoading) && location == old(location) && graciasState == old(graciasState)
    {
      if !isLoggedIn {
        errorMsg := LOGIN_REQUIRED;
        navigations := navigations + [LOGIN_ROUTE];
        return false;
      }
      if !IsFormValid(f) {
        errorMsg := FORM_INCOMPLETE;
        return false;
      }
      return true;
    }

    /** `handleMercadoPago`; `create` stands for the preference call. The
        spinner is off at the end whatever happened. */
    method HandleMercadoPago(isLoggedIn: bool, f: CheckoutForm, p: Product,
                             create: MercadoPago.PreferenceRequest -> PrefOutcome)
      modifies this
      ensures !mpLoading && graciasState == old(graciasState)
      ensures !(isLoggedIn && IsFormValid(f)) ==> (location == old(location)
        && errorMsg == (if isLoggedIn then FORM_INCOMPLETE else LOGIN_REQUIRED)
        && navigations == old(navigations) + (if isLoggedIn then [] else [LOGIN_ROUTE]))
      ensures isLoggedIn && IsFormValid(f) ==>
        var result := MercadoPagoResult(create(PreferenceRequestOf(p, f)));
        navigations == old(navigations)
        && (result.Ok? ==> location == Some(result.value) && errorMsg == "")
        && (result.Err? ==> location == old(location) && errorMsg == result.error)
    {
      errorMsg := "";
      var ok := RequireLoginAndForm(isLoggedIn, f);
      if !ok {
        mpLoading := false;
        return;
      }
      mpLoading := true;
      var result := MercadoPagoResult(create(PreferenceRequestOf(p, f)));
      match result {
        case Ok(url) => location := Some(url);
        case Err(msg) => errorMsg := msg;
      }
      mpLoading := false;
    }

    /** `onApprove` once the capture call has answered or thrown; the
        thank-you page gets the download link and the payer's name as its
        navigation state. */
    method OnApprove(f: CheckoutForm, answer: Result<CaptureAnswer, (string, string)>)
      modifies this
      ensures mpLoading == old(mpLoading)
      ensures answer.Ok? ==> errorMsg == old(errorMsg)
      ensures answer.Ok? && NextAfterCapture(answer.value, f).ReplaceWith? ==>
        location == Some(NextAfterCapture(answer.value, f).url) && navigations == old(navigations)
        && graciasState == old(graciasState)
      ensures answer.Ok? && NextAfterCapture(answer.value, f).ToGracias? ==>
        var next := NextAfterCapture(answer.value, f);
        location == old(location) && navigations == old(navigations) + ["/gracias"]
        && graciasState == Some((next.downloadLink, next.payerName))
      ensures answer.Err? ==> (errorMsg == CaptureErrorText(answer.error.0, answer.error.1)
        && location == old(location) && navigations == old(navigations) && graciasState == old(graciasState))
    {
      match answer {
        case Ok(a) =>
          match NextAfterCapture(a, f) {
            case ReplaceWith(url) => location := Some(url);
            case ToGracias(link, name) =>
              navigations := navigations + ["/gracias"];
              graciasState := Some((link, name));
          }
        case Err(e) => errorMsg := CaptureErrorText(e.0, e.1);
      }
    }

    /** `onError` of the buttons. */
    method OnPayPalError(message: string)
      modifies this
      ensures errorMsg == Or(message, PAYPAL_DEFAULT_ERROR)
      ensures mpLoading == old(mpLoading) && location == old(location) && navigations == old(navigations)
        && graciasState == old(graciasState)
    {
      errorMsg := Or(message, PAYPAL_DEFAULT_ERROR);
    }
  }
}
