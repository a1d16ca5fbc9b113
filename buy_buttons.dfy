/** The payment buttons of a product card: which buttons show, the bodies
    they post for Mercado Pago and PayPal, and where the browser goes after
    a PayPal approval. */
module BuyButtons {
  import opened Wrappers
  import opened Text
  import PayPal
  import MercadoPago
  import Courses

  /** The component's props after their defaults: prices 0, buyer fields
      "", `title` None when not given. */
  datatype Props = Props(productType: string, slug: string, title: Option<string>,
                         mpPriceARS: real, ppPriceUSD: real, buyerEmail: string, buyerName: string)

  predicate ShowMP(p: Props) { p.mpPriceARS > 0.0 }
  predicate ShowPP(p: Props) { p.ppPriceUSD > 0.0 }
  predicate IsFree(p: Props) { !ShowMP(p) && !ShowPP(p) }

  /** The PayPal buttons need a positive price and a client id. */
  predicate ShowPayPalButtons(p: Props, clientId: string) { ShowPP(p) && clientId != "" }

  /** Exactly one of "free", "Mercado Pago", "PayPal" or both is drawn for
      each pair of prices. */
  lemma ButtonsFollowPrices(p: Props)
    ensures IsFree(p) <==> p.mpPriceARS <= 0.0 && p.ppPriceUSD <= 0.0
    ensures IsFree(p) ==> !ShowMP(p) && !ShowPP(p)
    ensures !IsFree(p) ==> ShowMP(p) || ShowPP(p)
  {
  }

  /** The metadata both buttons send. */
  function Metadata(p: Props): (m: map<string, string>)
    ensures p.productType == "course" ==> m == map["type" := "course", "slug" := p.slug, "courseSlug" := p.slug]
    ensures p.productType != "course" ==> m == map["type" := "book"]
  {
    if p.productType == "course" then map["type" := p.productType, "slug" := p.slug, "courseSlug" := p.slug]
    else map["type" := "book"]
  }

  function PreferenceRequestOf(p: Props): (r: MercadoPago.PreferenceRequest)
    ensures r.price == Some(Finite(p.mpPriceARS)) && r.currency == "ARS" && r.title == p.title
    ensures r.buyerEmail == p.buyerEmail && r.buyerName == p.buyerName && r.metadata == Metadata(p)
  {
    MercadoPago.PreferenceRequest(Some(Finite(p.mpPriceARS)), "ARS", p.title, p.buyerName, p.buyerEmail, Metadata(p))
  }

  /** The Mercado Pago item names the course of a course card and the book
      of any other. */
  lemma PreferenceNamesProduct(cfg: MercadoPago.MpConfig, p: Props, now: int)
    ensures var b := MercadoPago.PreferenceBodyOf(cfg, PreferenceRequestOf(p), now);
      (p.productType == "course" && p.slug != "" ==> b.itemId == MercadoPago.COURSE_PREFIX + p.slug)
      && (p.productType != "course" || p.slug == "" ==> b.itemId == MercadoPago.BOOK_ITEM_ID)
  {
    assert MercadoPago.PreferenceSlug(Metadata(p)) == (if p.productType == "course" then p.slug else "");
  }

  /** The simple payload of `create-order`. */
  function OrderRequestOf(p: Props): (r: PayPal.OrderRequest)
    ensures r.items == [] && r.meta == map[] && r.price == Some(Finite(p.ppPriceUSD))
    ensures r.currency == Some("USD") && r.title == p.title.GetOr("") && r.metadata == Some(Metadata(p))
  {
    PayPal.OrderRequest([], map[], Some(Finite(p.ppPriceUSD)), Some("USD"), p.title.GetOr(""), Some(Metadata(p)))
  }

  /** The body of `capture-order`: the course only on a course card. */
  function CaptureRequestOf(p: Props, orderId: string): (r: PayPal.CaptureRequest)
    ensures r.orderId == orderId && r.email == p.buyerEmail && r.name == p.buyerName
    ensures r.courseSlug == (if p.productType == "course" then p.slug else "")
  {
    PayPal.CaptureRequest(orderId, if p.productType == "course" then p.slug else "", p.buyerEmail, p.buyerName)
  }

  /** With a PayPal price shown, the order priced from a card and then
      captured, once the capture gets past the route's authentication,
      grants that card's product: its course through the custom id, or the
      book. */
  lemma OrderAndCaptureAgree(p: Props, orderId: string)
    requires ShowPP(p) && ':' !in p.slug
    ensures var body := PayPal.OrderBodyOf(OrderRequestOf(p));
      body.value == Finite(p.ppPriceUSD) && body.currencyCode == "USD"
      && PayPal.CaptureSlug(body.customId, CaptureRequestOf(p, orderId).courseSlug)
         == (if p.productType == "course" then p.slug else "")
  {
    var req := OrderRequestOf(p);
    assert PayPal.SimplePayload(req);
    assert PayPal.EffectiveMeta(req) == Metadata(p);
    assert ToUpper("USD") == "USD";
    PayPal.SimplePayloadOrder(req);
    PayPal.CustomIdRoundTrip(Metadata(p), CaptureRequestOf(p, orderId).courseSlug);
  }

  const ORDER_FAILED: string := "No se pudo crear la orden de PayPal"
  const CAPTURE_FAILED: string := "No se pudo confirmar el pago"
  const THANK_YOU_ROUTE: string := "/gracias"
  const MP_ALERT: string := "No se pudo iniciar el pago con Mercado Pago."
  const CAPTURE_ALERT: string := "Ocurrió un problema al confirmar el pago en PayPal."
  const PAYPAL_ALERT: string := "Ocurrió un error con PayPal."

  /** A JSON answer of the backend: the HTTP `ok`, and the fields the
      buttons read ("" and false when missing). */
  datatype Answer = Answer(ok: bool, id: string, success: bool, error: string, redirectTo: string, downloadLink: string)

  /** `createOrder`: the order id, or the error it throws when the answer
      is not ok or has no id. */
  function CreateOrderResult(a: Answer): (r: Result<string, string>)
    ensures r.Ok? <==> a.ok && a.id != ""
    ensures r.Ok? ==> r.value == a.id
    ensures r.Err? ==> r.error == Or(a.error, ORDER_FAILED)
  {
    if !a.ok || a.id == "" then Err(Or(a.error, ORDER_FAILED)) else Ok(a.id)
  }

  /** Where `onApprove` sends the browser: `redirectTo`, else
      `downloadLink`, else the thank-you page; an error unless both `ok`
      and `success` hold. */
  function ApproveTarget(a: Answer): (r: Result<string, string>)
    ensures r.Ok? <==> a.ok && a.success
    ensures r.Ok? && a.redirectTo != "" ==> r.value == a.redirectTo
    ensures r.Ok? && a.redirectTo == "" && a.downloadLink != "" ==> r.value == a.downloadLink
    ensures r.Ok? && a.redirectTo == "" && a.downloadLink == "" ==> r.value == THANK_YOU_ROUTE
    ensures r.Err? ==> r.error == Or(a.error, CAPTURE_FAILED)
  {
    if !a.ok || !a.success then Err(Or(a.error, CAPTURE_FAILED))
    else if a.redirectTo != "" then Ok(a.redirectTo)
    else if a.downloadLink != "" then Ok(a.downloadLink)
    else Ok(THANK_YOU_ROUTE)
  }

  /** The Authorization header `onApprove` sends with `capture-order`: it
      sends only the content type, read here as "". */
  const CAPTURE_HEADER_AS_WRITTEN: string := ""

  /** The answer of a capture that `authRequired` refuses. */
  const UNAUTHORIZED_ANSWER: Answer := Answer(false, "", false, PayPal.UNAUTHORIZED, "", "")

  /** As written, the capture the buttons post carries no token, so the
      route refuses it whatever the secret and the verifier, and the
      buttons fail with the route's error instead of redirecting. */
  lemma CaptureRefusedAsWritten(hasSecret: bool, verify: string -> Option<Courses.Claims>)
    ensures PayPal.CaptureAuth(CAPTURE_HEADER_AS_WRITTEN, hasSecret, verify).None?
    ensures ApproveTarget(UNAUTHORIZED_ANSWER) == Err(PayPal.UNAUTHORIZED)
  {
  }

  /** The header the checkout page sends with its capture. */
  function BearerHeader(token: string): (r: string)
    ensures Courses.BearerToken(r) == token
  {
    assert (Courses.BEARER + token)[..|Courses.BEARER|] == Courses.BEARER;
    Courses.BEARER + token
  }

  /** With the session's token in a Bearer header, as the checkout page
      sends it, the capture reaches the controller as the token's user. */
  lemma CaptureAcceptedWithBearer(token: string, hasSecret: bool, verify: string -> Option<Courses.Claims>)
    requires token != "" && hasSecret && verify(token).Some?
    ensures PayPal.CaptureAuth(BearerHeader(token), hasSecret, verify) == Courses.ClaimedUser(verify(token).value)
  {
  }

  /** The answer of the preference helper: its two links, "" when
      missing. */
  datatype Pref = Pref(initPoint: string, sandboxInitPoint: string)

  /** The buttons' state: the Mercado Pago spinner, where the browser was
      sent, and the alerts shown. */
  class Buttons {
    var isLoadingMP: bool
    var location: Option<string>
    var alerts: seq<string>

    constructor ()
      ensures !isLoadingMP && location.None? && alerts == []
    {
      isLoadingMP := false;
      location := None;
      alerts := [];
    }

    /** `buyWithMercadoPago`; `create` stands for the preference call (None
        when it throws). The spinner is off at the end. */
    method BuyWithMercadoPago(p: Props, create: MercadoPago.PreferenceRequest -> Option<Option<Pref>>)
      modifies this
      ensures !isLoadingMP
      ensures var answer := create(PreferenceRequestOf(p));
        var url := if answer.Some? && answer.value.Some? then Or(answer.value.value.initPoint, answer.value.value.sandboxInitPoint) else "";
        (url != "" ==> location == Some(url) && alerts == old(alerts))
        && (url == "" ==> location == old(location) && alerts == old(alerts) + [MP_ALERT])
    {
      isLoadingMP := true;
      var answer := create(PreferenceRequestOf(p));
      var initPoint := if answer.Some? && answer.value.Some? then Or(answer.value.value.initPoint, answer.value.value.sandboxInitPoint) else "";
      if initPoint == "" {
        alerts := alerts + [MP_ALERT];
      } else {
        location := Some(initPoint);
      }
      isLoadingMP := false;
    }

    /** `onApprove` after the capture call answered (`None` when the call or
        its JSON threw). */
    method OnApprove(answer: Option<Answer>)
      modifies this
      ensures isLoadingMP == old(isLoadingMP)
      ensures answer.Some? && ApproveTarget(answer.value).Ok? ==>
        location == Some(ApproveTarget(answer.value).value) && alerts == old(alerts)
      ensures answer.None? || ApproveTarget(answer.value).Err? ==>
        location == old(location) && alerts == old(alerts) + [CAPTURE_ALERT]
    {
      if answer.None? {
        alerts := alerts + [CAPTURE_ALERT];
        return;
      }
      var a := answer.value;
      if !a.ok || !a.success {
        alerts := alerts + [CAPTURE_ALERT];
        return;
      }
      if a.redirectTo != "" {
        location := Some(a.redirectTo);
        return;
      }
      if a.downloadLink != "" {
        location := Some(a.downloadLink);
        return;
      }
      location := Some(THANK_YOU_ROUTE);
    }

    /** `onApprove` from the post on: the capture sent with `header` passes
        `authRequired` or is answered 401, and a capture that passes is
        answered by the controller with `served`. The buttons as written
        send `CAPTURE_HEADER_AS_WRITTEN`. */
    method Approve(header: string, hasSecret: bool, verify: string -> Option<Courses.Claims>, served: Option<Answer>)
      modifies this
      ensures isLoadingMP == old(isLoadingMP)
      ensures PayPal.CaptureAuth(header, hasSecret, verify).None? ==>
        location == old(location) && alerts == old(alerts) + [CAPTURE_ALERT]
      ensures PayPal.CaptureAuth(header, hasSecret, verify).Some? && served.Some? && ApproveTarget(served.value).Ok? ==>
        location == Some(ApproveTarget(served.value).value) && alerts == old(alerts)
      ensures PayPal.CaptureAuth(header, hasSecret, verify).Some? && (served.None? || ApproveTarget(served.value).Err?) ==>
        location == old(location) && alerts == old(alerts) + [CAPTURE_ALERT]
    {
      var user := PayPal.CaptureAuth(header, hasSecret, verify);
      if user.None? {
        OnApprove(Some(UNAUTHORIZED_ANSWER));
      } else {
        OnApprove(served);
      }
    }

    /** `onError` of the PayPal buttons. */
    method OnPayPalError()
      modifies this
      ensures alerts == old(alerts) + [PAYPAL_ALERT]
      ensures isLoadingMP == old(isLoadingMP) && location == old(location)
    {
      alerts := alerts + [PAYPAL_ALERT];
    }
  }
}
