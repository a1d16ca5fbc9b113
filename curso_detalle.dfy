/** The course page of the second front end: YouTube links turned into
    embeds, the lessons request and the paywall it decides, and the prices
    handed to the payment buttons. */
module CursoDetalle {
  import opened Wrappers
  import opened Text
  import Models
  import Db
  import Courses
  import UserContext

  const EMBED_PREFIX: string := "https://www.youtube.com/embed/"

  /** What `new URL(url)` yields that the page reads: the host, the path
      and the `v` query parameter (None when absent). */
  datatype ParsedUrl = ParsedUrl(hostname: string, pathname: string, v: Option<string>)

  /** `s.replace("/", "")`: the first slash removed. */
  function RemoveFirstSlash(s: string): (r: string)
    ensures '/' !in s ==> r == s
    ensures '/' in s ==> |r| == |s| - 1
    ensures |s| > 0 && s[0] == '/' ==> r == s[1..]
  {
    var k := IndexOf(s, '/');
    if k == |s| then s else s[..k] + s[k + 1..]
  }

  /** `toYouTubeEmbed`; `parse` is the URL parser, None where it throws. */
  function ToYouTubeEmbed(url: string, parse: string -> Option<ParsedUrl>): (r: string)
    ensures parse(url).None? ==> r == url
    ensures parse(url).Some? && Contains(parse(url).value.hostname, "youtu.be") ==>
      r == EMBED_PREFIX + RemoveFirstSlash(parse(url).value.pathname)
    ensures parse(url).Some? && !Contains(parse(url).value.hostname, "youtu.be") ==>
      var u := parse(url).value;
      if (Contains(u.hostname, "youtube.") || Contains(u.hostname, "youtube-nocookie.")) && u.v.Some? && u.v.value != ""
      then r == EMBED_PREFIX + u.v.value
      else r == url
  {
    match parse(url)
    case None => url
    case Some(u) =>
      if Contains(u.hostname, "youtu.be") then EMBED_PREFIX + RemoveFirstSlash(u.pathname)
      else if (Contains(u.hostname, "youtube.") || Contains(u.hostname, "youtube-nocookie.")) && u.v.Some? && u.v.value != ""
      then EMBED_PREFIX + u.v.value
      else url
  }

  /** A short link and a watch link of the same video give the same embed,
      and that embed, parsed as a YouTube path without `v`, is left as
      it is. */
  lemma EmbedForms(id: string, short: string, watch: string, parse: string -> Option<ParsedUrl>)
    requires id != ""
    requires parse(short) == Some(ParsedUrl("youtu.be", "/" + id, None))
    requires parse(watch) == Some(ParsedUrl("www.youtube.com", "/watch", Some(id)))
    requires parse(EMBED_PREFIX + id) == Some(ParsedUrl("www.youtube.com", "/embed/" + id, None))
    ensures ToYouTubeEmbed(short, parse) == ToYouTubeEmbed(watch, parse) == EMBED_PREFIX + id
    ensures ToYouTubeEmbed(EMBED_PREFIX + id, parse) == EMBED_PREFIX + id
  {
    var host := "www.youtube.com";
    assert "youtu.be" <= "youtu.be"[0..];
    assert !Contains(host, "youtu.be") by {
      forall i | 0 <= i <= |host| ensures |host[i..]| < 8 || host[i..][0] != 'y' || host[i..][5] != '.' {
      }
    }
    assert "youtube." <= host[4..];
    assert ("/" + id)[0] == '/';
    assert ("/" + id)[1..] == id;
  }

  /** The ARS prices the page knows. */
  const MP_PRICE_ARS_BY_SLUG: map<string, int> := map["pro-avanzado" := 34900, "masterclass" := 34900]

  /** `MP_PRICE_ARS_BY_SLUG[slug] ?? 0`. */
  function MpPriceARS(slug: string): (r: int)
    ensures slug in MP_PRICE_ARS_BY_SLUG ==> r == MP_PRICE_ARS_BY_SLUG[slug]
    ensures slug !in MP_PRICE_ARS_BY_SLUG ==> r == 0
    ensures r >= 0
  {
    if slug in MP_PRICE_ARS_BY_SLUG then MP_PRICE_ARS_BY_SLUG[slug] else 0
  }

  /** The PayPal price: the course's price when its currency is USD in any
      case, else 0. */
  function PpPriceUSD(c: Courses.CourseView): (r: real)
    ensures ToUpper(c.currency) == "USD" ==> r == c.price
    ensures ToUpper(c.currency) != "USD" ==> r == 0.0
  {
    if ToUpper(c.currency) == "USD" then c.price else 0.0
  }

  /** Lower-case "usd" counts as USD. */
  lemma CurrencyCaseIgnored(c: Courses.CourseView)
    requires c.currency == "usd"
    ensures PpPriceUSD(c) == c.price
  {
    assert ToUpper("usd") == "USD";
  }

  /** `showPaywall`: the paywall flag, or a pro course whose lessons are
      not a non-empty list (None is `null`). */
  predicate ShowPaywall(paywall: bool, level: Option<string>, lessons: Option<seq<Models.Lesson>>)
  {
    paywall || (level == Some("pro") && (lessons.None? || |lessons.value| == 0))
  }

  /** The lessons response: its status and, for 200, the list. */
  datatype LessonsResponse = LessonsResponse(status: int, lessons: seq<Models.Lesson>)

  /** The lessons and paywall after `fetchLessons` with `res` (None for a
      network error). */
  function AfterFetch(lessons: Option<seq<Models.Lesson>>, paywall: bool, res: Option<LessonsResponse>):
    (r: (Option<seq<Models.Lesson>>, bool))
    ensures res.None? ==> r == (None, paywall)
    ensures res.Some? && res.value.status == 200 ==> r == (Some(res.value.lessons), false)
    ensures res.Some? && (res.value.status == 401 || res.value.status == 402) ==> r == (None, true)
    ensures res.Some? && res.value.status !in {200, 401, 402} ==> r == (None, paywall)
  {
    match res
    case None => (None, paywall)
    case Some(x) =>
      if x.status == 200 then (Some(x.lessons), false)
      else if x.status == 402 || x.status == 401 then (None, true)
      else (None, paywall)
  }

  /** How the lessons route answers on the wire. */
  function ResponseOf(reply: Courses.LessonsReply): (r: LessonsResponse)
  {
    match reply
    case LessonsNotFound => LessonsResponse(404, [])
    case LoginRequired => LessonsResponse(401, [])
    case PaymentRequired => LessonsResponse(402, [])
    case LessonsOk(ls) => LessonsResponse(200, ls)
  }

  /** Against the lessons route: someone without access to a pro course sees
      the paywall; anyone the route serves a non-empty list does not. */
  lemma GateDecidesPaywall(courses: map<string, Models.Course>, access: map<Db.AccessKey, Models.CourseAccess>,
                           slug: string, user: Option<Models.UserId>, level: Option<string>,
                           lessons: Option<seq<Models.Lesson>>, paywall: bool)
    requires slug in courses
    ensures var after := AfterFetch(lessons, paywall, Some(ResponseOf(Courses.LessonsGate(courses, access, slug, user))));
      (!Courses.IsFree(courses[slug]) && !(user.Some? && Db.AccessKey(user, slug) in access) ==> ShowPaywall(after.1, level, after.0))
      && ((Courses.IsFree(courses[slug]) || (user.Some? && Db.AccessKey(user, slug) in access)) && |courses[slug].lessons| > 0
          ==> !ShowPaywall(after.1, level, after.0))
  {
  }

  // ---------------------------------------------------------------------
  // The token of the lessons request

  /** The `Authorization` header of the lessons request for the page's
      `token`: none for an empty token. */
  function LessonsHeader(token: string): (r: string)
    ensures token == "" ==> r == ""
    ensures token != "" ==> StartsWith(r, Courses.BEARER) && Courses.BearerToken(r) == token
  {
    if token == "" then ""
    else
      var r := Courses.BEARER + token;
      assert r[..|Courses.BEARER|] == Courses.BEARER;
      assert r[7..] == token;
      r
  }

  /** The page as written takes `token` from the context of this front
      end, which exposes none: the value is undefined whatever the storage
      holds. */
  function PageTokenAsWritten(storage: UserContext.Storage): string
  {
    ""
  }

  /** The page as intended sends the stored token, the one the API client
      of this front end reads and the main front end's context exposes. */
  function PageToken(storage: UserContext.Storage): string
  {
    UserContext.ReadToken(storage)
  }

  /** As written, a buyer of a paid course, signed in with a token that
      verifies to them, still meets the paywall: the request goes out
      without a header and the route asks for a login. */
  lemma BuyerSeesPaywallAsWritten(courses: map<string, Models.Course>, access: map<Db.AccessKey, Models.CourseAccess>,
                                  slug: string, uid: Models.UserId, storage: UserContext.Storage, hasSecret: bool,
                                  verify: string -> Option<Courses.Claims>, lessons: Option<seq<Models.Lesson>>, paywall: bool)
    requires slug in courses && !Courses.IsFree(courses[slug]) && Db.AccessKey(Some(uid), slug) in access
    requires PageToken(storage) != "" && verify(PageToken(storage)) == Some(Courses.Claims(Some(uid), None))
    ensures var user := Courses.AuthOptional(LessonsHeader(PageTokenAsWritten(storage)), hasSecret, verify);
      user.None?
      && Courses.LessonsGate(courses, access, slug, user) == Courses.LoginRequired
      && AfterFetch(lessons, paywall, Some(ResponseOf(Courses.LessonsGate(courses, access, slug, user)))) == (None, true)
  {
  }

  /** As intended, the same buyer is the request's user and gets the
      lessons, with the paywall down whatever the course's level. */
  lemma BuyerSeesLessons(courses: map<string, Models.Course>, access: map<Db.AccessKey, Models.CourseAccess>,
                         slug: string, uid: Models.UserId, storage: UserContext.Storage,
                         verify: string -> Option<Courses.Claims>, level: Option<string>,
                         lessons: Option<seq<Models.Lesson>>, paywall: bool)
    requires slug in courses && !Courses.IsFree(courses[slug]) && Db.AccessKey(Some(uid), slug) in access
    requires |courses[slug].lessons| > 0
    requires PageToken(storage) != "" && verify(PageToken(storage)) == Some(Courses.Claims(Some(uid), None))
    ensures var user := Courses.AuthOptional(LessonsHeader(PageToken(storage)), true, verify);
      var after := AfterFetch(lessons, paywall, Some(ResponseOf(Courses.LessonsGate(courses, access, slug, user))));
      user == Some(uid) && after == (Some(courses[slug].lessons), false) && !ShowPaywall(after.1, level, after.0)
  {
    var t := PageToken(storage);
    assert Courses.BearerToken(LessonsHeader(t)) == t;
  }

  /** The state `fetchLessons` changes. */
  class LessonsView {
    var lessons: Option<seq<Models.Lesson>>
    var paywall: bool

    constructor ()
      ensures lessons.None? && !paywall
    {
      lessons := None;
      paywall := false;
    }

    /** `fetchLessons` against the lessons route, as written: the header
        carries the page's undefined token, and the lessons and the paywall
        follow the route's gate for the user the optional authentication
        finds (none; `BuyerSeesLessons` is the page with the stored token). */
    method FetchFromServer(storage: UserContext.Storage, courses: map<string, Models.Course>,
                           access: map<Db.AccessKey, Models.CourseAccess>, slug: string, hasSecret: bool,
                           verify: string -> Option<Courses.Claims>)
      modifies this
      ensures var user := Courses.AuthOptional(LessonsHeader(PageTokenAsWritten(storage)), hasSecret, verify);
        (lessons, paywall) == AfterFetch(old(lessons), old(paywall), Some(ResponseOf(Courses.LessonsGate(courses, access, slug, user))))
    {
      var user := Courses.AuthOptional(LessonsHeader(PageTokenAsWritten(storage)), hasSecret, verify);
      FetchLessons(Some(ResponseOf(Courses.LessonsGate(courses, access, slug, user))));
    }

    /** `fetchLessons` once the request answered (`None` for a network
        error). */
    method FetchLessons(res: Option<LessonsResponse>)
      modifies this
      ensures (lessons, paywall) == AfterFetch(old(lessons), old(paywall), res)
    {
      if res.None? {
        lessons := None;
        return;
      }
      var x := res.value;
      if x.status == 200 {
        lessons := Some(x.lessons);
        paywall := false;
      } else if x.status == 402 || x.status == 401 {
        lessons := None;
        paywall := true;
      } else {
        lessons := None;
      }
    }
  }
}
