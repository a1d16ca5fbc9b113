/** The course routes: the public catalogue, the course page, the gate in
    front of a course's lessons and the simulated purchase that grants a
    course without payment. JSON Web Token verification is an input. */
module Courses {
  import opened Wrappers
  import opened Text
  import opened Models
  import opened Db
  import Sorting
  import Mailer

  // ---------------------------------------------------------------------
  // Authentication

  /** The claims of a verified token that name the user. */
  datatype Claims = Claims(id: Option<UserId>, userId: Option<UserId>)

  /** `decoded?.id || decoded?.userId`. */
  function ClaimedUser(c: Claims): (r: Option<UserId>)
    ensures c.id.Some? ==> r == c.id
    ensures c.id.None? ==> r == c.userId
  {
    if c.id.Some? then c.id else c.userId
  }

  const BEARER: string := "Bearer "

  /** The token after "Bearer " (case-sensitive), "" when there is none. */
  function BearerToken(header: string): (r: string)
    ensures !StartsWith(header, BEARER) ==> r == ""
    ensures StartsWith(header, BEARER) ==> header == BEARER + r
  {
    if StartsWith(header, BEARER) then header[7..] else ""
  }

  /** `authOptional`: never refuses. A request without a token, without a
      configured secret or with a token that does not verify is anonymous.
      `verify` is `jwt.verify` with the secret (None when it throws). */
  function AuthOptional(header: string, hasSecret: bool, verify: string -> Option<Claims>): (r: Option<UserId>)
    ensures r.Some? <==> BearerToken(header) != "" && hasSecret && verify(BearerToken(header)).Some?
                         && ClaimedUser(verify(BearerToken(header)).value).Some?
    ensures r.Some? ==> r == ClaimedUser(verify(BearerToken(header)).value)
  {
    var token := BearerToken(header);
    if token != "" && hasSecret then
      match verify(token)
      case None => None
      case Some(c) => ClaimedUser(c)
    else None
  }

  /** `authRequired` of this router (in front of `buy-simulated`) answers
      401 "UNAUTHORIZED" when `AuthOptional` finds no user: it
      refuses where the optional one goes on anonymously, and without a
      secret `jwt.verify` throws. */
  lemma AuthRequiredRefuses(header: string, hasSecret: bool, verify: string -> Option<Claims>)
    requires !StartsWith(header, BEARER) || header == BEARER || !hasSecret
    ensures AuthOptional(header, hasSecret, verify).None?
  {
    if StartsWith(header, BEARER) && header == BEARER {
      assert BearerToken(header) == "";
    }
  }

  // ---------------------------------------------------------------------
  // Reading courses

  /** `String(course.level).toLowerCase() === "free"`. */
  predicate IsFree(c: Course)
  {
    ToLower(c.level) == "free"
  }

  /** A course as a reply shows it: `lessons` is None where it is left out. */
  datatype CourseView = CourseView(slug: string, title: string, level: string, price: real, currency: string,
                                   thumbnail: string, lessons: Option<seq<Lesson>>)

  function WithoutLessons(c: Course): (v: CourseView)
    ensures v.lessons.None? && v.slug == c.slug && v.title == c.title && v.level == c.level
  {
    CourseView(c.slug, c.title, c.level, c.price, c.currency, c.thumbnail, None)
  }

  function WithLessons(c: Course): (v: CourseView)
    ensures v.lessons == Some(c.lessons) && v.slug == c.slug && v.title == c.title && v.level == c.level
  {
    CourseView(c.slug, c.title, c.level, c.price, c.currency, c.thumbnail, Some(c.lessons))
  }

  /** `GET /`: every course once, without lessons, ordered by title. A store
      failure is not caught (`Err`). */
  method List(store: Store) returns (r: Result<seq<CourseView>, DbError>)
    requires store.Valid()
    ensures !store.online ==> r == Err(Unavailable)
    ensures store.online ==> r.Ok?
    ensures r.Ok? ==> |r.value| == |store.courses|
    ensures r.Ok? ==> forall i, j | 0 <= i < j < |r.value| :: Sorting.StringLe(r.value[i].title, r.value[j].title)
    ensures r.Ok? ==> forall i | 0 <= i < |r.value| :: r.value[i].lessons.None? && r.value[i].slug in store.courses
                                                      && r.value[i] == WithoutLessons(store.courses[r.value[i].slug])
    ensures r.Ok? ==> forall s | s in store.courses :: WithoutLessons(store.courses[s]) in r.value
  {
    var found := store.ListCourses();
    if found.Err? { return Err(found.error); }
    var list := found.value;
    var views := seq(|list|, i requires 0 <= i < |list| => WithoutLessons(list[i]));
    assert forall i, j | 0 <= i < j < |views| :: Sorting.StringLe(views[i].title, views[j].title) by {
      forall i, j | 0 <= i < j < |views| ensures Sorting.StringLe(views[i].title, views[j].title) {
        assert TitleLe(list[i], list[j]);
      }
    }
    forall s | s in store.courses ensures WithoutLessons(store.courses[s]) in views {
      var k :| 0 <= k < |list| && list[k] == store.courses[s];
      assert views[k] == WithoutLessons(store.courses[s]);
    }
    return Ok(views);
  }

  datatype DetailReply = DetailNotFound | Detail(view: CourseView)

  /** `GET /:slug`: a free course with its lessons, a pro course without. */
  function DetailOf(courses: map<string, Course>, slug: string): (r: DetailReply)
    ensures r == DetailNotFound <==> slug !in courses
    ensures slug in courses && IsFree(courses[slug]) ==> r == Detail(WithLessons(courses[slug]))
    ensures slug in courses && !IsFree(courses[slug]) ==> r == Detail(WithoutLessons(courses[slug]))
  {
    if slug !in courses then DetailNotFound
    else if IsFree(courses[slug]) then Detail(WithLessons(courses[slug]))
    else Detail(WithoutLessons(courses[slug]))
  }

  /** A pro course's page never carries its lessons. */
  lemma ProDetailHidesLessons(courses: map<string, Course>, slug: string)
    requires slug in courses && !IsFree(courses[slug])
    ensures DetailOf(courses, slug).Detail? && DetailOf(courses, slug).view.lessons.None?
  {
  }

  method GetDetail(store: Store, slug: string) returns (r: Result<DetailReply, DbError>)
    requires store.Valid()
    ensures !store.online ==> r == Err(Unavailable)
    ensures store.online ==> r == Ok(DetailOf(store.courses, slug))
  {
    var found := store.FindCourse(slug);
    if found.Err? { return Err(found.error); }
    if found.value.None? { return Ok(DetailNotFound); }
    var course := found.value.value;
    if IsFree(course) { return Ok(Detail(WithLessons(course))); }
    return Ok(Detail(WithoutLessons(course)));
  }

  datatype LessonsReply =
    | LessonsNotFound          // 404, "Curso no encontrado"
    | LoginRequired            // 401, "LOGIN_REQUIRED"
    | PaymentRequired          // 402, "PAYMENT_REQUIRED"
    | LessonsOk(lessons: seq<Lesson>)

  /** `GET /:slug/lessons`: free lessons for anyone; pro lessons for a user
      holding a grant of the course. */
  function LessonsGate(courses: map<string, Course>, access: map<AccessKey, CourseAccess>, slug: string, user: Option<UserId>): (r: LessonsReply)
    ensures r == LessonsNotFound <==> slug !in courses
    ensures r.LessonsOk? <==> slug in courses && (IsFree(courses[slug]) || (user.Some? && AccessKey(user, slug) in access))
    ensures r.LessonsOk? ==> r.lessons == courses[slug].lessons
    ensures r == LoginRequired <==> slug in courses && !IsFree(courses[slug]) && user.None?
    ensures r == PaymentRequired <==> slug in courses && !IsFree(courses[slug]) && user.Some? && AccessKey(user, slug) !in access
  {
    if slug !in courses then LessonsNotFound
    else if IsFree(courses[slug]) then LessonsOk(courses[slug].lessons)
    else if user.None? then LoginRequired
    else if AccessKey(user, slug) !in access then PaymentRequired
    else LessonsOk(courses[slug].lessons)
  }

  /** A free course's lessons do not depend on who asks or what they hold. */
  lemma FreeLessonsForAnyone(courses: map<string, Course>, a1: map<AccessKey, CourseAccess>, a2: map<AccessKey, CourseAccess>,
                             slug: string, u1: Option<UserId>, u2: Option<UserId>)
    requires slug in courses && IsFree(courses[slug])
    ensures LessonsGate(courses, a1, slug, u1) == LessonsGate(courses, a2, slug, u2) == LessonsOk(courses[slug].lessons)
  {
  }

  method GetLessons(store: Store, slug: string, user: Option<UserId>) returns (r: Result<LessonsReply, DbError>)
    requires store.Valid()
    ensures !store.online ==> r == Err(Unavailable)
    ensures store.online ==> r == Ok(LessonsGate(store.courses, store.access, slug, user))
  {
    var found := store.FindCourse(slug);
    if found.Err? { return Err(found.error); }
    if found.value.None? { return Ok(LessonsNotFound); }
    var course := found.value.value;
    if IsFree(course) { return Ok(LessonsOk(course.lessons)); }
    if user.None? { return Ok(LoginRequired); }
    var grant := store.FindAccess(AccessKey(user, slug));
    if grant.Err? { return Err(Unavailable); }
    if grant.value.None? { return Ok(PaymentRequired); }
    return Ok(LessonsOk(course.lessons));
  }

  // ---------------------------------------------------------------------
  // Simulated purchase

  datatype BuyReply = BuyNotFound | Granted(course: string)

  const GREETING: string := "¡Hola!"

  function CourseUrl(frontendUrl: string, slug: string): string
  {
    frontendUrl + "/cursos/" + slug + "?paid=1"
  }

  /** The grant `buy-simulated` leaves: a new pair gets a grant with the
      schema's defaults, an existing one is kept (the duplicate key is
      swallowed, as is the validation error of an empty slug). */
  function SimulatedGrant(access: map<AccessKey, CourseAccess>, userId: UserId, slug: string): (r: map<AccessKey, CourseAccess>)
    ensures slug != "" ==> r.Keys == access.Keys + {AccessKey(Some(userId), slug)}
    ensures slug == "" ==> r == access
    ensures forall k | k in access :: r[k] == access[k]
    ensures slug != "" && AccessKey(Some(userId), slug) !in access ==>
      r[AccessKey(Some(userId), slug)] == CourseAccess(Some(userId), slug, ByPurchase, None, None)
  {
    var key := AccessKey(Some(userId), slug);
    if slug == "" || key in access then access
    else access[key := CourseAccess(Some(userId), slug, ByPurchase, None, None)]
  }

  /** Buying twice grants what buying once does. */
  lemma SimulatedGrantIdempotent(access: map<AccessKey, CourseAccess>, userId: UserId, slug: string)
    ensures SimulatedGrant(SimulatedGrant(access, userId, slug), userId, slug) == SimulatedGrant(access, userId, slug)
  {
  }

  /** `POST /:slug/buy-simulated`, after `authRequired` named `userId`. The
      course lookup is not caught (`Err`); the grant and the e-mail are
      best effort. */
  method BuySimulated(store: Store, frontendUrl: string, slug: string, userId: UserId)
    returns (r: Result<BuyReply, DbError>, mails: seq<Mailer.MailRequest>)
    requires store.Valid()
    modifies store
    ensures store.Valid()
    ensures !old(store.online) ==> r == Err(Unavailable) && mails == []
    ensures old(store.online) && slug !in old(store.courses) ==> r == Ok(BuyNotFound) && mails == []
    ensures old(store.online) && slug in old(store.courses) ==>
      r == Ok(Granted(slug))
      && store.access == SimulatedGrant(old(store.access), userId, slug)
      && mails == (if userId in old(store.users) && old(store.users)[userId].email != "" then
                     var u := old(store.users)[userId];
                     [Mailer.CourseAccessMail(u.email, Or(u.name, GREETING), Or(old(store.courses)[slug].title, Mailer.DEFAULT_COURSE_TITLE),
                                              CourseUrl(frontendUrl, slug))]
                   else [])
    ensures r != Ok(Granted(slug)) ==> store.access == old(store.access)
    ensures store.users == old(store.users) && store.nextId == old(store.nextId) && store.online == old(store.online)
      && store.purchases == old(store.purchases) && store.tokens == old(store.tokens) && store.resets == old(store.resets)
      && store.courses == old(store.courses) && store.books == old(store.books)
  {
    mails := [];
    var found := store.FindCourse(slug);
    if found.Err? { return Err(found.error), mails; }
    if found.value.None? { return Ok(BuyNotFound), mails; }
    var course := found.value.value;
    ghost var before := store.access;
    var created := store.CreateAccess(Some(userId), slug);
    assert store.access == SimulatedGrant(before, userId, slug);
    var user := store.FindUserById(Some(userId));
    if user.Ok? && user.value.Some? && user.value.value.email != "" {
      var u := user.value.value;
      mails := [Mailer.CourseAccessMail(u.email, Or(u.name, GREETING), Or(course.title, Mailer.DEFAULT_COURSE_TITLE),
                                        CourseUrl(frontendUrl, slug))];
    }
    return Ok(Granted(slug)), mails;
  }
}
