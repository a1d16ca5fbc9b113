/** The persistent records of the application and what their schemas do to
    a document before it is stored: setters (lower-casing, trimming),
    defaults, required fields, enumerations, the e-mail pattern and the
    casting of numbers. Paths a schema does not declare are dropped. */
module Models {
  import opened Wrappers
  import opened Text

  type UserId = nat

  /** Milliseconds since the epoch, as `Date.now()` gives them. */
  type Millis = int

  const HOUR_MS: int := 60 * 60 * 1000
  const DAY_MS: int := 24 * HOUR_MS

  /** The unique indexes of the store. */
  datatype Index = EmailIndex | OrderIdIndex | TokenIndex | AccessIndex

  /** How a store operation fails: error code 11000 on a unique index, a
      failed validation or cast on a path, or an unreachable database. */
  datatype DbError = DuplicateKey(index: Index) | Invalid(path: string) | Unavailable

  // ---------------------------------------------------------------------
  // User

  datatype User = User(id: UserId, name: string, email: string, passwordHash: string)

  /** The `lowercase` and `trim` setters of the e-mail path. */
  function EmailSetter(email: string): string
  {
    Trim(ToLower(email))
  }

  /** The unanchored pattern `\S+@\S+\.\S+`: somewhere in `s` an `@` with a
      non-space character before it, then a run of non-space characters, a
      `.` and one more non-space character. */
  predicate MatchesLooseEmail(s: string)
  {
    exists a, d | 0 < a && a + 1 < d && d + 1 < |s| ::
      s[a] == '@' && s[d] == '.' && !IsSpace(s[a - 1]) && NoSpace(s[a + 1..d]) && !IsSpace(s[d + 1])
  }

  /** The default of the name path: the text before the first `@` of the
      stored e-mail, or "User" when that is empty. */
  function DefaultUserName(email: string): string
  {
    Trim(Or(Split(email, '@')[0], "User"))
  }

  /** `new User({ name, email, passwordHash })` with its validation. */
  function NewUser(id: UserId, name: Option<string>, email: string, passwordHash: string): (r: Result<User, DbError>)
    ensures r.Ok? <==> EmailSetter(email) != "" && MatchesLooseEmail(EmailSetter(email)) && passwordHash != ""
    ensures r.Ok? ==> r.value.id == id && r.value.email == EmailSetter(email) && r.value.passwordHash == passwordHash
    ensures r.Ok? ==> r.value.name == if name.Some? then Trim(name.value) else DefaultUserName(r.value.email)
  {
    var e := EmailSetter(email);
    if e == "" || !MatchesLooseEmail(e) then Err(Invalid("email"))
    else if passwordHash == "" then Err(Invalid("passwordHash"))
    else Ok(User(id, if name.Some? then Trim(name.value) else DefaultUserName(e), e, passwordHash))
  }

  /** A stored e-mail is a fixed point of the setters, so looking it up again
      finds the same user. */
  lemma {:induction false} EmailSetterIdempotent(email: string)
    ensures EmailSetter(EmailSetter(email)) == EmailSetter(email)
  {
    var t := Trim(ToLower(email));
    TrimLowerCommute(ToLower(email));
    ToLowerIdempotent(email);
    assert ToLower(t) == Trim(ToLower(email)) by {
      TrimLowerCommute(ToLower(email));
    }
    TrimIdempotent(ToLower(email));
  }

  /** bcrypt as the schema's password helpers use it: `hash(password,
      salt)` and `compare(password, hash)`, with the salt `genSalt`
      draws. */
  datatype Bcrypt = Bcrypt(hash: (string, nat) -> string, compare: (string, string) -> bool)

  /** `user.setPassword(password)`: only the hash changes. */
  function SetPassword(u: User, password: string, b: Bcrypt, salt: nat): (r: User)
    ensures r.id == u.id && r.name == u.name && r.email == u.email
    ensures r.passwordHash == b.hash(password, salt)
  {
    u.(passwordHash := b.hash(password, salt))
  }

  /** `user.validatePassword(password)`. */
  predicate ValidatePassword(u: User, password: string, b: Bcrypt)
  {
    b.compare(password, u.passwordHash)
  }

  /** When bcrypt accepts a password against its own hash, a password just
      set validates. */
  lemma SetThenValidate(u: User, password: string, b: Bcrypt, salt: nat)
    requires b.compare(password, b.hash(password, salt))
    ensures ValidatePassword(SetPassword(u, password, b, salt), password, b)
  {
  }

  lemma DefaultUserNameShape(e: string)
    requires e != [] && !IsSpace(e[0])
    ensures DefaultUserName(e) != "" && '@' !in DefaultUserName(e)
  {
    var head := Split(e, '@')[0];
    SplitHead(e, '@');
    if head != "" {
      assert head[0] == e[0];
      TrimKeepsNonSpaceHead(head);
      TrimIsSlice(head);
    } else {
      TrimOfTrimmed("User");
    }
  }

  /** A user created without a name gets a non-empty name with no `@`. */
  lemma {:induction false} DefaultNameShape(id: UserId, email: string, passwordHash: string)
    requires NewUser(id, None, email, passwordHash).Ok?
    ensures var u := NewUser(id, None, email, passwordHash).value;
      u.name != "" && '@' !in u.name
  {
    DefaultUserNameShape(EmailSetter(email));
  }

  lemma TrimKeepsNonSpaceHead(s: string)
    requires s != [] && !IsSpace(s[0])
    ensures Trim(s) != []
  {
    assert LeadingSpaces(s) == 0;
    assert TrailingStart(s) > 0;
  }

  lemma TrimIsSlice(s: string)
    ensures forall c | c in Trim(s) :: c in s
  {
    var i := LeadingSpaces(s);
    if i < |s| {
      var j := TrailingStart(s);
      forall c | c in s[i..j] ensures c in s {
        var m :| 0 <= m < j - i && s[i..j][m] == c;
        assert s[i + m] == c;
      }
    }
  }

  // ---------------------------------------------------------------------
  // Purchase

  datatype Purchase = Purchase(
    userId: Option<UserId>,
    bookId: Option<string>,
    purchaseDate: Millis,
    price: real,
    currency: string,
    status: string,
    orderId: string)

  /** What a handler passes to `Purchase.create`, including the paths the
      schema does not declare (`provider`, `metadata`). */
  datatype PurchaseInput = PurchaseInput(
    userId: Option<UserId>,
    bookId: Option<string>,
    purchaseDate: Option<Millis>,
    price: Num,
    currency: Option<string>,
    status: Option<string>,
    orderId: string,
    provider: Option<string>,
    metadataCourseSlug: Option<string>)

  /** `new Purchase(input)`: NaN is refused by the Number cast; currency
      defaults to "EUR", status to "paid" and the date to now. */
  function NewPurchase(input: PurchaseInput, now: Millis): (r: Result<Purchase, DbError>)
    ensures r.Err? <==> input.price.NaN?
    ensures r.Ok? ==> (r.value.orderId == input.orderId && r.value.userId == input.userId
                       && r.value.bookId == input.bookId && r.value.price == input.price.value)
    ensures r.Ok? ==> (r.value.currency == input.currency.GetOr("EUR") && r.value.status == input.status.GetOr("paid")
                       && r.value.purchaseDate == input.purchaseDate.GetOr(now))
  {
    if input.price.NaN? then Err(Invalid("price"))
    else Ok(Purchase(input.userId, input.bookId, input.purchaseDate.GetOr(now), input.price.value,
                     input.currency.GetOr("EUR"), input.status.GetOr("paid"), input.orderId))
  }

  /** The provider and the metadata a handler sends are not kept. */
  lemma PurchaseDropsUndeclaredPaths(input: PurchaseInput, now: Millis, provider: Option<string>, slug: Option<string>)
    ensures NewPurchase(input.(provider := provider, metadataCourseSlug := slug), now) == NewPurchase(input, now)
  {
  }

  // ---------------------------------------------------------------------
  // DownloadToken

  datatype DownloadToken = DownloadToken(userId: Option<UserId>, token: string, expiresAt: Millis, used: bool)

  /** `new DownloadToken(...)`: token and expiresAt are required, used
      defaults to false. */
  function NewDownloadToken(userId: Option<UserId>, token: string, expiresAt: Option<Millis>, used: Option<bool>): (r: Result<DownloadToken, DbError>)
    ensures r.Ok? <==> token != "" && expiresAt.Some?
    ensures r.Ok? ==> r.value == DownloadToken(userId, token, expiresAt.value, used.GetOr(false))
  {
    if token == "" then Err(Invalid("token"))
    else if expiresAt.None? then Err(Invalid("expiresAt"))
    else Ok(DownloadToken(userId, token, expiresAt.value, used.GetOr(false)))
  }

  /** The second copy of the token schema: the same paths and rules, plus
      creation and update timestamps, in the collection "downloadtokens";
      the expiry (TTL) index is not declared, so expired tokens stay. */
  datatype StampedDownloadToken = StampedDownloadToken(token: DownloadToken, createdAt: Millis, updatedAt: Millis)

  const TOKEN_COLLECTION: string := "downloadtokens"

  function NewStampedDownloadToken(userId: Option<UserId>, token: string, expiresAt: Option<Millis>, used: Option<bool>, now: Millis): (r: Result<StampedDownloadToken, DbError>)
    ensures r.Ok? ==> r.value.createdAt == now && r.value.updatedAt == now
  {
    match NewDownloadToken(userId, token, expiresAt, used)
    case Ok(t) => Ok(StampedDownloadToken(t, now, now))
    case Err(e) => Err(e)
  }

  /** Both token schemas accept the same documents and store the same
      fields. */
  lemma StampedAgrees(userId: Option<UserId>, token: string, expiresAt: Option<Millis>, used: Option<bool>, now: Millis)
    ensures NewStampedDownloadToken(userId, token, expiresAt, used, now).Ok? <==> token != "" && expiresAt.Some?
    ensures NewStampedDownloadToken(userId, token, expiresAt, used, now).Ok? ==>
      NewStampedDownloadToken(userId, token, expiresAt, used, now).value.token == NewDownloadToken(userId, token, expiresAt, used).value
  {
  }

  // ---------------------------------------------------------------------
  // CourseAccess

  datatype GrantedBy = ByPurchase | ByManual | BySimulated | ByAdmin | ByGift | ByMercadoPago | ByPaypal

  function GrantedByName(g: GrantedBy): string
  {
    match g
    case ByPurchase => "purchase"
    case ByManual => "manual"
    case BySimulated => "simulated"
    case ByAdmin => "admin"
    case ByGift => "gift"
    case ByMercadoPago => "mercadopago"
    case ByPaypal => "paypal"
  }

  /** The `enum` validator of grantedBy. */
  function ParseGrantedBy(s: string): (r: Option<GrantedBy>)
    ensures r.Some? ==> GrantedByName(r.value) == s
  {
    if s == "purchase" then Some(ByPurchase)
    else if s == "manual" then Some(ByManual)
    else if s == "simulated" then Some(BySimulated)
    else if s == "admin" then Some(ByAdmin)
    else if s == "gift" then Some(ByGift)
    else if s == "mercadopago" then Some(ByMercadoPago)
    else if s == "paypal" then Some(ByPaypal)
    else None
  }

  lemma GrantedByRoundTrip(g: GrantedBy)
    ensures ParseGrantedBy(GrantedByName(g)) == Some(g)
  {
  }

  datatype CourseAccess = CourseAccess(
    userId: Option<UserId>,
    courseSlug: string,
    grantedBy: GrantedBy,
    provider: Option<string>,
    grantedAt: Option<Millis>)

  /** `new CourseAccess(...)` with validation: userId and courseSlug are
      required and grantedBy is one of the seven names, "purchase" when it
      is not given. */
  function NewCourseAccess(userId: Option<UserId>, courseSlug: string, grantedBy: Option<string>, provider: Option<string>, grantedAt: Option<Millis>): (r: Result<CourseAccess, DbError>)
    ensures r.Ok? <==> userId.Some? && courseSlug != "" && (grantedBy.Some? ==> ParseGrantedBy(grantedBy.value).Some?)
    ensures r.Ok? ==> (r.value.userId == userId && r.value.courseSlug == courseSlug
                       && r.value.provider == provider && r.value.grantedAt == grantedAt)
    ensures r.Ok? ==> GrantedByName(r.value.grantedBy) == grantedBy.GetOr("purchase")
  {
    if userId.None? then Err(Invalid("userId"))
    else if courseSlug == "" then Err(Invalid("courseSlug"))
    else if grantedBy.Some? && ParseGrantedBy(grantedBy.value).None? then Err(Invalid("grantedBy"))
    else
      var g := if grantedBy.Some? then ParseGrantedBy(grantedBy.value).value else ByPurchase;
      Ok(CourseAccess(userId, courseSlug, g, provider, grantedAt))
  }

  // ---------------------------------------------------------------------
  // PasswordReset

  datatype PasswordReset = PasswordReset(userId: UserId, tokenHash: string, expiresAt: Millis, used: bool)

  function NewPasswordReset(userId: Option<UserId>, tokenHash: string, expiresAt: Option<Millis>, used: Option<bool>): (r: Result<PasswordReset, DbError>)
    ensures r.Ok? <==> userId.Some? && tokenHash != "" && expiresAt.Some?
    ensures r.Ok? ==> r.value == PasswordReset(userId.value, tokenHash, expiresAt.value, used.GetOr(false))
  {
    if userId.None? then Err(Invalid("userId"))
    else if tokenHash == "" then Err(Invalid("tokenHash"))
    else if expiresAt.None? then Err(Invalid("expiresAt"))
    else Ok(PasswordReset(userId.value, tokenHash, expiresAt.value, used.GetOr(false)))
  }

  // ---------------------------------------------------------------------
  // Course and Book (the catalogue)

  datatype Lesson = Lesson(title: string, videoUrl: string)

  datatype Course = Course(
    slug: string,
    title: string,
    level: string,
    price: real,
    currency: string,
    thumbnail: string,
    lessons: seq<Lesson>)

  /** `new Course(...)`: title required, level "free" or "pro" ("free" by
      default), price 0 and currency "USD" by default, and every lesson
      with a title and a video URL. */
  function NewCourse(slug: string, title: string, level: Option<string>, price: Option<real>, currency: Option<string>, thumbnail: string, lessons: seq<Lesson>): (r: Result<Course, DbError>)
    ensures r.Ok? <==> (title != "" && (level.Some? ==> level.value in {"free", "pro"})
                        && forall i | 0 <= i < |lessons| :: lessons[i].title != "" && lessons[i].videoUrl != "")
    ensures r.Ok? ==> r.value.level in {"free", "pro"} && r.value.lessons == lessons && r.value.slug == slug
    ensures r.Ok? ==> r.value.price == price.GetOr(0.0) && r.value.currency == currency.GetOr("USD")
    ensures r.Ok? ==> r.value.level == level.GetOr("free") && r.value.title == title && r.value.thumbnail == thumbnail
  {
    if title == "" then Err(Invalid("title"))
    else if level.Some? && level.value !in {"free", "pro"} then Err(Invalid("level"))
    else if exists i | 0 <= i < |lessons| :: lessons[i].title == "" || lessons[i].videoUrl == "" then Err(Invalid("lessons"))
    else Ok(Course(slug, title, level.GetOr("free"), price.GetOr(0.0), currency.GetOr("USD"), thumbnail, lessons))
  }

  datatype Book = Book(id: string, title: string, price: real, currency: string, filePath: string)
}
