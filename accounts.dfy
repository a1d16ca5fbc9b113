/** The account routes: registration, login, the bearer-token check, the
    profile, and password recovery by a one-hour, single-use reset link
    whose token is stored only as its SHA-256 digest. bcrypt, SHA-256 and
    the signing of session tokens are inputs. */
module Accounts {
  import opened Wrappers
  import opened Text
  import opened Models
  import opened Db
  import Mailer

  // ---------------------------------------------------------------------
  // Password rule

  predicate IsAsciiLetter(c: char)
  {
    'a' <= c <= 'z' || 'A' <= c <= 'Z'
  }

  predicate IsDigit(c: char)
  {
    '0' <= c <= '9'
  }

  predicate HasLetter(p: string)
  {
    exists i | 0 <= i < |p| :: IsAsciiLetter(p[i])
  }

  predicate HasDigit(p: string)
  {
    exists i | 0 <= i < |p| :: IsDigit(p[i])
  }

  /** Shorter than 8, or without an ASCII letter, or without a digit. */
  predicate Weak(p: string)
  {
    |p| < 8 || !HasLetter(p) || !HasDigit(p)
  }

  /** The rule in terms of what a password has. */
  lemma StrongMeaning(p: string)
    ensures !Weak(p) <==> |p| >= 8 && (exists i | 0 <= i < |p| :: IsAsciiLetter(p[i]))
                                   && (exists j | 0 <= j < |p| :: IsDigit(p[j]))
  {
  }

  /** Examples only: one password on each side of the rule. The
      all-inputs statement is `StrongMeaning`. */
  lemma WeakExamples()
    ensures Weak("abcdefgh") && Weak("12345678") && Weak("abc123") && !Weak("abcd1234")
  {
    assert IsAsciiLetter("abcd1234"[0]) && IsDigit("abcd1234"[4]);
    assert forall i | 0 <= i < 8 :: !IsDigit("abcdefgh"[i]);
    assert forall i | 0 <= i < 8 :: !IsAsciiLetter("12345678"[i]);
  }

  /** `String(email).trim().toLowerCase()`: the same as the schema's
      setters, so the stored e-mail is the one looked up. */
  function NormalizeEmail(email: string): (r: string)
    ensures r == EmailSetter(email)
    ensures EmailSetter(r) == r
  {
    TrimLowerCommute(email);
    EmailSetterIdempotent(email);
    ToLower(Trim(email))
  }

  // ---------------------------------------------------------------------
  // Session tokens and authRequired

  /** What the routes put in a session token and read back from it. */
  datatype Payload = Payload(id: Option<UserId>, email: string)

  /** `issueToken`: signs `{ id, email }` for seven days. */
  type Signer = Payload -> string

  datatype AuthReason = MissingToken | InvalidScheme | InvalidOrExpired

  /** `authRequired`: the header split on spaces; no second field is
      "missing_token", a first field other than "Bearer" is
      "invalid_scheme", a token that does not verify is
      "invalid_or_expired". */
  function Authenticate(header: string, verify: string -> Option<Payload>): (r: Result<Payload, AuthReason>)
    ensures Field(header, ' ', 1) == "" <==> r == Err(MissingToken)
    ensures r == Err(InvalidScheme) <==> Field(header, ' ', 1) != "" && Field(header, ' ', 0) != "Bearer"
    ensures r.Ok? <==> Field(header, ' ', 1) != "" && Field(header, ' ', 0) == "Bearer" && verify(Field(header, ' ', 1)).Some?
    ensures r.Ok? ==> r.value == verify(Field(header, ' ', 1)).value
  {
    var scheme := Field(header, ' ', 0);
    var token := Field(header, ' ', 1);
    if token == "" then Err(MissingToken)
    else if scheme != "Bearer" then Err(InvalidScheme)
    else
      match verify(token)
      case None => Err(InvalidOrExpired)
      case Some(p) => Ok(p)
  }

  /** A well-formed header gets as far as the verification. */
  lemma BearerHeaderReachesVerify(token: string, verify: string -> Option<Payload>)
    requires token != "" && ' ' !in token
    ensures Authenticate("Bearer " + token, verify) == (if verify(token).Some? then Ok(verify(token).value) else Err(InvalidOrExpired))
  {
    assert "Bearer " + token == "Bearer" + [' '] + token;
    SplitAtFirst("Bearer", ' ', token);
    SplitNoSep(token, ' ');
  }

  /** What a reply shows of a user: the name falls back to "". */
  datatype PublicUser = PublicUser(id: UserId, name: string, email: string)

  function Public(u: User): PublicUser
  {
    PublicUser(u.id, u.name, u.email)
  }

  // ---------------------------------------------------------------------
  // Register

  /** The body of `POST /register` ("" for a missing field). */
  datatype RegisterBody = RegisterBody(name: string, email: string, password: string)

  datatype RegisterReply =
    | RegisterMissing                 // 400, "Falta email o password"
    | RegisterBadEmail                // 400, "Email inválido"
    | RegisterWeak                    // 422
    | RegisterTaken                   // 409, "Email ya registrado"
    | Registered(token: string, user: PublicUser)   // 201
    | RegisterError                   // 500

  /** `POST /register`. `b` and `salt` stand for bcrypt and `genSalt(12)`,
      `sign` for `issueToken`. */
  method Register(store: Store, body: RegisterBody, b: Bcrypt, salt: nat, sign: Signer) returns (reply: RegisterReply)
    requires store.Valid()
    modifies store
    ensures store.Valid()
    ensures body.email == "" || body.password == "" ==> reply == RegisterMissing
    ensures body.email != "" && body.password != "" && !MatchesLooseEmail(NormalizeEmail(body.email)) ==> reply == RegisterBadEmail
    ensures body.email != "" && body.password != "" && MatchesLooseEmail(NormalizeEmail(body.email)) && Weak(body.password) ==>
      reply == RegisterWeak
    ensures body.email != "" && body.password != "" && MatchesLooseEmail(NormalizeEmail(body.email)) && !Weak(body.password)
            && old(store.online) && old(store.EmailOwner(NormalizeEmail(body.email))).Some? ==>
      reply == RegisterTaken
    ensures reply.Registered? <==>
      (body.email != "" && body.password != "" && MatchesLooseEmail(NormalizeEmail(body.email)) && !Weak(body.password)
       && old(store.online) && old(store.EmailOwner(NormalizeEmail(body.email))).None? && b.hash(body.password, salt) != "")
    ensures reply == RegisterError <==>
      (body.email != "" && body.password != "" && MatchesLooseEmail(NormalizeEmail(body.email)) && !Weak(body.password)
       && (!old(store.online) || (old(store.EmailOwner(NormalizeEmail(body.email))).None? && b.hash(body.password, salt) == "")))
    ensures reply.Registered? ==>
      var u := User(old(store.nextId), Trim(body.name), NormalizeEmail(body.email), b.hash(body.password, salt));
      store.users == old(store.users)[u.id := u] && reply.user == Public(u)
      && reply.token == sign(Payload(Some(u.id), u.email))
    ensures !reply.Registered? ==> store.users == old(store.users)
    ensures store.online == old(store.online) && store.purchases == old(store.purchases) && store.tokens == old(store.tokens)
      && store.access == old(store.access) && store.resets == old(store.resets)
      && store.courses == old(store.courses) && store.books == old(store.books)
  {
    if body.email == "" || body.password == "" { return RegisterMissing; }
    var email := NormalizeEmail(body.email);
    var name := Trim(body.name);
    if !MatchesLooseEmail(email) { return RegisterBadEmail; }
    if Weak(body.password) { return RegisterWeak; }
    TrimIdempotent(body.name);
    reply := CreateAccount(store, email, name, b.hash(body.password, salt), sign);
  }

  /** The lookup and the insertion of `POST /register`, once the e-mail is
      normalised and valid and the password strong. */
  method CreateAccount(store: Store, email: string, name: string, passwordHash: string, sign: Signer) returns (reply: RegisterReply)
    requires store.Valid() && email == EmailSetter(email) && MatchesLooseEmail(email)
    modifies store
    ensures store.Valid()
    ensures old(store.online) && old(store.EmailOwner(email)).Some? ==> reply == RegisterTaken
    ensures reply.Registered? <==> old(store.online) && old(store.EmailOwner(email)).None? && passwordHash != ""
    ensures reply == RegisterError <==> !old(store.online) || (old(store.EmailOwner(email)).None? && passwordHash == "")
    ensures reply.Registered? ==>
      var u := User(old(store.nextId), Trim(name), email, passwordHash);
      store.users == old(store.users)[u.id := u] && reply.user == Public(u)
      && reply.token == sign(Payload(Some(u.id), u.email))
    ensures !reply.Registered? ==> store.users == old(store.users)
    ensures store.online == old(store.online) && store.purchases == old(store.purchases) && store.tokens == old(store.tokens)
      && store.access == old(store.access) && store.resets == old(store.resets)
      && store.courses == old(store.courses) && store.books == old(store.books)
  {
    var existing := store.FindUserByEmail(email);
    if existing.Err? { return RegisterError; }
    if existing.value.Some? { return RegisterTaken; }
    assert email != "" by { assert |email| > 3; }
    var created := store.CreateUser(Some(name), email, passwordHash);
    if created.Err? {
      if created.error == DuplicateKey(EmailIndex) { return RegisterTaken; }
      return RegisterError;
    }
    var u := created.value;
    return Registered(sign(Payload(Some(u.id), u.email)), Public(u));
  }

  // ---------------------------------------------------------------------
  // Login

  datatype LoginReply =
    | LoginMissing                    // 400, "Falta email o password"
    | BadCredentials                  // 401, "Credenciales inválidas"
    | LoggedIn(token: string, user: PublicUser)
    | LoginError                      // 500

  /** `POST /login`: an unknown e-mail, a user without a hash and a wrong
      password get the same 401. */
  method Login(store: Store, email: string, password: string, b: Bcrypt, sign: Signer) returns (reply: LoginReply)
    requires store.Valid()
    ensures email == "" || password == "" ==> reply == LoginMissing
    ensures email != "" && password != "" && store.online ==>
      var owner := store.EmailOwner(NormalizeEmail(email));
      (reply == BadCredentials <==>
         owner.None? || store.users[owner.value].passwordHash == ""
         || !b.compare(password, store.users[owner.value].passwordHash))
      && (reply.LoggedIn? <==> reply != BadCredentials)
      && (reply.LoggedIn? ==>
            var u := store.users[owner.value];
            reply.user == Public(u) && reply.token == sign(Payload(Some(u.id), u.email)))
    ensures email != "" && password != "" && !store.online ==> reply == LoginError
  {
    if email == "" || password == "" { return LoginMissing; }
    var e := NormalizeEmail(email);
    var found := store.FindUserByEmail(e);
    if found.Err? { return LoginError; }
    if found.value.None? { return BadCredentials; }
    var u := found.value.value;
    if u.passwordHash == "" { return BadCredentials; }
    if !b.compare(password, u.passwordHash) { return BadCredentials; }
    return LoggedIn(sign(Payload(Some(u.id), u.email)), Public(u));
  }

  // ---------------------------------------------------------------------
  // Profile

  datatype ProfileReply = ProfileNotFound | Profile(user: PublicUser) | ProfileError

  /** `GET /profile` behind `authRequired`. */
  method GetProfile(store: Store, payload: Payload) returns (reply: ProfileReply)
    requires store.Valid()
    ensures !store.online ==> reply == ProfileError
    ensures store.online ==>
      reply == if payload.id.Some? && payload.id.value in store.users then Profile(Public(store.users[payload.id.value]))
               else ProfileNotFound
  {
    var found := store.FindUserById(payload.id);
    if found.Err? { return ProfileError; }
    if found.value.None? { return ProfileNotFound; }
    return Profile(Public(found.value.value));
  }

  // ---------------------------------------------------------------------
  // Password recovery

  datatype ForgotReply =
    | ForgotMissing                   // 400, "Falta email"
    | Instructions                    // 200, the same message for every e-mail
    | ResetMailFailed                 // 500, "No pudimos enviar el email de recuperación"
    | ForgotError                     // 500, "No pudimos procesar la solicitud"

  /** A one-hour validity. */
  function ResetExpiry(now: Millis): Millis
  {
    now + HOUR_MS
  }

  function ResetUrl(frontendUrl: string, rawToken: string): string
  {
    frontendUrl + "/reset-password/" + rawToken
  }

  /** `POST /forgot-password`. `random` is the 32 random bytes of the raw
      token, `sha256` the hex digest, `mailThrows` whether `sendResetEmail`
      throws. */
  method ForgotPassword(store: Store, frontendUrl: string, email: string, random: seq<byte>, sha256: string -> string,
                        mailThrows: bool, now: Millis)
    returns (reply: ForgotReply, mails: seq<Mailer.MailRequest>)
    requires store.Valid() && |random| == 32
    modifies store
    ensures store.Valid()
    ensures email == "" ==> reply == ForgotMissing && mails == [] && store.resets == old(store.resets)
    ensures email != "" && old(store.online) && old(store.EmailOwner(NormalizeEmail(email))).None? ==>
      reply == Instructions && mails == [] && store.resets == old(store.resets)
    ensures email != "" && old(store.online) && old(store.EmailOwner(NormalizeEmail(email))).Some? && sha256(HexEncode(random)) != "" ==>
      var u := old(store.users)[old(store.EmailOwner(NormalizeEmail(email))).value];
      var raw := HexEncode(random);
      store.resets == old(store.resets) + [PasswordReset(u.id, sha256(raw), ResetExpiry(now), false)]
      && mails == [Mailer.ResetMail(u.email, u.name, ResetUrl(frontendUrl, raw))]
      && (reply == Instructions <==> !mailThrows) && (reply != Instructions ==> reply == ResetMailFailed)
    ensures reply == ForgotError <==>
      email != "" && (!old(store.online) || (old(store.EmailOwner(NormalizeEmail(email))).Some? && sha256(HexEncode(random)) == ""))
    ensures reply == ForgotError ==> store.resets == old(store.resets) && mails == []
    ensures store.users == old(store.users) && store.nextId == old(store.nextId) && store.online == old(store.online)
      && store.purchases == old(store.purchases) && store.tokens == old(store.tokens) && store.access == old(store.access)
      && store.courses == old(store.courses) && store.books == old(store.books)
  {
    mails := [];
    if email == "" { return ForgotMissing, mails; }
    var found := store.FindUserByEmail(NormalizeEmail(email));
    if found.Err? { return ForgotError, mails; }
    if found.value.None? { return Instructions, mails; }
    var u := found.value.value;
    var raw := HexEncode(random);
    var tokenHash := sha256(raw);
    var made := store.CreateReset(Some(u.id), tokenHash, ResetExpiry(now));
    if made.Err? { return ForgotError, mails; }
    mails := [Mailer.ResetMail(u.email, u.name, ResetUrl(frontendUrl, raw))];
    if mailThrows { return ResetMailFailed, mails; }
    return Instructions, mails;
  }

  datatype ResetReply =
    | ResetMissing                    // 400, "Falta token o password"
    | ResetWeak                       // 400
    | ResetInvalid                    // 400, "Token inválido o expirado."
    | ResetNoUser                     // 400, "Usuario no encontrado."
    | ResetDone
    | ResetError                      // 500

  /** The reset records after a successful reset through record `i` of
      user `u`: that record and every other active one of `u` used. */
  function AfterReset(resets: seq<PasswordReset>, i: nat, u: UserId, now: Millis): (r: seq<PasswordReset>)
    requires i < |resets|
    ensures |r| == |resets|
    ensures r[i].used
    ensures forall k | 0 <= k < |r| && r[k].userId == u :: !ResetActive(r[k], now)
    ensures forall k | 0 <= k < |r| && resets[k].used :: r[k].used
    ensures forall k | 0 <= k < |r| && k != i && resets[k].userId != u :: r[k] == resets[k]
  {
    var marked := resets[i := resets[i].(used := true)];
    InvalidateForLeavesNoneActive(marked, u, now);
    InvalidateFor(marked, u, now)
  }

  /** The link just used no longer opens a reset for its user, and when no
      other user holds the same digest it is dead altogether. */
  lemma ResetLinkSingleUse(resets: seq<PasswordReset>, tokenHash: string, now: Millis)
    requires FirstActiveReset(resets, tokenHash, now).Some?
    ensures var i := FirstActiveReset(resets, tokenHash, now).value;
      var after := AfterReset(resets, i, resets[i].userId, now);
      (forall k | 0 <= k < |after| && after[k].tokenHash == tokenHash && ResetActive(after[k], now) ::
         after[k].userId != resets[i].userId)
      && ((forall k | 0 <= k < |resets| && resets[k].tokenHash == tokenHash :: resets[k].userId == resets[i].userId) ==>
            FirstActiveReset(after, tokenHash, now).None?)
  {
  }

  /** `POST /reset-password`. The weak-password check comes before any
      lookup. */
  method ResetPassword(store: Store, token: string, password: string, sha256: string -> string, b: Bcrypt, salt: nat, now: Millis)
    returns (reply: ResetReply)
    requires store.Valid()
    modifies store
    ensures store.Valid()
    ensures token == "" || password == "" ==> reply == ResetMissing && store.State() == old(store.State())
    ensures token != "" && password != "" && Weak(password) ==> reply == ResetWeak && store.State() == old(store.State())
    ensures reply == ResetMissing <==> token == "" || password == ""
    ensures reply == ResetWeak <==> token != "" && password != "" && Weak(password)
    ensures token != "" && password != "" && !Weak(password) && old(store.online)
            && FirstActiveReset(old(store.resets), sha256(token), now).None? ==>
      reply == ResetInvalid && store.State() == old(store.State())
    ensures reply == ResetDone <==>
      (token != "" && password != "" && !Weak(password) && old(store.online)
       && FirstActiveReset(old(store.resets), sha256(token), now).Some?
       && old(store.resets)[FirstActiveReset(old(store.resets), sha256(token), now).value].userId in old(store.users)
       && b.hash(password, salt) != "")
    ensures reply == ResetDone ==>
      var i := FirstActiveReset(old(store.resets), sha256(token), now).value;
      var u := old(store.resets)[i].userId;
      store.users == old(store.users)[u := old(store.users)[u].(passwordHash := b.hash(password, salt))]
      && store.resets == AfterReset(old(store.resets), i, u, now)
    ensures reply == ResetError <==>
      (token != "" && password != "" && !Weak(password)
       && (!old(store.online)
           || (FirstActiveReset(old(store.resets), sha256(token), now).Some?
               && old(store.resets)[FirstActiveReset(old(store.resets), sha256(token), now).value].userId in old(store.users)
               && b.hash(password, salt) == "")))
    ensures reply == ResetInvalid || reply == ResetNoUser || reply == ResetError ==> store.State() == old(store.State())
    ensures store.nextId == old(store.nextId) && store.online == old(store.online)
      && store.purchases == old(store.purchases) && store.tokens == old(store.tokens) && store.access == old(store.access)
      && store.courses == old(store.courses) && store.books == old(store.books)
  {
    if token == "" || password == "" { return ResetMissing; }
    if Weak(password) { return ResetWeak; }
    var tokenHash := sha256(token);
    var found := store.FindActiveReset(tokenHash, now);
    if found.Err? { return ResetError; }
    if found.value.None? { return ResetInvalid; }
    var i := found.value.value;
    var u := store.resets[i].userId;
    var user := store.FindUserById(Some(u));
    if user.Err? { return ResetError; }
    if user.value.None? { return ResetNoUser; }
    var saved := store.SetPasswordHash(u, b.hash(password, salt));
    if saved.Err? { return ResetError; }
    var marked := store.MarkResetUsed(i);
    if marked.Err? { return ResetError; }
    var invalidated := store.InvalidateResets(u, now);
    if invalidated.Err? { return ResetError; }
    return ResetDone;
  }

  /** `GET /reset-password/validate/:token`: `ok` exactly when an active
      record has the token's digest; every failure reads as not ok. */
  method ValidateReset(store: Store, raw: string, sha256: string -> string, now: Millis) returns (ok: bool)
    requires store.Valid()
    ensures ok <==> raw != "" && store.online && FirstActiveReset(store.resets, sha256(raw), now).Some?
  {
    if raw == "" { return false; }
    var found := store.FindActiveReset(sha256(raw), now);
    if found.Err? { return false; }
    return found.value.Some?;
  }
}
