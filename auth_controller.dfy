/** The older account controller: registration without a password rule,
    login, and the profile and password changes of a signed-in user
    (`userId` is what the authentication middleware put on the request). */
module AuthController {
  import opened Wrappers
  import opened Text
  import opened Models
  import opened Db
  import opened Accounts

  /** Looking a user up by `String(email).toLowerCase()`: the schema's
      setters trim as well, so the stored form is `EmailSetter(email)`. */
  lemma LowerThenSetter(email: string)
    ensures EmailSetter(ToLower(email)) == EmailSetter(email)
  {
    ToLowerIdempotent(email);
  }

  datatype RegisterUserReply =
    | NoEmailOrPassword                 // 400, "Falta email o password"
    | UserExists                      // 400, "Usuario ya existe"
    | UserCreated(token: string, user: PublicUser)   // 201
    | RegisterFailed                  // 500, "Error al crear usuario" (validation included)

  /** `registerUser`: no password rule; the document's own validation
      (e-mail format, a hash) fails as a 500. */
  method RegisterUser(store: Store, name: string, email: string, password: string, b: Bcrypt, salt: nat, sign: Signer)
    returns (reply: RegisterUserReply)
    requires store.Valid()
    modifies store
    ensures store.Valid()
    ensures email == "" || password == "" ==> reply == NoEmailOrPassword
    ensures email != "" && password != "" && old(store.online) && old(store.EmailOwner(EmailSetter(email))).Some? ==>
      reply == UserExists
    ensures reply.UserCreated? <==>
      (email != "" && password != "" && old(store.online) && old(store.EmailOwner(EmailSetter(email))).None?
       && EmailSetter(email) != "" && MatchesLooseEmail(EmailSetter(email)) && b.hash(password, salt) != "")
    ensures reply == RegisterFailed <==>
      (email != "" && password != ""
       && (!old(store.online)
           || (old(store.EmailOwner(EmailSetter(email))).None?
               && !(EmailSetter(email) != "" && MatchesLooseEmail(EmailSetter(email)) && b.hash(password, salt) != ""))))
    ensures reply.UserCreated? ==>
      var u := User(old(store.nextId), Trim(name), EmailSetter(email), b.hash(password, salt));
      store.users == old(store.users)[u.id := u] && reply.user == Public(u)
      && reply.token == sign(Payload(Some(u.id), u.email))
    ensures !reply.UserCreated? ==> store.users == old(store.users)
    ensures store.online == old(store.online) && store.purchases == old(store.purchases) && store.tokens == old(store.tokens)
      && store.access == old(store.access) && store.resets == old(store.resets)
      && store.courses == old(store.courses) && store.books == old(store.books)
  {
    if email == "" || password == "" { return NoEmailOrPassword; }
    LowerThenSetter(email);
    var existing := store.FindUserByEmail(ToLower(email));
    if existing.Err? { return RegisterFailed; }
    if existing.value.Some? { return UserExists; }
    TrimIdempotent(name);
    var created := store.CreateUser(Some(Trim(name)), ToLower(email), b.hash(password, salt));
    if created.Err? { return RegisterFailed; }
    var u := created.value;
    return UserCreated(sign(Payload(Some(u.id), u.email)), Public(u));
  }

  /** `loginUser`: an unknown e-mail and a wrong password get the same
      401. */
  method LoginUser(store: Store, email: string, password: string, b: Bcrypt, sign: Signer) returns (reply: LoginReply)
    requires store.Valid()
    ensures email == "" || password == "" ==> reply == LoginMissing
    ensures email != "" && password != "" && !store.online ==> reply == LoginError
    ensures email != "" && password != "" && store.online ==>
      var owner := store.EmailOwner(EmailSetter(email));
      (reply == BadCredentials <==> owner.None? || !ValidatePassword(store.users[owner.value], password, b))
      && (reply.LoggedIn? <==> reply != BadCredentials)
      && (reply.LoggedIn? ==>
            var u := store.users[owner.value];
            reply.user == Public(u) && reply.token == sign(Payload(Some(u.id), u.email)))
  {
    if email == "" || password == "" { return LoginMissing; }
    LowerThenSetter(email);
    var found := store.FindUserByEmail(ToLower(email));
    if found.Err? { return LoginError; }
    if found.value.None? { return BadCredentials; }
    var u := found.value.value;
    if !ValidatePassword(u, password, b) { return BadCredentials; }
    return LoggedIn(sign(Payload(Some(u.id), u.email)), Public(u));
  }

  datatype UpdateReply =
    | EmailInUse                      // 400, "Ese email ya está en uso"
    | UpdateNotFound                  // 404
    | Updated(token: string, user: PublicUser)
    | UpdateError                     // 500, a failed validator included

  /** The user after `updateProfile`: a given name trimmed, a given e-mail
      lower-cased and trimmed, everything else kept. */
  function ProfileAfterUpdate(u: User, name: Option<string>, email: Option<string>): (r: User)
  {
    u.(name := if name.Some? then Trim(name.value) else u.name,
       email := if email.Some? then EmailSetter(email.value) else u.email)
  }

  /** Sending the same update twice leaves the profile as sending it once. */
  lemma UpdateTwiceIsOnce(u: User, name: Option<string>, email: Option<string>)
    ensures ProfileAfterUpdate(ProfileAfterUpdate(u, name, email), name, email) == ProfileAfterUpdate(u, name, email)
  {
    if name.Some? { TrimIdempotent(name.value); }
    if email.Some? { EmailSetterIdempotent(email.value); }
  }

  /** Another user than `userId` already holds the normalised e-mail. */
  ghost predicate Clash(store: Store, userId: UserId, email: Option<string>)
    reads store
  {
    email.Some? && exists other | other in store.users && other != userId :: store.users[other].email == EmailSetter(email.value)
  }

  /** `User.findOne({ email: newEmail, _id: { $ne: userId } })` when an
      e-mail is given; no lookup otherwise. */
  method EmailFree(store: Store, userId: UserId, email: Option<string>) returns (r: Result<bool, DbError>)
    requires store.Valid()
    ensures email.None? ==> r == Ok(true)
    ensures email.Some? && !store.online ==> r == Err(Unavailable)
    ensures email.Some? && store.online ==> r == Ok(!Clash(store, userId, email))
  {
    if email.None? { return Ok(true); }
    var e := EmailSetter(email.value);
    EmailSetterIdempotent(email.value);
    var found := store.FindUserByEmail(e);
    if found.Err? { return Err(found.error); }
    if found.value.Some? && found.value.value.id != userId { return Ok(false); }
    return Ok(true);
  }

  /** `updateProfile`. `name` and `email` are the body's fields when they
      are strings. A clash is checked before the user is looked up. */
  method UpdateProfile(store: Store, userId: UserId, name: Option<string>, email: Option<string>, sign: Signer)
    returns (reply: UpdateReply)
    requires store.Valid()
    modifies store
    ensures store.Valid()
    ensures !old(store.online) ==> reply == UpdateError
    ensures old(store.online) && old(Clash(store, userId, email)) ==> reply == EmailInUse
    ensures old(store.online) && !old(Clash(store, userId, email)) && userId !in old(store.users) ==> reply == UpdateNotFound
    ensures reply.Updated? <==>
      (old(store.online) && !old(Clash(store, userId, email)) && userId in old(store.users)
       && (email.Some? ==> EmailSetter(email.value) != "" && MatchesLooseEmail(EmailSetter(email.value))))
    ensures reply.Updated? ==>
      var u := ProfileAfterUpdate(old(store.users)[userId], name, email);
      store.users == old(store.users)[userId := u] && reply.user == Public(u)
      && reply.token == sign(Payload(Some(userId), u.email))
    ensures !reply.Updated? ==> store.users == old(store.users)
    ensures store.nextId == old(store.nextId) && store.online == old(store.online)
      && store.purchases == old(store.purchases) && store.tokens == old(store.tokens) && store.access == old(store.access)
      && store.resets == old(store.resets) && store.courses == old(store.courses) && store.books == old(store.books)
  {
    var free := EmailFree(store, userId, email);
    if free.Err? { return UpdateError; }
    if !free.value { return EmailInUse; }
    var newName := if name.Some? then Some(Trim(name.value)) else None;
    var newEmail := if email.Some? then Some(EmailSetter(email.value)) else None;
    NormalisedUpdate(old(store.users), userId, name, email);
    reply := SaveProfile(store, userId, newName, newEmail, sign);
  }

  /** Trimming the name and normalising the e-mail before the update
      changes nothing: the schema's setters do the same again. */
  lemma NormalisedUpdate(users: map<UserId, User>, userId: UserId, name: Option<string>, email: Option<string>)
    ensures var newName := if name.Some? then Some(Trim(name.value)) else None;
      var newEmail := if email.Some? then Some(EmailSetter(email.value)) else None;
      (userId in users ==> ProfileAfterUpdate(users[userId], newName, newEmail) == ProfileAfterUpdate(users[userId], name, email))
      && (newEmail.Some? ==> EmailSetter(newEmail.value) == EmailSetter(email.value))
  {
    if name.Some? { TrimIdempotent(name.value); }
    if email.Some? { EmailSetterIdempotent(email.value); }
  }

  /** `findByIdAndUpdate` with the validators on, once no other user holds
      the e-mail. */
  method SaveProfile(store: Store, userId: UserId, name: Option<string>, email: Option<string>, sign: Signer)
    returns (reply: UpdateReply)
    requires store.Valid() && !Clash(store, userId, email)
    modifies store
    ensures store.Valid()
    ensures !old(store.online) ==> reply == UpdateError
    ensures old(store.online) && userId !in old(store.users) ==> reply == UpdateNotFound
    ensures reply.Updated? <==>
      (old(store.online) && userId in old(store.users)
       && (email.Some? ==> EmailSetter(email.value) != "" && MatchesLooseEmail(EmailSetter(email.value))))
    ensures reply.Updated? ==>
      var u := ProfileAfterUpdate(old(store.users)[userId], name, email);
      store.users == old(store.users)[userId := u] && reply.user == Public(u)
      && reply.token == sign(Payload(Some(userId), u.email))
    ensures !reply.Updated? ==> store.users == old(store.users)
    ensures store.nextId == old(store.nextId) && store.online == old(store.online)
      && store.purchases == old(store.purchases) && store.tokens == old(store.tokens) && store.access == old(store.access)
      && store.resets == old(store.resets) && store.courses == old(store.courses) && store.books == old(store.books)
  {
    var saved := store.UpdateUserProfile(userId, name, email);
    if saved.Err? { return UpdateError; }
    if saved.value.None? { return UpdateNotFound; }
    var u := saved.value.value;
    return Updated(sign(Payload(Some(u.id), u.email)), Public(u));
  }

  datatype ChangeReply =
    | FieldsMissing                   // 400, "Faltan campos"
    | TooShort                        // 400, fewer than 8 characters
    | ChangeNotFound                  // 404
    | WrongPassword                   // 401, "La contraseña actual no es correcta"
    | PasswordChanged
    | ChangeError                     // 500

  /** `changePassword`: only the length of the new password is checked,
      and only a matching current password lets the hash change. */
  method ChangePassword(store: Store, userId: UserId, current: string, next: string, b: Bcrypt, salt: nat)
    returns (reply: ChangeReply)
    requires store.Valid()
    modifies store
    ensures store.Valid()
    ensures current == "" || next == "" ==> reply == FieldsMissing
    ensures current != "" && next != "" && |next| < 8 ==> reply == TooShort
    ensures current != "" && |next| >= 8 && old(store.online) && userId !in old(store.users) ==> reply == ChangeNotFound
    ensures (current != "" && |next| >= 8 && old(store.online) && userId in old(store.users)
             && !ValidatePassword(old(store.users)[userId], current, b)) ==> reply == WrongPassword
    ensures reply == PasswordChanged <==>
      (current != "" && |next| >= 8 && old(store.online) && userId in old(store.users)
       && ValidatePassword(old(store.users)[userId], current, b) && b.hash(next, salt) != "")
    ensures reply == ChangeError <==>
      (current != "" && |next| >= 8
       && (!old(store.online)
           || (userId in old(store.users) && ValidatePassword(old(store.users)[userId], current, b) && b.hash(next, salt) == "")))
    ensures reply == PasswordChanged ==>
      store.users == old(store.users)[userId := SetPassword(old(store.users)[userId], next, b, salt)]
    ensures reply != PasswordChanged ==> store.users == old(store.users)
    ensures store.nextId == old(store.nextId) && store.online == old(store.online)
      && store.purchases == old(store.purchases) && store.tokens == old(store.tokens) && store.access == old(store.access)
      && store.resets == old(store.resets) && store.courses == old(store.courses) && store.books == old(store.books)
  {
    if current == "" || next == "" { return FieldsMissing; }
    if |next| < 8 { return TooShort; }
    var found := store.FindUserById(Some(userId));
    if found.Err? { return ChangeError; }
    if found.value.None? { return ChangeNotFound; }
    var u := found.value.value;
    if !ValidatePassword(u, current, b) { return WrongPassword; }
    var changed := SetPassword(u, next, b, salt);
    var saved := store.SetPasswordHash(userId, changed.passwordHash);
    if saved.Err? { return ChangeError; }
    return PasswordChanged;
  }

  /** After a change, logging in with the new password succeeds and with
      the old one fails, as long as bcrypt accepts exactly the password a
      hash was made from. Real bcrypt reads at most the first 72 bytes of a
      password, so two passwords sharing those bytes would both log in. */
  method ChangeThenLogin(store: Store, userId: UserId, current: string, next: string, b: Bcrypt, salt: nat, sign: Signer)
    returns (changed: ChangeReply, withNew: LoginReply, withOld: LoginReply)
    requires store.Valid()
    requires userId in store.users ==> store.users[userId].email != "" && EmailSetter(store.users[userId].email) == store.users[userId].email
    requires forall p, q | p != "" && q != "" :: b.compare(p, b.hash(q, salt)) <==> p == q
    modifies store
    ensures changed == PasswordChanged ==> withNew.LoggedIn? && withNew.user.id == userId
    ensures changed == PasswordChanged && current != next ==> withOld == BadCredentials
  {
    changed := ChangePassword(store, userId, current, next, b, salt);
    var email := if userId in store.users then store.users[userId].email else "";
    withNew := LoginUser(store, email, next, b, sign);
    withOld := LoginUser(store, email, current, b, sign);
    if changed == PasswordChanged {
      assert store.users[userId].passwordHash == b.hash(next, salt);
      assert store.EmailOwner(EmailSetter(email)) == Some(userId);
      assert next != "" by { assert |next| >= 8; }
    }
  }
}
