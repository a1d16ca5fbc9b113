/** The document store the backend talks to, as one object whose
    collections the handlers change in place. Each collection with a unique
    index is a map keyed by that index, so a second insert with the same
    key fails with a duplicate-key error (code 11000) and leaves the first
    document as it was. `online == false` stands for a database that cannot
    be reached: every operation then fails and changes nothing. */
module Db {
  import opened Wrappers
  import opened Text
  import opened Models
  import Sorting

  /** The compound unique index of the course-access collection. An upsert
      does not validate, so a key without a user can be stored. */
  datatype AccessKey = AccessKey(userId: Option<UserId>, courseSlug: string)

  /** The query of `PasswordReset.findOne({ tokenHash, used: false,
      expiresAt: { $gt: now } })` and of the later `updateMany`. */
  predicate ResetActive(r: PasswordReset, now: Millis)
  {
    !r.used && r.expiresAt > now
  }

  /** The first active reset record with the given hash, in insertion
      order. */
  function FirstActiveReset(resets: seq<PasswordReset>, tokenHash: string, now: Millis): (r: Option<nat>)
    ensures r.Some? ==> r.value < |resets| && resets[r.value].tokenHash == tokenHash && ResetActive(resets[r.value], now)
    ensures r.Some? ==> forall k | 0 <= k < r.value :: !(resets[k].tokenHash == tokenHash && ResetActive(resets[k], now))
    ensures r.None? ==> forall k | 0 <= k < |resets| :: !(resets[k].tokenHash == tokenHash && ResetActive(resets[k], now))
  {
    if |resets| == 0 then None
    else if resets[0].tokenHash == tokenHash && ResetActive(resets[0], now) then Some(0)
    else
      match FirstActiveReset(resets[1..], tokenHash, now)
      case None => None
      case Some(k) => Some(k + 1)
  }

  /** `updateMany({ userId, used: false, expiresAt: { $gt: now } },
      { $set: { used: true } })` on a sequence of reset records. */
  function InvalidateFor(resets: seq<PasswordReset>, userId: UserId, now: Millis): (r: seq<PasswordReset>)
    ensures |r| == |resets|
    ensures forall k | 0 <= k < |r| ::
      r[k] == if resets[k].userId == userId && ResetActive(resets[k], now) then resets[k].(used := true) else resets[k]
  {
    seq(|resets|, k requires 0 <= k < |resets| =>
      if resets[k].userId == userId && ResetActive(resets[k], now) then resets[k].(used := true) else resets[k])
  }

  /** After the update no record of that user is still active. */
  lemma InvalidateForLeavesNoneActive(resets: seq<PasswordReset>, userId: UserId, now: Millis)
    ensures forall k | 0 <= k < |resets| :: InvalidateFor(resets, userId, now)[k].userId == userId ==>
      !ResetActive(InvalidateFor(resets, userId, now)[k], now)
  {
  }

  /** The grants after `updateOne(key, { $set: { userId, courseSlug,
      provider, grantedAt } }, { upsert: true })`: the one grant of the pair
      gets the new provider and date, keeps its `grantedBy` when it existed
      and takes the schema default otherwise; no other grant changes. */
  function SetGrant(access: map<AccessKey, CourseAccess>, key: AccessKey, provider: string, now: Millis): (r: map<AccessKey, CourseAccess>)
    ensures r.Keys == access.Keys + {key}
    ensures forall k | k in access && k != key :: r[k] == access[k]
    ensures r[key].userId == key.userId && r[key].courseSlug == key.courseSlug
    ensures r[key].provider == Some(provider) && r[key].grantedAt == Some(now)
    ensures r[key].grantedBy == if key in access then access[key].grantedBy else ByPurchase
  {
    var g := if key in access then access[key] else CourseAccess(key.userId, key.courseSlug, ByPurchase, None, None);
    access[key := g.(userId := key.userId, courseSlug := key.courseSlug, provider := Some(provider), grantedAt := Some(now))]
  }

  /** Repeating the upsert leaves the same single grant as doing it once
      with the later date: only the provider and the date are refreshed. */
  lemma SetGrantTwice(access: map<AccessKey, CourseAccess>, key: AccessKey, p1: string, t1: Millis, p2: string, t2: Millis)
    ensures SetGrant(SetGrant(access, key, p1, t1), key, p2, t2) == SetGrant(access, key, p2, t2)
  {
    var a := SetGrant(SetGrant(access, key, p1, t1), key, p2, t2);
    var b := SetGrant(access, key, p2, t2);
    assert a.Keys == b.Keys;
    assert a[key] == b[key];
    forall k | k in a ensures a[k] == b[k] {
    }
  }

  /** The grants after `updateOne(key, { $setOnInsert: { provider,
      grantedBy, grantedAt } }, { upsert: true })`: a new grant when the
      pair has none, else nothing changes. */
  function InsertGrant(access: map<AccessKey, CourseAccess>, key: AccessKey, provider: string, grantedBy: GrantedBy, now: Millis): (r: map<AccessKey, CourseAccess>)
    ensures r.Keys == access.Keys + {key}
    ensures forall k | k in access :: r[k] == access[k]
    ensures key !in access ==> r[key] == CourseAccess(key.userId, key.courseSlug, grantedBy, Some(provider), Some(now))
  {
    if key in access then access
    else access[key := CourseAccess(key.userId, key.courseSlug, grantedBy, Some(provider), Some(now))]
  }

  /** A second insert-only upsert of the same pair changes nothing. */
  lemma InsertGrantTwice(access: map<AccessKey, CourseAccess>, key: AccessKey,
                         p1: string, g1: GrantedBy, t1: Millis, p2: string, g2: GrantedBy, t2: Millis)
    ensures var once := InsertGrant(access, key, p1, g1, t1); InsertGrant(once, key, p2, g2, t2) == once
  {
  }

  /** `b` keeps every entry of `a`: documents are added, never removed or
      changed. */
  predicate Grows<K, V(==)>(a: map<K, V>, b: map<K, V>)
  {
    forall k | k in a :: k in b && b[k] == a[k]
  }

  /** Every collection of the store at one moment. */
  datatype StoreState = StoreState(
    online: bool, users: map<UserId, User>, nextId: nat, purchases: map<string, Purchase>,
    tokens: map<string, DownloadToken>, access: map<AccessKey, CourseAccess>, resets: seq<PasswordReset>,
    courses: map<string, Course>, books: map<string, Book>)

  predicate TitleLe(a: Course, b: Course)
  {
    Sorting.StringLe(a.title, b.title)
  }

  lemma TitleLeTotalPreorder()
    ensures Sorting.TotalPreorder(TitleLe)
  {
    forall a: Course, b: Course ensures TitleLe(a, b) || TitleLe(b, a) {
      Sorting.StringLeTotal(a.title, b.title);
    }
    forall a: Course, b: Course, c: Course | TitleLe(a, b) && TitleLe(b, c) ensures TitleLe(a, c) {
      Sorting.StringLeTransitive(a.title, b.title, c.title);
    }
  }

  predicate EmailsUnique(users: map<UserId, User>)
  {
    forall a, b | a in users && b in users && users[a].email == users[b].email :: a == b
  }

  /** The user of `users` whose stored e-mail is `e`, if any. */
  ghost function Owner(users: map<UserId, User>, e: string): (r: Option<UserId>)
    ensures r.Some? ==> r.value in users && users[r.value].email == e
    ensures r.None? ==> forall id | id in users :: users[id].email != e
  {
    if exists id | id in users :: users[id].email == e then
      var id :| id in users && users[id].email == e; Some(id)
    else None
  }

  /** The only user holding an e-mail is its owner. */
  lemma OwnerIs(users: map<UserId, User>, e: string, id: UserId)
    requires id in users && users[id].email == e
    requires forall j | j in users && users[j].email == e :: j == id
    ensures Owner(users, e) == Some(id)
  {
  }

  lemma PutKeepsEmailsUnique(users: map<UserId, User>, u: User)
    requires EmailsUnique(users)
    requires forall id | id in users && id != u.id :: users[id].email != u.email
    ensures EmailsUnique(users[u.id := u])
  {
  }

  lemma SameElements<T>(a: seq<T>, b: seq<T>)
    requires multiset(a) == multiset(b)
    ensures |a| == |b|
    ensures forall x | x in a :: x in b
    ensures forall x | x in b :: x in a
  {
    assert |a| == |multiset(a)|;
    assert |b| == |multiset(b)|;
    forall x | x in a ensures x in b { assert x in multiset(a); }
    forall x | x in b ensures x in a { assert x in multiset(b); }
  }

  class Store {
    var online: bool
    var users: map<UserId, User>
    var nextId: nat
    var purchases: map<string, Purchase>
    var tokens: map<string, DownloadToken>
    var access: map<AccessKey, CourseAccess>
    var resets: seq<PasswordReset>
    var courses: map<string, Course>
    var books: map<string, Book>

    /** Every document sits under its own key, ids are below the next id to
        hand out, and no two users share an e-mail. */
    ghost predicate Valid()
      reads this
    {
      (forall id | id in users :: users[id].id == id && id < nextId)
      && EmailsUnique(users)
      && (forall o | o in purchases :: purchases[o].orderId == o)
      && (forall t | t in tokens :: tokens[t].token == t)
      && (forall k | k in access :: access[k].userId == k.userId && access[k].courseSlug == k.courseSlug)
      && (forall s | s in courses :: courses[s].slug == s)
      && (forall b | b in books :: books[b].id == b)
    }

    /** The whole content of the store. */
    function State(): StoreState
      reads this
    {
      StoreState(online, users, nextId, purchases, tokens, access, resets, courses, books)
    }

    /** The user whose stored e-mail is `e`, if any (there is at most one). */
    ghost function EmailOwner(e: string): (r: Option<UserId>)
      reads this
      requires Valid()
      ensures r.Some? ==> r.value in users && users[r.value].email == e
      ensures r.None? ==> forall id | id in users :: users[id].email != e
    {
      Owner(users, e)
    }

    /** A store holding only the catalogue. */
    constructor (online: bool, courses: map<string, Course>, books: map<string, Book>)
      requires forall s | s in courses :: courses[s].slug == s
      requires forall b | b in books :: books[b].id == b
      ensures Valid()
      ensures this.online == online && this.courses == courses && this.books == books
      ensures users == map[] && purchases == map[] && tokens == map[] && access == map[] && resets == []
    {
      this.online := online;
      users := map[];
      nextId := 0;
      purchases := map[];
      tokens := map[];
      access := map[];
      resets := [];
      this.courses := courses;
      this.books := books;
    }

    // -------------------------------------------------------------------
    // users

    /** `User.findOne({ email })`: the query value goes through the e-mail
        setters first. */
    method FindUserByEmail(email: string) returns (r: Result<Option<User>, DbError>)
      requires Valid()
      ensures !online ==> r == Err(Unavailable)
      ensures online ==> r.Ok?
      ensures r.Ok? ==> (r.value.Some? <==> EmailOwner(EmailSetter(email)).Some?)
      ensures r.Ok? && r.value.Some? ==> r.value.value == users[EmailOwner(EmailSetter(email)).value]
    {
      if !online { return Err(Unavailable); }
      var e := EmailSetter(email);
      if exists id | id in users :: users[id].email == e {
        var id :| id in users && users[id].email == e;
        return Ok(Some(users[id]));
      }
      return Ok(None);
    }

    /** `User.findById(id)`. */
    method FindUserById(id: Option<UserId>) returns (r: Result<Option<User>, DbError>)
      requires Valid()
      ensures !online ==> r == Err(Unavailable)
      ensures online ==> r == Ok(if id.Some? && id.value in users then Some(users[id.value]) else None)
    {
      if !online { return Err(Unavailable); }
      if id.Some? && id.value in users { return Ok(Some(users[id.value])); }
      return Ok(None);
    }

    /** `User.create(...)`: validated, then refused when the normalised
        e-mail is already stored. */
    method CreateUser(name: Option<string>, email: string, passwordHash: string) returns (r: Result<User, DbError>)
      requires Valid()
      modifies this
      ensures Valid()
      ensures !old(online) ==> r == Err(Unavailable)
      ensures old(online) && NewUser(old(nextId), name, email, passwordHash).Err? ==>
        r == Err(NewUser(old(nextId), name, email, passwordHash).error)
      ensures old(online) && NewUser(old(nextId), name, email, passwordHash).Ok? ==>
        (r.Err? <==> exists id | id in old(users) :: old(users)[id].email == EmailSetter(email))
      ensures r.Err? ==> users == old(users) && nextId == old(nextId)
      ensures r.Ok? ==> (r == NewUser(old(nextId), name, email, passwordHash)
                         && users == old(users)[r.value.id := r.value] && nextId == old(nextId) + 1)
      ensures online == old(online) && purchases == old(purchases) && tokens == old(tokens)
        && access == old(access) && resets == old(resets) && courses == old(courses) && books == old(books)
    {
      if !online { return Err(Unavailable); }
      var made := NewUser(nextId, name, email, passwordHash);
      if made.Err? { return Err(made.error); }
      r := InsertUser(made.value);
    }

    /** The unique e-mail index at work when a new user document is
        inserted. */
    method InsertUser(u: User) returns (r: Result<User, DbError>)
      requires Valid() && u.id == nextId
      modifies this
      ensures Valid()
      ensures r.Err? <==> exists id | id in old(users) :: old(users)[id].email == u.email
      ensures r.Err? ==> r == Err(DuplicateKey(EmailIndex)) && users == old(users) && nextId == old(nextId)
      ensures r.Ok? ==> r == Ok(u) && users == old(users)[u.id := u] && nextId == old(nextId) + 1
      ensures online == old(online) && purchases == old(purchases) && tokens == old(tokens)
        && access == old(access) && resets == old(resets) && courses == old(courses) && books == old(books)
    {
      if exists id | id in users :: users[id].email == u.email {
        return Err(DuplicateKey(EmailIndex));
      }
      PutKeepsEmailsUnique(users, u);
      users := users[u.id := u];
      nextId := nextId + 1;
      return Ok(u);
    }

    /** `findByIdAndUpdate(id, { name?, email? }, { runValidators: true })`:
        the e-mail goes through its setters and its validators; another
        user's e-mail is a duplicate key. `Ok(None)` when no such user. */
    method UpdateUserProfile(id: UserId, name: Option<string>, email: Option<string>) returns (r: Result<Option<User>, DbError>)
      requires Valid()
      modifies this
      ensures Valid()
      ensures !old(online) ==> r == Err(Unavailable)
      ensures old(online) && id !in old(users) ==> r == Ok(None)
      ensures old(online) && id in old(users) && email.Some? ==>
        (r.Err? <==> (EmailSetter(email.value) == "" || !MatchesLooseEmail(EmailSetter(email.value))
                      || exists other | other in old(users) && other != id :: old(users)[other].email == EmailSetter(email.value)))
      ensures old(online) && id in old(users) && email.None? ==> r.Ok?
      ensures r.Ok? ==> (r.value.Some? <==> id in old(users))
      ensures r.Ok? && r.value.Some? ==>
        var u := old(users)[id];
        var u' := u.(name := if name.Some? then Trim(name.value) else u.name,
                     email := if email.Some? then EmailSetter(email.value) else u.email);
        r.value.value == u' && users == old(users)[id := u']
      ensures !(r.Ok? && r.value.Some?) ==> users == old(users)
      ensures nextId == old(nextId) && online == old(online) && purchases == old(purchases) && tokens == old(tokens)
        && access == old(access) && resets == old(resets) && courses == old(courses) && books == old(books)
    {
      if !online { return Err(Unavailable); }
      if id !in users { return Ok(None); }
      var u := users[id];
      var u' := u.(name := if name.Some? then Trim(name.value) else u.name,
                   email := if email.Some? then EmailSetter(email.value) else u.email);
      if email.Some? && (u'.email == "" || !MatchesLooseEmail(u'.email)) {
        return Err(Invalid("email"));
      }
      var replaced := ReplaceUser(u');
      if replaced.Err? { return Err(replaced.error); }
      return Ok(Some(u'));
    }

    /** The unique e-mail index at work when a stored user is rewritten. */
    method ReplaceUser(u: User) returns (r: Result<(), DbError>)
      requires Valid() && u.id in users
      modifies this
      ensures Valid()
      ensures r.Err? <==> exists other | other in old(users) && other != u.id :: old(users)[other].email == u.email
      ensures r.Err? ==> r == Err(DuplicateKey(EmailIndex)) && users == old(users)
      ensures r.Ok? ==> users == old(users)[u.id := u]
      ensures nextId == old(nextId) && online == old(online) && purchases == old(purchases) && tokens == old(tokens)
        && access == old(access) && resets == old(resets) && courses == old(courses) && books == old(books)
    {
      if exists other | other in users && other != u.id :: users[other].email == u.email {
        return Err(DuplicateKey(EmailIndex));
      }
      PutKeepsEmailsUnique(users, u);
      users := users[u.id := u];
      return Ok(());
    }

    /** The user document saved again with a new password hash. */
    method SetPasswordHash(id: UserId, passwordHash: string) returns (r: Result<(), DbError>)
      requires Valid()
      modifies this
      ensures Valid()
      ensures r.Ok? <==> old(online) && id in old(users) && passwordHash != ""
      ensures r.Ok? ==> users == old(users)[id := old(users)[id].(passwordHash := passwordHash)]
      ensures r.Err? ==> users == old(users)
      ensures nextId == old(nextId) && online == old(online) && purchases == old(purchases) && tokens == old(tokens)
        && access == old(access) && resets == old(resets) && courses == old(courses) && books == old(books)
    {
      if !online { return Err(Unavailable); }
      if id !in users { return Err(Invalid("_id")); }
      if passwordHash == "" { return Err(Invalid("passwordHash")); }
      users := users[id := users[id].(passwordHash := passwordHash)];
      return Ok(());
    }

    // -------------------------------------------------------------------
    // purchases

    /** `Purchase.create(input)`: one document per order id. */
    method CreatePurchase(input: PurchaseInput, now: Millis) returns (r: Result<Purchase, DbError>)
      requires Valid()
      modifies this
      ensures Valid()
      ensures !old(online) ==> r == Err(Unavailable)
      ensures old(online) && NewPurchase(input, now).Err? ==> r == Err(NewPurchase(input, now).error)
      ensures old(online) && NewPurchase(input, now).Ok? && input.orderId in old(purchases) ==> r == Err(DuplicateKey(OrderIdIndex))
      ensures old(online) && NewPurchase(input, now).Ok? && input.orderId !in old(purchases) ==> r.Ok?
      ensures r.Ok? ==> (r == NewPurchase(input, now) && input.orderId !in old(purchases)
                         && purchases == old(purchases)[input.orderId := r.value])
      ensures r.Err? ==> purchases == old(purchases)
      ensures users == old(users) && nextId == old(nextId) && online == old(online) && tokens == old(tokens)
        && access == old(access) && resets == old(resets) && courses == old(courses) && books == old(books)
    {
      if !online { return Err(Unavailable); }
      var made := NewPurchase(input, now);
      if made.Err? { return Err(made.error); }
      if input.orderId in purchases { return Err(DuplicateKey(OrderIdIndex)); }
      purchases := purchases[input.orderId := made.value];
      return Ok(made.value);
    }

    // -------------------------------------------------------------------
    // catalogue

    method FindCourse(slug: string) returns (r: Result<Option<Course>, DbError>)
      requires Valid()
      ensures !online ==> r == Err(Unavailable)
      ensures online ==> r == Ok(if slug in courses then Some(courses[slug]) else None)
    {
      if !online { return Err(Unavailable); }
      if slug in courses { return Ok(Some(courses[slug])); }
      return Ok(None);
    }

    /** `Course.find().sort({ title: 1 })`: every course once, ordered by
        title. */
    method ListCourses() returns (r: Result<seq<Course>, DbError>)
      requires Valid()
      ensures !online ==> r == Err(Unavailable)
      ensures online ==> r.Ok?
      ensures r.Ok? ==> Sorting.SortedBy(r.value, TitleLe)
      ensures r.Ok? ==> |r.value| == |courses|
      ensures r.Ok? ==> forall c | c in r.value :: c.slug in courses && courses[c.slug] == c
      ensures r.Ok? ==> forall s | s in courses :: courses[s] in r.value
    {
      if !online { return Err(Unavailable); }
      var found := CollectCourses();
      TitleLeTotalPreorder();
      var sorted := Sorting.SortBy(found, TitleLe);
      SameElements(found, sorted);
      return Ok(sorted);
    }

    /** The courses of the collection in some order, each once. */
    method CollectCourses() returns (found: seq<Course>)
      requires Valid()
      ensures |found| == |courses|
      ensures forall c | c in found :: c.slug in courses && courses[c.slug] == c
      ensures forall s | s in courses :: courses[s] in found
    {
      var remaining := courses.Keys;
      found := [];
      while remaining != {}
        invariant remaining <= courses.Keys
        invariant |found| + |remaining| == |courses|
        invariant forall c | c in found :: c.slug in courses && courses[c.slug] == c && c.slug !in remaining
        invariant forall s | s in courses && s !in remaining :: courses[s] in found
        decreases |remaining|
      {
        var s :| s in remaining;
        found := found + [courses[s]];
        remaining := remaining - {s};
      }
    }

    method FindBook(id: string) returns (r: Result<Option<Book>, DbError>)
      requires Valid()
      ensures !online ==> r == Err(Unavailable)
      ensures online ==> r == Ok(if id in books then Some(books[id]) else None)
    {
      if !online { return Err(Unavailable); }
      if id in books { return Ok(Some(books[id])); }
      return Ok(None);
    }

    // -------------------------------------------------------------------
    // download tokens

    /** `DownloadToken.create(...)`: one document per token. */
    method CreateToken(userId: Option<UserId>, token: string, expiresAt: Option<Millis>, used: Option<bool>) returns (r: Result<DownloadToken, DbError>)
      requires Valid()
      modifies this
      ensures Valid()
      ensures !old(online) ==> r == Err(Unavailable)
      ensures old(online) && NewDownloadToken(userId, token, expiresAt, used).Err? ==>
        r == Err(NewDownloadToken(userId, token, expiresAt, used).error)
      ensures old(online) && NewDownloadToken(userId, token, expiresAt, used).Ok? && token in old(tokens) ==>
        r == Err(DuplicateKey(TokenIndex))
      ensures old(online) && NewDownloadToken(userId, token, expiresAt, used).Ok? && token !in old(tokens) ==> r.Ok?
      ensures r.Ok? ==> (r == NewDownloadToken(userId, token, expiresAt, used) && token !in old(tokens)
                         && tokens == old(tokens)[token := r.value])
      ensures r.Err? ==> tokens == old(tokens)
      ensures users == old(users) && nextId == old(nextId) && online == old(online) && purchases == old(purchases)
        && access == old(access) && resets == old(resets) && courses == old(courses) && books == old(books)
    {
      if !online { return Err(Unavailable); }
      var made := NewDownloadToken(userId, token, expiresAt, used);
      if made.Err? { return Err(made.error); }
      if token in tokens { return Err(DuplicateKey(TokenIndex)); }
      tokens := tokens[token := made.value];
      return Ok(made.value);
    }

    /** `DownloadToken.findOne({ token })`. */
    method FindToken(token: string) returns (r: Result<Option<DownloadToken>, DbError>)
      requires Valid()
      ensures !online ==> r == Err(Unavailable)
      ensures online ==> r == Ok(if token in tokens then Some(tokens[token]) else None)
    {
      if !online { return Err(Unavailable); }
      if token in tokens { return Ok(Some(tokens[token])); }
      return Ok(None);
    }

    /** `record.save()` after the handler set `used = true`. */
    method SaveToken(t: DownloadToken) returns (r: Result<(), DbError>)
      requires Valid()
      modifies this
      ensures Valid()
      ensures r.Ok? <==> old(online) && t.token in old(tokens)
      ensures r.Ok? ==> tokens == old(tokens)[t.token := t]
      ensures r.Err? ==> tokens == old(tokens)
      ensures users == old(users) && nextId == old(nextId) && online == old(online) && purchases == old(purchases)
        && access == old(access) && resets == old(resets) && courses == old(courses) && books == old(books)
    {
      if !online { return Err(Unavailable); }
      if t.token !in tokens { return Err(Invalid("_id")); }
      tokens := tokens[t.token := t];
      return Ok(());
    }

    // -------------------------------------------------------------------
    // course access

    /** `CourseAccess.findOne({ userId, courseSlug })`. */
    method FindAccess(key: AccessKey) returns (r: Result<Option<CourseAccess>, DbError>)
      requires Valid()
      ensures !online ==> r == Err(Unavailable)
      ensures online ==> r == Ok(if key in access then Some(access[key]) else None)
    {
      if !online { return Err(Unavailable); }
      if key in access { return Ok(Some(access[key])); }
      return Ok(None);
    }

    /** `updateOne(key, { $set: { provider, grantedAt } }, { upsert: true })`:
        an existing grant gets the new provider and date, a new one gets the
        schema default "purchase" as grantedBy. */
    method UpsertAccessSet(key: AccessKey, provider: string, now: Millis) returns (r: Result<(), DbError>)
      requires Valid()
      modifies this
      ensures Valid()
      ensures r.Ok? <==> old(online)
      ensures r.Ok? ==> access == SetGrant(old(access), key, provider, now)
      ensures r.Err? ==> access == old(access)
      ensures users == old(users) && nextId == old(nextId) && online == old(online) && purchases == old(purchases)
        && tokens == old(tokens) && resets == old(resets) && courses == old(courses) && books == old(books)
    {
      if !online { return Err(Unavailable); }
      access := SetGrant(access, key, provider, now);
      return Ok(());
    }

    /** `updateOne(key, { $setOnInsert: { provider, grantedBy, grantedAt } },
        { upsert: true })`: an existing grant is left exactly as it was. */
    method UpsertAccessSetOnInsert(key: AccessKey, provider: string, grantedBy: GrantedBy, now: Millis) returns (r: Result<(), DbError>)
      requires Valid()
      modifies this
      ensures Valid()
      ensures r.Ok? <==> old(online)
      ensures r.Ok? ==> access == InsertGrant(old(access), key, provider, grantedBy, now)
      ensures r.Err? ==> access == old(access)
      ensures users == old(users) && nextId == old(nextId) && online == old(online) && purchases == old(purchases)
        && tokens == old(tokens) && resets == old(resets) && courses == old(courses) && books == old(books)
    {
      if !online { return Err(Unavailable); }
      access := InsertGrant(access, key, provider, grantedBy, now);
      return Ok(());
    }

    /** `CourseAccess.create({ userId, courseSlug })`: validated, and refused
        for a pair that already has a grant. */
    method CreateAccess(userId: Option<UserId>, courseSlug: string) returns (r: Result<CourseAccess, DbError>)
      requires Valid()
      modifies this
      ensures Valid()
      ensures !old(online) ==> r == Err(Unavailable)
      ensures old(online) && NewCourseAccess(userId, courseSlug, None, None, None).Err? ==>
        r == Err(NewCourseAccess(userId, courseSlug, None, None, None).error)
      ensures old(online) && NewCourseAccess(userId, courseSlug, None, None, None).Ok? && AccessKey(userId, courseSlug) in old(access) ==>
        r == Err(DuplicateKey(AccessIndex))
      ensures old(online) && NewCourseAccess(userId, courseSlug, None, None, None).Ok? && AccessKey(userId, courseSlug) !in old(access) ==> r.Ok?
      ensures r.Ok? ==> (r == NewCourseAccess(userId, courseSlug, None, None, None)
                         && AccessKey(userId, courseSlug) !in old(access)
                         && access == old(access)[AccessKey(userId, courseSlug) := r.value])
      ensures r.Err? ==> access == old(access)
      ensures users == old(users) && nextId == old(nextId) && online == old(online) && purchases == old(purchases)
        && tokens == old(tokens) && resets == old(resets) && courses == old(courses) && books == old(books)
    {
      if !online { return Err(Unavailable); }
      var made := NewCourseAccess(userId, courseSlug, None, None, None);
      if made.Err? { return Err(made.error); }
      var key := AccessKey(userId, courseSlug);
      if key in access { return Err(DuplicateKey(AccessIndex)); }
      access := access[key := made.value];
      return Ok(made.value);
    }

    // -------------------------------------------------------------------
    // password resets

    method CreateReset(userId: Option<UserId>, tokenHash: string, expiresAt: Millis) returns (r: Result<PasswordReset, DbError>)
      requires Valid()
      modifies this
      ensures Valid()
      ensures !old(online) ==> r == Err(Unavailable)
      ensures old(online) ==> (r.Ok? <==> NewPasswordReset(userId, tokenHash, Some(expiresAt), Some(false)).Ok?)
      ensures r.Ok? ==> r == NewPasswordReset(userId, tokenHash, Some(expiresAt), Some(false)) && resets == old(resets) + [r.value]
      ensures r.Err? ==> resets == old(resets)
      ensures users == old(users) && nextId == old(nextId) && online == old(online) && purchases == old(purchases)
        && tokens == old(tokens) && access == old(access) && courses == old(courses) && books == old(books)
    {
      if !online { return Err(Unavailable); }
      var made := NewPasswordReset(userId, tokenHash, Some(expiresAt), Some(false));
      if made.Err? { return Err(made.error); }
      resets := resets + [made.value];
      return Ok(made.value);
    }

    /** The first reset record with this hash that is unused and not yet
        expired, by its position. */
    method FindActiveReset(tokenHash: string, now: Millis) returns (r: Result<Option<nat>, DbError>)
      requires Valid()
      ensures !online ==> r == Err(Unavailable)
      ensures online ==> r == Ok(FirstActiveReset(resets, tokenHash, now))
    {
      if !online { return Err(Unavailable); }
      return Ok(FirstActiveReset(resets, tokenHash, now));
    }

    /** `resetDoc.used = true; resetDoc.save()`. */
    method MarkResetUsed(i: nat) returns (r: Result<(), DbError>)
      requires Valid()
      modifies this
      ensures Valid()
      ensures r.Ok? <==> old(online) && i < |old(resets)|
      ensures r.Ok? ==> resets == old(resets)[i := old(resets)[i].(used := true)]
      ensures r.Err? ==> resets == old(resets)
      ensures users == old(users) && nextId == old(nextId) && online == old(online) && purchases == old(purchases)
        && tokens == old(tokens) && access == old(access) && courses == old(courses) && books == old(books)
    {
      if !online { return Err(Unavailable); }
      if i >= |resets| { return Err(Invalid("_id")); }
      resets := resets[i := resets[i].(used := true)];
      return Ok(());
    }

    /** Marks every active reset record of the user as used. */
    method InvalidateResets(userId: UserId, now: Millis) returns (r: Result<(), DbError>)
      requires Valid()
      modifies this
      ensures Valid()
      ensures r.Ok? <==> old(online)
      ensures r.Ok? ==> resets == InvalidateFor(old(resets), userId, now)
      ensures r.Err? ==> resets == old(resets)
      ensures users == old(users) && nextId == old(nextId) && online == old(online) && purchases == old(purchases)
        && tokens == old(tokens) && access == old(access) && courses == old(courses) && books == old(books)
    {
      if !online { return Err(Unavailable); }
      resets := InvalidateFor(resets, userId, now);
      return Ok(());
    }
  }
}
