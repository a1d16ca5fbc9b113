/** The session context of the main front end: the token kept in local
    storage under two keys, the `Authorization` header of the API client,
    and the signed-in user. */
module UserContext {
  import opened Wrappers
  import Accounts

  const AUTH_KEY: string := "auth_token"
  const LEGACY_KEY: string := "token"

  type Storage = map<string, string>

  function Item(s: Storage, key: string): string
  {
    if key in s then s[key] else ""
  }

  /** `readToken`: "auth_token", then "token", then "". */
  function ReadToken(s: Storage): (r: string)
    ensures Item(s, AUTH_KEY) != "" ==> r == Item(s, AUTH_KEY)
    ensures Item(s, AUTH_KEY) == "" ==> r == Item(s, LEGACY_KEY)
  {
    Or(Item(s, AUTH_KEY), Or(Item(s, LEGACY_KEY), ""))
  }

  /** The storage after `writeToken(t)`: both keys, unless `t` is empty. */
  function Written(s: Storage, t: string): (r: Storage)
  {
    if t == "" then s else s[AUTH_KEY := t][LEGACY_KEY := t]
  }

  /** The storage after `clearToken()`. */
  function Cleared(s: Storage): (r: Storage)
  {
    s - {AUTH_KEY, LEGACY_KEY}
  }

  /** Writing then reading gives the token back; an empty token writes
      nothing; clearing leaves no token and every other key as it was. */
  lemma TokenStorage(s: Storage, t: string)
    ensures t != "" ==> (ReadToken(Written(s, t)) == t
      && Item(Written(s, t), AUTH_KEY) == t && Item(Written(s, t), LEGACY_KEY) == t)
    ensures Written(s, "") == s
    ensures ReadToken(Cleared(s)) == ""
    ensures forall k | k in s && k != AUTH_KEY && k != LEGACY_KEY ::
      (k in Cleared(s) && Cleared(s)[k] == s[k] && k in Written(s, t) && Written(s, t)[k] == s[k])
    ensures Cleared(Written(s, t)) == Cleared(s)
  {
  }

  /** `setApiAuthHeader`: the Bearer header for a token, none
      otherwise. */
  function HeaderFor(token: string): (r: Option<string>)
    ensures r.Some? <==> token != ""
    ensures r.Some? ==> r.value == "Bearer " + token
  {
    if token != "" then Some("Bearer " + token) else None
  }

  /** The header the context installs is the one the server's
      authentication accepts as carrying the token. */
  lemma HeaderReachesServer(token: string, verify: string -> Option<Accounts.Payload>)
    requires token != "" && ' ' !in token
    ensures Accounts.Authenticate(HeaderFor(token).value, verify)
      == (if verify(token).Some? then Ok(verify(token).value) else Err(Accounts.InvalidOrExpired))
  {
    Accounts.BearerHeaderReachesVerify(token, verify);
  }

  /** The user the context holds; `name` falls back to "". */
  datatype SessionUser = SessionUser(id: string, name: string, email: string)

  /** The profile answer (`data`), "" for a missing name. */
  datatype ProfileData = ProfileData(id: string, name: string, email: string)

  function UserOf(d: ProfileData): SessionUser
  {
    SessionUser(d.id, d.name, d.email)
  }

  class Provider {
    var storage: Storage
    var authHeader: Option<string>
    var user: Option<SessionUser>
    var loading: bool

    /** The API header always matches the stored token. */
    ghost predicate Valid()
      reads this
    {
      authHeader == HeaderFor(ReadToken(storage))
    }

    /** Mounting: the header from storage, then `loadProfile`; `fetch` is the
        profile call's answer, None when it throws. */
    constructor (initial: Storage, fetch: Option<ProfileData>)
      ensures Valid() && !loading
      ensures ReadToken(initial) == "" ==> storage == initial && user.None?
      ensures ReadToken(initial) != "" && fetch.Some? ==> storage == initial && user == Some(UserOf(fetch.value))
      ensures ReadToken(initial) != "" && fetch.None? ==> storage == Cleared(initial) && user.None?
    {
      storage := initial;
      authHeader := HeaderFor(ReadToken(initial));
      user := None;
      loading := true;
      new;
      LoadProfile(fetch);
    }

    /** `loadProfile`: no token means no user; a failed profile call
        forgets the token; loading ends false either way. */
    method LoadProfile(fetch: Option<ProfileData>)
      requires Valid()
      modifies this
      ensures Valid() && !loading
      ensures ReadToken(old(storage)) == "" ==> storage == old(storage) && user.None?
      ensures ReadToken(old(storage)) != "" && fetch.Some? ==> storage == old(storage) && user == Some(UserOf(fetch.value))
      ensures ReadToken(old(storage)) != "" && fetch.None? ==> storage == Cleared(old(storage)) && user.None? && authHeader.None?
    {
      loading := true;
      var token := ReadToken(storage);
      if token == "" {
        authHeader := HeaderFor("");
        user := None;
        loading := false;
        return;
      }
      authHeader := HeaderFor(token);
      match fetch {
        case Some(d) => user := Some(UserOf(d));
        case None =>
          ClearToken();
          authHeader := HeaderFor("");
          user := None;
      }
      loading := false;
    }

    method WriteToken(t: string)
      modifies this
      ensures storage == Written(old(storage), t)
      ensures authHeader == old(authHeader) && user == old(user) && loading == old(loading)
    {
      if t == "" { return; }
      storage := storage[AUTH_KEY := t];
      storage := storage[LEGACY_KEY := t];
    }

    method ClearToken()
      modifies this
      ensures storage == Cleared(old(storage))
      ensures authHeader == old(authHeader) && user == old(user) && loading == old(loading)
    {
      storage := storage - {AUTH_KEY};
      storage := storage - {LEGACY_KEY};
      assert storage == Cleared(old(storage));
    }

    /** `login`: a given token is stored and installed; the user is set
        without asking the server. */
    method Login(token: string, id: string, name: string, email: string)
      modifies this
      ensures token != "" || old(Valid()) ==> Valid()
      ensures storage == Written(old(storage), token) && user == Some(SessionUser(id, name, email))
      ensures token != "" ==> authHeader == Some("Bearer " + token)
      ensures token == "" ==> authHeader == old(authHeader)
      ensures loading == old(loading)
    {
      if token != "" {
        WriteToken(token);
        TokenStorage(old(storage), token);
        authHeader := HeaderFor(token);
      }
      user := Some(SessionUser(id, name, email));
    }

    /** `logout`: no token, no header, no user. */
    method Logout()
      modifies this
      ensures Valid()
      ensures storage == Cleared(old(storage)) && authHeader.None? && user.None? && loading == old(loading)
    {
      ClearToken();
      TokenStorage(old(storage), "");
      authHeader := HeaderFor("");
      user := None;
    }

    predicate IsAuthenticated()
      reads this
    {
      user.Some?
    }

    /** The token the context exposes. */
    function Token(): string
      reads this
    {
      ReadToken(storage)
    }
  }

  /** After a login with a token and a later logout, nothing of the session
      is left: no token, no header, no user. */
  method LoginThenLogout(initial: Storage, fetch: Option<ProfileData>, token: string, id: string, name: string, email: string)
    returns (p: Provider)
    requires token != ""
    ensures fresh(p) && p.Valid()
    ensures ReadToken(p.storage) == "" && p.authHeader.None? && p.user.None?
  {
    p := new Provider(initial, fetch);
    p.Login(token, id, name, email);
    p.Logout();
    TokenStorage(p.storage, "");
  }
}
