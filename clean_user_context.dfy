/** The session context of the second front end: the same two storage
    keys as the main one, without an API header of its own. */
module CleanUserContext {
  import opened Wrappers
  import opened UserContext

  class CleanProvider {
    var storage: Storage
    var user: Option<SessionUser>
    var loading: bool

    /** Mounting runs `loadProfile`. */
    constructor (initial: Storage, fetch: Option<ProfileData>)
      ensures !loading
      ensures ReadToken(initial) == "" ==> storage == initial && user.None?
      ensures ReadToken(initial) != "" && fetch.Some? ==> storage == initial && user == Some(UserOf(fetch.value))
      ensures ReadToken(initial) != "" && fetch.None? ==> storage == Cleared(initial) && user.None?
    {
      storage := initial;
      user := None;
      loading := true;
      new;
      LoadProfile(fetch);
    }

    /** `loadProfile`: no token, no user; a failed call (`fetch` None)
        forgets the token; loading ends false. */
    method LoadProfile(fetch: Option<ProfileData>)
      modifies this
      ensures !loading
      ensures ReadToken(old(storage)) == "" ==> storage == old(storage) && user.None?
      ensures ReadToken(old(storage)) != "" && fetch.Some? ==> storage == old(storage) && user == Some(UserOf(fetch.value))
      ensures ReadToken(old(storage)) != "" && fetch.None? ==> storage == Cleared(old(storage)) && user.None?
    {
      loading := true;
      var token := ReadToken(storage);
      if token == "" {
        user := None;
        loading := false;
        return;
      }
      match fetch {
        case Some(d) => user := Some(UserOf(d));
        case None =>
          storage := storage - {AUTH_KEY};
          storage := storage - {LEGACY_KEY};
          assert storage == Cleared(old(storage));
          user := None;
      }
      loading := false;
    }

    /** `login`: stores a given token and sets the user without a profile
        call. */
    method Login(token: string, id: string, name: string, email: string)
      modifies this
      ensures storage == Written(old(storage), token) && user == Some(SessionUser(id, name, email))
      ensures loading == old(loading)
    {
      if token != "" {
        storage := storage[AUTH_KEY := token];
        storage := storage[LEGACY_KEY := token];
      }
      user := Some(SessionUser(id, name, email));
    }

    /** `logout`: no token and no user. */
    method Logout()
      modifies this
      ensures storage == Cleared(old(storage)) && user.None? && loading == old(loading)
    {
      storage := storage - {AUTH_KEY};
      storage := storage - {LEGACY_KEY};
      assert storage == Cleared(old(storage));
      user := None;
    }
  }

  /** On the same storage, the same profile answer and the same calls
      (mounting, `login`, `logout`), the two contexts pass through the same
      storage and the same user: signed in as the given user after `login`,
      signed out with no token after `logout`. */
  method SameSessionAsMain(initial: Storage, fetch: Option<ProfileData>, token: string, id: string, name: string, email: string)
    returns (main: seq<(Storage, Option<SessionUser>)>, clean: seq<(Storage, Option<SessionUser>)>)
    ensures main == clean && |main| == 3
    ensures main[1] == (Written(main[0].0, token), Some(SessionUser(id, name, email)))
    ensures main[2].1.None? && ReadToken(main[2].0) == ""
  {
    var a := new Provider(initial, fetch);
    var b := new CleanProvider(initial, fetch);
    main, clean := [(a.storage, a.user)], [(b.storage, b.user)];
    a.Login(token, id, name, email);
    b.Login(token, id, name, email);
    main, clean := main + [(a.storage, a.user)], clean + [(b.storage, b.user)];
    a.Logout();
    b.Logout();
    main, clean := main + [(a.storage, a.user)], clean + [(b.storage, b.user)];
  }
}
