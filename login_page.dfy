/** The login page: where it sends the visitor after signing in, what it
    stores, the error it shows, and the forgot-password request. */
module LoginPage {
  import opened Wrappers
  import opened Text
  import opened UserContext

  /** `location.state.from`: a string, a `{pathname, search}` object
      ("" for missing fields), or nothing usable. */
  datatype From = FromString(s: string) | FromObject(pathname: string, search: string) | NoFrom

  /** The text handed to `new URL`. */
  function FromText(f: From): (r: string)
    ensures f.FromString? ==> r == f.s
    ensures f.FromObject? ==> r == Or(f.pathname, "/") + f.search
    ensures f.NoFrom? ==> r == "/"
  {
    match f
    case FromString(s) => s
    case FromObject(p, q) => Or(p, "/") + q
    case NoFrom => "/"
  }

  /** A parsed URL: its path and its query pairs in order. */
  datatype Location = Location(pathname: string, params: seq<(string, string)>)

  /** `searchParams.delete(key)`: every pair with that key removed, the
      others kept in order. */
  function Delete(ps: seq<(string, string)>, key: string): (r: seq<(string, string)>)
    ensures |r| <= |ps|
    ensures forall i | 0 <= i < |r| :: r[i].0 != key && r[i] in ps
    ensures forall p | p in ps && p.0 != key :: p in r
  {
    if |ps| == 0 then []
    else if ps[0].0 == key then Delete(ps[1..], key)
    else [ps[0]] + Delete(ps[1..], key)
  }

  /** Deleting a key nobody has changes nothing. */
  lemma {:induction false} DeleteAbsent(ps: seq<(string, string)>, key: string)
    requires forall i | 0 <= i < |ps| :: ps[i].0 != key
    ensures Delete(ps, key) == ps
  {
    if |ps| > 0 {
      DeleteAbsent(ps[1..], key);
    }
  }

  /** The pairs written back as `k=v` joined by `&`. */
  function Query(ps: seq<(string, string)>): string
  {
    if |ps| == 0 then ""
    else if |ps| == 1 then ps[0].0 + "=" + ps[0].1
    else ps[0].0 + "=" + ps[0].1 + "&" + Query(ps[1..])
  }

  /** `url.search`: "" without pairs, else "?" and the pairs. */
  function Search(ps: seq<(string, string)>): (r: string)
    ensures |ps| == 0 <==> r == ""
  {
    if |ps| == 0 then "" else "?" + Query(ps)
  }

  /** `safeDestAfterLogin`; `parse` is `new URL(_, origin)`, None where it
      throws. */
  function SafeDest(from: From, parse: string -> Option<Location>): (r: string)
    ensures r != ""
    ensures parse(FromText(from)).None? ==> r == "/"
    ensures parse(FromText(from)).Some? ==>
      var u := parse(FromText(from)).value;
      r == Or(u.pathname + Search(Delete(u.params, "buy")), "/")
  {
    match parse(FromText(from))
    case None => "/"
    case Some(u) => Or(u.pathname + Search(Delete(u.params, "buy")), "/")
  }

  /** The destination never carries `buy`, and keeps every other pair of
      the origin. */
  lemma SafeDestDropsBuy(from: From, parse: string -> Option<Location>)
    requires parse(FromText(from)).Some?
    requires parse(FromText(from)).value.pathname != ""
    ensures var u := parse(FromText(from)).value;
      var kept := Delete(u.params, "buy");
      SafeDest(from, parse) == u.pathname + Search(kept)
      && (forall i | 0 <= i < |kept| :: kept[i].0 != "buy")
      && (forall p | p in u.params && p.0 != "buy" :: p in kept)
  {
  }

  const LOGIN_FAILED: string := "Login fallido. Verificá tus credenciales."
  const FORGOT_NEEDS_EMAIL: string := "Ingresá tu email para recuperar la contraseña."
  const FORGOT_SENT: string := "Si el email está registrado, te enviamos instrucciones para resetear la contraseña."
  const FORGOT_FAILED: string := "No pudimos procesar la solicitud. Probá más tarde."

  /** The login answer: the token and the user's fields ("" when
      missing). */
  datatype LoginData = LoginData(token: string, id: string, name: string, email: string)

  /** A failed call: the response's `message` and `error` ("" when
      missing). */
  datatype Failure = Failure(message: string, error: string)

  /** The page's own state. `requests` lists the e-mails of the
      forgot-password requests it sent. */
  class Page {
    var errMsg: string
    var loading: bool
    var navigations: seq<string>
    var fpMsg: string
    var fpLoading: bool
    var requests: seq<string>

    constructor ()
      ensures errMsg == "" && !loading && navigations == [] && fpMsg == "" && !fpLoading && requests == []
    {
      errMsg := "";
      loading := false;
      navigations := [];
      fpMsg := "";
      fpLoading := false;
      requests := [];
    }

    /** `handleSubmit` after the login call answered: on success the token
        goes under both keys, the context gets the user and the page leaves
        for `SafeDest` of where the visitor came from; on failure the
        server's message, its error or the default is shown. */
    method HandleSubmit(ctx: Provider, answer: Result<LoginData, Failure>, from: From, parse: string -> Option<Location>)
      requires ctx.Valid()
      modifies this, ctx
      ensures ctx.Valid() && !loading
      ensures fpMsg == old(fpMsg) && fpLoading == old(fpLoading) && requests == old(requests)
      ensures answer.Ok? ==> (errMsg == "" && navigations == old(navigations) + [SafeDest(from, parse)]
        && ctx.storage == Written(old(ctx.storage), answer.value.token)
        && ctx.user == Some(SessionUser(answer.value.id, answer.value.name, answer.value.email)))
      ensures answer.Ok? && answer.value.token != "" ==> ctx.Token() == answer.value.token
      ensures answer.Err? ==> (errMsg == Or(Or(answer.error.message, answer.error.error), LOGIN_FAILED)
        && navigations == old(navigations)
        && ctx.storage == old(ctx.storage) && ctx.user == old(ctx.user) && ctx.authHeader == old(ctx.authHeader))
    {
      errMsg := "";
      loading := true;
      match answer {
        case Ok(d) =>
          ghost var before := ctx.storage;
          if d.token != "" {
            ctx.WriteToken(d.token);
          }
          ctx.Login(d.token, d.id, d.name, d.email);
          TokenStorage(before, d.token);
          assert Written(Written(before, d.token), d.token) == Written(before, d.token);
          navigations := navigations + [SafeDest(from, parse)];
        case Err(f) =>
          errMsg := Or(Or(f.message, f.error), LOGIN_FAILED);
      }
      loading := false;
    }

    /** `handleForgot`: an e-mail that is blank after trimming shows a hint
        and sends nothing; otherwise one request is sent and its message, or
        the default, is shown. */
    method HandleForgot(fpEmail: string, answer: Result<string, Failure>)
      modifies this
      ensures errMsg == old(errMsg) && loading == old(loading) && navigations == old(navigations)
      ensures Trim(fpEmail) == "" ==> fpMsg == FORGOT_NEEDS_EMAIL && requests == old(requests) && fpLoading == old(fpLoading)
      ensures Trim(fpEmail) != "" ==> requests == old(requests) + [fpEmail] && !fpLoading
      ensures Trim(fpEmail) != "" && answer.Ok? ==> fpMsg == Or(answer.value, FORGOT_SENT)
      ensures Trim(fpEmail) != "" && answer.Err? ==> fpMsg == Or(Or(answer.error.message, answer.error.error), FORGOT_FAILED)
    {
      fpMsg := "";
      if Trim(fpEmail) == "" {
        fpMsg := FORGOT_NEEDS_EMAIL;
        return;
      }
      fpLoading := true;
      requests := requests + [fpEmail];
      match answer {
        case Ok(message) => fpMsg := Or(message, FORGOT_SENT);
        case Err(f) => fpMsg := Or(Or(f.message, f.error), FORGOT_FAILED);
      }
      fpLoading := false;
    }
  }
}
