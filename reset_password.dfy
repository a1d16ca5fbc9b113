/** The password-reset page of both front ends: the link check when the
    page opens, the password rule applied before the request, and the
    message shown after it. The two pages differ only in how long they wait
    before sending the user to the login page. */
module ResetPage {
  import opened Wrappers
  import opened Models
  import opened Db
  import Accounts

  const WEAK_PASSWORD: string := "La contraseña debe tener al menos 8 caracteres e incluir letras y números."
  const RESET_FAILED: string := "No se pudo restablecer la contraseña."
  const RESET_DONE: string := "Contraseña actualizada correctamente."
  const LOGIN_ROUTE: string := "/login"

  /** The delays before the redirect to the login page. */
  const MAIN_REDIRECT_DELAY: nat := 1800
  const CLEAN_REDIRECT_DELAY: nat := 2000

  /** The page's rule: non-empty, at least eight characters, an ASCII letter
      and a digit. */
  predicate Acceptable(p: string)
  {
    p != "" && |p| >= 8 && Accounts.HasLetter(p) && Accounts.HasDigit(p)
  }

  /** The page's rule is the server's, so the server never answers that a
      password the page sent is weak, and every password the page refuses
      the server would refuse too. */
  lemma SameRuleAsServer(p: string)
    ensures Acceptable(p) <==> p != "" && !Accounts.Weak(p)
  {
  }

  /** The reset route's answer as the page reads it: `r.ok`, and the body's
      `error` and `message` ("" when absent). */
  datatype Answer = Answer(ok: bool, error: string, message: string)

  /** How `POST /reset-password` answers each outcome. */
  function AnswerOf(reply: Accounts.ResetReply): (r: Answer)
    ensures r.ok <==> reply == Accounts.ResetDone
    ensures r.ok ==> r.message != "" && r.error == ""
    ensures !r.ok ==> r.error != "" && r.message == ""
  {
    match reply
    case ResetMissing => Answer(false, "Falta token o password", "")
    case ResetWeak => Answer(false, WEAK_PASSWORD, "")
    case ResetInvalid => Answer(false, "Token inválido o expirado.", "")
    case ResetNoUser => Answer(false, "Usuario no encontrado.", "")
    case ResetDone => Answer(true, "", "Contraseña actualizada correctamente. Ya podés iniciar sesión.")
    case ResetError => Answer(false, "No se pudo restablecer la contraseña", "")
  }

  /** The error shown for a refused request: the body's `error`, then its
      `message`, then the default. */
  function ErrorText(a: Answer): (r: string)
    ensures r != ""
    ensures a.error != "" ==> r == a.error
    ensures a.error == "" && a.message != "" ==> r == a.message
    ensures a.error == "" && a.message == "" ==> r == RESET_FAILED
  {
    Or(Or(a.error, a.message), RESET_FAILED)
  }

  /** Against the route, the page shows the server's own words: its error
      for each refusal, its message for the success. */
  lemma ServerWordsShown(reply: Accounts.ResetReply)
    ensures reply != Accounts.ResetDone ==> ErrorText(AnswerOf(reply)) == AnswerOf(reply).error
    ensures reply == Accounts.ResetDone ==>
      Or(AnswerOf(reply).message, RESET_DONE) == "Contraseña actualizada correctamente. Ya podés iniciar sesión."
    ensures ErrorText(AnswerOf(Accounts.ResetWeak)) == WEAK_PASSWORD
  {
  }

  class Page {
    const token: string
    const redirectDelay: nat
    var checking: bool
    var valid: bool
    var submitting: bool
    var error: string
    var okMsg: string
    /** The tokens sent to the validate route. */
    var checks: seq<string>
    /** The `(token, password)` bodies posted to the reset route. */
    var posts: seq<(string, string)>
    /** The redirects scheduled: the route and the delay. */
    var redirects: seq<(string, nat)>

    /** The page as it opens with the link's `token`. */
    constructor (token: string, redirectDelay: nat)
      ensures this.token == token && this.redirectDelay == redirectDelay
      ensures checking && !valid && !submitting && error == "" && okMsg == ""
      ensures checks == [] && posts == [] && redirects == []
    {
      this.token := token;
      this.redirectDelay := redirectDelay;
      checking, valid, submitting := true, false, false;
      error, okMsg := "", "";
      checks, posts, redirects := [], [], [];
    }

    /** The check when the page opens. Without a token the link is invalid
        and nothing is asked; otherwise one validate call, whose `ok`
        (`answer`, None when the call or its JSON fails) decides. */
    method Check(answer: Option<bool>)
      modifies this
      ensures !checking
      ensures token == "" ==> !valid && checks == old(checks)
      ensures token != "" ==> checks == old(checks) + [token] && (valid <==> answer == Some(true))
      ensures submitting == old(submitting) && error == old(error) && okMsg == old(okMsg)
      ensures posts == old(posts) && redirects == old(redirects)
    {
      if token == "" {
        checking := false;
        valid := false;
        return;
      }
      checks := checks + [token];
      match answer {
        case Some(ok) => valid := ok;
        case None => valid := false;
      }
      checking := false;
    }

    /** `onSubmit` with the password `pwd`. A password outside the rule
        shows its error and posts nothing. Otherwise one post; `answer` is
        the response (None when the call or its JSON fails): a refusal shows
        `ErrorText`, a success the server's message or the default and
        schedules the login page. */
    method Submit(pwd: string, answer: Option<Answer>)
      modifies this
      ensures checking == old(checking) && valid == old(valid) && checks == old(checks)
      ensures !Acceptable(pwd) ==>
        (submitting == old(submitting) && error == WEAK_PASSWORD && okMsg == "" && posts == old(posts) && redirects == old(redirects))
      ensures Acceptable(pwd) ==> posts == old(posts) + [(token, pwd)] && !submitting
      ensures Acceptable(pwd) && answer.None? ==>
        (error == RESET_FAILED && okMsg == "" && redirects == old(redirects))
      ensures Acceptable(pwd) && answer.Some? && !answer.value.ok ==>
        (error == ErrorText(answer.value) && okMsg == "" && redirects == old(redirects))
      ensures Acceptable(pwd) && answer.Some? && answer.value.ok ==>
        (error == "" && okMsg == Or(answer.value.message, RESET_DONE)
         && redirects == old(redirects) + [(LOGIN_ROUTE, redirectDelay)])
    {
      error := "";
      okMsg := "";
      if pwd == "" || |pwd| < 8 || !Accounts.HasLetter(pwd) || !Accounts.HasDigit(pwd) {
        error := WEAK_PASSWORD;
        return;
      }
      submitting := true;
      posts := posts + [(token, pwd)];
      match answer {
        case None =>
          error := RESET_FAILED;
        case Some(a) =>
          if !a.ok {
            error := ErrorText(a);
          } else {
            okMsg := Or(a.message, RESET_DONE);
            redirects := redirects + [(LOGIN_ROUTE, redirectDelay)];
          }
      }
      submitting := false;
    }
  }

  /** Opening the page against the validate route: the form is offered
      exactly when the link's digest names an active reset record. */
  method OpenAgainstServer(store: Store, token: string, redirectDelay: nat, sha256: string -> string, now: Millis)
    returns (page: Page)
    requires store.Valid()
    ensures fresh(page) && !page.checking && page.token == token
    ensures page.valid <==> token != "" && store.online && FirstActiveReset(store.resets, sha256(token), now).Some?
    ensures token == "" ==> page.checks == []
  {
    page := new Page(token, redirectDelay);
    if token == "" {
      page.Check(None);
      return;
    }
    var ok := Accounts.ValidateReset(store, token, sha256, now);
    page.Check(Some(ok));
  }

  /** Submitting against the reset route: a refused password never reaches
      the server; one that does is never called weak, and the page shows the
      server's own error or message. */
  method SubmitAgainstServer(page: Page, store: Store, pwd: string, sha256: string -> string,
                             b: Bcrypt, salt: nat, now: Millis)
    returns (reply: Option<Accounts.ResetReply>)
    requires store.Valid()
    modifies page, store
    ensures store.Valid()
    ensures reply.None? <==> !Acceptable(pwd)
    ensures reply.None? ==> store.State() == old(store.State()) && page.error == WEAK_PASSWORD
    ensures reply.Some? ==> reply.value != Accounts.ResetWeak
    ensures reply.Some? && page.token != "" ==> reply.value != Accounts.ResetMissing
    ensures reply.Some? && reply.value != Accounts.ResetDone ==> page.error == AnswerOf(reply.value).error
    ensures reply == Some(Accounts.ResetDone) ==>
      page.okMsg == "Contraseña actualizada correctamente. Ya podés iniciar sesión."
      && page.redirects == old(page.redirects) + [(LOGIN_ROUTE, page.redirectDelay)]
  {
    if !Acceptable(pwd) {
      page.Submit(pwd, None);
      return None;
    }
    var r := Accounts.ResetPassword(store, page.token, pwd, sha256, b, salt, now);
    page.Submit(pwd, Some(AnswerOf(r)));
    return Some(r);
  }
}
