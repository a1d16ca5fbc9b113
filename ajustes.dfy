/** The settings page of the main front end: the profile it loads and
    saves, and the password change with its two checks before any request
    is sent. */
module Ajustes {
  import opened Wrappers
  import opened Text
  import opened Models
  import opened UserContext
  import AuthController

  datatype Message = Message(kind: string, text: string)

  const NO_MESSAGE: Message := Message("", "")
  const PROFILE_LOAD_FAILED: string := "No se pudo obtener el perfil."
  const PROFILE_SAVED: string := "Perfil actualizado correctamente."
  const PROFILE_SAVE_FAILED: string := "No se pudo actualizar el perfil."
  const PASSWORD_TOO_SHORT: string := "La nueva contraseña debe tener al menos 8 caracteres."
  const PASSWORD_MISMATCH: string := "Las contraseñas no coinciden."
  const PASSWORD_SAVED: string := "Contraseña actualizada."
  const PASSWORD_SAVE_FAILED: string := "No se pudo actualizar la contraseña."

  /** The token the page reads once on mount: "auth_token", then "token",
      then "" — the one the session context reads. */
  function PageToken(s: Storage): (r: string)
    ensures r == ReadToken(s)
    ensures r != "" <==> Item(s, AUTH_KEY) != "" || Item(s, LEGACY_KEY) != ""
  {
    Or(Or(Item(s, AUTH_KEY), Item(s, LEGACY_KEY)), "")
  }

  /** The requests the page sends, each with the header built from the
      page's token. A profile save records the form's name and e-mail; its
      body is `ProfileBody` of them. */
  datatype Request =
    | GetProfile(header: Option<string>)
    | PatchProfile(header: Option<string>, name: string, email: string)
    | PatchPassword(header: Option<string>, current: string, next: string)

  /** The body of the profile save: the name trimmed, the e-mail trimmed and
      lower-cased. */
  function ProfileBody(name: string, email: string): (string, string)
  {
    (Trim(name), ToLower(Trim(email)))
  }

  /** What the page sends is already in the form the user schema stores:
      saving it again sends the same body, and the server's update yields
      the same profile from it as from the raw fields. */
  lemma ProfileBodyIsStoredForm(u: User, name: string, email: string)
    ensures var b := ProfileBody(name, email);
      Trim(b.0) == b.0 && EmailSetter(b.1) == b.1
      && b.1 == EmailSetter(email)
      && ProfileBody(b.0, b.1) == b
      && AuthController.ProfileAfterUpdate(u, Some(b.0), Some(b.1))
         == AuthController.ProfileAfterUpdate(u, Some(name), Some(email))
  {
    TrimLowerCommute(email);
    EmailSetterIdempotent(email);
    TrimIdempotent(name);
    TrimLowerCommute(EmailSetter(email));
    ToLowerIdempotent(Trim(email));
  }

  /** The error `onSavePassword` shows before sending anything, None when
      the request goes out: an empty or short new password first, then a
      mismatch with the repetition. */
  function PasswordCheck(next: string, repeat: string): (r: Option<string>)
    ensures r == Some(PASSWORD_TOO_SHORT) <==> next == "" || |next| < 8
    ensures r == Some(PASSWORD_MISMATCH) <==> |next| >= 8 && next != repeat
    ensures r.None? <==> |next| >= 8 && next == repeat
  {
    if next == "" || |next| < 8 then Some(PASSWORD_TOO_SHORT)
    else if next != repeat then Some(PASSWORD_MISMATCH)
    else None
  }

  /** A new password the page lets through is never one the server's
      `changePassword` calls too short or missing. */
  lemma SentPasswordPassesLengthCheck(next: string, repeat: string)
    requires PasswordCheck(next, repeat).None?
    ensures next != "" && !(|next| < 8)
  {
  }

  /** A failed call: the response's `message` and `error` ("" when
      missing, and both "" when no response came back). */
  datatype Failure = Failure(message: string, error: string)

  /** The profile save as written: the context of the main front end has no
      `setUser`, so the call to it after a successful request throws, the
      handler's `catch` finds no response on that error, and the page
      reports a failure with the user unchanged. `answer` is the request's
      outcome: the saved user's name and e-mail ("" when missing), or the
      failure. */
  function ProfileOutcomeAsWritten(prev: Option<SessionUser>, answer: Result<(string, string), Failure>):
    (r: (Option<SessionUser>, Message))
    ensures r.0 == prev && r.1.kind == "error"
    ensures answer.Ok? ==> r.1.text == PROFILE_SAVE_FAILED
  {
    match answer
    case Ok(_) => (prev, Message("error", PROFILE_SAVE_FAILED))
    case Err(f) => (prev, Message("error", Or(f.message, PROFILE_SAVE_FAILED)))
  }

  /** The profile save as intended: the user takes the saved name and
      e-mail (keeping its id, "" when there was no user) and the page
      confirms; a failure shows the server's message or the default. */
  function ProfileOutcome(prev: Option<SessionUser>, answer: Result<(string, string), Failure>):
    (r: (Option<SessionUser>, Message))
    ensures answer.Ok? ==> (r.1 == Message("ok", PROFILE_SAVED) && r.0.Some?
      && r.0.value.name == answer.value.0 && r.0.value.email == answer.value.1
      && r.0.value.id == (if prev.Some? then prev.value.id else ""))
    ensures answer.Err? ==> r.0 == prev && r.1 == Message("error", Or(answer.error.message, PROFILE_SAVE_FAILED))
  {
    match answer
    case Ok((n, e)) =>
      var base := if prev.Some? then prev.value else SessionUser("", "", "");
      (Some(base.(name := n, email := e)), Message("ok", PROFILE_SAVED))
    case Err(f) => (prev, Message("error", Or(f.message, PROFILE_SAVE_FAILED)))
  }

  /** The two agree on every failed request; on every successful one the
      page as written tells the user the save failed and keeps the old
      profile, where the intended page confirms it. */
  lemma ProfileSaveReportsFailure(prev: Option<SessionUser>, answer: Result<(string, string), Failure>)
    ensures answer.Err? ==> ProfileOutcomeAsWritten(prev, answer) == ProfileOutcome(prev, answer)
    ensures answer.Ok? ==> (ProfileOutcomeAsWritten(prev, answer).1 == Message("error", PROFILE_SAVE_FAILED)
      && ProfileOutcome(prev, answer).1 == Message("ok", PROFILE_SAVED))
  {
  }

  /** Example only: one concrete save that shows the discrepancy. The
      all-inputs statement is `ProfileSaveReportsFailure`. */
  lemma ProfileSaveExample()
    ensures var prev := Some(SessionUser("u1", "Ana", "ana@x.com"));
      var answer: Result<(string, string), Failure> := Ok(("Ana María", "ana@x.com"));
      ProfileOutcomeAsWritten(prev, answer) == (prev, Message("error", PROFILE_SAVE_FAILED))
      && ProfileOutcome(prev, answer) == (Some(SessionUser("u1", "Ana María", "ana@x.com")), Message("ok", PROFILE_SAVED))
  {
  }

  class Settings {
    const token: string
    var name: string
    var email: string
    var currentPassword: string
    var newPassword: string
    var repeatPassword: string
    var loading: bool
    var savingProfile: bool
    var savingPass: bool
    var msg: Message
    var user: Option<SessionUser>
    var requests: seq<Request>

    /** The page as it mounts: the token read once from storage, empty
        fields, `user` the context's. */
    constructor (storage: Storage, user: Option<SessionUser>)
      ensures token == PageToken(storage) && this.user == user
      ensures name == "" && email == "" && currentPassword == "" && newPassword == "" && repeatPassword == ""
      ensures loading && !savingProfile && !savingPass && msg == NO_MESSAGE && requests == []
    {
      token := PageToken(storage);
      this.user := user;
      name, email := "", "";
      currentPassword, newPassword, repeatPassword := "", "", "";
      loading, savingProfile, savingPass := true, false, false;
      msg := NO_MESSAGE;
      requests := [];
    }

    /** `load`: one profile request; its name and e-mail fill the form,
        a failure shows the loading error; loading ends. */
    method Load(answer: Option<(string, string)>)
      modifies this
      ensures requests == old(requests) + [GetProfile(HeaderFor(token))] && !loading
      ensures answer.Some? ==> name == answer.value.0 && email == answer.value.1 && msg == old(msg)
      ensures answer.None? ==> name == old(name) && email == old(email) && msg == Message("error", PROFILE_LOAD_FAILED)
      ensures currentPassword == old(currentPassword) && newPassword == old(newPassword) && repeatPassword == old(repeatPassword)
      ensures savingProfile == old(savingProfile) && savingPass == old(savingPass) && user == old(user)
    {
      requests := requests + [GetProfile(HeaderFor(token))];
      match answer {
        case Some((n, e)) =>
          name := n;
          email := e;
        case None =>
          msg := Message("error", PROFILE_LOAD_FAILED);
      }
      loading := false;
    }

    /** `onSaveProfile` as written: one request for the current fields
        (sent as `ProfileBody` of them); the user and the message as
        `ProfileOutcomeAsWritten` says (`ProfileOutcome` is the intended
        context update). */
    method OnSaveProfile(answer: Result<(string, string), Failure>)
      modifies this
      ensures name == old(name) && email == old(email) && loading == old(loading) && savingPass == old(savingPass)
      ensures requests == old(requests) + [PatchProfile(HeaderFor(token), name, email)]
      ensures user == ProfileOutcomeAsWritten(old(user), answer).0 && msg == ProfileOutcomeAsWritten(old(user), answer).1
      ensures !savingProfile && currentPassword == old(currentPassword) && newPassword == old(newPassword) && repeatPassword == old(repeatPassword)
    {
      savingProfile := true;
      msg := NO_MESSAGE;
      requests := requests + [PatchProfile(HeaderFor(token), name, email)];
      var outcome := ProfileOutcomeAsWritten(user, answer);
      user, msg := outcome.0, outcome.1;
      savingProfile := false;
    }

    /** `onSavePassword`: a short or mismatched new password shows its error
        and sends nothing; otherwise one request goes out, a success clears
        the three fields and confirms, a failure shows the server's message,
        its error or the default. */
    method OnSavePassword(answer: Result<(), Failure>)
      modifies this
      ensures name == old(name) && email == old(email) && user == old(user)
      ensures loading == old(loading) && savingProfile == old(savingProfile)
      ensures PasswordCheck(old(newPassword), old(repeatPassword)).Some? ==>
        (msg == Message("error", PasswordCheck(old(newPassword), old(repeatPassword)).value)
         && requests == old(requests) && savingPass == old(savingPass)
         && currentPassword == old(currentPassword) && newPassword == old(newPassword) && repeatPassword == old(repeatPassword))
      ensures PasswordCheck(old(newPassword), old(repeatPassword)).None? ==>
        requests == old(requests) + [PatchPassword(HeaderFor(token), old(currentPassword), old(newPassword))] && !savingPass
      ensures PasswordCheck(old(newPassword), old(repeatPassword)).None? && answer.Ok? ==>
        (msg == Message("ok", PASSWORD_SAVED) && currentPassword == "" && newPassword == "" && repeatPassword == "")
      ensures PasswordCheck(old(newPassword), old(repeatPassword)).None? && answer.Err? ==>
        (msg == Message("error", Or(Or(answer.error.message, answer.error.error), PASSWORD_SAVE_FAILED))
         && currentPassword == old(currentPassword) && newPassword == old(newPassword) && repeatPassword == old(repeatPassword))
    {
      msg := NO_MESSAGE;
      if newPassword == "" || |newPassword| < 8 {
        msg := Message("error", PASSWORD_TOO_SHORT);
        return;
      }
      if newPassword != repeatPassword {
        msg := Message("error", PASSWORD_MISMATCH);
        return;
      }
      savingPass := true;
      requests := requests + [PatchPassword(HeaderFor(token), currentPassword, newPassword)];
      match answer {
        case Ok(_) =>
          currentPassword := "";
          newPassword := "";
          repeatPassword := "";
          msg := Message("ok", PASSWORD_SAVED);
        case Err(f) =>
          msg := Message("error", Or(Or(f.message, f.error), PASSWORD_SAVE_FAILED));
      }
      savingPass := false;
    }
  }
}
