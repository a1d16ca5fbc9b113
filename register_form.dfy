/** The sign-up form: its field checks, the body it posts, and the message
    it shows for a failed registration. */
module RegisterForm {
  import opened Wrappers
  import opened Text
  import Models
  import Accounts

  const NAME_MISSING: string := "Ingresá tu nombre"
  const NAME_SHORT: string := "Nombre muy corto"
  const EMAIL_MISSING: string := "Ingresá tu email"
  const EMAIL_INVALID: string := "Email inválido"
  const PASSWORD_MISSING: string := "Ingresá una contraseña"
  const PASSWORD_SHORT: string := "Mínimo 8 caracteres"
  const PASSWORD_MIX: string := "Debe tener letras y números"
  const SEPARATOR: string := " • "
  const REPEAT_MISSING: string := "Repetí la contraseña"
  const REPEAT_MISMATCH: string := "Las contraseñas no coinciden"

  datatype Form = Form(name: string, email: string, password: string, password2: string)

  /** The error object; None is an absent key. */
  datatype Errors = Errors(name: Option<string>, email: Option<string>, password: Option<string>, password2: Option<string>)

  predicate NoSpaceOrAt(s: string)
  {
    forall i | 0 <= i < |s| :: !IsSpace(s[i]) && s[i] != '@'
  }

  /** `/^[^\s@]+@[^\s@]+\.[^\s@]+$/`: one `@` with text on both sides and a
      `.` after it followed by more text, no space anywhere. */
  predicate StrictEmail(s: string)
  {
    exists a, d | 0 < a && a + 1 < d && d + 1 < |s| ::
      s[a] == '@' && s[d] == '.' && NoSpaceOrAt(s[..a]) && NoSpaceOrAt(s[a + 1..d]) && NoSpaceOrAt(s[d + 1..])
  }

  lemma NoSpaceOrAtEnds(t: string)
    requires NoSpaceOrAt(t) && |t| > 0
    ensures !IsSpace(t[0]) && !IsSpace(t[|t| - 1]) && NoSpace(t)
  {
  }

  /** Every address the form accepts also passes the schema's looser
      pattern. */
  lemma StrictIsLoose(s: string)
    requires StrictEmail(s)
    ensures s != "" && Models.MatchesLooseEmail(s)
  {
    var a, d :| 0 < a && a + 1 < d && d + 1 < |s| &&
      s[a] == '@' && s[d] == '.' && NoSpaceOrAt(s[..a]) && NoSpaceOrAt(s[a + 1..d]) && NoSpaceOrAt(s[d + 1..]);
    NoSpaceOrAtEnds(s[..a]);
    NoSpaceOrAtEnds(s[a + 1..d]);
    NoSpaceOrAtEnds(s[d + 1..]);
    assert s[..a][a - 1] == s[a - 1];
    assert s[d + 1..][0] == s[d + 1];
    LooseAt(s, a, d);
  }

  lemma LooseAt(s: string, a: int, d: int)
    requires 0 < a && a + 1 < d && d + 1 < |s|
    requires s[a] == '@' && s[d] == '.' && !IsSpace(s[a - 1]) && NoSpace(s[a + 1..d]) && !IsSpace(s[d + 1])
    ensures Models.MatchesLooseEmail(s)
  {
  }

  /** The e-mail as checked and as sent. */
  function CleanEmail(email: string): (r: string)
    ensures r == Models.EmailSetter(email)
  {
    TrimLowerCommute(email);
    ToLower(Trim(email))
  }

  /** The password message: "Mínimo 8 caracteres", "Debe tener letras y
      números", or both joined by " • ". */
  function PasswordError(p: string): (r: Option<string>)
    ensures p == "" ==> r == Some(PASSWORD_MISSING)
    ensures p != "" && |p| < 8 && Accounts.HasLetter(p) && Accounts.HasDigit(p) ==> r == Some(PASSWORD_SHORT)
    ensures p != "" && |p| >= 8 && !(Accounts.HasLetter(p) && Accounts.HasDigit(p)) ==> r == Some(PASSWORD_MIX)
    ensures p != "" && |p| < 8 && !(Accounts.HasLetter(p) && Accounts.HasDigit(p)) ==> r == Some(PASSWORD_SHORT + SEPARATOR + PASSWORD_MIX)
    ensures r.None? <==> p != "" && !Accounts.Weak(p)
  {
    if p == "" then Some(PASSWORD_MISSING)
    else
      var mixed := Accounts.HasLetter(p) && Accounts.HasDigit(p);
      if |p| < 8 && mixed then Some(PASSWORD_SHORT)
      else if |p| < 8 then Some(PASSWORD_SHORT + SEPARATOR + PASSWORD_MIX)
      else if !mixed then Some(PASSWORD_MIX)
      else None
  }

  /** The errors `validate` finds, field by field. */
  function ErrorsOf(f: Form): Errors
  {
    var n := Trim(f.name);
    var e := CleanEmail(f.email);
    Errors(
      if n == "" then Some(NAME_MISSING) else if |n| < 2 then Some(NAME_SHORT) else None,
      if e == "" then Some(EMAIL_MISSING) else if !StrictEmail(e) then Some(EMAIL_INVALID) else None,
      PasswordError(f.password),
      if f.password2 == "" then Some(REPEAT_MISSING) else if f.password != f.password2 then Some(REPEAT_MISMATCH) else None)
  }

  predicate NoErrors(e: Errors)
  {
    e.name.None? && e.email.None? && e.password.None? && e.password2.None?
  }

  /** `validate`: the error object built key by key, and whether it is
      empty. */
  method Validate(f: Form) returns (errors: Errors, ok: bool)
    ensures errors == ErrorsOf(f)
    ensures ok <==> NoErrors(errors)
  {
    errors := Errors(None, None, None, None);
    if Trim(f.name) == "" {
      errors := errors.(name := Some(NAME_MISSING));
    } else if |Trim(f.name)| < 2 {
      errors := errors.(name := Some(NAME_SHORT));
    }
    var cleanEmail := CleanEmail(f.email);
    if cleanEmail == "" {
      errors := errors.(email := Some(EMAIL_MISSING));
    } else if !StrictEmail(cleanEmail) {
      errors := errors.(email := Some(EMAIL_INVALID));
    }
    if f.password == "" {
      errors := errors.(password := Some(PASSWORD_MISSING));
    } else {
      if |f.password| < 8 {
        errors := errors.(password := Some(PASSWORD_SHORT));
      }
      if !Accounts.HasLetter(f.password) || !Accounts.HasDigit(f.password) {
        var prefix := if errors.password.Some? then errors.password.value + SEPARATOR else "";
        assert prefix == "" ==> prefix + PASSWORD_MIX == PASSWORD_MIX;
        errors := errors.(password := Some(prefix + PASSWORD_MIX));
      }
    }
    if f.password2 == "" {
      errors := errors.(password2 := Some(REPEAT_MISSING));
    } else if f.password != f.password2 {
      errors := errors.(password2 := Some(REPEAT_MISMATCH));
    }
    ok := errors.name.None? && errors.email.None? && errors.password.None? && errors.password2.None?;
  }

  /** What the form accepts, field by field. */
  lemma AcceptedMeans(f: Form)
    ensures NoErrors(ErrorsOf(f)) <==>
      |Trim(f.name)| >= 2 && StrictEmail(Models.EmailSetter(f.email)) && f.password != ""
      && !Accounts.Weak(f.password) && f.password2 == f.password
  {
  }

  /** The body posted to the register route. */
  function Payload(f: Form): (b: Accounts.RegisterBody)
    ensures b.name == Trim(f.name) && b.email == Models.EmailSetter(f.email) && b.password == f.password
  {
    Accounts.RegisterBody(Trim(f.name), CleanEmail(f.email), f.password)
  }

  /** A form the page accepts gets past every check the server makes before
      it looks at the store: no 400 and no 422. */
  lemma AcceptedPassesServerChecks(f: Form)
    requires NoErrors(ErrorsOf(f))
    ensures var b := Payload(f);
      b.email != "" && b.password != "" && Models.MatchesLooseEmail(Accounts.NormalizeEmail(b.email)) && !Accounts.Weak(b.password)
  {
    AcceptedMeans(f);
    StrictPassesServerChecks(f.email, f.password);
  }

  lemma StrictPassesServerChecks(email: string, password: string)
    requires StrictEmail(Models.EmailSetter(email)) && password != "" && !Accounts.Weak(password)
    ensures var e := Models.EmailSetter(email);
      e != "" && Models.MatchesLooseEmail(Accounts.NormalizeEmail(e))
  {
    var e := Models.EmailSetter(email);
    Models.EmailSetterIdempotent(email);
    var n := Accounts.NormalizeEmail(e);
    assert n == Models.EmailSetter(e);
    assert n == e;
    StrictIsLoose(e);
    assert Models.MatchesLooseEmail(e);
  }

  const ALREADY_REGISTERED: string := "Ese email ya está registrado. Probá iniciar sesión."
  const INVALID_DATA: string := "Datos inválidos. Revisá el formulario."
  const VALIDATION_FAILED: string := "Validación fallida. Revisá los campos."
  const REGISTER_FAILED: string := "Error al registrar. Intentá de nuevo en unos minutos."

  /** `/11000|duplicate/i`. */
  predicate LooksDuplicate(msg: string)
  {
    ContainsIgnoreCase(msg, "11000") || ContainsIgnoreCase(msg, "duplicate")
  }

  /** The message for a failed post. `status` is None without a response;
      `message` and `error` are the body's fields. */
  function ErrorText(status: Option<int>, message: string, error: string): (r: string)
    ensures status == Some(409) || LooksDuplicate(Or(message, error)) ==> r == ALREADY_REGISTERED
    ensures status == Some(400) && !LooksDuplicate(Or(message, error)) ==> r == Or(Or(message, error), INVALID_DATA)
    ensures status == Some(422) && !LooksDuplicate(Or(message, error)) ==> r == Or(Or(message, error), VALIDATION_FAILED)
    ensures status != Some(409) && status != Some(400) && status != Some(422) && !LooksDuplicate(Or(message, error)) ==>
      r == Or(Or(message, error), REGISTER_FAILED)
    ensures message == "" && error == "" && status.None? ==> r == REGISTER_FAILED
    ensures r != ""
  {
    var serverMsg := Or(message, error);
    if status == Some(409) || LooksDuplicate(serverMsg) then ALREADY_REGISTERED
    else if status == Some(400) then Or(serverMsg, INVALID_DATA)
    else if status == Some(422) then Or(serverMsg, VALIDATION_FAILED)
    else Or(serverMsg, REGISTER_FAILED)
  }

  /** The status the register route answers with, None for a success. */
  function StatusOf(reply: Accounts.RegisterReply): Option<int>
  {
    match reply
    case RegisterMissing => Some(400)
    case RegisterBadEmail => Some(400)
    case RegisterWeak => Some(422)
    case RegisterTaken => Some(409)
    case Registered(_, _) => None
    case RegisterError => Some(500)
  }

  /** The route's "e-mail taken" answer is shown as "already registered",
      whatever its text. */
  lemma TakenShownAsRegistered(message: string, error: string)
    ensures ErrorText(StatusOf(Accounts.RegisterTaken), message, error) == ALREADY_REGISTERED
  {
  }
}
