/** The mail module of the back end: the environment it reads at every send,
    the plain-text rendering of an HTML body, the choice between the Resend
    API and SMTP, and the three messages the application sends. The HTML
    templates and the two transports are parameters. */
module Mailer {
  import opened Wrappers
  import opened Text

  // ---------------------------------------------------------------------
  // Environment

  datatype Env = Env(
    resendKey: string,
    fromEmail: string,
    logoUrl: string,
    smtpHost: string,
    smtpPort: Num,
    smtpUser: string,
    smtpPass: string)

  const DEFAULT_FROM: string := "SINEW <no-reply@sineworg.com>"
  const DEFAULT_LOGO: string := "https://sineworg.com/logo.png"
  const DEFAULT_SMTP_PORT: real := 587.0

  /** A process variable; an unset one reads as "". */
  function Var(vars: map<string, string>, name: string): string
  {
    if name in vars then vars[name] else ""
  }

  /** The settings as read at send time: an unset or empty variable takes its
      default. `number` is JavaScript's `Number` on a string. */
  function ReadEnv(vars: map<string, string>, number: string -> Num): (e: Env)
    ensures e.fromEmail != "" && e.logoUrl != ""
    ensures e.resendKey == Var(vars, "RESEND_API_KEY")
    ensures e.smtpHost == Var(vars, "SMTP_HOST") && e.smtpUser == Var(vars, "SMTP_USER") && e.smtpPass == Var(vars, "SMTP_PASS")
    ensures Var(vars, "MAIL_FROM") != "" ==> e.fromEmail == Var(vars, "MAIL_FROM")
    ensures Var(vars, "MAIL_FROM") == "" ==> e.fromEmail == DEFAULT_FROM
    ensures Var(vars, "MAIL_LOGO_URL") != "" ==> e.logoUrl == Var(vars, "MAIL_LOGO_URL")
    ensures Var(vars, "MAIL_LOGO_URL") == "" ==> e.logoUrl == DEFAULT_LOGO
    ensures Var(vars, "SMTP_PORT") == "" ==> e.smtpPort == Finite(DEFAULT_SMTP_PORT)
    ensures Var(vars, "SMTP_PORT") != "" ==> e.smtpPort == number(Var(vars, "SMTP_PORT"))
  {
    var port := Var(vars, "SMTP_PORT");
    Env(
      Var(vars, "RESEND_API_KEY"),
      Or(Var(vars, "MAIL_FROM"), DEFAULT_FROM),
      Or(Var(vars, "MAIL_LOGO_URL"), DEFAULT_LOGO),
      Var(vars, "SMTP_HOST"),
      if port == "" then Finite(DEFAULT_SMTP_PORT) else number(port),
      Var(vars, "SMTP_USER"),
      Var(vars, "SMTP_PASS"))
  }

  const ELLIPSIS: char := '\U{2026}'

  /** The form in which a secret appears in the logs. */
  function Mask(s: string): (r: string)
    ensures r == "" <==> s == ""
    ensures |r| <= 8
    ensures s != "" ==> ELLIPSIS in r && r[0] == s[0] && r[|r| - 1] == s[|s| - 1]
    ensures 0 < |s| <= 8 ==> r == [s[0], ELLIPSIS, s[|s| - 1]]
    ensures |s| > 8 ==> |r| == 8 && r[..4] == s[..4] && r[4] == ELLIPSIS && r[5..] == s[|s| - 3..]
  {
    if s == "" then ""
    else if |s| <= 8 then [s[0], ELLIPSIS, s[|s| - 1]]
    else s[..4] + [ELLIPSIS] + s[|s| - 3..]
  }

  /** A masked secret longer than eight characters never shows its middle:
      at most its first four and last three characters appear. */
  lemma MaskHidesMiddle(s: string)
    requires |s| > 8
    ensures |Mask(s)| == 8 && Mask(s) != s
  {
  }

  // ---------------------------------------------------------------------
  // The plain-text part of a message

  /** The first position from which `s` continues with `pat`, ignoring ASCII
      case. */
  function FindIgnoreCase(s: string, pat: string): (r: Option<nat>)
    ensures r.Some? ==> r.value + |pat| <= |s| && StartsWithIgnoreCase(s[r.value..], pat)
    ensures r.Some? ==> forall k | 0 <= k < r.value :: !StartsWithIgnoreCase(s[k..], pat)
    ensures r.None? <==> forall k | 0 <= k <= |s| :: !StartsWithIgnoreCase(s[k..], pat)
    decreases |s|
  {
    if StartsWithIgnoreCase(s, pat) then Some(0)
    else if |s| == 0 then None
    else
      var rest := FindIgnoreCase(s[1..], pat);
      assert forall k | 1 <= k <= |s| :: s[k..] == s[1..][k - 1..];
      match rest
      case None => None
      case Some(k) => Some(k + 1)
  }

  /** No `</style>` appears in `s`, in any letter case. */
  predicate NoStyleEnd(s: string)
  {
    forall k | 0 <= k <= |s| :: !StartsWithIgnoreCase(s[k..], "</style>")
  }

  /** `replace(/<style[\s\S]*?<\/style>/gi, '')`: scanning from the left,
      every `<style` followed somewhere by `</style>` is removed up to the
      first such end; the scan resumes after the removed block. */
  function StripStyleBlocks(s: string): (r: string)
    ensures |r| <= |s|
    decreases |s|
  {
    if |s| == 0 then ""
    else if StartsWithIgnoreCase(s, "<style") then
      match FindIgnoreCase(s[6..], "</style>")
      case Some(k) => StripStyleBlocks(s[6 + k + 8..])
      case None => [s[0]] + StripStyleBlocks(s[1..])
    else [s[0]] + StripStyleBlocks(s[1..])
  }

  /** Whether a match of `<[^>]+>` starts at position `i`. */
  predicate TagAt(s: string, i: nat)
  {
    i + 1 < |s| && s[i] == '<' && s[i + 1] != '>' && '>' in s[i + 1..]
  }

  predicate NoTag(s: string)
  {
    forall i | 0 <= i < |s| :: !TagAt(s, i)
  }

  lemma ConsNoTag(x: char, t: string)
    requires NoTag(t) && !TagAt([x] + t, 0)
    ensures NoTag([x] + t)
  {
    var s := [x] + t;
    forall i | 1 <= i < |s| ensures !TagAt(s, i) {
      assert s[i + 1..] == t[i..];
      assert s[i] == t[i - 1];
      assert !TagAt(t, i - 1);
    }
  }

  lemma SliceNoTag(s: string, i: nat, j: nat)
    requires i <= j <= |s| && NoTag(s)
    ensures NoTag(s[i..j])
  {
    var t := s[i..j];
    forall m | 0 <= m < |t| ensures !TagAt(t, m) {
      assert !TagAt(s, i + m);
      if m + 1 < |t| && t[m] == '<' && t[m + 1] != '>' {
        assert t[m + 1..] == s[i + m + 1..j];
        assert s[i + m + 1..] == s[i + m + 1..j] + s[j..];
      }
    }
  }

  /** `replace(/<[^>]+>/g, ' ')`: every tag becomes one space. */
  function ReplaceTags(s: string): (r: string)
    ensures NoTag(r)
    ensures forall c | c in r && c != ' ' :: c in s
    ensures |s| > 0 && s[0] != '<' ==> |r| > 0 && r[0] == s[0]
    decreases |s|
  {
    if |s| == 0 then ""
    else if TagAt(s, 0) then
      // The tag runs up to the first '>' after its '<'.
      var k := IndexOf(s[1..], '>');
      var t := ReplaceTags(s[k + 2..]);
      ConsNoTag(' ', t);
      [' '] + t
    else
      var t := ReplaceTags(s[1..]);
      assert forall c | c in t && c != ' ' :: c in s by {
        forall c | c in t && c != ' ' ensures c in s {
          assert c in s[1..];
        }
      }
      ConsNoTag(s[0], t);
      [s[0]] + t
  }

  /** Every run of white space is a single plain space. */
  predicate Collapsed(s: string)
  {
    forall i | 0 <= i < |s| :: IsSpace(s[i]) ==> s[i] == ' ' && (i + 1 < |s| ==> !IsSpace(s[i + 1]))
  }

  /** `replace(/\s+/g, ' ')`. */
  function CollapseSpaces(s: string): (r: string)
    ensures Collapsed(r)
    ensures |r| > 0 <==> |s| > 0
    ensures |s| > 0 ==> (IsSpace(r[0]) <==> IsSpace(s[0]))
    ensures |s| > 0 && !IsSpace(s[0]) ==> r[0] == s[0]
    ensures forall c | c in r && c != ' ' :: c in s
    decreases |s|
  {
    if |s| == 0 then ""
    else if IsSpace(s[0]) then
      var k := LeadingSpaces(s);
      var t := CollapseSpaces(s[k..]);
      assert forall c | c in t && c != ' ' :: c in s by {
        forall c | c in t && c != ' ' ensures c in s {
          assert c in s[k..];
        }
      }
      [' '] + t
    else
      var t := CollapseSpaces(s[1..]);
      assert forall c | c in t && c != ' ' :: c in s by {
        forall c | c in t && c != ' ' ensures c in s {
          assert c in s[1..];
        }
      }
      [s[0]] + t
  }

  lemma {:induction false} CollapseKeepsNoTag(s: string)
    requires NoTag(s)
    ensures NoTag(CollapseSpaces(s))
    decreases |s|
  {
    if |s| > 0 {
      var k := if IsSpace(s[0]) then LeadingSpaces(s) else 1;
      SliceNoTag(s, k, |s|);
      assert s[k..|s|] == s[k..];
      CollapseKeepsNoTag(s[k..]);
      var t := CollapseSpaces(s[k..]);
      if IsSpace(s[0]) {
        ConsNoTag(' ', t);
      } else {
        assert CollapseSpaces(s) == [s[0]] + t;
        if |s| > 1 && s[0] == '<' && s[1] != '>' {
          assert '>' !in s[1..] by { assert !TagAt(s, 0); }
          assert '>' !in t;
        }
        ConsNoTag(s[0], t);
      }
    }
  }

  /** `toText(html)`: the text part sent beside the HTML body. */
  function ToText(html: string): (r: string)
    ensures NoTag(r) && Collapsed(r)
    ensures r == [] || (!IsSpace(r[0]) && !IsSpace(r[|r| - 1]))
  {
    var c := CollapseSpaces(ReplaceTags(StripStyleBlocks(html)));
    CollapseKeepsNoTag(ReplaceTags(StripStyleBlocks(html)));
    var r := Trim(c);
    TrimSliceKeeps(c);
    r
  }

  /** The trimmed string is a slice, so it keeps both shapes. */
  lemma TrimSliceKeeps(s: string)
    requires NoTag(s) && Collapsed(s)
    ensures NoTag(Trim(s)) && Collapsed(Trim(s))
  {
    var i, j := LeadingSpaces(s), TrailingStart(s);
    if i < |s| {
      assert Trim(s) == s[i..j];
      SliceNoTag(s, i, j);
      CollapsedSlice(s, i, j);
    }
  }

  lemma CollapsedSlice(s: string, i: nat, j: nat)
    requires i <= j <= |s| && Collapsed(s)
    ensures Collapsed(s[i..j])
  {
    var t := s[i..j];
    forall m | 0 <= m < |t| && IsSpace(t[m]) ensures t[m] == ' ' && (m + 1 < |t| ==> !IsSpace(t[m + 1])) {
      assert t[m] == s[i + m];
      if m + 1 < |t| {
        assert t[m + 1] == s[i + m + 1];
      }
    }
  }

  lemma {:induction false} StripStyleIdentity(s: string)
    requires NoStyleEnd(s)
    ensures StripStyleBlocks(s) == s
    decreases |s|
  {
    if |s| > 0 {
      assert NoStyleEnd(s[1..]) by {
        forall k | 0 <= k <= |s| - 1 ensures !StartsWithIgnoreCase(s[1..][k..], "</style>") {
          assert s[1..][k..] == s[k + 1..];
        }
      }
      if StartsWithIgnoreCase(s, "<style") {
        assert NoStyleEnd(s[6..]) by {
          forall k | 0 <= k <= |s| - 6 ensures !StartsWithIgnoreCase(s[6..][k..], "</style>") {
            assert s[6..][k..] == s[6 + k..];
          }
        }
        assert FindIgnoreCase(s[6..], "</style>").None?;
      }
      StripStyleIdentity(s[1..]);
      assert s == [s[0]] + s[1..];
    }
  }

  const STYLE_OPEN: string := "<style"
  const STYLE_CLOSE: string := "</style>"

  /** A first character other than `<` is kept, and the scan moves on. */
  lemma StripStep(s: string)
    requires |s| > 0 && s[0] != '<'
    ensures StripStyleBlocks(s) == [s[0]] + StripStyleBlocks(s[1..])
  {
    if 6 <= |s| {
      assert ToLower(s[..6])[0] == LowerChar(s[0]);
      assert ToLower(STYLE_OPEN)[0] == '<';
    }
    assert !StartsWithIgnoreCase(s, STYLE_OPEN);
  }

  /** A character other than `<` in front is kept. */
  lemma StripCons(x: char, u: string)
    requires x != '<'
    ensures StripStyleBlocks([x] + u) == [x] + StripStyleBlocks(u)
  {
    var s := [x] + u;
    assert s[0] == x && s[1..] == u;
    StripStep(s);
  }

  /** Text without a `<` is passed through, and the scan goes on after it. */
  lemma {:induction false} StripKeepsPlainPrefix(a: string, t: string)
    requires '<' !in a
    ensures StripStyleBlocks(a + t) == a + StripStyleBlocks(t)
    decreases |a|
  {
    if |a| == 0 {
      assert a + t == t;
    } else {
      var rest, u := a[1..], a[1..] + t;
      assert '<' !in rest by {
        forall i | 0 <= i < |rest| ensures rest[i] != '<' { assert rest[i] == a[i + 1]; }
      }
      calc {
        StripStyleBlocks(a + t);
        { assert a + t == [a[0]] + u; }
        StripStyleBlocks([a[0]] + u);
        { StripCons(a[0], u); }
        [a[0]] + StripStyleBlocks(u);
        { StripKeepsPlainPrefix(rest, t); }
        [a[0]] + (rest + StripStyleBlocks(t));
        { assert a == [a[0]] + rest; }
        a + StripStyleBlocks(t);
      }
    }
  }

  /** No `</style>` starts at a position `k` of the stretch `b`: either it
      would lie inside `b`, or the `<` that follows `b` would fall in its
      middle. */
  lemma NoCloseInside(b: string, c: string, k: nat)
    requires NoStyleEnd(b) && k < |b|
    ensures !StartsWithIgnoreCase((b + STYLE_CLOSE + c)[k..], STYLE_CLOSE)
  {
    var s := b + STYLE_CLOSE + c;
    if k + 8 <= |b| {
      assert s[k..][..8] == b[k..][..8];
      assert !StartsWithIgnoreCase(b[k..], STYLE_CLOSE);
    } else {
      var j := |b| - k;
      assert s[k..][..8][j] == s[|b|] == '<';
      assert ToLower(s[k..][..8])[j] == '<';
      assert ToLower(STYLE_CLOSE)[j] != '<';
    }
  }

  /** The first `</style>` after a stretch without one is the one that
      follows it. */
  lemma CloseFirstAt(b: string, c: string)
    requires NoStyleEnd(b)
    ensures FindIgnoreCase(b + STYLE_CLOSE + c, STYLE_CLOSE) == Some(|b|)
  {
    var s := b + STYLE_CLOSE + c;
    var at := s[|b|..];
    assert at == STYLE_CLOSE + c;
    assert at[..8] == STYLE_CLOSE;
    assert StartsWithIgnoreCase(at, STYLE_CLOSE);
    var r := FindIgnoreCase(s, STYLE_CLOSE);
    if r.None? {
      assert false;
    } else if r.value < |b| {
      NoCloseInside(b, c, r.value);
    } else if r.value > |b| {
      assert false;
    }
  }

  /** A style block, from `<style` to the first `</style>` after it, is
      removed whole. */
  lemma StripRemovesBlock(b: string, c: string)
    requires NoStyleEnd(b)
    ensures StripStyleBlocks(STYLE_OPEN + b + STYLE_CLOSE + c) == StripStyleBlocks(c)
  {
    var s := STYLE_OPEN + b + STYLE_CLOSE + c;
    assert s[..6] == STYLE_OPEN;
    assert s[6..] == b + STYLE_CLOSE + c;
    CloseFirstAt(b, c);
    assert s[6 + |b| + 8..] == c;
  }

  /** The CSS of a style block never reaches the text part: after text
      without a `<`, removing the block leaves `toText` unchanged. */
  lemma ToTextDropsStyleBlock(a: string, b: string, c: string)
    requires '<' !in a && NoStyleEnd(b)
    ensures ToText(a + STYLE_OPEN + b + STYLE_CLOSE + c) == ToText(a + c)
  {
    var block := STYLE_OPEN + b + STYLE_CLOSE + c;
    assert a + STYLE_OPEN + b + STYLE_CLOSE + c == a + block;
    StripKeepsPlainPrefix(a, block);
    StripRemovesBlock(b, c);
    StripKeepsPlainPrefix(a, c);
  }

  /** A `</style>` starts with a tag, so a string without tags has none. */
  lemma NoTagNoStyleEnd(s: string)
    requires NoTag(s)
    ensures NoStyleEnd(s)
  {
    forall k | 0 <= k <= |s| ensures !StartsWithIgnoreCase(s[k..], "</style>") {
      if k + 8 <= |s| {
        var w := s[k..][..8];
        assert !TagAt(s, k);
        assert w[0] == s[k] && w[1] == s[k + 1] && w[7] == s[k + 7];
        assert s[k + 1..][6] == s[k + 7];
        assert ToLower(w)[0] != '<' || ToLower(w)[1] != '/' || ToLower(w)[7] != '>';
      }
    }
  }

  lemma {:induction false} ReplaceTagsIdentity(s: string)
    requires NoTag(s)
    ensures ReplaceTags(s) == s
    decreases |s|
  {
    if |s| > 0 {
      assert !TagAt(s, 0);
      SliceNoTag(s, 1, |s|);
      assert s[1..|s|] == s[1..];
      ReplaceTagsIdentity(s[1..]);
      assert s == [s[0]] + s[1..];
    }
  }

  lemma {:induction false} CollapseIdentity(s: string)
    requires Collapsed(s)
    ensures CollapseSpaces(s) == s
    decreases |s|
  {
    if |s| > 0 {
      assert Collapsed(s[1..]) by {
        forall i | 0 <= i < |s| - 1 && IsSpace(s[1..][i])
          ensures s[1..][i] == ' ' && (i + 1 < |s| - 1 ==> !IsSpace(s[1..][i + 1]))
        {
          assert s[1..][i] == s[i + 1];
          assert IsSpace(s[i + 1]);
        }
      }
      CollapseIdentity(s[1..]);
      if IsSpace(s[0]) {
        assert LeadingSpaces(s) == 1 + LeadingSpaces(s[1..]);
        assert LeadingSpaces(s[1..]) == 0;
      }
      assert s == [s[0]] + s[1..];
    }
  }

  /** Plain text (no tags, single plain spaces, nothing to trim) is its own
      text part. */
  lemma PlainTextFixed(t: string)
    requires NoTag(t) && Collapsed(t)
    requires t == [] || (!IsSpace(t[0]) && !IsSpace(t[|t| - 1]))
    ensures ToText(t) == t
  {
    NoTagNoStyleEnd(t);
    StripStyleIdentity(t);
    ReplaceTagsIdentity(t);
    CollapseIdentity(t);
    TrimOfTrimmed(t);
  }

  /** Rendering to text twice is rendering once. */
  lemma ToTextIdempotent(html: string)
    ensures ToText(ToText(html)) == ToText(html)
  {
    PlainTextFixed(ToText(html));
  }

  // ---------------------------------------------------------------------
  // Messages and transports

  datatype Content = BufferContent(bytes: seq<byte>) | StringContent(text: string)

  /** `contentType` is "" when the attachment names none. */
  datatype Attachment = Attachment(filename: string, content: Content, contentType: string)

  datatype Recipients = One(address: string) | Many(addresses: seq<string>)

  /** The argument of `deliver`. */
  datatype Mail = Mail(to: Recipients, subject: string, html: string, attachments: seq<Attachment>)

  datatype ResendAttachment = ResendAttachment(filename: string, content: string, contentType: string)

  datatype ResendPayload = ResendPayload(
    from: string,
    to: seq<string>,
    subject: string,
    html: string,
    text: string,
    attachments: Option<seq<ResendAttachment>>)

  datatype SmtpConfig = SmtpConfig(host: string, port: Num, secure: bool, user: string, pass: string)

  datatype SmtpMessage = SmtpMessage(
    from: string,
    to: Recipients,
    subject: string,
    html: string,
    text: string,
    attachments: seq<Attachment>)

  datatype Via = ViaResend | ViaSmtp

  /** `{ ok: true, via, id }`. */
  datatype Sent = Sent(via: Via, id: Option<string>)

  /** What a transport's send call did: it resolved, with the id of the
      message ("" when the reply carries none), or it threw. */
  datatype Reply = Accepted(id: string) | Threw(message: string)

  /** The Resend client and the nodemailer transport, as the replies they
      give. */
  datatype Transports = Transports(
    resend: ResendPayload -> Reply,
    smtp: (SmtpConfig, SmtpMessage) -> Reply)

  const OCTET_STREAM: string := "application/octet-stream"

  function ResendAttachmentOf(a: Attachment): (r: ResendAttachment)
    ensures r.filename == a.filename && r.contentType != ""
    ensures a.contentType != "" ==> r.contentType == a.contentType
    ensures a.content.BufferContent? ==> IsBase64Text(r.content) && Base64Decode(r.content) == a.content.bytes
    ensures a.content.StringContent? ==> r.content == a.content.text
  {
    match a.content
    case BufferContent(b) =>
      Base64RoundTrip(b);
      ResendAttachment(a.filename, Base64Encode(b), Or(a.contentType, OCTET_STREAM))
    case StringContent(t) =>
      ResendAttachment(a.filename, t, Or(a.contentType, OCTET_STREAM))
  }

  /** The payload given to the Resend API. */
  function ResendPayloadOf(env: Env, mail: Mail): (p: ResendPayload)
    ensures p.from == env.fromEmail && p.subject == mail.subject && p.html == mail.html
    ensures p.text == ToText(mail.html)
    ensures mail.to.One? ==> p.to == [mail.to.address]
    ensures mail.to.Many? ==> p.to == mail.to.addresses
    ensures p.attachments.Some? <==> |mail.attachments| > 0
    ensures p.attachments.Some? ==>
      (|p.attachments.value| == |mail.attachments|
       && forall i | 0 <= i < |mail.attachments| :: p.attachments.value[i] == ResendAttachmentOf(mail.attachments[i]))
  {
    var to := if mail.to.One? then [mail.to.address] else mail.to.addresses;
    var attachments :=
      if |mail.attachments| > 0
      then Some(seq(|mail.attachments|, i requires 0 <= i < |mail.attachments| => ResendAttachmentOf(mail.attachments[i])))
      else None;
    ResendPayload(env.fromEmail, to, mail.subject, mail.html, ToText(mail.html), attachments)
  }

  function IdOf(id: string): (r: Option<string>)
    ensures r.None? <==> id == ""
  {
    if id == "" then None else Some(id)
  }

  const NO_RESEND: string := "Sin proveedor de email configurado (RESEND_API_KEY)"
  const NO_SMTP: string := "Sin proveedor de email configurado (SMTP_*)"
  const NO_PROVIDER: string := "Sin proveedor de email configurado (RESEND_API_KEY o SMTP_*)"

  /** `sendViaResend`. */
  function SendViaResend(env: Env, mail: Mail, send: ResendPayload -> Reply): (r: Result<Sent, string>)
    ensures env.resendKey == "" ==> r == Err(NO_RESEND)
    ensures env.resendKey != "" ==> (r.Ok? <==> send(ResendPayloadOf(env, mail)).Accepted?)
    ensures r.Ok? ==> r.value.via == ViaResend
    ensures env.resendKey != "" && send(ResendPayloadOf(env, mail)).Accepted? ==>
      r.value.id == IdOf(send(ResendPayloadOf(env, mail)).id)
    ensures env.resendKey != "" && send(ResendPayloadOf(env, mail)).Threw? ==>
      r == Err(send(ResendPayloadOf(env, mail)).message)
  {
    if env.resendKey == "" then Err(NO_RESEND)
    else
      match send(ResendPayloadOf(env, mail))
      case Accepted(id) => Ok(Sent(ViaResend, IdOf(id)))
      case Threw(m) => Err(m)
  }

  /** `buildSMTP`: a transport only when host, user and password are all set;
      TLS from the start exactly on port 465. */
  function BuildSmtp(env: Env): (r: Option<SmtpConfig>)
    ensures r.Some? <==> env.smtpHost != "" && env.smtpUser != "" && env.smtpPass != ""
    ensures r.Some? ==> (r.value.secure <==> env.smtpPort == Finite(465.0))
    ensures r.Some? ==> r.value.host == env.smtpHost && r.value.port == env.smtpPort
  {
    if env.smtpHost == "" || env.smtpUser == "" || env.smtpPass == "" then None
    else Some(SmtpConfig(env.smtpHost, env.smtpPort, env.smtpPort == Finite(465.0), env.smtpUser, env.smtpPass))
  }

  function SmtpMessageOf(env: Env, mail: Mail): (m: SmtpMessage)
    ensures m.to == mail.to && m.attachments == mail.attachments && m.text == ToText(mail.html)
    ensures m.from == env.fromEmail && m.subject == mail.subject && m.html == mail.html
  {
    SmtpMessage(env.fromEmail, mail.to, mail.subject, mail.html, ToText(mail.html), mail.attachments)
  }

  /** `sendViaSMTP`. */
  function SendViaSmtp(env: Env, mail: Mail, send: (SmtpConfig, SmtpMessage) -> Reply): (r: Result<Sent, string>)
    ensures BuildSmtp(env).None? ==> r == Err(NO_SMTP)
    ensures BuildSmtp(env).Some? ==> (r.Ok? <==> send(BuildSmtp(env).value, SmtpMessageOf(env, mail)).Accepted?)
    ensures r.Ok? ==> r.value.via == ViaSmtp
    ensures BuildSmtp(env).Some? && send(BuildSmtp(env).value, SmtpMessageOf(env, mail)).Accepted? ==>
      r.value.id == IdOf(send(BuildSmtp(env).value, SmtpMessageOf(env, mail)).id)
    ensures BuildSmtp(env).Some? && send(BuildSmtp(env).value, SmtpMessageOf(env, mail)).Threw? ==>
      r == Err(send(BuildSmtp(env).value, SmtpMessageOf(env, mail)).message)
  {
    match BuildSmtp(env)
    case None => Err(NO_SMTP)
    case Some(config) =>
      match send(config, SmtpMessageOf(env, mail))
      case Accepted(id) => Ok(Sent(ViaSmtp, IdOf(id)))
      case Threw(m) => Err(m)
  }

  /** `deliver`: Resend when its key is set, otherwise SMTP when a host is
      set, otherwise a failure; a transport failure is passed on. */
  function Deliver(env: Env, mail: Mail, t: Transports): (r: Result<Sent, string>)
    ensures r.Ok? ==> (r.value.via == ViaResend <==> env.resendKey != "")
    ensures r.Ok? ==> env.resendKey != "" || BuildSmtp(env).Some?
    ensures env.resendKey == "" && env.smtpHost == "" ==> r == Err(NO_PROVIDER)
    ensures env.resendKey == "" && env.smtpHost != "" && BuildSmtp(env).None? ==> r == Err(NO_SMTP)
    ensures env.resendKey != "" ==> r == SendViaResend(env, mail, t.resend)
    ensures env.resendKey == "" && env.smtpHost != "" ==> r == SendViaSmtp(env, mail, t.smtp)
  {
    if env.resendKey != "" then SendViaResend(env, mail, t.resend)
    else if env.smtpHost != "" then SendViaSmtp(env, mail, t.smtp)
    else Err(NO_PROVIDER)
  }

  /** With a Resend key, the SMTP settings and transport play no part. */
  lemma DeliverIgnoresSmtp(env: Env, mail: Mail, resend: ResendPayload -> Reply,
                           smtp1: (SmtpConfig, SmtpMessage) -> Reply, smtp2: (SmtpConfig, SmtpMessage) -> Reply,
                           host: string, user: string, pass: string)
    requires env.resendKey != ""
    ensures Deliver(env, mail, Transports(resend, smtp1))
         == Deliver(env.(smtpHost := host, smtpUser := user, smtpPass := pass), mail, Transports(resend, smtp2))
  {
  }

  // ---------------------------------------------------------------------
  // The three messages

  /** The HTML templates, given the greeting line already chosen. */
  datatype Templates = Templates(
    purchase: (string, string) -> string,
    courseAccess: (string, string, string) -> string,
    reset: (string, string) -> string)

  /** The greeting of a template: the trimmed name, or the fallback when it
      is empty. */
  function Greeting(name: string, fallback: string): (r: string)
    ensures Trim(name) != "" ==> r == Trim(name)
    ensures Trim(name) == "" ==> r == fallback
    ensures fallback != "" ==> r != ""
    ensures r != fallback ==> !IsSpace(r[0]) && !IsSpace(r[|r| - 1])
  {
    Or(Trim(name), fallback)
  }

  const PURCHASE_SUBJECT: string := "Gracias por tu compra \U{2013} Tu descarga est\U{00E1} lista"
  const COURSE_SUBJECT_PREFIX: string := "Acceso confirmado \U{2013} "
  const RESET_SUBJECT: string := "Restablecer contrase\U{00F1}a"
  const DEFAULT_COURSE_TITLE: string := "Curso SINEW"
  const DEFAULT_INVOICE_NAME: string := "Factura.pdf"
  const PDF: string := "application/pdf"

  /** What a handler asks the mail module to send. */
  datatype MailRequest =
    | PurchaseMail(toEmail: string, buyerName: string, downloadLink: string, invoice: Option<seq<byte>>, invoiceName: string)
    | CourseAccessMail(toEmail: string, buyerName: string, courseTitle: string, courseUrl: string)
    | ResetMail(toEmail: string, name: string, resetUrl: string)

  /** The message `sendPurchaseEmail`, `sendCourseAccessEmail` or
      `sendResetEmail` hands to `deliver`. */
  function Compose(req: MailRequest, tpl: Templates): (m: Mail)
    ensures m.to == One(req.toEmail)
    ensures req.PurchaseMail? ==>
      (m.subject == PURCHASE_SUBJECT
       && (|m.attachments| == 1 <==> req.invoice.Some?)
       && (req.invoice.None? ==> m.attachments == [])
       && (req.invoice.Some? ==>
             m.attachments[0].contentType == PDF && m.attachments[0].content == BufferContent(req.invoice.value)
             && m.attachments[0].filename != ""
             && (req.invoiceName != "" ==> m.attachments[0].filename == req.invoiceName)
             && (req.invoiceName == "" ==> m.attachments[0].filename == DEFAULT_INVOICE_NAME))
       && m.html == tpl.purchase(Greeting(req.buyerName, "\U{00A1}Hola!"), req.downloadLink))
    ensures req.CourseAccessMail? ==>
      (m.attachments == [] && COURSE_SUBJECT_PREFIX <= m.subject
       && |m.subject| > |COURSE_SUBJECT_PREFIX|
       && (req.courseTitle != "" ==> m.subject == COURSE_SUBJECT_PREFIX + req.courseTitle)
       && m.html == tpl.courseAccess(Greeting(req.buyerName, "Hola"), Or(req.courseTitle, DEFAULT_COURSE_TITLE), req.courseUrl))
    ensures req.ResetMail? ==>
      m.subject == RESET_SUBJECT && m.attachments == [] && m.html == tpl.reset(Greeting(req.name, "Hola"), req.resetUrl)
  {
    match req
    case PurchaseMail(to, buyer, link, invoice, invoiceName) =>
      var attachments :=
        if invoice.Some? then [Attachment(Or(invoiceName, DEFAULT_INVOICE_NAME), BufferContent(invoice.value), PDF)]
        else [];
      Mail(One(to), PURCHASE_SUBJECT, tpl.purchase(Greeting(buyer, "\U{00A1}Hola!"), link), attachments)
    case CourseAccessMail(to, buyer, title, url) =>
      var safeTitle := Or(title, DEFAULT_COURSE_TITLE);
      Mail(One(to), COURSE_SUBJECT_PREFIX + safeTitle, tpl.courseAccess(Greeting(buyer, "Hola"), safeTitle, url), [])
    case ResetMail(to, name, url) =>
      Mail(One(to), RESET_SUBJECT, tpl.reset(Greeting(name, "Hola"), url), [])
  }

  /** Sending a request: compose it, then deliver it. */
  function Send(env: Env, req: MailRequest, tpl: Templates, t: Transports): (r: Result<Sent, string>)
    ensures env.resendKey == "" && BuildSmtp(env).None? ==> r.Err?
    ensures env.resendKey != "" ==> r == SendViaResend(env, Compose(req, tpl), t.resend)
    ensures env.resendKey != "" ==>
      (r.Ok? <==> t.resend(ResendPayloadOf(env, Compose(req, tpl))).Accepted?)
    ensures env.resendKey == "" && env.smtpHost != "" ==> r == SendViaSmtp(env, Compose(req, tpl), t.smtp)
    ensures env.resendKey == "" && env.smtpHost == "" ==> r == Err(NO_PROVIDER)
  {
    Deliver(env, Compose(req, tpl), t)
  }

  /** A purchase mail carrying an invoice reaches Resend as a base64 PDF
      attachment that decodes back to the invoice bytes. */
  lemma InvoiceSurvivesResend(env: Env, req: MailRequest, tpl: Templates)
    requires req.PurchaseMail? && req.invoice.Some?
    ensures var p := ResendPayloadOf(env, Compose(req, tpl));
      p.attachments.Some? && |p.attachments.value| == 1
      && p.attachments.value[0].contentType == PDF
      && Base64Decode(p.attachments.value[0].content) == req.invoice.value
  {
    var m := Compose(req, tpl);
    var a := Attachment(Or(req.invoiceName, DEFAULT_INVOICE_NAME), BufferContent(req.invoice.value), PDF);
    assert m.attachments == [a];
    var p := ResendPayloadOf(env, m);
    assert p.attachments.value[0] == ResendAttachmentOf(a);
  }
}

/** The older copy of the mail module (`backend/mailer.js`). It differs from
    the current one in the purchase greeting and in the course mail, which
    takes the course title as given. */
module LegacyMailer {
  import opened Wrappers
  import opened Text
  import Mailer

  /** The legacy course-access template, which receives the title as passed
      (absent or not). */
  datatype LegacyTemplates = LegacyTemplates(
    purchase: (string, string) -> string,
    courseAccess: (string, Option<string>, string) -> string,
    reset: (string, string) -> string)

  const UNDEFINED: string := "undefined"

  /** The legacy `sendCourseAccessEmail` message: the subject interpolates the
      title, so an absent title reads "undefined" and an empty one leaves the
      subject ending in the dash. */
  function ComposeCourseAccess(toEmail: string, buyerName: string, courseTitle: Option<string>, courseUrl: string, tpl: LegacyTemplates): (m: Mailer.Mail)
    ensures m.to == Mailer.One(toEmail) && m.attachments == []
    ensures courseTitle.Some? ==> m.subject == Mailer.COURSE_SUBJECT_PREFIX + courseTitle.value
    ensures courseTitle.None? ==> m.subject == Mailer.COURSE_SUBJECT_PREFIX + UNDEFINED
    ensures m.html == tpl.courseAccess(Mailer.Greeting(buyerName, "Hola"), courseTitle, courseUrl)
  {
    var shown := if courseTitle.Some? then courseTitle.value else UNDEFINED;
    Mailer.Mail(Mailer.One(toEmail), Mailer.COURSE_SUBJECT_PREFIX + shown,
                tpl.courseAccess(Mailer.Greeting(buyerName, "Hola"), courseTitle, courseUrl), [])
  }

  /** The legacy purchase message; its greeting falls back to "Hola". */
  function ComposePurchase(toEmail: string, buyerName: string, downloadLink: string, invoice: Option<seq<byte>>, invoiceName: string, tpl: LegacyTemplates): (m: Mailer.Mail)
    ensures m.to == Mailer.One(toEmail) && m.subject == Mailer.PURCHASE_SUBJECT
    ensures |m.attachments| == 1 <==> invoice.Some?
    ensures invoice.None? ==> m.attachments == []
    ensures invoice.Some? ==>
      m.attachments == [Mailer.Attachment(Or(invoiceName, Mailer.DEFAULT_INVOICE_NAME), Mailer.BufferContent(invoice.value), Mailer.PDF)]
    ensures invoice.Some? && invoiceName == "" ==> m.attachments[0].filename == Mailer.DEFAULT_INVOICE_NAME
    ensures m.html == tpl.purchase(Mailer.Greeting(buyerName, "Hola"), downloadLink)
  {
    var attachments :=
      if invoice.Some? then [Mailer.Attachment(Or(invoiceName, Mailer.DEFAULT_INVOICE_NAME), Mailer.BufferContent(invoice.value), Mailer.PDF)]
      else [];
    Mailer.Mail(Mailer.One(toEmail), Mailer.PURCHASE_SUBJECT, tpl.purchase(Mailer.Greeting(buyerName, "Hola"), downloadLink), attachments)
  }

  /** With the same purchase template, the two copies send the same purchase
      mail to a buyer with a name; for a blank name only the greeting
      differs, "Hola" here against "¡Hola!" in the current copy. */
  lemma PurchaseMailsAgree(toEmail: string, buyerName: string, downloadLink: string, invoice: Option<seq<byte>>, invoiceName: string,
                           tpl: Mailer.Templates, legacy: LegacyTemplates)
    requires legacy.purchase == tpl.purchase
    ensures var now := Mailer.Compose(Mailer.PurchaseMail(toEmail, buyerName, downloadLink, invoice, invoiceName), tpl);
            var old_ := ComposePurchase(toEmail, buyerName, downloadLink, invoice, invoiceName, legacy);
            now.to == old_.to && now.subject == old_.subject && now.attachments == old_.attachments
            && (Trim(buyerName) != "" ==> now == old_)
            && (Trim(buyerName) == "" ==> old_.html == tpl.purchase("Hola", downloadLink)
                                          && now.html == tpl.purchase("\U{00A1}Hola!", downloadLink))
  {
  }

  /** The two copies give the same course subject whenever a title is given,
      and differ exactly when it is missing or empty. */
  lemma CourseSubjectsAgree(toEmail: string, buyerName: string, title: string, courseUrl: string,
                            tpl: Mailer.Templates, legacy: LegacyTemplates)
    ensures var now := Mailer.Compose(Mailer.CourseAccessMail(toEmail, buyerName, title, courseUrl), tpl);
            var old_ := ComposeCourseAccess(toEmail, buyerName, Some(title), courseUrl, legacy);
            (now.subject == old_.subject <==> title != "")
  {
    var now := Mailer.Compose(Mailer.CourseAccessMail(toEmail, buyerName, title, courseUrl), tpl);
    if title == "" {
      assert |now.subject| > |Mailer.COURSE_SUBJECT_PREFIX|;
    }
  }
}
