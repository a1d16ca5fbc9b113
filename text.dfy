/** String helpers with the meaning JavaScript gives them: `trim`, ASCII
    case mapping, `startsWith`, `includes`, `split` on one character,
    `encodeURIComponent`, hexadecimal and base64 encodings of bytes. */
module Text {

  type byte = b: int | 0 <= b < 256

  // ---------------------------------------------------------------------
  // Whitespace and trim

  /** The characters JavaScript's `\s` and `String.prototype.trim` treat as
      white space (WhiteSpace and LineTerminator of ECMA-262). */
  predicate IsSpace(c: char)
  {
    ('\U{0009}' <= c <= '\U{000D}') || c == ' ' || c == '\U{00A0}' || c == '\U{1680}'
    || ('\U{2000}' <= c <= '\U{200A}') || c == '\U{2028}' || c == '\U{2029}'
    || c == '\U{202F}' || c == '\U{205F}' || c == '\U{3000}' || c == '\U{FEFF}'
  }

  predicate AllSpace(s: string)
  {
    forall i | 0 <= i < |s| :: IsSpace(s[i])
  }

  predicate NoSpace(s: string)
  {
    forall i | 0 <= i < |s| :: !IsSpace(s[i])
  }

  /** The number of white-space characters `s` starts with. */
  function LeadingSpaces(s: string): (k: nat)
    ensures k <= |s|
    ensures forall i | 0 <= i < k :: IsSpace(s[i])
    ensures k < |s| ==> !IsSpace(s[k])
  {
    if |s| > 0 && IsSpace(s[0]) then 1 + LeadingSpaces(s[1..]) else 0
  }

  /** Where the white space `s` ends with begins. */
  function TrailingStart(s: string): (k: nat)
    ensures k <= |s|
    ensures forall i | k <= i < |s| :: IsSpace(s[i])
    ensures k > 0 ==> !IsSpace(s[k - 1])
  {
    if |s| > 0 && IsSpace(s[|s| - 1]) then TrailingStart(s[..|s| - 1]) else |s|
  }

  /** `String.prototype.trim`: the slice of `s` left after removing white
      space at both ends. */
  function Trim(s: string): (r: string)
    ensures |r| <= |s|
    ensures r == [] || (!IsSpace(r[0]) && !IsSpace(r[|r| - 1]))
  {
    var i := LeadingSpaces(s);
    if i == |s| then ""
    else
      var j := TrailingStart(s);
      assert i < j;
      s[i..j]
  }

  /** What `Trim` removes is white space at the two ends and nothing
      else. */
  lemma TrimRemovesOnlySpace(s: string)
    ensures exists i | 0 <= i <= |s| - |Trim(s)| ::
              Trim(s) <= s[i..] && AllSpace(s[..i]) && AllSpace(s[i + |Trim(s)|..])
  {
    var i := LeadingSpaces(s);
    if i == |s| {
      assert AllSpace(s[..i]) && s[i..] == [] && AllSpace(s[i..]);
    } else {
      var j := TrailingStart(s);
      assert AllSpace(s[..i]) && AllSpace(s[j..]);
      assert s[i..j] <= s[i..];
    }
  }

  lemma TrimOfTrimmed(s: string)
    requires s == [] || (!IsSpace(s[0]) && !IsSpace(s[|s| - 1]))
    ensures Trim(s) == s
  {
    if s != [] {
      assert LeadingSpaces(s) == 0;
      assert TrailingStart(s) == |s|;
    }
  }

  /** Trimming twice is trimming once. */
  lemma TrimIdempotent(s: string)
    ensures Trim(Trim(s)) == Trim(s)
  {
    TrimOfTrimmed(Trim(s));
  }

  // ---------------------------------------------------------------------
  // ASCII case mapping

  function LowerChar(c: char): char
  {
    if 'A' <= c <= 'Z' then (c as int + 32) as char else c
  }

  function UpperChar(c: char): char
  {
    if 'a' <= c <= 'z' then (c as int - 32) as char else c
  }

  /** `toLowerCase` on the ASCII letters; every other character is kept. */
  function ToLower(s: string): (r: string)
    ensures |r| == |s|
    ensures forall i | 0 <= i < |s| :: r[i] == LowerChar(s[i])
  {
    seq(|s|, i requires 0 <= i < |s| => LowerChar(s[i]))
  }

  /** `toUpperCase` on the ASCII letters; every other character is kept. */
  function ToUpper(s: string): (r: string)
    ensures |r| == |s|
    ensures forall i | 0 <= i < |s| :: r[i] == UpperChar(s[i])
  {
    seq(|s|, i requires 0 <= i < |s| => UpperChar(s[i]))
  }

  lemma ToLowerIdempotent(s: string)
    ensures ToLower(ToLower(s)) == ToLower(s)
  {
  }

  lemma ToUpperIdempotent(s: string)
    ensures ToUpper(ToUpper(s)) == ToUpper(s)
  {
  }

  lemma LeadingSpacesLower(s: string)
    ensures LeadingSpaces(ToLower(s)) == LeadingSpaces(s)
  {
    if |s| > 0 {
      assert ToLower(s)[1..] == ToLower(s[1..]);
      LeadingSpacesLower(s[1..]);
    }
  }

  lemma TrailingStartLower(s: string)
    ensures TrailingStart(ToLower(s)) == TrailingStart(s)
  {
    if |s| > 0 {
      assert ToLower(s)[..|s| - 1] == ToLower(s[..|s| - 1]);
      TrailingStartLower(s[..|s| - 1]);
    }
  }

  /** Lower-casing and trimming commute, so the order in which a schema
      applies its `lowercase` and `trim` setters does not matter. */
  lemma {:induction false} TrimLowerCommute(s: string)
    ensures Trim(ToLower(s)) == ToLower(Trim(s))
  {
    LeadingSpacesLower(s);
    TrailingStartLower(s);
    var i, j := LeadingSpaces(s), TrailingStart(s);
    if i < |s| {
      assert i < j;
      assert Trim(s) == s[i..j];
      assert Trim(ToLower(s)) == ToLower(s)[i..j];
      LowerSlice(s, i, j);
    } else {
      assert Trim(s) == "";
    }
  }

  lemma LowerSlice(s: string, i: nat, j: nat)
    requires i <= j <= |s|
    ensures ToLower(s)[i..j] == ToLower(s[i..j])
  {
  }

  // ---------------------------------------------------------------------
  // Prefixes and substrings

  predicate StartsWith(s: string, prefix: string)
  {
    prefix <= s
  }

  /** A `^prefix` test under a case-insensitive regular expression, for an
      ASCII prefix. */
  predicate StartsWithIgnoreCase(s: string, prefix: string)
  {
    |prefix| <= |s| && ToLower(s[..|prefix|]) == ToLower(prefix)
  }

  predicate Contains(s: string, t: string)
  {
    exists i | 0 <= i <= |s| :: t <= s[i..]
  }

  predicate ContainsIgnoreCase(s: string, t: string)
  {
    Contains(ToLower(s), ToLower(t))
  }

  /** The position of the first `c` in `s`, or `|s|` when there is none. */
  function IndexOf(s: string, c: char): (k: nat)
    ensures k <= |s|
    ensures c !in s[..k]
    ensures k < |s| ==> s[k] == c
  {
    if |s| == 0 then 0
    else if s[0] == c then 0
    else
      var k := IndexOf(s[1..], c);
      assert s[..k + 1] == [s[0]] + s[1..][..k];
      k + 1
  }

  // ---------------------------------------------------------------------
  // split and join on one character

  /** `s.split(sep)` for a one-character separator. */
  function Split(s: string, sep: char): (r: seq<string>)
    ensures |r| >= 1
    ensures forall i | 0 <= i < |r| :: sep !in r[i]
  {
    if |s| == 0 then [""]
    else if s[0] == sep then [""] + Split(s[1..], sep)
    else
      var rest := Split(s[1..], sep);
      [[s[0]] + rest[0]] + rest[1..]
  }

  /** `parts.join(sep)`. */
  function Join(parts: seq<string>, sep: char): string
  {
    if |parts| == 0 then ""
    else if |parts| == 1 then parts[0]
    else parts[0] + [sep] + Join(parts[1..], sep)
  }

  lemma JoinConsHead(c: char, parts: seq<string>, sep: char)
    requires |parts| >= 1
    ensures Join([[c] + parts[0]] + parts[1..], sep) == [c] + Join(parts, sep)
  {
    var q := [[c] + parts[0]] + parts[1..];
    if |parts| > 1 {
      assert q[1..] == parts[1..];
    }
  }

  /** Joining the fields of a split gives the original string back. */
  lemma {:induction false} JoinSplit(s: string, sep: char)
    ensures Join(Split(s, sep), sep) == s
  {
    if |s| == 0 {
    } else if s[0] == sep {
      JoinSplit(s[1..], sep);
      var rest := Split(s[1..], sep);
      assert Split(s, sep) == [""] + rest;
      assert ([""] + rest)[1..] == rest;
      assert s == [sep] + s[1..];
    } else {
      JoinSplit(s[1..], sep);
      JoinConsHead(s[0], Split(s[1..], sep), sep);
      assert s == [s[0]] + s[1..];
    }
  }

  /** The first field of `s.split(sep)` is the text before the first `sep`. */
  lemma {:induction false} SplitHead(s: string, sep: char)
    ensures Split(s, sep)[0] == s[..IndexOf(s, sep)]
  {
    if |s| > 0 && s[0] != sep {
      SplitHead(s[1..], sep);
      assert s[..IndexOf(s, sep)] == [s[0]] + s[1..][..IndexOf(s[1..], sep)];
    }
  }

  /** Splitting text without the separator gives it back whole. */
  lemma {:induction false} SplitNoSep(s: string, sep: char)
    requires sep !in s
    ensures Split(s, sep) == [s]
    decreases |s|
  {
    if |s| > 0 {
      SplitNoSep(s[1..], sep);
      assert s == [s[0]] + s[1..];
    }
  }

  /** The first separator ends the first field. */
  lemma {:induction false} SplitAtFirst(a: string, sep: char, b: string)
    requires sep !in a
    ensures Split(a + [sep] + b, sep) == [a] + Split(b, sep)
    decreases |a|
  {
    var s := a + [sep] + b;
    if |a| == 0 {
      assert s == [sep] + b;
      assert s[1..] == b;
    } else {
      SplitAtFirst(a[1..], sep, b);
      assert s[1..] == a[1..] + [sep] + b;
      assert s[0] == a[0];
      assert a == [a[0]] + a[1..];
    }
  }

  /** `s.split(sep)[i]`, with "" for JavaScript's `undefined`. */
  function Field(s: string, sep: char, i: nat): string
  {
    var parts := Split(s, sep);
    if i < |parts| then parts[i] else ""
  }

  // ---------------------------------------------------------------------
  // Decimal rendering of numbers (template literals and String(n))

  function DigitChar(d: int): (c: char)
    requires 0 <= d < 10
    ensures '0' <= c <= '9'
  {
    "0123456789"[d]
  }

  function NatToString(n: nat): (r: string)
    ensures |r| >= 1
    ensures forall i | 0 <= i < |r| :: '0' <= r[i] <= '9'
  {
    if n < 10 then [DigitChar(n)] else NatToString(n / 10) + [DigitChar(n % 10)]
  }

  /** `String(n)` for an integer (a leading '-' for a negative one). */
  function IntToString(n: int): string
  {
    if n < 0 then "-" + NatToString(-n) else NatToString(n)
  }

  // ---------------------------------------------------------------------
  // Hexadecimal: Buffer.toString("hex")

  function HexDigit(d: int): (c: char)
    requires 0 <= d < 16
  {
    "0123456789abcdef"[d]
  }

  predicate IsHexDigit(c: char)
  {
    ('0' <= c <= '9') || ('a' <= c <= 'f')
  }

  function HexValue(c: char): (d: int)
    requires IsHexDigit(c)
    ensures 0 <= d < 16 && HexDigit(d) == c
  {
    if c <= '9' then c as int - '0' as int else c as int - 'a' as int + 10
  }

  lemma HexValueOfDigit(d: int)
    requires 0 <= d < 16
    ensures IsHexDigit(HexDigit(d)) && HexValue(HexDigit(d)) == d
  {
  }

  /** Lower-case hexadecimal encoding, two characters per byte. */
  function HexEncode(b: seq<byte>): (r: string)
    ensures |r| == 2 * |b|
    ensures forall i | 0 <= i < |r| :: IsHexDigit(r[i])
  {
    if |b| == 0 then ""
    else
      HexValueOfDigit(b[0] / 16);
      HexValueOfDigit(b[0] % 16);
      [HexDigit(b[0] / 16), HexDigit(b[0] % 16)] + HexEncode(b[1..])
  }

  function HexDecode(s: string): seq<byte>
    requires |s| % 2 == 0
    requires forall i | 0 <= i < |s| :: IsHexDigit(s[i])
  {
    if |s| == 0 then []
    else [HexValue(s[0]) * 16 + HexValue(s[1])] + HexDecode(s[2..])
  }

  /** Hexadecimal encoding loses nothing: decoding gives the bytes back, so
      two different byte strings never give the same token. */
  lemma {:induction false} HexRoundTrip(b: seq<byte>)
    ensures HexDecode(HexEncode(b)) == b
  {
    if |b| > 0 {
      HexValueOfDigit(b[0] / 16);
      HexValueOfDigit(b[0] % 16);
      HexRoundTrip(b[1..]);
      assert HexEncode(b)[2..] == HexEncode(b[1..]);
    }
  }

  lemma HexInjective(a: seq<byte>, b: seq<byte>)
    requires HexEncode(a) == HexEncode(b)
    ensures a == b
  {
    HexRoundTrip(a);
    HexRoundTrip(b);
  }

  // ---------------------------------------------------------------------
  // encodeURIComponent

  /** The characters `encodeURIComponent` leaves as they are. */
  predicate IsUnreserved(c: char)
  {
    ('A' <= c <= 'Z') || ('a' <= c <= 'z') || ('0' <= c <= '9')
    || c == '-' || c == '_' || c == '.' || c == '!' || c == '~'
    || c == '*' || c == '\'' || c == '(' || c == ')'
  }

  /** The UTF-8 bytes of one Unicode scalar value. */
  function Utf8(c: char): (r: seq<byte>)
    ensures 1 <= |r| <= 4
  {
    var cp := c as int;
    if cp < 0x80 then [cp]
    else if cp < 0x800 then [0xC0 + cp / 64, 0x80 + cp % 64]
    else if cp < 0x10000 then [0xE0 + cp / 4096, 0x80 + (cp / 64) % 64, 0x80 + cp % 64]
    else [0xF0 + cp / 262144, 0x80 + (cp / 4096) % 64, 0x80 + (cp / 64) % 64, 0x80 + cp % 64]
  }

  function UpperHexDigit(d: int): (c: char)
    requires 0 <= d < 16
    ensures IsUnreserved(c)
  {
    "0123456789ABCDEF"[d]
  }

  function PercentBytes(b: seq<byte>): (r: string)
    ensures |r| == 3 * |b|
    ensures forall i | 0 <= i < |r| :: IsUnreserved(r[i]) || r[i] == '%'
  {
    if |b| == 0 then ""
    else ['%', UpperHexDigit(b[0] / 16), UpperHexDigit(b[0] % 16)] + PercentBytes(b[1..])
  }

  function EncodeChar(c: char): (r: string)
    ensures forall i | 0 <= i < |r| :: IsUnreserved(r[i]) || r[i] == '%'
  {
    if IsUnreserved(c) then [c] else PercentBytes(Utf8(c))
  }

  /** `encodeURIComponent`: unreserved characters kept, every other one
      written as the percent-encoded bytes of its UTF-8 form. */
  function EncodeUriComponent(s: string): (r: string)
    ensures forall i | 0 <= i < |r| :: IsUnreserved(r[i]) || r[i] == '%'
    ensures (forall i | 0 <= i < |s| :: IsUnreserved(s[i])) ==> r == s
  {
    if |s| == 0 then "" else EncodeChar(s[0]) + EncodeUriComponent(s[1..])
  }

  /** A hexadecimal token passes through `encodeURIComponent` unchanged. */
  lemma EncodeHexIsIdentity(b: seq<byte>)
    ensures EncodeUriComponent(HexEncode(b)) == HexEncode(b)
  {
  }

  // ---------------------------------------------------------------------
  // Base64: Buffer.toString("base64")

  function Base64Char(d: int): (c: char)
    requires 0 <= d < 64
  {
    if d < 26 then ('A' as int + d) as char
    else if d < 52 then ('a' as int + d - 26) as char
    else if d < 62 then ('0' as int + d - 52) as char
    else if d == 62 then '+'
    else '/'
  }

  predicate IsBase64Char(c: char)
  {
    ('A' <= c <= 'Z') || ('a' <= c <= 'z') || ('0' <= c <= '9') || c == '+' || c == '/'
  }

  function Base64Value(c: char): (d: int)
    requires IsBase64Char(c)
    ensures 0 <= d < 64
  {
    if 'A' <= c <= 'Z' then c as int - 'A' as int
    else if 'a' <= c <= 'z' then c as int - 'a' as int + 26
    else if '0' <= c <= '9' then c as int - '0' as int + 52
    else if c == '+' then 62
    else 63
  }

  lemma Base64CharValue(d: int)
    requires 0 <= d < 64
    ensures IsBase64Char(Base64Char(d)) && Base64Value(Base64Char(d)) == d
  {
  }

  /** The 6-bit values below 64 that three bytes split into. */
  lemma SextetBounds(b0: byte, b1: byte, b2: byte)
    ensures 0 <= b0 / 4 < 64 && 0 <= (b0 % 4) * 16 + b1 / 16 < 64
    ensures 0 <= (b1 % 16) * 4 + b2 / 64 < 64 && 0 <= b2 % 64 < 64
  {
  }

  function Base64Group(b0: byte, b1: byte, b2: byte): (r: string)
    ensures |r| == 4
  {
    SextetBounds(b0, b1, b2);
    [Base64Char(b0 / 4), Base64Char((b0 % 4) * 16 + b1 / 16),
     Base64Char((b1 % 16) * 4 + b2 / 64), Base64Char(b2 % 64)]
  }

  /** Standard base64 with `=` padding. */
  function Base64Encode(b: seq<byte>): (r: string)
  {
    if |b| == 0 then ""
    else if |b| == 1 then
      SextetBounds(b[0], 0, 0);
      [Base64Char(b[0] / 4), Base64Char((b[0] % 4) * 16), '=', '=']
    else if |b| == 2 then
      SextetBounds(b[0], b[1], 0);
      [Base64Char(b[0] / 4), Base64Char((b[0] % 4) * 16 + b[1] / 16),
       Base64Char((b[1] % 16) * 4), '=']
    else Base64Group(b[0], b[1], b[2]) + Base64Encode(b[3..])
  }

  predicate ValidQuad(q: string, last: bool)
    requires |q| == 4
  {
    IsBase64Char(q[0]) && IsBase64Char(q[1])
    && ((IsBase64Char(q[2]) && IsBase64Char(q[3]))
        || (last && IsBase64Char(q[2]) && q[3] == '=')
        || (last && q[2] == '=' && q[3] == '='))
  }

  /** Well-formed base64 text: groups of four, padding only in the last. */
  predicate IsBase64Text(s: string)
    decreases |s|
  {
    |s| == 0 || (|s| >= 4 && ValidQuad(s[..4], |s| == 4) && IsBase64Text(s[4..]))
  }

  function DecodeQuad(q: string): seq<byte>
    requires |q| == 4 && ValidQuad(q, true)
  {
    var v0 := Base64Value(q[0]);
    var v1 := Base64Value(q[1]);
    if q[2] == '=' then [v0 * 4 + v1 / 16]
    else
      var v2 := Base64Value(q[2]);
      if q[3] == '=' then [v0 * 4 + v1 / 16, (v1 % 16) * 16 + v2 / 4]
      else [v0 * 4 + v1 / 16, (v1 % 16) * 16 + v2 / 4, (v2 % 4) * 64 + Base64Value(q[3])]
  }

  function Base64Decode(s: string): seq<byte>
    requires IsBase64Text(s)
    decreases |s|
  {
    if |s| == 0 then [] else DecodeQuad(s[..4]) + Base64Decode(s[4..])
  }

  lemma Base64GroupArith(b0: byte, b1: byte, b2: byte)
    ensures (b0 / 4) * 4 + ((b0 % 4) * 16 + b1 / 16) / 16 == b0
    ensures (((b0 % 4) * 16 + b1 / 16) % 16) * 16 + ((b1 % 16) * 4 + b2 / 64) / 4 == b1
    ensures (((b1 % 16) * 4 + b2 / 64) % 4) * 64 + b2 % 64 == b2
  {
  }

  lemma FullQuad(b0: byte, b1: byte, b2: byte)
    ensures ValidQuad(Base64Group(b0, b1, b2), false)
    ensures DecodeQuad(Base64Group(b0, b1, b2)) == [b0, b1, b2]
  {
    SextetBounds(b0, b1, b2);
    var d0, d1, d2, d3 := b0 / 4, (b0 % 4) * 16 + b1 / 16, (b1 % 16) * 4 + b2 / 64, b2 % 64;
    var q := Base64Group(b0, b1, b2);
    assert q == [Base64Char(d0), Base64Char(d1), Base64Char(d2), Base64Char(d3)];
    Base64CharValue(d0);
    Base64CharValue(d1);
    Base64CharValue(d2);
    Base64CharValue(d3);
    assert q[2] != '=' && q[3] != '=';
    assert DecodeQuad(q) == [d0 * 4 + d1 / 16, (d1 % 16) * 16 + d2 / 4, (d2 % 4) * 64 + d3];
    Base64GroupArith(b0, b1, b2);
  }

  lemma TwoByteQuad(b0: byte, b1: byte)
    ensures var q := Base64Encode([b0, b1]);
      |q| == 4 && ValidQuad(q, true) && DecodeQuad(q) == [b0, b1]
  {
    SextetBounds(b0, b1, 0);
    var d0, d1, d2 := b0 / 4, (b0 % 4) * 16 + b1 / 16, (b1 % 16) * 4;
    var q := Base64Encode([b0, b1]);
    assert q == [Base64Char(d0), Base64Char(d1), Base64Char(d2), '='];
    Base64CharValue(d0);
    Base64CharValue(d1);
    Base64CharValue(d2);
    assert q[2] != '=';
    assert DecodeQuad(q) == [d0 * 4 + d1 / 16, (d1 % 16) * 16 + d2 / 4];
    Base64GroupArith(b0, b1, 0);
  }

  lemma OneByteQuad(b0: byte)
    ensures var q := Base64Encode([b0]);
      |q| == 4 && ValidQuad(q, true) && DecodeQuad(q) == [b0]
  {
    Base64CharValue(b0 / 4);
    Base64CharValue((b0 % 4) * 16);
    Base64GroupArith(b0, 0, 0);
  }

  lemma Base64EncodeCons(b: seq<byte>)
    requires |b| >= 3
    ensures Base64Encode(b) == Base64Group(b[0], b[1], b[2]) + Base64Encode(b[3..])
  {
  }

  lemma QuadCons(g: string, t: string)
    requires |g| == 4 && ValidQuad(g, false) && IsBase64Text(t)
    ensures IsBase64Text(g + t)
    ensures Base64Decode(g + t) == DecodeQuad(g) + Base64Decode(t)
  {
    assert (g + t)[..4] == g && (g + t)[4..] == t;
    assert ValidQuad(g, |g + t| == 4);
  }

  lemma LastQuad(q: string)
    requires |q| == 4 && ValidQuad(q, true)
    ensures IsBase64Text(q) && Base64Decode(q) == DecodeQuad(q)
  {
    assert q[..4] == q && q[4..] == [];
  }

  /** Base64 decoding inverts the encoding the mailer applies to binary
      attachments. */
  lemma {:induction false} Base64RoundTrip(b: seq<byte>)
    ensures IsBase64Text(Base64Encode(b))
    ensures Base64Decode(Base64Encode(b)) == b
    decreases |b|
  {
    if |b| == 1 {
      ShortRoundTrip(b);
    } else if |b| == 2 {
      ShortRoundTrip(b);
    } else if |b| >= 3 {
      Base64RoundTrip(b[3..]);
      GroupRoundTrip(b);
    }
  }

  lemma ShortRoundTrip(b: seq<byte>)
    requires 1 <= |b| <= 2
    ensures IsBase64Text(Base64Encode(b)) && Base64Decode(Base64Encode(b)) == b
  {
    if |b| == 1 {
      assert b == [b[0]];
      OneByteRoundTrip(b[0]);
    } else {
      assert b == [b[0], b[1]];
      TwoByteRoundTrip(b[0], b[1]);
    }
  }

  lemma OneByteRoundTrip(b0: byte)
    ensures IsBase64Text(Base64Encode([b0])) && Base64Decode(Base64Encode([b0])) == [b0]
  {
    OneByteQuad(b0);
    LastQuad(Base64Encode([b0]));
  }

  lemma TwoByteRoundTrip(b0: byte, b1: byte)
    ensures IsBase64Text(Base64Encode([b0, b1])) && Base64Decode(Base64Encode([b0, b1])) == [b0, b1]
  {
    TwoByteQuad(b0, b1);
    LastQuad(Base64Encode([b0, b1]));
  }

  lemma GroupRoundTrip(b: seq<byte>)
    requires |b| >= 3
    requires IsBase64Text(Base64Encode(b[3..])) && Base64Decode(Base64Encode(b[3..])) == b[3..]
    ensures IsBase64Text(Base64Encode(b)) && Base64Decode(Base64Encode(b)) == b
  {
    var g := Base64Group(b[0], b[1], b[2]);
    var t := Base64Encode(b[3..]);
    FullQuad(b[0], b[1], b[2]);
    Base64EncodeCons(b);
    QuadCons(g, t);
    ThreeThenRest(b);
  }

  lemma ThreeThenRest(b: seq<byte>)
    requires |b| >= 3
    ensures [b[0], b[1], b[2]] + b[3..] == b
  {
    assert b[..3] == [b[0], b[1], b[2]];
    assert b[..3] + b[3..] == b;
  }

}
