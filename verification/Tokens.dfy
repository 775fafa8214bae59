/** Device tokens: "jv1", a canonical UUID (section 4 of RFC 9562) and a secret, joined by periods. */
module Tokens {
  import opened Domain

  const PREFIX := "jv1"
  const MAX_LENGTH: nat := 256
  const MIN_SECRET: nat := 16

  /** The longest secret whose token is still parsed: 256 less the prefix, the UUID and two periods. */
  const MAX_SECRET: nat := 215

  function Pow16(w: nat): (p: nat)
    ensures p > 0
  {
    if w == 0 then 1 else 16 * Pow16(w - 1)
  }

  /** 32 hexadecimal digits, that is 128 bits. */
  type Uuid = u: nat | u < Pow16(32) witness 0

  // ---------- Hexadecimal ----------

  function Digit(n: nat): char
    requires n < 16
  {
    "0123456789abcdef"[n]
  }

  function DigitValue(c: char): (v: Option<nat>)
    ensures v.Some? ==> v.value < 16
  {
    if '0' <= c <= '9' then Some((c - '0') as int)
    else if 'a' <= c <= 'f' then Some((c - 'a') as int + 10)
    else if 'A' <= c <= 'F' then Some((c - 'A') as int + 10)
    else None
  }

  function HexDigits(n: nat, w: nat): (s: string)
    ensures |s| == w
  {
    if w == 0 then [] else HexDigits(n / 16, w - 1) + [Digit(n % 16)]
  }

  predicate AllHex(s: string) {
    forall i :: 0 <= i < |s| ==> DigitValue(s[i]).Some?
  }

  function HexValue(s: string): (n: nat)
    requires AllHex(s)
    ensures n < Pow16(|s|)
  {
    if s == [] then 0 else HexValue(s[..|s| - 1]) * 16 + DigitValue(s[|s| - 1]).value
  }

  /** Printed digits are lower case and read back as the number. */
  lemma {:induction false} HexRoundTrip(n: nat, w: nat)
    requires n < Pow16(w)
    ensures AllHex(HexDigits(n, w)) && HexValue(HexDigits(n, w)) == n
    ensures forall c <- HexDigits(n, w) :: '0' <= c <= '9' || 'a' <= c <= 'f'
  {
    if w > 0 {
      HexRoundTrip(n / 16, w - 1);
      var s := HexDigits(n, w);
      assert s[..w - 1] == HexDigits(n / 16, w - 1);
      assert DigitValue(Digit(n % 16)) == Some(n % 16);
    }
  }

  lemma {:induction false} Pow16Monotone(v: nat, w: nat)
    requires v <= w
    ensures Pow16(v) <= Pow16(w)
    decreases w
  {
    if v < w {
      Pow16Monotone(v, w - 1);
    }
  }

  // ---------- UUID text ----------

  function Canonical(u: Uuid): (s: string)
    ensures |s| == 36
  {
    Hyphenated(HexDigits(u, 32))
  }

  function Hyphenated(h: string): (s: string)
    requires |h| == 32
    ensures |s| == 36
  {
    h[..8] + "-" + (h[8..12] + "-" + (h[12..16] + "-" + (h[16..20] + "-" + h[20..])))
  }

  /** str.replace(sub, ""). */
  function Without(s: string, sub: string): (r: string)
    requires sub != []
    ensures |r| <= |s|
    decreases |s|
  {
    if s == [] then []
    else if sub <= s then Without(s[|sub|..], sub)
    else [s[0]] + Without(s[1..], sub)
  }

  function StripBraces(s: string): (r: string)
    ensures |r| <= |s|
    decreases |s|
  {
    if s == [] then []
    else if s[0] == '{' || s[0] == '}' then StripBraces(s[1..])
    else if s[|s| - 1] == '{' || s[|s| - 1] == '}' then StripBraces(s[..|s| - 1])
    else s
  }

  /** Single underscores may stand between digits. */
  predicate UnderscoresApart(s: string) {
    && s != [] && s[0] != '_' && s[|s| - 1] != '_'
    && forall i :: 0 <= i < |s| - 1 ==> !(s[i] == '_' && s[i + 1] == '_')
  }

  /** The text that int(text, 16) reads digits from: outer space, a plus sign and a 0x prefix are skipped. */
  function AfterPrefix(s: string): (r: string)
    ensures |r| <= |s|
  {
    var t := Strip(s);
    var u := if t != [] && t[0] == '+' then t[1..] else t;
    if "0x" <= u || "0X" <= u then (if |u| > 2 && u[2] == '_' then u[3..] else u[2..]) else u
  }

  function IntBase16(s: string): (v: Option<nat>)
    ensures v.Some? ==> v.value < Pow16(|s|)
  {
    var t := AfterPrefix(s);
    var digits := Without(t, "_");
    if UnderscoresApart(t) && AllHex(digits)
    then Pow16Monotone(|digits|, |s|); Some(HexValue(digits))
    else None
  }

  /** UUID(text), None where it raises ValueError. */
  function ParseUuid(text: string): Option<Uuid> {
    var h := Without(StripBraces(Without(Without(text, "urn:"), "uuid:")), "-");
    if |h| != 32 then None
    else
      match IntBase16(h)
      case Some(n) => Some(n)
      case None => None
  }

  lemma {:induction false} WithoutNothing(s: string, sub: string)
    requires sub != [] && sub[0] !in s
    ensures Without(s, sub) == s
  {
    if s != [] {
      WithoutNothing(s[1..], sub);
    }
  }

  lemma {:induction false} WithoutFirst(a: string, b: string, c: char)
    requires c !in a
    ensures Without(a + [c] + b, [c]) == a + Without(b, [c])
  {
    var s := a + [c] + b;
    if a == [] {
      assert s[1..] == b;
    } else {
      assert s[1..] == a[1..] + [c] + b;
      assert s[0] == a[0] && !([c] <= s);
      WithoutFirst(a[1..], b, c);
    }
  }

  predicate LowerHex(s: string) {
    forall c <- s :: '0' <= c <= '9' || 'a' <= c <= 'f'
  }

  /** Taking the hyphens out of hyphenated digits leaves the digits. */
  lemma HyphensDrop(h: string)
    requires |h| == 32 && '-' !in h
    ensures Without(Hyphenated(h), "-") == h
  {
    WithoutNothing(h[20..], "-");
    WithoutFirst(h[16..20], h[20..], '-');
    WithoutFirst(h[12..16], h[16..20] + "-" + h[20..], '-');
    WithoutFirst(h[8..12], h[12..16] + "-" + (h[16..20] + "-" + h[20..]), '-');
    WithoutFirst(h[..8], h[8..12] + "-" + (h[12..16] + "-" + (h[16..20] + "-" + h[20..])), '-');
    assert h[..8] + (h[8..12] + (h[12..16] + (h[16..20] + h[20..]))) == h;
  }

  /** int(…, 16) of plain lower-case digits is their value. */
  lemma IntOfPlainDigits(h: string)
    requires h != [] && LowerHex(h) && AllHex(h)
    ensures IntBase16(h) == Some(HexValue(h))
  {
    StripProjects(h);
    assert h[0] in h && h[|h| - 1] in h;
    assert |h| > 1 ==> h[1] in h;
    assert AfterPrefix(h) == h;
    WithoutNothing(h, "_");
  }

  /** Canonical text consists of hyphens and lower-case digits, with a digit at either end. */
  lemma CanonicalCharacters(u: Uuid)
    ensures forall c <- Canonical(u) :: c == '-' || '0' <= c <= '9' || 'a' <= c <= 'f'
    ensures Canonical(u)[0] in HexDigits(u, 32) && Canonical(u)[35] in HexDigits(u, 32)
    ensures LowerHex(HexDigits(u, 32)) && AllHex(HexDigits(u, 32))
  {
    HexRoundTrip(u, 32);
    HyphenatedCharacters(HexDigits(u, 32));
  }

  lemma HyphenatedCharacters(h: string)
    requires |h| == 32
    ensures forall c <- Hyphenated(h) :: c == '-' || c in h
    ensures Hyphenated(h)[0] == h[0] && Hyphenated(h)[35] == h[31]
  {}

  /** Canonical text is read back as its UUID. */
  lemma CanonicalParses(u: Uuid)
    ensures ParseUuid(Canonical(u)) == Some(u)
  {
    var text, h := Canonical(u), HexDigits(u, 32);
    CanonicalCharacters(u);
    WithoutNothing(text, "urn:");
    WithoutNothing(text, "uuid:");
    assert StripBraces(text) == text;
    HyphensDrop(h);
    IntOfPlainDigits(h);
    HexRoundTrip(u, 32);
  }

  // ---------- Tokens ----------

  function Split(s: string, at: char): (parts: seq<string>)
    ensures parts != []
  {
    if s == [] then [[]]
    else if s[0] == at then [[]] + Split(s[1..], at)
    else
      var rest := Split(s[1..], at);
      [[s[0]] + rest[0]] + rest[1..]
  }

  datatype Issue = Issued(token: string) | SecretTooShort | SecretHasPeriod

  function Token(id: Uuid, secret: string): string {
    PREFIX + "." + Canonical(id) + "." + secret
  }

  function IssueToken(id: Uuid, secret: string): Issue {
    if |secret| < MIN_SECRET then SecretTooShort
    else if '.' in secret then SecretHasPeriod
    else Issued(Token(id, secret))
  }

  function ParseTokenId(token: string): Option<Uuid> {
    if |token| > MAX_LENGTH then None
    else
      var parts := Split(token, '.');
      if |parts| != 3 || parts[0] != PREFIX || parts[2] == [] then None else ParseUuid(parts[1])
  }

  lemma {:induction false} SplitWhole(s: string, at: char)
    requires at !in s
    ensures Split(s, at) == [s]
  {
    if s != [] {
      SplitWhole(s[1..], at);
      assert [s[0]] + s[1..] == s;
    }
  }

  lemma {:induction false} SplitFirst(a: string, b: string, at: char)
    requires at !in a
    ensures Split(a + [at] + b, at) == [a] + Split(b, at)
  {
    var s := a + [at] + b;
    if a == [] {
      assert s[1..] == b;
    } else {
      assert s[1..] == a[1..] + [at] + b;
      SplitFirst(a[1..], b, at);
      assert [a[0]] + a[1..] == a;
    }
  }

  lemma TokenSplits(id: Uuid, secret: string)
    requires '.' !in secret
    ensures Split(Token(id, secret), '.') == [PREFIX, Canonical(id), secret]
  {
    CanonicalCharacters(id);
    assert Token(id, secret) == PREFIX + ['.'] + (Canonical(id) + ['.'] + secret);
    SplitFirst(PREFIX, Canonical(id) + ['.'] + secret, '.');
    SplitFirst(Canonical(id), secret, '.');
    SplitWhole(secret, '.');
  }

  /** Every token that issue hands out gives back its id, exactly when its secret is at most 215
      characters; a longer one can never be parsed, so it could never authenticate. */
  lemma IssuedTokenParses(id: Uuid, secret: string)
    requires IssueToken(id, secret).Issued?
    ensures ParseTokenId(IssueToken(id, secret).token) == if |secret| <= MAX_SECRET then Some(id) else None
  {
    TokenSplits(id, secret);
    CanonicalParses(id);
  }

  /** Different ids or secrets give different tokens. */
  lemma TokenInjective(id: Uuid, secret: string, id': Uuid, secret': string)
    requires '.' !in secret && '.' !in secret' && Token(id, secret) == Token(id', secret')
    ensures id == id' && secret == secret'
  {
    TokenSplits(id, secret);
    TokenSplits(id', secret');
    assert [PREFIX, Canonical(id), secret][1] == [PREFIX, Canonical(id'), secret'][1];
    assert [PREFIX, Canonical(id), secret][2] == [PREFIX, Canonical(id'), secret'][2];
    CanonicalParses(id);
    CanonicalParses(id');
  }

  /** A token is issued exactly for a secret of at least sixteen characters without a period, and it is the prefix,
      the id's canonical text and the secret between periods. */
  lemma IssuesExactly(id: Uuid, secret: string)
    ensures var r := IssueToken(id, secret);
      && (r.Issued? <==> |secret| >= 16 && '.' !in secret)
      && (r == SecretTooShort <==> |secret| < 16)
      && (r.Issued? ==> r.token == "jv1." + Canonical(id) + "." + secret)
  {}

  /** Canonical text has hyphens after 8, 12, 16 and 20 digits, and nothing else between the 32 digits. */
  lemma CanonicalLayout(u: Uuid)
    ensures var s, h := Canonical(u), HexDigits(u, 32);
      && s[8] == s[13] == s[18] == s[23] == '-'
      && s[..8] == h[..8] && s[9..13] == h[8..12] && s[14..18] == h[12..16]
      && s[19..23] == h[16..20] && s[24..] == h[20..]
  {
    HyphenatedLayout(HexDigits(u, 32));
  }

  lemma HyphenatedLayout(h: string)
    requires |h| == 32
    ensures var s := Hyphenated(h);
      && s[8] == s[13] == s[18] == s[23] == '-'
      && s[..8] == h[..8] && s[9..13] == h[8..12] && s[14..18] == h[12..16]
      && s[19..23] == h[16..20] && s[24..] == h[20..]
  {}

  /** An id is read only from three parts, the first the prefix and the last not empty, in at most 256 characters. */
  lemma ParsesExactly(token: string)
    ensures var parts := Split(token, '.');
      ParseTokenId(token) ==
        if |token| <= 256 && |parts| == 3 && parts[0] == "jv1" && parts[2] != "" then ParseUuid(parts[1]) else None
  {}

  /** Splitting loses nothing but the separators. */
  lemma {:induction false} SplitRejoins(s: string, at: char)
    ensures Joined(Split(s, at), at) == s
    ensures forall part <- Split(s, at) :: at !in part
  {
    if s != [] {
      SplitRejoins(s[1..], at);
      var rest := Split(s[1..], at);
      if s[0] == at {
        assert ([[]] + rest)[1..] == rest;
      } else {
        assert ([[s[0]] + rest[0]] + rest[1..])[1..] == rest[1..];
      }
    }
  }

  function Joined(parts: seq<string>, at: char): string
    requires parts != []
  {
    if |parts| == 1 then parts[0] else parts[0] + [at] + Joined(parts[1..], at)
  }

  /** Hexadecimal digits of both cases, and nothing else. */
  lemma DigitsExactly(c: char)
    ensures DigitValue(c) ==
      if '0' <= c <= '9' then Some((c as int) - 48)
      else if 'A' <= c <= 'F' then Some((c as int) - 55)
      else if 'a' <= c <= 'f' then Some((c as int) - 87)
      else None
  {}

  /** Does the digits' text begin with a sign or a prefix? */
  predicate Plain(t: string) {
    t != [] && Stripped(t) && t[0] != '+' && !("0x" <= t) && !("0X" <= t)
  }

  /** int(text, 16) skips a plus sign, and a 0x or 0X prefix with an underscore after it, before the digits. */
  lemma SignSkipped(t: string)
    requires Plain(t)
    ensures AfterPrefix(t) == AfterPrefix("+" + t) == t
  {
    StripProjects(t);
    StripProjects("+" + t);
    assert ("+" + t)[1..] == t;
  }

  lemma PrefixSkipped(t: string, prefix: string)
    requires Plain(t) && (prefix == "0x" || prefix == "0X")
    ensures AfterPrefix(prefix + t) == if t[0] == '_' then t[1..] else t
  {
    var s := prefix + t;
    StripProjects(s);
    assert s[2..] == t && s[2] == t[0] && s[3..] == t[1..];
    assert prefix <= s;
  }

  /** It then reads digits with single underscores between them, and refuses everything else. */
  lemma ReadsDigitsExactly(s: string)
    ensures var t := AfterPrefix(s);
      var digits := Without(t, "_");
      var apart :=
        t != "" && t[0] != '_' && t[|t| - 1] != '_' && forall i :: 0 < i < |t| && t[i] == '_' ==> t[i - 1] != '_';
      IntBase16(s) == if apart && AllHex(digits) then Some(HexValue(digits)) else None
  {
    var t := AfterPrefix(s);
    if UnderscoresApart(t) {
      assert forall i :: 0 < i < |t| && t[i] == '_' ==> !(t[i - 1] == '_' && t[i - 1 + 1] == '_');
    } else if t != "" && t[0] != '_' && t[|t| - 1] != '_' {
      var i :| 0 <= i < |t| - 1 && t[i] == '_' && t[i + 1] == '_';
      assert t[i + 1] == '_' && t[i + 1 - 1] == '_';
    }
  }

  /** Braces around an id are skipped. */
  lemma BracesSkipped(s: string)
    requires s != [] && '{' !in s && '}' !in s
    ensures StripBraces(s) == StripBraces("{" + s + "}") == StripBraces("{" + s) == StripBraces(s + "}") == s
  {
    assert StripBraces(s) == s;
    assert ("{" + s)[1..] == s && (s + "}")[..|s|] == s && ("{" + s + "}")[1..] == s + "}";
  }

  /** An id is 32 digits once urn:, uuid:, braces and hyphens are taken away. */
  lemma ParsesUuidExactly(text: string)
    ensures var h := Without(StripBraces(Without(Without(text, "urn:"), "uuid:")), "-");
      ParseUuid(text) == if |h| == 32 then IntBase16(h) else None
  {}
}
