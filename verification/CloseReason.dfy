/** Cutting a close reason to the bytes a close frame may carry (section 5.5 of RFC 6455), over UTF-8 as
    in section 3 of RFC 3629. */
module CloseReason {

  const MAX_BYTES: nat := 123

  /** A Unicode scalar value: a code point that is not a surrogate. */
  type Scalar = c: int | 0 <= c < 0xD800 || 0xE000 <= c < 0x110000

  type Byte = b: int | 0 <= b < 256

  function EncodeScalar(c: Scalar): (bytes: seq<Byte>)
    ensures 1 <= |bytes| <= 4
  {
    if c < 0x80 then [c]
    else if c < 0x800 then [0xC0 + c / 64, 0x80 + c % 64]
    else if c < 0x10000 then [0xE0 + c / 4096, 0x80 + c / 64 % 64, 0x80 + c % 64]
    else [0xF0 + c / 262144, 0x80 + c / 4096 % 64, 0x80 + c / 64 % 64, 0x80 + c % 64]
  }

  function Encode(s: seq<Scalar>): seq<Byte> {
    if s == [] then [] else EncodeScalar(s[0]) + Encode(s[1..])
  }

  predicate IsTail(b: Byte) {
    0x80 <= b < 0xC0
  }

  /** The second bytes that can follow a lead byte: no overlong form, no surrogate, nothing past U+10FFFF. */
  predicate Follows(lead: Byte, b: Byte) {
    && IsTail(b)
    && (lead == 0xE0 ==> b >= 0xA0)
    && (lead == 0xED ==> b < 0xA0)
    && (lead == 0xF0 ==> b >= 0x90)
    && (lead == 0xF4 ==> b < 0x90)
  }

  function Length(lead: Byte): nat {
    if lead < 0x80 then 1
    else if 0xC2 <= lead < 0xE0 then 2
    else if 0xE0 <= lead < 0xF0 then 3
    else if 0xF0 <= lead < 0xF5 then 4
    else 0
  }

  /** What a strict decoder sees first: a whole character, or some bytes that cannot begin one. */
  datatype Head = Whole(c: Scalar, length: nat) | Broken(length: nat)

  /** The payload bits of a tail byte. */
  function Bits(b: int): int {
    b - 0x80
  }

  function ReadHead(b: seq<Byte>): (h: Head)
    requires b != []
    ensures 1 <= h.length <= |b|
  {
    var n, lead: int := Length(b[0]), b[0];
    if n == 1 then Whole(lead, 1)
    else if n == 0 || |b| < 2 || !Follows(b[0], b[1]) then Broken(1)
    else if n == 2 then Whole((lead - 0xC0) * 64 + Bits(b[1]), 2)
    else if |b| < 3 || !IsTail(b[2]) then Broken(2)
    else if n == 3 then Whole((lead - 0xE0) * 4096 + Bits(b[1]) * 64 + Bits(b[2]), 3)
    else if |b| < 4 || !IsTail(b[3]) then Broken(3)
    else Whole((lead - 0xF0) * 262144 + Bits(b[1]) * 4096 + Bits(b[2]) * 64 + Bits(b[3]), 4)
  }

  /** Decoding with errors ignored: broken bytes are skipped. */
  function DecodeIgnoring(b: seq<Byte>): seq<Scalar>
    decreases |b|
  {
    if b == [] then []
    else
      match ReadHead(b)
      case Whole(c, n) => [c] + DecodeIgnoring(b[n..])
      case Broken(n) => DecodeIgnoring(b[n..])
  }

  function Truncate(reason: seq<Scalar>, limit: nat): seq<Scalar> {
    var bytes := Encode(reason);
    if |bytes| <= limit then reason else DecodeIgnoring(bytes[..limit])
  }

  /** Base-64 digits put together again. */
  lemma Digits(c: nat)
    ensures c == c / 64 * 64 + c % 64
    ensures c == c / 4096 * 4096 + c / 64 % 64 * 64 + c % 64
    ensures c == c / 262144 * 262144 + c / 4096 % 64 * 4096 + c / 64 % 64 * 64 + c % 64
  {
    assert c / 64 / 64 == c / 4096 && c / 4096 / 64 == c / 262144;
  }

  /** A whole encoded character is read back, whatever follows it. */
  lemma EncodingIsRead(c: Scalar, rest: seq<Byte>)
    ensures ReadHead(EncodeScalar(c) + rest) == Whole(c, |EncodeScalar(c)|)
  {
    var e := EncodeScalar(c);
    var b := e + rest;
    assert b[0] == e[0] && (|e| > 1 ==> b[1] == e[1]) && (|e| > 2 ==> b[2] == e[2]) && (|e| > 3 ==> b[3] == e[3]);
    Digits(c);
    LeadIsRight(c);
  }

  /** The lead byte announces the length, and the second byte is one that may follow it. */
  lemma LeadIsRight(c: Scalar)
    ensures var e := EncodeScalar(c); Length(e[0]) == |e| && (|e| > 1 ==> Follows(e[0], e[1]))
  {}

  /** A character cut short is dropped as a whole, not turned into something else. */
  lemma CutCharacterIsDropped(c: Scalar, n: nat)
    requires n < |EncodeScalar(c)|
    ensures DecodeIgnoring(EncodeScalar(c)[..n]) == []
  {}

  /** How many characters fit into so many bytes. */
  function Fitting(s: seq<Scalar>, limit: nat): (k: nat)
    ensures k <= |s|
  {
    if s == [] || |EncodeScalar(s[0])| > limit then 0
    else 1 + Fitting(s[1..], limit - |EncodeScalar(s[0])|)
  }

  /** Exactly the characters that fit survive: the longest prefix within the limit, no shorter, no longer. */
  lemma {:induction false} FittingIsLongest(s: seq<Scalar>, limit: nat, k: nat)
    requires k <= |s|
    ensures |Encode(s[..k])| <= limit <==> k <= Fitting(s, limit)
    decreases s
  {
    if k > 0 {
      var first := |EncodeScalar(s[0])|;
      assert s[..k][0] == s[0] && s[..k][1..] == s[1..][..k - 1];
      if first <= limit {
        FittingIsLongest(s[1..], limit - first, k - 1);
      }
    }
  }

  lemma {:induction false} CutDecodesToFitting(s: seq<Scalar>, limit: nat)
    requires limit <= |Encode(s)|
    ensures DecodeIgnoring(Encode(s)[..limit]) == s[..Fitting(s, limit)]
    decreases s
  {
    if s != [] {
      var head, tail := EncodeScalar(s[0]), Encode(s[1..]);
      if |head| > limit {
        assert Encode(s)[..limit] == head[..limit];
        CutCharacterIsDropped(s[0], limit);
      } else {
        var rest := tail[..limit - |head|];
        assert Encode(s)[..limit] == head + rest;
        EncodingIsRead(s[0], rest);
        assert (head + rest)[|head|..] == rest;
        CutDecodesToFitting(s[1..], limit - |head|);
        assert s[..Fitting(s, limit)] == [s[0]] + s[1..][..Fitting(s[1..], limit - |head|)];
      }
    }
  }

  /** The truncated reason is the longest prefix of whole characters whose encoding fits. */
  lemma TruncateIsLongestPrefix(reason: seq<Scalar>, limit: nat)
    ensures var r := Truncate(reason, limit);
      && |r| <= |reason| && r == reason[..|r|]
      && |Encode(r)| <= limit
      && forall k: nat :: |r| < k <= |reason| ==> |Encode(reason[..k])| > limit
  {
    var r := Truncate(reason, limit);
    if |Encode(reason)| > limit {
      CutDecodesToFitting(reason, limit);
    }
    assert reason[..|reason|] == reason;
    forall k: nat | |r| <= k <= |reason|
      ensures |Encode(reason[..k])| <= limit <==> k <= Fitting(reason, limit)
    {
      FittingIsLongest(reason, limit, k);
    }
  }

  /** Decoding undoes encoding. */
  lemma DecodeUndoesEncode(s: seq<Scalar>)
    ensures DecodeIgnoring(Encode(s)) == s
  {
    CutDecodesToFitting(s, |Encode(s)|);
    FittingIsLongest(s, |Encode(s)|, |s|);
    assert Encode(s)[..|Encode(s)|] == Encode(s) && s[..|s|] == s;
  }

  /** The close frame's reason never exceeds what the protocol allows and never ends inside a character. */
  lemma CloseReasonFits(reason: seq<Scalar>)
    ensures |Encode(Truncate(reason, MAX_BYTES))| <= MAX_BYTES
    ensures Truncate(reason, MAX_BYTES) == reason <==> |Encode(reason)| <= MAX_BYTES
    ensures Truncate(Truncate(reason, MAX_BYTES), MAX_BYTES) == Truncate(reason, MAX_BYTES)
  {
    TruncateIsLongestPrefix(reason, MAX_BYTES);
  }

  /** Characters of the examples in section 7 of RFC 3629, and the bound of section 5.5 of RFC 6455 less the two bytes
      of the close code. */
  lemma KnownEncodings()
    ensures EncodeScalar(0x41) == [0x41] && EncodeScalar(0x391) == [0xCE, 0x91]
    ensures EncodeScalar(0x2262) == [0xE2, 0x89, 0xA2] && EncodeScalar(0xD55C) == [0xED, 0x95, 0x9C]
    ensures EncodeScalar(0x65E5) == [0xE6, 0x97, 0xA5] && EncodeScalar(0x233B4) == [0xF0, 0xA3, 0x8E, 0xB4]
    ensures MAX_BYTES == 125 - 2
  {}

  /** The code points at which one more byte is needed. */
  lemma EncodingWidths(c: Scalar)
    ensures |EncodeScalar(c)| == if c < 0x80 then 1 else if c < 0x800 then 2 else if c < 0x10000 then 3 else 4
    ensures Encode([c]) == EncodeScalar(c)
  {}

  /** Text is encoded character by character. */
  lemma {:induction false} EncodeAppends(s: seq<Scalar>, t: seq<Scalar>)
    ensures Encode(s + t) == Encode(s) + Encode(t)
  {
    if s == [] {
      assert s + t == t;
    } else {
      EncodeAppends(s[1..], t);
      assert (s + t)[1..] == s[1..] + t;
    }
  }

  /** Bytes that no strict decoder accepts are skipped and the rest is read on: a lone tail byte, an overlong form, a
      surrogate, and a character that breaks off before an ASCII one. */
  lemma BrokenBytesSkipped()
    ensures DecodeIgnoring([0x41, 0x80, 0x42]) == [0x41, 0x42]
    ensures DecodeIgnoring([0xC0, 0xAF, 0x2E]) == [0x2E]
    ensures DecodeIgnoring([0xED, 0xA0, 0x80, 0x2E]) == [0x2E]
    ensures DecodeIgnoring([0xE2, 0x89, 0x41]) == [0x41]
  {}

  lemma OverlongFormsSkipped()
    ensures DecodeIgnoring([0xE0, 0x80, 0x80, 0x2E]) == [0x2E]
    ensures DecodeIgnoring([0xF0, 0x80, 0x80, 0x80, 0x2E]) == [0x2E]
    ensures DecodeIgnoring([0xF4, 0x90, 0x80, 0x80, 0x2E]) == [0x2E]
  {}
}
