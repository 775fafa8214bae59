/** Shared vocabulary of the device hub: identifiers, capabilities and text normalisation. */
module Domain {

  /** A UUID where only its identity matters. */
  type Id = nat

  datatype Option<+T> = None | Some(value: T)

  datatype Capability = OpenApp | Files | System

  datatype Status = Offline | Connecting | Online | Revoked

  /** The characters Python's str.strip() removes. */
  predicate IsSpace(c: char) {
    || '\t' <= c <= '\r'
    || '\U{1c}' <= c <= ' '
    || c in {'\U{85}', '\U{a0}', '\U{1680}', '\U{2028}', '\U{2029}', '\U{202f}', '\U{205f}', '\U{3000}'}
    || '\U{2000}' <= c <= '\U{200a}'
  }

  function StripLeft(s: string): (r: string)
    ensures |r| <= |s|
  {
    if s != [] && IsSpace(s[0]) then StripLeft(s[1..]) else s
  }

  function StripRight(s: string): (r: string)
    ensures |r| <= |s|
  {
    if s != [] && IsSpace(s[|s| - 1]) then StripRight(s[..|s| - 1]) else s
  }

  function Strip(s: string): string {
    StripRight(StripLeft(s))
  }

  /** No space at either end: what stripping leaves. */
  predicate Stripped(s: string) {
    s == [] || (!IsSpace(s[0]) && !IsSpace(s[|s| - 1]))
  }

  lemma StripLeftEnds(s: string)
    ensures StripLeft(s) == [] || !IsSpace(StripLeft(s)[0])
  {}

  lemma StripRightEnds(s: string)
    ensures var r := StripRight(s); r == [] || (r[0] == s[0] && !IsSpace(r[|r| - 1]))
  {}

  /** Stripping is a projection: its image is exactly the stripped strings, which it fixes. */
  lemma StripProjects(s: string)
    ensures Stripped(Strip(s))
    ensures Stripped(s) <==> Strip(s) == s
  {
    StripLeftEnds(s);
    StripRightEnds(StripLeft(s));
  }

  predicate AllSpace(s: string) {
    forall c <- s :: IsSpace(c)
  }

  lemma StripLeftCuts(s: string) returns (n: nat)
    ensures n <= |s| && StripLeft(s) == s[n..] && AllSpace(s[..n])
  {
    if s != [] && IsSpace(s[0]) {
      var rest := s[1..];
      var k := StripLeftCuts(rest);
      n := k + 1;
      assert rest[k..] == s[n..] && s[..n] == [s[0]] + rest[..k];
    } else {
      n := 0;
    }
  }

  lemma StripRightCuts(s: string) returns (n: nat)
    ensures n <= |s| && StripRight(s) == s[..n] && AllSpace(s[n..])
  {
    if s != [] && IsSpace(s[|s| - 1]) {
      var rest := s[..|s| - 1];
      n := StripRightCuts(rest);
      assert rest[..n] == s[..n] && s[n..] == rest[n..] + [s[|s| - 1]];
    } else {
      n := |s|;
      assert s[..n] == s;
    }
  }

  /** Stripping takes away spaces at the two ends, and nothing else. */
  lemma StripCutsSpaces(s: string) returns (left: string, right: string)
    ensures s == left + Strip(s) + right && AllSpace(left) && AllSpace(right)
  {
    var n := StripLeftCuts(s);
    var rest := s[n..];
    var k := StripRightCuts(rest);
    left, right := s[..n], rest[k..];
    assert rest == rest[..k] + right;
  }

  lemma UpdatedTwice<T>(s: seq<T>, i: nat, a: T, b: T)
    requires i < |s|
    ensures s[i := a][i := b] == s[i := b]
  {}
}
