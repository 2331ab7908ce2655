/** UTF-8 as section 4 of RFC 3629 defines it, the decoder the Go library uses, and the
    replacement of invalid bytes. */
module Utf8 {

  type byte = b: int | 0 <= b < 256

  type Bytes = seq<byte>

  // ----- the grammar of section 4 of RFC 3629 -----

  predicate IsTail(b: byte) { 0x80 <= b <= 0xBF }

  /** The first two bytes of a three-byte sequence. */
  predicate ThreeLead(a: byte, b: byte) {
    || (a == 0xE0 && 0xA0 <= b <= 0xBF)
    || (0xE1 <= a <= 0xEC && IsTail(b))
    || (a == 0xED && 0x80 <= b <= 0x9F)
    || (0xEE <= a <= 0xEF && IsTail(b))
  }

  /** The first two bytes of a four-byte sequence. */
  predicate FourLead(a: byte, b: byte) {
    || (a == 0xF0 && 0x90 <= b <= 0xBF)
    || (0xF1 <= a <= 0xF3 && IsTail(b))
    || (a == 0xF4 && 0x80 <= b <= 0x8F)
  }

  predicate IsRune(r: Bytes) {
    || (|r| == 1 && r[0] <= 0x7F)
    || (|r| == 2 && 0xC2 <= r[0] <= 0xDF && IsTail(r[1]))
    || (|r| == 3 && ThreeLead(r[0], r[1]) && IsTail(r[2]))
    || (|r| == 4 && FourLead(r[0], r[1]) && IsTail(r[2]) && IsTail(r[3]))
  }

  function Flatten(runes: seq<Bytes>): Bytes {
    if runes == [] then [] else runes[0] + Flatten(runes[1..])
  }

  /** UTF8-octets = *( UTF8-char ) */
  ghost predicate IsUtf8(s: Bytes) {
    exists runes: seq<Bytes> :: (forall r :: r in runes ==> IsRune(r)) && Flatten(runes) == s
  }

  // ----- decoding -----

  /** utf8.RuneStart: not a continuation byte. */
  predicate RuneStart(b: byte) { !IsTail(b) }

  /** The length of the sequence at the head, 0 if there is no valid one. */
  function RuneAt(s: Bytes): (n: nat)
    ensures n <= |s| && n <= 4
    ensures n > 0 ==> IsRune(s[..n])
    ensures forall k {:trigger s[..k]} :: 0 < k <= |s| && IsRune(s[..k]) ==> k == n
  {
    if |s| >= 1 && s[0] <= 0x7F then 1
    else if |s| >= 2 && 0xC2 <= s[0] <= 0xDF && IsTail(s[1]) then 2
    else if |s| >= 3 && ThreeLead(s[0], s[1]) && IsTail(s[2]) then 3
    else if |s| >= 4 && FourLead(s[0], s[1]) && IsTail(s[2]) && IsTail(s[3]) then 4
    else 0
  }

  /** utf8.ValidString */
  predicate Valid(s: Bytes) {
    s == [] || (RuneAt(s) > 0 && Valid(s[RuneAt(s)..]))
  }

  lemma RuneIsFound(r: Bytes, rest: Bytes)
    requires IsRune(r)
    ensures RuneAt(r + rest) == |r|
    ensures (r + rest)[|r|..] == rest && (r + rest)[..|r|] == r
  {
    assert (r + rest)[..|r|] == r;
    assert forall i :: 0 <= i < |r| ==> (r + rest)[i] == r[i];
  }

  lemma {:induction false} ValidIsUtf8(s: Bytes)
    ensures Valid(s) <==> IsUtf8(s)
    decreases |s|
  {
    if Valid(s) {
      var runes := RunesOf(s);
      assert IsUtf8(s);
    }
    if IsUtf8(s) {
      var runes :| (forall r :: r in runes ==> IsRune(r)) && Flatten(runes) == s;
      FlattenedIsValid(runes);
    }
  }

  lemma {:induction false} RunesOf(s: Bytes) returns (runes: seq<Bytes>)
    requires Valid(s)
    ensures (forall r :: r in runes ==> IsRune(r)) && Flatten(runes) == s
    decreases |s|
  {
    if s == [] {
      runes := [];
    } else {
      var n := RuneAt(s);
      var rest := RunesOf(s[n..]);
      runes := [s[..n]] + rest;
      assert runes[1..] == rest && s == s[..n] + s[n..];
    }
  }

  lemma {:induction false} FlattenedIsValid(runes: seq<Bytes>)
    requires forall r :: r in runes ==> IsRune(r)
    ensures Valid(Flatten(runes))
    decreases |runes|
  {
    if runes != [] {
      FlattenedIsValid(runes[1..]);
      RuneIsFound(runes[0], Flatten(runes[1..]));
    }
  }

  lemma {:induction false} ValidConcat(a: Bytes, b: Bytes)
    requires Valid(a)
    ensures Valid(a + b) <==> Valid(b)
    decreases |a|
  {
    if a == [] {
      assert a + b == b;
    } else {
      var n := RuneAt(a);
      RuneIsFound(a[..n], a[n..] + b);
      assert a + b == a[..n] + (a[n..] + b);
      ValidConcat(a[n..], b);
    }
  }

  /** Inside a rune every byte but the first is a continuation byte. */
  lemma RuneBytes(r: Bytes)
    requires IsRune(r)
    ensures RuneStart(r[0]) && forall i :: 0 < i < |r| ==> IsTail(r[i])
  {
  }

  /** Positions between runes of a valid string are exactly those not before a
      continuation byte, and both halves are valid there. */
  lemma {:induction false} SplitAtRuneStart(s: Bytes, p: nat)
    requires Valid(s) && p <= |s|
    ensures (p == |s| || RuneStart(s[p])) <==> Valid(s[p..])
    ensures Valid(s[p..]) ==> Valid(s[..p])
    decreases |s|
  {
    if p == 0 {
      assert s[0..] == s;
      HeadIsStart(s);
    } else if p < RuneAt(s) {
      InsideFirstRune(s, p);
    } else {
      var n := RuneAt(s);
      var rest := s[n..];
      SplitAtRuneStart(rest, p - n);
      assert rest[p - n..] == s[p..];
      assert p < |s| ==> rest[p - n] == s[p];
      if Valid(s[p..]) { PrependRune(s, n, p); }
    }
  }

  lemma PrependRune(s: Bytes, n: nat, p: nat)
    requires n == RuneAt(s) && 0 < n <= p <= |s| && Valid(s[n..][..p - n])
    ensures Valid(s[..p])
  {
    RuneIsFound(s[..n], s[n..][..p - n]);
    assert s[..p] == s[..n] + s[n..][..p - n];
  }

  lemma InsideFirstRune(s: Bytes, p: nat)
    requires 0 < p < RuneAt(s)
    ensures IsTail(s[p]) && !Valid(s[p..])
  {
    RuneBytes(s[..RuneAt(s)]);
    assert s[p] == s[..RuneAt(s)][p] && s[p..][0] == s[p];
    HeadOfValid(s[p..]);
  }

  lemma HeadIsStart(s: Bytes)
    requires Valid(s)
    ensures s != [] ==> RuneStart(s[0])
  {
    if s != [] { HeadOfValid(s); }
  }

  lemma HeadOfValid(s: Bytes)
    requires s != []
    ensures Valid(s) ==> RuneStart(s[0])
  {
    if Valid(s) { RuneBytes(s[..RuneAt(s)]); }
  }

  // ----- strings.ToValidUTF8 with U+FFFD -----

  const REPLACEMENT: Bytes := [0xEF, 0xBF, 0xBD]

  /** Each run of invalid bytes becomes one replacement character; `bad` says that the
      byte before was invalid. */
  function Sanitize(s: Bytes, bad: bool): Bytes
    decreases |s|
  {
    if s == [] then []
    else if RuneAt(s) == 0 then (if bad then [] else REPLACEMENT) + Sanitize(s[1..], true)
    else s[..RuneAt(s)] + Sanitize(s[RuneAt(s)..], false)
  }

  function ToValid(s: Bytes): Bytes { Sanitize(s, false) }

  lemma {:induction false} SanitizedIsValid(s: Bytes, bad: bool)
    ensures Valid(Sanitize(s, bad))
    decreases |s|
  {
    if s != [] {
      if RuneAt(s) == 0 {
        SanitizedIsValid(s[1..], true);
        assert IsRune(REPLACEMENT);
        RuneIsFound(REPLACEMENT, Sanitize(s[1..], true));
        assert [] + Sanitize(s[1..], true) == Sanitize(s[1..], true);
      } else {
        SanitizedIsValid(s[RuneAt(s)..], false);
        RuneIsFound(s[..RuneAt(s)], Sanitize(s[RuneAt(s)..], false));
      }
    }
  }

  lemma FirstRuneStays(s: Bytes, bad: bool)
    requires s != [] && RuneAt(s) > 0
    ensures Sanitize(s, bad) == s[..RuneAt(s)] + Sanitize(s[RuneAt(s)..], false)
  {
  }

  lemma Cut(s: Bytes, n: nat)
    requires n <= |s|
    ensures s == s[..n] + s[n..]
  {
  }

  lemma {:induction false} ValidIsUntouched(s: Bytes, bad: bool)
    requires Valid(s)
    ensures Sanitize(s, bad) == s
    decreases |s|
  {
    if s != [] {
      ValidIsUntouched(s[RuneAt(s)..], false);
      FirstRuneStays(s, bad);
      Cut(s, RuneAt(s));
    }
  }

  /** The replacement leaves exactly the valid strings alone. */
  lemma ToValidIsIdentityOnValid(s: Bytes)
    ensures Valid(ToValid(s))
    ensures ToValid(s) == s <==> Valid(s)
  {
    SanitizedIsValid(s, false);
    if Valid(s) { ValidIsUntouched(s, false); }
  }
}
