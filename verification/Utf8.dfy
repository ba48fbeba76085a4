/**
 * Go strings as byte sequences, UTF-8 validity (section 4 of RFC 3629), and the two
 * clipping loops of the repository.
 */
module Utf8 {

  type byte = b: int | 0 <= b < 256

  type Bytes = seq<byte>

  /** An ASCII literal as bytes. */
  function Text(s: string): (b: Bytes)
    ensures |b| == |s|
    ensures forall i :: 0 <= i < |s| ==> b[i] == s[i] as int % 256
  {
    seq(|s|, i requires 0 <= i < |s| => s[i] as int % 256)
  }

  predicate Continuation(b: byte) {
    0x80 <= b < 0xC0
  }

  /** The mask the source tests with picks out exactly the continuation bytes. */
  lemma MaskIsContinuation(b: bv8)
    ensures b & 0xC0 == 0x80 <==> Continuation(b as int)
  {
    assert b & 0xC0 == 0x80 <==> 0x80 <= b < 0xC0;
  }

  /** The length of the well-formed character `s` starts with, 0 when there is none. */
  function RuneLen(s: Bytes): (n: nat)
    ensures n <= |s| && n <= 4
    ensures n > 0 ==> !Continuation(s[0])
    ensures forall i :: 1 <= i < n ==> Continuation(s[i])
  {
    if s == [] then 0
    else if s[0] < 0x80 then 1
    else if 0xC2 <= s[0] <= 0xDF && |s| >= 2 && Continuation(s[1]) then 2
    else if |s| >= 3 && Continuation(s[2]) && (
        || (s[0] == 0xE0 && 0xA0 <= s[1] < 0xC0)
        || ((0xE1 <= s[0] <= 0xEC || 0xEE <= s[0] <= 0xEF) && Continuation(s[1]))
        || (s[0] == 0xED && 0x80 <= s[1] < 0xA0)) then 3
    else if |s| >= 4 && Continuation(s[2]) && Continuation(s[3]) && (
        || (s[0] == 0xF0 && 0x90 <= s[1] < 0xC0)
        || (0xF1 <= s[0] <= 0xF3 && Continuation(s[1]))
        || (s[0] == 0xF4 && 0x80 <= s[1] < 0x90)) then 4
    else 0
  }

  predicate Valid(s: Bytes)
    decreases |s|
  {
    s == [] || (RuneLen(s) > 0 && Valid(s[RuneLen(s)..]))
  }

  // ----- the encoding of characters

  predicate Scalar(cp: nat) {
    cp < 0xD800 || 0xE000 <= cp < 0x11_0000
  }

  /** The bytes of a character (section 3 of RFC 3629). */
  function Rune(cp: nat): (r: Bytes)
    requires Scalar(cp)
    ensures 1 <= |r| <= 4
  {
    if cp < 0x80 then [cp]
    else if cp < 0x800 then [0xC0 + cp / 64, 0x80 + cp % 64]
    else if cp < 0x1_0000 then [0xE0 + cp / 4096, 0x80 + cp / 64 % 64, 0x80 + cp % 64]
    else [0xF0 + cp / 262144, 0x80 + cp / 4096 % 64, 0x80 + cp / 64 % 64, 0x80 + cp % 64]
  }

  lemma RuneRead(s: Bytes) returns (cp: nat)
    requires RuneLen(s) > 0
    ensures Scalar(cp) && Rune(cp) == s[..RuneLen(s)]
  {
    var n := RuneLen(s);
    var a: int := s[0];
    if n == 1 {
      cp := a;
    } else if n == 2 {
      var b: int := s[1];
      cp := 64 * (a - 0xC0) + (b - 0x80);
    } else if n == 3 {
      cp := ThreeRead(s);
    } else {
      cp := FourRead(s);
    }
  }

  lemma SixBits(x: nat, y: nat, z: nat, w: nat)
    requires y < 64 && z < 64 && w < 64
    ensures var v := 262144 * x + 4096 * y + 64 * z + w;
            v / 262144 == x && v / 4096 % 64 == y && v / 64 % 64 == z && v % 64 == w
  {
    var v := 262144 * x + 4096 * y + 64 * z + w;
    assert v / 4096 == 64 * x + y && v / 64 == 4096 * x + 64 * y + z;
  }

  lemma ThreeRead(s: Bytes) returns (cp: nat)
    requires RuneLen(s) == 3
    ensures Scalar(cp) && Rune(cp) == s[..3]
  {
    var a: int, b: int, c: int := s[0], s[1], s[2];
    cp := 4096 * (a - 0xE0) + 64 * (b - 0x80) + (c - 0x80);
    SixBits(0, a - 0xE0, b - 0x80, c - 0x80);
    assert 0x800 <= cp < 0x1_0000 && cp / 4096 == a - 0xE0;
  }

  lemma FourRead(s: Bytes) returns (cp: nat)
    requires RuneLen(s) == 4
    ensures Scalar(cp) && Rune(cp) == s[..4]
  {
    var a: int, b: int, c: int, d: int := s[0], s[1], s[2], s[3];
    cp := 262144 * (a - 0xF0) + 4096 * (b - 0x80) + 64 * (c - 0x80) + (d - 0x80);
    SixBits(a - 0xF0, b - 0x80, c - 0x80, d - 0x80);
  }

  lemma RuneIsRead(cp: nat, s: Bytes)
    requires Scalar(cp) && Rune(cp) <= s
    ensures RuneLen(s) == |Rune(cp)|
  {
    var r := Rune(cp);
    RuneOfRune(cp);
    RuneOfPrefix(s, |r|);
    assert s[..|r|] == r;
  }

  lemma RuneOfRune(cp: nat)
    requires Scalar(cp)
    ensures RuneLen(Rune(cp)) == |Rune(cp)|
  {
  }

  function Runes(cps: seq<nat>): Bytes
    requires forall cp :: cp in cps ==> Scalar(cp)
  {
    if cps == [] then [] else Rune(cps[0]) + Runes(cps[1..])
  }

  lemma {:induction false} RunesAreValid(cps: seq<nat>)
    requires forall cp :: cp in cps ==> Scalar(cp)
    ensures Valid(Runes(cps))
  {
    hide Rune, RuneLen;
    if cps != [] {
      var s := Runes(cps);
      RuneIsRead(cps[0], s);
      RunesAreValid(cps[1..]);
      assert s[RuneLen(s)..] == Runes(cps[1..]);
    }
  }

  /** The valid strings are the encodings of characters, in sequence. */
  lemma {:induction false} ValidAreRunes(s: Bytes) returns (cps: seq<nat>)
    requires Valid(s)
    ensures (forall cp :: cp in cps ==> Scalar(cp)) && s == Runes(cps)
    decreases |s|
  {
    hide Rune, RuneLen, Scalar;
    cps := [];
    if s != [] {
      var n := RuneLen(s);
      var cp := RuneRead(s);
      var rest := ValidAreRunes(s[n..]);
      cps := [cp] + rest;
      assert cps[1..] == rest && s == s[..n] + s[n..];
    }
  }

  /** Validity, said of characters: both directions at once. */
  lemma ValidIffRunes(s: Bytes)
    ensures Valid(s) <==> exists cps: seq<nat> :: (forall cp :: cp in cps ==> Scalar(cp)) && s == Runes(cps)
  {
    hide Valid, Runes, Scalar;
    if Valid(s) {
      var cps := ValidAreRunes(s);
    }
    if cps: seq<nat> :| (forall cp :: cp in cps ==> Scalar(cp)) && s == Runes(cps) {
      RunesAreValid(cps);
    }
  }

  lemma RuneOfPrefix(s: Bytes, k: nat)
    requires k <= |s|
    ensures 0 < RuneLen(s) <= k ==> RuneLen(s[..k]) == RuneLen(s)
    ensures RuneLen(s[..k]) > 0 ==> RuneLen(s[..k]) == RuneLen(s)
  {
  }

  /** In a valid string the cuts that keep it valid are exactly those before a lead byte. */
  lemma {:induction false} CutValidIff(s: Bytes, k: nat)
    requires Valid(s) && k < |s|
    ensures Valid(s[..k]) <==> !Continuation(s[k])
    decreases |s|
  {
    var r := RuneLen(s);
    RuneOfPrefix(s, k);
    if k >= r {
      assert s[..k][r..] == s[r..][..k - r];
      CutValidIff(s[r..], k - r);
    }
  }

  /** A run of continuation bytes in a valid string is at most three long. */
  lemma {:induction false} LeadNearby(s: Bytes, k: nat) returns (j: nat)
    requires Valid(s) && k < |s|
    ensures j <= k <= j + 3 && !Continuation(s[j])
    decreases |s|
  {
    var r := RuneLen(s);
    if k < r {
      j := 0;
    } else {
      j := LeadNearby(s[r..], k - r);
      j := j + r;
    }
  }

  // ----- clipping

  function CutPoint(s: Bytes, n: nat): (k: nat)
    requires n < |s|
    ensures k <= n
  {
    if n == 0 || !Continuation(s[n]) then n else CutPoint(s, n - 1)
  }

  function Clip(s: Bytes, n: nat): (c: Bytes)
    ensures |c| <= n
    ensures |s| <= n ==> c == s
  {
    if |s| <= n then s else s[..CutPoint(s, n)]
  }

  method ClipAt(s: Bytes, n: nat) returns (r: Bytes)
    ensures r == Clip(s, n)
  {
    if |s| <= n {
      return s;
    }
    var k := n;
    while k > 0 && Continuation(s[k])
      invariant 0 <= k <= n
      invariant CutPoint(s, k) == CutPoint(s, n)
    {
      k := k - 1;
    }
    return s[..k];
  }

  const DISPLAY_MAX := 200

  /** The link server's own loop for display strings; the same function of every input. */
  method ClipDisplay(s: Bytes) returns (r: Bytes)
    ensures r == Clip(s, DISPLAY_MAX)
  {
    if |s| <= DISPLAY_MAX {
      return s;
    }
    var i := DISPLAY_MAX;
    while i > 0
      invariant 0 <= i <= DISPLAY_MAX
      invariant CutPoint(s, i) == CutPoint(s, DISPLAY_MAX)
    {
      if !Continuation(s[i]) {
        return s[..i];
      }
      i := i - 1;
    }
    return [];
  }

  lemma {:induction false} CutPointIsLastLead(s: Bytes, n: nat)
    requires n < |s|
    ensures var k := CutPoint(s, n);
            && (k == 0 || !Continuation(s[k]))
            && forall j :: k < j <= n ==> Continuation(s[j])
  {
    if n > 0 && Continuation(s[n]) {
      CutPointIsLastLead(s, n - 1);
    }
  }

  /** The longest valid prefix that fits, at most three bytes short of the bound. */
  lemma ClipLongestValidPrefix(s: Bytes, n: nat)
    requires Valid(s)
    ensures var c := Clip(s, n);
            && Valid(c) && c <= s && |c| <= n
            && (|s| > n ==> n <= |c| + 3)
            && forall k :: |c| < k <= n && k <= |s| ==> !Valid(s[..k])
  {
    if |s| > n {
      CutPointIsLastLead(s, n);
      var c := CutPoint(s, n);
      var j := LeadNearby(s, n);
      assert !(c < j <= n);
      CutValidIff(s, c);
      assert !Continuation(s[c]) by {
        if c == 0 { assert RuneLen(s) > 0; }
      }
      forall k | c < k <= n ensures !Valid(s[..k]) {
        CutValidIff(s, k);
      }
    }
  }

  /**
   * What clipping to n bytes leaves, said outright: all of it if it fits; else the part
   * before the last byte, at n or earlier, that is not 10xxxxxx, or nothing. Of a valid
   * string that is the longest valid prefix that fits.
   */
  ghost predicate ClippedTo(s: Bytes, c: Bytes, n: nat) {
    && c <= s && |c| <= n
    && (|s| <= n ==> c == s)
    && (|s| > n ==>
          && (c == [] || !(0x80 <= s[|c|] <= 0xBF))
          && forall j :: |c| < j <= n ==> 0x80 <= s[j] <= 0xBF)
    && (Valid(s) ==> Valid(c) && forall k :: |c| < k <= n && k <= |s| ==> !Valid(s[..k]))
  }

  lemma ClipClips(s: Bytes, n: nat)
    ensures ClippedTo(s, Clip(s, n), n)
  {
    if |s| > n {
      CutPointIsLastLead(s, n);
    }
    if Valid(s) {
      ClipLongestValidPrefix(s, n);
    }
  }

  /** Only one string is what clipping leaves. */
  lemma ClippedToOne(s: Bytes, c: Bytes, d: Bytes, n: nat)
    requires ClippedTo(s, c, n) && ClippedTo(s, d, n)
    ensures c == d
  {
    assert |s| > n && c != [] ==> !(0x80 <= s[|c|] <= 0xBF);
    assert |s| > n && d != [] ==> !(0x80 <= s[|d|] <= 0xBF);
    assert c == s[..|c|] && d == s[..|d|];
  }
}
