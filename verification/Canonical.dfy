/**
 * The encoding both signing packages share: the domain label and then each field, every
 * one behind its length as eight big-endian bytes. A decoder is given here, which the
 * source never needs, as the encoding's two-sided inverse.
 */
module Canonical {
  import opened Options
  import opened Utf8

  const WORD: int := 0x1_0000_0000_0000_0000

  type U64 = v: int | 0 <= v < WORD

  // ----- big-endian words

  function Pow256(k: nat): (p: nat)
    ensures p > 0
  {
    if k == 0 then 1 else 256 * Pow256(k - 1)
  }

  function BigEndian(v: nat, k: nat): (b: Bytes)
    ensures |b| == k
  {
    if k == 0 then [] else BigEndian(v / 256, k - 1) + [v % 256]
  }

  function Number(b: Bytes): nat {
    if b == [] then 0 else Number(b[..|b| - 1]) * 256 + b[|b| - 1]
  }

  lemma OneDigitLess(v: nat, k: nat)
    requires k > 0 && v < Pow256(k)
    ensures v / 256 < Pow256(k - 1)
  {
  }

  lemma NumberAppend(front: Bytes, last: byte)
    ensures Number(front + [last]) == Number(front) * 256 + last
  {
    assert (front + [last])[..|front|] == front;
  }

  lemma {:induction false} NumberOfBigEndian(v: nat, k: nat)
    requires v < Pow256(k)
    ensures Number(BigEndian(v, k)) == v
  {
    if k > 0 {
      OneDigitLess(v, k);
      NumberOfBigEndian(v / 256, k - 1);
      NumberAppend(BigEndian(v / 256, k - 1), v % 256);
    }
  }

  lemma {:induction false} BigEndianOfNumber(b: Bytes)
    ensures Number(b) < Pow256(|b|)
    ensures BigEndian(Number(b), |b|) == b
  {
    if b != [] {
      var front := b[..|b| - 1];
      BigEndianOfNumber(front);
      assert Number(b) / 256 == Number(front) && Number(b) % 256 == b[|b| - 1];
      assert front + [b[|b| - 1]] == b;
    }
  }

  function Word(v: U64): (b: Bytes)
    ensures |b| == 8
  {
    BigEndian(v, 8)
  }

  /** Eight bytes and the unsigned 64-bit numbers are in one-to-one correspondence. */
  lemma WordBijection(v: U64, b: Bytes)
    requires |b| == 8
    ensures Number(b) < WORD
    ensures Word(v) == b <==> Number(b) == v
  {
    assert Pow256(8) == WORD by {
      assert Pow256(2) == 0x1_0000;
      assert Pow256(4) == 0x1_0000 * Pow256(2);
      assert Pow256(6) == 0x1_0000 * Pow256(4);
      assert Pow256(8) == 0x1_0000 * Pow256(6);
    }
    NumberOfBigEndian(v, 8);
    BigEndianOfNumber(b);
  }

  /** A number without its k last bytes. */
  function High(v: nat, k: nat): nat {
    if k == 0 then v else High(v / 256, k - 1)
  }

  lemma {:induction false} BigEndianAt(v: nat, k: nat, i: nat)
    requires i < k
    ensures BigEndian(v, k)[i] == High(v, k - 1 - i) % 256
  {
    if i < k - 1 {
      BigEndianAt(v / 256, k - 1, i);
    }
  }

  /** The most significant byte comes first, the least significant last. */
  lemma WordSpells(v: U64, i: nat)
    requires i < 8
    ensures |Word(v)| == 8 && Word(v)[i] == High(v, 7 - i) % 256
  {
    BigEndianAt(v, 8, i);
  }

  // ----- frames

  function Frame(f: Bytes): Bytes {
    Word(|f| % WORD) + f
  }

  function Join(fields: seq<Bytes>): Bytes {
    if fields == [] then [] else Frame(fields[0]) + Join(fields[1..])
  }

  function Encode(domain: Bytes, fields: seq<Bytes>): Bytes {
    Join([domain] + fields)
  }

  // Every field a Go process can hold is one of these.
  predicate Fits(fields: seq<Bytes>) {
    forall f :: f in fields ==> |f| < WORD
  }

  lemma {:induction false} JoinAppend(fields: seq<Bytes>, f: Bytes)
    ensures Join(fields + [f]) == Join(fields) + Frame(f)
  {
    if fields == [] {
      assert [] + [f] == [f] && [f][1..] == [];
    } else {
      assert (fields + [f])[1..] == fields[1..] + [f];
      JoinAppend(fields[1..], f);
    }
  }

  /** The domain behind its length, then each field behind its own, one after the other. */
  lemma EncodeGrows(domain: Bytes, fields: seq<Bytes>, f: Bytes)
    requires |domain| < WORD && |f| < WORD
    ensures Encode(domain, []) == Word(|domain|) + domain
    ensures Encode(domain, fields + [f]) == Encode(domain, fields) + Word(|f|) + f
  {
    hide Word;
    assert [domain] + [] == [domain] && [domain][1..] == [];
    assert Join([domain]) == Frame(domain) + [];
    assert [domain] + (fields + [f]) == ([domain] + fields) + [f];
    JoinAppend([domain] + fields, f);
  }

  /** The appending loop of the source. */
  method Build(domain: Bytes, fields: seq<Bytes>) returns (out: Bytes)
    ensures out == Encode(domain, fields)
  {
    out := Word(|domain| % WORD);
    out := out + domain;
    assert [domain] + fields[..0] == [domain];
    assert [domain][1..] == [];
    assert Join([domain]) == Frame(domain) + [];
    for i := 0 to |fields|
      invariant out == Encode(domain, fields[..i])
    {
      out := out + Word(|fields[i]| % WORD);
      out := out + fields[i];
      JoinAppend([domain] + fields[..i], fields[i]);
      assert [domain] + fields[..i] + [fields[i]] == [domain] + fields[..i + 1];
    }
    assert fields[..|fields|] == fields;
  }

  // ----- the inverse

  function Split(b: Bytes): Option<seq<Bytes>>
    decreases |b|
  {
    if b == [] then Some([])
    else if |b| < 8 || |b| - 8 < Number(b[..8]) then None
    else
      var end := 8 + Number(b[..8]);
      match Split(b[end..])
      case None => None
      case Some(rest) => Some([b[8..end]] + rest)
  }

  function Decode(b: Bytes): Option<(Bytes, seq<Bytes>)> {
    match Split(b)
    case None => None
    case Some(frames) => if frames == [] then None else Some((frames[0], frames[1..]))
  }

  lemma SplitFrame(f: Bytes, rest: Bytes)
    requires |f| < WORD
    ensures var b := Frame(f) + rest;
            && |b| >= 8 && Number(b[..8]) == |f| && |b| >= 8 + |f|
            && b[8..8 + |f|] == f && b[8 + |f|..] == rest
  {
    hide BigEndian, Number, Pow256;
    var b := Frame(f) + rest;
    assert b[..8] == Word(|f|);
    WordBijection(|f|, b[..8]);
  }

  lemma {:induction false} SplitOfJoin(fields: seq<Bytes>)
    requires Fits(fields)
    ensures Split(Join(fields)) == Some(fields)
  {
    hide BigEndian, Number, Pow256, Frame;
    if fields != [] {
      SplitFrame(fields[0], Join(fields[1..]));
      SplitOfJoin(fields[1..]);
      assert [fields[0]] + fields[1..] == fields;
    }
  }

  lemma FrameOfSplit(b: Bytes)
    requires |b| >= 8 && |b| >= 8 + Number(b[..8])
    ensures var end := 8 + Number(b[..8]); end - 8 < WORD && Frame(b[8..end]) + b[end..] == b
  {
    hide BigEndian, Number, Pow256;
    WordBijection(0, b[..8]);
    WordBijection(Number(b[..8]), b[..8]);
  }

  lemma {:induction false} JoinOfSplit(b: Bytes)
    ensures Split(b).Some? ==> Fits(Split(b).value) && Join(Split(b).value) == b
    decreases |b|
  {
    hide BigEndian, Number, Pow256, Frame;
    if b != [] && Split(b).Some? {
      var end := 8 + Number(b[..8]);
      FrameOfSplit(b);
      JoinOfSplit(b[end..]);
      var rest := Split(b[end..]).value;
      assert ([b[8..end]] + rest)[1..] == rest;
    }
  }

  /** Decoding undoes encoding, and whatever decodes is what its fields encode to. */
  lemma DecodeInverts(domain: Bytes, fields: seq<Bytes>, b: Bytes)
    requires Fits([domain] + fields)
    ensures Decode(Encode(domain, fields)) == Some((domain, fields))
    ensures Decode(b) == Some((domain, fields)) <==> b == Encode(domain, fields)
  {
    SplitOfJoin([domain] + fields);
    assert ([domain] + fields)[1..] == fields;
    JoinOfSplit(b);
    if Decode(b) == Some((domain, fields)) {
      assert Split(b).value == [domain] + fields;
    }
  }

  /** Equal bytes only from an equal domain and equal fields, however many there are. */
  lemma EncodeInjective(d1: Bytes, fields1: seq<Bytes>, d2: Bytes, fields2: seq<Bytes>)
    requires Fits([d1] + fields1) && Fits([d2] + fields2)
    ensures Encode(d1, fields1) == Encode(d2, fields2) <==> d1 == d2 && fields1 == fields2
  {
    DecodeInverts(d1, fields1, []);
    DecodeInverts(d2, fields2, []);
  }
}
