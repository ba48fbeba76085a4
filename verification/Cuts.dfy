/** Where a separator can fall in a byte string, and the digits of numbers. */
module Cuts {
  import opened Utf8

  lemma CutFront(front: Bytes, x: Bytes, y: Bytes)
    requires front + x == front + y
    ensures x == y
  {
    assert x == (front + x)[|front|..] && y == (front + y)[|front|..];
  }

  lemma NotShorter(a: Bytes, x: Bytes, b: Bytes, y: Bytes, sep: byte)
    requires a + [sep] + x == b + [sep] + y && sep !in b
    ensures |b| <= |a|
  {
    assert (a + [sep] + x)[|a|] == sep;
    assert forall i :: 0 <= i < |b| ==> (b + [sep] + y)[i] == b[i];
  }

  /** A separator in neither front cuts at one place. */
  lemma CutAt(a: Bytes, x: Bytes, b: Bytes, y: Bytes, sep: byte)
    requires a + [sep] + x == b + [sep] + y && sep !in a && sep !in b
    ensures a == b && x == y
  {
    NotShorter(a, x, b, y, sep);
    NotShorter(b, y, a, x, sep);
    assert a == (a + [sep] + x)[..|a|] && b == (b + [sep] + y)[..|b|];
    CutFront(a + [sep], x, y);
  }

  lemma NotLonger(a: Bytes, x: Bytes, b: Bytes, y: Bytes, sep: byte)
    requires a + [sep] + x == b + [sep] + y && sep !in x
    ensures |b| <= |a|
  {
    var s := a + [sep] + x;
    assert (b + [sep] + y)[|b|] == sep;
    assert forall j :: |a| < j < |s| ==> s[j] == x[j - |a| - 1];
  }

  /** A separator in neither tail cuts at one place. */
  lemma CutLast(a: Bytes, x: Bytes, b: Bytes, y: Bytes, sep: byte)
    requires a + [sep] + x == b + [sep] + y && sep !in x && sep !in y
    ensures a == b && x == y
  {
    NotLonger(a, x, b, y, sep);
    NotLonger(b, y, a, x, sep);
    assert a == (a + [sep] + x)[..|a|] && b == (b + [sep] + y)[..|b|];
    CutFront(a + [sep], x, y);
  }

  // ----- digits

  function HexDigit(n: nat): byte
    requires n < 16
  {
    if n < 10 then 48 + n else 87 + n
  }

  predicate Digit(b: byte) {
    48 <= b < 58
  }

  function Decimal(n: nat): (d: Bytes)
    ensures d != [] && forall b :: b in d ==> Digit(b)
  {
    if n < 10 then [48 + n] else Decimal(n / 10) + [48 + n % 10]
  }

  function Value(d: Bytes): int {
    if d == [] then 0 else Value(d[..|d| - 1]) * 10 + d[|d| - 1] - 48
  }

  lemma {:induction false} ValueOfDecimal(n: nat)
    ensures Value(Decimal(n)) == n
  {
    var d := Decimal(n);
    if n >= 10 {
      assert d[..|d| - 1] == Decimal(n / 10);
      ValueOfDecimal(n / 10);
    } else {
      assert d[..|d| - 1] == [];
    }
  }

  /** A number is spelt in decimal digits that stand for it, without a leading zero. */
  lemma {:induction false} DecimalSpells(n: nat)
    ensures Value(Decimal(n)) == n && (forall b :: b in Decimal(n) ==> Digit(b))
    ensures Decimal(n)[0] == 48 ==> Decimal(n) == [48]
  {
    ValueOfDecimal(n);
    if n >= 10 {
      DecimalSpells(n / 10);
      assert Value([48]) == 0;
    }
  }

  lemma DecimalInjective(m: nat, n: nat)
    ensures Decimal(m) == Decimal(n) <==> m == n
  {
    ValueOfDecimal(m);
    ValueOfDecimal(n);
  }
}
