/** Fixed-width revision strings (internal/contextcache/cache.go): the scripts compare revisions
    as strings, so the rendering has to order like the numbers. */
module Revisions {

  const WIDTH := 20
  const MAX_INT64 := 9223372036854775807

  newtype int64 = v: int | -MAX_INT64 - 1 <= v <= MAX_INT64

  function Digit(d: nat): char
    requires d < 10
  {
    '0' + d as char
  }

  /** The last `w` decimal digits of `v`. */
  function Digits(v: nat, w: nat): (s: string)
    ensures |s| == w
    ensures forall k :: 0 <= k < w ==> '0' <= s[k] <= '9'
  {
    if w == 0 then "" else Digits(v / 10, w - 1) + [Digit(v % 10)]
  }

  /** `fmt.Sprintf("%020d", v)`: the sign takes one of the twenty places. */
  function Revision(v: int64): (s: string)
    ensures |s| == WIDTH
  {
    if v >= 0 then Digits(v as int, WIDTH) else "-" + Digits(-(v as int), WIDTH - 1)
  }

  /** The scripts' `<` on strings. */
  predicate Before(a: string, b: string) {
    if b == "" then false
    else if a == "" then true
    else a[0] < b[0] || (a[0] == b[0] && Before(a[1..], b[1..]))
  }

  lemma {:induction false} BeforeAppend(a: string, b: string, x: char, y: char)
    requires |a| == |b|
    ensures Before(a + [x], b + [y]) <==> Before(a, b) || (a == b && x < y)
  {
    if a == "" {
      assert a + [x] == [x] && b + [y] == [y];
    } else {
      assert (a + [x])[1..] == a[1..] + [x] && (b + [y])[1..] == b[1..] + [y];
      BeforeAppend(a[1..], b[1..], x, y);
      assert a == b <==> a[0] == b[0] && a[1..] == b[1..];
    }
  }

  function Pow10(w: nat): nat {
    if w == 0 then 1 else 10 * Pow10(w - 1)
  }

  lemma {:induction false} DigitsOrder(u: nat, v: nat, w: nat)
    requires u < Pow10(w) && v < Pow10(w)
    ensures Before(Digits(u, w), Digits(v, w)) <==> u < v
    ensures Digits(u, w) == Digits(v, w) <==> u == v
  {
    if w > 0 {
      DigitsOrder(u / 10, v / 10, w - 1);
      BeforeAppend(Digits(u / 10, w - 1), Digits(v / 10, w - 1), Digit(u % 10), Digit(v % 10));
      var a, b := Digits(u, w), Digits(v, w);
      assert a[..w - 1] == Digits(u / 10, w - 1) && b[..w - 1] == Digits(v / 10, w - 1);
      assert a[w - 1] == Digit(u % 10) && b[w - 1] == Digit(v % 10);
    }
  }

  lemma Pow10Values()
    ensures Pow10(19) == 10000000000000000000 && Pow10(20) == 100000000000000000000
  {
    assert Pow10(5) == 100000;
    assert Pow10(10) == 10000000000;
    assert Pow10(15) == 1000000000000000;
  }

  /** The number a string of decimal digits writes. */
  function Value(s: string): int {
    if s == "" then 0 else 10 * Value(s[..|s| - 1]) + (s[|s| - 1] as int - '0' as int)
  }

  lemma {:induction false} DigitsValue(v: nat, w: nat)
    requires v < Pow10(w)
    ensures Value(Digits(v, w)) == v
  {
    if w > 0 {
      DigitsValue(v / 10, w - 1);
      var s := Digits(v, w);
      assert s[..w - 1] == Digits(v / 10, w - 1) && s[w - 1] == Digit(v % 10);
    }
  }

  /** The rendering has twenty places and reads back as the revision, behind a minus sign if it is negative. */
  lemma RevisionReadsBack(v: int64)
    ensures |Revision(v)| == 20
    ensures v >= 0 ==> Value(Revision(v)) == v as int
    ensures v < 0 ==> Revision(v)[0] == '-' && Value(Revision(v)[1..]) == -(v as int)
  {
    Pow10Values();
    if v >= 0 {
      DigitsValue(v as int, 20);
    } else {
      DigitsValue(-(v as int), 19);
    }
  }

  lemma NonNegativeOrder(u: int64, v: int64)
    requires u >= 0 && v >= 0
    ensures Before(Revision(u), Revision(v)) <==> u < v
    ensures Revision(u) == Revision(v) <==> u == v
  {
    Pow10Values();
    DigitsOrder(u as int, v as int, 20);
  }

  lemma SignedOrder(a: string, b: string)
    ensures Before("-" + a, "-" + b) <==> Before(a, b)
    ensures "-" + a == "-" + b <==> a == b
  {
    assert ("-" + a)[1..] == a && ("-" + b)[1..] == b;
  }

  lemma NegativeOrder(u: int64, v: int64)
    requires u < 0 && v < 0
    ensures Before(Revision(u), Revision(v)) <==> v < u
    ensures Revision(u) == Revision(v) <==> u == v
  {
    var a, b := -(u as int), -(v as int);
    Pow10Values();
    DigitsOrder(a, b, 19);
    SignedOrder(Digits(a, 19), Digits(b, 19));
  }

  lemma MixedOrder(u: int64, v: int64)
    requires u < 0 <= v
    ensures Before(Revision(u), Revision(v)) && !Before(Revision(v), Revision(u))
    ensures Revision(u) != Revision(v)
  {
    assert Revision(u)[0] == '-' && Revision(v)[0] >= '0';
  }

  /** Exactly how string order relates to revisions, for every pair of int64 values: it is the
      numeric order unless both are negative, when it is reversed. Rendering is injective. */
  lemma RevisionOrder(u: int64, v: int64)
    ensures Before(Revision(u), Revision(v)) <==> if u < 0 && v < 0 then v < u else u < v
    ensures Revision(u) == Revision(v) <==> u == v
  {
    if u >= 0 && v >= 0 {
      NonNegativeOrder(u, v);
    } else if u < 0 && v < 0 {
      NegativeOrder(u, v);
    } else if u < 0 {
      MixedOrder(u, v);
    } else {
      MixedOrder(v, u);
    }
  }
}
