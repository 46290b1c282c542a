/** Vocabulary shared by every module: optional values, real arithmetic, and text order. */
module Basics {

  datatype Option<+T> = None | Some(value: T)

  type Pos = x: int | 0 < x witness 1
  type PosReal = x: real | 0.0 < x witness 1.0

  function Max(a: real, b: real): real { if a >= b then a else b }

  function Min(a: real, b: real): real { if a <= b then a else b }

  function Abs(a: real): real { if a >= 0.0 then a else -a }

  /** The idiom `x or 0.0`: an absent value counts as zero. */
  function OrZero(x: Option<real>): real { if x.Some? then x.value else 0.0 }

  /** Upper-casing of ticker symbols, letter by letter over ASCII. */
  function Upper(s: string): string {
    seq(|s|, i requires 0 <= i < |s| => if 'a' <= s[i] <= 'z' then (s[i] - 'a') + 'A' else s[i])
  }

  /** Code-point order on text. */
  predicate TextLe(a: string, b: string) {
    a == [] || (b != [] && (a[0] < b[0] || (a[0] == b[0] && TextLe(a[1..], b[1..]))))
  }

  lemma {:induction false} TextLeTotal(a: string, b: string)
    ensures TextLe(a, b) || TextLe(b, a)
  {
    if a != [] && b != [] && a[0] == b[0] { TextLeTotal(a[1..], b[1..]); }
  }

  lemma {:induction false} TextLeAntisymmetric(a: string, b: string)
    requires TextLe(a, b) && TextLe(b, a)
    ensures a == b
  {
    if a != [] {
      TextLeAntisymmetric(a[1..], b[1..]);
      assert a == [a[0]] + a[1..] && b == [b[0]] + b[1..];
    }
  }

  lemma {:induction false} TextLeTransitive(a: string, b: string, c: string)
    requires TextLe(a, b) && TextLe(b, c)
    ensures TextLe(a, c)
  {
    if a != [] && a[0] == b[0] && b[0] == c[0] { TextLeTransitive(a[1..], b[1..], c[1..]); }
  }

  lemma {:induction false} ProductSign(a: real, k: real)
    requires k > 0.0
    ensures a > 0.0 <==> a * k > 0.0
    ensures a < 0.0 <==> a * k < 0.0
  {
    if a > 0.0 { assert a * k > 0.0; } else if a < 0.0 { assert -a * k > 0.0; }
  }

  lemma {:induction false} ScaleLe(a: real, b: real, k: real)
    requires a <= b && 0.0 <= k
    ensures a * k <= b * k
  {
    assert 0.0 <= (b - a) * k;
  }

  lemma {:induction false} SubsetSize<T>(a: set<T>, b: set<T>)
    requires a <= b
    ensures |a| <= |b|
    decreases a
  {
    if a != {} {
      var x :| x in a;
      SubsetSize(a - {x}, b - {x});
    }
  }

  /** Upper-casing moves lower-case letters to the same place of the upper-case alphabet, and is done once. */
  lemma {:induction false} UpperIsCaseless(s: string)
    ensures |Upper(s)| == |s| && Upper(Upper(s)) == Upper(s)
    ensures forall i :: 0 <= i < |s| ==>
              && !('a' <= Upper(s)[i] <= 'z')
              && (Upper(s)[i] != s[i] <==> 'a' <= s[i] <= 'z')
              && ('a' <= s[i] <= 'z' ==> Upper(s)[i] as int == s[i] as int - 32)
  {
  }

  /** Text order is lexicographic: the smaller text is a prefix of the other, or smaller where
      they first differ. */
  lemma {:induction false} TextLeIsLexicographic(a: string, b: string)
    ensures TextLe(a, b) <==> a <= b || exists i :: FirstDifference(a, b, i) && a[i] < b[i]
  {
    DifferenceStartsAt(a, b);
    if a != [] && b != [] && a[0] == b[0] {
      TextLeIsLexicographic(a[1..], b[1..]);
      DifferenceMoves(a, b);
      assert a == [a[0]] + a[1..] && b == [b[0]] + b[1..];
      if i :| FirstDifference(a[1..], b[1..], i) && a[1..][i] < b[1..][i] {
        assert FirstDifference(a, b, i + 1);
      }
      if i :| FirstDifference(a, b, i) && a[i] < b[i] {
        assert FirstDifference(a[1..], b[1..], i - 1) && a[1..][i - 1] < b[1..][i - 1];
      }
    }
  }

  lemma {:induction false} DifferenceStartsAt(a: string, b: string)
    ensures a != [] && b != [] && a[0] != b[0] ==> FirstDifference(a, b, 0) && !(a <= b)
    ensures forall i :: FirstDifference(a, b, i) && i > 0 ==> a[0] == b[0]
  {
    forall i | FirstDifference(a, b, i) && i > 0 ensures a[0] == b[0] {
      assert a[..i][0] == b[..i][0];
    }
  }

  lemma {:induction false} DifferenceMoves(a: string, b: string)
    requires a != [] && b != [] && a[0] == b[0]
    ensures forall i: nat :: FirstDifference(a, b, i + 1) <==> FirstDifference(a[1..], b[1..], i)
  {
    forall i: nat | i < |a| - 1 && i < |b| - 1
      ensures FirstDifference(a, b, i + 1) <==> FirstDifference(a[1..], b[1..], i)
    {
      assert a[..i + 1] == [a[0]] + a[1..][..i] && b[..i + 1] == [b[0]] + b[1..][..i];
    }
  }

  ghost predicate FirstDifference(a: string, b: string, i: int) {
    0 <= i < |a| && i < |b| && a[..i] == b[..i] && a[i] != b[i]
  }
}
