/** Decimal renderings that Python's f-strings produce for the values the
    orchestration layer interpolates into its messages. */
module Text {

  function Digit(d: nat): (c: char)
    requires d < 10
    ensures '0' <= c <= '9'
  {
    "0123456789"[d]
  }

  /** `str(n)` for a non-negative integer. */
  function NatText(n: nat): (s: string)
    ensures |s| > 0
    ensures forall i | 0 <= i < |s| :: '0' <= s[i] <= '9'
    decreases n
  {
    if n < 10 then [Digit(n)] else NatText(n / 10) + [Digit(n % 10)]
  }

  /** `str(i)` for any integer. */
  function IntText(i: int): (s: string)
    ensures |s| > 0
    ensures (s[0] == '-') <==> i < 0
  {
    if i < 0 then "-" + NatText(-i) else NatText(i)
  }

  /** `f"{x:.1f}"`: one digit after the point, halves rounded up. */
  function Fixed1(x: real): (s: string)
    ensures |s| >= 3 && s[|s| - 2] == '.' && '0' <= s[|s| - 1] <= '9'
    ensures (s[0] == '-') <==> x < 0.0
  {
    if x < 0.0 then "-" + Fixed1Magnitude(-x) else Fixed1Magnitude(x)
  }

  function Fixed1Magnitude(x: real): (s: string)
    requires x >= 0.0
    ensures |s| >= 3 && s[|s| - 2] == '.' && '0' <= s[|s| - 1] <= '9'
  {
    var tenths := (x * 10.0 + 0.5).Floor;
    NatText(tenths / 10) + "." + [Digit(tenths % 10)]
  }

  /** The magnitude of `x` in tenths, halves rounded up. */
  function Tenths(x: real): nat {
    if x < 0.0 then (-x * 10.0 + 0.5).Floor else (x * 10.0 + 0.5).Floor
  }

  /** Read without its sign and its point, the text of `x` is `x` in tenths:
      one digit after the point, the whole tenths before it. */
  lemma Fixed1Value(x: real)
    ensures var s := Fixed1(x);
      ReadsAsTenths(if x < 0.0 then s[1..] else s, Tenths(x))
  {
    var s := Fixed1(x);
    if x < 0.0 {
      var m := Fixed1Magnitude(-x);
      assert s == "-" + m;
      assert s[1..] == m;
      MagnitudeValue(-x);
    } else {
      MagnitudeValue(x);
    }
  }

  /** `m` is digits, a point and one more digit, and read without the point
      it is `n`. */
  predicate ReadsAsTenths(m: string, n: nat) {
    && |m| >= 3 && m[|m| - 2] == '.'
    && (forall i | 0 <= i < |m| - 2 :: '0' <= m[i] <= '9')
    && '0' <= m[|m| - 1] <= '9'
    && NatValue(Unpointed(m)) == n
  }

  /** The digits of `m` without the point before its last digit. */
  function Unpointed(m: string): (d: string)
    requires |m| >= 3 && '0' <= m[|m| - 1] <= '9'
    requires forall i | 0 <= i < |m| - 2 :: '0' <= m[i] <= '9'
    ensures forall i | 0 <= i < |d| :: '0' <= d[i] <= '9'
  {
    m[..|m| - 2] + [m[|m| - 1]]
  }

  lemma MagnitudeValue(a: real)
    requires a >= 0.0
    ensures ReadsAsTenths(Fixed1Magnitude(a), (a * 10.0 + 0.5).Floor)
  {
    var m := Fixed1Magnitude(a);
    var tenths := (a * 10.0 + 0.5).Floor;
    var whole, last := NatText(tenths / 10), Digit(tenths % 10);
    assert m == whole + "." + [last];
    var digits := Unpointed(m);
    assert digits == whole + [last];
    assert digits[..|digits| - 1] == whole;
    NatTextRoundTrip(tenths / 10);
    DigitValue(tenths % 10);
  }

  lemma DigitValue(d: nat)
    requires d < 10
    ensures (Digit(d) - '0') as nat == d
  {
  }

  /** Reading the digits back gives the number: `str` on naturals is injective. */
  function NatValue(s: string): nat
    requires forall i | 0 <= i < |s| :: '0' <= s[i] <= '9'
  {
    if s == [] then 0 else 10 * NatValue(s[..|s| - 1]) + (s[|s| - 1] - '0') as nat
  }

  lemma {:induction false} NatTextRoundTrip(n: nat)
    ensures NatValue(NatText(n)) == n
    decreases n
  {
    if n >= 10 {
      var s := NatText(n);
      assert s[..|s| - 1] == NatText(n / 10);
      NatTextRoundTrip(n / 10);
    }
  }

  lemma NatTextInjective(m: nat, n: nat)
    ensures NatText(m) == NatText(n) ==> m == n
  {
    NatTextRoundTrip(m);
    NatTextRoundTrip(n);
  }
}
