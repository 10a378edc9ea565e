/**
 * formatTime of the audio player (src/components/AudioPlayer.tsx): a time in
 * seconds rendered as "m:ss". JavaScript numbers are modelled as a finite
 * real, NaN or one of the two infinities; `%` on numbers truncates towards
 * zero (the remainder takes the dividend's sign) and is written out here.
 */
module TimeFormat {

  datatype Number = NaN | PosInfinity | NegInfinity | Finite(value: real)

  /** Math.trunc on a finite number: the integer part, rounding towards zero. */
  function Trunc(x: real): (r: int)
    ensures 0.0 <= x ==> r as real <= x < r as real + 1.0
    ensures x < 0.0 ==> r as real - 1.0 < x <= r as real
  {
    if x >= 0.0 then x.Floor else -((-x).Floor)
  }

  /** `x % y` in JavaScript on finite numbers with y != 0: x - y * trunc(x / y). */
  function JsRem(x: real, y: real): real
    requires y != 0.0
  {
    x - y * Trunc(x / y) as real
  }

  function DigitChar(d: nat): char
    requires d < 10
  {
    "0123456789"[d]
  }

  predicate IsDigit(c: char)
  {
    '0' <= c <= '9'
  }

  predicate AllDigits(s: string)
  {
    forall k :: 0 <= k < |s| ==> IsDigit(s[k])
  }

  function DigitValue(c: char): nat
    requires IsDigit(c)
  {
    (c as int - '0' as int) as nat
  }

  /** Number.prototype.toString on a non-negative integer: its decimal digits. */
  function NatToString(n: nat): (s: string)
    ensures |s| >= 1 && AllDigits(s)
    ensures n < 10 <==> |s| == 1
  {
    if n < 10 then [DigitChar(n)] else NatToString(n / 10) + [DigitChar(n % 10)]
  }

  /** Number.prototype.toString on an integer: a '-' before the digits of a negative one. */
  function IntToString(n: int): string
  {
    if n < 0 then "-" + NatToString(-n) else NatToString(n)
  }

  /** The value of a string of decimal digits. */
  function ParseNat(s: string): nat
    requires AllDigits(s)
  {
    if s == [] then 0 else ParseNat(s[..|s| - 1]) * 10 + DigitValue(s[|s| - 1])
  }

  /** String.prototype.padStart(n, c) with a one-character pad. */
  function PadStart(s: string, n: nat, c: char): (r: string)
    ensures |r| == if |s| >= n then |s| else n
    decreases n - |s|
  {
    if |s| >= n then s else PadStart([c] + s, n, c)
  }

  /** formatTime(timeInSeconds). */
  function FormatTime(t: Number): string
  {
    match t
    case NaN => "0:00"
    // Math.floor(Infinity / 60) is Infinity and Infinity % 60 is NaN.
    case PosInfinity => "Infinity:NaN"
    case NegInfinity => "-Infinity:NaN"
    case Finite(x) =>
      Clock(Minutes(x), Seconds(x))
  }

  /** Math.floor(x / 60). */
  function Minutes(x: real): int
  {
    (x / 60.0).Floor
  }

  /** Math.floor(x % 60). */
  function Seconds(x: real): int
  {
    JsRem(x, 60.0).Floor
  }

  /** The text for whole minutes and seconds: minutes unpadded, seconds padded to two characters. */
  function Clock(minutes: int, seconds: int): string
  {
    PadStart(IntToString(minutes), 1, '0') + ":" + PadStart(IntToString(seconds), 2, '0')
  }

  // ---------------------------------------------------------------------
  // Properties

  /** Parsing the digits toString writes gives the number back. */
  lemma {:induction false} ParseNatToString(n: nat)
    ensures ParseNat(NatToString(n)) == n
  {
    var s := NatToString(n);
    if n >= 10 {
      ParseNatToString(n / 10);
      assert s[..|s| - 1] == NatToString(n / 10);
    }
  }

  /** The digits of a number below 100 padded to two characters read back as that number. */
  lemma PadTwoDigits(n: nat)
    requires n < 100
    ensures |PadStart(NatToString(n), 2, '0')| == 2
    ensures AllDigits(PadStart(NatToString(n), 2, '0'))
    ensures ParseNat(PadStart(NatToString(n), 2, '0')) == n
  {
    var s := NatToString(n);
    ParseNatToString(n);
    var p := PadStart(s, 2, '0');
    if n < 10 {
      assert |s| == 1;
      assert PadStart(s, 2, '0') == PadStart(['0'] + s, 2, '0');
      assert p == ['0'] + s;
      assert p[..1] == ['0'];
      assert ParseNat(['0']) == 0;
    } else {
      assert n / 10 < 10;
      assert p == s;
    }
  }

  /** padStart keeps the string as a suffix and fills the front with the pad character. */
  lemma {:induction false} PadStartShape(s: string, n: nat, c: char)
    ensures var r := PadStart(s, n, c);
      r[|r| - |s|..] == s && forall k :: 0 <= k < |r| - |s| ==> r[k] == c
    decreases n - |s|
  {
    if |s| < n {
      PadStartShape([c] + s, n, c);
    }
  }

  lemma FloorIs(x: real, k: int)
    requires k as real <= x < k as real + 1.0
    ensures x.Floor == k
  {
  }

  /**
   * For a time t >= 0 the minutes are floor(t) div 60 and the seconds
   * floor(t) mod 60: together they give back the whole seconds of t.
   */
  lemma ClockParts(t: real)
    requires t >= 0.0
    ensures Minutes(t) == t.Floor / 60
    ensures Seconds(t) == t.Floor % 60
  {
    var n := t.Floor;
    var m, r := n / 60, n % 60;
    assert n == 60 * m + r;
    assert n as real <= t < n as real + 1.0;
    assert m as real <= t / 60.0 < m as real + 1.0 by {
      assert (60 * m) as real <= t;
      assert t < (60 * m + 60) as real;
    }
    FloorIs(t / 60.0, m);
    assert Trunc(t / 60.0) == m;
    var rem := JsRem(t, 60.0);
    assert rem == t - 60.0 * m as real;
    assert r as real <= rem < r as real + 1.0;
    FloorIs(rem, r);
  }

  /** With non-negative parts no minus sign appears and the minutes are not padded. */
  lemma ClockOfNats(minutes: nat, seconds: nat)
    ensures Clock(minutes, seconds) == NatToString(minutes) + ":" + PadStart(NatToString(seconds), 2, '0')
  {
  }

  /** The text of a clock "m:ss" is well formed and reads back as the parts it was built from. */
  predicate ReadsBack(s: string, m: nat, r: nat)
  {
    |s| >= 4 && s[|s| - 3] == ':' &&
    AllDigits(s[..|s| - 3]) && AllDigits(s[|s| - 2..]) &&
    ParseNat(s[..|s| - 3]) == m && ParseNat(s[|s| - 2..]) == r
  }

  lemma ClockReadsBack(m: nat, r: nat)
    requires r < 60
    ensures ReadsBack(Clock(m, r), m, r)
  {
    var ms := NatToString(m);
    var ss := PadStart(NatToString(r), 2, '0');
    ClockOfNats(m, r);
    PadTwoDigits(r);
    ParseNatToString(m);
    var s := Clock(m, r);
    assert s == ms + ":" + ss;
    assert s[..|s| - 3] == ms;
    assert s[|s| - 2..] == ss;
  }

  /**
   * For t >= 0 the display is "m:ss": digits, a colon and two digits, and
   * reading it back gives 60 * m + ss == floor(t) with ss < 60.
   */
  lemma FormatTimeNonNegative(t: real)
    requires t >= 0.0
    ensures var s := FormatTime(Finite(t));
      |s| >= 4 && s[|s| - 3] == ':' &&
      AllDigits(s[..|s| - 3]) && AllDigits(s[|s| - 2..]) &&
      ParseNat(s[|s| - 2..]) < 60 &&
      ParseNat(s[..|s| - 3]) * 60 + ParseNat(s[|s| - 2..]) == t.Floor
  {
    ClockParts(t);
    var m: nat := Minutes(t);
    var r: nat := Seconds(t);
    ClockReadsBack(m, r);
    assert FormatTime(Finite(t)) == Clock(m, r);
  }

  /** A missing duration (NaN) shows as 0:00. */
  lemma FormatTimeNaN()
    ensures FormatTime(NaN) == "0:00"
  {
  }

  /**
   * Negative times are not clamped: -30 s shows as "-1:-30", because the
   * minutes floor towards minus infinity while `%` keeps the sign.
   */
  lemma FormatTimeNegative()
    ensures FormatTime(Finite(-30.0)) == "-1:-30"
  {
    assert (-30.0 / 60.0).Floor == -1;
    assert Trunc(-30.0 / 60.0) == 0;
    assert JsRem(-30.0, 60.0) == -30.0;
    assert JsRem(-30.0, 60.0).Floor == -30;
    assert NatToString(1) == "1";
    assert NatToString(30) == "30";
  }
}
