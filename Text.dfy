/** Bytes, Java's fixed-width integers, and the decimal text the server reads and writes.

    Every field of a request is a byte string; the server turns some of them into numbers
    with Java's `Integer.parseInt`, `Long.valueOf` and `Float.parseFloat`, and writes numbers
    back with Java's decimal `toString`.  This module holds those conversions.
 */
module Text {

  type byte = x: int | 0 <= x < 256
  type Bytes = seq<byte>

  datatype Option<T> = None | Some(value: T)

  const CR: byte := 13
  const LF: byte := 10
  const PLUS: byte := 43
  const MINUS: byte := 45
  const DOT: byte := 46
  const ZERO: byte := 48

  const MinInt32: int := -0x8000_0000
  const MaxInt32: int := 0x7FFF_FFFF
  const MinInt64: int := -0x8000_0000_0000_0000
  const MaxInt64: int := 0x7FFF_FFFF_FFFF_FFFF

  /** Java `int` and `long` values. */
  type Int32 = x: int | MinInt32 <= x <= MaxInt32
  type Int64 = x: int | MinInt64 <= x <= MaxInt64

  /** The `int` Java computes for the mathematical value x (two's complement wrap-around). */
  function Wrap32(x: int): (r: Int32)
    ensures MinInt32 <= x <= MaxInt32 ==> r == x
    ensures (r - x) % 0x1_0000_0000 == 0
  {
    (x - MinInt32) % 0x1_0000_0000 + MinInt32
  }

  /** The `long` Java computes for the mathematical value x. */
  function Wrap64(x: int): (r: Int64)
    ensures MinInt64 <= x <= MaxInt64 ==> r == x
    ensures (r - x) % 0x1_0000_0000_0000_0000 == 0
  {
    (x - MinInt64) % 0x1_0000_0000_0000_0000 + MinInt64
  }

  /** Two values that `long` arithmetic cannot tell apart from zero add up to one that it cannot
      either. */
  lemma WrapSum64(x: int, y: int)
    requires x % 0x1_0000_0000_0000_0000 == 0 && y % 0x1_0000_0000_0000_0000 == 0
    ensures (x + y) % 0x1_0000_0000_0000_0000 == 0
  {
    assert x == (x / 0x1_0000_0000_0000_0000) * 0x1_0000_0000_0000_0000;
    assert y == (y / 0x1_0000_0000_0000_0000) * 0x1_0000_0000_0000_0000;
    assert x + y == (x / 0x1_0000_0000_0000_0000 + y / 0x1_0000_0000_0000_0000) * 0x1_0000_0000_0000_0000;
  }

  /** The bytes of an ASCII string literal. */
  function Ascii(t: string): (r: Bytes)
    ensures |r| == |t|
  {
    if t == [] then []
    else
      var b: byte := (t[0] as int) % 256;
      [b] + Ascii(t[1..])
  }

  /** Byte i of an ASCII literal is its character's code. */
  lemma {:induction false} AsciiAt(t: string, i: nat)
    requires i < |t|
    ensures Ascii(t)[i] == (t[i] as int) % 256
    decreases i
  {
    if i > 0 {
      AsciiAt(t[1..], i - 1);
    }
  }

  /** `String.toUpperCase` on ASCII letters; other bytes are kept. */
  function Upper(b: Bytes): (r: Bytes)
    ensures |r| == |b|
    ensures forall i :: 0 <= i < |b| ==> r[i] == (if 97 <= b[i] <= 122 then b[i] - 32 else b[i])
  {
    if b == [] then []
    else
      var c: byte := if 97 <= b[0] <= 122 then b[0] - 32 else b[0];
      [c] + Upper(b[1..])
  }

  predicate IsDigit(b: byte) {
    ZERO <= b <= ZERO + 9
  }

  predicate AllDigits(ds: Bytes) {
    forall i :: 0 <= i < |ds| ==> IsDigit(ds[i])
  }

  function Digit(d: nat): byte
    requires d < 10
  {
    ZERO + d
  }

  /** Decimal value of ds read left to right, starting from acc: acc * 10^|ds| + value(ds). */
  function FoldDigits(acc: int, ds: Bytes): int
    decreases |ds|
  {
    if ds == [] then acc else FoldDigits(acc * 10 + (ds[0] - ZERO), ds[1..])
  }

  /** Java's decimal text of a non-negative number. */
  function NatText(n: nat): (r: Bytes)
    ensures |r| >= 1 && AllDigits(r)
    ensures n > 0 ==> r[0] != ZERO
    decreases n
  {
    if n < 10 then [Digit(n)] else NatText(n / 10) + [Digit(n % 10)]
  }

  /** Java's decimal text of any number (`"" + n`). */
  function IntText(n: int): (r: Bytes)
    ensures |r| >= 1
    ensures r[0] == MINUS <==> n < 0
    ensures n < 0 ==> r[1..] == NatText(-n)
    ensures n >= 0 ==> r == NatText(n)
  {
    if n < 0 then [MINUS] + NatText(-n) else NatText(n)
  }

  lemma {:induction false} FoldAppend(acc: int, ds: Bytes, d: byte)
    ensures FoldDigits(acc, ds + [d]) == FoldDigits(acc, ds) * 10 + (d - ZERO)
    decreases |ds|
  {
    if ds == [] {
      assert [] + [d] == [d];
    } else {
      assert (ds + [d])[1..] == ds[1..] + [d];
      FoldAppend(acc * 10 + (ds[0] - ZERO), ds[1..], d);
    }
  }

  /** Reading back the decimal text of n gives n. */
  lemma {:induction false} NatTextValue(n: nat)
    ensures FoldDigits(0, NatText(n)) == n
    decreases n
  {
    if n >= 10 {
      NatTextValue(n / 10);
      FoldAppend(0, NatText(n / 10), Digit(n % 10));
    }
  }

  /** Folding digits onto a non-negative accumulator never makes it smaller. */
  lemma {:induction false} FoldGrows(acc: int, ds: Bytes)
    requires acc >= 0 && AllDigits(ds)
    ensures FoldDigits(acc, ds) >= acc
    decreases |ds|
  {
    if ds != [] {
      assert IsDigit(ds[0]);
      FoldGrows(acc * 10 + (ds[0] - ZERO), ds[1..]);
    }
  }

  /** `Integer.parseInt` (lo, hi = the int range) and `Long.valueOf` (the long range) on ASCII text:
      an optional sign, at least one digit, and a value within range; None stands for the
      NumberFormatException Java throws otherwise. */
  function ParseInteger(b: Bytes, lo: int, hi: int): (r: Option<int>)
    ensures r.Some? ==> lo <= r.value <= hi
  {
    var signed := |b| > 0 && (b[0] == MINUS || b[0] == PLUS);
    var digits := if signed then b[1..] else b;
    if digits == [] || !AllDigits(digits) then None
    else
      var v := FoldDigits(0, digits);
      var n := if b[0] == MINUS then -v else v;
      if lo <= n <= hi then Some(n) else None
  }

  /** Numbers written as Java writes them parse back to themselves. */
  lemma ParseIntegerText(n: int, lo: int, hi: int)
    requires lo <= n <= hi
    ensures ParseInteger(IntText(n), lo, hi) == Some(n)
  {
    if n < 0 {
      assert ([MINUS] + NatText(-n))[1..] == NatText(-n);
      NatTextValue(-n);
    } else {
      assert IsDigit(NatText(n)[0]);
      NatTextValue(n);
    }
  }

  /** Index of the first occurrence of c in b, or |b|. */
  function IndexOf(b: Bytes, c: byte): (i: nat)
    ensures i <= |b| && (i < |b| ==> b[i] == c)
    ensures forall k :: 0 <= k < i ==> b[k] != c
  {
    if b == [] then 0 else if b[0] == c then 0 else 1 + IndexOf(b[1..], c)
  }

  /** Java's narrowing of a floating-point value to `long`, which saturates at the range ends. */
  function Saturate64(x: int): (r: Int64)
    ensures MinInt64 <= x <= MaxInt64 ==> r == x
  {
    if x < MinInt64 then MinInt64 else if x > MaxInt64 then MaxInt64 else x
  }

  /** `(long) (Float.parseFloat(b) * 1000)` for plain decimal text: an optional sign, digits with
      at least one digit, at most one '.', truncated toward zero to whole milliseconds.
      None stands for the NumberFormatException. */
  function SecondsToMillis(b: Bytes): (r: Option<Int64>)
    ensures r.Some? ==> |b| > 0
    ensures r.Some? && r.value < 0 ==> b[0] == MINUS
  {
    var body := if |b| > 0 && (b[0] == MINUS || b[0] == PLUS) then b[1..] else b;
    var dot := IndexOf(body, DOT);
    var whole := body[..dot];
    var frac := if dot < |body| then body[dot + 1..] else [];
    if whole + frac == [] || !AllDigits(whole) || !AllDigits(frac) then None
    else
      var millis := (frac + [ZERO, ZERO, ZERO])[..3];
      assert AllDigits(millis);
      FoldGrows(0, whole);
      FoldGrows(0, millis);
      var ms := FoldDigits(0, whole) * 1000 + FoldDigits(0, millis);
      Some(Saturate64(if b[0] == MINUS then -ms else ms))
  }

  /** The value of three decimal digits. */
  lemma ThreeDigits(ds: Bytes)
    requires |ds| == 3 && AllDigits(ds)
    ensures FoldDigits(0, ds) == (ds[0] - ZERO) * 100 + (ds[1] - ZERO) * 10 + (ds[2] - ZERO)
    ensures 0 <= FoldDigits(0, ds) <= 999
  {
    assert IsDigit(ds[0]) && IsDigit(ds[1]) && IsDigit(ds[2]);
    var a, b, c := ds[0] - ZERO, ds[1] - ZERO, ds[2] - ZERO;
    assert ds[1..] == [ds[1], ds[2]] && ds[1..][1..] == [ds[2]] && ds[1..][1..][1..] == [];
    calc {
      FoldDigits(0, ds);
      FoldDigits(a, [ds[1], ds[2]]);
      FoldDigits(a * 10 + b, [ds[2]]);
      FoldDigits((a * 10 + b) * 10 + c, []);
    }
  }

  /** Seconds with a fractional part: the first three digits after the point are the
      milliseconds, any further digits are cut off. */
  lemma SecondsToMillisFraction(n: nat, ds: Bytes)
    requires AllDigits(ds) && n * 1000 + 999 <= MaxInt64
    ensures SecondsToMillis(NatText(n) + [DOT] + ds) == Some(n * 1000 + FoldDigits(0, (ds + [ZERO, ZERO, ZERO])[..3]))
  {
    var t := NatText(n);
    var b := t + [DOT] + ds;
    assert IsDigit(t[0]) && b[0] == t[0];
    var dot := IndexOf(b, DOT);
    assert dot == |t| by {
      assert b[|t|] == DOT;
      forall k | 0 <= k < |t| ensures b[k] != DOT {
        assert b[k] == t[k] && IsDigit(t[k]);
      }
    }
    assert b[..dot] == t && b[dot + 1..] == ds;
    NatTextValue(n);
    var millis := (ds + [ZERO, ZERO, ZERO])[..3];
    assert AllDigits(millis);
    ThreeDigits(millis);
  }

  /** A tenth of a second is 100 milliseconds. */
  lemma TenthOfASecond()
    ensures SecondsToMillis([ZERO, DOT, ZERO + 1]) == Some(100)
  {
    SecondsToMillisFraction(0, [ZERO + 1]);
    assert NatText(0) + [DOT] + [ZERO + 1] == [ZERO, DOT, ZERO + 1];
    assert ([ZERO + 1] + [ZERO, ZERO, ZERO])[..3] == [ZERO + 1, ZERO, ZERO];
    ThreeDigits([ZERO + 1, ZERO, ZERO]);
  }

  /** Digits past the third after the point are cut off: 0.0005 seconds is 0 milliseconds. */
  lemma BelowAMillisecond()
    ensures SecondsToMillis([ZERO, DOT, ZERO, ZERO, ZERO, ZERO + 5]) == Some(0)
  {
    var ds := [ZERO, ZERO, ZERO, ZERO + 5];
    SecondsToMillisFraction(0, ds);
    assert NatText(0) + [DOT] + ds == [ZERO, DOT, ZERO, ZERO, ZERO, ZERO + 5];
    assert (ds + [ZERO, ZERO, ZERO])[..3] == [ZERO, ZERO, ZERO];
    ThreeDigits([ZERO, ZERO, ZERO]);
  }

  /** A whole number of seconds written in decimal is that many thousand milliseconds. */
  lemma SecondsToMillisWhole(n: nat)
    requires n * 1000 <= MaxInt64
    ensures SecondsToMillis(NatText(n)) == Some(n * 1000)
  {
    var t := NatText(n);
    assert IsDigit(t[0]);
    var dot := IndexOf(t, DOT);
    assert dot == |t| && t[..dot] == t;
    NatTextValue(n);
    assert ([] + [ZERO, ZERO, ZERO])[..3] == [ZERO, ZERO, ZERO];
    assert [ZERO, ZERO, ZERO][1..] == [ZERO, ZERO] && [ZERO, ZERO][1..] == [ZERO];
    assert FoldDigits(0, [ZERO]) == 0;
    assert FoldDigits(0, [ZERO, ZERO, ZERO]) == 0;
  }
}
