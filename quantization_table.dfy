/** Derivation of the quality-scaled quantization table (calculateQuantizationTable). */
module QuantizationTable {

  /** A quantization step: a positive integer. */
  type Step = n: int | n >= 1 witness 1

  /** The luminance quantization table of ITU-T T.81 (ISO/IEC 10918-1), Annex K, Table K.1,
      indexed [x][y] as in standardQuantization. */
  const StandardQuantization: seq<seq<Step>> := [
    [16, 11, 10, 16, 24, 40, 51, 61],
    [12, 12, 14, 19, 26, 58, 60, 55],
    [14, 13, 16, 24, 40, 57, 69, 56],
    [14, 17, 22, 29, 51, 87, 80, 62],
    [18, 22, 37, 56, 68, 109, 103, 77],
    [24, 35, 55, 64, 81, 104, 113, 92],
    [49, 64, 78, 87, 103, 121, 120, 101],
    [72, 92, 95, 98, 112, 100, 103, 99]
  ]

  /** An 8x8 grid whose every entry is a step of at least 1. */
  predicate IsTable(t: seq<seq<int>>) {
    |t| == 8 && forall x :: 0 <= x < 8 ==> |t[x]| == 8 && forall y :: 0 <= y < 8 ==> t[x][y] >= 1
  }

  /** The IJG scale factor S, in exact arithmetic: 5000/quality below 50, 200 - 2*quality from 50 on. */
  function ScaleFactor(quality: int): (s: real)
    requires 1 <= quality <= 100
    ensures 0.0 <= s <= 5000.0
    ensures quality < 50 ==> s * quality as real == 5000.0 && s > 100.0
    ensures quality >= 50 ==> s + (2 * quality) as real == 200.0 && s <= 100.0
  {
    if quality < 50 then 5000.0 / quality as real else (200 - 2 * quality) as real
  }

  /** The table formula Math.floor((S * base + 50) / 100) over exact reals, before the zero is raised. */
  function ReferenceValue(quality: int, base: nat): (r: int)
    requires 1 <= quality <= 100
    ensures r >= 0
    ensures var exact := (ScaleFactor(quality) * base as real + 50.0) / 100.0;
      r as real <= exact < r as real + 1.0
  {
    ((ScaleFactor(quality) * base as real + 50.0) / 100.0).Floor
  }

  /** The same formula rewritten over integers, with the zero result raised to 1. */
  function QuantizationValue(quality: int, base: nat): (r: int)
    requires 1 <= quality <= 100
    ensures r >= 1
    ensures r == if ReferenceValue(quality, base) == 0 then 1 else ReferenceValue(quality, base)
  {
    IntegerFormulaIsReference(quality, base);
    var raw := if quality < 50 then (5000 * base + 50 * quality) / (100 * quality)
               else ((200 - 2 * quality) * base + 50) / 100;
    if raw == 0 then 1 else raw
  }

  /** The adjusted table for a quality: the formula applied to every cell of the standard table. */
  function AdjustedTable(quality: int): (t: seq<seq<int>>)
    requires 1 <= quality <= 100
    ensures IsTable(t)
    ensures forall x, y :: 0 <= x < 8 && 0 <= y < 8 ==> t[x][y] == QuantizationValue(quality, StandardQuantization[x][y])
  {
    seq(8, x requires 0 <= x < 8 =>
      seq(8, y requires 0 <= y < 8 => QuantizationValue(quality, StandardQuantization[x][y])))
  }

  /** Over exact reals, n / d rounded down is Euclidean integer division when d is positive. */
  lemma FloorOfQuotient(n: int, d: int)
    requires d > 0
    ensures (n as real / d as real).Floor == n / d
  {
    var k, r := n / d, n % d;
    assert n == k * d + r && 0 <= r < d;
    assert n as real == k as real * d as real + r as real;
    assert n as real / d as real == k as real + r as real / d as real;
    assert 0.0 <= r as real / d as real < 1.0;
  }

  /** Floor is monotone. */
  lemma FloorMonotone(a: real, b: real)
    requires a <= b
    ensures a.Floor <= b.Floor
  {
    assert a.Floor as real <= a <= b < b.Floor as real + 1.0;
  }

  /** The integer rewriting agrees with the real formula of the source on every quality and base value. */
  lemma IntegerFormulaIsReference(quality: int, base: nat)
    requires 1 <= quality <= 100
    ensures ReferenceValue(quality, base) ==
      if quality < 50 then (5000 * base + 50 * quality) / (100 * quality)
      else ((200 - 2 * quality) * base + 50) / 100
  {
    var q, b := quality as real, base as real;
    if quality < 50 {
      var n, d := 5000 * base + 50 * quality, 100 * quality;
      assert q * (5000.0 / q) == 5000.0;
      calc {
        (ScaleFactor(quality) * b + 50.0) / 100.0;
        ((5000.0 / q) * b + 50.0) / 100.0;
        { assert (5000.0 / q) * b + 50.0 == (5000.0 * b + 50.0 * q) / q; }
        ((5000.0 * b + 50.0 * q) / q) / 100.0;
        (5000.0 * b + 50.0 * q) / (100.0 * q);
        n as real / d as real;
      }
      FloorOfQuotient(n, d);
    } else {
      var n := (200 - 2 * quality) * base + 50;
      assert (ScaleFactor(quality) * b + 50.0) / 100.0 == n as real / 100.0;
      FloorOfQuotient(n, 100);
    }
  }

  /** S does not increase as quality rises. */
  lemma ScaleFactorMonotone(q1: int, q2: int)
    requires 1 <= q1 <= q2 <= 100
    ensures ScaleFactor(q1) >= ScaleFactor(q2) >= 0.0
  {
    if q1 < 50 {
      if q2 < 50 {
        QuotientAntitone(5000.0, q1 as real, q2 as real);
      } else {
        QuotientAntitone(5000.0, q1 as real, 50.0);
        assert 5000.0 / 50.0 == 100.0;
      }
    }
  }

  /** Dividing by a larger positive number gives a smaller quotient. */
  lemma QuotientAntitone(k: real, x: real, y: real)
    requires k >= 0.0 && 0.0 < x <= y
    ensures k / x >= k / y
  {
    var a, c := k / x, k / y;
    assert a * x == k && c * y == k;
    MultiplyMonotone(y, x, c);
    if a < c {
      MultiplyStrict(c, a, x);
      assert k == a * x < c * x <= c * y == k;
    }
  }

  /** Multiplying by a non-negative factor keeps an inequality. */
  lemma MultiplyMonotone(a: real, c: real, b: real)
    requires a >= c && b >= 0.0
    ensures a * b >= c * b
  {
  }

  /** Multiplying by a positive factor keeps a strict inequality. */
  lemma MultiplyStrict(a: real, c: real, b: real)
    requires a > c && b > 0.0
    ensures a * b > c * b
  {
  }

  /** A lower quality never gives a finer step: the value is non-increasing in quality. */
  lemma QuantizationValueMonotone(q1: int, q2: int, base: nat)
    requires 1 <= q1 <= q2 <= 100
    ensures QuantizationValue(q1, base) >= QuantizationValue(q2, base)
  {
    ScaleFactorMonotone(q1, q2);
    var b := base as real;
    var s1, s2 := ScaleFactor(q1), ScaleFactor(q2);
    MultiplyMonotone(s1, s2, b);
    FloorMonotone((s2 * b + 50.0) / 100.0, (s1 * b + 50.0) / 100.0);
    assert ReferenceValue(q1, base) >= ReferenceValue(q2, base);
  }

  /** At quality 50 (S = 100) a positive base value is returned unchanged. */
  lemma QuantizationValueAtQuality50(base: Step)
    ensures QuantizationValue(50, base) == base
  {
  }

  /** At quality 100 (S = 0) every value is raised from 0 to 1. */
  lemma QuantizationValueAtQuality100(base: nat)
    ensures QuantizationValue(100, base) == 1
  {
  }

  /** At quality 50 the adjusted table is the standard table, cell for cell. */
  lemma AdjustedTableAtQuality50()
    ensures AdjustedTable(50) == StandardQuantization
  {
    var t := AdjustedTable(50);
    forall x | 0 <= x < 8
      ensures t[x] == StandardQuantization[x]
    {
      forall y | 0 <= y < 8
        ensures t[x][y] == StandardQuantization[x][y]
      {
        QuantizationValueAtQuality50(StandardQuantization[x][y]);
      }
    }
  }

  /** At quality 100 every cell of the adjusted table is 1. */
  lemma AdjustedTableAtQuality100()
    ensures forall x, y :: 0 <= x < 8 && 0 <= y < 8 ==> AdjustedTable(100)[x][y] == 1
  {
    forall x, y | 0 <= x < 8 && 0 <= y < 8
      ensures AdjustedTable(100)[x][y] == 1
    {
      QuantizationValueAtQuality100(StandardQuantization[x][y]);
    }
  }

  /** The whole table never gets finer as quality drops. */
  lemma AdjustedTableMonotone(q1: int, q2: int)
    requires 1 <= q1 <= q2 <= 100
    ensures forall x, y :: 0 <= x < 8 && 0 <= y < 8 ==> AdjustedTable(q1)[x][y] >= AdjustedTable(q2)[x][y]
  {
    forall x, y | 0 <= x < 8 && 0 <= y < 8
      ensures AdjustedTable(q1)[x][y] >= AdjustedTable(q2)[x][y]
    {
      QuantizationValueMonotone(q1, q2, StandardQuantization[x][y]);
    }
  }
}
