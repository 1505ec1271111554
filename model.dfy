/**
 * Fixed data and value types shared by the classifier: the vowel labels, the
 * compiled-in formant template table, the `DataPoint` pair with its operator
 * implementations, and the per-frame `VowelEstimate` record.
 * Floating-point values are modelled as `real`.
 */
module Model {

  /** Number of samples the frame pipeline analyses. */
  const FFT_SAMPLES: nat := 1024

  /** Dynamic range, in decibels, used to turn the level into a confidence. */
  const DYNAMIC_RANGE: real := 100.0

  /** Weight of a bin-index difference in the template distance. */
  const INV_255: real := 1.0 / 255.0

  /** The vowel labels; a label's position is its classification index. */
  const VOWELS: seq<string> := ["A", "E", "I", "O", "U"]

  /** A pair of reals: (bin index, amplitude) for a formant peak, (re, im) in the transform. */
  datatype DataPoint = DataPoint(0: real, 1: real)

  /** The per-frame output: raw classification, smoothed vowel and confidence amount. */
  datatype VowelEstimate = VowelEstimate(estimate: int, vowel: int, amount: real)

  /** Template table, keyed by peak count ("peak3"/"peak4") and then by vowel label. */
  const DEFAULT_ESTIMATES: map<string, map<string, seq<DataPoint>>> := map[
    "peak3" := map[
      "A" := [DataPoint(18.0, 1.0), DataPoint(41.0, 0.9), DataPoint(85.0, 0.75)],
      "E" := [DataPoint(21.0, 1.0), DataPoint(60.0, 0.75), DataPoint(84.0, 0.65)],
      "I" := [DataPoint(21.0, 1.0), DataPoint(42.0, 1.1), DataPoint(84.0, 1.0)],
      "O" := [DataPoint(20.0, 1.0), DataPoint(63.0, 0.9), DataPoint(85.0, 0.8)],
      "U" := [DataPoint(19.0, 1.0), DataPoint(47.0, 0.65), DataPoint(84.0, 0.7)]
    ],
    "peak4" := map[
      "A" := [DataPoint(18.0, 1.0), DataPoint(41.0, 0.9), DataPoint(68.0, 0.7), DataPoint(85.0, 0.55)],
      "E" := [DataPoint(22.0, 1.0), DataPoint(43.0, 0.9), DataPoint(66.0, 0.7), DataPoint(84.0, 0.65)],
      "I" := [DataPoint(21.0, 1.0), DataPoint(42.0, 1.1), DataPoint(60.0, 1.0), DataPoint(84.0, 1.1)],
      "O" := [DataPoint(20.0, 1.0), DataPoint(39.0, 0.9), DataPoint(63.0, 0.75), DataPoint(85.0, 0.8)],
      "U" := [DataPoint(20.0, 1.0), DataPoint(39.0, 0.7), DataPoint(65.0, 0.6), DataPoint(84.0, 0.75)]
    ]
  ]

  /** The key of the template group for a peak count. */
  function PeakKey(arity: int): string
    requires arity == 3 || arity == 4
  {
    if arity == 3 then "peak3" else "peak4"
  }

  /** A template is well formed: first amplitude 1.0 and strictly increasing bin indices. */
  predicate WellFormedTemplate(t: seq<DataPoint>)
  {
    && |t| > 0
    && t[0].1 == 1.0
    && forall j :: 0 < j < |t| ==> t[j - 1].0 < t[j].0
  }

  /** Both template groups define all five labels, with 3 or 4 well-formed peaks. */
  lemma TemplateTableShape()
    ensures "peak3" in DEFAULT_ESTIMATES && "peak4" in DEFAULT_ESTIMATES
    ensures forall v :: 0 <= v < |VOWELS| ==>
              && VOWELS[v] in DEFAULT_ESTIMATES["peak3"]
              && VOWELS[v] in DEFAULT_ESTIMATES["peak4"]
              && |DEFAULT_ESTIMATES["peak3"][VOWELS[v]]| == 3
              && |DEFAULT_ESTIMATES["peak4"][VOWELS[v]]| == 4
              && WellFormedTemplate(DEFAULT_ESTIMATES["peak3"][VOWELS[v]])
              && WellFormedTemplate(DEFAULT_ESTIMATES["peak4"][VOWELS[v]])
  {
  }

  /** The template of vowel `v` for `arity` peaks. */
  function Template(arity: int, v: int): (t: seq<DataPoint>)
    requires arity == 3 || arity == 4
    requires 0 <= v < |VOWELS|
    ensures |t| == arity
    ensures WellFormedTemplate(t)
  {
    TemplateTableShape();
    DEFAULT_ESTIMATES[PeakKey(arity)][VOWELS[v]]
  }

  // ---- DataPoint operators ----

  /** `Add`: component-wise sum. */
  function Add(p: DataPoint, q: DataPoint): (r: DataPoint)
  {
    DataPoint(p.0 + q.0, p.1 + q.1)
  }

  /** `MulAssign<f32>`: scale both components by `s`. */
  function Scale(p: DataPoint, s: real): (r: DataPoint)
  {
    DataPoint(p.0 * s, p.1 * s)
  }

  /** Scaling distributes over `Add` and composes multiplicatively. */
  lemma ScaleLaws(p: DataPoint, q: DataPoint, s: real, t: real)
    ensures Scale(Add(p, q), s) == Add(Scale(p, s), Scale(q, s))
    ensures Scale(Scale(p, s), t) == Scale(p, s * t)
    ensures Scale(p, 1.0) == p
  {
    assert p.0 * s * t == p.0 * (s * t);
    assert p.1 * s * t == p.1 * (s * t);
  }

  /**
   * `Mul` as written: (a·c − b·d, a·c + b·d). The real part is the complex
   * product's; the imaginary part is off from it by (a − b)·(c − d).
   */
  function Mul(p: DataPoint, q: DataPoint): (r: DataPoint)
    ensures r.0 == ComplexMul(p, q).0
    ensures r.1 == ComplexMul(p, q).1 + (p.0 - p.1) * (q.0 - q.1)
  {
    DataPoint(p.0 * q.0 - p.1 * q.1, p.0 * q.0 + p.1 * q.1)
  }

  /** Squared modulus, the divisor of `Div`. */
  function Norm2(q: DataPoint): (r: real)
    ensures r >= 0.0
  {
    q.0 * q.0 + q.1 * q.1
  }

  /**
   * `Div` as written: ((a·c + b·d), (b·c − b·d)) / (c² + d²); undefined for a
   * zero divisor. The real part is the complex quotient's; the imaginary part
   * is off from it by (a − b)·d / (c² + d²).
   */
  function Div(p: DataPoint, q: DataPoint): (r: DataPoint)
    requires Norm2(q) != 0.0
    ensures r.0 == ComplexDiv(p, q).0
    ensures r.1 == ComplexDiv(p, q).1 + (p.0 - p.1) * q.1 / Norm2(q)
  {
    var d := Norm2(q);
    DataPoint((p.0 * q.0 + p.1 * q.1) / d, (p.1 * q.0 - p.1 * q.1) / d)
  }

  const I: DataPoint := DataPoint(0.0, 1.0)

  /** The written `Mul` gives i·i = −1 + i instead of −1. */
  lemma MulAsWrittenIsNotComplexProduct()
    ensures Mul(I, I) == DataPoint(-1.0, 1.0)
    ensures Mul(I, I) != ComplexMul(I, I)
  {
  }

  /** The written `Div` does not divide: i / i comes out as 1 − i instead of 1. */
  lemma DivAsWrittenIsNotComplexQuotient()
    ensures Div(I, I) == DataPoint(1.0, -1.0)
    ensures Div(I, I) != ComplexDiv(I, I)
  {
  }

  /** Complex product, as the transform's twiddle rotation needs it. */
  function ComplexMul(p: DataPoint, q: DataPoint): (r: DataPoint)
  {
    DataPoint(p.0 * q.0 - p.1 * q.1, p.0 * q.1 + p.1 * q.0)
  }

  /** Complex quotient ((a·c + b·d) + (b·c − a·d)i) / (c² + d²). */
  function ComplexDiv(p: DataPoint, q: DataPoint): (r: DataPoint)
    requires Norm2(q) != 0.0
  {
    var d := Norm2(q);
    DataPoint((p.0 * q.0 + p.1 * q.1) / d, (p.1 * q.0 - p.0 * q.1) / d)
  }

  /** i·i = −1 for the complex product. */
  lemma ComplexMulSquaresI()
    ensures ComplexMul(I, I) == DataPoint(-1.0, 0.0)
  {
  }

  lemma CancelFactor(x: real, d: real)
    requires d != 0.0
    ensures (x * d) / d == x
  {
  }

  /** Dividing a complex product by a non-zero factor gives back the other factor. */
  lemma {:induction false} ComplexDivUndoesMul(p: DataPoint, q: DataPoint)
    requires Norm2(q) != 0.0
    ensures ComplexDiv(ComplexMul(p, q), q) == p
  {
    var a, b, c, e := p.0, p.1, q.0, q.1;
    var d := Norm2(q);
    var m := ComplexMul(p, q);
    calc {
      m.0 * c + m.1 * e;
      (a * c - b * e) * c + (a * e + b * c) * e;
      a * (c * c + e * e);
      a * d;
    }
    calc {
      m.1 * c - m.0 * e;
      (a * e + b * c) * c - (a * c - b * e) * e;
      b * (c * c + e * e);
      b * d;
    }
    CancelFactor(a, d);
    CancelFactor(b, d);
  }
}
