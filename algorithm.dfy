/**
 * The numeric kernel: in-place passes over a frame of samples (min-max
 * normalisation, cross-frame smoothing, the window's endpoint writes,
 * cepstral liftering, the value gate) and linear interpolation.
 * Samples are modelled as `real`; each in-place pass is a method on an
 * `array<real>` whose result is a function of the old contents.
 */
module Algorithm {

  /** `f32::max`. */
  function Max(a: real, b: real): real { if a >= b then a else b }

  /** `f32::min`. */
  function Min(a: real, b: real): real { if a <= b then a else b }

  // ---- normalize ----

  /** The running maximum `normalize` computes: it starts at 0.0, not at the first sample. */
  function MaxFromZero(s: seq<real>): (r: real)
    ensures r >= 0.0
  {
    if s == [] then 0.0 else Max(MaxFromZero(s[..|s| - 1]), s[|s| - 1])
  }

  /** The running minimum `normalize` computes, also started at 0.0. */
  function MinFromZero(s: seq<real>): (r: real)
    ensures r <= 0.0
  {
    if s == [] then 0.0 else Min(MinFromZero(s[..|s| - 1]), s[|s| - 1])
  }

  /** Every sample lies between the two running extremes. */
  lemma {:induction false} ExtremesBound(s: seq<real>)
    ensures forall i :: 0 <= i < |s| ==> MinFromZero(s) <= s[i] <= MaxFromZero(s)
  {
    if s != [] {
      ExtremesBound(s[..|s| - 1]);
      assert forall i :: 0 <= i < |s| - 1 ==> s[..|s| - 1][i] == s[i];
    }
  }

  /** The reciprocal of the range, or 1.0 when the range is zero. */
  function RangeFactor(lo: real, hi: real): real
  {
    if hi - lo != 0.0 then 1.0 / (hi - lo) else 1.0
  }

  /** One sample as `normalize` rewrites it. */
  function Rescale(x: real, lo: real, hi: real): real
  {
    (x - lo) * RangeFactor(lo, hi)
  }

  /** Every sample rescaled against fixed extremes `lo` and `hi`. */
  function RescaledAll(s: seq<real>, lo: real, hi: real): seq<real>
  {
    seq(|s|, i requires 0 <= i < |s| => Rescale(s[i], lo, hi))
  }

  /** What `normalize` leaves in the frame: (x − min) / (max − min), or x − min with a zero range. */
  function Normalized(s: seq<real>): (r: seq<real>)
  {
    RescaledAll(s, MinFromZero(s), MaxFromZero(s))
  }

  lemma RescaleInUnitInterval(x: real, lo: real, hi: real)
    requires lo <= x <= hi
    ensures 0.0 <= Rescale(x, lo, hi) <= 1.0
  {
    if hi - lo != 0.0 {
      var w, y := hi - lo, x - lo;
      var inv := 1.0 / w;
      assert inv > 0.0;
      assert w * inv == 1.0;
      assert 0.0 <= y * inv;
      assert y * inv <= w * inv;
      assert Rescale(x, lo, hi) == y * inv;
    } else {
      assert Rescale(x, lo, hi) == 0.0 * 1.0;
    }
  }

  /** Every normalised sample lies in [0, 1], whatever the input. */
  lemma {:induction false} NormalizedInUnitInterval(s: seq<real>)
    ensures |Normalized(s)| == |s|
    ensures forall i :: 0 <= i < |s| ==> 0.0 <= Normalized(s)[i] <= 1.0
  {
    var hi, lo := MaxFromZero(s), MinFromZero(s);
    ExtremesBound(s);
    forall i | 0 <= i < |s|
      ensures 0.0 <= Normalized(s)[i] <= 1.0
    {
      RescaleInUnitInterval(s[i], lo, hi);
    }
  }

  lemma RescaledAllDivides(s: seq<real>, i: int, lo: real, hi: real)
    requires 0 <= i < |s|
    requires hi != lo
    ensures RescaledAll(s, lo, hi)[i] == (s[i] - lo) / (hi - lo)
  {
  }

  /** With a non-zero range every sample is rescaled by (x − min) / (max − min). */
  lemma NormalizedRescales(s: seq<real>, i: int)
    requires 0 <= i < |s|
    requires MaxFromZero(s) != MinFromZero(s)
    ensures Normalized(s)[i] == (s[i] - MinFromZero(s)) / (MaxFromZero(s) - MinFromZero(s))
  {
    RescaledAllDivides(s, i, MinFromZero(s), MaxFromZero(s));
  }

  /** Because max and min start at 0, a zero range means an all-zero frame, which is left as it is. */
  lemma {:induction false} NormalizedZeroRange(s: seq<real>)
    requires MaxFromZero(s) == MinFromZero(s)
    ensures forall i :: 0 <= i < |s| ==> s[i] == 0.0
    ensures Normalized(s) == s
  {
    ExtremesBound(s);
  }

  /** The first pass of `normalize`: the running maximum and minimum, both started at 0.0. */
  method Extremes(data: array<real>) returns (vMin: real, vMax: real)
    ensures vMin == MinFromZero(data[..]) && vMax == MaxFromZero(data[..])
  {
    vMax := 0.0;
    vMin := 0.0;
    for i := 0 to data.Length
      invariant vMax == MaxFromZero(data[..i])
      invariant vMin == MinFromZero(data[..i])
    {
      assert data[..i + 1][..i] == data[..i];
      vMax := Max(vMax, data[i]);
      vMin := Min(vMin, data[i]);
    }
    assert data[..data.Length] == data[..];
  }

  /** `normalize`: min-max rescale in place. */
  method Normalize(data: array<real>)
    modifies data
    ensures data[..] == Normalized(old(data[..]))
  {
    ghost var s := data[..];
    var vMin, vMax := Extremes(data);
    var d := RangeFactor(vMin, vMax);
    for i := 0 to data.Length
      invariant forall k :: 0 <= k < i ==> data[k] == (s[k] - vMin) * d
      invariant forall k :: i <= k < data.Length ==> data[k] == s[k]
    {
      var x := data[i];
      data[i] := (x - vMin) * d;
    }
    RescaledAllFromFactor(s, data[..], vMin, vMax, d);
    assert Normalized(s) == RescaledAll(s, vMin, vMax);
  }

  /** Multiplying by the precomputed factor is rescaling. */
  lemma RescaledAllFromFactor(s: seq<real>, t: seq<real>, lo: real, hi: real, d: real)
    requires d == RangeFactor(lo, hi)
    requires |t| == |s|
    requires forall k :: 0 <= k < |s| ==> t[k] == (s[k] - lo) * d
    ensures t == RescaledAll(s, lo, hi)
  {
    forall k | 0 <= k < |s|
      ensures t[k] == RescaledAll(s, lo, hi)[k]
    {
      assert RescaledAll(s, lo, hi)[k] == Rescale(s[k], lo, hi);
    }
  }

  // ---- smoothing ----

  /** Element-wise average of the current frame with the previous one. */
  function Smoothed(current: seq<real>, before: seq<real>): (r: seq<real>)
    requires |before| >= |current|
  {
    seq(|current|, i requires 0 <= i < |current| => (current[i] + before[i]) * 0.5)
  }

  /** Each smoothed bin lies between its two inputs, and smoothing a frame with itself changes nothing. */
  lemma SmoothedBetween(current: seq<real>, before: seq<real>)
    requires |before| >= |current|
    ensures |Smoothed(current, before)| == |current|
    ensures forall i :: 0 <= i < |current| ==>
              Min(current[i], before[i]) <= Smoothed(current, before)[i] <= Max(current[i], before[i])
    ensures current == before ==> Smoothed(current, before) == current
  {
  }

  /** `smoothing`: the previous frame must be at least as long (the source indexes it unchecked). */
  method Smoothing(data: array<real>, before: seq<real>)
    requires |before| >= data.Length
    modifies data
    ensures data[..] == Smoothed(old(data[..]), before)
  {
    for i := 0 to data.Length
      invariant forall k :: 0 <= k < i ==> data[k] == (old(data[k]) + before[k]) * 0.5
      invariant forall k :: i <= k < data.Length ==> data[k] == old(data[k])
    {
      data[i] := (data[i] + before[i]) * 0.5;
    }
  }

  // ---- hamming ----

  /** 2π rounded to the nearest `f32`. */
  const PI2: real := 6.2831855

  /** The window weight as written: the sample value takes the place of the cosine term. */
  function HammingWeight(x: real, n: nat): real
    requires n >= 2
  {
    0.54 - 0.46 * (PI2 * x / (n - 1) as real)
  }

  /**
   * `hamming`: weight every sample, then force both endpoints to zero.
   * With a single sample the weight divides by zero, but that sample is
   * overwritten by the endpoint write, so the weighting pass is skipped there.
   */
  method Hamming(data: array<real>)
    requires data.Length > 0
    modifies data
    ensures data[0] == 0.0 && data[data.Length - 1] == 0.0
    ensures forall i :: 0 < i < data.Length - 1 ==>
              data[i] == old(data[i]) * HammingWeight(old(data[i]), data.Length)
  {
    var n := data.Length;
    if n > 1 {
      for i := 0 to n
        invariant forall k :: 0 <= k < i ==> data[k] == old(data[k]) * HammingWeight(old(data[k]), n)
        invariant forall k :: i <= k < n ==> data[k] == old(data[k])
      {
        data[i] := data[i] * HammingWeight(data[i], n);
      }
    }
    data[0] := 0.0;
    data[n - 1] := 0.0;
  }

  // ---- lifter ----

  /** The cepstral lifter: zero every index i with level < i <= len − 1 − level. */
  function Liftered(s: seq<real>, level: int): (r: seq<real>)
  {
    seq(|s|, i requires 0 <= i < |s| => if level < i <= |s| - 1 - level then 0.0 else s[i])
  }

  /**
   * The lowest `level + 1` and highest `level` coefficients are kept; liftering
   * twice is liftering once; a level reaching the middle keeps everything.
   */
  lemma LifteredKeepsEnds(s: seq<real>, level: int)
    ensures |Liftered(s, level)| == |s|
    ensures forall i :: 0 <= i < |s| && (i <= level || i >= |s| - level) ==> Liftered(s, level)[i] == s[i]
    ensures forall i :: 0 <= i < |s| && level < i < |s| - level ==> Liftered(s, level)[i] == 0.0
    ensures Liftered(Liftered(s, level), level) == Liftered(s, level)
    ensures 2 * level >= |s| - 1 ==> Liftered(s, level) == s
  {
  }

  /** `lifter`: zero the middle band of the cepstrum in place. */
  method Lifter(data: array<real>, level: int)
    modifies data
    ensures data[..] == Liftered(old(data[..]), level)
  {
    var iMin := level;
    var iMax := data.Length - 1 - level;
    for i := 0 to data.Length
      invariant forall k :: 0 <= k < i ==> data[k] == if iMin < k <= iMax then 0.0 else old(data[k])
      invariant forall k :: i <= k < data.Length ==> data[k] == old(data[k])
    {
      if i > iMin && i <= iMax {
        data[i] := 0.0;
      }
    }
  }

  // ---- filter ----

  /** The minimum of a non-empty frame, folded from its first sample. */
  function SeqMin(s: seq<real>): (r: real)
    requires |s| > 0
    ensures r in s
    ensures forall i :: 0 <= i < |s| ==> r <= s[i]
  {
    if |s| == 1 then s[0] else Min(SeqMin(s[..|s| - 1]), s[|s| - 1])
  }

  /** The replacement value: the frame minimum, or 0.000001 when that minimum is exactly zero. */
  function FloorValue(minimum: real): (r: real)
    ensures r != 0.0
  {
    if minimum == 0.0 then 0.000001 else minimum
  }

  /** Whether a sample value lies outside the open band (lowcut, highcut). */
  predicate OutOfBand(x: real, lowcut: int, highcut: int)
  {
    x <= lowcut as real || x >= highcut as real
  }

  /** What `filter` leaves: out-of-band values replaced by the floor value. */
  function Filtered(s: seq<real>, lowcut: int, highcut: int): (r: seq<real>)
    requires |s| > 0
  {
    var m := FloorValue(SeqMin(s));
    seq(|s|, i requires 0 <= i < |s| => if OutOfBand(s[i], lowcut, highcut) then m else s[i])
  }

  /**
   * In-band values are kept, out-of-band values become the floor; when the frame
   * minimum is not zero the gate keeps that minimum as the frame's minimum.
   */
  lemma {:induction false} FilteredKeepsMinimum(s: seq<real>, lowcut: int, highcut: int)
    requires |s| > 0
    ensures |Filtered(s, lowcut, highcut)| == |s|
    ensures forall i :: 0 <= i < |s| ==>
              Filtered(s, lowcut, highcut)[i] ==
                (if OutOfBand(s[i], lowcut, highcut) then FloorValue(SeqMin(s)) else s[i])
    ensures SeqMin(s) != 0.0 ==> SeqMin(Filtered(s, lowcut, highcut)) == SeqMin(s)
  {
    var r := Filtered(s, lowcut, highcut);
    var m := SeqMin(s);
    if m != 0.0 {
      var k :| 0 <= k < |s| && s[k] == m;
      assert r[k] == m;
      assert forall i :: 0 <= i < |r| ==> m <= r[i];
      var rm := SeqMin(r);
      var j :| 0 <= j < |r| && r[j] == rm;
      assert rm <= r[k];
      assert m <= r[j];
    }
  }

  /** `filter`: gate by sample value against lowcut and highcut; the frame must not be empty. */
  method Filter(data: array<real>, lowcut: int, highcut: int)
    requires data.Length > 0
    modifies data
    ensures data[..] == Filtered(old(data[..]), lowcut, highcut)
  {
    var minimum := data[0];
    for i := 0 to data.Length
      invariant minimum == if i == 0 then data[0] else SeqMin(data[..i])
    {
      assert i > 0 ==> data[..i + 1][..i] == data[..i];
      minimum := Min(minimum, data[i]);
    }
    assert data[..data.Length] == data[..];
    if minimum == 0.0 {
      minimum := 0.000001;
    }
    for i := 0 to data.Length
      invariant forall k :: 0 <= k < i ==>
                  data[k] == if OutOfBand(old(data[k]), lowcut, highcut) then minimum else old(data[k])
      invariant forall k :: i <= k < data.Length ==> data[k] == old(data[k])
    {
      if data[i] <= lowcut as real || data[i] >= highcut as real {
        data[i] := minimum;
      }
    }
  }

  // ---- lerp / inverse_lerp ----

  /** `lerp`: the point a fraction `f` of the way from `a` to `b`. */
  function Lerp(a: real, b: real, f: real): (r: real)
    ensures f == 0.0 ==> r == a
    ensures f == 1.0 ==> r == b
    ensures 0.0 <= f <= 1.0 && a <= b ==> a <= r <= b
    ensures 0.0 <= f <= 1.0 && b <= a ==> b <= r <= a
  {
    FractionOf(f, b - a);
    a + f * (b - a)
  }

  /** A fraction `f` of `w` lies between 0 and `w`. */
  lemma FractionOf(f: real, w: real)
    ensures f == 0.0 ==> f * w == 0.0
    ensures f == 1.0 ==> f * w == w
    ensures 0.0 <= f <= 1.0 && 0.0 <= w ==> 0.0 <= f * w <= w
    ensures 0.0 <= f <= 1.0 && w <= 0.0 ==> w <= f * w <= 0.0
  {
    if 0.0 <= f <= 1.0 && 0.0 <= w {
      assert w - f * w == (1.0 - f) * w;
    }
    if 0.0 <= f <= 1.0 && w <= 0.0 {
      assert f * w - w == (1.0 - f) * (0.0 - w);
    }
  }

  /** `inverse_lerp`: the fraction of the way from `a` to `b` at which `l` lies; it divides by b − a, so the endpoints must differ. */
  function InverseLerp(a: real, b: real, l: real): (r: real)
    requires a != b
    ensures l == a ==> r == 0.0
    ensures l == b ==> r == 1.0
    ensures a < b && a <= l <= b ==> 0.0 <= r <= 1.0
    ensures a < b && l < a ==> r < 0.0
    ensures a < b && b < l ==> r > 1.0
  {
    QuotientOf(l - a, b - a);
    (l - a) / (b - a)
  }

  /** Where a quotient t / w with w > 0 lies relative to 0 and 1. */
  lemma QuotientOf(t: real, w: real)
    requires w != 0.0
    ensures t == 0.0 ==> t / w == 0.0
    ensures t == w ==> t / w == 1.0
    ensures 0.0 < w && 0.0 <= t <= w ==> 0.0 <= t / w <= 1.0
    ensures 0.0 < w && t < 0.0 ==> t / w < 0.0
    ensures 0.0 < w && w < t ==> t / w > 1.0
  {
    var r := t / w;
    assert r * w == t;
  }

  /** `inverse_lerp` undoes `lerp`, and `lerp` undoes `inverse_lerp`. */
  lemma LerpRoundTrip(a: real, b: real, f: real, l: real)
    requires a != b
    ensures InverseLerp(a, b, Lerp(a, b, f)) == f
    ensures Lerp(a, b, InverseLerp(a, b, l)) == l
  {
    var w := b - a;
    assert (f * w) / w == f;
    assert ((l - a) / w) * w == l - a;
  }
}
