/**
 * The per-frame vowel classifier and its history state (`Job`): peak
 * extraction from the feature vector, averaging of the peak history,
 * template scoring, the argmin classifier, the hysteresis rule that turns a
 * raw estimate into the reported vowel, and the bounded logs behind it.
 */
module Job {
  import opened Wrappers
  import opened Model
  import Algorithm

  /** Threshold a feature value must exceed to count as a peak. */
  const PEAK_THRESHOLD: real := 0.1

  /** Bins kept after the forward transform: FFT_SAMPLES / 2 + 1. */
  const SPECTRUM_BINS: nat := 513

  /** Number of vowel labels, i.e. of template distances. */
  const LABELS: nat := 5

  // ---- bounded logs ----

  /**
   * The push rule shared by all four logs: below three entries the value is
   * appended at the back; at three it is inserted at the front and the back
   * entry is dropped.
   */
  function Push3<T>(log: seq<T>, x: T): (r: seq<T>)
    ensures |log| <= 3 ==> 0 < |r| <= 3
    ensures x in r
    ensures forall y :: y in r ==> y == x || y in log
  {
    if |log| < 3 then log + [x] else [x] + log[..|log| - 1]
  }

  /** On a full log a push is a shift: new value at 0, old 0..1 moved to 1..2, old 2 dropped. */
  lemma PushShiftsFullLog<T>(log: seq<T>, x: T)
    requires |log| == 3
    ensures |Push3(log, x)| == 3
    ensures Push3(log, x)[0] == x && Push3(log, x)[1] == log[0] && Push3(log, x)[2] == log[1]
  {
  }

  /** A full log holds the last three values pushed, newest first. */
  lemma FullLogKeepsLastThree<T>(log: seq<T>, a: T, b: T, c: T)
    requires |log| == 3
    ensures Push3(Push3(Push3(log, a), b), c) == [c, b, a]
  {
  }

  /**
   * A log that starts empty fills at the back, so its first eviction drops the
   * value pushed just before: after a, b, c, d it holds d, a, b.
   */
  lemma FillingLogDropsNewestFirst<T>(a: T, b: T, c: T, d: T)
    ensures Push3(Push3(Push3(Push3([], a), b), c), d) == [d, a, b]
  {
  }

  /** A peak log: at most three entries, each of `arity` points. */
  ghost predicate PeakLog(log: seq<seq<DataPoint>>, arity: nat)
  {
    |log| <= 3 && forall row :: row in log ==> |row| == arity
  }

  /** A classification log: exactly three entries, each -1 or a label index. */
  ghost predicate ClassLog(log: seq<int>)
  {
    |log| == 3 && forall v :: v in log ==> -1 <= v < LABELS
  }

  /** A push of a row of the log's arity keeps the log a peak log, and a non-empty one. */
  lemma PushKeepsPeakLog(log: seq<seq<DataPoint>>, arity: nat, data: seq<DataPoint>)
    requires PeakLog(log, arity) && |data| == arity
    ensures PeakLog(Push3(log, data), arity)
    ensures Rectangular(Push3(log, data)) && |Push3(log, data)[0]| == arity
  {
    var r := Push3(log, data);
    assert r[0] in r;
  }

  /** Pushing a label or -1 keeps a classification log one. */
  lemma PushKeepsClassLog(log: seq<int>, x: int)
    requires ClassLog(log) && -1 <= x < LABELS
    ensures ClassLog(Push3(log, x))
    ensures Push3(log, x) == [x, log[0], log[1]]
  {
  }

  // ---- peaks ----

  /** Index `i` is an interior strict local maximum above the threshold. */
  predicate IsPeak(data: seq<real>, threshold: real, i: int)
  {
    0 < i < |data| - 1 && data[i] > threshold && data[i] > data[i - 1] && data[i] > data[i + 1]
  }

  /**
   * The rest of the `get_peaks` scan from index `i`, given the peaks found so
   * far and the divisor set by the first of them.
   */
  function ScanFrom(data: seq<real>, threshold: real, i: nat, out: seq<DataPoint>, div: real): seq<DataPoint>
    requires threshold >= 0.0
    decreases |data| - i
  {
    if i >= |data| - 1 then out
    else if !IsPeak(data, threshold, i) then ScanFrom(data, threshold, i + 1, out, div)
    else if |out| > 0 then ScanFrom(data, threshold, i + 1, out + [DataPoint(i as real, data[i] * div)], div)
    else ScanFrom(data, threshold, i + 1, out + [DataPoint(i as real, 1.0)], 1.0 / data[i])
  }

  /** What `get_peaks` returns: the scan from index 1 with nothing found. */
  function Peaks(data: seq<real>, threshold: real): seq<DataPoint>
    requires threshold >= 0.0
  {
    ScanFrom(data, threshold, 1, [], 1.0)
  }

  /** The peak indices below `i`, in increasing order. */
  function PeakIndices(data: seq<real>, threshold: real, i: nat): seq<int>
  {
    if i == 0 then []
    else PeakIndices(data, threshold, i - 1) + (if IsPeak(data, threshold, i - 1) then [i - 1] else [])
  }

  /** The indices below `i` are exactly the peaks there, in strictly increasing order. */
  lemma {:induction false} PeakIndicesExact(data: seq<real>, threshold: real, i: nat)
    ensures forall j :: 0 <= j < |PeakIndices(data, threshold, i)| ==>
              0 <= PeakIndices(data, threshold, i)[j] < i && IsPeak(data, threshold, PeakIndices(data, threshold, i)[j])
    ensures forall j, k :: 0 <= j < k < |PeakIndices(data, threshold, i)| ==>
              PeakIndices(data, threshold, i)[j] < PeakIndices(data, threshold, i)[k]
    ensures forall k :: 0 <= k < i && IsPeak(data, threshold, k) ==> k in PeakIndices(data, threshold, i)
  {
    if i > 0 {
      PeakIndicesExact(data, threshold, i - 1);
    }
  }

  /** The peaks at indices `idx`: the first with amplitude 1.0, the others relative to it. */
  function ScaledPeaks(data: seq<real>, idx: seq<int>): (r: seq<DataPoint>)
    requires forall j :: 0 <= j < |idx| ==> 0 <= idx[j] < |data|
    requires |idx| > 0 ==> data[idx[0]] != 0.0
    ensures |r| == |idx|
  {
    seq(|idx|, j requires 0 <= j < |idx| =>
      if j == 0 then DataPoint(idx[0] as real, 1.0)
      else DataPoint(idx[j] as real, data[idx[j]] * (1.0 / data[idx[0]])))
  }

  /** Recording a later peak index appends that peak, scaled by the first. */
  lemma ScaledPeaksAppend(data: seq<real>, idx: seq<int>, i: nat)
    requires forall j :: 0 <= j < |idx| ==> 0 <= idx[j] < |data|
    requires i < |data| && |idx| > 0 && data[idx[0]] != 0.0
    ensures ScaledPeaks(data, idx + [i]) ==
              ScaledPeaks(data, idx) + [DataPoint(i as real, data[i] * (1.0 / data[idx[0]]))]
  {
    var next := idx + [i];
    var a, b := ScaledPeaks(data, next), ScaledPeaks(data, idx) + [DataPoint(i as real, data[i] * (1.0 / data[idx[0]]))];
    assert |a| == |b|;
    forall j | 0 <= j < |a|
      ensures a[j] == b[j]
    {
      assert next[0] == idx[0];
      if j < |idx| {
        assert next[j] == idx[j];
      }
    }
  }

  /** The declarative reading of `get_peaks`: the scaled points at all peak indices. */
  function LocalMaxima(data: seq<real>, threshold: real): seq<DataPoint>
    requires threshold >= 0.0
  {
    PeakIndicesExact(data, threshold, |data|);
    ScaledPeaks(data, PeakIndices(data, threshold, |data|))
  }

  /** The scan state after index `i - 1`: the peaks found so far and the divisor they set. */
  ghost predicate ScannedUpTo(data: seq<real>, threshold: real, i: nat, out: seq<DataPoint>, div: real)
    requires threshold >= 0.0
  {
    var idx := PeakIndices(data, threshold, i);
    && (forall j :: 0 <= j < |idx| ==> 0 <= idx[j] < |data| && data[idx[j]] > threshold)
    && out == ScaledPeaks(data, idx)
    && (|idx| > 0 ==> div == 1.0 / data[idx[0]])
  }

  /** A scan step past an index that is not a peak keeps `ScannedUpTo`. */
  lemma ScanSkips(data: seq<real>, threshold: real, i: nat, out: seq<DataPoint>, div: real)
    requires threshold >= 0.0 && 1 <= i < |data| - 1 && !IsPeak(data, threshold, i)
    requires ScannedUpTo(data, threshold, i, out, div)
    ensures ScannedUpTo(data, threshold, i + 1, out, div)
  {
    assert PeakIndices(data, threshold, i + 1) == PeakIndices(data, threshold, i);
  }

  /** A later peak is appended scaled by the divisor the first peak set. */
  lemma ScanAppends(data: seq<real>, threshold: real, i: nat, out: seq<DataPoint>, div: real)
    requires threshold >= 0.0 && 1 <= i < |data| - 1 && IsPeak(data, threshold, i) && |out| > 0
    requires ScannedUpTo(data, threshold, i, out, div)
    ensures ScannedUpTo(data, threshold, i + 1, out + [DataPoint(i as real, data[i] * div)], div)
  {
    var idx := PeakIndices(data, threshold, i);
    assert PeakIndices(data, threshold, i + 1) == idx + [i];
    ScaledPeaksAppend(data, idx, i);
    var point := DataPoint(i as real, data[i] * div);
    assert point == DataPoint(i as real, data[i] * (1.0 / data[idx[0]]));
  }

  /** The first peak is recorded with amplitude 1.0 and sets the divisor. */
  lemma ScanStarts(data: seq<real>, threshold: real, i: nat, out: seq<DataPoint>, div: real)
    requires threshold >= 0.0 && 1 <= i < |data| - 1 && IsPeak(data, threshold, i) && |out| == 0
    requires ScannedUpTo(data, threshold, i, out, div)
    ensures ScannedUpTo(data, threshold, i + 1, out + [DataPoint(i as real, 1.0)], 1.0 / data[i])
  {
    var next := PeakIndices(data, threshold, i + 1);
    assert next == [i];
    assert ScaledPeaks(data, next) == [DataPoint(i as real, 1.0)];
  }

  /** The scan from a state that satisfies `ScannedUpTo` ends in `LocalMaxima`. */
  lemma {:induction false} ScanFromScales(data: seq<real>, threshold: real, i: nat, out: seq<DataPoint>, div: real)
    requires threshold >= 0.0 && 1 <= i <= |data| + 1
    requires ScannedUpTo(data, threshold, i, out, div)
    ensures ScanFrom(data, threshold, i, out, div) == LocalMaxima(data, threshold)
    decreases |data| - i
  {
    if i >= |data| - 1 {
      if i == |data| - 1 {
        assert PeakIndices(data, threshold, i + 1) == PeakIndices(data, threshold, i);
      } else if i == |data| + 1 {
        assert PeakIndices(data, threshold, i) == PeakIndices(data, threshold, |data|);
      }
    } else if !IsPeak(data, threshold, i) {
      ScanSkips(data, threshold, i, out, div);
      ScanFromScales(data, threshold, i + 1, out, div);
    } else if |out| > 0 {
      var next := out + [DataPoint(i as real, data[i] * div)];
      assert ScanFrom(data, threshold, i, out, div) == ScanFrom(data, threshold, i + 1, next, div);
      ScanAppends(data, threshold, i, out, div);
      ScanFromScales(data, threshold, i + 1, next, div);
    } else {
      ScanStarts(data, threshold, i, out, div);
      ScanFromScales(data, threshold, i + 1, out + [DataPoint(i as real, 1.0)], 1.0 / data[i]);
    }
  }

  /** `get_peaks` computes the declarative reading. */
  lemma PeaksAreLocalMaxima(data: seq<real>, threshold: real)
    requires threshold >= 0.0
    ensures Peaks(data, threshold) == LocalMaxima(data, threshold)
  {
    assert PeakIndices(data, threshold, 1) == [];
    ScanFromScales(data, threshold, 1, [], 1.0);
  }

  /** The returned points carry exactly the peak indices, in order. */
  lemma PeaksFollowIndices(data: seq<real>, threshold: real)
    requires threshold >= 0.0
    ensures |Peaks(data, threshold)| == |PeakIndices(data, threshold, |data|)|
    ensures forall j :: 0 <= j < |Peaks(data, threshold)| ==>
              Peaks(data, threshold)[j].0 == PeakIndices(data, threshold, |data|)[j] as real
              && Peaks(data, threshold)[j].0.Floor == PeakIndices(data, threshold, |data|)[j]
  {
    PeaksAreLocalMaxima(data, threshold);
    PeakIndicesExact(data, threshold, |data|);
  }

  /**
   * Every returned peak sits at an interior strict local maximum above the
   * threshold, the positions strictly increase, and no such maximum is missed.
   */
  lemma PeaksAreExactlyLocalMaxima(data: seq<real>, threshold: real)
    requires threshold >= 0.0
    ensures forall j :: 0 <= j < |Peaks(data, threshold)| ==>
              Peaks(data, threshold)[j].0 == Peaks(data, threshold)[j].0.Floor as real
              && IsPeak(data, threshold, Peaks(data, threshold)[j].0.Floor)
    ensures forall j, k :: 0 <= j < k < |Peaks(data, threshold)| ==>
              Peaks(data, threshold)[j].0 < Peaks(data, threshold)[k].0
    ensures forall i :: IsPeak(data, threshold, i) ==>
              exists j :: 0 <= j < |Peaks(data, threshold)| && Peaks(data, threshold)[j].0 == i as real
  {
    PeaksFollowIndices(data, threshold);
    PeakIndicesExact(data, threshold, |data|);
    var idx := PeakIndices(data, threshold, |data|);
    var p := Peaks(data, threshold);
    forall i | IsPeak(data, threshold, i)
      ensures exists j :: 0 <= j < |p| && p[j].0 == i as real
    {
      assert i in idx;
      var j :| 0 <= j < |idx| && idx[j] == i;
      assert p[j].0 == i as real;
    }
  }

  /** The first amplitude is 1.0 and every later one is its value divided by the first peak's value. */
  lemma PeaksScaledByFirst(data: seq<real>, threshold: real)
    requires threshold >= 0.0
    ensures forall j :: 0 <= j < |Peaks(data, threshold)| ==>
              0 < Peaks(data, threshold)[j].0.Floor < |data|
              && data[Peaks(data, threshold)[j].0.Floor] > threshold
    ensures |Peaks(data, threshold)| > 0 ==> Peaks(data, threshold)[0].1 == 1.0
    ensures forall j :: 0 < j < |Peaks(data, threshold)| ==>
              Peaks(data, threshold)[j].1 ==
                data[Peaks(data, threshold)[j].0.Floor] / data[Peaks(data, threshold)[0].0.Floor]
  {
    PeaksFollowIndices(data, threshold);
    PeaksAreLocalMaxima(data, threshold);
    PeakIndicesExact(data, threshold, |data|);
  }

  /** A single bump above the threshold gives one peak of amplitude 1.0 at its index. */
  lemma SingleBumpPeak()
    ensures Peaks([0.0, 0.0, 1.0, 0.0, 0.0], 0.5) == [DataPoint(2.0, 1.0)]
  {
    var data := [0.0, 0.0, 1.0, 0.0, 0.0];
    assert !IsPeak(data, 0.5, 1) && IsPeak(data, 0.5, 2) && !IsPeak(data, 0.5, 3);
    assert ScanFrom(data, 0.5, 3, [DataPoint(2.0, 1.0)], 1.0) == [DataPoint(2.0, 1.0)];
  }

  /** `get_peaks`: scan the interior, keep local maxima above the threshold, scale by the first. */
  method GetPeaks(data: seq<real>, threshold: real) returns (out: seq<DataPoint>)
    requires |data| > 0
    requires threshold >= 0.0
    ensures out == Peaks(data, threshold)
  {
    var n := |data| - 1;
    var i := 1;
    out := [];
    var div := 1.0;
    while i < n
      invariant 1 <= i
      invariant ScanFrom(data, threshold, i, out, div) == Peaks(data, threshold)
    {
      if data[i] > threshold && data[i] > data[i - 1] && data[i] > data[i + 1] {
        if |out| > 0 {
          out := out + [DataPoint(i as real, data[i] * div)];
        } else {
          out := out + [DataPoint(i as real, 1.0)];
          div := 1.0 / data[i];
        }
      }
      i := i + 1;
    }
  }

  // ---- averaging ----

  /** Rows of equal length, as a peak log holds them. */
  ghost predicate Rectangular(log: seq<seq<DataPoint>>)
  {
    |log| > 0 && forall row :: row in log ==> |row| == |log[0]|
  }

  /** The sum of position `j` over all rows, accumulated from the first row on. */
  function ColumnSum(log: seq<seq<DataPoint>>, j: nat): DataPoint
    requires |log| > 0
    requires forall row :: row in log ==> j < |row|
  {
    if |log| == 1 then log[0][j]
    else Add(ColumnSum(log[..|log| - 1], j), log[|log| - 1][j])
  }

  /** Position-wise mean of the rows. */
  function Average(log: seq<seq<DataPoint>>): (r: seq<DataPoint>)
    requires Rectangular(log)
    ensures |r| == |log[0]|
  {
    seq(|log[0]|, j requires 0 <= j < |log[0]| => Scale(ColumnSum(log, j), 1.0 / |log| as real))
  }

  lemma {:induction false} ColumnSumOfCopies(log: seq<seq<DataPoint>>, row: seq<DataPoint>, j: nat)
    requires |log| > 0 && j < |row|
    requires forall k :: 0 <= k < |log| ==> log[k] == row
    ensures ColumnSum(log, j) == Scale(row[j], |log| as real)
    decreases |log|
  {
    var p := row[j];
    if |log| == 1 {
      ScaleLaws(p, p, 1.0, 1.0);
    } else {
      var m := (|log| - 1) as real;
      ColumnSumOfCopies(log[..|log| - 1], row, j);
      assert p.0 * m + p.0 == p.0 * (m + 1.0);
      assert p.1 * m + p.1 == p.1 * (m + 1.0);
    }
  }

  /** Averaging a history that holds the same peaks in every entry gives those peaks back. */
  lemma {:induction false} AverageOfCopies(log: seq<seq<DataPoint>>, row: seq<DataPoint>)
    requires |log| > 0
    requires forall k :: 0 <= k < |log| ==> log[k] == row
    ensures Rectangular(log) && Average(log) == row
  {
    assert log[0] == row;
    var n := |log| as real;
    forall j | 0 <= j < |row|
      ensures Average(log)[j] == row[j]
    {
      ColumnSumOfCopies(log, row, j);
      ScaleLaws(row[j], row[j], n, 1.0 / n);
      assert n * (1.0 / n) == 1.0;
      ScaleLaws(row[j], row[j], 1.0, 1.0);
    }
  }

  /** Each averaged position is the column sum divided by the number of entries. */
  lemma AverageIsMean(log: seq<seq<DataPoint>>, j: nat)
    requires Rectangular(log) && j < |log[0]|
    ensures Average(log)[j].0 == ColumnSum(log, j).0 / |log| as real
    ensures Average(log)[j].1 == ColumnSum(log, j).1 / |log| as real
  {
    DividedByCount(ColumnSum(log, j), |log| as real);
  }

  lemma DividedByCount(p: DataPoint, n: real)
    requires n != 0.0
    ensures Scale(p, 1.0 / n).0 == p.0 / n && Scale(p, 1.0 / n).1 == p.1 / n
  {
  }

  // ---- template distances ----

  function Abs(x: real): real { if x < 0.0 then -x else x }

  /** Distance over the first `k` positions: |Δindex| / 255 plus the signed amplitude difference. */
  function DistanceSum(template: seq<DataPoint>, observed: seq<DataPoint>, k: nat): real
    requires k <= |template| && k <= |observed|
  {
    if k == 0 then 0.0
    else DistanceSum(template, observed, k - 1)
         + Abs(template[k - 1].0 - observed[k - 1].0) * INV_255
         + (template[k - 1].1 - observed[k - 1].1)
  }

  /** What `get_distance_from_db` returns: one distance per label for 3 or 4 peaks, none otherwise. */
  function Distances(observed: seq<DataPoint>): (r: seq<real>)
    ensures |r| == if |observed| == 3 || |observed| == 4 then LABELS else 0
  {
    if |observed| == 3 || |observed| == 4 then
      seq(LABELS, v requires 0 <= v < LABELS => DistanceSum(Template(|observed|, v), observed, |observed|))
    else []
  }

  lemma {:induction false} DistanceSumToSelf(t: seq<DataPoint>, k: nat)
    requires k <= |t|
    ensures DistanceSum(t, t, k) == 0.0
  {
    if k > 0 {
      DistanceSumToSelf(t, k - 1);
    }
  }

  /** Observing exactly the template of label `v` scores 0 against `v`. */
  lemma ExactMatchScoresZero(arity: int, v: int)
    requires arity == 3 || arity == 4
    requires 0 <= v < LABELS
    ensures Distances(Template(arity, v))[v] == 0.0
  {
    DistanceSumToSelf(Template(arity, v), arity);
  }

  /**
   * Because the amplitude term is signed, scores can be negative: observing
   * exactly the three-peak "A" template scores below zero against "U", which
   * therefore wins the argmin.
   */
  lemma ExactATemplateClassifiedAsU()
    ensures Distances(Template(3, 0))[4] < 0.0
    ensures FirstArgMin(Distances(Template(3, 0))) == 4
  {
    var o := Template(3, 0);
    var d := Distances(o);
    assert o == [DataPoint(18.0, 1.0), DataPoint(41.0, 0.9), DataPoint(85.0, 0.75)];
    assert Template(3, 1) == [DataPoint(21.0, 1.0), DataPoint(60.0, 0.75), DataPoint(84.0, 0.65)];
    assert Template(3, 2) == [DataPoint(21.0, 1.0), DataPoint(42.0, 1.1), DataPoint(84.0, 1.0)];
    assert Template(3, 3) == [DataPoint(20.0, 1.0), DataPoint(63.0, 0.9), DataPoint(85.0, 0.8)];
    assert Template(3, 4) == [DataPoint(19.0, 1.0), DataPoint(47.0, 0.65), DataPoint(84.0, 0.7)];
    DistanceSumToSelf(o, 3);
    assert d[0] == 0.0;
    assert d[1] == 23.0 * INV_255 - 0.25;
    assert d[2] == 5.0 * INV_255 + 0.45;
    assert d[3] == 24.0 * INV_255 + 0.05;
    assert d[4] == 8.0 * INV_255 - 0.3;
    FirstArgMinUnique(d, 4);
  }

  /** `get_distance_from_db`: score the observed peaks against every template of their arity. */
  method GetDistanceFromDb(data: seq<DataPoint>) returns (out: seq<real>)
    ensures out == Distances(data)
  {
    out := [];
    if |data| != 3 && |data| != 4 {
      return;
    }
    for v := 0 to LABELS
      invariant |out| == v
      invariant forall w :: 0 <= w < v ==> out[w] == DistanceSum(Template(|data|, w), data, |data|)
    {
      var est := Template(|data|, v);
      var dist := 0.0;
      for j := 0 to |data|
        invariant dist == DistanceSum(est, data, j)
      {
        dist := dist + Abs(est[j].0 - data[j].0) * INV_255 + (est[j].1 - data[j].1);
      }
      out := out + [dist];
    }
  }

  // ---- argmin ----

  /** `m` is the first position holding the minimum of `s`. */
  predicate IsFirstArgMin(s: seq<real>, m: int)
  {
    && 0 <= m < |s|
    && (forall k :: 0 <= k < |s| ==> s[m] <= s[k])
    && (forall k :: 0 <= k < m ==> s[m] < s[k])
  }

  /** The first position of the minimum, as a left-to-right scan with `<` finds it. */
  function FirstArgMin(s: seq<real>): (m: int)
    requires |s| > 0
    ensures IsFirstArgMin(s, m)
  {
    if |s| == 1 then 0
    else
      var m := FirstArgMin(s[..|s| - 1]);
      if s[|s| - 1] < s[m] then |s| - 1 else m
  }

  /** There is only one first minimum position. */
  lemma FirstArgMinUnique(s: seq<real>, m: int)
    requires IsFirstArgMin(s, m)
    ensures m == FirstArgMin(s)
  {
    var f := FirstArgMin(s);
    assert s[f] <= s[m] && s[m] <= s[f];
  }

  /** The minimum scan of `estimate_vowel`, bounded by the length of the distance vector. */
  method ArgMin(dist: seq<real>) returns (minIdx: int)
    requires |dist| > 0
    ensures minIdx == FirstArgMin(dist)
  {
    var i := 1;
    var minDistance := dist[0];
    minIdx := 0;
    assert dist[..1] == [dist[0]];
    while i < |dist|
      invariant 1 <= i <= |dist|
      invariant minIdx == FirstArgMin(dist[..i]) && minDistance == dist[minIdx]
    {
      assert dist[..i + 1][..i] == dist[..i];
      var d := dist[i];
      if d < minDistance {
        minDistance := d;
        minIdx := i;
      }
      i := i + 1;
    }
    assert dist[..i] == dist;
  }

  /**
   * The scan as written, continued up to `bound`; `None` stands for the
   * out-of-bounds panic on `dist[i]`.
   */
  function ScanAsWritten(dist: seq<real>, bound: int, i: nat, minDistance: real, minIdx: int): (r: Option<int>)
    ensures i >= bound ==> r == Some(minIdx)
    ensures r.Some? ==> r.value == minIdx || i <= r.value < |dist|
    ensures r.Some? && r.value != minIdx ==> dist[r.value] < minDistance
    decreases bound - i
  {
    if i >= bound then Some(minIdx)
    else if i >= |dist| then None
    else if dist[i] < minDistance then ScanAsWritten(dist, bound, i + 1, dist[i], i)
    else ScanAsWritten(dist, bound, i + 1, minDistance, minIdx)
  }

  lemma {:induction false} ScanPastEndPanics(dist: seq<real>, bound: int, i: nat, minDistance: real, minIdx: int)
    requires i <= |dist| < bound
    ensures ScanAsWritten(dist, bound, i, minDistance, minIdx) == None
    decreases |dist| - i
  {
    if i < |dist| {
      if dist[i] < minDistance {
        ScanPastEndPanics(dist, bound, i + 1, dist[i], i);
      } else {
        ScanPastEndPanics(dist, bound, i + 1, minDistance, minIdx);
      }
    }
  }

  /** With the FFT_SAMPLES bound, every five-score scan reads past the end. */
  lemma ScanAsWrittenAlwaysPanics(dist: seq<real>)
    requires |dist| == LABELS
    ensures ScanAsWritten(dist, FFT_SAMPLES as int, 1, dist[0], 0) == None
  {
    ScanPastEndPanics(dist, FFT_SAMPLES as int, 1, dist[0], 0);
  }

  lemma {:induction false} ScanWithinBoundFindsMinimum(dist: seq<real>, i: nat)
    requires 1 <= i <= |dist|
    ensures ScanAsWritten(dist, |dist|, i, dist[FirstArgMin(dist[..i])], FirstArgMin(dist[..i]))
            == Some(FirstArgMin(dist))
    decreases |dist| - i
  {
    if i == |dist| {
      assert dist[..i] == dist;
    } else {
      assert dist[..i + 1][..i] == dist[..i];
      ScanWithinBoundFindsMinimum(dist, i + 1);
    }
  }

  /** Bounded by the vector's length, the same scan returns the first minimum position. */
  lemma ScanWithLengthBoundIsArgMin(dist: seq<real>)
    requires |dist| > 0
    ensures ScanAsWritten(dist, |dist|, 1, dist[0], 0) == Some(FirstArgMin(dist))
  {
    assert dist[..1] == [dist[0]];
    ScanWithinBoundFindsMinimum(dist, 1);
  }

  /** The estimate for a peak history of one arity: the label whose template is closest to its average. */
  function Classify(log: seq<seq<DataPoint>>): (v: int)
    requires Rectangular(log) && (|log[0]| == 3 || |log[0]| == 4)
    ensures 0 <= v < LABELS
  {
    FirstArgMin(Distances(Average(log)))
  }

  // ---- hysteresis ----

  /**
   * The vowel `get_vowel` reports for the raw estimate `current`; `None` when
   * it falls through to a random label.
   */
  function VowelChoice(current: int, vowelLog: seq<int>, estimateLog: seq<int>, amount: real): (r: Option<int>)
    requires |vowelLog| > 0
    requires |vowelLog| > 2 ==> |estimateLog| > 0
    ensures r.Some? ==> r.value == vowelLog[0] || r.value == current
    ensures r.Some? ==> r.value != -1
    ensures vowelLog[0] != -1 && amount < 0.5 ==> r == Some(vowelLog[0])
  {
    var fVowel := vowelLog[0];
    if fVowel != -1 && amount < 0.5 then Some(fVowel)
    else if |vowelLog| > 2 && current == estimateLog[0] && current != -1 then Some(current)
    else if |vowelLog| > 2 && current != estimateLog[0] && fVowel != -1 then Some(fVowel)
    else None
  }

  /**
   * The reported vowel is always a label: the choice is the previous vowel or
   * the current estimate, never -1, and otherwise a random label.
   */
  lemma VowelChoiceIsLabel(current: int, vowelLog: seq<int>, estimateLog: seq<int>, amount: real)
    requires ClassLog(vowelLog) && ClassLog(estimateLog)
    requires -1 <= current < LABELS
    ensures VowelChoice(current, vowelLog, estimateLog, amount).Some? ==>
              0 <= VowelChoice(current, vowelLog, estimateLog, amount).value < LABELS
    ensures VowelChoice(current, vowelLog, estimateLog, amount) in
              {None, Some(vowelLog[0]), Some(current)}
  {
    assert vowelLog[0] in vowelLog;
  }

  /** The four cases of `get_vowel`, in the order it tries them. */
  lemma VowelChoiceCases(current: int, vowelLog: seq<int>, estimateLog: seq<int>, amount: real)
    requires ClassLog(vowelLog) && ClassLog(estimateLog)
    ensures var c := VowelChoice(current, vowelLog, estimateLog, amount);
      && (vowelLog[0] != -1 && amount < 0.5 ==> c == Some(vowelLog[0]))
      && ((vowelLog[0] == -1 || amount >= 0.5) && current == estimateLog[0] && current != -1
          ==> c == Some(current))
      && ((vowelLog[0] == -1 || amount >= 0.5) && current != estimateLog[0] && vowelLog[0] != -1
          ==> c == Some(vowelLog[0]))
      && (c == None <==>
          || (vowelLog[0] == -1 && !(current == estimateLog[0] && current != -1))
          || (vowelLog[0] != -1 && amount >= 0.5 && current == estimateLog[0] == -1))
  {
  }

  /**
   * Two frames in a row without a usable estimate and a loud signal fall back to
   * a random label even when a previous vowel is on record.
   */
  lemma RepeatedMissDrawsAtRandom(vowelLog: seq<int>, estimateLog: seq<int>, amount: real)
    requires ClassLog(vowelLog) && ClassLog(estimateLog)
    requires vowelLog[0] != -1 && amount >= 0.5 && estimateLog[0] == -1
    ensures VowelChoice(-1, vowelLog, estimateLog, amount) == None
  {
  }

  // ---- execute ----

  function Clamp(x: real, lo: real, hi: real): (r: real)
    requires lo <= hi
    ensures lo <= r <= hi
    ensures lo <= x <= hi ==> r == x
  {
    if x < lo then lo else if x > hi then hi else x
  }

  /** The confidence `execute` reports for a level of `rms` decibels. */
  function Amount(rms: real): (a: real)
    ensures 0.0 <= a <= 1.0
  {
    Clamp(Algorithm.InverseLerp(-DYNAMIC_RANGE, 0.0, rms), 0.0, 1.0)
  }

  /** Across the dynamic range the amount is linear in the level, and `lerp` maps it back. */
  lemma AmountIsLinear(rms: real)
    requires -DYNAMIC_RANGE <= rms <= 0.0
    ensures Amount(rms) == (rms + DYNAMIC_RANGE) / DYNAMIC_RANGE
    ensures Algorithm.Lerp(-DYNAMIC_RANGE, 0.0, Amount(rms)) == rms
  {
    var f := (rms + DYNAMIC_RANGE) / DYNAMIC_RANGE;
    assert 0.0 <= f <= 1.0;
    assert Algorithm.InverseLerp(-DYNAMIC_RANGE, 0.0, rms) == f;
    Algorithm.LerpRoundTrip(-DYNAMIC_RANGE, 0.0, 0.0, rms);
  }

  class Job {
    /** The previous (smoothed) spectrum; empty until the first full frame. */
    var beforeSampleArray: seq<real>
    var peaks3Log: seq<seq<DataPoint>>
    var peaks4Log: seq<seq<DataPoint>>
    /** Reported vowels, newest first. */
    var vowelLog: seq<int>
    /** Raw estimates, newest first. */
    var estimateLog: seq<int>

    ghost predicate Valid()
      reads this
    {
      && (|beforeSampleArray| == 0 || |beforeSampleArray| == SPECTRUM_BINS)
      && PeakLog(peaks3Log, 3) && PeakLog(peaks4Log, 4)
      && ClassLog(vowelLog) && ClassLog(estimateLog)
    }

    constructor ()
      ensures Valid()
      ensures beforeSampleArray == [] && peaks3Log == [] && peaks4Log == []
      ensures vowelLog == [-1, -1, -1] && estimateLog == [-1, -1, -1]
    {
      beforeSampleArray := [];
      peaks3Log := [];
      peaks4Log := [];
      vowelLog := [-1, -1, -1];
      estimateLog := [-1, -1, -1];
    }

    /** `push_vowel`. */
    method PushVowel(vowel: int)
      modifies this
      ensures vowelLog == Push3(old(vowelLog), vowel)
      ensures beforeSampleArray == old(beforeSampleArray) && estimateLog == old(estimateLog)
      ensures peaks3Log == old(peaks3Log) && peaks4Log == old(peaks4Log)
    {
      if |vowelLog| < 3 {
        vowelLog := vowelLog + [vowel];
      } else {
        vowelLog := [vowel] + vowelLog;
        vowelLog := vowelLog[..|vowelLog| - 1];
      }
    }

    /** `push_estimate`. */
    method PushEstimate(estimate: int)
      modifies this
      ensures estimateLog == Push3(old(estimateLog), estimate)
      ensures beforeSampleArray == old(beforeSampleArray) && vowelLog == old(vowelLog)
      ensures peaks3Log == old(peaks3Log) && peaks4Log == old(peaks4Log)
    {
      if |estimateLog| < 3 {
        estimateLog := estimateLog + [estimate];
      } else {
        estimateLog := [estimate] + estimateLog;
        estimateLog := estimateLog[..|estimateLog| - 1];
      }
    }

    /** `push_peaks`: only the log of the matching arity changes; other arities change nothing. */
    method PushPeaks(data: seq<DataPoint>)
      modifies this
      ensures peaks3Log == if |data| == 3 then Push3(old(peaks3Log), data) else old(peaks3Log)
      ensures peaks4Log == if |data| == 4 then Push3(old(peaks4Log), data) else old(peaks4Log)
      ensures beforeSampleArray == old(beforeSampleArray)
      ensures vowelLog == old(vowelLog) && estimateLog == old(estimateLog)
    {
      if |data| == 3 {
        if |peaks3Log| < 3 {
          peaks3Log := peaks3Log + [data];
        } else {
          peaks3Log := [data] + peaks3Log;
          peaks3Log := peaks3Log[..|peaks3Log| - 1];
        }
      } else if |data| == 4 {
        if |peaks4Log| < 3 {
          peaks4Log := peaks4Log + [data];
        } else {
          peaks4Log := [data] + peaks4Log;
          peaks4Log := peaks4Log[..|peaks4Log| - 1];
        }
      }
    }

    /** `get_peaks_average`: the mean of the peak log of the given arity; empty for other arities. */
    method GetPeaksAverage(size: int) returns (out: seq<DataPoint>)
      requires Valid()
      requires size == 3 ==> |peaks3Log| > 0
      requires size == 4 ==> |peaks4Log| > 0
      ensures size == 3 ==> Rectangular(peaks3Log) && out == Average(peaks3Log)
      ensures size == 4 ==> Rectangular(peaks4Log) && out == Average(peaks4Log)
      ensures size != 3 && size != 4 ==> out == []
    {
      out := [];
      var div := 1.0;
      if size == 3 || size == 4 {
        var log := if size == 3 then peaks3Log else peaks4Log;
        assert log[0] in log;
        out := log[0];
        assert log[..1] == [log[0]];
        for i := 1 to |log|
          invariant |out| == |log[0]|
          invariant forall j :: 0 <= j < |out| ==> out[j] == ColumnSum(log[..i], j)
        {
          assert log[i] in log;
          assert log[..i + 1][..i] == log[..i];
          for j := 0 to |out|
            invariant |out| == |log[0]|
            invariant forall k :: 0 <= k < j ==> out[k] == ColumnSum(log[..i + 1], k)
            invariant forall k :: j <= k < |out| ==> out[k] == ColumnSum(log[..i], k)
          {
            out := out[j := Add(out[j], log[i][j])];
          }
        }
        assert log[..|log|] == log;
        div := 1.0 / |log| as real;
      }
      for k := 0 to |out|
        invariant size != 3 && size != 4 ==> out == []
        invariant size == 3 || size == 4 ==>
          var log := if size == 3 then peaks3Log else peaks4Log;
          && |out| == |log[0]|
          && (forall j :: 0 <= j < k ==> out[j] == Scale(ColumnSum(log, j), div))
          && (forall j :: k <= j < |out| ==> out[j] == ColumnSum(log, j))
      {
        out := out[k := Scale(out[k], div)];
      }
    }

    /**
     * `estimate_vowel` with the scan bounded by the length of the score vector.
     * Without 3 or 4 peaks it returns -1 and leaves the peak logs alone.
     */
    method EstimateVowel(data: seq<real>) returns (est: int)
      requires Valid() && |data| > 0
      modifies this
      ensures Valid()
      ensures beforeSampleArray == old(beforeSampleArray)
      ensures vowelLog == old(vowelLog) && estimateLog == old(estimateLog)
      ensures var p := Peaks(data, PEAK_THRESHOLD);
        && peaks3Log == (if |p| == 3 then Push3(old(peaks3Log), p) else old(peaks3Log))
        && peaks4Log == (if |p| == 4 then Push3(old(peaks4Log), p) else old(peaks4Log))
        && est == (if |p| == 3 then Classify(peaks3Log)
                   else if |p| == 4 then Classify(peaks4Log)
                   else -1)
    {
      var peaks := GetPeaks(data, PEAK_THRESHOLD);
      if |peaks| != 3 && |peaks| != 4 {
        return -1;
      }
      if |peaks| == 3 {
        PushKeepsPeakLog(peaks3Log, 3, peaks);
      } else {
        PushKeepsPeakLog(peaks4Log, 4, peaks);
      }
      PushPeaks(peaks);
      var peaksAve := GetPeaksAverage(|peaks|);
      var distanceVowel := GetDistanceFromDb(peaksAve);
      est := ArgMin(distanceVowel);
    }

    /**
     * `get_vowel`: the estimate is the raw classification; the vowel follows
     * the hysteresis rule, or is an arbitrary label where the source draws one.
     */
    method GetVowel(data: seq<real>, amount: real) returns (r: VowelEstimate)
      requires Valid() && |data| > 0
      modifies this
      ensures Valid()
      ensures beforeSampleArray == old(beforeSampleArray)
      ensures vowelLog == old(vowelLog) && estimateLog == old(estimateLog)
      ensures var p := Peaks(data, PEAK_THRESHOLD);
        && peaks3Log == (if |p| == 3 then Push3(old(peaks3Log), p) else old(peaks3Log))
        && peaks4Log == (if |p| == 4 then Push3(old(peaks4Log), p) else old(peaks4Log))
        && r.estimate == (if |p| == 3 then Classify(peaks3Log)
                          else if |p| == 4 then Classify(peaks4Log)
                          else -1)
      ensures r.amount == amount
      ensures match VowelChoice(r.estimate, vowelLog, estimateLog, amount)
        case Some(v) => r.vowel == v
        case None => 0 <= r.vowel < LABELS
      ensures 0 <= r.vowel < LABELS
    {
      var current := EstimateVowel(data);
      VowelChoiceIsLabel(current, vowelLog, estimateLog, amount);
      var fVowel := vowelLog[0];
      if vowelLog[0] != -1 {
        if amount < 0.5 {
          return VowelEstimate(current, fVowel, amount);
        }
      }
      if |vowelLog| > 2 {
        if current == estimateLog[0] {
          if current != -1 {
            return VowelEstimate(current, current, amount);
          }
        } else {
          if fVowel != -1 {
            return VowelEstimate(current, fVowel, amount);
          }
        }
      }
      var draw :| 0 <= draw < LABELS;
      return VowelEstimate(current, draw, amount);
    }

    /** The smoothing step of `execute`: average with the previous spectrum, if any, and keep the result. */
    method SmoothSpectrum(spectrum: seq<real>)
      requires Valid() && |spectrum| == SPECTRUM_BINS
      modifies this
      ensures Valid()
      ensures beforeSampleArray == (if |old(beforeSampleArray)| > 0
                                    then Algorithm.Smoothed(spectrum, old(beforeSampleArray))
                                    else spectrum)
      ensures peaks3Log == old(peaks3Log) && peaks4Log == old(peaks4Log)
      ensures vowelLog == old(vowelLog) && estimateLog == old(estimateLog)
    {
      var data := new real[|spectrum|](i requires 0 <= i < |spectrum| => spectrum[i]);
      assert data[..] == spectrum;
      if |beforeSampleArray| > 0 {
        Algorithm.Smoothing(data, beforeSampleArray);
      }
      beforeSampleArray := data[..];
      assert |beforeSampleArray| == SPECTRUM_BINS;
    }

    /**
     * `execute`, with the signal chain abstracted: `spectrum` is the
     * transformed frame, `features` the vector the chain hands to the
     * classifier and `rms` the frame's level. A short stream gives `None` and
     * changes nothing; otherwise the spectrum is smoothed against the previous
     * one and stored, the features' peaks go to the log of their arity, and
     * the estimate (their classification) and the vowel (the hysteresis
     * choice against the logs as they were) are pushed.
     */
    method Execute(stream: seq<real>, spectrum: seq<real>, features: seq<real>, rms: real)
      returns (r: Option<VowelEstimate>)
      requires Valid()
      requires |spectrum| == SPECTRUM_BINS && |features| > 0
      modifies this
      ensures Valid()
      ensures |stream| < FFT_SAMPLES ==>
        && r == None
        && beforeSampleArray == old(beforeSampleArray)
        && peaks3Log == old(peaks3Log) && peaks4Log == old(peaks4Log)
        && vowelLog == old(vowelLog) && estimateLog == old(estimateLog)
      ensures |stream| >= FFT_SAMPLES ==>
        && r.Some?
        && beforeSampleArray == (if |old(beforeSampleArray)| > 0
                                 then Algorithm.Smoothed(spectrum, old(beforeSampleArray))
                                 else spectrum)
        && r.value.amount == Amount(rms)
        && 0 <= r.value.vowel < LABELS
        && -1 <= r.value.estimate < LABELS
        && estimateLog == Push3(old(estimateLog), r.value.estimate)
        && vowelLog == Push3(old(vowelLog), r.value.vowel)
      ensures |stream| >= FFT_SAMPLES ==>
        var p := Peaks(features, PEAK_THRESHOLD);
        && peaks3Log == (if |p| == 3 then Push3(old(peaks3Log), p) else old(peaks3Log))
        && peaks4Log == (if |p| == 4 then Push3(old(peaks4Log), p) else old(peaks4Log))
        && r.Some?
        && r.value.estimate == (if |p| == 3 then Classify(peaks3Log)
                                else if |p| == 4 then Classify(peaks4Log)
                                else -1)
      ensures |stream| >= FFT_SAMPLES && r.Some? ==>
        match VowelChoice(r.value.estimate, old(vowelLog), old(estimateLog), r.value.amount)
        case Some(v) => r.value.vowel == v
        case None => true
    {
      if |stream| < FFT_SAMPLES {
        return None;
      }
      SmoothSpectrum(spectrum);
      var amount := Clamp(Algorithm.InverseLerp(-DYNAMIC_RANGE, 0.0, rms), 0.0, 1.0);
      var currentVowel := GetVowel(features, amount);
      PushKeepsClassLog(estimateLog, currentVowel.estimate);
      PushKeepsClassLog(vowelLog, currentVowel.vowel);
      PushEstimate(currentVowel.estimate);
      PushVowel(currentVowel.vowel);
      r := Some(currentVowel);
    }
  }
}
