/**
 * The calibration profile: per-phoneme lists of 12-coefficient MFCC
 * calibration vectors (`MfccData`) with their averaged "native" array, and
 * the `Profile` that owns one `MfccData` per phoneme. Floating-point values
 * are modelled as `real`; an index the source would panic on is a
 * precondition.
 */
module Profile {

  /** Number of coefficients in a calibration vector. */
  const MFCC_LENGTH: nat := 12

  /** One calibration vector. */
  datatype MfccCalibrationData = MfccCalibrationData(values: seq<real>)

  // ---- value-level specifications ----

  /** What `add_calibration_data` does to the list: append a vector of length 12, ignore any other. */
  function Appended(list: seq<MfccCalibrationData>, mfcc: seq<real>): (r: seq<MfccCalibrationData>)
    ensures |mfcc| == MFCC_LENGTH ==> |r| == |list| + 1 && r[|list|] == MfccCalibrationData(mfcc)
    ensures |mfcc| != MFCC_LENGTH ==> r == list
    ensures r[..|list|] == list
  {
    if |mfcc| != MFCC_LENGTH then list else list + [MfccCalibrationData(mfcc)]
  }

  /** How many entries `remove_old_calibration_data(count)` keeps out of `n`: the smaller of the two. */
  function Kept(n: nat, count: nat): (k: nat)
    ensures k <= n && k <= count
    ensures k == n || k == count
  {
    if n <= count then n else count
  }

  /** The list with its oldest entries dropped until at most `count` remain. */
  function KeepNewest<T>(list: seq<T>, count: nat): (r: seq<T>)
  {
    list[|list| - Kept(|list|, count)..]
  }

  /** The loop of `remove_old_calibration_data`: drop the front while the list is longer than `count`. */
  function DropFront<T>(list: seq<T>, count: nat): seq<T>
    decreases |list|
  {
    if |list| > count then DropFront(list[1..], count) else list
  }

  /** Dropping the front one entry at a time keeps exactly the newest `Kept` entries. */
  lemma {:induction false} DropFrontKeepsNewest<T>(list: seq<T>, count: nat)
    ensures DropFront(list, count) == KeepNewest(list, count)
    decreases |list|
  {
    if |list| > count {
      DropFrontKeepsNewest(list[1..], count);
      assert list[1..][|list| - 1 - Kept(|list| - 1, count)..] == list[|list| - Kept(|list|, count)..];
    }
  }

  /** Trimming is idempotent, and a trimmed non-empty list ends with the newest entry. */
  lemma KeepNewestFacts<T>(list: seq<T>, count: nat)
    ensures KeepNewest(KeepNewest(list, count), count) == KeepNewest(list, count)
    ensures |KeepNewest(list, count)| == Kept(|list|, count)
    ensures count > 0 && |list| > 0 ==> KeepNewest(list, count)[|KeepNewest(list, count)| - 1] == list[|list| - 1]
  {
  }

  /** Every vector is long enough for the 12 averaged positions. */
  ghost predicate FullLength(list: seq<MfccCalibrationData>)
  {
    forall e :: e in list ==> |e.values| >= MFCC_LENGTH
  }

  /** Whether `update_native_array` can run without indexing out of bounds. */
  ghost predicate CanAverage(list: seq<MfccCalibrationData>, native: seq<real>)
  {
    |list| > 0 ==> |native| >= MFCC_LENGTH && FullLength(list)
  }

  /** Sum of coefficient `i` over the first `k` vectors. */
  function ColumnTotal(list: seq<MfccCalibrationData>, i: nat, k: nat): real
    requires k <= |list| && i < MFCC_LENGTH && FullLength(list)
  {
    if k == 0 then 0.0
    else
      assert list[k - 1] in list;
      ColumnTotal(list, i, k - 1) + list[k - 1].values[i]
  }

  /** Mean of coefficient `i` over all vectors. */
  function Mean(list: seq<MfccCalibrationData>, i: nat): real
    requires |list| > 0 && i < MFCC_LENGTH && FullLength(list)
  {
    ColumnTotal(list, i, |list|) / |list| as real
  }

  lemma {:induction false} ColumnTotalOfIdentical(list: seq<MfccCalibrationData>, i: nat, k: nat, v: MfccCalibrationData)
    requires k <= |list| && i < MFCC_LENGTH && FullLength(list)
    requires forall j :: 0 <= j < |list| ==> list[j] == v
    requires |v.values| >= MFCC_LENGTH
    ensures ColumnTotal(list, i, k) == k as real * v.values[i]
  {
    if k > 0 {
      ColumnTotalOfIdentical(list, i, k - 1, v);
    }
  }

  /** Averaging copies of one vector gives back its coefficients. */
  lemma MeanOfIdentical(list: seq<MfccCalibrationData>, i: nat, v: MfccCalibrationData)
    requires |list| > 0 && i < MFCC_LENGTH && FullLength(list)
    requires forall j :: 0 <= j < |list| ==> list[j] == v
    requires |v.values| >= MFCC_LENGTH
    ensures Mean(list, i) == v.values[i]
  {
    ColumnTotalOfIdentical(list, i, |list|, v);
  }

  lemma {:induction false} ColumnTotalBounds(list: seq<MfccCalibrationData>, i: nat, k: nat, lo: real, hi: real)
    requires k <= |list| && i < MFCC_LENGTH && FullLength(list)
    requires forall e :: e in list ==> lo <= e.values[i] <= hi
    ensures k as real * lo <= ColumnTotal(list, i, k) <= k as real * hi
  {
    if k > 0 {
      ColumnTotalBounds(list, i, k - 1, lo, hi);
      assert list[k - 1] in list;
      assert k as real * lo == (k - 1) as real * lo + lo;
      assert k as real * hi == (k - 1) as real * hi + hi;
    }
  }

  lemma DivideBounds(t: real, n: real, lo: real, hi: real)
    requires n > 0.0 && n * lo <= t <= n * hi
    ensures lo <= t / n <= hi
  {
  }

  /** The mean of a coefficient lies between its smallest and largest value. */
  lemma MeanBounds(list: seq<MfccCalibrationData>, i: nat, lo: real, hi: real)
    requires |list| > 0 && i < MFCC_LENGTH && FullLength(list)
    requires forall e :: e in list ==> lo <= e.values[i] <= hi
    ensures lo <= Mean(list, i) <= hi
  {
    ColumnTotalBounds(list, i, |list|, lo, hi);
    DivideBounds(ColumnTotal(list, i, |list|), |list| as real, lo, hi);
  }

  /** The list without position `i`; the rest keeps its order. */
  function Removed<T>(s: seq<T>, i: nat): (r: seq<T>)
    requires i < |s|
    ensures |r| == |s| - 1
    ensures forall j :: 0 <= j < i ==> r[j] == s[j]
    ensures forall j :: i <= j < |r| ==> r[j] == s[j + 1]
  {
    s[..i] + s[i + 1..]
  }

  /** `MfccData`: the calibration vectors of one phoneme and their averaged native array. */
  class MfccData {
    var name: string
    var calibrationList: seq<MfccCalibrationData>
    var nativeArray: seq<real>

    /** `MfccData::default()`: no name, no vectors, an empty native array. */
    constructor ()
      ensures name == "" && calibrationList == [] && nativeArray == []
    {
      name := "";
      calibrationList := [];
      nativeArray := [];
    }

    /** `add_calibration_data`: append a vector of length 12; any other length changes nothing. */
    method AddCalibrationData(mfcc: seq<real>)
      modifies this
      ensures calibrationList == Appended(old(calibrationList), mfcc)
      ensures name == old(name) && nativeArray == old(nativeArray)
    {
      if |mfcc| != MFCC_LENGTH {
        return;
      }
      calibrationList := calibrationList + [MfccCalibrationData(mfcc)];
    }

    /**
     * `remove_old_calibration_data`: drop the oldest vectors until at most
     * `count` remain. A negative count would empty the list and then remove
     * from an empty one, which panics.
     */
    method RemoveOldCalibrationData(count: int)
      requires count >= 0
      modifies this
      ensures calibrationList == KeepNewest(old(calibrationList), count)
      ensures name == old(name) && nativeArray == old(nativeArray)
    {
      while |calibrationList| > count
        invariant DropFront(calibrationList, count) == DropFront(old(calibrationList), count)
        invariant name == old(name) && nativeArray == old(nativeArray)
        decreases |calibrationList|
      {
        calibrationList := calibrationList[1..];
      }
      DropFrontKeepsNewest(old(calibrationList), count);
    }

    /**
     * `update_native_array`: with no vectors nothing changes; otherwise each of
     * the first 12 native positions becomes the mean of that coefficient and
     * the rest of the array is kept.
     */
    method UpdateNativeArray()
      requires CanAverage(calibrationList, nativeArray)
      modifies this
      ensures name == old(name) && calibrationList == old(calibrationList)
      ensures |calibrationList| == 0 ==> nativeArray == old(nativeArray)
      ensures |calibrationList| > 0 ==>
        && |nativeArray| == |old(nativeArray)|
        && (forall i :: 0 <= i < MFCC_LENGTH ==> nativeArray[i] == Mean(calibrationList, i))
        && (forall i :: MFCC_LENGTH <= i < |nativeArray| ==> nativeArray[i] == old(nativeArray)[i])
    {
      var n := |calibrationList|;
      if n == 0 {
        return;
      }
      for i := 0 to MFCC_LENGTH
        invariant name == old(name) && calibrationList == old(calibrationList)
        invariant n == |calibrationList| && FullLength(calibrationList)
        invariant |nativeArray| == |old(nativeArray)|
        invariant forall k :: 0 <= k < i ==> nativeArray[k] == Mean(calibrationList, k)
        invariant forall k :: i <= k < |nativeArray| ==> nativeArray[k] == old(nativeArray)[k]
      {
        ghost var before := nativeArray;
        nativeArray := nativeArray[i := 0.0];
        for j := 0 to n
          invariant name == old(name) && calibrationList == old(calibrationList)
          invariant |nativeArray| == |before|
          invariant nativeArray[i] == ColumnTotal(calibrationList, i, j)
          invariant forall k :: 0 <= k < |nativeArray| && k != i ==> nativeArray[k] == before[k]
        {
          assert calibrationList[j] in calibrationList;
          nativeArray := nativeArray[i := nativeArray[i] + calibrationList[j].values[i]];
        }
        nativeArray := nativeArray[i := nativeArray[i] / n as real];
      }
    }

    /** `get_average`: the stored vector at position `i` (the source panics past the end). */
    function GetAverage(i: nat): (r: MfccCalibrationData)
      requires i < |calibrationList|
      reads this
      ensures r in calibrationList
    {
      calibrationList[i]
    }
  }

  /** `Profile`: the phoneme entries and the settings that size them. */
  class Profile {
    /** How many calibration vectors each entry keeps for its average. */
    var mfccDataCount: int
    var melFilterBankChannels: int
    var targetSampleRate: int
    var sampleCount: int
    var minVolume: real
    var maxVolume: real
    var mfccs: seq<MfccData>

    /** Each entry is owned by the profile: no object appears twice. */
    ghost predicate Valid()
      reads this
    {
      forall i, j :: 0 <= i < j < |mfccs| ==> mfccs[i] != mfccs[j]
    }

    /** `Profile::new`: every setting zero and no entries. */
    constructor ()
      ensures Valid()
      ensures mfccDataCount == 0 && melFilterBankChannels == 0
      ensures targetSampleRate == 0 && sampleCount == 0
      ensures minVolume == 0.0 && maxVolume == 0.0
      ensures mfccs == []
    {
      mfccDataCount := 0;
      melFilterBankChannels := 0;
      targetSampleRate := 0;
      sampleCount := 0;
      minVolume := 0.0;
      maxVolume := 0.0;
      mfccs := [];
    }

    /** `get_phoneme`: the entry's name; the source's range check does not return, so the index must be valid. */
    function GetPhoneme(index: nat): (r: string)
      requires index < |mfccs|
      reads this, mfccs[index]
      ensures exists m :: m in mfccs && r == m.name
    {
      mfccs[index].name
    }

    /**
     * `add_mfcc`: append a fresh entry holding `mfccDataCount` empty vectors
     * (none when the count is not positive). The name argument is not stored.
     */
    method AddMfcc(name: string)
      requires Valid()
      modifies this
      ensures Valid()
      ensures |mfccs| == |old(mfccs)| + 1 && mfccs[..|old(mfccs)|] == old(mfccs)
      ensures fresh(mfccs[|old(mfccs)|])
      ensures mfccs[|old(mfccs)|].name == ""
      ensures mfccs[|old(mfccs)|].calibrationList ==
                seq(if mfccDataCount <= 0 then 0 else mfccDataCount, _ => MfccCalibrationData([]))
      ensures mfccs[|old(mfccs)|].nativeArray == []
      ensures mfccDataCount == old(mfccDataCount)
      ensures melFilterBankChannels == old(melFilterBankChannels) && targetSampleRate == old(targetSampleRate)
      ensures sampleCount == old(sampleCount) && minVolume == old(minVolume) && maxVolume == old(maxVolume)
    {
      var data := new MfccData();
      var k := 0;
      while k < mfccDataCount
        invariant 0 <= k && (if mfccDataCount >= 0 then k <= mfccDataCount else k == 0)
        invariant data.calibrationList == seq(k, _ => MfccCalibrationData([]))
        invariant data.name == "" && data.nativeArray == []
        invariant mfccs == old(mfccs) && mfccDataCount == old(mfccDataCount)
        invariant melFilterBankChannels == old(melFilterBankChannels) && targetSampleRate == old(targetSampleRate)
        invariant sampleCount == old(sampleCount) && minVolume == old(minVolume) && maxVolume == old(maxVolume)
        decreases mfccDataCount - k
      {
        data.calibrationList := data.calibrationList + [MfccCalibrationData([])];
        k := k + 1;
      }
      mfccs := mfccs + [data];
    }

    /** `remove_mfcc`: an index past the end changes nothing; otherwise that entry goes and the rest keep their order. */
    method RemoveMfcc(index: nat)
      requires Valid()
      modifies this
      ensures Valid()
      ensures index >= |old(mfccs)| ==> mfccs == old(mfccs)
      ensures index < |old(mfccs)| ==> mfccs == Removed(old(mfccs), index)
      ensures mfccDataCount == old(mfccDataCount)
      ensures melFilterBankChannels == old(melFilterBankChannels) && targetSampleRate == old(targetSampleRate)
      ensures sampleCount == old(sampleCount) && minVolume == old(minVolume) && maxVolume == old(maxVolume)
    {
      if index >= |mfccs| {
        return;
      }
      mfccs := mfccs[..index] + mfccs[index + 1..];
    }

    /**
     * `update_mfcc`: an index past the end changes nothing; otherwise only that
     * entry changes: the vector is appended (if it has 12 coefficients), the
     * list is trimmed to the newest `mfccDataCount`, and with `calib` the
     * native array is recomputed.
     */
    method UpdateMfcc(index: nat, mfcc: seq<real>, calib: bool)
      requires Valid()
      requires index < |mfccs| ==> mfccDataCount >= 0
      requires calib && index < |mfccs| ==>
        CanAverage(KeepNewest(Appended(mfccs[index].calibrationList, mfcc), mfccDataCount), mfccs[index].nativeArray)
      modifies if index < |mfccs| then {mfccs[index]} else {}
      ensures Valid() && mfccs == old(mfccs)
      ensures index < |mfccs| ==>
        && mfccs[index].name == old(mfccs[index].name)
        && mfccs[index].calibrationList == KeepNewest(Appended(old(mfccs[index].calibrationList), mfcc), mfccDataCount)
        && (!calib || |mfccs[index].calibrationList| == 0 ==> mfccs[index].nativeArray == old(mfccs[index].nativeArray))
      ensures index < |mfccs| && calib && |mfccs[index].calibrationList| > 0 ==>
        && FullLength(mfccs[index].calibrationList)
        && |mfccs[index].nativeArray| == |old(mfccs[index].nativeArray)|
        && (forall i :: 0 <= i < MFCC_LENGTH ==> mfccs[index].nativeArray[i] == Mean(mfccs[index].calibrationList, i))
        && (forall i :: MFCC_LENGTH <= i < |mfccs[index].nativeArray| ==>
              mfccs[index].nativeArray[i] == old(mfccs[index].nativeArray)[i])
    {
      if index >= |mfccs| {
        return;
      }
      var data := mfccs[index];
      data.AddCalibrationData(mfcc);
      data.RemoveOldCalibrationData(mfccDataCount);
      if calib {
        data.UpdateNativeArray();
      }
    }

    /** `get_averages`: the native array of the entry (the source panics past the end). */
    function GetAverages(index: nat): (r: seq<real>)
      requires index < |mfccs|
      reads this, mfccs[index]
      ensures exists m :: m in mfccs && r == m.nativeArray
    {
      mfccs[index].nativeArray
    }
  }

  /**
   * An entry as `add_mfcc` creates it has an empty native array, so once it
   * holds a vector no calibrating update can meet `update_native_array`'s
   * bounds: `update_mfcc` with `calib` would index past the end.
   */
  lemma FreshEntryCannotAverage(list: seq<MfccCalibrationData>)
    requires |list| > 0
    ensures !CanAverage(list, [])
  {
  }
}
