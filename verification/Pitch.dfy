/** The pitch estimator, `calculateFundamentalFrequency` of main.js and
    script.js: the lowest bin of the 80-400 Hz voice band whose amplitude is
    strictly above 140 is taken as the fundamental. */
module Pitch {
  import opened Common

  /** One amplitude of the analyser's byte spectrum (a Uint8Array element). */
  type Byte = b: int | 0 <= b < 256

  /** The energy threshold a bin must strictly exceed. */
  const Threshold: Byte := 140

  /** The edges of the searched voice band, in Hz. */
  const BandLowHz: nat := 80
  const BandHighHz: nat := 400

  /** The bin index of frequency `hz` in a spectrum of `n` bins:
      Math.floor(hz * n / (sampleRate / 2)), which for non-negative operands
      is the integer quotient (2 * hz * n) / sampleRate. The contract is the
      definition of that floor. */
  function BandIndex(hz: nat, n: nat, sampleRate: nat): (r: nat)
    requires sampleRate > 0
    ensures r * sampleRate <= 2 * hz * n < (r + 1) * sampleRate
  {
    (2 * hz * n) / sampleRate
  }

  /** Reading bin `i` gives a value above the threshold. An index past the
      end of the array reads as `undefined` in JavaScript, and
      `undefined > 140` is false. */
  predicate IsLoud(bins: seq<Byte>, i: nat)
  {
    i < |bins| && bins[i] > Threshold
  }

  /** The ascending scan of the bins in [i, hi): the first loud index. */
  function ScanFrom(bins: seq<Byte>, i: nat, hi: nat): (r: Option<nat>)
    decreases hi - i
    ensures r.Some? ==> i <= r.value < hi && IsLoud(bins, r.value)
  {
    if i >= hi then None
    else if IsLoud(bins, i) then Some(i)
    else ScanFrom(bins, i + 1, hi)
  }

  /** The bin the estimator settles on, or None. With a zero sample rate the
      JavaScript start index is Infinity (or NaN when the array is empty), so
      the loop never runs. */
  function FirstLoud(bins: seq<Byte>, sampleRate: nat): (r: Option<nat>)
    ensures r.Some? ==> IsLoud(bins, r.value) && sampleRate > 0
  {
    if sampleRate == 0 then None
    else ScanFrom(bins, BandIndex(BandLowHz, |bins|, sampleRate), BandIndex(BandHighHz, |bins|, sampleRate))
  }

  /** The centre frequency of bin `i`, as script.js writes it:
      i * sampleRate / (2 * n). It equals main.js's i * nyquist / n. */
  function BinFrequency(i: nat, sampleRate: nat, n: nat): (hz: real)
    requires n > 0
    ensures hz == (i as real) * ((sampleRate as real) / 2.0) / (n as real)
    ensures hz >= 0.0
    ensures hz == 0.0 <==> i == 0 || sampleRate == 0
  {
    (i as real) * (sampleRate as real) / (2.0 * (n as real))
  }

  /** The value `calculateFundamentalFrequency` returns: the frequency of the
      first loud bin of the band, or 0 when there is none. It is voiced (> 0)
      exactly when a loud in-band bin other than bin 0 was found. */
  function EstimateHz(bins: seq<Byte>, sampleRate: nat): (hz: real)
    ensures hz >= 0.0
    ensures hz > 0.0 <==> FirstLoud(bins, sampleRate).Some? && FirstLoud(bins, sampleRate).value > 0
  {
    match FirstLoud(bins, sampleRate)
    case None => 0.0
    case Some(i) => BinFrequency(i, sampleRate, |bins|)
  }

  /** The estimator's loop, with its early return. Besides the frequency it
      returns the index it stopped at. */
  method CalculateFundamentalFrequency(bins: seq<Byte>, sampleRate: nat) returns (bin: Option<nat>, hz: real)
    ensures bin == FirstLoud(bins, sampleRate)
    ensures hz == EstimateHz(bins, sampleRate)
  {
    if sampleRate == 0 {
      return None, 0.0;
    }
    var startIndex := BandIndex(BandLowHz, |bins|, sampleRate);
    var endIndex := BandIndex(BandHighHz, |bins|, sampleRate);
    var i := startIndex;
    while i < endIndex
      invariant ScanFrom(bins, i, endIndex) == ScanFrom(bins, startIndex, endIndex)
      decreases endIndex - i
    {
      if i < |bins| && bins[i] > Threshold {
        return Some(i), BinFrequency(i, sampleRate, |bins|);
      }
      i := i + 1;
    }
    return None, 0.0;
  }

  /** The scan returns k exactly when k is loud and is the lowest loud index
      of [i, hi). */
  lemma {:induction false} ScanFromIsFirst(bins: seq<Byte>, i: nat, hi: nat, k: nat)
    decreases hi - i
    ensures ScanFrom(bins, i, hi) == Some(k) <==>
              i <= k < hi && IsLoud(bins, k) && forall j :: i <= j < k ==> !IsLoud(bins, j)
  {
    if i < hi && !IsLoud(bins, i) {
      ScanFromIsFirst(bins, i + 1, hi, k);
    }
  }

  /** The scan returns None exactly when no index of [i, hi) is loud. */
  lemma {:induction false} ScanFromNone(bins: seq<Byte>, i: nat, hi: nat)
    decreases hi - i
    ensures ScanFrom(bins, i, hi) == None <==> forall j :: i <= j < hi ==> !IsLoud(bins, j)
  {
    if i < hi && !IsLoud(bins, i) {
      ScanFromNone(bins, i + 1, hi);
    }
  }

  /** Only which in-band bins are strictly above the threshold matters: a bin
      equal to 140, any quieter bin and every bin outside [i, hi) can change
      without changing the scan. */
  lemma {:induction false} ScanFromOnlySeesLoudness(b1: seq<Byte>, b2: seq<Byte>, i: nat, hi: nat)
    requires forall j :: i <= j < hi ==> IsLoud(b1, j) == IsLoud(b2, j)
    decreases hi - i
    ensures ScanFrom(b1, i, hi) == ScanFrom(b2, i, hi)
  {
    if i < hi && !IsLoud(b1, i) {
      ScanFromOnlySeesLoudness(b1, b2, i + 1, hi);
    }
  }

  /** The estimator settles on the lowest loud bin of the band
      [startIndex, endIndex), and on none exactly when no bin of the band is
      loud. */
  lemma EstimateIsLowestLoudBin(bins: seq<Byte>, sampleRate: nat, k: nat)
    requires sampleRate > 0
    ensures var lo, hi := BandIndex(BandLowHz, |bins|, sampleRate), BandIndex(BandHighHz, |bins|, sampleRate);
            FirstLoud(bins, sampleRate) == Some(k) <==>
              lo <= k < hi && IsLoud(bins, k) && forall j :: lo <= j < k ==> !IsLoud(bins, j)
    ensures var lo, hi := BandIndex(BandLowHz, |bins|, sampleRate), BandIndex(BandHighHz, |bins|, sampleRate);
            FirstLoud(bins, sampleRate) == None <==> forall j :: lo <= j < hi ==> !IsLoud(bins, j)
  {
    var lo, hi := BandIndex(BandLowHz, |bins|, sampleRate), BandIndex(BandHighHz, |bins|, sampleRate);
    ScanFromIsFirst(bins, lo, hi, k);
    ScanFromNone(bins, lo, hi);
  }

  /** The estimator's promise in one place: for a positive sample rate it
      returns i * nyquist / N for the lowest bin i of the band strictly above
      the threshold. */
  lemma EstimateIsFrequencyOfLowestLoudBin(bins: seq<Byte>, sampleRate: nat, k: nat)
    requires sampleRate > 0
    requires var lo, hi := BandIndex(BandLowHz, |bins|, sampleRate), BandIndex(BandHighHz, |bins|, sampleRate);
             lo <= k < hi && IsLoud(bins, k) && forall j :: lo <= j < k ==> !IsLoud(bins, j)
    ensures EstimateHz(bins, sampleRate) == (k as real) * ((sampleRate as real) / 2.0) / (|bins| as real)
  {
    var lo, hi := BandIndex(BandLowHz, |bins|, sampleRate), BandIndex(BandHighHz, |bins|, sampleRate);
    ScanFromIsFirst(bins, lo, hi, k);
    EstimateOfFoundBin(bins, sampleRate, k);
  }

  /** Once the scan has settled on bin k, the estimate is that bin's
      frequency. */
  lemma EstimateOfFoundBin(bins: seq<Byte>, sampleRate: nat, k: nat)
    requires FirstLoud(bins, sampleRate) == Some(k)
    ensures EstimateHz(bins, sampleRate) == (k as real) * ((sampleRate as real) / 2.0) / (|bins| as real)
  {
    var hz := BinFrequency(k, sampleRate, |bins|);
    assert EstimateHz(bins, sampleRate) == hz;
  }

  /** Two spectra that agree on which bins exceed the threshold give the same
      estimate. */
  lemma EstimateOnlySeesLoudness(b1: seq<Byte>, b2: seq<Byte>, sampleRate: nat)
    requires |b1| == |b2|
    requires forall j :: 0 <= j < |b1| ==> (b1[j] > Threshold <==> b2[j] > Threshold)
    ensures EstimateHz(b1, sampleRate) == EstimateHz(b2, sampleRate)
  {
    if sampleRate > 0 {
      var lo, hi := BandIndex(BandLowHz, |b1|, sampleRate), BandIndex(BandHighHz, |b1|, sampleRate);
      ScanFromOnlySeesLoudness(b1, b2, lo, hi);
    }
  }

  /** The chosen bin lies in the voice band: its frequency is below 400 Hz,
      and the next bin's is above 80 Hz (the floor may start the band up to
      one bin below 80 Hz). */
  lemma EstimateInBand(bins: seq<Byte>, sampleRate: nat, k: nat)
    requires FirstLoud(bins, sampleRate) == Some(k)
    ensures |bins| > 0
    ensures BinFrequency(k, sampleRate, |bins|) < BandHighHz as real
    ensures BinFrequency(k + 1, sampleRate, |bins|) > BandLowHz as real
  {
    var n, sr := |bins|, sampleRate;
    var lo, hi := BandIndex(BandLowHz, n, sr), BandIndex(BandHighHz, n, sr);
    assert lo <= k < hi;
    MulMonotone(k + 1, hi, sr);
    MulMonotone(lo + 1, k + 1, sr);
    FrequencyBelow(k, sr, n, 400);
    FrequencyAbove(k + 1, sr, n, 80);
  }

  /** Multiplying both sides of a <= by the same natural number. */
  lemma MulMonotone(a: nat, b: nat, c: nat)
    requires a <= b
    ensures a * c <= b * c
  {
  }

  /** Integer bound on i * sampleRate carried over to the bin frequency. */
  lemma FrequencyBelow(i: nat, sampleRate: nat, n: nat, hz: nat)
    requires n > 0 && i * sampleRate < 2 * hz * n
    ensures BinFrequency(i, sampleRate, n) < hz as real
  {
  }

  /** The symmetric lower bound. */
  lemma FrequencyAbove(i: nat, sampleRate: nat, n: nat, hz: nat)
    requires n > 0 && 2 * hz * n < i * sampleRate
    ensures BinFrequency(i, sampleRate, n) > hz as real
  {
  }

  /** An example: 44100 Hz, 1024 bins, all silent except bin 10 at
      200. The band is [3, 18) and the estimate is 10 * 22050 / 1024 Hz. */
  lemma WorkedExample()
    ensures var bins := seq(1024, (i: int) => if i == 10 then 200 as Byte else 0 as Byte);
            BandIndex(BandLowHz, 1024, 44100) == 3 && BandIndex(BandHighHz, 1024, 44100) == 18 &&
            FirstLoud(bins, 44100) == Some(10) &&
            EstimateHz(bins, 44100) == 220500.0 / 1024.0
  {
    var bins := seq(1024, (i: int) => if i == 10 then 200 as Byte else 0 as Byte);
    assert forall j :: 3 <= j < 10 ==> !IsLoud(bins, j);
    ScanFromIsFirst(bins, 3, 18, 10);
  }
}
