/** Calibration of judges against gold labels: binning, the Brier score and the expected calibration error, over the reals. */
module Calibration {
  import opened Results

  datatype Sample = Sample(predicted: real, expected: bool)

  datatype Bin = Bin(lower: real, upper: real, count: nat, meanPredicted: real, observedRate: real)

  datatype Report = Report(samples: nat, brier: real, error: real, bins: seq<Bin>)

  datatype Error = BadBinCount | BadPrediction

  predicate ValidProbability(p: real) {
    0.0 <= p <= 1.0
  }

  function Label(s: Sample): real {
    if s.expected then 1.0 else 0.0
  }

  function Abs(x: real): real {
    if x >= 0.0 then x else -x
  }

  /** The bin a prediction is put in. */
  function BinIndex(p: real, n: nat): nat
    requires n > 0 && p >= 0.0
  {
    var index := (p * n as real).Floor;
    if index < n - 1 then index else n - 1
  }

  predicate AllValid(samples: seq<Sample>) {
    forall i :: 0 <= i < |samples| ==> ValidProbability(samples[i].predicted)
  }

  /** The samples of bin b, in their order. */
  function InBin(samples: seq<Sample>, n: nat, b: nat): (r: seq<Sample>)
    requires n > 0 && AllValid(samples)
  {
    if samples == [] then []
    else
      var last := samples[|samples| - 1];
      InBin(samples[..|samples| - 1], n, b) + if BinIndex(last.predicted, n) == b then [last] else []
  }

  function SumPredicted(samples: seq<Sample>): real {
    if samples == [] then 0.0 else SumPredicted(samples[..|samples| - 1]) + samples[|samples| - 1].predicted
  }

  function CountExpected(samples: seq<Sample>): nat {
    if samples == [] then 0 else CountExpected(samples[..|samples| - 1]) + if samples[|samples| - 1].expected then 1 else 0
  }

  function SquaredErrors(samples: seq<Sample>): real {
    if samples == [] then 0.0
    else
      var d := samples[|samples| - 1].predicted - Label(samples[|samples| - 1]);
      SquaredErrors(samples[..|samples| - 1]) + d * d
  }

  function BinFor(b: nat, n: nat, values: seq<Sample>): Bin
    requires n > 0
  {
    var c := |values|;
    Bin(b as real / n as real, (b + 1) as real / n as real, c,
      if c == 0 then 0.0 else SumPredicted(values) / c as real, if c == 0 then 0.0 else CountExpected(values) as real / c as real)
  }

  /** The weighted gaps of the first k bins. */
  function WeightedGaps(bins: seq<Bin>, k: nat, total: nat): real
    requires k <= |bins| && total > 0
  {
    if k == 0 then 0.0
    else WeightedGaps(bins, k - 1, total) + bins[k - 1].count as real / total as real * Abs(bins[k - 1].meanPredicted - bins[k - 1].observedRate)
  }

  /** The report is the one of these samples. */
  ghost predicate Reports(r: Report, samples: seq<Sample>, n: nat)
    requires n > 0 && AllValid(samples) && samples != []
  {
    && r.samples == |samples| && r.brier == SquaredErrors(samples) / |samples| as real
    && |r.bins| == n && (forall b :: 0 <= b < n ==> r.bins[b] == BinFor(b, n, InBin(samples, n, b)))
    && r.error == WeightedGaps(r.bins, n, |samples|)
  }

  method CalibrateAgentJudges(samples: seq<Sample>, binCount: int) returns (r: Result<Report, Error>)
    ensures !(1 <= binCount <= 100) ==> r == Err(BadBinCount)
    ensures 1 <= binCount <= 100 && samples == [] ==> r == Ok(Report(0, 0.0, 0.0, []))
    ensures 1 <= binCount <= 100 && samples != [] && !AllValid(samples) ==> r == Err(BadPrediction)
    ensures 1 <= binCount <= 100 && samples != [] && AllValid(samples) ==> r.Ok? && Reports(r.value, samples, binCount)
  {
    hide SquaredErrors, InBin, BinFor, WeightedGaps, AllValid;
    if !(1 <= binCount <= 100) {
      return Err(BadBinCount);
    }
    if |samples| == 0 {
      return Ok(Report(0, 0.0, 0.0, []));
    }
    var n: nat := binCount;
    var values := new seq<Sample>[n](_ => []);
    var brier := Distribute(samples, n, values);
    if brier.None? {
      return Err(BadPrediction);
    }
    var bins: seq<Bin> := [];
    for b := 0 to n
      invariant forall k :: 0 <= k < n ==> values[k] == InBin(samples, n, k)
      invariant |bins| == b && forall k :: 0 <= k < b ==> bins[k] == BinFor(k, n, InBin(samples, n, k))
    {
      var bin := Materialize(b, n, values[b]);
      bins := bins + [bin];
    }
    var error := SumGaps(bins, |samples|);
    return Ok(Report(|samples|, brier.value / |samples| as real, error, bins));
  }

  /** Puts every sample in its bin and sums the squared errors; none when a prediction is no probability. */
  method Distribute(samples: seq<Sample>, n: nat, values: array<seq<Sample>>) returns (brier: Option<real>)
    requires n > 0 && values.Length == n && forall b :: 0 <= b < n ==> values[b] == []
    modifies values
    ensures brier.Some? <==> AllValid(samples)
    ensures brier.Some? ==> brier.value == SquaredErrors(samples) && forall b :: 0 <= b < n ==> values[b] == InBin(samples, n, b)
  {
    hide BinIndex, SquaredErrors;
    var sum := 0.0;
    NoErrors();
    for i := 0 to |samples|
      invariant AllValid(samples[..i]) && sum == SquaredErrors(samples[..i])
      invariant forall b :: 0 <= b < n ==> values[b] == InBin(samples[..i], n, b)
    {
      var s := samples[i];
      if !ValidProbability(s.predicted) {
        return None;
      }
      assert samples[..i + 1][..i] == samples[..i] && samples[..i + 1] == samples[..i] + [s];
      ErrorsAppend(samples[..i], s);
      var gap := s.predicted - Label(s);
      sum := sum + gap * gap;
      IndexInRange(s.predicted, n);
      var index := BinIndex(s.predicted, n);
      values[index] := values[index] + [s];
    }
    assert samples[..|samples|] == samples;
    return Some(sum);
  }

  lemma NoErrors()
    ensures SquaredErrors([]) == 0.0
  {
  }

  lemma ErrorsAppend(samples: seq<Sample>, s: Sample)
    ensures SquaredErrors(samples + [s]) == SquaredErrors(samples) + (s.predicted - Label(s)) * (s.predicted - Label(s))
  {
    assert (samples + [s])[..|samples|] == samples;
  }

  method SumGaps(bins: seq<Bin>, total: nat) returns (error: real)
    requires total > 0
    ensures error == WeightedGaps(bins, |bins|, total)
  {
    error := 0.0;
    for b := 0 to |bins|
      invariant error == WeightedGaps(bins, b, total)
    {
      error := error + bins[b].count as real / total as real * Abs(bins[b].meanPredicted - bins[b].observedRate);
    }
  }

  method Materialize(b: nat, n: nat, values: seq<Sample>) returns (bin: Bin)
    requires n > 0
    ensures bin == BinFor(b, n, values)
  {
    var sum, expected := 0.0, 0;
    for i := 0 to |values|
      invariant sum == SumPredicted(values[..i]) && expected == CountExpected(values[..i])
    {
      assert values[..i + 1][..i] == values[..i];
      sum := sum + values[i].predicted;
      expected := expected + if values[i].expected then 1 else 0;
    }
    assert values[..|values|] == values;
    var count := |values|;
    return Bin(b as real / n as real, (b + 1) as real / n as real, count,
      if count == 0 then 0.0 else sum / count as real, if count == 0 then 0.0 else expected as real / count as real);
  }

  lemma IndexInRange(p: real, n: nat)
    requires n > 0 && ValidProbability(p)
    ensures BinIndex(p, n) < n
  {
  }

  // ---------------------------------------------------------------------------------------
  // The bins partition the samples
  // ---------------------------------------------------------------------------------------

  lemma QuotientBounds(a: real, b: real, n: real)
    requires n > 0.0
    ensures a / n <= b <==> a <= b * n
    ensures b <= a / n <==> b * n <= a
    ensures b < a / n <==> b * n < a
  {
    var q := a / n;
    assert q * n == a;
    if q <= b {
      assert (b - q) * n >= 0.0;
    } else {
      assert (q - b) * n > 0.0;
    }
    if b < q {
      assert (q - b) * n > 0.0;
    } else {
      assert (b - q) * n >= 0.0;
    }
  }

  lemma FloorIs(x: real, n: nat, b: nat)
    requires n > 0 && 0.0 <= x <= n as real && b < n
    ensures (if x.Floor < n - 1 then x.Floor else n - 1) == b <==> b as real <= x && (x < (b + 1) as real || b == n - 1)
  {
  }

  lemma ScaledBounds(p: real, n: nat, b: nat)
    requires n > 0 && ValidProbability(p) && b < n
    ensures BinFor(b, n, []).lower <= p <==> b as real <= p * n as real
    ensures p < BinFor(b, n, []).upper <==> p * n as real < (b + 1) as real
    ensures b == n - 1 ==> p <= BinFor(b, n, []).upper
  {
    ScaledRange(p, n as real);
    QuotientBounds(b as real, p, n as real);
    QuotientBounds((b + 1) as real, p, n as real);
  }

  lemma IndexIs(p: real, n: nat, b: nat)
    requires n > 0 && ValidProbability(p) && b < n
    ensures BinIndex(p, n) == b <==> b as real <= p * n as real && (p * n as real < (b + 1) as real || b == n - 1)
  {
    ScaledRange(p, n as real);
    FloorIs(p * n as real, n, b);
  }

  /** A prediction lies in bin b exactly when it is at or above its lower bound and below its upper one, which the last bin includes. */
  lemma InBinIff(p: real, n: nat, b: nat)
    requires n > 0 && ValidProbability(p) && b < n
    ensures BinIndex(p, n) == b <==>
      BinFor(b, n, []).lower <= p && (p < BinFor(b, n, []).upper || (b == n - 1 && p <= BinFor(b, n, []).upper))
  {
    hide BinIndex, BinFor;
    ScaledBounds(p, n, b);
    IndexIs(p, n, b);
  }

  lemma ScaledRange(p: real, n: real)
    requires ValidProbability(p) && n > 0.0
    ensures 0.0 <= p * n <= n
  {
    ProductNonNegative(p, n);
    ProductNonNegative(1.0 - p, n);
    assert (1.0 - p) * n == n - p * n;
  }

  /** The bins' counts of the first k bins. */
  function Counts(samples: seq<Sample>, n: nat, k: nat): nat
    requires n > 0 && AllValid(samples)
  {
    if k == 0 then 0 else Counts(samples, n, k - 1) + |InBin(samples, n, k - 1)|
  }

  lemma {:induction false} CountsAppend(samples: seq<Sample>, s: Sample, n: nat, k: nat)
    requires n > 0 && AllValid(samples) && ValidProbability(s.predicted)
    ensures Counts(samples + [s], n, k) == Counts(samples, n, k) + if BinIndex(s.predicted, n) < k then 1 else 0
  {
    hide BinIndex;
    assert (samples + [s])[..|samples|] == samples;
    if k > 0 {
      CountsAppend(samples, s, n, k - 1);
    }
  }

  /** Every sample is in exactly one bin: the counts add up, and bin b holds just the samples whose prediction falls in it. */
  lemma {:induction false} BinsPartition(samples: seq<Sample>, n: nat)
    requires n > 0 && AllValid(samples)
    ensures Counts(samples, n, n) == |samples|
    ensures forall b: nat, s :: b < n ==>
      multiset(InBin(samples, n, b))[s] == if s in multiset(samples) && BinIndex(s.predicted, n) == b then multiset(samples)[s] else 0
  {
    hide BinIndex;
    if samples == [] {
      NoCounts(n, n);
    } else {
      var m := |samples| - 1;
      var last := samples[m];
      assert samples == samples[..m] + [last];
      BinsPartition(samples[..m], n);
      CountsAppend(samples[..m], last, n, n);
      IndexInRange(last.predicted, n);
      hide Counts;
    }
  }

  lemma {:induction false} NoCounts(n: nat, k: nat)
    requires n > 0
    ensures Counts([], n, k) == 0
  {
    if k > 0 {
      NoCounts(n, k - 1);
    }
  }

  // ---------------------------------------------------------------------------------------
  // What a bin says
  // ---------------------------------------------------------------------------------------

  /** The sum of predictions between two bounds is between as many times them. */
  lemma {:induction false} SumWithin(values: seq<Sample>, low: real, high: real)
    requires forall i :: 0 <= i < |values| ==> low <= values[i].predicted <= high
    ensures low * |values| as real <= SumPredicted(values) <= high * |values| as real
  {
    if values != [] {
      var n := |values| - 1;
      SumWithin(values[..n], low, high);
      assert low * |values| as real == low * n as real + low && high * |values| as real == high * n as real + high;
    }
  }

  lemma {:induction false} ExpectedWithin(values: seq<Sample>)
    ensures CountExpected(values) <= |values|
    ensures CountExpected(values) == |values| <==> forall i :: 0 <= i < |values| ==> values[i].expected
    ensures CountExpected(values) == 0 <==> forall i :: 0 <= i < |values| ==> !values[i].expected
  {
    if values != [] {
      ExpectedWithin(values[..|values| - 1]);
      assert forall i :: 0 <= i < |values| - 1 ==> values[..|values| - 1][i] == values[i];
    }
  }

  lemma {:induction false} InBinFalls(samples: seq<Sample>, n: nat, b: nat)
    requires n > 0 && AllValid(samples)
    ensures forall k :: 0 <= k < |InBin(samples, n, b)| ==> ValidProbability(InBin(samples, n, b)[k].predicted) && BinIndex(InBin(samples, n, b)[k].predicted, n) == b
  {
    hide BinIndex;
    if samples != [] {
      InBinFalls(samples[..|samples| - 1], n, b);
    }
  }

  /**
   A bin that is not empty reports a mean prediction between its bounds, and an observed rate from
   0 to 1 that is 1 exactly when all its labels are positive and 0 exactly when none is.
   */
  lemma BinTells(samples: seq<Sample>, n: nat, b: nat)
    requires n > 0 && AllValid(samples) && b < n && InBin(samples, n, b) != []
    ensures var values := InBin(samples, n, b);
      var bin := BinFor(b, n, values);
      && bin.lower <= bin.meanPredicted <= bin.upper && 0.0 <= bin.observedRate <= 1.0
      && (bin.observedRate == 1.0 <==> forall i :: 0 <= i < |values| ==> values[i].expected)
      && (bin.observedRate == 0.0 <==> forall i :: 0 <= i < |values| ==> !values[i].expected)
  {
    var values := InBin(samples, n, b);
    var bin := BinFor(b, n, values);
    InBinFalls(samples, n, b);
    hide InBin, BinIndex, SumPredicted, CountExpected;
    forall i | 0 <= i < |values|
      ensures bin.lower <= values[i].predicted <= bin.upper
    {
      InBinIff(values[i].predicted, n, b);
    }
    MeanWithin(values, bin.lower, bin.upper);
    ExpectedWithin(values);
    Rate(CountExpected(values), |values|);
  }

  lemma MeanWithin(values: seq<Sample>, low: real, high: real)
    requires values != [] && forall i :: 0 <= i < |values| ==> low <= values[i].predicted <= high
    ensures low <= SumPredicted(values) / |values| as real <= high
  {
    SumWithin(values, low, high);
    QuotientBounds(SumPredicted(values), high, |values| as real);
    QuotientBounds(SumPredicted(values), low, |values| as real);
  }

  lemma Rate(k: nat, c: nat)
    requires k <= c && c > 0
    ensures 0.0 <= k as real / c as real <= 1.0
    ensures k as real / c as real == 1.0 <==> k == c
    ensures k as real / c as real == 0.0 <==> k == 0
  {
    var q := k as real / c as real;
    assert q * c as real == k as real;
    QuotientBounds(k as real, 1.0, c as real);
    QuotientBounds(k as real, 0.0, c as real);
  }

  /** The last sample adds to the sum exactly when its prediction is not its label. */
  lemma NoLastError(samples: seq<Sample>)
    requires samples != [] && samples[|samples| - 1].predicted == Label(samples[|samples| - 1])
    ensures SquaredErrors(samples) == SquaredErrors(samples[..|samples| - 1])
  {
    hide Label;
    assert samples[|samples| - 1].predicted - Label(samples[|samples| - 1]) == 0.0;
  }

  lemma LastErrorCounts(samples: seq<Sample>)
    requires samples != [] && samples[|samples| - 1].predicted != Label(samples[|samples| - 1])
    ensures SquaredErrors(samples) > SquaredErrors(samples[..|samples| - 1])
  {
    var d := samples[|samples| - 1].predicted - Label(samples[|samples| - 1]);
    var square := SquareOf(d);
    assert SquaredErrors(samples) == SquaredErrors(samples[..|samples| - 1]) + square;
  }

  lemma SquareOf(d: real) returns (square: real)
    requires d != 0.0
    ensures square == d * d && square > 0.0
  {
    square := d * d;
    if d > 0.0 {
      ProductIsPositive(d, d, square);
    } else {
      ProductIsPositive(-d, -d, square);
    }
  }

  lemma ProductIsPositive(a: real, b: real, product: real)
    requires a > 0.0 && b > 0.0 && product == a * b
    ensures product > 0.0
  {
  }

  /** The sum of squared errors, and with it the Brier score, is zero exactly when every prediction is its label. */
  lemma {:induction false} NoErrorIff(samples: seq<Sample>)
    ensures SquaredErrors(samples) >= 0.0
    ensures SquaredErrors(samples) == 0.0 <==> forall i :: 0 <= i < |samples| ==> samples[i].predicted == Label(samples[i])
  {
    hide SquaredErrors, Label;
    if samples == [] {
      NoErrors();
    } else {
      var n := |samples| - 1;
      NoErrorIff(samples[..n]);
      assert forall i :: 0 <= i < n ==> samples[..n][i] == samples[i];
      if samples[n].predicted == Label(samples[n]) {
        NoLastError(samples);
      } else {
        LastErrorCounts(samples);
      }
    }
  }

  /** The first gaps weigh nothing exactly when in each of those bins that is not empty the mean prediction is the observed rate. */
  lemma {:induction false} NoGapIff(bins: seq<Bin>, k: nat, total: nat)
    requires k <= |bins| && total > 0
    ensures WeightedGaps(bins, k, total) >= 0.0
    ensures WeightedGaps(bins, k, total) == 0.0 <==> forall b :: 0 <= b < k && bins[b].count > 0 ==> bins[b].meanPredicted == bins[b].observedRate
  {
    if k > 0 {
      NoGapIff(bins, k - 1, total);
      var bin := bins[k - 1];
      WeightIsPositive(bin.count, total, Abs(bin.meanPredicted - bin.observedRate));
      hide WeightedGaps;
    }
  }

  lemma WeightIsPositive(c: nat, total: nat, gap: real)
    requires total > 0 && gap >= 0.0
    ensures c as real / total as real * gap >= 0.0 && (c as real / total as real * gap == 0.0 <==> c == 0 || gap == 0.0)
  {
    var w := c as real / total as real;
    assert w * total as real == c as real;
    QuotientBounds(c as real, 0.0, total as real);
  }

  // ---------------------------------------------------------------------------------------
  // The calibration error is at most the mean absolute error
  // ---------------------------------------------------------------------------------------

  function AbsErrors(samples: seq<Sample>): real {
    if samples == [] then 0.0
    else AbsErrors(samples[..|samples| - 1]) + Abs(samples[|samples| - 1].predicted - Label(samples[|samples| - 1]))
  }

  /** The absolute errors of the first k bins. */
  function BinnedAbs(samples: seq<Sample>, n: nat, k: nat): real
    requires n > 0 && AllValid(samples)
  {
    if k == 0 then 0.0 else BinnedAbs(samples, n, k - 1) + AbsErrors(InBin(samples, n, k - 1))
  }

  lemma AbsErrorsAppend(values: seq<Sample>, s: Sample)
    ensures AbsErrors(values + [s]) == AbsErrors(values) + Abs(s.predicted - Label(s))
  {
    assert (values + [s])[..|values|] == values;
  }

  lemma {:induction false} BinnedAbsAppend(samples: seq<Sample>, s: Sample, n: nat, k: nat)
    requires n > 0 && AllValid(samples) && ValidProbability(s.predicted)
    ensures BinnedAbs(samples + [s], n, k) == BinnedAbs(samples, n, k) + if BinIndex(s.predicted, n) < k then Abs(s.predicted - Label(s)) else 0.0
  {
    hide BinIndex, Abs, AbsErrors;
    assert (samples + [s])[..|samples|] == samples;
    if k > 0 {
      BinnedAbsAppend(samples, s, n, k - 1);
      AbsErrorsAppend(InBin(samples, n, k - 1), s);
      assert InBin(samples, n, k - 1) + [] == InBin(samples, n, k - 1);
    }
  }

  lemma {:induction false} BinnedAbsTotal(samples: seq<Sample>, n: nat)
    requires n > 0 && AllValid(samples)
    ensures BinnedAbs(samples, n, n) == AbsErrors(samples)
  {
    hide BinIndex, Abs;
    if samples == [] {
      NoBinnedAbs(n, n);
    } else {
      var m := |samples| - 1;
      assert samples == samples[..m] + [samples[m]];
      BinnedAbsTotal(samples[..m], n);
      BinnedAbsAppend(samples[..m], samples[m], n, n);
      IndexInRange(samples[m].predicted, n);
      hide BinnedAbs;
    }
  }

  lemma {:induction false} NoBinnedAbs(n: nat, k: nat)
    requires n > 0
    ensures BinnedAbs([], n, k) == 0.0
  {
    if k > 0 {
      NoBinnedAbs(n, k - 1);
    }
  }

  /** The gap between the sums is at most the sum of the gaps. */
  lemma {:induction false} Triangle(values: seq<Sample>)
    ensures Abs(SumPredicted(values) - CountExpected(values) as real) <= AbsErrors(values)
  {
    if values != [] {
      Triangle(values[..|values| - 1]);
    }
  }

  lemma ScaledGap(c: real, total: real, x: real, y: real)
    requires c > 0.0 && total > 0.0
    ensures c / total * Abs(x / c - y / c) == Abs(x - y) / total
  {
    var p, q := x / c, y / c;
    assert p * c == x && q * c == y;
    var w := c / total;
    assert w * total == c;
    assert Abs(x - y) == c * Abs(p - q) by {
      assert x - y == c * (p - q);
      if p >= q {
        ProductNonNegative(c, p - q);
      } else {
        ProductPositive(c, q - p);
      }
    }
    var z := Abs(p - q);
    assert w * z * total == c * z by {
      assert w * z * total == (w * total) * z;
    }
    assert (c * z) / total == w * z;
  }

  lemma {:induction false} GapsBelowAbs(samples: seq<Sample>, n: nat, bins: seq<Bin>, k: nat)
    requires n > 0 && AllValid(samples) && samples != [] && k <= n == |bins|
    requires forall b :: 0 <= b < n ==> bins[b] == BinFor(b, n, InBin(samples, n, b))
    ensures 0.0 <= WeightedGaps(bins, k, |samples|) && WeightedGaps(bins, k, |samples|) * |samples| as real <= BinnedAbs(samples, n, k)
  {
    hide BinIndex, SumPredicted, CountExpected, AbsErrors, InBin, Abs;
    if k > 0 {
      GapsBelowAbs(samples, n, bins, k - 1);
      var values := InBin(samples, n, k - 1);
      BinTerm(values, |samples|, bins[k - 1], k - 1, n);
      var term := bins[k - 1].count as real / |samples| as real * Abs(bins[k - 1].meanPredicted - bins[k - 1].observedRate);
      TimesSum(WeightedGaps(bins, k - 1, |samples|), term, |samples| as real);
    }
  }

  lemma TimesSum(a: real, b: real, n: real)
    ensures (a + b) * n == a * n + b * n
  {
  }

  lemma BinTerm(values: seq<Sample>, total: nat, bin: Bin, b: nat, n: nat)
    requires total > 0 && n > 0 && bin == BinFor(b, n, values)
    ensures var term := bin.count as real / total as real * Abs(bin.meanPredicted - bin.observedRate);
      0.0 <= term && term * total as real <= AbsErrors(values)
  {
    hide SumPredicted, CountExpected, AbsErrors;
    Triangle(values);
    if values == [] {
      assert AbsErrors(values) >= 0.0;
      assert Abs(0.0 - 0.0) == 0.0;
    } else {
      var x, y, t := SumPredicted(values), CountExpected(values) as real, total as real;
      ScaledGap(|values| as real, t, x, y);
      var term := Abs(x - y) / t;
      assert term * t == Abs(x - y);
      QuotientBounds(Abs(x - y), 0.0, t);
      hide Abs, BinFor;
    }
  }

  // ---------------------------------------------------------------------------------------
  // The mean absolute error squared is at most the Brier score
  // ---------------------------------------------------------------------------------------

  lemma ProductNonNegative(a: real, b: real)
    requires a >= 0.0 && b >= 0.0
    ensures a * b >= 0.0
  {
  }

  lemma ProductPositive(a: real, b: real)
    requires a > 0.0 && b > 0.0
    ensures a * b > 0.0
  {
  }

  lemma SquareNonNegative(a: real)
    ensures a * a >= 0.0
  {
    if a >= 0.0 {
      ProductNonNegative(a, a);
    } else {
      ProductNonNegative(-a, -a);
      assert (-a) * (-a) == a * a;
    }
  }

  lemma Cancel(a: real, b: real, n: real)
    requires n > 0.0 && n * a <= n * b
    ensures a <= b
  {
    assert n * (a - b) == n * a - n * b;
    if a > b {
      ProductPositive(n, a - b);
    }
  }

  lemma SquareOfDifference(s: real, m: real)
    ensures (s - m) * (s - m) == s * s - 2.0 * (s * m) + m * m
  {
  }

  lemma CrossTerm(s: real, a: real, q: real, n: real)
    requires n > 0.0 && s * s <= n * q
    ensures 2.0 * (s * a) <= q + n * (a * a)
  {
    var m := n * a;
    SquareNonNegative(s - m);
    SquareOfDifference(s, m);
    assert s * m == n * (s * a);
    assert m * m == n * (n * (a * a));
    var left, right := 2.0 * (s * a), q + n * (a * a);
    assert n * left == 2.0 * (s * m);
    TimesSum(q, n * (a * a), n);
    assert n * right == n * q + n * (n * (a * a));
    Cancel(left, right, n);
  }

  /** The square of a sum of n terms is at most n times the sum of their squares. */
  lemma {:induction false} CauchySchwarz(samples: seq<Sample>)
    ensures AbsErrors(samples) >= 0.0 && SquaredErrors(samples) >= 0.0
    ensures AbsErrors(samples) * AbsErrors(samples) <= |samples| as real * SquaredErrors(samples)
  {
    hide Abs, Label;
    if samples != [] {
      var m := |samples| - 1;
      CauchySchwarz(samples[..m]);
      var d := samples[m].predicted - Label(samples[m]);
      AbsSquared(d);
      var s, q, a := AbsErrors(samples[..m]), SquaredErrors(samples[..m]), Abs(d);
      AddTerm(s, q, a, m as real);
      assert AbsErrors(samples) == s + a && SquaredErrors(samples) == q + a * a && |samples| as real == m as real + 1.0;
      hide AbsErrors, SquaredErrors;
    }
  }

  lemma AbsSquared(d: real)
    ensures Abs(d) >= 0.0 && Abs(d) * Abs(d) == d * d
  {
  }

  lemma AddTerm(s: real, q: real, a: real, n: real)
    requires n >= 0.0 && s * s <= n * q && s >= 0.0 && q >= 0.0 && (n == 0.0 ==> s == 0.0)
    ensures (s + a) * (s + a) <= (n + 1.0) * (q + a * a) && q + a * a >= 0.0
  {
    SquareNonNegative(a);
    assert (s + a) * (s + a) == s * s + 2.0 * (s * a) + a * a;
    assert (n + 1.0) * (q + a * a) == n * q + n * (a * a) + q + a * a;
    if n > 0.0 {
      CrossTerm(s, a, q, n);
    } else {
      assert n * q == 0.0 && s * s == 0.0;
      assert s * a == 0.0 && n * (a * a) == 0.0;
    }
  }

  lemma {:induction false} ErrorsAtMostOne(samples: seq<Sample>)
    requires AllValid(samples)
    ensures 0.0 <= SquaredErrors(samples) <= |samples| as real
  {
    if samples != [] {
      var m := |samples| - 1;
      ErrorsAtMostOne(samples[..m]);
      var d := samples[m].predicted - Label(samples[m]);
      UnitSquare(d);
      assert SquaredErrors(samples) == SquaredErrors(samples[..m]) + d * d && |samples| as real == m as real + 1.0;
      hide SquaredErrors;
    }
  }

  lemma UnitSquare(d: real)
    requires -1.0 <= d <= 1.0
    ensures 0.0 <= d * d <= 1.0
  {
    SquareNonNegative(d);
    ProductNonNegative(1.0 - d, 1.0 + d);
    assert (1.0 - d) * (1.0 + d) == 1.0 - d * d;
  }

  /** Both metrics lie between 0 and 1, and the squared calibration error never exceeds the Brier score. */
  lemma CalibrationBounds(r: Report, samples: seq<Sample>, n: nat)
    requires n > 0 && AllValid(samples) && samples != [] && Reports(r, samples, n)
    ensures 0.0 <= r.brier <= 1.0 && 0.0 <= r.error <= 1.0
    ensures r.error * r.error <= r.brier
  {
    hide BinFor, InBin, BinIndex, SquaredErrors, AbsErrors, WeightedGaps, BinnedAbs, AllValid;
    var t := |samples| as real;
    ErrorsAtMostOne(samples);
    QuotientBounds(SquaredErrors(samples), 0.0, t);
    QuotientBounds(SquaredErrors(samples), 1.0, t);
    GapsBelowAbs(samples, n, r.bins, n);
    BinnedAbsTotal(samples, n);
    CauchySchwarz(samples);
    SquareBelow(r.error, AbsErrors(samples), SquaredErrors(samples), t);
    RootBelowOne(r.error);
  }

  lemma RootBelowOne(e: real)
    requires e >= 0.0 && e * e <= 1.0
    ensures e <= 1.0
  {
    assert (e - 1.0) * e == e * e - e;
    if e > 1.0 {
      ProductPositive(e - 1.0, e);
    }
  }

  lemma SquareBelow(e: real, s: real, q: real, t: real)
    requires t > 0.0 && e >= 0.0 && e * t <= s && s * s <= t * q
    ensures e * e <= q / t
  {
    var x := e * t;
    ProductNonNegative(e, t);
    ProductNonNegative(s - x, s + x);
    assert (s - x) * (s + x) == s * s - x * x;
    assert x * x == t * (e * e * t);
    Cancel(e * e * t, q, t);
    QuotientBounds(q, e * e, t);
  }
}
