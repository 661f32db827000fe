/**
 The integer running average that both ledgers keep per account:
 avg' = (avg * (n - 1) + sample) / n, with Go's truncating division.
 */
module RunningAverage {
  import opened Sums

  function Next(avg: int, n: nat, sample: int): int
    requires 0 < n
  {
    Quo(avg * (n - 1) + sample, n)
  }

  function Average(samples: seq<int>): int {
    if samples == [] then 0
    else Next(Average(samples[..|samples| - 1]), |samples|, samples[|samples| - 1])
  }

  function Total(samples: seq<int>): int {
    if samples == [] then 0 else Total(samples[..|samples| - 1]) + samples[|samples| - 1]
  }

  /** What the true sum exceeds n times the reported average by. */
  function Drift(samples: seq<int>): int {
    Total(samples) - |samples| * Average(samples)
  }

  lemma DriftStep(samples: seq<int>, x: int)
    ensures Average(samples + [x]) == Next(Average(samples), |samples| + 1, x)
    ensures -|samples| <= Drift(samples + [x]) - Drift(samples) <= |samples|
    ensures 0 <= Average(samples) * |samples| + x ==> Drift(samples) <= Drift(samples + [x])
  {
    var a, n := Average(samples) * |samples| + x, |samples| + 1;
    AverageAppends(samples, x);
    DriftChange(samples, x);
    LossWithin(Drift(samples), Drift(samples + [x]), a, n);
  }

  /** One step of the average loses what the division drops, which is less than the divisor. */
  lemma LossWithin(before: int, after: int, a: int, n: int)
    requires 0 < n && after == before + a - Quo(a, n) * n
    ensures -n < after - before < n && (0 <= a ==> before <= after)
  {
    QuoRemainder(a, n);
  }

  lemma DriftChange(samples: seq<int>, x: int)
    ensures var a := Average(samples) * |samples| + x;
            && Average(samples + [x]) == Quo(a, |samples| + 1)
            && Drift(samples + [x]) == Drift(samples) + a - Quo(a, |samples| + 1) * (|samples| + 1)
  {
    var t, n := samples + [x], |samples|;
    TotalAppends(samples, x);
    AverageAppends(samples, x);
    NextIs(Average(samples), n, x);
    LossIs(Total(samples), n, Average(samples), Average(t), x);
  }

  lemma LossIs(total: int, n: nat, avg: int, next: int, x: int)
    ensures (total + x) - (n + 1) * next == (total - n * avg) + (avg * n + x) - next * (n + 1)
  {
    Commute(n, avg);
    Commute(n + 1, next);
  }

  lemma TotalAppends(samples: seq<int>, x: int)
    ensures Total(samples + [x]) == Total(samples) + x
  {
    assert (samples + [x])[..|samples|] == samples;
  }

  lemma AverageAppends(samples: seq<int>, x: int)
    ensures Average(samples + [x]) == Next(Average(samples), |samples| + 1, x)
  {
    assert (samples + [x])[..|samples|] == samples;
  }

  lemma NextIs(avg: int, n: nat, x: int)
    ensures Next(avg, n + 1, x) == Quo(avg * n + x, n + 1)
  {
  }

  lemma Commute(a: int, b: int)
    ensures a * b == b * a
  {
  }

  /** 0 + 1 + ... + (n - 1). */
  function Triangle(n: nat): nat {
    if n == 0 then 0 else Triangle(n - 1) + (n - 1)
  }

  lemma {:induction false} TriangleClosed(n: nat)
    ensures 2 * Triangle(n) == n * (n - 1)
  {
    if n > 0 {
      TriangleClosed(n - 1);
      assert (n - 1) * (n - 2) + 2 * (n - 1) == n * (n - 1);
    }
  }

  /** For any samples, positive or negative, the drift is at most n(n-1)/2 in size. */
  lemma {:induction false} DriftBound(samples: seq<int>)
    ensures 0 - Triangle(|samples|) <= Drift(samples) <= Triangle(|samples|)
  {
    if samples != [] {
      var n := |samples| - 1;
      DriftBound(samples[..n]);
      DriftStep(samples[..n], samples[n]);
      assert samples[..n] + [samples[n]] == samples;
    }
  }

  /** The average stays between the smallest and the largest sample. */
  lemma {:induction false} AverageBetween(samples: seq<int>, lo: int, hi: int)
    requires samples != []
    requires forall i :: 0 <= i < |samples| ==> lo <= samples[i] <= hi
    ensures lo <= Average(samples) <= hi
  {
    var n := |samples| - 1;
    var rest, x := samples[..n], samples[n];
    if n == 0 {
      assert rest == [];
      QuoBetween(x, 1, lo, hi);
    } else {
      AverageBetween(rest, lo, hi);
      NextBetween(Average(rest), n, x, lo, hi);
    }
  }

  lemma NextBetween(avg: int, n: nat, x: int, lo: int, hi: int)
    requires lo <= avg <= hi && lo <= x <= hi
    ensures lo <= Next(avg, n + 1, x) <= hi
  {
    Scale(lo, avg, n);
    Scale(avg, hi, n);
    Commute(lo, n + 1);
    Commute(hi, n + 1);
    Commute(lo, n);
    Commute(hi, n);
    NextMultiple(n, lo);
    NextMultiple(n, hi);
    QuoBetween(avg * n + x, n + 1, lo, hi);
  }

  /** Non-negative samples only ever lose to truncation, never gain. */
  lemma {:induction false} DriftOneSided(samples: seq<int>)
    requires forall i :: 0 <= i < |samples| ==> 0 <= samples[i]
    ensures 0 <= Average(samples)
    ensures 0 <= Drift(samples) <= Triangle(|samples|)
  {
    DriftBound(samples);
    if samples != [] {
      var n := |samples| - 1;
      var rest := samples[..n];
      DriftOneSided(rest);
      Scale(0, Average(rest), n);
      DriftStep(rest, samples[n]);
      assert rest + [samples[n]] == samples;
      QuoRemainder(Average(rest) * n + samples[n], n + 1);
    }
  }

  /** Samples that lose the most possible at every step. */
  function WorstSamples(n: nat): seq<int> {
    if n == 0 then []
    else
      var rest := WorstSamples(n - 1);
      rest + [(n - 1 + Average(rest)) % n]
  }

  /** The bound of `DriftOneSided` is attained at every length. */
  lemma {:induction false} DriftTight(n: nat)
    ensures |WorstSamples(n)| == n
    ensures forall i :: 0 <= i < n ==> 0 <= WorstSamples(n)[i]
    ensures Drift(WorstSamples(n)) == Triangle(n)
  {
    if n > 0 {
      DriftTight(n - 1);
      var rest := WorstSamples(n - 1);
      var a := Average(rest);
      var x := (n - 1 + a) % n;
      DriftOneSided(rest);
      DriftChange(rest, x);
      WorstRemainder(a, n);
      var m := a * (n - 1) + x;
      DivMod(m, n);
    }
  }

  lemma WorstRemainder(a: int, n: nat)
    requires 0 < n && 0 <= a
    ensures var x := (n - 1 + a) % n;
            0 <= a * (n - 1) + x && (a * (n - 1) + x) % n == n - 1
  {
    var x := (n - 1 + a) % n;
    var k := (n - 1 + a) / n;
    assert n - 1 + a == n * k + x;
    assert a * (n - 1) + x == (a - k) * n + (n - 1);
    Scale(0, a, n - 1);
    ModOf(a - k, n, n - 1);
  }
}
