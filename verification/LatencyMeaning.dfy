/** What the gate's report means for the times that were measured. */
module LatencyMeaning {
  import opened Ordering
  import opened LatencyGate
  import opened LatencyPairing
  import opened Sequences
  import Text

  // ----------------------------------------------------------------- one pair

  lemma Scaled(a: real, b: real, x: real)
    requires b > 0.0
    ensures (a - b) / b * 100.0 < x <==> 100.0 * a < (100.0 + x) * b
  {
    var c := (a - b) / b;
    assert c * b == a - b;
    assert c * 100.0 < x <==> c * 100.0 * b < x * b by {
      ScaledBy(c * 100.0, x, b);
    }
    assert c * 100.0 * b == 100.0 * (c * b);
  }

  lemma ScaledBy(y: real, x: real, b: real)
    requires b > 0.0
    ensures y < x <==> y * b < x * b
  {
    assert (x - y) * b == x * b - y * b;
    if y < x {
      assert (x - y) * b > 0.0;
    } else {
      assert (y - x) * b >= 0.0;
    }
  }

  /** The change of a pair is under x percent exactly when the time after is under (100 + x)
      hundredths of the time before. */
  lemma ChangeOnTimings(p: Pair, m: Metric, x: real)
    requires PairTimed(p, m)
    ensures Change(p, m) < x <==> 100.0 * p.after.timings.value[m] < (100.0 + x) * p.before.timings.value[m]
  {
    Scaled(p.after.timings.value[m], p.before.timings.value[m], x);
  }

  // ----------------------------------------------------------------- the samples of one key

  /** The same key, once without and once with what is judged. */
  predicate Partners(samples: seq<Sample>, modes: Modes, s: Sample, t: Sample) {
    && s in samples && t in samples && s.pairKey == t.pairKey
    && s.mode == (if modes.OffOn? then "off" else "uncontended") && t.mode == (if modes.OffOn? then "on" else "contended")
  }

  predicate HasTimes(s: Sample) {
    s.timings.Some? && forall m: Metric :: m in s.timings.value && s.timings.value[m] > 0.0
  }

  /** Slower by less than the threshold. */
  predicate Under(s: Sample, t: Sample, m: Metric, threshold: real)
    requires HasTimes(s) && HasTimes(t)
  {
    100.0 * t.timings.value[m] < (100.0 + threshold) * s.timings.value[m]
  }

  lemma PairsArePartners(samples: seq<Sample>, modes: Modes, pairs: seq<Pair>, i: nat)
    requires Splits(samples, pairs, modes) && i < |pairs|
    ensures Partners(samples, modes, pairs[i].before, pairs[i].after)
  {
    assert PairIn(pairs[i], samples, modes);
  }

  lemma PartnersArePairs(samples: seq<Sample>, modes: Modes, pairs: seq<Pair>, s: Sample, t: Sample) returns (i: nat)
    requires Splits(samples, pairs, modes) && Partners(samples, modes, s, t)
    ensures i < |pairs| && pairs[i] == Pair(s, t)
  {
    var k :| 0 <= k < |samples| && samples[k] == s;
    var l :| 0 <= l < |samples| && samples[l] == t;
    assert Used(samples[k], pairs) && Used(samples[l], pairs);
    i :| 0 <= i < |pairs| && Uses(pairs[i], s);
    var j :| 0 <= j < |pairs| && Uses(pairs[j], t);
    assert PairIn(pairs[i], samples, modes) && PairIn(pairs[j], samples, modes);
    assert i == j;
  }

  lemma PairHasTimes(pairs: seq<Pair>, i: nat)
    requires i < |pairs| && forall m :: AllTimed(pairs, m)
    ensures HasTimes(pairs[i].before) && HasTimes(pairs[i].after)
  {
    assert AllTimed(pairs, Ttft) && PairTimed(pairs[i], Ttft);
    forall m: Metric
      ensures m in pairs[i].before.timings.value && pairs[i].before.timings.value[m] > 0.0
      ensures m in pairs[i].after.timings.value && pairs[i].after.timings.value[m] > 0.0
    {
      assert AllTimed(pairs, m) && PairTimed(pairs[i], m);
    }
  }

  lemma AcceptedIsTimed(samples: seq<Sample>, modes: Modes, minimumPairs: int, resamples: int,
                        draws: Draws, threshold: real, report: Report, pairs: seq<Pair>)
    requires AcceptsAs(samples, modes, minimumPairs, resamples, draws, threshold, report, pairs)
    ensures forall i :: 0 <= i < |pairs| ==> HasTimes(pairs[i].before) && HasTimes(pairs[i].after)
    ensures forall m :: AllTimed(pairs, m)
  {
    forall m ensures AllTimed(pairs, m) {
      assert Decided(report.metrics, m, pairs, draws, resamples, threshold);
    }
    forall i | 0 <= i < |pairs| ensures HasTimes(pairs[i].before) && HasTimes(pairs[i].after) {
      PairHasTimes(pairs, i);
    }
  }

  /** Every sample of an accepted input has all its times, and its partner's query is its own: the
      same question, which is not blank, the same identity of 64 characters, the same numbers. */
  lemma AcceptedPartners(samples: seq<Sample>, modes: Modes, minimumPairs: int, resamples: int,
                         draws: Draws, threshold: real, report: Report, s: Sample, t: Sample)
    requires Accepts(samples, modes, minimumPairs, resamples, draws, threshold, report) && Partners(samples, modes, s, t)
    ensures HasTimes(s) && HasTimes(t)
    ensures s.question.Some? && s.question == t.question
      && exists i :: 0 <= i < |s.question.value| && !Text.PythonSpace(s.question.value[i])
    ensures s.queryIdentity.Some? && |s.queryIdentity.value| == 64 && s.queryIdentity == t.queryIdentity
    ensures s.sourceIndex.Some? && s.sourceIndex.value >= 0 && s.sourceIndex == t.sourceIndex
    ensures s.scheduleIndex.Some? && s.scheduleIndex.value >= 0 && s.scheduleIndex == t.scheduleIndex
    ensures s.repetition.Some? && s.repetition.value >= 0 && s.repetition == t.repetition
  {
    var pairs :| AcceptsAs(samples, modes, minimumPairs, resamples, draws, threshold, report, pairs);
    AcceptedIsTimed(samples, modes, minimumPairs, resamples, draws, threshold, report, pairs);
    var i := PartnersArePairs(samples, modes, pairs, s, t);
    assert SameQuery(pairs[i]);
    Text.BlankExactly(s.question.value);
  }

  // ----------------------------------------------------------------- the verdict

  ghost predicate AllUnderOn(samples: seq<Sample>, modes: Modes, m: Metric, threshold: real) {
    forall s, t :: Partners(samples, modes, s, t) ==> HasTimes(s) && HasTimes(t) && Under(s, t, m, threshold)
  }

  ghost predicate NoneUnderOn(samples: seq<Sample>, modes: Modes, m: Metric, threshold: real) {
    forall s, t :: Partners(samples, modes, s, t) ==> HasTimes(s) && HasTimes(t) && !Under(s, t, m, threshold)
  }

  lemma UnderPairs(samples: seq<Sample>, modes: Modes, pairs: seq<Pair>, m: Metric, threshold: real)
    requires Splits(samples, pairs, modes) && AllTimed(pairs, m) && AllUnderOn(samples, modes, m, threshold)
    ensures AllUnder(pairs, m, threshold)
  {
    forall i | 0 <= i < |pairs| ensures Change(pairs[i], m) < threshold {
      PairsArePartners(samples, modes, pairs, i);
      ChangeOnTimings(pairs[i], m, threshold);
    }
  }

  lemma NotUnderPairs(samples: seq<Sample>, modes: Modes, pairs: seq<Pair>, m: Metric, threshold: real)
    requires Splits(samples, pairs, modes) && AllTimed(pairs, m) && NoneUnderOn(samples, modes, m, threshold)
    ensures NoneUnder(pairs, m, threshold)
  {
    forall i | 0 <= i < |pairs| ensures threshold <= Change(pairs[i], m) {
      PairsArePartners(samples, modes, pairs, i);
      ChangeOnTimings(pairs[i], m, threshold);
    }
  }

  /** The verdict on the times themselves, for every sequence of draws: if by every measure every
      query is slower by less than the threshold the report passes, and if by some measure none is,
      it fails. */
  lemma GateOnTimings(samples: seq<Sample>, modes: Modes, minimumPairs: int, resamples: int,
                      draws: Draws, threshold: real, report: Report)
    requires Accepts(samples, modes, minimumPairs, resamples, draws, threshold, report)
    ensures (forall m: Metric :: AllUnderOn(samples, modes, m, threshold)) ==> report.passed
    ensures (exists m: Metric :: NoneUnderOn(samples, modes, m, threshold)) ==> !report.passed
    ensures 2 * report.pairs == |samples|
  {
    var pairs :| AcceptsAs(samples, modes, minimumPairs, resamples, draws, threshold, report, pairs);
    AcceptedIsTimed(samples, modes, minimumPairs, resamples, draws, threshold, report, pairs);
    forall m: Metric
      ensures AllUnderOn(samples, modes, m, threshold) ==> AllUnder(pairs, m, threshold)
      ensures NoneUnderOn(samples, modes, m, threshold) ==> NoneUnder(pairs, m, threshold)
    {
      if AllUnderOn(samples, modes, m, threshold) {
        UnderPairs(samples, modes, pairs, m, threshold);
      }
      if NoneUnderOn(samples, modes, m, threshold) {
        NotUnderPairs(samples, modes, pairs, m, threshold);
      }
    }
    GateIsSound(pairs, draws, resamples, threshold, report);
    SplitsInHalf(samples, pairs, modes);
  }

  // ----------------------------------------------------------------- medians and bounds

  /** The median is the middle value of the values in order, or halfway between the two middle ones. */
  lemma MedianIsMiddle(s: seq<real>, t: seq<real>)
    requires s != [] && Sorted(t) && multiset(t) == multiset(s)
    ensures |t| == |s|
    ensures |s| % 2 == 1 ==> Median(s) == t[|s| / 2]
    ensures |s| % 2 == 0 ==> 2.0 * Median(s) == t[|s| / 2 - 1] + t[|s| / 2]
  {
    SortSorts(s);
    SortedIsUnique(SortReals(s), t);
    assert |multiset(t)| == |multiset(s)|;
  }

  lemma FirstIsLeast(a: seq<real>, x: real)
    requires Sorted(a) && x in multiset(a)
    ensures a != [] && a[0] <= x
  {
    var i :| 0 <= i < |a| && a[i] == x;
  }

  lemma TailHolds(a: seq<real>)
    requires a != []
    ensures multiset(a[1..]) == multiset(a) - multiset{a[0]} && a[0] in multiset(a)
  {
    assert a == [a[0]] + a[1..];
  }

  lemma SortedTail(a: seq<real>)
    requires Sorted(a) && a != []
    ensures Sorted(a[1..])
  {
  }

  lemma {:induction false} SortedIsUnique(a: seq<real>, b: seq<real>)
    requires Sorted(a) && Sorted(b) && multiset(a) == multiset(b)
    ensures a == b
    decreases |a|
  {
    assert |multiset(a)| == |a| && |multiset(b)| == |b|;
    if a != [] {
      TailHolds(a);
      TailHolds(b);
      FirstIsLeast(a, b[0]);
      FirstIsLeast(b, a[0]);
      SortedTail(a);
      SortedTail(b);
      SortedIsUnique(a[1..], b[1..]);
      Uncons(a);
      Uncons(b);
    }
  }

  function CountUnder(s: seq<real>, bound: real): nat {
    if s == [] then 0 else (if s[0] < bound then 1 else 0) + CountUnder(s[1..], bound)
  }

  lemma {:induction false} CountUnderInsert(s: seq<real>, x: real, bound: real)
    ensures CountUnder(InsertReal(s, x), bound) == CountUnder(s, bound) + if x < bound then 1 else 0
  {
    if s != [] && x >= s[0] {
      CountUnderInsert(s[1..], x, bound);
    }
  }

  lemma {:induction false} CountUnderSnoc(s: seq<real>, x: real, bound: real)
    ensures CountUnder(s + [x], bound) == CountUnder(s, bound) + if x < bound then 1 else 0
  {
    if s != [] {
      CountUnderSnoc(s[1..], x, bound);
      assert (s + [x])[1..] == s[1..] + [x];
    }
  }

  lemma {:induction false} CountUnderSorted(s: seq<real>, bound: real)
    ensures CountUnder(SortReals(s), bound) == CountUnder(s, bound)
  {
    if s != [] {
      var front, last := s[..|s| - 1], s[|s| - 1];
      CountUnderSorted(front, bound);
      CountUnderInsert(SortReals(front), last, bound);
      CountUnderSnoc(front, last, bound);
      assert s == front + [last];
    }
  }

  lemma {:induction false} SuffixIsNotUnder(s: seq<real>, k: nat, bound: real)
    requires k <= |s| && forall i :: k <= i < |s| ==> bound <= s[i]
    ensures CountUnder(s, bound) <= k
  {
    if s != [] {
      if k == 0 {
        assert bound <= s[0];
        SuffixIsNotUnder(s[1..], 0, bound);
      } else {
        SuffixIsNotUnder(s[1..], k - 1, bound);
      }
    }
  }

  lemma UnderPercentile(values: seq<real>, k: nat)
    requires k < |values|
    ensures k < |SortReals(values)| && CountUnder(values, SortReals(values)[k]) <= k
  {
    SortSorts(values);
    CountUnderSorted(values, SortReals(values)[k]);
    SuffixIsNotUnder(SortReals(values), k, SortReals(values)[k]);
  }

  /** The upper bound is no larger than it need be: fewer than 95 in 100 resampled medians are
      below it. */
  lemma UpperIsLeast(changes: seq<real>, draws: Draws, metric: Metric, resamples: nat)
    requires changes != [] && resamples > 0
    ensures 100 * CountUnder(Bootstrap(changes, draws, metric, resamples), Upper(changes, draws, metric, resamples))
          < 95 * resamples
  {
    var bootstrap := Bootstrap(changes, draws, metric, resamples);
    UnderPercentile(bootstrap, BoundIndex(resamples));
  }
}
