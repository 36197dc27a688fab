/** The paired latency gate: which samples it pairs, and what it decides for any bootstrap draws.
    Times and changes are real numbers. */
module LatencyGate {
  import opened Ordering
  import Text

  datatype Metric = Ttft | Generation | TotalRequest

  const METRICS := [Ttft, Generation, TotalRequest]

  function Position(m: Metric): (i: nat)
    ensures i < 3 && METRICS[i] == m
  {
    match m
    case Ttft => 0
    case Generation => 1
    case TotalRequest => 2
  }

  /** The fields that the gate reads; None is a missing or mistyped value, "" a missing key. */
  datatype Sample = Sample(
    pairKey: string, mode: string,
    question: Option<string>, queryIdentity: Option<string>,
    sourceIndex: Option<int>, scheduleIndex: Option<int>, repetition: Option<int>,
    timings: Option<map<Metric, real>>)

  datatype Modes = OffOn | Contention {
    function Baseline(): string {
      if OffOn? then "off" else "uncontended"
    }

    function Comparison(): string {
      if OffOn? then "on" else "contended"
    }
  }

  datatype Error =
    | BadCounts | BadPairKey | BadMode | DuplicateSample | Unpaired | TooFewPairs
    | IncompleteIdentity | DifferentQueries | MalformedTimings | NotPositive

  datatype Result<T> = Ok(value: T) | Err(error: Error)

  datatype Pair = Pair(before: Sample, after: Sample)

  datatype Identity = Identity(question: string, queryIdentity: string, source: nat, schedule: nat, repetition: nat)

  /** `_pair_identity` */
  function PairIdentity(s: Sample): Option<Identity> {
    if s.question.None? || Text.Blank(s.question.value) || s.queryIdentity.None? || |s.queryIdentity.value| != 64
      || s.sourceIndex.None? || s.sourceIndex.value < 0 || s.scheduleIndex.None? || s.scheduleIndex.value < 0
      || s.repetition.None? || s.repetition.value < 0 then None
    else Some(Identity(s.question.value, s.queryIdentity.value, s.sourceIndex.value, s.scheduleIndex.value, s.repetition.value))
  }

  // ----------------------------------------------------------------- pairing

  datatype Bucket = Bucket(before: Option<Sample>, after: Option<Sample>)

  predicate Keyed(s: Sample, modes: Modes) {
    s.pairKey != "" && (s.mode == modes.Baseline() || s.mode == modes.Comparison())
  }

  /** No key repeats a mode, and every key has both. */
  ghost predicate Pairable(samples: seq<Sample>, modes: Modes) {
    && (forall i :: 0 <= i < |samples| ==> Keyed(samples[i], modes))
    && NoRepeats(samples)
    && (forall i :: 0 <= i < |samples| ==> HasPartner(samples, i))
  }

  ghost predicate NoRepeats(samples: seq<Sample>) {
    forall i, j :: 0 <= i < j < |samples| ==>
      samples[i].pairKey != samples[j].pairKey || samples[i].mode != samples[j].mode
  }

  ghost predicate HasPartner(samples: seq<Sample>, i: nat)
    requires i < |samples|
  {
    exists j :: 0 <= j < |samples| && samples[j].pairKey == samples[i].pairKey && samples[j].mode != samples[i].mode
  }

  predicate Uses(p: Pair, s: Sample) {
    s == p.before || s == p.after
  }

  ghost predicate Used(s: Sample, pairs: seq<Pair>) {
    exists i :: 0 <= i < |pairs| && Uses(pairs[i], s)
  }

  ghost predicate PairIn(p: Pair, samples: seq<Sample>, modes: Modes) {
    PairOk(p, modes) && p.before in samples && p.after in samples
  }

  ghost predicate DistinctPairs(pairs: seq<Pair>) {
    forall i, j :: 0 <= i < j < |pairs| ==> pairs[i].before.pairKey != pairs[j].before.pairKey
  }

  /** Every sample is in a pair, every member of a pair is a sample; with the keys of the pairs
      distinct and no sample repeated, none is dropped and none is used twice. */
  ghost predicate Splits(samples: seq<Sample>, pairs: seq<Pair>, modes: Modes) {
    && NoRepeats(samples) && DistinctPairs(pairs)
    && (forall k {:trigger Used(samples[k], pairs)} :: 0 <= k < |samples| ==> Used(samples[k], pairs))
    && (forall i {:trigger PairIn(pairs[i], samples, modes)} :: 0 <= i < |pairs| ==> PairIn(pairs[i], samples, modes))
  }

  predicate PairOk(p: Pair, modes: Modes) {
    p.before.pairKey == p.after.pairKey != "" && p.before.mode == modes.Baseline() && p.after.mode == modes.Comparison()
  }

  // ----------------------------------------------------------------- medians and bounds

  predicate Sorted(s: seq<real>) {
    forall i, j :: 0 <= i < j < |s| ==> s[i] <= s[j]
  }

  function InsertReal(s: seq<real>, x: real): (t: seq<real>)
    ensures |t| == |s| + 1
  {
    if s == [] || x < s[0] then [x] + s else [s[0]] + InsertReal(s[1..], x)
  }

  function SortReals(s: seq<real>): (t: seq<real>)
    ensures |t| == |s|
  {
    if s == [] then [] else InsertReal(SortReals(s[..|s| - 1]), s[|s| - 1])
  }

  /** `statistics.median` */
  function Median(s: seq<real>): real
    requires s != []
  {
    var t := SortReals(s);
    if |t| % 2 == 1 then t[|t| / 2] else (t[|t| / 2 - 1] + t[|t| / 2]) / 2.0
  }

  predicate Within(s: seq<real>, low: real, high: real) {
    forall i :: 0 <= i < |s| ==> low <= s[i] <= high
  }

  lemma {:induction false} InsertStays(s: seq<real>, x: real, low: real, high: real)
    requires Within(s, low, high) && low <= x <= high
    ensures Within(InsertReal(s, x), low, high)
  {
    if s != [] && x >= s[0] {
      InsertStays(s[1..], x, low, high);
    }
  }

  lemma {:induction false} SortStays(s: seq<real>, low: real, high: real)
    requires Within(s, low, high)
    ensures Within(SortReals(s), low, high)
  {
    if s != [] {
      SortStays(s[..|s| - 1], low, high);
      InsertStays(SortReals(s[..|s| - 1]), s[|s| - 1], low, high);
    }
  }

  /** A median lies between any bounds of its values. */
  lemma MedianStays(s: seq<real>, low: real, high: real)
    requires s != [] && Within(s, low, high)
    ensures low <= Median(s) <= high
  {
    SortStays(s, low, high);
  }

  /** A source of draws: for the metric, the resample and the position, which change is chosen. */
  type Draws = (Metric, nat, nat) -> nat

  function Resample(changes: seq<real>, draws: Draws, metric: Metric, r: nat): (s: seq<real>)
    requires changes != []
    ensures |s| == |changes|
  {
    seq(|changes|, k requires 0 <= k < |changes| => changes[draws(metric, r, k) % |changes|])
  }

  function Bootstrap(changes: seq<real>, draws: Draws, metric: Metric, resamples: nat): (s: seq<real>)
    requires changes != []
    ensures |s| == resamples
  {
    seq(resamples, r requires 0 <= r < resamples => Median(Resample(changes, draws, metric, r)))
  }

  /** `ceil(0.95 * n) - 1` */
  function BoundIndex(n: nat): (i: nat)
    requires n > 0
    ensures i < n
  {
    (95 * n + 99) / 100 - 1
  }

  function Upper(changes: seq<real>, draws: Draws, metric: Metric, resamples: nat): real
    requires changes != [] && resamples > 0
  {
    SortReals(Bootstrap(changes, draws, metric, resamples))[BoundIndex(resamples)]
  }

  /** Whatever is drawn, the upper bound lies between the smallest and the largest change. */
  lemma UpperStays(changes: seq<real>, draws: Draws, metric: Metric, resamples: nat, low: real, high: real)
    requires changes != [] && resamples > 0 && Within(changes, low, high)
    ensures low <= Upper(changes, draws, metric, resamples) <= high
  {
    var bootstrap := Bootstrap(changes, draws, metric, resamples);
    forall r | 0 <= r < resamples ensures low <= bootstrap[r] <= high {
      var s := Resample(changes, draws, metric, r);
      MedianStays(s, low, high);
    }
    SortStays(bootstrap, low, high);
  }

  /** All changes under the threshold force the bound under it; all at or over it keep it there. */
  lemma DrawsCannotDecide(changes: seq<real>, draws: Draws, metric: Metric, resamples: nat, threshold: real)
    requires changes != [] && resamples > 0
    ensures (forall i :: 0 <= i < |changes| ==> changes[i] < threshold) ==> Upper(changes, draws, metric, resamples) < threshold
    ensures (forall i :: 0 <= i < |changes| ==> threshold <= changes[i]) ==> threshold <= Upper(changes, draws, metric, resamples)
  {
    var low, high := Extremes(changes);
    UpperStays(changes, draws, metric, resamples, low, high);
  }

  lemma {:induction false} Extremes(s: seq<real>) returns (low: real, high: real)
    requires s != []
    ensures Within(s, low, high) && low in s && high in s
  {
    low, high := s[0], s[0];
    if |s| > 1 {
      var l, h := Extremes(s[1..]);
      assert forall i :: 0 < i < |s| ==> s[i] == s[1..][i - 1];
      low := if l < s[0] then l else s[0];
      high := if h > s[0] then h else s[0];
    }
  }

  // ----------------------------------------------------------------- sorting and coverage

  lemma {:induction false} InsertHolds(s: seq<real>, x: real)
    ensures multiset(InsertReal(s, x)) == multiset(s) + multiset{x}
  {
    if s != [] {
      assert s == [s[0]] + s[1..];
      if x >= s[0] {
        InsertHolds(s[1..], x);
      }
    }
  }

  lemma SortedCons(head: real, tail: seq<real>)
    requires Sorted(tail) && forall v :: v in multiset(tail) ==> head <= v
    ensures Sorted([head] + tail)
  {
    forall i | 0 <= i < |tail| ensures head <= tail[i] {
      assert tail[i] in multiset(tail);
    }
  }

  lemma {:induction false} InsertSorts(s: seq<real>, x: real)
    requires Sorted(s)
    ensures Sorted(InsertReal(s, x)) && multiset(InsertReal(s, x)) == multiset(s) + multiset{x}
  {
    InsertHolds(s, x);
    if s != [] {
      var head, tail := s[0], s[1..];
      assert forall i :: 0 < i < |s| ==> s[i] == tail[i - 1];
      if x < head {
        SortedCons(x, s);
      } else {
        InsertSorts(tail, x);
        SortedCons(head, InsertReal(tail, x));
      }
    }
  }

  lemma {:induction false} SortSorts(s: seq<real>)
    ensures Sorted(SortReals(s)) && multiset(SortReals(s)) == multiset(s)
  {
    if s != [] {
      SortSorts(s[..|s| - 1]);
      InsertSorts(SortReals(s[..|s| - 1]), s[|s| - 1]);
      assert s == s[..|s| - 1] + [s[|s| - 1]];
    }
  }

  function CountUpTo(s: seq<real>, bound: real): nat {
    if s == [] then 0 else (if s[0] <= bound then 1 else 0) + CountUpTo(s[1..], bound)
  }

  lemma {:induction false} CountInsert(s: seq<real>, x: real, bound: real)
    ensures CountUpTo(InsertReal(s, x), bound) == CountUpTo(s, bound) + if x <= bound then 1 else 0
  {
    if s != [] && x >= s[0] {
      CountInsert(s[1..], x, bound);
    }
  }

  lemma {:induction false} CountSnoc(s: seq<real>, x: real, bound: real)
    ensures CountUpTo(s + [x], bound) == CountUpTo(s, bound) + if x <= bound then 1 else 0
  {
    if s != [] {
      CountSnoc(s[1..], x, bound);
      assert (s + [x])[1..] == s[1..] + [x];
    }
  }

  lemma {:induction false} CountSorted(s: seq<real>, bound: real)
    ensures CountUpTo(SortReals(s), bound) == CountUpTo(s, bound)
  {
    if s != [] {
      var front, last := s[..|s| - 1], s[|s| - 1];
      CountSorted(front, bound);
      CountInsert(SortReals(front), last, bound);
      CountSnoc(front, last, bound);
      assert s == front + [last];
    }
  }

  lemma {:induction false} PrefixCounts(s: seq<real>, k: nat, bound: real)
    requires k <= |s| && forall i :: 0 <= i < k ==> s[i] <= bound
    ensures k <= CountUpTo(s, bound)
  {
    if k > 0 {
      PrefixCounts(s[1..], k - 1, bound);
    }
  }

  /** The i-th of the sorted values is at or over i + 1 of them. */
  lemma PercentileCovers(values: seq<real>, i: nat)
    requires i < |values|
    ensures i < |SortReals(values)| && i + 1 <= CountUpTo(values, SortReals(values)[i])
  {
    SortSorts(values);
    assert |multiset(SortReals(values))| == |multiset(values)|;
    CountSorted(values, SortReals(values)[i]);
    PrefixCounts(SortReals(values), i + 1, SortReals(values)[i]);
  }

  /** At least 95 of 100 resampled medians are at or below the upper bound. */
  lemma UpperCovers(changes: seq<real>, draws: Draws, metric: Metric, resamples: nat)
    requires changes != [] && resamples > 0
    ensures 100 * CountUpTo(Bootstrap(changes, draws, metric, resamples), Upper(changes, draws, metric, resamples))
         >= 95 * resamples
  {
    PercentileCovers(Bootstrap(changes, draws, metric, resamples), BoundIndex(resamples));
  }

  // ----------------------------------------------------------------- the pairing loop

  ghost predicate Placed(s: Sample, b: Bucket, modes: Modes) {
    if s.mode == modes.Baseline() then b.before == Some(s) else b.after == Some(s)
  }

  ghost predicate BucketOk(key: string, b: Bucket, modes: Modes, samples: seq<Sample>) {
    && key != "" && (b.before.Some? || b.after.Some?)
    && (b.before.Some? ==> b.before.value in samples && b.before.value.pairKey == key && b.before.value.mode == modes.Baseline())
    && (b.after.Some? ==> b.after.value in samples && b.after.value.pairKey == key && b.after.value.mode == modes.Comparison())
  }

  ghost predicate Filed(s: Sample, indexed: map<string, Bucket>, modes: Modes) {
    Keyed(s, modes) && s.pairKey in indexed && Placed(s, indexed[s.pairKey], modes)
  }

  ghost predicate OrderOk(order: seq<string>, indexed: map<string, Bucket>) {
    Distinct(order) && Elements(order) == indexed.Keys
  }

  /** What the dictionary holds once these samples have been read. */
  ghost predicate Indexed(samples: seq<Sample>, indexed: map<string, Bucket>, modes: Modes) {
    && (forall key :: key in indexed ==> BucketOk(key, indexed[key], modes, samples))
    && (forall s :: s in samples ==> Filed(s, indexed, modes))
    && NoRepeats(samples)
  }

  function Stored(b: Bucket, s: Sample, modes: Modes): Bucket {
    if s.mode == modes.Baseline() then b.(before := Some(s)) else b.(after := Some(s))
  }

  predicate Taken(b: Bucket, s: Sample, modes: Modes) {
    if s.mode == modes.Baseline() then b.before.Some? else b.after.Some?
  }
}
