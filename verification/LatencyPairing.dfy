/** The gate's loops: indexing the samples by pair and mode, and deciding each metric. */
module LatencyPairing {
  import opened Ordering
  import opened LatencyGate

  const NOTHING := Bucket(None, None)

  function BucketOf(indexed: map<string, Bucket>, key: string): Bucket {
    if key in indexed then indexed[key] else NOTHING
  }

  lemma OrderKeeps(order: seq<string>, indexed: map<string, Bucket>, key: string, b: Bucket)
    requires OrderOk(order, indexed)
    ensures OrderOk(if key in indexed then order else order + [key], indexed[key := b])
  {
    assert forall x :: x in order ==> x in Elements(order);
    assert Elements(order + [key]) == Elements(order) + {key};
  }

  lemma StoreFiles(indexed: map<string, Bucket>, s: Sample, modes: Modes, other: Sample)
    requires Keyed(s, modes) && !Taken(BucketOf(indexed, s.pairKey), s, modes)
    requires Filed(other, indexed, modes)
    ensures Filed(other, indexed[s.pairKey := Stored(BucketOf(indexed, s.pairKey), s, modes)], modes)
    ensures other.pairKey != s.pairKey || other.mode != s.mode
  {
  }

  lemma StoreKeepsBucket(samples: seq<Sample>, indexed: map<string, Bucket>, s: Sample, modes: Modes, key: string)
    requires Keyed(s, modes) && (key in indexed ==> BucketOk(key, indexed[key], modes, samples))
    ensures var filled := indexed[s.pairKey := Stored(BucketOf(indexed, s.pairKey), s, modes)];
      key in filled ==> BucketOk(key, filled[key], modes, samples + [s])
  {
    assert s in samples + [s];
    assert forall x :: x in samples ==> x in samples + [s];
  }

  lemma StoreKeeps(samples: seq<Sample>, indexed: map<string, Bucket>, s: Sample, modes: Modes)
    requires Indexed(samples, indexed, modes) && Keyed(s, modes)
    requires !Taken(BucketOf(indexed, s.pairKey), s, modes)
    ensures Indexed(samples + [s], indexed[s.pairKey := Stored(BucketOf(indexed, s.pairKey), s, modes)], modes)
  {
    var filled := indexed[s.pairKey := Stored(BucketOf(indexed, s.pairKey), s, modes)];
    var more := samples + [s];
    forall key | key in filled ensures BucketOk(key, filled[key], modes, more) {
      StoreKeepsBucket(samples, indexed, s, modes, key);
    }
    forall x | x in more ensures Filed(x, filled, modes) {
      if x in samples {
        StoreFiles(indexed, s, modes, x);
      }
    }
    forall i | 0 <= i < |samples| ensures samples[i].pairKey != s.pairKey || samples[i].mode != s.mode {
      assert samples[i] in samples;
      StoreFiles(indexed, s, modes, samples[i]);
    }
  }

  /** A place already taken is a repeated key and mode. */
  lemma TakenRepeats(samples: seq<Sample>, indexed: map<string, Bucket>, s: Sample, modes: Modes)
    requires Indexed(samples, indexed, modes) && Keyed(s, modes) && Taken(BucketOf(indexed, s.pairKey), s, modes)
    ensures exists i :: 0 <= i < |samples| && samples[i].pairKey == s.pairKey && samples[i].mode == s.mode
  {
    var b := indexed[s.pairKey];
    assert BucketOk(s.pairKey, b, modes, samples);
    var taken := if s.mode == modes.Baseline() then b.before.value else b.after.value;
    var i :| 0 <= i < |samples| && samples[i] == taken;
  }

  predicate Full(b: Bucket) {
    b.before.Some? && b.after.Some?
  }

  lemma FullHasPartner(samples: seq<Sample>, indexed: map<string, Bucket>, modes: Modes, i: nat)
    requires i < |samples| && Filed(samples[i], indexed, modes)
    requires BucketOk(samples[i].pairKey, indexed[samples[i].pairKey], modes, samples)
    requires Full(indexed[samples[i].pairKey])
    ensures HasPartner(samples, i)
  {
    var b := indexed[samples[i].pairKey];
    var other := if samples[i].mode == modes.Baseline() then b.after.value else b.before.value;
    var j :| 0 <= j < |samples| && samples[j] == other;
  }

  lemma PartnerFills(samples: seq<Sample>, indexed: map<string, Bucket>, modes: Modes, key: string)
    requires key in indexed && BucketOk(key, indexed[key], modes, samples)
    requires forall s :: s in samples ==> Filed(s, indexed, modes)
    requires forall i :: 0 <= i < |samples| ==> HasPartner(samples, i)
    ensures Full(indexed[key])
  {
    var b := indexed[key];
    var one := if b.before.Some? then b.before.value else b.after.value;
    var i :| 0 <= i < |samples| && samples[i] == one;
    assert HasPartner(samples, i);
    var j :| 0 <= j < |samples| && samples[j].pairKey == key && samples[j].mode != samples[i].mode;
    assert samples[j] in samples;
    assert Filed(samples[j], indexed, modes);
  }

  /** All buckets are full exactly when every sample has its partner. */
  lemma FullExactly(samples: seq<Sample>, indexed: map<string, Bucket>, modes: Modes)
    requires Indexed(samples, indexed, modes)
    ensures (forall key :: key in indexed ==> Full(indexed[key])) <==> Pairable(samples, modes)
  {
    if forall key :: key in indexed ==> Full(indexed[key]) {
      forall i | 0 <= i < |samples| ensures Keyed(samples[i], modes) && HasPartner(samples, i) {
        assert samples[i] in samples;
        assert Filed(samples[i], indexed, modes);
        FullHasPartner(samples, indexed, modes, i);
      }
    } else if Pairable(samples, modes) {
      forall key | key in indexed ensures Full(indexed[key]) {
        PartnerFills(samples, indexed, modes, key);
      }
    }
  }

  predicate AllFull(order: seq<string>, indexed: map<string, Bucket>) {
    forall i :: 0 <= i < |order| ==> order[i] in indexed && Full(indexed[order[i]])
  }

  function PairOf(b: Bucket): Pair
    requires Full(b)
  {
    Pair(b.before.value, b.after.value)
  }

  function PairsOf(order: seq<string>, indexed: map<string, Bucket>): (pairs: seq<Pair>)
    requires AllFull(order, indexed)
    ensures |pairs| == |order|
    ensures forall i :: 0 <= i < |order| ==> pairs[i] == PairOf(indexed[order[i]])
  {
    seq(|order|, i requires 0 <= i < |order| => PairOf(indexed[order[i]]))
  }

  lemma PairsSplit(samples: seq<Sample>, order: seq<string>, indexed: map<string, Bucket>, modes: Modes)
    requires Indexed(samples, indexed, modes) && OrderOk(order, indexed) && AllFull(order, indexed)
    ensures Splits(samples, PairsOf(order, indexed), modes)
  {
    var pairs := PairsOf(order, indexed);
    forall i | 0 <= i < |pairs| ensures PairIn(pairs[i], samples, modes) && pairs[i].before.pairKey == order[i] {
      assert BucketOk(order[i], indexed[order[i]], modes, samples);
    }
    forall k | 0 <= k < |samples| ensures Used(samples[k], pairs) {
      assert samples[k] in samples;
      assert Filed(samples[k], indexed, modes) && samples[k].pairKey in Elements(order);
      var i :| 0 <= i < |order| && order[i] == samples[k].pairKey;
      assert Uses(pairs[i], samples[k]);
    }
  }

  /** One sample read: None when it can be stored, and then what the dictionary becomes. */
  function ReadFault(indexed: map<string, Bucket>, s: Sample, modes: Modes): Option<Error> {
    if s.pairKey == "" then Some(BadPairKey)
    else if s.mode != modes.Baseline() && s.mode != modes.Comparison() then Some(BadMode)
    else if Taken(BucketOf(indexed, s.pairKey), s, modes) then Some(DuplicateSample)
    else None
  }

  ghost predicate Repeats(samples: seq<Sample>, i: nat)
    requires i < |samples|
  {
    exists j :: 0 <= j < i && samples[j].pairKey == samples[i].pairKey && samples[j].mode == samples[i].mode
  }

  /** Why a sample is refused, given those before it. */
  ghost function FaultOf(samples: seq<Sample>, i: nat, modes: Modes): Option<Error>
    requires i < |samples|
  {
    if samples[i].pairKey == "" then Some(BadPairKey)
    else if !Keyed(samples[i], modes) then Some(BadMode)
    else if Repeats(samples, i) then Some(DuplicateSample)
    else None
  }

  ghost predicate NoFault(samples: seq<Sample>, modes: Modes, n: nat)
    requires n <= |samples|
  {
    forall j :: 0 <= j < n ==> FaultOf(samples, j, modes).None?
  }

  /** The first sample that is refused, and why. */
  ghost predicate FirstFault(samples: seq<Sample>, modes: Modes, error: Error, i: nat) {
    i < |samples| && NoFault(samples, modes, i) && FaultOf(samples, i, modes) == Some(error)
  }

  lemma RepeatIsTaken(samples: seq<Sample>, i: nat, indexed: map<string, Bucket>, modes: Modes)
    requires i < |samples| && Indexed(samples[..i], indexed, modes) && Keyed(samples[i], modes) && Repeats(samples, i)
    ensures Taken(BucketOf(indexed, samples[i].pairKey), samples[i], modes)
  {
    var j :| 0 <= j < i && samples[j].pairKey == samples[i].pairKey && samples[j].mode == samples[i].mode;
    assert samples[j] in samples[..i];
    assert Filed(samples[j], indexed, modes);
  }

  lemma ReadFaultIs(samples: seq<Sample>, i: nat, indexed: map<string, Bucket>, modes: Modes)
    requires i < |samples| && Indexed(samples[..i], indexed, modes)
    ensures ReadFault(indexed, samples[i], modes) == FaultOf(samples, i, modes)
  {
    var s := samples[i];
    if Keyed(s, modes) && Taken(BucketOf(indexed, s.pairKey), s, modes) {
      TakenRepeats(samples[..i], indexed, s, modes);
      var j :| 0 <= j < i && samples[..i][j].pairKey == s.pairKey && samples[..i][j].mode == s.mode;
      assert samples[j].pairKey == s.pairKey && samples[j].mode == s.mode;
    }
    if Keyed(s, modes) && Repeats(samples, i) {
      RepeatIsTaken(samples, i, indexed, modes);
    }
  }

  lemma FaultIsUnpairable(samples: seq<Sample>, i: nat, modes: Modes)
    requires i < |samples| && FaultOf(samples, i, modes).Some?
    ensures !Pairable(samples, modes)
  {
  }

  lemma IndexOn(samples: seq<Sample>, i: nat, indexed: map<string, Bucket>, modes: Modes)
    requires i < |samples| && Indexed(samples[..i], indexed, modes) && ReadFault(indexed, samples[i], modes).None?
    ensures var s := samples[i];
      Indexed(samples[..i + 1], indexed[s.pairKey := Stored(BucketOf(indexed, s.pairKey), s, modes)], modes)
  {
    StoreKeeps(samples[..i], indexed, samples[i], modes);
    assert samples[..i + 1] == samples[..i] + [samples[i]];
  }

  lemma IndexNext(samples: seq<Sample>, i: nat, order: seq<string>, indexed: map<string, Bucket>, modes: Modes)
    requires i < |samples| && Indexed(samples[..i], indexed, modes) && OrderOk(order, indexed) && NoFault(samples, modes, i)
    requires ReadFault(indexed, samples[i], modes).None? && FaultOf(samples, i, modes).None?
    ensures var s := samples[i];
      var next := indexed[s.pairKey := Stored(BucketOf(indexed, s.pairKey), s, modes)];
      && Indexed(samples[..i + 1], next, modes) && NoFault(samples, modes, i + 1)
      && OrderOk(if s.pairKey in indexed then order else order + [s.pairKey], next)
  {
    var s := samples[i];
    IndexOn(samples, i, indexed, modes);
    OrderKeeps(order, indexed, s.pairKey, Stored(BucketOf(indexed, s.pairKey), s, modes));
  }

  method Index(samples: seq<Sample>, modes: Modes)
      returns (fault: Option<Error>, order: seq<string>, indexed: map<string, Bucket>)
    ensures fault.Some? ==> exists i :: FirstFault(samples, modes, fault.value, i)
    ensures fault.None? ==> NoFault(samples, modes, |samples|) && Indexed(samples, indexed, modes) && OrderOk(order, indexed)
  {
    order, indexed := [], map[];
    var i := 0;
    while i < |samples|
      invariant 0 <= i <= |samples| && NoFault(samples, modes, i)
      invariant Indexed(samples[..i], indexed, modes) && OrderOk(order, indexed)
    {
      var s := samples[i];
      fault := ReadFault(indexed, s, modes);
      ReadFaultIs(samples, i, indexed, modes);
      if fault.Some? {
        assert FirstFault(samples, modes, fault.value, i);
        return;
      }
      var bucket := BucketOf(indexed, s.pairKey);
      IndexNext(samples, i, order, indexed, modes);
      if s.pairKey !in indexed {
        order := order + [s.pairKey];
      }
      indexed := indexed[s.pairKey := Stored(bucket, s, modes)];
      i := i + 1;
    }
    assert samples[..i] == samples;
    fault := None;
  }

  /** The first sample refused decides the error; only without one can a sample be unpaired. */
  ghost predicate PairingError(samples: seq<Sample>, modes: Modes, error: Error) {
    if error == Unpaired then NoFault(samples, modes, |samples|) && !Pairable(samples, modes)
    else exists i :: FirstFault(samples, modes, error, i)
  }

  /** The first half of the gate: index, then insist that nothing is left unpaired. */
  method Pairs(samples: seq<Sample>, modes: Modes) returns (result: Result<seq<Pair>>)
    ensures result.Ok? <==> Pairable(samples, modes)
    ensures result.Ok? ==> Splits(samples, result.value, modes)
    ensures result.Err? ==> PairingError(samples, modes, result.error)
  {
    var fault, order, indexed := Index(samples, modes);
    if fault.Some? {
      ghost var i :| FirstFault(samples, modes, fault.value, i);
      FaultIsUnpairable(samples, i, modes);
      return Err(fault.value);
    }
    FullExactly(samples, indexed, modes);
    if exists key :: key in indexed && !Full(indexed[key]) {
      return Err(Unpaired);
    }
    assert AllFull(order, indexed) by {
      assert forall i :: 0 <= i < |order| ==> order[i] in Elements(order);
    }
    PairsSplit(samples, order, indexed, modes);
    result := Ok(PairsOf(order, indexed));
  }

  function Befores(pairs: seq<Pair>): seq<Sample> {
    seq(|pairs|, i requires 0 <= i < |pairs| => pairs[i].before)
  }

  function Afters(pairs: seq<Pair>): seq<Sample> {
    seq(|pairs|, i requires 0 <= i < |pairs| => pairs[i].after)
  }

  lemma BeforeMember(samples: seq<Sample>, pairs: seq<Pair>, modes: Modes, s: Sample)
    requires Splits(samples, pairs, modes) && s in Befores(pairs)
    ensures s in samples && s.mode == modes.Baseline()
  {
    var i :| 0 <= i < |pairs| && Befores(pairs)[i] == s;
    assert PairIn(pairs[i], samples, modes);
  }

  lemma AfterMember(samples: seq<Sample>, pairs: seq<Pair>, modes: Modes, s: Sample)
    requires Splits(samples, pairs, modes) && s in Afters(pairs)
    ensures s in samples && s.mode == modes.Comparison()
  {
    var i :| 0 <= i < |pairs| && Afters(pairs)[i] == s;
    assert PairIn(pairs[i], samples, modes);
  }

  lemma SampleIsMember(samples: seq<Sample>, pairs: seq<Pair>, modes: Modes, s: Sample)
    requires Splits(samples, pairs, modes) && s in samples
    ensures s in Befores(pairs) || s in Afters(pairs)
  {
    var k :| 0 <= k < |samples| && samples[k] == s;
    assert Used(samples[k], pairs);
    var i :| 0 <= i < |pairs| && Uses(pairs[i], s);
    assert Befores(pairs)[i] == pairs[i].before && Afters(pairs)[i] == pairs[i].after;
  }

  lemma DifferentModes(modes: Modes)
    ensures modes.Baseline() != modes.Comparison()
  {
    assert "off"[1] != "on"[1] && "uncontended"[0] != "contended"[0];
  }

  lemma MembersAreDistinct(samples: seq<Sample>, pairs: seq<Pair>, modes: Modes)
    requires Splits(samples, pairs, modes)
    ensures |Elements(samples)| == |samples| && |Elements(Befores(pairs))| == |pairs| && |Elements(Afters(pairs))| == |pairs|
  {
    CountsDistinct(samples);
    forall i | 0 <= i < |pairs| ensures pairs[i].after.pairKey == pairs[i].before.pairKey {
      assert PairIn(pairs[i], samples, modes);
    }
    CountsDistinct(Befores(pairs));
    CountsDistinct(Afters(pairs));
  }

  /** Half of the samples are before, half after. */
  lemma SplitsInHalf(samples: seq<Sample>, pairs: seq<Pair>, modes: Modes)
    requires Splits(samples, pairs, modes)
    ensures |samples| == 2 * |pairs|
  {
    var all, before, after := Elements(samples), Elements(Befores(pairs)), Elements(Afters(pairs));
    MembersAreDistinct(samples, pairs, modes);
    DifferentModes(modes);
    forall s ensures s in all <==> s in before + after {
      if s in all {
        SampleIsMember(samples, pairs, modes, s);
      }
      if s in before {
        BeforeMember(samples, pairs, modes, s);
      }
      if s in after {
        AfterMember(samples, pairs, modes, s);
      }
    }
    forall s | s in before ensures s !in after {
      BeforeMember(samples, pairs, modes, s);
      if s in after {
        AfterMember(samples, pairs, modes, s);
      }
    }
    assert all == before + after;
  }

  // ----------------------------------------------------------------- the decisions

  predicate Timed(s: Sample, metric: Metric) {
    s.timings.Some? && metric in s.timings.value && s.timings.value[metric] > 0.0
  }

  predicate PairTimed(p: Pair, metric: Metric) {
    Timed(p.before, metric) && Timed(p.after, metric)
  }

  /** The change of one pair in percent of its time before. */
  function Change(p: Pair, metric: Metric): real
    requires PairTimed(p, metric)
  {
    (p.after.timings.value[metric] - p.before.timings.value[metric]) / p.before.timings.value[metric] * 100.0
  }

  predicate AllTimed(pairs: seq<Pair>, metric: Metric) {
    forall i :: 0 <= i < |pairs| ==> PairTimed(pairs[i], metric)
  }

  function Changes(pairs: seq<Pair>, metric: Metric): (changes: seq<real>)
    requires AllTimed(pairs, metric)
    ensures |changes| == |pairs| && forall i :: 0 <= i < |pairs| ==> changes[i] == Change(pairs[i], metric)
  {
    seq(|pairs|, i requires 0 <= i < |pairs| => Change(pairs[i], metric))
  }

  /** The first pair without proper times, and what is wrong with the first such sample of it. */
  ghost predicate TimeFault(pairs: seq<Pair>, metric: Metric, error: Error, i: nat) {
    && i < |pairs| && !PairTimed(pairs[i], metric) && (forall j :: 0 <= j < i ==> PairTimed(pairs[j], metric))
    && var s := if Timed(pairs[i].before, metric) then pairs[i].after else pairs[i].before;
      error == if s.timings.None? then MalformedTimings else NotPositive
  }

  method MetricChanges(pairs: seq<Pair>, metric: Metric) returns (result: Result<seq<real>>)
    ensures result.Ok? <==> AllTimed(pairs, metric)
    ensures result.Ok? ==> result.value == Changes(pairs, metric)
    ensures result.Err? ==> exists i :: TimeFault(pairs, metric, result.error, i)
  {
    var changes: seq<real> := [];
    for i := 0 to |pairs|
      invariant |changes| == i && forall j :: 0 <= j < i ==> PairTimed(pairs[j], metric)
      invariant forall j :: 0 <= j < i ==> changes[j] == Change(pairs[j], metric)
    {
      var p := pairs[i];
      if !Timed(p.before, metric) {
        result := Err(if p.before.timings.None? then MalformedTimings else NotPositive);
        assert TimeFault(pairs, metric, result.error, i);
        return;
      }
      if !Timed(p.after, metric) {
        result := Err(if p.after.timings.None? then MalformedTimings else NotPositive);
        assert TimeFault(pairs, metric, result.error, i);
        return;
      }
      changes := changes + [Change(p, metric)];
    }
    result := Ok(changes);
  }

  /** The resampling loop, its draws given. */
  method BootstrapUpper(changes: seq<real>, draws: Draws, metric: Metric, resamples: nat) returns (upper: real)
    requires changes != [] && resamples > 0
    ensures upper == Upper(changes, draws, metric, resamples)
  {
    var bootstrap: seq<real> := [];
    for r := 0 to resamples
      invariant |bootstrap| == r
      invariant forall q :: 0 <= q < r ==> bootstrap[q] == Median(Resample(changes, draws, metric, q))
    {
      bootstrap := bootstrap + [Median(Resample(changes, draws, metric, r))];
    }
    assert bootstrap == Bootstrap(changes, draws, metric, resamples);
    upper := SortReals(bootstrap)[BoundIndex(|bootstrap|)];
  }

  datatype Decision = Decision(median: real, upper: real, passed: bool)

  datatype Report = Report(passed: bool, pairs: nat, metrics: map<Metric, Decision>)

  predicate SameQuery(p: Pair) {
    PairIdentity(p.before).Some? && PairIdentity(p.before) == PairIdentity(p.after)
  }

  predicate AllSameQuery(pairs: seq<Pair>) {
    forall i :: 0 <= i < |pairs| ==> SameQuery(pairs[i])
  }

  ghost predicate Decides(pairs: seq<Pair>, draws: Draws, metric: Metric, resamples: nat, threshold: real, d: Decision) {
    && pairs != [] && resamples > 0 && AllTimed(pairs, metric)
    && d.median == Median(Changes(pairs, metric)) && d.upper == Upper(Changes(pairs, metric), draws, metric, resamples)
    && (d.passed <==> d.upper < threshold)
  }

  /** The first pair that is not of one query, and whether an identity is missing or they differ. */
  ghost predicate QueryFault(pairs: seq<Pair>, error: Error, i: nat) {
    && i < |pairs| && !SameQuery(pairs[i]) && (forall j :: 0 <= j < i ==> SameQuery(pairs[j]))
    && error == if PairIdentity(pairs[i].before).None? || PairIdentity(pairs[i].after).None? then IncompleteIdentity else DifferentQueries
  }

  method CheckQueries(pairs: seq<Pair>) returns (fault: Option<Error>)
    ensures fault.None? <==> AllSameQuery(pairs)
    ensures fault.Some? ==> exists i :: QueryFault(pairs, fault.value, i)
  {
    for i := 0 to |pairs|
      invariant forall j :: 0 <= j < i ==> SameQuery(pairs[j])
    {
      var before, after := PairIdentity(pairs[i].before), PairIdentity(pairs[i].after);
      if before.None? || after.None? {
        assert QueryFault(pairs, IncompleteIdentity, i);
        return Some(IncompleteIdentity);
      }
      if before != after {
        assert QueryFault(pairs, DifferentQueries, i);
        return Some(DifferentQueries);
      }
    }
    fault := None;
  }

  ghost predicate Decided(metrics: map<Metric, Decision>, m: Metric, pairs: seq<Pair>, draws: Draws, resamples: nat, threshold: real) {
    m in metrics && Decides(pairs, draws, m, resamples, threshold, metrics[m])
  }

  /** What a report says about these pairs. */
  ghost predicate Reports(pairs: seq<Pair>, draws: Draws, resamples: nat, threshold: real, report: Report) {
    && report.pairs == |pairs|
    && (forall m :: Decided(report.metrics, m, pairs, draws, resamples, threshold))
    && (report.passed <==> forall m :: m in report.metrics ==> report.metrics[m].passed)
  }

  method DecideMetric(pairs: seq<Pair>, draws: Draws, metric: Metric, resamples: nat, threshold: real)
      returns (result: Result<Decision>)
    requires pairs != [] && resamples > 0
    ensures result.Ok? <==> AllTimed(pairs, metric)
    ensures result.Ok? ==> Decides(pairs, draws, metric, resamples, threshold, result.value)
    ensures result.Err? ==> exists i :: TimeFault(pairs, metric, result.error, i)
  {
    var changes := MetricChanges(pairs, metric);
    if changes.Err? {
      return Err(changes.error);
    }
    var upper := BootstrapUpper(changes.value, draws, metric, resamples);
    result := Ok(Decision(Median(changes.value), upper, upper < threshold));
  }

  method DecideNext(metrics: map<Metric, Decision>, pairs: seq<Pair>, draws: Draws, metric: Metric, resamples: nat, threshold: real)
      returns (result: Result<map<Metric, Decision>>)
    requires pairs != [] && resamples > 0
    ensures result.Ok? <==> AllTimed(pairs, metric)
    ensures result.Err? ==> exists i :: TimeFault(pairs, metric, result.error, i)
    ensures result.Ok? ==> Decided(result.value, metric, pairs, draws, resamples, threshold)
    ensures result.Ok? ==> forall m :: m != metric && Decided(metrics, m, pairs, draws, resamples, threshold) ==>
      Decided(result.value, m, pairs, draws, resamples, threshold)
  {
    var decision := DecideMetric(pairs, draws, metric, resamples, threshold);
    result := if decision.Err? then Err(decision.error) else Ok(metrics[metric := decision.value]);
  }

  /** The metrics are looked at in order. */
  ghost predicate FirstTimeFault(pairs: seq<Pair>, metric: Metric, error: Error, i: nat) {
    TimeFault(pairs, metric, error, i) && forall m :: Position(m) < Position(metric) ==> AllTimed(pairs, m)
  }

  method Decide(pairs: seq<Pair>, draws: Draws, resamples: nat, threshold: real) returns (result: Result<Report>)
    requires pairs != [] && resamples > 0
    ensures result.Ok? <==> forall m :: AllTimed(pairs, m)
    ensures result.Ok? ==> Reports(pairs, draws, resamples, threshold, result.value)
    ensures result.Err? ==> exists m, i :: FirstTimeFault(pairs, m, result.error, i)
  {
    var metrics: map<Metric, Decision> := map[];
    var i := 0;
    while i < 3
      invariant 0 <= i <= 3
      invariant forall m :: Position(m) < i ==> Decided(metrics, m, pairs, draws, resamples, threshold)
    {
      var metric := METRICS[i];
      assert Position(metric) == i && forall m :: Position(m) == i ==> m == metric;
      var next := DecideNext(metrics, pairs, draws, metric, resamples, threshold);
      if next.Err? {
        ghost var k :| TimeFault(pairs, metric, next.error, k);
        assert forall m :: Position(m) < i ==> Decided(metrics, m, pairs, draws, resamples, threshold) && AllTimed(pairs, m);
        assert FirstTimeFault(pairs, metric, next.error, k);
        return Err(next.error);
      }
      metrics := next.value;
      i := i + 1;
    }
    forall m ensures Decided(metrics, m, pairs, draws, resamples, threshold) && AllTimed(pairs, m) {
      assert Position(m) < 3;
    }
    result := Ok(Report(forall m :: m in metrics ==> metrics[m].passed, |pairs|, metrics));
  }

  /** The samples fall into enough pairs of the same queries, and the report is about those pairs. */
  ghost predicate AcceptsAs(samples: seq<Sample>, modes: Modes, minimumPairs: int, resamples: int,
                            draws: Draws, threshold: real, report: Report, pairs: seq<Pair>) {
    && Splits(samples, pairs, modes) && AllSameQuery(pairs) && |pairs| >= minimumPairs > 0 && resamples > 0
    && Reports(pairs, draws, resamples, threshold, report)
  }

  ghost predicate Accepts(samples: seq<Sample>, modes: Modes, minimumPairs: int, resamples: int,
                          draws: Draws, threshold: real, report: Report) {
    exists pairs :: AcceptsAs(samples, modes, minimumPairs, resamples, draws, threshold, report, pairs)
  }

  ghost predicate SplitsWithQueryFault(samples: seq<Sample>, modes: Modes, pairs: seq<Pair>, error: Error) {
    Splits(samples, pairs, modes) && exists i :: QueryFault(pairs, error, i)
  }

  ghost predicate SplitsWithTimeFault(samples: seq<Sample>, modes: Modes, pairs: seq<Pair>, error: Error) {
    Splits(samples, pairs, modes) && AllSameQuery(pairs) && exists m, i :: FirstTimeFault(pairs, m, error, i)
  }

  /** Each refusal has its reason in the input. */
  ghost predicate Refuses(samples: seq<Sample>, modes: Modes, minimumPairs: int, resamples: int, error: Error) {
    match error
    case BadCounts => minimumPairs < 1 || resamples < 1
    case TooFewPairs => Pairable(samples, modes) && |samples| < 2 * minimumPairs
    case IncompleteIdentity => exists pairs :: SplitsWithQueryFault(samples, modes, pairs, IncompleteIdentity)
    case DifferentQueries => exists pairs :: SplitsWithQueryFault(samples, modes, pairs, DifferentQueries)
    case MalformedTimings => exists pairs :: SplitsWithTimeFault(samples, modes, pairs, MalformedTimings)
    case NotPositive => exists pairs :: SplitsWithTimeFault(samples, modes, pairs, NotPositive)
    case _ => PairingError(samples, modes, error)
  }

  method PairedLatencyGate(samples: seq<Sample>, modes: Modes, minimumPairs: int, resamples: int,
                           draws: Draws, threshold: real) returns (result: Result<Report>)
    ensures result.Ok? ==> Accepts(samples, modes, minimumPairs, resamples, draws, threshold, result.value)
    ensures result.Err? ==> Refuses(samples, modes, minimumPairs, resamples, result.error)
  {
    if minimumPairs < 1 || resamples < 1 {
      return Err(BadCounts);
    }
    var paired := Pairs(samples, modes);
    if paired.Err? {
      return Err(paired.error);
    }
    var pairs := paired.value;
    if |pairs| < minimumPairs {
      SplitsInHalf(samples, pairs, modes);
      return Err(TooFewPairs);
    }
    var fault := CheckQueries(pairs);
    if fault.Some? {
      assert SplitsWithQueryFault(samples, modes, pairs, fault.value);
      return Err(fault.value);
    }
    result := Decide(pairs, draws, resamples, threshold);
    assert result.Ok? ==> AcceptsAs(samples, modes, minimumPairs, resamples, draws, threshold, result.value, pairs);
    assert result.Err? ==> SplitsWithTimeFault(samples, modes, pairs, result.error);
  }

  /** Changes under the threshold in every pair. */
  ghost predicate AllUnder(pairs: seq<Pair>, m: Metric, threshold: real) {
    AllTimed(pairs, m) && forall i :: 0 <= i < |pairs| ==> Change(pairs[i], m) < threshold
  }

  ghost predicate NoneUnder(pairs: seq<Pair>, m: Metric, threshold: real) {
    AllTimed(pairs, m) && forall i :: 0 <= i < |pairs| ==> threshold <= Change(pairs[i], m)
  }

  /** The gate is sound for every sequence of draws: all changes under the threshold force a pass,
      and one metric with all changes at or over it forces a failure. */
  lemma GateIsSound(pairs: seq<Pair>, draws: Draws, resamples: nat, threshold: real, report: Report)
    requires Reports(pairs, draws, resamples, threshold, report)
    ensures (forall m :: AllUnder(pairs, m, threshold)) ==> report.passed
    ensures (exists m :: NoneUnder(pairs, m, threshold)) ==> !report.passed
  {
    forall m ensures m in report.metrics && AllTimed(pairs, m) && pairs != [] && resamples > 0 {
      assert Decided(report.metrics, m, pairs, draws, resamples, threshold);
    }
    forall m
      ensures AllUnder(pairs, m, threshold) ==> report.metrics[m].passed
      ensures NoneUnder(pairs, m, threshold) ==> !report.metrics[m].passed
    {
      assert Decided(report.metrics, m, pairs, draws, resamples, threshold);
      DrawsCannotDecide(Changes(pairs, m), draws, m, resamples, threshold);
    }
  }
}
