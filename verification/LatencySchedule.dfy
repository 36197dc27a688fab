/** `validate_latency_schedule` for the OFF/ON runs: four fresh runtimes, OFF ON ON OFF, three
    warmups each, and the same ordered queries in every block. */
module LatencySchedule {
  import opened Ordering
  import opened LatencyGate
  import P = LatencyPairing
  import Text

  /** A sample with its provenance; `genuine` stands for the per-request evidence checks, and None
      for a missing or mistyped field. */
  datatype Live = Live(
    sample: Sample, configuration: Option<string>, requestId: string, evidenceEnabled: Option<bool>,
    runtimeId: string, workerId: string, block: Option<int>, index: Option<int>, warmup: Option<bool>,
    genuine: bool)

  const WARMUPS := 3

  function ModeOf(block: nat): string {
    if block == 0 || block == 3 then "off" else "on"
  }

  predicate SampleOk(s: Live) {
    && s.configuration.Some? && s.evidenceEnabled == Some(s.sample.mode != "off")
    && s.runtimeId != "" && s.workerId != ""
    && s.block.Some? && 0 <= s.block.value < 4 && s.sample.mode == ModeOf(s.block.value) && s.genuine
  }

  /** `blocks[block]`: the samples of one block, in order. */
  function Group(samples: seq<Live>, block: int): seq<Live> {
    if samples == [] then []
    else
      var last := samples[|samples| - 1];
      Group(samples[..|samples| - 1], block) + if last.block == Some(block) then [last] else []
  }

  ghost predicate Fresh(samples: seq<Live>) {
    forall i, j :: 0 <= i < j < |samples| ==> samples[i].requestId != samples[j].requestId
  }

  ghost predicate OneConfiguration(samples: seq<Live>) {
    forall i :: 0 <= i < |samples| ==> samples[i].configuration == samples[0].configuration
  }

  predicate InOrder(samples: seq<Live>) {
    forall i :: 0 <= i < |samples| - 1 ==> BlockOf(samples[i]) <= BlockOf(samples[i + 1])
  }

  function BlockOf(s: Live): int {
    if s.block.Some? then s.block.value else 0
  }

  predicate PlaceOk(group: seq<Live>, i: nat)
    requires i < |group|
  {
    group[i].runtimeId == group[0].runtimeId && group[i].index == Some(i) && group[i].warmup == Some(i < WARMUPS)
  }

  predicate GroupOk(group: seq<Live>) {
    |group| > WARMUPS && forall i :: 0 <= i < |group| ==> PlaceOk(group, i)
  }

  function Measured(group: seq<Live>): seq<Live> {
    if |group| < WARMUPS then [] else group[WARMUPS..]
  }

  function Blocks(samples: seq<Live>): (blocks: seq<seq<Live>>)
    ensures |blocks| == 4
  {
    [Group(samples, 0), Group(samples, 1), Group(samples, 2), Group(samples, 3)]
  }

  function SelectedOf(blocks: seq<seq<Live>>): seq<Live>
    requires |blocks| == 4
  {
    Measured(blocks[0]) + Measured(blocks[1]) + Measured(blocks[2]) + Measured(blocks[3])
  }

  predicate Asked(s: Live) {
    s.sample.pairKey != "" && s.sample.question.Some? && !Text.Blank(s.sample.question.value)
  }

  predicate Agree(a: Live, b: Live) {
    a.sample.pairKey == b.sample.pairKey ==> a.sample.question == b.sample.question
  }

  predicate QuestionsOk(selected: seq<Live>) {
    && (forall i :: 0 <= i < |selected| ==> Asked(selected[i]))
    && (forall i, j :: 0 <= i < j < |selected| ==> Agree(selected[i], selected[j]))
  }

  predicate SameSchedule(a: seq<Live>, b: seq<Live>) {
    |a| == |b| && forall i :: 0 <= i < |a| ==> SameIdentity(a[i], b[i])
  }

  predicate SameIdentity(a: Live, b: Live) {
    PairIdentity(a.sample).Some? && PairIdentity(a.sample) == PairIdentity(b.sample)
  }

  predicate Distinct4(a: string, b: string, c: string, d: string) {
    a != b && a != c && a != d && b != c && b != d && c != d
  }

  ghost predicate BlocksOk(blocks: seq<seq<Live>>)
    requires |blocks| == 4
  {
    && (forall b :: 0 <= b < 4 ==> GroupOk(blocks[b]))
    && Distinct4(blocks[0][0].runtimeId, blocks[1][0].runtimeId, blocks[2][0].runtimeId, blocks[3][0].runtimeId)
    && QuestionsOk(SelectedOf(blocks))
    && (forall b :: 1 <= b < 4 ==> SameSchedule(Measured(blocks[0]), Measured(blocks[b])))
  }

  ghost predicate ScheduleOk(samples: seq<Live>) {
    && samples != [] && (forall i :: 0 <= i < |samples| ==> SampleOk(samples[i]))
    && Fresh(samples) && OneConfiguration(samples) && InOrder(samples) && BlocksOk(Blocks(samples))
  }

  // ----------------------------------------------------------------- the checks

  function Ids(samples: seq<Live>): set<string> {
    if samples == [] then {} else Ids(samples[..|samples| - 1]) + {samples[|samples| - 1].requestId}
  }

  function Configurations(samples: seq<Live>): set<Option<string>> {
    if samples == [] then {} else Configurations(samples[..|samples| - 1]) + {samples[|samples| - 1].configuration}
  }

  lemma {:induction false} IdsExactly(samples: seq<Live>, x: string)
    ensures x in Ids(samples) <==> exists j :: 0 <= j < |samples| && samples[j].requestId == x
  {
    if samples != [] {
      IdsExactly(samples[..|samples| - 1], x);
    }
  }

  lemma {:induction false} ConfigurationsExactly(samples: seq<Live>, x: Option<string>)
    ensures x in Configurations(samples) <==> exists j :: 0 <= j < |samples| && samples[j].configuration == x
  {
    if samples != [] {
      ConfigurationsExactly(samples[..|samples| - 1], x);
    }
  }

  lemma OneConfigurationExactly(samples: seq<Live>)
    requires samples != []
    ensures |Configurations(samples)| == 1 <==> OneConfiguration(samples)
  {
    var first := samples[0].configuration;
    ConfigurationsExactly(samples, first);
    if OneConfiguration(samples) {
      forall x | x in Configurations(samples) ensures x == first {
        ConfigurationsExactly(samples, x);
      }
      assert Configurations(samples) == {first};
    }
    if |Configurations(samples)| == 1 {
      var rest := Configurations(samples) - {first};
      assert Configurations(samples) == rest + {first};
      assert |rest| == 0;
      forall i | 0 <= i < |samples| ensures samples[i].configuration == first {
        ConfigurationsExactly(samples, samples[i].configuration);
      }
    }
  }

  /** The loop over the samples: None once a sample is refused. */
  datatype Reading = Reading(seen: set<string>, configurations: set<Option<string>>, blocks: seq<seq<Live>>)

  ghost predicate Read(done: seq<Live>, r: Reading) {
    && r.seen == Ids(done) && r.configurations == Configurations(done)
    && |r.blocks| == 4 && forall b :: 0 <= b < 4 ==> r.blocks[b] == Group(done, b)
  }

  method ReadSamples(samples: seq<Live>) returns (reading: Option<Reading>)
    ensures reading.Some? <==> (forall i :: 0 <= i < |samples| ==> SampleOk(samples[i])) && Fresh(samples)
    ensures reading.Some? ==> Read(samples, reading.value)
  {
    var r := Reading({}, {}, [[], [], [], []]);
    var i := 0;
    while i < |samples|
      invariant 0 <= i <= |samples| && Read(samples[..i], r)
      invariant forall j :: 0 <= j < i ==> SampleOk(samples[j])
      invariant Fresh(samples[..i])
    {
      var s := samples[i];
      if !SampleOk(s) {
        return None;
      }
      IdsExactly(samples[..i], s.requestId);
      if s.requestId in r.seen {
        assert exists j :: 0 <= j < i && samples[j].requestId == samples[i].requestId;
        return None;
      }
      assert samples[..i + 1] == samples[..i] + [s];
      ReadOn(samples[..i], s, r);
      r := Reading(r.seen + {s.requestId}, r.configurations + {s.configuration},
                   r.blocks[s.block.value := r.blocks[s.block.value] + [s]]);
      i := i + 1;
    }
    assert samples[..i] == samples;
    reading := Some(r);
  }

  lemma ReadOn(done: seq<Live>, s: Live, r: Reading)
    requires Read(done, r) && SampleOk(s)
    ensures Read(done + [s], Reading(r.seen + {s.requestId}, r.configurations + {s.configuration},
                                     r.blocks[s.block.value := r.blocks[s.block.value] + [s]]))
  {
    assert (done + [s])[..|done|] == done;
    var blocks := r.blocks[s.block.value := r.blocks[s.block.value] + [s]];
    forall b | 0 <= b < 4 ensures blocks[b] == Group(done + [s], b) {
      GroupSnoc(done, s, b);
    }
  }

  method CheckGroup(group: seq<Live>) returns (ok: bool)
    ensures ok <==> GroupOk(group)
  {
    if |group| <= WARMUPS {
      return false;
    }
    for i := 0 to |group|
      invariant forall j :: 0 <= j < i ==> PlaceOk(group, j)
    {
      if group[i].runtimeId != group[0].runtimeId || group[i].index != Some(i) || group[i].warmup != Some(i < WARMUPS) {
        assert !PlaceOk(group, i);
        return false;
      }
    }
    ok := true;
  }

  predicate Remembered(questions: map<string, Option<string>>, s: Live) {
    s.sample.pairKey in questions && questions[s.sample.pairKey] == s.sample.question
  }

  method CheckQuestions(selected: seq<Live>) returns (ok: bool)
    ensures ok <==> QuestionsOk(selected)
  {
    var questions: map<string, Option<string>> := map[];
    for i := 0 to |selected|
      invariant QuestionsOk(selected[..i])
      invariant forall k :: k in questions ==> exists j :: 0 <= j < i && selected[j].sample.pairKey == k
      invariant forall j :: 0 <= j < i ==> Remembered(questions, selected[j])
    {
      var s := selected[i];
      assert selected[..i + 1] == selected[..i] + [s];
      if !Asked(s) {
        assert !Asked(selected[i]);
        return false;
      }
      if s.sample.pairKey in questions && questions[s.sample.pairKey] != s.sample.question {
        var j :| 0 <= j < i && selected[j].sample.pairKey == s.sample.pairKey;
        assert !Agree(selected[j], selected[i]);
        return false;
      }
      questions := questions[s.sample.pairKey := s.sample.question];
    }
    assert selected[..|selected|] == selected;
    ok := true;
  }

  method CheckSchedules(a: seq<Live>, b: seq<Live>) returns (ok: bool)
    ensures ok <==> SameSchedule(a, b)
  {
    if |a| != |b| {
      return false;
    }
    for i := 0 to |a|
      invariant forall j :: 0 <= j < i ==> SameIdentity(a[j], b[j])
    {
      if PairIdentity(a[i].sample).None? || PairIdentity(a[i].sample) != PairIdentity(b[i].sample) {
        assert !SameIdentity(a[i], b[i]);
        return false;
      }
    }
    ok := true;
  }

  method CheckOrder(samples: seq<Live>) returns (ok: bool)
    ensures ok <==> InOrder(samples)
  {
    for i := 0 to |samples|
      invariant forall j :: 0 <= j < i && j < |samples| - 1 ==> BlockOf(samples[j]) <= BlockOf(samples[j + 1])
    {
      if i + 1 < |samples| && BlockOf(samples[i]) > BlockOf(samples[i + 1]) {
        return false;
      }
    }
    ok := true;
  }

  method CheckBlocks(blocks: seq<seq<Live>>) returns (ok: bool)
    requires |blocks| == 4
    ensures ok <==> BlocksOk(blocks)
  {
    var groups := CheckGroups(blocks);
    if !groups {
      return false;
    }
    if !Distinct4(blocks[0][0].runtimeId, blocks[1][0].runtimeId, blocks[2][0].runtimeId, blocks[3][0].runtimeId) {
      return false;
    }
    var questions := CheckQuestions(SelectedOf(blocks));
    if !questions {
      return false;
    }
    ok := CheckRepeats(blocks);
  }

  method CheckGroups(blocks: seq<seq<Live>>) returns (ok: bool)
    ensures ok <==> forall b :: 0 <= b < |blocks| ==> GroupOk(blocks[b])
  {
    for b := 0 to |blocks|
      invariant forall c :: 0 <= c < b ==> GroupOk(blocks[c])
    {
      var fine := CheckGroup(blocks[b]);
      if !fine {
        return false;
      }
    }
    ok := true;
  }

  method CheckRepeats(blocks: seq<seq<Live>>) returns (ok: bool)
    requires |blocks| == 4
    ensures ok <==> forall b :: 1 <= b < 4 ==> SameSchedule(Measured(blocks[0]), Measured(blocks[b]))
  {
    for b := 1 to 4
      invariant forall c :: 1 <= c < b ==> SameSchedule(Measured(blocks[0]), Measured(blocks[c]))
    {
      var same := CheckSchedules(Measured(blocks[0]), Measured(blocks[b]));
      if !same {
        return false;
      }
    }
    ok := true;
  }

  method ValidateLatencySchedule(samples: seq<Live>) returns (selected: Option<seq<Live>>)
    ensures selected.Some? <==> ScheduleOk(samples)
    ensures selected.Some? ==> selected.value == SelectedOf(Blocks(samples))
  {
    if samples == [] {
      return None;
    }
    var reading := ReadSamples(samples);
    if reading.None? {
      return None;
    }
    OneConfigurationExactly(samples);
    if |reading.value.configurations| != 1 {
      return None;
    }
    var ordered := CheckOrder(samples);
    if !ordered {
      return None;
    }
    assert reading.value.blocks == Blocks(samples);
    var fine := CheckBlocks(reading.value.blocks);
    selected := if fine then Some(SelectedOf(reading.value.blocks)) else None;
  }

  // ----------------------------------------------------------------- what is accepted

  lemma {:induction false} GroupHolds(samples: seq<Live>, b: int)
    ensures forall s :: s in Group(samples, b) ==> s in samples && s.block == Some(b)
  {
    if samples != [] {
      GroupHolds(samples[..|samples| - 1], b);
    }
  }

  function With(group: seq<Live>, last: Live, b: int): seq<Live> {
    group + if last.block == Some(b) then [last] else []
  }

  lemma GroupSnoc(front: seq<Live>, last: Live, b: int)
    ensures Group(front + [last], b) == With(Group(front, b), last, b)
  {
    assert (front + [last])[..|front|] == front;
  }

  lemma RowSnoc(a: seq<Live>, b: seq<Live>, c: seq<Live>, d: seq<Live>, last: Live)
    requires last.block.Some? && 0 <= last.block.value < 4
    requires last.block.value < 3 ==> d == []
    requires last.block.value < 2 ==> c == []
    requires last.block.value < 1 ==> b == []
    ensures a + b + c + d + [last] == With(a, last, 0) + With(b, last, 1) + With(c, last, 2) + With(d, last, 3)
  {
  }

  lemma OrderOfFront(samples: seq<Live>, n: nat)
    requires InOrder(samples) && n <= |samples|
    ensures InOrder(samples[..n])
  {
    forall i | 0 <= i < n - 1 ensures BlockOf(samples[..n][i]) <= BlockOf(samples[..n][i + 1]) {
      assert BlockOf(samples[i]) <= BlockOf(samples[i + 1]);
    }
  }

  /** Samples in block order are the four blocks one after the other. */
  lemma {:induction false} BlocksInARow(samples: seq<Live>)
    requires InOrder(samples) && forall i :: 0 <= i < |samples| ==> SampleOk(samples[i])
    ensures samples == Group(samples, 0) + Group(samples, 1) + Group(samples, 2) + Group(samples, 3)
  {
    if samples != [] {
      var n := |samples| - 1;
      var front, last := samples[..n], samples[n];
      assert samples == front + [last];
      OrderOfFront(samples, n);
      BlocksInARow(front);
      LaterEmpty(samples, 1);
      LaterEmpty(samples, 2);
      LaterEmpty(samples, 3);
      RowSnoc(Group(front, 0), Group(front, 1), Group(front, 2), Group(front, 3), last);
      GroupSnoc(front, last, 0);
      GroupSnoc(front, last, 1);
      GroupSnoc(front, last, 2);
      GroupSnoc(front, last, 3);
    }
  }

  lemma LaterEmpty(samples: seq<Live>, b: int)
    requires samples != [] && InOrder(samples) && forall i :: 0 <= i < |samples| ==> SampleOk(samples[i])
    ensures BlockOf(samples[|samples| - 1]) < b ==> Group(samples[..|samples| - 1], b) == []
  {
    if BlockOf(samples[|samples| - 1]) < b {
      LaterGroupEmpty(samples, |samples| - 1, b);
    }
  }

  lemma {:induction false} LaterGroupEmpty(samples: seq<Live>, k: nat, b: int)
    requires InOrder(samples) && (forall i :: 0 <= i < |samples| ==> SampleOk(samples[i]))
    requires k < |samples| && BlockOf(samples[k]) < b
    ensures Group(samples[..k], b) == []
    decreases k
  {
    if k > 0 {
      assert BlockOf(samples[k - 1]) <= BlockOf(samples[k]);
      LaterGroupEmpty(samples, k - 1, b);
      assert samples[..k][..k - 1] == samples[..k - 1];
    }
  }

  lemma BlockPlace(samples: seq<Live>, b: int, i: nat)
    requires ScheduleOk(samples) && 0 <= b < 4 && i < |Blocks(samples)[b]|
    ensures var g := Blocks(samples)[b];
      && g[i].sample.mode == (if b == 1 || b == 2 then "on" else "off") && g[i].evidenceEnabled == Some(b == 1 || b == 2)
      && g[i].warmup == Some(i < 3) && g[i].index == Some(i) && g[i].block == Some(b)
      && g[i].runtimeId == g[0].runtimeId != "" && g[i].workerId != ""
  {
    var g := Blocks(samples)[b];
    assert g == Group(samples, b);
    GroupHolds(samples, b);
    assert g[i] in g;
    var k :| 0 <= k < |samples| && samples[k] == g[i];
    assert SampleOk(samples[k]) && GroupOk(g);
    assert PlaceOk(g, i);
  }

  lemma BlockSizes(blocks: seq<seq<Live>>)
    requires |blocks| == 4 && BlocksOk(blocks)
    ensures forall b :: 0 <= b < 4 ==> |blocks[b]| == WARMUPS + |Measured(blocks[0])|
    ensures |SelectedOf(blocks)| == 4 * |Measured(blocks[0])| > 0
  {
    assert GroupOk(blocks[0]) && GroupOk(blocks[1]) && GroupOk(blocks[2]) && GroupOk(blocks[3]);
    assert SameSchedule(Measured(blocks[0]), Measured(blocks[1]));
    assert SameSchedule(Measured(blocks[0]), Measured(blocks[2]));
    assert SameSchedule(Measured(blocks[0]), Measured(blocks[3]));
  }

  lemma SameQueries(blocks: seq<seq<Live>>, b: int, i: nat)
    requires |blocks| == 4 && BlocksOk(blocks) && 0 <= b < 4 && i < |Measured(blocks[0])|
    ensures i < |Measured(blocks[b])|
    ensures PairIdentity(Measured(blocks[0])[i].sample) == PairIdentity(Measured(blocks[b])[i].sample)
  {
    if b > 0 {
      assert SameSchedule(Measured(blocks[0]), Measured(blocks[b]));
      assert SameIdentity(Measured(blocks[0])[i], Measured(blocks[b])[i]);
    }
  }

  /** An accepted run is four contiguous blocks OFF ON ON OFF from four different runtimes, each
      with three warmups and then the same queries in the same order; the selected samples are the
      measured ones of the four blocks, in order. */
  lemma AcceptedRuns(samples: seq<Live>, b: int, i: nat)
    requires ScheduleOk(samples) && 0 <= b < 4 && i < |Measured(Blocks(samples)[0])|
    ensures var g := Blocks(samples);
      && samples == g[0] + g[1] + g[2] + g[3]
      && Distinct4(g[0][0].runtimeId, g[1][0].runtimeId, g[2][0].runtimeId, g[3][0].runtimeId)
      && |g[b]| == 3 + |Measured(g[0])| && |SelectedOf(g)| == 4 * |Measured(g[0])|
      && (forall w :: 0 <= w < 3 ==> g[b][w].warmup == Some(true) && g[b][w].sample.mode == g[b][3].sample.mode)
    ensures var g, m := Blocks(samples)[b], Measured(Blocks(samples)[b])[i];
      && m == g[3 + i] && m.warmup == Some(false) && m.runtimeId == g[0].runtimeId
      && m.sample.mode == (if b == 1 || b == 2 then "on" else "off") && m.evidenceEnabled == Some(b == 1 || b == 2)
      && PairIdentity(m.sample) == PairIdentity(Measured(Blocks(samples)[0])[i].sample)
  {
    BlocksInARow(samples);
    BlockSizes(Blocks(samples));
    SameQueries(Blocks(samples), b, i);
    BlockPlace(samples, b, WARMUPS + i);
    forall w | 0 <= w <= 3
      ensures Blocks(samples)[b][w].warmup == Some(w < 3) && Blocks(samples)[b][w].sample.mode == (if b == 1 || b == 2 then "on" else "off")
    {
      BlockPlace(samples, b, w);
    }
  }

  /** Schedule and gate together: when both accept, the gate decided over as many pairs as two blocks
      hold, each pair one OFF and one ON sample of the same query, none dropped and none used twice. */
  lemma MeasuredSamplesPair(samples: seq<Live>, measured: seq<Sample>, minimumPairs: int, resamples: int,
                            draws: Draws, threshold: real, report: P.Report) returns (pairs: seq<Pair>)
    requires ScheduleOk(samples) && |measured| == |SelectedOf(Blocks(samples))|
    requires forall k :: 0 <= k < |measured| ==> measured[k] == SelectedOf(Blocks(samples))[k].sample
    requires P.Accepts(measured, OffOn, minimumPairs, resamples, draws, threshold, report)
    ensures P.AcceptsAs(measured, OffOn, minimumPairs, resamples, draws, threshold, report, pairs)
    ensures |pairs| == 2 * |Measured(Blocks(samples)[0])|
  {
    pairs :| P.AcceptsAs(measured, OffOn, minimumPairs, resamples, draws, threshold, report, pairs);
    BlockSizes(Blocks(samples));
    P.SplitsInHalf(measured, pairs, OffOn);
  }
}
