/** Which runs `validate_latency_schedule` accepts, said of the samples in their places alone. */
module LatencyRuns {
  import opened Ordering
  import opened LatencyGate
  import opened LatencySchedule
  import opened Sequences
  import Text

  /** The i-th sample of a block: OFF ON ON OFF, three warmups, one runtime for the block. */
  predicate Placed(s: Live, b: int, i: int, runtime: string) {
    && s.block == Some(b) && s.index == Some(i) && s.warmup == Some(i < 3)
    && s.sample.mode == (if b == 1 || b == 2 then "on" else "off") && s.evidenceEnabled == Some(b == 1 || b == 2)
    && s.runtimeId == runtime != "" && s.workerId != "" && s.configuration.Some? && s.genuine
  }

  ghost predicate PlacedBlock(block: seq<Live>, b: int) {
    |block| > 3 && forall i :: 0 <= i < |block| ==> Placed(block[i], b, i, block[0].runtimeId)
  }

  /** A complete query: some character of the question is no white space, the identity has the
      length of a digest and the three positions are there. */
  ghost predicate Queried(s: Sample) {
    && s.pairKey != "" && s.question.Some? && (exists i :: 0 <= i < |s.question.value| && !Text.PythonSpace(s.question.value[i]))
    && s.queryIdentity.Some? && |s.queryIdentity.value| == 64
    && s.sourceIndex.Some? && s.sourceIndex.value >= 0 && s.scheduleIndex.Some? && s.scheduleIndex.value >= 0
    && s.repetition.Some? && s.repetition.value >= 0
  }

  predicate SameQuery(a: Sample, b: Sample) {
    && a.question == b.question && a.queryIdentity == b.queryIdentity
    && a.sourceIndex == b.sourceIndex && a.scheduleIndex == b.scheduleIndex && a.repetition == b.repetition
  }

  /** The block's measured samples repeat those of the first block. */
  ghost predicate Repeats(first: seq<Live>, block: seq<Live>) {
    && |block| == |first|
    && forall i :: 3 <= i < |block| ==> Queried(block[i].sample) && SameQuery(first[i].sample, block[i].sample)
  }

  ghost predicate OneQuestionPerKey(blocks: seq<seq<Live>>) {
    forall b, c, i, j :: 0 <= b < |blocks| && 0 <= c < |blocks| && 3 <= i < |blocks[b]| && 3 <= j < |blocks[c]| ==>
      blocks[b][i].sample.pairKey == blocks[c][j].sample.pairKey ==> blocks[b][i].sample.question == blocks[c][j].sample.question
  }

  ghost predicate LaidOut(blocks: seq<seq<Live>>) {
    && |blocks| == 4 && (forall b :: 0 <= b < 4 ==> PlacedBlock(blocks[b], b) && Repeats(blocks[0], blocks[b]))
    && (forall b, c :: 0 <= b < c < 4 ==> blocks[b][0].runtimeId != blocks[c][0].runtimeId)
    && OneQuestionPerKey(blocks)
  }

  function InARow(blocks: seq<seq<Live>>): seq<Live>
    requires |blocks| == 4
  {
    blocks[0] + blocks[1] + blocks[2] + blocks[3]
  }

  // ----------------------------------------------------------------- the blocks of a run

  lemma {:induction false} GroupAppend(a: seq<Live>, c: seq<Live>, b: int)
    ensures Group(a + c, b) == Group(a, b) + Group(c, b)
    decreases |c|
  {
    if c == [] {
      assert a + c == a;
    } else {
      var front, last := c[..|c| - 1], c[|c| - 1];
      GroupAppend(a, front, b);
      Associates(a, front, [last]);
      assert c == front + [last];
      GroupSnoc(a + front, last, b);
      GroupSnoc(front, last, b);
      Associates(Group(a, b), Group(front, b), if last.block == Some(b) then [last] else []);
    }
  }

  lemma {:induction false} GroupOfOne(block: seq<Live>, own: int, b: int)
    requires forall i :: 0 <= i < |block| ==> block[i].block == Some(own)
    ensures Group(block, b) == if b == own then block else []
    decreases |block|
  {
    if block != [] {
      var front, last := block[..|block| - 1], block[|block| - 1];
      assert block == front + [last];
      GroupOfOne(front, own, b);
      GroupSnoc(front, last, b);
    }
  }

  lemma GroupOfFour(a: seq<Live>, b: seq<Live>, c: seq<Live>, d: seq<Live>, n: int)
    ensures Group(a + b + c + d, n) == Group(a, n) + Group(b, n) + Group(c, n) + Group(d, n)
  {
    GroupAppend(a + b + c, d, n);
    GroupAppend(a + b, c, n);
    GroupAppend(a, b, n);
  }

  lemma GroupOfBlock(block: seq<Live>, own: int, b: int)
    requires PlacedBlock(block, own)
    ensures Group(block, b) == if b == own then block else []
  {
    forall i | 0 <= i < |block| ensures block[i].block == Some(own) {
      assert Placed(block[i], own, i, block[0].runtimeId);
    }
    GroupOfOne(block, own, b);
  }

  lemma OneOfFour(a: seq<Live>)
    ensures a + [] + [] + [] == a && [] + a + [] + [] == a && [] + [] + a + [] == a && [] + [] + [] + a == a
  {
  }

  /** A run is cut into blocks in one way only. */
  lemma GroupIsBlock(blocks: seq<seq<Live>>, b: int)
    requires |blocks| == 4 && 0 <= b < 4 && forall c :: 0 <= c < 4 ==> PlacedBlock(blocks[c], c)
    ensures Group(InARow(blocks), b) == blocks[b]
  {
    GroupOfFour(blocks[0], blocks[1], blocks[2], blocks[3], b);
    GroupOfBlock(blocks[0], 0, b);
    GroupOfBlock(blocks[1], 1, b);
    GroupOfBlock(blocks[2], 2, b);
    GroupOfBlock(blocks[3], 3, b);
    OneOfFour(blocks[b]);
  }

  // ----------------------------------------------------------------- what each check means

  lemma IdentityMeans(a: Sample, b: Sample)
    ensures PairIdentity(a).Some? && a.pairKey != "" <==> Queried(a)
    ensures Queried(a) && Queried(b) ==> (PairIdentity(a) == PairIdentity(b) <==> SameQuery(a, b))
  {
    if a.question.Some? {
      Text.BlankExactly(a.question.value);
    }
    if b.question.Some? {
      Text.BlankExactly(b.question.value);
    }
  }

  lemma PlacedMeans(block: seq<Live>, b: int)
    requires 0 <= b < 4
    ensures PlacedBlock(block, b) <==>
      GroupOk(block) && forall i :: 0 <= i < |block| ==> SampleOk(block[i]) && block[i].block == Some(b)
  {
    if PlacedBlock(block, b) {
      forall i | 0 <= i < |block| ensures SampleOk(block[i]) && block[i].block == Some(b) && PlaceOk(block, i) {
        assert Placed(block[i], b, i, block[0].runtimeId);
      }
    }
    if GroupOk(block) && forall i :: 0 <= i < |block| ==> SampleOk(block[i]) && block[i].block == Some(b) {
      forall i | 0 <= i < |block| ensures Placed(block[i], b, i, block[0].runtimeId) {
        assert PlaceOk(block, i) && SampleOk(block[i]);
      }
    }
  }

  lemma RepeatsMeans(first: seq<Live>, block: seq<Live>)
    requires |first| > 3 && |block| > 3
    requires forall i :: 3 <= i < |first| ==> first[i].sample.pairKey != ""
    requires forall i :: 3 <= i < |block| ==> block[i].sample.pairKey != ""
    ensures SameSchedule(Measured(first), Measured(block)) <==> Repeats(first, block) && forall i :: 3 <= i < |block| ==> Queried(first[i].sample)
  {
    var m, n := Measured(first), Measured(block);
    assert forall i :: 0 <= i < |m| ==> m[i] == first[3 + i];
    assert forall i :: 0 <= i < |n| ==> n[i] == block[3 + i];
    if SameSchedule(m, n) {
      forall i | 3 <= i < |block|
        ensures Queried(first[i].sample) && Queried(block[i].sample) && SameQuery(first[i].sample, block[i].sample)
      {
        assert SameIdentity(m[i - 3], n[i - 3]);
        IdentityMeans(first[i].sample, block[i].sample);
        IdentityMeans(block[i].sample, first[i].sample);
      }
    }
    if Repeats(first, block) && forall i :: 3 <= i < |block| ==> Queried(first[i].sample) {
      forall i | 0 <= i < |m| ensures SameIdentity(m[i], n[i]) {
        IdentityMeans(first[3 + i].sample, block[3 + i].sample);
      }
    }
  }

  lemma SelectedHolds(blocks: seq<seq<Live>>, s: Live)
    requires |blocks| == 4
    ensures s in SelectedOf(blocks) <==> exists b, i :: 0 <= b < 4 && 3 <= i < |blocks[b]| && blocks[b][i] == s
  {
    forall b | 0 <= b < 4 ensures s in Measured(blocks[b]) <==> exists i :: 3 <= i < |blocks[b]| && blocks[b][i] == s {
      MeasuredHolds(blocks[b], s);
    }
    assert s in SelectedOf(blocks) <==>
      s in Measured(blocks[0]) || s in Measured(blocks[1]) || s in Measured(blocks[2]) || s in Measured(blocks[3]);
  }

  lemma MeasuredHolds(block: seq<Live>, s: Live)
    ensures s in Measured(block) <==> exists i :: 3 <= i < |block| && block[i] == s
  {
    if |block| >= 3 {
      assert forall i :: 3 <= i < |block| ==> block[i] == Measured(block)[i - 3];
    }
  }

  lemma AgreeMeans(selected: seq<Live>)
    ensures (forall i, j :: 0 <= i < j < |selected| ==> Agree(selected[i], selected[j]))
      <==> forall x, y :: x in selected && y in selected ==> Agree(x, y)
  {
  }

  lemma QuestionsMean(blocks: seq<seq<Live>>)
    requires |blocks| == 4
    ensures QuestionsOk(SelectedOf(blocks)) <==>
      OneQuestionPerKey(blocks) && forall b, i :: 0 <= b < 4 && 3 <= i < |blocks[b]| ==> Asked(blocks[b][i])
  {
    var selected := SelectedOf(blocks);
    AgreeMeans(selected);
    if QuestionsOk(selected) {
      forall b, i | 0 <= b < 4 && 3 <= i < |blocks[b]| ensures blocks[b][i] in selected {
        SelectedHolds(blocks, blocks[b][i]);
      }
      forall b, c, i, j | 0 <= b < 4 && 0 <= c < 4 && 3 <= i < |blocks[b]| && 3 <= j < |blocks[c]|
        ensures Agree(blocks[b][i], blocks[c][j])
      {
        assert blocks[b][i] in selected && blocks[c][j] in selected;
      }
    }
    if OneQuestionPerKey(blocks) && forall b, i :: 0 <= b < 4 && 3 <= i < |blocks[b]| ==> Asked(blocks[b][i]) {
      forall x | x in selected ensures Asked(x) {
        SelectedHolds(blocks, x);
      }
      forall x, y | x in selected && y in selected ensures Agree(x, y) {
        SelectedHolds(blocks, x);
        SelectedHolds(blocks, y);
      }
    }
  }

  lemma QueriedAsks(s: Live)
    requires Queried(s.sample)
    ensures Asked(s)
  {
    Text.BlankExactly(s.sample.question.value);
  }

  /** The blocks repeat each other, by the checks and in their places. */
  lemma RepeatsAll(blocks: seq<seq<Live>>)
    requires |blocks| == 4 && forall b :: 0 <= b < 4 ==> |blocks[b]| > 3
    requires forall b, i :: 0 <= b < 4 && 3 <= i < |blocks[b]| ==> Asked(blocks[b][i])
    ensures (forall b :: 1 <= b < 4 ==> SameSchedule(Measured(blocks[0]), Measured(blocks[b])))
      <==> forall b :: 0 <= b < 4 ==> Repeats(blocks[0], blocks[b])
  {
    RepeatsMeans(blocks[0], blocks[1]);
    RepeatsMeans(blocks[0], blocks[2]);
    RepeatsMeans(blocks[0], blocks[3]);
  }

  ghost predicate FourRuntimes(blocks: seq<seq<Live>>)
    requires |blocks| == 4 && forall b :: 0 <= b < 4 ==> |blocks[b]| > 3
  {
    forall b, c :: 0 <= b < c < 4 ==> blocks[b][0].runtimeId != blocks[c][0].runtimeId
  }

  lemma RuntimesMean(blocks: seq<seq<Live>>)
    requires |blocks| == 4 && forall b :: 0 <= b < 4 ==> |blocks[b]| > 3
    ensures FourRuntimes(blocks)
      <==> Distinct4(blocks[0][0].runtimeId, blocks[1][0].runtimeId, blocks[2][0].runtimeId, blocks[3][0].runtimeId)
  {
  }

  lemma AllAsked(blocks: seq<seq<Live>>)
    requires |blocks| == 4 && forall b :: 0 <= b < 4 ==> Repeats(blocks[0], blocks[b])
    ensures forall b, i :: 0 <= b < 4 && 3 <= i < |blocks[b]| ==> Asked(blocks[b][i])
  {
    forall b, i | 0 <= b < 4 && 3 <= i < |blocks[b]| ensures Asked(blocks[b][i]) {
      assert Repeats(blocks[0], blocks[b]);
      QueriedAsks(blocks[b][i]);
    }
  }

  lemma BlocksMean(blocks: seq<seq<Live>>)
    requires |blocks| == 4 && forall b :: 0 <= b < 4 ==> PlacedBlock(blocks[b], b)
    ensures BlocksOk(blocks) <==> LaidOut(blocks)
  {
    QuestionsMean(blocks);
    RuntimesMean(blocks);
    forall b | 0 <= b < 4 ensures GroupOk(blocks[b]) {
      PlacedMeans(blocks[b], b);
    }
    if forall b :: 0 <= b < 4 ==> Repeats(blocks[0], blocks[b]) {
      AllAsked(blocks);
      RepeatsAll(blocks);
    } else if forall b, i :: 0 <= b < 4 && 3 <= i < |blocks[b]| ==> Asked(blocks[b][i]) {
      RepeatsAll(blocks);
    }
  }

  // ----------------------------------------------------------------- what is accepted

  ghost predicate OfOneRun(samples: seq<Live>) {
    && (forall i, j :: 0 <= i < j < |samples| ==> samples[i].requestId != samples[j].requestId)
    && (forall i, j :: 0 <= i < j < |samples| ==> samples[i].configuration == samples[j].configuration)
  }

  lemma GroupPlaced(samples: seq<Live>, b: int)
    requires 0 <= b < 4 && GroupOk(Group(samples, b)) && forall i :: 0 <= i < |samples| ==> SampleOk(samples[i])
    ensures PlacedBlock(Group(samples, b), b)
  {
    GroupHolds(samples, b);
    PlacedMeans(Group(samples, b), b);
  }

  lemma Accepted(samples: seq<Live>)
    requires ScheduleOk(samples)
    ensures samples == InARow(Blocks(samples)) && LaidOut(Blocks(samples)) && OfOneRun(samples)
  {
    var blocks := Blocks(samples);
    BlocksInARow(samples);
    forall b | 0 <= b < 4 ensures PlacedBlock(blocks[b], b) {
      assert GroupOk(blocks[b]) && blocks[b] == Group(samples, b);
      GroupPlaced(samples, b);
    }
    BlocksMean(blocks);
  }

  lemma InTheirBlocks(blocks: seq<seq<Live>>)
    requires |blocks| == 4 && forall b :: 0 <= b < 4 ==> PlacedBlock(blocks[b], b)
    ensures var samples := InARow(blocks);
      (forall i :: 0 <= i < |samples| ==> SampleOk(samples[i])) && InOrder(samples)
  {
    forall b | 0 <= b < 4 ensures forall i :: 0 <= i < |blocks[b]| ==> SampleOk(blocks[b][i]) && blocks[b][i].block == Some(b) {
      PlacedMeans(blocks[b], b);
    }
  }

  ghost predicate CutInto(samples: seq<Live>, blocks: seq<seq<Live>>) {
    |blocks| == 4 && samples == InARow(blocks) && LaidOut(blocks)
  }

  lemma CutAccepted(samples: seq<Live>, blocks: seq<seq<Live>>)
    requires OfOneRun(samples) && CutInto(samples, blocks)
    ensures ScheduleOk(samples) && Blocks(samples) == blocks
  {
    InTheirBlocks(blocks);
    forall b | 0 <= b < 4 ensures Blocks(samples)[b] == blocks[b] {
      GroupIsBlock(blocks, b);
    }
    BlocksMean(blocks);
  }

  /** Exactly the runs of one configuration, no request twice, that are four blocks so laid out are
      accepted, and selected are the measured samples of the blocks, in order. */
  lemma AcceptedExactly(samples: seq<Live>)
    ensures ScheduleOk(samples) <==> OfOneRun(samples) && exists blocks :: CutInto(samples, blocks)
    ensures forall blocks :: OfOneRun(samples) && CutInto(samples, blocks) ==>
      SelectedOf(Blocks(samples)) == blocks[0][3..] + blocks[1][3..] + blocks[2][3..] + blocks[3][3..]
  {
    if ScheduleOk(samples) {
      Accepted(samples);
      assert CutInto(samples, Blocks(samples));
    }
    forall blocks | OfOneRun(samples) && CutInto(samples, blocks) ensures ScheduleOk(samples) && Blocks(samples) == blocks {
      CutAccepted(samples, blocks);
    }
  }
}
