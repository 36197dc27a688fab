/** Upload batches: the greedy grouping of sorted fixtures, and why no order-preserving grouping
    has fewer batches. */
module Batching {
  import opened Sequences

  datatype FixtureFile = FixtureFile(path: string, sizeBytes: nat, sha256: string)

  datatype FixtureBatch = FixtureBatch(files: seq<FixtureFile>, sizeBytes: nat)

  /** The bytes of the files from i up to j. */
  function Sum(files: seq<FixtureFile>, i: nat, j: nat): nat
    requires i <= j <= |files|
    decreases j - i
  {
    if i == j then 0 else Sum(files, i, j - 1) + files[j - 1].sizeBytes
  }

  /** How far a batch reaches that has so many bytes when it comes to the i-th file. */
  function Reach(files: seq<FixtureFile>, i: nat, used: nat, limit: nat): (j: nat)
    requires i <= |files|
    ensures i <= j <= |files|
    decreases |files| - i
  {
    if i == |files| || used + files[i].sizeBytes > limit then i
    else Reach(files, i + 1, used + files[i].sizeBytes, limit)
  }

  /** Where the batch that starts at i ends: one file always goes in. */
  function End(files: seq<FixtureFile>, i: nat, limit: nat): (j: nat)
    requires i < |files|
    ensures i < j <= |files|
  {
    Reach(files, i + 1, files[i].sizeBytes, limit)
  }

  function Batch(files: seq<FixtureFile>, i: nat, j: nat): FixtureBatch
    requires i <= j <= |files|
  {
    FixtureBatch(files[i..j], Sum(files, i, j))
  }

  /** The batches of the files from i on. */
  function Grouped(files: seq<FixtureFile>, i: nat, limit: nat): seq<FixtureBatch>
    requires i <= |files|
    decreases |files| - i
  {
    if i == |files| then []
    else
      var j := End(files, i, limit);
      [Batch(files, i, j)] + Grouped(files, j, limit)
  }

  /** The loop at the i-th file, its current batch having started at `start`. */
  ghost predicate Going(files: seq<FixtureFile>, limit: nat, batches: seq<FixtureBatch>,
                        current: seq<FixtureFile>, bytes: nat, start: nat, i: nat) {
    && start <= i <= |files| && current == files[start..i] && bytes == Sum(files, start, i)
    && (start == i ==> i == 0)
    && (start < i ==> End(files, start, limit) == Reach(files, i, bytes, limit))
    && Grouped(files, 0, limit) == batches + Grouped(files, start, limit)
  }

  method Batches(files: seq<FixtureFile>, uploadMaxTotalBytes: nat) returns (batches: seq<FixtureBatch>)
    ensures batches == Grouped(files, 0, uploadMaxTotalBytes)
  {
    batches := [];
    var current: seq<FixtureFile> := [];
    var currentBytes: nat := 0;
    ghost var start := 0;
    var i: nat := 0;
    while i < |files|
      invariant Going(files, uploadMaxTotalBytes, batches, current, currentBytes, start, i)
    {
      var fixture := files[i];
      ghost var before, open, used, from := batches, current, currentBytes, start;
      if current != [] && currentBytes + fixture.sizeBytes > uploadMaxTotalBytes {
        batches := batches + [FixtureBatch(current, currentBytes)];
        current := [];
        currentBytes := 0;
        start := i;
      }
      current := current + [fixture];
      currentBytes := currentBytes + fixture.sizeBytes;
      Turn(files, uploadMaxTotalBytes, before, open, used, from, i);
      i := i + 1;
    }
    Ends(files, uploadMaxTotalBytes, batches, current, currentBytes, start);
    if current != [] {
      batches := batches + [FixtureBatch(current, currentBytes)];
    }
  }

  /** A file joins the current batch, which it opens or fits in. */
  lemma Adds(files: seq<FixtureFile>, limit: nat, batches: seq<FixtureBatch>,
             current: seq<FixtureFile>, bytes: nat, start: nat, i: nat)
    requires start <= i < |files| && current == files[start..i] && bytes == Sum(files, start, i)
    requires start < i ==> End(files, start, limit) == Reach(files, i, bytes, limit) && bytes + files[i].sizeBytes <= limit
    requires Grouped(files, 0, limit) == batches + Grouped(files, start, limit)
    ensures Going(files, limit, batches, current + [files[i]], bytes + files[i].sizeBytes, start, i + 1)
  {
    assert files[start..i] + [files[i]] == files[start..i + 1];
  }

  /** A batch is closed when the next file does not fit, or there is none. */
  lemma Closes(files: seq<FixtureFile>, limit: nat, batches: seq<FixtureBatch>,
               current: seq<FixtureFile>, bytes: nat, start: nat, i: nat)
    requires Going(files, limit, batches, current, bytes, start, i) && start < i
    requires i == |files| || bytes + files[i].sizeBytes > limit
    ensures Grouped(files, 0, limit) == batches + [FixtureBatch(current, bytes)] + Grouped(files, i, limit)
    ensures files[i..i] == [] && Sum(files, i, i) == 0
  {
    Associates(batches, [Batch(files, start, i)], Grouped(files, i, limit));
  }

  /** One turn of the loop. */
  lemma Turn(files: seq<FixtureFile>, limit: nat, batches: seq<FixtureBatch>,
             current: seq<FixtureFile>, bytes: nat, start: nat, i: nat)
    requires Going(files, limit, batches, current, bytes, start, i) && i < |files|
    ensures if current != [] && bytes + files[i].sizeBytes > limit then
              Going(files, limit, batches + [FixtureBatch(current, bytes)], [] + [files[i]], 0 + files[i].sizeBytes, i, i + 1)
            else Going(files, limit, batches, current + [files[i]], bytes + files[i].sizeBytes, start, i + 1)
  {
    if current != [] && bytes + files[i].sizeBytes > limit {
      Closes(files, limit, batches, current, bytes, start, i);
      Adds(files, limit, batches + [FixtureBatch(current, bytes)], [], 0, i, i);
    } else {
      Adds(files, limit, batches, current, bytes, start, i);
    }
  }

  lemma Ends(files: seq<FixtureFile>, limit: nat, batches: seq<FixtureBatch>,
             current: seq<FixtureFile>, bytes: nat, start: nat)
    requires Going(files, limit, batches, current, bytes, start, |files|)
    ensures Grouped(files, 0, limit) == if current != [] then batches + [FixtureBatch(current, bytes)] else batches
  {
    if current != [] {
      Closes(files, limit, batches, current, bytes, start, |files|);
    }
  }

  // ----------------------------------------------------------------- what the batches are

  function Total(files: seq<FixtureFile>): nat {
    Sum(files, 0, |files|)
  }

  function Flat(pieces: seq<seq<FixtureFile>>): seq<FixtureFile> {
    if pieces == [] then [] else pieces[0] + Flat(pieces[1..])
  }

  function Contents(batches: seq<FixtureBatch>): seq<seq<FixtureFile>> {
    if batches == [] then [] else [batches[0].files] + Contents(batches[1..])
  }

  /** A batch within the limit, or a single file that no grouping could split. */
  predicate Allowed(files: seq<FixtureFile>, limit: nat) {
    Total(files) <= limit || |files| <= 1
  }

  lemma {:induction false} SumOfSlice(files: seq<FixtureFile>, i: nat, j: nat, k: nat)
    requires i <= k <= j <= |files|
    ensures Sum(files[i..j], 0, k - i) == Sum(files, i, k)
    decreases k - i
  {
    if i < k {
      SumOfSlice(files, i, j, k - 1);
    }
  }

  lemma TotalOfSlice(files: seq<FixtureFile>, i: nat, j: nat)
    requires i <= j <= |files|
    ensures Total(files[i..j]) == Sum(files, i, j)
  {
    SumOfSlice(files, i, j, j);
  }

  lemma {:induction false} SumSplits(files: seq<FixtureFile>, i: nat, j: nat, k: nat)
    requires i <= j <= k <= |files|
    ensures Sum(files, i, k) == Sum(files, i, j) + Sum(files, j, k)
    decreases k - j
  {
    if j < k {
      SumSplits(files, i, j, k - 1);
    }
  }

  /** A batch takes all that fits, and only what fits. */
  lemma {:induction false} ReachExactly(files: seq<FixtureFile>, i: nat, used: nat, limit: nat, k: nat)
    requires i <= k <= |files|
    ensures k <= Reach(files, i, used, limit) <==> k == i || used + Sum(files, i, k) <= limit
    decreases |files| - i
  {
    if i < k {
      SumSplits(files, i, i + 1, k);
      assert Sum(files, i, i + 1) == files[i].sizeBytes;
      ReachExactly(files, i + 1, used + files[i].sizeBytes, limit, k);
    }
  }

  /** A batch is the longest allowed stretch from its start. */
  lemma EndExactly(files: seq<FixtureFile>, i: nat, limit: nat, k: nat)
    requires i < k <= |files|
    ensures k <= End(files, i, limit) <==> Allowed(files[i..k], limit)
  {
    SumSplits(files, i, i + 1, k);
    assert Sum(files, i, i + 1) == files[i].sizeBytes;
    ReachExactly(files, i + 1, files[i].sizeBytes, limit, k);
    TotalOfSlice(files, i, k);
  }

  /** Nothing is lost, repeated or moved; no batch is empty or over the limit unless its only file
      is; each size is the sum of its files' sizes. */
  lemma {:induction false} GroupingIsFaithful(files: seq<FixtureFile>, i: nat, limit: nat)
    requires i <= |files|
    ensures Flat(Contents(Grouped(files, i, limit))) == files[i..]
    ensures forall b :: b in Grouped(files, i, limit) ==>
      b.files != [] && b.sizeBytes == Total(b.files) && Allowed(b.files, limit)
    decreases |files| - i
  {
    if i < |files| {
      var j := End(files, i, limit);
      var first, rest := Batch(files, i, j), Grouped(files, j, limit);
      GroupingIsFaithful(files, j, limit);
      EndExactly(files, i, limit, j);
      TotalOfSlice(files, i, j);
      Cons(first, rest);
      Cons(first.files, Contents(rest));
      assert files[i..j] + files[j..] == files[i..];
    }
  }

  /** When every file fits by itself, so does every batch. */
  lemma {:induction false} EveryBatchFits(files: seq<FixtureFile>, i: nat, limit: nat)
    requires i <= |files| && forall k :: 0 <= k < |files| ==> files[k].sizeBytes <= limit
    ensures forall b :: b in Grouped(files, i, limit) ==> b.sizeBytes <= limit
    decreases |files| - i
  {
    if i < |files| {
      var j := End(files, i, limit);
      EveryBatchFits(files, j, limit);
      SumSplits(files, i, i + 1, j);
      assert Sum(files, i, i + 1) == files[i].sizeBytes;
      ReachExactly(files, i + 1, files[i].sizeBytes, limit, j);
    }
  }

  // ----------------------------------------------------------------- why no grouping is shorter

  /** A batch that starts later, inside an earlier one, ends no sooner. */
  lemma EndGrows(files: seq<FixtureFile>, i: nat, j: nat, limit: nat)
    requires i < |files| && i <= j < End(files, i, limit)
    ensures End(files, i, limit) <= End(files, j, limit)
  {
    var m := End(files, i, limit);
    EndExactly(files, i, limit, m);
    TotalOfSlice(files, i, m);
    TotalOfSlice(files, j, m);
    SumSplits(files, i, j, m);
    EndExactly(files, j, limit, m);
  }

  /** Starting later never needs more batches. */
  lemma {:induction false} LaterIsNoLonger(files: seq<FixtureFile>, i: nat, j: nat, limit: nat)
    requires i <= j <= |files|
    ensures |Grouped(files, j, limit)| <= |Grouped(files, i, limit)|
    decreases |files| - i
  {
    if i < j < |files| {
      var m := End(files, i, limit);
      if j >= m {
        LaterIsNoLonger(files, m, j, limit);
      } else {
        EndGrows(files, i, j, limit);
        LaterIsNoLonger(files, m, End(files, j, limit), limit);
      }
    }
  }

  /** Every contiguous, order-preserving grouping into allowed pieces has at least as many. */
  lemma {:induction false} GroupingIsMinimal(files: seq<FixtureFile>, i: nat, limit: nat, pieces: seq<seq<FixtureFile>>)
    requires i <= |files| && Flat(pieces) == files[i..]
    requires forall k :: 0 <= k < |pieces| ==> Allowed(pieces[k], limit)
    ensures |Grouped(files, i, limit)| <= |pieces|
    decreases |pieces|
  {
    if i < |files| {
      var piece, rest := pieces[0], pieces[1..];
      var j := i + |piece|;
      assert files[i..][..|piece|] == piece && files[i..][|piece|..] == Flat(rest);
      assert files[i..j] == piece && files[j..] == Flat(rest);
      GroupingIsMinimal(files, j, limit, rest);
      if i < j {
        EndExactly(files, i, limit, j);
      }
      LaterIsNoLonger(files, j, End(files, i, limit), limit);
    }
  }
}
