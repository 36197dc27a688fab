/** `comparison`: two scorings of one pool of candidates, and how far ranks can move when few pairs
    change their order.  Scores are real numbers. */
module RankComparison {
  import opened Ordering
  import opened Sequences

  datatype Row = Row(id: string, captured: real, compared: real, floor: real)

  datatype Scoring = Captured | Compared

  function Score(r: Row, key: Scoring): real {
    if key.Captured? then r.captured else r.compared
  }

  predicate DistinctIds(rows: seq<Row>) {
    forall i, j :: 0 <= i < j < |rows| ==> rows[i].id != rows[j].id
  }

  /** The sort key (-score, id). */
  predicate Before(a: Row, b: Row, key: Scoring) {
    Score(a, key) > Score(b, key) || (Score(a, key) == Score(b, key) && Less(a.id, b.id))
  }

  lemma BeforeTransitive(a: Row, b: Row, c: Row, key: Scoring)
    requires Before(a, b, key) && Before(b, c, key)
    ensures Before(a, c, key)
  {
    if Less(a.id, b.id) && Less(b.id, c.id) {
      LessTransitive(a.id, b.id, c.id);
    }
  }

  lemma BeforeTotal(a: Row, b: Row, key: Scoring)
    requires a.id != b.id
    ensures Before(a, b, key) <==> !Before(b, a, key)
  {
    LessTotal(a.id, b.id);
  }

  // ----------------------------------------------------------------- sorting

  /** Indices of rows in ranked order. */
  function Insert(rows: seq<Row>, key: Scoring, order: seq<nat>, k: nat): seq<nat>
    requires k < |rows| && forall i :: 0 <= i < |order| ==> order[i] < |rows|
  {
    if order == [] || Before(rows[k], rows[order[0]], key) then [k] + order
    else [order[0]] + Insert(rows, key, order[1..], k)
  }

  function Ranked(rows: seq<Row>, key: Scoring, n: nat): (order: seq<nat>)
    requires n <= |rows|
    ensures forall i :: 0 <= i < |order| ==> order[i] < n
  {
    if n == 0 then []
    else
      InsertElements(rows, key, Ranked(rows, key, n - 1), n - 1);
      Insert(rows, key, Ranked(rows, key, n - 1), n - 1)
  }

  lemma {:induction false} InsertElements(rows: seq<Row>, key: Scoring, order: seq<nat>, k: nat)
    requires k < |rows| && forall i :: 0 <= i < |order| ==> order[i] < |rows|
    ensures Elements(Insert(rows, key, order, k)) == Elements(order) + {k}
    ensures |Insert(rows, key, order, k)| == |order| + 1
    ensures forall i :: 0 <= i <= |order| ==>
      Insert(rows, key, order, k)[i] == k || Insert(rows, key, order, k)[i] in order
  {
    if order == [] || Before(rows[k], rows[order[0]], key) {
      ElementsOfCons(k, order);
    } else {
      var rest := Insert(rows, key, order[1..], k);
      InsertElements(rows, key, order[1..], k);
      Uncons(order);
      ElementsOfCons(order[0], order[1..]);
      ElementsOfCons(order[0], rest);
    }
  }

  lemma ElementsOfCons(head: nat, tail: seq<nat>)
    ensures Elements([head] + tail) == {head} + Elements(tail)
    ensures forall i :: 0 <= i <= |tail| ==> ([head] + tail)[i] == if i == 0 then head else tail[i - 1]
  {
  }

  predicate InOrder(rows: seq<Row>, key: Scoring, order: seq<nat>) {
    && (forall i :: 0 <= i < |order| ==> order[i] < |rows|)
    && forall i, j :: 0 <= i < j < |order| ==> Before(rows[order[i]], rows[order[j]], key)
  }

  lemma {:induction false} InsertSorts(rows: seq<Row>, key: Scoring, order: seq<nat>, k: nat)
    requires k < |rows| && DistinctIds(rows) && InOrder(rows, key, order) && k !in order
    ensures InOrder(rows, key, Insert(rows, key, order, k))
  {
    InsertElements(rows, key, order, k);
    if order == [] {
    } else {
      BeforeTotal(rows[k], rows[order[0]], key);
      if Before(rows[k], rows[order[0]], key) {
        forall j | 0 <= j < |order| ensures Before(rows[k], rows[order[j]], key) {
          if j > 0 {
            BeforeTransitive(rows[k], rows[order[0]], rows[order[j]], key);
          }
        }
      } else {
        var rest := order[1..];
        InsertSorts(rows, key, rest, k);
        InsertElements(rows, key, rest, k);
        var s := Insert(rows, key, rest, k);
        forall j | 0 <= j < |s| ensures Before(rows[order[0]], rows[s[j]], key) {
          assert s[j] == k || s[j] in rest;
        }
      }
    }
  }

  lemma {:induction false} RankedElements(rows: seq<Row>, key: Scoring, n: nat)
    requires n <= |rows|
    ensures |Ranked(rows, key, n)| == n && forall i: nat :: i in Elements(Ranked(rows, key, n)) <==> i < n
    decreases n
  {
    if n > 0 {
      RankedElements(rows, key, n - 1);
      InsertElements(rows, key, Ranked(rows, key, n - 1), n - 1);
    }
  }

  lemma {:induction false} RankedSorts(rows: seq<Row>, key: Scoring, n: nat)
    requires n <= |rows| && DistinctIds(rows)
    ensures InOrder(rows, key, Ranked(rows, key, n))
    decreases n
  {
    if n > 0 {
      RankedSorts(rows, key, n - 1);
      InsertSorts(rows, key, Ranked(rows, key, n - 1), n - 1);
    }
  }

  // ----------------------------------------------------------------- ranks

  /** The rows that rank before the k-th. */
  function Ahead(rows: seq<Row>, key: Scoring, k: nat): set<nat>
    requires k < |rows|
  {
    set j | 0 <= j < |rows| && Before(rows[j], rows[k], key)
  }

  lemma AheadIsFront(rows: seq<Row>, key: Scoring, order: seq<nat>, p: nat)
    requires DistinctIds(rows) && InOrder(rows, key, order) && p < |order|
    requires forall j :: 0 <= j < |rows| ==> j in Elements(order)
    ensures Ahead(rows, key, order[p]) == Elements(order[..p])
  {
    var k := order[p];
    LessTotal(rows[k].id, rows[k].id);
    forall j | j in Ahead(rows, key, k) ensures j in Elements(order[..p]) {
      assert j in Elements(order);
      var q :| 0 <= q < |order| && order[q] == j;
      BeforeTotal(rows[j], rows[k], key);
      assert q < p;
      assert order[..p][q] == j;
    }
    forall j | j in Elements(order[..p]) ensures j in Ahead(rows, key, k) {
      var q :| 0 <= q < p && order[q] == j;
      assert Before(rows[order[q]], rows[order[p]], key);
    }
  }

  lemma FrontIsDistinct(rows: seq<Row>, key: Scoring, order: seq<nat>, p: nat)
    requires InOrder(rows, key, order) && p <= |order|
    ensures Distinct(order[..p])
  {
    var front := order[..p];
    forall i, j | 0 <= i < j < |front| ensures front[i] != front[j] {
      LessTotal(rows[front[i]].id, rows[front[i]].id);
      assert Before(rows[order[i]], rows[order[j]], key);
    }
  }

  /** The rank that the sorted list gives is one more than the number of rows ahead. */
  lemma RankCounts(rows: seq<Row>, key: Scoring, p: nat)
    requires DistinctIds(rows) && p < |rows|
    ensures |Ranked(rows, key, |rows|)| == |rows|
    ensures |Ahead(rows, key, Ranked(rows, key, |rows|)[p])| == p
  {
    var order := Ranked(rows, key, |rows|);
    RankedSorts(rows, key, |rows|);
    RankedElements(rows, key, |rows|);
    AheadIsFront(rows, key, order, p);
    FrontIsDistinct(rows, key, order, p);
    CountsDistinct(order[..p]);
  }

  // ----------------------------------------------------------------- pairs

  predicate Inverted(a: Row, b: Row) {
    (a.captured - b.captured) * (a.compared - b.compared) < 0.0
  }

  predicate TieChanged(a: Row, b: Row) {
    (a.captured - b.captured == 0.0) != (a.compared - b.compared == 0.0)
  }

  /** The pairs of positions below n that satisfy f. */
  function Chosen(n: nat, f: (nat, nat) -> bool): set<(nat, nat)> {
    set i: nat, j: nat | i < j < n && f(i, j) :: (i, j)
  }

  function InvertedAt(rows: seq<Row>): (nat, nat) -> bool {
    (i: nat, j: nat) => i < |rows| && j < |rows| && Inverted(rows[i], rows[j])
  }

  function TieChangedAt(rows: seq<Row>): (nat, nat) -> bool {
    (i: nat, j: nat) => i < |rows| && j < |rows| && TieChanged(rows[i], rows[j])
  }

  function Inversions(rows: seq<Row>): set<(nat, nat)> {
    Chosen(|rows|, InvertedAt(rows))
  }

  function TieChanges(rows: seq<Row>): set<(nat, nat)> {
    Chosen(|rows|, TieChangedAt(rows))
  }

  lemma SignOfProduct(x: real, y: real)
    ensures x * y < 0.0 <==> (x < 0.0 < y || y < 0.0 < x)
  {
    if x > 0.0 && y > 0.0 {
      assert x * y > 0.0;
    } else if x < 0.0 && y < 0.0 {
      assert (-x) * (-y) > 0.0 && x * y == (-x) * (-y);
    } else if x < 0.0 < y {
      assert (-x) * y > 0.0 && x * y == -((-x) * y);
    } else if y < 0.0 < x {
      assert x * (-y) > 0.0 && x * y == -(x * (-y));
    }
  }

  /** A pair that changes its order is an inversion or a changed tie, and never both. */
  lemma FlipIsCounted(a: Row, b: Row)
    requires a.id != b.id
    ensures Before(a, b, Captured) != Before(a, b, Compared) ==> Inverted(a, b) || TieChanged(a, b)
    ensures !(Inverted(a, b) && TieChanged(a, b))
    ensures Inverted(a, b) == Inverted(b, a) && TieChanged(a, b) == TieChanged(b, a)
  {
    SignOfProduct(a.captured - b.captured, a.compared - b.compared);
    SignOfProduct(b.captured - a.captured, b.compared - a.compared);
  }

  function Pair(i: nat, j: nat): (nat, nat) {
    if i < j then (i, j) else (j, i)
  }

  lemma {:induction false} PairsCount(k: nat, others: set<nat>)
    requires k !in others
    ensures |set j | j in others :: Pair(k, j)| == |others|
    decreases others
  {
    var pairs := set j | j in others :: Pair(k, j);
    if others != {} {
      var j :| j in others;
      var fewer := others - {j};
      PairsCount(k, fewer);
      assert pairs == (set i | i in fewer :: Pair(k, i)) + {Pair(k, j)};
      assert Pair(k, j) !in set i | i in fewer :: Pair(k, i);
    }
  }

  lemma SubsetCount<T>(a: set<T>, b: set<T>)
    requires a <= b
    ensures |a| <= |b|
  {
    assert b == a + (b - a);
  }

  function Flips(rows: seq<Row>, k: nat): set<nat>
    requires k < |rows|
  {
    set j | 0 <= j < |rows| && Before(rows[j], rows[k], Captured) != Before(rows[j], rows[k], Compared)
  }

  lemma FlipsAreCounted(rows: seq<Row>, k: nat)
    requires DistinctIds(rows) && k < |rows|
    ensures |Flips(rows, k)| <= |Inversions(rows)| + |TieChanges(rows)|
  {
    var flips := Flips(rows, k);
    assert k !in flips;
    var pairs := set j | j in flips :: Pair(k, j);
    PairsCount(k, flips);
    forall p | p in pairs ensures p in Inversions(rows) + TieChanges(rows) {
      var j :| j in flips && Pair(k, j) == p;
      FlipIsCounted(rows[j], rows[k]);
    }
    SubsetCount(pairs, Inversions(rows) + TieChanges(rows));
  }

  lemma SizesDiffer<T>(a: set<T>, b: set<T>)
    ensures -|(a - b) + (b - a)| <= |a| - |b| <= |(a - b) + (b - a)|
  {
    assert a == (a - b) + a * b && b == (b - a) + a * b;
  }

  /** A candidate moves by at most the number of pairs that it is in and that changed order. */
  lemma RankMoves(rows: seq<Row>, k: nat)
    requires DistinctIds(rows) && k < |rows|
    ensures Distance(|Ahead(rows, Captured, k)|, |Ahead(rows, Compared, k)|) <= |Inversions(rows)| + |TieChanges(rows)|
  {
    var a, b := Ahead(rows, Captured, k), Ahead(rows, Compared, k);
    assert Flips(rows, k) == (a - b) + (b - a);
    SizesDiffer(a, b);
    FlipsAreCounted(rows, k);
  }

  function Distance(a: int, b: int): nat {
    if a < b then b - a else a - b
  }

  // ----------------------------------------------------------------- the comparison

  datatype Comparison = Comparison(
    count: nat, maxAbsError: real, meanAbsError: real, floorFlips: seq<string>,
    inversions: nat, tieChanges: nat, maxDisplacement: nat, ranks: map<string, nat>)

  function Abs(x: real): real {
    if x < 0.0 then -x else x
  }

  function ErrorSum(rows: seq<Row>): real {
    if rows == [] then 0.0 else Error(rows[0]) + ErrorSum(rows[1..])
  }

  predicate FloorFlips(r: Row) {
    (r.compared >= r.floor) != (r.captured >= r.floor)
  }

  function FlipIds(rows: seq<Row>): seq<string> {
    if rows == [] then [] else FlipIds(rows[..|rows| - 1]) + if FloorFlips(rows[|rows| - 1]) then [rows[|rows| - 1].id] else []
  }

  /** The pairs that the nested loops have chosen when they come to (a, b). */
  ghost function ChosenBefore(n: nat, f: (nat, nat) -> bool, a: nat, b: nat): set<(nat, nat)> {
    set p | p in Chosen(n, f) && (p.0 < a || (p.0 == a && p.1 < b))
  }

  lemma ChooseNext(n: nat, f: (nat, nat) -> bool, a: nat, b: nat)
    requires a < b < n
    ensures |ChosenBefore(n, f, a, b + 1)| == |ChosenBefore(n, f, a, b)| + if f(a, b) then 1 else 0
  {
    var more := if f(a, b) then {(a, b)} else {};
    assert ChosenBefore(n, f, a, b + 1) == ChosenBefore(n, f, a, b) + more;
  }

  lemma ChooseRow(n: nat, f: (nat, nat) -> bool, a: nat)
    requires a < n
    ensures ChosenBefore(n, f, a, n) == ChosenBefore(n, f, a + 1, a + 2)
  {
  }

  lemma ChooseEnds(n: nat, f: (nat, nat) -> bool)
    ensures ChosenBefore(n, f, n, n + 1) == Chosen(n, f) && ChosenBefore(n, f, 0, 1) == {}
  {
  }

  method CountPairs(rows: seq<Row>) returns (inversions: nat, tieChanges: nat)
    ensures inversions == |Inversions(rows)| && tieChanges == |TieChanges(rows)|
  {
    inversions, tieChanges := 0, 0;
    ghost var n, inverted, changed := |rows|, InvertedAt(rows), TieChangedAt(rows);
    var i: nat := 0;
    ChooseEnds(n, inverted);
    ChooseEnds(n, changed);
    while i < |rows|
      invariant 0 <= i <= n
      invariant inversions == |ChosenBefore(n, inverted, i, i + 1)|
      invariant tieChanges == |ChosenBefore(n, changed, i, i + 1)|
    {
      var j: nat := i + 1;
      while j < |rows|
        invariant i < j <= n
        invariant inversions == |ChosenBefore(n, inverted, i, j)|
        invariant tieChanges == |ChosenBefore(n, changed, i, j)|
      {
        ChooseNext(n, inverted, i, j);
        ChooseNext(n, changed, i, j);
        var d1, d2 := rows[i].captured - rows[j].captured, rows[i].compared - rows[j].compared;
        if d1 * d2 < 0.0 {
          inversions := inversions + 1;
        }
        if (d1 == 0.0) != (d2 == 0.0) {
          tieChanges := tieChanges + 1;
        }
        j := j + 1;
      }
      ChooseRow(n, inverted, i);
      ChooseRow(n, changed, i);
      i := i + 1;
    }
  }

  /** The position of a candidate in either ranking, from one. */
  function Rank(rows: seq<Row>, key: Scoring, k: nat): nat
    requires k < |rows|
  {
    |Ahead(rows, key, k)| + 1
  }

  /** `ranks`, by candidate. */
  method RankAll(rows: seq<Row>, order: seq<nat>) returns (ranks: map<string, nat>)
    requires DistinctIds(rows) && order == Ranked(rows, Compared, |rows|)
    ensures forall k :: 0 <= k < |rows| ==> rows[k].id in ranks && ranks[rows[k].id] == Rank(rows, Compared, k)
  {
    RankedElements(rows, Compared, |rows|);
    ranks := map[];
    var p: nat := 0;
    while p < |order|
      invariant 0 <= p <= |order|
      invariant forall q :: 0 <= q < p ==>
        rows[order[q]].id in ranks && ranks[rows[order[q]].id] == Rank(rows, Compared, order[q])
    {
      RankCounts(rows, Compared, p);
      ranks := ranks[rows[order[p]].id := p + 1];
      p := p + 1;
    }
    forall k | 0 <= k < |rows| ensures rows[k].id in ranks && ranks[rows[k].id] == Rank(rows, Compared, k) {
      assert k in Elements(order);
      var q :| 0 <= q < |order| && order[q] == k;
    }
  }

  function Moved(rows: seq<Row>, k: nat): nat
    requires k < |rows|
  {
    Distance(Rank(rows, Captured, k), Rank(rows, Compared, k))
  }

  ghost predicate LargestMoveIs(rows: seq<Row>, largest: nat) {
    && (forall k :: 0 <= k < |rows| ==> Moved(rows, k) <= largest)
    && (exists k :: 0 <= k < |rows| && Moved(rows, k) == largest)
  }

  ghost predicate LargestErrorIs(rows: seq<Row>, largest: real) {
    && (forall r :: r in rows ==> Error(r) <= largest)
    && (exists r :: r in rows && Error(r) == largest)
  }

  method Moves(rows: seq<Row>, order: seq<nat>, ranks: map<string, nat>) returns (moves: seq<nat>)
    requires DistinctIds(rows) && order == Ranked(rows, Captured, |rows|)
    requires forall k :: 0 <= k < |rows| ==> rows[k].id in ranks && ranks[rows[k].id] == Rank(rows, Compared, k)
    ensures |moves| == |rows| == |order| && forall p :: 0 <= p < |rows| ==> moves[p] == Moved(rows, order[p])
  {
    RankedElements(rows, Captured, |rows|);
    moves := [];
    var p: nat := 0;
    while p < |order|
      invariant 0 <= p <= |order| && |moves| == p
      invariant forall q :: 0 <= q < p ==> moves[q] == Moved(rows, order[q])
    {
      RankCounts(rows, Captured, p);
      moves := moves + [Distance(p + 1, ranks[rows[order[p]].id])];
      p := p + 1;
    }
  }

  method Largest(values: seq<nat>) returns (largest: nat)
    requires values != []
    ensures largest in values && forall v :: v in values ==> v <= largest
  {
    largest := values[0];
    for i := 0 to |values|
      invariant largest in values && forall j :: 0 <= j < i ==> values[j] <= largest
    {
      if values[i] > largest {
        largest := values[i];
      }
    }
  }

  method LargestMove(rows: seq<Row>, order: seq<nat>, ranks: map<string, nat>) returns (largest: nat)
    requires DistinctIds(rows) && rows != [] && order == Ranked(rows, Captured, |rows|)
    requires forall k :: 0 <= k < |rows| ==> rows[k].id in ranks && ranks[rows[k].id] == Rank(rows, Compared, k)
    ensures LargestMoveIs(rows, largest)
  {
    RankedElements(rows, Captured, |rows|);
    var moves := Moves(rows, order, ranks);
    largest := Largest(moves);
    var p :| 0 <= p < |moves| && moves[p] == largest;
    assert Moved(rows, order[p]) == largest;
    forall k | 0 <= k < |rows| ensures Moved(rows, k) <= largest {
      assert k in Elements(order);
      var q :| 0 <= q < |order| && order[q] == k;
      assert moves[q] in moves;
    }
  }

  function Error(r: Row): real {
    Abs(r.compared - r.captured)
  }

  ghost predicate MeanErrorIs(rows: seq<Row>, mean: real) {
    mean * |rows| as real == ErrorSum(rows)
  }

  method LargestError(rows: seq<Row>) returns (largest: real)
    requires rows != []
    ensures LargestErrorIs(rows, largest)
  {
    largest := Error(rows[0]);
    for i := 0 to |rows|
      invariant exists r :: r in rows && Error(r) == largest
      invariant forall j :: 0 <= j < i ==> Error(rows[j]) <= largest
    {
      if Error(rows[i]) > largest {
        largest := Error(rows[i]);
      }
    }
  }

  method MeanError(rows: seq<Row>) returns (mean: real)
    requires rows != []
    ensures MeanErrorIs(rows, mean)
  {
    var sum := 0.0;
    for i := 0 to |rows|
      invariant sum + ErrorSum(rows[i..]) == ErrorSum(rows)
    {
      assert rows[i..][1..] == rows[i + 1..];
      sum := sum + Error(rows[i]);
    }
    mean := sum / |rows| as real;
  }

  method FloorFlipIds(rows: seq<Row>) returns (flips: seq<string>)
    ensures flips == FlipIds(rows)
  {
    flips := [];
    for i := 0 to |rows|
      invariant flips == FlipIds(rows[..i])
    {
      assert rows[..i + 1][..i] == rows[..i];
      if FloorFlips(rows[i]) {
        flips := flips + [rows[i].id];
      }
    }
    assert rows[..|rows|] == rows;
  }

  lemma LargestMoveIsBounded(rows: seq<Row>, largest: nat)
    requires DistinctIds(rows) && LargestMoveIs(rows, largest)
    ensures largest <= |Inversions(rows)| + |TieChanges(rows)|
  {
    var k :| 0 <= k < |rows| && Moved(rows, k) == largest;
    RankMoves(rows, k);
  }

  ghost predicate RanksAre(rows: seq<Row>, ranks: map<string, nat>) {
    forall k :: 0 <= k < |rows| ==> rows[k].id in ranks && ranks[rows[k].id] == Rank(rows, Compared, k)
  }

  method CompareRanks(rows: seq<Row>) returns (ranks: map<string, nat>, displacement: nat)
    requires DistinctIds(rows) && rows != []
    ensures RanksAre(rows, ranks) && LargestMoveIs(rows, displacement)
    ensures displacement <= |Inversions(rows)| + |TieChanges(rows)|
  {
    var ranked, captured := Ranked(rows, Compared, |rows|), Ranked(rows, Captured, |rows|);
    ranks := RankAll(rows, ranked);
    displacement := LargestMove(rows, captured, ranks);
    LargestMoveIsBounded(rows, displacement);
  }

  ghost predicate ComparisonIs(rows: seq<Row>, c: Comparison) {
    && c.count == |rows| && c.floorFlips == FlipIds(rows)
    && MeanErrorIs(rows, c.meanAbsError) && LargestErrorIs(rows, c.maxAbsError)
    && c.inversions == |Inversions(rows)| && c.tieChanges == |TieChanges(rows)|
    && LargestMoveIs(rows, c.maxDisplacement) && RanksAre(rows, c.ranks)
  }

  /** The whole comparison; an empty pool is an error.  The largest displacement never exceeds the
      pairs that were inverted or changed their tie. */
  method Compare(rows: seq<Row>) returns (result: Option<Comparison>)
    requires DistinctIds(rows)
    ensures result.None? <==> rows == []
    ensures result.Some? ==> ComparisonIs(rows, result.value)
    ensures result.Some? ==> result.value.maxDisplacement <= result.value.inversions + result.value.tieChanges
  {
    if rows == [] {
      return None;
    }
    var inversions, tieChanges := CountPairs(rows);
    var ranks, displacement := CompareRanks(rows);
    var flips := FloorFlipIds(rows);
    var error := LargestError(rows);
    var mean := MeanError(rows);
    result := Some(Comparison(|rows|, error, mean, flips, inversions, tieChanges, displacement, ranks));
  }

  /** The two rankings are the same list exactly when no candidate moved. */
  lemma SameRankingExactly(rows: seq<Row>)
    requires DistinctIds(rows)
    ensures Ranked(rows, Captured, |rows|) == Ranked(rows, Compared, |rows|)
      <==> forall k :: 0 <= k < |rows| ==> Moved(rows, k) == 0
  {
    var a, b := Ranked(rows, Captured, |rows|), Ranked(rows, Compared, |rows|);
    RankedElements(rows, Captured, |rows|);
    RankedElements(rows, Compared, |rows|);
    if forall k :: 0 <= k < |rows| ==> Moved(rows, k) == 0 {
      forall p | 0 <= p < |rows| ensures a[p] == b[p] {
        var k := a[p];
        RankCounts(rows, Captured, p);
        assert Moved(rows, k) == 0;
        assert k in Elements(b);
        var q :| 0 <= q < |b| && b[q] == k;
        RankCounts(rows, Compared, q);
      }
    }
    if a == b {
      forall k | 0 <= k < |rows| ensures Moved(rows, k) == 0 {
        assert k in Elements(a);
        var p :| 0 <= p < |a| && a[p] == k;
        RankCounts(rows, Captured, p);
        RankCounts(rows, Compared, p);
      }
    }
  }

  /** No inversion and no changed tie: the rankings are identical. */
  lemma UnchangedPairsSameRanking(rows: seq<Row>)
    requires DistinctIds(rows) && Inversions(rows) == {} && TieChanges(rows) == {}
    ensures Ranked(rows, Captured, |rows|) == Ranked(rows, Compared, |rows|)
  {
    forall k | 0 <= k < |rows| ensures Moved(rows, k) == 0 {
      RankMoves(rows, k);
    }
    SameRankingExactly(rows);
  }

  /** The candidates with a larger score, or with the same score and a smaller id. */
  function AboveInCaptured(rows: seq<Row>, k: nat): set<nat>
    requires k < |rows|
  {
    set j | 0 <= j < |rows| && (rows[j].captured > rows[k].captured
      || (rows[j].captured == rows[k].captured && Less(rows[j].id, rows[k].id)))
  }

  function AboveInCompared(rows: seq<Row>, k: nat): set<nat>
    requires k < |rows|
  {
    set j | 0 <= j < |rows| && (rows[j].compared > rows[k].compared
      || (rows[j].compared == rows[k].compared && Less(rows[j].id, rows[k].id)))
  }

  /** Larger scores come first, and among equal ones smaller ids. */
  lemma RankMeans(rows: seq<Row>, k: nat)
    requires k < |rows|
    ensures Rank(rows, Captured, k) == 1 + |AboveInCaptured(rows, k)|
    ensures Rank(rows, Compared, k) == 1 + |AboveInCompared(rows, k)|
  {
    assert Ahead(rows, Captured, k) == AboveInCaptured(rows, k);
    assert Ahead(rows, Compared, k) == AboveInCompared(rows, k);
  }

  /** The two scorings put the pair in opposite orders; one of them ties it and the other does not. */
  predicate Opposite(a: Row, b: Row) {
    (a.captured < b.captured && b.compared < a.compared) || (b.captured < a.captured && a.compared < b.compared)
  }

  predicate TiedOnce(a: Row, b: Row) {
    a.captured == b.captured <==> a.compared != b.compared
  }

  function OppositePairs(rows: seq<Row>): set<(nat, nat)> {
    set i: nat, j: nat | i < j < |rows| && Opposite(rows[i], rows[j]) :: (i, j)
  }

  function TiedOncePairs(rows: seq<Row>): set<(nat, nat)> {
    set i: nat, j: nat | i < j < |rows| && TiedOnce(rows[i], rows[j]) :: (i, j)
  }

  lemma InvertedMeans(a: Row, b: Row)
    ensures Inverted(a, b) <==> Opposite(a, b)
  {
    SignOfProduct(a.captured - b.captured, a.compared - b.compared);
  }

  lemma OppositeAreInversions(rows: seq<Row>)
    ensures Inversions(rows) == OppositePairs(rows)
  {
    forall p ensures p in Inversions(rows) <==> p in OppositePairs(rows) {
      if 0 <= p.0 < p.1 < |rows| {
        InvertedMeans(rows[p.0], rows[p.1]);
      }
    }
  }

  lemma TiedOnceAreTieChanges(rows: seq<Row>)
    ensures TieChanges(rows) == TiedOncePairs(rows)
  {
    forall p ensures p in TieChanges(rows) <==> p in TiedOncePairs(rows) {
    }
  }

  /** What the counts of a comparison count, and which candidates change sides of their floor. */
  lemma CountsMean(rows: seq<Row>, c: Comparison)
    requires ComparisonIs(rows, c)
    ensures c.inversions == |OppositePairs(rows)| && c.tieChanges == |TiedOncePairs(rows)|
    ensures forall id :: id in c.floorFlips <==>
      exists k :: 0 <= k < |rows| && rows[k].id == id && (rows[k].captured < rows[k].floor <==> rows[k].floor <= rows[k].compared)
  {
    OppositeAreInversions(rows);
    TiedOnceAreTieChanges(rows);
    FlipsExactly(rows);
  }

  lemma {:induction false} FlipsExactly(rows: seq<Row>)
    ensures forall id :: id in FlipIds(rows) <==>
      exists k :: 0 <= k < |rows| && rows[k].id == id && (rows[k].captured < rows[k].floor <==> rows[k].floor <= rows[k].compared)
  {
    if rows != [] {
      var front, last := rows[..|rows| - 1], rows[|rows| - 1];
      FlipsExactly(front);
      assert forall k :: 0 <= k < |front| ==> front[k] == rows[k];
    }
  }
}
