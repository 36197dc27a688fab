/** What a cut inside a CRLF pair does to the events that the page dispatches. */
module SseCuts {
  import opened Sequences
  import opened Text
  import opened SseFraming
  import opened SseTheorems
  import opened SseAgreement

  // ----------------------------------------------------------------- a line left with its return

  lemma {:induction false} TrimStartReturn(s: string)
    ensures TrimStart(s + "\r") == if TrimStart(s) == "" then "" else TrimStart(s) + "\r"
    decreases |s|
  {
    if s == "" {
      assert "" + "\r" == "\r" && "\r"[1..] == "";
    } else {
      assert (s + "\r")[0] == s[0] && (s + "\r")[1..] == s[1..] + "\r";
      if ScriptSpace(s[0]) {
        TrimStartReturn(s[1..]);
      }
    }
  }

  lemma TrimEndReturn(s: string)
    ensures TrimEnd(s + "\r") == TrimEnd(s)
  {
    assert (s + "\r")[..|s|] == s;
  }

  lemma TrimReturn(s: string)
    ensures Trim(s + "\r") == Trim(s)
  {
    TrimStartReturn(s);
    TrimEndReturn(TrimStart(s));
  }

  /** A line whose return would show: one that brings data. */
  predicate Carries(line: string) {
    "data:" <= line && TrimStart(line[5..]) != ""
  }

  lemma PrefixReturn(prefix: string, line: string)
    requires '\r' !in prefix
    ensures prefix <= line + "\r" <==> prefix <= line
    ensures prefix <= line ==> (line + "\r")[|prefix|..] == line[|prefix|..] + "\r"
  {
    var marked := line + "\r";
    assert marked[|line|] == '\r' && marked != prefix && marked[..|marked|] == marked;
    if prefix <= marked {
      assert |prefix| <= |line|;
      assert marked[..|prefix|] == line[..|prefix|];
    }
    if prefix <= line {
      assert line[..|prefix|] == marked[..|prefix|];
    }
  }

  lemma LineReturn(line: string, g: Gathered)
    ensures var plain, marked := ScriptLine(line, g), ScriptLine(line + "\r", g);
      if Carries(line) then
        plain == g.(data := g.data + [TrimStart(line[5..])]) && marked == g.(data := g.data + [TrimStart(line[5..]) + "\r"])
      else marked == plain
  {
    PrefixReturn("event:", line);
    PrefixReturn("data:", line);
    assert "event:"[0] == 'e' && "data:"[0] == 'd';
    assert "event:" <= line ==> line[0] == "event:"[0];
    assert "data:" <= line ==> line[0] == "data:"[0];
    if "event:" <= line {
      TrimReturn(line[6..]);
    } else if "data:" <= line {
      TrimStartReturn(line[5..]);
    }
  }

  /** The same event under way, but its data is one character longer. */
  predicate Longer(g: Gathered, g': Gathered) {
    g'.name == g.name && |g'.data| == |g.data| && |Join(g'.data)| == |Join(g.data)| + 1
  }

  lemma {:induction false} JoinSnoc(lines: seq<string>, line: string)
    ensures |Join(lines + [line])| == |Join(lines)| + |line| + if lines == [] then 0 else 1
    decreases |lines|
  {
    if lines == [] {
      assert lines + [line] == [line];
    } else {
      var rest := lines[1..];
      JoinSnoc(rest, line);
      assert (lines + [line])[0] == lines[0] && (lines + [line])[1..] == rest + [line];
    }
  }

  lemma LongerStays(line: string, g: Gathered, g': Gathered)
    requires Longer(g, g')
    ensures Longer(ScriptLine(line, g), ScriptLine(line, g'))
  {
    if "data:" <= line && !("event:" <= line) {
      JoinSnoc(g.data, TrimStart(line[5..]));
      JoinSnoc(g'.data, TrimStart(line[5..]));
    }
  }

  lemma {:induction false} LongerToTheEnd(lines: seq<string>, g: Gathered, g': Gathered)
    requires Longer(g, g')
    ensures Longer(ScriptLines(lines, g), ScriptLines(lines, g'))
    decreases |lines|
  {
    if lines != [] {
      LongerStays(lines[0], g, g');
      LongerToTheEnd(lines[1..], ScriptLine(lines[0], g), ScriptLine(lines[0], g'));
    }
  }

  function Marked(lines: seq<string>, j: nat): (marked: seq<string>)
    requires j < |lines|
    ensures |marked| == |lines|
  {
    lines[j := lines[j] + "\r"]
  }

  lemma {:induction false} MarkedLines(lines: seq<string>, j: nat, g: Gathered)
    requires j < |lines|
    ensures if Carries(lines[j]) then Longer(ScriptLines(lines, g), ScriptLines(Marked(lines, j), g))
            else ScriptLines(Marked(lines, j), g) == ScriptLines(lines, g)
    decreases j
  {
    var marked, rest := Marked(lines, j), lines[1..];
    if j == 0 {
      assert marked[1..] == rest;
      LineReturn(lines[0], g);
      if Carries(lines[0]) {
        var data := TrimStart(lines[0][5..]);
        JoinSnoc(g.data, data);
        JoinSnoc(g.data, data + "\r");
        LongerToTheEnd(rest, ScriptLine(lines[0], g), ScriptLine(marked[0], g));
      }
    } else {
      assert marked[1..] == Marked(rest, j - 1);
      MarkedLines(rest, j - 1, ScriptLine(lines[0], g));
    }
  }

  // ----------------------------------------------------------------- a frame with such a line

  lemma MarkedFrame(lines: seq<string>, j: nat)
    requires Frame(lines) && j < |lines|
    ensures var marked := Marked(lines, j);
      && (forall i :: 0 <= i < |marked| ==> Unbroken(marked[i]))
      && exists i :: 0 <= i < |marked| && "data:" <= marked[i]
  {
    var i :| 0 <= i < |lines| && "data:" <= lines[i];
    PrefixReturn("data:", lines[i]);
    assert "data:" <= Marked(lines, j)[i];
  }

  lemma HoldsData(lines: seq<string>)
    requires exists i :: 0 <= i < |lines| && "data:" <= lines[i]
    ensures exists i :: 0 <= i < |Join(lines)| && Join(lines)[i] == 'd'
  {
    var i :| 0 <= i < |lines| && "data:" <= lines[i];
    assert "data:"[0] == 'd' && lines[i][0] == 'd';
    JoinHolds(lines, i);
  }

  lemma UnbrokenDispatches(lines: seq<string>)
    requires forall i :: 0 <= i < |lines| ==> Unbroken(lines[i])
    requires exists i :: 0 <= i < |lines| && "data:" <= lines[i]
    ensures Closed(Join(lines))
    ensures var g := ScriptLines(lines, START); Dispatched(Join(lines)) == [Event(g.name, Join(g.data))]
  {
    UnbrokenSplits(lines);
    HoldsData(lines);
    var i :| 0 <= i < |Join(lines)| && Join(lines)[i] == 'd';
    NotBlank(Join(lines), i);
  }

  /** The event of a frame changes exactly when the line that keeps its return brings data. */
  lemma MarkedDispatches(lines: seq<string>, j: nat)
    requires Frame(lines) && j < |lines|
    ensures Closed(Join(lines)) && Closed(Join(Marked(lines, j)))
    ensures |Dispatched(Join(lines))| == |Dispatched(Join(Marked(lines, j)))| == 1
    ensures Dispatched(Join(Marked(lines, j))) != Dispatched(Join(lines)) <==> Carries(lines[j])
  {
    MarkedFrame(lines, j);
    UnbrokenDispatches(lines);
    UnbrokenDispatches(Marked(lines, j));
    MarkedLines(lines, j, START);
  }

  // ----------------------------------------------------------------- the streams

  lemma {:induction false} PageAfter(before: seq<seq<string>>, rest: string)
    requires AllFrames(before)
    ensures AllDispatched(Pieces(StreamOf(before) + rest)) == EventsOf(before) + AllDispatched(Pieces(rest))
    decreases |before|
  {
    if before == [] {
      assert "" + rest == rest;
    } else {
      var text, more := Join(before[0]), StreamOf(before[1..]) + rest;
      FrameAgrees(before[0]);
      JoinSplits(before[0]);
      PageAfter(before[1..], rest);
      PiecesOfFrame(text, more);
      DispatchedCons(text, Pieces(more));
      Associates("\n\n", StreamOf(before[1..]), rest);
      Associates(text, "\n\n" + StreamOf(before[1..]), rest);
      Associates(Dispatched(text), EventsOf(before[1..]), AllDispatched(Pieces(rest)));
    }
  }

  lemma PageAround(before: seq<seq<string>>, text: string, rest: string)
    requires AllFrames(before) && Closed(text)
    ensures AllDispatched(Pieces(StreamOf(before) + (text + ("\n\n" + rest))))
         == EventsOf(before) + (Dispatched(text) + AllDispatched(Pieces(rest)))
  {
    PageAfter(before, text + ("\n\n" + rest));
    PiecesOfFrame(text, rest);
    DispatchedCons(text, Pieces(rest));
  }

  /** What follows line j within its frame. */
  function After(lines: seq<string>, j: nat): string
    requires j < |lines|
  {
    if j + 1 == |lines| then "" else "\n" + Join(lines[j + 1..])
  }

  lemma {:induction false} JoinAround(lines: seq<string>, j: nat)
    requires j < |lines|
    ensures Join(lines) == Join(lines[..j + 1]) + After(lines, j)
    ensures Join(Marked(lines, j)) == Join(lines[..j + 1]) + ("\r" + After(lines, j))
    decreases j
  {
    var first, rest := lines[0], lines[1..];
    if j == 0 {
      assert lines[..1] == [first];
      assert Marked(lines, 0)[1..] == rest;
      if |lines| > 1 {
        Associates(first, "\n", Join(rest));
        Associates(first, "\r", "\n" + Join(rest));
        Associates(first + "\r", "\n", Join(rest));
      }
    } else {
      var head, end := Join(rest[..j]), After(rest, j - 1);
      JoinAround(rest, j - 1);
      assert lines[..j + 1][1..] == rest[..j] && Marked(lines, j)[1..] == Marked(rest, j - 1);
      assert lines[j + 1..] == rest[j..];
      Associates(first + "\n", head, end);
      Associates(first + "\n", head, "\r" + end);
    }
  }

  lemma SingleCut(head: string, tail: string)
    ensures Run("", [head], tail) == AllDispatched(Pieces(Unix(head) + Unix(tail)))
    ensures Run("", [], head + tail) == AllDispatched(Pieces(Unix(head + tail)))
  {
    CutsAreInvisible("", [head], tail);
    assert UnixEach([head]) == Unix(head) + "" == Unix(head);
    assert "" + (UnixEach([head]) + Unix(tail)) == Unix(head) + Unix(tail);
    CutsAreInvisible("", [], head + tail);
    assert "" + ("" + Unix(head + tail)) == Unix(head + tail);
  }

  /** The line whose end is cut keeps its return; uncut it does not. */
  lemma CutTexts(before: seq<seq<string>>, frame: seq<string>, j: nat, rest: string, head: string, tail: string)
    requires j < |frame| && CutsBetween(head, tail)
    requires Unix(head) == StreamOf(before) + (Join(frame[..j + 1]) + "\r")
    requires Unix(tail) == After(frame, j) + ("\n\n" + rest)
    ensures Unix(head) + Unix(tail) == StreamOf(before) + (Join(Marked(frame, j)) + ("\n\n" + rest))
    ensures Unix(head + tail) == StreamOf(before) + (Join(frame) + ("\n\n" + rest))
  {
    var b, front, end, gap := StreamOf(before), Join(frame[..j + 1]), After(frame, j), "\n\n" + rest;
    JoinAround(frame, j);
    UnixAppend(head, tail);
    assert Front(b + (front + "\r")) == b + front;
    Associates(b, front, end + gap);
    Associates(front, end, gap);
    Associates(b, front + "\r", end + gap);
    Associates(front, "\r", end);
    Associates(front + "\r", end, gap);
  }

  /** The two chunks of a stream of frames, cut between the return and the line feed that end line j
      of one frame, its last line included: the events change exactly when that line brings data. */
  lemma CutPairChangesExactly(before: seq<seq<string>>, frame: seq<string>, j: nat, after: seq<seq<string>>,
                              head: string, tail: string)
    requires AllFrames(before) && Frame(frame) && j < |frame| && CutsBetween(head, tail)
    requires Unix(head) == StreamOf(before) + (Join(frame[..j + 1]) + "\r")
    requires Unix(tail) == After(frame, j) + ("\n\n" + StreamOf(after))
    ensures Run("", [head], tail) != Run("", [], head + tail) <==> Carries(frame[j])
    ensures |Run("", [head], tail)| == |Run("", [], head + tail)|
  {
    SingleCut(head, tail);
    CutTexts(before, frame, j, StreamOf(after), head, tail);
    MarkedDispatches(frame, j);
    PageAround(before, Join(frame), StreamOf(after));
    PageAround(before, Join(Marked(frame, j)), StreamOf(after));
    SameAround(EventsOf(before), Dispatched(Join(frame)), Dispatched(Join(Marked(frame, j))),
               AllDispatched(Pieces(StreamOf(after))));
  }

  lemma SameAround<T>(a: seq<T>, b: seq<T>, b': seq<T>, c: seq<T>)
    requires |b| == |b'|
    ensures a + (b + c) == a + (b' + c) <==> b == b'
  {
    Associates(a, b, c);
    Associates(a, b', c);
    Slices(a, b, c);
    Slices(a, b', c);
  }

  // ----------------------------------------------------------------- a cut between two frames

  lemma StillClosed(a: string, b: string)
    requires Closed(a) && Closed(b) && b != "" && b[0] != '\n'
    ensures Closed(a + ("\n\r\n" + b))
  {
    var text := a + ("\n\r\n" + b);
    assert forall i :: 0 <= i < |a| ==> text[i] == a[i];
    forall i | |a| <= i < |text| && text[i] == '\n' ensures i + 1 < |text| && text[i + 1] != '\n' {
      var j := i - |a| - 3;
      assert j >= 0 ==> text[i] == b[j];
      assert -1 <= j && j + 1 < |b| ==> text[i + 1] == b[j + 1];
    }
  }

  lemma MergedDispatchesOne(a: seq<string>, b: string)
    requires Frame(a)
    ensures |Dispatched(Join(a) + ("\n\r\n" + b))| == 1
  {
    HoldsData(a);
    var text := Join(a) + ("\n\r\n" + b);
    var i :| 0 <= i < |Join(a)| && Join(a)[i] == 'd';
    assert text[i] == 'd';
    NotBlank(text, i);
  }

  lemma GapTexts(before: seq<seq<string>>, a: string, b: string, rest: string, head: string, tail: string)
    requires CutsBetween(head, tail)
    requires Unix(head) == StreamOf(before) + (a + "\n\r") && Unix(tail) == "\n" + (b + ("\n\n" + rest))
    ensures Unix(head) + Unix(tail) == StreamOf(before) + (a + ("\n\r\n" + b) + ("\n\n" + rest))
    ensures Unix(head + tail) == StreamOf(before) + (a + ("\n\n" + (b + ("\n\n" + rest))))
  {
    var s, gap := StreamOf(before), "\n\n" + rest;
    UnixAppend(head, tail);
    assert Front(s + (a + "\n\r")) == s + (a + "\n");
    Associates(s, a + "\n", "\n" + (b + gap));
    Associates(a, "\n", "\n" + (b + gap));
    TwoBreaks(b + gap);
    Associates(s, a + "\n\r", "\n" + (b + gap));
    assert "\n\r" + ("\n" + (b + gap)) == "\n\r\n" + b + gap;
    Associates(a, "\n\r", "\n" + (b + gap));
    Associates(a, "\n\r\n" + b, gap);
  }

  lemma PageCounts(frames: seq<seq<string>>)
    requires AllFrames(frames)
    ensures |EventsOf(frames)| == |AllDispatched(Pieces(StreamOf(frames)))| == |frames|
  {
    OneEventEach(frames);
    PageAfter(frames, "");
    assert StreamOf(frames) + "" == StreamOf(frames);
    assert AllDispatched(Pieces("")) == [];
  }

  /** A frame, or two merged, among other frames. */
  lemma CountAround(before: seq<seq<string>>, text: string, rest: string)
    requires AllFrames(before) && Closed(text) && |Dispatched(text)| == 1
    ensures |AllDispatched(Pieces(StreamOf(before) + (text + ("\n\n" + rest))))|
         == |before| + 1 + |AllDispatched(Pieces(rest))|
  {
    PageAround(before, text, rest);
    PageCounts(before);
  }

  /** Two frames after one another, and the same with a return in the gap between them. */
  lemma CountApart(before: seq<seq<string>>, a: seq<string>, b: seq<string>, after: seq<seq<string>>)
    requires AllFrames(before) && Frame(a) && Frame(b) && AllFrames(after)
    ensures |AllDispatched(Pieces(StreamOf(before) + (Join(a) + ("\n\n" + (Join(b) + ("\n\n" + StreamOf(after)))))))|
         == |before| + 2 + |after|
  {
    var more := [b] + after;
    Cons(b, after);
    JoinSplits(a);
    FrameAgrees(a);
    PageCounts(more);
    CountAround(before, Join(a), StreamOf(more));
  }

  lemma CountMerged(before: seq<seq<string>>, a: seq<string>, b: seq<string>, after: seq<seq<string>>)
    requires AllFrames(before) && Frame(a) && Frame(b) && AllFrames(after)
    ensures |AllDispatched(Pieces(StreamOf(before) + (Join(a) + ("\n\r\n" + Join(b)) + ("\n\n" + StreamOf(after)))))|
         == |before| + 1 + |after|
  {
    JoinSplits(a);
    JoinSplits(b);
    StillClosed(Join(a), Join(b));
    MergedDispatchesOne(a, Join(b));
    PageCounts(after);
    CountAround(before, Join(a) + ("\n\r\n" + Join(b)), StreamOf(after));
  }

  /** Cut inside the pair that ends the empty line between two frames, the two become one event. */
  lemma CutGapLosesAFrame(before: seq<seq<string>>, a: seq<string>, b: seq<string>, after: seq<seq<string>>,
                          head: string, tail: string)
    requires AllFrames(before) && Frame(a) && Frame(b) && AllFrames(after) && CutsBetween(head, tail)
    requires Unix(head) == StreamOf(before) + (Join(a) + "\n\r")
    requires Unix(tail) == "\n" + (Join(b) + ("\n\n" + StreamOf(after)))
    ensures |Run("", [], head + tail)| == |before| + 2 + |after|
    ensures |Run("", [head], tail)| == |before| + 1 + |after|
  {
    SingleCut(head, tail);
    GapTexts(before, Join(a), Join(b), StreamOf(after), head, tail);
    CountApart(before, a, b, after);
    CountMerged(before, a, b, after);
  }
}
