/** The page and the launcher read the same events, and the events that were printed. */
module SseAgreement {
  import opened Sequences
  import opened Text
  import opened SseFraming
  import opened SseTheorems

  // ----------------------------------------------------------------- one line

  /** The readers treat a line alike: they trim differently, and only the launcher knows a field
      without a colon. */
  predicate Agreeable(line: string) {
    if "event:" <= line then WithoutSpace(line[6..]) == Trim(line[6..])
    else if "data:" <= line then WithoutSpace(line[5..]) == TrimStart(line[5..])
    else line != "data" && line != "event"
  }

  lemma {:induction false} ColonOf(name: string, value: string)
    requires ':' !in name
    ensures Colon(name + ":" + value) == |name|
  {
    if name == "" {
      assert (name + ":" + value)[0] == ':';
    } else {
      ColonOf(name[1..], value);
      assert (name + ":" + value)[1..] == name[1..] + ":" + value;
      assert (name + ":" + value)[0] == name[0];
    }
  }

  lemma {:induction false} ColonSplits(line: string)
    ensures Colon(line) < |line| ==> line == line[..Colon(line)] + ":" + line[Colon(line) + 1..]
    ensures ':' !in line[..Colon(line)]
  {
    if line != [] && line[0] != ':' {
      var rest := line[1..];
      ColonSplits(rest);
      var at := Colon(rest);
      assert line[..at + 1] == [line[0]] + rest[..at];
      if at < |rest| {
        assert line[at + 1] == rest[at] == ':';
      }
    }
  }

  lemma FieldIs(line: string, name: string)
    requires ':' !in name
    ensures name + ":" <= line ==>
      Colon(line) == |name| < |line| && line[..Colon(line)] == name
    ensures line[..Colon(line)] == name ==> line == name || name + ":" <= line
    ensures line == name ==> Colon(line) == |line|
  {
    ColonSplits(line);
    if name + ":" <= line {
      assert line == name + ":" + line[|name| + 1..];
      ColonOf(name, line[|name| + 1..]);
    }
    assert Colon(line) < |line| ==> line[Colon(line)] in line && line[Colon(line)] == ':';
  }

  lemma FieldsOf(line: string)
    ensures "event:" <= line ==> Colon(line) == 5 < |line| && line[..5] == "event"
    ensures "data:" <= line ==> Colon(line) == 4 < |line| && line[..4] == "data"
    ensures line[..Colon(line)] == "event" ==> line == "event" || "event:" <= line
    ensures line[..Colon(line)] == "data" ==> line == "data" || "data:" <= line
    ensures line == "event" || line == "data" ==> Colon(line) == |line|
  {
    assert "event" + ":" == "event:" && "data" + ":" == "data:";
    FieldIs(line, "event");
    FieldIs(line, "data");
  }

  /** Exactly the agreeable lines have the same effect on every event under way. */
  lemma LinesAgreeExactly(line: string)
    ensures (forall g :: ScriptLine(line, g) == LauncherLine(line, g)) <==> Agreeable(line)
  {
    FieldsOf(line);
    assert "event:" <= line ==> line[0] == "event:"[0];
    assert "data:" <= line ==> line[0] == "data:"[0];
    if !Agreeable(line) {
      var g := Gathered("x", []);
      var page, launcher := ScriptLine(line, g), LauncherLine(line, g);
      if "data:" <= line {
        assert page.data[0] != launcher.data[0];
      } else if line == "data" {
        assert |launcher.data| == 1 && page.data == [];
      } else {
        assert page.name != launcher.name;
      }
    }
  }

  // ----------------------------------------------------------------- one frame

  function LauncherLines(lines: seq<string>, g: Gathered): Gathered {
    if lines == [] then g else LauncherLines(lines[1..], LauncherLine(lines[0], g))
  }

  /** A line that a sender can put in a frame. */
  predicate OneLine(line: string) {
    line != "" && '\n' !in line && '\r' !in line
  }

  predicate Frame(lines: seq<string>) {
    && (forall i :: 0 <= i < |lines| ==> OneLine(lines[i]) && Agreeable(lines[i]))
    && exists i :: 0 <= i < |lines| && "data:" <= lines[i]
  }

  lemma {:induction false} LinesAgree(lines: seq<string>, g: Gathered)
    requires forall i :: 0 <= i < |lines| ==> Agreeable(lines[i])
    ensures LauncherLines(lines, g) == ScriptLines(lines, g)
    ensures g.data != [] || (exists i :: 0 <= i < |lines| && "data:" <= lines[i]) ==> ScriptLines(lines, g).data != []
    decreases |lines|
  {
    if lines != [] {
      LinesAgreeExactly(lines[0]);
      var rest := lines[1..];
      assert forall i :: 0 < i < |lines| ==> lines[i] == rest[i - 1];
      if "data:" <= lines[0] {
        assert "data:"[0] == 'd' && lines[0][0] == 'd';
        assert ScriptLine(lines[0], g).data != [];
      }
      LinesAgree(rest, ScriptLine(lines[0], g));
    }
  }

  /** A frame never contains, starts with or ends with an empty line. */
  predicate Closed(text: string) {
    forall i :: 0 <= i < |text| && text[i] == '\n' ==> i + 1 < |text| && text[i + 1] != '\n'
  }

  lemma {:induction false} LinesOfLine(line: string, rest: string)
    requires '\n' !in line
    ensures Lines(line) == [line]
    ensures Lines(line + ("\n" + rest)) == [line] + Lines(rest)
    decreases |line|
  {
    if line == [] {
      assert "" + ("\n" + rest) == "\n" + rest;
      assert ("\n" + rest)[1..] == rest;
    } else {
      var c, more := line[0], line[1..];
      Uncons(line);
      LinesOfLine(more, rest);
      Associates([c], more, "\n" + rest);
      Cons(c, more + ("\n" + rest));
      assert [[c] + more] + Lines(rest) == [line] + Lines(rest);
    }
  }

  predicate Unbroken(line: string) {
    line != "" && '\n' !in line
  }

  lemma JoinClosed(first: string, rest: string)
    requires Unbroken(first) && Closed(rest) && rest != "" && rest[0] != '\n'
    ensures var text := first + "\n" + rest;
      Closed(text) && text != "" && text[0] != '\n'
  {
    var text := first + "\n" + rest;
    assert forall i :: 0 <= i < |first| ==> text[i] == first[i];
    forall i | |first| <= i < |text| && text[i] == '\n' ensures i + 1 < |text| && text[i + 1] != '\n' {
      var j := i - |first| - 1;
      assert j >= 0 ==> text[i] == rest[j];
      assert j + 1 < |rest| ==> text[i + 1] == rest[j + 1];
    }
  }

  lemma {:induction false} UnbrokenSplits(lines: seq<string>)
    requires lines != [] && forall i :: 0 <= i < |lines| ==> Unbroken(lines[i])
    ensures Lines(Join(lines)) == lines
    ensures Closed(Join(lines)) && Join(lines) != "" && Join(lines)[0] != '\n'
    decreases |lines|
  {
    var first, rest := lines[0], lines[1..];
    Uncons(lines);
    if rest == [] {
      LinesOfLine(first, "");
    } else {
      UnbrokenSplits(rest);
      LinesOfLine(first, Join(rest));
      Associates(first, "\n", Join(rest));
      JoinClosed(first, Join(rest));
    }
  }

  lemma {:induction false} JoinWithout(lines: seq<string>, c: char)
    requires c != '\n' && forall i :: 0 <= i < |lines| ==> c !in lines[i]
    ensures c !in Join(lines)
    decreases |lines|
  {
    if |lines| > 1 {
      JoinWithout(lines[1..], c);
    }
  }

  lemma JoinSplits(lines: seq<string>)
    requires lines != [] && forall i :: 0 <= i < |lines| ==> OneLine(lines[i])
    ensures Lines(Join(lines)) == lines
    ensures Closed(Join(lines)) && Join(lines) != "" && Join(lines)[0] != '\n' && '\r' !in Join(lines)
  {
    UnbrokenSplits(lines);
    JoinWithout(lines, '\r');
  }

  /** A closed text ends at the first gap after it. */
  lemma {:induction false} PiecesOfFrame(text: string, rest: string)
    requires Closed(text)
    ensures Pieces(text + ("\n\n" + rest)) == [text] + Pieces(rest)
    decreases |text|
  {
    if text == "" {
      assert "" + ("\n\n" + rest) == "\n\n" + rest;
      PiecesOfGap(rest);
    } else {
      var c, more := text[0], text[1..];
      Uncons(text);
      assert forall i :: 0 <= i < |more| ==> more[i] == text[i + 1];
      PiecesOfFrame(more, rest);
      var after := more + ("\n\n" + rest);
      assert after != "" && (more != "" ==> after[0] == more[0]);
      PiecesOfPlain(c, after);
      Associates([c], more, "\n\n" + rest);
      assert ([more] + Pieces(rest))[0] == more && ([more] + Pieces(rest))[1..] == Pieces(rest);
    }
  }

  lemma {:induction false} PiecesOfClosed(text: string)
    requires Closed(text)
    ensures Pieces(text) == [text]
    decreases |text|
  {
    if |text| >= 2 {
      Uncons(text);
      assert forall i :: 0 <= i < |text[1..]| ==> text[1..][i] == text[i + 1];
      PiecesOfClosed(text[1..]);
    }
  }

  // ----------------------------------------------------------------- whole streams

  /** Frames as sent: each followed by an empty line. */
  function StreamOf(frames: seq<seq<string>>): string {
    if frames == [] then "" else Join(frames[0]) + ("\n\n" + StreamOf(frames[1..]))
  }

  /** The lines that a line reader hands on: nothing after a final line feed. */
  function LinesFed(stream: string): seq<string> {
    var lines := Lines(stream);
    if Last(lines) == "" then Front(lines) else lines
  }

  function EventsOf(frames: seq<seq<string>>): seq<Event> {
    if frames == [] then [] else Yielded(LauncherLines(frames[0], START)) + EventsOf(frames[1..])
  }

  predicate AllFrames(frames: seq<seq<string>>) {
    forall i :: 0 <= i < |frames| ==> Frame(frames[i])
  }

  lemma {:induction false} TrimKeeps(s: string, i: nat)
    requires i < |s| && !ScriptSpace(s[i])
    ensures TrimStart(s) != "" && TrimEnd(s) != ""
    ensures exists j :: 0 <= j < |TrimStart(s)| && !ScriptSpace(TrimStart(s)[j])
    decreases |s|
  {
    if ScriptSpace(s[0]) {
      assert s[1..][i - 1] == s[i];
      TrimKeeps(s[1..], i - 1);
    }
    if ScriptSpace(s[|s| - 1]) {
      TrimKeeps(s[..|s| - 1], i);
    }
  }

  lemma NotBlank(s: string, i: nat)
    requires i < |s| && !ScriptSpace(s[i])
    ensures Trim(s) != ""
  {
    TrimKeeps(s, i);
    var t := TrimStart(s);
    var j :| 0 <= j < |t| && !ScriptSpace(t[j]);
    TrimKeeps(t, j);
  }

  lemma {:induction false} JoinHolds(lines: seq<string>, i: nat)
    requires i < |lines| && lines[i] != ""
    ensures exists j :: 0 <= j < |Join(lines)| && Join(lines)[j] == lines[i][0]
    decreases |lines|
  {
    var rest := lines[1..];
    if i == 0 {
      assert Join(lines)[0] == lines[0][0];
    } else {
      assert rest[i - 1] == lines[i];
      JoinHolds(rest, i - 1);
      var j :| 0 <= j < |Join(rest)| && Join(rest)[j] == lines[i][0];
      assert Join(lines)[|lines[0]| + 1 + j] == Join(rest)[j];
    }
  }

  /** One frame, read whole by the page and line by line by the launcher. */
  lemma FrameAgrees(lines: seq<string>)
    requires Frame(lines)
    ensures Dispatched(Join(lines)) == Yielded(LauncherLines(lines, START))
    ensures |Dispatched(Join(lines))| == 1
  {
    JoinSplits(lines);
    LinesAgree(lines, START);
    var i :| 0 <= i < |lines| && "data:" <= lines[i];
    assert "data:"[0] == 'd' && lines[i][0] == 'd';
    JoinHolds(lines, i);
    var j :| 0 <= j < |Join(lines)| && Join(lines)[j] == 'd';
    NotBlank(Join(lines), j);
  }

  lemma EmptyDispatchesNothing()
    ensures Dispatched("") == []
  {
  }

  /** What the page dispatches for a stream, also when its last frame is still open at the end. */
  lemma {:induction false} PageReads(frames: seq<seq<string>>, open: seq<string>)
    requires AllFrames(frames) && (open == [] || Frame(open))
    ensures AllDispatched(Pieces(StreamOf(frames) + Join(open)))
         == EventsOf(frames) + (if open == [] then [] else Yielded(LauncherLines(open, START)))
    decreases |frames|
  {
    if frames == [] {
      assert "" + Join(open) == Join(open);
      if open != [] {
        JoinSplits(open);
        FrameAgrees(open);
      }
      PiecesOfClosed(Join(open));
      EmptyDispatchesNothing();
      assert AllDispatched([Join(open)]) == Dispatched(Join(open));
    } else {
      var text, rest := Join(frames[0]), StreamOf(frames[1..]) + Join(open);
      FrameAgrees(frames[0]);
      JoinSplits(frames[0]);
      PageReads(frames[1..], open);
      PiecesOfFrame(text, rest);
      DispatchedCons(text, Pieces(rest));
      Associates("\n\n", StreamOf(frames[1..]), Join(open));
      Associates(text, "\n\n" + StreamOf(frames[1..]), Join(open));
      Associates(Dispatched(text), EventsOf(frames[1..]),
                 if open == [] then [] else Yielded(LauncherLines(open, START)));
    }
  }

  lemma {:induction false} LinesOfLines(lines: seq<string>, rest: string)
    requires lines != [] && forall i :: 0 <= i < |lines| ==> OneLine(lines[i])
    ensures Lines(Join(lines) + ("\n" + rest)) == lines + Lines(rest)
    decreases |lines|
  {
    var first, more := lines[0], lines[1..];
    Uncons(lines);
    if more == [] {
      LinesOfLine(first, rest);
    } else {
      LinesOfLines(more, rest);
      LinesOfLine(first, Join(more) + ("\n" + rest));
      Associates(first, "\n", Join(more));
      Associates("\n", Join(more), "\n" + rest);
      Associates(first, "\n" + Join(more), "\n" + rest);
      Associates([first], more, Lines(rest));
    }
  }

  lemma {:induction false} LauncherReadsFrame(lines: seq<string>, rest: seq<string>, g: Gathered)
    requires forall i :: 0 <= i < |lines| ==> OneLine(lines[i])
    ensures LauncherEvents(lines + ([""] + rest), g) == Yielded(LauncherLines(lines, g)) + LauncherEvents(rest, START)
    ensures LauncherEvents(lines, g) == Yielded(LauncherLines(lines, g))
    decreases |lines|
  {
    if lines == [] {
      assert [] + ([""] + rest) == [""] + rest;
      Cons("", rest);
    } else {
      var first, more := lines[0], lines[1..];
      Uncons(lines);
      LauncherReadsFrame(more, rest, LauncherLine(first, g));
      Associates([first], more, [""] + rest);
      Cons(first, more + ([""] + rest));
    }
  }

  lemma FrontOfAppend<T>(a: seq<T>, b: seq<T>)
    requires b != []
    ensures Front(a + b) == a + Front(b) && Last(a + b) == Last(b)
  {
  }

  lemma TwoBreaks(rest: string)
    ensures "\n\n" + rest == "\n" + ("\n" + rest) && "" + ("\n" + rest) == "\n" + rest
  {
  }

  lemma FrameLines(lines: seq<string>, rest: string)
    requires lines != [] && forall i :: 0 <= i < |lines| ==> OneLine(lines[i])
    ensures Lines(Join(lines) + ("\n\n" + rest)) == lines + ([""] + Lines(rest))
  {
    TwoBreaks(rest);
    LinesOfLine("", rest);
    LinesOfLines(lines, "\n" + rest);
  }

  lemma FrameFed(lines: seq<string>, rest: string)
    requires lines != [] && forall i :: 0 <= i < |lines| ==> OneLine(lines[i])
    ensures LinesFed(Join(lines) + ("\n\n" + rest)) == lines + ([""] + LinesFed(rest))
  {
    FrameLines(lines, rest);
    FrontOfAppend([""], Lines(rest));
    FrontOfAppend(lines, [""] + Lines(rest));
  }

  lemma {:induction false} LauncherReads(frames: seq<seq<string>>, open: seq<string>)
    requires AllFrames(frames) && (open == [] || Frame(open))
    ensures LauncherEvents(LinesFed(StreamOf(frames) + Join(open)), START)
         == EventsOf(frames) + (if open == [] then [] else Yielded(LauncherLines(open, START)))
    decreases |frames|
  {
    var last := if open == [] then [] else Yielded(LauncherLines(open, START));
    if frames == [] {
      assert "" + Join(open) == Join(open);
      if open == [] {
        assert LinesFed("") == [];
      } else {
        JoinSplits(open);
        LauncherReadsFrame(open, [], START);
      }
    } else {
      var lines, rest := frames[0], StreamOf(frames[1..]) + Join(open);
      LauncherReads(frames[1..], open);
      Associates("\n\n", StreamOf(frames[1..]), Join(open));
      Associates(Join(lines), "\n\n" + StreamOf(frames[1..]), Join(open));
      FrameFed(lines, rest);
      LauncherReadsFrame(lines, LinesFed(rest), START);
      Associates(Yielded(LauncherLines(lines, START)), EventsOf(frames[1..]), last);
    }
  }

  lemma {:induction false} NoReturns(frames: seq<seq<string>>)
    requires AllFrames(frames)
    ensures '\r' !in StreamOf(frames)
    decreases |frames|
  {
    if frames != [] {
      JoinSplits(frames[0]);
      NoReturns(frames[1..]);
    }
  }

  /** However the stream of frames is cut into chunks, and also when the last frame is never
      closed, the page dispatches the events that the launcher yields from its lines. */
  lemma ReadersAgree(frames: seq<seq<string>>, open: seq<string>, chunks: seq<string>, tail: string)
    requires AllFrames(frames) && (open == [] || Frame(open))
    requires Concat(chunks) + tail == StreamOf(frames) + Join(open)
    ensures Run("", chunks, tail) == LauncherEvents(LinesFed(Concat(chunks) + tail), START)
    ensures |Run("", chunks, tail)| == |frames| + if open == [] then 0 else 1
  {
    var stream := Concat(chunks) + tail;
    NoReturns(frames);
    if open != [] {
      JoinSplits(open);
      FrameAgrees(open);
    }
    assert '\r' !in stream;
    assert forall c :: c in Concat(chunks) ==> c in stream;
    assert forall c :: c in tail ==> c in stream;
    LineFeedStreamsCutAnywhere(chunks, tail);
    CutsAreInvisible("", [], stream);
    UnixOfUnix(stream);
    assert "" + ("" + Unix(stream)) == stream;
    PageReads(frames, open);
    LauncherReads(frames, open);
    OneEventEach(frames);
  }

  lemma {:induction false} UnixOfUnix(s: string)
    requires '\r' !in s
    ensures Unix(s) == s
    decreases |s|
  {
    if s != [] {
      UnixOfUnix(s[1..]);
      Uncons(s);
    }
  }

  lemma {:induction false} OneEventEach(frames: seq<seq<string>>)
    requires AllFrames(frames)
    ensures |EventsOf(frames)| == |frames|
    decreases |frames|
  {
    if frames != [] {
      FrameAgrees(frames[0]);
      OneEventEach(frames[1..]);
    }
  }

  // ----------------------------------------------------------------- printed events

  /** `_sse` */
  function Sse(e: Event): string {
    "event: " + e.name + "\ndata: " + e.data + "\n\n"
  }

  function Printed(events: seq<Event>): string {
    if events == [] then "" else Sse(events[0]) + Printed(events[1..])
  }

  function FrameOf(e: Event): seq<string> {
    ["event: " + e.name, "data: " + e.data]
  }

  function FramesOf(events: seq<Event>): seq<seq<string>> {
    if events == [] then [] else [FrameOf(events[0])] + FramesOf(events[1..])
  }

  predicate WithoutBreaks(e: Event) {
    '\n' !in e.name && '\r' !in e.name && '\n' !in e.data && '\r' !in e.data
  }

  /** Nothing for the page to trim. */
  predicate Trimmed(e: Event) {
    Trim(e.name) == e.name && TrimStart(e.data) == e.data
  }

  lemma PrintedLines(e: Event)
    ensures var lines := FrameOf(e);
      && "event:" <= lines[0] && lines[0][6..] == " " + e.name && Trim(lines[0][6..]) == Trim(e.name)
      && "data:" <= lines[1] && lines[1][5..] == " " + e.data && TrimStart(lines[1][5..]) == TrimStart(e.data)
      && WithoutSpace(" " + e.name) == e.name && WithoutSpace(" " + e.data) == e.data
      && Sse(e) == Join(lines) + "\n\n"
  {
    Cons(' ', e.name);
    Cons(' ', e.data);
    var lines := FrameOf(e);
    assert lines[0] == "event:" + (" " + e.name) && lines[1] == "data:" + (" " + e.data);
    assert Join(lines) == lines[0] + "\n" + lines[1];
    assert Sse(e) == lines[0] + "\n" + lines[1] + "\n\n";
  }

  lemma LauncherRecovers(e: Event)
    ensures Yielded(LauncherLines(FrameOf(e), START)) == [e]
  {
    var lines := FrameOf(e);
    PrintedLines(e);
    FieldsOf(lines[0]);
    FieldsOf(lines[1]);
    assert "event:"[0] == 'e' && lines[0][0] == 'e' && "data:"[0] == 'd' && lines[1][0] == 'd';
    assert LauncherLine(lines[0], START) == Gathered(e.name, []);
    assert LauncherLine(lines[1], Gathered(e.name, [])) == Gathered(e.name, [e.data]);
    assert lines[1..] == [lines[1]];
    assert LauncherLines(lines, START) == LauncherLines([lines[1]], Gathered(e.name, []));
    assert LauncherLines([lines[1]], Gathered(e.name, [])) == Gathered(e.name, [e.data]);
  }

  /** The page recovers an event printed on two lines exactly when it has nothing to trim from it;
      the launcher always does. */
  lemma PageRecoversExactly(e: Event)
    requires WithoutBreaks(e)
    ensures Dispatched(Join(FrameOf(e))) == [e] <==> Trimmed(e)
  {
    var lines := FrameOf(e);
    PrintedLines(e);
    assert OneLine(lines[0]) && OneLine(lines[1]);
    JoinSplits(lines);
    JoinHolds(lines, 0);
    var j :| 0 <= j < |Join(lines)| && Join(lines)[j] == lines[0][0];
    assert "event:"[0] == 'e' && lines[0][0] == 'e' && "data:"[0] == 'd' && lines[1][0] == 'd';
    NotBlank(Join(lines), j);
    assert ScriptLine(lines[0], START) == Gathered(Trim(e.name), []);
    assert ScriptLine(lines[1], Gathered(Trim(e.name), [])) == Gathered(Trim(e.name), [TrimStart(e.data)]);
    assert lines[1..] == [lines[1]];
    assert ScriptLines(lines, START) == ScriptLines([lines[1]], Gathered(Trim(e.name), []));
    assert ScriptLines([lines[1]], Gathered(Trim(e.name), [])) == Gathered(Trim(e.name), [TrimStart(e.data)]);
  }

  lemma PrintedFrame(e: Event)
    requires WithoutBreaks(e) && Trimmed(e)
    ensures Frame(FrameOf(e))
  {
    var lines := FrameOf(e);
    PrintedLines(e);
    assert "event:"[0] == 'e' && lines[0][0] == 'e' && "data:"[0] == 'd' && lines[1][0] == 'd';
    assert "data:" <= lines[1];
  }

  lemma {:induction false} PrintedFrames(events: seq<Event>)
    requires forall i :: 0 <= i < |events| ==> WithoutBreaks(events[i]) && Trimmed(events[i])
    ensures AllFrames(FramesOf(events)) && Printed(events) == StreamOf(FramesOf(events))
    ensures EventsOf(FramesOf(events)) == events
    decreases |events|
  {
    if events != [] {
      var e, rest := events[0], events[1..];
      Uncons(events);
      PrintedFrames(rest);
      PrintedFrame(e);
      PrintedLines(e);
      LauncherRecovers(e);
      Cons(FrameOf(e), FramesOf(rest));
      Associates(Join(FrameOf(e)), "\n\n", Printed(rest));
    }
  }

  /** Print, cut anywhere, read by either reader: the printed events, in order. */
  lemma PrintedEventsAreRead(events: seq<Event>, chunks: seq<string>, tail: string)
    requires forall i :: 0 <= i < |events| ==> WithoutBreaks(events[i]) && Trimmed(events[i])
    requires Concat(chunks) + tail == Printed(events)
    ensures Run("", chunks, tail) == events
    ensures LauncherEvents(LinesFed(Printed(events)), START) == events
  {
    var frames := FramesOf(events);
    PrintedFrames(events);
    assert StreamOf(frames) + Join([]) == StreamOf(frames);
    ReadersAgree(frames, [], chunks, tail);
    LauncherReads(frames, []);
    assert EventsOf(frames) + [] == EventsOf(frames);
  }
}
