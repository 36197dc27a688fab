/** Two readers of the same event stream: the page's `consumeFrames`, fed chunk by chunk, and the
    launcher's `iter_sse`, fed line by line.  Which data parses as JSON is a parameter. */
module SseFraming {
  import opened Sequences
  import opened Text

  datatype Event = Event(name: string, data: string)

  /** What a reader has gathered of the event it is in. */
  datatype Gathered = Gathered(name: string, data: seq<string>)

  const START := Gathered("message", [])

  // ----------------------------------------------------------------- strings

  function TrimStart(s: string): string {
    if s != [] && ScriptSpace(s[0]) then TrimStart(s[1..]) else s
  }

  function TrimEnd(s: string): string {
    if s != [] && ScriptSpace(s[|s| - 1]) then TrimEnd(s[..|s| - 1]) else s
  }

  function Trim(s: string): string {
    TrimEnd(TrimStart(s))
  }

  function Join(lines: seq<string>): string {
    if lines == [] then "" else if |lines| == 1 then lines[0] else lines[0] + "\n" + Join(lines[1..])
  }

  /** `split('\n')` */
  function Lines(s: string): (pieces: seq<string>)
    ensures pieces != []
  {
    if s == [] then [""]
    else if s[0] == '\n' then [""] + Lines(s[1..])
    else var rest := Lines(s[1..]); [[s[0]] + rest[0]] + rest[1..]
  }

  /** `split('\n\n')` */
  function Pieces(s: string): (pieces: seq<string>)
    ensures pieces != []
    decreases |s|
  {
    if |s| < 2 then [s]
    else if s[0] == '\n' && s[1] == '\n' then [""] + Pieces(s[2..])
    else var rest := Pieces(s[1..]); [[s[0]] + rest[0]] + rest[1..]
  }

  /** `replace(/\r\n/g, '\n')` */
  function Unix(s: string): string
    decreases |s|
  {
    if s == [] then []
    else if s[0] == '\r' && |s| > 1 && s[1] == '\n' then "\n" + Unix(s[2..])
    else [s[0]] + Unix(s[1..])
  }

  function Front<T>(s: seq<T>): seq<T>
    requires s != []
  {
    s[..|s| - 1]
  }

  function Last<T>(s: seq<T>): T
    requires s != []
  {
    s[|s| - 1]
  }

  // ----------------------------------------------------------------- consumeFrames

  function ScriptLine(line: string, g: Gathered): Gathered {
    if "event:" <= line then g.(name := Trim(line[6..]))
    else if "data:" <= line then g.(data := g.data + [TrimStart(line[5..])])
    else g
  }

  function ScriptLines(lines: seq<string>, g: Gathered): Gathered {
    if lines == [] then g else ScriptLines(lines[1..], ScriptLine(lines[0], g))
  }

  function Dispatched(frame: string): seq<Event> {
    if Trim(frame) == "" then []
    else
      var g := ScriptLines(Lines(frame), START);
      [Event(g.name, Join(g.data))]
  }

  function AllDispatched(frames: seq<string>): seq<Event> {
    if frames == [] then [] else Dispatched(frames[0]) + AllDispatched(frames[1..])
  }

  /** One call: what stays in the buffer and what is dispatched. */
  function Consumed(buffer: string, text: string, flush: bool): (string, seq<Event>) {
    var pieces := Pieces(buffer + Unix(text));
    if flush then ("", AllDispatched(pieces)) else (Last(pieces), AllDispatched(Front(pieces)))
  }

  predicate Terminal(e: Event) {
    e.name == "done" || e.name == "error"
  }

  function LastTerminal(events: seq<Event>, before: string): string {
    if events == [] then before
    else if Terminal(Last(events)) then Last(events).name
    else LastTerminal(Front(events), before)
  }

  // ----------------------------------------------------------------- what parses

  /** The events before the first one whose data does not parse: parsing that one raises. */
  function Taken(parses: string -> bool, events: seq<Event>): (taken: seq<Event>)
    ensures taken <= events
  {
    if events == [] || !parses(events[0].data) then [] else [events[0]] + Taken(parses, events[1..])
  }

  lemma {:induction false} TakenAppend(parses: string -> bool, a: seq<Event>, b: seq<Event>)
    ensures Taken(parses, a + b) == if Taken(parses, a) == a then a + Taken(parses, b) else Taken(parses, a)
    decreases |a|
  {
    if a == [] {
      assert a + b == b;
    } else {
      Uncons(a);
      TakenAppend(parses, a[1..], b);
      Associates([a[0]], a[1..], b);
      Cons(a[0], a[1..] + b);
      Associates([a[0]], a[1..], Taken(parses, b));
    }
  }

  lemma TakenOne(parses: string -> bool, e: Event)
    ensures Taken(parses, [e]) == if parses(e.data) then [e] else []
  {
    assert [e][1..] == [];
  }

  /** The reader's `state`, and what it has dispatched to the page. */
  class State {
    var buffer: string
    var terminalEvent: string // empty for null
    const parses: string -> bool // JSON.parse returns
    ghost var dispatched: seq<Event>

    constructor (parses: string -> bool)
      ensures buffer == "" && terminalEvent == "" && dispatched == [] && this.parses == parses
    {
      buffer, terminalEvent, dispatched, this.parses := "", "", [], parses;
    }

    /** What these events, or those before one that does not parse, do to the state. */
    twostate predicate Takes(events: seq<Event>, threw: bool)
      reads this
    {
      && dispatched == old(dispatched) + Taken(parses, events) && (threw <==> Taken(parses, events) != events)
      && terminalEvent == LastTerminal(Taken(parses, events), old(terminalEvent))
    }

    method DispatchEvent(name: string, data: string) returns (threw: bool)
      modifies this`dispatched, this`terminalEvent
      ensures Takes([Event(name, data)], threw)
    {
      TakenOne(parses, Event(name, data));
      if !parses(data) {
        return true;
      }
      threw := false;
      dispatched := dispatched + [Event(name, data)];
      assert Front([Event(name, data)]) == [];
      if name == "done" || name == "error" {
        terminalEvent := name;
      }
    }

    method ConsumeFrame(frame: string) returns (threw: bool)
      modifies this`dispatched, this`terminalEvent
      ensures Takes(Dispatched(frame), threw)
    {
      if Trim(frame) == "" {
        return false;
      }
      var name := "message";
      var data: seq<string> := [];
      var lines := Lines(frame);
      var i := 0;
      while i < |lines|
        invariant 0 <= i <= |lines|
        invariant ScriptLines(lines, START) == ScriptLines(lines[i..], Gathered(name, data))
        invariant dispatched == old(dispatched) && terminalEvent == old(terminalEvent)
      {
        assert lines[i..][1..] == lines[i + 1..];
        assert "event:" <= lines[i] ==> lines[i][0] == "event:"[0];
        assert "data:" <= lines[i] ==> lines[i][0] == "data:"[0];
        if "event:" <= lines[i] {
          name := Trim(lines[i][6..]);
        }
        if "data:" <= lines[i] {
          data := data + [TrimStart(lines[i][5..])];
        }
        i := i + 1;
      }
      threw := DispatchEvent(name, Join(data));
    }

    method ConsumeEach(frames: seq<string>) returns (threw: bool)
      modifies this`dispatched, this`terminalEvent
      ensures Takes(AllDispatched(frames), threw)
    {
      threw := false;
      var i := 0;
      while i < |frames|
        invariant 0 <= i <= |frames| && Takes(AllDispatched(frames[..i]), false)
      {
        Slices(frames[..i], [frames[i]], frames[i + 1..]);
        assert frames == frames[..i] + [frames[i]] + frames[i + 1..];
        TakenStep(parses, old(dispatched), frames[..i], frames[i], frames[i + 1..], old(terminalEvent));
        threw := ConsumeFrame(frames[i]);
        if threw {
          return;
        }
        assert frames[..i] + [frames[i]] == frames[..i + 1];
        i := i + 1;
      }
      assert frames[..i] == frames;
    }

    /** One chunk, or the flushed end of the stream.  An event that does not parse ends the call
        with an exception, the later frames of the chunk being lost. */
    method ConsumeFrames(text: string, flush: bool) returns (threw: bool)
      modifies this
      ensures buffer == Consumed(old(buffer), text, flush).0
      ensures Takes(Consumed(old(buffer), text, flush).1, threw)
    {
      buffer := buffer + Unix(text);
      var frames := Pieces(buffer);
      if flush {
        buffer := "";
      } else {
        buffer := Last(frames);
        frames := Front(frames);
      }
      threw := ConsumeEach(frames);
    }
  }

  /** One more frame, after frames whose events all parsed. */
  lemma TakenStep(parses: string -> bool, before: seq<Event>, frames: seq<string>, frame: string, later: seq<string>, terminal: string)
    requires Taken(parses, AllDispatched(frames)) == AllDispatched(frames)
    ensures var now, ends := Taken(parses, Dispatched(frame)), Taken(parses, Dispatched(frame)) == Dispatched(frame);
      var all := AllDispatched(frames + [frame] + later);
      && before + AllDispatched(frames) + now == before + Taken(parses, AllDispatched(frames + [frame]))
      && LastTerminal(Taken(parses, AllDispatched(frames + [frame])), terminal)
         == LastTerminal(now, LastTerminal(AllDispatched(frames), terminal))
      && (ends <==> Taken(parses, AllDispatched(frames + [frame])) == AllDispatched(frames + [frame]))
      && (!ends ==> Taken(parses, all) == Taken(parses, AllDispatched(frames + [frame])) && Taken(parses, all) != all)
  {
    var done, one := AllDispatched(frames), Dispatched(frame);
    var now := Taken(parses, one);
    DispatchedSnoc(frames, frame);
    TakenAppend(parses, done, one);
    Associates(before, done, now);
    TerminalAppend(done, now, terminal);
    DispatchedAppend(frames + [frame], later);
    TakenAppend(parses, done + one, AllDispatched(later));
    assert now != one ==> |now| < |one|;
  }

  lemma DispatchedCons(head: string, tail: seq<string>)
    ensures AllDispatched([head] + tail) == Dispatched(head) + AllDispatched(tail)
  {
    Cons(head, tail);
  }

  lemma {:induction false} DispatchedAppend(a: seq<string>, b: seq<string>)
    ensures AllDispatched(a + b) == AllDispatched(a) + AllDispatched(b)
  {
    if a == [] {
      assert a + b == b;
    } else {
      var head, tail := a[0], a[1..];
      Uncons(a);
      DispatchedAppend(tail, b);
      DispatchedCons(head, tail + b);
      Associates([head], tail, b);
      Associates(Dispatched(head), AllDispatched(tail), AllDispatched(b));
    }
  }

  lemma DispatchedSnoc(frames: seq<string>, frame: string)
    ensures AllDispatched(frames + [frame]) == AllDispatched(frames) + Dispatched(frame)
  {
    DispatchedAppend(frames, [frame]);
    assert AllDispatched([frame]) == Dispatched(frame) + AllDispatched([]);
  }

  lemma {:induction false} TerminalAppend(a: seq<Event>, b: seq<Event>, before: string)
    ensures LastTerminal(a + b, before) == LastTerminal(b, LastTerminal(a, before))
    decreases |b|
  {
    if b == [] {
      assert a + b == a;
    } else {
      assert Last(a + b) == Last(b) && Front(a + b) == a + Front(b);
      TerminalAppend(a, Front(b), before);
    }
  }

  // ----------------------------------------------------------------- iter_sse

  /** The index of the first colon, or the length. */
  function Colon(line: string): (i: nat)
    ensures i <= |line|
  {
    if line == [] || line[0] == ':' then 0 else 1 + Colon(line[1..])
  }

  function WithoutSpace(value: string): string {
    if " " <= value then value[1..] else value
  }

  function LauncherLine(line: string, g: Gathered): Gathered {
    if ":" <= line then g
    else
      var at := Colon(line);
      var value := if at < |line| then WithoutSpace(line[at + 1..]) else "";
      if line[..at] == "event" then g.(name := value)
      else if line[..at] == "data" then g.(data := g.data + [value])
      else g
  }

  function Yielded(g: Gathered): seq<Event> {
    if g.data == [] then [] else [Event(g.name, Join(g.data))]
  }

  function LauncherEvents(lines: seq<string>, g: Gathered): seq<Event> {
    if lines == [] then Yielded(g)
    else if lines[0] == "" then Yielded(g) + LauncherEvents(lines[1..], START)
    else LauncherEvents(lines[1..], LauncherLine(lines[0], g))
  }

  /** The generator.  A data text that does not parse ends it with an exception. */
  method IterSse(lines: seq<string>, parses: string -> bool) returns (events: seq<Event>, raised: bool)
    ensures events == Taken(parses, LauncherEvents(lines, START))
    ensures raised <==> events != LauncherEvents(lines, START)
  {
    events, raised := [], false;
    var eventName := "message";
    var dataLines: seq<string> := [];
    var i := 0;
    while i < |lines|
      invariant 0 <= i <= |lines| && Taken(parses, events) == events
      invariant LauncherEvents(lines, START) == events + LauncherEvents(lines[i..], Gathered(eventName, dataLines))
    {
      var line := lines[i];
      assert lines[i..][0] == line && lines[i..][1..] == lines[i + 1..];
      i := i + 1;
      if line == "" {
        if dataLines != [] {
          YieldNext(parses, events, Event(eventName, Join(dataLines)), LauncherEvents(lines[i..], START));
          if !parses(Join(dataLines)) {
            return events, true;
          }
          events := events + [Event(eventName, Join(dataLines))];
        }
        eventName, dataLines := "message", [];
        continue;
      }
      if ":" <= line {
        continue;
      }
      var at := Colon(line);
      var field, separator := line[..at], at < |line|;
      var value := if separator then line[at + 1..] else "";
      if separator && " " <= value {
        value := value[1..];
      }
      if field == "event" {
        eventName := value;
      } else if field == "data" {
        dataLines := dataLines + [value];
      }
    }
    assert LauncherEvents(lines, START) == events + Yielded(Gathered(eventName, dataLines));
    if dataLines == [] {
      assert events + [] == events;
    } else {
      YieldNext(parses, events, Event(eventName, Join(dataLines)), []);
      if !parses(Join(dataLines)) {
        return events, true;
      }
      events := events + [Event(eventName, Join(dataLines))];
    }
  }

  lemma YieldNext(parses: string -> bool, events: seq<Event>, e: Event, later: seq<Event>)
    requires Taken(parses, events) == events
    ensures if parses(e.data) then Taken(parses, events + [e]) == events + [e]
            else Taken(parses, events + ([e] + later)) == events && events != events + ([e] + later)
    ensures events + ([e] + later) == events + [e] + later && [e] + [] == [e]
  {
    TakenOne(parses, e);
    TakenAppend(parses, events, [e]);
    TakenAppend(parses, [e], later);
    TakenAppend(parses, events, [e] + later);
    Associates(events, [e], later);
  }
}
