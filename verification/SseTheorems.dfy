/** How the stream is cut into chunks does not matter, and the two readers agree. */
module SseTheorems {
  import opened Sequences
  import opened Text
  import opened SseFraming

  // ----------------------------------------------------------------- cutting the stream

  function Concat(chunks: seq<string>): string {
    if chunks == [] then "" else chunks[0] + Concat(chunks[1..])
  }

  function UnixEach(chunks: seq<string>): string {
    if chunks == [] then "" else Unix(chunks[0]) + UnixEach(chunks[1..])
  }

  /** All that is dispatched for these chunks and the flushed tail. */
  function Run(buffer: string, chunks: seq<string>, tail: string): seq<Event>
    decreases |chunks|
  {
    if chunks == [] then Consumed(buffer, tail, true).1
    else
      var (rest, events) := Consumed(buffer, chunks[0], false);
      events + Run(rest, chunks[1..], tail)
  }

  lemma PiecesOfGap(s: string)
    ensures Pieces("\n\n" + s) == [""] + Pieces(s)
  {
    assert ("\n\n" + s)[2..] == s;
  }

  lemma PiecesOfPlain(c: char, s: string)
    requires s != [] && !(c == '\n' && s[0] == '\n')
    ensures Pieces([c] + s) == [[c] + Pieces(s)[0]] + Pieces(s)[1..]
  {
    Cons(c, s);
  }

  lemma {:induction false} OnePieceIsWhole(s: string)
    requires |Pieces(s)| == 1
    ensures Pieces(s) == [s]
    decreases |s|
  {
    if |s| >= 2 && !(s[0] == '\n' && s[1] == '\n') {
      OnePieceIsWhole(s[1..]);
      Uncons(s);
    }
  }

  lemma FrontAndLast<T>(head: T, tail: seq<T>)
    requires tail != []
    ensures Front([head] + tail) == [head] + Front(tail) && Last([head] + tail) == Last(tail)
  {
  }

  /** Separators found in a prefix stay where they are; only the last piece can still grow. */
  lemma {:induction false} PiecesOnline(s: string, t: string)
    ensures Pieces(s + t) == Front(Pieces(s)) + Pieces(Last(Pieces(s)) + t)
    decreases |s|
  {
    if |Pieces(s)| == 1 {
      OnePieceIsWhole(s);
      assert Front([s]) == [];
    } else if s[0] == '\n' && s[1] == '\n' {
      var r := s[2..];
      assert s == "\n\n" + r;
      PiecesOnline(r, t);
      PiecesOfGap(r);
      PiecesOfGap(r + t);
      Associates("\n\n", r, t);
      FrontAndLast("", Pieces(r));
      Associates([""], Front(Pieces(r)), Pieces(Last(Pieces(r)) + t));
    } else {
      PiecesOnlinePlain(s[0], s[1..], t);
      Uncons(s);
    }
  }

  lemma {:induction false} PiecesOnlinePlain(c: char, r: string, t: string)
    requires r != [] && !(c == '\n' && r[0] == '\n') && |Pieces(r)| > 1
    ensures Pieces([c] + r + t) == Front(Pieces([c] + r)) + Pieces(Last(Pieces([c] + r)) + t)
    decreases |r| + 1, 0
  {
    PiecesOnline(r, t);
    PiecesOfPlain(c, r);
    Associates([c], r, t);
    PiecesOfPlain(c, r + t);
    var ps, after := Pieces(r), Pieces(Last(Pieces(r)) + t);
    assert Pieces(r + t) == Front(ps) + after;
    var grown := [[c] + ps[0]] + ps[1..];
    assert Last(grown) == Last(ps);
    assert Front(grown) == [[c] + ps[0]] + Front(ps)[1..];
    assert (Front(ps) + after)[0] == ps[0] && (Front(ps) + after)[1..] == Front(ps)[1..] + after;
    Associates([[c] + ps[0]], Front(ps)[1..], after);
  }

  /** The events depend only on the assembled text, not on where it was cut. */
  lemma {:induction false} CutsAreInvisible(buffer: string, chunks: seq<string>, tail: string)
    ensures Run(buffer, chunks, tail) == AllDispatched(Pieces(buffer + (UnixEach(chunks) + Unix(tail))))
    decreases |chunks|
  {
    if chunks == [] {
      assert "" + Unix(tail) == Unix(tail);
    } else {
      var first, others := Unix(chunks[0]), UnixEach(chunks[1..]);
      var s, t := buffer + first, others + Unix(tail);
      PiecesOnline(s, t);
      DispatchedAppend(Front(Pieces(s)), Pieces(Last(Pieces(s)) + t));
      CutsAreInvisible(Last(Pieces(s)), chunks[1..], tail);
      Associates(first, others, Unix(tail));
      Associates(buffer, first, t);
    }
  }

  /** Some cut falls between a carriage return and its line feed. */
  predicate CutsAPair(chunks: seq<string>) {
    chunks != [] && (CutsBetween(chunks[0], Concat(chunks[1..])) || CutsAPair(chunks[1..]))
  }

  predicate CutsBetween(s: string, t: string) {
    s != [] && t != [] && s[|s| - 1] == '\r' && t[0] == '\n'
  }

  lemma UnixOfPair(s: string)
    ensures Unix("\r\n" + s) == "\n" + Unix(s)
  {
    assert ("\r\n" + s)[2..] == s;
  }

  lemma UnixOfPlain(c: char, s: string)
    requires !(c == '\r' && s != [] && s[0] == '\n')
    ensures Unix([c] + s) == [c] + Unix(s)
  {
    Cons(c, s);
  }

  lemma {:induction false} UnixAppend(s: string, t: string)
    ensures !CutsBetween(s, t) ==> Unix(s + t) == Unix(s) + Unix(t)
    ensures CutsBetween(s, t) ==>
      Unix(s) != [] && Last(Unix(s)) == '\r' && Unix(s + t) == Front(Unix(s)) + Unix(t)
    decreases |s|
  {
    if s == [] {
      assert s + t == t;
    } else if s[0] == '\r' && |s| > 1 && s[1] == '\n' {
      var r := s[2..];
      assert s == "\r\n" + r;
      UnixAppend(r, t);
      UnixOfPair(r);
      UnixOfPair(r + t);
      Associates("\r\n", r, t);
      Associates("\n", Unix(r), Unix(t));
    } else if CutsBetween(s, t) && |s| == 1 {
      var u := t[1..];
      Uncons(t);
      assert s + t == "\r\n" + u;
      UnixOfPair(u);
      UnixOfPlain('\n', u);
      assert Unix(s) == s;
    } else {
      var c, r := s[0], s[1..];
      Uncons(s);
      UnixAppend(r, t);
      UnixOfPlain(c, r);
      UnixOfPlain(c, r + t);
      Associates([c], r, t);
      Associates([c], Unix(r), Unix(t));
    }
  }

  /** Chunk by chunk, the page assembles the stream with its line ends normalised exactly when no
      cut falls inside a CRLF pair; every such cut leaves a carriage return behind. */
  lemma {:induction false} AssembledExactly(chunks: seq<string>)
    ensures UnixEach(chunks) == Unix(Concat(chunks)) <==> !CutsAPair(chunks)
    ensures |Unix(Concat(chunks))| <= |UnixEach(chunks)|
    ensures CutsAPair(chunks) ==> |Unix(Concat(chunks))| < |UnixEach(chunks)|
    decreases |chunks|
  {
    if chunks != [] {
      AssembledExactly(chunks[1..]);
      UnixAppend(chunks[0], Concat(chunks[1..]));
    }
  }

  lemma {:induction false} ConcatSnoc(chunks: seq<string>, tail: string)
    ensures Concat(chunks + [tail]) == Concat(chunks) + tail
    ensures UnixEach(chunks + [tail]) == UnixEach(chunks) + Unix(tail)
    decreases |chunks|
  {
    if chunks == [] {
      assert chunks + [tail] == [tail];
    } else {
      var first, others := chunks[0], chunks[1..];
      Uncons(chunks);
      ConcatSnoc(others, tail);
      Associates([first], others, [tail]);
      Cons(first, others + [tail]);
      Associates(first, Concat(others), tail);
      Associates(Unix(first), UnixEach(others), Unix(tail));
    }
  }

  /** Any cutting that keeps CRLF pairs together dispatches what the whole stream would. */
  lemma ChunkingInvariance(chunks: seq<string>, tail: string)
    requires !CutsAPair(chunks + [tail])
    ensures Run("", chunks, tail) == Run("", [], Concat(chunks) + tail)
  {
    CutsAreInvisible("", chunks, tail);
    CutsAreInvisible("", [], Concat(chunks) + tail);
    ConcatSnoc(chunks, tail);
    AssembledExactly(chunks + [tail]);
    assert "" + Unix(Concat(chunks) + tail) == Unix(Concat(chunks) + tail);
  }

  lemma {:induction false} NoReturnsNoCuts(chunks: seq<string>)
    requires '\r' !in Concat(chunks)
    ensures !CutsAPair(chunks)
    decreases |chunks|
  {
    if chunks != [] {
      NoReturnsNoCuts(chunks[1..]);
    }
  }

  /** A stream with line feeds only can be cut anywhere. */
  lemma LineFeedStreamsCutAnywhere(chunks: seq<string>, tail: string)
    requires '\r' !in Concat(chunks) && '\r' !in tail
    ensures Run("", chunks, tail) == Run("", [], Concat(chunks) + tail)
  {
    ConcatSnoc(chunks, tail);
    NoReturnsNoCuts(chunks + [tail]);
    ChunkingInvariance(chunks, tail);
  }

  // ----------------------------------------------------------------- reading until the answer ends

  /** Some event is named "done" or "error". */
  ghost predicate Finishes(events: seq<Event>) {
    exists i :: 0 <= i < |events| && events[i].name in {"done", "error"}
  }

  /** The last event of such a name is named `name`. */
  ghost predicate FinishesAs(events: seq<Event>, name: string) {
    exists i :: 0 <= i < |events| && events[i].name == name && name in {"done", "error"} && !Finishes(events[i + 1..])
  }

  lemma {:induction false} TerminalExactly(events: seq<Event>)
    ensures LastTerminal(events, "") == "" <==> !Finishes(events)
    ensures LastTerminal(events, "") != "" ==> FinishesAs(events, LastTerminal(events, ""))
  {
    if events != [] {
      var front, last := Front(events), Last(events);
      TerminalExactly(front);
      assert events[|events| - 1] == last && events[|events|..] == [];
      assert Finishes(front) ==> Finishes(events);
      if last.name !in {"done", "error"} && Finishes(front) {
        FinishesAsOn(front, last, LastTerminal(front, ""));
        assert events == front + [last];
      }
    }
  }

  lemma FinishesAsOn(events: seq<Event>, last: Event, name: string)
    requires FinishesAs(events, name) && last.name !in {"done", "error"}
    ensures FinishesAs(events + [last], name)
  {
    var i :| 0 <= i < |events| && events[i].name == name && name in {"done", "error"} && !Finishes(events[i + 1..]);
    var more := events + [last];
    assert more[i].name == name && more[i + 1..] == events[i + 1..] + [last];
    FinishesAppend(events[i + 1..], [last]);
  }

  lemma FinishesAsAfter(before: seq<Event>, now: seq<Event>, name: string)
    requires FinishesAs(now, name)
    ensures FinishesAs(before + now, name)
  {
    var i :| 0 <= i < |now| && now[i].name == name && name in {"done", "error"} && !Finishes(now[i + 1..]);
    var all := before + now;
    assert all[|before| + i].name == name && all[|before| + i + 1..] == now[i + 1..];
  }

  lemma TakenRun(parses: string -> bool, before: seq<Event>, now: seq<Event>, later: seq<Event>)
    requires Taken(parses, before) == before
    ensures before + Taken(parses, now) <= Taken(parses, before + (now + later))
    ensures Taken(parses, now) == now ==> Taken(parses, before + now) == before + now
    ensures Taken(parses, now) != now ==>
      Taken(parses, before + (now + later)) == before + Taken(parses, now)
      && before + Taken(parses, now) != before + (now + later)
  {
    TakenAppend(parses, now, later);
    TakenAppend(parses, before, now);
    TakenAppend(parses, before, now + later);
    Associates(before, now, later);
    assert Taken(parses, now) != now ==> |Taken(parses, now)| < |now|;
  }

  lemma FinishesBefore(events: seq<Event>, more: seq<Event>)
    requires events <= more
    ensures Finishes(events) ==> Finishes(more)
  {
    assert more == events + more[|events|..];
    FinishesAppend(events, more[|events|..]);
  }

  lemma FinishesAppend(a: seq<Event>, b: seq<Event>)
    ensures Finishes(a + b) <==> Finishes(a) || Finishes(b)
  {
    assert forall i :: 0 <= i < |a| ==> (a + b)[i] == a[i];
    assert forall i :: 0 <= i < |b| ==> (a + b)[|a| + i] == b[i];
  }

  lemma TurnFinishes(before: seq<Event>, now: seq<Event>)
    requires !Finishes(before)
    ensures LastTerminal(now, "") != "" <==> Finishes(before + now)
    ensures LastTerminal(now, "") != "" ==> FinishesAs(before + now, LastTerminal(now, ""))
  {
    TerminalExactly(now);
    FinishesAppend(before, now);
    if LastTerminal(now, "") != "" {
      FinishesAsAfter(before, now, LastTerminal(now, ""));
    }
  }

  /** What is left and what has been dispatched after some chunks, none of them the flushed end. */
  function After(chunks: seq<string>): (string, seq<Event>) {
    if chunks == [] then ("", [])
    else
      var (buffer, events) := After(Front(chunks));
      var (rest, more) := Consumed(buffer, Last(chunks), false);
      (rest, events + more)
  }

  lemma AfterNext(chunks: seq<string>, i: nat)
    requires i < |chunks|
    ensures After(chunks[..i + 1]) == var (buffer, events) := After(chunks[..i]);
      var (rest, more) := Consumed(buffer, chunks[i], false);
      (rest, events + more)
  {
    TakeNext(chunks, i);
  }

  /** The loop before it reads the i-th chunk: every event so far parsed. */
  ghost predicate Underway(chunks: seq<string>, tail: string, parses: string -> bool, i: nat, buffer: string, shown: seq<Event>) {
    && i <= |chunks| && (buffer, shown) == After(chunks[..i]) && Taken(parses, shown) == shown && !Finishes(shown)
    && Run("", chunks, tail) == shown + Run(buffer, chunks[i..], tail)
  }

  /** The events that the page has been shown once `read` chunks and the one that ended the loop are read. */
  function Offered(chunks: seq<string>, tail: string, read: nat): seq<Event>
    requires read <= |chunks|
  {
    if read < |chunks| then After(chunks[..read + 1]).1 else Run("", chunks, tail)
  }

  lemma Turn(chunks: seq<string>, tail: string, parses: string -> bool, i: nat, buffer: string, shown: seq<Event>)
    requires Underway(chunks, tail, parses, i, buffer, shown)
    ensures var (rest, now) := Consumed(buffer, if i == |chunks| then tail else chunks[i], i == |chunks|);
      var all, got := Run("", chunks, tail), Taken(parses, now);
      && shown + got == Taken(parses, Offered(chunks, tail, i)) && shown + got <= Taken(parses, all)
      && (got != now ==> shown + got == Taken(parses, all) && shown + got != all)
      && (got == now && i == |chunks| ==> shown + got == Taken(parses, all) == all)
      && (got == now && i < |chunks| && !Finishes(shown + now) ==> Underway(chunks, tail, parses, i + 1, rest, shown + now))
  {
    var (rest, now) := Consumed(buffer, if i == |chunks| then tail else chunks[i], i == |chunks|);
    TakenRun(parses, shown, now, []);
    assert now + [] == now;
    if i < |chunks| {
      var later := Run(rest, chunks[i + 1..], tail);
      assert chunks[i..][1..] == chunks[i + 1..];
      AfterNext(chunks, i);
      TakenRun(parses, shown, now, later);
      Associates(shown, now, later);
    }
  }

  /** The loop once a chunk has brought an event named "done" or "error". */
  ghost predicate Answered(chunks: seq<string>, tail: string, parses: string -> bool, read: nat, shown: seq<Event>, name: string) {
    && read < |chunks| && !Finishes(After(chunks[..read]).1) && shown == Taken(parses, After(chunks[..read + 1]).1)
    && Finishes(shown) && FinishesAs(shown, name)
    && shown <= Taken(parses, Run("", chunks, tail)) && Finishes(Taken(parses, Run("", chunks, tail)))
  }

  /** The page's loop: it reads until a chunk brings an event named "done" or "error" or one that
      does not parse, and otherwise flushes at the end of the stream.  `taken` are the stream's events
      before one that does not parse; `read` chunks were read before the one that ended the loop. */
  method SubmitQuestion(chunks: seq<string>, tail: string, parses: string -> bool)
      returns (state: State, threw: bool, ghost read: nat)
    ensures var taken := Taken(parses, Run("", chunks, tail));
      && state.dispatched <= taken
      && (state.terminalEvent != "" <==> Finishes(taken)) && (Finishes(state.dispatched) <==> Finishes(taken))
      && (state.terminalEvent == "" ==> state.dispatched == taken)
      && (threw ==> state.dispatched == taken && taken != Run("", chunks, tail))
      && (!threw && state.terminalEvent == "" ==> taken == Run("", chunks, tail))
    ensures state.terminalEvent != "" ==> FinishesAs(state.dispatched, state.terminalEvent)
    ensures read <= |chunks| && !Finishes(After(chunks[..read]).1) && state.dispatched == Taken(parses, Offered(chunks, tail, read))
  {
    state := new State(parses);
    ghost var all := Run("", chunks, tail);
    var i := 0;
    assert chunks[..0] == [] && chunks[0..] == chunks && [] + all == all;
    threw, read := false, 0;
    while state.terminalEvent == ""
      invariant 0 <= i <= |chunks| && state.parses == parses && !threw
      invariant state.terminalEvent == "" ==> Underway(chunks, tail, parses, i, state.buffer, state.dispatched)
      invariant state.terminalEvent != "" ==> Answered(chunks, tail, parses, read, state.dispatched, state.terminalEvent)
      decreases |chunks| - i
    {
      ghost var before, buffer := state.dispatched, state.buffer;
      ghost var now := Consumed(buffer, if i == |chunks| then tail else chunks[i], i == |chunks|).1;
      Turn(chunks, tail, parses, i, buffer, before);
      TurnFinishes(before, Taken(parses, now));
      FinishesBefore(before + Taken(parses, now), Taken(parses, all));
      read := i;
      if i == |chunks| {
        threw := state.ConsumeFrames(tail, true);
        break;
      }
      threw := state.ConsumeFrames(chunks[i], false);
      if threw {
        break;
      }
      i := i + 1;
    }
  }
}
