/** What the registry promises: the structures never disagree, and the registry as a whole behaves
    like one independent little machine per session. */
module ChatRegistryTheorems {
  import opened Ordering
  import opened Sequences
  import opened ChatRegistry
  import Text

  // ----------------------------------------------------------------- SessionMap keeps its shape

  lemma {:induction false} ExceptWorks(s: seq<Session>, x: Session)
    requires Distinct(s)
    ensures Distinct(Except(s, x)) && Elements(Except(s, x)) == Elements(s) - {x}
  {
    if s != [] {
      var t := s[1..];
      ExceptWorks(t, x);
      assert s == [s[0]] + t;
      assert Elements(s) == {s[0]} + Elements(t);
      var head := if s[0] == x then [] else [s[0]];
      assert Except(s, x) == head + Except(t, x);
      assert Elements(Except(s, x)) == Elements(head) + Elements(Except(t, x));
      assert s[0] !in Elements(t) by {
        assert forall i :: 0 <= i < |t| ==> t[i] == s[i + 1];
      }
      assert s[0] !in Except(t, x) by {
        assert s[0] !in Elements(Except(t, x));
      }
    }
  }

  lemma {:induction false} ExceptNone(s: seq<Session>, x: Session)
    requires x !in s
    ensures Except(s, x) == s
  {
    if s != [] {
      ExceptNone(s[1..], x);
      assert s == [s[0]] + s[1..];
    }
  }

  lemma {:induction false} ExceptAppend(a: seq<Session>, b: seq<Session>, x: Session)
    ensures Except(a + b, x) == Except(a, x) + Except(b, x)
    decreases |a|
  {
    if a == [] {
      assert a + b == b;
    } else {
      var head := if a[0] == x then [] else [a[0]];
      Uncons(a);
      Associates([a[0]], a[1..], b);
      Cons(a[0], a[1..] + b);
      ExceptAppend(a[1..], b, x);
      Associates(head, Except(a[1..], x), Except(b, x));
    }
  }

  /** Taking an element out leaves the others in their order. */
  lemma ExceptAt(s: seq<Session>, i: nat)
    requires Distinct(s) && i < |s|
    ensures Except(s, s[i]) == s[..i] + s[i + 1..]
  {
    var x, a, b := s[i], s[..i], s[i + 1..];
    TakeNext(s, i);
    assert s == a + [x] + b;
    ExceptNone(a, x);
    ExceptNone(b, x);
    ExceptAppend(a, [x], x);
    ExceptAppend(a + [x], b, x);
    assert Except([x], x) == [] && a + [] == a;
  }

  lemma CreateInKeeps(m: SessionMap, s: Session)
    requires MapOk(m) && s !in m.sessions
    ensures MapOk(CreateIn(m, s))
  {
    var m' := CreateIn(m, s);
    assert forall x :: x in m.order ==> x in Elements(m.order);
    forall x ensures ListOk(m', x) {
      assert ListOk(m, x);
    }
    forall c ensures OwnerOk(m', c) {
      assert OwnerOk(m, c);
    }
  }

  lemma AddToKeeps(m: SessionMap, s: Session, c: Conversation)
    requires MapOk(m) && s in m.sessions && (c in m.owners ==> m.owners[c] == s)
    ensures MapOk(AddTo(m, s, c))
    ensures AddTo(m, s, c).sessions[s] == if c in m.sessions[s] then m.sessions[s] else m.sessions[s] + [c]
    ensures AddTo(m, s, c).sessions.Keys == m.sessions.Keys
    ensures forall x :: x in m.sessions && x != s ==> AddTo(m, s, c).sessions[x] == m.sessions[x]
  {
    var m' := AddTo(m, s, c);
    assert ListOk(m, s) && OwnerOk(m, c);
    forall x ensures ListOk(m', x) {
      assert ListOk(m, x);
    }
    forall d ensures OwnerOk(m', d) {
      assert OwnerOk(m, d);
    }
  }

  lemma DeleteFromKeeps(m: SessionMap, s: Session)
    requires MapOk(m) && s in m.sessions
    ensures MapOk(DeleteFrom(m, s))
  {
    var m' := DeleteFrom(m, s);
    ExceptWorks(m.order, s);
    forall x ensures ListOk(m', x) {
      assert ListOk(m, x) && ListOk(m, s);
    }
    forall c ensures OwnerOk(m', c) {
      assert OwnerOk(m, c) && ListOk(m, s);
    }
  }

  // ----------------------------------------------------------------- one session

  datatype Chat = Chat(title: string, talks: seq<Transcript>, streams: set<Conversation>, reserved: bool)

  lemma {:induction false} ShowsAll(ids: seq<Conversation>, transcripts: map<Conversation, Transcript>)
    requires forall c :: c in ids ==> c in transcripts
    ensures Shows(ids, transcripts).Some? && |Shows(ids, transcripts).value| == |ids|
    ensures forall i :: 0 <= i < |ids| ==> Shows(ids, transcripts).value[i] == transcripts[ids[i]]
  {
    if ids != [] {
      var rest := ids[1..];
      forall c | c in rest ensures c in transcripts {
        assert c in ids;
      }
      ShowsAll(rest, transcripts);
      var shown := Shows(ids, transcripts).value;
      forall i | 0 <= i < |ids| ensures shown[i] == transcripts[ids[i]] {
        assert i > 0 ==> ids[i] == rest[i - 1];
      }
    }
  }

  /** A snapshot of an existing session always succeeds. */
  lemma SnapshotSucceeds(r: Registry, k: Key)
    requires SessionOk(r, k)
    ensures if Exists(r, k) then Show(r, k).Shown? else Show(r, k) == Failed(NotFound)
  {
    if Exists(r, k) {
      forall c | c in ConversationsOf(r, k) ensures c in r.transcripts[k] {
        assert c in Elements(ConversationsOf(r, k));
      }
      ShowsAll(ConversationsOf(r, k), r.transcripts[k]);
    }
  }

  /** All that the registry knows of one session. */
  ghost function View(r: Registry, k: Key): Option<Chat>
    requires SessionOk(r, k)
  {
    SnapshotSucceeds(r, k);
    if !Exists(r, k) then None
    else Some(Chat(r.titles[k], Show(r, k).snapshot.conversations, Streams(r.active, k), k in r.deleting))
  }

  // ----------------------------------------------------------------- the machine of one session

  function Find(talks: seq<Transcript>, c: Conversation): Option<nat> {
    if talks == [] then None
    else if talks[0].conversation == c then Some(0)
    else
      var i := Find(talks[1..], c);
      if i.None? then None else Some(i.value + 1)
  }

  /** A repeated conversation is rewritten where it stands. */
  function Put(talks: seq<Transcript>, t: Transcript): seq<Transcript> {
    var i := Find(talks, t.conversation);
    if i.None? || i.value >= |talks| then talks + [t] else talks[i.value := t]
  }

  function Ids(talks: seq<Transcript>): seq<Conversation> {
    seq(|talks|, i requires 0 <= i < |talks| => talks[i].conversation)
  }

  /** An operation on one session, given whether the named conversation is another session's. */
  function Step(v: Option<Chat>, op: Op, elsewhere: bool): (Option<Chat>, Reply)
    requires !op.ListSessions?
  {
    if op.RecordConversation? && (Text.Blank(op.question) || Text.Blank(op.answer)) then (v, Failed(BlankText))
    else if v.None? then
      match op
      case CreateSession(k) => (Some(Chat("New Chat", [], {}, false)), Shown(Snapshot(k, "New Chat", [])))
      case EndStream(_, _) => (v, Done)
      case Abort(_) => (v, Done)
      case Commit(_) => (v, Failed(NotReserved))
      case _ => (v, Failed(NotFound))
    else
      var chat := v.value;
      match op
      case CreateSession(_) => (v, Failed(AlreadyExists))
      case GetSession(k) => (v, Shown(Snapshot(k, chat.title, chat.talks)))
      case RecordConversation(_, c, question, answer) =>
        if chat.reserved then (v, Failed(DeletionInProgress))
        else if elsewhere then (v, Failed(BelongsElsewhere))
        else (Some(chat.(talks := Put(chat.talks, Transcript(c, question, answer)))), Done)
      case UpdateTitle(_, title) => (Some(chat.(title := title)), Title(title))
      case ConversationIds(_) => (v, Conversations(Ids(chat.talks)))
      case BeginStream(_, c) =>
        if chat.reserved then (v, Failed(DeletionInProgress))
        else if c in chat.streams then (v, Failed(StreamExists))
        else (Some(chat.(streams := chat.streams + {c})), Done)
      case EndStream(_, c) => (Some(chat.(streams := chat.streams - {c})), Done)
      case Reserve(_) =>
        if chat.streams != {} then (v, Failed(StreamsActive))
        else if chat.reserved then (v, Failed(DeletionInProgress))
        else (Some(chat.(reserved := true)), Conversations(Ids(chat.talks)))
      case Abort(_) => (Some(chat.(reserved := false)), Done)
      case Commit(_) => if chat.reserved then (None, Conversations(Ids(chat.talks))) else (v, Failed(NotReserved))
  }

  /** Another session of the same user holds the conversation. */
  ghost predicate Elsewhere(r: Registry, k: Key, c: Conversation) {
    exists s :: s != k.session && c in ConversationsOf(r, Key(k.user, s))
  }

  /** The two registries hold the same about one session. */
  ghost predicate Agree(r: Registry, r': Registry, k: Key) {
    && Exists(r, k) == Exists(r', k) && ConversationsOf(r, k) == ConversationsOf(r', k)
    && (k in r.titles <==> k in r'.titles) && (k in r.titles ==> r'.titles[k] == r.titles[k])
    && (k in r.transcripts <==> k in r'.transcripts) && (k in r.transcripts ==> r'.transcripts[k] == r.transcripts[k])
    && (k in r.active <==> k in r'.active) && (k in r.active ==> r'.active[k] == r.active[k])
    && (k in r.deleting <==> k in r'.deleting)
  }

  lemma AgreeKeeps(r: Registry, r': Registry, k: Key)
    requires SessionOk(r, k) && Agree(r, r', k)
    ensures SessionOk(r', k) && View(r', k) == View(r, k)
  {
  }

  /** The operation's reply and its effect on its own session are the little machine's, no other
      session notices, and the structures still agree. */
  ghost predicate Refined(r: Registry, op: Op)
    requires Consistent(r) && !op.ListSessions?
  {
    var (r', reply) := Do(r, op);
    && Consistent(r')
    && (forall x :: x != op.key ==> View(r', x) == View(r, x))
    && (View(r', op.key), reply) == Step(View(r, op.key), op, op.RecordConversation? && Elsewhere(r, op.key, op.conversation))
  }

  lemma TouchMoves(r: Registry, user: User)
    requires Consistent(r)
    ensures Consistent(Touch(r, user)) && forall x :: View(Touch(r, user), x) == View(r, x)
  {
    var r' := Touch(r, user);
    forall u ensures MapOk(MapOf(r', u)) {
      assert MapOk(MapOf(r, u));
    }
    forall x ensures SessionOk(r', x) && View(r', x) == View(r, x) {
      assert SessionOk(r, x) && Agree(r, r', x);
      AgreeKeeps(r, r', x);
    }
  }

  /** Assembling the frame: one session is fine afterwards, one user's map is, the rest is equal. */
  lemma Framed(r: Registry, r': Registry, k: Key)
    requires Consistent(r)
    requires SessionOk(r', k) && MapOk(MapOf(r', k.user))
    requires forall u :: u != k.user ==> MapOf(r', u) == MapOf(r, u)
    requires forall x :: x != k ==> Agree(r, r', x)
    ensures Consistent(r') && forall x :: x != k ==> View(r', x) == View(r, x)
  {
    forall u ensures MapOk(MapOf(r', u)) {
      assert MapOk(MapOf(r, u));
    }
    forall x ensures SessionOk(r', x) && (x != k ==> View(r', x) == View(r, x)) {
      assert SessionOk(r, x);
      if x != k {
        AgreeKeeps(r, r', x);
      }
    }
  }

  lemma CreateFramed(r: Registry, k: Key)
    requires Consistent(r) && !Exists(r, k)
    ensures var r' := Create(r, k).0;
      Consistent(r') && forall x :: x != k ==> View(r', x) == View(r, x)
  {
    var r' := Create(r, k).0;
    assert SessionOk(r, k) && MapOk(MapOf(r, k.user));
    CreateInKeeps(MapOf(r, k.user), k.session);
    assert SessionOk(r', k);
    Framed(r, r', k);
  }

  lemma CreateRefines(r: Registry, k: Key)
    requires Consistent(r)
    ensures Refined(r, CreateSession(k))
  {
    assert SessionOk(r, k);
    if !Exists(r, k) {
      CreateFramed(r, k);
      SnapshotSucceeds(Create(r, k).0, k);
    }
  }

  /** The conversation list is the snapshot's, in its order. */
  lemma TalksAre(r: Registry, k: Key)
    requires SessionOk(r, k) && Exists(r, k)
    ensures Ids(View(r, k).value.talks) == ConversationsOf(r, k)
    ensures forall i :: 0 <= i < |ConversationsOf(r, k)| ==>
      View(r, k).value.talks[i] == r.transcripts[k][ConversationsOf(r, k)[i]]
  {
    var ids := ConversationsOf(r, k);
    forall c | c in ids ensures c in r.transcripts[k] {
      assert c in Elements(ids);
    }
    ShowsAll(ids, r.transcripts[k]);
  }

  lemma ReadRefines(r: Registry, op: Op)
    requires Consistent(r) && (op.GetSession? || op.ConversationIds?)
    ensures Refined(r, op)
  {
    assert SessionOk(r, op.key);
    SnapshotSucceeds(r, op.key);
    TouchMoves(r, op.key.user);
    if Exists(r, op.key) {
      TalksAre(r, op.key);
    }
  }

  /** Operations that look a session up and then change only its title, streams or reservation. */
  lemma MarkRefines(r: Registry, op: Op)
    requires Consistent(r) && (op.UpdateTitle? || op.BeginStream? || op.Reserve?)
    ensures Refined(r, op)
  {
    var k := op.key;
    assert SessionOk(r, k);
    SnapshotSucceeds(r, k);
    if Exists(r, k) {
      TalksAre(r, k);
      MarkFramed(r, op);
    } else {
      TouchMoves(r, k.user);
    }
  }

  /** The session's title, streams or reservation may change, nothing else. */
  ghost predicate OnlyMarks(r: Registry, r': Registry, k: Key) {
    && r'.maps == r.maps && r'.transcripts == r.transcripts && forall x :: x != k ==> Agree(r, r', x)
  }

  lemma Marks(r: Registry, op: Op)
    requires op.UpdateTitle? || op.BeginStream? || op.Reserve?
    requires SessionOk(r, op.key) && Exists(r, op.key) && Show(r, op.key).Shown?
    ensures OnlyMarks(r, Do(r, op).0, op.key) && SessionOk(Do(r, op).0, op.key)
  {
    match op
    case UpdateTitle(k, title) => assert Do(r, op).0 == r.(titles := r.titles[k := title]);
    case BeginStream(k, c) =>
    case Reserve(k) =>
  }

  lemma MarkFramed(r: Registry, op: Op)
    requires Consistent(r) && (op.UpdateTitle? || op.BeginStream? || op.Reserve?)
    requires Exists(r, op.key) && Show(r, op.key).Shown?
    ensures var r' := Do(r, op).0;
      Consistent(r') && forall x :: x != op.key ==> View(r', x) == View(r, x)
  {
    assert SessionOk(r, op.key) && MapOk(MapOf(r, op.key.user));
    Marks(r, op);
    Framed(r, Do(r, op).0, op.key);
  }

  lemma ReleaseRefines(r: Registry, op: Op)
    requires Consistent(r) && (op.EndStream? || op.Abort?)
    ensures Refined(r, op)
  {
    var r' := Do(r, op).0;
    assert SessionOk(r, op.key) && MapOk(MapOf(r, op.key.user));
    assert SessionOk(r', op.key);
    if op.EndStream? {
      assert Streams(r'.active, op.key) == Streams(r.active, op.key) - {op.conversation};
    }
    Framed(r, r', op.key);
  }

  lemma {:induction false} Finds(talks: seq<Transcript>, c: Conversation)
    ensures var i := Find(talks, c);
      if i.None? then forall j :: 0 <= j < |talks| ==> talks[j].conversation != c
      else i.value < |talks| && talks[i.value].conversation == c
  {
    if talks != [] && talks[0].conversation != c {
      var rest := talks[1..];
      Finds(rest, c);
      assert forall j :: 0 < j < |talks| ==> talks[j] == rest[j - 1];
    }
  }

  /** Recording in the list and in the table is putting in the shown transcript. */
  lemma PutShows(ids: seq<Conversation>, table: map<Conversation, Transcript>, t: Transcript)
    requires Distinct(ids) && forall c :: c in ids ==> c in table && table[c].conversation == c
    ensures Shows(ids, table).Some?
    ensures Shows(if t.conversation in ids then ids else ids + [t.conversation], table[t.conversation := t])
         == Some(Put(Shows(ids, table).value, t))
  {
    var ids' := if t.conversation in ids then ids else ids + [t.conversation];
    var table' := table[t.conversation := t];
    ShowsAll(ids, table);
    ShowsAll(ids', table');
    var talks := Shows(ids, table).value;
    forall i | 0 <= i < |ids| ensures talks[i].conversation == ids[i] {
      assert ids[i] in ids;
    }
    Finds(talks, t.conversation);
    assert Shows(ids', table').value == Put(talks, t);
  }

  lemma RecordMap(r: Registry, k: Key, c: Conversation, question: string, answer: string)
    requires MapOk(MapOf(r, k.user)) && Record(r, k, c, question, answer).1.Done?
    ensures var r' := Record(r, k, c, question, answer).0;
      && MapOk(MapOf(r', k.user)) && Exists(r', k)
      && MapOf(r', k.user) == AddTo(MapOf(r, k.user), k.session, c)
      && ConversationsOf(r', k) == (if c in ConversationsOf(r, k) then ConversationsOf(r, k) else ConversationsOf(r, k) + [c])
  {
    AddToKeeps(MapOf(r, k.user), k.session, c);
  }

  lemma RecordAgrees(r: Registry, k: Key, c: Conversation, question: string, answer: string, x: Key)
    requires MapOk(MapOf(r, k.user)) && Record(r, k, c, question, answer).1.Done? && x != k
    ensures Agree(r, Record(r, k, c, question, answer).0, x)
  {
    AddToKeeps(MapOf(r, k.user), k.session, c);
  }

  lemma RecordKeeps(r: Registry, k: Key, c: Conversation, question: string, answer: string)
    requires SessionOk(r, k) && MapOk(MapOf(r, k.user)) && Record(r, k, c, question, answer).1.Done?
    ensures var r' := Record(r, k, c, question, answer).0;
      && SessionOk(r', k) && MapOk(MapOf(r', k.user)) && Exists(r', k)
      && ConversationsOf(r', k) == (if c in ConversationsOf(r, k) then ConversationsOf(r, k) else ConversationsOf(r, k) + [c])
  {
    RecordMap(r, k, c, question, answer);
    var r' := Record(r, k, c, question, answer).0;
    assert Elements(ConversationsOf(r', k)) == Elements(ConversationsOf(r, k)) + {c};
  }

  lemma RecordFramed(r: Registry, k: Key, c: Conversation, question: string, answer: string)
    requires Consistent(r) && Record(r, k, c, question, answer).1.Done?
    ensures var r' := Record(r, k, c, question, answer).0;
      Consistent(r') && forall x :: x != k ==> View(r', x) == View(r, x)
  {
    var r' := Record(r, k, c, question, answer).0;
    assert SessionOk(r, k) && MapOk(MapOf(r, k.user));
    RecordKeeps(r, k, c, question, answer);
    forall x | x != k ensures Agree(r, r', x) {
      RecordAgrees(r, k, c, question, answer, x);
    }
    Framed(r, r', k);
  }

  lemma RecordShows(r: Registry, k: Key, c: Conversation, question: string, answer: string)
    requires SessionOk(r, k) && MapOk(MapOf(r, k.user)) && Record(r, k, c, question, answer).1.Done?
    requires SessionOk(Record(r, k, c, question, answer).0, k)
    ensures View(Record(r, k, c, question, answer).0, k)
         == Some(View(r, k).value.(talks := Put(View(r, k).value.talks, Transcript(c, question, answer))))
  {
    RecordKeeps(r, k, c, question, answer);
    var ids, table := ConversationsOf(r, k), r.transcripts[k];
    assert ListOk(MapOf(r, k.user), k.session);
    forall x | x in ids ensures x in table {
      assert x in Elements(ids);
    }
    PutShows(ids, table, Transcript(c, question, answer));
  }

  lemma RecordRefines(r: Registry, k: Key, c: Conversation, question: string, answer: string)
    requires Consistent(r)
    ensures Refined(r, RecordConversation(k, c, question, answer))
  {
    var (r', reply) := Record(r, k, c, question, answer);
    assert SessionOk(r, k) && MapOk(MapOf(r, k.user));
    OwnedElsewhere(r, k, c);
    if reply.Done? {
      RecordFramed(r, k, c, question, answer);
      RecordShows(r, k, c, question, answer);
    } else {
      TouchMoves(r, k.user);
    }
  }

  /** A recording is refused as blank exactly when the question or the answer holds no character
      but white space; with both, on a session that is there and unreserved, and unless the
      conversation is another session's, it is done. */
  lemma RecordingAnswers(r: Registry, k: Key, c: Conversation, question: string, answer: string)
    requires Consistent(r)
    ensures var reply := Do(r, RecordConversation(k, c, question, answer)).1;
      var asked := exists i :: 0 <= i < |question| && !Text.PythonSpace(question[i]);
      var answered := exists i :: 0 <= i < |answer| && !Text.PythonSpace(answer[i]);
      && (reply == Failed(BlankText) <==> !asked || !answered)
      && (reply == Done <==> asked && answered && Exists(r, k) && k !in r.deleting && !Elsewhere(r, k, c))
  {
    RecordRefines(r, k, c, question, answer);
    Text.BlankExactly(question);
    Text.BlankExactly(answer);
    assert SessionOk(r, k);
  }

  lemma OwnedElsewhere(r: Registry, k: Key, c: Conversation)
    requires MapOk(MapOf(r, k.user))
    ensures Elsewhere(r, k, c) <==> c in MapOf(r, k.user).owners && MapOf(r, k.user).owners[c] != k.session
  {
    var m := MapOf(r, k.user);
    assert OwnerOk(m, c);
    if c in m.owners && m.owners[c] != k.session {
      assert c in ConversationsOf(r, Key(k.user, m.owners[c]));
    }
    if Elsewhere(r, k, c) {
      var s :| s != k.session && c in ConversationsOf(r, Key(k.user, s));
      assert ListOk(m, s);
    }
  }

  lemma CommitFramed(r: Registry, k: Key)
    requires Consistent(r) && k in r.deleting
    ensures var r' := Remove(r, k).0;
      Consistent(r') && forall x :: x != k ==> View(r', x) == View(r, x)
  {
    var r' := Remove(r, k).0;
    assert SessionOk(r, k) && MapOk(MapOf(r, k.user));
    assert ListOk(MapOf(r, k.user), k.session);
    DeleteFromKeeps(MapOf(r, k.user), k.session);
    assert SessionOk(r', k);
    Framed(r, r', k);
  }

  lemma CommitRefines(r: Registry, k: Key)
    requires Consistent(r)
    ensures Refined(r, Commit(k))
  {
    assert SessionOk(r, k) && MapOk(MapOf(r, k.user));
    if k in r.deleting {
      assert ListOk(MapOf(r, k.user), k.session);
      TalksAre(r, k);
      CommitFramed(r, k);
    }
  }

  /** Every operation, failing or not, is exactly the little machine of its own session. */
  lemma EveryOperationRefines(r: Registry, op: Op)
    requires Consistent(r) && !op.ListSessions?
    ensures Refined(r, op)
  {
    match op
    case CreateSession(k) => CreateRefines(r, k);
    case RecordConversation(k, c, question, answer) => RecordRefines(r, k, c, question, answer);
    case Commit(k) => CommitRefines(r, k);
    case GetSession(_) => ReadRefines(r, op);
    case ConversationIds(_) => ReadRefines(r, op);
    case EndStream(_, _) => ReleaseRefines(r, op);
    case Abort(_) => ReleaseRefines(r, op);
    case _ => MarkRefines(r, op);
  }

  // ----------------------------------------------------------------- listing

  function OrderAfter(order: seq<Session>, user: User, op: Op, reply: Reply): seq<Session> {
    if op.CreateSession? && op.key.user == user && reply.Shown? then order + [op.key.session]
    else if op.Commit? && op.key.user == user && reply.Conversations? then Except(order, op.key.session)
    else order
  }

  lemma CreatedOrder(r: Registry, k: Key, user: User)
    requires Consistent(r)
    ensures MapOf(Create(r, k).0, user).order == OrderAfter(MapOf(r, user).order, user, CreateSession(k), Create(r, k).1)
  {
    if !Exists(r, k) {
      CreateFramed(r, k);
      assert SessionOk(Create(r, k).0, k);
      SnapshotSucceeds(Create(r, k).0, k);
    }
  }

  lemma CommittedOrder(r: Registry, k: Key, user: User)
    requires Consistent(r) && k in r.deleting && Streams(r.active, k) == {}
    ensures MapOf(Remove(r, k).0, user).order == OrderAfter(MapOf(r, user).order, user, Commit(k), Remove(r, k).1)
  {
    assert SessionOk(r, k) && MapOk(MapOf(r, k.user));
    assert ListOk(MapOf(r, k.user), k.session);
  }

  lemma RecordedOrder(r: Registry, k: Key, c: Conversation, question: string, answer: string, user: User)
    ensures MapOf(Record(r, k, c, question, answer).0, user).order == MapOf(r, user).order
  {
  }

  lemma QuietOrder(r: Registry, op: Op, user: User)
    requires !op.CreateSession? && !op.Commit? && !op.RecordConversation?
    ensures MapOf(Do(r, op).0, user).order == MapOf(r, user).order
  {
  }

  lemma ListingAfter(r: Registry, op: Op, user: User)
    requires Consistent(r)
    ensures MapOf(Do(r, op).0, user).order == OrderAfter(MapOf(r, user).order, user, op, Do(r, op).1)
  {
    match op
    case CreateSession(k) => CreatedOrder(r, k, user);
    case Commit(k) =>
      if k in r.deleting && Streams(r.active, k) == {} {
        CommittedOrder(r, k, user);
      }
    case RecordConversation(k, c, question, answer) => RecordedOrder(r, k, c, question, answer, user);
    case _ => QuietOrder(r, op, user);
  }

  /** Creating appends to the user's listing, a committed deletion takes its session out of its
      place, and nothing else moves the listing. */
  lemma ListingOrder(r: Registry, op: Op, user: User)
    requires Consistent(r)
    ensures var order, order', reply := MapOf(r, user).order, MapOf(Do(r, op).0, user).order, Do(r, op).1;
      if op.CreateSession? && op.key.user == user && reply.Shown? then order' == order + [op.key.session]
      else if op.Commit? && op.key.user == user && reply.Conversations? then
        exists i :: 0 <= i < |order| && order[i] == op.key.session && order' == order[..i] + order[i + 1..]
      else order' == order
  {
    ListingAfter(r, op, user);
    if op.Commit? && op.key.user == user && Do(r, op).1.Conversations? {
      var order := MapOf(r, user).order;
      assert MapOk(MapOf(r, user)) && SessionOk(r, op.key);
      assert op.key.session in Elements(order);
      var i :| 0 <= i < |order| && order[i] == op.key.session;
      ExceptAt(order, i);
    }
  }

  lemma {:induction false} ShowAllSucceeds(r: Registry, user: User, order: seq<Session>)
    requires forall i :: 0 <= i < |order| ==> Show(r, Key(user, order[i])).Shown?
    ensures ShowAll(r, user, order).Listed? && |ShowAll(r, user, order).snapshots| == |order|
    ensures forall i :: 0 <= i < |order| ==>
      Shown(ShowAll(r, user, order).snapshots[i]) == Show(r, Key(user, order[i]))
  {
    if order != [] {
      var rest := order[1..];
      assert forall i :: 0 <= i < |rest| ==> rest[i] == order[i + 1];
      ShowAllSucceeds(r, user, rest);
      var shown := ShowAll(r, user, order).snapshots;
      forall i | 0 <= i < |order| ensures Shown(shown[i]) == Show(r, Key(user, order[i])) {
        assert i > 0 ==> order[i] == rest[i - 1] && shown[i] == ShowAll(r, user, rest).snapshots[i - 1];
      }
    }
  }

  /** A listing never fails, shows each existing session of the user once, in creation order, and
      changes nothing. */
  lemma ListingRefines(r: Registry, user: User)
    requires Consistent(r)
    ensures var (r', reply) := Do(r, ListSessions(user));
      var order := MapOf(r, user).order;
      && Consistent(r') && (forall x :: View(r', x) == View(r, x))
      && reply.Listed? && |reply.snapshots| == |order| && Distinct(order)
      && (forall s :: s in order <==> Exists(r, Key(user, s)))
      && (forall i :: 0 <= i < |order| ==> Shown(reply.snapshots[i]) == Do(r, GetSession(Key(user, order[i]))).1)
  {
    TouchMoves(r, user);
    var order := MapOf(r, user).order;
    assert MapOk(MapOf(r, user));
    forall s ensures s in order <==> Exists(r, Key(user, s)) {
      assert s in order <==> s in Elements(order);
    }
    forall i | 0 <= i < |order| ensures Show(r, Key(user, order[i])).Shown? {
      assert order[i] in order && SessionOk(r, Key(user, order[i]));
      SnapshotSucceeds(r, Key(user, order[i]));
    }
    ShowAllSucceeds(r, user, order);
  }

  // ----------------------------------------------------------------- runs

  function Run(r: Registry, ops: seq<Op>): Registry
    decreases |ops|
  {
    if ops == [] then r else Run(Do(r, ops[0]).0, ops[1..])
  }

  lemma DoKeeps(r: Registry, op: Op)
    requires Consistent(r)
    ensures Consistent(Do(r, op).0)
    ensures Do(r, op).1 != Failed(Inconsistent)
  {
    if op.ListSessions? {
      ListingRefines(r, op.user);
    } else {
      EveryOperationRefines(r, op);
    }
  }

  /** After any run, whatever failed on the way, the structures agree; no operation ever fails
      because of a missing table entry, and none sees a session both streaming and reserved. */
  lemma {:induction false} EveryRunIsConsistent(r: Registry, ops: seq<Op>)
    requires Consistent(r)
    ensures Consistent(Run(r, ops))
    ensures forall op :: Do(Run(r, ops), op).1 != Failed(Inconsistent)
    ensures forall k :: Streams(Run(r, ops).active, k) == {} || k !in Run(r, ops).deleting
    decreases |ops|
  {
    if ops == [] {
      forall op ensures Do(r, op).1 != Failed(Inconsistent) {
        DoKeeps(r, op);
      }
      forall k ensures Streams(r.active, k) == {} || k !in r.deleting {
        assert SessionOk(r, k);
      }
    } else {
      DoKeeps(r, ops[0]);
      EveryRunIsConsistent(Do(r, ops[0]).0, ops[1..]);
    }
  }

  lemma EmptyIsConsistent()
    ensures Consistent(EMPTY)
  {
    forall k ensures SessionOk(EMPTY, k) {
    }
    forall u ensures MapOk(MapOf(EMPTY, u)) {
      assert MapOf(EMPTY, u) == EMPTY_MAP;
      forall s ensures ListOk(EMPTY_MAP, s) {
      }
    }
  }

  /** A commit goes through exactly when the session is reserved; a reservation succeeds exactly
      when the session exists, is idle and is not already reserved. */
  lemma DeletionOutcomes(r: Registry, k: Key)
    requires Consistent(r)
    ensures Do(r, Commit(k)).1.Conversations? <==> k in r.deleting
    ensures !Do(r, Commit(k)).1.Conversations? ==> Do(r, Commit(k)) == (r, Failed(NotReserved))
    ensures Do(r, Commit(k)).1.Conversations? ==> View(r, k).Some? && !Exists(Do(r, Commit(k)).0, k)
    ensures Do(r, Reserve(k)).1.Conversations? <==>
      View(r, k).Some? && View(r, k).value.streams == {} && !View(r, k).value.reserved
  {
    assert SessionOk(r, k);
    EveryOperationRefines(r, Commit(k));
    EveryOperationRefines(r, Reserve(k));
    assert SessionOk(Do(r, Commit(k)).0, k);
  }

  predicate Releases(op: Op, k: Key) {
    op == Abort(k) || op == Commit(k)
  }

  /** While a session stays reserved, its talks and streams are frozen and every new stream or
      conversation is refused. */
  lemma ReservedStep(r: Registry, k: Key, op: Op)
    requires Consistent(r) && k in r.deleting && !Releases(op, k)
    ensures var (r', reply) := Do(r, op);
      && Consistent(r') && k in r'.deleting
      && View(r, k).Some? && View(r', k).Some? && View(r', k).value.talks == View(r, k).value.talks
      && View(r', k).value.streams == {}
      && (op.RecordConversation? && op.key == k ==> reply.Failed?)
      && (op.BeginStream? && op.key == k ==> reply == Failed(DeletionInProgress))
  {
    assert SessionOk(r, k);
    if op.ListSessions? {
      ListingRefines(r, op.user);
      assert View(Do(r, op).0, k) == View(r, k);
    } else {
      EveryOperationRefines(r, op);
      assert op.key != k ==> View(Do(r, op).0, k) == View(r, k);
    }
    assert SessionOk(Do(r, op).0, k);
  }

  lemma {:induction false} ReservedRun(r: Registry, k: Key, ops: seq<Op>)
    requires Consistent(r) && k in r.deleting
    requires forall op :: op in ops ==> !Releases(op, k)
    ensures Consistent(Run(r, ops)) && k in Run(r, ops).deleting
    ensures View(r, k).Some? && View(Run(r, ops), k).Some?
    ensures View(Run(r, ops), k).value.talks == View(r, k).value.talks
    decreases |ops|
  {
    assert SessionOk(r, k);
    if ops != [] {
      assert ops[0] in ops;
      ReservedStep(r, k, ops[0]);
      forall op | op in ops[1..] ensures !Releases(op, k) {
        assert op in ops;
      }
      ReservedRun(Do(r, ops[0]).0, k, ops[1..]);
    }
  }

  /** Whatever happens in between short of releasing the reservation, the commit forgets exactly
      the conversations that the reservation listed for the storage cascade. */
  lemma CommitMatchesReservation(r: Registry, k: Key, ops: seq<Op>)
    requires Consistent(r) && Do(r, Reserve(k)).1.Conversations?
    requires forall op :: op in ops ==> !Releases(op, k)
    ensures Do(Run(Do(r, Reserve(k)).0, ops), Commit(k)).1 == Do(r, Reserve(k)).1
    ensures Consistent(Run(Do(r, Reserve(k)).0, ops))
    ensures View(Do(Run(Do(r, Reserve(k)).0, ops), Commit(k)).0, k) == None
  {
    var r1 := Do(r, Reserve(k)).0;
    EveryOperationRefines(r, Reserve(k));
    ReservedRun(r1, k, ops);
    EveryOperationRefines(Run(r1, ops), Commit(k));
  }

  /** Releasing a stream twice is releasing it once. */
  lemma ReleaseTwice(r: Registry, k: Key, c: Conversation)
    requires Consistent(r)
    ensures var r1 := Do(r, EndStream(k, c)).0;
      Do(r1, EndStream(k, c)) == (r1, Done)
  {
    assert SessionOk(r, k);
    var a1 := Discard(r.active, k, c);
    assert k in a1 ==> a1[k] - {c} == a1[k];
    assert Discard(a1, k, c) == a1;
  }

  /** A stream that ends, or a reservation that is aborted, leaves no trace of itself. */
  lemma ReleaseUndoes(r: Registry, k: Key, c: Conversation)
    requires Consistent(r)
    ensures Do(r, BeginStream(k, c)).1.Done? ==> Do(Do(r, BeginStream(k, c)).0, EndStream(k, c)).0 == r
    ensures Do(r, Reserve(k)).1.Conversations? ==> Do(Do(r, Reserve(k)).0, Abort(k)).0 == r
  {
    assert SessionOk(r, k);
    if Do(r, BeginStream(k, c)).1.Done? {
      var r2 := Do(r, BeginStream(k, c)).0;
      assert r2.active[k] - {c} == Streams(r.active, k);
      assert Discard(r2.active, k, c) == r.active;
    }
    if Do(r, Reserve(k)).1.Conversations? {
      assert Do(Do(r, Reserve(k)).0, Abort(k)).0.deleting == r.deleting;
    }
  }
}
