/** ChatRegistry and the SessionMap it keeps per user: every lock-protected section as a function
    from state to state and reply, including the sections that fail. */
module ChatRegistry {
  import opened Ordering
  import Text

  type User = string
  type Session = string
  type Conversation = string

  datatype Key = Key(user: User, session: Session)

  datatype Transcript = Transcript(conversation: Conversation, question: string, answer: string)

  datatype Snapshot = Snapshot(key: Key, title: string, conversations: seq<Transcript>)

  /** One user's sessions in creation order, their conversations in order, and who owns each. */
  datatype SessionMap = SessionMap(
    order: seq<Session>,
    sessions: map<Session, seq<Conversation>>,
    owners: map<Conversation, Session>)

  datatype Registry = Registry(
    maps: map<User, SessionMap>,
    titles: map<Key, string>,
    transcripts: map<Key, map<Conversation, Transcript>>,
    active: map<Key, set<Conversation>>,
    deleting: set<Key>)

  datatype Error =
    | NotFound | AlreadyExists | BlankText | BelongsElsewhere
    | StreamExists | StreamsActive | DeletionInProgress | NotReserved
    | Inconsistent // a lookup that only a broken registry could miss

  datatype Reply =
    | Shown(snapshot: Snapshot)
    | Listed(snapshots: seq<Snapshot>)
    | Conversations(ids: seq<Conversation>)
    | Title(title: string)
    | Done
    | Failed(error: Error)

  datatype Op =
    | CreateSession(key: Key)
    | ListSessions(user: User)
    | GetSession(key: Key)
    | RecordConversation(key: Key, conversation: Conversation, question: string, answer: string)
    | UpdateTitle(key: Key, title: string)
    | ConversationIds(key: Key)
    | BeginStream(key: Key, conversation: Conversation)
    | EndStream(key: Key, conversation: Conversation)
    | Reserve(key: Key)
    | Abort(key: Key)
    | Commit(key: Key)

  const EMPTY_MAP := SessionMap([], map[], map[])
  const EMPTY := Registry(map[], map[], map[], map[], {})

  // ----------------------------------------------------------------- SessionMap

  function CreateIn(m: SessionMap, s: Session): SessionMap {
    m.(order := m.order + [s], sessions := m.sessions[s := []])
  }

  /** A conversation the session already owns is not appended again. */
  function AddTo(m: SessionMap, s: Session, c: Conversation): SessionMap
    requires s in m.sessions
  {
    if c in m.owners then m
    else m.(sessions := m.sessions[s := m.sessions[s] + [c]], owners := m.owners[c := s])
  }

  function DeleteFrom(m: SessionMap, s: Session): SessionMap
    requires s in m.sessions
  {
    SessionMap(Except(m.order, s), m.sessions - {s}, m.owners - Elements(m.sessions[s]))
  }

  function Except(s: seq<Session>, x: Session): seq<Session> {
    if s == [] then [] else (if s[0] == x then [] else [s[0]]) + Except(s[1..], x)
  }

  // ----------------------------------------------------------------- ChatRegistry

  /** `setdefault`: even a failing operation leaves its user an empty map. */
  function Touch(r: Registry, user: User): Registry {
    if user in r.maps then r else r.(maps := r.maps[user := EMPTY_MAP])
  }

  function MapOf(r: Registry, user: User): SessionMap {
    if user in r.maps then r.maps[user] else EMPTY_MAP
  }

  predicate Exists(r: Registry, k: Key) {
    k.session in MapOf(r, k.user).sessions
  }

  function ConversationsOf(r: Registry, k: Key): seq<Conversation> {
    if Exists(r, k) then MapOf(r, k.user).sessions[k.session] else []
  }

  function Shows(ids: seq<Conversation>, transcripts: map<Conversation, Transcript>): Option<seq<Transcript>> {
    if ids == [] then Some([])
    else if ids[0] !in transcripts then None
    else
      var rest := Shows(ids[1..], transcripts);
      if rest.None? then None else Some([transcripts[ids[0]]] + rest.value)
  }

  /** `_snapshot_locked`: a missing session is the caller's error, any other miss is ours. */
  function Show(r: Registry, k: Key): Reply {
    if !Exists(r, k) then Failed(NotFound)
    else if k !in r.transcripts || k !in r.titles then Failed(Inconsistent)
    else
      var shown := Shows(ConversationsOf(r, k), r.transcripts[k]);
      if shown.None? then Failed(Inconsistent) else Shown(Snapshot(k, r.titles[k], shown.value))
  }

  function ShowAll(r: Registry, user: User, order: seq<Session>): Reply {
    if order == [] then Listed([])
    else
      var first := Show(r, Key(user, order[0]));
      var rest := ShowAll(r, user, order[1..]);
      if !first.Shown? || !rest.Listed? then Failed(Inconsistent) else Listed([first.snapshot] + rest.snapshots)
  }

  function Streams(active: map<Key, set<Conversation>>, k: Key): set<Conversation> {
    if k in active then active[k] else {}
  }

  function Discard(active: map<Key, set<Conversation>>, k: Key, c: Conversation): map<Key, set<Conversation>> {
    if k !in active then active
    else if active[k] - {c} == {} then active - {k}
    else active[k := active[k] - {c}]
  }

  function Create(r: Registry, k: Key): (Registry, Reply) {
    if Exists(r, k) then (r, Failed(AlreadyExists))
    else
      var r' := r.(maps := r.maps[k.user := CreateIn(MapOf(r, k.user), k.session)],
                   titles := r.titles[k := "New Chat"], transcripts := r.transcripts[k := map[]]);
      (r', Show(r', k))
  }

  function Record(r: Registry, k: Key, c: Conversation, question: string, answer: string): (Registry, Reply) {
    if Text.Blank(question) || Text.Blank(answer) then (r, Failed(BlankText))
    else if k in r.deleting then (r, Failed(DeletionInProgress))
    else if !Exists(r, k) then (Touch(r, k.user), Failed(NotFound))
    else
      var m := r.maps[k.user];
      if c in m.owners && m.owners[c] != k.session then (r, Failed(BelongsElsewhere))
      else
        var added := r.(maps := r.maps[k.user := AddTo(m, k.session, c)]);
        if k !in r.transcripts then (added, Failed(Inconsistent))
        else (added.(transcripts := r.transcripts[k := r.transcripts[k][c := Transcript(c, question, answer)]]), Done)
  }

  /** The body of a reserved commit: the session is forgotten everywhere, and in any case the
      reservation is released. */
  function Remove(r: Registry, k: Key): (Registry, Reply) {
    if !Exists(r, k) then (Touch(r.(deleting := r.deleting - {k}), k.user), Failed(NotFound))
    else
      var ids := r.maps[k.user].sessions[k.session];
      if exists c :: c in ids && c !in r.maps[k.user].owners then
        (r.(deleting := r.deleting - {k}), Failed(Inconsistent))
      else
        (Registry(r.maps[k.user := DeleteFrom(r.maps[k.user], k.session)],
                  r.titles - {k}, r.transcripts - {k}, r.active - {k}, r.deleting - {k}),
         Conversations(ids))
  }

  function Begin(r: Registry, k: Key, c: Conversation): (Registry, Reply) {
    if !Show(r, k).Shown? then (Touch(r, k.user), Show(r, k))
    else if k in r.deleting then (r, Failed(DeletionInProgress))
    else if c in Streams(r.active, k) then (r, Failed(StreamExists))
    else (r.(active := r.active[k := Streams(r.active, k) + {c}]), Done)
  }

  function ReserveDeletion(r: Registry, k: Key): (Registry, Reply) {
    if !Show(r, k).Shown? then (Touch(r, k.user), Show(r, k))
    else if Streams(r.active, k) != {} then (r, Failed(StreamsActive))
    else if k in r.deleting then (r, Failed(DeletionInProgress))
    else (r.(deleting := r.deleting + {k}), Conversations(ConversationsOf(r, k)))
  }

  function Do(r: Registry, op: Op): (Registry, Reply) {
    match op
    case CreateSession(k) => Create(r, k)
    case ListSessions(user) => (Touch(r, user), ShowAll(r, user, MapOf(r, user).order))
    case GetSession(k) => (Touch(r, k.user), Show(r, k))
    case RecordConversation(k, c, question, answer) => Record(r, k, c, question, answer)
    case UpdateTitle(k, title) =>
      if !Show(r, k).Shown? then (Touch(r, k.user), Show(r, k)) else (r.(titles := r.titles[k := title]), Title(title))
    case ConversationIds(k) =>
      (Touch(r, k.user), if Exists(r, k) then Conversations(ConversationsOf(r, k)) else Failed(NotFound))
    case BeginStream(k, c) => Begin(r, k, c)
    case EndStream(k, c) => (r.(active := Discard(r.active, k, c)), Done)
    case Reserve(k) => ReserveDeletion(r, k)
    case Abort(k) => (r.(deleting := r.deleting - {k}), Done)
    case Commit(k) =>
      if k !in r.deleting then (r, Failed(NotReserved))
      else if Streams(r.active, k) != {} then (r, Failed(StreamsActive))
      else Remove(r, k)
  }

  // ----------------------------------------------------------------- the invariant

  ghost predicate ListOk(m: SessionMap, s: Session) {
    s in m.sessions ==>
      (Distinct(m.sessions[s]) && forall c :: c in m.sessions[s] ==> c in m.owners && m.owners[c] == s)
  }

  ghost predicate OwnerOk(m: SessionMap, c: Conversation) {
    c in m.owners ==> (m.owners[c] in m.sessions && c in m.sessions[m.owners[c]])
  }

  ghost predicate MapOk(m: SessionMap) {
    && Distinct(m.order) && Elements(m.order) == m.sessions.Keys
    && (forall s :: ListOk(m, s))
    && (forall c :: OwnerOk(m, c))
  }

  /** The structures agree about one session. */
  ghost predicate SessionOk(r: Registry, k: Key) {
    && (k in r.titles <==> Exists(r, k))
    && (k in r.transcripts <==> Exists(r, k))
    && (k in r.transcripts ==> r.transcripts[k].Keys == Elements(ConversationsOf(r, k)))
    && (k in r.transcripts ==> forall c :: c in r.transcripts[k] ==> r.transcripts[k][c].conversation == c)
    && (k in r.active ==> (Exists(r, k) && r.active[k] != {} && k !in r.deleting))
    && (k in r.deleting ==> Exists(r, k))
  }

  ghost predicate Consistent(r: Registry) {
    && (forall k :: SessionOk(r, k))
    && (forall u :: MapOk(MapOf(r, u)))
  }
}
