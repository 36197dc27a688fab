/** ChatRegistry as the object it is: each method is one section under the lock, and moves the five
    fields exactly as the function the theorems are about. */
module ChatRegistryObject {
  import opened Ordering
  import R = ChatRegistry
  import T = ChatRegistryTheorems
  import Text

  class Registry {
    var sessionMaps: map<R.User, R.SessionMap>
    var titles: map<R.Key, string>
    var transcripts: map<R.Key, map<R.Conversation, R.Transcript>>
    var activeStreams: map<R.Key, set<R.Conversation>>
    var deletingSessions: set<R.Key>

    ghost function Model(): R.Registry
      reads this
    {
      R.Registry(sessionMaps, titles, transcripts, activeStreams, deletingSessions)
    }

    ghost predicate Valid()
      reads this
    {
      R.Consistent(Model())
    }

    constructor ()
      ensures Model() == R.EMPTY && Valid()
    {
      sessionMaps, titles, transcripts, activeStreams, deletingSessions := map[], map[], map[], map[], {};
      new;
      T.EmptyIsConsistent();
    }

    method Map(user: R.User) returns (m: R.SessionMap)
      modifies this`sessionMaps
      ensures Model() == R.Touch(old(Model()), user) && user in sessionMaps && m == sessionMaps[user]
      ensures forall u :: R.MapOf(Model(), u) == R.MapOf(old(Model()), u)
    {
      if user !in sessionMaps {
        sessionMaps := sessionMaps[user := R.EMPTY_MAP];
      }
      m := sessionMaps[user];
    }

    /** `_snapshot_locked` builds the tuple of transcripts in the order of the session's list. */
    method SnapshotLocked(k: R.Key) returns (reply: R.Reply)
      modifies this`sessionMaps
      ensures Model() == R.Touch(old(Model()), k.user)
      ensures reply == R.Show(old(Model()), k)
    {
      var m := Map(k.user);
      if k.session !in m.sessions {
        return R.Failed(R.NotFound);
      }
      if k !in transcripts || k !in titles {
        return R.Failed(R.Inconsistent);
      }
      var ids, table := m.sessions[k.session], transcripts[k];
      assert ids == R.ConversationsOf(old(Model()), k) && R.Exists(old(Model()), k);
      var shown: seq<R.Transcript> := [];
      var i := 0;
      assert ids[0..] == ids;
      PrependNothing(R.Shows(ids, table));
      while i < |ids|
        invariant 0 <= i <= |ids| && Model() == R.Touch(old(Model()), k.user)
        invariant R.Shows(ids, table) == Prepend(shown, R.Shows(ids[i..], table))
      {
        if ids[i] !in table {
          assert R.Shows(ids[i..], table).None?;
          return R.Failed(R.Inconsistent);
        }
        assert ids[i..][0] == ids[i] && ids[i..][1..] == ids[i + 1..];
        PrependAssociates(shown, table[ids[i]], R.Shows(ids[i + 1..], table));
        shown := shown + [table[ids[i]]];
        i := i + 1;
      }
      assert ids[i..] == [] && shown + [] == shown;
      assert R.Shows(ids, table) == Some(shown);
      reply := R.Shown(R.Snapshot(k, titles[k], shown));
    }

    method Place(k: R.Key, m: R.SessionMap)
      modifies this`sessionMaps, this`titles, this`transcripts
      ensures sessionMaps == old(sessionMaps)[k.user := R.CreateIn(m, k.session)]
      ensures titles == old(titles)[k := "New Chat"] && transcripts == old(transcripts)[k := map[]]
    {
      sessionMaps := sessionMaps[k.user := R.CreateIn(m, k.session)];
      titles := titles[k := "New Chat"];
      transcripts := transcripts[k := map[]];
    }

    method CreateSession(k: R.Key) returns (reply: R.Reply)
      requires Valid()
      modifies this
      ensures Valid() && (Model(), reply) == R.Do(old(Model()), R.CreateSession(k))
    {
      T.DoKeeps(Model(), R.CreateSession(k));
      assert R.Exists(Model(), k) ==> k.user in sessionMaps;
      var m := Map(k.user);
      if k.session in m.sessions {
        return R.Failed(R.AlreadyExists);
      }
      Place(k, m);
      assert Model() == R.Create(old(Model()), k).0;
      reply := SnapshotLocked(k);
    }

    method GetSession(k: R.Key) returns (reply: R.Reply)
      requires Valid()
      modifies this
      ensures Valid() && (Model(), reply) == R.Do(old(Model()), R.GetSession(k))
    {
      T.DoKeeps(Model(), R.GetSession(k));
      reply := SnapshotLocked(k);
    }

    method ListSessions(user: R.User) returns (reply: R.Reply)
      requires Valid()
      modifies this
      ensures Valid() && (Model(), reply) == R.Do(old(Model()), R.ListSessions(user))
    {
      T.ListingRefines(Model(), user);
      var m := Map(user);
      ghost var touched := Model();
      T.ListingRefines(touched, user);
      var snapshots: seq<R.Snapshot> := [];
      var i := 0;
      while i < |m.order|
        invariant 0 <= i <= |m.order| && |snapshots| == i && Model() == touched
        invariant forall j :: 0 <= j < i ==> R.Shown(snapshots[j]) == R.Show(touched, R.Key(user, m.order[j]))
      {
        var one := SnapshotLocked(R.Key(user, m.order[i]));
        if !one.Shown? {
          assert false;
          return R.Failed(R.Inconsistent);
        }
        snapshots := snapshots + [one.snapshot];
        i := i + 1;
      }
      reply := R.Listed(snapshots);
      forall j | 0 <= j < |m.order|
        ensures snapshots[j] == R.ShowAll(old(Model()), user, m.order).snapshots[j]
      {
        TouchShows(old(Model()), user, R.Key(user, m.order[j]));
      }
      assert snapshots == R.ShowAll(old(Model()), user, m.order).snapshots;
    }

    method RecordConversation(k: R.Key, c: R.Conversation, question: string, answer: string) returns (reply: R.Reply)
      requires Valid()
      modifies this
      ensures Valid() && (Model(), reply) == R.Do(old(Model()), R.RecordConversation(k, c, question, answer))
    {
      T.DoKeeps(Model(), R.RecordConversation(k, c, question, answer));
      if Text.Blank(question) || Text.Blank(answer) {
        return R.Failed(R.BlankText);
      }
      if k in deletingSessions {
        return R.Failed(R.DeletionInProgress);
      }
      var m := Map(k.user);
      if k.session !in m.sessions {
        return R.Failed(R.NotFound);
      }
      if c in m.owners && m.owners[c] != k.session {
        return R.Failed(R.BelongsElsewhere);
      }
      sessionMaps := sessionMaps[k.user := R.AddTo(m, k.session, c)];
      if k !in transcripts {
        return R.Failed(R.Inconsistent);
      }
      transcripts := transcripts[k := transcripts[k][c := R.Transcript(c, question, answer)]];
      reply := R.Done;
    }

    method UpdateTitle(k: R.Key, title: string) returns (reply: R.Reply)
      requires Valid()
      modifies this
      ensures Valid() && (Model(), reply) == R.Do(old(Model()), R.UpdateTitle(k, title))
    {
      T.DoKeeps(Model(), R.UpdateTitle(k, title));
      reply := SnapshotLocked(k);
      if reply.Shown? {
        titles := titles[k := title];
        reply := R.Title(title);
      }
    }

    method ConversationIds(k: R.Key) returns (reply: R.Reply)
      requires Valid()
      modifies this
      ensures Valid() && (Model(), reply) == R.Do(old(Model()), R.ConversationIds(k))
    {
      T.DoKeeps(Model(), R.ConversationIds(k));
      var m := Map(k.user);
      reply := if k.session in m.sessions then R.Conversations(m.sessions[k.session]) else R.Failed(R.NotFound);
    }

    method BeginChatStream(k: R.Key, c: R.Conversation) returns (reply: R.Reply)
      requires Valid()
      modifies this
      ensures Valid() && (Model(), reply) == R.Do(old(Model()), R.BeginStream(k, c))
    {
      T.DoKeeps(Model(), R.BeginStream(k, c));
      reply := SnapshotLocked(k);
      if reply.Failed? {
        return;
      }
      if k in deletingSessions {
        return R.Failed(R.DeletionInProgress);
      }
      var streams := if k in activeStreams then activeStreams[k] else {};
      if c in streams {
        return R.Failed(R.StreamExists);
      }
      activeStreams := activeStreams[k := streams + {c}];
      reply := R.Done;
    }

    method EndChatStream(k: R.Key, c: R.Conversation) returns (reply: R.Reply)
      requires Valid()
      modifies this
      ensures Valid() && (Model(), reply) == R.Do(old(Model()), R.EndStream(k, c))
    {
      T.DoKeeps(Model(), R.EndStream(k, c));
      reply := R.Done;
      if k !in activeStreams {
        return;
      }
      activeStreams := activeStreams[k := activeStreams[k] - {c}];
      if activeStreams[k] == {} {
        activeStreams := activeStreams - {k};
        assert activeStreams == old(activeStreams) - {k};
      }
    }

    method ReserveSessionDeletion(k: R.Key) returns (reply: R.Reply)
      requires Valid()
      modifies this
      ensures Valid() && (Model(), reply) == R.Do(old(Model()), R.Reserve(k))
    {
      T.DoKeeps(Model(), R.Reserve(k));
      reply := SnapshotLocked(k);
      if reply.Failed? {
        return;
      }
      if k in activeStreams && activeStreams[k] != {} {
        return R.Failed(R.StreamsActive);
      }
      if k in deletingSessions {
        return R.Failed(R.DeletionInProgress);
      }
      deletingSessions := deletingSessions + {k};
      var m := Map(k.user);
      assert m == R.MapOf(old(Model()), k.user);
      reply := R.Conversations(m.sessions[k.session]);
    }

    method AbortSessionDeletion(k: R.Key) returns (reply: R.Reply)
      requires Valid()
      modifies this
      ensures Valid() && (Model(), reply) == R.Do(old(Model()), R.Abort(k))
    {
      T.DoKeeps(Model(), R.Abort(k));
      deletingSessions := deletingSessions - {k};
      reply := R.Done;
    }

    method CommitSessionDeletion(k: R.Key) returns (reply: R.Reply)
      requires Valid()
      modifies this
      ensures Valid() && (Model(), reply) == R.Do(old(Model()), R.Commit(k))
    {
      T.DoKeeps(Model(), R.Commit(k));
      if k !in deletingSessions {
        return R.Failed(R.NotReserved);
      }
      if k in activeStreams && activeStreams[k] != {} {
        return R.Failed(R.StreamsActive);
      }
      var m := Map(k.user);
      if k.session !in m.sessions {
        reply := R.Failed(R.NotFound);
      } else if exists c :: c in m.sessions[k.session] && c !in m.owners {
        reply := R.Failed(R.Inconsistent);
      } else {
        reply := R.Conversations(m.sessions[k.session]);
        sessionMaps := sessionMaps[k.user := R.DeleteFrom(m, k.session)];
        titles, transcripts, activeStreams := titles - {k}, transcripts - {k}, activeStreams - {k};
      }
      deletingSessions := deletingSessions - {k}; // the finally clause
    }

    /** Reserve, then commit; when nothing comes between, it deletes exactly what it reserved or
        fails as the reservation did, leaving every session as it was. */
    method DeleteSession(k: R.Key) returns (reply: R.Reply)
      requires Valid()
      modifies this
      ensures Valid() && reply == R.Do(old(Model()), R.Reserve(k)).1
      ensures reply.Conversations? ==> T.View(Model(), k) == None
      ensures reply.Conversations? ==> forall x :: x != k ==> T.View(Model(), x) == T.View(old(Model()), x)
      ensures !reply.Conversations? ==> forall x :: T.View(Model(), x) == T.View(old(Model()), x)
    {
      ghost var before := Model();
      T.EveryOperationRefines(before, R.Reserve(k));
      reply := ReserveSessionDeletion(k);
      if reply.Conversations? {
        ghost var reserved := Model();
        assert forall x :: x != k ==> T.View(reserved, x) == T.View(before, x);
        T.CommitMatchesReservation(before, k, []);
        T.EveryOperationRefines(reserved, R.Commit(k));
        reply := CommitSessionDeletion(k);
        assert forall x :: x != k ==> T.View(Model(), x) == T.View(reserved, x);
        assert reply.Conversations?; // so the except clause, which aborts, is not reached
      }
    }
  }

  ghost function Prepend(shown: seq<R.Transcript>, rest: Option<seq<R.Transcript>>): Option<seq<R.Transcript>> {
    if rest.None? then None else Some(shown + rest.value)
  }

  lemma PrependAssociates(shown: seq<R.Transcript>, t: R.Transcript, rest: Option<seq<R.Transcript>>)
    ensures Prepend(shown + [t], rest) == Prepend(shown, Prepend([t], rest))
  {
    if rest.Some? {
      assert shown + [t] + rest.value == shown + ([t] + rest.value);
    }
  }

  lemma PrependNothing(rest: Option<seq<R.Transcript>>)
    ensures Prepend([], rest) == rest
  {
    if rest.Some? {
      assert [] + rest.value == rest.value;
    }
  }

  lemma TouchShows(r: R.Registry, user: R.User, k: R.Key)
    ensures R.Show(R.Touch(r, user), k) == R.Show(r, k)
  {
  }
}
