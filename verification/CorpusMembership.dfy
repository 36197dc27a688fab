/** validate_physical_membership: the loops that build what is known and what is observed. */
module CorpusMembership {
  import opened Ordering
  import opened Corpus
  import opened CorpusProtocol

  predicate AllMet(store: Store, s: State) {
    && Known(s, store)
    && (forall i :: 0 <= i < |Expectations(s)| ==> Meets(store, Expectations(s)[i]))
  }

  predicate EachMet(store: Store, s: State) {
    && (forall d :: d in DocumentsOf(s.active) ==> Meets(store, ActiveExpectation(d)))
    && (forall d :: d in DocumentsOf(s.pending) ==> Meets(store, PendingExpectation(d)))
    && (forall d :: d in s.cleanup ==> Meets(store, CleanupExpectation(d)))
  }

  lemma ExpectationAt(s: State, i: nat)
    ensures i < |DocumentsOf(s.active)| ==> i < |Expectations(s)| && Expectations(s)[i] == ActiveExpectation(DocumentsOf(s.active)[i])
    ensures i < |DocumentsOf(s.pending)| ==> |DocumentsOf(s.active)| + i < |Expectations(s)|
    ensures i < |DocumentsOf(s.pending)| ==>
      Expectations(s)[|DocumentsOf(s.active)| + i] == PendingExpectation(DocumentsOf(s.pending)[i])
    ensures |Expectations(s)| == |DocumentsOf(s.active)| + |DocumentsOf(s.pending)| + |s.cleanup|
    ensures i < |s.cleanup| ==>
      Expectations(s)[|DocumentsOf(s.active)| + |DocumentsOf(s.pending)| + i] == CleanupExpectation(s.cleanup[i])
  {
  }

  lemma EachFromAll(s: State, store: Store)
    requires forall i :: 0 <= i < |Expectations(s)| ==> Meets(store, Expectations(s)[i])
    ensures EachMet(store, s)
  {
    var active, pending := DocumentsOf(s.active), DocumentsOf(s.pending);
    forall d | d in active ensures Meets(store, ActiveExpectation(d)) {
      var i :| 0 <= i < |active| && active[i] == d;
      ExpectationAt(s, i);
    }
    forall d | d in pending ensures Meets(store, PendingExpectation(d)) {
      var i :| 0 <= i < |pending| && pending[i] == d;
      ExpectationAt(s, i);
    }
    forall d | d in s.cleanup ensures Meets(store, CleanupExpectation(d)) {
      var i :| 0 <= i < |s.cleanup| && s.cleanup[i] == d;
      ExpectationAt(s, i);
    }
  }

  lemma ExpectationsByPart(s: State, store: Store)
    ensures (forall i :: 0 <= i < |Expectations(s)| ==> Meets(store, Expectations(s)[i])) <==> EachMet(store, s)
  {
    var a, p := |DocumentsOf(s.active)|, |DocumentsOf(s.pending)|;
    if EachMet(store, s) {
      forall i | 0 <= i < |Expectations(s)| ensures Meets(store, Expectations(s)[i]) {
        ExpectationAt(s, if i < a then i else if i < a + p then i - a else i - a - p);
      }
    } else if forall i :: 0 <= i < |Expectations(s)| ==> Meets(store, Expectations(s)[i]) {
      EachFromAll(s, store);
    }
  }

  lemma AdmissibleByPart(s: State, store: Store)
    ensures Admissible(Some(s), store) <==> Known(s, store) && EachMet(store, s)
  {
    if EachMet(store, s) {
      forall d | d in AllDocuments(s) && d.status == Created ensures ChunksOf(store, d) == map[] {
        assert d in DocumentsOf(s.active) || d in DocumentsOf(s.pending) || d in s.cleanup;
      }
    }
  }

  lemma ExpectationsSayAdmissible(s: State, store: Store)
    ensures Admissible(Some(s), store) <==> AllMet(store, s)
  {
    ExpectationsByPart(s, store);
    AdmissibleByPart(s, store);
  }

  /** Every chunk of one collection is held by a known document. */
  method KnownIn(s: State, c: Collection, objects: map<Id, Chunk>) returns (ok: bool)
    ensures ok <==> forall x :: x in objects ==>
      exists d :: d in AllDocuments(s) && d.collection == c && d.wizardId == objects[x].document
  {
    var documents := AllDocuments(s);
    var known: set<Id> := {};
    for i := 0 to |documents|
      invariant forall id :: id in known <==>
        exists j :: 0 <= j < i && documents[j].collection == c && documents[j].wizardId == id
    {
      if documents[i].collection == c {
        known := known + {documents[i].wizardId};
      }
    }
    assert forall id :: id in known <==>
      exists d :: d in documents && d.collection == c && d.wizardId == id;
    ok := forall x :: x in objects ==> objects[x].document in known;
  }

  /** Groups the observed chunks of one collection by the document that holds them. */
  method ObservedByDocument(objects: map<Id, Chunk>) returns (observed: map<Id, set<Id>>)
    ensures forall id, x :: id in observed && x in observed[id] <==> x in objects && objects[x].document == id
  {
    observed := map[];
    var rest := objects.Keys;
    while rest != {}
      invariant rest <= objects.Keys
      invariant forall id, x :: id in observed && x in observed[id] <==>
        x in objects && x !in rest && objects[x].document == id
      decreases |rest|
    {
      var x :| x in rest;
      var id := objects[x].document;
      observed := observed[id := (if id in observed then observed[id] else {}) + {x}];
      rest := rest - {x};
    }
  }

  predicate KnownInCollection(s: State, store: Store, c: Collection) {
    forall x :: x in store.Of(c) ==>
      exists d :: d in AllDocuments(s) && d.collection == c && d.wizardId == store.Of(c)[x].document
  }

  predicate MetIn(store: Store, expectations: seq<Expectation>, c: Collection, n: nat)
    requires n <= |expectations|
  {
    forall i :: 0 <= i < n && expectations[i].document.collection == c ==> Meets(store, expectations[i])
  }

  method CheckExpectation(store: Store, e: Expectation, byDocument: map<Id, set<Id>>) returns (r: Result<()>)
    requires forall id, x :: id in byDocument && x in byDocument[id] <==>
      x in store.Of(e.document.collection) && store.Of(e.document.collection)[x].document == id
    ensures r.Ok? <==> Meets(store, e)
  {
    var d := e.document;
    var actual := if d.wizardId in byDocument then byDocument[d.wizardId] else {};
    var expected := Elements(d.chunkIds);
    assert actual == ChunksOf(store, d).Keys;
    assert actual == {} ==> ChunksOf(store, d) == map[];
    if d.status == Created && actual != {} {
      return Err("Created document unexpectedly has chunks");
    }
    if e.exact && actual - expected != {} {
      var y :| y in actual - expected;
      return Err("Physical collection contains unknown chunks");
    }
    if e.required && actual != expected {
      return Err("Physical collection is missing recorded chunks");
    }
    assert e.exact ==> forall y :: y in actual ==> y !in actual - expected;
    return Ok(());
  }

  method CheckCollection(s: State, c: Collection, store: Store) returns (r: Result<()>)
    ensures r.Ok? <==> KnownInCollection(s, store, c) && MetIn(store, Expectations(s), c, |Expectations(s)|)
  {
    var known := KnownIn(s, c, store.Of(c));
    if !known {
      return Err("Physical collection contains unknown documents");
    }
    var byDocument := ObservedByDocument(store.Of(c));
    var expectations := Expectations(s);
    for i := 0 to |expectations|
      invariant MetIn(store, expectations, c, i)
    {
      if expectations[i].document.collection == c {
        var met := CheckExpectation(store, expectations[i], byDocument);
        if met.Err? {
          return met;
        }
      }
    }
    return Ok(());
  }

  method ValidatePhysicalMembership(durable: Option<State>, observed: Store) returns (r: Result<(nat, nat)>)
    ensures r.Ok? <==> Admissible(durable, observed)
    ensures r.Ok? ==> r.value == (|observed.knowledge|, |observed.policy|)
  {
    var counts := (|observed.knowledge|, |observed.policy|);
    if durable.None? {
      if counts != (0, 0) {
        return Err("Corpus state is missing but diagnostic collections are not empty");
      }
      return Ok(counts);
    }
    var s := durable.value;
    ExpectationsSayAdmissible(s, observed);
    for n := 0 to |COLLECTIONS|
      invariant forall m :: 0 <= m < n ==>
        KnownInCollection(s, observed, COLLECTIONS[m])
        && MetIn(observed, Expectations(s), COLLECTIONS[m], |Expectations(s)|)
    {
      var checked := CheckCollection(s, COLLECTIONS[n], observed);
      if checked.Err? {
        ghost var c := COLLECTIONS[n];
        assert KnownInCollection(s, observed, c) || !Known(s, observed);
        return Err(checked.message);
      }
    }
    forall c: Collection
      ensures KnownInCollection(s, observed, c) && MetIn(observed, Expectations(s), c, |Expectations(s)|)
    {
      assert c == COLLECTIONS[0] || c == COLLECTIONS[1];
    }
    forall c: Collection, x | x in observed.Of(c)
      ensures exists d :: d in AllDocuments(s) && d.collection == c && d.wizardId == observed.Of(c)[x].document
    {
      assert KnownInCollection(s, observed, c);
    }
    forall i | 0 <= i < |Expectations(s)| ensures Meets(observed, Expectations(s)[i]) {
      assert MetIn(observed, Expectations(s), Expectations(s)[i].document.collection, |Expectations(s)|);
    }
    return Ok(counts);
  }
}
