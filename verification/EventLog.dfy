/** The ordered event log of a run: the in-memory repository and the append loop over it. */
module EventLog {

  // ------------------------------------------------------------------ records

  datatype Key = Key(tenant: string, run: string)

  datatype Event = Event(id: string, key: Key, sequence: int, body: string)

  datatype AppendResult = Stored | AlreadyStored | IdConflict | SequenceConflict

  /** What the repository holds: one list per run, and one index of all events by id. */
  datatype Store = Store(items: map<Key, seq<Event>>, byId: map<string, Event>) {
    function Log(key: Key): seq<Event> {
      if key in items then items[key] else []
    }
  }

  /** The sequences of a log are exactly 1..n, in order. */
  ghost predicate Dense(log: seq<Event>) {
    forall i :: 0 <= i < |log| ==> log[i].sequence == i + 1
  }

  /** `e` is the event its own sequence number points at. */
  ghost predicate InPlace(s: Store, e: Event) {
    1 <= e.sequence <= |s.Log(e.key)| && s.Log(e.key)[e.sequence - 1] == e
  }

  /** `e` is a stored event of run `k`: the id index knows it. */
  ghost predicate Indexed(s: Store, k: Key, e: Event) {
    e.key == k && e.id in s.byId && s.byId[e.id] == e
  }

  /** Every log is dense and holds its own run's events; the id index is exactly the stored events. */
  ghost predicate Ordered(s: Store) {
    && (forall k :: k in s.items ==> Dense(s.items[k]))
    && (forall k, e :: k in s.items && e in s.items[k] ==> Indexed(s, k, e))
    && (forall id :: id in s.byId ==> s.byId[id].id == id && InPlace(s, s.byId[id]))
  }

  // --------------------------------------------------------------- operations

  /** One `append` call on the repository, which runs under its lock. */
  function Put(s: Store, e: Event): (Store, AppendResult) {
    if e.id in s.byId then
      (s, if s.byId[e.id] == e then AlreadyStored else IdConflict)
    else if e.sequence != |s.Log(e.key)| + 1 then
      (s, SequenceConflict)
    else
      (Store(s.items[e.key := s.Log(e.key) + [e]], s.byId[e.id := e]), Stored)
  }

  /** The list comprehension of `list_after`. */
  function ListAfter(log: seq<Event>, after: int): seq<Event> {
    if log == [] then []
    else if log[0].sequence > after then [log[0]] + ListAfter(log[1..], after)
    else ListAfter(log[1..], after)
  }

  /** Any number of append calls, by any callers, whatever their outcome. */
  function PutAll(s: Store, es: seq<Event>): Store
    decreases |es|
  {
    if es == [] then s else PutAll(Put(s, es[0]).0, es[1..])
  }

  // --------------------------------------------------------------- properties

  lemma PutKeepsOrder(s: Store, e: Event)
    requires Ordered(s)
    ensures Ordered(Put(s, e).0)
    ensures forall k :: s.Log(k) <= Put(s, e).0.Log(k)
    ensures forall k :: |Put(s, e).0.Log(k)|
                     == |s.Log(k)| + if Put(s, e).1 == Stored && k == e.key then 1 else 0
  {
    if Put(s, e).1 == Stored { StoredKeepsOrder(s, Put(s, e).0, e); }
  }

  lemma StoredKeepsOrder(s: Store, t: Store, e: Event)
    requires Ordered(s) && e.id !in s.byId && e.sequence == |s.Log(e.key)| + 1
    requires t == Store(s.items[e.key := s.Log(e.key) + [e]], s.byId[e.id := e])
    ensures Ordered(t)
  {
    forall k | k in t.items ensures Dense(t.items[k]) {
      assert Dense(s.Log(k));
    }
    forall k, x | k in t.items && x in t.items[k] ensures Indexed(t, k, x) {
      assert x == e || Indexed(s, k, x);
    }
    forall id | id in t.byId ensures t.byId[id].id == id && InPlace(t, t.byId[id]) {
      assert id == e.id || InPlace(s, s.byId[id]);
    }
  }

  /** Whatever is appended, by whomever and in whatever order, the logs stay 1..n and only grow. */
  lemma {:induction false} AnyWritersKeepOrder(s: Store, es: seq<Event>)
    requires Ordered(s)
    ensures Ordered(PutAll(s, es))
    ensures forall k :: s.Log(k) <= PutAll(s, es).Log(k)
    decreases |es|
  {
    if es != [] {
      PutKeepsOrder(s, es[0]);
      AnyWritersKeepOrder(Put(s, es[0]).0, es[1..]);
    }
  }

  lemma {:induction false} ListAfterShifted(log: seq<Event>, base: int, after: int)
    requires forall i :: 0 <= i < |log| ==> log[i].sequence == base + i + 1
    ensures ListAfter(log, after)
         == log[if after < base then 0 else if after - base > |log| then |log| else after - base..]
  {
    if log != [] {
      ListAfterShifted(log[1..], base + 1, after);
    }
  }

  /** On a dense log, `list_after(k)` is exactly the suffix after the k-th event. */
  lemma ListAfterIsSuffix(log: seq<Event>, after: int)
    requires Dense(log)
    ensures after <= 0 ==> ListAfter(log, after) == log
    ensures 0 <= after <= |log| ==> ListAfter(log, after) == log[after..]
    ensures after > |log| ==> ListAfter(log, after) == []
  {
    ListAfterShifted(log, 0, after);
  }

  /** An event id names one position of one log. */
  lemma IdsAreUnique(s: Store, k1: Key, i: nat, k2: Key, j: nat)
    requires Ordered(s)
    requires i < |s.Log(k1)| && j < |s.Log(k2)|
    ensures s.Log(k1)[i].id == s.Log(k2)[j].id <==> k1 == k2 && i == j
  {
    assert Indexed(s, k1, s.items[k1][i]) && Indexed(s, k2, s.items[k2][j]);
    assert Dense(s.items[k1]) && Dense(s.items[k2]);
  }

  // -------------------------------------------------------------- repository

  class InMemoryEventRepository {
    var items: map<Key, seq<Event>>
    var byId: map<string, Event>

    constructor ()
      ensures S() == Store(map[], map[]) && Ordered(S())
    {
      items, byId := map[], map[];
    }

    function S(): Store
      reads this
    {
      Store(items, byId)
    }

    method Append(e: Event) returns (r: AppendResult)
      modifies this
      ensures (S(), r) == Put(old(S()), e)
    {
      if e.id in byId {
        return if byId[e.id] == e then AlreadyStored else IdConflict;
      }
      var log := S().Log(e.key);
      if e.sequence != |log| + 1 {
        return SequenceConflict;
      }
      items := items[e.key := log + [e]];
      byId := byId[e.id := e];
      r := Stored;
    }

    method List(key: Key, after: int) returns (events: seq<Event>)
      ensures events == ListAfter(S().Log(key), after)
    {
      events := [];
      var log := S().Log(key);
      for i := 0 to |log|
        invariant events + ListAfter(log[i..], after) == ListAfter(log, after)
      {
        assert log[i..] == [log[i]] + log[i + 1..];
        if log[i].sequence > after {
          events := events + [log[i]];
        }
      }
    }
  }

  // ----------------------------------------------------------------- service

  class EventService {
    const repository: InMemoryEventRepository

    // How many events the other writers of the run will still store. It is what makes
    // the retry loop finite: the loop itself has no bound.
    ghost var othersLeft: nat

    constructor (repository: InMemoryEventRepository, ghost othersLeft: nat)
      ensures this.repository == repository && this.othersLeft == othersLeft
    {
      this.repository := repository;
      this.othersLeft := othersLeft;
    }

    /** Other writers run between two awaits: they append any events of their own. */
    ghost predicate Interleaved(before: Store, after: Store, mine: string, key: Key,
                                leftBefore: nat, leftAfter: nat) {
      && Ordered(after)
      && before.Log(key) <= after.Log(key)
      && |before.Log(key)| + leftBefore == |after.Log(key)| + leftAfter
      && (mine !in before.byId ==> mine !in after.byId)
    }

    method OtherWriters(ghost mine: string, ghost key: Key)
      requires Ordered(repository.S())
      modifies this, repository
      ensures Interleaved(old(repository.S()), repository.S(), mine, key, old(othersLeft), othersLeft)
    {
    }

    /** The log of a run as stored now. */
    function Log(key: Key): seq<Event>
      reads this, repository
    {
      repository.S().Log(key)
    }

    /** One turn of the retry loop: number the event after the last stored one and try to append it. */
    method Attempt(draft: Event) returns (event: Event, r: AppendResult)
      requires Ordered(repository.S())
      requires draft.id !in repository.S().byId
      modifies this, repository
      ensures Ordered(repository.S())
      ensures event == draft.(sequence := event.sequence)
      ensures r == Stored || r == SequenceConflict
      ensures r == Stored ==>
                && old(Log(draft.key)) < Log(draft.key)
                && event.sequence == |Log(draft.key)| && Log(draft.key)[event.sequence - 1] == event
                && |Log(draft.key)| + othersLeft == |old(Log(draft.key))| + old(othersLeft) + 1
      ensures r == SequenceConflict ==>
                && draft.id !in repository.S().byId
                && old(Log(draft.key)) < Log(draft.key)
                && |Log(draft.key)| + othersLeft == |old(Log(draft.key))| + old(othersLeft)
    {
      var current := repository.List(draft.key, 0);
      ListAfterIsSuffix(Log(draft.key), 0);
      var sequence := if current != [] then current[|current| - 1].sequence + 1 else 1;
      event := draft.(sequence := sequence);
      OtherWriters(draft.id, draft.key);
      ghost var before := repository.S();
      r := repository.Append(event);
      PutKeepsOrder(before, event);
    }

    /** Store one new event at the end of its run's log, retrying when another writer got there first.
        The call stores it exactly once, and each retry was caused by another writer's success. */
    method Append(key: Key, id: string, body: string) returns (event: Event, ghost attempts: nat)
      requires Ordered(repository.S())
      requires id !in repository.S().byId
      modifies this, repository
      ensures Ordered(repository.S())
      ensures old(Log(key)) < Log(key)
      ensures event == Event(id, key, |Log(key)|, body) && Log(key)[event.sequence - 1] == event
      ensures forall i :: 0 <= i < |Log(key)| - 1 ==> Log(key)[i].id != id
      ensures 1 <= attempts <= 1 + (old(othersLeft) - othersLeft)
      ensures |Log(key)| == |old(Log(key))| + 1 + (old(othersLeft) - othersLeft)
    {
      event := Event(id, key, 1, body);
      attempts := 0;
      while true
        invariant Ordered(repository.S()) && id !in repository.S().byId
        invariant event == Event(id, key, event.sequence, body)
        invariant old(Log(key)) <= Log(key)
        invariant |Log(key)| == |old(Log(key))| + (old(othersLeft) - othersLeft)
        invariant attempts <= old(othersLeft) - othersLeft
        decreases othersLeft
      {
        OtherWriters(id, key);
        var r;
        event, r := Attempt(event);
        attempts := attempts + 1;
        if r == SequenceConflict {
          continue;
        }
        break;
      }
      IdOnlyAtTheEnd(repository.S(), key);
    }
  }

  lemma IdOnlyAtTheEnd(s: Store, key: Key)
    requires Ordered(s) && s.Log(key) != []
    ensures forall i :: 0 <= i < |s.Log(key)| - 1 ==> s.Log(key)[i].id != s.Log(key)[|s.Log(key)| - 1].id
  {
    forall i | 0 <= i < |s.Log(key)| - 1
      ensures s.Log(key)[i].id != s.Log(key)[|s.Log(key)| - 1].id
    {
      IdsAreUnique(s, key, i, key, |s.Log(key)| - 1);
    }
  }
}
