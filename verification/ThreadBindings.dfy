/** The thread binding store: one map by thread, one by session, changed together. */
module ThreadBindings {
  import opened Outcomes

  datatype Owner = Owner(tenant: string, user: string)

  datatype TitleSource = Fallback | Model

  datatype Binding = Binding(
    owner: Owner, thread: string, session: string, previous: seq<string>,
    title: Option<string>, titleSource: Option<TitleSource>, titleUpdatedAt: Option<int>,
    archivedAt: Option<int>, updatedAt: int)

  type Key = (Owner, string)

  datatype StoreError = Conflict | NotFound

  datatype Store = Store(byThread: map<Key, Binding>, bySession: map<Key, Binding>)

  function SessionIds(b: Binding): seq<string> {
    b.previous + [b.session]
  }

  function Max(a: int, b: int): int {
    if a >= b then a else b
  }

  // ------------------------------------------------------------------- index

  /** The session key belongs to this binding. */
  predicate Covers(b: Binding, k: Key) {
    b.owner == k.0 && k.1 in SessionIds(b)
  }

  /** Each binding is filed under its own owner and thread. */
  ghost predicate WellFiled(s: Store) {
    forall t :: t in s.byThread ==> s.byThread[t].owner == t.0 && s.byThread[t].thread == t.1
  }

  /** Every current and previous session of every thread leads to that thread's binding. */
  ghost predicate Complete(s: Store) {
    forall t, k :: t in s.byThread && Covers(s.byThread[t], k) ==> k in s.bySession && s.bySession[k] == s.byThread[t]
  }

  predicate Sound1(s: Store, k: Key)
    requires k in s.bySession
  {
    var b := s.bySession[k];
    Covers(b, k) && (b.owner, b.thread) in s.byThread && s.byThread[(b.owner, b.thread)] == b
  }

  /** Nothing else is indexed. */
  ghost predicate Sound(s: Store) {
    forall k :: k in s.bySession ==> Sound1(s, k)
  }

  /** The session index is exactly the one the thread map determines. */
  ghost predicate Indexed(s: Store) {
    WellFiled(s) && Complete(s) && Sound(s)
  }

  /** The thread map determines the index: two consistent stores with the same threads are the same. */
  lemma IndexIsDetermined(s: Store, t: Store)
    requires Indexed(s) && Indexed(t) && s.byThread == t.byThread
    ensures s == t
  {
    IndexedAlike(s, t);
    IndexedAlike(t, s);
    assert s.bySession == t.bySession;
  }

  lemma IndexedAlike(s: Store, t: Store)
    requires Sound(s) && Complete(t) && s.byThread == t.byThread
    ensures forall k :: k in s.bySession ==> k in t.bySession && t.bySession[k] == s.bySession[k]
  {
    forall k | k in s.bySession ensures k in t.bySession && t.bySession[k] == s.bySession[k] {
      assert Sound1(s, k);
      assert Covers(t.byThread[(s.bySession[k].owner, s.bySession[k].thread)], k);
    }
  }

  /** No session belongs to two threads. */
  lemma SessionsAreNotShared(s: Store, t: Key, u: Key, k: Key)
    requires Indexed(s) && t in s.byThread && u in s.byThread
    requires Covers(s.byThread[t], k) && Covers(s.byThread[u], k)
    ensures t == u
  {
    assert s.bySession[k] == s.byThread[t] && s.bySession[k] == s.byThread[u];
  }

  // --------------------------------------------------------------- operations

  /** Replace a thread's binding and point all its sessions at the new one. */
  function Stored(s: Store, b: Binding): Store {
    Store(s.byThread[(b.owner, b.thread) := b], Aliased(s.bySession, b, SessionIds(b)))
  }

  function Aliased(m: map<Key, Binding>, b: Binding, ids: seq<string>): map<Key, Binding>
    decreases |ids|
  {
    if ids == [] then m else Aliased(m[(b.owner, ids[0]) := b], b, ids[1..])
  }

  lemma {:induction false} AliasedIs(m: map<Key, Binding>, b: Binding, ids: seq<string>)
    ensures forall k :: k in Aliased(m, b, ids) <==> k in m || (k.0 == b.owner && k.1 in ids)
    ensures forall k :: k in Aliased(m, b, ids) ==>
              Aliased(m, b, ids)[k] == if k.0 == b.owner && k.1 in ids then b else m[k]
    decreases |ids|
  {
    if ids != [] {
      AliasedIs(m[(b.owner, ids[0]) := b], b, ids[1..]);
      assert ids == [ids[0]] + ids[1..];
    }
  }

  /** Keep the first occurrence of each session, as `dict.fromkeys` does. */
  function Deduplicated(ids: seq<string>): seq<string> {
    if ids == [] then []
    else
      var front := Deduplicated(ids[..|ids| - 1]);
      if ids[|ids| - 1] in front then front else front + [ids[|ids| - 1]]
  }

  lemma {:induction false} DeduplicatedKeepsMembers(ids: seq<string>)
    ensures forall x :: x in Deduplicated(ids) <==> x in ids
    ensures forall i, j :: 0 <= i < j < |Deduplicated(ids)| ==> Deduplicated(ids)[i] != Deduplicated(ids)[j]
  {
    if ids != [] {
      DeduplicatedKeepsMembers(ids[..|ids| - 1]);
      assert ids == ids[..|ids| - 1] + [ids[|ids| - 1]];
    }
  }

  ghost predicate Distinct(ids: seq<string>) {
    forall i, j :: 0 <= i < j < |ids| ==> ids[i] != ids[j]
  }

  /** Without repetition the ordered deduplication keeps everything as it is. */
  lemma {:induction false} DistinctStays(ids: seq<string>)
    requires Distinct(ids)
    ensures Deduplicated(ids) == ids
  {
    if ids != [] {
      var front := ids[..|ids| - 1];
      DistinctStays(front);
      assert ids == front + [ids[|ids| - 1]];
    }
  }

  lemma OneMoreSession(previous: seq<string>, session: string)
    requires Distinct(previous)
    ensures Deduplicated(previous + [session]) == previous + if session in previous then [] else [session]
  {
    DistinctStays(previous);
    assert (previous + [session])[..|previous|] == previous;
  }

  datatype Command =
    | Add(binding: Binding)
    | Retitle(owner: Owner, thread: string, title: string, source: TitleSource, generatedAt: int)
    | Archive(owner: Owner, thread: string, mark: Option<int>)
    | Rebind(owner: Owner, thread: string, session: string, at: int)

  /** The thread already shows a title generated later. */
  predicate LaterTitle(b: Binding, generatedAt: int) {
    b.titleUpdatedAt.Some? && b.titleUpdatedAt.value > generatedAt
  }

  function Retitled(b: Binding, title: string, source: TitleSource, generatedAt: int): Binding {
    b.(title := Some(title), titleSource := Some(source), titleUpdatedAt := Some(generatedAt),
       updatedAt := Max(b.updatedAt, generatedAt))
  }

  function Archived(b: Binding, at: Option<int>): Binding {
    b.(archivedAt := at, updatedAt := if at.Some? then Max(b.updatedAt, at.value) else b.updatedAt)
  }

  function Rebound(b: Binding, session: string, at: int): Binding {
    b.(session := session, previous := Deduplicated(b.previous + [b.session]), updatedAt := Max(b.updatedAt, at))
  }

  function Run(s: Store, c: Command): (Store, Result<Binding, StoreError>) {
    match c
    case Add(b) =>
      if (b.owner, b.thread) in s.byThread || (b.owner, b.session) in s.bySession then (s, Err(Conflict))
      else (Store(s.byThread[(b.owner, b.thread) := b], s.bySession[(b.owner, b.session) := b]), Ok(b))
    case Retitle(o, t, title, source, at) =>
      if (o, t) !in s.byThread then (s, Err(NotFound))
      else
        var b := s.byThread[(o, t)];
        if LaterTitle(b, at) then (s, Ok(b))
        else (Stored(s, Retitled(b, title, source, at)), Ok(Retitled(b, title, source, at)))
    case Archive(o, t, at) =>
      if (o, t) !in s.byThread then (s, Err(NotFound)) 
      else (Stored(s, Archived(s.byThread[(o, t)], at)), Ok(Archived(s.byThread[(o, t)], at)))
    case Rebind(o, t, session, at) =>
      if (o, t) !in s.byThread then (s, Err(NotFound))
      else if (o, session) in s.bySession && s.bySession[(o, session)].thread != t then (s, Err(Conflict))
      else (Stored(s, Rebound(s.byThread[(o, t)], session, at)), Ok(Rebound(s.byThread[(o, t)], session, at)))
  }

  function RunAll(s: Store, cs: seq<Command>): Store {
    if cs == [] then s else Run(RunAll(s, cs[..|cs| - 1]), cs[|cs| - 1]).0
  }

  // --------------------------------------------------------------- properties

  /** What a thread's new binding must respect: it keeps the thread's sessions
      and takes no session from another thread. */
  ghost predicate Replaces(s: Store, was: Binding, b: Binding) {
    && (b.owner, b.thread) in s.byThread && s.byThread[(b.owner, b.thread)] == was
    && (forall k :: Covers(was, k) ==> Covers(b, k))
    && (forall k :: Covers(b, k) && k in s.bySession ==> s.bySession[k] == was)
  }

  lemma StoredIndexIs(s: Store, b: Binding)
    ensures forall k :: k in Stored(s, b).bySession <==> k in s.bySession || Covers(b, k)
    ensures forall k :: k in Stored(s, b).bySession ==>
              Stored(s, b).bySession[k] == if Covers(b, k) then b else s.bySession[k]
  {
    AliasedIs(s.bySession, b, SessionIds(b));
  }

  lemma StoredStaysComplete(s: Store, was: Binding, b: Binding)
    requires WellFiled(s) && Complete(s) && Replaces(s, was, b)
    ensures Complete(Stored(s, b))
  {
    StoredIndexIs(s, b);
    forall u, k | u in Stored(s, b).byThread && Covers(Stored(s, b).byThread[u], k)
      ensures k in Stored(s, b).bySession && Stored(s, b).bySession[k] == Stored(s, b).byThread[u]
    {
      if u != (b.owner, b.thread) {
        assert u in s.byThread && s.bySession[k] == s.byThread[u];
      }
    }
  }

  lemma StoredStaysSound(s: Store, was: Binding, b: Binding)
    requires Sound(s) && Replaces(s, was, b)
    ensures Sound(Stored(s, b))
  {
    StoredIndexIs(s, b);
    forall k | k in Stored(s, b).bySession ensures Sound1(Stored(s, b), k) {
      if !Covers(b, k) {
        assert Sound1(s, k) && s.bySession[k] != was;
      }
    }
  }

  lemma StoredKeepsIndex(s: Store, was: Binding, b: Binding)
    requires Indexed(s) && Replaces(s, was, b)
    ensures Indexed(Stored(s, b))
  {
    StoredStaysComplete(s, was, b);
    StoredStaysSound(s, was, b);
  }

  /** An accepted addition keeps the index exactly when it names no session but its own: the store
      does not index the previous sessions of a binding it adds. */
  lemma AddKeepsIndexIff(s: Store, b: Binding)
    requires Indexed(s) && Run(s, Add(b)).1.Ok?
    ensures Indexed(Run(s, Add(b)).0) <==> forall x :: x in b.previous ==> x == b.session
  {
    if x :| x in b.previous && x != b.session {
      OtherSessionIsMissed(s, b, x);
    } else {
      OwnSessionIsIndexed(s, b);
    }
  }

  lemma OtherSessionIsMissed(s: Store, b: Binding, x: string)
    requires Indexed(s) && Run(s, Add(b)).1.Ok? && x in b.previous && x != b.session
    ensures !Complete(Run(s, Add(b)).0)
  {
    var t := Run(s, Add(b)).0;
    assert x in SessionIds(b) && t.byThread[(b.owner, b.thread)] == b;
    assert (b.owner, b.thread) in t.byThread && Covers(t.byThread[(b.owner, b.thread)], (b.owner, x));
    if (b.owner, x) in s.bySession {
      assert Sound1(s, (b.owner, x)) && s.bySession[(b.owner, x)] != b;
      assert t.bySession[(b.owner, x)] != b;
    } else {
      assert (b.owner, x) !in t.bySession;
    }
  }

  lemma OwnSessionIsIndexed(s: Store, b: Binding)
    requires Indexed(s) && Run(s, Add(b)).1.Ok? && forall x :: x in b.previous ==> x == b.session
    ensures Indexed(Run(s, Add(b)).0)
  {
    var t := Run(s, Add(b)).0;
    assert forall k :: Covers(b, k) <==> k == (b.owner, b.session);
    forall k | k in t.bySession ensures Sound1(t, k) {
      if k != (b.owner, b.session) { assert Sound1(s, k); }
    }
  }

  lemma RunKeepsIndex(s: Store, c: Command)
    requires Indexed(s) && (c.Add? ==> c.binding.previous == [])
    ensures Indexed(Run(s, c).0)
  {
    match c
    case Add(b) =>
      if Run(s, c).1.Ok? { AddKeepsIndexIff(s, b); }
    case Retitle(o, t, title, source, at) =>
      if (o, t) in s.byThread {
        SameSessionsKeepIndex(s, s.byThread[(o, t)], Retitled(s.byThread[(o, t)], title, source, at));
      }
    case Archive(o, t, at) =>
      if (o, t) in s.byThread { SameSessionsKeepIndex(s, s.byThread[(o, t)], Archived(s.byThread[(o, t)], at)); }
    case Rebind(o, t, session, at) =>
      if Run(s, c).1.Ok? { RebindKeepsIndex(s, s.byThread[(o, t)], session, at); }
  }

  lemma SameSessionsKeepIndex(s: Store, was: Binding, b: Binding)
    requires Indexed(s) && (b.owner, b.thread) in s.byThread && s.byThread[(b.owner, b.thread)] == was
    requires SessionIds(b) == SessionIds(was)
    ensures Indexed(Stored(s, b))
  {
    assert forall k :: Covers(b, k) <==> Covers(was, k);
    StoredKeepsIndex(s, was, b);
  }

  lemma RebindKeepsIndex(s: Store, b: Binding, session: string, at: int)
    requires Indexed(s) && (b.owner, b.thread) in s.byThread && s.byThread[(b.owner, b.thread)] == b
    requires (b.owner, session) in s.bySession ==> s.bySession[(b.owner, session)].thread == b.thread
    ensures Indexed(Stored(s, Rebound(b, session, at)))
  {
    DeduplicatedKeepsMembers(b.previous + [b.session]);
    var r := Rebound(b, session, at);
    assert forall k :: Covers(r, k) <==> Covers(b, k) || k == (b.owner, session);
    forall k | Covers(r, k) && k in s.bySession ensures s.bySession[k] == b {
      assert Sound1(s, k);
    }
    StoredKeepsIndex(s, b, r);
  }

  /** New bindings have no previous sessions. */
  ghost predicate PlainAdds(cs: seq<Command>) {
    forall c :: c in cs && c.Add? ==> c.binding.previous == []
  }

  /** After any sequence of additions, retitles, archivings and rebinds, the session index is the one
      the thread map determines. */
  lemma {:induction false} EverySequenceKeepsIndex(cs: seq<Command>)
    requires PlainAdds(cs)
    ensures Indexed(RunAll(Store(map[], map[]), cs))
  {
    if cs != [] {
      assert cs[|cs| - 1] in cs;
      EverySequenceKeepsIndex(cs[..|cs| - 1]);
      RunKeepsIndex(RunAll(Store(map[], map[]), cs[..|cs| - 1]), cs[|cs| - 1]);
    }
  }

  /** The binding is filed under its thread and under each of its sessions, and nothing else has changed. */
  ghost predicate FiledOnly(s: Store, t: Store, b: Binding) {
    && (b.owner, b.thread) in t.byThread && t.byThread[(b.owner, b.thread)] == b
    && (forall k :: k != (b.owner, b.thread) ==>
          (k in t.byThread <==> k in s.byThread) && (k in t.byThread ==> t.byThread[k] == s.byThread[k]))
    && (forall x :: x == b.session || x in b.previous ==>
          (b.owner, x) in t.bySession && t.bySession[(b.owner, x)] == b)
    && (forall k: Key :: !(k.0 == b.owner && (k.1 == b.session || k.1 in b.previous)) ==>
          (k in t.bySession <==> k in s.bySession) && (k in t.bySession ==> t.bySession[k] == s.bySession[k]))
  }

  lemma StoredIsFiledOnly(s: Store, b: Binding)
    ensures FiledOnly(s, Stored(s, b), b)
  {
    AliasedIs(s.bySession, b, SessionIds(b));
  }

  /** A rebound thread runs in the new session, remembers the old one and those before it, each once, and is otherwise
      the same; its clock does not go back. */
  ghost predicate ReboundFrom(was: Binding, b: Binding, session: string, at: int) {
    && b == was.(session := session, previous := b.previous, updatedAt := b.updatedAt)
    && (forall x :: x in b.previous <==> x in was.previous || x == was.session)
    && Distinct(b.previous)
    && (Distinct(was.previous) ==>
          b.previous == was.previous + if was.session in was.previous then [] else [was.session])
    && b.updatedAt >= was.updatedAt && b.updatedAt >= at && (b.updatedAt == was.updatedAt || b.updatedAt == at)
  }

  /** A retitled thread shows the new title and when and by what it was made, and is otherwise the same. */
  predicate RetitledFrom(was: Binding, b: Binding, title: string, source: TitleSource, at: int) {
    && b.title == Some(title) && b.titleSource == Some(source) && b.titleUpdatedAt == Some(at)
    && b == was.(title := b.title, titleSource := b.titleSource, titleUpdatedAt := b.titleUpdatedAt,
                 updatedAt := b.updatedAt)
    && b.updatedAt >= was.updatedAt && b.updatedAt >= at && (b.updatedAt == was.updatedAt || b.updatedAt == at)
  }

  /** An archived thread bears the mark, or none when it is taken off, and is otherwise the same. */
  predicate ArchivedFrom(was: Binding, b: Binding, mark: Option<int>) {
    && b.archivedAt == mark && b == was.(archivedAt := b.archivedAt, updatedAt := b.updatedAt)
    && b.updatedAt >= was.updatedAt && (mark.Some? ==> b.updatedAt >= mark.value)
    && (b.updatedAt == was.updatedAt || Some(b.updatedAt) == mark)
  }

  /** A binding only gains sessions, and neither of its clocks goes back. */
  ghost predicate Grows(before: Binding, after: Binding) {
    && before.owner == after.owner && before.thread == after.thread
    && before.updatedAt <= after.updatedAt
    && (before.titleUpdatedAt.Some? ==>
          after.titleUpdatedAt.Some? && before.titleUpdatedAt.value <= after.titleUpdatedAt.value)
    && (forall x :: x in SessionIds(before) ==> x in SessionIds(after))
  }

  lemma RunOnlyGrows(s: Store, c: Command, t: Key)
    requires Indexed(s) && t in s.byThread
    ensures t in Run(s, c).0.byThread && Grows(s.byThread[t], Run(s, c).0.byThread[t])
  {
    if c.Rebind? {
      DeduplicatedKeepsMembers(s.byThread[t].previous + [s.byThread[t].session]);
    }
  }

  /** Along every continuation: sessions stay with their thread, and timestamps never go backwards. */
  lemma {:induction false} HistoryOnlyGrows(s: Store, cs: seq<Command>, t: Key)
    requires Indexed(s) && PlainAdds(cs) && t in s.byThread
    ensures Indexed(RunAll(s, cs))
    ensures t in RunAll(s, cs).byThread && Grows(s.byThread[t], RunAll(s, cs).byThread[t])
  {
    if cs != [] {
      var front := cs[..|cs| - 1];
      assert cs[|cs| - 1] in cs;
      HistoryOnlyGrows(s, front, t);
      RunKeepsIndex(RunAll(s, front), cs[|cs| - 1]);
      RunOnlyGrows(RunAll(s, front), cs[|cs| - 1], t);
    }
  }

  // -------------------------------------------------------------- repository

  class InMemoryAguiThreadBindingRepository {
    var byThread: map<Key, Binding>
    var bySession: map<Key, Binding>

    constructor ()
      ensures S() == Store(map[], map[]) && Indexed(S())
    {
      byThread, bySession := map[], map[];
    }

    ghost function S(): Store
      reads this
    {
      Store(byThread, bySession)
    }

    method AddBinding(b: Binding) returns (r: Result<Binding, StoreError>)
      modifies this
      ensures (S(), r) == Run(old(S()), Add(b))
      ensures r == (if (b.owner, b.thread) in old(byThread) || (b.owner, b.session) in old(bySession)
                    then Err(Conflict) else Ok(b))
      ensures r.Err? ==> S() == old(S())
      ensures r.Ok? ==> byThread == old(byThread)[(b.owner, b.thread) := b]
                        && bySession == old(bySession)[(b.owner, b.session) := b]
    {
      if (b.owner, b.thread) in byThread || (b.owner, b.session) in bySession {
        return Err(Conflict);
      }
      byThread := byThread[(b.owner, b.thread) := b];
      bySession := bySession[(b.owner, b.session) := b];
      r := Ok(b);
    }

    method StoreSessionAliases(b: Binding)
      modifies this`bySession
      ensures bySession == Aliased(old(bySession), b, SessionIds(b))
    {
      var ids := SessionIds(b);
      for i := 0 to |ids|
        invariant Aliased(bySession, b, ids[i..]) == Aliased(old(bySession), b, ids)
      {
        assert ids[i..][0] == ids[i] && ids[i..][1..] == ids[i + 1..];
        bySession := bySession[(b.owner, ids[i]) := b];
      }
    }

    method Put(b: Binding)
      modifies this
      ensures S() == Stored(old(S()), b) && FiledOnly(old(S()), S(), b)
    {
      StoredIsFiledOnly(S(), b);
      byThread := byThread[(b.owner, b.thread) := b];
      StoreSessionAliases(b);
    }

    method UpdateTitle(owner: Owner, thread: string, title: string, source: TitleSource, generatedAt: int)
      returns (r: Result<Binding, StoreError>)
      modifies this
      ensures (S(), r) == Run(old(S()), Retitle(owner, thread, title, source, generatedAt))
      ensures r.Err? <==> (owner, thread) !in old(byThread)
      ensures r.Err? ==> r.error == NotFound && S() == old(S())
      ensures r.Ok? ==>
                var was := old(byThread)[(owner, thread)];
                if was.titleUpdatedAt.Some? && was.titleUpdatedAt.value > generatedAt
                then r.value == was && S() == old(S())
                else RetitledFrom(was, r.value, title, source, generatedAt)
                     && FiledOnly(old(S()), S(), r.value)
    {
      if (owner, thread) !in byThread {
        return Err(NotFound);
      }
      var binding := byThread[(owner, thread)];
      if binding.titleUpdatedAt.Some? && binding.titleUpdatedAt.value > generatedAt {
        return Ok(binding);
      }
      var updated := binding.(title := Some(title), titleSource := Some(source),
                              titleUpdatedAt := Some(generatedAt), updatedAt := Max(binding.updatedAt, generatedAt));
      Put(updated);
      r := Ok(updated);
    }

    method SetArchived(owner: Owner, thread: string, at: Option<int>) returns (r: Result<Binding, StoreError>)
      modifies this
      ensures (S(), r) == Run(old(S()), Archive(owner, thread, at))
      ensures r.Err? <==> (owner, thread) !in old(byThread)
      ensures r.Err? ==> r.error == NotFound && S() == old(S())
      ensures r.Ok? ==> ArchivedFrom(old(byThread)[(owner, thread)], r.value, at)
                        && FiledOnly(old(S()), S(), r.value)
    {
      if (owner, thread) !in byThread {
        return Err(NotFound);
      }
      var binding := byThread[(owner, thread)];
      var last := if at.Some? then Max(binding.updatedAt, at.value) else binding.updatedAt;
      var updated := binding.(archivedAt := at, updatedAt := last);
      Put(updated);
      r := Ok(updated);
    }

    method RebindSession(owner: Owner, thread: string, session: string, at: int)
      returns (r: Result<Binding, StoreError>)
      modifies this
      ensures (S(), r) == Run(old(S()), Rebind(owner, thread, session, at))
      ensures r == Err(NotFound) <==> (owner, thread) !in old(byThread)
      ensures r == Err(Conflict) <==>
                (owner, thread) in old(byThread) && (owner, session) in old(bySession)
                && old(bySession)[(owner, session)].thread != thread
      ensures r.Err? ==> S() == old(S())
      ensures r.Ok? ==> ReboundFrom(old(byThread)[(owner, thread)], r.value, session, at)
                        && FiledOnly(old(S()), S(), r.value)
    {
      if (owner, thread) !in byThread {
        return Err(NotFound);
      }
      if (owner, session) in bySession && bySession[(owner, session)].thread != thread {
        return Err(Conflict);
      }
      var binding := byThread[(owner, thread)];
      DeduplicatedKeepsMembers(binding.previous + [binding.session]);
      if Distinct(binding.previous) { OneMoreSession(binding.previous, binding.session); }
      var previous := DropDuplicates(binding.previous + [binding.session]);
      var updated := binding.(session := session, previous := previous, updatedAt := Max(binding.updatedAt, at));
      Put(updated);
      r := Ok(updated);
    }
  }

  method DropDuplicates(ids: seq<string>) returns (kept: seq<string>)
    ensures kept == Deduplicated(ids)
  {
    kept := [];
    for i := 0 to |ids|
      invariant kept == Deduplicated(ids[..i])
    {
      assert ids[..i + 1][..i] == ids[..i];
      if ids[i] !in kept {
        kept := kept + [ids[i]];
      }
    }
    assert ids[..|ids|] == ids;
  }
}
