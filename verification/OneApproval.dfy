/** One request for approval and the decisions, expiries and withdrawals of it, interleaved call by call: exactly when
    they keep the promise that a waiting run has one approval pending, and the decision that breaks it. */
module OneApproval {
  import opened RunStateMachine
  import opened RunProtocol
  import opened RunCalls
  import opened SettlementRaces
  import R = RequestRaces

  /** One request, not inline, any number of settlements, and nobody else; all of them run to their end. */
  ghost predicate OneRequest(h: History, c: Call, o: R.Order) {
    && Happens(h) && Quiet(h.states[0]) && OnlyThese(h) && AllOver(h.states[|h.turns|]) && !o.inline
    && (forall id :: id in h.states[0].race.s.approvals ==> !h.states[0].race.s.approvals[id].inline)
    && (forall k :: 0 <= k < |h.turns| && h.turns[k].Around? && h.turns[k].m.Look? ==> h.turns[k].m == R.Look(c, o))
  }

  /** The calls that stored an outcome. */
  function Settlers(f: Fray): set<Call> {
    set d | d in f.calls && HasStored(f.calls[d])
  }

  predicate Asked(f: Fray, c: Call) {
    c in f.race.calls && R.HasStored(f.race.calls[c])
  }

  // ---------------------------------------------------------------- invariant

  predicate OfOrder(p: R.Phase, o: R.Order) {
    p.Unasked? || R.HasRead(p) ==> p.order == o
  }

  /** There is one request; it has read the run as it was at the start, and it has not lost its write. */
  ghost predicate OneCaller(start: State, f: Fray, c: Call, o: R.Order) {
    forall x :: x in f.race.calls ==>
      && x == c && OfOrder(f.race.calls[x], o) && !f.race.calls[x].Lost?
      && (R.HasRead(f.race.calls[x]) ==> f.race.calls[x].read == start.run)
  }

  /** Only the request's approval is ever pending, and no approval is inline. */
  ghost predicate OnePending(f: Fray, c: Call, o: R.Order) {
    && (forall id :: id in f.race.s.approvals ==> !f.race.s.approvals[id].inline)
    && (forall id :: id in PendingIds(f.race.s) ==> id == o.id && Asked(f, c))
    && (Asked(f, c) ==> o.id in f.race.s.approvals)
  }

  /** Only the request's approval is ever settled, by one call. */
  ghost predicate OneSettler(f: Fray, c: Call, o: R.Order) {
    && (forall d :: d in f.calls && !f.calls[d].Idle? ==> f.calls[d].v.way.Afresh?)
    && (forall d :: d in Settlers(f) ==> f.calls[d].v.id == o.id && Asked(f, c))
    && (forall d, e :: d in Settlers(f) && e in Settlers(f) ==> d == e)
    && (Asked(f, c) && o.id !in PendingIds(f.race.s) ==> Settlers(f) != {})
  }

  predicate HasMoved(f: Fray, d: Call) {
    d in f.calls && (f.calls[d].Wrote? || f.calls[d].Closed?)
  }

  ghost predicate NobodyMoved(f: Fray) {
    forall d :: d in f.calls ==> !HasMoved(f, d)
  }

  /** The run is as at the start until the request's write is won, and then as the one settlement's move leaves it. */
  ghost predicate RunFollows(start: State, f: Fray, c: Call) {
    var run := f.race.s.run;
    if c !in f.race.calls || !R.HasWon(f.race.calls[c]) then run == start.run && NobodyMoved(f)
    else
      || (run == Run(WaitingApproval, start.run.token + 1) && NobodyMoved(f))
      || (exists d :: HasMoved(f, d) && run == Run(Target(f.calls[d].v), start.run.token + 2))
  }

  ghost predicate Single(start: State, f: Fray, c: Call, o: R.Order) {
    OneCaller(start, f, c, o) && OnePending(f, c, o) && OneSettler(f, c, o) && RunFollows(start, f, c)
  }

  /** The turn is one of a history of one request. */
  predicate Admitted(t: Turn, c: Call, o: R.Order) {
    t.Around? ==> if t.m.Other? then Harmless(t.m.steps) else t.m.Look? ==> t.m == R.Look(c, o)
  }

  lemma OthersKeepSingle(start: State, f: Fray, t: Turn, c: Call, o: R.Order)
    requires Single(start, f, c, o) && CanTurn(f, t) && t.Around? && t.m.Other? && Harmless(t.m.steps)
    ensures Single(start, Next(f, t), c, o)
  {
    var u := Next(f, t);
    assert u.race.s.approvals == f.race.s.approvals && u.race.s.run == f.race.s.run;
    SameSettlers(start, f, u, c, o);
  }

  /** The same calls have stored the same outcomes. */
  ghost predicate SameOutcomes(f: Fray, u: Fray) {
    && Settlers(u) == Settlers(f) && (forall d :: d in Settlers(f) ==> u.calls[d].v == f.calls[d].v)
    && (forall d :: d in u.calls && !u.calls[d].Idle? ==> u.calls[d].v.way.Afresh?)
  }

  ghost predicate SameMovers(f: Fray, u: Fray) {
    forall d :: HasMoved(u, d) <==> HasMoved(f, d)
  }

  /** Approvals, run and calls that stand for the same keep the invariant. */
  lemma SameSettlers(start: State, f: Fray, u: Fray, c: Call, o: R.Order)
    requires Single(start, f, c, o)
    requires u.race.s.approvals == f.race.s.approvals && u.race.s.run == f.race.s.run
    requires u.race.calls == f.race.calls && SameOutcomes(f, u) && SameMovers(f, u)
    ensures Single(start, u, c, o)
  {
    assert PendingIds(u.race.s) == PendingIds(f.race.s);
    MoversAreSettlers(f);
  }

  lemma MoversAreSettlers(f: Fray)
    requires forall d :: d in f.calls && !f.calls[d].Idle? ==> f.calls[d].v.way.Afresh?
    ensures forall d :: HasMoved(f, d) ==> d in Settlers(f)
  {
  }

  /** What a request's move leaves of the race. */
  lemma RequestKeepsCaller(start: State, f: Fray, t: Turn, c: Call, o: R.Order)
    requires start.run.status == Running && Single(start, f, c, o) && CanTurn(f, t) && t.Around? && !t.m.Other?
    requires Admitted(t, c, o)
    ensures t.m.call == c && OneCaller(start, Next(f, t), c, o)
    ensures Next(f, t).calls == f.calls
  {
  }

  lemma RequestKeepsPending(start: State, f: Fray, t: Turn, c: Call, o: R.Order)
    requires Single(start, f, c, o) && CanTurn(f, t) && t.Around? && !t.m.Other? && t.m.call == c && !o.inline
    requires OneCaller(start, Next(f, t), c, o)
    ensures OnePending(Next(f, t), c, o) && OneSettler(Next(f, t), c, o)
  {
    var u := Next(f, t);
    assert Settlers(u) == Settlers(f);
    assert Asked(f, c) ==> Asked(u, c);
    if t.m.Add? && Asked(u, c) {
      AddIsPending(f, c, o);
    } else {
      assert u.race.s.approvals == f.race.s.approvals && PendingIds(u.race.s) == PendingIds(f.race.s);
      assert Asked(f, c) <==> Asked(u, c);
    }
  }

  lemma AddIsPending(f: Fray, c: Call, o: R.Order)
    requires CanTurn(f, Around(R.Add(c))) && !R.Taken(f.race.s, f.race.calls[c].order)
    ensures var u, o := Next(f, Around(R.Add(c))), f.race.calls[c].order;
            u.race.s.approvals == f.race.s.approvals[o.id := R.Asking(o)]
            && PendingIds(u.race.s) == PendingIds(f.race.s) + {o.id}
  {
  }

  lemma RequestKeepsRun(start: State, f: Fray, t: Turn, c: Call, o: R.Order)
    requires Single(start, f, c, o) && CanTurn(f, t) && t.Around? && !t.m.Other? && t.m.call == c
    ensures RunFollows(start, Next(f, t), c)
  {
    var u := Next(f, t);
    assert forall d :: HasMoved(u, d) <==> HasMoved(f, d);
  }

  lemma RequestKeepsSingle(start: State, f: Fray, t: Turn, c: Call, o: R.Order)
    requires start.run.status == Running && !o.inline
    requires Single(start, f, c, o) && CanTurn(f, t) && t.Around? && !t.m.Other? && Admitted(t, c, o)
    ensures Single(start, Next(f, t), c, o)
  {
    RequestKeepsCaller(start, f, t, c, o);
    RequestKeepsPending(start, f, t, c, o);
    RequestKeepsRun(start, f, t, c, o);
  }

  // --------------------------------------------------------------- settlements

  /** Every turn but the two writes leaves the run and the approvals alone. */
  lemma QuietTurnKeepsSingle(start: State, f: Fray, t: Turn, c: Call, o: R.Order)
    requires Single(start, f, c, o) && OwnTurn(f, t) && !t.Store? && !t.Act?
    ensures Single(start, Next(f, t), c, o)
  {
    QuietStage(f, t, c, o);
    QuietRecords(f, t);
    SameSettlers(start, f, Next(f, t), c, o);
  }

  lemma QuietRecords(f: Fray, t: Turn)
    requires CanTurn(f, t) && !t.Around? && !t.Store? && !t.Act?
    ensures var u := Next(f, t);
            u.race.s.approvals == f.race.s.approvals && u.race.s.run == f.race.s.run && u.race.calls == f.race.calls
  {
    OnlyItsStage(f, t);
  }

  lemma QuietStage(f: Fray, t: Turn, c: Call, o: R.Order)
    requires OnePending(f, c, o) && OneSettler(f, c, o) && OwnTurn(f, t) && !t.Store? && !t.Act?
    ensures SameOutcomes(f, Next(f, t)) && SameMovers(f, Next(f, t))
  {
    OnlyItsStage(f, t);
    QuietNextStage(f, t, c, o);
  }

  lemma QuietNextStage(f: Fray, t: Turn, c: Call, o: R.Order)
    requires OnePending(f, c, o) && OneSettler(f, c, o) && OwnTurn(f, t) && !t.Store? && !t.Act?
    ensures var g := NextStage(f, t);
            && (!g.Idle? ==> g.v.way.Afresh?)
            && (HasStored(g) <==> t.call in Settlers(f)) && (t.call in Settlers(f) ==> g.v == f.calls[t.call].v)
            && (g.Wrote? || g.Closed? <==> HasMoved(f, t.call))
  {
  }

  lemma StoreKeepsSingle(start: State, f: Fray, d: Call, c: Call, o: R.Order)
    requires Single(start, f, c, o) && CanTurn(f, Store(d))
    requires o.id in PendingIds(f.race.s) ==> Settlers(f) == {}
    ensures Single(start, Next(f, Store(d)), c, o)
  {
    if StillPending(f.race.s, f.calls[d].v.id) {
      assert f.calls[d].v.id in PendingIds(f.race.s);
      OnlyItsStage(f, Store(d));
      assert OneCaller(start, Next(f, Store(d)), c, o);
      StoreSettles(f, d, c, o);
      StoreKeepsRun(start, f, d, c);
    } else {
      LateStoreChangesNothing(f, d, c, o);
      SameSettlers(start, f, Next(f, Store(d)), c, o);
    }
  }

  lemma LateStoreChangesNothing(f: Fray, d: Call, c: Call, o: R.Order)
    requires OneSettler(f, c, o) && CanTurn(f, Store(d)) && !StillPending(f.race.s, f.calls[d].v.id)
    ensures var u := Next(f, Store(d)); u.race == f.race && SameOutcomes(f, u) && SameMovers(f, u)
  {
    OnlyItsStage(f, Store(d));
  }

  lemma StoreSettles(f: Fray, d: Call, c: Call, o: R.Order)
    requires OnePending(f, c, o) && OneSettler(f, c, o) && CanTurn(f, Store(d)) && Settlers(f) == {}
    requires f.calls[d].v.id == o.id && StillPending(f.race.s, o.id) && Asked(f, c)
    ensures OnePending(Next(f, Store(d)), c, o) && OneSettler(Next(f, Store(d)), c, o)
  {
    OnlyItsStage(f, Store(d));
    var u := Next(f, Store(d));
    assert Settlers(u) == {d};
    assert PendingIds(u.race.s) == PendingIds(f.race.s) - {o.id};
  }

  lemma StoreKeepsRun(start: State, f: Fray, d: Call, c: Call)
    requires RunFollows(start, f, c) && CanTurn(f, Store(d))
    ensures RunFollows(start, Next(f, Store(d)), c)
  {
    OnlyItsStage(f, Store(d));
    assert SameMovers(f, Next(f, Store(d)));
  }

  lemma NoneSettledYet(f: Fray, c: Call, o: R.Order)
    requires OneSettler(f, c, o) && FrayInv(f) && o.id in PendingIds(f.race.s)
    ensures Settlers(f) == {}
  {
    if d :| d in Settlers(f) {
      assert StageOk(f.race.s, d, f.calls[d]);
    }
  }

  lemma ActKeepsSingle(start: State, f: Fray, d: Call, c: Call, o: R.Order)
    requires start.run.status == Running && Single(start, f, c, o) && CanTurn(f, Act(d))
    ensures Single(start, Next(f, Act(d)), c, o)
  {
    ActKeepsOutcomes(f, d, c, o);
    ActKeepsRun(start, f, d, c, o);
    ApprovalsStay(start, f, Next(f, Act(d)), c, o);
  }

  lemma ActKeepsRun(start: State, f: Fray, d: Call, c: Call, o: R.Order)
    requires start.run.status == Running && RunFollows(start, f, c) && OneSettler(f, c, o) && CanTurn(f, Act(d))
    ensures RunFollows(start, Next(f, Act(d)), c)
    ensures Next(f, Act(d)).race.s.approvals == f.race.s.approvals && Next(f, Act(d)).race.calls == f.race.calls
  {
    OnlyItsStage(f, Act(d));
    if f.race.s.run == f.calls[d].read {
      ActMoves(start, f, d, c, o);
    } else {
      assert SameMovers(f, Next(f, Act(d)));
    }
  }

  lemma ApprovalsStay(start: State, f: Fray, u: Fray, c: Call, o: R.Order)
    requires OneCaller(start, f, c, o) && OnePending(f, c, o) && OneSettler(f, c, o)
    requires u.race.s.approvals == f.race.s.approvals && u.race.calls == f.race.calls && SameOutcomes(f, u)
    ensures OneCaller(start, u, c, o) && OnePending(u, c, o) && OneSettler(u, c, o)
  {
    assert PendingIds(u.race.s) == PendingIds(f.race.s);
  }

  lemma ActKeepsOutcomes(f: Fray, d: Call, c: Call, o: R.Order)
    requires OneSettler(f, c, o) && CanTurn(f, Act(d))
    ensures d in Settlers(f) && SameOutcomes(f, Next(f, Act(d)))
  {
    OnlyItsStage(f, Act(d));
  }

  /** A settlement that wins its move read the run while it waited; it is the only one to move it. */
  lemma ActMoves(start: State, f: Fray, d: Call, c: Call, o: R.Order)
    requires start.run.status == Running && RunFollows(start, f, c) && OneSettler(f, c, o) && CanTurn(f, Act(d))
    requires f.race.s.run == f.calls[d].read
    ensures RunFollows(start, Next(f, Act(d)), c)
  {
    OnlyItsStage(f, Act(d));
    MoversAreSettlers(f);
    OnlyWaitingMoves(f.calls[d].v, f.race.s.run.status);
    assert NobodyMoved(f);
    assert HasMoved(Next(f, Act(d)), d);
  }

  /** No decision or expiry moves a running run, and none moves a run out of a status a settlement gives it. */
  lemma OnlyWaitingMoves(v: Verdict, status: Status)
    requires v.way.Afresh? && Moves(v, status)
    ensures status != Running && status != Status.Rejected
  {
  }

  lemma TurnKeepsSingle(start: State, f: Fray, t: Turn, c: Call, o: R.Order)
    requires start.run.status == Running && !o.inline && FrayInv(f)
    requires Single(start, f, c, o) && CanTurn(f, t) && Admitted(t, c, o)
    ensures Single(start, Next(f, t), c, o)
  {
    if t.Around? && t.m.Other? {
      OthersKeepSingle(start, f, t, c, o);
    } else if t.Around? {
      RequestKeepsSingle(start, f, t, c, o);
    } else if t.Store? {
      if o.id in PendingIds(f.race.s) { NoneSettledYet(f, c, o); }
      StoreKeepsSingle(start, f, t.call, c, o);
    } else if t.Act? {
      ActKeepsSingle(start, f, t.call, c, o);
    } else {
      InvGivesOwnTurn(f, t);
      QuietTurnKeepsSingle(start, f, t, c, o);
    }
  }

  lemma InvGivesOwnTurn(f: Fray, t: Turn)
    requires FrayInv(f) && CanTurn(f, t) && !t.Around?
    ensures OwnTurn(f, t)
  {
    InvIsCurrent(f.race.s);
  }

  lemma StaysSingleNext(h: History, n: nat, c: Call, o: R.Order)
    requires OneRequest(h, c, o) && n < |h.turns| && Single(h.states[0].race.s, h.states[n], c, o)
    ensures Single(h.states[0].race.s, h.states[n + 1], c, o)
  {
    HistoryKeepsInv(h, n);
    assert Follows(h, n);
    TurnKeepsSingle(h.states[0].race.s, h.states[n], h.turns[n], c, o);
  }

  lemma StaysSingle(h: History, n: nat, c: Call, o: R.Order)
    requires OneRequest(h, c, o) && n <= |h.turns|
    ensures Single(h.states[0].race.s, h.states[n], c, o)
  {
    var single := (k: nat) => k <= |h.turns| ==> Single(h.states[0].race.s, h.states[k], c, o);
    forall k: nat | single(k) ensures single(k + 1) {
      if k < |h.turns| { StaysSingleNext(h, k, c, o); }
    }
    R.FromTheStart(single, n);
  }

  lemma StageStaysOk(h: History, n: nat, d: Call)
    requires Happens(h) && Quiet(h.states[0]) && n <= |h.turns| && d in h.states[n].calls
    ensures StageOk(h.states[n].race.s, d, h.states[n].calls[d])
  {
    HistoryKeepsInv(h, n);
  }

  // ---------------------------------------------------------- settled too early

  /** The call withdrew the approval, or it read the run before the request's write was won. */
  ghost predicate Early(h: History, d: Call)
    requires Happens(h)
  {
    || (d in h.states[|h.turns|].calls && h.states[|h.turns|].calls[d].Withdrew?)
    || (exists i, j :: 0 <= i < j < |h.turns| && h.turns[i] == Learn(d) && WinAt(h, j))
  }

  lemma WinsOnce(h: History, c: Call, o: R.Order, j: nat, k: nat)
    requires OneRequest(h, c, o) && j < |h.turns| && k < |h.turns| && WinAt(h, j) && WinAt(h, k)
    ensures j == k && h.turns[j].m.call == c
  {
    WinnerIsTheRequest(h, c, o, j);
    WinnerIsTheRequest(h, c, o, k);
    if j < k { StaysWon(h, c, j + 1, k); }
    if k < j { StaysWon(h, c, k + 1, j); }
  }

  lemma StaysWon(h: History, c: Call, j: nat, k: nat)
    requires Happens(h) && j <= k <= |h.turns| && c in h.states[j].race.calls && R.HasWon(h.states[j].race.calls[c])
    ensures c in h.states[k].race.calls && R.HasWon(h.states[k].race.calls[c])
  {
    R.WonStays(RaceOf(h), c, j, k);
  }

  lemma WinnerIsTheRequest(h: History, c: Call, o: R.Order, j: nat)
    requires OneRequest(h, c, o) && j < |h.turns| && WinAt(h, j)
    ensures h.turns[j] == Around(R.Pause(c))
    ensures c in h.states[j].race.calls && !R.HasWon(h.states[j].race.calls[c])
    ensures c in h.states[j + 1].race.calls && R.HasWon(h.states[j + 1].race.calls[c])
    ensures h.states[j + 1].race.s.run.token == h.states[0].race.s.run.token + 1
  {
    MovesOf(h, j);
    StaysSingle(h, j, c, o);
  }

  /** A settlement goes on from where it is, and what it has stored and read stays. */
  predicate GoesOn(a: Stage, b: Stage) {
    && (HasStored(a) ==> HasStored(b) && b.v == a.v)
    && (HasStored(a) && !a.Stored? ==> !b.Stored?)
  }

  lemma TurnGoesOn(f: Fray, t: Turn, d: Call)
    requires CanTurn(f, t) && d in f.calls
    ensures d in Next(f, t).calls && GoesOn(f.calls[d], Next(f, t).calls[d])
  {
    if !t.Around? { OnlyItsStage(f, t); }
  }

  lemma {:induction false} StageGoesOn(h: History, d: Call, i: nat, j: nat)
    requires Happens(h) && i <= j <= |h.turns| && d in h.states[i].calls && HasStored(h.states[i].calls[d])
    ensures d in h.states[j].calls && HasStored(h.states[j].calls[d])
    ensures h.states[j].calls[d].v == h.states[i].calls[d].v
    ensures !h.states[i].calls[d].Stored? ==> !h.states[j].calls[d].Stored?
    decreases j - i
  {
    if i < j {
      assert Follows(h, i);
      TurnGoesOn(h.states[i], h.turns[i], d);
      StageGoesOn(h, d, i + 1, j);
    }
  }

  /** After its read a settlement does not come back to it. */
  lemma LearnedForGood(h: History, d: Call, i: nat, k: nat)
    requires Happens(h) && i < k < |h.turns| && h.turns[i] == Learn(d)
    requires d in h.states[i].calls && h.states[i].calls[d].Stored? && HasStored(h.states[i].calls[d])
    ensures h.turns[k] != Learn(d)
  {
    assert Follows(h, i) && Follows(h, k);
    StageGoesOn(h, d, i + 1, k);
  }

  lemma LearnerHasStored(h: History, c: Call, o: R.Order, d: Call, i: nat)
    requires OneRequest(h, c, o) && i < |h.turns| && h.turns[i] == Learn(d)
    ensures d in h.states[i].calls && h.states[i].calls[d].Stored? && HasStored(h.states[i].calls[d])
  {
    StaysSingle(h, i, c, o);
    assert Follows(h, i);
  }

  lemma LearnsOnce(h: History, c: Call, o: R.Order, d: Call, i: nat, k: nat)
    requires OneRequest(h, c, o) && i < |h.turns| && k < |h.turns| && h.turns[i] == Learn(d) && h.turns[k] == Learn(d)
    ensures i == k
  {
    LearnerHasStored(h, c, o, d, i);
    LearnerHasStored(h, c, o, d, k);
    if i < k { LearnedForGood(h, d, i, k); }
    if k < i { LearnedForGood(h, d, k, i); }
  }

  /** Of one request's settlements only one acts on a read of the run, once. */
  lemma ActsOnIsLearn(h: History, c: Call, o: R.Order, i: nat)
    requires OneRequest(h, c, o) && i < |h.turns| && ActsOn(h.states[i], h.turns[i])
    ensures h.turns[i] == Learn(h.turns[i].call) && h.turns[i].call in Settlers(h.states[|h.turns|])
    ensures !h.states[|h.turns|].calls[h.turns[i].call].Withdrew?
  {
    var d, n := h.turns[i].call, |h.turns|;
    StaysSingle(h, i, c, o);
    assert Follows(h, i);
    StageStaysOk(h, i, d);
    StageGoesOn(h, d, i, n);
    StageStaysOk(h, n, d);
  }

  /** The settlement that stored an outcome, and did not withdraw, read the run at some turn. */
  lemma LearnedAt(h: History, c: Call, o: R.Order, d: Call) returns (i: nat)
    requires OneRequest(h, c, o) && d in Settlers(h.states[|h.turns|]) && !h.states[|h.turns|].calls[d].Withdrew?
    ensures i < |h.turns| && h.turns[i] == Learn(d) && ActsOn(h.states[i], h.turns[i])
  {
    i := ActingReadAt(h, d, |h.turns|);
    ActsOnIsLearn(h, c, o, i);
  }

  /** No call acts on a read made after the request's write was won exactly when the settlement is early. */
  lemma UnreadIffEarly(h: History, c: Call, o: R.Order, d: Call, j: nat)
    requires OneRequest(h, c, o) && d in Settlers(h.states[|h.turns|]) && j < |h.turns| && WinAt(h, j)
    ensures !ReadAfter(h, j) <==> Early(h, d)
  {
    if i :| j < i < |h.turns| && ActsOn(h.states[i], h.turns[i]) {
      LateReadIsNotEarly(h, c, o, d, j, i);
    } else if !h.states[|h.turns|].calls[d].Withdrew? {
      var k := LearnedAt(h, c, o, d);
      assert k < j;
    }
  }

  lemma LateReadIsNotEarly(h: History, c: Call, o: R.Order, d: Call, j: nat, i: nat)
    requires OneRequest(h, c, o) && d in Settlers(h.states[|h.turns|]) && j < i < |h.turns| && WinAt(h, j)
    requires ActsOn(h.states[i], h.turns[i])
    ensures !Early(h, d)
  {
    ActsOnIsLearn(h, c, o, i);
    StaysSingle(h, |h.turns|, c, o);
    assert h.turns[i] == Learn(d);
    if k, e :| 0 <= k < e < |h.turns| && h.turns[k] == Learn(d) && WinAt(h, e) {
      WinsOnce(h, c, o, e, j);
      LearnsOnce(h, c, o, d, i, k);
    }
  }

  /** A request that has ended and stored its approval won its write. */
  lemma WonAt(h: History, c: Call, o: R.Order) returns (j: nat)
    requires OneRequest(h, c, o) && Asked(h.states[|h.turns|], c)
    ensures j < |h.turns| && WinAt(h, j) && h.states[|h.turns|].race.calls[c].Done?
    ensures h.states[j + 1].race.s.run.token == h.states[0].race.s.run.token + 1
  {
    AskedIsDone(h, c, o);
    j := R.WroteAt(RaceOf(h), c, |h.turns|);
    MovesOf(h, j);
    WinnerIsTheRequest(h, c, o, j);
  }

  lemma AskedIsDone(h: History, c: Call, o: R.Order)
    requires OneRequest(h, c, o) && Asked(h.states[|h.turns|], c)
    ensures h.states[|h.turns|].race.calls[c].Done?
  {
    StaysSingle(h, |h.turns|, c, o);
  }

  /** Where the run ends, by whether it was written after the request's write. */
  lemma EndsByItsMover(start: State, f: Fray, c: Call, o: R.Order, d: Call)
    requires Single(start, f, c, o) && d in Settlers(f) && StageOk(f.race.s, d, f.calls[d])
    requires R.HasWon(f.race.calls[c])
    ensures PendingIds(f.race.s) == {} && f.calls[d].v.id == o.id && f.race.calls.Keys == {c}
    ensures f.race.s.run.token > start.run.token + 1 ==> f.race.s.run.status == Target(f.calls[d].v)
  {
    MoversAreSettlers(f);
  }

  /** One request, any number of settlements, any interleaving: once all have ended, the run is left waiting with
      nothing pending exactly when its approval was withdrawn, or was settled by a call that read the run before the
      request's write was won. Otherwise the run is where the outcome puts it. */
  lemma SettledEarlyStrandsIff(h: History, c: Call, o: R.Order, d: Call)
    requires OneRequest(h, c, o) && d in Settlers(h.states[|h.turns|])
    ensures var f := h.states[|h.turns|];
            && f.race.calls.Keys == {c} && f.race.calls[c].Done? && f.calls[d].v.id == o.id
            && PendingIds(f.race.s) == {}
            && (Stranded(f.race.s) <==> Early(h, d))
            && (!Early(h, d) ==>
                  f.race.s.run.status == if f.calls[d].v.outcome == Granted then Running else Status.Rejected)
  {
    StaysSingle(h, |h.turns|, c, o);
    StageStaysOk(h, |h.turns|, d);
    var j := WonAt(h, c, o);
    EndsByItsMover(h.states[0].race.s, h.states[|h.turns|], c, o, d);
    UnreadIffEarly(h, c, o, d, j);
    HeldIffUnread(h, c, o, j);
  }

  lemma HeldIffUnread(h: History, c: Call, o: R.Order, j: nat)
    requires OneRequest(h, c, o) && j < |h.turns| && WinAt(h, j)
    ensures !ReadAfter(h, j) ==> h.states[|h.turns|].race.s.run.status == WaitingApproval
    ensures ReadAfter(h, j) ==> h.states[|h.turns|].race.s.run.token > h.states[j + 1].race.s.run.token
  {
    NobodyElseWrites(h, j);
    WaitHoldsIffNotRead(h, j, h.turns[j].m.call);
    R.TokenMovesIffWritten(RaceOf(h), j + 1, |h.turns|);
  }

  /** One request, any number of settlements, any interleaving: the promise is kept exactly when the approval was not
      withdrawn and no call that settled it had read the run before the request's write was won. */
  lemma PromiseKeptIffSettledInTime(h: History, c: Call, o: R.Order)
    requires OneRequest(h, c, o)
    ensures OnePendingIffWaiting(h.states[|h.turns|].race.s)
       <==> forall d :: d in Settlers(h.states[|h.turns|]) ==> !Early(h, d)
  {
    var f := h.states[|h.turns|];
    StaysSingle(h, |h.turns|, c, o);
    if d :| d in Settlers(f) {
      SettledEarlyStrandsIff(h, c, o, d);
    } else {
      if Asked(f, c) { AskedIsDone(h, c, o); }
      KeptUnsettled(h.states[0].race.s, f, c, o);
    }
  }

  /** Where nobody has settled anything, the run waits for the one approval, if it was requested. */
  lemma KeptUnsettled(start: State, f: Fray, c: Call, o: R.Order)
    requires Single(start, f, c, o) && start.run.status == Running && Settlers(f) == {}
    requires Asked(f, c) ==> f.race.calls[c].Done?
    ensures OnePendingIffWaiting(f.race.s)
  {
    MoversAreSettlers(f);
    assert PendingIds(f.race.s) == if Asked(f, c) then {o.id} else {};
  }

  // --------------------------------------------------------------- such a history

  lemma Extend(h: History, t: Turn) returns (g: History)
    requires Happens(h) && CanTurn(h.states[|h.turns|], t)
    ensures Happens(g) && g.states[0] == h.states[0] && g.turns == h.turns + [t]
    ensures g.states[|g.turns|] == Next(h.states[|h.turns|], t)
    ensures forall k :: 0 <= k <= |h.turns| ==> g.states[k] == h.states[k]
  {
    g := History(h.states + [Next(h.states[|h.turns|], t)], h.turns + [t]);
    forall n | 0 <= n < |g.turns| ensures Follows(g, n) {
      assert n < |h.turns| ==> Follows(h, n);
    }
  }

  /** The request up to the point where its approval can be decided and its write is still to come. */
  lemma Announces(start: Fray, c: Call, o: R.Order) returns (h: History)
    requires Quiet(start) && !R.Taken(start.race.s, o)
    ensures Happens(h) && h.states[0] == start
    ensures h.turns == [Around(R.Look(c, o)), Around(R.ReadRun(c)), Around(R.Add(c)), Around(R.Announce(c))]
    ensures var f := h.states[4];
            && f.race.calls == map[c := R.Announced(o, start.race.s.run)] && f.calls == map[]
            && f.race.s.run == start.race.s.run && o.id in f.race.s.approvals
            && f.race.s.approvals[o.id] == R.Asking(o)
  {
    h := History([start], []);
    h := Extend(h, Around(R.Look(c, o)));
    h := Extend(h, Around(R.ReadRun(c)));
    h := Extend(h, Around(R.Add(c)));
    h := Extend(h, Around(R.Announce(c)));
  }

  /** A pending approval is granted. */
  lemma Grants(h: History, c: Call, d: Call, o: R.Order) returns (g: History)
    requires Happens(h) && c != d && !o.inline
    requires var f := h.states[|h.turns|];
             && f.race.calls.Keys == {c} && f.calls == map[]
             && o.id in f.race.s.approvals && f.race.s.approvals[o.id] == R.Asking(o)
    ensures var v := Verdict(o.id, Granted, false, Afresh);
            && Happens(g) && g.states[0] == h.states[0] && g.turns == h.turns + [Open(d, v), Store(d)]
            && g.states[|g.turns|].race.calls == h.states[|h.turns|].race.calls
            && g.states[|g.turns|].race.s.run == h.states[|h.turns|].race.s.run
            && g.states[|g.turns|].calls == map[d := Stored(v)]
  {
    g := Extend(h, Open(d, Verdict(o.id, Granted, false, Afresh)));
    g := Extend(g, Store(d));
  }

  /** The decision reads the run still running, and there is no move for it to make. */
  lemma FindsItRunning(h: History, d: Call, v: Verdict) returns (g: History)
    requires Happens(h) && v.outcome == Granted && v.way.Afresh?
    requires var f := h.states[|h.turns|];
             && f.calls == map[d := Stored(v)] && d !in f.race.calls && f.race.s.run.status == Running
             && StageOk(f.race.s, d, Stored(v))
    ensures Happens(g) && g.states[0] == h.states[0] && g.turns == h.turns + [Learn(d), Tell(d)]
    ensures var f, e := h.states[|h.turns|], g.states[|g.turns|];
            && e.race.calls == f.race.calls && e.race.s.run == f.race.s.run
            && e.calls == map[d := Stuck(v, f.race.s.run)]
  {
    g := Extend(h, Learn(d));
    g := Extend(g, Tell(d));
  }

  /** The request's write is won after all. */
  lemma Pauses(h: History, c: Call, o: R.Order) returns (g: History)
    requires Happens(h) && FrayInv(h.states[|h.turns|]) && c !in h.states[|h.turns|].calls
    requires var f := h.states[|h.turns|];
             f.race.calls == map[c := R.Announced(o, f.race.s.run)] && f.race.s.run.status == Running
    ensures Happens(g) && g.states[0] == h.states[0]
    ensures g.turns == h.turns + [Around(R.Pause(c)), Around(R.Confirm(c))]
    ensures var f, e := h.states[|h.turns|], g.states[|g.turns|];
            && e.race.calls == map[c := R.Done(o, f.race.s.run)] && e.calls == f.calls
            && e.race.s.run == Run(WaitingApproval, f.race.s.run.token + 1)
  {
    g := Extend(h, Around(R.Pause(c)));
    g := Extend(g, Around(R.Confirm(c)));
  }

  lemma GrantedEarly(start: Fray, c: Call, d: Call, o: R.Order) returns (h: History)
    requires Quiet(start) && !R.Taken(start.race.s, o) && c != d && !o.inline
    ensures Happens(h) && h.states[0] == start
    ensures var f, v := h.states[|h.turns|], Verdict(o.id, Granted, false, Afresh);
            && f.race.calls == map[c := R.Done(o, start.race.s.run)] && f.calls == map[d := Stuck(v, start.race.s.run)]
            && h.turns == [Around(R.Look(c, o)), Around(R.ReadRun(c)), Around(R.Add(c)), Around(R.Announce(c))]
                          + [Open(d, v), Store(d)] + [Learn(d), Tell(d)] + [Around(R.Pause(c)), Around(R.Confirm(c))]
  {
    h := Announces(start, c, o);
    h := Grants(h, c, d, o);
    StageStaysOk(h, |h.turns|, d);
    h := FindsItRunning(h, d, Verdict(o.id, Granted, false, Afresh));
    HistoryKeepsInv(h, |h.turns|);
    h := Pauses(h, c, o);
  }

  lemma TurnsOfBoth(h: History, c: Call, d: Call, o: R.Order, v: Verdict)
    requires h.turns == [Around(R.Look(c, o)), Around(R.ReadRun(c)), Around(R.Add(c)), Around(R.Announce(c))]
                        + [Open(d, v), Store(d)] + [Learn(d), Tell(d)] + [Around(R.Pause(c)), Around(R.Confirm(c))]
    ensures OnlyThese(h) && |h.turns| == 10 && h.turns[6] == Learn(d)
    ensures forall k :: 0 <= k < |h.turns| && h.turns[k].Around? && h.turns[k].m.Look? ==> h.turns[k].m == R.Look(c, o)
    ensures forall k :: 0 <= k < |h.turns| && h.turns[k].Around? && h.turns[k].m.Pause? ==> k == 8
  {
  }

  lemma ReadBeforeTheWin(h: History, c: Call, d: Call, o: R.Order)
    requires OneRequest(h, c, o) && Asked(h.states[|h.turns|], c) && |h.turns| == 10 && h.turns[6] == Learn(d)
    requires forall k :: 0 <= k < |h.turns| && h.turns[k].Around? && h.turns[k].m.Pause? ==> k == 8
    ensures Early(h, d)
  {
    var j := WonAt(h, c, o);
  }

  /** From every quiet running run there is such a history: the decision is stored and read between the request's event
      and its write, raises, and the request then puts the run to wait for an approval that is already granted. */
  lemma DecisionCanStrandTheRun(start: Fray, c: Call, d: Call, o: R.Order) returns (h: History)
    requires Quiet(start) && !R.Taken(start.race.s, o) && c != d && !o.inline
    requires forall id :: id in start.race.s.approvals ==> !start.race.s.approvals[id].inline
    ensures OneRequest(h, c, o) && h.states[0] == start
    ensures var f, v := h.states[|h.turns|], Verdict(o.id, Granted, false, Afresh);
            && f.race.calls == map[c := R.Done(o, start.race.s.run)] && f.calls == map[d := Stuck(v, start.race.s.run)]
            && Stranded(f.race.s)
  {
    h := GrantedEarly(start, c, d, o);
    TurnsOfBoth(h, c, d, o, Verdict(o.id, Granted, false, Afresh));
    assert d in Settlers(h.states[|h.turns|]);
    ReadBeforeTheWin(h, c, d, o);
    SettledEarlyStrandsIff(h, c, o, d);
  }
}
