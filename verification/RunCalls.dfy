/** What each service call does to a run's records when it runs from start to end undisturbed,
    and what every sequence of such calls keeps. The methods of `RunServices` are proved against
    these effects; the interleaved case is `RunProtocol`. */
module RunCalls {
  import opened RunStateMachine
  import opened RunProtocol

  // ------------------------------------------------------------------ effects

  /** A write to the run record and the event that reports it. */
  function Marked(s: State, mark: Mark): State {
    s.(run := Run(StatusOf(s.run.status, mark), s.run.token + 1),
       marks := s.marks + [mark],
       log := s.log + [RunEvent(mark, s.run.token + 1)])
  }

  function Moved(s: State, target: Status): State {
    Marked(s, Entered(target))
  }

  function MovedIfAllowed(s: State, target: Status): State {
    if Transition(s.run.status, target).Ok? then Moved(s, target) else s
  }

  function Noted(s: State, kind: string, id: string): State {
    s.(log := s.log + [Note(kind, id)])
  }

  function SettledAs(s: State, id: string, outcome: ApprovalStatus): State
    requires id in s.approvals
  {
    s.(approvals := s.approvals[id := s.approvals[id].(status := outcome)],
       log := s.log + [Outcome(id, outcome)])
  }

  /** The two halves of settling an approval: the record, and the event. */
  function Unreported(s: State, me: Call, id: string, outcome: ApprovalStatus): State
    requires id in s.approvals
  {
    s.(approvals := s.approvals[id := s.approvals[id].(status := outcome)],
       owedOutcome := s.owedOutcome[id := me])
  }

  function Reported(s: State, id: string, outcome: ApprovalStatus): State {
    s.(log := s.log + [Outcome(id, outcome)], owedOutcome := s.owedOutcome - {id})
  }

  function CancelEffect(s: State): State {
    if Stopping(s.run.status) then s
    else if s.run.status in {Provisioning, Running} then Moved(s, Cancelling)
    else Moved(Moved(s, Cancelling), Status.Cancelled)
  }

  function ResumeEffect(s: State): State {
    if s.run.status == WaitingApproval then Moved(s, Running) else s
  }

  /** What follows an expiry; `waiter` says whether the inline hook waits in this process. */
  function ExpiredEffect(t: State, id: string, waiter: bool): State
    requires id in t.approvals
  {
    if t.approvals[id].inline && waiter then ResumeEffect(t)
    else if Stopping(t.run.status) then t
    else RejectEffect(Noted(t, "tool.result", id))
  }

  function RejectEffect(s: State): State {
    if s.run.status == WaitingApproval then Moved(s, Status.Rejected) else s
  }

  function ExpireEffect(s: State, id: string, waiter: bool): State
    requires id in s.approvals
  {
    if s.approvals[id].status != Pending then s
    else ExpiredEffect(SettledAs(s, id, Expired), id, waiter)
  }

  /** What follows a decision once it is stored and reported. */
  function DecidedEffect(t: State, id: string, decision: ApprovalStatus): State
    requires id in t.approvals
  {
    if decision == Granted then MovedIfAllowed(t, Running)
    else MovedIfAllowed(if t.approvals[id].inline then t else Noted(t, "tool.result", id), Status.Rejected)
  }

  function DecideEffect(s: State, id: string, decision: ApprovalStatus, now: int, waiter: bool): State {
    if decision !in {Granted, Refused} || id !in s.approvals then s
    else
      var a := s.approvals[id];
      if a.status == decision then
        if a.inline && decision == Granted then ResumeEffect(s) else s
      else if a.status != Pending then s
      else if now >= a.expiresAt then ExpireEffect(s, id, waiter)
      else DecidedEffect(SettledAs(s, id, decision), id, decision)
  }

  /** `find_by_tool_call` finds something. */
  predicate Requested(approvals: map<string, Approval>, toolCall: string) {
    exists id :: id in approvals && approvals[id].toolCall == toolCall
  }

  function RequestEffect(s: State, id: string, a: Approval): State {
    if Requested(s.approvals, a.toolCall) || s.run.status != Running || id in s.approvals then s
    else Moved(Noted(s.(approvals := s.approvals[id := a]), "approval.requested", id), WaitingApproval)
  }

  function WithdrawEffect(s: State, id: string): State {
    if id in s.approvals && s.approvals[id].status == Pending then SettledAs(s, id, Withdrawn) else s
  }

  function ReclaimEffect(s: State): State {
    if s.run.status in {Provisioning, Running} then Marked(s, Recovered) else s
  }

  // ------------------------------------------------- what is due, status by status

  /** A cancellation closes a run that nobody executes and asks the worker to stop one that it executes; a run that is
      being stopped or has ended it leaves alone. */
  predicate CancelDue(s: State, t: State) {
    var k := s.run.token;
    && t.approvals == s.approvals
    && match s.run.status
       case Queued | WaitingApproval =>
         && t.run == Run(Status.Cancelled, k + 2)
         && t.log == s.log + [RunEvent(Entered(Cancelling), k + 1), RunEvent(Entered(Status.Cancelled), k + 2)]
       case Provisioning | Running =>
         && t.run == Run(Cancelling, k + 1)
         && t.log == s.log + [RunEvent(Entered(Cancelling), k + 1)]
       case _ => t == s
  }

  lemma CancelIsDue(s: State)
    ensures CancelDue(s, CancelEffect(s))
  {
  }

  /** The approval has this outcome and all else about approvals is as before. */
  predicate OnlySettles(s: State, t: State, id: string, outcome: ApprovalStatus) {
    && id in s.approvals && id in t.approvals && t.approvals.Keys == s.approvals.Keys
    && t.approvals[id] == s.approvals[id].(status := outcome)
    && forall x :: x in s.approvals && x != id ==> t.approvals[x] == s.approvals[x]
  }

  /** A grant puts a waiting run back to running and a refusal ends it; neither moves a run that is running or is
      being stopped or has ended. A refused tool call that no hook waits for fails. */
  predicate DecisionDue(s: State, t: State, id: string, decision: ApprovalStatus) {
    var k := s.run.token;
    var settled := s.log + [Outcome(id, decision)];
    && OnlySettles(s, t, id, decision)
    && if decision == Granted then
         && (s.run.status in {WaitingApproval, Provisioning} ==>
               t.run == Run(Running, k + 1) && t.log == settled + [RunEvent(Entered(Running), k + 1)])
         && (s.run.status !in {WaitingApproval, Provisioning} ==> t.run == s.run && t.log == settled)
       else
         var failed := if s.approvals[id].inline then settled else settled + [Note("tool.result", id)];
         && (s.run.status == WaitingApproval ==>
               && t.run == Run(Status.Rejected, k + 1)
               && t.log == failed + [RunEvent(Entered(Status.Rejected), k + 1)])
         && (s.run.status != WaitingApproval ==> t.run == s.run && t.log == failed)
  }

  lemma DecisionIsDue(s: State, id: string, decision: ApprovalStatus, now: int, waiter: bool)
    requires id in s.approvals && s.approvals[id].status == Pending && now < s.approvals[id].expiresAt
    requires decision == Granted || decision == Refused
    ensures DecisionDue(s, DecideEffect(s, id, decision, now, waiter), id, decision)
  {
  }

  /** An expiry gives a waiting run back to the hook of an inline approval that waits in this process; otherwise the
      tool call fails and a waiting run ends, unless the run is being stopped or has ended. */
  predicate ExpiryDue(s: State, t: State, id: string, waiter: bool) {
    var k := s.run.token;
    var settled := s.log + [Outcome(id, Expired)];
    && OnlySettles(s, t, id, Expired)
    && if s.approvals[id].inline && waiter then
         && (s.run.status == WaitingApproval ==>
               t.run == Run(Running, k + 1) && t.log == settled + [RunEvent(Entered(Running), k + 1)])
         && (s.run.status != WaitingApproval ==> t.run == s.run && t.log == settled)
       else
         var failed := settled + [Note("tool.result", id)];
         match s.run.status
         case WaitingApproval =>
           && t.run == Run(Status.Rejected, k + 1)
           && t.log == failed + [RunEvent(Entered(Status.Rejected), k + 1)]
         case Queued | Provisioning | Running => t.run == s.run && t.log == failed
         case _ => t.run == s.run && t.log == settled
  }

  lemma ExpiryIsDue(s: State, id: string, waiter: bool)
    requires id in s.approvals && s.approvals[id].status == Pending
    ensures ExpiryDue(s, ExpireEffect(s, id, waiter), id, waiter)
  {
  }

  /** A settled approval keeps its outcome: deciding it again, expiring it or withdrawing it settles nothing, and only
      granting an inline one again resumes a waiting run. */
  lemma SettledIsDue(s: State, id: string, decision: ApprovalStatus, now: int, waiter: bool)
    requires id in s.approvals && s.approvals[id].status != Pending
    ensures ExpireEffect(s, id, waiter) == s && WithdrawEffect(s, id) == s
    ensures var t := DecideEffect(s, id, decision, now, waiter);
            && t.approvals == s.approvals
            && (t != s ==>
                  && decision == Granted == s.approvals[id].status && s.approvals[id].inline
                  && s.run.status == WaitingApproval && t.run == Run(Running, s.run.token + 1))
  {
  }

  /** A request stores its approval, announces it and puts a running run to wait. */
  lemma RequestIsDue(s: State, id: string, a: Approval)
    ensures var t := RequestEffect(s, id, a);
            if s.run.status == Running && id !in s.approvals
               && (forall x :: x in s.approvals ==> s.approvals[x].toolCall != a.toolCall)
            then && t.approvals == s.approvals[id := a] && t.run == Run(WaitingApproval, s.run.token + 1)
                 && t.log == s.log + [Note("approval.requested", id),
                                      RunEvent(Entered(WaitingApproval), s.run.token + 1)]
            else t == s
  {
  }

  /** A withdrawal settles a pending approval and leaves the run alone. */
  lemma WithdrawalIsDue(s: State, id: string)
    requires id in s.approvals && s.approvals[id].status == Pending
    ensures var t := WithdrawEffect(s, id);
            OnlySettles(s, t, id, Withdrawn) && t.run == s.run && t.log == s.log + [Outcome(id, Withdrawn)]
  {
  }

  // ---------------------------------------------------------- whole-call runs

  datatype ServiceCall =
    | Request(id: string, toolCall: string, expiresAt: int)
    | Decide(id: string, decision: ApprovalStatus, now: int)
    | Expire(id: string, now: int)
    | Withdraw(id: string)
    | Cancel
    | Worker(target: Status)
    | Reclaim

  /** Approvals here are not inline. The worker makes any move of the table except those the
      approval service owns (entering or leaving an approval wait towards running) and stopping a wait. */
  function Effect(s: State, c: ServiceCall): State {
    match c
    case Request(id, tool, expiresAt) => RequestEffect(s, id, Approval(Pending, tool, false, expiresAt))
    case Decide(id, decision, now) => DecideEffect(s, id, decision, now, false)
    case Expire(id, now) =>
      if id in s.approvals && now >= s.approvals[id].expiresAt then ExpireEffect(s, id, false) else s
    case Withdraw(id) => WithdrawEffect(s, id)
    case Cancel => CancelEffect(s)
    case Worker(target) =>
      if target == WaitingApproval || (s.run.status == WaitingApproval && target in {Running, Cancelling})
      then s else MovedIfAllowed(s, target)
    case Reclaim => ReclaimEffect(s)
  }

  function Effects(s: State, calls: seq<ServiceCall>): State {
    if calls == [] then s else Effect(Effects(s, calls[..|calls| - 1]), calls[|calls| - 1])
  }

  function PendingIds(s: State): set<string> {
    set id | id in s.approvals && s.approvals[id].status == Pending
  }

  /** A live run waits for approval exactly when one approval is pending; otherwise none is. */
  ghost predicate OnePendingIffWaiting(s: State) {
    || Terminal(s.run.status)
    || (s.run.status == WaitingApproval && exists id :: PendingIds(s) == {id})
    || (s.run.status != WaitingApproval && PendingIds(s) == {})
  }

  /** The same, among approvals that are not inline. */
  ghost predicate WaitMatchesPending(s: State) {
    (forall id :: id in s.approvals ==> !s.approvals[id].inline) && OnePendingIffWaiting(s)
  }

  lemma SettlingLast(s: State, id: string, outcome: ApprovalStatus)
    requires id in s.approvals && outcome != Pending
    ensures PendingIds(SettledAs(s, id, outcome)) == PendingIds(s) - {id}
  {
  }

  /** A pending approval of a live run is the one the run waits for. */
  lemma PendingMeansWaiting(s: State, id: string)
    requires WaitMatchesPending(s) && !Terminal(s.run.status)
    requires id in s.approvals && s.approvals[id].status == Pending
    ensures s.run.status == WaitingApproval && PendingIds(s) == {id}
  {
    assert id in PendingIds(s);
  }

  lemma ExpireKeepsWait(s: State, id: string)
    requires WaitMatchesPending(s) && id in s.approvals
    ensures WaitMatchesPending(ExpireEffect(s, id, false))
  {
    if s.approvals[id].status == Pending {
      SettlingLast(s, id, Expired);
      if !Terminal(s.run.status) { PendingMeansWaiting(s, id); }
    }
  }

  lemma DecideKeepsWait(s: State, id: string, decision: ApprovalStatus, now: int)
    requires WaitMatchesPending(s)
    ensures WaitMatchesPending(DecideEffect(s, id, decision, now, false))
  {
    if id in s.approvals && s.approvals[id].status == Pending {
      ExpireKeepsWait(s, id);
      if decision != Pending { SettlingLast(s, id, decision); }
      if !Terminal(s.run.status) {
        PendingMeansWaiting(s, id);
        assert PendingIds(s) - {id} == {};
        if decision in {Granted, Refused} && now < s.approvals[id].expiresAt {
          assert PendingIds(DecideEffect(s, id, decision, now, false))
              == PendingIds(SettledAs(s, id, decision));
        }
      } else if decision in {Granted, Refused} && now < s.approvals[id].expiresAt {
        assert DecideEffect(s, id, decision, now, false).run == s.run;
      }
    }
  }

  /** The call is not the withdrawal of an approval a live run waits for. */
  predicate KeepsPromise(s: State, c: ServiceCall) {
    c.Withdraw? && c.id in s.approvals && s.approvals[c.id].status == Pending ==> Terminal(s.run.status)
  }

  /** A withdrawal settles the approval and leaves the run as it is: a run that waited for it waits for nothing. */
  lemma WithdrawKeepsWaitIff(s: State, id: string)
    requires WaitMatchesPending(s)
    ensures WaitMatchesPending(WithdrawEffect(s, id)) <==> KeepsPromise(s, Withdraw(id))
  {
    if id in s.approvals && s.approvals[id].status == Pending {
      SettlingLast(s, id, Withdrawn);
      if !Terminal(s.run.status) {
        PendingMeansWaiting(s, id);
        assert PendingIds(WithdrawEffect(s, id)) == {};
      }
    }
  }

  /** Each whole call keeps the promise, except the withdrawal of an approval a live run waits for, which breaks it. */
  lemma CallKeepsWaitIff(s: State, c: ServiceCall)
    requires WaitMatchesPending(s)
    ensures WaitMatchesPending(Effect(s, c)) <==> KeepsPromise(s, c)
  {
    match c
    case Request(id, tool, expiresAt) =>
      var a := Approval(Pending, tool, false, expiresAt);
      if RequestEffect(s, id, a) != s {
        assert PendingIds(RequestEffect(s, id, a)) == PendingIds(s) + {id};
      }
    case Decide(id, decision, now) => DecideKeepsWait(s, id, decision, now);
    case Expire(id, now) => if id in s.approvals { ExpireKeepsWait(s, id); }
    case Withdraw(id) => WithdrawKeepsWaitIff(s, id);
    case Cancel => assert PendingIds(CancelEffect(s)) == PendingIds(s);
    case Worker(target) => assert PendingIds(MovedIfAllowed(s, target)) == PendingIds(s);
    case Reclaim => assert PendingIds(ReclaimEffect(s)) == PendingIds(s);
  }

  ghost predicate AllKeep(s: State, calls: seq<ServiceCall>) {
    forall k :: 0 <= k < |calls| ==> KeepsPromise(Effects(s, calls[..k]), calls[k])
  }

  ghost predicate AlwaysMatches(s: State, calls: seq<ServiceCall>) {
    forall k :: 0 <= k <= |calls| ==> WaitMatchesPending(Effects(s, calls[..k]))
  }

  lemma {:induction false} MatchesWhileKept(s: State, calls: seq<ServiceCall>, n: nat)
    requires s.approvals == map[] && s.run.status == Queued && n <= |calls|
    requires forall k :: 0 <= k < n ==> KeepsPromise(Effects(s, calls[..k]), calls[k])
    ensures WaitMatchesPending(Effects(s, calls[..n]))
  {
    if n == 0 {
      assert PendingIds(s) == {} && calls[..0] == [];
    } else {
      MatchesWhileKept(s, calls, n - 1);
      EffectsNext(s, calls, n - 1);
      CallKeepsWaitIff(Effects(s, calls[..n - 1]), calls[n - 1]);
    }
  }

  lemma EffectsNext(s: State, calls: seq<ServiceCall>, k: nat)
    requires k < |calls|
    ensures Effects(s, calls[..k + 1]) == Effect(Effects(s, calls[..k]), calls[k])
  {
    assert calls[..k + 1][..k] == calls[..k];
  }

  /** Along any sequence of whole calls on a new run, waiting and pending agree after every call exactly when no call
      withdraws an approval that a live run waits for. */
  lemma WaitingIffOnePending(s: State, calls: seq<ServiceCall>)
    requires s.approvals == map[] && s.run.status == Queued
    ensures AlwaysMatches(s, calls) <==> AllKeep(s, calls)
  {
    if AllKeep(s, calls) {
      forall n | 0 <= n <= |calls| ensures WaitMatchesPending(Effects(s, calls[..n])) {
        MatchesWhileKept(s, calls, n);
      }
    }
    if AlwaysMatches(s, calls) {
      forall k | 0 <= k < |calls| ensures KeepsPromise(Effects(s, calls[..k]), calls[k]) {
        assert WaitMatchesPending(Effects(s, calls[..k])) && WaitMatchesPending(Effects(s, calls[..k + 1]));
        EffectsNext(s, calls, k);
        CallKeepsWaitIff(Effects(s, calls[..k]), calls[k]);
      }
    }
  }

  lemma EffectsOfFour(s: State, a: ServiceCall, b: ServiceCall, c: ServiceCall, d: ServiceCall)
    ensures Effects(s, [a, b, c, d][..2]) == Effect(Effect(s, a), b)
    ensures Effects(s, [a, b, c, d][..3]) == Effect(Effects(s, [a, b, c, d][..2]), c)
    ensures Effects(s, [a, b, c, d]) == Effect(Effects(s, [a, b, c, d][..3]), d)
  {
    var calls := [a, b, c, d];
    assert calls[..0] == [] && calls[..4] == calls;
    EffectsNext(s, calls, 0);
    EffectsNext(s, calls, 1);
    EffectsNext(s, calls, 2);
    EffectsNext(s, calls, 3);
  }

  lemma StartedAndAsked(creator: Call, id: string, toolCall: string, expiresAt: int)
    ensures var s := Effect(Effect(Effect(Created(creator), Worker(Provisioning)), Worker(Running)),
                            Request(id, toolCall, expiresAt));
            s.run.status == WaitingApproval && PendingIds(s) == {id}
  {
    var s := Effect(Effect(Created(creator), Worker(Provisioning)), Worker(Running));
    assert s.run.status == Running && s.approvals == map[];
    assert PendingIds(Effect(s, Request(id, toolCall, expiresAt))) == {id};
  }

  /** Such a sequence: a running run asks for an approval, and the approval is withdrawn. */
  lemma WithdrawalStrandsTheRun(creator: Call, id: string, toolCall: string, expiresAt: int)
    ensures var calls := [Worker(Provisioning), Worker(Running), Request(id, toolCall, expiresAt), Withdraw(id)];
            var s := Effects(Created(creator), calls);
            s.run.status == WaitingApproval && PendingIds(s) == {} && !AllKeep(Created(creator), calls)
  {
    var a, b, c, d := Worker(Provisioning), Worker(Running), Request(id, toolCall, expiresAt), Withdraw(id);
    EffectsOfFour(Created(creator), a, b, c, d);
    StartedAndAsked(creator, id, toolCall, expiresAt);
    var s := Effects(Created(creator), [a, b, c, d][..3]);
    assert id in PendingIds(s);
    SettlingLast(s, id, Withdrawn);
    assert !KeepsPromise(s, [a, b, c, d][3]);
  }
}
