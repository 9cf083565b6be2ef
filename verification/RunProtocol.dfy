/** The durable run protocol: every step a call can take on the shared records of one run,
    and what all interleavings of such steps keep. */
module RunProtocol {
  import opened RunStateMachine

  // ------------------------------------------------------------------ records

  /** A caller in the middle of one service call; no two calls share an identity. */
  type Call = nat

  datatype Run = Run(status: Status, token: nat)

  datatype ApprovalStatus = Pending | Granted | Refused | Expired | Withdrawn

  datatype Approval = Approval(status: ApprovalStatus, toolCall: string, inline: bool, expiresAt: int)

  /** A stored event. `run.*` events carry the fencing token their write gave the record. */
  datatype Event =
    | RunEvent(mark: Mark, token: nat)
    | Outcome(approval: string, status: ApprovalStatus)
    | Note(kind: string, approval: string)

  /** The shared records, with the bookkeeping of what has been written but not yet reported:
      `owed` maps a fencing token to the call that still has to append its `run.*` event,
      `owedOutcome` maps an approval to the call that still has to append its outcome. */
  datatype State = State(
    run: Run,
    approvals: map<string, Approval>,
    log: seq<Event>,
    marks: seq<Mark>,
    owed: map<nat, Call>,
    owedOutcome: map<string, Call>)

  /** One repository call that changes something. Lost compare-and-sets and reads change nothing. */
  datatype Action =
    | Write(mark: Mark)
    | Report(token: nat)
    | AddApproval(id: string, approval: Approval)
    | Settle(id: string, outcome: ApprovalStatus)
    | ReportOutcome(id: string)
    | Remark(kind: string, about: string)

  datatype Step = Step(caller: Call, action: Action)

  /** Right after the run was added: its creator has yet to append `run.queued`. */
  function Created(creator: Call): State {
    State(Run(Queued, 0), map[], [], [Entered(Queued)], map[0 := creator], map[])
  }

  // -------------------------------------------------------------------- steps

  predicate Enabled(s: State, step: Step) {
    match step.action
    case Write(mark) => LegalMark(s.run.status, mark)
    case Report(t) => t in s.owed && s.owed[t] == step.caller && t < |s.marks|
    case AddApproval(id, a) =>
      && id !in s.approvals && a.status == Pending
      && forall x :: x in s.approvals ==> s.approvals[x].toolCall != a.toolCall
    case Settle(id, outcome) => id in s.approvals && s.approvals[id].status == Pending && outcome != Pending
    case ReportOutcome(id) => id in s.owedOutcome && s.owedOutcome[id] == step.caller && id in s.approvals
    case Remark(_, _) => true
  }

  function StatusOf(current: Status, mark: Mark): Status {
    match mark
    case Entered(s) => s
    case Recovered => current
  }

  function Apply(s: State, step: Step): State
    requires Enabled(s, step)
  {
    match step.action
    case Write(mark) =>
      s.(run := Run(StatusOf(s.run.status, mark), s.run.token + 1),
         marks := s.marks + [mark],
         owed := s.owed[s.run.token + 1 := step.caller])
    case Report(t) =>
      s.(log := s.log + [RunEvent(s.marks[t], t)],
         owed := s.owed - {t})
    case AddApproval(id, a) => s.(approvals := s.approvals[id := a])
    case Settle(id, outcome) =>
      s.(approvals := s.approvals[id := s.approvals[id].(status := outcome)],
         owedOutcome := s.owedOutcome[id := step.caller])
    case ReportOutcome(id) =>
      s.(log := s.log + [Outcome(id, s.approvals[id].status)], owedOutcome := s.owedOutcome - {id})
    case Remark(kind, about) => s.(log := s.log + [Note(kind, about)])
  }

  ghost predicate Legal(s: State, trace: seq<Step>)
    decreases |trace|, 0
  {
    trace == [] ||
    (Legal(s, trace[..|trace| - 1]) && Enabled(Exec(s, trace[..|trace| - 1]), trace[|trace| - 1]))
  }

  ghost function Exec(s: State, trace: seq<Step>): State
    requires Legal(s, trace)
    decreases |trace|, 1
  {
    if trace == [] then s
    else Apply(Exec(s, trace[..|trace| - 1]), trace[|trace| - 1])
  }

  /** The steps one caller took, in its own order. */
  function StepsBy(trace: seq<Step>, me: Call): seq<Step> {
    if trace == [] then []
    else
      var last := trace[|trace| - 1];
      StepsBy(trace[..|trace| - 1], me) + if last.caller == me then [last] else []
  }

  lemma OneMoreStep(trace: seq<Step>, step: Step, me: Call)
    ensures StepsBy(trace + [step], me) == StepsBy(trace, me) + if step.caller == me then [step] else []
  {
    assert (trace + [step])[..|trace|] == trace;
  }

  lemma OneThenAnother(a: seq<Step>, b: seq<Step>, c: seq<Step>, first: Step, second: Step)
    requires b == a + [first] && c == b + [second]
    ensures c == a + [first, second]
  {
  }

  lemma {:induction false} OthersTakeNoStep(trace: seq<Step>, more: seq<Step>, me: Call)
    requires forall i :: 0 <= i < |more| ==> more[i].caller != me
    ensures StepsBy(trace + more, me) == StepsBy(trace, me)
    decreases |more|
  {
    if more == [] {
      assert trace + more == trace;
    } else {
      var front, last := more[..|more| - 1], more[|more| - 1];
      OthersTakeNoStep(trace, front, me);
      OneMoreStep(trace + front, last, me);
      assert trace + more == (trace + front) + [last];
    }
  }

  // --------------------------------------------------------------- invariants

  function RunEvents(log: seq<Event>): nat {
    if log == [] then 0
    else RunEvents(log[..|log| - 1]) + if log[|log| - 1].RunEvent? then 1 else 0
  }

  function Outcomes(log: seq<Event>, id: string): nat {
    if log == [] then 0
    else Outcomes(log[..|log| - 1], id)
         + if log[|log| - 1].Outcome? && log[|log| - 1].approval == id then 1 else 0
  }

  /** The record is where a legal path of the state machine ends, and its token counts the writes. */
  ghost predicate RecordFollowsPath(s: State) {
    && LegalPath(s.marks)
    && s.run == Run(StatusAfter(s.marks), |s.marks| - 1)
  }

  /** `run.*` events and unreported writes together are exactly the writes, one each. */
  ghost predicate EveryWriteReportedOnce(s: State) {
    && (forall t :: t in s.owed ==> t < |s.marks|)
    && (forall e :: e in s.log && e.RunEvent? ==>
          e.token < |s.marks| && e.mark == s.marks[e.token] && e.token !in s.owed)
    && (forall i, j :: 0 <= i < j < |s.log| && s.log[i].RunEvent? && s.log[j].RunEvent? ==>
          s.log[i].token != s.log[j].token)
    && RunEvents(s.log) + |s.owed.Keys| == |s.marks|
  }

  function OutcomeDue(s: State, id: string): nat {
    if id in s.approvals && s.approvals[id].status != Pending then 1 else 0
  }

  /** An approval has no outcome event while pending, and one, reported or owed, ever after. */
  ghost predicate EveryApprovalSettledOnce(s: State) {
    && (forall id :: id in s.owedOutcome ==> id in s.approvals)
    && (forall id :: Outcomes(s.log, id) + (if id in s.owedOutcome then 1 else 0) == OutcomeDue(s, id))
    && (forall e :: e in s.log && e.Outcome? ==>
          e.approval in s.approvals && s.approvals[e.approval].status == e.status)
  }

  ghost predicate Inv(s: State) {
    RecordFollowsPath(s) && EveryWriteReportedOnce(s) && EveryApprovalSettledOnce(s)
  }

  lemma RecordStep(s: State, step: Step)
    requires RecordFollowsPath(s) && Enabled(s, step)
    ensures RecordFollowsPath(Apply(s, step))
  {
    if step.action.Write? {
      assert Apply(s, step).marks[..|s.marks|] == s.marks;
    }
  }

  lemma Appended(log: seq<Event>, e: Event)
    ensures RunEvents(log + [e]) == RunEvents(log) + if e.RunEvent? then 1 else 0
    ensures forall id :: Outcomes(log + [e], id)
                      == Outcomes(log, id) + if e.Outcome? && e.approval == id then 1 else 0
  {
    assert (log + [e])[..|log|] == log;
  }

  lemma WriteKeepsReporting(s: State, step: Step)
    requires s.run.token + 1 == |s.marks|
    requires EveryWriteReportedOnce(s) && Enabled(s, step) && step.action.Write?
    ensures EveryWriteReportedOnce(Apply(s, step))
  {
    OwedIsReportedOnce(s, Apply(s, step), step.action.mark, step.caller);
  }

  /** One more write, and one more report owed. */
  lemma OwedIsReportedOnce(s: State, t: State, mark: Mark, c: Call)
    requires EveryWriteReportedOnce(s)
    requires t.log == s.log && t.marks == s.marks + [mark] && t.owed == s.owed[|s.marks| := c]
    ensures EveryWriteReportedOnce(t)
  {
    assert |s.marks| !in s.owed;
    assert t.owed.Keys == s.owed.Keys + {|s.marks|};
  }

  /** The log grows by one event, which reports nothing owed before or the write of token `e.token`. */
  lemma AppendKeepsReporting(s: State, t: State, e: Event)
    requires EveryWriteReportedOnce(s)
    requires t.log == s.log + [e] && t.marks == s.marks
    requires if e.RunEvent?
             then e.token in s.owed && e.mark == s.marks[e.token] && t.owed == s.owed - {e.token}
             else t.owed == s.owed
    ensures EveryWriteReportedOnce(t)
  {
    Appended(s.log, e);
    assert e.RunEvent? ==> t.owed.Keys == s.owed.Keys - {e.token};
    forall x | x in t.log && x.RunEvent?
      ensures x.token < |t.marks| && x.mark == t.marks[x.token] && x.token !in t.owed
    {
      assert x == e || x in s.log;
    }
    forall i, j | 0 <= i < j < |t.log| && t.log[i].RunEvent? && t.log[j].RunEvent?
      ensures t.log[i].token != t.log[j].token
    {
      assert t.log[i] in s.log;
    }
  }

  lemma ReportingStep(s: State, step: Step)
    requires RecordFollowsPath(s) && EveryWriteReportedOnce(s) && Enabled(s, step)
    ensures EveryWriteReportedOnce(Apply(s, step))
  {
    match step.action
    case Write(mark) => WriteKeepsReporting(s, step);
    case Report(token) => AppendKeepsReporting(s, Apply(s, step), RunEvent(s.marks[token], token));
    case ReportOutcome(id) =>
      AppendKeepsReporting(s, Apply(s, step), Outcome(id, s.approvals[id].status));
    case Remark(kind, about) => AppendKeepsReporting(s, Apply(s, step), Note(kind, about));
    case AddApproval(_, _) =>
    case Settle(_, _) =>
  }

  /** The log grows by one event, which settles nothing or the owed outcome of `e.approval`. */
  lemma AppendKeepsSettling(s: State, t: State, e: Event)
    requires EveryApprovalSettledOnce(s)
    requires t.log == s.log + [e] && t.approvals == s.approvals
    requires if e.Outcome?
             then && e.approval in s.owedOutcome && e.approval in s.approvals
                  && e.status == s.approvals[e.approval].status
                  && t.owedOutcome == s.owedOutcome - {e.approval}
             else t.owedOutcome == s.owedOutcome
    ensures EveryApprovalSettledOnce(t)
  {
    Appended(s.log, e);
    forall x | x in t.log && x.Outcome?
      ensures x.approval in t.approvals && t.approvals[x.approval].status == x.status
    {
      assert x == e || x in s.log;
    }
    forall id
      ensures Outcomes(t.log, id) + (if id in t.owedOutcome then 1 else 0) == OutcomeDue(t, id)
    {
      assert Outcomes(s.log, id) + (if id in s.owedOutcome then 1 else 0) == OutcomeDue(s, id);
    }
  }

  lemma SettleKeepsSettling(s: State, step: Step)
    requires EveryApprovalSettledOnce(s) && Enabled(s, step)
    requires step.action.AddApproval? || step.action.Settle?
    ensures EveryApprovalSettledOnce(Apply(s, step))
  {
    var t := Apply(s, step);
    var id := step.action.id;
    assert OutcomeDue(s, id) == 0 && Outcomes(s.log, id) == 0;
    NoOutcomeYet(s.log, id);
    forall x
      ensures Outcomes(t.log, x) + (if x in t.owedOutcome then 1 else 0) == OutcomeDue(t, x)
    {
      assert Outcomes(s.log, x) + (if x in s.owedOutcome then 1 else 0) == OutcomeDue(s, x);
    }
  }

  lemma {:induction false} NoOutcomeYet(log: seq<Event>, id: string)
    requires Outcomes(log, id) == 0
    ensures forall e :: e in log && e.Outcome? ==> e.approval != id
  {
    if log != [] {
      NoOutcomeYet(log[..|log| - 1], id);
      assert log == log[..|log| - 1] + [log[|log| - 1]];
    }
  }

  lemma SettlingStep(s: State, step: Step)
    requires EveryApprovalSettledOnce(s) && Enabled(s, step)
    ensures EveryApprovalSettledOnce(Apply(s, step))
  {
    match step.action
    case Report(token) => AppendKeepsSettling(s, Apply(s, step), RunEvent(s.marks[token], token));
    case ReportOutcome(id) =>
      AppendKeepsSettling(s, Apply(s, step), Outcome(id, s.approvals[id].status));
    case Remark(kind, about) => AppendKeepsSettling(s, Apply(s, step), Note(kind, about));
    case AddApproval(_, _) => SettleKeepsSettling(s, step);
    case Settle(_, _) => SettleKeepsSettling(s, step);
    case Write(_) =>
      forall x
        ensures Outcomes(Apply(s, step).log, x) + (if x in Apply(s, step).owedOutcome then 1 else 0)
             == OutcomeDue(Apply(s, step), x)
      {
        assert OutcomeDue(Apply(s, step), x) == OutcomeDue(s, x);
      }
  }

  /** Every interleaving of every caller's steps keeps the invariant. */
  lemma {:induction false} EveryInterleavingKeepsInv(s: State, trace: seq<Step>)
    requires Inv(s) && Legal(s, trace)
    ensures Inv(Exec(s, trace))
  {
    if trace != [] {
      var front := trace[..|trace| - 1];
      EveryInterleavingKeepsInv(s, front);
      RecordStep(Exec(s, front), trace[|trace| - 1]);
      ReportingStep(Exec(s, front), trace[|trace| - 1]);
      SettlingStep(Exec(s, front), trace[|trace| - 1]);
    }
  }

  lemma CreatedInv(creator: Call)
    ensures Inv(Created(creator))
  {
    assert Created(creator).owed.Keys == {0};
  }

  /** From creation on: the fencing token is the number of winning writes, the history is a legal path,
      and the `run.*` events beyond `run.queued` plus the writes still to be reported equal the token. */
  lemma TokenCountsWrites(creator: Call, trace: seq<Step>)
    requires Legal(Created(creator), trace)
    ensures var s := Exec(Created(creator), trace);
            && LegalPath(s.marks) && s.run.status == StatusAfter(s.marks)
            && s.run.token == |s.marks| - 1
            && RunEvents(s.log) + |s.owed.Keys| == s.run.token + 1
            && (s.owed == map[] ==> RunEvents(s.log) == s.run.token + 1)
  {
    CreatedInv(creator);
    EveryInterleavingKeepsInv(Created(creator), trace);
  }

  /** From creation on: an approval has at most one outcome event, of the outcome it was given. */
  lemma {:induction false} ApprovalsSettleOnce(creator: Call, trace: seq<Step>, id: string)
    requires Legal(Created(creator), trace)
    ensures var s := Exec(Created(creator), trace);
            && Outcomes(s.log, id) <= 1
            && (Outcomes(s.log, id) == 1 ==> id in s.approvals && s.approvals[id].status != Pending)
            && (id in s.approvals && s.approvals[id].status != Pending && id !in s.owedOutcome ==>
                  Outcomes(s.log, id) == 1)
            && (forall e :: e in s.log && e.Outcome? && e.approval == id ==>
                  id in s.approvals && s.approvals[id].status == e.status)
  {
    CreatedInv(creator);
    EveryInterleavingKeepsInv(Created(creator), trace);
  }

  // ---------------------------------------------------------------- stability

  /** The record has been `read` at some time. */
  ghost predicate WasRecord(s: State, read: Run) {
    read.token < |s.marks| && StatusAfter(s.marks[..read.token + 1]) == read.status
  }

  lemma WasRecordStays(s: State, t: State, read: Run)
    requires WasRecord(s, read) && s.marks <= t.marks
    ensures WasRecord(t, read)
  {
    assert s.marks[..read.token + 1] == t.marks[..read.token + 1];
  }

  /** An approval now, given what it was: its terms are fixed, and once settled so is all of it. */
  ghost predicate Later(before: Approval, after: Approval) {
    && after.(status := Pending) == before.(status := Pending)
    && (before.status != Pending ==> after == before)
  }

  /** What `me` can rely on while other calls run. */
  ghost predicate Rely(me: Call, s: State, t: State) {
    && s.run.token <= t.run.token
    && (s.run.token == t.run.token ==> s.run == t.run && s.marks == t.marks)
    && (Stopping(s.run.status) ==> Stopping(t.run.status))
    && (Terminal(s.run.status) ==> s.run == t.run)
    && (forall k :: k in s.owed && s.owed[k] == me ==> k in t.owed && t.owed[k] == me)
    && (forall k :: k in t.owed && t.owed[k] == me ==> k in s.owed && s.owed[k] == me)
    && (forall id :: id in s.owedOutcome && s.owedOutcome[id] == me ==>
          id in t.owedOutcome && t.owedOutcome[id] == me)
    && (forall id :: id in t.owedOutcome && t.owedOutcome[id] == me ==>
          id in s.owedOutcome && s.owedOutcome[id] == me)
    && (forall id :: id in s.approvals ==>
          id in t.approvals && Later(s.approvals[id], t.approvals[id]))
    && s.log <= t.log && s.marks <= t.marks
  }

  /** The consequences of the invariant that protect a caller's unfinished business from the others. */
  ghost predicate Protected(s: State) {
    && |s.marks| == s.run.token + 1
    && s.run.token + 1 !in s.owed
    && (forall id :: id in s.owedOutcome ==> id in s.approvals && s.approvals[id].status != Pending)
  }

  lemma InvProtects(s: State)
    requires Inv(s)
    ensures Protected(s)
  {
    forall id | id in s.owedOutcome ensures s.approvals[id].status != Pending {
      assert OutcomeDue(s, id) == 1;
    }
  }

  lemma RelyStep(me: Call, s: State, step: Step)
    requires Protected(s) && Enabled(s, step) && step.caller != me
    ensures Rely(me, s, Apply(s, step))
  {
    if step.action.Write? {
      RelyWrite(me, s, step);
    } else if step.action.AddApproval? || step.action.Settle? {
      RelySettle(me, s, step);
    }
  }

  lemma RelyWrite(me: Call, s: State, step: Step)
    requires Protected(s) && Enabled(s, step) && step.caller != me && step.action.Write?
    ensures Rely(me, s, Apply(s, step))
  {
  }

  lemma RelySettle(me: Call, s: State, step: Step)
    requires Protected(s) && Enabled(s, step) && step.caller != me && (step.action.AddApproval? || step.action.Settle?)
    ensures Rely(me, s, Apply(s, step))
  {
  }

  lemma RelyTransitive(me: Call, s: State, t: State, u: State)
    requires Rely(me, s, t) && Rely(me, t, u)
    ensures Rely(me, s, u)
  {
  }

  lemma ReachedIsProtected(s: State, trace: seq<Step>)
    requires Inv(s) && Legal(s, trace)
    ensures Protected(Exec(s, trace))
  {
    EveryInterleavingKeepsInv(s, trace);
    InvProtects(Exec(s, trace));
  }

  /** However long the others run, they cannot take back or repeat what `me` did, and a stopping run stays stopping. */
  lemma {:induction false} OthersKeepRely(me: Call, s: State, trace: seq<Step>)
    requires Inv(s) && Legal(s, trace)
    requires forall i :: 0 <= i < |trace| ==> trace[i].caller != me
    ensures Rely(me, s, Exec(s, trace))
  {
    if trace != [] {
      var front := trace[..|trace| - 1];
      OthersKeepRely(me, s, front);
      ReachedIsProtected(s, front);
      RelyStep(me, Exec(s, front), trace[|trace| - 1]);
      RelyTransitive(me, s, Exec(s, front), Exec(s, trace));
    }
  }

  lemma ExecSnoc(s: State, trace: seq<Step>, step: Step)
    requires Legal(s, trace) && Enabled(Exec(s, trace), step)
    ensures Legal(s, trace + [step])
    ensures Exec(s, trace + [step]) == Apply(Exec(s, trace), step)
  {
    assert (trace + [step])[..|trace|] == trace;
  }

  /** Running one trace after another. */
  lemma {:induction false} ExecConcat(s: State, a: seq<Step>, b: seq<Step>)
    requires Legal(s, a + b)
    ensures Legal(s, a) && Legal(Exec(s, a), b)
    ensures Exec(s, a + b) == Exec(Exec(s, a), b)
    decreases |b|
  {
    if b == [] {
      assert a + b == a;
    } else {
      var front := b[..|b| - 1];
      assert (a + b)[..|a + b| - 1] == a + front;
      ExecConcat(s, a, front);
    }
  }

  /** What no step of anybody can undo. */
  ghost predicate Onward(s: State, t: State) {
    && s.run.token <= t.run.token
    && (Stopping(s.run.status) ==> Stopping(t.run.status))
    && (Terminal(s.run.status) ==> t.run == s.run)
    && (forall id :: id in s.approvals ==>
          id in t.approvals && Later(s.approvals[id], t.approvals[id]))
    && s.log <= t.log
  }

  /** Along every continuation of the protocol: a run being stopped never runs again, a run that has
      ended is never written again, a settled approval never changes, and the log only grows. */
  lemma {:induction false} StoppedAndSettledForever(s: State, trace: seq<Step>)
    requires Legal(s, trace)
    ensures Onward(s, Exec(s, trace))
  {
    if trace != [] {
      var front := trace[..|trace| - 1];
      StoppedAndSettledForever(s, front);
      OnwardStep(Exec(s, front), trace[|trace| - 1]);
      OnwardTransitive(s, Exec(s, front), Exec(s, trace));
    }
  }

  lemma OnwardStep(s: State, step: Step)
    requires Enabled(s, step)
    ensures Onward(s, Apply(s, step))
  {
  }

  lemma OnwardTransitive(s: State, t: State, u: State)
    requires Onward(s, t) && Onward(t, u)
    ensures Onward(s, u)
  {
  }

  lemma {:induction false} LongerTraceIsOnward(s: State, a: seq<Step>, b: seq<Step>)
    requires a <= b && Legal(s, b)
    ensures Legal(s, a) && Onward(Exec(s, a), Exec(s, b))
  {
    assert a + b[|a|..] == b;
    ExecConcat(s, a, b[|a|..]);
    StoppedAndSettledForever(Exec(s, a), b[|a|..]);
  }

  // ------------------------------------------------------ closing another's run

  /** From creation on: a cancelled run was provisioned, so that a worker may own it, exactly when some other write
      came before the cancellation. */
  lemma CancelledRunWasOwnedIff(creator: Call, trace: seq<Step>)
    requires Legal(Created(creator), trace) && Entered(Cancelling) in Exec(Created(creator), trace).marks
    ensures var marks := Exec(Created(creator), trace).marks;
            |marks| > 1 && (Entered(Provisioning) in marks <==> marks[1] != Entered(Cancelling))
  {
    TokenCountsWrites(creator, trace);
    UnprovisionedIffCancelledFirst(Exec(Created(creator), trace).marks);
  }

  /** How a cancellation goes: the record it reads, whether its first write is won, and the token of the record
      that it closes, if it closes one. */
  datatype Cancellation =
    | LeftOpen(read: Run, asked: bool)
    | ClosedAt(read: Run, asked: bool, at: nat)

  /** The steps of a cancellation, in its own order. */
  function CancelSteps(me: Call, way: Cancellation): seq<Step> {
    (if way.asked then WriteSteps(me, way.read.token, Cancelling) else [])
    + (if way.ClosedAt? then WriteSteps(me, way.at, Status.Cancelled) else [])
  }

  /** What a cancellation did first and then. */
  lemma CancellingSteps(me: Call, way: Cancellation, a: seq<Step>, b: seq<Step>, c: seq<Step>)
    requires b == a + if way.asked then WriteSteps(me, way.read.token, Cancelling) else []
    requires c == b + if way.ClosedAt? then WriteSteps(me, way.at, Status.Cancelled) else []
    ensures c == a + CancelSteps(me, way)
  {
  }

  /** A write that was won over a record with this token, and the report of it. */
  function WriteSteps(me: Call, token: nat, target: Status): seq<Step> {
    [Step(me, Write(Entered(target))), Step(me, Report(token + 1))]
  }

  /** A run whose record was read queued has been provisioned since exactly when the next write did that. */
  lemma ProvisionedAfterIff(s: State, read: Run)
    requires RecordFollowsPath(s) && WasRecord(s, read) && read.status == Queued && read.token < s.run.token
    ensures |s.marks| > read.token + 1
    ensures Entered(Provisioning) in s.marks <==> s.marks[read.token + 1] == Entered(Provisioning)
  {
    LegalPrefix(s.marks, read.token + 1);
    OnlyTheFirstProvisions(s.marks[..read.token + 1]);
    OnlyTheFirstProvisions(s.marks);
  }

  lemma {:induction false} LegalPrefix(path: seq<Mark>, n: nat)
    requires LegalPath(path) && 0 < n <= |path|
    ensures LegalPath(path[..n])
    decreases |path|
  {
    if n < |path| {
      assert path[..|path| - 1][..n] == path[..n];
      LegalPrefix(path[..|path| - 1], n);
    } else {
      assert path[..n] == path;
    }
  }

  /** A cancellation that reads the run queued and loses its first write to a worker closes, after a second
      cancellation, the run that the worker has provisioned: its caller's steps are those of such a cancellation. */
  lemma CancelCanCloseAnOwnedRun(creator: Call, worker: Call, rival: Call, me: Call)
    requires me != worker && me != rival
    ensures var trace := [Step(worker, Write(Entered(Provisioning))), Step(rival, Write(Entered(Cancelling)))]
                         + WriteSteps(me, 2, Status.Cancelled);
            && StepsBy(trace, me) == CancelSteps(me, ClosedAt(Created(creator).run, false, 2))
            && Created(creator).run.status == Queued
            && Legal(Created(creator), trace)
            && Exec(Created(creator), trace).run == Run(Status.Cancelled, 3)
            && Entered(Provisioning) in Exec(Created(creator), trace).marks
  {
    var s := Created(creator);
    var a, b := Step(worker, Write(Entered(Provisioning))), Step(rival, Write(Entered(Cancelling)));
    var c, d := Step(me, Write(Entered(Status.Cancelled))), Step(me, Report(3));
    StartThenCancel(creator, worker, rival);
    ExecSnoc(s, [a, b], c);
    assert [a, b] + [c] == [a, b, c];
    ExecSnoc(s, [a, b, c], d);
    assert WriteSteps(me, 2, Status.Cancelled) == [c, d];
    assert [a, b, c] + [d] == [a, b] + [c, d] == [a, b, c, d];
    assert Exec(s, [a, b, c, d]).marks[1] == Entered(Provisioning);
    OwnStepsOfFour(a, b, c, d, me);
    assert CancelSteps(me, ClosedAt(s.run, false, 2)) == [c, d];
  }

  lemma StartThenCancel(creator: Call, worker: Call, rival: Call)
    ensures var trace := [Step(worker, Write(Entered(Provisioning))), Step(rival, Write(Entered(Cancelling)))];
            && Legal(Created(creator), trace)
            && Exec(Created(creator), trace).run == Run(Cancelling, 2)
            && Exec(Created(creator), trace).marks == [Entered(Queued), Entered(Provisioning), Entered(Cancelling)]
  {
    var a, b := Step(worker, Write(Entered(Provisioning))), Step(rival, Write(Entered(Cancelling)));
    var s := Apply(Created(creator), a);
    assert s.run == Run(Provisioning, 1) && s.marks == [Entered(Queued), Entered(Provisioning)];
    ExecSnoc(Created(creator), [], a);
    assert [] + [a] == [a] && Exec(Created(creator), [a]) == s;
    ExecSnoc(Created(creator), [a], b);
    assert [a] + [b] == [a, b];
  }

  lemma OwnStepsOfFour(a: Step, b: Step, c: Step, d: Step, me: Call)
    requires a.caller != me && b.caller != me && c.caller == me && d.caller == me
    ensures StepsBy([a, b, c, d], me) == [c, d]
  {
    OneMoreStep([a, b, c], d, me);
    OneMoreStep([a, b], c, me);
    OneMoreStep([a], b, me);
    OneMoreStep([], a, me);
    assert [] + [a] == [a] && [a] + [b] == [a, b] && [a, b] + [c] == [a, b, c] && [a, b, c] + [d] == [a, b, c, d];
  }
}
