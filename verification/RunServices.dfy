/** The service methods that race on one run's records: run cancellation and approvals.
    Every `Await` lets any other callers take any number of protocol steps. */
module RunServices {
  import opened Outcomes
  import opened RunStateMachine
  import opened RunProtocol
  import opened RunCalls
  import R = RequestRaces
  import T = SettlementRaces

  datatype CallError = NotFound | Conflict | Invalid

  // ------------------------------------------------------------ overdue approvals

  function DueIds(approvals: map<string, Approval>, now: int): set<string> {
    set id | id in approvals && approvals[id].status == Pending && approvals[id].expiresAt <= now
  }

  /** The listed approvals are in order of expiry, and expire no later than those left. */
  ghost predicate Earliest(approvals: map<string, Approval>, due: seq<string>, left: set<string>) {
    && (forall k :: 0 <= k < |due| ==> due[k] in approvals)
    && (forall id :: id in left ==> id in approvals)
    && (forall j, k :: 0 <= j < k < |due| ==>
          due[j] != due[k] && approvals[due[j]].expiresAt <= approvals[due[k]].expiresAt)
    && (forall k, id :: 0 <= k < |due| && id in left ==> approvals[due[k]].expiresAt <= approvals[id].expiresAt)
  }

  /** The list is of due approvals, each once, the earliest first; only the limit keeps one off it. */
  ghost predicate Overdue(approvals: map<string, Approval>, now: int, limit: nat, due: seq<string>) {
    && |due| <= limit && (forall id :: id in due ==> id in DueIds(approvals, now))
    && Earliest(approvals, due, DueIds(approvals, now) - (set id | id in due))
    && (|due| < limit ==> forall id :: id in DueIds(approvals, now) ==> id in due)
  }

  lemma {:induction false} EarliestExists(approvals: map<string, Approval>, ids: set<string>)
    requires ids != {} && ids <= approvals.Keys
    ensures exists id :: id in ids && forall x :: x in ids ==> approvals[id].expiresAt <= approvals[x].expiresAt
  {
    var x :| x in ids;
    var rest := ids - {x};
    assert ids == rest + {x};
    if rest != {} {
      EarliestExists(approvals, rest);
      var y :| y in rest && forall z :: z in rest ==> approvals[y].expiresAt <= approvals[z].expiresAt;
      var first := if approvals[x].expiresAt <= approvals[y].expiresAt then x else y;
      assert first in ids && forall z :: z in ids ==> approvals[first].expiresAt <= approvals[z].expiresAt;
    } else {
      assert forall z :: z in ids ==> approvals[x].expiresAt <= approvals[z].expiresAt;
    }
  }

  /** These approvals have expired, and nothing else about approvals has changed. */
  ghost predicate OnlyExpires(before: map<string, Approval>, after: map<string, Approval>, due: seq<string>) {
    && after.Keys == before.Keys
    && forall id :: id in before ==> after[id] == if id in due then before[id].(status := Expired) else before[id]
  }

  lemma OneMoreExpires(start: map<string, Approval>, before: map<string, Approval>, after: map<string, Approval>,
                       due: seq<string>, i: nat)
    requires i < |due| && OnlyExpires(start, before, due[..i]) && due[i] in before
    requires forall j, k :: 0 <= j < k < |due| ==> due[j] != due[k]
    requires after == before[due[i] := before[due[i]].(status := Expired)]
    ensures OnlyExpires(start, after, due[..i + 1])
  {
    assert due[..i + 1] == due[..i] + [due[i]];
    assert due[i] !in due[..i];
  }

  class ControlPlane {
    var run: Run
    var approvals: map<string, Approval>
    var log: seq<Event>
    // The futures of the inline hooks waiting in this process.
    var waiters: map<string, Option<ApprovalStatus>>
    var clock: int

    // Bookkeeping of the protocol, and the steps taken since the run was created.
    ghost var marks: seq<Mark>
    ghost var owed: map<nat, Call>
    ghost var owedOutcome: map<string, Call>
    ghost var trace: seq<Step>
    ghost const creator: Call

    constructor (ghost creator: Call, clock: int)
      ensures Live() && trace == [] && S() == Created(creator)
    {
      run := Run(Queued, 0);
      approvals, log, waiters := map[], [], map[];
      marks, owed, owedOutcome, trace := [Entered(Queued)], map[0 := creator], map[], [];
      this.clock := clock;
      this.creator := creator;
    }

    ghost function S(): State
      reads this
    {
      State(run, approvals, log, marks, owed, owedOutcome)
    }

    /** The records are what the trace of legal steps made them; a resolved waiter holds the durable outcome. */
    ghost predicate Live()
      reads this
    {
      && Legal(Created(creator), trace)
      && S() == Exec(Created(creator), trace)
      && (forall id :: id in waiters && waiters[id].Some? ==>
            id in approvals && approvals[id].status == waiters[id].value && waiters[id].value != Pending)
    }

    /** The writes `me` has yet to report, and the approvals whose outcome it has yet to report. */
    ghost function Mine(me: Call): set<nat>
      reads this
    {
      set k | k in owed && owed[k] == me
    }

    ghost function MyOutcomes(me: Call): set<string>
      reads this
    {
      set id | id in owedOutcome && owedOutcome[id] == me
    }

    /** The steps `me` has taken. */
    ghost function Own(me: Call): seq<Step>
      reads this
    {
      StepsBy(trace, me)
    }

    ghost predicate OwesNothing(me: Call)
      reads this
    {
      Mine(me) == {} && MyOutcomes(me) == {}
    }

    /** `read` is a value the run record has had. */
    ghost predicate Seen(read: Run)
      reads this
    {
      WasRecord(S(), read)
    }

    lemma Known()
      requires Live()
      ensures Inv(S()) && Seen(run)
    {
      CreatedInv(creator);
      EveryInterleavingKeepsInv(Created(creator), trace);
      assert marks[..run.token + 1] == marks;
    }

    lemma CurrentIsSeen()
      requires Live()
      ensures Seen(run) && |marks| == run.token + 1
      ensures run.token + 1 !in owed
    {
      Known();
    }

    /** What the record was at an earlier time is the record now, unless its token has grown. */
    lemma SeenIsCurrentOrOlder(read: Run)
      requires Live() && Seen(read)
      ensures read.token <= run.token && (read.token == run.token ==> read == run)
      ensures Stopping(read.status) ==> Stopping(run.status)
      ensures read.status == Cancelling && read.token < run.token ==> Terminal(run.status)
    {
      Known();
      if Stopping(read.status) {
        StoppingStays(marks, read.token);
      }
      if read.token == run.token {
        assert marks[..read.token + 1] == marks;
      } else if read.status == Cancelling {
        CancellingEnds(marks, read.token);
      }
    }

    /** A run that has ended stays as it is. */
    lemma SeenTerminalIsCurrent(read: Run)
      requires Live() && Seen(read) && Terminal(read.status)
      ensures read == run
    {
      Known();
      TerminalIsLast(marks, read.token);
      SeenIsCurrentOrOlder(read);
    }

    /** A run that was queued has been provisioned since exactly when the next write did that. */
    lemma ProvisionedSince(read: Run)
      requires Live() && Seen(read) && read.token < run.token
      ensures |marks| > read.token + 1
      ensures read.status == Queued ==>
                (Entered(Provisioning) in marks <==> marks[read.token + 1] == Entered(Provisioning))
    {
      Known();
      if read.status == Queued { ProvisionedAfterIff(S(), read); }
    }

    /** What every call keeps: the trace and the clock go on, approvals stay with fixed terms,
        and a settled approval is never settled again. */
    twostate predicate Forward()
      reads this
    {
      && old(trace) <= trace && old(clock) <= clock
      && (forall id :: id in old(approvals) ==> id in approvals && Later(old(approvals)[id], approvals[id]))
    }

    // ------------------------------------------------------------ interference

    /** Other calls run. When the caller is `alone` there are none. */
    method Interfere(ghost me: Call, ghost alone: bool)
      requires Live()
      modifies this
      ensures Live() && old(trace) <= trace && clock >= old(clock)
      ensures forall i :: |old(trace)| <= i < |trace| ==> trace[i].caller != me
      ensures alone ==> S() == old(S()) && waiters == old(waiters) && clock == old(clock)
    {
    }

    method Await(ghost me: Call, ghost alone: bool)
      requires Live()
      modifies this
      ensures Live() && Forward()
      ensures Mine(me) == old(Mine(me)) && MyOutcomes(me) == old(MyOutcomes(me))
      ensures run.token >= old(run).token
      ensures old(marks) <= marks
      ensures forall read :: old(Seen(read)) ==> Seen(read)
      ensures alone ==> S() == old(S()) && waiters == old(waiters) && clock == old(clock)
      ensures Own(me) == old(Own(me))
    {
      ghost var before, s := trace, S();
      Known();
      Interfere(me, alone);
      assert before + trace[|before|..] == trace;
      ExecConcat(Created(creator), before, trace[|before|..]);
      OthersKeepRely(me, s, trace[|before|..]);
      OthersTakeNoStep(before, trace[|before|..], me);
      forall read | old(Seen(read)) ensures Seen(read) {
        WasRecordStays(s, S(), read);
      }
    }

    // --------------------------------------------------------- repository calls

    ghost method Took(step: Step, before: State)
      requires Legal(Created(creator), trace) && before == Exec(Created(creator), trace)
      requires Enabled(before, step)
      modifies this`trace
      ensures trace == old(trace) + [step]
      ensures Legal(Created(creator), trace) && Exec(Created(creator), trace) == Apply(before, step)
      ensures forall c :: Own(c) == old(Own(c)) + if step.caller == c then [step] else []
    {
      ExecSnoc(Created(creator), trace, step);
      forall c ensures StepsBy(trace + [step], c) == StepsBy(trace, c) + if step.caller == c then [step] else [] {
        OneMoreStep(trace, step, c);
      }
      trace := trace + [step];
    }

    /** Callers only compute `updated` through `Transition`, or keep the status when reclaiming. */
    method CompareAndSet(ghost me: Call, expected: Status, updated: Run, ghost mark: Mark)
      returns (won: bool)
      requires Live()
      requires LegalMark(expected, mark) && updated.status == StatusOf(expected, mark)
      modifies this
      ensures Live() && old(trace) <= trace && waiters == old(waiters) && clock == old(clock)
      ensures won <==> old(run).status == expected && old(run).token + 1 == updated.token
      ensures won ==> Enabled(old(S()), Step(me, Write(mark))) && S() == Apply(old(S()), Step(me, Write(mark)))
      ensures !won ==> S() == old(S())
      ensures Mine(me) == old(Mine(me)) + if won then {updated.token} else {}
      ensures Own(me) == old(Own(me)) + if won then [Step(me, Write(mark))] else []
    {
      if run.status != expected || run.token + 1 != updated.token {
        return false;
      }
      Took(Step(me, Write(mark)), S());
      run := updated;
      marks := marks + [mark];
      owed := owed[updated.token := me];
      won := true;
    }

    method AppendRunEvent(ghost me: Call, mark: Mark, token: nat)
      requires Live()
      requires token in owed && owed[token] == me && token < |marks| && marks[token] == mark
      modifies this
      ensures Live() && old(trace) <= trace && waiters == old(waiters) && clock == old(clock)
      ensures S() == Apply(old(S()), Step(me, Report(token)))
      ensures Own(me) == old(Own(me)) + [Step(me, Report(token))]
    {
      Took(Step(me, Report(token)), S());
      log := log + [RunEvent(mark, token)];
      owed := owed - {token};
    }

    /** `add` refuses a known id and a tool call that already has an approval. */
    method AddRecord(ghost me: Call, id: string, a: Approval) returns (added: bool)
      requires Live() && a.status == Pending
      modifies this
      ensures Live() && old(trace) <= trace && waiters == old(waiters) && clock == old(clock)
      ensures added <==> id !in old(approvals) && !Requested(old(approvals), a.toolCall)
      ensures added ==> S() == Apply(old(S()), Step(me, AddApproval(id, a)))
      ensures !added ==> S() == old(S())
      ensures Forward() && Mine(me) == old(Mine(me)) && MyOutcomes(me) == old(MyOutcomes(me))
      ensures forall read :: old(Seen(read)) ==> Seen(read)
      ensures Own(me) == old(Own(me)) + if added then [Step(me, AddApproval(id, a))] else []
    {
      if id in approvals || Requested(approvals, a.toolCall) {
        return false;
      }
      StoreRecord(me, id, a);
      added := true;
    }

    method StoreRecord(ghost me: Call, id: string, a: Approval)
      requires Live() && a.status == Pending && id !in approvals && !Requested(approvals, a.toolCall)
      modifies this
      ensures Live() && waiters == old(waiters) && clock == old(clock) && marks == old(marks)
      ensures S() == Apply(old(S()), Step(me, AddApproval(id, a)))
      ensures trace == old(trace) + [Step(me, AddApproval(id, a))]
      ensures approvals == old(approvals)[id := a] && Mine(me) == old(Mine(me)) && MyOutcomes(me) == old(MyOutcomes(me))
      ensures Own(me) == old(Own(me)) + [Step(me, AddApproval(id, a))]
    {
      Took(Step(me, AddApproval(id, a)), S());
      approvals := approvals[id := a];
    }

    method SettleApproval(ghost me: Call, id: string, outcome: ApprovalStatus) returns (won: bool)
      requires Live() && id in approvals && outcome != Pending
      modifies this
      ensures Live() && old(trace) <= trace && waiters == old(waiters) && clock == old(clock)
      ensures won <==> old(approvals)[id].status == Pending
      ensures won ==> S() == Apply(old(S()), Step(me, Settle(id, outcome)))
      ensures !won ==> S() == old(S())
      ensures Own(me) == old(Own(me)) + if won then [Step(me, Settle(id, outcome))] else []
    {
      if approvals[id].status != Pending {
        return false;
      }
      Took(Step(me, Settle(id, outcome)), S());
      approvals := approvals[id := approvals[id].(status := outcome)];
      owedOutcome := owedOutcome[id := me];
      won := true;
    }

    method AppendOutcome(ghost me: Call, id: string, outcome: ApprovalStatus)
      requires Live()
      requires id in owedOutcome && owedOutcome[id] == me && id in approvals && approvals[id].status == outcome
      modifies this
      ensures Live() && old(trace) <= trace && waiters == old(waiters) && clock == old(clock)
      ensures S() == Apply(old(S()), Step(me, ReportOutcome(id)))
      ensures Own(me) == old(Own(me)) + [Step(me, ReportOutcome(id))]
    {
      Took(Step(me, ReportOutcome(id)), S());
      log := log + [Outcome(id, outcome)];
      owedOutcome := owedOutcome - {id};
    }

    method AppendNote(ghost me: Call, kind: string, id: string)
      requires Live()
      modifies this
      ensures Live() && old(trace) <= trace && waiters == old(waiters) && clock == old(clock)
      ensures S() == Noted(old(S()), kind, id)
      ensures Own(me) == old(Own(me)) + [Step(me, Remark(kind, id))]
    {
      Took(Step(me, Remark(kind, id)), S());
      log := log + [Note(kind, id)];
    }

    // ------------------------------------------------------------------- moves

    /** The call won the write that gave the record this token and has yet to report it. */
    ghost predicate OwesOnly(me: Call, token: nat, mark: Mark)
      reads this
    {
      Mine(me) == {token} && MyOutcomes(me) == {} && token < |marks| && marks[token] == mark
    }

    method WriteRun(ghost me: Call, ghost alone: bool, read: Run, mark: Mark) returns (won: bool)
      requires Live() && OwesNothing(me) && Seen(read)
      requires LegalMark(read.status, mark)
      modifies this
      ensures Live() && Forward() && Seen(read)
      ensures run.token > read.token && old(marks) <= marks
      ensures won ==> OwesOnly(me, read.token + 1, mark)
                      && run == Run(StatusOf(read.status, mark), read.token + 1)
      ensures !won ==> OwesNothing(me)
      ensures alone && read == old(run) ==> won && Enabled(old(S()), Step(me, Write(mark)))
                                            && S() == Apply(old(S()), Step(me, Write(mark)))
      ensures alone ==> waiters == old(waiters) && clock == old(clock)
      ensures Own(me) == old(Own(me)) + if won then [Step(me, Write(mark))] else []
    {
      Await(me, alone);
      won := WriteNow(me, read, mark);
    }

    /** The compare-and-set itself: it wins exactly when the record is still the one that was read. */
    method WriteNow(ghost me: Call, read: Run, mark: Mark) returns (won: bool)
      requires Live() && OwesNothing(me) && Seen(read)
      requires LegalMark(read.status, mark)
      modifies this
      ensures Live() && Forward() && Seen(read)
      ensures run.token > read.token && old(marks) <= marks
      ensures won <==> read == old(run)
      ensures won ==> OwesOnly(me, read.token + 1, mark)
                      && run == Run(StatusOf(read.status, mark), read.token + 1)
      ensures !won ==> OwesNothing(me)
      ensures won ==> Enabled(old(S()), Step(me, Write(mark))) && S() == Apply(old(S()), Step(me, Write(mark)))
      ensures waiters == old(waiters) && clock == old(clock)
      ensures Own(me) == old(Own(me)) + if won then [Step(me, Write(mark))] else []
    {
      SeenIsCurrentOrOlder(read);
      CurrentIsSeen();
      ghost var before := S();
      won := CompareAndSet(me, read.status, Run(StatusOf(read.status, mark), read.token + 1), mark);
      WasRecordStays(before, S(), read);
    }

    method ReportWrite(ghost me: Call, ghost alone: bool, mark: Mark, token: nat)
      requires Live() && OwesOnly(me, token, mark)
      modifies this
      ensures Live() && OwesNothing(me) && Forward() && old(marks) <= marks
      ensures forall read :: old(Seen(read)) ==> Seen(read)
      ensures alone ==> S() == old(S()).(log := old(log) + [RunEvent(mark, token)], owed := old(owed) - {token})
      ensures alone ==> waiters == old(waiters) && clock == old(clock)
      ensures Own(me) == old(Own(me)) + [Step(me, Report(token))]
    {
      Await(me, alone);
      assert token in Mine(me);
      AppendRunEvent(me, mark, token);
      assert forall read :: old(Seen(read)) ==> Seen(read);
      assert Mine(me) == {};
    }

    /** Compare-and-set the run and, on winning, append the event that reports it. */
    method WriteAndReport(ghost me: Call, ghost alone: bool, read: Run, mark: Mark) returns (won: bool)
      requires Live() && OwesNothing(me) && Seen(read)
      requires LegalMark(read.status, mark)
      modifies this
      ensures Live() && OwesNothing(me) && Forward()
      ensures Seen(read) && (won ==> Seen(Run(StatusOf(read.status, mark), read.token + 1)))
      ensures run.token > read.token && old(marks) <= marks
      ensures won ==> |marks| > read.token + 1 && marks[read.token + 1] == mark
      ensures alone && read == old(run) ==> won && S() == Marked(old(S()), mark)
      ensures alone ==> waiters == old(waiters) && clock == old(clock)
      ensures Own(me) == old(Own(me)) + if won then [Step(me, Write(mark)), Step(me, Report(read.token + 1))] else []
    {
      MarkedInTwoSteps(me, mark);
      won := WriteRun(me, alone, read, mark);
      CurrentIsSeen();
      ghost var written, wrote := run, Own(me);
      if won {
        ReportWrite(me, alone, mark, read.token + 1);
        OneThenAnother(old(Own(me)), wrote, Own(me), Step(me, Write(mark)), Step(me, Report(read.token + 1)));
      }
      SeenIsCurrentOrOlder(written);
    }

    /** Undisturbed, a write and its report make one effect. */
    lemma MarkedInTwoSteps(me: Call, mark: Mark)
      requires Live()
      ensures LegalMark(run.status, mark) ==>
                var t := Apply(S(), Step(me, Write(mark)));
                t.(log := t.log + [RunEvent(mark, t.run.token)], owed := t.owed - {t.run.token}) == Marked(S(), mark)
    {
      CurrentIsSeen();
      assert owed[run.token + 1 := me] - {run.token + 1} == owed;
    }

    /** `_move` of the approval service and of the worker. */
    method Move(ghost me: Call, ghost alone: bool, read: Run, target: Status) returns (r: Result<Run, CallError>)
      requires Live() && OwesNothing(me) && Seen(read)
      modifies this
      ensures Live() && OwesNothing(me) && Forward()
      ensures r.Err? ==> r.error == if Transition(read.status, target).Err? then Invalid else Conflict
      ensures r.Ok? ==> r.value == Run(target, read.token + 1) && Transition(read.status, target).Ok?
      ensures r.Ok? || r.error == Conflict ==> run.token > read.token
      ensures alone && read == old(run) ==>
                S() == MovedIfAllowed(old(S()), target) && (r.Ok? <==> Transition(read.status, target).Ok?)
      ensures alone ==> waiters == old(waiters) && clock == old(clock)
      ensures Own(me) == old(Own(me)) + if r.Ok? then WriteSteps(me, read.token, target) else []
      ensures Seen(read)
    {
      if Transition(read.status, target).Err? {
        return Err(Invalid);
      }
      var won := WriteAndReport(me, alone, read, Entered(target));
      r := if won then Ok(Run(target, read.token + 1)) else Err(Conflict);
    }

    /** A recovered worker takes over a run without changing its status. */
    method Reclaim(ghost me: Call, ghost alone: bool, read: Run) returns (r: Result<Run, CallError>)
      requires Live() && OwesNothing(me) && Seen(read)
      requires read.status in {Provisioning, Running}
      modifies this
      ensures Live() && OwesNothing(me) && old(trace) <= trace
      ensures run.token > read.token
      ensures r.Ok? ==> r.value == Run(read.status, read.token + 1)
      ensures alone && read == old(run) ==> r.Ok? && S() == ReclaimEffect(old(S()))
    {
      var won := WriteAndReport(me, alone, read, Recovered);
      r := if won then Ok(Run(read.status, read.token + 1)) else Err(Conflict);
    }

    // -------------------------------------------------------------- cancellation

    /** Request that the run stop. When the call returns normally the run is being stopped or has ended;
        it raises only when the run moved on, without stopping, between the read and the write. However it is disturbed,
        the call takes exactly the steps of the cancellation `way`. When it read the run queued, the run it leaves, and
        may have closed, has been provisioned and may have a worker exactly when its first write was lost to that.
        A run that was read queued or waiting has ended when the call returns; one that was read provisioning or
        running is left to its worker. */
    method Cancel(ghost me: Call, ghost alone: bool) returns (r: Result<Run, CallError>, ghost way: Cancellation)
      requires Live() && OwesNothing(me)
      modifies this
      ensures Live() && OwesNothing(me) && old(trace) <= trace
      ensures r.Ok? ==> Stopping(r.value.status) && Stopping(run.status)
      ensures r.Err? ==> r.error == Conflict && !Stopping(run.status) && run.token > old(run).token
      ensures alone ==> r == Ok(run) && S() == CancelEffect(old(S())) && CancelDue(old(S()), S())
      ensures r.Ok? && way.read.status in {Queued, WaitingApproval} ==> Terminal(run.status) && r.value == run
      ensures way.read.status in {Provisioning, Running} ==> way.LeftOpen?
      ensures Stopping(way.read.status) ==> way == LeftOpen(way.read, false)
      ensures Seen(way.read) && Own(me) == old(Own(me)) + CancelSteps(me, way)
      ensures way.ClosedAt? ==> run == Run(Status.Cancelled, way.at + 1) && r == Ok(run)
      ensures way.read.status == Queued ==>
                |marks| > way.read.token + 1
                && (Entered(Provisioning) in marks <==>
                    !way.asked && marks[way.read.token + 1] == Entered(Provisioning))
    {
      CancelIsDue(S());
      Await(me, alone);
      CurrentIsSeen();
      var current := run;
      if Stopping(current.status) {
        return Ok(current), LeftOpen(current, false);
      }
      r, way := CancelRead(me, alone, current);
      ProvisionedSince(current);
    }

    /** The part of a cancellation that writes. */
    method CancelRead(ghost me: Call, ghost alone: bool, current: Run)
      returns (r: Result<Run, CallError>, ghost way: Cancellation)
      requires Live() && OwesNothing(me) && Seen(current) && !Stopping(current.status)
      modifies this
      ensures Live() && OwesNothing(me) && old(trace) <= trace
      ensures r.Ok? ==> Stopping(r.value.status) && Stopping(run.status)
      ensures r.Err? ==> r.error == Conflict && !Stopping(run.status)
      ensures alone && current == old(run) ==> r == Ok(run) && S() == CancelEffect(old(S()))
      ensures r.Ok? && current.status in {Queued, WaitingApproval} ==> Terminal(run.status) && r.value == run
      ensures current.status in {Provisioning, Running} ==> way.LeftOpen?
      ensures way.read == current && Seen(current) && run.token > current.token
      ensures Own(me) == old(Own(me)) + CancelSteps(me, way)
      ensures way.asked ==> |marks| > current.token + 1 && marks[current.token + 1] == Entered(Cancelling)
      ensures way.ClosedAt? ==> run == Run(Status.Cancelled, way.at + 1) && r == Ok(run)
    {
      ghost var asked;
      r, asked := AskToStop(me, alone, current);
      way := LeftOpen(current, asked);
      ghost var first := Own(me);
      if r.Ok? && Terminal(r.value.status) { SeenTerminalIsCurrent(r.value); }
      // A worker owns a run that was read provisioning or running, and closes it.
      if r.Ok? && !Terminal(r.value.status) && current.status !in {Provisioning, Running} {
        r, way := CloseUnowned(me, alone, current, r.value, asked);
      }
      CancellingSteps(me, way, old(Own(me)), first, Own(me));
    }

    /** The first write of a cancellation; when it is lost, another call may have stopped the run instead. */
    method AskToStop(ghost me: Call, ghost alone: bool, read: Run)
      returns (r: Result<Run, CallError>, ghost asked: bool)
      requires Live() && OwesNothing(me) && Seen(read) && !Stopping(read.status)
      modifies this
      ensures Live() && OwesNothing(me) && old(trace) <= trace && Seen(read)
      ensures r.Ok? ==> Seen(r.value) && Stopping(r.value.status) && Stopping(run.status)
      ensures r.Err? ==> r.error == Conflict && !Stopping(run.status)
      ensures run.token > read.token
      ensures asked ==> r == Ok(Run(Cancelling, read.token + 1))
                        && |marks| > read.token + 1 && marks[read.token + 1] == Entered(Cancelling)
      ensures Own(me) == old(Own(me)) + if asked then WriteSteps(me, read.token, Cancelling) else []
      ensures alone && read == old(run) ==> r == Ok(run) && S() == Moved(old(S()), Cancelling)
    {
      var won := WriteAndReport(me, alone, read, Entered(Cancelling));
      asked := won;
      if won {
        r := Ok(Run(Cancelling, read.token + 1));
        SeenIsCurrentOrOlder(r.value);
        return;
      }
      Await(me, alone);
      CurrentIsSeen();
      r := if Stopping(run.status) then Ok(run) else Err(Conflict);
    }

    /** The second half of a cancellation: the run found cancelling is closed, by this call or another one. */
    method CloseUnowned(ghost me: Call, ghost alone: bool, ghost current: Run, latest: Run, ghost asked: bool)
      returns (r: Result<Run, CallError>, ghost way: Cancellation)
      requires Live() && OwesNothing(me) && Seen(current) && Seen(latest) && latest.status == Cancelling
      modifies this
      ensures Live() && OwesNothing(me) && old(trace) <= trace && old(marks) <= marks && Seen(current)
      ensures r.Ok? && Terminal(run.status) && r.value == run && run.token >= old(run).token
      ensures way == LeftOpen(current, asked) || way == ClosedAt(current, asked, latest.token)
      ensures way.ClosedAt? ==> run == Run(Status.Cancelled, way.at + 1)
      ensures Own(me) == old(Own(me)) + if way.ClosedAt? then WriteSteps(me, way.at, Status.Cancelled) else []
      ensures alone && latest == old(run) ==> S() == Moved(old(S()), Status.Cancelled)
    {
      ghost var before, closed := S(), false;
      CurrentIsSeen();
      r, closed := FinishCancel(me, alone, latest);
      way := if closed then ClosedAt(current, asked, latest.token) else LeftOpen(current, asked);
      CurrentIsSeen();
      WasRecordStays(before, S(), current);
    }

    /** Close a run that the caller read as queued or waiting. When the caller's first write was lost, a worker may
        have provisioned the run in between and own it (`CancelCanCloseAnOwnedRun`). Losing this write means another
        caller closed the run first: the conflict for a run that is neither closed nor closable cannot happen. */
    method FinishCancel(ghost me: Call, ghost alone: bool, current: Run)
      returns (r: Result<Run, CallError>, ghost closed: bool)
      requires Live() && OwesNothing(me) && Seen(current) && current.status == Cancelling
      modifies this
      ensures Live() && OwesNothing(me) && old(trace) <= trace && old(marks) <= marks
      ensures r.Ok? && Terminal(r.value.status) && Terminal(run.status) && r.value == run
      ensures closed ==> run == Run(Status.Cancelled, current.token + 1) && r == Ok(run)
      ensures Own(me) == old(Own(me)) + if closed then WriteSteps(me, current.token, Status.Cancelled) else []
      ensures alone && current == old(run) ==> r == Ok(run) && S() == Moved(old(S()), Status.Cancelled)
    {
      var won := WriteAndReport(me, alone, current, Entered(Status.Cancelled));
      closed := won;
      if won {
        r := Ok(Run(Status.Cancelled, current.token + 1));
        SeenTerminalIsCurrent(r.value);
      } else {
        Await(me, alone);
        var latest := run;
        if Terminal(latest.status) {
          r := Ok(latest);
        } else {
          r := Err(Conflict);
        }
      }
      SeenIsCurrentOrOlder(current);
    }

    // ----------------------------------------------------------------- approvals

    lemma PendingOwesNoOutcome(id: string)
      requires Live() && id in approvals && approvals[id].status == Pending
      ensures id !in owedOutcome
    {
      Known();
      InvProtects(S());
    }

    /** The call won the settling of this approval and has yet to report it. */
    ghost predicate OwesOutcome(me: Call, id: string, outcome: ApprovalStatus)
      reads this
    {
      Mine(me) == {} && MyOutcomes(me) == {id} && id in approvals && approvals[id].status == outcome
    }

    method SettleRecord(ghost me: Call, ghost alone: bool, id: string, outcome: ApprovalStatus) returns (won: bool)
      requires Live() && OwesNothing(me) && id in approvals && outcome != Pending
      modifies this
      ensures Live() && Forward()
      ensures won ==> OwesOutcome(me, id, outcome)
      ensures !won ==> OwesNothing(me) && id in approvals && approvals[id].status != Pending
      ensures forall read :: old(Seen(read)) ==> Seen(read)
      ensures alone ==> (won <==> old(approvals)[id].status == Pending)
      ensures alone ==> waiters == old(waiters) && clock == old(clock)
      ensures alone && won ==> S() == Unreported(old(S()), me, id, outcome)
      ensures alone && !won ==> S() == old(S())
      ensures Own(me) == old(Own(me)) + if won then [Step(me, Settle(id, outcome))] else []
    {
      Await(me, alone);
      won := SettleApproval(me, id, outcome);
      assert won ==> MyOutcomes(me) == {id};
      assert forall read :: old(Seen(read)) ==> Seen(read);
    }

    method ReportSettled(ghost me: Call, ghost alone: bool, id: string, outcome: ApprovalStatus)
      requires Live() && OwesOutcome(me, id, outcome) && outcome != Pending
      modifies this
      ensures Live() && OwesNothing(me) && Forward()
      ensures forall read :: old(Seen(read)) ==> Seen(read)
      ensures alone ==> S() == Reported(old(S()), id, outcome)
      ensures alone ==> waiters == old(waiters) && clock == old(clock)
      ensures Own(me) == old(Own(me)) + [Step(me, ReportOutcome(id))]
    {
      Await(me, alone);
      assert id in MyOutcomes(me);
      AppendOutcome(me, id, outcome);
      assert MyOutcomes(me) == {};
      assert forall read :: old(Seen(read)) ==> Seen(read);
    }

    /** Read the run, then report the outcome just settled. */
    method ReadRunAndReport(ghost me: Call, ghost alone: bool, id: string, outcome: ApprovalStatus)
      returns (read: Run)
      requires Live() && OwesOutcome(me, id, outcome) && outcome != Pending
      modifies this
      ensures Live() && OwesNothing(me) && Forward()
      ensures Seen(read)
      ensures alone ==> S() == Reported(old(S()), id, outcome)
      ensures alone ==> read == run && waiters == old(waiters) && clock == old(clock)
      ensures Own(me) == old(Own(me)) + [Step(me, ReportOutcome(id))]
    {
      Await(me, alone);
      CurrentIsSeen();
      read := run;
      ReportSettled(me, alone, id, outcome);
    }

    /** Undisturbed, settling an approval and reporting its outcome make one effect. */
    lemma SettledInTwoSteps(me: Call, id: string, outcome: ApprovalStatus)
      requires Live() && id in approvals
      ensures approvals[id].status == Pending ==>
                Reported(Unreported(S(), me, id, outcome), id, outcome) == SettledAs(S(), id, outcome)
    {
      if approvals[id].status == Pending {
        PendingOwesNoOutcome(id);
        assert owedOutcome == owedOutcome[id := me] - {id};
      }
    }

    /** Settle a pending approval and report its outcome; the run is read in between. */
    method SettleAndReport(ghost me: Call, ghost alone: bool, id: string, outcome: ApprovalStatus)
      returns (won: bool, read: Run)
      requires Live() && OwesNothing(me) && id in approvals && outcome != Pending
      modifies this
      ensures Live() && OwesNothing(me) && Forward()
      ensures id in approvals && approvals[id].status != Pending
      ensures won ==> approvals[id].status == outcome && Seen(read)
      ensures alone ==> (won <==> old(approvals)[id].status == Pending)
      ensures alone ==> waiters == old(waiters) && clock == old(clock)
      ensures alone && won ==> S() == SettledAs(old(S()), id, outcome) && read == run
      ensures alone && !won ==> S() == old(S())
      ensures Own(me) == old(Own(me))
                         + if won then [Step(me, Settle(id, outcome)), Step(me, ReportOutcome(id))] else []
    {
      SettledInTwoSteps(me, id, outcome);
      won := SettleRecord(me, alone, id, outcome);
      read := run;
      if won {
        read := ReadRunAndReport(me, alone, id, outcome);
      }
    }

    /** The call has ended at this stage of a settlement, having taken exactly its steps. */
    twostate predicate EndedAt(me: Call, stage: T.Stage)
      reads this
    {
      T.Over(stage) && T.StageOk(S(), me, stage) && Own(me) == old(Own(me)) + T.StepsOf(me, stage)
    }

    /** Put a run whose approval was granted, or no longer blocks, back to running. */
    method EnsureInlineRunResumed(ghost me: Call, ghost alone: bool, ghost v: T.Verdict)
      returns (r: Result<(), CallError>, ghost stage: T.Stage)
      requires Live() && OwesNothing(me) && !v.way.Afresh?
      modifies this
      ensures Live() && OwesNothing(me) && Forward()
      ensures r.Err? ==> r.error == Conflict && stage.Beaten?
      ensures T.Acted(S(), stage) && stage.v == v && Own(me) == old(Own(me)) + T.MovingSteps(me, stage)
      ensures alone ==> r.Ok? && S() == ResumeEffect(old(S())) && waiters == old(waiters) && clock == old(clock)
    {
      Await(me, alone);
      CurrentIsSeen();
      var read := run;
      if read.status != WaitingApproval {
        return Ok(()), T.Stuck(v, read);
      }
      r, stage := ResumeRead(me, alone, v, read);
    }

    /** The part of a resumption that writes. */
    method ResumeRead(ghost me: Call, ghost alone: bool, ghost v: T.Verdict, read: Run)
      returns (r: Result<(), CallError>, ghost stage: T.Stage)
      requires Live() && OwesNothing(me) && !v.way.Afresh? && Seen(read) && read.status == WaitingApproval
      modifies this
      ensures Live() && OwesNothing(me) && Forward()
      ensures r.Err? ==> r.error == Conflict && stage.Beaten?
      ensures T.Acted(S(), stage) && stage.v == v && Own(me) == old(Own(me)) + T.MovingSteps(me, stage)
      ensures alone && read == old(run) ==>
                r.Ok? && S() == ResumeEffect(old(S())) && waiters == old(waiters) && clock == old(clock)
    {
      var moved := Move(me, alone, read, Running);
      stage := T.Ended(v, read, moved.Ok?);
      if moved.Err? {
        Await(me, alone);
        if run.status == WaitingApproval {
          return Err(Conflict), stage;
        }
      }
      r := Ok(());
    }

    /** Complete the future of an inline hook of this process, if one still waits. */
    method Notify(id: string, outcome: ApprovalStatus)
      requires Live() && id in approvals && approvals[id].status == outcome && outcome != Pending
      modifies this`waiters
      ensures Live()
    {
      if id in waiters && waiters[id].None? {
        waiters := waiters[id := Some(outcome)];
      }
    }

    /** Expire one approval. Whatever else happens, it is settled when the call ends,
        and the value returned is the outcome that is stored. */
    method ExpireApproval(ghost me: Call, ghost alone: bool, id: string)
      returns (r: Result<ApprovalStatus, CallError>, ghost stage: T.Stage)
      requires Live() && OwesNothing(me) && id in approvals
      modifies this
      ensures Live() && OwesNothing(me) && Forward()
      ensures id in approvals && approvals[id].status != Pending
      ensures r.Ok? ==> r.value == approvals[id].status
      ensures alone ==> r.Ok? && S() == ExpireEffect(old(S()), id, id in old(waiters))
      ensures r.Err? ==> r.error == Conflict
      ensures EndedAt(me, stage) && (T.HasStored(stage) ==> stage.v.id == id && stage.v.outcome == Expired)
      ensures alone ==> r.value == if old(approvals)[id].status == Pending then Expired else old(approvals)[id].status
      ensures alone ==> clock == old(clock)
    {
      var won, read := SettleAndReport(me, alone, id, Expired);
      if !won {
        Await(me, alone);
        T.IdleIsOk(S(), me, Own(me));
        return Ok(approvals[id].status), T.Idle;
      }
      ghost var told := Own(me);
      r, stage := AfterExpiry(me, alone, id, read);
      T.ActedIsOk(S(), me, stage);
      T.ToldSteps(me, stage, old(Own(me)), told, Own(me));
    }

    /** What follows an expiry: a hook waiting in this process gets its run back,
        otherwise the tool call fails and a waiting run is rejected. */
    method AfterExpiry(ghost me: Call, ghost alone: bool, id: string, read: Run)
      returns (r: Result<ApprovalStatus, CallError>, ghost stage: T.Stage)
      requires Live() && OwesNothing(me) && Seen(read)
      requires id in approvals && approvals[id].status == Expired
      modifies this
      ensures Live() && OwesNothing(me) && Forward()
      ensures r.Ok? ==> r.value == Expired
      ensures alone && read == old(run) ==> r.Ok? && S() == ExpiredEffect(old(S()), id, id in old(waiters))
      ensures alone ==> clock == old(clock)
      ensures r.Err? ==> r.error == Conflict
      ensures T.Acted(S(), stage) && T.Sound(stage.v) && stage.v.id == id && stage.v.outcome == Expired
      ensures Own(me) == old(Own(me)) + T.FollowingSteps(me, stage)
    {
      var hasLocalWaiter := id in waiters;
      ghost var v := T.Verdict(id, Expired, approvals[id].inline, T.Afresh);
      var result: Result<(), CallError>;
      if approvals[id].inline && hasLocalWaiter {
        result, stage := EnsureInlineRunResumed(me, alone, v.(way := T.ForHook));
      } else {
        result, stage := FailToolCall(me, alone, id, read, v);
      }
      if result.Err? {
        return Err(result.error), stage;
      }
      Notify(id, Expired);
      r := Ok(Expired);
    }

    /** The tool call of an expired approval fails, unless the run is being stopped, and a waiting run is rejected. */
    method FailToolCall(ghost me: Call, ghost alone: bool, id: string, read: Run, ghost v: T.Verdict)
      returns (r: Result<(), CallError>, ghost stage: T.Stage)
      requires Live() && OwesNothing(me) && Seen(read) && v.way.Afresh? && v.outcome == Expired && v.id == id
      modifies this
      ensures Live() && OwesNothing(me) && Forward()
      ensures r.Err? ==> r.error == Conflict
      ensures T.Acted(S(), stage) && stage.v == v && Own(me) == old(Own(me)) + T.FollowingSteps(me, stage)
      ensures alone && read == old(run) ==>
                r.Ok? && S() == if Stopping(read.status) then old(S())
                                else RejectEffect(Noted(old(S()), "tool.result", id))
      ensures alone ==> waiters == old(waiters) && clock == old(clock)
    {
      r, stage := Ok(()), T.Stuck(v, read);
      if Stopping(read.status) {
        return;
      }
      Await(me, alone);
      AppendNote(me, "tool.result", id);
      ghost var noted := Own(me);
      if read.status == WaitingApproval {
        var moved := Move(me, alone, read, Status.Rejected);
        stage := T.Ended(v, read, moved.Ok?);
        r := if moved.Err? then Err(moved.error) else Ok(());
      }
      T.EndedSteps(S(), me, v, read, r.Ok?, old(Own(me)), noted, Own(me));
    }

    /** Withdraw an approval; the run is left alone. */
    method CancelPending(ghost me: Call, ghost alone: bool, id: string)
      returns (r: Result<ApprovalStatus, CallError>, ghost stage: T.Stage)
      requires Live() && OwesNothing(me)
      modifies this
      ensures Live() && OwesNothing(me) && Forward()
      ensures r.Err? ==> r.error == NotFound
      ensures r.Ok? ==> id in approvals && r.value == approvals[id].status && r.value != Pending
      ensures alone ==> S() == WithdrawEffect(old(S()), id) && (r == Err(NotFound) <==> id !in old(approvals))
      ensures alone && id in old(approvals) ==>
                r.value == if old(approvals)[id].status == Pending then Withdrawn else old(approvals)[id].status
      ensures EndedAt(me, stage) && (T.HasStored(stage) ==> stage.v.id == id && stage.v.outcome == Withdrawn)
    {
      stage := T.Idle;
      Await(me, alone);
      if id !in approvals {
        return Err(NotFound), stage;
      }
      if approvals[id].status != Pending {
        return Ok(approvals[id].status), stage;
      }
      var stored;
      stored, stage := WithdrawPending(me, alone, id);
      r := Ok(stored);
    }

    /** `_cancel_pending`: the outcome that is stored, this one or one that came first. */
    method WithdrawPending(ghost me: Call, ghost alone: bool, id: string)
      returns (stored: ApprovalStatus, ghost stage: T.Stage)
      requires Live() && OwesNothing(me) && id in approvals
      modifies this
      ensures Live() && OwesNothing(me) && Forward()
      ensures id in approvals && stored == approvals[id].status != Pending
      ensures alone ==> S() == WithdrawEffect(old(S()), id)
      ensures EndedAt(me, stage) && (T.HasStored(stage) ==> stage.v.id == id && stage.v.outcome == Withdrawn)
    {
      var won, _ := SettleAndReport(me, alone, id, Withdrawn);
      stored, stage := Withdrawn, T.Withdrew(T.Verdict(id, Withdrawn, approvals[id].inline, T.Afresh));
      if won {
        T.WithdrewIsOk(S(), me, stage.v, old(Own(me)), Own(me));
        Notify(id, Withdrawn);
      } else {
        Await(me, alone);
        stored, stage := approvals[id].status, T.Idle;
      }
    }

    /** Ask for approval of one tool call, pausing the run; asking again for the same tool call returns the
        approval already stored. However it is disturbed, the call takes exactly the steps of the request of
        `RequestRaces` that ends in `phase`: it raises with its approval stored when the run's write was lost. */
    method RequestApproval(ghost me: Call, ghost alone: bool, newId: string, toolCall: string, inline: bool, ttl: nat)
      returns (r: Result<string, CallError>, ghost phase: R.Phase)
      requires Live() && OwesNothing(me)
      modifies this
      ensures Live() && OwesNothing(me) && Forward()
      ensures r.Ok? ==> r.value in approvals && approvals[r.value].toolCall == toolCall
      ensures R.Final(phase) && (r.Ok? <==> phase.Done? || phase.Found?)
      ensures R.PhaseOk(S(), me, phase) && Own(me) == old(Own(me)) + R.StepsOf(me, phase)
      ensures R.HasStored(phase) ==>
                phase.order.id == newId && phase.order.toolCall == toolCall && phase.order.inline == inline
      ensures alone ==> S() == RequestEffect(old(S()), newId, Approval(Pending, toolCall, inline, old(clock) + ttl))
      ensures alone && !phase.Found? ==>
                (r == Ok(newId) <==> old(run).status == Running && newId !in old(approvals))
      ensures alone ==> (phase.Found? <==> Requested(old(approvals), toolCall))
      ensures r.Err? ==> r.error == Conflict
    {
      Await(me, alone);
      if Requested(approvals, toolCall) {
        var existing := FindRequest(me, toolCall, inline);
        return Ok(existing), R.Found;
      }
      r, phase := RequestNew(me, alone, newId, toolCall, inline, ttl);
    }

    /** The approval asked for earlier, whose hook waits for it again if it is still pending. */
    method FindRequest(ghost me: Call, toolCall: string, inline: bool) returns (id: string)
      requires Live() && OwesNothing(me) && Requested(approvals, toolCall)
      modifies this
      ensures Live() && OwesNothing(me) && S() == old(S()) && Own(me) == old(Own(me))
      ensures Forward() && id in approvals && approvals[id].toolCall == toolCall
    {
      id :| id in approvals && approvals[id].toolCall == toolCall;
      if inline && approvals[id].status == Pending {
        Register(id);
      }
    }

    /** The part of a request that pauses the run, when the look-up has found nothing. */
    method RequestNew(ghost me: Call, ghost alone: bool, newId: string, toolCall: string, inline: bool, ttl: nat)
      returns (r: Result<string, CallError>, ghost phase: R.Phase)
      requires Live() && OwesNothing(me)
      modifies this
      ensures Live() && OwesNothing(me) && Forward()
      ensures r.Ok? ==> r.value == newId && newId in approvals && approvals[newId].toolCall == toolCall
      ensures phase.Denied? || phase.Done? || phase.Lost?
      ensures r.Ok? <==> phase.Done?
      ensures R.PhaseOk(S(), me, phase) && Own(me) == old(Own(me)) + R.StepsOf(me, phase)
      ensures R.HasStored(phase) ==>
                phase.order.id == newId && phase.order.toolCall == toolCall && phase.order.inline == inline
      ensures alone ==> S() == RequestEffect(old(S()), newId, Approval(Pending, toolCall, inline, old(clock) + ttl))
      ensures alone ==> (r.Ok? <==> old(run).status == Running && newId !in old(approvals)
                                    && !Requested(old(approvals), toolCall))
      ensures r.Err? ==> r.error == Conflict
    {
      Await(me, alone);
      CurrentIsSeen();
      if run.status != Running {
        return Err(Conflict), R.Denied;
      }
      var approval := Approval(Pending, toolCall, inline, clock + ttl);
      r, phase := AddAndPause(me, alone, newId, run, approval);
    }

    /** The part of a request that writes. */
    method AddAndPause(ghost me: Call, ghost alone: bool, id: string, read: Run, a: Approval)
      returns (r: Result<string, CallError>, ghost phase: R.Phase)
      requires Live() && OwesNothing(me) && Seen(read) && read.status == Running && a.status == Pending
      modifies this
      ensures Live() && OwesNothing(me) && Forward()
      ensures r.Ok? ==> r.value == id && id in approvals && approvals[id].toolCall == a.toolCall
      ensures phase.Denied? || phase.Done? || phase.Lost?
      ensures r.Ok? <==> phase.Done?
      ensures R.HasStored(phase) ==> phase.order == R.Order(id, a.toolCall, a.inline, a.expiresAt)
      ensures R.PhaseOk(S(), me, phase) && Own(me) == old(Own(me)) + R.StepsOf(me, phase)
      ensures alone && read == old(run) ==> S() == RequestEffect(old(S()), id, a)
      ensures alone && read == old(run) ==>
                (r.Ok? <==> id !in old(approvals) && !Requested(old(approvals), a.toolCall))
      ensures r.Err? ==> r.error == Conflict
    {
      var added := AddPending(me, alone, id, a);
      if !added {
        return Err(Conflict), R.Denied;
      }
      ghost var stored := Own(me);
      r := PauseForApproval(me, alone, id, read, a);
      ghost var order := R.Order(id, a.toolCall, a.inline, a.expiresAt);
      phase := if r.Ok? then R.Done(order, read) else R.Lost(order, read);
      R.PausingSteps(S(), me, order, read, r.Ok?, old(Own(me)), stored, Own(me));
    }

    method PauseForApproval(ghost me: Call, ghost alone: bool, id: string, read: Run, ghost asked: Approval)
      returns (r: Result<string, CallError>)
      requires Live() && OwesNothing(me) && Seen(read) && read.status == Running
      requires id in approvals && Later(asked, approvals[id])
      modifies this
      ensures Live() && OwesNothing(me) && Forward()
      ensures id in approvals && Later(asked, approvals[id])
      ensures Seen(read) && run.token > read.token
      ensures if r.Ok? then r.value == id else r.error == Conflict
      ensures alone && read == old(run) ==>
                r.Ok? && S() == Moved(Noted(old(S()), "approval.requested", id), WaitingApproval)
      ensures Own(me) == old(Own(me)) + [Step(me, Remark("approval.requested", id))]
                         + if r.Ok? then WriteSteps(me, read.token, WaitingApproval) else []
    {
      Await(me, alone);
      AppendNote(me, "approval.requested", id);
      var moved := Move(me, alone, read, WaitingApproval);
      r := if moved.Ok? then Ok(id) else Err(moved.error);
    }

    /** Register the inline waiter, if any, and store the approval; both of its keys must be new. */
    method AddPending(ghost me: Call, ghost alone: bool, id: string, a: Approval) returns (added: bool)
      requires Live() && OwesNothing(me) && a.status == Pending
      modifies this
      ensures Live() && OwesNothing(me) && Forward()
      ensures forall read :: old(Seen(read)) ==> Seen(read)
      ensures added ==> id in approvals && Later(a, approvals[id])
      ensures alone ==> (added <==> id !in old(approvals) && !Requested(old(approvals), a.toolCall))
      ensures alone ==> S() == if added then old(S()).(approvals := old(approvals)[id := a]) else old(S())
      ensures alone ==> clock == old(clock)
      ensures Own(me) == old(Own(me)) + if added then [Step(me, AddApproval(id, a))] else []
    {
      if a.inline {
        Register(id);
      }
      Await(me, alone);
      added := AddRecord(me, id, a);
    }

    method Register(id: string)
      requires Live()
      modifies this`waiters
      ensures Live() && id in waiters && S() == old(S())
      ensures forall read :: old(Seen(read)) ==> Seen(read)
    {
      if id !in waiters {
        waiters := waiters[id := None];
      }
    }

    /** Grant or refuse an approval. A normal return means the stored approval has exactly this decision. However it is
        disturbed, the call takes exactly the steps of the settlement of `SettlementRaces` that ends in `stage`:
        a decision it has stored returns normally exactly when it has moved the run. */
    method DecideApproval(ghost me: Call, ghost alone: bool, id: string, decision: ApprovalStatus)
      returns (r: Result<ApprovalStatus, CallError>, ghost stage: T.Stage)
      requires Live() && OwesNothing(me)
      modifies this
      ensures Live() && OwesNothing(me) && Forward()
      ensures r.Ok? ==> r.value == decision && id in approvals && approvals[id].status == decision
      ensures alone ==> S() == DecideEffect(old(S()), id, decision, old(clock), id in old(waiters))
      ensures EndedAt(me, stage)
      ensures T.HasStored(stage) ==> stage.v.id == id && (stage.v.outcome == decision || stage.v.outcome == Expired)
      ensures T.HasStored(stage) && stage.v.outcome == decision ==> (r.Ok? <==> stage.Closed?)
      ensures r.Ok? && T.HasStored(stage) ==>
                Step(me, Write(Entered(if decision == Granted then Running else Status.Rejected)))
                  in T.StepsOf(me, stage)
      ensures decision !in {Granted, Refused} ==> r == Err(Conflict) && stage.Idle?
      ensures alone && decision in {Granted, Refused} ==>
                AnswerDue(old(S()), id, decision, old(clock), r)
    {
      stage := T.Idle;
      if decision != Granted && decision != Refused {
        return Err(Conflict), stage;
      }
      Await(me, alone);
      if id !in approvals {
        return Err(NotFound), stage;
      }
      var current := approvals[id];
      if current.status == decision {
        r, stage := RepeatDecision(me, alone, id, decision);
        return;
      }
      if current.status != Pending {
        return Err(Conflict), stage;
      }
      r, stage := DecidePending(me, alone, id, decision);
    }

    /** The decision of an approval that was found pending; one that is overdue expires instead. */
    method DecidePending(ghost me: Call, ghost alone: bool, id: string, decision: ApprovalStatus)
      returns (r: Result<ApprovalStatus, CallError>, ghost stage: T.Stage)
      requires Live() && OwesNothing(me)
      requires id in approvals && approvals[id].status == Pending && decision in {Granted, Refused}
      modifies this
      ensures Live() && OwesNothing(me) && Forward()
      ensures r.Ok? ==> r.value == decision && id in approvals && approvals[id].status == decision
      ensures EndedAt(me, stage)
      ensures T.HasStored(stage) ==> stage.v.id == id && (stage.v.outcome == decision || stage.v.outcome == Expired)
      ensures T.HasStored(stage) && stage.v.outcome == decision ==> (r.Ok? <==> stage.Closed?)
      ensures r.Ok? ==>
                Step(me, Write(Entered(if decision == Granted then Running else Status.Rejected)))
                  in T.StepsOf(me, stage)
      ensures alone ==> S() == DecideEffect(old(S()), id, decision, old(clock), id in old(waiters))
      ensures alone && old(clock) >= old(approvals)[id].expiresAt ==> r == Err(Conflict)
      ensures alone && old(clock) < old(approvals)[id].expiresAt ==>
                (r.Ok? <==> old(run).status == WaitingApproval
                            || (decision == Granted && old(run).status == Provisioning))
    {
      if clock >= approvals[id].expiresAt {
        var _, expired := ExpireApproval(me, alone, id);
        return Err(Conflict), expired;
      }
      r, stage := ApplyDecision(me, alone, id, decision);
    }

    /** What a decision that nobody disturbs answers; what it does then is `DecisionIsDue`, `ExpiryIsDue` and
        `SettledIsDue`. */
    static ghost predicate AnswerDue(s: State, id: string, decision: ApprovalStatus, now: int,
                                     r: Result<ApprovalStatus, CallError>)
    {
      if id !in s.approvals then r == Err(NotFound)
      else if s.approvals[id].status != Pending then
        r == if s.approvals[id].status == decision then Ok(decision) else Err(Conflict)
      else if now >= s.approvals[id].expiresAt then r == Err(Conflict)
      else
        && (r.Ok? <==> s.run.status == WaitingApproval || (decision == Granted && s.run.status == Provisioning))
        && (r.Ok? ==> r.value == decision)
    }

    /** The decision is the stored one. An inline approval granted again resumes its run. */
    method RepeatDecision(ghost me: Call, ghost alone: bool, id: string, decision: ApprovalStatus)
      returns (r: Result<ApprovalStatus, CallError>, ghost stage: T.Stage)
      requires Live() && OwesNothing(me)
      requires id in approvals && approvals[id].status == decision && decision in {Granted, Refused}
      modifies this
      ensures Live() && OwesNothing(me) && Forward()
      ensures r.Ok? ==> r.value == decision && id in approvals && approvals[id].status == decision
      ensures alone ==> S() == if old(approvals)[id].inline && decision == Granted then ResumeEffect(old(S()))
                               else old(S())
      ensures EndedAt(me, stage) && !T.HasStored(stage)
      ensures alone ==> r == Ok(decision)
    {
      r, stage := Ok(decision), T.Idle;
      if approvals[id].inline && decision == Granted {
        var resumed, ended := EnsureInlineRunResumed(me, alone, T.Verdict(id, Granted, true, T.Again));
        stage := ended;
        T.ActedIsOk(S(), me, stage);
        if resumed.Err? {
          r := Err(resumed.error);
        }
      }
    }

    method ApplyDecision(ghost me: Call, ghost alone: bool, id: string, decision: ApprovalStatus)
      returns (r: Result<ApprovalStatus, CallError>, ghost stage: T.Stage)
      requires Live() && OwesNothing(me)
      requires id in approvals && decision in {Granted, Refused}
      modifies this
      ensures Live() && OwesNothing(me) && Forward()
      ensures r.Ok? ==> r.value == decision && id in approvals && approvals[id].status == decision
      ensures alone && old(approvals)[id].status == Pending ==>
                S() == DecidedEffect(SettledAs(old(S()), id, decision), id, decision)
      ensures EndedAt(me, stage)
      ensures T.HasStored(stage) ==> stage.v.id == id && stage.v.outcome == decision && (r.Ok? <==> stage.Closed?)
      ensures stage.Idle? ==> r.Err?
      ensures r.Ok? ==>
                Step(me, Write(Entered(if decision == Granted then Running else Status.Rejected)))
                  in T.StepsOf(me, stage)
      ensures alone && old(approvals)[id].status == Pending ==>
                (r.Ok? <==> old(run).status == WaitingApproval
                            || (decision == Granted && old(run).status == Provisioning))
    {
      var won, read := SettleAndReport(me, alone, id, decision);
      if !won {
        T.IdleIsOk(S(), me, Own(me));
        return Err(Conflict), T.Idle;
      }
      ghost var told := Own(me);
      r, stage := AfterDecision(me, alone, id, decision, read);
      T.ActedIsOk(S(), me, stage);
      T.ToldSteps(me, stage, old(Own(me)), told, Own(me));
    }

    /** What follows a decision once it is stored and reported: the run moves on as it says. */
    method AfterDecision(ghost me: Call, ghost alone: bool, id: string, decision: ApprovalStatus, read: Run)
      returns (r: Result<ApprovalStatus, CallError>, ghost stage: T.Stage)
      requires Live() && OwesNothing(me) && Seen(read)
      requires id in approvals && approvals[id].status == decision && decision in {Granted, Refused}
      modifies this
      ensures Live() && OwesNothing(me) && Forward()
      ensures id in approvals && approvals[id].status == decision && (r.Ok? ==> r.value == decision)
      ensures alone && read == old(run) ==> S() == DecidedEffect(old(S()), id, decision)
      ensures T.Acted(S(), stage) && stage.v.way.Afresh? && stage.v.id == id && stage.v.outcome == decision
      ensures Own(me) == old(Own(me)) + T.FollowingSteps(me, stage) && (r.Ok? <==> stage.Closed?)
      ensures alone && read == old(run) ==>
                (r.Ok? <==> read.status == WaitingApproval || (decision == Granted && read.status == Provisioning))
    {
      ghost var v := T.Verdict(id, decision, approvals[id].inline, T.Afresh);
      NoteRefusal(me, alone, id, decision, read);
      ghost var noted := Own(me);
      var moved := MoveAsDecided(me, alone, decision, read, v);
      stage := T.Ended(v, read, moved.Ok?);
      T.EndedSteps(S(), me, v, read, moved.Ok?, old(Own(me)), noted, Own(me));
      if moved.Err? {
        return Err(moved.error), stage;
      }
      Notify(id, decision);
      r := Ok(decision);
    }

    /** The move a decision makes; it raises when the table has no such move from the status that was read. */
    method MoveAsDecided(ghost me: Call, ghost alone: bool, decision: ApprovalStatus, read: Run, ghost v: T.Verdict)
      returns (moved: Result<Run, CallError>)
      requires Live() && OwesNothing(me) && Seen(read)
      requires v.way.Afresh? && v.outcome == decision && decision in {Granted, Refused}
      modifies this
      ensures Live() && OwesNothing(me) && Forward() && Seen(read)
      ensures T.Moves(v, read.status) ==> run.token > read.token
      ensures moved.Ok? <==> T.Ended(v, read, moved.Ok?).Closed?
      ensures alone && read == old(run) ==> S() == MovedIfAllowed(old(S()), T.Target(v))
      ensures alone && read == old(run) ==>
                (moved.Ok? <==> read.status == WaitingApproval || (decision == Granted && read.status == Provisioning))
      ensures Own(me) == old(Own(me)) + if moved.Ok? then WriteSteps(me, read.token, T.Target(v)) else []
    {
      moved := Move(me, alone, read, if decision == Granted then Running else Status.Rejected);
    }

    /** A refused tool call that no hook waits for gets its result here. */
    method NoteRefusal(ghost me: Call, ghost alone: bool, id: string, decision: ApprovalStatus, ghost read: Run)
      requires Live() && OwesNothing(me) && Seen(read)
      requires id in approvals && approvals[id].status == decision && decision != Pending
      modifies this
      ensures Live() && OwesNothing(me) && Forward() && Seen(read)
      ensures id in approvals && approvals[id].status == decision
      ensures alone ==> S() == (if decision == Refused && !old(approvals)[id].inline
                                then Noted(old(S()), "tool.result", id) else old(S()))
      ensures Own(me) == old(Own(me))
                         + if decision == Refused && !old(approvals)[id].inline
                           then [Step(me, Remark("tool.result", id))] else []
    {
      if decision == Refused && !approvals[id].inline {
        Await(me, alone);
        AppendNote(me, "tool.result", id);
      }
    }

    /** `list_expired_pending`: the pending approvals due by `now`, the earliest first, and no more than `limit`. */
    method ListExpiredPending(now: int, limit: nat) returns (due: seq<string>)
      ensures Overdue(approvals, now, limit, due)
    {
      due := [];
      var left := DueIds(approvals, now);
      while left != {} && |due| < limit
        invariant left <= DueIds(approvals, now) && |due| <= limit
        invariant forall id :: id in DueIds(approvals, now) <==> id in due || id in left
        invariant forall k :: 0 <= k < |due| ==> due[k] !in left
        invariant Earliest(approvals, due, left)
        decreases left
      {
        EarliestExists(approvals, left);
        var id :| id in left && forall x :: x in left ==> approvals[id].expiresAt <= approvals[x].expiresAt;
        due := due + [id];
        left := left - {id};
      }
    }

    /** Expire the approvals found due, up to the limit. When the call returns normally every approval that was due when
        it started is settled, unless the limit kept it off the list, and then the listed ones were due no later.
        Undisturbed, it expires and counts every one it listed, and touches no other. */
    method ReapExpired(ghost me: Call, ghost alone: bool, limit: nat)
      returns (r: Result<nat, CallError>, ghost due: seq<string>)
      requires Live() && OwesNothing(me)
      modifies this
      ensures Live() && OwesNothing(me) && Forward()
      ensures limit == 0 <==> r == Err(Invalid)
      ensures limit > 0 ==> Overdue(old(approvals), old(clock), limit, due)
      ensures r.Ok? ==> r.value <= |due|
      ensures r.Ok? ==> forall id :: id in due ==> id in approvals && approvals[id].status != Pending
      ensures r.Ok? && |due| < limit ==>
                forall id :: id in DueIds(old(approvals), old(clock)) ==>
                  id in approvals && approvals[id].status != Pending
      ensures alone && limit > 0 ==> r == Ok(|due|) && OnlyExpires(old(approvals), approvals, due)
    {
      due := [];
      if limit < 1 {
        return Err(Invalid), [];
      }
      var listed := ListExpiredPending(clock, limit);
      due := listed;
      assert forall id :: id in due ==> id in approvals && approvals[id].expiresAt <= clock;
      r := ExpireAll(me, alone, listed);
    }

    /** The loop of the reaper; the count is of those this reaper or a rival really expired. */
    method ExpireAll(ghost me: Call, ghost alone: bool, due: seq<string>) returns (r: Result<nat, CallError>)
      requires Live() && OwesNothing(me)
      requires forall id :: id in due ==>
                 id in approvals && approvals[id].status == Pending && approvals[id].expiresAt <= clock
      requires forall j, k :: 0 <= j < k < |due| ==> due[j] != due[k]
      modifies this
      ensures Live() && OwesNothing(me) && Forward()
      ensures r.Ok? ==> r.value <= |due|
      ensures r.Ok? ==> forall id :: id in due ==> id in approvals && approvals[id].status != Pending
      ensures r.Err? ==> r.error == Conflict
      ensures alone ==> r == Ok(|due|) && OnlyExpires(old(approvals), approvals, due)
    {
      var expired := 0;
      assert due[..0] == [];
      for i := 0 to |due|
        invariant Live() && OwesNothing(me) && Forward()
        invariant expired <= i
        invariant forall k :: 0 <= k < i ==> due[k] in approvals && approvals[due[k]].status != Pending
        invariant alone ==> expired == i && clock == old(clock) && OnlyExpires(old(approvals), approvals, due[..i])
      {
        assert due[i] in old(approvals) && Later(old(approvals)[due[i]], approvals[due[i]]);
        var result := ExpireNext(me, alone, due, i, old(approvals));
        if result.Err? {
          return Err(result.error);
        }
        if result.value {
          expired := expired + 1;
        }
      }
      assert due[..|due|] == due;
      r := Ok(expired);
    }

    /** One turn of the loop. */
    method ExpireNext(ghost me: Call, ghost alone: bool, due: seq<string>, i: nat, ghost start: map<string, Approval>)
      returns (r: Result<bool, CallError>)
      requires Live() && OwesNothing(me) && i < |due| && due[i] in approvals && approvals[due[i]].expiresAt <= clock
      requires forall j, k :: 0 <= j < k < |due| ==> due[j] != due[k]
      requires due[i] in start && start[due[i]].status == Pending
      requires alone ==> OnlyExpires(start, approvals, due[..i])
      modifies this
      ensures Live() && OwesNothing(me) && Forward()
      ensures r.Ok? ==> due[i] in approvals && approvals[due[i]].status != Pending
      ensures r.Err? ==> r.error == Conflict
      ensures alone ==> r == Ok(true) && clock == old(clock) && OnlyExpires(start, approvals, due[..i + 1])
    {
      assert due[i] !in due[..i];
      r := ExpireIfDue(me, alone, due[i]);
      if alone { OneMoreExpires(start, old(approvals), approvals, due, i); }
    }

    method ExpireIfDue(ghost me: Call, ghost alone: bool, id: string) returns (r: Result<bool, CallError>)
      requires Live() && OwesNothing(me) && id in approvals && approvals[id].expiresAt <= clock
      modifies this
      ensures Live() && OwesNothing(me) && Forward()
      ensures r.Ok? ==> id in approvals && approvals[id].status != Pending
      ensures r.Ok? && r.value ==> approvals[id].status == Expired
      ensures r.Err? ==> r.error == Conflict
      ensures alone ==> clock == old(clock)
      ensures alone && old(approvals)[id].status == Pending ==>
                r == Ok(true) && approvals == old(approvals)[id := old(approvals)[id].(status := Expired)]
    {
      if approvals[id].status == Pending { ExpiryIsDue(S(), id, id in waiters); }
      Await(me, alone);
      if approvals[id].status != Pending || clock < approvals[id].expiresAt {
        return Ok(false);
      }
      var result, _ := ExpireApproval(me, alone, id);
      r := if result.Err? then Err(result.error) else Ok(result.value == Expired);
    }

    /** Wait until an inline approval is decided. The wait ends no later than the first poll after the
        approval's expiry, and what it returns is the outcome that is durably stored. */
    method WaitForDecision(ghost me: Call, id: string, pollInterval: nat) returns (r: Result<ApprovalStatus, CallError>)
      requires Live() && OwesNothing(me) && pollInterval > 0
      modifies this
      ensures Live() && OwesNothing(me) && Forward()
      ensures r.Ok? ==> id in approvals && r.value == approvals[id].status && r.value != Pending
    {
      if id !in waiters || id !in approvals {
        return Err(if id in waiters then NotFound else Conflict);
      }
      var expiresAt := approvals[id].expiresAt;
      var answer: Option<Result<ApprovalStatus, CallError>> := None;
      while answer.None?
        invariant Live() && OwesNothing(me) && Forward()
        invariant id in approvals && approvals[id].expiresAt == expiresAt
        invariant answer.Some? && answer.value.Ok? ==>
                    answer.value.value == approvals[id].status && answer.value.value != Pending
        decreases answer.None?, expiresAt - clock
      {
        answer := Poll(me, id);
        if answer.None? {
          clock := clock + pollInterval;
        }
      }
      waiters := waiters - {id};
      r := answer.value;
    }

    /** One turn of the waiting loop. It has no answer only before the approval's expiry, for a run not cancelled. */
    method Poll(ghost me: Call, id: string) returns (answer: Option<Result<ApprovalStatus, CallError>>)
      requires Live() && OwesNothing(me) && id in approvals
      modifies this
      ensures Live() && OwesNothing(me) && Forward()
      ensures answer.None? ==> old(clock) < approvals[id].expiresAt && old(run).status != Status.Cancelled
      ensures answer.Some? && answer.value.Ok? ==>
                answer.value.value == approvals[id].status && answer.value.value != Pending
    {
      CurrentIsSeen();
      ghost var before := run;
      Await(me, false);
      if before.status == Status.Cancelled { SeenTerminalIsCurrent(before); }
      if approvals[id].status != Pending {
        var decided := ReturnDecided(me, id);
        return Some(decided);
      }
      answer := PollPending(me, id);
    }

    /** The turn of an approval that was found pending. */
    method PollPending(ghost me: Call, id: string) returns (answer: Option<Result<ApprovalStatus, CallError>>)
      requires Live() && OwesNothing(me) && id in approvals
      modifies this
      ensures Live() && OwesNothing(me) && Forward()
      ensures answer.None? ==> old(clock) < approvals[id].expiresAt && old(run).status != Status.Cancelled
      ensures answer.Some? && answer.value.Ok? ==>
                answer.value.value == approvals[id].status && answer.value.value != Pending
    {
      CurrentIsSeen();
      ghost var before := run;
      Await(me, false);
      if before.status == Status.Cancelled { SeenTerminalIsCurrent(before); }
      if run.status == Cancelling || run.status == Status.Cancelled {
        var cancelled, _ := CancelPending(me, false, id);
        return Some(cancelled);
      }
      if clock >= approvals[id].expiresAt {
        var expired, _ := ExpireApproval(me, false, id);
        return Some(expired);
      }
      Await(me, false);
      answer := if id in waiters && waiters[id].Some? then Some(Ok(waiters[id].value)) else None;
    }

    method ReturnDecided(ghost me: Call, id: string) returns (r: Result<ApprovalStatus, CallError>)
      requires Live() && OwesNothing(me) && id in approvals && approvals[id].status != Pending
      modifies this
      ensures Live() && OwesNothing(me) && Forward()
      ensures r.Ok? ==> id in approvals && r.value == approvals[id].status
    {
      if approvals[id].inline && approvals[id].status == Granted {
        var resumed, _ := EnsureInlineRunResumed(me, false, T.Verdict(id, Granted, true, T.Again));
        if resumed.Err? {
          return Err(resumed.error);
        }
      }
      r := Ok(approvals[id].status);
    }
  }
}
