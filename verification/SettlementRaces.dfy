/** Decisions, expiries and withdrawals of approvals, repository call by repository call, beside the requests of
    `RequestRaces` and any other callers: exactly when they leave a run waiting for an approval that is settled. */
module SettlementRaces {
  import opened RunStateMachine
  import opened RunProtocol
  import opened RunCalls
  import R = RequestRaces

  // ------------------------------------------------------------------ machine

  datatype Way =
    | Afresh     // store the outcome, read the run and act on that read
    | ForHook    // expire an inline approval whose hook waits in this process: read the run once more and resume it
    | Again      // decide an inline approval as it was decided: only resume the run

  type Outcome = s: ApprovalStatus | s != Pending witness Granted

  /** What a call settles, as it finds the approval and with the outcome it is to store. */
  datatype Verdict = Verdict(id: string, outcome: Outcome, inline: bool, way: Way)

  /** How far a call has come, with the run record it acts on. */
  datatype Stage =
    | Opened(v: Verdict)               // found the approval pending
    | Stored(v: Verdict)               // the outcome is stored
    | Informed(v: Verdict, read: Run)  // the run is read
    | Told(v: Verdict, read: Run)      // the outcome's event is appended, the failed tool call's is due
    | Resuming(v: Verdict)             // has to read the run in order to resume it
    | Ready(v: Verdict, read: Run)     // has a move to make
    | Wrote(v: Verdict, read: Run)     // the run's write was won and has yet to be reported
    | Closed(v: Verdict, read: Run)    // ended, with the run moved
    | Beaten(v: Verdict, read: Run)    // ended, because the run's write was lost
    | Stuck(v: Verdict, read: Run)     // ended, because the run as it was read has no such move
    | Withdrew(v: Verdict)             // ended, as a withdrawal leaves the run alone
    | Idle                             // ended without storing or moving anything

  datatype Fray = Fray(race: R.Race, calls: map<Call, Stage>)

  /** One repository call of a settlement, or one move of the race around it. */
  datatype Turn =
    | Around(m: R.Move)
    | Open(call: Call, v: Verdict)
    | Store(call: Call)
    | Learn(call: Call)
    | Tell(call: Call)
    | Explain(call: Call)
    | Resume(call: Call)
    | Act(call: Call)
    | Confirm(call: Call)

  predicate Sound(v: Verdict) {
    && (v.way.ForHook? ==> v.outcome == Expired && v.inline)
    && (v.way.Again? ==> v.outcome == Granted && v.inline)
  }

  predicate Over(g: Stage) {
    g.Closed? || g.Beaten? || g.Stuck? || g.Withdrew? || g.Idle?
  }

  predicate HasStored(g: Stage) {
    !g.Opened? && !g.Idle? && !g.v.way.Again?
  }

  predicate HasTold(g: Stage) {
    HasStored(g) && !g.Stored? && !g.Informed?
  }

  predicate HasWritten(g: Stage) {
    g.Wrote? || g.Closed? || g.Beaten?
  }

  predicate HasRead(g: Stage) {
    g.Informed? || g.Told? || g.Ready? || g.Stuck? || HasWritten(g)
  }

  /** A tool call that no hook waits for gets its failure here. */
  predicate FailureDue(v: Verdict, read: Run) {
    v.way.Afresh? && ((v.outcome == Refused && !v.inline) || (v.outcome == Expired && !Stopping(read.status)))
  }

  function Target(v: Verdict): Status {
    if v.outcome == Granted || !v.way.Afresh? then Running else Status.Rejected
  }

  /** Whether the call moves a run with this status. A decision tries, and raises if the table forbids it. */
  predicate Moves(v: Verdict, status: Status) {
    if v.way.Afresh? && v.outcome != Expired then Transition(status, Target(v)).Ok? else status == WaitingApproval
  }

  function Judged(v: Verdict, read: Run): Stage {
    if Moves(v, read.status) then Ready(v, read) else Stuck(v, read)
  }

  /** The approval is as the call must find it. */
  predicate Fits(s: State, v: Verdict) {
    && v.id in s.approvals && s.approvals[v.id].inline == v.inline
    && s.approvals[v.id].status == if v.way.Again? then Granted else Pending
  }

  function ReportingOutcome(d: Call, v: Verdict): Step {
    Step(d, ReportOutcome(v.id))
  }

  function Reporting(d: Call, read: Run): Step {
    Step(d, Report(read.token + 1))
  }

  predicate CanTurn(f: Fray, t: Turn) {
    if t.Around? then
      R.CanMove(f.race, t.m)
      && if t.m.Other? then forall step :: step in t.m.steps ==> step.caller !in f.calls else t.m.call !in f.calls
    else
      t.call !in f.race.calls
      && if t.Open? then t.call !in f.calls && Sound(t.v) else t.call in f.calls && MayTake(f, t, f.calls[t.call])
  }

  predicate MayTake(f: Fray, t: Turn, g: Stage)
    requires !t.Around?
  {
    match t
    case Store(_) => g.Opened?
    case Learn(_) => g.Stored? && g.v.outcome != Withdrawn
    case Tell(d) =>
      (g.Informed? || (g.Stored? && g.v.outcome == Withdrawn)) && Enabled(f.race.s, ReportingOutcome(d, g.v))
    case Explain(_) => g.Told?
    case Resume(_) => g.Resuming?
    case Act(_) => g.Ready? && Moves(g.v, g.read.status)
    case Confirm(d) => g.Wrote? && Enabled(f.race.s, Reporting(d, g.read))
    case _ => false
  }

  predicate StillPending(s: State, id: string) {
    id in s.approvals && s.approvals[id].status == Pending
  }

  /** The protocol steps a turn takes: none for a read, or a write that is lost. */
  function Steps(f: Fray, t: Turn): seq<Step>
    requires CanTurn(f, t) && !t.Around?
  {
    match t
    case Store(d) =>
      var v := f.calls[d].v;
      if StillPending(f.race.s, v.id) then [Step(d, Settle(v.id, v.outcome))] else []
    case Tell(d) => [ReportingOutcome(d, f.calls[d].v)]
    case Explain(d) => [Step(d, Remark("tool.result", f.calls[d].v.id))]
    case Act(d) =>
      if f.race.s.run == f.calls[d].read then [Step(d, Write(Entered(Target(f.calls[d].v))))] else []
    case Confirm(d) => [Reporting(d, f.calls[d].read)]
    case _ => []
  }

  /** Where a call stands after its turn. */
  function NextStage(f: Fray, t: Turn): Stage
    requires CanTurn(f, t) && !t.Around?
  {
    if t.Open? then
      if !Fits(f.race.s, t.v) then Idle else if t.v.way.Again? then Resuming(t.v) else Opened(t.v)
    else
      var g := f.calls[t.call];
      match t
      case Store(_) => if StillPending(f.race.s, g.v.id) then Stored(g.v) else Idle
      case Learn(_) => Informed(g.v, f.race.s.run)
      case Tell(_) =>
        if g.Stored? then Withdrew(g.v)
        else if g.v.way.ForHook? then Resuming(g.v)
        else if FailureDue(g.v, g.read) then Told(g.v, g.read)
        else Judged(g.v, g.read)
      case Explain(_) => Judged(g.v, g.read)
      case Resume(_) => Judged(g.v, f.race.s.run)
      case Act(_) => if f.race.s.run == g.read then Wrote(g.v, g.read) else Beaten(g.v, g.read)
      case Confirm(_) => Closed(g.v, g.read)
  }

  /** The turn as the race sees it. */
  function MoveOf(f: Fray, t: Turn): R.Move
    requires CanTurn(f, t)
  {
    if t.Around? then t.m else R.Other(Steps(f, t))
  }

  lemma TurnIsAMove(f: Fray, t: Turn)
    requires CanTurn(f, t)
    ensures R.CanMove(f.race, MoveOf(f, t))
  {
  }

  function Next(f: Fray, t: Turn): Fray
    requires CanTurn(f, t)
  {
    TurnIsAMove(f, t);
    Fray(R.Next(f.race, MoveOf(f, t)), if t.Around? then f.calls else f.calls[t.call := NextStage(f, t)])
  }

  /** A turn of a call changes no other call. */
  lemma OnlyItsStage(f: Fray, t: Turn)
    requires CanTurn(f, t) && !t.Around?
    ensures Next(f, t).calls == f.calls[t.call := NextStage(f, t)] && Next(f, t).race.calls == f.race.calls
    ensures Steps(f, t) == [] ==> Next(f, t).race.s == f.race.s
    ensures Steps(f, t) != [] ==> Enabled(f.race.s, Steps(f, t)[0])
                                  && Next(f, t).race.s == Apply(f.race.s, Steps(f, t)[0])
  {
    TurnIsAMove(f, t);
  }

  /** The states a sequence of turns goes through. */
  datatype History = History(states: seq<Fray>, turns: seq<Turn>)

  ghost predicate Happens(h: History) {
    && |h.states| == |h.turns| + 1
    && forall n :: 0 <= n < |h.turns| ==> Follows(h, n)
  }

  predicate Follows(h: History, n: nat)
    requires n < |h.turns| < |h.states|
  {
    CanTurn(h.states[n], h.turns[n]) && h.states[n + 1] == Next(h.states[n], h.turns[n])
  }

  /** The race within a history. */
  ghost function RaceOf(h: History): (g: R.History)
    requires Happens(h)
    ensures |g.moves| == |h.turns| && |g.states| == |h.states|
    ensures forall n :: 0 <= n <= |h.turns| ==> g.states[n] == h.states[n].race
    ensures R.Happens(g)
  {
    var g := R.History(seq(|h.states|, n requires 0 <= n < |h.states| => h.states[n].race),
                       seq(|h.turns|, n requires 0 <= n < |h.turns| => MoveAt(h, n)));
    assert forall n :: 0 <= n < |h.turns| ==> R.Follows(g, n) by {
      forall n | 0 <= n < |h.turns| ensures R.Follows(g, n) {
        assert Follows(h, n);
        TurnIsAMove(h.states[n], h.turns[n]);
      }
    }
    g
  }

  ghost function MoveAt(h: History, n: nat): R.Move
    requires Happens(h) && n < |h.turns|
  {
    assert Follows(h, n);
    MoveOf(h.states[n], h.turns[n])
  }

  lemma MovesOf(h: History, n: nat)
    requires Happens(h) && n < |h.turns|
    ensures RaceOf(h).moves[n] == MoveAt(h, n)
    ensures Follows(h, n)
  {
    assert Follows(h, n);
  }

  // ----------------------------------------------------------------- own steps

  /** The steps a call takes on its way to a stage, in its own order. */
  function StepsOf(d: Call, g: Stage): seq<Step> {
    SettlingSteps(d, g) + FollowingSteps(d, g)
  }

  function SettlingSteps(d: Call, g: Stage): seq<Step> {
    if !HasStored(g) then []
    else if !HasTold(g) then [Step(d, Settle(g.v.id, g.v.outcome))]
    else [Step(d, Settle(g.v.id, g.v.outcome)), ReportingOutcome(d, g.v)]
  }

  /** What follows once the outcome is reported. */
  function FollowingSteps(d: Call, g: Stage): seq<Step> {
    (if HasTold(g) && HasRead(g) && !g.Told? && FailureDue(g.v, g.read)
     then [Step(d, Remark("tool.result", g.v.id))] else [])
    + MovingSteps(d, g)
  }

  function MovingSteps(d: Call, g: Stage): seq<Step> {
    if g.Wrote? then [Step(d, Write(Entered(Target(g.v))))]
    else if g.Closed? then WriteSteps(d, g.read.token, Target(g.v))
    else []
  }

  function StepsSoFar(f: Fray, d: Call): seq<Step> {
    if d in f.calls then StepsOf(d, f.calls[d]) else []
  }

  /** The turn is none of the call's. */
  predicate Elsewhere(t: Turn, d: Call) {
    if !t.Around? then t.call != d
    else if t.m.Other? then forall step :: step in t.m.steps ==> step.caller != d
    else t.m.call != d
  }

  lemma NextSteps(f: Fray, t: Turn, d: Call)
    requires CanTurn(f, t) && (t.Around? ==> Elsewhere(t, d)) && (d in f.calls ==> StageOk(f.race.s, d, f.calls[d]))
    ensures StepsSoFar(Next(f, t), d)
         == StepsSoFar(f, d) + if Elsewhere(t, d) then [] else R.Steps(f.race, MoveOf(f, t))
  {
    if t.Around? || t.call != d {
      assert d in Next(f, t).calls <==> d in f.calls;
      assert d in f.calls ==> Next(f, t).calls[d] == f.calls[d];
    } else {
      OnlyItsStage(f, t);
      OwnTurnSteps(f, t);
    }
  }

  lemma OwnTurnSteps(f: Fray, t: Turn)
    requires CanTurn(f, t) && !t.Around? && (!t.Open? ==> Proper(f.calls[t.call]))
    ensures StepsOf(t.call, NextStage(f, t)) == StepsSoFar(f, t.call) + Steps(f, t)
  {
    if t.Act? || t.Confirm? {
      MovingTurnSteps(f, t);
    } else if t.Tell? || t.Explain? {
      TellingTurnSteps(f, t);
    } else if !t.Open? {
      StoringTurnSteps(f, t);
    }
  }

  lemma MovingTurnSteps(f: Fray, t: Turn)
    requires CanTurn(f, t) && (t.Act? || t.Confirm?)
    ensures StepsOf(t.call, NextStage(f, t)) == StepsOf(t.call, f.calls[t.call]) + Steps(f, t)
  {
  }

  lemma TellingTurnSteps(f: Fray, t: Turn)
    requires CanTurn(f, t) && (t.Tell? || t.Explain?) && Proper(f.calls[t.call])
    ensures StepsOf(t.call, NextStage(f, t)) == StepsOf(t.call, f.calls[t.call]) + Steps(f, t)
  {
  }

  lemma StoringTurnSteps(f: Fray, t: Turn)
    requires CanTurn(f, t) && (t.Store? || t.Learn? || t.Resume?) && Proper(f.calls[t.call])
    ensures StepsOf(t.call, NextStage(f, t)) == StepsOf(t.call, f.calls[t.call]) + Steps(f, t)
  {
  }

  lemma MoverSteps(f: Fray, t: Turn, d: Call)
    requires CanTurn(f, t) && (t.Around? ==> Elsewhere(t, d))
    ensures var steps := R.Steps(f.race, MoveOf(f, t));
            steps != [] ==> (steps[0].caller == d <==> !Elsewhere(t, d))
  {
  }

  /** The steps the call has taken in the first `n` turns are those of its stage. */
  ghost predicate StepsFit(h: History, n: nat, d: Call)
    requires Happens(h) && n <= |h.turns|
  {
    StepsBy(R.TraceOf(RaceOf(h), n), d) == StepsSoFar(h.states[n], d)
  }

  lemma StageFixesNext(h: History, n: nat, d: Call)
    requires Happens(h) && n < |h.turns| && FrayInv(h.states[0])
    requires h.turns[n].Around? ==> Elsewhere(h.turns[n], d)
    requires StepsFit(h, n, d)
    ensures StepsFit(h, n + 1, d)
  {
    HistoryKeepsInv(h, n);
    MovesOf(h, n);
    R.NextTrace(RaceOf(h), n, d);
    NextSteps(h.states[n], h.turns[n], d);
    MoverSteps(h.states[n], h.turns[n], d);
  }

  lemma NoStepsYet(h: History, d: Call)
    requires Happens(h) && d !in h.states[0].calls
    ensures StepsFit(h, 0, d)
  {
    assert R.TraceOf(RaceOf(h), 0) == [];
  }

  /** In every history the steps a settlement has taken are those of its stage. */
  lemma StageFixesSteps(h: History, n: nat, d: Call)
    requires Happens(h) && n <= |h.turns| && FrayInv(h.states[0]) && d !in h.states[0].calls
    requires forall k :: 0 <= k < |h.turns| && h.turns[k].Around? ==> Elsewhere(h.turns[k], d)
    ensures StepsFit(h, n, d)
  {
    var fits := (k: nat) => k <= |h.turns| ==> StepsFit(h, k, d);
    NoStepsYet(h, d);
    forall k: nat | fits(k) ensures fits(k + 1) {
      if k < |h.turns| { StageFixesNext(h, k, d); }
    }
    R.FromTheStart(fits, n);
  }

  // ---------------------------------------------------------------- invariant

  /** What a stage says of the call alone. */
  predicate Proper(g: Stage) {
    && (!g.Idle? ==> Sound(g.v))
    && (g.Opened? || g.Stored? || g.Informed? ==> !g.v.way.Again?)
    && (g.Informed? ==> g.v.outcome != Withdrawn)
    && (g.Told? ==> FailureDue(g.v, g.read))
    && (g.Resuming? ==> !g.v.way.Afresh?)
    && (g.Withdrew? <==> HasTold(g) && g.v.outcome == Withdrawn)
    && (g.Ready? || HasWritten(g) ==> Moves(g.v, g.read.status))
    && (g.Stuck? ==> !Moves(g.v, g.read.status))
  }

  /** What holds of one call whatever the others do. */
  ghost predicate StageOk(s: State, d: Call, g: Stage) {
    && Proper(g)
    && (HasStored(g) ==> g.v.id in s.approvals && s.approvals[g.v.id].status == g.v.outcome)
    && (HasStored(g) && !HasTold(g) ==> Enabled(s, ReportingOutcome(d, g.v)))
    && (HasRead(g) ==> WasRecord(s, g.read))
    && (HasWritten(g) ==> s.run.token > g.read.token)
    && (g.Wrote? ==> Enabled(s, Reporting(d, g.read)))
  }

  /** The call has dealt with the run: moved it, lost its write, or found no move to make. */
  ghost predicate Acted(s: State, g: Stage) {
    && (g.Closed? || g.Beaten? || g.Stuck?) && WasRecord(s, g.read)
    && if g.Stuck? then !Moves(g.v, g.read.status) else Moves(g.v, g.read.status) && s.run.token > g.read.token
  }

  lemma ActedIsOk(s: State, d: Call, g: Stage)
    requires Acted(s, g) && Sound(g.v) && g.v.outcome != Withdrawn
    requires g.v.way.Again? || (g.v.id in s.approvals && s.approvals[g.v.id].status == g.v.outcome)
    ensures Over(g) && StageOk(s, d, g)
  {
  }

  /** How a move that was tried on a run as it was read has ended. */
  function Ended(v: Verdict, read: Run, won: bool): Stage {
    if !Moves(v, read.status) then Stuck(v, read) else if won then Closed(v, read) else Beaten(v, read)
  }

  /** A call that dealt with the run as it read it, once its outcome was reported: what it did before and after. */
  lemma EndedSteps(s: State, d: Call, v: Verdict, read: Run, won: bool, a: seq<Step>, b: seq<Step>, c: seq<Step>)
    requires v.way.Afresh? && v.outcome != Withdrawn && WasRecord(s, read)
    requires Moves(v, read.status) ==> s.run.token > read.token
    requires b == a + if FailureDue(v, read) then [Step(d, Remark("tool.result", v.id))] else []
    requires c == b + if Ended(v, read, won).Closed? then WriteSteps(d, read.token, Target(v)) else []
    ensures Acted(s, Ended(v, read, won))
    ensures c == a + FollowingSteps(d, Ended(v, read, won))
  {
  }

  /** A call that has ended after reporting its outcome: what it did before and after. */
  lemma ToldSteps(d: Call, g: Stage, a: seq<Step>, b: seq<Step>, c: seq<Step>)
    requires HasTold(g)
    requires b == a + [Step(d, Settle(g.v.id, g.v.outcome)), ReportingOutcome(d, g.v)]
    requires c == b + FollowingSteps(d, g)
    ensures c == a + StepsOf(d, g)
  {
  }

  /** A withdrawal that has reported its outcome. */
  lemma WithdrewIsOk(s: State, d: Call, v: Verdict, a: seq<Step>, b: seq<Step>)
    requires Sound(v) && v.way.Afresh? && v.outcome == Withdrawn
    requires v.id in s.approvals && s.approvals[v.id].status == Withdrawn
    requires b == a + [Step(d, Settle(v.id, Withdrawn)), ReportingOutcome(d, v)]
    ensures StageOk(s, d, Withdrew(v)) && b == a + StepsOf(d, Withdrew(v))
  {
  }

  lemma IdleIsOk(s: State, d: Call, a: seq<Step>)
    ensures StageOk(s, d, Idle) && a == a + StepsOf(d, Idle)
  {
  }

  ghost predicate FrayInv(f: Fray) {
    R.RaceInv(f.race) && forall d :: d in f.calls ==> StageOk(f.race.s, d, f.calls[d])
  }

  lemma OthersKeepStage(s: State, step: Step, d: Call, g: Stage)
    requires Inv(s) && Enabled(s, step) && step.caller != d && StageOk(s, d, g)
    ensures StageOk(Apply(s, step), d, g)
  {
    InvProtects(s);
    RelyStep(d, s, step);
    RelyKeepsStage(s, Apply(s, step), d, g);
  }

  lemma RelyKeepsStage(s: State, t: State, d: Call, g: Stage)
    requires Rely(d, s, t) && StageOk(s, d, g)
    ensures StageOk(t, d, g)
  {
    if HasRead(g) { WasRecordStays(s, t, g.read); }
  }

  /** The record is the last of its history. */
  ghost predicate Current(s: State) {
    |s.marks| == s.run.token + 1 && WasRecord(s, s.run)
  }

  lemma InvIsCurrent(s: State)
    requires Inv(s)
    ensures Current(s)
  {
    assert s.marks[..s.run.token + 1] == s.marks;
  }

  /** A call that acts on an old record loses its write. */
  lemma OldReadLoses(s: State, read: Run)
    requires Current(s) && WasRecord(s, read)
    ensures read.token <= s.run.token && (s.run == read <==> s.run.token == read.token)
  {
  }

  /** The call may take the turn, and its stage is right. */
  ghost predicate OwnTurn(f: Fray, t: Turn) {
    && CanTurn(f, t) && !t.Around? && Current(f.race.s)
    && (!t.Open? ==> StageOk(f.race.s, t.call, f.calls[t.call]))
  }

  lemma OwnStage(f: Fray, t: Turn)
    requires OwnTurn(f, t)
    ensures StageOk(Next(f, t).race.s, t.call, NextStage(f, t))
  {
    match t
    case Act(d) => ActKeepsStage(f, d);
    case Tell(d) => TellKeepsStage(f, d);
    case Store(d) => StoreKeepsStage(f, d);
    case Learn(_) => ReadKeepsStage(f, t);
    case Resume(_) => ReadKeepsStage(f, t);
    case Open(_, _) => ReadKeepsStage(f, t);
    case Explain(d) => LogKeepsStage(f, t);
    case Confirm(d) => LogKeepsStage(f, t);
  }

  lemma ReadKeepsStage(f: Fray, t: Turn)
    requires OwnTurn(f, t) && (t.Learn? || t.Resume? || t.Open?)
    ensures StageOk(Next(f, t).race.s, t.call, NextStage(f, t))
  {
  }

  lemma StoreKeepsStage(f: Fray, d: Call)
    requires OwnTurn(f, Store(d))
    ensures StageOk(Next(f, Store(d)).race.s, d, NextStage(f, Store(d)))
  {
  }

  lemma LogKeepsStage(f: Fray, t: Turn)
    requires OwnTurn(f, t) && (t.Explain? || t.Confirm?)
    ensures StageOk(Next(f, t).race.s, t.call, NextStage(f, t))
  {
    assert Next(f, t).race.s.marks == f.race.s.marks;
  }

  lemma TellKeepsStage(f: Fray, d: Call)
    requires OwnTurn(f, Tell(d))
    ensures StageOk(Next(f, Tell(d)).race.s, d, NextStage(f, Tell(d)))
  {
    assert Next(f, Tell(d)).race.s.marks == f.race.s.marks;
  }

  lemma ActKeepsStage(f: Fray, d: Call)
    requires OwnTurn(f, Act(d))
    ensures StageOk(Next(f, Act(d)).race.s, d, NextStage(f, Act(d)))
  {
    OnlyItsStage(f, Act(d));
    OldReadLoses(f.race.s, f.calls[d].read);
    WasRecordStays(f.race.s, Next(f, Act(d)).race.s, f.calls[d].read);
  }

  lemma TurnKeepsInv(f: Fray, t: Turn)
    requires FrayInv(f) && CanTurn(f, t)
    ensures FrayInv(Next(f, t))
  {
    TurnIsAMove(f, t);
    R.MoveKeepsInv(f.race, MoveOf(f, t));
    if !t.Around? {
      InvIsCurrent(f.race.s);
      OwnStage(f, t);
    }
    var steps := R.Steps(f.race, MoveOf(f, t));
    forall d | d in Next(f, t).calls ensures StageOk(Next(f, t).race.s, d, Next(f, t).calls[d]) {
      if t.Around? || d != t.call {
        assert StageOk(f.race.s, d, f.calls[d]);
        if steps != [] { OthersKeepStage(f.race.s, steps[0], d, f.calls[d]); }
      }
    }
  }

  lemma {:induction false} HistoryKeepsInv(h: History, n: nat)
    requires Happens(h) && n <= |h.turns| && FrayInv(h.states[0])
    ensures FrayInv(h.states[n])
  {
    if n > 0 {
      HistoryKeepsInv(h, n - 1);
      assert Follows(h, n - 1);
      TurnKeepsInv(h.states[n - 1], h.turns[n - 1]);
    }
  }

  /** A settlement that has not ended always has a turn to take. */
  lemma SettlementsAreNeverBlocked(f: Fray, d: Call)
    requires FrayInv(f) && d in f.calls && d !in f.race.calls && !Over(f.calls[d])
    ensures exists t :: CanTurn(f, t) && !t.Around? && t.call == d
  {
    var g := f.calls[d];
    assert StageOk(f.race.s, d, g);
    var t := match g
      case Opened(_) => Store(d)
      case Stored(v) => if v.outcome == Withdrawn then Tell(d) else Learn(d)
      case Informed(_, _) => Tell(d)
      case Told(_, _) => Explain(d)
      case Resuming(_) => Resume(d)
      case Ready(_, _) => Act(d)
      case Wrote(_, _) => Confirm(d)
      case _ => Store(d);
    assert CanTurn(f, t);
  }

  // ------------------------------------------- when a run is left waiting for nothing

  /** Nothing has been requested or settled yet, and the run is running with nothing pending. */
  ghost predicate Quiet(f: Fray) {
    R.Quiet(f.race) && f.calls == map[]
  }

  ghost predicate AllOver(f: Fray) {
    R.Settled(f.race) && forall d :: d in f.calls ==> Over(f.calls[d])
  }

  /** The read a call acts on. */
  predicate ActsOn(f: Fray, t: Turn) {
    || t.Resume?
    || (t.Learn? && t.call in f.calls && f.calls[t.call].Stored? && f.calls[t.call].v.way.Afresh?)
  }

  /** A call acts on a read made after a moment of the history. */
  ghost predicate ReadAfter(h: History, j: nat)
    requires Happens(h)
  {
    exists i :: j < i < |h.turns| && ActsOn(h.states[i], h.turns[i])
  }

  predicate IsForeignWrite(t: Turn) {
    t.Around? && t.m.Other? && t.m.steps != [] && t.m.steps[0].action.Write?
  }

  /** A caller other than the requests and settlements writes the run after a moment of the history. */
  ghost predicate ForeignWriteAfter(h: History, j: nat)
    requires Happens(h)
  {
    exists k :: j < k < |h.turns| && IsForeignWrite(h.turns[k])
  }

  /** The call has read the run and acts on that read. */
  predicate HasActingRead(g: Stage) {
    HasRead(g) && (g.Informed? ==> g.v.way.Afresh?)
  }

  lemma ActingReadIsOlder(f: Fray, t: Turn)
    requires OwnTurn(f, t) && HasActingRead(NextStage(f, t))
    ensures (ActsOn(f, t) && NextStage(f, t).read == f.race.s.run)
         || (!t.Open? && HasActingRead(f.calls[t.call]) && f.calls[t.call].read == NextStage(f, t).read)
  {
  }

  lemma ActingReadBefore(h: History, d: Call, k: nat)
    requires Happens(h) && FrayInv(h.states[0]) && k < |h.turns|
    requires d in h.states[k + 1].calls && HasActingRead(h.states[k + 1].calls[d])
    ensures (!h.turns[k].Around? && h.turns[k].call == d && ActsOn(h.states[k], h.turns[k])
             && h.states[k].race.s.run == h.states[k + 1].calls[d].read)
         || (d in h.states[k].calls && HasActingRead(h.states[k].calls[d])
             && h.states[k].calls[d].read == h.states[k + 1].calls[d].read)
  {
    assert Follows(h, k);
    if !h.turns[k].Around? && h.turns[k].call == d {
      HistoryKeepsInv(h, k);
      InvIsCurrent(h.states[k].race.s);
      ActingReadIsOlder(h.states[k], h.turns[k]);
    }
  }

  /** A call that acts on a read made it at some turn. */
  lemma {:induction false} ActingReadAt(h: History, d: Call, n: nat) returns (i: nat)
    requires Happens(h) && n <= |h.turns| && d !in h.states[0].calls && FrayInv(h.states[0])
    requires d in h.states[n].calls && HasActingRead(h.states[n].calls[d])
    ensures i < n && ActsOn(h.states[i], h.turns[i]) && h.turns[i].call == d
    ensures h.states[i].race.s.run == h.states[n].calls[d].read
  {
    ActingReadBefore(h, d, n - 1);
    if d in h.states[n - 1].calls && HasActingRead(h.states[n - 1].calls[d])
       && h.states[n - 1].calls[d].read == h.states[n].calls[d].read {
      i := ActingReadAt(h, d, n - 1);
    } else {
      i := n - 1;
    }
  }

  /** The call acts on this read of a waiting run: it goes on to move the run, or loses its write to another. */
  predicate Acting(g: Stage, read: Run) {
    && (g.Informed? || g.Told? || g.Ready? || HasWritten(g)) && g.read == read
    && (g.Informed? ==> g.v.way.Afresh?)
  }

  lemma StartsActing(h: History, i: nat)
    requires Happens(h) && FrayInv(h.states[0]) && i < |h.turns| && ActsOn(h.states[i], h.turns[i])
    requires h.states[i].race.s.run.status == WaitingApproval
    ensures h.turns[i].call in h.states[i + 1].calls
    ensures Acting(h.states[i + 1].calls[h.turns[i].call], h.states[i].race.s.run)
  {
    assert Follows(h, i);
    HistoryKeepsInv(h, i);
    assert StageOk(h.states[i].race.s, h.turns[i].call, h.states[i].calls[h.turns[i].call]);
  }

  lemma GoesOnActing(h: History, k: nat, d: Call, read: Run)
    requires Happens(h) && FrayInv(h.states[0]) && k < |h.turns| && d in h.states[k].calls
    requires Acting(h.states[k].calls[d], read) && read.status == WaitingApproval
    ensures d in h.states[k + 1].calls && Acting(h.states[k + 1].calls[d], read)
  {
    assert Follows(h, k);
    if !h.turns[k].Around? && h.turns[k].call == d {
      HistoryKeepsInv(h, k);
      ActingTurn(h.states[k], h.turns[k], read);
    }
  }

  lemma ActingTurn(f: Fray, t: Turn, read: Run)
    requires CanTurn(f, t) && !t.Around? && t.call in f.calls && StageOk(f.race.s, t.call, f.calls[t.call])
    requires Acting(f.calls[t.call], read) && read.status == WaitingApproval
    ensures Acting(NextStage(f, t), read)
  {
  }

  lemma {:induction false} ReadOfWaitingActs(h: History, i: nat, m: nat)
    requires Happens(h) && FrayInv(h.states[0]) && i < m <= |h.turns| && ActsOn(h.states[i], h.turns[i])
    requires h.states[i].race.s.run.status == WaitingApproval
    ensures h.turns[i].call in h.states[m].calls
    ensures Acting(h.states[m].calls[h.turns[i].call], h.states[i].race.s.run)
    decreases m - i
  {
    if i + 1 == m {
      StartsActing(h, i);
    } else {
      ReadOfWaitingActs(h, i, m - 1);
      GoesOnActing(h, m - 1, h.turns[i].call, h.states[i].race.s.run);
    }
  }

  /** Once the calls have ended, a waiting run that one of them acts on has been written since. */
  lemma ReadMeansWritten(h: History, i: nat)
    requires Happens(h) && FrayInv(h.states[0]) && i < |h.turns| && ActsOn(h.states[i], h.turns[i])
    requires h.states[i].race.s.run.status == WaitingApproval
    requires forall d :: d in h.states[|h.turns|].calls ==> Over(h.states[|h.turns|].calls[d])
    ensures R.RunWritten(RaceOf(h), i, |h.turns|)
  {
    var n, d := |h.turns|, h.turns[i].call;
    assert Follows(h, i);
    ReadOfWaitingActs(h, i, n);
    HistoryKeepsInv(h, n);
    assert StageOk(h.states[n].race.s, d, h.states[n].calls[d]);
    R.TokenMovesIffWritten(RaceOf(h), i, n);
  }

  /** Whoever first writes a run that a request has put to wait acts on a read made since, or is another caller. */
  lemma FirstWriterHasRead(h: History, j: nat, k: nat, c: Call)
    requires Happens(h) && FrayInv(h.states[0]) && h.states[0].calls == map[] && j < k < |h.turns|
    requires R.WinsAt(RaceOf(h), j, c) && R.WritesAt(RaceOf(h), k) && !R.RunWritten(RaceOf(h), j + 1, k)
    ensures ReadAfter(h, j) || ForeignWriteAfter(h, j)
  {
    StillWaits(h, j, k, c);
    MovesOf(h, k);
    if h.turns[k].Act? {
      var i := ActingReadAt(h, h.turns[k].call, k);
      if i <= j { R.TokenMovesIffWritten(RaceOf(h), i, j); }
    } else {
      assert IsForeignWrite(h.turns[k]);
    }
  }

  lemma StillWaits(h: History, j: nat, k: nat, c: Call)
    requires Happens(h) && j < k <= |h.turns|
    requires R.WinsAt(RaceOf(h), j, c) && !R.RunWritten(RaceOf(h), j + 1, k)
    ensures h.states[k].race.s.run.status == WaitingApproval
    ensures h.states[k].race.s.run == h.states[j + 1].race.s.run
    ensures h.states[k].race.s.run.token == h.states[j].race.s.run.token + 1
  {
    MovesOf(h, j);
    R.UnwrittenIsKept(RaceOf(h), j + 1, k);
  }

  /** However settlements, requests and others interleave, once the settlements have ended: a run that a request has
      put to wait still waits, unwritten, exactly when no call acts on a read made since and no other caller has
      written it. */
  lemma WaitHoldsIffNotRead(h: History, j: nat, c: Call)
    requires Happens(h) && FrayInv(h.states[0]) && h.states[0].calls == map[] && j < |h.turns|
    requires R.WinsAt(RaceOf(h), j, c)
    requires forall d :: d in h.states[|h.turns|].calls ==> Over(h.states[|h.turns|].calls[d])
    ensures !R.RunWritten(RaceOf(h), j + 1, |h.turns|) <==> !ReadAfter(h, j) && !ForeignWriteAfter(h, j)
    ensures !R.RunWritten(RaceOf(h), j + 1, |h.turns|) ==>
              h.states[|h.turns|].race.s.run == h.states[j + 1].race.s.run
              && h.states[|h.turns|].race.s.run.status == WaitingApproval
  {
    var g, n := RaceOf(h), |h.turns|;
    if R.RunWritten(g, j + 1, n) {
      var k := R.FirstWrite(g, j + 1, n);
      FirstWriterHasRead(h, j, k, c);
    } else {
      StillWaits(h, j, n, c);
      if i :| j < i < n && ActsOn(h.states[i], h.turns[i]) {
        assert !R.RunWritten(g, j + 1, i);
        StillWaits(h, j, i, c);
        ReadMeansWritten(h, i);
      }
      if k :| j < k < n && IsForeignWrite(h.turns[k]) {
        MovesOf(h, k);
        assert R.WritesAt(g, k);
      }
    }
  }

  /** The callers other than requests and settlements neither write the run nor touch its approvals. */
  ghost predicate OnlyThese(h: History) {
    forall k :: 0 <= k < |h.turns| ==> h.turns[k].Around? && h.turns[k].m.Other? ==> Harmless(h.turns[k].m.steps)
  }

  predicate Harmless(steps: seq<Step>) {
    steps == [] || steps[0].action.Report? || steps[0].action.ReportOutcome? || steps[0].action.Remark?
  }

  /** A request wins its write. */
  ghost predicate WinAt(h: History, j: nat)
    requires Happens(h) && j < |h.turns|
  {
    h.turns[j].Around? && h.turns[j].m.Pause? && R.WinsAt(RaceOf(h), j, h.turns[j].m.call)
  }

  /** A request wins its write, and no settlement acts on a read made after it. */
  ghost predicate WinUnread(h: History)
    requires Happens(h)
  {
    exists j :: 0 <= j < |h.turns| && WinAt(h, j) && !ReadAfter(h, j)
  }

  /** The run waits for an approval, and none is pending. */
  ghost predicate Stranded(s: State) {
    s.run.status == WaitingApproval && PendingIds(s) == {}
  }

  /** Only a request makes the run wait. */
  lemma {:induction false} WaitingWasWon(h: History, n: nat) returns (j: nat)
    requires Happens(h) && OnlyThese(h) && n <= |h.turns|
    requires h.states[0].race.s.run.status == Running && h.states[n].race.s.run.status == WaitingApproval
    ensures j < n && WinAt(h, j) && !R.RunWritten(RaceOf(h), j + 1, n)
  {
    if R.WritesAt(RaceOf(h), n - 1) {
      j := n - 1;
      OnlyAWinMakesItWait(h, j);
    } else {
      R.NotWrittenNext(RaceOf(h), n - 1);
      j := WaitingWasWon(h, n - 1);
    }
  }

  lemma OnlyAWinMakesItWait(h: History, j: nat)
    requires Happens(h) && OnlyThese(h) && j < |h.turns| && R.WritesAt(RaceOf(h), j)
    requires h.states[j + 1].race.s.run.status == WaitingApproval
    ensures WinAt(h, j)
  {
    MovesOf(h, j);
  }

  lemma NobodyElseWrites(h: History, j: nat)
    requires Happens(h) && OnlyThese(h)
    ensures !ForeignWriteAfter(h, j)
  {
  }

  lemma NobodyElseAdds(h: History)
    requires Happens(h) && OnlyThese(h)
    ensures forall k :: 0 <= k < |h.turns| ==> !R.AddsForeign(RaceOf(h).moves[k])
  {
    forall k | 0 <= k < |h.turns| ensures !R.AddsForeign(RaceOf(h).moves[k]) {
      MovesOf(h, k);
    }
  }

  /** The run waits at the end exactly when some request's write was won and no settlement acts on a read after it. */
  lemma WaitsIffWinUnread(h: History)
    requires Happens(h) && Quiet(h.states[0]) && OnlyThese(h) && AllOver(h.states[|h.turns|])
    ensures h.states[|h.turns|].race.s.run.status == WaitingApproval <==> WinUnread(h)
  {
    var n := |h.turns|;
    if h.states[n].race.s.run.status == WaitingApproval {
      var j := WaitingWasWon(h, n);
      WaitHoldsIffNotRead(h, j, h.turns[j].m.call);
    }
    if j :| 0 <= j < n && WinAt(h, j) && !ReadAfter(h, j) {
      NobodyElseWrites(h, j);
      WaitHoldsIffNotRead(h, j, h.turns[j].m.call);
    }
  }

  /** Any number of requests, decisions, expiries and withdrawals, interleaved in any way, and nobody else: once all
      have ended, the run is left waiting with nothing pending exactly when every approval a request stored has been
      settled and some request's write was won with no settlement acting on a read of the run made after it. */
  lemma StrandedIff(h: History)
    requires Happens(h) && Quiet(h.states[0]) && OnlyThese(h) && AllOver(h.states[|h.turns|])
    ensures var f := h.states[|h.turns|];
            Stranded(f.race.s) <==>
              && WinUnread(h)
              && forall c :: c in R.Storers(f.race) ==>
                   !R.Unsettled(RaceOf(h), f.race.calls[c].order.id, 0, |h.turns|)
  {
    var n, g := |h.turns|, RaceOf(h);
    WaitsIffWinUnread(h);
    NobodyElseAdds(h);
    forall c | c in R.Storers(g.states[n])
      ensures g.states[n].calls[c].order.id in PendingIds(g.states[n].s)
         <==> R.Unsettled(g, g.states[n].calls[c].order.id, 0, n)
    {
      R.StoredPendingIff(g, c, n);
    }
    if id :| id in PendingIds(g.states[n].s) {
      var c := R.PendingWasStored(g, n, id);
    }
  }
}
