/** The Eval Run controller: a recoverable state machine that makes one durable move per leased task. */
module EvalRuns {
  import opened Outcomes
  import Child = RunStateMachine

  // ------------------------------------------------------------------ records

  datatype EvalStatus = Queued | Running | Cancelling | Cancelled | Passed | Failed

  datatype CaseStatus = CasePassed | CaseFailed | CaseError | CaseTimedOut | CaseCancelled

  /** A case of a dataset: its fixtures, the child statuses it accepts, and its timeout. */
  datatype Case = Case(id: string, inputFiles: seq<string>, accepts: set<Child.Status>, maxDuration: nat)

  datatype CaseResult = CaseResult(status: CaseStatus, passed: bool, completedAt: int)

  datatype EvalRun = EvalRun(
    status: EvalStatus,
    token: nat,
    nextCase: nat,
    activeCase: Option<string>,
    activeInputs: seq<string>,   // an uploaded file goes by the name of its fixture
    activeRun: Option<string>,
    startedAt: Option<int>,
    artifacts: bool)

  /** An Eval Run and the case results stored under it. */
  datatype Ledger = Ledger(run: EvalRun, results: map<string, CaseResult>)

  const NEW_RUN := Ledger(EvalRun(Queued, 0, 0, None, [], None, None, false), map[])

  /** What one reconcile meets: the clock, whether a collaborator raised, and the child run as it stands. */
  datatype Tick = Tick(now: int, fault: bool, childId: string, child: Child.Status, passes: bool)

  predicate Terminal(s: EvalStatus) {
    s in {Cancelled, Passed, Failed}
  }

  predicate TransitionAllowed(current: EvalStatus, target: EvalStatus) {
    match current
    case Queued => target == Running || target == Cancelling
    case Running => target == Cancelling || target == Passed || target == Failed
    case Cancelling => target == Cancelled
    case _ => false
  }

  // -------------------------------------------------------------------- moves

  /** `_replace`: every durable write raises the fencing token by one. */
  function Replaced(l: Ledger, run: EvalRun): Ledger {
    l.(run := run.(token := l.run.token + 1))
  }

  /** `add_case_result` refuses to change a stored result. */
  predicate Refused(l: Ledger, id: string, result: CaseResult) {
    id in l.results && l.results[id] != result
  }

  /** A refused result raises and leaves everything as it was. */
  function Completed(l: Ledger, id: string, result: CaseResult): Ledger {
    if Refused(l, id, result) then l
    else
      Replaced(l.(results := l.results[id := result]),
               l.run.(nextCase := l.run.nextCase + 1, activeCase := None, activeInputs := [],
                      activeRun := None, startedAt := None))
  }

  /** The result of a reconcile that caught an exception. */
  function ErrorAt(now: int): CaseResult {
    CaseResult(CaseError, false, now)
  }

  /** A verdict that is refused raises inside the `try`: the handler makes a second attempt with an error result. */
  function Attempted(l: Ledger, id: string, result: CaseResult, now: int): Ledger {
    Completed(l, id, if Refused(l, id, result) then ErrorAt(now) else result)
  }

  function AllPassed(results: map<string, CaseResult>): bool {
    results != map[] && forall id :: id in results ==> results[id].passed
  }

  function Finalized(l: Ledger): Ledger {
    var written := if l.run.artifacts then l else Replaced(l, l.run.(artifacts := true));
    Replaced(written, written.run.(status := if AllPassed(l.results) then Passed else Failed))
  }

  function CancelFinished(l: Ledger, now: int): Ledger {
    var closed :=
      if l.run.activeCase.Some? && l.run.activeCase.value !in l.results
      then l.(results := l.results[l.run.activeCase.value := CaseResult(CaseCancelled, false, now)])
      else l;
    var written := if closed.run.artifacts then closed else Replaced(closed, closed.run.(artifacts := true));
    Replaced(written, written.run.(status := Cancelled))
  }

  /** The step of a running Eval Run on the case its durable index names. */
  function CaseStep(l: Ledger, case_: Case, t: Tick): Ledger {
    var failed := Completed(l, case_.id, ErrorAt(t.now));
    if t.fault then failed
    else if l.run.activeCase.None? then
      Replaced(l, l.run.(activeCase := Some(case_.id), startedAt := Some(t.now)))
    else if l.run.activeCase.value != case_.id then failed
    else if l.run.activeInputs == [] && case_.inputFiles != [] then
      Replaced(l, l.run.(activeInputs := case_.inputFiles))
    else if l.run.activeRun.None? then
      Replaced(l, l.run.(activeRun := Some(t.childId)))
    else if !Child.Terminal(t.child) && t.child !in case_.accepts then
      if l.run.startedAt.None? then failed
      else if t.now - l.run.startedAt.value > case_.maxDuration
      then Attempted(l, case_.id, CaseResult(CaseTimedOut, false, t.now), t.now)
      else l
    else Attempted(l, case_.id, CaseResult(if t.passes then CasePassed else CaseFailed, t.passes, t.now), t.now)
  }

  function Reconciled(cases: seq<Case>, l: Ledger, t: Tick): Ledger {
    match l.run.status
    case Queued => Replaced(l, l.run.(status := Running))
    case Running =>
      if l.run.nextCase >= |cases| then if t.fault then l else Finalized(l)
      else CaseStep(l, cases[l.run.nextCase], t)
    case Cancelling => if t.fault then l else CancelFinished(l, t.now)
    case _ => l
  }

  /** `cancel_run` of the control plane. */
  function CancelRequested(l: Ledger): Ledger {
    if Terminal(l.run.status) || l.run.status == Cancelling then l
    else Replaced(l, l.run.(status := Cancelling))
  }

  datatype Move = Reconcile(tick: Tick) | RequestCancel

  function After(cases: seq<Case>, l: Ledger, m: Move): Ledger {
    match m
    case Reconcile(t) => Reconciled(cases, l, t)
    case RequestCancel => CancelRequested(l)
  }

  /** Any number of moves from a ledger on. */
  function AfterAll(cases: seq<Case>, l: Ledger, moves: seq<Move>): Ledger {
    if moves == [] then l else After(cases, AfterAll(cases, l, moves[..|moves| - 1]), moves[|moves| - 1])
  }

  function History(cases: seq<Case>, moves: seq<Move>): Ledger {
    if moves == [] then NEW_RUN
    else After(cases, History(cases, moves[..|moves| - 1]), moves[|moves| - 1])
  }

  // ---------------------------------------------------------------- invariant

  function Ids(cases: seq<Case>): set<string> {
    set c | c in cases :: c.id
  }

  /** The active fields describe the case the durable index names, or nothing. */
  ghost predicate ActiveMatchesIndex(cases: seq<Case>, r: EvalRun) {
    && r.nextCase <= |cases|
    && (r.activeCase.Some? ==> r.nextCase < |cases| && r.activeCase.value == cases[r.nextCase].id)
    && (r.startedAt.Some? <==> r.activeCase.Some?)
    && (r.activeCase.None? ==> r.activeInputs == [] && r.activeRun.None?)
    && (r.activeInputs != [] ==> r.activeInputs == cases[r.nextCase].inputFiles)
    && (r.activeRun.Some? ==> r.activeInputs != [] || cases[r.nextCase].inputFiles == [])
  }

  /** While live, the stored results are exactly one per case before the index; a verdict is over all cases. */
  ghost predicate LedgerInv(cases: seq<Case>, l: Ledger) {
    && ActiveMatchesIndex(cases, l.run)
    && match l.run.status
       case Queued => l.run.nextCase == 0 && l.run.activeCase.None? && l.results == map[] && !l.run.artifacts
       case Running => l.results.Keys == Ids(cases[..l.run.nextCase]) && !l.run.artifacts
       case Cancelling => l.results.Keys == Ids(cases[..l.run.nextCase]) && !l.run.artifacts
       case Cancelled =>
         l.results.Keys == Ids(cases[..l.run.nextCase])
                         + if l.run.activeCase.Some? then {l.run.activeCase.value} else {}
       case Passed => l.results.Keys == Ids(cases) && AllPassed(l.results)
       case Failed => l.results.Keys == Ids(cases) && !AllPassed(l.results)
  }

  lemma ReconcileKeepsInv(cases: seq<Case>, l: Ledger, t: Tick)
    requires LedgerInv(cases, l)
    ensures LedgerInv(cases, Reconciled(cases, l, t))
  {
    if l.run.status == Running {
      if l.run.nextCase < |cases| {
      } else {
        assert cases[..l.run.nextCase] == cases;
      }
    } else if l.run.status == Queued {
      assert Ids(cases[..0]) == {};
    }
  }

  /** Whatever the reconciles meet and whenever cancellation is requested, the ledger stays consistent. */
  lemma {:induction false} EveryHistoryKeepsInv(cases: seq<Case>, moves: seq<Move>)
    ensures LedgerInv(cases, History(cases, moves))
  {
    if moves != [] {
      EveryHistoryKeepsInv(cases, moves[..|moves| - 1]);
      var l := History(cases, moves[..|moves| - 1]);
      match moves[|moves| - 1]
      case Reconcile(t) => ReconcileKeepsInv(cases, l, t);
      case RequestCancel => assert Ids(cases[..0]) == {};
    }
  }

  lemma MoveFollowsTable(cases: seq<Case>, l: Ledger, m: Move)
    ensures var before, after := l.run, After(cases, l, m).run;
            && (after.status == before.status || TransitionAllowed(before.status, after.status))
            && before.token <= after.token <= before.token + 2
            && (after.token == before.token ==> after == before)
            && (Terminal(before.status) ==> after == before)
  {
  }

  /** The token tells two moments of a run apart. */
  lemma {:induction false} SameTokenSameRun(cases: seq<Case>, l: Ledger, moves: seq<Move>)
    ensures l.run.token <= AfterAll(cases, l, moves).run.token
    ensures l.run.token == AfterAll(cases, l, moves).run.token ==> AfterAll(cases, l, moves).run == l.run
  {
    if moves != [] {
      SameTokenSameRun(cases, l, moves[..|moves| - 1]);
      MoveFollowsTable(cases, AfterAll(cases, l, moves[..|moves| - 1]), moves[|moves| - 1]);
    }
  }

  /** Every status a history goes through follows from the one before by the transition table, and each move
      raises the fencing token by the number of its writes. */
  lemma EveryMoveIsInTheTable(cases: seq<Case>, moves: seq<Move>, m: Move)
    ensures var before, after := History(cases, moves).run, History(cases, moves + [m]).run;
            && (after.status == before.status || TransitionAllowed(before.status, after.status))
            && before.token <= after.token <= before.token + 2
            && (after.token == before.token ==> after == before)
            && (Terminal(before.status) ==> after == before)
  {
    assert (moves + [m])[..|moves|] == moves;
    MoveFollowsTable(cases, History(cases, moves), m);
  }

  /** A passed Eval Run has a stored passing result for every case of its dataset. */
  lemma {:induction false} PassedMeansEveryCasePassed(cases: seq<Case>, moves: seq<Move>)
    ensures History(cases, moves).run.status == Passed ==>
              forall c :: c in cases ==> && c.id in History(cases, moves).results
                                         && History(cases, moves).results[c.id].passed
  {
    EveryHistoryKeepsInv(cases, moves);
    var l := History(cases, moves);
    forall c | c in cases && l.run.status == Passed ensures c.id in l.results {
      assert c.id in Ids(cases);
    }
  }

  /** The mismatch between the active case and the durable index that the controller guards against never occurs. */
  lemma ActiveCaseAlwaysMatches(cases: seq<Case>, moves: seq<Move>)
    ensures var r := History(cases, moves).run;
            r.activeCase.Some? ==>
              r.nextCase < |cases| && r.activeCase.value == cases[r.nextCase].id && r.startedAt.Some?
  {
    EveryHistoryKeepsInv(cases, moves);
  }

  // -------------------------------------------------- what a stored result says

  /** The reconcile runs the case that the durable index names. */
  predicate Runs(cases: seq<Case>, l: Ledger, id: string) {
    l.run.status == Running && l.run.nextCase < |cases| && cases[l.run.nextCase].id == id
  }

  /** The child run has ended, or waits in a status the case accepts. */
  predicate Judges(case_: Case, l: Ledger, t: Tick) {
    !t.fault && l.run.activeRun.Some? && (Child.Terminal(t.child) || t.child in case_.accepts)
  }

  /** The child run is still going, past the case's timeout. */
  predicate Overruns(case_: Case, l: Ledger, t: Tick) {
    && !t.fault && l.run.activeRun.Some? && !Child.Terminal(t.child) && t.child !in case_.accepts
    && l.run.startedAt.Some? && t.now > l.run.startedAt.value + case_.maxDuration
  }

  /** The result says what the reconcile that stored it met: it passes exactly when the child run was judged and passed,
      and a fault, a timeout or a cancellation never passes. */
  predicate Says(cases: seq<Case>, l: Ledger, id: string, t: Tick, result: CaseResult) {
    && result.completedAt == t.now && (result.passed <==> result.status == CasePassed)
    && if l.run.status == Cancelling then result.status == CaseCancelled && l.run.activeCase == Some(id)
       else
         && Runs(cases, l, id)
         && var case_ := cases[l.run.nextCase];
            && (result.status == CasePassed <==> Judges(case_, l, t) && t.passes)
            && (result.status == CaseFailed <==> Judges(case_, l, t) && !t.passes)
            && (result.status == CaseTimedOut <==> Overruns(case_, l, t))
            && (result.status == CaseError <==> t.fault)
            && result.status != CaseCancelled
  }

  /** The k-th move stored the first, and only, result under this id. */
  ghost predicate StoredAt(cases: seq<Case>, moves: seq<Move>, k: nat, id: string)
    requires k < |moves|
  {
    && id !in History(cases, moves[..k]).results && id in History(cases, moves[..k + 1]).results
    && moves[k].Reconcile?
    && Says(cases, History(cases, moves[..k]), id, moves[k].tick, History(cases, moves[..k + 1]).results[id])
  }

  lemma NextHistory(cases: seq<Case>, moves: seq<Move>, k: nat)
    requires k < |moves|
    ensures History(cases, moves[..k + 1]) == After(cases, History(cases, moves[..k]), moves[k])
  {
    assert moves[..k + 1][..k] == moves[..k];
  }

  /** A move keeps the stored results, and a new one says what the move met. */
  lemma MoveStores(cases: seq<Case>, l: Ledger, m: Move, id: string)
    requires LedgerInv(cases, l) && id in After(cases, l, m).results
    ensures id in l.results ==> After(cases, l, m).results[id] == l.results[id]
    ensures id !in l.results ==> m.Reconcile? && Says(cases, l, id, m.tick, After(cases, l, m).results[id])
  {
  }

  /** Every stored result was stored by one reconcile, stays, and says what that reconcile met. */
  lemma {:induction false} ResultsSayWhatWasMet(cases: seq<Case>, moves: seq<Move>, n: nat, id: string) returns (k: nat)
    requires n <= |moves| && id in History(cases, moves[..n]).results
    ensures k < n && StoredAt(cases, moves, k, id)
    ensures History(cases, moves[..n]).results[id] == History(cases, moves[..k + 1]).results[id]
  {
    assert n > 0;
    NextHistory(cases, moves, n - 1);
    EveryHistoryKeepsInv(cases, moves[..n - 1]);
    MoveStores(cases, History(cases, moves[..n - 1]), moves[n - 1], id);
    if id in History(cases, moves[..n - 1]).results {
      k := ResultsSayWhatWasMet(cases, moves, n - 1, id);
    } else {
      k := n - 1;
    }
  }

  /** The k-th move met the case's child run ended or accepted, and it passes. */
  ghost predicate SeenPassing(cases: seq<Case>, moves: seq<Move>, k: nat, id: string)
    requires k < |moves|
  {
    var l := History(cases, moves[..k]);
    && moves[k].Reconcile? && Runs(cases, l, id) && Judges(cases[l.run.nextCase], l, moves[k].tick)
    && moves[k].tick.passes
  }

  ghost predicate EverSeenPassing(cases: seq<Case>, moves: seq<Move>, id: string) {
    exists k :: 0 <= k < |moves| && SeenPassing(cases, moves, k, id)
  }

  /** With distinct ids, a case has a passing result exactly when some reconcile met its child run passing. */
  lemma PassedIffSeenPassing(cases: seq<Case>, moves: seq<Move>, id: string)
    requires DistinctIds(cases)
    ensures id in History(cases, moves).results && History(cases, moves).results[id].passed
       <==> EverSeenPassing(cases, moves, id)
  {
    assert moves[..|moves|] == moves;
    if id in History(cases, moves).results && History(cases, moves).results[id].passed {
      var k := PassedWasSeen(cases, moves, id);
    }
    if k :| 0 <= k < |moves| && SeenPassing(cases, moves, k, id) {
      SeenPassingIsStored(cases, moves, k, id);
      ResultStays(cases, moves, k + 1, |moves|, id, History(cases, moves[..k + 1]).results[id]);
    }
  }

  /** A passing result was stored by a reconcile that met the child run of a case with this id passing. */
  lemma PassedWasSeen(cases: seq<Case>, moves: seq<Move>, id: string) returns (k: nat)
    requires id in History(cases, moves).results && History(cases, moves).results[id].passed
    ensures k < |moves| && SeenPassing(cases, moves, k, id)
  {
    assert moves[..|moves|] == moves;
    k := ResultsSayWhatWasMet(cases, moves, |moves|, id);
  }

  lemma SeenPassingIsStored(cases: seq<Case>, moves: seq<Move>, k: nat, id: string)
    requires DistinctIds(cases) && k < |moves| && SeenPassing(cases, moves, k, id)
    ensures id in History(cases, moves[..k + 1]).results && History(cases, moves[..k + 1]).results[id].passed
  {
    NextHistory(cases, moves, k);
    EveryHistoryKeepsInv(cases, moves[..k]);
    PassingIsStored(cases, History(cases, moves[..k]), moves[k].tick, id);
  }

  lemma PassingIsStored(cases: seq<Case>, l: Ledger, t: Tick, id: string)
    requires DistinctIds(cases) && LedgerInv(cases, l) && Runs(cases, l, id)
    requires Judges(cases[l.run.nextCase], l, t) && t.passes
    ensures id in Reconciled(cases, l, t).results && Reconciled(cases, l, t).results[id].passed
  {
    assert id !in Ids(cases[..l.run.nextCase]);
  }

  /** After the first `n` moves this is the stored result. */
  ghost predicate Holds(cases: seq<Case>, moves: seq<Move>, n: nat, id: string, result: CaseResult)
    requires n <= |moves|
  {
    id in History(cases, moves[..n]).results && History(cases, moves[..n]).results[id] == result
  }

  lemma {:induction false} ResultStays(
    cases: seq<Case>, moves: seq<Move>, m: nat, n: nat, id: string, result: CaseResult)
    requires m <= n <= |moves| && Holds(cases, moves, m, id, result)
    ensures Holds(cases, moves, n, id, result)
    decreases n - m
  {
    if m < n {
      HoldsNext(cases, moves, m, id, result);
      ResultStays(cases, moves, m + 1, n, id, result);
    }
  }

  lemma HoldsNext(cases: seq<Case>, moves: seq<Move>, n: nat, id: string, result: CaseResult)
    requires n < |moves| && Holds(cases, moves, n, id, result)
    ensures Holds(cases, moves, n + 1, id, result)
  {
    NextHistory(cases, moves, n);
    EveryHistoryKeepsInv(cases, moves[..n]);
    ResultsAreKept(cases, History(cases, moves[..n]), moves[n], id);
  }

  lemma ResultsAreKept(cases: seq<Case>, l: Ledger, m: Move, id: string)
    requires LedgerInv(cases, l) && id in l.results
    ensures id in After(cases, l, m).results && After(cases, l, m).results[id] == l.results[id]
  {
  }

  /** The ledger is where some history of an Eval Run over these cases ends. */
  ghost predicate Recorded(cases: seq<Case>, l: Ledger) {
    exists moves :: l == History(cases, moves)
  }

  lemma NewRunIsRecorded(cases: seq<Case>)
    ensures Recorded(cases, NEW_RUN)
  {
    assert History(cases, []) == NEW_RUN;
  }

  lemma MoveIsRecorded(cases: seq<Case>, l: Ledger, m: Move)
    requires Recorded(cases, l)
    ensures Recorded(cases, After(cases, l, m))
  {
    var moves :| l == History(cases, moves);
    assert (moves + [m])[..|moves|] == moves;
    assert History(cases, moves + [m]) == After(cases, l, m);
  }

  /** Every case has a stored passing result, and in the history of the run a reconcile met its child run passing. */
  ghost predicate Vindicated(cases: seq<Case>, l: Ledger) {
    exists moves :: l == History(cases, moves) && forall c :: c in cases ==>
      c.id in l.results && l.results[c.id].passed && EverSeenPassing(cases, moves, c.id)
  }

  lemma PassedIsVindicated(cases: seq<Case>, l: Ledger)
    requires Recorded(cases, l) && l.run.status == Passed
    ensures Vindicated(cases, l)
  {
    var moves :| l == History(cases, moves);
    PassedMeansEveryCasePassed(cases, moves);
    forall c | c in cases ensures EverSeenPassing(cases, moves, c.id) {
      var k := PassedWasSeen(cases, moves, c.id);
    }
  }

  /** A verdict is over every case: the run passes exactly when it has cases and each has a stored passing result. */
  lemma VerdictIff(cases: seq<Case>, moves: seq<Move>)
    requires History(cases, moves).run.status in {Passed, Failed}
    ensures forall c :: c in cases ==> c.id in History(cases, moves).results
    ensures History(cases, moves).run.status == Passed <==>
              cases != [] && forall c :: c in cases ==> History(cases, moves).results[c.id].passed
  {
    EveryHistoryKeepsInv(cases, moves);
    var l := History(cases, moves);
    forall c | c in cases ensures c.id in l.results {
      assert c.id in Ids(cases);
    }
    if cases != [] { assert cases[0].id in Ids(cases); }
    forall id | id in l.results ensures exists c :: c in cases && c.id == id {
      assert id in Ids(cases);
    }
  }

  // -------------------------------------------------------------- termination

  /** How many more durable moves the run can make: four per case, one to start, one to finish. */
  function Remaining(cases: seq<Case>, r: EvalRun): nat {
    match r.status
    case Queued => 4 * |cases| + 2
    case Running =>
      if r.nextCase >= |cases| then 1
      else
        4 * (|cases| - r.nextCase - 1) + 1
        + if r.activeCase.None? then 4
          else if r.activeRun.Some? then 1
          else if r.activeInputs == [] && cases[r.nextCase].inputFiles != [] then 3
          else 2
    case Cancelling => 1
    case _ => 0
  }

  lemma ReconcileUsesAMove(cases: seq<Case>, l: Ledger, t: Tick)
    requires LedgerInv(cases, l)
    ensures Reconciled(cases, l, t) == l || Remaining(cases, Reconciled(cases, l, t).run) < Remaining(cases, l.run)
  {
  }

  function Changes(cases: seq<Case>, moves: seq<Move>): nat {
    if moves == [] then 0
    else
      var front := moves[..|moves| - 1];
      Changes(cases, front)
      + if moves[|moves| - 1].Reconcile? && History(cases, moves) != History(cases, front) then 1 else 0
  }

  /** An Eval Run over n cases makes at most 4n+2 state-changing reconciles, whatever happens around it. */
  lemma {:induction false} AtMostFourMovesPerCase(cases: seq<Case>, moves: seq<Move>)
    ensures Changes(cases, moves) + Remaining(cases, History(cases, moves).run) <= 4 * |cases| + 2
  {
    if moves != [] {
      var front := moves[..|moves| - 1];
      AtMostFourMovesPerCase(cases, front);
      EveryHistoryKeepsInv(cases, front);
      match moves[|moves| - 1]
      case Reconcile(t) => ReconcileUsesAMove(cases, History(cases, front), t);
      case RequestCancel =>
    }
  }

  /** A reconcile that meets no fault and changes nothing is a poll of a child within its case's timeout,
      or cannot store a second result under a case id already used. */
  lemma OnlyPollsChangeNothing(cases: seq<Case>, l: Ledger, t: Tick)
    requires LedgerInv(cases, l) && !Terminal(l.run.status) && !t.fault
    requires Reconciled(cases, l, t) == l
    ensures l.run.status == Running && l.run.nextCase < |cases| && l.run.startedAt.Some? && l.run.activeRun.Some?
    ensures t.now - l.run.startedAt.value <= cases[l.run.nextCase].maxDuration
            || cases[l.run.nextCase].id in l.results
  {
  }

  ghost predicate DistinctIds(cases: seq<Case>) {
    forall i, j :: 0 <= i < j < |cases| ==> cases[i].id != cases[j].id
  }

  /** When the last reconcile happened. */
  function Clock(moves: seq<Move>, start: int): int {
    if moves == [] then start
    else match moves[|moves| - 1]
      case Reconcile(t) => t.now
      case RequestCancel => Clock(moves[..|moves| - 1], start)
  }

  /** A failing collaborator of a running case fails that case; elsewhere it makes the reconcile raise and retry. */
  predicate FaultCounts(cases: seq<Case>, l: Ledger) {
    l.run.status == Running && l.run.nextCase < |cases|
  }

  /** Reconciles are spaced in time, and collaborators fail only where that becomes a case result. */
  ghost predicate Fair(cases: seq<Case>, moves: seq<Move>, start: int) {
    moves == [] ||
    var front := moves[..|moves| - 1];
    Fair(cases, front, start)
    && match moves[|moves| - 1]
       case Reconcile(t) =>
         t.now > Clock(front, start) && (t.fault ==> FaultCounts(cases, History(cases, front)))
       case RequestCancel => true
  }

  /** An upper bound on the reconciles left at time `now`, when no case may run longer than `limit`. */
  ghost function Budget(cases: seq<Case>, l: Ledger, limit: nat, now: int): int {
    Remaining(cases, l.run) * (limit + 2)
    + match l.run.startedAt
      case None => limit + 1
      case Some(s) => if now - s > limit + 1 then 0 else limit + 1 - (now - s)
  }

  lemma ReconcileSpendsBudget(cases: seq<Case>, l: Ledger, t: Tick, limit: nat, before: int)
    requires LedgerInv(cases, l) && DistinctIds(cases) && !Terminal(l.run.status)
    requires t.fault ==> FaultCounts(cases, l)
    requires forall c :: c in cases ==> c.maxDuration <= limit
    requires before < t.now && (l.run.startedAt.Some? ==> l.run.startedAt.value <= before)
    ensures Budget(cases, Reconciled(cases, l, t), limit, t.now) < Budget(cases, l, limit, before)
    ensures var s := Reconciled(cases, l, t).run.startedAt; s.Some? ==> s.value <= t.now
  {
    var k := Reconciled(cases, l, t);
    if FaultCounts(cases, l) { }
    if k == l {
      OnlyPollsChangeNothing(cases, l, t);
      assert cases[l.run.nextCase] in cases;
    } else {
      ReconcileUsesAMove(cases, l, t);
      OneMoveIsWorth(Remaining(cases, k.run), Remaining(cases, l.run), limit);
    }
  }

  lemma OneMoveIsWorth(fewer: nat, more: nat, limit: nat)
    requires fewer < more
    ensures fewer * (limit + 2) + limit + 2 <= more * (limit + 2)
  {
    assert (fewer + 1) * (limit + 2) <= more * (limit + 2);
  }

  function Reconciles(moves: seq<Move>): nat {
    if moves == [] then 0
    else Reconciles(moves[..|moves| - 1]) + if moves[|moves| - 1].Reconcile? then 1 else 0
  }

  lemma CancelSavesBudget(cases: seq<Case>, l: Ledger, limit: nat, now: int)
    requires LedgerInv(cases, l)
    ensures Budget(cases, CancelRequested(l), limit, now) <= Budget(cases, l, limit, now)
  {
    if CancelRequested(l) != l && Remaining(cases, l.run) > 1 {
      OneMoveIsWorth(1, Remaining(cases, l.run), limit);
    }
  }

  lemma {:induction false} BudgetRunsDown(cases: seq<Case>, moves: seq<Move>, limit: nat, start: int)
    requires DistinctIds(cases) && Fair(cases, moves, start)
    requires forall c :: c in cases ==> c.maxDuration <= limit
    ensures var l := History(cases, moves);
            && (l.run.startedAt.Some? ==> l.run.startedAt.value <= Clock(moves, start))
            && (Terminal(l.run.status)
                || Reconciles(moves) + Budget(cases, l, limit, Clock(moves, start))
                   <= Budget(cases, NEW_RUN, limit, start))
  {
    if moves != [] {
      var front := moves[..|moves| - 1];
      BudgetRunsDown(cases, front, limit, start);
      EveryHistoryKeepsInv(cases, front);
      var l := History(cases, front);
      match moves[|moves| - 1]
      case Reconcile(t) =>
        if !Terminal(l.run.status) { ReconcileSpendsBudget(cases, l, t, limit, Clock(front, start)); }
      case RequestCancel => CancelSavesBudget(cases, l, limit, Clock(front, start));
    }
  }

  /** With distinct case ids, an Eval Run is terminal after boundedly many reconciles: polling is bounded by
      the longest case timeout, and each of the 4n+2 moves is polled for at most that long. */
  lemma {:induction false} EveryEvalRunEnds(cases: seq<Case>, moves: seq<Move>, limit: nat, start: int)
    requires DistinctIds(cases) && Fair(cases, moves, start)
    requires forall c :: c in cases ==> c.maxDuration <= limit
    requires Reconciles(moves) > (4 * |cases| + 3) * (limit + 2)
    ensures Terminal(History(cases, moves).run.status)
  {
    BudgetRunsDown(cases, moves, limit, start);
    BudgetIsNatural(cases, History(cases, moves), limit, Clock(moves, start));
    NewRunBudget(cases, limit, start);
  }

  lemma BudgetIsNatural(cases: seq<Case>, l: Ledger, limit: nat, now: int)
    requires l.run.startedAt.Some? ==> l.run.startedAt.value <= now
    ensures Budget(cases, l, limit, now) >= 0
  {
  }

  lemma NewRunBudget(cases: seq<Case>, limit: nat, now: int)
    ensures Budget(cases, NEW_RUN, limit, now) < (4 * |cases| + 3) * (limit + 2)
  {
    OneMoveIsWorth(4 * |cases| + 2, 4 * |cases| + 3, limit);
  }

  // ------------------------------------------------- duplicate case ids block

  /** Time passes between reconciles, and nobody cancels. */
  ghost predicate Undisturbed(moves: seq<Move>, start: int) {
    moves == [] ||
    var front := moves[..|moves| - 1];
    Undisturbed(front, start) && moves[|moves| - 1].Reconcile? && moves[|moves| - 1].tick.now > Clock(front, start)
  }

  lemma {:induction false} ResultsAreInThePast(cases: seq<Case>, moves: seq<Move>, start: int)
    requires Undisturbed(moves, start)
    ensures forall id :: id in History(cases, moves).results ==>
              History(cases, moves).results[id].completedAt <= Clock(moves, start)
  {
    if moves != [] {
      ResultsAreInThePast(cases, moves[..|moves| - 1], start);
    }
  }

  /** A case id used twice: the second result is refused for ever, so an undisturbed run never ends. */
  lemma {:induction false} DuplicateIdNeverEnds(cases: seq<Case>, moves: seq<Move>, start: int, i: nat, j: nat)
    requires i < j < |cases| && cases[i].id == cases[j].id
    requires Undisturbed(moves, start)
    ensures History(cases, moves).run.status in {Queued, Running} && History(cases, moves).run.nextCase <= j
  {
    if moves != [] {
      var front := moves[..|moves| - 1];
      DuplicateIdNeverEnds(cases, front, start, i, j);
      EveryHistoryKeepsInv(cases, front);
      ResultsAreInThePast(cases, front, start);
      var l := History(cases, front);
      if l.run.status == Running && l.run.nextCase == j {
        assert cases[i] in cases[..j];
        assert cases[j].id in Ids(cases[..j]);
      }
    }
  }

  // --------------------------------------------------------------- controller

  datatype CasResult = Won | Lost | TokenConflict

  /** The controller over the in-memory repository, for one Eval Run. */
  class EvalController {
    const cases: seq<Case>
    var run: EvalRun
    var results: map<string, CaseResult>

    constructor (cases: seq<Case>)
      ensures this.cases == cases && L() == NEW_RUN
    {
      this.cases := cases;
      run, results := NEW_RUN.run, map[];
    }

    ghost function L(): Ledger
      reads this
    {
      Ledger(run, results)
    }

    /** The repository's compare-and-set: the status must match and the token must grow by one. */
    method CompareAndSet(expected: EvalStatus, updated: EvalRun) returns (r: CasResult)
      modifies this
      ensures r == Won <==> old(run).status == expected && updated.token == old(run).token + 1
      ensures r == TokenConflict <==> old(run).status == expected && updated.token != old(run).token + 1
      ensures L() == if r == Won then old(L()).(run := updated) else old(L())
    {
      if run.status != expected {
        return Lost;
      }
      if updated.token != run.token + 1 {
        return TokenConflict;
      }
      run := updated;
      r := Won;
    }

    method AddCaseResult(id: string, result: CaseResult) returns (ok: bool)
      modifies this
      ensures ok <==> id !in old(results) || old(results)[id] == result
      ensures L() == if ok then old(L()).(results := old(results)[id := result]) else old(L())
    {
      if id in results && results[id] != result {
        return false;
      }
      results := results[id := result];
      ok := true;
    }

    /** `_replace`. Within one reconcile nobody else writes, so the compare-and-set cannot be lost. */
    method Replace(updated: EvalRun)
      modifies this
      ensures L() == Replaced(old(L()), updated)
    {
      var current := run;
      var r := CompareAndSet(current.status, updated.(token := current.token + 1));
      assert r == Won;
    }

    method CompleteCase(id: string, result: CaseResult) returns (ok: bool)
      modifies this
      ensures L() == Completed(old(L()), id, result)
      ensures ok <==> id !in old(results) || old(results)[id] == result
    {
      ok := AddCaseResult(id, result);
      if ok {
        Replace(run.(nextCase := run.nextCase + 1, activeCase := None, activeInputs := [],
                     activeRun := None, startedAt := None));
      }
    }

    /** Store the verdict on a case or, when that raises, an error result. */
    method AttemptCase(id: string, result: CaseResult, now: int) returns (ok: bool)
      modifies this
      ensures L() == Attempted(old(L()), id, result, now)
      ensures !ok ==> L() == old(L())
    {
      ok := CompleteCase(id, result);
      if !ok {
        ok := CompleteCase(id, ErrorAt(now));
      }
    }

    method WriteArtifacts()
      modifies this
      ensures L() == if old(run).artifacts then old(L()) else Replaced(old(L()), old(run).(artifacts := true))
    {
      if !run.artifacts {
        Replace(run.(artifacts := true));
      }
    }

    /** Advance by at most one durable move. `ok` is false when the call raised, leaving everything as it was. */
    method Reconcile(t: Tick) returns (ok: bool)
      modifies this
      ensures L() == Reconciled(cases, old(L()), t)
      ensures !ok ==> L() == old(L())
    {
      ok := true;
      if Terminal(run.status) {
        return;
      }
      if run.status == Cancelling {
        if t.fault {
          return false;
        }
        Cancel(t.now);
        return;
      }
      if run.status == Queued {
        Replace(run.(status := Running));
        return;
      }
      if run.nextCase >= |cases| {
        if t.fault {
          return false;
        }
        Finalize();
        return;
      }
      ok := ReconcileCase(cases[run.nextCase], t);
    }

    method ReconcileCase(case_: Case, t: Tick) returns (ok: bool)
      modifies this
      ensures L() == CaseStep(old(L()), case_, t)
      ensures !ok ==> L() == old(L())
    {
      ok := true;
      if t.fault {
        ok := CompleteCase(case_.id, ErrorAt(t.now));
      } else if run.activeCase.None? {
        Replace(run.(activeCase := Some(case_.id), startedAt := Some(t.now)));
      } else if run.activeCase.value != case_.id {
        ok := CompleteCase(case_.id, ErrorAt(t.now));
      } else if run.activeInputs == [] && case_.inputFiles != [] {
        Replace(run.(activeInputs := case_.inputFiles));
      } else if run.activeRun.None? {
        Replace(run.(activeRun := Some(t.childId)));
      } else if !Child.Terminal(t.child) && t.child !in case_.accepts {
        if run.startedAt.None? {
          ok := CompleteCase(case_.id, ErrorAt(t.now));
        } else if t.now - run.startedAt.value > case_.maxDuration {
          ok := AttemptCase(case_.id, CaseResult(CaseTimedOut, false, t.now), t.now);
        }
      } else {
        ok := AttemptCase(case_.id, CaseResult(if t.passes then CasePassed else CaseFailed, t.passes, t.now), t.now);
      }
    }

    method Finalize()
      requires run.status == Running
      modifies this
      ensures L() == Finalized(old(L()))
    {
      var passed := results != map[] && forall id :: id in results ==> results[id].passed;
      WriteArtifacts();
      Replace(run.(status := if passed then Passed else Failed));
    }

    method Cancel(now: int)
      requires run.status == Cancelling
      modifies this
      ensures L() == CancelFinished(old(L()), now)
    {
      if run.activeCase.Some? && run.activeCase.value !in results {
        var _ := AddCaseResult(run.activeCase.value, CaseResult(CaseCancelled, false, now));
      }
      WriteArtifacts();
      Replace(run.(status := Cancelled));
    }

    /** Other callers make any moves. */
    method Interfere() returns (ghost others: seq<Move>)
      modifies this
      ensures L() == AfterAll(cases, old(L()), others)
    {
      others := [];
    }

    /** `cancel_run`. Others move between its read and its write: it raises exactly when it had to write and one of them
        wrote first, and it offers the run to the queue unless it returns a run that has ended. */
    method CancelRun() returns (r: Option<EvalRun>, offered: bool, ghost others: seq<Move>)
      modifies this
      ensures var between := AfterAll(cases, old(L()), others);
              var idle := Terminal(old(run).status) || old(run).status == Cancelling;
              && (r == None <==> !idle && between.run.token != old(run).token)
              && L() == (if idle || r == None then between else CancelRequested(between))
              && (!idle && r.Some? ==> run == between.run.(status := Cancelling, token := between.run.token + 1))
              && (r.Some? ==> r.value == if idle then old(run) else run)
              && (offered <==> r.Some? && !Terminal(r.value.status))
    {
      var current := run;
      others := Interfere();
      SameTokenSameRun(cases, old(L()), others);
      if !Terminal(current.status) && current.status != Cancelling {
        var updated := current.(status := Cancelling, token := current.token + 1);
        var won := CompareAndSet(current.status, updated);
        if won != Won {
          return None, false, others;
        }
        current := updated;
      }
      r, offered := Some(current), !Terminal(current.status);
    }
  }
}
