/** Requests for approval, repository call by repository call: what interleaved requests leave behind,
    and exactly when they keep the promise that a waiting run has one pending approval. */
module RequestRaces {
  import opened RunStateMachine
  import opened RunProtocol
  import opened RunCalls

  // ------------------------------------------------------------------ machine

  /** What a request asks for, under the approval id it has drawn. */
  datatype Order = Order(id: string, toolCall: string, inline: bool, expiresAt: int)

  /** How far a request has come, with the run record it read. */
  datatype Phase =
    | Unasked(order: Order)                // the look-up found nothing for the tool call
    | Ready(order: Order, read: Run)       // the record it read was running
    | Added(order: Order, read: Run)       // the approval is stored
    | Announced(order: Order, read: Run)   // and its event appended
    | Paused(order: Order, read: Run)      // the run's write was won and has yet to be reported
    | Done(order: Order, read: Run)        // returned
    | Lost(order: Order, read: Run)        // raised, because the run's write was lost
    | Found                                // returned the approval already stored for the tool call
    | Denied                               // raised before storing anything

  datatype Race = Race(s: State, calls: map<Call, Phase>)

  /** One repository call of a request, or of a caller that is not a request: a step, or a read. */
  datatype Move =
    | Look(call: Call, order: Order)
    | ReadRun(call: Call)
    | Add(call: Call)
    | Announce(call: Call)
    | Pause(call: Call)
    | Confirm(call: Call)
    | Other(steps: seq<Step>)

  predicate HasRead(p: Phase) {
    p.Ready? || HasStored(p)
  }

  predicate HasStored(p: Phase) {
    p.Added? || p.Announced? || HasWritten(p)
  }

  predicate HasWritten(p: Phase) {
    p.Lost? || HasWon(p)
  }

  predicate HasWon(p: Phase) {
    p.Paused? || p.Done?
  }

  predicate Final(p: Phase) {
    p.Done? || p.Lost? || p.Found? || p.Denied?
  }

  function Asking(o: Order): Approval {
    Approval(Pending, o.toolCall, o.inline, o.expiresAt)
  }

  /** The approval repository refuses a second approval under an id or for a tool call. */
  predicate Taken(s: State, o: Order) {
    o.id in s.approvals || Requested(s.approvals, o.toolCall)
  }

  /** The compare-and-set of a request that read `read` wins. */
  predicate Wins(s: State, read: Run) {
    s.run == read && read.status == Running
  }

  function Reporting(c: Call, read: Run): Step {
    Step(c, Report(read.token + 1))
  }

  predicate CanMove(r: Race, m: Move) {
    match m
    case Look(c, _) => c !in r.calls
    case ReadRun(c) => c in r.calls && r.calls[c].Unasked?
    case Add(c) => c in r.calls && r.calls[c].Ready?
    case Announce(c) => c in r.calls && r.calls[c].Added?
    case Pause(c) => c in r.calls && r.calls[c].Announced?
    case Confirm(c) => c in r.calls && r.calls[c].Paused? && Enabled(r.s, Reporting(c, r.calls[c].read))
    case Other(steps) =>
      |steps| <= 1 && forall step :: step in steps ==> step.caller !in r.calls && Enabled(r.s, step)
  }

  /** The protocol steps a move takes: none for a read, a refusal or a lost write. */
  function Steps(r: Race, m: Move): seq<Step>
    requires CanMove(r, m)
  {
    match m
    case Look(_, _) => []
    case ReadRun(_) => []
    case Add(c) =>
      var o := r.calls[c].order;
      if Taken(r.s, o) then [] else [Step(c, AddApproval(o.id, Asking(o)))]
    case Announce(c) => [Step(c, Remark("approval.requested", r.calls[c].order.id))]
    case Pause(c) => if Wins(r.s, r.calls[c].read) then [Step(c, Write(Entered(WaitingApproval)))] else []
    case Confirm(c) => [Reporting(c, r.calls[c].read)]
    case Other(steps) => steps
  }

  /** Where a request stands after its move. */
  function NextPhase(r: Race, m: Move): Phase
    requires CanMove(r, m) && !m.Other?
  {
    match m
    case Look(_, o) => if Requested(r.s.approvals, o.toolCall) then Found else Unasked(o)
    case ReadRun(c) => if r.s.run.status == Running then Ready(r.calls[c].order, r.s.run) else Denied
    case Add(c) => if Taken(r.s, r.calls[c].order) then Denied else Added(r.calls[c].order, r.calls[c].read)
    case Announce(c) => Announced(r.calls[c].order, r.calls[c].read)
    case Pause(c) =>
      if Wins(r.s, r.calls[c].read) then Paused(r.calls[c].order, r.calls[c].read)
      else Lost(r.calls[c].order, r.calls[c].read)
    case Confirm(c) => Done(r.calls[c].order, r.calls[c].read)
  }

  function Next(r: Race, m: Move): Race
    requires CanMove(r, m)
  {
    var steps := Steps(r, m);
    Race(if steps == [] then r.s else Apply(r.s, steps[0]),
         if m.Other? then r.calls else r.calls[m.call := NextPhase(r, m)])
  }

  /** The states a sequence of moves goes through. */
  datatype History = History(states: seq<Race>, moves: seq<Move>)

  ghost predicate Happens(h: History) {
    && |h.states| == |h.moves| + 1
    && forall n :: 0 <= n < |h.moves| ==> Follows(h, n)
  }

  predicate Follows(h: History, n: nat)
    requires n < |h.moves| < |h.states|
  {
    CanMove(h.states[n], h.moves[n]) && h.states[n + 1] == Next(h.states[n], h.moves[n])
  }

  // ---------------------------------------------------------------- refinement

  ghost function TraceOf(h: History, n: nat): seq<Step>
    requires Happens(h) && n <= |h.moves|
  {
    if n == 0 then []
    else
      assert Follows(h, n - 1);
      TraceOf(h, n - 1) + Steps(h.states[n - 1], h.moves[n - 1])
  }

  /** Requests take steps of the protocol: whatever holds of all its interleavings holds of theirs. */
  lemma {:induction false} RequestsFollowTheProtocol(h: History, n: nat)
    requires Happens(h) && n <= |h.moves|
    ensures Legal(h.states[0].s, TraceOf(h, n)) && Exec(h.states[0].s, TraceOf(h, n)) == h.states[n].s
  {
    if n > 0 {
      RequestsFollowTheProtocol(h, n - 1);
      assert Follows(h, n - 1);
      var steps := Steps(h.states[n - 1], h.moves[n - 1]);
      if steps == [] {
        assert TraceOf(h, n) == TraceOf(h, n - 1);
      } else {
        ExecSnoc(h.states[0].s, TraceOf(h, n - 1), steps[0]);
      }
    }
  }

  /** The steps a request takes on its way to a phase, in its own order. */
  function StepsOf(c: Call, p: Phase): seq<Step> {
    if !HasStored(p) then []
    else
      var add := Step(c, AddApproval(p.order.id, Asking(p.order)));
      var announce := Step(c, Remark("approval.requested", p.order.id));
      var pause := Step(c, Write(Entered(WaitingApproval)));
      match p
      case Added(_, _) => [add]
      case Paused(_, _) => [add, announce, pause]
      case Done(_, _) => [add, announce, pause, Reporting(c, p.read)]
      case _ => [add, announce]
  }

  /** A request that stored its approval and tried its write: what it did before and after. */
  lemma PausingSteps(s: State, c: Call, o: Order, read: Run, won: bool, a: seq<Step>, b: seq<Step>, d: seq<Step>)
    requires read.status == Running && WasRecord(s, read) && s.run.token > read.token
    requires o.id in s.approvals && Later(Asking(o), s.approvals[o.id])
    requires b == a + [Step(c, AddApproval(o.id, Asking(o)))]
    requires d == b + [Step(c, Remark("approval.requested", o.id))]
                  + if won then WriteSteps(c, read.token, WaitingApproval) else []
    ensures d == a + StepsOf(c, if won then Done(o, read) else Lost(o, read))
    ensures PhaseOk(s, c, if won then Done(o, read) else Lost(o, read))
  {
  }

  function StepsIfBy(steps: seq<Step>, c: Call): seq<Step> {
    if steps != [] && steps[0].caller == c then steps else []
  }

  lemma NextTrace(h: History, n: nat, c: Call)
    requires Happens(h) && n < |h.moves|
    ensures Follows(h, n)
    ensures StepsBy(TraceOf(h, n + 1), c) == StepsBy(TraceOf(h, n), c) + StepsIfBy(Steps(h.states[n], h.moves[n]), c)
  {
    assert Follows(h, n);
    var steps := Steps(h.states[n], h.moves[n]);
    if steps == [] {
      assert TraceOf(h, n + 1) == TraceOf(h, n);
    } else {
      OneMoreStep(TraceOf(h, n), steps[0], c);
      assert TraceOf(h, n + 1) == TraceOf(h, n) + [steps[0]];
    }
  }

  /** The move is not a step of another kind by a caller that makes the request. */
  predicate NoOtherStep(m: Move, c: Call) {
    m.Other? ==> forall step :: step in m.steps ==> step.caller != c
  }

  /** The steps the caller has taken in the first `n` moves are those of its phase. */
  ghost predicate StepsFit(h: History, n: nat, c: Call)
    requires Happens(h) && n <= |h.moves|
  {
    StepsBy(TraceOf(h, n), c) == StepsSoFar(h.states[n], c)
  }

  lemma PhaseFixesNext(h: History, n: nat, c: Call)
    requires Happens(h) && n < |h.moves| && NoOtherStep(h.moves[n], c) && StepsFit(h, n, c)
    ensures StepsFit(h, n + 1, c)
  {
    NextTrace(h, n, c);
    NextSteps(h.states[n], h.moves[n], c);
  }

  /** What holds at the start and is kept from each moment to the next holds at every moment. */
  lemma {:induction false} FromTheStart(holds: nat -> bool, n: nat)
    requires holds(0) && forall k: nat :: holds(k) ==> holds(k + 1)
    ensures holds(n)
  {
    if n > 0 { FromTheStart(holds, n - 1); }
  }

  /** In every history the steps a request has taken are those of its phase. */
  lemma PhaseFixesSteps(h: History, n: nat, c: Call)
    requires Happens(h) && n <= |h.moves| && c !in h.states[0].calls
    requires forall k :: 0 <= k < |h.moves| ==> NoOtherStep(h.moves[k], c)
    ensures StepsFit(h, n, c)
  {
    var fits := (k: nat) => k <= |h.moves| ==> StepsFit(h, k, c);
    assert fits(0) by { assert TraceOf(h, 0) == []; }
    forall k: nat | fits(k) ensures fits(k + 1) {
      if k < |h.moves| { PhaseFixesNext(h, k, c); }
    }
    FromTheStart(fits, n);
  }

  function StepsSoFar(r: Race, c: Call): seq<Step> {
    if c in r.calls then StepsOf(c, r.calls[c]) else []
  }

  lemma NextSteps(r: Race, m: Move, c: Call)
    requires CanMove(r, m) && NoOtherStep(m, c)
    ensures StepsSoFar(Next(r, m), c)
         == StepsSoFar(r, c) + StepsIfBy(Steps(r, m), c)
  {
    if !m.Other? && m.call == c { }
  }

  // ---------------------------------------------------------------- invariant

  /** What holds of one request whatever the others do. */
  ghost predicate PhaseOk(s: State, c: Call, p: Phase) {
    && (HasRead(p) ==> p.read.status == Running && WasRecord(s, p.read))
    && (HasStored(p) ==> p.order.id in s.approvals && Later(Asking(p.order), s.approvals[p.order.id]))
    && (HasWritten(p) ==> s.run.token > p.read.token)
    && (p.Paused? ==> Enabled(s, Reporting(c, p.read)))
  }

  ghost predicate RaceInv(r: Race) {
    Inv(r.s) && forall c :: c in r.calls ==> PhaseOk(r.s, c, r.calls[c])
  }

  lemma OthersKeepPhase(s: State, step: Step, c: Call, p: Phase)
    requires Inv(s) && Enabled(s, step) && step.caller != c && PhaseOk(s, c, p)
    ensures PhaseOk(Apply(s, step), c, p)
  {
    InvProtects(s);
    RelyStep(c, s, step);
    RelyKeepsPhase(s, Apply(s, step), c, p);
  }

  lemma RelyKeepsPhase(s: State, t: State, c: Call, p: Phase)
    requires Rely(c, s, t) && PhaseOk(s, c, p)
    ensures PhaseOk(t, c, p)
  {
    if HasRead(p) {
      assert s.marks[..p.read.token + 1] == t.marks[..p.read.token + 1];
    }
  }

  lemma StepKeepsInv(s: State, step: Step)
    requires Inv(s) && Enabled(s, step)
    ensures Inv(Apply(s, step))
  {
    RecordStep(s, step);
    ReportingStep(s, step);
    SettlingStep(s, step);
  }

  lemma OwnPhase(r: Race, m: Move)
    requires RaceInv(r) && CanMove(r, m) && !m.Other?
    ensures PhaseOk(Next(r, m).s, m.call, NextPhase(r, m))
  {
    var s := r.s;
    assert m.Look? || PhaseOk(s, m.call, r.calls[m.call]);
    if m.ReadRun? {
      assert s.marks[..s.run.token + 1] == s.marks;
    } else if m.Pause? {
      PauseKeepsPhase(r, m.call);
    } else if !m.Look? && HasRead(r.calls[m.call]) {
      var read := r.calls[m.call].read;
      assert Next(r, m).s.marks == s.marks;
    }
  }

  lemma PauseKeepsPhase(r: Race, c: Call)
    requires RaceInv(r) && CanMove(r, Pause(c))
    ensures PhaseOk(Next(r, Pause(c)).s, c, NextPhase(r, Pause(c)))
  {
    var p := r.calls[c];
    assert PhaseOk(r.s, c, p);
    LostIffTokenMoved(r, c);
    if Wins(r.s, p.read) {
      assert Next(r, Pause(c)).s.marks[..p.read.token + 1] == r.s.marks[..p.read.token + 1];
    }
  }

  /** The write of a request is lost exactly when the record's token has moved since the request read it. */
  lemma LostIffTokenMoved(r: Race, c: Call)
    requires RaceInv(r) && CanMove(r, Pause(c))
    ensures NextPhase(r, Pause(c)).Lost? <==> r.s.run.token != r.calls[c].read.token
    ensures Wins(r.s, r.calls[c].read) <==> r.s.run.token == r.calls[c].read.token
    ensures r.calls[c].read.token <= r.s.run.token
  {
    var read := r.calls[c].read;
    assert PhaseOk(r.s, c, r.calls[c]);
    if read.token == r.s.run.token {
      assert r.s.marks[..read.token + 1] == r.s.marks;
    }
  }

  lemma MoveKeepsInv(r: Race, m: Move)
    requires RaceInv(r) && CanMove(r, m)
    ensures RaceInv(Next(r, m))
  {
    var steps := Steps(r, m);
    if steps != [] { StepKeepsInv(r.s, steps[0]); }
    if !m.Other? { OwnPhase(r, m); }
    forall c | c in Next(r, m).calls ensures PhaseOk(Next(r, m).s, c, Next(r, m).calls[c]) {
      if m.Other? || c != m.call {
        assert PhaseOk(r.s, c, r.calls[c]);
        if steps != [] { OthersKeepPhase(r.s, steps[0], c, r.calls[c]); }
      }
    }
  }

  lemma {:induction false} HistoryKeepsInv(h: History, n: nat)
    requires Happens(h) && n <= |h.moves| && RaceInv(h.states[0])
    ensures RaceInv(h.states[n])
  {
    if n > 0 {
      HistoryKeepsInv(h, n - 1);
      assert Follows(h, n - 1);
      MoveKeepsInv(h.states[n - 1], h.moves[n - 1]);
    }
  }

  // ------------------------------------------------------ when a request is lost

  /** The move writes the run record. */
  predicate WritesRun(r: Race, m: Move)
    requires CanMove(r, m)
  {
    Steps(r, m) != [] && Steps(r, m)[0].action.Write?
  }

  ghost predicate RunWritten(h: History, i: nat, j: nat)
    requires Happens(h)
  {
    exists k :: i <= k < j <= |h.moves| && WritesAt(h, k)
  }

  ghost predicate WritesAt(h: History, k: nat)
    requires Happens(h) && k < |h.moves|
  {
    assert Follows(h, k);
    WritesRun(h.states[k], h.moves[k])
  }

  /** The token counts the writes: it moves exactly when the record is written. */
  lemma {:induction false} TokenMovesIffWritten(h: History, i: nat, j: nat)
    requires Happens(h) && i <= j <= |h.moves|
    ensures h.states[i].s.run.token <= h.states[j].s.run.token
    ensures h.states[i].s.run.token < h.states[j].s.run.token <==> RunWritten(h, i, j)
    decreases j - i
  {
    if i < j {
      TokenMovesIffWritten(h, i, j - 1);
      assert Follows(h, j - 1);
      assert h.states[j].s.run.token == h.states[j - 1].s.run.token + if WritesAt(h, j - 1) then 1 else 0;
      assert RunWritten(h, i, j) <==> RunWritten(h, i, j - 1) || WritesAt(h, j - 1);
    }
  }

  /** Unwritten, the record stays what it was. */
  lemma {:induction false} UnwrittenIsKept(h: History, i: nat, j: nat)
    requires Happens(h) && i <= j <= |h.moves| && !RunWritten(h, i, j)
    ensures h.states[j].s.run == h.states[i].s.run
    decreases j - i
  {
    if i < j {
      assert RunWritten(h, i, j) <==> RunWritten(h, i, j - 1) || WritesAt(h, j - 1);
      UnwrittenIsKept(h, i, j - 1);
      assert Follows(h, j - 1);
    }
  }

  lemma NotWrittenNext(h: History, j: nat)
    requires Happens(h) && j < |h.moves| && !WritesAt(h, j)
    ensures h.states[j + 1].s.run == h.states[j].s.run
    ensures forall i: nat :: i <= j && !RunWritten(h, i, j) ==> !RunWritten(h, i, j + 1)
  {
    assert Follows(h, j);
  }

  /** The first write there is. */
  lemma {:induction false} FirstWrite(h: History, i: nat, j: nat) returns (k: nat)
    requires Happens(h) && i <= j <= |h.moves| && RunWritten(h, i, j)
    ensures i <= k < j && WritesAt(h, k) && !RunWritten(h, i, k)
    decreases j - i
  {
    if RunWritten(h, i, j - 1) {
      k := FirstWrite(h, i, j - 1);
    } else {
      k :| i <= k < j && WritesAt(h, k);
      assert k == j - 1;
    }
  }

  /** From its read to its write a request holds on to the record it read. */
  lemma {:induction false} ReadIsKept(h: History, c: Call, i: nat, j: nat)
    requires Happens(h) && i < j <= |h.moves| && h.moves[i] == ReadRun(c)
    requires c in h.states[j].calls && h.states[j].calls[c].Announced?
    ensures h.states[j].calls[c].read == h.states[i].s.run
    decreases j - i
  {
    assert Follows(h, i) && Follows(h, j - 1);
    ReadIsKeptFrom(h, c, i, j);
  }

  lemma {:induction false} ReadIsKeptFrom(h: History, c: Call, i: nat, j: nat)
    requires Happens(h) && i < j <= |h.moves| && h.moves[i] == ReadRun(c)
    ensures c in h.states[j].calls && !h.states[j].calls[c].Unasked?
    ensures HasRead(h.states[j].calls[c]) ==> h.states[j].calls[c].read == h.states[i].s.run
    decreases j - i
  {
    if i + 1 < j { ReadIsKeptFrom(h, c, i, j - 1); }
    assert Follows(h, j - 1);
  }

  /** Nobody settles the approval from one moment to another. */
  ghost predicate Unsettled(h: History, id: string, i: nat, j: nat)
    requires Happens(h) && i <= j <= |h.moves|
  {
    forall k :: i <= k < j ==> !Settles(h.moves[k], id)
  }

  predicate Settles(m: Move, id: string) {
    m.Other? && m.steps != [] && m.steps[0].action.Settle? && m.steps[0].action.id == id
  }

  lemma {:induction false} PendingUntilSettled(h: History, id: string, i: nat, j: nat)
    requires Happens(h) && i <= j <= |h.moves|
    requires id in h.states[i].s.approvals && h.states[i].s.approvals[id].status == Pending
    ensures id in h.states[j].s.approvals
    ensures h.states[j].s.approvals[id].status == Pending <==> Unsettled(h, id, i, j)
    decreases j - i
  {
    if i < j {
      PendingUntilSettled(h, id, i, j - 1);
      assert Follows(h, j - 1);
    }
  }

  lemma {:induction false} DeniedStays(h: History, c: Call, i: nat, j: nat)
    requires Happens(h) && i <= j <= |h.moves| && c in h.states[i].calls && h.states[i].calls[c].Denied?
    ensures c in h.states[j].calls && h.states[j].calls[c].Denied?
    decreases j - i
  {
    if i < j {
      DeniedStays(h, c, i, j - 1);
      assert Follows(h, j - 1);
    }
  }

  lemma {:induction false} OrderIsKept(h: History, c: Call, i: nat, j: nat)
    requires Happens(h) && i <= j <= |h.moves| && c in h.states[i].calls && HasStored(h.states[i].calls[c])
    ensures c in h.states[j].calls && HasStored(h.states[j].calls[c])
    ensures h.states[j].calls[c].order == h.states[i].calls[c].order
    decreases j - i
  {
    if i < j {
      OrderIsKept(h, c, i, j - 1);
      assert Follows(h, j - 1);
    }
  }

  /** A request's write is lost exactly when the run was written since its read. */
  lemma LostAtIff(h: History, c: Call, i: nat, j: nat)
    requires Happens(h) && RaceInv(h.states[0]) && i < j < |h.moves|
    requires h.moves[i] == ReadRun(c) && h.moves[j] == Pause(c)
    ensures c in h.states[j].calls && h.states[j].calls[c].Announced? && c in h.states[j + 1].calls
    ensures h.states[j + 1].calls[c].Lost? <==> RunWritten(h, i, j)
    ensures !Wins(h.states[j].s, h.states[j].calls[c].read) <==> RunWritten(h, i, j)
  {
    assert Follows(h, j);
    HistoryKeepsInv(h, j);
    ReadIsKept(h, c, i, j);
    LostIffTokenMoved(h.states[j], c);
    TokenMovesIffWritten(h, i, j);
  }

  /** Whatever else runs, step by step: a request that read the run, stored its approval and tried its write is left
      with the approval pending beside a lost write exactly when the run was written between its read and its write
      and nobody has settled the approval since. */
  lemma LostLeavesPendingIff(h: History, c: Call, i: nat, a: nat, j: nat, n: nat)
    requires Happens(h) && RaceInv(h.states[0]) && i < a < j < n <= |h.moves|
    requires h.moves[i] == ReadRun(c) && h.moves[a] == Add(c) && h.moves[j] == Pause(c)
    ensures c in h.states[n].calls && HasStored(h.states[n].calls[c])
    ensures var id := h.states[n].calls[c].order.id;
            && c in h.states[j + 1].calls && id in h.states[n].s.approvals
            && (h.states[j + 1].calls[c].Lost? <==> RunWritten(h, i, j))
            && (h.states[n].s.approvals[id].status == Pending <==> Unsettled(h, id, a, n))
  {
    assert Follows(h, a) && Follows(h, j);
    if h.states[a + 1].calls[c].Denied? { DeniedStays(h, c, a + 1, j); }
    OrderIsKept(h, c, a + 1, n);
    PendingUntilSettled(h, h.states[n].calls[c].order.id, a + 1, n);
    LostAtIff(h, c, i, j);
  }

  // ------------------------------------------------------------- requests alone

  ghost predicate OnlyRequests(h: History) {
    forall k :: 0 <= k < |h.moves| ==> !h.moves[k].Other?
  }

  /** A running run with nothing pending, before any request. */
  ghost predicate Quiet(r: Race) {
    RaceInv(r) && r.calls == map[] && r.s.run.status == Running && PendingIds(r.s) == {}
  }

  /** A worker that has provisioned and started a new run leaves it so. */
  lemma StartedIsQuiet(creator: Call, worker: Call)
    ensures var trace := [Step(worker, Write(Entered(Provisioning))), Step(worker, Write(Entered(Running)))];
            && Legal(Created(creator), trace) && Exec(Created(creator), trace).approvals == map[]
            && Quiet(Race(Exec(Created(creator), trace), map[]))
  {
    var a, b := Step(worker, Write(Entered(Provisioning))), Step(worker, Write(Entered(Running)));
    var s := Apply(Created(creator), a);
    assert s.run == Run(Provisioning, 1) && s.approvals == map[];
    var t := Apply(s, b);
    assert t.run.status == Running && t.approvals == map[] && PendingIds(t) == {};
    ExecSnoc(Created(creator), [], a);
    assert [] + [a] == [a] && Exec(Created(creator), [a]) == s;
    ExecSnoc(Created(creator), [a], b);
    assert [a] + [b] == [a, b] && Exec(Created(creator), [a, b]) == t;
    CreatedInv(creator);
    StepKeepsInv(Created(creator), a);
    StepKeepsInv(s, b);
  }

  /** The calls that stored an approval, and those whose write was won. */
  function Storers(r: Race): set<Call> {
    set c | c in r.calls && HasStored(r.calls[c])
  }

  function Winners(r: Race): set<Call> {
    set c | c in r.calls && HasWon(r.calls[c])
  }

  /** The approval was there from the start, settled, or is one a request stored, pending. */
  ghost predicate Accounted(start: State, r: Race, id: string)
    requires id in r.s.approvals
  {
    if id in start.approvals then r.s.approvals[id] == start.approvals[id]
    else exists c :: c in Storers(r) && r.calls[c].order.id == id && r.s.approvals[id] == Asking(r.calls[c].order)
  }

  /** With requests only, the run is as at the start until the first write is won, and waits from then on. */
  ghost predicate WrittenOnce(start: State, r: Race) {
    && r.s.run == (if Winners(r) == {} then start.run else Run(WaitingApproval, start.run.token + 1))
    && (forall c :: c in r.calls && HasRead(r.calls[c]) ==> r.calls[c].read == start.run)
    && (forall c :: c in r.calls && r.calls[c].Lost? ==> Winners(r) != {})
    && (forall c, d :: c in Winners(r) && d in Winners(r) ==> c == d)
  }

  /** With requests only, the approvals are those of the start and one for each request that stored one. */
  ghost predicate StoredOnly(start: State, r: Race) {
    && (forall id :: id in start.approvals ==> id in r.s.approvals)
    && (forall id :: id in r.s.approvals ==> Accounted(start, r, id))
    && (forall c :: c in Storers(r) ==> r.calls[c].order.id in r.s.approvals && r.calls[c].order.id !in start.approvals)
    && (forall c, d :: c in Storers(r) && d in Storers(r) && r.calls[c].order.id == r.calls[d].order.id ==> c == d)
  }

  lemma MoveKeepsWrittenOnce(start: State, r: Race, m: Move)
    requires start.run.status == Running && WrittenOnce(start, r) && CanMove(r, m) && !m.Other?
    ensures WrittenOnce(start, Next(r, m))
  {
    var t := Next(r, m);
    assert Winners(t) == if m.Pause? && Wins(r.s, r.calls[m.call].read) then Winners(r) + {m.call} else Winners(r);
  }

  lemma SameStorers(start: State, r: Race, t: Race)
    requires StoredOnly(start, r) && t.s.approvals == r.s.approvals && Storers(t) == Storers(r)
    requires forall c :: c in Storers(r) ==> t.calls[c].order == r.calls[c].order
    ensures StoredOnly(start, t)
  {
    forall id | id in t.s.approvals ensures Accounted(start, t, id) {
      assert Accounted(start, r, id);
    }
  }

  lemma AddKeepsStoredOnly(start: State, r: Race, c: Call)
    requires StoredOnly(start, r) && CanMove(r, Add(c)) && !Taken(r.s, r.calls[c].order)
    ensures StoredOnly(start, Next(r, Add(c)))
  {
    var t := Next(r, Add(c));
    assert Storers(t) == Storers(r) + {c};
    forall id | id in t.s.approvals ensures Accounted(start, t, id) {
      if id in r.s.approvals {
        assert Accounted(start, r, id);
      } else {
        assert c in Storers(t) && t.calls[c].order.id == id;
      }
    }
  }

  lemma MoveKeepsStoredOnly(start: State, r: Race, m: Move)
    requires StoredOnly(start, r) && CanMove(r, m) && !m.Other?
    ensures StoredOnly(start, Next(r, m))
  {
    if m.Add? && !Taken(r.s, r.calls[m.call].order) {
      AddKeepsStoredOnly(start, r, m.call);
    } else {
      StorersStay(r, m);
      SameStorers(start, r, Next(r, m));
    }
  }

  lemma StorersStay(r: Race, m: Move)
    requires CanMove(r, m) && !m.Other? && !(m.Add? && !Taken(r.s, r.calls[m.call].order))
    ensures Next(r, m).s.approvals == r.s.approvals && Storers(Next(r, m)) == Storers(r)
    ensures forall c :: c in Storers(r) ==> Next(r, m).calls[c].order == r.calls[c].order
  {
  }

  ghost predicate Alone(start: State, r: Race) {
    WrittenOnce(start, r) && StoredOnly(start, r)
  }

  lemma MoveKeepsAlone(h: History, n: nat)
    requires Happens(h) && OnlyRequests(h) && h.states[0].s.run.status == Running && n < |h.moves|
    requires Alone(h.states[0].s, h.states[n])
    ensures Alone(h.states[0].s, h.states[n + 1])
  {
    assert Follows(h, n);
    MoveKeepsWrittenOnce(h.states[0].s, h.states[n], h.moves[n]);
    MoveKeepsStoredOnly(h.states[0].s, h.states[n], h.moves[n]);
  }

  lemma StartsAlone(r: Race)
    requires r.calls == map[]
    ensures Alone(r.s, r)
  {
    assert Winners(r) == {} && Storers(r) == {};
  }

  lemma {:induction false} HistoryIsAlone(h: History, n: nat)
    requires Happens(h) && OnlyRequests(h) && n <= |h.moves|
    requires h.states[0].calls == map[] && h.states[0].s.run.status == Running
    ensures Alone(h.states[0].s, h.states[n])
  {
    if n == 0 {
      StartsAlone(h.states[0]);
    } else {
      HistoryIsAlone(h, n - 1);
      MoveKeepsAlone(h, n - 1);
    }
  }

  function StoredIds(r: Race): set<string> {
    set c | c in r.calls && HasStored(r.calls[c]) :: r.calls[c].order.id
  }

  /** What is pending is exactly what the requests stored. */
  lemma PendingIsStored(start: State, r: Race)
    requires PendingIds(start) == {} && StoredOnly(start, r)
    ensures PendingIds(r.s) == StoredIds(r)
  {
    forall id ensures id in PendingIds(r.s) <==> id in StoredIds(r) {
      if id in r.s.approvals {
        assert Accounted(start, r, id);
        if id in start.approvals { assert id !in PendingIds(start); }
      }
    }
  }

  ghost predicate Settled(r: Race) {
    forall c :: c in r.calls ==> Final(r.calls[c])
  }

  /** However many requests interleave, and however, with nobody else running (`SettlementRaces` has the settlements):
      once they have all ended, a live run waits for approval exactly when one approval is pending if, and only if, no
      request lost its write. */
  lemma PromiseKeptIffNoneLost(h: History)
    requires Happens(h) && OnlyRequests(h) && Quiet(h.states[0])
    requires Settled(h.states[|h.moves|])
    ensures var r := h.states[|h.moves|];
            OnePendingIffWaiting(r.s) <==> forall c :: c in r.calls ==> !r.calls[c].Lost?
  {
    HistoryIsAlone(h, |h.moves|);
    KeptIffNoneLost(h.states[0].s, h.states[|h.moves|]);
  }

  lemma KeptIffNoneLost(start: State, r: Race)
    requires WrittenOnce(start, r) && StoredOnly(start, r) && Settled(r)
    requires start.run.status == Running && PendingIds(start) == {}
    ensures OnePendingIffWaiting(r.s) <==> forall c :: c in r.calls ==> !r.calls[c].Lost?
  {
    PendingIsStored(start, r);
    if c :| c in r.calls && r.calls[c].Lost? {
      TwoStored(start, r, c);
    } else {
      OneStored(start, r);
    }
  }

  /** Where no request lost, at most one stored an approval, and the run waits exactly if one did. */
  lemma OneStored(start: State, r: Race)
    requires WrittenOnce(start, r) && start.run.status == Running
    requires Settled(r) && forall c :: c in r.calls ==> !r.calls[c].Lost?
    ensures if r.s.run.status == WaitingApproval then exists id :: StoredIds(r) == {id} else StoredIds(r) == {}
    ensures r.s.run.status == WaitingApproval || r.s.run.status == Running
  {
    WinnersAreStorers(r);
    if c :| c in Winners(r) {
      assert Winners(r) == {c};
      assert StoredIds(r) == {r.calls[c].order.id};
    }
  }

  lemma WinnersAreStorers(r: Race)
    requires Settled(r) && forall c :: c in r.calls ==> !r.calls[c].Lost?
    ensures StoredIds(r) == set c | c in Winners(r) :: r.calls[c].order.id
  {
    assert Storers(r) == Winners(r);
  }

  /** Where a request lost, another won, and both left an approval. */
  lemma TwoStored(start: State, r: Race, c: Call)
    requires WrittenOnce(start, r) && StoredOnly(start, r) && c in r.calls && r.calls[c].Lost?
    ensures r.s.run.status == WaitingApproval && !exists id :: StoredIds(r) == {id}
  {
    var d :| d in Winners(r);
    assert c in Storers(r) && d in Storers(r);
    assert r.calls[c].order.id in StoredIds(r) && r.calls[d].order.id in StoredIds(r);
  }

  // -------------------------------------------------------------- when they overlap

  /** The last moment a request changed phase, and what it was before. */
  lemma {:induction false} MovedInto(h: History, c: Call, n: nat) returns (k: nat)
    requires Happens(h) && n <= |h.moves| && c !in h.states[0].calls && c in h.states[n].calls
    ensures k < n && !h.moves[k].Other? && h.moves[k].call == c && c in h.states[k + 1].calls
    ensures h.states[k + 1].calls[c] == h.states[n].calls[c]
    ensures Follows(h, k) && h.states[k + 1].calls[c] == NextPhase(h.states[k], h.moves[k])
  {
    assert Follows(h, n - 1);
    if !h.moves[n - 1].Other? && h.moves[n - 1].call == c {
      k := n - 1;
    } else {
      k := MovedInto(h, c, n - 1);
    }
  }

  /** A request that has read the run did so at some move, while the run was running. */
  lemma {:induction false} ReadAt(h: History, c: Call, n: nat) returns (i: nat)
    requires Happens(h) && n <= |h.moves| && c !in h.states[0].calls
    requires c in h.states[n].calls && HasRead(h.states[n].calls[c])
    ensures i < n && h.moves[i] == ReadRun(c) && h.states[i].s.run.status == Running
    decreases n
  {
    var k := MovedInto(h, c, n);
    if h.moves[k] == ReadRun(c) {
      i := k;
    } else {
      i := ReadAt(h, c, k);
    }
  }

  /** A request that has won or lost its write tried it at some move. */
  lemma {:induction false} WroteAt(h: History, c: Call, n: nat) returns (j: nat)
    requires Happens(h) && n <= |h.moves| && c !in h.states[0].calls
    requires c in h.states[n].calls && HasWritten(h.states[n].calls[c])
    ensures j < n && h.moves[j] == Pause(c) && c in h.states[j].calls && h.states[j].calls[c].Announced?
    ensures Wins(h.states[j].s, h.states[j].calls[c].read) <==> HasWon(h.states[n].calls[c])
    decreases n
  {
    var k := MovedInto(h, c, n);
    if h.moves[k] == Pause(c) {
      j := k;
    } else {
      j := WroteAt(h, c, k);
    }
  }

  /** A request that has stored its approval did so at some move, and nobody had settled the approval by then. */
  lemma {:induction false} AddedAt(h: History, c: Call, n: nat) returns (a: nat)
    requires Happens(h) && n <= |h.moves| && c !in h.states[0].calls
    requires c in h.states[n].calls && HasStored(h.states[n].calls[c])
    ensures a < n && h.moves[a] == Add(c) && c in h.states[a + 1].calls && HasStored(h.states[a + 1].calls[c])
    ensures h.states[a + 1].calls[c].order == h.states[n].calls[c].order
    ensures h.states[n].calls[c].order.id !in h.states[a].s.approvals
    ensures Unsettled(h, h.states[n].calls[c].order.id, 0, a + 1)
    decreases n
  {
    var k := MovedInto(h, c, n);
    if h.moves[k] == Add(c) {
      a := k;
      UnknownIsUnsettled(h, h.states[n].calls[c].order.id, k);
    } else {
      a := AddedAt(h, c, k);
    }
  }

  lemma {:induction false} UnknownIsUnsettled(h: History, id: string, n: nat)
    requires Happens(h) && n <= |h.moves| && id !in h.states[n].s.approvals
    ensures Unsettled(h, id, 0, n)
  {
    if n > 0 {
      assert Follows(h, n - 1);
      UnknownIsUnsettled(h, id, n - 1);
    }
  }

  /** A stored approval is pending exactly while nobody has settled it. */
  lemma StoredPendingIff(h: History, c: Call, n: nat)
    requires Happens(h) && n <= |h.moves| && c !in h.states[0].calls
    requires c in h.states[n].calls && HasStored(h.states[n].calls[c])
    ensures h.states[n].calls[c].order.id in PendingIds(h.states[n].s)
       <==> Unsettled(h, h.states[n].calls[c].order.id, 0, n)
  {
    var a := AddedAt(h, c, n);
    var id := h.states[n].calls[c].order.id;
    assert Follows(h, a);
    PendingUntilSettled(h, id, a + 1, n);
  }

  predicate AddsForeign(m: Move) {
    m.Other? && m.steps != [] && m.steps[0].action.AddApproval?
  }

  /** Where only requests add approvals, what is pending was stored by one. */
  lemma {:induction false} PendingWasStored(h: History, n: nat, id: string) returns (c: Call)
    requires Happens(h) && n <= |h.moves| && PendingIds(h.states[0].s) == {}
    requires forall k :: 0 <= k < |h.moves| ==> !AddsForeign(h.moves[k])
    requires id in PendingIds(h.states[n].s)
    ensures c in Storers(h.states[n]) && h.states[n].calls[c].order.id == id
  {
    assert Follows(h, n - 1);
    if id in PendingIds(h.states[n - 1].s) {
      c := PendingWasStored(h, n - 1, id);
      OrderIsKept(h, c, n - 1, n);
    } else {
      c := h.moves[n - 1].call;
    }
  }

  lemma {:induction false} LostStays(h: History, c: Call, i: nat, j: nat)
    requires Happens(h) && i <= j <= |h.moves| && c in h.states[i].calls && h.states[i].calls[c].Lost?
    ensures c in h.states[j].calls && h.states[j].calls[c].Lost?
    decreases j - i
  {
    if i < j {
      LostStays(h, c, i, j - 1);
      assert Follows(h, j - 1);
    }
  }

  /** The run was written between a request's read and its write. */
  ghost predicate Overtaken(h: History, c: Call)
    requires Happens(h)
  {
    exists i, j :: 0 <= i < j < |h.moves| && h.moves[i] == ReadRun(c) && h.moves[j] == Pause(c) && RunWritten(h, i, j)
  }

  lemma LostIffOvertaken(h: History, c: Call)
    requires Happens(h) && RaceInv(h.states[0]) && c !in h.states[0].calls
    ensures Overtaken(h, c) <==> c in h.states[|h.moves|].calls && h.states[|h.moves|].calls[c].Lost?
  {
    var n := |h.moves|;
    if c in h.states[n].calls && h.states[n].calls[c].Lost? {
      var j := WroteAt(h, c, n);
      var i := ReadAt(h, c, j);
      LostAtIff(h, c, i, j);
    }
    if i, j :| 0 <= i < j < |h.moves| && h.moves[i] == ReadRun(c) && h.moves[j] == Pause(c) && RunWritten(h, i, j) {
      LostAtIff(h, c, i, j);
      LostStays(h, c, j + 1, n);
    }
  }

  /** However many requests interleave, and however, with nobody else running: once they have all ended, the promise
      holds exactly when the run was not written between any request's read and its write. */
  lemma PromiseKeptIffNoneOvertaken(h: History)
    requires Happens(h) && OnlyRequests(h) && Quiet(h.states[0])
    requires Settled(h.states[|h.moves|])
    ensures OnePendingIffWaiting(h.states[|h.moves|].s) <==> forall c :: !Overtaken(h, c)
  {
    PromiseKeptIffNoneLost(h);
    forall c ensures Overtaken(h, c) <==> c in h.states[|h.moves|].calls && h.states[|h.moves|].calls[c].Lost? {
      LostIffOvertaken(h, c);
    }
  }

  // ------------------------------------------------------------------ two requests

  predicate WinsAt(h: History, k: nat, d: Call)
    requires k < |h.moves| < |h.states|
  {
    h.moves[k] == Pause(d) && d in h.states[k].calls && h.states[k].calls[d].Announced?
    && Wins(h.states[k].s, h.states[k].calls[d].read)
  }

  /** The read of `c` comes before the winning write of `d`, if there is one. */
  ghost predicate ReadsBeforeWin(h: History, c: Call, d: Call)
    requires Happens(h)
  {
    exists i :: 0 <= i < |h.moves| && h.moves[i] == ReadRun(c) && NoWinBefore(h, i, d)
  }

  ghost predicate NoWinBefore(h: History, i: nat, d: Call)
    requires Happens(h) && i <= |h.moves|
  {
    forall k :: 0 <= k < i ==> !WinsAt(h, k, d)
  }

  /** Two requests for different tool calls under different ids, both run to their end, and nobody else. */
  ghost predicate TwoRequests(h: History, c: Call, d: Call, a: Order, b: Order) {
    && Happens(h) && OnlyRequests(h) && Quiet(h.states[0]) && c != d
    && a.id != b.id && a.toolCall != b.toolCall && !Taken(h.states[0].s, a) && !Taken(h.states[0].s, b)
    && (forall k :: 0 <= k < |h.moves| && h.moves[k].Look? ==>
          h.moves[k] == Look(c, a) || h.moves[k] == Look(d, b))
    && Settled(h.states[|h.moves|])
    && c in h.states[|h.moves|].calls && d in h.states[|h.moves|].calls
  }

  predicate Kept(p: Phase, o: Order) {
    p.Denied? || ((p.Unasked? || HasRead(p)) && p.order == o)
  }

  /** Neither request finds the other's approval, nor takes the other's keys. */
  ghost predicate Apart(start: State, r: Race, c: Call, d: Call, a: Order, b: Order) {
    (forall x :: x in r.calls ==> OneOfTwo(x, r.calls[x], c, d, a, b)) && StoredOnly(start, r)
  }

  predicate OneOfTwo(x: Call, p: Phase, c: Call, d: Call, a: Order, b: Order) {
    (x == c && Kept(p, a)) || (x == d && Kept(p, b))
  }

  lemma NotTaken(start: State, r: Race, c: Call, d: Call, a: Order, b: Order)
    requires Apart(start, r, c, d, a, b) && a.id != b.id && a.toolCall != b.toolCall && !Taken(start, a)
    requires c !in Storers(r)
    ensures !Taken(r.s, a)
  {
    forall x | x in r.s.approvals ensures x != a.id && r.s.approvals[x].toolCall != a.toolCall {
      assert Accounted(start, r, x);
    }
  }

  /** The look-up of a request that has just come finds nothing. */
  lemma NotFound(start: State, r: Race, m: Move, c: Call, d: Call, a: Order, b: Order)
    requires Apart(start, r, c, d, a, b) && a.id != b.id && a.toolCall != b.toolCall
    requires !Taken(start, a) && !Taken(start, b) && CanMove(r, m) && (m.Look? ==> m == Look(c, a) || m == Look(d, b))
    ensures m.Look? ==> !Requested(r.s.approvals, m.order.toolCall)
  {
    if m == Look(c, a) { NotTaken(start, r, c, d, a, b); }
    if m == Look(d, b) { NotTaken(start, r, d, c, b, a); }
  }

  lemma MoveKeepsApart(start: State, r: Race, m: Move, c: Call, d: Call, a: Order, b: Order)
    requires Apart(start, r, c, d, a, b) && CanMove(r, m) && !m.Other?
    requires m.Look? ==> !Requested(r.s.approvals, m.order.toolCall) && (m == Look(c, a) || m == Look(d, b))
    requires c != d
    ensures Apart(start, Next(r, m), c, d, a, b)
  {
    MoveKeepsStoredOnly(start, r, m);
    NextAreOfTwo(r, m, c, d, a, b);
  }

  lemma NextAreOfTwo(r: Race, m: Move, c: Call, d: Call, a: Order, b: Order)
    requires CanMove(r, m) && !m.Other? && c != d
    requires m.Look? ==> !Requested(r.s.approvals, m.order.toolCall) && (m == Look(c, a) || m == Look(d, b))
    requires forall x :: x in r.calls ==> OneOfTwo(x, r.calls[x], c, d, a, b)
    ensures forall x :: x in Next(r, m).calls ==> OneOfTwo(x, Next(r, m).calls[x], c, d, a, b)
  {
    assert m.call in r.calls ==> OneOfTwo(m.call, r.calls[m.call], c, d, a, b);
    NextIsOneOfTwo(r, m, c, d, a, b);
  }

  lemma NextIsOneOfTwo(r: Race, m: Move, c: Call, d: Call, a: Order, b: Order)
    requires CanMove(r, m) && !m.Other? && c != d
    requires m.Look? ==> !Requested(r.s.approvals, m.order.toolCall) && (m == Look(c, a) || m == Look(d, b))
    requires m.call in r.calls ==> OneOfTwo(m.call, r.calls[m.call], c, d, a, b)
    ensures OneOfTwo(m.call, NextPhase(r, m), c, d, a, b)
  {
  }

  lemma {:induction false} StayApart(h: History, n: nat, c: Call, d: Call, a: Order, b: Order)
    requires TwoRequests(h, c, d, a, b) && n <= |h.moves|
    ensures Apart(h.states[0].s, h.states[n], c, d, a, b)
  {
    if n == 0 {
      HistoryIsAlone(h, 0);
    } else {
      StayApart(h, n - 1, c, d, a, b);
      assert Follows(h, n - 1);
      NotFound(h.states[0].s, h.states[n - 1], h.moves[n - 1], c, d, a, b);
      MoveKeepsApart(h.states[0].s, h.states[n - 1], h.moves[n - 1], c, d, a, b);
    }
  }

  /** A denied request was denied by a run that was not running when it read it. */
  lemma {:induction false} DeniedAt(h: History, n: nat, c: Call, d: Call, a: Order, b: Order) returns (i: nat)
    requires TwoRequests(h, c, d, a, b) && n <= |h.moves|
    requires c in h.states[n].calls && h.states[n].calls[c].Denied?
    ensures i < n && h.moves[i] == ReadRun(c) && h.states[i].s.run.status != Running
  {
    i := MovedInto(h, c, n);
    StayApart(h, i, c, d, a, b);
    if h.moves[i] == Add(c) {
      NotTaken(h.states[0].s, h.states[i], c, d, a, b);
    }
  }

  lemma {:induction false} WonStays(h: History, c: Call, i: nat, j: nat)
    requires Happens(h) && i <= j <= |h.moves| && c in h.states[i].calls && HasWon(h.states[i].calls[c])
    ensures c in h.states[j].calls && HasWon(h.states[j].calls[c])
    decreases j - i
  {
    if i < j {
      WonStays(h, c, i, j - 1);
      assert Follows(h, j - 1);
    }
  }

  /** When a request reads the run, it is running exactly when the other has not won yet. */
  lemma RunningIffNoWinBefore(h: History, i: nat, c: Call, d: Call, a: Order, b: Order)
    requires TwoRequests(h, c, d, a, b) && i < |h.moves| && h.moves[i] == ReadRun(c)
    ensures h.states[i].s.run.status == Running <==> NoWinBefore(h, i, d)
  {
    var r := h.states[i];
    assert Follows(h, i);
    HistoryIsAlone(h, i);
    StayApart(h, i, c, d, a, b);
    if w :| w in Winners(r) {
      assert w == d;
      var k := WroteAt(h, d, i);
      assert WinsAt(h, k, d);
    }
    if k :| 0 <= k < i && WinsAt(h, k, d) {
      assert Follows(h, k);
      WonStays(h, d, k + 1, i);
      assert d in Winners(r);
    }
  }

  lemma StoresIffReadsBeforeWin(h: History, c: Call, d: Call, a: Order, b: Order)
    requires TwoRequests(h, c, d, a, b)
    ensures c in Storers(h.states[|h.moves|]) <==> ReadsBeforeWin(h, c, d)
  {
    var n := |h.moves|;
    StayApart(h, n, c, d, a, b);
    if c in Storers(h.states[n]) {
      var i := ReadAt(h, c, n);
      RunningIffNoWinBefore(h, i, c, d, a, b);
    } else {
      var k := DeniedAt(h, n, c, d, a, b);
      RunningIffNoWinBefore(h, k, c, d, a, b);
      forall i | 0 <= i < n && h.moves[i] == ReadRun(c) ensures !NoWinBefore(h, i, d) {
        ReadsOnce(h, c, i, k);
      }
    }
  }

  lemma ReadsOnce(h: History, c: Call, i: nat, k: nat)
    requires Happens(h) && i < |h.moves| && k < |h.moves| && h.moves[i] == ReadRun(c) && h.moves[k] == ReadRun(c)
    ensures i == k
  {
    assert Follows(h, i) && Follows(h, k);
    if i < k { ReadIsKeptFrom(h, c, i, k); }
    if k < i { ReadIsKeptFrom(h, c, k, i); }
  }

  /** Two requests leave two approvals pending exactly when each reads the run before the other's write is won;
      otherwise they leave one. */
  lemma TwoPendingIffEachReadsFirst(h: History, c: Call, d: Call, a: Order, b: Order)
    requires TwoRequests(h, c, d, a, b)
    ensures PendingIds(h.states[|h.moves|].s) == {a.id, b.id} <==> ReadsBeforeWin(h, c, d) && ReadsBeforeWin(h, d, c)
    ensures OnePendingIffWaiting(h.states[|h.moves|].s) <==> !(ReadsBeforeWin(h, c, d) && ReadsBeforeWin(h, d, c))
  {
    var r := h.states[|h.moves|];
    HistoryIsAlone(h, |h.moves|);
    PendingIsStored(h.states[0].s, r);
    StayApart(h, |h.moves|, c, d, a, b);
    StoresIffReadsBeforeWin(h, c, d, a, b);
    StoresIffReadsBeforeWin(h, d, c, b, a);
    StoredIdsOfTwo(r, h.states[0].s, c, d, a, b);
    PromiseKeptIffNoneLost(h);
    BothStoredIffOneLost(h.states[0].s, r, c, d, a, b);
  }

  lemma StoredIdsOfTwo(r: Race, start: State, c: Call, d: Call, a: Order, b: Order)
    requires Apart(start, r, c, d, a, b) && c != d && a.id != b.id
    ensures a.id in StoredIds(r) <==> c in Storers(r)
    ensures b.id in StoredIds(r) <==> d in Storers(r)
    ensures StoredIds(r) <= {a.id, b.id}
  {
  }

  /** Of two requests that have ended, both stored an approval exactly when one lost its write. */
  lemma BothStoredIffOneLost(start: State, r: Race, c: Call, d: Call, a: Order, b: Order)
    requires Apart(start, r, c, d, a, b) && WrittenOnce(start, r) && Settled(r) && c != d
    ensures c in Storers(r) && d in Storers(r) <==> exists x :: x in r.calls && r.calls[x].Lost?
  {
    forall x | x in r.calls ensures x == c || x == d {
      assert OneOfTwo(x, r.calls[x], c, d, a, b);
    }
    LostMeansTwo(start, r, c, d);
  }

  lemma LostMeansTwo(start: State, r: Race, c: Call, d: Call)
    requires WrittenOnce(start, r) && Settled(r) && c != d && r.calls.Keys <= {c, d}
    ensures c in Storers(r) && d in Storers(r) <==> exists x :: x in r.calls && r.calls[x].Lost?
  {
    if x :| x in r.calls && r.calls[x].Lost? {
      var w :| w in Winners(r);
      assert x in Storers(r) && w in Storers(r);
    } else {
      assert forall x :: x in Storers(r) ==> x in Winners(r);
    }
  }

  // --------------------------------------------------------------- such a history

  lemma Extend(h: History, m: Move) returns (g: History)
    requires Happens(h) && CanMove(h.states[|h.moves|], m)
    ensures Happens(g) && g.states[0] == h.states[0] && g.moves == h.moves + [m]
    ensures g.states[|g.moves|] == Next(h.states[|h.moves|], m)
    ensures forall k :: 0 <= k <= |h.moves| ==> g.states[k] == h.states[k]
  {
    g := History(h.states + [Next(h.states[|h.moves|], m)], h.moves + [m]);
    forall n | 0 <= n < |g.moves| ensures Follows(g, n) {
      assert n < |h.moves| ==> Follows(h, n);
    }
  }

  /** Two requests up to the point where both have read the running run and stored their approvals. */
  lemma BothStore(start: Race, c: Call, d: Call, a: Order, b: Order) returns (h: History)
    requires Quiet(start) && c != d && a.id != b.id && a.toolCall != b.toolCall
    requires !Taken(start.s, a) && !Taken(start.s, b)
    ensures Happens(h) && h.states[0] == start
    ensures h.moves == [Look(c, a), Look(d, b), ReadRun(c), ReadRun(d), Add(c), Add(d)]
    ensures var r := h.states[6];
            r.calls == map[c := Added(a, start.s.run), d := Added(b, start.s.run)] && r.s.run == start.s.run
            && r.s.marks == start.s.marks
  {
    h := BothRead(start, c, d, a, b);
    h := Extend(h, Add(c));
    h := Extend(h, Add(d));
  }

  lemma BothRead(start: Race, c: Call, d: Call, a: Order, b: Order) returns (h: History)
    requires start.calls == map[] && start.s.run.status == Running && c != d
    requires !Taken(start.s, a) && !Taken(start.s, b)
    ensures Happens(h) && h.states[0] == start
    ensures h.moves == [Look(c, a), Look(d, b), ReadRun(c), ReadRun(d)]
    ensures h.states[4] == Race(start.s, map[c := Ready(a, start.s.run), d := Ready(b, start.s.run)])
  {
    h := History([start], []);
    h := Extend(h, Look(c, a));
    h := Extend(h, Look(d, b));
    h := Extend(h, ReadRun(c));
    h := Extend(h, ReadRun(d));
  }

  lemma BothAnnounce(g: History, c: Call, d: Call) returns (h: History)
    requires Happens(g) && c != d
    requires var r := g.states[|g.moves|];
             r.calls.Keys == {c, d} && r.calls[c].Added? && r.calls[d].Added?
    ensures Happens(h) && h.states[0] == g.states[0] && h.moves == g.moves + [Announce(c), Announce(d)]
    ensures var r, o := h.states[|h.moves|], g.states[|g.moves|];
            && r.calls == map[c := Announced(o.calls[c].order, o.calls[c].read),
                              d := Announced(o.calls[d].order, o.calls[d].read)]
            && r.s.run == o.s.run
  {
    h := Extend(g, Announce(c));
    h := Extend(h, Announce(d));
  }

  /** The first of the two writes is won and reported, the second is lost. */
  lemma OneWins(g: History, c: Call, d: Call) returns (h: History)
    requires Happens(g) && RaceInv(g.states[|g.moves|]) && c != d
    requires var r := g.states[|g.moves|];
             r.calls.Keys == {c, d} && r.calls[c].Announced? && r.calls[d].Announced?
             && r.calls[c].read == r.s.run == r.calls[d].read && r.s.run.status == Running
    ensures Happens(h) && h.states[0] == g.states[0] && h.moves == g.moves + [Pause(c), Confirm(c), Pause(d)]
    ensures var r, o := h.states[|h.moves|], g.states[|g.moves|];
            r.calls == map[c := Done(o.calls[c].order, o.calls[c].read), d := Lost(o.calls[d].order, o.calls[d].read)]
  {
    h := Extend(g, Pause(c));
    h := Extend(h, Confirm(c));
    h := Extend(h, Pause(d));
  }

  /** From every quiet running run there is such a history: both look up and read, both store, and the second write
      is lost. Two approvals are pending, and one of the requests has raised. */
  lemma TwoRequestsCanLeaveTwoPending(start: Race, c: Call, d: Call, a: Order, b: Order) returns (h: History)
    requires Quiet(start) && c != d && a.id != b.id && a.toolCall != b.toolCall
    requires !Taken(start.s, a) && !Taken(start.s, b)
    ensures TwoRequests(h, c, d, a, b) && h.states[0] == start
    ensures var r := h.states[|h.moves|];
            PendingIds(r.s) == {a.id, b.id} && r.calls[c].Done? && r.calls[d].Lost? && !OnePendingIffWaiting(r.s)
  {
    h := BothStore(start, c, d, a, b);
    h := BothAnnounce(h, c, d);
    HistoryKeepsInv(h, |h.moves|);
    h := OneWins(h, c, d);
    MovesOfTwo(h, c, d, a, b);
    LostLeavesBoth(h, c, d, a, b);
  }

  lemma MovesOfTwo(h: History, c: Call, d: Call, a: Order, b: Order)
    requires h.moves == [Look(c, a), Look(d, b), ReadRun(c), ReadRun(d), Add(c), Add(d)]
                        + [Announce(c), Announce(d)] + [Pause(c), Confirm(c), Pause(d)]
    ensures OnlyRequests(h)
    ensures forall k :: 0 <= k < |h.moves| && h.moves[k].Look? ==> h.moves[k] == Look(c, a) || h.moves[k] == Look(d, b)
  {
  }

  lemma LostLeavesBoth(h: History, c: Call, d: Call, a: Order, b: Order)
    requires Happens(h) && OnlyRequests(h) && Quiet(h.states[0])
    requires var r := h.states[|h.moves|];
             r.calls.Keys == {c, d} && r.calls[c].Done? && r.calls[d].Lost?
             && r.calls[c].order == a && r.calls[d].order == b
    ensures var r := h.states[|h.moves|]; PendingIds(r.s) == {a.id, b.id} && !OnePendingIffWaiting(r.s)
  {
    HistoryIsAlone(h, |h.moves|);
    PendingIsStored(h.states[0].s, h.states[|h.moves|]);
    TwoStored(h.states[0].s, h.states[|h.moves|], d);
    IdsOfBoth(h.states[|h.moves|], c, d, a, b);
  }

  lemma IdsOfBoth(r: Race, c: Call, d: Call, a: Order, b: Order)
    requires r.calls.Keys == {c, d} && HasStored(r.calls[c]) && HasStored(r.calls[d])
    requires r.calls[c].order == a && r.calls[d].order == b
    ensures StoredIds(r) == {a.id, b.id}
  {
    assert c in r.calls && d in r.calls;
    assert r.calls[c].order.id in StoredIds(r) && r.calls[d].order.id in StoredIds(r);
  }
}
