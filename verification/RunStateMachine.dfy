/** The run state machine: which status may follow which, and paths through that table. */
module RunStateMachine {
  import opened Outcomes

  datatype Status =
    | Queued | Provisioning | Running | WaitingApproval | Cancelling
    | Cancelled | Succeeded | Failed | TimedOut | Rejected

  datatype InvalidTransition = InvalidTransition(current: Status, target: Status)

  predicate Terminal(s: Status) {
    s in {Cancelled, Succeeded, Failed, TimedOut, Rejected}
  }

  function Allowed(s: Status): set<Status> {
    match s
    case Queued => {Provisioning, Cancelling, Cancelled, TimedOut}
    case Provisioning => {Running, Cancelling, Failed, TimedOut}
    case Running => {WaitingApproval, Cancelling, Succeeded, Failed, TimedOut}
    case WaitingApproval => {Running, Cancelling, Rejected, Failed, TimedOut}
    case Cancelling => {Cancelled, Failed}
    case _ => {}
  }

  function Transition(current: Status, target: Status): Result<Status, InvalidTransition> {
    if Terminal(current) || target !in Allowed(current)
    then Err(InvalidTransition(current, target))
    else Ok(target)
  }

  /** A run that is being stopped or has ended. */
  predicate Stopping(s: Status) {
    s == Cancelling || Terminal(s)
  }

  /** What a winning write to the run record did: enter a status, or reclaim the run for a new worker. */
  datatype Mark = Entered(status: Status) | Recovered

  predicate LegalMark(current: Status, mark: Mark) {
    match mark
    case Entered(target) => Transition(current, target).Ok?
    case Recovered => current == Provisioning || current == Running
  }

  function StatusAfter(path: seq<Mark>): Status {
    if path == [] then Queued
    else match path[|path| - 1]
      case Entered(s) => s
      case Recovered => StatusAfter(path[..|path| - 1])
  }

  /** A history of a run record: it starts in `Queued` and every later mark was legal when made. */
  ghost predicate LegalPath(path: seq<Mark>) {
    && path != []
    && (if |path| == 1 then path[0] == Entered(Queued)
        else LegalPath(path[..|path| - 1])
             && LegalMark(StatusAfter(path[..|path| - 1]), path[|path| - 1]))
  }

  /** A terminal status has no successor, so it can only be the last of a path. */
  lemma {:induction false} TerminalIsLast(path: seq<Mark>, i: nat)
    requires LegalPath(path) && i < |path|
    requires Terminal(StatusAfter(path[..i + 1]))
    ensures i == |path| - 1
  {
    if i < |path| - 2 {
      var front := path[..|path| - 1];
      assert front[..i + 1] == path[..i + 1];
      TerminalIsLast(front, i);
    }
  }

  /** Once a path has asked to stop it never runs again: it waits in `Cancelling` or has ended. */
  lemma {:induction false} StoppingStays(path: seq<Mark>, i: nat)
    requires LegalPath(path) && i < |path|
    requires Stopping(StatusAfter(path[..i + 1]))
    ensures Stopping(StatusAfter(path))
    decreases |path|
  {
    if i == |path| - 1 {
      assert path[..i + 1] == path;
    } else {
      var front := path[..|path| - 1];
      assert front[..i + 1] == path[..i + 1];
      StoppingStays(front, i);
    }
  }

  /** Whatever follows a `Cancelling` record has ended the run. */
  lemma {:induction false} CancellingEnds(path: seq<Mark>, i: nat)
    requires LegalPath(path) && i < |path| - 1
    requires StatusAfter(path[..i + 1]) == Cancelling
    ensures Terminal(StatusAfter(path))
    decreases |path|
  {
    var front := path[..|path| - 1];
    assert front[..i + 1] == path[..i + 1];
    if i < |front| - 1 {
      CancellingEnds(front, i);
    } else {
      assert front == path[..i + 1];
    }
  }

  /** A run is queued only until its first write, and provisioned by its first write or never. */
  lemma {:induction false} OnlyTheFirstProvisions(path: seq<Mark>)
    requires LegalPath(path)
    ensures StatusAfter(path) == Queued ==> |path| == 1
    ensures Entered(Provisioning) in path <==> |path| > 1 && path[1] == Entered(Provisioning)
    decreases |path|
  {
    if |path| > 1 {
      var front := path[..|path| - 1];
      assert path == front + [path[|path| - 1]];
      OnlyTheFirstProvisions(front);
    }
  }

  /** A run that is cancelled was never provisioned exactly when the cancellation was its first write. */
  lemma {:induction false} UnprovisionedIffCancelledFirst(path: seq<Mark>)
    requires LegalPath(path) && Entered(Cancelling) in path
    ensures |path| > 1
    ensures Entered(Provisioning) !in path <==> path[1] == Entered(Cancelling)
    decreases |path|
  {
    var front := path[..|path| - 1];
    assert path == front + [path[|path| - 1]];
    if |front| > 1 {
      assert front[1] == path[1];
      if Entered(Cancelling) in front {
        UnprovisionedIffCancelledFirst(front);
        if front[1] == Entered(Cancelling) { }
      } else {
        FirstWriteProvisions(front);
      }
    } else {
      assert front == [Entered(Queued)];
    }
  }

  /** A path that has not been cancelled and can still be was provisioned by its first write. */
  lemma {:induction false} FirstWriteProvisions(path: seq<Mark>)
    requires LegalPath(path) && |path| > 1 && !Stopping(StatusAfter(path))
    ensures path[1] == Entered(Provisioning) && path[1] in path
    decreases |path|
  {
    var front := path[..|path| - 1];
    if |front| > 1 {
      if Stopping(StatusAfter(front)) { StoppingStays(path, |front| - 1); }
      FirstWriteProvisions(front);
    }
  }

}
