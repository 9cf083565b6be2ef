/** The frames an event becomes on the stream: how many, in which order, and their identifiers. */
module StreamFrames {
  import opened Outcomes
  import opened Whitespace
  import opened Decimals
  import J = JsonPatch
  import A = Activity

  type Event = A.Event

  /** How values are rendered as text, and the wording of the activity. */
  datatype Texts = Texts(render: J.Json -> string, safe: J.Json -> string, wording: A.Wording)

  datatype Frame =
    | RunStarted(run: string)
    | RunFinished(run: string)
    | RunError(source: nat)
    | TextStart(message: string)
    | TextContent(message: string, text: string)
    | TextEnd(message: string)
    | ToolStart(call: string, parent: string)
    | ToolArgs(call: string, source: nat)
    | ToolEnd(call: string)
    | ToolOutcome(call: string, source: nat)
    | Custom(name: string, source: nat)
    | StateSnapshot(source: nat)
    | ActivityFrame(frame: A.Frame)

  // ---------------------------------------------------------- one event, mapped

  /** `str(payload.get(key, default))`. */
  function Rendered(e: Event, key: string, default: string, t: Texts): string {
    if key in e.payload then (if e.payload[key].Text? then e.payload[key].text else t.render(e.payload[key]))
    else default
  }

  function OwnMessage(run: string): string {
    "assistant-" + run
  }

  /** A tool call the harness itself makes: start, arguments, end. */
  function DomainTool(e: Event, call: string, parent: string): seq<Frame> {
    [ToolStart(call, parent), ToolArgs(call, e.sequence), ToolEnd(call)]
  }

  function ArtifactCard(e: Event, parent: string, t: Texts): seq<Frame> {
    var call := "harness-artifact-" + Rendered(e, "artifact_id", e.id, t);
    DomainTool(e, call, parent) + [ToolOutcome(call, e.sequence)]
  }

  function ApprovalCall(e: Event, t: Texts): string {
    "harness-approval-" + Rendered(e, "approval_id", e.id, t)
  }

  function Standard(e: Event, t: Texts): seq<Frame> {
    var message := Rendered(e, "message_id", OwnMessage(e.run), t);
    match e.kind
    case RunQueued => [RunStarted(e.run)]
    case RunSucceeded => [RunFinished(e.run)]
    case RunFailed | RunRejected | RunTimedOut => [RunError(e.sequence)]
    case MessageStart => [TextStart(message)]
    case MessageDelta =>
      var text := if "text" in e.payload then t.safe(e.payload["text"]) else "";
      if text == "" then [] else [TextContent(message, text)]
    case MessageCompleted => [TextEnd(message)]
    case ToolRequest => DomainTool(e, Rendered(e, "tool_call_id", "", t), message)
    case ToolResult => [ToolOutcome(Rendered(e, "tool_call_id", "", t), e.sequence)]
    case ApprovalRequested => DomainTool(e, ApprovalCall(e, t), message)
    case ApprovalApproved | ApprovalRejected => [ToolOutcome(ApprovalCall(e, t), e.sequence)]
    case SubagentDelta | SubagentFailed | SubagentCompleted | SubagentOther =>
      [Custom("harness.subagent.v1", e.sequence)]
    case ArtifactReady => ArtifactCard(e, message, t)
    case OtherArtifact | WorkspaceArchived => [Custom("harness.artifact.v1", e.sequence)]
    case RuntimeResult | RouteSelected => [Custom("harness.runtime.v1", e.sequence)]
    case RunProvisioning | RunRunning | RunResumed | RunCancelling | RunCancelled | OtherRun =>
      [StateSnapshot(e.sequence)]
    case RuntimeSystem | ToolAllowed | Preparation | RecoveryRetained | Other => []
  }

  function ActivityFrames(e: Event, t: Texts): seq<Frame> {
    var frames := A.Projected(e, t.wording);
    seq(|frames|, k requires 0 <= k < |frames| => ActivityFrame(frames[k]))
  }

  /** The run ends in success or in an error. */
  predicate Closing(e: Event) {
    e.kind in {A.RunSucceeded, A.RunFailed, A.RunRejected, A.RunTimedOut}
  }

  predicate Terminal(e: Event) {
    Closing(e) || e.kind == A.RunCancelled
  }

  /** Artifact cards are kept for the end of the run; the activity comes first when the run closes. */
  function Mapped(e: Event, t: Texts): seq<Frame> {
    var standard := if e.kind == A.ArtifactReady then [] else Standard(e, t);
    if Closing(e) then ActivityFrames(e, t) + standard else standard + ActivityFrames(e, t)
  }

  // ------------------------------------------------------ one event, on the stream

  predicate NamesMessage(e: Event, t: Texts) {
    e.kind in {A.MessageStart, A.MessageDelta, A.MessageCompleted} && Strip(Rendered(e, "message_id", "", t)) != ""
  }

  /** The message that files are attached to: the latest one the provider named, or the run's own. */
  function ResponseMessage(run: string, events: seq<Event>, t: Texts): string {
    if events == [] then OwnMessage(run)
    else if NamesMessage(events[|events| - 1], t) then Strip(Rendered(events[|events| - 1], "message_id", "", t))
    else ResponseMessage(run, events[..|events| - 1], t)
  }

  function Cards(events: seq<Event>, parent: string, t: Texts): seq<Frame> {
    if events == [] then []
    else
      var front, e := Cards(events[..|events| - 1], parent, t), events[|events| - 1];
      if e.kind == A.ArtifactReady then front + ArtifactCard(e, parent, t) else front
  }

  function TerminalCards(e: Event, events: seq<Event>, t: Texts): seq<Frame> {
    Cards(events, ResponseMessage(e.run, events, t), t)
  }

  /** The frames of an event, given the events of the run known so far. */
  function Projected(e: Event, events: seq<Event>, t: Texts): seq<Frame> {
    var mapped, own := Mapped(e, t), OwnMessage(e.run);
    if e.kind == A.RunQueued then mapped[..1] + [TextStart(own)] + mapped[1..]
    else if Closing(e) then
      mapped[..|mapped| - 1] + [TextEnd(own)] + TerminalCards(e, events, t) + [mapped[|mapped| - 1]]
    else if e.kind == A.RunCancelled then mapped + [TextEnd(own)]
    else mapped
  }

  // ------------------------------------------------------- what the frames tell

  datatype Sort =
    | Starts | Finishes | Errs | TextOpens | TextGoesOn | TextCloses | ToolOpens | ToolAsks | ToolCloses | ToolAnswers
    | Customs | StateChanges | ActivityShows

  function SortOf(f: Frame): Sort {
    match f
    case RunStarted(_) => Starts
    case RunFinished(_) => Finishes
    case RunError(_) => Errs
    case TextStart(_) => TextOpens
    case TextContent(_, _) => TextGoesOn
    case TextEnd(_) => TextCloses
    case ToolStart(_, _) => ToolOpens
    case ToolArgs(_, _) => ToolAsks
    case ToolEnd(_) => ToolCloses
    case ToolOutcome(_, _) => ToolAnswers
    case Custom(_, _) => Customs
    case StateSnapshot(_) => StateChanges
    case ActivityFrame(_) => ActivityShows
  }

  function Sorts(frames: seq<Frame>): set<Sort> {
    set f | f in frames :: SortOf(f)
  }

  lemma SortsOfBoth(a: seq<Frame>, b: seq<Frame>)
    ensures Sorts(a + b) == Sorts(a) + Sorts(b)
  {
    forall x ensures x in Sorts(a + b) <==> x in Sorts(a) || x in Sorts(b) {
      assert forall f :: f in a + b <==> f in a || f in b;
    }
  }

  predicate Fails(e: Event) {
    e.kind == A.RunFailed || e.kind == A.RunRejected || e.kind == A.RunTimedOut
  }

  predicate HasText(e: Event, t: Texts) {
    e.kind == A.MessageDelta && "text" in e.payload && t.safe(e.payload["text"]) != ""
  }

  /** What a client can tell from the frames of an event: that the run has started, finished or failed, that its state
      changed, that text or a tool call goes on, and the activity. Only the end of a run shows files as well. */
  ghost predicate Tells(sorts: set<Sort>, e: Event, t: Texts) {
    TellsOfRun(sorts, e) && TellsOfWork(sorts, e, t)
  }

  ghost predicate TellsOfRun(sorts: set<Sort>, e: Event) {
    && (Starts in sorts <==> e.kind == A.RunQueued)
    && (Finishes in sorts <==> e.kind == A.RunSucceeded)
    && (Errs in sorts <==> Fails(e))
    && (TextOpens in sorts <==> e.kind == A.RunQueued || e.kind == A.MessageStart)
    && (TextCloses in sorts <==>
          e.kind == A.MessageCompleted || e.kind == A.RunSucceeded || Fails(e) || e.kind == A.RunCancelled)
    && (StateChanges in sorts <==>
          e.kind in {A.RunProvisioning, A.RunRunning, A.RunResumed, A.RunCancelling, A.RunCancelled, A.OtherRun})
  }

  ghost predicate TellsOfWork(sorts: set<Sort>, e: Event, t: Texts) {
    && (TextGoesOn in sorts <==> HasText(e, t))
    && (Customs in sorts <==>
          e.kind in {A.SubagentDelta, A.SubagentFailed, A.SubagentCompleted, A.SubagentOther, A.OtherArtifact,
                     A.WorkspaceArchived, A.RuntimeResult, A.RouteSelected})
    && (ActivityShows in sorts <==> !A.Hidden(e, t.wording))
    && (e.kind != A.RunSucceeded && !Fails(e) ==>
          && (ToolOpens in sorts <==> e.kind == A.ToolRequest || e.kind == A.ApprovalRequested)
          && (ToolAnswers in sorts <==> e.kind in {A.ToolResult, A.ApprovalApproved, A.ApprovalRejected}))
  }

  /** The frames that matter most: a run's start comes first and opens its message, its end comes last, and streamed
      text is the safe text of the event under the message it names. */
  ghost predicate Frames(frames: seq<Frame>, e: Event, t: Texts) {
    && (e.kind == A.RunQueued ==>
          |frames| >= 2 && frames[0] == RunStarted(e.run) && frames[1] == TextStart(OwnMessage(e.run)))
    && (e.kind == A.RunSucceeded ==> frames != [] && frames[|frames| - 1] == RunFinished(e.run))
    && (Fails(e) ==> frames != [] && frames[|frames| - 1] == RunError(e.sequence))
    && (HasText(e, t) ==>
          frames != [] && frames[0] == TextContent(Rendered(e, "message_id", OwnMessage(e.run), t),
                                                   t.safe(e.payload["text"])))
    && (e.kind == A.RunCancelled ==> frames != [] && frames[|frames| - 1] == TextEnd(OwnMessage(e.run)))
  }

  /** The cards of files are tool calls with their answers. */
  lemma {:induction false} CardSorts(events: seq<Event>, parent: string, t: Texts)
    ensures Sorts(Cards(events, parent, t)) <= {ToolOpens, ToolAsks, ToolCloses, ToolAnswers}
  {
    if events != [] {
      CardSorts(events[..|events| - 1], parent, t);
      SortsOfBoth(Cards(events[..|events| - 1], parent, t), ArtifactCard(events[|events| - 1], parent, t));
    }
  }

  lemma ActivitySorts(e: Event, t: Texts)
    ensures Sorts(ActivityFrames(e, t)) == if A.Hidden(e, t.wording) then {} else {ActivityShows}
  {
    A.HiddenIffNotShown(e, t.wording);
    if A.Shown(e, t.wording) {
      assert ActivityFrames(e, t)[0] in ActivityFrames(e, t);
    }
  }

  /** What the stream adds to the frames of an event: the start or the end of the run's own message. */
  function Ends(e: Event): seq<Frame> {
    if e.kind == A.RunQueued then [TextStart(OwnMessage(e.run))]
    else if Terminal(e) then [TextEnd(OwnMessage(e.run))]
    else []
  }

  lemma SortsOfOne(f: Frame)
    ensures Sorts([f]) == {SortOf(f)}
  {
    assert f in [f];
  }

  lemma SortsOfThree(f: Frame, g: Frame, h: Frame)
    ensures Sorts([f, g, h]) == {SortOf(f), SortOf(g), SortOf(h)}
  {
    assert f in [f, g, h] && g in [f, g, h] && h in [f, g, h];
  }

  /** The frames of an event by themselves. */
  lemma StandardSorts(e: Event, t: Texts)
    requires e.kind != A.ArtifactReady
    ensures var frames := Standard(e, t);
            if e.kind == A.ToolRequest || e.kind == A.ApprovalRequested
            then Sorts(frames) == {ToolOpens, ToolAsks, ToolCloses}
            else if frames == [] then Sorts(frames) == {}
            else |frames| == 1 && Sorts(frames) == {SortOf(frames[0])}
  {
    var frames := Standard(e, t);
    if |frames| == 1 {
      SortsOfOne(frames[0]);
      assert frames == [frames[0]];
    } else if |frames| == 3 {
      SortsOfThree(frames[0], frames[1], frames[2]);
      assert frames == [frames[0], frames[1], frames[2]];
    }
  }

  lemma EndSorts(e: Event)
    ensures Sorts(Ends(e)) == if e.kind == A.RunQueued then {TextOpens} else if Terminal(e) then {TextCloses} else {}
  {
    if Ends(e) != [] { SortsOfOne(Ends(e)[0]); }
  }

  /** The sort of the only frame of an event that has one of its own. */
  function OwnSort(e: Event): Sort {
    if e.kind == A.RunQueued then Starts else if e.kind == A.RunSucceeded then Finishes
    else if Fails(e) then Errs else if e.kind == A.MessageStart then TextOpens
    else if e.kind == A.MessageDelta then TextGoesOn
    else if e.kind == A.MessageCompleted then TextCloses
    else if e.kind in {A.ToolResult, A.ApprovalApproved, A.ApprovalRejected} then ToolAnswers
    else if e.kind in {A.RunProvisioning, A.RunRunning, A.RunResumed, A.RunCancelling, A.RunCancelled, A.OtherRun}
    then StateChanges
    else Customs
  }

  predicate Silent(e: Event, t: Texts) {
    || e.kind in {A.RuntimeSystem, A.ToolAllowed, A.Preparation, A.RecoveryRetained, A.Other}
    || (e.kind == A.MessageDelta && !HasText(e, t))
  }

  predicate CallsTool(e: Event) {
    e.kind == A.ToolRequest || e.kind == A.ApprovalRequested
  }

  lemma OneSort(e: Event, t: Texts)
    requires e.kind != A.ArtifactReady && !CallsTool(e)
    ensures Standard(e, t) == [] <==> Silent(e, t)
    ensures Standard(e, t) != [] ==> SortOf(Standard(e, t)[0]) == OwnSort(e)
  {
  }

  lemma OwnSorts(e: Event, t: Texts)
    requires e.kind != A.ArtifactReady
    ensures Sorts(Standard(e, t))
         == if CallsTool(e) then {ToolOpens, ToolAsks, ToolCloses} else if Silent(e, t) then {} else {OwnSort(e)}
  {
    StandardSorts(e, t);
    if !CallsTool(e) { OneSort(e, t); }
  }

  lemma SortsTell(e: Event, t: Texts, own: set<Sort>, ends: set<Sort>, shown: set<Sort>, cards: set<Sort>)
    requires cards <= {ToolOpens, ToolAsks, ToolCloses, ToolAnswers} && (!Closing(e) ==> cards == {})
    requires e.kind != A.ArtifactReady
    requires own == if CallsTool(e) then {ToolOpens, ToolAsks, ToolCloses}
                    else if Silent(e, t) then {} else {OwnSort(e)}
    requires ends == if e.kind == A.RunQueued then {TextOpens} else if Terminal(e) then {TextCloses} else {}
    requires shown == if A.Hidden(e, t.wording) then {} else {ActivityShows}
    ensures Tells(own + ends + shown + cards, e, t)
  {
    RunSortsTell(e, t, own, ends, shown + cards);
    assert own + ends + shown + cards == own + ends + (shown + cards);
    WorkSortsTell(e, t, own + ends, shown, cards);
  }

  lemma RunSortsTell(e: Event, t: Texts, own: set<Sort>, ends: set<Sort>, rest: set<Sort>)
    requires rest <= {ToolOpens, ToolAsks, ToolCloses, ToolAnswers, ActivityShows} && e.kind != A.ArtifactReady
    requires own == if CallsTool(e) then {ToolOpens, ToolAsks, ToolCloses}
                    else if Silent(e, t) then {} else {OwnSort(e)}
    requires ends == if e.kind == A.RunQueued then {TextOpens} else if Terminal(e) then {TextCloses} else {}
    ensures TellsOfRun(own + ends + rest, e)
  {
  }

  lemma WorkSortsTell(e: Event, t: Texts, own: set<Sort>, shown: set<Sort>, cards: set<Sort>)
    requires cards <= {ToolOpens, ToolAsks, ToolCloses, ToolAnswers} && (!Closing(e) ==> cards == {})
    requires e.kind != A.ArtifactReady
    requires own - {TextOpens, TextCloses}
          == (if CallsTool(e) then {ToolOpens, ToolAsks, ToolCloses} else if Silent(e, t) then {} else {OwnSort(e)})
             - {TextOpens, TextCloses}
    requires shown == if A.Hidden(e, t.wording) then {} else {ActivityShows}
    ensures TellsOfWork(own + shown + cards, e, t)
  {
    assert forall x :: x != TextOpens && x != TextCloses ==> (x in own <==> x in own - {TextOpens, TextCloses});
  }

  /** What is sent for an event is its own frames, the stream's, its activity, and the files at the end of a run. */
  lemma ProjectedSorts(e: Event, events: seq<Event>, t: Texts)
    requires e.kind != A.ArtifactReady
    ensures Sorts(Projected(e, events, t))
         == Sorts(Standard(e, t)) + Sorts(Ends(e)) + Sorts(ActivityFrames(e, t))
            + if Closing(e) then Sorts(TerminalCards(e, events, t)) else {}
  {
    var mapped, own, standard, shown := Mapped(e, t), OwnMessage(e.run), Standard(e, t), ActivityFrames(e, t);
    if e.kind == A.RunQueued {
      assert mapped[..1] == standard && mapped[1..] == shown;
      SortsOfBoth(standard + Ends(e), shown);
      SortsOfBoth(standard, Ends(e));
    } else if Closing(e) {
      var cards := TerminalCards(e, events, t);
      assert mapped[..|mapped| - 1] == shown && [mapped[|mapped| - 1]] == standard;
      SortsOfBoth(shown + Ends(e) + cards, standard);
      SortsOfBoth(shown + Ends(e), cards);
      SortsOfBoth(shown, Ends(e));
    } else {
      SortsOfBoth(standard, shown);
      SortsOfBoth(mapped, Ends(e));
      assert Ends(e) == [] ==> mapped + Ends(e) == mapped;
    }
  }

  lemma ProjectedFrames(e: Event, events: seq<Event>, t: Texts)
    ensures Frames(Projected(e, events, t), e, t)
  {
    var mapped, shown, frames := Mapped(e, t), ActivityFrames(e, t), Projected(e, events, t);
    if e.kind == A.RunQueued {
      assert mapped == [RunStarted(e.run)] + shown && frames[0] == mapped[0];
      assert frames[1] == TextStart(OwnMessage(e.run));
    } else if Closing(e) {
      ClosingLast(e, t);
    } else if e.kind == A.RunCancelled {
      assert frames == mapped + [TextEnd(OwnMessage(e.run))];
    } else if HasText(e, t) {
      assert mapped == Standard(e, t) + shown && frames == mapped;
    }
  }

  lemma ClosingLast(e: Event, t: Texts)
    requires Closing(e)
    ensures var mapped := Mapped(e, t);
            mapped != [] && mapped[|mapped| - 1] == if e.kind == A.RunSucceeded then RunFinished(e.run)
                                                    else RunError(e.sequence)
  {
    assert Mapped(e, t) == ActivityFrames(e, t) + Standard(e, t) && |Standard(e, t)| == 1;
  }

  lemma ArtifactTells(e: Event, events: seq<Event>, t: Texts)
    requires e.kind == A.ArtifactReady
    ensures Tells(Sorts(Projected(e, events, t)), e, t)
  {
    ActivitySorts(e, t);
    assert Projected(e, events, t) == ActivityFrames(e, t);
  }

  lemma PartsTell(e: Event, t: Texts, cards: set<Sort>)
    requires cards <= {ToolOpens, ToolAsks, ToolCloses, ToolAnswers} && (!Closing(e) ==> cards == {})
    requires e.kind != A.ArtifactReady
    ensures Tells(Sorts(Standard(e, t)) + Sorts(Ends(e)) + Sorts(ActivityFrames(e, t)) + cards, e, t)
  {
    OwnSorts(e, t);
    EndSorts(e);
    ActivitySorts(e, t);
    SortsTell(e, t, Sorts(Standard(e, t)), Sorts(Ends(e)), Sorts(ActivityFrames(e, t)), cards);
  }

  lemma ProjectedTells(e: Event, events: seq<Event>, t: Texts)
    ensures Tells(Sorts(Projected(e, events, t)), e, t)
  {
    if e.kind == A.ArtifactReady {
      ArtifactTells(e, events, t);
    } else {
      var cards := if Closing(e) then Sorts(TerminalCards(e, events, t)) else {};
      CardSorts(events, ResponseMessage(e.run, events, t), t);
      PartsTell(e, t, cards);
      ProjectedSorts(e, events, t);
    }
  }

  /** The event is of a message, and names it. */
  predicate Addresses(e: Event, t: Texts) {
    && (e.kind == A.MessageStart || e.kind == A.MessageDelta || e.kind == A.MessageCompleted)
    && Strip(Rendered(e, "message_id", "", t)) != ""
  }

  /** Where no event names a message, files go on the run's own. */
  lemma {:induction false} ResponseIsOwn(run: string, events: seq<Event>, t: Texts)
    requires forall k :: 0 <= k < |events| ==> !Addresses(events[k], t)
    ensures ResponseMessage(run, events, t) == "assistant-" + run
  {
    if events != [] { ResponseIsOwn(run, events[..|events| - 1], t); }
  }

  /** Otherwise they go on the message named by the last event that names one. */
  lemma {:induction false} ResponseIsLastNamed(run: string, events: seq<Event>, t: Texts, k: nat)
    requires k < |events| && Addresses(events[k], t) && forall j :: k < j < |events| ==> !Addresses(events[j], t)
    ensures ResponseMessage(run, events, t) == Strip(Rendered(events[k], "message_id", "", t))
  {
    if k < |events| - 1 {
      assert !Addresses(events[|events| - 1], t);
      ResponseIsLastNamed(run, events[..|events| - 1], t, k);
    }
  }

  method ResponseMessageId(run: string, events: seq<Event>, t: Texts) returns (message: string)
    ensures message == ResponseMessage(run, events, t)
  {
    var i := |events|;
    assert events[..i] == events;
    while i > 0
      invariant 0 <= i <= |events|
      invariant ResponseMessage(run, events, t) == ResponseMessage(run, events[..i], t)
    {
      i := i - 1;
      assert events[..i + 1][..i] == events[..i];
      if NamesMessage(events[i], t) {
        return Strip(Rendered(events[i], "message_id", "", t));
      }
    }
    message := OwnMessage(run);
  }

  method TerminalArtifactProjection(e: Event, events: seq<Event>, t: Texts) returns (frames: seq<Frame>)
    ensures frames == TerminalCards(e, events, t)
  {
    var message := ResponseMessageId(e.run, events, t);
    frames := [];
    for i := 0 to |events|
      invariant frames == Cards(events[..i], message, t)
    {
      assert events[..i + 1][..i] == events[..i];
      if events[i].kind == A.ArtifactReady {
        frames := frames + ArtifactCard(events[i], message, t);
      }
    }
    assert events[..|events|] == events;
  }

  method ProjectStreamEvent(e: Event, events: seq<Event>, t: Texts) returns (frames: seq<Frame>)
    ensures frames == Projected(e, events, t)
    ensures Tells(Sorts(frames), e, t) && Frames(frames, e, t)
  {
    ProjectedTells(e, events, t);
    ProjectedFrames(e, events, t);
    var mapped, own := Mapped(e, t), OwnMessage(e.run);
    if e.kind == A.RunQueued {
      return mapped[..1] + [TextStart(own)] + mapped[1..];
    }
    if Closing(e) {
      var cards := TerminalArtifactProjection(e, events, t);
      return mapped[..|mapped| - 1] + [TextEnd(own)] + cards + [mapped[|mapped| - 1]];
    }
    frames := if e.kind == A.RunCancelled then mapped + [TextEnd(own)] else mapped;
  }

  // ----------------------------------------------------------------- identifiers

  datatype Sent = Sent(id: string, frame: Frame)

  /** The identifier of the child-th of `count` frames of an event. */
  function FrameId(sequence: nat, count: nat, child: nat): string {
    if count == 1 then Digits(sequence) else Digits(sequence) + ":" + Digits(child + 1)
  }

  /** `int(text)`: white space around, a sign, digits with single underscores between them. */
  function ParsedInt(text: string): Option<int> {
    var s := Strip(text);
    if s == "" then None
    else if s[0] == '-' then (var n := ParsedNat(s[1..]); if n == None then None else Some(-n.value))
    else if s[0] == '+' then ParsedNat(s[1..])
    else ParsedNat(s)
  }

  predicate GroupedDigits(s: string) {
    && s != "" && IsDigit(s[0]) && IsDigit(s[|s| - 1])
    && (forall c :: c in s ==> IsDigit(c) || c == '_')
    && (forall i :: 0 < i < |s| ==> IsDigit(s[i - 1]) || IsDigit(s[i]))
  }

  function WithoutUnderscores(s: string): string {
    if s == "" then ""
    else if s[0] == '_' then WithoutUnderscores(s[1..])
    else [s[0]] + WithoutUnderscores(s[1..])
  }

  function ParsedNat(s: string): Option<int> {
    if GroupedDigits(s) && AllDigits(WithoutUnderscores(s)) then Some(Value(WithoutUnderscores(s))) else None
  }

  /** `text.partition(":")`. */
  function BeforeColon(s: string): string {
    if s == "" || s[0] == ':' then "" else [s[0]] + BeforeColon(s[1..])
  }

  function NotNegative(n: int): nat {
    if n < 0 then 0 else n
  }

  /** The event sequence and number of its frames that were already received. */
  function ProjectedEventCursor(lastEventId: Option<string>): (nat, nat) {
    var raw := Strip(if lastEventId == None || lastEventId.value == "" then "0" else lastEventId.value);
    var head := BeforeColon(raw);
    var separated := |head| < |raw|;
    var sequence := ParsedInt(head);
    var child := if separated then ParsedInt(raw[|head| + 1..]) else Some(0);
    if sequence == None || child == None then (0, 0)
    else (NotNegative(sequence.value), NotNegative(child.value))
  }

  lemma {:induction false} BeforeColonShorter(s: string)
    ensures |BeforeColon(s)| <= |s|
    ensures ':' !in s ==> BeforeColon(s) == s
  {
    if s != "" && s[0] != ':' { BeforeColonShorter(s[1..]); }
  }

  lemma {:induction false} BeforeColonIs(a: string, b: string)
    requires ':' !in a
    ensures BeforeColon(a + ":" + b) == a
  {
    if a != "" {
      assert (a + ":" + b)[1..] == a[1..] + ":" + b;
      BeforeColonIs(a[1..], b);
    }
  }

  lemma {:induction false} NoUnderscores(s: string)
    requires AllDigits(s)
    ensures WithoutUnderscores(s) == s
  {
    if s != "" {
      assert s[0] in s && AllDigits(s[1..]);
      NoUnderscores(s[1..]);
    }
  }

  lemma DigitsAtBothEnds(n: nat)
    ensures var s := Digits(n); IsDigit(s[0]) && IsDigit(s[|s| - 1])
    ensures ':' !in Digits(n) && Strip(Digits(n)) == Digits(n)
  {
    var s := Digits(n);
    assert s[0] in s && s[|s| - 1] in s;
  }

  lemma DigitsParse(n: nat)
    ensures ParsedInt(Digits(n)) == Some(n)
  {
    DigitsAtBothEnds(n);
    NoUnderscores(Digits(n));
    ValueOfDigits(n);
  }

  lemma {:induction false} CursorReadsSequence(sequence: nat)
    ensures ProjectedEventCursor(Some(Digits(sequence))) == (sequence, 0)
  {
    DigitsAtBothEnds(sequence);
    DigitsParse(sequence);
    BeforeColonShorter(Digits(sequence));
  }

  lemma CursorReadsChild(sequence: nat, child: nat)
    ensures ProjectedEventCursor(Some(Digits(sequence) + ":" + Digits(child))) == (sequence, child)
  {
    var s, c := Digits(sequence), Digits(child);
    var raw := s + ":" + c;
    DigitsAtBothEnds(sequence);
    DigitsAtBothEnds(child);
    DigitsParse(sequence);
    DigitsParse(child);
    BeforeColonIs(s, c);
    assert raw[0] == s[0] && raw[|raw| - 1] == c[|c| - 1];
    assert Strip(raw) == raw && raw[|s| + 1..] == c;
  }

  /** The identifier of a frame, sent back, is read as its event and how many frames of it were received. */
  lemma CursorReadsFrameId(sequence: nat, count: nat, child: nat)
    ensures ProjectedEventCursor(Some(FrameId(sequence, count, child)))
         == (sequence, if count == 1 then 0 else child + 1)
  {
    CursorReadsSequence(sequence);
    CursorReadsChild(sequence, child + 1);
  }
}
