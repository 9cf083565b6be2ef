/** When the live stream, its replay and the activity rebuilt from history show the same. */
module StreamAgreement {
  import opened Outcomes
  import opened StreamFrames
  import opened Flattening
  import opened EventStream
  import J = JsonPatch
  import A = Activity

  // --------------------------------------------------------------- live and replay

  predicate NoArtifact(events: seq<Event>) {
    forall e :: e in events ==> e.kind != A.ArtifactReady
  }

  /** What a closing event shows does not depend on what comes after it: no file does, and the files before it
      hang on the same message. */
  predicate Settled(log: seq<Event>, i: nat, t: Texts)
    requires i < |log|
  {
    && NoArtifact(log[i + 1..])
    && (NoArtifact(log[..i + 1])
        || ResponseMessage(log[i].run, log[..i + 1], t) == ResponseMessage(log[i].run, log, t))
  }

  lemma {:induction false} CardsAdd(a: seq<Event>, b: seq<Event>, parent: string, t: Texts)
    ensures Cards(a + b, parent, t) == Cards(a, parent, t) + Cards(b, parent, t)
    decreases |b|
  {
    if b == [] {
      assert a + b == a;
    } else {
      assert (a + b)[..|a + b| - 1] == a + b[..|b| - 1];
      CardsAdd(a, b[..|b| - 1], parent, t);
    }
  }

  /** Every file is one card of four frames, whatever message it hangs on. */
  lemma {:induction false} CardsCount(events: seq<Event>, parent: string, other: string, t: Texts)
    ensures |Cards(events, parent, t)| == |Cards(events, other, t)|
    ensures Cards(events, parent, t) == [] <==> NoArtifact(events)
    ensures parent != other && !NoArtifact(events) ==> Cards(events, parent, t) != Cards(events, other, t)
  {
    if events != [] {
      var front, e := events[..|events| - 1], events[|events| - 1];
      assert events == front + [e];
      CardsCount(front, parent, other, t);
      if e.kind == A.ArtifactReady {
        assert e in events;
        var n := |Cards(front, parent, t)|;
        assert Cards(events, parent, t)[n] == ArtifactCard(e, parent, t)[0];
        assert Cards(events, other, t)[n] == ArtifactCard(e, other, t)[0];
      }
    }
  }

  lemma TerminalCardsAgreeIff(log: seq<Event>, i: nat, t: Texts)
    requires i < |log|
    ensures TerminalCards(log[i], log[..i + 1], t) == TerminalCards(log[i], log, t) <==> Settled(log, i, t)
    ensures |TerminalCards(log[i], log[..i + 1], t)| <= |TerminalCards(log[i], log, t)|
  {
    var early, late := ResponseMessage(log[i].run, log[..i + 1], t), ResponseMessage(log[i].run, log, t);
    assert log == log[..i + 1] + log[i + 1..];
    CardsAdd(log[..i + 1], log[i + 1..], late, t);
    CardsCount(log[..i + 1], early, late, t);
    CardsCount(log[i + 1..], early, late, t);
  }

  lemma ProjectedAgreesIff(log: seq<Event>, i: nat, t: Texts)
    requires i < |log|
    ensures Projected(log[i], log[..i + 1], t) == Projected(log[i], log, t) <==>
              (Closing(log[i]) ==> Settled(log, i, t))
    ensures |Projected(log[i], log[..i + 1], t)| <= |Projected(log[i], log, t)|
  {
    if Closing(log[i]) {
      TerminalCardsAgreeIff(log, i, t);
      var mapped := Mapped(log[i], t);
      var head, last := mapped[..|mapped| - 1] + [TextEnd(OwnMessage(log[i].run))], [mapped[|mapped| - 1]];
      SameMiddle(head, TerminalCards(log[i], log[..i + 1], t), TerminalCards(log[i], log, t), last);
    }
  }

  lemma SameMiddle<T>(a: seq<T>, b: seq<T>, c: seq<T>, d: seq<T>)
    ensures a + b + d == a + c + d <==> b == c
  {
    if a + b + d == a + c + d {
      assert |b| == |c|;
      assert b == (a + b + d)[|a|..|a| + |b|] == (a + c + d)[|a|..|a| + |b|] == c;
    }
  }

  lemma NumberedAgreesIff(e: Event, a: seq<Frame>, b: seq<Frame>)
    ensures Numbered(e, a) == Numbered(e, b) <==> a == b
  {
    if Numbered(e, a) == Numbered(e, b) {
      assert |a| == |Numbered(e, a)| && |b| == |Numbered(e, b)|;
      forall k | 0 <= k < |a| ensures a[k] == b[k] {
        assert Numbered(e, a)[k].frame == a[k] && Numbered(e, b)[k].frame == b[k];
      }
    }
  }

  /** What the i-th event sends live, and in a replay. */
  lemma PartsAt(log: seq<Event>, i: nat, t: Texts)
    requires i < |log|
    ensures LiveParts(log, |log|, Stream(t))[i] == Numbered(log[i], Projected(log[i], log[..i + 1], t))
    ensures ReplayParts(log, Stream(t))[i] == Numbered(log[i], Projected(log[i], log, t))
  {
    LivePart(log, |log|, i, Stream(t));
  }

  lemma NumberedParts(e: Event, live: seq<Sent>, replay: seq<Sent>, a: seq<Frame>, b: seq<Frame>, agree: bool)
    requires live == Numbered(e, a) && replay == Numbered(e, b) && |a| <= |b| && (a == b <==> agree)
    ensures (live == replay <==> agree) && |live| <= |replay|
  {
    NumberedAgreesIff(e, a, b);
  }

  lemma PartsAgreeIff(log: seq<Event>, i: nat, t: Texts)
    requires i < |log|
    ensures LiveParts(log, |log|, Stream(t))[i] == ReplayParts(log, Stream(t))[i]
       <==> (Closing(log[i]) ==> Settled(log, i, t))
    ensures |LiveParts(log, |log|, Stream(t))[i]| <= |ReplayParts(log, Stream(t))[i]|
  {
    ProjectedAgreesIff(log, i, t);
    PartsAt(log, i, t);
    NumberedParts(log[i], LiveParts(log, |log|, Stream(t))[i], ReplayParts(log, Stream(t))[i],
                  Projected(log[i], log[..i + 1], t), Projected(log[i], log, t),
                  Closing(log[i]) ==> Settled(log, i, t));
  }

  ghost predicate AllSettled(log: seq<Event>, t: Texts) {
    forall i :: 0 <= i < |log| && Closing(log[i]) ==> Settled(log, i, t)
  }

  /** What was sent live is what a replay sends exactly when nothing after a closing event changes its file cards. */
  lemma LiveEqualsReplayIff(log: seq<Event>, t: Texts)
    ensures LiveFrames(log, |log|, Stream(t)) == Replay(log, Stream(t)) <==> AllSettled(log, t)
  {
    var live, replay := LiveParts(log, |log|, Stream(t)), ReplayParts(log, Stream(t));
    forall i | 0 <= i < |log| ensures |live[i]| <= |replay[i]| { PartsAgreeIff(log, i, t); }
    if AllSettled(log, t) {
      forall i | 0 <= i < |log| ensures live[i] == replay[i] { PartsAgreeIff(log, i, t); }
      assert live == replay;
    } else {
      var i :| 0 <= i < |log| && Closing(log[i]) && !Settled(log, i, t);
      PartsAgreeIff(log, i, t);
      if Flat(live) == Flat(replay) { EqualWholesHaveEqualParts(live, replay); }
    }
  }

  /** In particular when the run's terminal event is its last event. */
  lemma TerminalLastAgrees(log: seq<Event>, t: Texts)
    requires forall i :: 0 <= i < |log| - 1 ==> !Terminal(log[i])
    ensures LiveFrames(log, |log|, Stream(t)) == Replay(log, Stream(t))
  {
    LiveEqualsReplayIff(log, t);
    forall i | 0 <= i < |log| && Closing(log[i]) ensures Settled(log, i, t) {
      assert log[i + 1..] == [] && log[..i + 1] == log;
    }
  }

  /** A stream that is followed to the end sends every event, however the polls cut the log. */
  lemma {:induction false} FollowedToTheEnd(log: seq<Event>, polls: seq<nat>, k: nat)
    requires k < |polls| && polls[k] == |log|
    requires forall i :: 0 <= i < |polls| ==> polls[i] <= |log|
    requires forall i :: 0 <= i < |log| - 1 ==> !Terminal(log[i])
    ensures Delivered(log, polls) == |log|
    decreases |polls|
  {
    var front := polls[..|polls| - 1];
    DeliveredInRange(log, front);
    if k < |front| { FollowedToTheEnd(log, front, k); }
  }

  // ------------------------------------------------------- reconnecting while it runs

  lemma BeforeClosing(log: seq<Event>, n: nat, t: Texts)
    requires n <= |log| && forall i :: 0 <= i < n ==> !Closing(log[i])
    ensures LiveParts(log, n, Stream(t)) == ReplayParts(log, Stream(t))[..n]
  {
    forall i | 0 <= i < n ensures LiveParts(log, n, Stream(t))[i] == ReplayParts(log, Stream(t))[i] {
      PartsAgreeIff(log, i, t);
      assert LiveParts(log, n, Stream(t))[i] == LiveParts(log, |log|, Stream(t))[i];
    }
  }

  /** A client that saw part of the live stream and reconnects with the identifier of its last frame has then seen
      exactly the replay of the whole log, whatever was appended meanwhile. */
  lemma LiveThenReconnect(log: seq<Event>, n: nat, t: Texts)
    requires Dense(log) && n <= |log| && forall i :: 0 <= i < n ==> !Closing(log[i])
    ensures var live := LiveFrames(log, n, Stream(t));
            forall k :: 0 <= k < |live| ==>
              live[..k + 1] + Resumed(log, Some(live[k].id), Stream(t)) == Replay(log, Stream(t))
  {
    var live := LiveFrames(log, n, Stream(t));
    BeforeClosing(log, n, t);
    forall k | 0 <= k < |live|
      ensures live[..k + 1] + Resumed(log, Some(live[k].id), Stream(t)) == Replay(log, Stream(t))
    {
      ContinueWithReplay(log, n, k, Stream(t));
    }
  }

  // ----------------------------------------------------------- the activity it carries

  function Activities(sent: seq<Sent>): seq<A.Frame> {
    FrameActivities(Frames(sent))
  }

  function Frames(sent: seq<Sent>): seq<Frame> {
    seq(|sent|, k requires 0 <= k < |sent| => sent[k].frame)
  }

  function FrameActivities(frames: seq<Frame>): seq<A.Frame> {
    if frames == [] then []
    else (if frames[0].ActivityFrame? then [frames[0].frame] else []) + FrameActivities(frames[1..])
  }

  lemma ActivitiesConcat(a: seq<Sent>, b: seq<Sent>)
    ensures Activities(a + b) == Activities(a) + Activities(b)
  {
    assert Frames(a + b) == Frames(a) + Frames(b);
    FrameActivitiesConcat(Frames(a), Frames(b));
  }

  lemma {:induction false} FrameActivitiesConcat(a: seq<Frame>, b: seq<Frame>)
    ensures FrameActivities(a + b) == FrameActivities(a) + FrameActivities(b)
    decreases |a|
  {
    if a == [] {
      assert a + b == b;
    } else {
      assert (a + b)[0] == a[0] && (a + b)[1..] == a[1..] + b;
      FrameActivitiesConcat(a[1..], b);
    }
  }

  predicate NoActivity(frames: seq<Frame>) {
    forall k :: 0 <= k < |frames| ==> !frames[k].ActivityFrame?
  }

  lemma {:induction false} NoActivityIsEmpty(frames: seq<Frame>)
    requires NoActivity(frames)
    ensures FrameActivities(frames) == []
  {
    if frames != [] { NoActivityIsEmpty(frames[1..]); }
  }

  lemma {:induction false} CardsCarryNone(events: seq<Event>, parent: string, t: Texts)
    ensures NoActivity(Cards(events, parent, t))
  {
    if events != [] { CardsCarryNone(events[..|events| - 1], parent, t); }
  }

  lemma StandardCarriesNone(e: Event, t: Texts)
    ensures NoActivity(Standard(e, t))
    ensures Closing(e) || e.kind == A.RunQueued ==> |Standard(e, t)| == 1
  {
  }

  lemma ActivityFramesCarryAll(e: Event, t: Texts)
    ensures FrameActivities(ActivityFrames(e, t)) == A.Projected(e, t.wording)
  {
    var frames := A.Projected(e, t.wording);
    if frames != [] {
      assert ActivityFrames(e, t)[1..] == [] && frames == [frames[0]];
    }
  }

  /** Among the frames of an event are exactly the activity frames of that event. */
  lemma ProjectedCarries(e: Event, known: seq<Event>, t: Texts)
    ensures FrameActivities(Projected(e, known, t)) == A.Projected(e, t.wording)
  {
    ActivityFramesCarryAll(e, t);
    StandardCarriesNone(e, t);
    NoActivityIsEmpty(Standard(e, t));
    if Closing(e) {
      ClosingCarries(e, known, t);
    } else if e.kind == A.RunQueued {
      QueuedCarries(e, known, t);
    } else {
      var standard := if e.kind == A.ArtifactReady then [] else Standard(e, t);
      FrameActivitiesConcat(standard, ActivityFrames(e, t));
      if e.kind == A.RunCancelled {
        FrameActivitiesConcat(Mapped(e, t), [TextEnd(OwnMessage(e.run))]);
        NoActivityIsEmpty([TextEnd(OwnMessage(e.run))]);
      }
    }
  }

  lemma ClosingCarries(e: Event, known: seq<Event>, t: Texts)
    requires Closing(e) && FrameActivities(ActivityFrames(e, t)) == A.Projected(e, t.wording)
    requires |Standard(e, t)| == 1 && NoActivity(Standard(e, t))
    ensures FrameActivities(Projected(e, known, t)) == A.Projected(e, t.wording)
  {
    CardsCarryNone(known, ResponseMessage(e.run, known, t), t);
    OnlyFirstCarries(ActivityFrames(e, t), [TextEnd(OwnMessage(e.run))], TerminalCards(e, known, t), Standard(e, t));
    ClosingShape(e, known, t);
  }

  lemma ClosingShape(e: Event, known: seq<Event>, t: Texts)
    requires Closing(e) && |Standard(e, t)| == 1
    ensures Projected(e, known, t)
         == ActivityFrames(e, t) + [TextEnd(OwnMessage(e.run))] + TerminalCards(e, known, t) + Standard(e, t)
  {
    var mapped := Mapped(e, t);
    assert mapped[..|mapped| - 1] == ActivityFrames(e, t) && [mapped[|mapped| - 1]] == Standard(e, t);
  }

  lemma OnlyFirstCarries(activity: seq<Frame>, end: seq<Frame>, cards: seq<Frame>, standard: seq<Frame>)
    requires NoActivity(end) && NoActivity(cards) && NoActivity(standard)
    ensures FrameActivities(activity + end + cards + standard) == FrameActivities(activity)
  {
    NoActivityIsEmpty(end);
    NoActivityIsEmpty(cards);
    NoActivityIsEmpty(standard);
    FrameActivitiesConcat(activity, end);
    FrameActivitiesConcat(activity + end, cards);
    FrameActivitiesConcat(activity + end + cards, standard);
  }

  lemma QueuedCarries(e: Event, known: seq<Event>, t: Texts)
    requires e.kind == A.RunQueued && FrameActivities(ActivityFrames(e, t)) == A.Projected(e, t.wording)
    requires |Standard(e, t)| == 1 && NoActivity(Standard(e, t))
    ensures FrameActivities(Projected(e, known, t)) == A.Projected(e, t.wording)
  {
    var opening := Standard(e, t) + [TextStart(OwnMessage(e.run))];
    assert Mapped(e, t)[..1] == Standard(e, t) && Mapped(e, t)[1..] == ActivityFrames(e, t);
    NoActivityIsEmpty(opening);
    FrameActivitiesConcat(opening, ActivityFrames(e, t));
  }

  lemma {:induction false} ShowAllConcat(view: Option<J.Json>, a: seq<A.Frame>, b: seq<A.Frame>)
    ensures A.ShowAll(view, a + b) == A.ShowAll(A.ShowAll(view, a), b)
    decreases |a|
  {
    if a == [] {
      assert a + b == b;
    } else {
      assert (a + b)[0] == a[0] && (a + b)[1..] == a[1..] + b;
      ShowAllConcat(A.Show(view, a[0]), a[1..], b);
    }
  }

  /** Among the frames sent are exactly the activity frames of the event. */
  predicate Carries(part: seq<Sent>, e: Event, t: Texts) {
    Activities(part) == A.Projected(e, t.wording)
  }

  /** The parts are the frames of the events, whatever was known when each was sent. */
  ghost predicate PartsOf(log: seq<Event>, parts: seq<seq<Sent>>, t: Texts) {
    |parts| == |log| && forall i :: 0 <= i < |log| ==> Carries(parts[i], log[i], t)
  }

  lemma StreamCarriesActivity(log: seq<Event>, parts: seq<seq<Sent>>, t: Texts)
    requires PartsOf(log, parts, t)
    ensures A.ShowAll(None, Activities(Flat(parts))) == A.Live(log, t.wording)
  {
    FirstPartsCarry(log, parts, |log|, t);
    assert log[..|log|] == log && parts[..|log|] == parts;
  }

  /** The activity carried by the parts is the one shown live for the events. */
  predicate CarryAll(parts: seq<seq<Sent>>, events: seq<Event>, t: Texts) {
    A.ShowAll(None, Activities(Flat(parts))) == A.Live(events, t.wording)
  }

  lemma {:induction false} FirstPartsCarry(log: seq<Event>, parts: seq<seq<Sent>>, n: nat, t: Texts)
    requires PartsOf(log, parts, t) && n <= |log|
    ensures CarryAll(parts[..n], log[..n], t)
  {
    if n == 0 {
      NothingCarried(t);
      assert parts[..0] == [] && log[..0] == [];
    } else {
      FirstPartsCarry(log, parts, n - 1, t);
      assert Carries(parts[n - 1], log[n - 1], t);
      NextPartCarries(log[..n - 1], log[n - 1], parts[..n - 1], parts[n - 1], t);
      TakeOneMore(parts, n - 1);
      TakeOneMore(log, n - 1);
    }
  }

  lemma NothingCarried(t: Texts)
    ensures CarryAll([], [], t)
  {
  }

  lemma TakeOneMore<T>(s: seq<T>, n: nat)
    requires n < |s|
    ensures s[..n] + [s[n]] == s[..n + 1]
  {
  }

  lemma NextPartCarries(events: seq<Event>, e: Event, front: seq<seq<Sent>>, part: seq<Sent>, t: Texts)
    requires CarryAll(front, events, t) && Carries(part, e, t)
    ensures CarryAll(front + [part], events + [e], t)
  {
    CarriesNext(front, part, A.Live(events, t.wording));
    assert (events + [e])[..|events|] == events;
  }

  lemma {:induction false} CarriesNext(front: seq<seq<Sent>>, part: seq<Sent>, view: Option<J.Json>)
    requires A.ShowAll(None, Activities(Flat(front))) == view
    ensures A.ShowAll(None, Activities(Flat(front + [part]))) == A.ShowAll(view, Activities(part))
  {
    FlatNext(front, part);
    ActivitiesConcat(Flat(front), part);
    ShowAllConcat(None, Activities(Flat(front)), Activities(part));
  }

  lemma EventPartCarries(e: Event, known: seq<Event>, t: Texts)
    ensures Activities(EventFrames(e, known, Stream(t))) == A.Projected(e, t.wording)
  {
    ProjectedCarries(e, known, t);
    assert Frames(EventFrames(e, known, Stream(t))) == Projected(e, known, t);
  }

  /** The activity a client builds from the replay, from the live stream, or from a live stream interrupted before the
      run closed and resumed, is the one history rebuilds, for exactly the logs that start with their queued event. */
  lemma StreamsShowHistoryIff(log: seq<Event>, t: Texts)
    ensures A.ShowAll(None, Activities(Replay(log, Stream(t)))) == A.RunActivity(log, t.wording)
       <==> A.StartsQueued(log, t.wording)
    ensures A.ShowAll(None, Activities(LiveFrames(log, |log|, Stream(t)))) == A.RunActivity(log, t.wording)
       <==> A.StartsQueued(log, t.wording)
  {
    A.LiveEqualsHistoryIff(log, t.wording);
    StreamsCarry(log, t);
  }

  lemma StreamsCarry(log: seq<Event>, t: Texts)
    ensures A.ShowAll(None, Activities(Replay(log, Stream(t)))) == A.Live(log, t.wording)
    ensures A.ShowAll(None, Activities(LiveFrames(log, |log|, Stream(t)))) == A.Live(log, t.wording)
  {
    LivePartsCarry(log, t);
    ReplayPartsCarry(log, t);
    StreamCarriesActivity(log, LiveParts(log, |log|, Stream(t)), t);
    StreamCarriesActivity(log, ReplayParts(log, Stream(t)), t);
  }

  lemma LivePartsCarry(log: seq<Event>, t: Texts)
    ensures PartsOf(log, LiveParts(log, |log|, Stream(t)), t)
  {
    var parts := LiveParts(log, |log|, Stream(t));
    forall i | 0 <= i < |log| ensures Carries(parts[i], log[i], t) {
      LivePart(log, |log|, i, Stream(t));
      EventPartCarries(log[i], log[..i + 1], t);
    }
  }

  lemma ReplayPartsCarry(log: seq<Event>, t: Texts)
    ensures PartsOf(log, ReplayParts(log, Stream(t)), t)
  {
    var parts := ReplayParts(log, Stream(t));
    forall i | 0 <= i < |log| ensures Carries(parts[i], log[i], t) {
      LivePart(log, |log|, i, Stream(t));
      EventPartCarries(log[i], log, t);
    }
  }

  // ------------------------------------------------------------------- closing frame

  /** The frame that ends the run, RUN_FINISHED or RUN_ERROR, is the last of its event, after the end of the
      message and a card for every file. */
  lemma ClosingFrameComesLast(e: Event, known: seq<Event>, t: Texts)
    requires Closing(e)
    ensures var frames, cards := Projected(e, known, t), TerminalCards(e, known, t);
            && |frames| > |cards| + 1 && frames[|frames| - 1] == Standard(e, t)[0]
            && frames[|frames| - 1 - |cards|..|frames| - 1] == cards
            && frames[|frames| - 2 - |cards|] == TextEnd(OwnMessage(e.run))
            && |cards| == 4 * ArtifactCount(known)
  {
    StandardCarriesNone(e, t);
    CardsPerArtifact(known, ResponseMessage(e.run, known, t), t);
    ClosingShape(e, known, t);
    LastOfFour(ActivityFrames(e, t), [TextEnd(OwnMessage(e.run))], TerminalCards(e, known, t), Standard(e, t));
  }

  lemma LastOfFour<T>(a: seq<T>, b: seq<T>, c: seq<T>, d: seq<T>)
    requires |b| == 1 && |d| == 1
    ensures var s := a + b + c + d;
            s[|s| - 1] == d[0] && s[|s| - 1 - |c|..|s| - 1] == c && s[|s| - 2 - |c|] == b[0]
  {
  }

  function ArtifactCount(events: seq<Event>): nat {
    if events == [] then 0
    else ArtifactCount(events[..|events| - 1]) + if events[|events| - 1].kind == A.ArtifactReady then 1 else 0
  }

  lemma {:induction false} CardsPerArtifact(events: seq<Event>, parent: string, t: Texts)
    ensures |Cards(events, parent, t)| == 4 * ArtifactCount(events)
  {
    if events != [] { CardsPerArtifact(events[..|events| - 1], parent, t); }
  }
}
