/** The live stream of a run, its replay, and reconnecting in the middle of it. */
module EventStream {
  import opened Outcomes
  import opened StreamFrames
  import opened Flattening
  import J = JsonPatch
  import A = Activity
  import L = EventLog

  ghost predicate Dense(log: seq<Event>) {
    forall i :: 0 <= i < |log| ==> log[i].sequence == i + 1
  }

  /** What `list_after` gives on a dense log (`StoredLogsAreDense`). */
  function After(log: seq<Event>, n: int): seq<Event> {
    if n <= 0 then log else if n >= |log| then [] else log[n..]
  }

  /** The stored events of a run as the streams read them. */
  function Viewed(log: seq<L.Event>, view: L.Event -> Event): seq<Event> {
    seq(|log|, i requires 0 <= i < |log| => view(log[i]))
  }

  /** Reading an event does not change its sequence number. */
  ghost predicate KeepsSequence(view: L.Event -> Event) {
    forall e: L.Event :: e.sequence >= 1 ==> view(e).sequence == e.sequence
  }

  /** Whatever any writers appended in whatever order, the log a stream reads is dense, and `list_after` on it
      is the suffix the streams take. */
  lemma {:induction false} StoredLogsAreDense(appends: seq<L.Event>, key: L.Key, view: L.Event -> Event, n: int)
    requires KeepsSequence(view)
    ensures var log := L.PutAll(L.Store(map[], map[]), appends).Log(key);
            Dense(Viewed(log, view)) && Viewed(L.ListAfter(log, n), view) == After(Viewed(log, view), n)
  {
    L.AnyWritersKeepOrder(L.Store(map[], map[]), appends);
    var log := L.PutAll(L.Store(map[], map[]), appends).Log(key);
    assert L.Dense(log);
    forall i | 0 <= i < |log| ensures Viewed(log, view)[i].sequence == i + 1 {
      assert log[i].sequence == i + 1 && view(log[i]).sequence == log[i].sequence;
    }
    L.ListAfterIsSuffix(log, n);
  }

  function Numbered(e: Event, frames: seq<Frame>): seq<Sent> {
    seq(|frames|, k requires 0 <= k < |frames| => Sent(FrameId(e.sequence, |frames|, k), frames[k]))
  }

  /** The frames of an event, given the events known when it is sent. */
  type Projection = (Event, seq<Event>) -> seq<Frame>

  /** The projection of the service. */
  function Stream(t: Texts): Projection {
    (e: Event, known: seq<Event>) => Projected(e, known, t)
  }

  /** What an event sends. */
  function EventFrames(e: Event, known: seq<Event>, p: Projection): seq<Sent> {
    Numbered(e, p(e, known))
  }

  // --------------------------------------------------------------------- replay

  function ReplayParts(log: seq<Event>, p: Projection): seq<seq<Sent>> {
    seq(|log|, i requires 0 <= i < |log| => EventFrames(log[i], log, p))
  }

  /** The whole stream of a log. */
  function Replay(log: seq<Event>, p: Projection): seq<Sent> {
    Flat(ReplayParts(log, p))
  }

  function From<T>(s: seq<T>, first: nat): seq<T> {
    if first >= |s| then [] else s[first..]
  }

  /** What is left of each event's frames when `children` frames of event `sequence` were received. */
  function LeftParts(events: seq<Event>, known: seq<Event>, sequence: nat, children: nat, p: Projection)
    : seq<seq<Sent>>
  {
    seq(|events|, i requires 0 <= i < |events| =>
      From(EventFrames(events[i], known, p), if events[i].sequence == sequence then children else 0))
  }

  /** The events a client needs that received `children` frames of event `sequence` and all before it. */
  function Missed(log: seq<Event>, sequence: nat, children: nat): seq<Event> {
    After(log, if children > 0 then sequence - 1 else sequence)
  }

  /** What such a client is sent. */
  function ResumedFrom(log: seq<Event>, sequence: nat, children: nat, p: Projection): seq<Sent> {
    Flat(LeftParts(Missed(log, sequence, children), log, sequence, children, p))
  }

  function Resumed(log: seq<Event>, lastEventId: Option<string>, p: Projection): seq<Sent> {
    ResumedFrom(log, ProjectedEventCursor(lastEventId).0, ProjectedEventCursor(lastEventId).1, p)
  }

  /** The endpoint reads the log twice, first for the events to send and then for those they are projected with. Events
      stored in between leave their frames out, and those alone; they are sent on the next connection. */
  method StreamAguiEvents(first: seq<Event>, log: seq<Event>, lastEventId: Option<string>, p: Projection)
    returns (sent: seq<Sent>)
    requires Dense(log) && first <= log
    ensures ProjectedEventCursor(lastEventId).0 <= |first| ==>
              sent + Flat(ReplayParts(log, p)[|first|..]) == Resumed(log, lastEventId, p)
    ensures ProjectedEventCursor(lastEventId).0 > |first| ==> sent == []
  {
    var (sequence, children) := ProjectedEventCursor(lastEventId);
    sent := StreamAfter(first, log, sequence, children, p);
    assert first == log[..|first|];
    if sequence <= |first| { SecondReadOnlyAdds(log, |first|, sequence, children, p); }
  }

  /** The part of a stream that the first read leaves out. */
  lemma SecondReadOnlyAdds(log: seq<Event>, n: nat, sequence: nat, children: nat, p: Projection)
    requires Dense(log) && sequence <= n <= |log|
    ensures Flat(LeftParts(Missed(log[..n], sequence, children), log, sequence, children, p))
            + Flat(ReplayParts(log, p)[n..]) == ResumedFrom(log, sequence, children, p)
  {
    var early, late := Missed(log[..n], sequence, children), Missed(log, sequence, children);
    var all, rest := LeftParts(late, log, sequence, children, p), ReplayParts(log, p)[n..];
    assert early <= late && |late| - |early| == |rest|;
    assert LeftParts(early, log, sequence, children, p) == all[..|early|];
    forall j | 0 <= j < |rest| ensures all[|early| + j] == rest[j] {
      NothingReceived(late, log, sequence, children, p, |early| + j);
    }
    assert all[|early|..] == rest && all == all[..|early|] + all[|early|..];
    FlatConcat(all[..|early|], rest);
  }

  method StreamAfter(first: seq<Event>, log: seq<Event>, sequence: nat, children: nat, p: Projection)
    returns (sent: seq<Sent>)
    ensures sent == Flat(LeftParts(Missed(first, sequence, children), log, sequence, children, p))
    ensures sequence > |first| ==> sent == []
  {
    var events := Missed(first, sequence, children);
    ghost var parts := LeftParts(events, log, sequence, children, p);
    sent := [];
    for i := 0 to |events|
      invariant sent == Flat(parts[..i])
    {
      var projected := p(events[i], log);
      var left := SendFrom(events[i], projected, if events[i].sequence == sequence then children else 0);
      assert left == parts[i];
      FlatTo(parts, i);
      sent := sent + left;
    }
    assert parts[..|events|] == parts;
  }

  method SendFrom(e: Event, projected: seq<Frame>, first: nat) returns (left: seq<Sent>)
    ensures left == From(Numbered(e, projected), first)
  {
    left := [];
    ghost var all := Numbered(e, projected);
    if first < |projected| {
      for index := first to |projected|
        invariant left == all[first..index]
      {
        left := left + [Sent(FrameId(e.sequence, |projected|, index), projected[index])];
      }
      assert all[first..|projected|] == all[first..];
    }
  }

  lemma NothingReceived(events: seq<Event>, known: seq<Event>, sequence: nat, children: nat, p: Projection, i: nat)
    requires i < |events| && (children == 0 || events[i].sequence != sequence)
    ensures LeftParts(events, known, sequence, children, p)[i] == EventFrames(events[i], known, p)
  {
  }

  /** Resuming after the c-th frame of the i-th event. */
  lemma ResumedAfter(log: seq<Event>, i: nat, c: nat, p: Projection)
    requires Dense(log) && i < |log| && c < |ReplayParts(log, p)[i]|
    ensures Resumed(log, Some(ReplayParts(log, p)[i][c].id), p)
         == ReplayParts(log, p)[i][c + 1..] + Flat(ReplayParts(log, p)[i + 1..])
  {
    var count := |ReplayParts(log, p)[i]|;
    assert ReplayParts(log, p)[i][c].id == FrameId(i + 1, count, c);
    CursorReadsFrameId(i + 1, count, c);
    ResumedFromAfter(log, i, c, p);
  }

  lemma ResumedFromAfter(log: seq<Event>, i: nat, c: nat, p: Projection)
    requires Dense(log) && i < |log| && c < |ReplayParts(log, p)[i]|
    ensures ResumedFrom(log, i + 1, if |ReplayParts(log, p)[i]| == 1 then 0 else c + 1, p)
         == ReplayParts(log, p)[i][c + 1..] + Flat(ReplayParts(log, p)[i + 1..])
  {
    var replay := ReplayParts(log, p);
    if |replay[i]| == 1 {
      PartsAfter(log, i, p);
    } else {
      PartsFrom(log, i, c + 1, p);
      FlatPrepend(replay[i][c + 1..], replay[i + 1..]);
    }
  }

  /** All of an event was received: the rest is the events after it. */
  lemma PartsAfter(log: seq<Event>, i: nat, p: Projection)
    requires Dense(log) && i < |log|
    ensures LeftParts(After(log, i + 1), log, i + 1, 0, p) == ReplayParts(log, p)[i + 1..]
  {
    var events := After(log, i + 1);
    var left, rest := LeftParts(events, log, i + 1, 0, p), ReplayParts(log, p)[i + 1..];
    forall j | 0 <= j < |events| ensures left[j] == rest[j] {
      NothingReceived(events, log, i + 1, 0, p, j);
    }
  }

  /** Part of an event was received: nothing is taken from the events after it. */
  lemma PartsFrom(log: seq<Event>, i: nat, children: nat, p: Projection)
    requires Dense(log) && i < |log| && children <= |ReplayParts(log, p)[i]|
    ensures LeftParts(After(log, i), log, i + 1, children, p)
         == [ReplayParts(log, p)[i][children..]] + ReplayParts(log, p)[i + 1..]
  {
    var events := After(log, i);
    var left, replay := LeftParts(events, log, i + 1, children, p), ReplayParts(log, p);
    forall j | 1 <= j < |events| ensures left[j] == replay[i + j] {
      NothingReceived(events, log, i + 1, children, p, j);
    }
    assert left[0] == replay[i][children..];
  }

  /** Reconnecting with the identifier of any frame gives exactly the frames after it, with the same identifiers. */
  lemma ReconnectLosesNothing(log: seq<Event>, k: nat, p: Projection)
    requires Dense(log) && k < |Replay(log, p)|
    ensures Resumed(log, Some(Replay(log, p)[k].id), p) == Replay(log, p)[k + 1..]
  {
    var i, c := Locate(ReplayParts(log, p), k);
    ResumedAfter(log, i, c, p);
  }

  /** Without an identifier, or with one that is not understood, the stream starts over. */
  lemma UnknownCursorStartsOver(log: seq<Event>, lastEventId: Option<string>, p: Projection)
    requires Dense(log) && ProjectedEventCursor(lastEventId).0 == 0
    ensures Resumed(log, lastEventId, p) == Replay(log, p)
  {
    var (sequence, children) := ProjectedEventCursor(lastEventId);
    forall i | 0 <= i < |log| ensures LeftParts(log, log, sequence, children, p)[i] == ReplayParts(log, p)[i] {
      NothingReceived(log, log, sequence, children, p, i);
    }
    assert LeftParts(log, log, sequence, children, p) == ReplayParts(log, p);
  }

  /** No two frames of a stream have the same identifier. */
  lemma IdentifiersAreUnique(log: seq<Event>, j: nat, k: nat, p: Projection)
    requires Dense(log) && j < |Replay(log, p)| && k < |Replay(log, p)|
    requires Replay(log, p)[j].id == Replay(log, p)[k].id
    ensures j == k
  {
    ReconnectLosesNothing(log, j, p);
    ReconnectLosesNothing(log, k, p);
    assert |Replay(log, p)[j + 1..]| == |Replay(log, p)[k + 1..]|;
  }

  // ----------------------------------------------------------------- live stream

  function LiveParts(log: seq<Event>, n: nat, p: Projection): seq<seq<Sent>>
    requires n <= |log|
  {
    seq(n, i requires 0 <= i < n => EventFrames(log[i], log[..i + 1], p))
  }

  /** The first `n` events as they are sent while the run goes on: each knows only the events up to itself. */
  function LiveFrames(log: seq<Event>, n: nat, p: Projection): seq<Sent>
    requires n <= |log|
  {
    Flat(LiveParts(log, n, p))
  }

  lemma LiveNext(log: seq<Event>, n: nat, p: Projection)
    requires n < |log|
    ensures LiveFrames(log, n + 1, p) == LiveFrames(log, n, p) + EventFrames(log[n], log[..n + 1], p)
  {
    FlatNext(LiveParts(log, n, p), EventFrames(log[n], log[..n + 1], p));
    assert LiveParts(log, n + 1, p) == LiveParts(log, n, p) + [EventFrames(log[n], log[..n + 1], p)];
  }

  lemma LivePart(log: seq<Event>, n: nat, i: nat, p: Projection)
    requires i < n <= |log|
    ensures LiveParts(log, n, p)[i] == EventFrames(log[i], log[..i + 1], p)
    ensures ReplayParts(log, p)[i] == EventFrames(log[i], log, p)
  {
  }

  /** While the live stream agrees with the replay, a client of either can continue with the other. */
  lemma ContinueWithReplay(log: seq<Event>, n: nat, k: nat, p: Projection)
    requires Dense(log) && n <= |log| && LiveParts(log, n, p) == ReplayParts(log, p)[..n]
    requires k < |LiveFrames(log, n, p)|
    ensures LiveFrames(log, n, p)[..k + 1] + Resumed(log, Some(LiveFrames(log, n, p)[k].id), p) == Replay(log, p)
  {
    var parts := ReplayParts(log, p);
    assert parts == parts[..n] + parts[n..];
    FlatConcat(parts[..n], parts[n..]);
    ReconnectLosesNothing(log, k, p);
  }

  predicate Ended(log: seq<Event>, n: nat) {
    exists i :: 0 <= i < n <= |log| && Terminal(log[i])
  }

  /** How many events are sent when the polls find these many stored: a poll after the terminal event is not made. */
  function Delivered(log: seq<Event>, polls: seq<nat>): nat {
    if polls == [] then 0
    else
      var before := Delivered(log, polls[..|polls| - 1]);
      var stored := polls[|polls| - 1];
      if Ended(log, before) || stored <= before then before else stored
  }

  lemma {:induction false} DeliveredStays(log: seq<Event>, polls: seq<nat>, i: nat)
    requires i <= |polls| && Ended(log, Delivered(log, polls[..i]))
    ensures Delivered(log, polls) == Delivered(log, polls[..i])
    decreases |polls| - i
  {
    if i < |polls| {
      assert polls[..i + 1][..i] == polls[..i];
      DeliveredStays(log, polls, i + 1);
    } else {
      assert polls[..i] == polls;
    }
  }

  lemma {:induction false} DeliveredInRange(log: seq<Event>, polls: seq<nat>)
    requires forall k :: 0 <= k < |polls| ==> polls[k] <= |log|
    ensures Delivered(log, polls) <= |log|
  {
    if polls != [] {
      DeliveredInRange(log, polls[..|polls| - 1]);
    }
  }

  /** The stream of a new run. Each poll reads the log as other writers have made it by then. */
  method LiveStream(log: seq<Event>, polls: seq<nat>, p: Projection) returns (sent: seq<Sent>)
    requires Dense(log) && forall k :: 0 <= k < |polls| ==> polls[k] <= |log|
    ensures Delivered(log, polls) <= |log|
    ensures sent == LiveFrames(log, Delivered(log, polls), p)
  {
    DeliveredInRange(log, polls);
    var sequence: nat, known: seq<Event> := 0, [];
    sent := [];
    for i := 0 to |polls|
      invariant sequence == Delivered(log, polls[..i]) <= |log|
      invariant known == log[..sequence] && sent == LiveFrames(log, sequence, p) && !Ended(log, sequence)
    {
      PolledNext(log, polls, i);
      var ended, frames := SendPolled(log, sequence, known, After(log[..polls[i]], sequence), p);
      sent := sent + frames;
      sequence := if polls[i] <= sequence then sequence else polls[i];
      known := log[..sequence];
      if ended {
        DeliveredStays(log, polls, i + 1);
        return;
      }
    }
    assert polls[..|polls|] == polls;
  }

  /** Send the events one poll found. */
  method SendPolled(log: seq<Event>, sequence: nat, before: seq<Event>, events: seq<Event>, p: Projection)
    returns (ended: bool, sent: seq<Sent>)
    requires sequence + |events| <= |log| && before == log[..sequence]
    requires events == log[sequence..sequence + |events|] && !Ended(log, sequence)
    ensures LiveFrames(log, sequence, p) + sent == LiveFrames(log, sequence + |events|, p)
    ensures ended <==> Ended(log, sequence + |events|)
  {
    ended, sent := false, [];
    var known := before;
    for j := 0 to |events|
      invariant known == log[..sequence + j] && LiveFrames(log, sequence, p) + sent == LiveFrames(log, sequence + j, p)
      invariant ended <==> Ended(log, sequence + j)
    {
      assert log[..sequence + j] + [log[sequence + j]] == log[..sequence + j + 1];
      known := known + [events[j]];
      var frames := SendEvent(events[j], known, p, log);
      assert LiveFrames(log, sequence, p) + sent + frames == LiveFrames(log, sequence, p) + (sent + frames);
      sent := sent + frames;
      ended := ended || Terminal(events[j]);
    }
  }

  /** Send one event, the last of those known. */
  method SendEvent(e: Event, known: seq<Event>, p: Projection, ghost log: seq<Event>) returns (frames: seq<Sent>)
    requires known != [] && known <= log && e == known[|known| - 1]
    ensures LiveFrames(log, |known| - 1, p) + frames == LiveFrames(log, |known|, p)
  {
    assert known == log[..|known|] && e == log[|known| - 1];
    LiveNext(log, |known| - 1, p);
    var projected := p(e, known);
    frames := SendFrom(e, projected, 0);
  }

  /** What one more poll adds. */
  lemma PolledNext(log: seq<Event>, polls: seq<nat>, i: nat)
    requires i < |polls| && polls[i] <= |log| && Delivered(log, polls[..i]) <= |log|
    ensures var before := Delivered(log, polls[..i]);
            !Ended(log, before) ==>
              && Delivered(log, polls[..i + 1]) == (if polls[i] <= before then before else polls[i])
              && After(log[..polls[i]], before) == log[before..Delivered(log, polls[..i + 1])]
  {
    assert polls[..i + 1][..i] == polls[..i];
  }

}
