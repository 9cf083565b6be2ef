/** The activity of a run, shown live as a snapshot and JSON patches and rebuilt from history as a fold. */
module Activity {
  import opened Outcomes
  import opened JsonPatch

  // ------------------------------------------------------------------- events

  /** Event types by how they are shown; `Other...` ones are not part of the activity. */
  datatype Kind =
    | RunQueued | RunProvisioning | RunRunning | RunResumed | RunCancelling
    | RunCancelled | RunSucceeded | RunFailed | RunRejected | RunTimedOut
    | RuntimeResult | RuntimeSystem
    | MessageStart | MessageDelta | MessageCompleted
    | ToolRequest | ToolResult | ToolAllowed
    | ApprovalRequested | ApprovalApproved | ApprovalRejected
    | SubagentDelta | SubagentFailed | SubagentCompleted | SubagentOther
    | Preparation | WorkspaceArchived | RecoveryRetained | RouteSelected | ArtifactReady
    | OtherRun | OtherArtifact | Other

  datatype Event = Event(
    id: string, run: string, trace: string, kind: Kind, name: string, at: string, sequence: nat,
    payload: map<string, Json>)

  /** The texts and details of an item, and which model texts are blank once made safe. */
  datatype Wording = Wording(
    title: Event -> string, summary: Event -> Json, details: Event -> map<string, Json>, blank: Event -> bool)

  // --------------------------------------------------------------------- items

  /** `bool(payload.get(key))`. */
  predicate Truthy(payload: map<string, Json>, key: string) {
    key in payload &&
    match payload[key]
    case Null => false
    case Bool(b) => b
    case Number(n) => n != 0
    case Text(t) => t != ""
    case Array(a) => a != []
    case Object(m) => m != map[]
  }

  predicate RunKind(kind: Kind) {
    kind in {RunQueued, RunProvisioning, RunRunning, RunResumed, RunCancelling,
             RunCancelled, RunSucceeded, RunFailed, RunRejected, RunTimedOut}
  }

  /** The status of the item an event is shown as; none when it is not shown. */
  function StatusOf(e: Event, w: Wording): Option<string> {
    match e.kind
    case RunQueued => Some("queued")
    case RunProvisioning | RunRunning | RunResumed => Some("running")
    case RunCancelling => Some("waiting")
    case RunCancelled => Some("cancelled")
    case RunSucceeded => Some("succeeded")
    case RunFailed | RunRejected | RunTimedOut => Some("failed")
    case RuntimeResult | ToolResult | ToolAllowed =>
      Some(if Truthy(e.payload, "is_error") then "failed" else "succeeded")
    case RuntimeSystem =>
      if "subtype" in e.payload && e.payload["subtype"] == Text("thinking_tokens") then None else Some("running")
    case MessageStart | ToolRequest | SubagentOther => Some("running")
    case MessageDelta => if w.blank(e) then None else Some("succeeded")
    case MessageCompleted | ApprovalApproved | SubagentCompleted => Some("succeeded")
    case ApprovalRequested | RecoveryRetained => Some("waiting")
    case ApprovalRejected | SubagentFailed => Some("failed")
    case Preparation | WorkspaceArchived | RouteSelected | ArtifactReady => Some("succeeded")
    case SubagentDelta | OtherRun | OtherArtifact | Other => None
  }

  predicate Shown(e: Event, w: Wording) {
    StatusOf(e, w).Some?
  }

  /** The kind of item an event is shown as. */
  function ItemKind(e: Event): string {
    match e.kind
    case RunFailed | RunRejected | RunTimedOut => "error"
    case RunQueued | RunProvisioning | RunRunning | RunResumed | RunCancelling | RunCancelled | RunSucceeded => "run"
    case RouteSelected => "run"
    case RuntimeResult => "result"
    case ToolRequest =>
      if "name" in e.payload && e.payload["name"] in {Text("Task"), Text("Agent")} then "subagent" else "tool"
    case ToolResult | ToolAllowed | ApprovalRequested | ApprovalApproved | ApprovalRejected => "tool"
    case SubagentDelta | SubagentFailed | SubagentCompleted | SubagentOther => "subagent"
    case ArtifactReady => "artifact"
    case _ => "analysis"
  }

  const RESULT_FIELDS := [("subtype", "subtype"), ("turns", "num_turns"), ("cost_usd", "total_cost_usd"),
                         ("usage", "usage"), ("stop_reason", "stop_reason")]

  /** What a runtime result reports: the fields of the payload that are present and not null. */
  function Metrics(payload: map<string, Json>, fields: seq<(string, string)>): seq<(string, Json)> {
    if fields == [] then []
    else
      var (key, from) := fields[0];
      (if from in payload && payload[from] != Null then [(key, payload[from])] else [])
      + Metrics(payload, fields[1..])
  }

  function Reported(e: Event): seq<(string, Json)> {
    if e.kind == RuntimeResult then Metrics(e.payload, RESULT_FIELDS) else []
  }

  function Merged(m: map<string, Json>, entries: seq<(string, Json)>): map<string, Json>
    decreases |entries|
  {
    if entries == [] then m else Merged(m[entries[0].0 := entries[0].1], entries[1..])
  }

  function ItemOf(e: Event, w: Wording): Json
    requires Shown(e, w)
  {
    Object(map[
      "id" := Text(e.id), "event_type" := Text(e.name), "kind" := Text(ItemKind(e)),
       "status" := Text(StatusOf(e, w).value),
      "title" := Text(w.title(e)), "summary" := w.summary(e), "timestamp" := Text(e.at),
      "sequence" := Number(e.sequence),
      "metadata" := Object(if e.kind == RuntimeResult then Merged(map[], Reported(e)) else w.details(e))])
  }

  // --------------------------------------------------------- the activity, folded

  datatype Progress = Progress(items: seq<Json>, metrics: map<string, Json>, status: string)

  predicate SetsStatus(e: Event) {
    RunKind(e.kind) || e.kind == RuntimeResult
  }

  function After(p: Progress, e: Event, w: Wording): Progress {
    if !Shown(e, w) then p
    else
      Progress(p.items + [ItemOf(e, w)],
               Merged(p.metrics, Reported(e)),
               if SetsStatus(e) then StatusOf(e, w).value else p.status)
  }

  function Folded(events: seq<Event>, w: Wording): Progress {
    if events == [] then Progress([], map[], "queued")
    else After(Folded(events[..|events| - 1], w), events[|events| - 1], w)
  }

  function Document(first: Event, p: Progress): Json {
    Object(map[
      "run_id" := Text(first.run), "trace_id" := Text(first.trace), "status" := Text(p.status),
      "started_at" := Text(first.at), "items" := Array(p.items), "metrics" := Object(p.metrics)])
  }

  /** The first queued event, or the first event when none is. */
  function First(events: seq<Event>): Event
    requires events != []
  {
    FirstQueued(events, events[0])
  }

  function FirstQueued(events: seq<Event>, default: Event): Event {
    if events == [] then default
    else if events[0].kind == RunQueued then events[0]
    else FirstQueued(events[1..], default)
  }

  function RunActivity(events: seq<Event>, w: Wording): Option<Json> {
    if events == [] || Folded(events, w).items == [] then None
    else Some(Document(First(events), Folded(events, w)))
  }

  // --------------------------------------------------- what an activity shows

  /** Events that are not shown: streamed subagent text, thinking, blank model text, and what is not of the activity. */
  predicate Hidden(e: Event, w: Wording) {
    || e.kind in {SubagentDelta, OtherRun, OtherArtifact, Other}
    || (e.kind == MessageDelta && w.blank(e))
    || (e.kind == RuntimeSystem && "subtype" in e.payload && e.payload["subtype"] == Text("thinking_tokens"))
  }

  predicate NamesStatus(e: Event) {
    e.kind in {RunQueued, RunProvisioning, RunRunning, RunResumed, RunCancelling, RunCancelled, RunSucceeded,
               RunFailed, RunRejected, RunTimedOut, RuntimeResult}
  }

  predicate Fails(e: Event) {
    || e.kind in {RunFailed, RunRejected, RunTimedOut, ApprovalRejected, SubagentFailed}
    || (e.kind in {RuntimeResult, ToolResult, ToolAllowed} && Truthy(e.payload, "is_error"))
  }

  /** The status an event's item has, said status by status. */
  predicate StatusIs(e: Event, status: string) {
    && (status == "queued" <==> e.kind == RunQueued)
    && (status == "running" <==>
          e.kind in {RunProvisioning, RunRunning, RunResumed, RuntimeSystem, MessageStart, ToolRequest, SubagentOther})
    && (status == "waiting" <==> e.kind in {RunCancelling, ApprovalRequested, RecoveryRetained})
    && (status == "cancelled" <==> e.kind == RunCancelled)
    && (status == "failed" <==> Fails(e))
    && (status == "succeeded" <==>
          || e.kind in {RunSucceeded, MessageDelta, MessageCompleted, ApprovalApproved, SubagentCompleted,
                        Preparation, WorkspaceArchived, RouteSelected, ArtifactReady}
          || (e.kind in {RuntimeResult, ToolResult, ToolAllowed} && !Truthy(e.payload, "is_error")))
  }

  predicate CallsAgent(e: Event) {
    "name" in e.payload && (e.payload["name"] == Text("Task") || e.payload["name"] == Text("Agent"))
  }

  predicate KindIs(e: Event, kind: string) {
    && (kind == "error" <==> e.kind in {RunFailed, RunRejected, RunTimedOut})
    && (kind == "run" <==>
          e.kind in {RunQueued, RunProvisioning, RunRunning, RunResumed, RunCancelling, RunCancelled, RunSucceeded,
                     RouteSelected})
    && (kind == "result" <==> e.kind == RuntimeResult)
    && (kind == "artifact" <==> e.kind == ArtifactReady)
    && (kind == "subagent" <==>
          || e.kind in {SubagentFailed, SubagentCompleted, SubagentOther}
          || (e.kind == ToolRequest && CallsAgent(e)))
    && (kind == "tool" <==>
          || e.kind in {ToolResult, ToolAllowed, ApprovalRequested, ApprovalApproved, ApprovalRejected}
          || (e.kind == ToolRequest && !CallsAgent(e)))
    && (kind == "analysis" <==>
          e.kind in {RuntimeSystem, MessageStart, MessageDelta, MessageCompleted, Preparation, WorkspaceArchived,
                     RecoveryRetained})
  }

  /** A reported field, and the field of the result's payload it is taken from. */
  predicate Field(key: string, from: string) {
    || key == from == "subtype" || key == from == "usage" || key == from == "stop_reason"
    || (key == "turns" && from == "num_turns") || (key == "cost_usd" && from == "total_cost_usd")
  }

  predicate Reports(e: Event, from: string) {
    e.kind == RuntimeResult && from in e.payload && e.payload[from] != Null
  }

  ghost predicate LastReport(events: seq<Event>, i: nat, from: string) {
    i < |events| && Reports(events[i], from) && forall j :: i < j < |events| ==> !Reports(events[j], from)
  }

  ghost predicate SomeReport(events: seq<Event>, key: string) {
    exists from, e :: Field(key, from) && e in events && Reports(e, from)
  }

  /** The metrics hold exactly the reported fields, each as it was last reported. */
  ghost predicate MetricsFit(metrics: map<string, Json>, events: seq<Event>) {
    && (forall key :: key in metrics ==> SomeReport(events, key))
    && (forall key, from, i: nat :: Field(key, from) && LastReport(events, i, from) ==>
          key in metrics && metrics[key] == events[i].payload[from])
  }

  ghost predicate ItemFits(item: Json, e: Event, w: Wording) {
    && item.Object?
    && item.members.Keys
       == {"id", "event_type", "kind", "status", "title", "summary", "timestamp", "sequence", "metadata"}
    && item.members["id"] == Text(e.id) && item.members["event_type"] == Text(e.name)
    && item.members["kind"].Text? && KindIs(e, item.members["kind"].text)
    && item.members["status"].Text? && StatusIs(e, item.members["status"].text)
    && item.members["title"] == Text(w.title(e)) && item.members["summary"] == w.summary(e)
    && item.members["timestamp"] == Text(e.at) && item.members["sequence"] == Number(e.sequence)
    && item.members["metadata"].Object?
    && if e.kind == RuntimeResult then MetricsFit(item.members["metadata"].members, [e])
       else item.members["metadata"].members == w.details(e)
  }

  /** One item for each event that is not hidden, in order. */
  ghost predicate ItemsFit(items: seq<Json>, events: seq<Event>, w: Wording)
    decreases |events|
  {
    if events == [] then items == []
    else
      var front, last := events[..|events| - 1], events[|events| - 1];
      if Hidden(last, w) then ItemsFit(items, front, w)
      else items != [] && ItemFits(items[|items| - 1], last, w) && ItemsFit(items[..|items| - 1], front, w)
  }

  ghost predicate LastNaming(events: seq<Event>, i: nat) {
    i < |events| && NamesStatus(events[i]) && forall j :: i < j < |events| ==> !NamesStatus(events[j])
  }

  /** The status is the one named by the last event that names one. */
  ghost predicate StatusFits(status: string, events: seq<Event>) {
    && (forall i: nat :: LastNaming(events, i) ==> StatusIs(events[i], status))
    && ((forall e :: e in events ==> !NamesStatus(e)) ==> status == "queued")
  }

  /** The event is the first queued one or, when none is, the first of all. */
  ghost predicate StartsAt(events: seq<Event>, first: Event) {
    if forall e :: e in events ==> e.kind != RunQueued then events != [] && first == events[0]
    else exists i :: 0 <= i < |events| && events[i] == first && first.kind == RunQueued
                     && forall j :: 0 <= j < i ==> events[j].kind != RunQueued
  }

  ghost predicate ProgressFits(p: Progress, events: seq<Event>, w: Wording) {
    ItemsFit(p.items, events, w) && MetricsFit(p.metrics, events) && StatusFits(p.status, events)
  }

  predicate Heads(members: map<string, Json>, first: Event)
    requires members.Keys == {"run_id", "trace_id", "status", "started_at", "items", "metrics"}
  {
    && members["run_id"] == Text(first.run) && members["trace_id"] == Text(first.trace)
    && members["started_at"] == Text(first.at)
  }

  /** The document shows this log. */
  ghost predicate DocumentFits(doc: Json, events: seq<Event>, w: Wording) {
    && doc.Object?
    && doc.members.Keys == {"run_id", "trace_id", "status", "started_at", "items", "metrics"}
    && (exists first :: StartsAt(events, first) && Heads(doc.members, first))
    && doc.members["status"].Text? && StatusFits(doc.members["status"].text, events)
    && doc.members["items"].Array? && ItemsFit(doc.members["items"].elements, events, w)
    && doc.members["metrics"].Object? && MetricsFit(doc.members["metrics"].members, events)
  }

  lemma HiddenIffNotShown(e: Event, w: Wording)
    ensures Hidden(e, w) <==> !Shown(e, w)
    ensures Shown(e, w) ==> StatusIs(e, StatusOf(e, w).value) && KindIs(e, ItemKind(e))
    ensures NamesStatus(e) <==> SetsStatus(e)
  {
  }

  /** The entries of a result, each under its own key. */
  lemma {:induction false} MergedMetrics(
    m: map<string, Json>, payload: map<string, Json>, fields: seq<(string, string)>)
    requires forall i, j :: 0 <= i < j < |fields| ==> fields[i].0 != fields[j].0
    ensures var r := Merged(m, Metrics(payload, fields));
            && (forall f :: f in fields && f.1 in payload && payload[f.1] != Null ==>
                  f.0 in r && r[f.0] == payload[f.1])
            && (forall key :: key in r ==> key in m || exists f :: f in fields && f.0 == key && f.1 in payload
                                                             && payload[f.1] != Null)
            && (forall key :: key in m && (forall f :: f in fields && f.0 == key ==>
                                             f.1 !in payload || payload[f.1] == Null) ==>
                  key in r && r[key] == m[key])
    decreases |fields|
  {
    if fields != [] {
      var f, rest := fields[0], fields[1..];
      var present := f.1 in payload && payload[f.1] != Null;
      var next := if present then m[f.0 := payload[f.1]] else m;
      assert fields == [f] + rest;
      MergedMetrics(next, payload, rest);
      if present {
        assert Metrics(payload, fields) == [(f.0, payload[f.1])] + Metrics(payload, rest);
        assert Metrics(payload, fields)[1..] == Metrics(payload, rest);
      } else {
        assert Metrics(payload, fields) == Metrics(payload, rest);
      }
    }
  }

  lemma FieldsAreReported(key: string, from: string)
    ensures Field(key, from) <==> (key, from) in RESULT_FIELDS
    ensures forall i, j :: 0 <= i < j < |RESULT_FIELDS| ==> RESULT_FIELDS[i].0 != RESULT_FIELDS[j].0
  {
    assert RESULT_FIELDS[0] == ("subtype", "subtype") && RESULT_FIELDS[1] == ("turns", "num_turns");
    assert RESULT_FIELDS[2] == ("cost_usd", "total_cost_usd") && RESULT_FIELDS[3] == ("usage", "usage");
    assert RESULT_FIELDS[4] == ("stop_reason", "stop_reason");
  }

  /** What one result adds to the metrics. */
  lemma ReportedAdds(m: map<string, Json>, e: Event)
    ensures var r := Merged(m, Reported(e));
            && (forall key, from :: Field(key, from) && Reports(e, from) ==> key in r && r[key] == e.payload[from])
            && (forall key :: key in r ==> key in m || exists from :: Field(key, from) && Reports(e, from))
            && (forall key :: key in m && (forall from :: Field(key, from) ==> !Reports(e, from)) ==>
                  key in r && r[key] == m[key])
  {
    FieldsAreReported("", "");
    forall key, from ensures Field(key, from) <==> (key, from) in RESULT_FIELDS { FieldsAreReported(key, from); }
    if e.kind == RuntimeResult {
      MergedMetrics(m, e.payload, RESULT_FIELDS);
      var r := Merged(m, Reported(e));
      forall key | key in r && key !in m ensures exists from :: Field(key, from) && Reports(e, from) {
        var f :| f in RESULT_FIELDS && f.0 == key && f.1 in e.payload && e.payload[f.1] != Null;
        assert f == (key, f.1) && Field(key, f.1) && Reports(e, f.1);
      }
    }
  }

  lemma MetricsNext(m: map<string, Json>, events: seq<Event>, e: Event)
    requires MetricsFit(m, events)
    ensures MetricsFit(Merged(m, Reported(e)), events + [e])
  {
    ReportedAdds(m, e);
    forall key | key in Merged(m, Reported(e)) ensures SomeReport(events + [e], key) {
      MetricIsReported(m, events, e, key);
    }
    forall key, from, i: nat | Field(key, from) && LastReport(events + [e], i, from)
      ensures key in Merged(m, Reported(e)) && Merged(m, Reported(e))[key] == (events + [e])[i].payload[from]
    {
      MetricIsLast(m, events, e, key, from, i);
    }
  }

  lemma MetricIsReported(m: map<string, Json>, events: seq<Event>, e: Event, key: string)
    requires (key in m && SomeReport(events, key)) || exists from :: Field(key, from) && Reports(e, from)
    ensures SomeReport(events + [e], key)
  {
    if key in m && SomeReport(events, key) {
      var from, x :| Field(key, from) && x in events && Reports(x, from);
      assert x in events + [e];
    } else {
      assert e in events + [e];
    }
  }

  lemma MetricIsLast(m: map<string, Json>, events: seq<Event>, e: Event, key: string, from: string, i: nat)
    requires MetricsFit(m, events) && Field(key, from) && LastReport(events + [e], i, from)
    ensures key in Merged(m, Reported(e)) && Merged(m, Reported(e))[key] == (events + [e])[i].payload[from]
  {
    ReportedAdds(m, e);
    OneSource(key, from);
    var all := events + [e];
    if i < |events| {
      assert all[|events|] == e;
      forall j | i < j < |events| ensures !Reports(events[j], from) { assert all[j] == events[j]; }
      assert LastReport(events, i, from);
    }
  }

  lemma OneSource(key: string, from: string)
    requires Field(key, from)
    ensures forall x :: Field(key, x) ==> x == from
  {
  }

  lemma StatusNext(status: string, events: seq<Event>, e: Event, w: Wording)
    requires StatusFits(status, events)
    ensures Shown(e, w) && SetsStatus(e) ==> StatusFits(StatusOf(e, w).value, events + [e])
    ensures !SetsStatus(e) ==> StatusFits(status, events + [e])
  {
    HiddenIffNotShown(e, w);
    var all := events + [e];
    assert all[|events|] == e && e in all;
    forall i: nat | LastNaming(all, i) && i < |events| ensures LastNaming(events, i) && !NamesStatus(e) {
      forall j | i < j < |events| ensures !NamesStatus(events[j]) { assert all[j] == events[j]; }
    }
    if !SetsStatus(e) && forall x :: x in all ==> !NamesStatus(x) {
      forall x | x in events ensures !NamesStatus(x) { assert x in all; }
    }
  }

  lemma ItemIsFit(e: Event, w: Wording)
    requires Shown(e, w)
    ensures ItemFits(ItemOf(e, w), e, w)
  {
    HiddenIffNotShown(e, w);
    assert MetricsFit(map[], []);
    MetricsNext(map[], [], e);
    assert [] + [e] == [e];
  }

  /** What is folded shows the log. */
  lemma {:induction false} FoldFits(events: seq<Event>, w: Wording)
    ensures ProgressFits(Folded(events, w), events, w)
  {
    if events != [] {
      var front, e := events[..|events| - 1], events[|events| - 1];
      FoldFits(front, w);
      assert events == front + [e];
      HiddenIffNotShown(e, w);
      StatusNext(Folded(front, w).status, front, e, w);
      MetricsNext(Folded(front, w).metrics, front, e);
      if Shown(e, w) {
        ItemIsFit(e, w);
        assert (Folded(front, w).items + [ItemOf(e, w)])[..|Folded(front, w).items|] == Folded(front, w).items;
      } else {
        assert Reported(e) == [];
      }
    }
  }

  lemma {:induction false} FirstStarts(events: seq<Event>, default: Event)
    ensures if forall e :: e in events ==> e.kind != RunQueued then FirstQueued(events, default) == default
            else exists i :: 0 <= i < |events| && events[i] == FirstQueued(events, default)
                             && events[i].kind == RunQueued && forall j :: 0 <= j < i ==> events[j].kind != RunQueued
  {
    if events != [] {
      assert events[0] in events;
      if events[0].kind != RunQueued {
        FirstStarts(events[1..], default);
        assert forall e :: e in events <==> e == events[0] || e in events[1..];
        if i :| 0 <= i < |events[1..]| && events[1..][i] == FirstQueued(events[1..], default)
                && events[1..][i].kind == RunQueued && forall j :: 0 <= j < i ==> events[1..][j].kind != RunQueued {
          assert events[i + 1] == events[1..][i];
          forall j | 0 <= j < i + 1 ensures events[j].kind != RunQueued {
            if j > 0 { assert events[j] == events[1..][j - 1]; }
          }
        }
      }
    }
  }

  lemma DocumentIsFit(events: seq<Event>, first: Event, p: Progress, w: Wording)
    requires StartsAt(events, first) && ProgressFits(p, events, w)
    ensures DocumentFits(Document(first, p), events, w)
  {
    MembersOf(first, p);
    assert Heads(Document(first, p).members, first);
  }

  lemma MembersOf(first: Event, p: Progress)
    ensures var doc := Document(first, p);
            && doc.Object? && doc.members.Keys == {"run_id", "trace_id", "status", "started_at", "items", "metrics"}
            && Heads(doc.members, first) && doc.members["status"] == Text(p.status)
            && doc.members["items"] == Array(p.items) && doc.members["metrics"] == Object(p.metrics)
  {
  }

  lemma NothingFits(items: seq<Json>, events: seq<Event>, w: Wording)
    requires ItemsFit(items, events, w)
    ensures items == [] <==> forall e :: e in events ==> Hidden(e, w)
    decreases |events|
  {
    if events != [] {
      var front, last := events[..|events| - 1], events[|events| - 1];
      assert last in events && forall e :: e in events <==> e in front || e == last;
      NothingFits(if Hidden(last, w) then items else items[..|items| - 1], front, w);
    }
  }

  lemma ActivityFits(events: seq<Event>, w: Wording)
    ensures RunActivity(events, w) == None <==> forall e :: e in events ==> Hidden(e, w)
    ensures RunActivity(events, w).Some? ==> DocumentFits(RunActivity(events, w).value, events, w)
  {
    FoldFits(events, w);
    NothingFits(Folded(events, w).items, events, w);
    if events != [] {
      FirstStarts(events, events[0]);
      DocumentIsFit(events, First(events), Folded(events, w), w);
    }
  }

  /** The activity rebuilt from history shows the log, and there is none exactly when all of it is hidden. */
  method BuildRunActivity(events: seq<Event>, w: Wording) returns (r: Option<Json>)
    ensures r == RunActivity(events, w)
    ensures r == None <==> forall e :: e in events ==> Hidden(e, w)
    ensures r.Some? ==> DocumentFits(r.value, events, w)
  {
    ActivityFits(events, w);
    r := FoldRunActivity(events, w);
  }

  method FoldRunActivity(events: seq<Event>, w: Wording) returns (r: Option<Json>)
    ensures r == RunActivity(events, w)
  {
    if events == [] {
      return None;
    }
    var items: seq<Json>, metrics: map<string, Json>, status := [], map[], "queued";
    for i := 0 to |events|
      invariant Progress(items, metrics, status) == Folded(events[..i], w)
    {
      var e := events[i];
      assert events[..i + 1][..i] == events[..i];
      if !Shown(e, w) {
        continue;
      }
      items := items + [ItemOf(e, w)];
      if SetsStatus(e) {
        status := StatusOf(e, w).value;
      }
      metrics := Merged(metrics, Reported(e));
    }
    assert events[..|events|] == events;
    if items == [] {
      return None;
    }
    r := Some(Document(First(events), Progress(items, metrics, status)));
  }

  // ----------------------------------------------------------- the activity, live

  datatype Frame = Snapshot(content: Json) | Delta(patch: seq<Operation>)

  function MetricOps(entries: seq<(string, Json)>): seq<Operation> {
    seq(|entries|, k requires 0 <= k < |entries| => Add(Pointer2("metrics", entries[k].0), entries[k].1))
  }

  function StatusOps(e: Event, w: Wording): seq<Operation>
    requires Shown(e, w)
  {
    if SetsStatus(e) then [Replace(Pointer1("status"), Text(StatusOf(e, w).value))] else []
  }

  function Patch(e: Event, w: Wording): seq<Operation>
    requires Shown(e, w)
  {
    [Add(Pointer2("items", "-"), ItemOf(e, w))] + StatusOps(e, w) + MetricOps(Reported(e))
  }

  function Projected(e: Event, w: Wording): seq<Frame> {
    if !Shown(e, w) then []
    else if e.kind == RunQueued then [Snapshot(Document(e, Progress([ItemOf(e, w)], map[], "queued")))]
    else [Delta(Patch(e, w))]
  }

  /** The operation adds one reported field to the metrics. */
  ghost predicate AddsReport(op: Operation, e: Event) {
    exists key, from :: Field(key, from) && Reports(e, from) && op == Add(Pointer2("metrics", key), e.payload[from])
  }

  /** The patch appends the event's item, sets the status if the event names one, and adds what it reports. */
  ghost predicate PatchFits(patch: seq<Operation>, e: Event, w: Wording) {
    && patch != [] && patch[0].Add? && patch[0].path == Pointer2("items", "-") && ItemFits(patch[0].value, e, w)
    && (NamesStatus(e) ==>
          && |patch| >= 2 && patch[1].Replace? && patch[1].path == Pointer1("status")
          && patch[1].value.Text? && StatusIs(e, patch[1].value.text))
    && (!NamesStatus(e) ==> |patch| == 1)
    && (forall k :: 2 <= k < |patch| ==> AddsReport(patch[k], e))
    && (forall key, from :: Field(key, from) && Reports(e, from) ==>
          Add(Pointer2("metrics", key), e.payload[from]) in patch)
  }

  /** What an event sends: nothing when hidden, a document of itself alone when queued, and else a patch. */
  ghost predicate FramesFit(frames: seq<Frame>, e: Event, w: Wording) {
    if Hidden(e, w) then frames == []
    else
      && |frames| == 1
      && if e.kind == RunQueued then frames[0].Snapshot? && DocumentFits(frames[0].content, [e], w)
         else frames[0].Delta? && PatchFits(frames[0].patch, e, w)
  }

  lemma {:induction false} MetricsEntries(payload: map<string, Json>, fields: seq<(string, string)>)
    ensures forall entry :: entry in Metrics(payload, fields) ==>
              exists f :: f in fields && f.1 in payload && payload[f.1] != Null && entry == (f.0, payload[f.1])
    ensures forall f :: f in fields && f.1 in payload && payload[f.1] != Null ==>
              (f.0, payload[f.1]) in Metrics(payload, fields)
  {
    if fields != [] {
      assert fields == [fields[0]] + fields[1..];
      MetricsEntries(payload, fields[1..]);
    }
  }

  lemma ReportsAreEntries(e: Event)
    ensures forall entry :: entry in Reported(e) ==>
              exists from :: Field(entry.0, from) && Reports(e, from) && entry.1 == e.payload[from]
    ensures forall key, from :: Field(key, from) && Reports(e, from) ==> (key, e.payload[from]) in Reported(e)
  {
    forall key, from ensures Field(key, from) <==> (key, from) in RESULT_FIELDS { FieldsAreReported(key, from); }
    MetricsEntries(e.payload, RESULT_FIELDS);
    forall entry | entry in Reported(e)
      ensures exists from :: Field(entry.0, from) && Reports(e, from) && entry.1 == e.payload[from]
    {
      var f :| f in RESULT_FIELDS && f.1 in e.payload && e.payload[f.1] != Null && entry == (f.0, e.payload[f.1]);
      assert f == (entry.0, f.1) && Field(entry.0, f.1);
    }
  }

  lemma MetricOpAdds(e: Event, k: nat)
    requires k < |Reported(e)|
    ensures AddsReport(MetricOps(Reported(e))[k], e)
  {
    ReportsAreEntries(e);
    assert Reported(e)[k] in Reported(e);
  }

  lemma ReportIsAdded(e: Event, key: string, from: string)
    requires Field(key, from) && Reports(e, from)
    ensures Add(Pointer2("metrics", key), e.payload[from]) in MetricOps(Reported(e))
  {
    ReportsAreEntries(e);
    var k :| 0 <= k < |Reported(e)| && Reported(e)[k] == (key, e.payload[from]);
    assert MetricOps(Reported(e))[k] == Add(Pointer2("metrics", key), e.payload[from]);
  }

  lemma PatchIsFit(e: Event, w: Wording)
    requires Shown(e, w)
    ensures PatchFits(Patch(e, w), e, w)
  {
    HiddenIffNotShown(e, w);
    ItemIsFit(e, w);
    var patch, n := Patch(e, w), 1 + |StatusOps(e, w)|;
    assert patch[n..] == MetricOps(Reported(e));
    forall k | 2 <= k < |patch| ensures AddsReport(patch[k], e) {
      MetricOpAdds(e, k - n);
      assert patch[k] == patch[n..][k - n];
    }
    forall key, from | Field(key, from) && Reports(e, from)
      ensures Add(Pointer2("metrics", key), e.payload[from]) in patch
    {
      ReportIsAdded(e, key, from);
      assert forall op :: op in patch[n..] ==> op in patch;
    }
  }

  lemma FramesAreFit(e: Event, w: Wording)
    ensures FramesFit(Projected(e, w), e, w)
  {
    HiddenIffNotShown(e, w);
    if Shown(e, w) && e.kind == RunQueued {
      QueuedIsFit(e, w);
    } else if Shown(e, w) {
      PatchIsFit(e, w);
    }
  }

  lemma QueuedIsFit(e: Event, w: Wording)
    requires e.kind == RunQueued
    ensures DocumentFits(Document(e, Progress([ItemOf(e, w)], map[], "queued")), [e], w)
  {
    FoldFits([e], w);
    assert [e][..0] == [];
    assert Folded([e], w) == After(Folded([], w), e, w) == Progress([ItemOf(e, w)], map[], "queued");
    assert StartsAt([e], e) by { assert [e][0] == e; }
    DocumentIsFit([e], e, Folded([e], w), w);
  }

  method ActivityProjection(e: Event, w: Wording) returns (frames: seq<Frame>)
    ensures frames == Projected(e, w) && FramesFit(frames, e, w)
  {
    FramesAreFit(e, w);
    if !Shown(e, w) {
      return [];
    }
    if e.kind == RunQueued {
      return [Snapshot(Document(e, Progress([ItemOf(e, w)], map[], "queued")))];
    }
    var patch := ActivityPatch(e, w);
    frames := [Delta(patch)];
  }

  method ActivityPatch(e: Event, w: Wording) returns (patch: seq<Operation>)
    requires Shown(e, w)
    ensures patch == Patch(e, w)
  {
    patch := [Add(Pointer2("items", "-"), ItemOf(e, w))];
    if RunKind(e.kind) {
      patch := patch + [Replace(Pointer1("status"), Text(StatusOf(e, w).value))];
    }
    if e.kind == RuntimeResult {
      patch := patch + [Replace(Pointer1("status"), Text(StatusOf(e, w).value))];
      var entries := Reported(e);
      ghost var base := patch;
      for k := 0 to |entries|
        invariant patch == base + MetricOps(entries)[..k]
      {
        patch := patch + [Add(Pointer2("metrics", entries[k].0), entries[k].1)];
      }
      assert MetricOps(entries)[..|entries|] == MetricOps(entries);
    }
  }

  /** What a client shows: a snapshot replaces the document, a patch edits it, and before the first snapshot
      there is nothing to edit. A patch that does not apply leaves the document as it is. */
  function Show(view: Option<Json>, frame: Frame): Option<Json> {
    match frame
    case Snapshot(content) => Some(content)
    case Delta(patch) =>
      if view == None then None
      else if ApplyAll(view.value, patch) == None then view else ApplyAll(view.value, patch)
  }

  function ShowAll(view: Option<Json>, frames: seq<Frame>): Option<Json>
    decreases |frames|
  {
    if frames == [] then view else ShowAll(Show(view, frames[0]), frames[1..])
  }

  function Live(events: seq<Event>, w: Wording): Option<Json> {
    if events == [] then None
    else ShowAll(Live(events[..|events| - 1], w), Projected(events[|events| - 1], w))
  }

  // ------------------------------------------------------------------ one patch

  lemma ItemsOp(first: Event, p: Progress, item: Json)
    ensures Apply(Document(first, p), Add(Pointer2("items", "-"), item))
         == Some(Document(first, p.(items := p.items + [item])))
  {
    var m := Document(first, p).members;
    AppendToMember(m, "items", item);
    assert m["items" := Array(p.items + [item])] == Document(first, p.(items := p.items + [item])).members;
  }

  lemma DocumentWithStatus(first: Event, p: Progress, status: string)
    ensures Document(first, p).members["status" := Text(status)] == Document(first, p.(status := status)).members
  {
  }

  lemma StatusOp(first: Event, p: Progress, status: string)
    ensures Apply(Document(first, p), Replace(Pointer1("status"), Text(status)))
         == Some(Document(first, p.(status := status)))
  {
    var m := Document(first, p).members;
    ReplaceMember(m, "status", Text(status));
    DocumentWithStatus(first, p, status);
  }

  lemma MetricOp(first: Event, p: Progress, key: string, value: Json)
    requires Verbatim(key)
    ensures Apply(Document(first, p), Add(Pointer2("metrics", key), value))
         == Some(Document(first, p.(metrics := p.metrics[key := value])))
  {
    var m, metrics := Document(first, p).members, p.metrics[key := value];
    AddToMember(m, "metrics", key, value);
    assert m["metrics" := Object(metrics)] == Document(first, p.(metrics := metrics)).members;
  }

  lemma {:induction false} MetricOpsMerge(first: Event, p: Progress, entries: seq<(string, Json)>)
    requires forall entry :: entry in entries ==> Verbatim(entry.0)
    ensures ApplyAll(Document(first, p), MetricOps(entries))
         == Some(Document(first, p.(metrics := Merged(p.metrics, entries))))
    decreases |entries|
  {
    if entries != [] {
      MetricOp(first, p, entries[0].0, entries[0].1);
      MetricOpsMerge(first, p.(metrics := p.metrics[entries[0].0 := entries[0].1]), entries[1..]);
      assert MetricOps(entries)[1..] == MetricOps(entries[1..]);
    }
  }

  lemma {:induction false} MetricKeysAreVerbatim(payload: map<string, Json>, fields: seq<(string, string)>)
    requires forall f :: f in fields ==> Verbatim(f.0)
    ensures forall entry :: entry in Metrics(payload, fields) ==> Verbatim(entry.0)
  {
    if fields != [] {
      assert fields[0] in fields;
      MetricKeysAreVerbatim(payload, fields[1..]);
    }
  }

  lemma ReportedKeysAreVerbatim(e: Event)
    ensures forall entry :: entry in Reported(e) ==> Verbatim(entry.0)
  {
    assert Verbatim("subtype") && Verbatim("turns") && Verbatim("cost_usd");
    assert Verbatim("usage") && Verbatim("stop_reason");
    MetricKeysAreVerbatim(e.payload, RESULT_FIELDS);
  }

  /** Applied to the document of what was folded so far, an event's patch gives the document of the next fold. */
  lemma PatchIsStep(first: Event, p: Progress, e: Event, w: Wording)
    requires Shown(e, w) && e.kind != RunQueued
    ensures ApplyAll(Document(first, p), Patch(e, w)) == Some(Document(first, After(p, e, w)))
  {
    var item, status := ItemOf(e, w), StatusOf(e, w).value;
    var withItem := p.(items := p.items + [item]);
    var withStatus := if SetsStatus(e) then withItem.(status := status) else withItem;
    ItemsOp(first, p, item);
    StatusOp(first, withItem, status);
    ReportedKeysAreVerbatim(e);
    MetricOpsMerge(first, withStatus, Reported(e));
    var add := [Add(Pointer2("items", "-"), item)];
    OneOp(Document(first, p), add[0]);
    if SetsStatus(e) { OneOp(Document(first, withItem), StatusOps(e, w)[0]); }
    ApplyConcat(Document(first, p), add, StatusOps(e, w));
    ApplyConcat(Document(first, p), add + StatusOps(e, w), MetricOps(Reported(e)));
  }

  lemma OneOp(doc: Json, op: Operation)
    ensures ApplyAll(doc, [op]) == Apply(doc, op)
  {
    if Apply(doc, op).Some? { assert ApplyAll(Apply(doc, op).value, []) == Apply(doc, op); }
  }

  // -------------------------------------------------------- live equals history

  predicate NoneShown(events: seq<Event>, w: Wording) {
    forall e :: e in events ==> !Shown(e, w)
  }

  predicate NoneQueued(events: seq<Event>) {
    forall e :: e in events ==> e.kind != RunQueued
  }

  lemma {:induction false} NothingToShow(events: seq<Event>, w: Wording)
    requires NoneShown(events, w)
    ensures Folded(events, w) == Progress([], map[], "queued") && Live(events, w) == None
  {
    if events != [] {
      assert events[|events| - 1] in events;
      NothingToShow(events[..|events| - 1], w);
    }
  }

  lemma {:induction false} NothingToEdit(events: seq<Event>, w: Wording)
    requires NoneQueued(events)
    ensures Live(events, w) == None
  {
    if events != [] {
      var e := events[|events| - 1];
      assert e in events;
      NothingToEdit(events[..|events| - 1], w);
      if Shown(e, w) { ShowOne(None, Delta(Patch(e, w))); }
    }
  }

  lemma ShowOne(view: Option<Json>, frame: Frame)
    ensures ShowAll(view, [frame]) == Show(view, frame)
  {
    assert [frame][1..] == [] && ShowAll(Show(view, frame), []) == Show(view, frame);
  }

  lemma LiveStep(front: seq<Event>, e: Event, q: Event, p: Progress, w: Wording)
    requires Live(front, w) == Some(Document(q, p)) && e.kind != RunQueued
    ensures Live(front + [e], w) == Some(Document(q, After(p, e, w)))
  {
    assert (front + [e])[..|front|] == front;
    if Shown(e, w) {
      PatchIsStep(q, p, e, w);
      ShowOne(Some(Document(q, p)), Delta(Patch(e, w)));
    }
  }

  /** Every shown event is one item. */
  lemma {:induction false} ItemsAdd(a: seq<Event>, b: seq<Event>, w: Wording)
    ensures |Folded(a + b, w).items| == |Folded(a, w).items| + |Folded(b, w).items|
    decreases |b|
  {
    if b == [] {
      assert a + b == a;
    } else {
      assert (a + b)[..|a + b| - 1] == a + b[..|b| - 1];
      ItemsAdd(a, b[..|b| - 1], w);
    }
  }

  lemma {:induction false} FoldSkipsHidden(a: seq<Event>, b: seq<Event>, w: Wording)
    requires NoneShown(a, w)
    ensures Folded(a + b, w) == Folded(b, w)
    decreases |b|
  {
    if b == [] {
      assert a + b == a;
      NothingToShow(a, w);
    } else {
      assert (a + b)[..|a + b| - 1] == a + b[..|b| - 1];
      FoldSkipsHidden(a, b[..|b| - 1], w);
    }
  }

  lemma LiveRestarts(before: seq<Event>, q: Event, w: Wording)
    requires q.kind == RunQueued
    ensures Live(before + [q], w) == Some(Document(q, Folded([q], w)))
  {
    assert (before + [q])[..|before|] == before && [q][..0] == [];
    assert Folded([q], w) == After(Folded([], w), q, w) == Progress([ItemOf(q, w)], map[], "queued");
    ShowOne(Live(before, w), Projected(q, w)[0]);
  }

  /** The client shows the document of this progress. */
  predicate Shows(events: seq<Event>, q: Event, p: Progress, w: Wording) {
    Live(events, w) == Some(Document(q, p))
  }

  /** From a queued event on, as long as no other comes, the client shows the fold of the events since. */
  lemma {:induction false} LiveFollowsFold(before: seq<Event>, q: Event, rest: seq<Event>, w: Wording)
    requires q.kind == RunQueued && NoneQueued(rest)
    ensures Shows(before + ([q] + rest), q, Folded([q] + rest, w), w)
    decreases |rest|
  {
    if rest == [] {
      LiveRestarts(before, q, w);
      assert [q] + rest == [q];
    } else {
      var front, e := rest[..|rest| - 1], rest[|rest| - 1];
      assert e in rest && [q] + rest == ([q] + front) + [e];
      LiveFollowsFold(before, q, front, w);
      LiveNext(before, [q] + front, e, q, w);
    }
  }

  /** What the client then shows is those events: their items, metrics, and the status the last of them to name one
      names. */
  lemma LiveShowsTheLog(before: seq<Event>, q: Event, rest: seq<Event>, w: Wording)
    requires q.kind == RunQueued && NoneQueued(rest)
    ensures Live(before + ([q] + rest), w).Some?
    ensures DocumentFits(Live(before + ([q] + rest), w).value, [q] + rest, w)
  {
    LiveFollowsFold(before, q, rest, w);
    FoldFits([q] + rest, w);
    assert ([q] + rest)[0] == q && q in [q] + rest;
    DocumentIsFit([q] + rest, q, Folded([q] + rest, w), w);
  }

  lemma LiveNext(before: seq<Event>, since: seq<Event>, e: Event, q: Event, w: Wording)
    requires Shows(before + since, q, Folded(since, w), w) && e.kind != RunQueued
    ensures Shows(before + (since + [e]), q, Folded(since + [e], w), w)
  {
    assert before + (since + [e]) == (before + since) + [e];
    LiveStep(before + since, e, q, Folded(since, w), w);
  }

  lemma {:induction false} FirstIsQueued(before: seq<Event>, q: Event, rest: seq<Event>, default: Event)
    requires NoneQueued(before) && q.kind == RunQueued
    ensures FirstQueued(before + [q] + rest, default) == q
    decreases |before|
  {
    var all := before + [q] + rest;
    if before != [] {
      assert before[0] in before && all[1..] == before[1..] + [q] + rest;
      FirstIsQueued(before[1..], q, rest, default);
    }
  }

  /** The last queued event of a log. */
  lemma {:induction false} LastQueued(events: seq<Event>) returns (before: seq<Event>, q: Event, rest: seq<Event>)
    requires !NoneQueued(events)
    ensures events == before + [q] + rest && q.kind == RunQueued && NoneQueued(rest)
  {
    var last := events[|events| - 1];
    if last.kind == RunQueued {
      before, q, rest := events[..|events| - 1], last, [];
    } else {
      var front := events[..|events| - 1];
      assert events == front + [last];
      before, q, rest := LastQueued(front);
      rest := rest + [last];
    }
  }

  /** The log shows nothing, or what it shows starts with its only queued event. */
  ghost predicate StartsQueued(events: seq<Event>, w: Wording) {
    NoneShown(events, w)
    || exists before, q, rest :: QueuedAt(events, before, q, rest) && NoneShown(before, w)
  }

  predicate QueuedAt(events: seq<Event>, before: seq<Event>, q: Event, rest: seq<Event>) {
    events == before + [q] + rest && q.kind == RunQueued && NoneQueued(rest)
  }

  lemma SameItems(a: Event, p: Progress, b: Event, r: Progress)
    requires Document(a, p) == Document(b, r)
    ensures p.items == r.items
  {
    assert Document(a, p).members["items"] == Array(p.items) && Document(b, r).members["items"] == Array(r.items);
  }

  /** The activity shown live is the one rebuilt from history for every log that starts with its only queued
      event, and for no other log that shows anything. */
  lemma LiveEqualsHistoryIff(events: seq<Event>, w: Wording)
    ensures Live(events, w) == RunActivity(events, w) <==> StartsQueued(events, w)
  {
    if NoneShown(events, w) {
      NothingToShow(events, w);
    } else if NoneQueued(events) {
      NothingToEdit(events, w);
      ShownMeansItems(events, w);
    } else {
      var before, q, rest := LastQueued(events);
      assert events == before + ([q] + rest) && QueuedAt(events, before, q, rest);
      LiveFollowsFold(before, q, rest, w);
      ShownMeansItems(events, w);
      if NoneShown(before, w) {
        FoldSkipsHidden(before, [q] + rest, w);
        FirstIsQueued(before, q, rest, events[0]);
      } else {
        EarlierItemsAreMissing(events, before, q, rest, w);
        OnlyOneLast(events, before, q, rest, w);
      }
    }
  }

  lemma EarlierItemsAreMissing(events: seq<Event>, before: seq<Event>, q: Event, rest: seq<Event>, w: Wording)
    requires events == before + ([q] + rest) && !NoneShown(before, w)
    ensures Folded(events, w).items != Folded([q] + rest, w).items
    ensures Document(First(events), Folded(events, w)) != Document(q, Folded([q] + rest, w))
  {
    ItemsAdd(before, [q] + rest, w);
    ShownMeansItems(before, w);
    if Document(First(events), Folded(events, w)) == Document(q, Folded([q] + rest, w)) {
      SameItems(First(events), Folded(events, w), q, Folded([q] + rest, w));
      assert false;
    }
  }

  lemma {:induction false} ShownMeansItems(events: seq<Event>, w: Wording)
    requires !NoneShown(events, w)
    ensures Folded(events, w).items != []
  {
    var e :| e in events && Shown(e, w);
    var k :| 0 <= k < |events| && events[k] == e;
    assert events == events[..k + 1] + events[k + 1..];
    ItemsAdd(events[..k + 1], events[k + 1..], w);
    assert events[..k + 1][..k] == events[..k];
  }

  /** There is one way to split a log at its last queued event. */
  lemma OnlyOneLast(events: seq<Event>, before: seq<Event>, q: Event, rest: seq<Event>, w: Wording)
    requires QueuedAt(events, before, q, rest) && !NoneShown(before, w) && !NoneShown(events, w)
    ensures !StartsQueued(events, w)
  {
    forall b, p, r | QueuedAt(events, b, p, r) ensures b == before {
      assert events[|before|] == q && events[|b|] == p;
      if |b| < |before| { }
      if |before| < |b| { }
      assert b == events[..|b|] && before == events[..|before|];
    }
  }
}
