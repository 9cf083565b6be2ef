/** Deployments of one environment: promotion, rollback, policy replacement and reconcile, which all
    race on the environment's revision. This module is the protocol; `DeploymentPlane` is the code. */
module Deployments {
  import opened Outcomes

  // ------------------------------------------------------------------ records

  datatype Policy = Policy(
    profile: string, profileVersion: nat, catalogRevision: nat,
    routes: set<string>, mcp: set<string>, knowledge: set<string>)

  /** What a published agent version needs from an environment. */
  datatype AgentVersion = AgentVersion(
    toolCatalog: Option<nat>, routes: set<string>, mcp: set<string>, knowledge: set<string>)

  datatype Snapshot = Snapshot(agentVersion: string, profile: string, profileVersion: nat, gatePassed: bool)

  datatype Route = Route(snapshot: string, weight: int)

  datatype Environment = Environment(
    revision: nat, policyRevision: nat, policy: Policy, routes: seq<Route>, healthy: Option<string>)

  datatype DeployAction = Promotion | Rollback

  datatype DeployStatus = Queued | Reconciling | Succeeded | Failed

  datatype Deployment = Deployment(
    action: DeployAction, target: string, canary: int, expected: nat, status: DeployStatus, token: nat)

  type Registry = map<string, AgentVersion>

  predicate Final(s: DeployStatus) {
    s == Succeeded || s == Failed
  }

  // ------------------------------------------------------------------- checks

  datatype PolicyError = ProfileOutside | CatalogOutside | RoutesOutside | McpOutside | KnowledgeOutside

  /** `_validate_agent_policy`, in the order of its checks. */
  function ValidateAgentPolicy(v: AgentVersion, p: Policy, profile: string, profileVersion: nat)
    : Result<(), PolicyError>
  {
    if profile != p.profile || profileVersion != p.profileVersion then Err(ProfileOutside)
    else if v.toolCatalog.Some? && v.toolCatalog.value != p.catalogRevision then Err(CatalogOutside)
    else if !(v.routes <= p.routes) then Err(RoutesOutside)
    else if !(v.mcp <= p.mcp) then Err(McpOutside)
    else if !(v.knowledge <= p.knowledge) then Err(KnowledgeOutside)
    else Ok(())
  }

  /** The agent version, run with this execution profile, stays inside the policy. */
  predicate Inside(v: AgentVersion, p: Policy, profile: string, profileVersion: nat) {
    && profile == p.profile && profileVersion == p.profileVersion
    && (v.toolCatalog == None || v.toolCatalog == Some(p.catalogRevision))
    && (forall x :: x in v.routes ==> x in p.routes)
    && (forall x :: x in v.mcp ==> x in p.mcp)
    && (forall x :: x in v.knowledge ==> x in p.knowledge)
  }

  /** The validation accepts exactly what stays inside the policy, and what it names does go outside. */
  lemma ValidatedIffInside(v: AgentVersion, p: Policy, profile: string, profileVersion: nat)
    ensures var r := ValidateAgentPolicy(v, p, profile, profileVersion);
            && (r.Ok? <==> Inside(v, p, profile, profileVersion))
            && (r == Err(ProfileOutside) <==> profile != p.profile || profileVersion != p.profileVersion)
            && (r == Err(CatalogOutside) ==> v.toolCatalog.Some? && v.toolCatalog != Some(p.catalogRevision))
            && (r == Err(RoutesOutside) ==> exists x :: x in v.routes && x !in p.routes)
            && (r == Err(McpOutside) ==> exists x :: x in v.mcp && x !in p.mcp)
            && (r == Err(KnowledgeOutside) ==> exists x :: x in v.knowledge && x !in p.knowledge)
  {
  }

  /** The snapshot runs a registered agent version that satisfies the policy. */
  predicate Complies(registry: Registry, snapshots: map<string, Snapshot>, id: string, p: Policy) {
    && id in snapshots && snapshots[id].agentVersion in registry
    && ValidateAgentPolicy(registry[snapshots[id].agentVersion], p,
                           snapshots[id].profile, snapshots[id].profileVersion).Ok?
  }

  lemma CompliesIffInside(registry: Registry, snapshots: map<string, Snapshot>, id: string, p: Policy)
    ensures Complies(registry, snapshots, id, p) <==>
              && id in snapshots && snapshots[id].agentVersion in registry
              && Inside(registry[snapshots[id].agentVersion], p, snapshots[id].profile, snapshots[id].profileVersion)
  {
    if id in snapshots && snapshots[id].agentVersion in registry {
      ValidatedIffInside(registry[snapshots[id].agentVersion], p, snapshots[id].profile, snapshots[id].profileVersion);
    }
  }

  predicate RoutesComply(registry: Registry, snapshots: map<string, Snapshot>, routes: seq<Route>, p: Policy) {
    forall r :: r in routes ==> Complies(registry, snapshots, r.snapshot, p)
  }

  function TotalWeight(routes: seq<Route>): int {
    if routes == [] then 0 else routes[0].weight + TotalWeight(routes[1..])
  }

  /** What the model validators of a route and an environment demand, and `model_copy` does not check. */
  predicate ValidRoutes(routes: seq<Route>) {
    && (routes != [] ==> TotalWeight(routes) == 100)
    && (forall i :: 0 <= i < |routes| ==> 1 <= routes[i].weight <= 100)
    && (forall i, j :: 0 <= i < j < |routes| ==> routes[i].snapshot != routes[j].snapshot)
  }

  // -------------------------------------------------------------------- moves

  /** The routes a reconcile gives an environment, or nothing when a canary has no healthy version to share with. */
  function NewRoutes(e: Environment, d: Deployment): Option<seq<Route>> {
    if d.canary < 100 then
      if e.healthy.None? then None
      else if e.healthy.value == d.target then Some([Route(d.target, 100)])
      else Some([Route(e.healthy.value, 100 - d.canary), Route(d.target, d.canary)])
    else Some([Route(d.target, 100)])
  }

  function Advanced(e: Environment, d: Deployment): Environment
    requires NewRoutes(e, d).Some?
  {
    e.(revision := e.revision + 1,
       routes := NewRoutes(e, d).value,
       healthy := if d.canary < 100 then e.healthy else Some(d.target))
  }

  function Repoliced(e: Environment, p: Policy): Environment {
    e.(revision := e.revision + 1, policyRevision := e.policyRevision + 1, policy := p)
  }

  datatype Mover = ByDeployment(id: string) | ByPolicy(policy: Policy)

  /** The stores, with the environment at every revision so far and who moved it on from there. */
  datatype State = State(
    env: Environment,
    snapshots: map<string, Snapshot>,
    deployments: map<string, Deployment>,
    past: seq<Environment>,
    movers: seq<Mover>)

  /** One repository write by whichever worker, request or duplicate delivery performs it. */
  datatype Step =
    | AddSnapshot(id: string, snapshot: Snapshot)
    | AddDeployment(id: string, deployment: Deployment)
    | ReplacePolicy(policy: Policy)
    | Advance(id: string)
    | SetStatus(id: string, status: DeployStatus)

  function Fresh(policy: Policy): State {
    var e := Environment(0, 1, policy, [], None);
    State(e, map[], map[], [e], [])
  }

  predicate Enabled(registry: Registry, s: State, step: Step) {
    match step
    case AddSnapshot(id, x) => id !in s.snapshots || s.snapshots[id] == x
    case AddDeployment(id, d) =>
      && id !in s.deployments && d.status == Queued && d.token == 0 && 1 <= d.canary <= 100
      && d.target in s.snapshots && s.snapshots[d.target].gatePassed && d.expected < |s.past|
      && (d.action == Promotion ==> Complies(registry, s.snapshots, d.target, s.past[d.expected].policy))
    case ReplacePolicy(p) => RoutesComply(registry, s.snapshots, s.env.routes, p)
    case Advance(id) =>
      && id in s.deployments && s.deployments[id].expected == s.env.revision
      && NewRoutes(s.env, s.deployments[id]).Some?
    case SetStatus(id, status) =>
      && id in s.deployments
      && match status
         case Queued => false
         case Reconciling => s.deployments[id].status == Queued
         case Failed => s.deployments[id].status == Reconciling
         case Succeeded =>
           && s.deployments[id].status == Reconciling
           && s.deployments[id].expected < |s.movers|
           && s.movers[s.deployments[id].expected] == ByDeployment(id)
  }

  function Moved(s: State, e: Environment, m: Mover): State {
    s.(env := e, past := s.past + [e], movers := s.movers + [m])
  }

  function Apply(s: State, step: Step, registry: Registry): State
    requires Enabled(registry, s, step)
  {
    match step
    case AddSnapshot(id, x) => s.(snapshots := s.snapshots[id := x])
    case AddDeployment(id, d) => s.(deployments := s.deployments[id := d])
    case ReplacePolicy(p) => Moved(s, Repoliced(s.env, p), ByPolicy(p))
    case Advance(id) => Moved(s, Advanced(s.env, s.deployments[id]), ByDeployment(id))
    case SetStatus(id, status) =>
      s.(deployments := s.deployments[id := s.deployments[id].(status := status, token := s.deployments[id].token + 1)])
  }

  ghost predicate Legal(registry: Registry, s: State, trace: seq<Step>)
    decreases |trace|, 0
  {
    trace == [] ||
    (Legal(registry, s, trace[..|trace| - 1])
     && Enabled(registry, Exec(registry, s, trace[..|trace| - 1]), trace[|trace| - 1]))
  }

  ghost function Exec(registry: Registry, s: State, trace: seq<Step>): State
    requires Legal(registry, s, trace)
    decreases |trace|, 1
  {
    if trace == [] then s
    else Apply(Exec(registry, s, trace[..|trace| - 1]), trace[|trace| - 1], registry)
  }

  // --------------------------------------------------------------- invariants

  /** What one mover made of an environment. */
  ghost predicate MadeBy(s: State, before: Environment, m: Mover, after: Environment) {
    match m
    case ByPolicy(p) => after == Repoliced(before, p)
    case ByDeployment(id) =>
      && id in s.deployments && s.deployments[id].expected == before.revision
      && NewRoutes(before, s.deployments[id]).Some?
      && after == Advanced(before, s.deployments[id])
  }

  /** The environment's history is one chain: each revision was made from the one before by exactly one mover. */
  ghost predicate OneMoverPerRevision(s: State) {
    && |s.past| == |s.movers| + 1 && s.env == s.past[|s.past| - 1]
    && (forall r :: 0 <= r < |s.past| ==> s.past[r].revision == r)
    && (forall r :: 0 <= r < |s.movers| ==> MadeBy(s, s.past[r], s.movers[r], s.past[r + 1]))
  }

  function TokenOf(status: DeployStatus): nat {
    match status
    case Queued => 0
    case Reconciling => 1
    case _ => 2
  }

  ghost predicate DeploymentOk(registry: Registry, s: State, id: string, d: Deployment) {
    && d.token == TokenOf(d.status) && 1 <= d.canary <= 100
    && d.target in s.snapshots && s.snapshots[d.target].gatePassed && d.expected < |s.past|
    && (d.action == Promotion ==> Complies(registry, s.snapshots, d.target, s.past[d.expected].policy))
    && (d.status == Succeeded ==> d.expected < |s.movers| && s.movers[d.expected] == ByDeployment(id))
  }

  /** Routes are empty or valid, contain the healthy snapshot, and point at stored snapshots. */
  ghost predicate RoutesSound(s: State) {
    && ValidRoutes(s.env.routes)
    && (s.env.healthy.Some? <==> s.env.routes != [])
    && (s.env.healthy.Some? ==> exists r :: r in s.env.routes && r.snapshot == s.env.healthy.value)
    && (forall r :: r in s.env.routes ==> r.snapshot in s.snapshots && s.snapshots[r.snapshot].gatePassed)
  }

  ghost predicate Inv(registry: Registry, s: State) {
    && OneMoverPerRevision(s)
    && (forall id :: id in s.deployments ==> DeploymentOk(registry, s, id, s.deployments[id]))
    && RoutesSound(s)
  }

  lemma ChainStep(registry: Registry, s: State, step: Step)
    requires OneMoverPerRevision(s) && Enabled(registry, s, step)
    ensures OneMoverPerRevision(Apply(s, step, registry))
  {
    var t := Apply(s, step, registry);
    forall r | 0 <= r < |t.movers| ensures MadeBy(t, t.past[r], t.movers[r], t.past[r + 1]) {
      if r < |s.movers| { assert MadeBy(s, s.past[r], s.movers[r], s.past[r + 1]); }
    }
  }

  lemma DeploymentStep(registry: Registry, s: State, step: Step, id: string)
    requires Inv(registry, s) && Enabled(registry, s, step) && id in Apply(s, step, registry).deployments
    ensures DeploymentOk(registry, Apply(s, step, registry), id, Apply(s, step, registry).deployments[id])
  {
    if id in s.deployments { assert DeploymentOk(registry, s, id, s.deployments[id]); }
  }

  lemma OneRouteWeight(r: Route)
    ensures TotalWeight([r]) == r.weight
  {
    assert [r][1..] == [];
  }

  lemma NewRoutesAreValid(e: Environment, d: Deployment)
    requires NewRoutes(e, d).Some? && 1 <= d.canary <= 100
    ensures ValidRoutes(NewRoutes(e, d).value) && NewRoutes(e, d).value != []
    ensures exists r :: r in NewRoutes(e, d).value
                        && r.snapshot == if d.canary < 100 then e.healthy.value else d.target
  {
    var routes := NewRoutes(e, d).value;
    assert routes[0] in routes;
    OneRouteWeight(routes[|routes| - 1]);
    if |routes| == 2 {
      assert routes[1..] == [routes[1]];
    }
  }

  lemma RoutesStep(registry: Registry, s: State, step: Step)
    requires Inv(registry, s) && Enabled(registry, s, step)
    ensures RoutesSound(Apply(s, step, registry))
  {
    if step.Advance? {
      var d := s.deployments[step.id];
      assert DeploymentOk(registry, s, step.id, d);
      NewRoutesAreValid(s.env, d);
    }
  }

  /** However many workers, duplicates, crashes and requests interleave, the invariant holds. */
  lemma {:induction false} EveryInterleavingKeepsInv(registry: Registry, policy: Policy, trace: seq<Step>)
    requires Legal(registry, Fresh(policy), trace)
    ensures Inv(registry, Exec(registry, Fresh(policy), trace))
  {
    if trace != [] {
      var s, step := Exec(registry, Fresh(policy), trace[..|trace| - 1]), trace[|trace| - 1];
      EveryInterleavingKeepsInv(registry, policy, trace[..|trace| - 1]);
      ChainStep(registry, s, step);
      RoutesStep(registry, s, step);
      forall id | id in Apply(s, step, registry).deployments
        ensures DeploymentOk(registry, Apply(s, step, registry), id, Apply(s, step, registry).deployments[id])
      {
        DeploymentStep(registry, s, step, id);
      }
    }
  }

  // --------------------------------------------------------------- properties

  /** The environment went from the deployment's expected revision to the next one exactly as it ordered. */
  ghost predicate MadeTheMove(s: State, d: Deployment) {
    && d.expected + 1 < |s.past|
    && NewRoutes(s.past[d.expected], d).Some?
    && s.past[d.expected + 1] == Advanced(s.past[d.expected], d)
  }

  /** A deployment that succeeded made the move from its expected revision itself, so no two deployments
      with the same expected revision both succeed; and a deployment's status fixes its fencing token. */
  lemma {:induction false} OneSuccessPerRevision(registry: Registry, policy: Policy, trace: seq<Step>,
                                                 a: string, b: string)
    requires Legal(registry, Fresh(policy), trace)
    ensures var s := Exec(registry, Fresh(policy), trace);
            && (a in s.deployments ==> s.deployments[a].token == TokenOf(s.deployments[a].status))
            && (a in s.deployments && s.deployments[a].status == Succeeded ==> MadeTheMove(s, s.deployments[a]))
            && (a in s.deployments && s.deployments[a].status == Succeeded
                && b in s.deployments && s.deployments[b].status == Succeeded
                && s.deployments[a].expected == s.deployments[b].expected
                ==> a == b)
  {
    EveryInterleavingKeepsInv(registry, policy, trace);
    var s := Exec(registry, Fresh(policy), trace);
    if a in s.deployments {
      assert DeploymentOk(registry, s, a, s.deployments[a]);
      if s.deployments[a].status == Succeeded {
        var r := s.deployments[a].expected;
        assert MadeBy(s, s.past[r], s.movers[r], s.past[r + 1]);
      }
    }
    if b in s.deployments { assert DeploymentOk(registry, s, b, s.deployments[b]); }
  }

  /** Every reachable environment has no routes, or distinct routes within bounds totalling 100,
      the healthy snapshot among them, and every routed snapshot passed the release gate. */
  lemma ReachableRoutesAreValid(registry: Registry, policy: Policy, trace: seq<Step>)
    requires Legal(registry, Fresh(policy), trace)
    ensures var s := Exec(registry, Fresh(policy), trace);
            && ValidRoutes(s.env.routes)
            && (s.env.healthy.Some? <==> s.env.routes != [])
            && (forall r :: r in s.env.routes ==> r.snapshot in s.snapshots && s.snapshots[r.snapshot].gatePassed)
  {
    EveryInterleavingKeepsInv(registry, policy, trace);
  }

  ghost predicate Compliant(registry: Registry, s: State) {
    RoutesComply(registry, s.snapshots, s.env.routes, s.env.policy)
  }

  /** From a compliant environment, every step leaves it compliant, except a rollback's advance:
      that one does exactly when the snapshot rolled back to complies with the current policy. */
  lemma StepKeepsComplianceIff(registry: Registry, s: State, step: Step)
    requires Inv(registry, s) && Compliant(registry, s) && Enabled(registry, s, step)
    ensures step.Advance? && s.deployments[step.id].action == Rollback ==>
              (Compliant(registry, Apply(s, step, registry)) <==>
               Complies(registry, s.snapshots, s.deployments[step.id].target, s.env.policy))
    ensures !(step.Advance? && s.deployments[step.id].action == Rollback) ==>
              Compliant(registry, Apply(s, step, registry))
  {
    if step.Advance? {
      var d := s.deployments[step.id];
      assert DeploymentOk(registry, s, step.id, d);
      assert s.past[d.expected] == s.env;
      var routes := NewRoutes(s.env, d).value;
      assert routes[|routes| - 1] in routes && routes[|routes| - 1].snapshot == d.target;
      assert forall r :: r in routes ==> r.snapshot == d.target || r.snapshot == s.env.healthy.value;
    }
  }

  /** No rollback in the trace advances the environment to a snapshot outside the policy of that moment. */
  ghost predicate RollbacksComply(registry: Registry, s: State, trace: seq<Step>)
    requires Legal(registry, s, trace)
    decreases |trace|
  {
    trace == [] ||
    var t, step := Exec(registry, s, trace[..|trace| - 1]), trace[|trace| - 1];
    && RollbacksComply(registry, s, trace[..|trace| - 1])
    && (step.Advance? && t.deployments[step.id].action == Rollback ==>
          Complies(registry, t.snapshots, t.deployments[step.id].target, t.env.policy))
  }

  /** In every interleaving of promotions, policy replacements, reconciles and compliant rollbacks,
      every route points at an agent version that satisfies the environment's current policy. */
  lemma {:induction false} RoutesAlwaysComply(registry: Registry, policy: Policy, trace: seq<Step>)
    requires Legal(registry, Fresh(policy), trace) && RollbacksComply(registry, Fresh(policy), trace)
    ensures Compliant(registry, Exec(registry, Fresh(policy), trace))
  {
    if trace != [] {
      RoutesAlwaysComply(registry, policy, trace[..|trace| - 1]);
      EveryInterleavingKeepsInv(registry, policy, trace[..|trace| - 1]);
      StepKeepsComplianceIff(registry, Exec(registry, Fresh(policy), trace[..|trace| - 1]), trace[|trace| - 1]);
    }
  }

  // ---------------------------------------------------------------- stability

  ghost predicate SameOrder(a: Deployment, b: Deployment) {
    && b.(status := a.status, token := a.token) == a
    && a.token <= b.token && (Final(a.status) ==> b == a)
  }

  /** What no step can undo: history only grows, stored snapshots stay, deployments keep their orders. */
  ghost predicate Onward(s: State, t: State) {
    && s.past <= t.past && s.movers <= t.movers
    && (forall id :: id in s.snapshots ==> id in t.snapshots && t.snapshots[id] == s.snapshots[id])
    && (forall id :: id in s.deployments ==> id in t.deployments && SameOrder(s.deployments[id], t.deployments[id]))
  }

  lemma {:induction false} ExecIsOnward(registry: Registry, s: State, trace: seq<Step>)
    requires Legal(registry, s, trace)
    ensures Onward(s, Exec(registry, s, trace))
  {
    if trace != [] {
      var front := trace[..|trace| - 1];
      ExecIsOnward(registry, s, front);
      StepIsOnward(registry, Exec(registry, s, front), trace[|trace| - 1]);
      OnwardTransitive(s, Exec(registry, s, front), Exec(registry, s, trace));
    }
  }

  lemma OnwardTransitive(s: State, t: State, u: State)
    requires Onward(s, t) && Onward(t, u)
    ensures Onward(s, u)
  {
  }

  lemma StepIsOnward(registry: Registry, s: State, step: Step)
    requires Enabled(registry, s, step)
    ensures Onward(s, Apply(s, step, registry))
  {
  }

  lemma ExecSnoc(registry: Registry, s: State, trace: seq<Step>, step: Step)
    requires Legal(registry, s, trace) && Enabled(registry, Exec(registry, s, trace), step)
    ensures Legal(registry, s, trace + [step])
    ensures Exec(registry, s, trace + [step]) == Apply(Exec(registry, s, trace), step, registry)
  {
    assert (trace + [step])[..|trace|] == trace;
  }

  lemma {:induction false} ExecConcat(registry: Registry, s: State, a: seq<Step>, b: seq<Step>)
    requires Legal(registry, s, a + b)
    ensures Legal(registry, s, a) && Legal(registry, Exec(registry, s, a), b)
    ensures Exec(registry, s, a + b) == Exec(registry, Exec(registry, s, a), b)
    decreases |b|
  {
    if b == [] {
      assert a + b == a;
    } else {
      assert (a + b)[..|a + b| - 1] == a + b[..|b| - 1];
      ExecConcat(registry, s, a, b[..|b| - 1]);
    }
  }

  // ---------------------------------------------------- rollback and policies

  lemma After(registry: Registry, policy: Policy, trace: seq<Step>, s: State, step: Step)
    returns (longer: seq<Step>, t: State)
    requires Legal(registry, Fresh(policy), trace) && s == Exec(registry, Fresh(policy), trace)
    requires Enabled(registry, s, step)
    ensures longer == trace + [step] && t == Apply(s, step, registry)
    ensures Legal(registry, Fresh(policy), longer) && t == Exec(registry, Fresh(policy), longer)
  {
    ExecSnoc(registry, Fresh(policy), trace, step);
    longer, t := trace + [step], Apply(s, step, registry);
  }

  const WIDE := Policy("p", 1, 1, {"a", "b"}, {}, {})
  const NARROW := Policy("p", 1, 1, {"b"}, {}, {})
  const TWO_VERSIONS := map["1" := AgentVersion(None, {"a"}, {}, {}), "2" := AgentVersion(None, {"b"}, {}, {})]

  /** An environment that was deployed under a wide policy and then narrowed, with an older snapshot still stored. */
  lemma NarrowedEnvironment() returns (trace: seq<Step>, s: State)
    ensures Legal(TWO_VERSIONS, Fresh(WIDE), trace) && s == Exec(TWO_VERSIONS, Fresh(WIDE), trace)
    ensures s.env.policy == NARROW && s.env.revision == 2 && |s.past| == 3
    ensures "old" in s.snapshots && s.snapshots["old"] == Snapshot("1", "p", 1, true) && "y" !in s.deployments
  {
    trace, s := [], Fresh(WIDE);
    trace, s := After(TWO_VERSIONS, WIDE, trace, s, AddSnapshot("old", Snapshot("1", "p", 1, true)));
    trace, s := After(TWO_VERSIONS, WIDE, trace, s, AddSnapshot("new", Snapshot("2", "p", 1, true)));
    trace, s := After(TWO_VERSIONS, WIDE, trace, s,
                      AddDeployment("x", Deployment(Promotion, "new", 100, 0, Queued, 0)));
    trace, s := After(TWO_VERSIONS, WIDE, trace, s, Advance("x"));
    trace, s := After(TWO_VERSIONS, WIDE, trace, s, ReplacePolicy(NARROW));
  }

  /** Rollback does not check the agent against the current policy, so it can leave a route outside it. */
  lemma RollbackCanLeaveThePolicy()
    ensures exists trace: seq<Step> ::
              Legal(TWO_VERSIONS, Fresh(WIDE), trace)
              && !Compliant(TWO_VERSIONS, Exec(TWO_VERSIONS, Fresh(WIDE), trace))
  {
    var trace, s := NarrowedEnvironment();
    trace, s := After(TWO_VERSIONS, WIDE, trace, s, AddDeployment("y", Deployment(Rollback, "old", 100, 2, Queued, 0)));
    trace, s := After(TWO_VERSIONS, WIDE, trace, s, Advance("y"));
    assert s.env.routes[0] in s.env.routes;
    assert "a" in TWO_VERSIONS["1"].routes && "a" !in NARROW.routes;
    assert !Complies(TWO_VERSIONS, s.snapshots, "old", NARROW);
  }
}
