/** The deployment service and controller over the shared stores of one environment.
    Every `Await` lets any other requests and workers take any number of protocol steps: it stands
    between two repository calls of one request, where the event loop may run others. */
module DeploymentPlane {
  import opened Outcomes
  import opened Deployments

  datatype PlaneError = NotFound | Conflict | GateClosed | PolicyRejected(reason: PolicyError)

  /** A snapshot id is free, or already names this very snapshot. */
  predicate Storable(snapshots: map<string, Snapshot>, id: string, snapshot: Snapshot) {
    id in snapshots ==> snapshots[id] == snapshot
  }

  /** What an undisturbed reconcile makes of a deployment and of its environment. A reconciling deployment succeeds
      exactly when it was deployed, the environment is still at the expected revision, and a canary has a healthy
      version to share with; the canary then gets its percentage and the healthy version the rest. */
  ghost predicate ReconcileDue(e: Environment, d: Deployment, hookOk: bool, after: Environment,
                               r: Result<Deployment, PlaneError>)
  {
    match d.status
    case Succeeded | Failed => r == Ok(d) && after == e
    case Queued => r == Ok(d.(status := Reconciling, token := d.token + 1)) && after == e
    case Reconciling =>
      if hookOk && e.revision == d.expected && (d.canary >= 100 || e.healthy.Some?) then
        && r == Ok(d.(status := Succeeded, token := d.token + 1))
        && after.revision == e.revision + 1 && after.policyRevision == e.policyRevision && after.policy == e.policy
        && if d.canary >= 100 then after.routes == [Route(d.target, 100)] && after.healthy == Some(d.target)
           else
             && after.healthy == e.healthy
             && after.routes == if e.healthy == Some(d.target) then [Route(d.target, 100)]
                                else [Route(e.healthy.value, 100 - d.canary), Route(d.target, d.canary)]
      else r == Ok(d.(status := Failed, token := d.token + 1)) && after == e
  }

  class Plane {
    const registry: Registry
    const policy: Policy
    var env: Environment
    var snapshots: map<string, Snapshot>
    var deployments: map<string, Deployment>

    // The environment's history and the steps taken since it was created.
    ghost var past: seq<Environment>
    ghost var movers: seq<Mover>
    ghost var trace: seq<Step>

    constructor (registry: Registry, policy: Policy)
      ensures Live() && trace == [] && S() == Fresh(policy)
      ensures this.registry == registry && this.policy == policy
    {
      this.registry, this.policy := registry, policy;
      var e := Environment(0, 1, policy, [], None);
      env, snapshots, deployments := e, map[], map[];
      past, movers, trace := [e], [], [];
    }

    ghost function S(): State
      reads this
    {
      State(env, snapshots, deployments, past, movers)
    }

    ghost predicate Live()
      reads this
    {
      Legal(registry, Fresh(policy), trace) && S() == Exec(registry, Fresh(policy), trace)
    }

    /** `read` is the environment as it was at its own revision. */
    ghost predicate Seen(read: Environment)
      reads this
    {
      read.revision < |past| && past[read.revision] == read
    }

    twostate predicate Forward()
      reads this
    {
      old(trace) <= trace && Onward(old(S()), S())
    }

    lemma Known()
      requires Live()
      ensures |past| == env.revision + 1 && |movers| == env.revision && Seen(env)
    {
      EveryInterleavingKeepsInv(registry, policy, trace);
    }

    lemma KnownDeployment(id: string)
      requires Live() && id in deployments
      ensures deployments[id].token == TokenOf(deployments[id].status)
      ensures 1 <= deployments[id].canary <= 100
      ensures deployments[id].status == Succeeded ==> MoverOf(deployments[id]) == Some(ByDeployment(id))
    {
      EveryInterleavingKeepsInv(registry, policy, trace);
      assert DeploymentOk(registry, S(), id, deployments[id]);
    }

    /** Who moved the environment on from the revision the deployment expects. */
    ghost function MoverOf(d: Deployment): Option<Mover>
      reads this
    {
      if d.expected < |movers| then Some(movers[d.expected]) else None
    }

    // ------------------------------------------------------------ interference

    method Interfere(ghost alone: bool)
      requires Live()
      modifies this
      ensures Live() && old(trace) <= trace
      ensures alone ==> S() == old(S())
    {
    }

    method Await(ghost alone: bool)
      requires Live()
      modifies this
      ensures Live() && Forward()
      ensures alone ==> S() == old(S())
    {
      ghost var before, s := trace, S();
      Interfere(alone);
      assert before + trace[|before|..] == trace;
      ExecConcat(registry, Fresh(policy), before, trace[|before|..]);
      ExecIsOnward(registry, s, trace[|before|..]);
    }

    // --------------------------------------------------------- repository calls

    ghost method Took(step: Step)
      requires Live() && Enabled(registry, S(), step)
      modifies this`trace
      ensures trace == old(trace) + [step]
      ensures Legal(registry, Fresh(policy), trace)
      ensures Exec(registry, Fresh(policy), trace) == Apply(old(S()), step, registry)
    {
      ExecSnoc(registry, Fresh(policy), trace, step);
      trace := trace + [step];
    }

    /** The environment's compare-and-set. It succeeds only while the revision is the one that was read,
        and then the stored environment is the one that was read: revisions are never reused. */
    method CompareAndSetPolicy(read: Environment, p: Policy) returns (won: bool)
      requires Live() && Seen(read) && RoutesComply(registry, snapshots, read.routes, p)
      modifies this
      ensures Live() && Forward()
      ensures won <==> old(env) == read
      ensures won ==> env == Repoliced(read, p)
      ensures !won ==> S() == old(S())
    {
      Known();
      if env.revision != read.revision {
        return false;
      }
      StepIsOnward(registry, S(), ReplacePolicy(p));
      Took(ReplacePolicy(p));
      env := Repoliced(read, p);
      past, movers := past + [env], movers + [ByPolicy(p)];
      won := true;
    }

    method CompareAndSetRoutes(read: Environment, updated: Environment, ghost id: string) returns (won: bool)
      requires Live() && Seen(read) && id in deployments && deployments[id].expected == read.revision
      requires NewRoutes(read, deployments[id]).Some? && updated == Advanced(read, deployments[id])
      modifies this
      ensures Live() && Forward()
      ensures won <==> old(env) == read
      ensures won ==> env == updated && deployments == old(deployments)
      ensures won ==> read.revision < |movers| && movers[read.revision] == ByDeployment(id)
      ensures !won ==> S() == old(S())
    {
      Known();
      if env.revision != read.revision {
        return false;
      }
      StepIsOnward(registry, S(), Advance(id));
      Took(Advance(id));
      env := updated;
      past, movers := past + [env], movers + [ByDeployment(id)];
      won := true;
    }

    predicate MayFollow(read: DeployStatus, status: DeployStatus) {
      match read
      case Queued => status == Reconciling
      case Reconciling => status == Failed || status == Succeeded
      case _ => false
    }

    /** `_move` of a deployment: compare-and-set on the status, or the record as another worker left it.
        The token conflict the repository raises cannot occur, because the status fixes the token. */
    method Move(ghost alone: bool, id: string, read: Deployment, status: DeployStatus) returns (d: Deployment)
      requires Live() && id in deployments && SameOrder(read, deployments[id])
      requires read.token == TokenOf(read.status) && MayFollow(read.status, status)
      requires status == Succeeded ==> MoverOf(read) == Some(ByDeployment(id))
      modifies this
      ensures Live() && Forward()
      ensures id in deployments && SameOrder(d, deployments[id])
      ensures d.token == TokenOf(d.status) > read.token && d == read.(status := d.status, token := d.token)
      ensures d.status == Succeeded ==> MoverOf(d) == Some(ByDeployment(id))
      ensures alone && read == old(deployments)[id] ==>
                d == read.(status := status, token := read.token + 1) && env == old(env)
    {
      Await(alone);
      d := SetOrReread(alone, id, read, status);
    }

    /** The compare-and-set itself, and what follows when it is lost. */
    method SetOrReread(ghost alone: bool, id: string, read: Deployment, status: DeployStatus) returns (d: Deployment)
      requires Live() && id in deployments && SameOrder(read, deployments[id])
      requires read.token == TokenOf(read.status) && MayFollow(read.status, status)
      requires status == Succeeded ==> MoverOf(read) == Some(ByDeployment(id))
      modifies this
      ensures Live() && Forward()
      ensures id in deployments && SameOrder(d, deployments[id])
      ensures d.token == TokenOf(d.status) > read.token && d == read.(status := d.status, token := d.token)
      ensures d.status == Succeeded ==> MoverOf(d) == Some(ByDeployment(id))
      ensures read.status == old(deployments)[id].status ==>
                d == read.(status := status, token := read.token + 1) && env == old(env)
    {
      KnownDeployment(id);
      if deployments[id].status != read.status {
        d := Reread(alone, id);
        return;
      }
      d := read.(status := status, token := read.token + 1);
      SetStatusRecord(id, status);
    }

    /** Another worker moved the deployment: continue with what it is now. */
    method Reread(ghost alone: bool, id: string) returns (d: Deployment)
      requires Live() && id in deployments
      modifies this
      ensures Live() && Forward() && id in deployments && d == deployments[id]
      ensures SameOrder(old(deployments)[id], d) && TokenOf(old(deployments)[id].status) <= d.token
      ensures d.token == TokenOf(d.status) && (d.status == Succeeded ==> MoverOf(d) == Some(ByDeployment(id)))
      ensures alone ==> S() == old(S())
    {
      KnownDeployment(id);
      Await(alone);
      KnownDeployment(id);
      d := deployments[id];
    }

    method SetStatusRecord(id: string, status: DeployStatus)
      requires Live() && Enabled(registry, S(), SetStatus(id, status))
      modifies this
      ensures Live() && Forward()
      ensures env == old(env) && movers == old(movers)
      ensures id in deployments
      ensures deployments[id] == old(deployments)[id].(status := status, token := old(deployments)[id].token + 1)
    {
      StepIsOnward(registry, S(), SetStatus(id, status));
      Took(SetStatus(id, status));
      deployments := deployments[id := deployments[id].(status := status, token := deployments[id].token + 1)];
    }

    // ----------------------------------------------------------------- requests

    /** The loop of `replace_environment_policy`: every current route must satisfy the new policy. */
    method CheckRoutes(ghost alone: bool, current: Environment, p: Policy) returns (r: Result<(), PlaneError>)
      requires Live() && Seen(current)
      modifies this
      ensures Live() && Forward() && Seen(current)
      ensures r.Ok? ==> RoutesComply(registry, snapshots, current.routes, p)
      ensures alone ==> S() == old(S()) && (r.Ok? <==> RoutesComply(registry, snapshots, current.routes, p))
    {
      for i := 0 to |current.routes|
        invariant Live() && Forward() && Seen(current) && (alone ==> S() == old(S()))
        invariant RoutesComply(registry, snapshots, current.routes[..i], p)
      {
        Await(alone);
        var route := current.routes[i];
        assert current.routes[..i + 1] == current.routes[..i] + [route];
        assert route in current.routes;
        if route.snapshot !in snapshots || snapshots[route.snapshot].agentVersion !in registry {
          return Err(NotFound);
        }
        var snapshot := snapshots[route.snapshot];
        var check := ValidateAgentPolicy(registry[snapshot.agentVersion], p, snapshot.profile, snapshot.profileVersion);
        if check.Err? {
          return Err(PolicyRejected(check.error));
        }
      }
      assert current.routes[..|current.routes|] == current.routes;
      r := Ok(());
    }

    /** `replace_environment_policy`. */
    method ReplacePolicyRequest(ghost alone: bool, expected: nat, p: Policy, catalogAccepts: bool)
      returns (r: Result<Environment, PlaneError>)
      requires Live()
      modifies this
      ensures Live() && Forward()
      ensures r.Ok? ==> r.value.revision == expected + 1 && r.value.policy == p && Seen(r.value)
      ensures alone ==> (r.Ok? <==> old(env).revision == expected && catalogAccepts
                                    && RoutesComply(registry, old(snapshots), old(env).routes, p))
      ensures alone ==> env == if r.Ok? then Repoliced(old(env), p) else old(env)
      ensures r.Ok? ==> old(env).revision == expected && catalogAccepts
      ensures alone && r.Ok? ==> env == Environment(expected + 1, old(env).policyRevision + 1, p,
                                                    old(env).routes, old(env).healthy)
    {
      Known();
      var current := env;
      if current.revision != expected || !catalogAccepts {
        return Err(Conflict);
      }
      var check := CheckRoutes(alone, current, p);
      if check.Err? {
        return Err(check.error);
      }
      r := StorePolicy(alone, current, p);
    }

    /** The policy is stored only if the environment is still the one whose routes were checked. */
    method StorePolicy(ghost alone: bool, current: Environment, p: Policy) returns (r: Result<Environment, PlaneError>)
      requires Live() && Seen(current) && RoutesComply(registry, snapshots, current.routes, p)
      modifies this
      ensures Live() && Forward()
      ensures r.Ok? ==> r.value == Repoliced(current, p) && Seen(r.value)
      ensures alone && old(env) == current ==> r.Ok? && env == Repoliced(current, p)
    {
      Await(alone);
      var won := CompareAndSetPolicy(current, p);
      Known();
      r := if won then Ok(env) else Err(Conflict);
    }

    /** `promote`: the agent is validated against the policy of the revision it names, behind the release gate. */
    method Promote(ghost alone: bool, newSnapshot: string, newDeployment: string, agentVersion: string,
                   profile: string, profileVersion: nat, expected: nat, canary: int, gatePassed: bool,
                    catalogAccepts: bool)
      returns (r: Result<Deployment, PlaneError>)
      requires Live() && 1 <= canary <= 100
      modifies this
      ensures Live() && Forward()
      ensures r.Ok? ==> gatePassed && newDeployment in deployments && SameOrder(r.value, deployments[newDeployment])
      ensures r.Ok? ==> r.value == Deployment(Promotion, newSnapshot, canary, expected, Queued, 0)
      ensures r.Ok? ==> newSnapshot in snapshots
                        && snapshots[newSnapshot] == Snapshot(agentVersion, profile, profileVersion, true)
      ensures r.Ok? ==> expected < |past| && Complies(registry, snapshots, newSnapshot, past[expected].policy)
      ensures r.Ok? ==> Admitted(old(env), agentVersion, profile, profileVersion, expected, gatePassed, catalogAccepts)
      ensures r == Err(NotFound) <==> old(env).revision == expected && agentVersion !in registry
      ensures r == Err(GateClosed) <==>
                old(env).revision == expected && agentVersion in registry && !gatePassed
      ensures r.Err? && r.error.PolicyRejected? <==>
                old(env).revision == expected && agentVersion in registry && gatePassed && catalogAccepts
                && !Inside(registry[agentVersion], old(env).policy, profile, profileVersion)
      ensures alone ==>
                (r.Ok? <==>
                   && Admitted(old(env), agentVersion, profile, profileVersion, expected, gatePassed, catalogAccepts)
                   && Storable(old(snapshots), newSnapshot, Snapshot(agentVersion, profile, profileVersion, true))
                   && newDeployment !in old(deployments))
      ensures alone ==> env == old(env)
      ensures alone ==> deployments == if r.Ok? then old(deployments)[newDeployment := r.value] else old(deployments)
      ensures alone && r.Ok? ==>
                snapshots == old(snapshots)[newSnapshot := Snapshot(agentVersion, profile, profileVersion, true)]
    {
      Known();
      var environment := env;
      if environment.revision != expected {
        return Err(Conflict);
      }
      if agentVersion in registry {
        ValidatedIffInside(registry[agentVersion], environment.policy, profile, profileVersion);
      }
      if agentVersion !in registry {
        return Err(NotFound);
      }
      if !gatePassed {
        return Err(GateClosed);
      }
      if !catalogAccepts {
        return Err(Conflict);
      }
      var check := ValidateAgentPolicy(registry[agentVersion], environment.policy, profile, profileVersion);
      if check.Err? {
        return Err(PolicyRejected(check.error));
      }
      var stored := StoreSnapshot(alone, newSnapshot, Snapshot(agentVersion, profile, profileVersion, gatePassed));
      if !stored {
        return Err(Conflict);
      }
      r := Enqueue(alone, newDeployment, Deployment(Promotion, newSnapshot, canary, environment.revision, Queued, 0));
    }

    /** The request names the environment as it is, and everything the service checks allows it. */
    predicate Admitted(e: Environment, agentVersion: string, profile: string, profileVersion: nat, expected: nat,
                       gatePassed: bool, catalogAccepts: bool)
    {
      && e.revision == expected && agentVersion in registry && gatePassed && catalogAccepts
      && Inside(registry[agentVersion], e.policy, profile, profileVersion)
    }

    method StoreSnapshot(ghost alone: bool, id: string, snapshot: Snapshot) returns (stored: bool)
      requires Live()
      modifies this
      ensures Live() && Forward()
      ensures stored ==> id in snapshots && snapshots[id] == snapshot
      ensures alone ==> env == old(env) && deployments == old(deployments)
      ensures alone ==> (stored <==> Storable(old(snapshots), id, snapshot))
      ensures alone ==> snapshots == if stored then old(snapshots)[id := snapshot] else old(snapshots)
    {
      Await(alone);
      if id in snapshots && snapshots[id] != snapshot {
        return false;
      }
      StepIsOnward(registry, S(), AddSnapshot(id, snapshot));
      Took(AddSnapshot(id, snapshot));
      snapshots := snapshots[id := snapshot];
      stored := true;
    }

    method Enqueue(ghost alone: bool, id: string, d: Deployment) returns (r: Result<Deployment, PlaneError>)
      requires Live() && d.status == Queued && d.token == 0 && 1 <= d.canary <= 100
      requires d.target in snapshots && snapshots[d.target].gatePassed && d.expected < |past|
      requires d.action == Promotion ==> Complies(registry, snapshots, d.target, past[d.expected].policy)
      modifies this
      ensures Live() && Forward()
      ensures if r.Ok? then r.value == d && id in deployments && SameOrder(d, deployments[id]) else r.error == Conflict
      ensures alone ==> env == old(env) && snapshots == old(snapshots)
      ensures alone ==> (r.Ok? <==> id !in old(deployments))
      ensures alone ==> deployments == if r.Ok? then old(deployments)[id := d] else old(deployments)
    {
      Await(alone);
      if id in deployments {
        return Err(Conflict);
      }
      StepIsOnward(registry, S(), AddDeployment(id, d));
      Took(AddDeployment(id, d));
      deployments := deployments[id := d];
      r := Ok(d);
    }

    /** `rollback`: any stored snapshot that passed the gate, with no check against the current policy. */
    method RollbackRequest(ghost alone: bool, newDeployment: string, target: string, expected: nat)
      returns (r: Result<Deployment, PlaneError>)
      requires Live()
      modifies this
      ensures Live() && Forward()
      ensures r.Ok? ==> r.value == Deployment(Rollback, target, 100, expected, Queued, 0)
      ensures r.Ok? ==> newDeployment in deployments && SameOrder(r.value, deployments[newDeployment])
      ensures r.Ok? ==> old(env).revision == expected && target in snapshots && snapshots[target].gatePassed
      ensures r.Err? ==> r.error == Conflict || (r.error == NotFound && target !in old(snapshots))
      ensures alone ==>
                (r.Ok? <==> old(env).revision == expected && target in old(snapshots)
                            && old(snapshots)[target].gatePassed && newDeployment !in old(deployments))
      ensures alone ==> (r == Err(NotFound) <==> old(env).revision == expected && target !in old(snapshots))
      ensures alone ==> env == old(env) && snapshots == old(snapshots)
      ensures alone ==> deployments == if r.Ok? then old(deployments)[newDeployment := r.value] else old(deployments)
    {
      Known();
      if env.revision != expected {
        return Err(Conflict);
      }
      Await(alone);
      if target !in snapshots {
        return Err(NotFound);
      }
      if !snapshots[target].gatePassed {
        return Err(Conflict);
      }
      r := Enqueue(alone, newDeployment, Deployment(Rollback, target, 100, expected, Queued, 0));
    }

    // --------------------------------------------------------------- controller

    /** The routes of `reconcile`, when its canary has a healthy version to share with. */
    method ChooseRoutes(environment: Environment, d: Deployment) returns (routes: Option<seq<Route>>)
      ensures routes == NewRoutes(environment, d)
    {
      if d.canary < 100 {
        if environment.healthy.None? {
          return None;
        }
        if environment.healthy.value == d.target {
          return Some([Route(d.target, 100)]);
        }
        return Some([Route(environment.healthy.value, 100 - d.canary), Route(d.target, d.canary)]);
      }
      routes := Some([Route(d.target, 100)]);
    }

    /** The body of `reconcile` up to the environment's compare-and-set: whether this call moved the environment on. */
    method TryAdvance(ghost alone: bool, id: string, current: Deployment, hookOk: bool) returns (won: bool)
      requires Live() && id in deployments && SameOrder(current, deployments[id])
      modifies this
      ensures Live() && Forward()
      ensures id in deployments && SameOrder(current, deployments[id])
      ensures won ==> MoverOf(current) == Some(ByDeployment(id))
      ensures alone ==> deployments == old(deployments) && (won <==> Goes(old(env), current, hookOk))
      ensures alone ==> env == if won && NewRoutes(old(env), current).Some? then Advanced(old(env), current)
                                else old(env)
    {
      Await(alone);
      won := AdvanceFrom(alone, id, current, hookOk);
    }

    /** From the read of the environment on. */
    method AdvanceFrom(ghost alone: bool, id: string, current: Deployment, hookOk: bool) returns (won: bool)
      requires Live() && id in deployments && SameOrder(current, deployments[id])
      modifies this
      ensures Live() && Forward()
      ensures id in deployments && SameOrder(current, deployments[id])
      ensures won ==> MoverOf(current) == Some(ByDeployment(id))
      ensures alone ==> deployments == old(deployments) && (won <==> Goes(old(env), current, hookOk))
      ensures alone ==> env == if won && NewRoutes(old(env), current).Some? then Advanced(old(env), current)
                                else old(env)
    {
      Known();
      var environment := env;
      if environment.revision != current.expected || !hookOk {
        return false;
      }
      var routes := ChooseRoutes(environment, current);
      if routes.None? {
        return false;
      }
      var updated := environment.(
        revision := environment.revision + 1, routes := routes.value,
        healthy := if current.canary < 100 then environment.healthy else Some(current.target));
      won := WriteRoutes(alone, id, current, environment, updated);
    }

    method WriteRoutes(ghost alone: bool, id: string, current: Deployment, read: Environment, updated: Environment)
      returns (won: bool)
      requires Live() && Seen(read) && id in deployments && SameOrder(current, deployments[id])
      requires current.expected == read.revision
      requires NewRoutes(read, current).Some? && updated == Advanced(read, current)
      modifies this
      ensures Live() && Forward()
      ensures id in deployments && SameOrder(current, deployments[id])
      ensures won ==> MoverOf(current) == Some(ByDeployment(id))
      ensures alone && read == old(env) ==> won && env == updated && deployments == old(deployments)
    {
      Await(alone);
      won := CompareAndSetRoutes(read, updated, id);
    }

    predicate Goes(e: Environment, d: Deployment, hookOk: bool) {
      hookOk && e.revision == d.expected && NewRoutes(e, d).Some?
    }

    /** Reconcile a deployment by at most one status move. It reports success only when its own write moved
        the environment on; every other outcome of a reconciling deployment is a failure or another worker's result. */
    method Reconcile(ghost alone: bool, id: string, hookOk: bool) returns (r: Result<Deployment, PlaneError>)
      requires Live()
      modifies this
      ensures Live() && Forward()
      ensures r.Ok? ==> id in deployments && SameOrder(r.value, deployments[id])
      ensures r.Ok? && r.value.status == Succeeded ==> MoverOf(r.value) == Some(ByDeployment(id))
      ensures r.Ok? ==> Final(r.value.status) || r.value.status == Reconciling
      ensures r.Err? <==> id !in old(deployments)
      ensures r.Err? ==> r.error == NotFound
      ensures alone && id in old(deployments) && old(deployments)[id].status == Reconciling ==>
                var d := old(deployments)[id];
                var goes := Goes(old(env), d, hookOk);
                && r == Ok(d.(status := if goes then Succeeded else Failed, token := d.token + 1))
                && env == if goes && NewRoutes(old(env), d).Some? then Advanced(old(env), d) else old(env)
      ensures alone && id in old(deployments) ==>
                ReconcileDue(old(env), old(deployments)[id], hookOk, env, r)
    {
      if id !in deployments {
        return Err(NotFound);
      }
      KnownDeployment(id);
      var current := deployments[id];
      if Final(current.status) {
        return Ok(current);
      }
      var moved;
      if current.status == Queued {
        moved := Move(alone, id, current, Reconciling);
      } else {
        moved := AdvanceAndMove(alone, id, current, hookOk);
      }
      r := Ok(moved);
    }

    /** A reconciling deployment succeeds or fails with its attempt to move the environment on. */
    method AdvanceAndMove(ghost alone: bool, id: string, current: Deployment, hookOk: bool) returns (d: Deployment)
      requires Live() && id in deployments && SameOrder(current, deployments[id])
      requires current.token == TokenOf(current.status) && current.status == Reconciling
      modifies this
      ensures Live() && Forward()
      ensures id in deployments && SameOrder(d, deployments[id])
      ensures d.token == TokenOf(d.status) > current.token
      ensures d.status == Succeeded ==> MoverOf(d) == Some(ByDeployment(id))
      ensures alone && current == old(deployments)[id] ==>
                var goes := Goes(old(env), current, hookOk);
                && d == current.(status := if goes then Succeeded else Failed, token := current.token + 1)
                && env == if goes && NewRoutes(old(env), current).Some? then Advanced(old(env), current) else old(env)
    {
      var won := TryAdvance(alone, id, current, hookOk);
      d := Move(alone, id, current, if won then Succeeded else Failed);
    }
  }
}
