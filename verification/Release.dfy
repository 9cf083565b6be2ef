/** Promotion end to end: the release gate's evidence and the deployment it lets through. */
module Release {
  import opened Outcomes
  import opened ReleaseGate
  import opened Deployments
  import P = DeploymentPlane

  datatype ReleaseError = NotEvaluated(missing: set<string>) | NotPromoted(reason: P.PlaneError)

  /** `promote`, from the gate on. When it stores a deployment of an evaluated agent version, every case of the newest
      version of every required dataset of the agent has a stored passing result from a passed run of that version,
      and the snapshot satisfies the environment's policy at the revision the deployment will move. It refuses an agent
      version exactly when some required dataset has not been passed; otherwise, undisturbed, it stores the deployment
      exactly when the service admits it and the ids it draws are free. */
  method Promote(plane: P.Plane, ghost alone: bool, ghost earlier: seq<Move>, ghost later: seq<Move>, enabled: bool,
                 datasets: seq<Dataset>, runs: seq<EvalRecord>,
                 owner: string, agent: string, agentVersion: string,
                 newSnapshot: string, newDeployment: string, profile: string, profileVersion: nat,
                 expected: nat, canary: int, catalogAccepts: bool)
    returns (r: Result<Deployment, ReleaseError>)
    requires plane.Live() && 1 <= canary <= 100
    requires Reads(earlier, later, datasets, runs)
    modifies plane
    ensures plane.Live()
    ensures r.Ok? && enabled ==>
              forall d :: MustPass(datasets, owner, agent, d) ==> Evidence(Reached(later), d, agent, agentVersion)
    ensures r.Ok? ==> newSnapshot in plane.snapshots && plane.snapshots[newSnapshot].agentVersion == agentVersion
    ensures r.Ok? ==> expected < |plane.past|
                      && Complies(plane.registry, plane.snapshots, newSnapshot, plane.past[expected].policy)
    ensures r.Ok? ==> plane.Admitted(old(plane.env), agentVersion, profile, profileVersion,
                                     expected, true, catalogAccepts)
    ensures r.Err? && r.error.NotEvaluated? <==>
              enabled && exists d :: MustPass(datasets, owner, agent, d) && !HasPassed(runs, d, agentVersion)
    ensures r.Err? && r.error.NotEvaluated? ==>
              plane.env == old(plane.env) && plane.deployments == old(plane.deployments)
    ensures alone && !(r.Err? && r.error.NotEvaluated?) ==>
              (r.Ok? <==>
                 && plane.Admitted(old(plane.env), agentVersion, profile, profileVersion,
                                   expected, true, catalogAccepts)
                 && P.Storable(old(plane.snapshots), newSnapshot, Snapshot(agentVersion, profile, profileVersion, true))
                 && newDeployment !in old(plane.deployments))
    ensures alone && r.Ok? ==>
              plane.deployments == old(plane.deployments)[newDeployment :=
                                     Deployment(Promotion, newSnapshot, canary, expected, Queued, 0)]
  {
    var gate := RequirePromotionAllowed(earlier, later, enabled, datasets, runs, owner, agent, agentVersion);
    if gate.Err? {
      return Err(NotEvaluated(gate.error.missing));
    }
    var promoted := plane.Promote(alone, newSnapshot, newDeployment, agentVersion, profile, profileVersion,
                                  expected, canary, gate.value.passed, catalogAccepts);
    r := if promoted.Ok? then Ok(promoted.value) else Err(NotPromoted(promoted.error));
  }
}
