/** The release gate: which agent versions have passed every required dataset, and what that vouches for. */
module ReleaseGate {
  import opened Outcomes
  import E = EvalRuns

  // ------------------------------------------------------------------- stores

  datatype DatasetKey = DatasetKey(owner: string, id: string, version: nat)

  datatype Dataset = Dataset(key: DatasetKey, agent: string, required: bool, cases: seq<E.Case>)

  datatype EvalRecord = EvalRecord(dataset: DatasetKey, agent: string, agentVersion: string, ledger: E.Ledger)

  /** The evaluation stores of one tenant. */
  datatype World = World(datasets: map<DatasetKey, Dataset>, runs: map<string, EvalRecord>)

  datatype Move =
    | AddDataset(dataset: Dataset)
    | CreateRun(runId: string, key: DatasetKey, agent: string, agentVersion: string)
    | Advance(runId: string, move: E.Move)

  /** One call on the stores; a call the services refuse changes nothing. */
  function Next(w: World, m: Move): World {
    match m
    case AddDataset(d) =>
      if d.key in w.datasets || d.cases == [] then w
      else w.(datasets := w.datasets[d.key := d])
    case CreateRun(id, key, agent, version) =>
      if id in w.runs || key !in w.datasets || w.datasets[key].agent != agent then w
      else w.(runs := w.runs[id := EvalRecord(key, agent, version, E.NEW_RUN)])
    case Advance(id, move) =>
      if id !in w.runs || w.runs[id].dataset !in w.datasets then w
      else
        var r := w.runs[id];
        w.(runs := w.runs[id := r.(ledger := E.After(w.datasets[r.dataset].cases, r.ledger, move))])
  }

  function Reached(moves: seq<Move>): World {
    if moves == [] then World(map[], map[]) else Next(Reached(moves[..|moves| - 1]), moves[|moves| - 1])
  }

  /** Every run evaluates a stored, non-empty dataset of its own agent, and its ledger is that of a history over it. */
  ghost predicate WorldInv(w: World) {
    && (forall k :: k in w.datasets ==> w.datasets[k].key == k && w.datasets[k].cases != [])
    && (forall id :: id in w.runs ==>
          && w.runs[id].dataset in w.datasets
          && w.datasets[w.runs[id].dataset].agent == w.runs[id].agent
          && E.Recorded(w.datasets[w.runs[id].dataset].cases, w.runs[id].ledger))
  }

  lemma NextKeepsInv(w: World, m: Move)
    requires WorldInv(w)
    ensures WorldInv(Next(w, m))
  {
    if m.Advance? && m.runId in w.runs {
      E.MoveIsRecorded(w.datasets[w.runs[m.runId].dataset].cases, w.runs[m.runId].ledger, m.move);
    }
    if m.CreateRun? && m.key in w.datasets {
      E.NewRunIsRecorded(w.datasets[m.key].cases);
    }
  }

  lemma {:induction false} EveryWorldKeepsInv(moves: seq<Move>)
    ensures WorldInv(Reached(moves))
  {
    if moves != [] {
      EveryWorldKeepsInv(moves[..|moves| - 1]);
      NextKeepsInv(Reached(moves[..|moves| - 1]), moves[|moves| - 1]);
    }
  }

  // --------------------------------------------------------------------- gate

  datatype GateResult = GateResult(passed: bool, requiredDatasets: nat, passedDatasets: nat, missing: set<string>)

  predicate Counts(d: Dataset, owner: string, agent: string) {
    d.key.owner == owner && d.agent == agent && d.required
  }

  /** `d` is the newest version among those of its id that the gate looks at. */
  ghost predicate Newest(datasets: seq<Dataset>, owner: string, agent: string, d: Dataset) {
    && d in datasets && Counts(d, owner, agent)
    && forall x :: x in datasets && Counts(x, owner, agent) && x.key.id == d.key.id ==> x.key.version <= d.key.version
  }

  predicate Vouches(r: EvalRecord, owner: string, agent: string, agentVersion: string, id: string, version: nat) {
    && r.dataset == DatasetKey(owner, id, version)
    && r.agent == agent && r.agentVersion == agentVersion
    && r.ledger.run.status == E.Passed
  }

  /** Some stored run passed this dataset version for this agent version. */
  predicate PassedBy(runs: seq<EvalRecord>, owner: string, agent: string, agentVersion: string,
                     id: string, version: nat)
  {
    exists i :: 0 <= i < |runs| && Vouches(runs[i], owner, agent, agentVersion, id, version)
  }

  /** The loop that keeps the newest counting version per dataset id. */
  method Latest(datasets: seq<Dataset>, owner: string, agent: string) returns (latest: map<string, Dataset>)
    ensures forall id :: id in latest ==> latest[id].key.id == id && Newest(datasets, owner, agent, latest[id])
    ensures forall d :: d in datasets && Counts(d, owner, agent) ==> d.key.id in latest
  {
    latest := map[];
    for i := 0 to |datasets|
      invariant forall id :: id in latest ==> latest[id].key.id == id && Newest(datasets[..i], owner, agent, latest[id])
      invariant forall d :: d in datasets[..i] && Counts(d, owner, agent) ==> d.key.id in latest
    {
      var dataset := datasets[i];
      assert datasets[..i + 1] == datasets[..i] + [dataset];
      if !Counts(dataset, owner, agent) {
        continue;
      }
      if dataset.key.id !in latest || dataset.key.version > latest[dataset.key.id].key.version {
        latest := latest[dataset.key.id := dataset];
      }
    }
    assert datasets[..|datasets|] == datasets;
  }

  /** `gate`: with evaluation disabled it passes at once; otherwise it passes exactly when the newest version of
      every required dataset of the agent was passed by a run of this agent version. */
  method Gate(enabled: bool, datasets: seq<Dataset>, runs: seq<EvalRecord>,
              owner: string, agent: string, agentVersion: string)
    returns (g: GateResult)
    ensures !enabled ==> g == GateResult(true, 0, 0, {})
    ensures enabled ==> (g.passed <==>
              forall d :: Newest(datasets, owner, agent, d) ==>
                PassedBy(runs, owner, agent, agentVersion, d.key.id, d.key.version))
    ensures enabled ==> g.passedDatasets + |g.missing| == g.requiredDatasets
    ensures enabled ==> forall id ::
              id in g.missing <==> exists d :: Newest(datasets, owner, agent, d) && d.key.id == id
                                     && !PassedBy(runs, owner, agent, agentVersion, id, d.key.version)
  {
    if !enabled {
      return GateResult(true, 0, 0, {});
    }
    var latest := Latest(datasets, owner, agent);
    var missing := set id | id in latest && !PassedBy(runs, owner, agent, agentVersion, id, latest[id].key.version);
    forall d | Newest(datasets, owner, agent, d)
      ensures d.key.id in latest && latest[d.key.id].key.version == d.key.version
      ensures d.key.id !in missing ==> PassedBy(runs, owner, agent, agentVersion, d.key.id, d.key.version)
    {
      assert Newest(datasets, owner, agent, latest[d.key.id]);
    }
    Subset(missing, latest.Keys);
    g := GateResult(missing == {}, |latest.Keys|, |latest.Keys| - |missing|, missing);
    if g.passed {
    } else {
      var id :| id in missing;
      assert Newest(datasets, owner, agent, latest[id]);
    }
    forall id
      ensures id in missing <==> exists d :: Newest(datasets, owner, agent, d) && d.key.id == id
                                   && !PassedBy(runs, owner, agent, agentVersion, id, d.key.version)
    {
      if id in missing {
        assert Newest(datasets, owner, agent, latest[id]);
      }
    }
  }

  lemma {:induction false} Subset<T>(a: set<T>, b: set<T>)
    requires a <= b
    ensures |a| <= |b|
  {
    if a != {} {
      var x :| x in a;
      Subset(a - {x}, b - {x});
    }
  }

  // --------------------------------------------------------------- end to end

  /** What the gate is for: in a passed run of this version every case of the dataset has a stored passing result,
      from a reconcile that met the case's child run passing. */
  ghost predicate Evidence(w: World, d: Dataset, agent: string, agentVersion: string) {
    exists id :: id in w.runs && w.runs[id].dataset == d.key
      && w.runs[id].agent == agent && w.runs[id].agentVersion == agentVersion
      && w.runs[id].ledger.run.status == E.Passed && E.Vindicated(d.cases, w.runs[id].ledger)
  }

  /** The agent version must pass this dataset: it is the newest version of a dataset its owner requires of the
      agent. */
  ghost predicate MustPass(datasets: seq<Dataset>, owner: string, agent: string, d: Dataset) {
    && d in datasets && d.required && d.agent == agent && d.key.owner == owner
    && forall x :: x in datasets && x.required && x.agent == agent && x.key.owner == owner && x.key.id == d.key.id ==>
         x.key.version <= d.key.version
  }

  /** The list read is exactly the datasets stored at the time. */
  ghost predicate ListsDatasets(w: World, datasets: seq<Dataset>) {
    forall d :: d in datasets <==> d.key in w.datasets && w.datasets[d.key] == d
  }

  ghost predicate ListsRuns(w: World, runs: seq<EvalRecord>) {
    forall r :: r in runs ==> exists id :: id in w.runs && w.runs[id] == r
  }

  /** The gate awaits twice: it reads the datasets at one time and the runs at a later one. */
  ghost predicate Reads(earlier: seq<Move>, later: seq<Move>, datasets: seq<Dataset>, runs: seq<EvalRecord>) {
    earlier <= later && ListsDatasets(Reached(earlier), datasets) && ListsRuns(Reached(later), runs)
  }

  /** A stored dataset version stays as it is. */
  lemma {:induction false} DatasetsStay(earlier: seq<Move>, later: seq<Move>, key: DatasetKey)
    requires earlier <= later && key in Reached(earlier).datasets
    ensures key in Reached(later).datasets && Reached(later).datasets[key] == Reached(earlier).datasets[key]
    decreases |later|
  {
    if |earlier| < |later| {
      DatasetsStay(earlier, later[..|later| - 1], key);
    } else {
      assert earlier == later;
    }
  }

  lemma PassedRunIsEvidence(w: World, id: string, d: Dataset)
    requires WorldInv(w) && id in w.runs && d.key in w.datasets && w.datasets[d.key] == d
    requires Vouches(w.runs[id], d.key.owner, d.agent, w.runs[id].agentVersion, d.key.id, d.key.version)
    ensures Evidence(w, d, d.agent, w.runs[id].agentVersion)
  {
    E.PassedIsVindicated(d.cases, w.runs[id].ledger);
  }

  /** Whatever the stores go through before and between the gate's two reads: when it lets an evaluated agent version
      through, every case of the newest version of every required dataset it read has a stored passing result from a
      passed run of that agent version. */
  lemma GateIsBackedByResults(earlier: seq<Move>, later: seq<Move>, datasets: seq<Dataset>, runs: seq<EvalRecord>,
                              owner: string, agent: string, agentVersion: string)
    requires Reads(earlier, later, datasets, runs)
    requires forall d :: Newest(datasets, owner, agent, d) ==>
               PassedBy(runs, owner, agent, agentVersion, d.key.id, d.key.version)
    ensures forall d :: Newest(datasets, owner, agent, d) ==> Evidence(Reached(later), d, agent, agentVersion)
  {
    var w := Reached(later);
    EveryWorldKeepsInv(later);
    forall d | Newest(datasets, owner, agent, d) ensures Evidence(w, d, agent, agentVersion) {
      DatasetsStay(earlier, later, d.key);
      var i :| 0 <= i < |runs| && Vouches(runs[i], owner, agent, agentVersion, d.key.id, d.key.version);
      assert runs[i] in runs;
      var id :| id in w.runs && w.runs[id] == runs[i];
      PassedRunIsEvidence(w, id, d);
    }
  }

  lemma PassedRunStays(w: World, m: Move, id: string)
    requires id in w.runs && w.runs[id].ledger.run.status == E.Passed
    ensures id in Next(w, m).runs && Next(w, m).runs[id] == w.runs[id]
  {
  }

  /** Evidence is never withdrawn: later calls on the stores keep it. */
  lemma EvidenceStays(w: World, m: Move, d: Dataset, agent: string, agentVersion: string)
    requires Evidence(w, d, agent, agentVersion)
    ensures Evidence(Next(w, m), d, agent, agentVersion)
  {
    var id :| id in w.runs && w.runs[id].dataset == d.key
      && w.runs[id].agent == agent && w.runs[id].agentVersion == agentVersion
      && w.runs[id].ledger.run.status == E.Passed && E.Vindicated(d.cases, w.runs[id].ledger);
    PassedRunStays(w, m, id);
  }

  /** Among the runs is a passed one of this agent version over this dataset version. */
  ghost predicate HasPassed(runs: seq<EvalRecord>, d: Dataset, agentVersion: string) {
    exists r :: r in runs && r.dataset == d.key && r.agent == d.agent && r.agentVersion == agentVersion
                && r.ledger.run.status == E.Passed
  }

  lemma PassedByIff(runs: seq<EvalRecord>, d: Dataset, agentVersion: string)
    ensures PassedBy(runs, d.key.owner, d.agent, agentVersion, d.key.id, d.key.version)
       <==> HasPassed(runs, d, agentVersion)
  {
    if r :| r in runs && r.dataset == d.key && r.agent == d.agent && r.agentVersion == agentVersion
            && r.ledger.run.status == E.Passed {
      var i :| 0 <= i < |runs| && runs[i] == r;
      assert Vouches(runs[i], d.key.owner, d.agent, agentVersion, d.key.id, d.key.version);
    }
  }

  datatype GateError = GateError(missing: set<string>)

  /** `require_promotion_allowed` over the stores as they are at its two reads: a version passes only on evidence. */
  method RequirePromotionAllowed(ghost earlier: seq<Move>, ghost later: seq<Move>, enabled: bool,
                                 datasets: seq<Dataset>, runs: seq<EvalRecord>,
                                 owner: string, agent: string, agentVersion: string)
    returns (r: Result<GateResult, GateError>)
    requires Reads(earlier, later, datasets, runs)
    ensures r.Ok? ==> r.value.passed
    ensures r.Ok? && enabled ==>
              forall d :: MustPass(datasets, owner, agent, d) ==> Evidence(Reached(later), d, agent, agentVersion)
    ensures r.Err? <==> enabled && exists d :: MustPass(datasets, owner, agent, d) && !HasPassed(runs, d, agentVersion)
  {
    var gate := Gate(enabled, datasets, runs, owner, agent, agentVersion);
    assert forall d :: Newest(datasets, owner, agent, d) <==> MustPass(datasets, owner, agent, d);
    forall d | MustPass(datasets, owner, agent, d)
      ensures PassedBy(runs, owner, agent, agentVersion, d.key.id, d.key.version) <==> HasPassed(runs, d, agentVersion)
    {
      PassedByIff(runs, d, agentVersion);
    }
    if !gate.passed {
      return Err(GateError(gate.missing));
    }
    if enabled {
      GateIsBackedByResults(earlier, later, datasets, runs, owner, agent, agentVersion);
    }
    r := Ok(gate);
  }
}
