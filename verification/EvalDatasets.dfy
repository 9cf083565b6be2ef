/** Creating a dataset version from an agent draft that others may edit meanwhile. */
module EvalDatasets {
  import opened Outcomes
  import E = EvalRuns

  /** A draft as stored; an edit replaces it under the next revision. */
  datatype Draft = Draft(revision: nat, enabled: bool, cases: seq<E.Case>)

  datatype CreateError = RevisionChanged | EvaluationDisabled | DuplicateCase

  /** `ids.count(id)`. */
  function Occurrences(cases: seq<E.Case>, id: string): nat {
    if cases == [] then 0
    else Occurrences(cases[..|cases| - 1], id) + if cases[|cases| - 1].id == id then 1 else 0
  }

  function Duplicates(cases: seq<E.Case>): set<string> {
    set c | c in cases && Occurrences(cases, c.id) > 1 :: c.id
  }

  /** The suite that goes into the bundle refuses a repeated case id. */
  predicate SuiteAccepts(cases: seq<E.Case>) {
    Duplicates(cases) == {}
  }

  lemma {:induction false} OccursOnceOrMore(cases: seq<E.Case>, id: string, i: nat)
    requires i < |cases| && cases[i].id == id
    ensures Occurrences(cases, id) >= 1
  {
    if i < |cases| - 1 { OccursOnceOrMore(cases[..|cases| - 1], id, i); }
  }

  lemma {:induction false} OccursTwice(cases: seq<E.Case>, i: nat, j: nat)
    requires i < j < |cases| && cases[i].id == cases[j].id
    ensures Occurrences(cases, cases[i].id) > 1
  {
    var front := cases[..|cases| - 1];
    if j < |cases| - 1 { OccursTwice(front, i, j); } else { OccursOnceOrMore(front, cases[i].id, i); }
  }

  lemma {:induction false} OccursAtMostOnce(cases: seq<E.Case>, id: string)
    requires E.DistinctIds(cases)
    ensures Occurrences(cases, id) <= 1
    ensures (forall i :: 0 <= i < |cases| ==> cases[i].id != id) ==> Occurrences(cases, id) == 0
  {
    if cases != [] {
      var front := cases[..|cases| - 1];
      assert forall i :: 0 <= i < |front| ==> front[i].id == cases[i].id;
      OccursAtMostOnce(front, id);
    }
  }

  /** Counting ids finds exactly the lists with a repeated one. */
  lemma SuiteAcceptsIffDistinct(cases: seq<E.Case>)
    ensures SuiteAccepts(cases) <==> E.DistinctIds(cases)
  {
    if E.DistinctIds(cases) {
      forall c | c in cases ensures Occurrences(cases, c.id) <= 1 { OccursAtMostOnce(cases, c.id); }
    } else {
      var i, j :| 0 <= i < j < |cases| && cases[i].id == cases[j].id;
      OccursTwice(cases, i, j);
      assert cases[i] in cases && cases[i].id in Duplicates(cases);
    }
  }

  /** One draft from one moment to a later one: the same, or edited under a higher revision. */
  predicate Edited(before: Draft, after: Draft) {
    before.revision < after.revision || before == after
  }

  class DraftRepository {
    var draft: Draft

    constructor (draft: Draft)
      ensures this.draft == draft
    {
      this.draft := draft;
    }

    /** Replace the draft read under the revision it is expected to have. */
    method Replace(expected: nat, updated: Draft) returns (replaced: bool)
      modifies this
      ensures replaced <==> old(draft).revision == expected && updated.revision == expected + 1
      ensures draft == if replaced then updated else old(draft)
      ensures Edited(old(draft), draft)
    {
      replaced := draft.revision == expected && updated.revision == expected + 1;
      if replaced {
        draft := updated;
      }
    }

    /** Other callers edit the draft any number of times. */
    method Interfere()
      modifies this
      ensures Edited(old(draft), draft)
    {
    }

    /** `create_dataset_version`: the revision is checked on one read of the draft, the suite is checked on the
        bundle of a second one, and the cases stored are those of the first. */
    method CreateDatasetVersion(expected: nat) returns (r: Result<seq<E.Case>, CreateError>, ghost bundled: Draft)
      modifies this
      ensures Edited(old(draft), bundled) && Edited(bundled, draft)
      ensures r == Created(old(draft), bundled, expected)
    {
      var read := draft;
      bundled := read;
      if read.revision != expected {
        return Err(RevisionChanged), bundled;
      }
      if !read.enabled {
        return Err(EvaluationDisabled), bundled;
      }
      Interfere();
      bundled := draft;
      if !SuiteAccepts(draft.cases) {
        return Err(DuplicateCase), bundled;
      }
      r := Ok(read.cases);
    }
  }

  function Created(read: Draft, bundled: Draft, expected: nat): Result<seq<E.Case>, CreateError> {
    if read.revision != expected then Err(RevisionChanged)
    else if !read.enabled then Err(EvaluationDisabled)
    else if !SuiteAccepts(bundled.cases) then Err(DuplicateCase)
    else Ok(read.cases)
  }

  /** A stored dataset has distinct case ids exactly when its own cases would pass the suite check; and they have passed
      it when the draft had the same revision at both reads. */
  lemma StoredIdsDistinctIff(read: Draft, bundled: Draft, expected: nat)
    requires Edited(read, bundled) && Created(read, bundled, expected).Ok?
    ensures E.DistinctIds(Created(read, bundled, expected).value) <==> SuiteAccepts(read.cases)
    ensures read.revision == bundled.revision ==> E.DistinctIds(Created(read, bundled, expected).value)
    ensures !E.DistinctIds(Created(read, bundled, expected).value) ==> read.revision < bundled.revision
  {
    SuiteAcceptsIffDistinct(read.cases);
  }

  /** The race that stores a repeated id: the draft is mended by an edit between the two reads. */
  lemma MendedDraftStoresDuplicates(c: E.Case, expected: nat)
    ensures var read, bundled := Draft(expected, true, [c, c]), Draft(expected + 1, true, [c]);
            Edited(read, bundled) && Created(read, bundled, expected) == Ok([c, c]) && !E.DistinctIds([c, c])
  {
    assert [c, c][0].id == [c, c][1].id;
    SuiteAcceptsIffDistinct([c]);
  }

  /** An Eval Run over a dataset created from an unedited draft ends. */
  lemma {:induction false} RunsOfUneditedDraftsEnd(read: Draft, bundled: Draft, expected: nat,
                                                    moves: seq<E.Move>, limit: nat, start: int)
    requires Edited(read, bundled) && Created(read, bundled, expected).Ok? && read.revision == bundled.revision
    requires E.Fair(read.cases, moves, start) && forall c :: c in read.cases ==> c.maxDuration <= limit
    requires E.Reconciles(moves) > (4 * |read.cases| + 3) * (limit + 2)
    ensures E.Terminal(E.History(read.cases, moves).run.status)
  {
    StoredIdsDistinctIff(read, bundled, expected);
    E.EveryEvalRunEnds(read.cases, moves, limit, start);
  }
}
