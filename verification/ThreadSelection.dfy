/** Which runs of a thread are shown after its history was edited: the latest run stores the prompts of the
    conversation it continues, and the runs shown are matched against them. */
module ThreadSelection {
  import opened Outcomes
  import opened TextOrder
  import opened Whitespace

  /** A stored conversation may hold anything; only lists of texts are used. */
  datatype Item = Text(text: string) | Other

  datatype Run = Run(createdAt: int, id: string, prompt: Option<string>, conversation: seq<Item>)

  // ------------------------------------------------------------------ sorting

  predicate Before(a: Run, b: Run) {
    a.createdAt < b.createdAt || (a.createdAt == b.createdAt && LexLeq(a.id, b.id))
  }

  ghost predicate InOrder(runs: seq<Run>) {
    forall i, j :: 0 <= i < j < |runs| ==> Before(runs[i], runs[j])
  }

  function Insert(r: Run, runs: seq<Run>): seq<Run> {
    if runs == [] || !Before(runs[0], r) then [r] + runs else [runs[0]] + Insert(r, runs[1..])
  }

  /** `sorted(runs, key=(created_at, run_id))`. */
  function Sorted(runs: seq<Run>): seq<Run> {
    if runs == [] then [] else Insert(runs[|runs| - 1], Sorted(runs[..|runs| - 1]))
  }

  lemma {:induction false} InsertKeepsOrder(r: Run, runs: seq<Run>)
    requires InOrder(runs)
    ensures InOrder(Insert(r, runs)) && multiset(Insert(r, runs)) == multiset(runs) + multiset{r}
  {
    if runs != [] {
      assert runs == [runs[0]] + runs[1..];
      LexTotal(runs[0].id, r.id);
      if Before(runs[0], r) {
        InsertKeepsOrder(r, runs[1..]);
        forall x | x in Insert(r, runs[1..]) ensures Before(runs[0], x) {
          assert x in multiset(Insert(r, runs[1..]));
          assert x == r || x in runs[1..];
        }
      } else {
        forall i | 0 <= i < |runs| ensures Before(r, runs[i]) {
          if i > 0 && runs[i].createdAt == r.createdAt { LexTransitive(r.id, runs[0].id, runs[i].id); }
        }
      }
    }
  }

  lemma {:induction false} SortedIsSorted(runs: seq<Run>)
    ensures InOrder(Sorted(runs)) && multiset(Sorted(runs)) == multiset(runs)
    ensures forall i, j :: 0 <= i < j < |Sorted(runs)| ==> Sorted(runs)[i].createdAt <= Sorted(runs)[j].createdAt
  {
    if runs != [] {
      SortedIsSorted(runs[..|runs| - 1]);
      InsertKeepsOrder(runs[|runs| - 1], Sorted(runs[..|runs| - 1]));
      assert runs == runs[..|runs| - 1] + [runs[|runs| - 1]];
    }
  }

  // ---------------------------------------------------------------- embeddings

  /** The latest run stores a conversation that ends with its own prompt. */
  predicate Usable(latest: Run) {
    && latest.conversation != []
    && (forall item :: item in latest.conversation ==> item.Text?)
    && latest.prompt == Some(latest.conversation[|latest.conversation| - 1].text)
  }

  function NonBlank(items: seq<Item>): seq<string>
    requires forall item :: item in items ==> item.Text?
  {
    if items == [] then []
    else
      var front := NonBlank(items[..|items| - 1]);
      if Blank(items[|items| - 1].text) then front else front + [items[|items| - 1].text]
  }

  function AllButLast<T>(s: seq<T>): seq<T> {
    if s == [] then [] else s[..|s| - 1]
  }

  /** One earlier run for each wanted prompt, in order. */
  ghost predicate Embedding(ordered: seq<Run>, want: seq<string>, picks: seq<nat>) {
    && |picks| == |want|
    && (forall k :: 0 <= k < |picks| ==> picks[k] < |ordered| - 1 && ordered[picks[k]].prompt == Some(want[k]))
    && (forall k, l :: 0 <= k < l < |picks| ==> picks[k] < picks[l])
  }

  function FirstMatch(ordered: seq<Run>, prompt: string, from: nat): (i: Option<nat>)
    ensures i.Some? ==> from <= i.value < |ordered| - 1 && ordered[i.value].prompt == Some(prompt)
    ensures forall j :: from <= j < |ordered| - 1 && ordered[j].prompt == Some(prompt) ==> i.Some? && i.value <= j
    decreases |ordered| - from
  {
    if from >= |ordered| - 1 then None
    else if ordered[from].prompt == Some(prompt) then Some(from)
    else FirstMatch(ordered, prompt, from + 1)
  }

  function Greedy(ordered: seq<Run>, want: seq<string>, from: nat): (picks: Option<seq<nat>>)
    ensures picks.Some? ==> |picks.value| == |want| && forall k :: 0 <= k < |want| ==> picks.value[k] < |ordered| - 1
    decreases |want|
  {
    if want == [] then Some([])
    else
      match FirstMatch(ordered, want[0], from)
      case None => None
      case Some(i) =>
        match Greedy(ordered, want[1..], i + 1)
        case None => None
        case Some(rest) => Some([i] + rest)
  }

  lemma {:induction false} GreedyEmbeds(ordered: seq<Run>, want: seq<string>, from: nat)
    requires Greedy(ordered, want, from).Some?
    ensures Embedding(ordered, want, Greedy(ordered, want, from).value)
    ensures forall k :: 0 <= k < |want| ==> from <= Greedy(ordered, want, from).value[k]
    decreases |want|
  {
    if want != [] {
      GreedyEmbeds(ordered, want[1..], FirstMatch(ordered, want[0], from).value + 1);
    }
  }

  /** Taking the earliest match each time succeeds whenever anything does, and no pick is ever later
      than in any other embedding. */
  lemma {:induction false} GreedyIsLeast(ordered: seq<Run>, want: seq<string>, from: nat, other: seq<nat>)
    requires Embedding(ordered, want, other) && (want != [] ==> from <= other[0])
    ensures Greedy(ordered, want, from).Some?
    ensures forall k :: 0 <= k < |want| ==> Greedy(ordered, want, from).value[k] <= other[k]
    decreases |want|
  {
    if want != [] {
      var i := FirstMatch(ordered, want[0], from).value;
      assert i <= other[0];
      GreedyIsLeast(ordered, want[1..], i + 1, other[1..]);
    }
  }

  // ------------------------------------------------------------- what is shown

  function At(ordered: seq<Run>, picks: seq<nat>): seq<Run>
    requires forall k :: 0 <= k < |picks| ==> picks[k] < |ordered|
  {
    seq(|picks|, k requires 0 <= k < |picks| => ordered[picks[k]])
  }

  function Wanted(latest: Run): seq<string>
    requires Usable(latest)
  {
    AllButLast(NonBlank(latest.conversation))
  }

  /** The runs are the leftmost embedding of the wanted prompts, followed by the latest run. */
  ghost predicate LeastSelection(ordered: seq<Run>, visible: seq<Run>)
    requires ordered != [] && Usable(ordered[|ordered| - 1])
  {
    var latest := ordered[|ordered| - 1];
    exists picks :: Least(ordered, Wanted(latest), picks) && visible == At(ordered, picks) + [latest]
  }

  ghost predicate Least(ordered: seq<Run>, want: seq<string>, picks: seq<nat>) {
    Embedding(ordered, want, picks) && forall other :: Embedding(ordered, want, other) ==> Leftmost(picks, other)
  }

  ghost predicate Leftmost(picks: seq<nat>, other: seq<nat>) {
    |picks| == |other| && forall k :: 0 <= k < |picks| ==> picks[k] <= other[k]
  }

  ghost predicate Embeddable(ordered: seq<Run>, want: seq<string>) {
    exists picks :: Embedding(ordered, want, picks)
  }

  /** The runs shown are the leftmost embedding whenever the wanted prompts can be embedded at all,
      and the whole thread otherwise. */
  ghost predicate RightlyVisible(ordered: seq<Run>, visible: seq<Run>) {
    if ordered != [] && Usable(ordered[|ordered| - 1]) && Embeddable(ordered, Wanted(ordered[|ordered| - 1]))
    then LeastSelection(ordered, visible)
    else visible == ordered
  }

  method VisibleThreadRuns(runs: seq<Run>) returns (visible: seq<Run>)
    ensures RightlyVisible(Sorted(runs), visible)
  {
    visible := VisibleInOrder(Sorted(runs));
  }

  method VisibleInOrder(ordered: seq<Run>) returns (visible: seq<Run>)
    ensures RightlyVisible(ordered, visible)
  {
    if ordered == [] {
      return [];
    }
    var latest := ordered[|ordered| - 1];
    if !Usable(latest) {
      return ordered;
    }
    var prompts := Wanted(latest);
    var selected := EarlierRuns(ordered, prompts);
    if selected == None {
      NotEmbeddable(ordered, prompts);
      return ordered;
    }
    GreedySelects(ordered);
    visible := selected.value + [latest];
  }

  lemma {:induction false} GreedySelects(ordered: seq<Run>)
    requires ordered != [] && Usable(ordered[|ordered| - 1])
    requires Greedy(ordered, Wanted(ordered[|ordered| - 1]), 0).Some?
    ensures var latest := ordered[|ordered| - 1];
            Embeddable(ordered, Wanted(latest))
            && LeastSelection(ordered, At(ordered, Greedy(ordered, Wanted(latest), 0).value) + [latest])
  {
    var want := Wanted(ordered[|ordered| - 1]);
    GreedyEmbeds(ordered, want, 0);
    forall other | Embedding(ordered, want, other) ensures Leftmost(Greedy(ordered, want, 0).value, other) {
      GreedyIsLeast(ordered, want, 0, other);
    }
    assert Least(ordered, want, Greedy(ordered, want, 0).value);
  }

  /** The loop of the selection: match each prompt after the run matched before it. */
  method EarlierRuns(ordered: seq<Run>, prompts: seq<string>) returns (selected: Option<seq<Run>>)
    ensures selected == match Greedy(ordered, prompts, 0)
                        { case None => None case Some(picks) => Some(At(ordered, picks)) }
  {
    var runs: seq<Run>, cursor: nat := [], 0;
    ghost var picks: seq<nat> := [];
    ghost var all := Greedy(ordered, prompts, 0);
    assert prompts[0..] == prompts && (all.Some? ==> picks + all.value == all.value);
    for n := 0 to |prompts|
      invariant cursor <= |ordered|
      invariant forall k :: 0 <= k < |picks| ==> picks[k] < |ordered|
      invariant runs == At(ordered, picks)
      invariant all == Prefixed(picks, Greedy(ordered, prompts[n..], cursor))
    {
      var found := Next(ordered, prompts[n], cursor);
      GreedyStep(ordered, prompts, n, cursor, picks);
      if found == None {
        return None;
      }
      AtNext(ordered, picks, found.value);
      runs := runs + [ordered[found.value]];
      picks := picks + [found.value];
      cursor := found.value + 1;
    }
    assert picks + [] == picks;
    selected := Some(runs);
  }

  lemma AtNext(ordered: seq<Run>, picks: seq<nat>, pick: nat)
    requires (forall k :: 0 <= k < |picks| ==> picks[k] < |ordered|) && pick < |ordered|
    ensures forall k :: 0 <= k <= |picks| ==> (picks + [pick])[k] < |ordered|
    ensures At(ordered, picks + [pick]) == At(ordered, picks) + [ordered[pick]]
  {
  }

  lemma GreedyStep(ordered: seq<Run>, prompts: seq<string>, n: nat, cursor: nat, picks: seq<nat>)
    requires n < |prompts|
    ensures Prefixed(picks, Greedy(ordered, prompts[n..], cursor)) ==
            match FirstMatch(ordered, prompts[n], cursor)
            case None => None
            case Some(i) => Prefixed(picks + [i], Greedy(ordered, prompts[n + 1..], i + 1))
  {
    assert prompts[n..][0] == prompts[n] && prompts[n..][1..] == prompts[n + 1..];
    var found := FirstMatch(ordered, prompts[n], cursor);
    if found.Some? {
      var rest := Greedy(ordered, prompts[n + 1..], found.value + 1);
      assert rest.Some? ==> picks + ([found.value] + rest.value) == picks + [found.value] + rest.value;
    }
  }

  function Prefixed(picks: seq<nat>, rest: Option<seq<nat>>): Option<seq<nat>> {
    match rest
    case None => None
    case Some(more) => Some(picks + more)
  }

  lemma NotEmbeddable(ordered: seq<Run>, want: seq<string>)
    requires Greedy(ordered, want, 0) == None
    ensures !Embeddable(ordered, want)
  {
    forall picks | Embedding(ordered, want, picks) ensures false {
      GreedyIsLeast(ordered, want, 0, picks);
    }
  }

  method Next(ordered: seq<Run>, prompt: string, cursor: nat) returns (found: Option<nat>)
    requires cursor <= |ordered|
    ensures found == FirstMatch(ordered, prompt, cursor)
  {
    var index := cursor;
    while index < |ordered| - 1
      invariant cursor <= index <= |ordered|
      invariant FirstMatch(ordered, prompt, index) == FirstMatch(ordered, prompt, cursor)
    {
      if ordered[index].prompt == Some(prompt) {
        return Some(index);
      }
      index := index + 1;
    }
    found := None;
  }

  /** What the selection promises: one run for every non-blank stored prompt, in order. */
  predicate ShowsConversation(latest: Run, visible: seq<Run>)
    requires Usable(latest)
  {
    Matches(NonBlank(latest.conversation), visible)
  }

  predicate Matches(prompts: seq<string>, visible: seq<Run>) {
    |prompts| <= |visible| && forall k :: 0 <= k < |prompts| ==> visible[k].prompt == Some(prompts[k])
  }

  /** The runs shown match the prompts exactly when the latest run matches the last one. */
  lemma MatchesIff(ordered: seq<Run>, prompts: seq<string>, picks: seq<nat>, visible: seq<Run>)
    requires ordered != [] && Embedding(ordered, AllButLast(prompts), picks)
    requires visible == At(ordered, picks) + [ordered[|ordered| - 1]]
    ensures Matches(prompts, visible) <==>
              prompts == [] || ordered[|ordered| - 1].prompt == Some(prompts[|prompts| - 1])
  {
    if prompts != [] {
      var m := |prompts| - 1;
      assert visible[m] == ordered[|ordered| - 1];
      assert forall k :: 0 <= k < m ==> visible[k].prompt == Some(prompts[k]);
    }
  }

  lemma {:induction false} LastPromptKept(items: seq<Item>)
    requires items != [] && forall item :: item in items ==> item.Text?
    ensures var prompts, last := NonBlank(items), items[|items| - 1].text;
            if Blank(last) then prompts == [] || prompts[|prompts| - 1] != last
            else prompts != [] && prompts[|prompts| - 1] == last
  {
    NoneIsBlank(items);
    var prompts := NonBlank(items);
    assert prompts != [] ==> prompts[|prompts| - 1] in prompts;
  }

  /** A selection shows the whole conversation exactly when the conversation does not end in a blank prompt:
      the last prompt wanted is taken off after the blank ones are, so a blank end drops a real prompt. */
  lemma ShowsConversationIff(ordered: seq<Run>, visible: seq<Run>)
    requires ordered != [] && Usable(ordered[|ordered| - 1]) && LeastSelection(ordered, visible)
    ensures var latest := ordered[|ordered| - 1];
            ShowsConversation(latest, visible) <==> !Blank(latest.prompt.value) || NonBlank(latest.conversation) == []
  {
    var latest := ordered[|ordered| - 1];
    var picks :| Least(ordered, Wanted(latest), picks) && visible == At(ordered, picks) + [latest];
    MatchesIff(ordered, NonBlank(latest.conversation), picks, visible);
    LatestIsLastPromptIff(latest);
  }

  lemma LatestIsLastPromptIff(latest: Run)
    requires Usable(latest)
    ensures var prompts := NonBlank(latest.conversation);
            (prompts == [] || latest.prompt == Some(prompts[|prompts| - 1])) <==>
            (!Blank(latest.prompt.value) || prompts == [])
  {
    LastPromptKept(latest.conversation);
  }

  lemma {:induction false} NoneIsBlank(items: seq<Item>)
    requires forall item :: item in items ==> item.Text?
    ensures forall p :: p in NonBlank(items) ==> !Blank(p)
  {
    if items != [] { NoneIsBlank(items[..|items| - 1]); }
  }

  const EDITED := [Text("a"), Text("b"), Text(" ")]

  lemma EditedPrompts()
    ensures NonBlank(EDITED) == ["a", "b"] && Blank(" ")
  {
    assert "a"[0] in "a" && "b"[0] in "b";
    assert EDITED[..2] == [Text("a"), Text("b")] && EDITED[..2][..1] == [Text("a")];
    assert NonBlank([Text("a")]) == ["a"] && NonBlank(EDITED[..2]) == ["a", "b"];
  }

  /** The conversation "a", "b", " " over the runs "a", "b", " " shows "a" and " ": the run of "b" is missing. */
  lemma BlankEndDropsAPrompt(a: Run, b: Run, end: Run)
    requires a.prompt == Some("a") && b.prompt == Some("b") && end.prompt == Some(" ") && end.conversation == EDITED
    ensures RightlyVisible([a, b, end], [a, end]) && !ShowsConversation(end, [a, end])
  {
    EditedPrompts();
    var ordered := [a, b, end];
    assert Wanted(end) == ["a"];
    var picks: seq<nat> := [0];
    assert [a, end] == At(ordered, picks) + [end];
    assert Embedding(ordered, ["a"], picks);
    forall other | Embedding(ordered, ["a"], other) ensures Leftmost(picks, other) {
    }
    assert Least(ordered, Wanted(end), picks);
    ShowsConversationIff(ordered, [a, end]);
  }
}
