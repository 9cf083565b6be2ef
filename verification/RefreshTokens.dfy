/** Refresh-token families: issuing, rotating and revoking, by calls that interleave freely. */
module RefreshTokens {
  import opened Outcomes

  // ------------------------------------------------------------------ records

  /** One service call; each call draws at most one secret and one session identifier, so both are
      named after it: no two calls draw the same. */
  type Call = nat

  /** What is stored instead of a secret; distinct secrets have distinct hashes. */
  datatype Hash = HashOf(secret: nat)

  datatype Family = SessionOf(call: nat)

  datatype Token = Token(
    family: Family, tenant: string, user: string, expiresAt: int,
    revokedAt: Option<int>, replacedBy: Option<Hash>)

  type Tokens = map<Hash, Token>

  /** The stored tokens, and for each family the order in which its tokens were stored. */
  datatype State = State(tokens: Tokens, chains: map<Family, seq<Hash>>)

  datatype Action =
    | Issue(tenant: string, user: string, expiresAt: int)
    | Rotate(current: Hash, expiresAt: int, at: int)
    | RevokeFamily(family: Family, at: int)
    | RevokeUser(user: string, at: int)

  datatype Step = Step(caller: Call, action: Action)

  const EMPTY := State(map[], map[])

  // -------------------------------------------------------------------- steps

  predicate Live(tokens: Tokens, h: Hash) {
    h in tokens && tokens[h].revokedAt == None
  }

  function InFamily(family: Family): Token -> bool {
    (t: Token) => t.family == family
  }

  function OfUser(user: string): Token -> bool {
    (t: Token) => t.user == user
  }

  function Revoked(t: Token, at: int): Token {
    if t.revokedAt == None then t.(revokedAt := Some(at)) else t
  }

  function RevokeAll(tokens: Tokens, hit: Token -> bool, at: int): Tokens {
    map h | h in tokens :: if hit(tokens[h]) then Revoked(tokens[h], at) else tokens[h]
  }

  function Replacement(tokens: Tokens, current: Hash, expiresAt: int): Token
    requires current in tokens
  {
    tokens[current].(expiresAt := expiresAt, revokedAt := None, replacedBy := None)
  }

  function Rotated(tokens: Tokens, current: Hash, next: Hash, expiresAt: int, at: int): Tokens
    requires current in tokens
  {
    tokens[current := tokens[current].(revokedAt := Some(at), replacedBy := Some(next))]
          [next := Replacement(tokens, current, expiresAt)]
  }

  predicate Enabled(s: State, step: Step) {
    match step.action
    case Issue(_, _, _) => HashOf(step.caller) !in s.tokens && SessionOf(step.caller) !in s.chains
    case Rotate(current, _, _) =>
      && Live(s.tokens, current) && HashOf(step.caller) !in s.tokens
      && s.tokens[current].family in s.chains
    case RevokeFamily(_, _) => true
    case RevokeUser(_, _) => true
  }

  function Apply(s: State, step: Step): State
    requires Enabled(s, step)
  {
    var next := HashOf(step.caller);
    match step.action
    case Issue(tenant, user, expiresAt) =>
      var family := SessionOf(step.caller);
      State(s.tokens[next := Token(family, tenant, user, expiresAt, None, None)], s.chains[family := [next]])
    case Rotate(current, expiresAt, at) =>
      var family := s.tokens[current].family;
      State(Rotated(s.tokens, current, next, expiresAt, at), s.chains[family := s.chains[family] + [next]])
    case RevokeFamily(family, at) => s.(tokens := RevokeAll(s.tokens, InFamily(family), at))
    case RevokeUser(user, at) => s.(tokens := RevokeAll(s.tokens, OfUser(user), at))
  }

  predicate Legal(s: State, trace: seq<Step>)
    decreases |trace|
  {
    trace == [] || (Enabled(s, trace[0]) && Legal(Apply(s, trace[0]), trace[1..]))
  }

  function Exec(s: State, trace: seq<Step>): State
    requires Legal(s, trace)
    decreases |trace|
  {
    if trace == [] then s else Exec(Apply(s, trace[0]), trace[1..])
  }

  // ---------------------------------------------------------------- invariant

  /** The i-th token of a chain: all but the last are revoked and name their successor. */
  predicate Linked(s: State, f: Family, i: nat)
    requires f in s.chains && i < |s.chains[f]|
  {
    var c := s.chains[f];
    && c[i] in s.tokens
    && s.tokens[c[i]].family == f
    && c[0] in s.tokens && s.tokens[c[i]].user == s.tokens[c[0]].user
    && (if i + 1 < |c| then s.tokens[c[i]].revokedAt.Some? && s.tokens[c[i]].replacedBy == Some(c[i + 1])
        else s.tokens[c[i]].replacedBy == None)
  }

  predicate Distinct(c: seq<Hash>) {
    forall i, j :: 0 <= i < j < |c| ==> c[i] != c[j]
  }

  ghost predicate Chained(s: State, f: Family)
    requires f in s.chains
  {
    && s.chains[f] != []
    && Distinct(s.chains[f])
    && (forall i :: 0 <= i < |s.chains[f]| ==> Linked(s, f, i))
  }

  /** Every token is in the chain of its family, and every family is one chain of distinct tokens. */
  ghost predicate Inv(s: State) {
    && (forall f :: f in s.chains ==> Chained(s, f))
    && (forall h :: h in s.tokens ==> s.tokens[h].family in s.chains && h in s.chains[s.tokens[h].family])
  }

  lemma IssueKeepsInv(s: State, step: Step)
    requires Inv(s) && Enabled(s, step) && step.action.Issue?
    ensures Inv(Apply(s, step))
  {
    var t := Apply(s, step);
    forall f | f in t.chains ensures Chained(t, f) {
      if f in s.chains {
        assert Chained(s, f);
        forall i | 0 <= i < |t.chains[f]| ensures Linked(t, f, i) {
          assert Linked(s, f, i) && (i + 1 < |s.chains[f]| ==> Linked(s, f, i + 1));
        }
      }
    }
  }

  lemma RotateKeepsInv(s: State, step: Step)
    requires Inv(s) && Enabled(s, step) && step.action.Rotate?
    ensures Inv(Apply(s, step))
  {
    var t, current := Apply(s, step), step.action.current;
    var family := s.tokens[current].family;
    LiveIsLast(s, current);
    forall f | f in t.chains ensures Chained(t, f) {
      assert Chained(s, f) && Linked(s, f, 0) && Linked(s, f, |s.chains[f]| - 1);
      forall i | 0 <= i < |s.chains[f]| ensures s.chains[f][i] != HashOf(step.caller) {
        assert Linked(s, f, i);
      }
      forall i | 0 <= i < |t.chains[f]| ensures Linked(t, f, i) {
        assert i < |s.chains[f]| ==> Linked(s, f, i);
      }
    }
  }

  lemma RevokeKeepsInv(s: State, hit: Token -> bool, at: int)
    requires Inv(s)
    ensures Inv(s.(tokens := RevokeAll(s.tokens, hit, at)))
  {
    var t := s.(tokens := RevokeAll(s.tokens, hit, at));
    forall f | f in t.chains ensures Chained(t, f) {
      assert Chained(s, f);
      forall i | 0 <= i < |t.chains[f]| ensures Linked(t, f, i) { assert Linked(s, f, i); }
    }
  }

  lemma StepKeepsInv(s: State, step: Step)
    requires Inv(s) && Enabled(s, step)
    ensures Inv(Apply(s, step))
  {
    match step.action
    case Issue(_, _, _) => IssueKeepsInv(s, step);
    case Rotate(_, _, _) => RotateKeepsInv(s, step);
    case RevokeFamily(f, at) => RevokeKeepsInv(s, InFamily(f), at);
    case RevokeUser(u, at) => RevokeKeepsInv(s, OfUser(u), at);
  }

  /** Whatever calls interleave, every family stays one chain. */
  lemma {:induction false} EveryInterleavingKeepsInv(s: State, trace: seq<Step>)
    requires Inv(s) && Legal(s, trace)
    ensures Inv(Exec(s, trace))
    decreases |trace|
  {
    if trace != [] {
      StepKeepsInv(s, trace[0]);
      EveryInterleavingKeepsInv(Apply(s, trace[0]), trace[1..]);
    }
  }

  // ------------------------------------------------------- what the chain says

  lemma LiveIsLast(s: State, h: Hash)
    requires Inv(s) && Live(s.tokens, h)
    ensures var c := s.chains[s.tokens[h].family]; c != [] && c[|c| - 1] == h
  {
    var f := s.tokens[h].family;
    var i :| 0 <= i < |s.chains[f]| && s.chains[f][i] == h;
    assert Linked(s, f, i);
  }

  /** A family never has two live tokens. */
  lemma OneLiveTokenPerFamily(s: State, trace: seq<Step>, g: Hash, h: Hash)
    requires Inv(s) && Legal(s, trace)
    requires Live(Exec(s, trace).tokens, g) && Live(Exec(s, trace).tokens, h)
    requires Exec(s, trace).tokens[g].family == Exec(s, trace).tokens[h].family
    ensures g == h
  {
    EveryInterleavingKeepsInv(s, trace);
    LiveIsLast(Exec(s, trace), g);
    LiveIsLast(Exec(s, trace), h);
  }

  /** All tokens of a family are held by one user. */
  lemma OneUserPerFamily(s: State, g: Hash, h: Hash)
    requires Inv(s) && g in s.tokens && h in s.tokens && s.tokens[g].family == s.tokens[h].family
    ensures s.tokens[g].user == s.tokens[h].user
  {
    var f := s.tokens[g].family;
    assert Chained(s, f);
    var i :| 0 <= i < |s.chains[f]| && s.chains[f][i] == g;
    var j :| 0 <= j < |s.chains[f]| && s.chains[f][j] == h;
    assert Linked(s, f, i) && Linked(s, f, j);
  }

  /** Follow the replacement link `n` times; stop at a token that was not replaced. */
  function Follow(tokens: Tokens, h: Hash, n: nat): Hash
    decreases n
  {
    if n == 0 || h !in tokens || tokens[h].replacedBy == None then h
    else Follow(tokens, tokens[h].replacedBy.value, n - 1)
  }

  lemma {:induction false} FollowWalksTheChain(s: State, f: Family, i: nat, n: nat)
    requires Inv(s) && f in s.chains && i + n < |s.chains[f]|
    ensures Follow(s.tokens, s.chains[f][i], n) == s.chains[f][i + n]
    decreases n
  {
    assert Linked(s, f, i);
    if n > 0 {
      FollowWalksTheChain(s, f, i + 1, n - 1);
    }
  }

  /** The links are acyclic and do not branch: from any token they never come back to it, they all lead to
      the one token of the family that was not replaced, and no token replaces two others. */
  lemma LinksFormOneChain(s: State, h: Hash)
    requires Inv(s) && h in s.tokens
    ensures forall n: nat :: Follow(s.tokens, h, n) == h ==> n == 0 || s.tokens[h].replacedBy == None
    ensures exists n: nat :: IsEnd(s, s.tokens[h].family, Follow(s.tokens, h, n))
    ensures forall g :: g in s.tokens && s.tokens[g].replacedBy.Some?
                        && s.tokens[g].replacedBy == s.tokens[h].replacedBy
              ==> g == h
  {
    var f := s.tokens[h].family;
    assert Chained(s, f);
    var c := s.chains[f];
    var i :| 0 <= i < |c| && c[i] == h;
    assert Linked(s, f, i) && Linked(s, f, |c| - 1);
    FollowWalksTheChain(s, f, i, |c| - 1 - i);
    assert IsEnd(s, f, Follow(s.tokens, h, |c| - 1 - i));
    forall n: nat | n > 0 && i + 1 < |c| ensures Follow(s.tokens, h, n) != h {
      if i + n < |c| {
        FollowWalksTheChain(s, f, i, n);
      } else {
        FollowStopsAtTheEnd(s, f, i, n);
      }
    }
    forall g | g in s.tokens && s.tokens[g].replacedBy.Some? && s.tokens[g].replacedBy == s.tokens[h].replacedBy
      ensures g == h
    {
      SameSuccessor(s, g, h);
    }
  }

  ghost predicate IsEnd(s: State, f: Family, h: Hash) {
    h in s.tokens && s.tokens[h].family == f && s.tokens[h].replacedBy == None
  }

  lemma {:induction false} FollowStopsAtTheEnd(s: State, f: Family, i: nat, n: nat)
    requires Inv(s) && f in s.chains && i < |s.chains[f]| <= i + n
    ensures Follow(s.tokens, s.chains[f][i], n) == s.chains[f][|s.chains[f]| - 1]
    decreases n
  {
    assert Linked(s, f, i);
    if n > 0 && i + 1 < |s.chains[f]| {
      FollowStopsAtTheEnd(s, f, i + 1, n - 1);
    }
  }

  lemma SameSuccessor(s: State, g: Hash, h: Hash)
    requires Inv(s) && g in s.tokens && h in s.tokens
    requires s.tokens[g].replacedBy.Some? && s.tokens[g].replacedBy == s.tokens[h].replacedBy
    ensures g == h
  {
    var f, e := s.tokens[g].family, s.tokens[h].family;
    assert Chained(s, f) && Chained(s, e);
    var i :| 0 <= i < |s.chains[f]| && s.chains[f][i] == g;
    var j :| 0 <= j < |s.chains[e]| && s.chains[e][j] == h;
    assert Linked(s, f, i) && Linked(s, e, j);
    assert Linked(s, f, i + 1) && Linked(s, e, j + 1);
  }

  // ------------------------------------------------------------- going forward

  ghost predicate Dead(s: State, f: Family) {
    f in s.chains && forall h :: h in s.tokens && s.tokens[h].family == f ==> !Live(s.tokens, h)
  }

  /** A token never changes hands, never comes back to life, and is replaced at most once. */
  predicate Ages(a: Token, b: Token) {
    && a.family == b.family && a.tenant == b.tenant && a.user == b.user && a.expiresAt == b.expiresAt
    && (a.revokedAt.Some? ==> b == a)
  }

  ghost predicate Onward(s: State, t: State) {
    && (forall h :: h in s.tokens ==> h in t.tokens && Ages(s.tokens[h], t.tokens[h]))
    && (forall f :: f in s.chains ==> f in t.chains)
    && (forall f :: Dead(s, f) ==> Dead(t, f))
  }

  lemma StepIsOnward(s: State, step: Step)
    requires Inv(s) && Enabled(s, step)
    ensures Onward(s, Apply(s, step))
  {
    var t := Apply(s, step);
    forall f | Dead(s, f) ensures Dead(t, f) {
      forall h | h in t.tokens && t.tokens[h].family == f ensures !Live(t.tokens, h) {
        if h in s.tokens { assert !Live(s.tokens, h); }
      }
    }
  }

  lemma OnwardReflexive(s: State)
    ensures Onward(s, s)
  {
  }

  /** Whatever happens later: a family with no live token never gets one again, and a revoked token
      stays exactly as it is. */
  lemma {:induction false} DeadForever(s: State, trace: seq<Step>)
    requires Inv(s) && Legal(s, trace)
    ensures Onward(s, Exec(s, trace))
    decreases |trace|
  {
    if trace != [] {
      StepKeepsInv(s, trace[0]);
      StepIsOnward(s, trace[0]);
      DeadForever(Apply(s, trace[0]), trace[1..]);
    } else {
      OnwardReflexive(s);
    }
  }

  /** One secret buys one successor: along any run a token is rotated at most once. */
  lemma {:induction false} RotatedAtMostOnce(s: State, trace: seq<Step>, i: nat, j: nat)
    requires Inv(s) && Legal(s, trace) && i < j < |trace|
    requires trace[i].action.Rotate? && trace[j].action.Rotate?
    ensures trace[i].action.current != trace[j].action.current
    decreases |trace|
  {
    if i > 0 {
      StepKeepsInv(s, trace[0]);
      RotatedAtMostOnce(Apply(s, trace[0]), trace[1..], i - 1, j - 1);
    } else {
      var t := Apply(s, trace[0]);
      StepKeepsInv(s, trace[0]);
      var h := trace[0].action.current;
      assert h in t.tokens && t.tokens[h].revokedAt.Some?;
      RevokedIsNotRotated(t, trace[1..], h, j - 1);
    }
  }

  lemma {:induction false} RevokedIsNotRotated(s: State, trace: seq<Step>, h: Hash, j: nat)
    requires Inv(s) && Legal(s, trace) && j < |trace|
    requires h in s.tokens && s.tokens[h].revokedAt.Some? && trace[j].action.Rotate?
    ensures trace[j].action.current != h
    decreases |trace|
  {
    if j > 0 {
      StepKeepsInv(s, trace[0]);
      StepIsOnward(s, trace[0]);
      RevokedIsNotRotated(Apply(s, trace[0]), trace[1..], h, j - 1);
    }
  }

  /** The secret and session a call has yet to store are stored by nobody else. */
  ghost predicate Unspent(s: State, me: Call) {
    HashOf(me) !in s.tokens && SessionOf(me) !in s.chains
  }

  lemma {:induction false} OthersLeaveUnspent(me: Call, s: State, trace: seq<Step>)
    requires Inv(s) && Legal(s, trace) && Unspent(s, me)
    requires forall i :: 0 <= i < |trace| ==> trace[i].caller != me
    ensures Unspent(Exec(s, trace), me)
    decreases |trace|
  {
    if trace != [] {
      StepKeepsInv(s, trace[0]);
      OthersLeaveUnspent(me, Apply(s, trace[0]), trace[1..]);
    }
  }

  // ------------------------------------------------------------------- traces

  lemma {:induction false} ExecConcat(s: State, a: seq<Step>, b: seq<Step>)
    ensures Legal(s, a + b) <==> Legal(s, a) && Legal(Exec(s, a), b)
    ensures Legal(s, a + b) ==> Exec(s, a + b) == Exec(Exec(s, a), b)
    decreases |a|
  {
    if a == [] {
      assert a + b == b;
    } else {
      assert (a + b)[0] == a[0] && (a + b)[1..] == a[1..] + b;
      if Enabled(s, a[0]) { ExecConcat(Apply(s, a[0]), a[1..], b); }
    }
  }

  lemma {:induction false} ExecSnoc(s: State, trace: seq<Step>, step: Step)
    requires Legal(s, trace) && Enabled(Exec(s, trace), step)
    ensures Legal(s, trace + [step]) && Exec(s, trace + [step]) == Apply(Exec(s, trace), step)
  {
    ExecConcat(s, trace, [step]);
    assert Exec(Exec(s, trace), [step]) == Apply(Exec(s, trace), step);
  }
}
