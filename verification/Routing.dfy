/** Weighted hash routing over an environment's routes. */
module Routing {
  import opened Outcomes
  import opened Deployments

  /** The first eight hex digits of a hash take this many values. */
  const PREFIXES := 0x1_0000_0000

  function Bucket(prefix: nat): nat {
    prefix % 100
  }

  /** Where route `i` starts on the scale of 100 buckets. */
  function Start(routes: seq<Route>, i: nat): int
    requires i <= |routes|
  {
    if i == 0 then 0 else Start(routes, i - 1) + routes[i - 1].weight
  }

  lemma {:induction false} StartIsPrefixWeight(routes: seq<Route>, i: nat)
    requires i <= |routes|
    ensures Start(routes, i) + TotalWeight(routes[i..]) == TotalWeight(routes)
  {
    if i > 0 {
      StartIsPrefixWeight(routes, i - 1);
      assert routes[i - 1..][1..] == routes[i..];
    } else {
      assert routes[0..] == routes;
    }
  }

  /** The snapshot the selection loop picks, as a function of the prefix. */
  function Chosen(routes: seq<Route>, prefix: nat): string
    requires routes != []
  {
    ChosenFrom(routes, 0, prefix)
  }

  function ChosenFrom(routes: seq<Route>, i: nat, prefix: nat): string
    requires i < |routes|
    decreases |routes| - i
  {
    if i == |routes| - 1 || Bucket(prefix) < Start(routes, i + 1) then routes[i].snapshot
    else ChosenFrom(routes, i + 1, prefix)
  }

  /** The selection loop of `resolve`. On valid routes it never falls through: the bucket lies in the chosen range. */
  method Resolve(routes: seq<Route>, prefix: nat) returns (selected: Option<Route>)
    requires ValidRoutes(routes)
    ensures selected.None? <==> routes == []
    ensures selected.Some? ==> exists i :: 0 <= i < |routes| && selected.value == routes[i] && Owns(routes, i, prefix)
    ensures selected.Some? ==> selected.value.snapshot == Chosen(routes, prefix)
  {
    if routes == [] {
      return None;
    }
    var bucket := Bucket(prefix);
    var cumulative := 0;
    selected := Some(routes[|routes| - 1]);
    for i := 0 to |routes|
      invariant cumulative == Start(routes, i) <= bucket
      invariant i < |routes| ==> ChosenFrom(routes, i, prefix) == Chosen(routes, prefix)
    {
      cumulative := cumulative + routes[i].weight;
      if bucket < cumulative {
        assert Owns(routes, i, prefix);
        return Some(routes[i]);
      }
    }
    StartIsPrefixWeight(routes, |routes|);
  }

  /** Route `i` owns the prefix: its bucket falls in the route's range. */
  predicate Owns(routes: seq<Route>, i: nat, prefix: nat)
    requires i < |routes|
  {
    Start(routes, i) <= Bucket(prefix) < Start(routes, i) + routes[i].weight
  }

  lemma {:induction false} StartGrows(routes: seq<Route>, i: nat, j: nat)
    requires ValidRoutes(routes) && i < j <= |routes|
    ensures Start(routes, i) + routes[i].weight <= Start(routes, j)
  {
    if i < j - 1 { StartGrows(routes, i, j - 1); }
  }

  /** Every prefix has exactly one owner. */
  lemma OneOwner(routes: seq<Route>, prefix: nat, i: nat, j: nat)
    requires ValidRoutes(routes) && i < |routes| && j < |routes|
    requires Owns(routes, i, prefix) && Owns(routes, j, prefix)
    ensures i == j
  {
    if i < j { StartGrows(routes, i, j); }
    if j < i { StartGrows(routes, j, i); }
  }

  // ----------------------------------------------------------------- fairness

  /** How many of the first `n` prefixes have their bucket in [lo, hi). */
  function Hits(n: nat, lo: int, hi: int): nat {
    if n == 0 then 0 else Hits(n - 1, lo, hi) + if lo <= Bucket(n - 1) < hi then 1 else 0
  }

  function Clamp(x: int, top: int): int {
    if x < 0 then 0 else if x > top then top else x
  }

  /** What whole rounds and a last, unfinished one give: each round gives each bucket one hit. */
  function InRounds(rounds: nat, extra: nat, lo: int, hi: int): int {
    rounds * (hi - lo) + Clamp(extra - lo, hi - lo)
  }

  lemma BucketInRound(rounds: nat, extra: nat)
    requires extra < 100
    ensures Bucket(100 * rounds + extra) == extra
  {
  }

  lemma NextInRounds(rounds: nat, extra: nat, lo: int, hi: int)
    requires 0 <= lo <= hi <= 100 && extra < 100
    ensures InRounds(rounds, extra + 1, lo, hi) == InRounds(rounds, extra, lo, hi) + if lo <= extra < hi then 1 else 0
    ensures InRounds(rounds + 1, 0, lo, hi) == InRounds(rounds, 100, lo, hi)
  {
    assert (rounds + 1) * (hi - lo) == rounds * (hi - lo) + (hi - lo);
  }

  lemma {:induction false} HitsOfRounds(rounds: nat, extra: nat, lo: int, hi: int)
    requires 0 <= lo <= hi <= 100 && extra <= 100
    ensures Hits(100 * rounds + extra, lo, hi) == InRounds(rounds, extra, lo, hi)
  {
    if extra > 0 {
      HitsOfRounds(rounds, extra - 1, lo, hi);
      NextInRounds(rounds, extra - 1, lo, hi);
      BucketInRound(rounds, extra - 1);
    } else if rounds > 0 {
      HitsOfRounds(rounds - 1, 100, lo, hi);
      NextInRounds(rounds - 1, 0, lo, hi);
    }
  }

  /** Whole rounds of 100 give each bucket one hit; the last, unfinished round gives the buckets it reached one more. */
  lemma HitsInRounds(n: nat, lo: int, hi: int)
    requires 0 <= lo <= hi <= 100
    ensures Hits(n, lo, hi) == (n / 100) * (hi - lo) + Clamp(n % 100 - lo, hi - lo)
  {
    HitsOfRounds(n / 100, n % 100, lo, hi);
  }

  lemma HitsAreFair(rounds: nat, extra: nat, lo: int, hi: int)
    requires 0 <= lo <= hi <= 100 && extra < 100
    ensures rounds * (hi - lo) <= Hits(100 * rounds + extra, lo, hi) <= (rounds + 1) * (hi - lo)
  {
    var n := 100 * rounds + extra;
    assert n / 100 == rounds && n % 100 == extra;
    HitsInRounds(n, lo, hi);
  }

  /** Of the 2^32 prefixes, a route of weight w owns between 42949672*w and 42949673*w. */
  lemma {:induction false} RouteShareMatchesWeight(routes: seq<Route>, i: nat)
    requires ValidRoutes(routes) && i < |routes|
    ensures var lo, w := Start(routes, i), routes[i].weight;
            42949672 * w <= Hits(PREFIXES, lo, lo + w) <= 42949673 * w
  {
    StartIsPrefixWeight(routes, i + 1);
    NonNegativeStart(routes, i);
    NonNegativeWeight(routes[i + 1..]);
    HitsAreFair(42949672, 96, Start(routes, i), Start(routes, i) + routes[i].weight);
  }

  lemma {:induction false} NonNegativeStart(routes: seq<Route>, i: nat)
    requires i <= |routes| && forall k :: 0 <= k < |routes| ==> routes[k].weight >= 1
    ensures Start(routes, i) >= 0
  {
    if i > 0 { NonNegativeStart(routes, i - 1); }
  }

  lemma {:induction false} NonNegativeWeight(routes: seq<Route>)
    requires forall k :: 0 <= k < |routes| ==> routes[k].weight >= 1
    ensures TotalWeight(routes) >= 0
  {
    if routes != [] { NonNegativeWeight(routes[1..]); }
  }

  /** In every reachable environment, each route receives its share of the prefixes. */
  lemma {:induction false} ReachableSharesMatchWeights(registry: Registry, policy: Policy, trace: seq<Step>,
                                                       routes: seq<Route>, i: nat)
    requires Legal(registry, Fresh(policy), trace) && routes == Exec(registry, Fresh(policy), trace).env.routes
    requires i < |routes|
    ensures var lo, w := Start(routes, i), routes[i].weight;
            42949672 * w <= Hits(PREFIXES, lo, lo + w) <= 42949673 * w
  {
    assert routes == [] || ValidRoutes(routes) by { ReachableRoutesAreValid(registry, policy, trace); }
    RouteShareMatchesWeight(routes, i);
  }

  /** An environment with the routes and the healthy version that one deployment gave it; its policy may be new. */
  predicate LeftBy(before: Environment, d: Deployment, after: Environment)
    requires NewRoutes(before, d).Some?
  {
    after.routes == Advanced(before, d).routes && after.healthy == Advanced(before, d).healthy
  }

  /** Every key on the target of the first deployment is on the target of the second. */
  ghost predicate KeysFollow(first: seq<Route>, target: string, second: seq<Route>, newTarget: string)
    requires first != [] && second != []
  {
    forall prefix: nat :: prefix < PREFIXES && Chosen(first, prefix) == target ==> Chosen(second, prefix) == newTarget
  }

  /** The share of a target: everything, or a last route that starts where the healthy version's ends. */
  lemma TargetShare(e: Environment, d: Deployment, prefix: nat)
    requires NewRoutes(e, d).Some? && 1 <= d.canary <= 100
    ensures NewRoutes(e, d).value != []
    ensures Chosen(NewRoutes(e, d).value, prefix)
         == if d.canary == 100 || e.healthy.value == d.target || Bucket(prefix) >= 100 - d.canary then d.target
            else e.healthy.value
  {
    var routes := NewRoutes(e, d).value;
    if |routes| == 2 {
      assert Start(routes, 1) == Start(routes, 0) + routes[0].weight == 100 - d.canary;
      assert ChosenFrom(routes, 1, prefix) == routes[1].snapshot;
    }
  }

  /** One promotion after another, each with a snapshot of its own: the keys on the first target all follow to the
      second exactly when the second takes everything, or is the healthy version itself, or the first was a canary
      beside the healthy version and the second has at least its percentage. So raising a canary only adds keys. */
  lemma CanaryKeysFollowIff(e: Environment, d: Deployment, f: Environment, g: Deployment)
    requires NewRoutes(e, d).Some? && LeftBy(e, d, f) && 1 <= d.canary <= 100 && 1 <= g.canary <= 100
    ensures NewRoutes(f, g).Some? && f.routes != [] && NewRoutes(f, g).value != []
    ensures KeysFollow(f.routes, d.target, NewRoutes(f, g).value, g.target) <==>
              g.canary == 100 || g.target == f.healthy.value || (d.target != f.healthy.value && d.canary <= g.canary)
  {
    TargetShare(f, g, 0);
    TargetShare(e, d, 0);
    if g.canary == 100 || g.target == f.healthy.value || (d.target != f.healthy.value && d.canary <= g.canary) {
      forall prefix: nat | prefix < PREFIXES && Chosen(f.routes, prefix) == d.target
        ensures Chosen(NewRoutes(f, g).value, prefix) == g.target
      {
        TargetShare(e, d, prefix);
        TargetShare(f, g, prefix);
      }
    } else {
      var lost := if d.target == f.healthy.value then 0 else 100 - d.canary;
      TargetShare(e, d, lost);
      TargetShare(f, g, lost);
    }
  }
}
