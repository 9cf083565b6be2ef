/** Publishing a package together with the packages of the same local catalog it delegates to. */
module Publication {
  import opened Outcomes

  // ------------------------------------------------------------------ catalog

  /** What checking a directory yields: a valid package or an error. */
  datatype Package = Broken | Package(name: string, version: string, refs: seq<string>)

  /** The directories of a catalog, and those whose upload the control plane refuses. */
  datatype Catalog = Catalog(packages: map<string, Package>, refused: set<string>)

  type Identity = (string, string)

  /** `ref.rpartition("@")`: split at the last separator. */
  function Partition(s: string): (r: Option<(string, string)>)
    ensures r == None <==> '@' !in s
    ensures r.Some? ==> s == r.value.0 + "@" + r.value.1 && '@' !in r.value.1
  {
    if s == [] then None
    else if s[|s| - 1] == '@' then Some((s[..|s| - 1], ""))
    else
      match Partition(s[..|s| - 1])
      case None => None
      case Some(parts) => Some((parts.0, parts.1 + [s[|s| - 1]]))
  }

  predicate Valid(c: Catalog, d: string) {
    d in c.packages && c.packages[d].Package?
  }

  function Id(c: Catalog, d: string): Identity
    requires Valid(c, d)
  {
    (c.packages[d].name, c.packages[d].version)
  }

  predicate SameId(c: Catalog, d: string, e: string) {
    Valid(c, d) && Valid(c, e) && Id(c, d) == Id(c, e)
  }

  /** The reference names a directory of this catalog. */
  predicate Local(c: Catalog, ref: string) {
    Partition(ref).Some? && Partition(ref).value.0 in c.packages
  }

  /** A local reference must lead to a valid package of the name and version it pins. */
  predicate Fits(c: Catalog, ref: string) {
    Local(c, ref) ==>
      var target := Partition(ref).value.0;
      Valid(c, target) && Id(c, target) == (target, Partition(ref).value.1)
  }

  predicate Sound(c: Catalog, d: string) {
    Valid(c, d) && d !in c.refused && forall ref :: ref in c.packages[d].refs ==> Fits(c, ref)
  }

  predicate Edge(c: Catalog, d: string, e: string) {
    Valid(c, d) && exists ref :: ref in c.packages[d].refs && Local(c, ref) && Partition(ref).value.0 == e
  }

  predicate Path(c: Catalog, p: seq<string>) {
    p != [] && forall k :: 0 < k < |p| ==> Edge(c, p[k - 1], p[k])
  }

  ghost predicate Reaches(c: Catalog, d: string, e: string) {
    exists p :: Path(c, p) && p[0] == d && p[|p| - 1] == e
  }

  datatype PublishError = Invalid | Mismatch | Refused | Cyclic

  /** The reference leads to a valid package, but not of the name and version it pins. */
  predicate Mispinned(c: Catalog, ref: string) {
    Local(c, ref) && Valid(c, Partition(ref).value.0) && !Fits(c, ref)
  }

  /** The walk ends badly: in a directory that does not check, one with a mispinned reference, one the control plane
      refuses, or one whose identity is already being published or occurred before on the walk. */
  predicate EndsBadly(c: Catalog, p: seq<string>, active: set<Identity>, error: PublishError)
    requires Path(c, p)
  {
    var last := p[|p| - 1];
    match error
    case Invalid => !Valid(c, last)
    case Mismatch => Valid(c, last) && exists ref :: ref in c.packages[last].refs && Mispinned(c, ref)
    case Refused => last in c.refused
    case Cyclic => Valid(c, last) && (Id(c, last) in active || exists k :: 0 <= k < |p| - 1 && SameId(c, p[k], last))
  }

  ghost predicate Trouble(c: Catalog, d: string, active: set<Identity>, error: PublishError) {
    exists p :: Path(c, p) && p[0] == d && EndsBadly(c, p, active, error)
  }

  lemma TroubleBelow(c: Catalog, d: string, e: string, active: set<Identity>, error: PublishError)
    requires Edge(c, d, e) && Trouble(c, e, active + {Id(c, d)}, error)
    ensures Trouble(c, d, active, error)
  {
    var p :| Path(c, p) && p[0] == e && EndsBadly(c, p, active + {Id(c, d)}, error);
    var q := [d] + p;
    assert q[|q| - 1] == p[|p| - 1];
    if error.Cyclic? {
      if Id(c, p[|p| - 1]) == Id(c, d) {
        assert SameId(c, q[0], q[|q| - 1]);
      } else if k :| 0 <= k < |p| - 1 && SameId(c, p[k], p[|p| - 1]) {
        assert SameId(c, q[k + 1], q[|q| - 1]);
      }
    }
    assert Path(c, q) && EndsBadly(c, q, active, error);
  }

  lemma TroubleHere(c: Catalog, d: string, active: set<Identity>, error: PublishError)
    requires EndsBadly(c, [d], active, error)
    ensures Trouble(c, d, active, error)
  {
    assert Path(c, [d]);
  }

  lemma ReachesBelow(c: Catalog, d: string, e: string, x: string)
    requires Edge(c, d, e) && Reaches(c, e, x)
    ensures Reaches(c, d, x)
  {
    var p :| Path(c, p) && p[0] == e && p[|p| - 1] == x;
    assert Path(c, [d] + p) && ([d] + p)[0] == d && ([d] + p)[|p|] == x;
  }

  lemma ReachesItself(c: Catalog, d: string)
    ensures Reaches(c, d, d)
  {
    assert Path(c, [d]) && [d][0] == d;
  }

  // ---------------------------------------------------------------------- log

  /** The published directory and everything it delegates to locally is sound, and its delegates came before. */
  ghost predicate Settled(c: Catalog, log: seq<string>, i: nat)
    requires i < |log|
  {
    Sound(c, log[i]) && forall e :: Edge(c, log[i], e) ==> e in log[..i]
  }

  /** Dependencies come first, and no identity is published twice. */
  ghost predicate Ordered(c: Catalog, log: seq<string>) {
    && (forall i :: 0 <= i < |log| ==> Settled(c, log, i))
    && (forall i, j :: 0 <= i < j < |log| ==> !SameId(c, log[i], log[j]))
  }

  function Ids(c: Catalog, log: seq<string>): set<Identity>
    requires forall d :: d in log ==> Valid(c, d)
  {
    set d | d in log :: Id(c, d)
  }

  lemma PublishedNext(c: Catalog, log: seq<string>, d: string)
    requires Ordered(c, log) && Sound(c, d)
    requires forall e :: Edge(c, d, e) ==> e in log
    requires forall x :: x in log ==> !SameId(c, x, d)
    ensures Ordered(c, log + [d])
  {
    var next := log + [d];
    forall i | 0 <= i < |next| ensures Settled(c, next, i) {
      assert next[..i] == log[..i];
      assert i == |log| ==> log[..i] == log;
      assert i < |log| ==> Settled(c, log, i);
    }
  }

  /** Along a walk from a published package the log is read backwards. */
  lemma {:induction false} WalkGoesBack(c: Catalog, log: seq<string>, p: seq<string>, i: nat)
    requires Ordered(c, log) && Path(c, p) && i < |log| && log[i] == p[0]
    ensures forall k :: 0 < k < |p| ==> p[k] in log[..i]
    decreases |p|
  {
    if |p| > 1 {
      assert Settled(c, log, i) && Edge(c, p[0], p[1]);
      var j :| 0 <= j < i && log[j] == p[1];
      assert Path(c, p[1..]) by {
        forall k | 0 < k < |p[1..]| ensures Edge(c, p[1..][k - 1], p[1..][k]) {
          assert Edge(c, p[k], p[k + 1]);
        }
      }
      WalkGoesBack(c, log, p[1..], j);
      forall k | 0 < k < |p| ensures p[k] in log[..i] {
        if k == 1 {
          assert log[..i][j] == p[k];
        } else {
          assert p[1..][k - 1] in log[..j];
          assert log[..j] <= log[..i];
        }
      }
    }
  }

  /** Whatever is in an ordered log has no trouble below it. */
  lemma PublishedHasNoTrouble(c: Catalog, log: seq<string>, d: string)
    requires Ordered(c, log) && d in log
    ensures forall error :: !Trouble(c, d, {}, error)
  {
    var i :| 0 <= i < |log| && log[i] == d;
    forall p, error | Path(c, p) && p[0] == d ensures !EndsBadly(c, p, {}, error) {
      var last := p[|p| - 1];
      WalkGoesBack(c, log, p, i);
      assert last in log by { if |p| == 1 { assert last == log[i]; } }
      var n :| 0 <= n < |log| && log[n] == last;
      assert Settled(c, log, n);
      forall k | 0 <= k < |p| - 1 ensures !SameId(c, p[k], last) {
        EarlierOnWalk(c, log, p, i, k);
      }
    }
  }

  lemma EarlierOnWalk(c: Catalog, log: seq<string>, p: seq<string>, i: nat, k: nat)
    requires Ordered(c, log) && Path(c, p) && i < |log| && log[i] == p[0] && k < |p| - 1
    ensures !SameId(c, p[k], p[|p| - 1])
  {
    WalkGoesBack(c, log, p, i);
    assert p[k] in log by { if k == 0 { assert p[k] == log[i]; } }
    var m :| 0 <= m < |log| && log[m] == p[k];
    assert Path(c, p[k..]) by {
      forall n | 0 < n < |p[k..]| ensures Edge(c, p[k..][n - 1], p[k..][n]) {
        assert Edge(c, p[k + n - 1], p[k + n]);
      }
    }
    WalkGoesBack(c, log, p[k..], m);
    assert p[k..][|p| - 1 - k] in log[..m];
    var n :| 0 <= n < m && log[n] == p[|p| - 1];
    assert Settled(c, log, n) && Settled(c, log, m);
  }

  /** A package that a walk leads back to is never published, not even by a run that fails. */
  lemma CyclesAreNeverPublished(c: Catalog, log: seq<string>, p: seq<string>)
    requires Ordered(c, log) && Path(c, p) && |p| > 1 && p[0] == p[|p| - 1]
    ensures forall d :: d in p ==> d !in log
  {
    forall d | d in p ensures d !in log {
      var k :| 0 <= k < |p| && p[k] == d;
      if d in log {
        var q := p[k..] + p[1..k + 1];
        assert forall n :: 0 <= n < |p| - k ==> q[n] == p[k + n];
        assert forall n :: |p| - k <= n < |q| ==> q[n] == p[n - (|p| - k) + 1];
        forall n | 0 < n < |q| ensures Edge(c, q[n - 1], q[n]) {
          var m := if n < |p| - k then k + n else n - (|p| - k) + 1;
          assert Edge(c, p[m - 1], p[m]);
        }
        var i :| 0 <= i < |log| && log[i] == d;
        assert Settled(c, log, i) && q[0] == d && q[|q| - 1] == d;
        EarlierOnWalk(c, log, q, i, 0);
      }
    }
  }

  // --------------------------------------------------- what a publication means

  lemma {:induction false} PartitionIs(name: string, version: string)
    requires '@' !in version
    ensures Partition(name + "@" + version) == Some((name, version))
    decreases |version|
  {
    var s := name + "@" + version;
    if version == "" {
      assert s[|s| - 1] == '@' && s[..|s| - 1] == name;
    } else {
      var front := version[..|version| - 1];
      PartitionIs(name, front);
      assert s[..|s| - 1] == name + "@" + front && front + [version[|version| - 1]] == version;
    }
  }

  /** The package pins another one by name and version, and the catalog has a directory of that name. */
  predicate Pins(c: Catalog, d: string, name: string, version: string) {
    && d in c.packages && c.packages[d].Package? && (name + "@" + version) in c.packages[d].refs && '@' !in version
    && name in c.packages
  }

  lemma EdgeIffPins(c: Catalog, d: string, e: string)
    ensures Edge(c, d, e) <==> exists version :: Pins(c, d, e, version)
  {
    if version :| Pins(c, d, e, version) {
      PartitionIs(e, version);
    }
    if Edge(c, d, e) {
      var ref :| ref in c.packages[d].refs && Local(c, ref) && Partition(ref).value.0 == e;
      assert Pins(c, d, e, Partition(ref).value.1);
    }
  }

  predicate IsPackage(c: Catalog, d: string, name: string, version: string) {
    d in c.packages && c.packages[d].Package? && c.packages[d].name == name && c.packages[d].version == version
  }

  /** Every published directory holds a valid package that the control plane accepts, no name and version is published
      twice, and what a package pins within the catalog was published before it, in exactly the pinned version. */
  ghost predicate PublishedRightly(c: Catalog, log: seq<string>) {
    && (forall d :: d in log ==> d in c.packages && c.packages[d].Package? && d !in c.refused)
    && (forall i, j, name, version :: 0 <= i < j < |log| && IsPackage(c, log[i], name, version) ==>
          !IsPackage(c, log[j], name, version))
    && (forall i, name, version :: 0 <= i < |log| && Pins(c, log[i], name, version) ==>
          Preceded(c, log, i, name, version))
  }

  predicate Preceded(c: Catalog, log: seq<string>, i: nat, name: string, version: string)
    requires i <= |log|
  {
    name in log[..i] && IsPackage(c, name, name, version)
  }

  lemma OrderedIsRight(c: Catalog, log: seq<string>)
    requires Ordered(c, log)
    ensures PublishedRightly(c, log)
  {
    forall d | d in log ensures d in c.packages && c.packages[d].Package? && d !in c.refused {
      var i :| 0 <= i < |log| && log[i] == d;
      assert Settled(c, log, i);
    }
    forall i, name, version | 0 <= i < |log| && Pins(c, log[i], name, version)
      ensures Preceded(c, log, i, name, version)
    {
      PartitionIs(name, version);
      assert Settled(c, log, i) && Fits(c, name + "@" + version) && Edge(c, log[i], name);
    }
    forall i, j, name, version | 0 <= i < j < |log| && IsPackage(c, log[i], name, version)
      ensures !IsPackage(c, log[j], name, version)
    {
      assert !SameId(c, log[i], log[j]);
    }
  }

  /** What an error says of the packages that the published one reaches. */
  ghost predicate ErrorMeans(c: Catalog, d: string, error: PublishError) {
    match error
    case Invalid => exists x :: Reaches(c, d, x) && !(x in c.packages && c.packages[x].Package?)
    case Refused => exists x :: Reaches(c, d, x) && x in c.refused
    case Mismatch => exists x, name, version :: Reaches(c, d, x) && Pins(c, x, name, version)
                       && c.packages[name].Package? && !IsPackage(c, name, name, version)
    case Cyclic => exists p, k :: Path(c, p) && p[0] == d && 0 <= k < |p| - 1 && SamePackage(c, p[k], p[|p| - 1])
  }

  predicate SamePackage(c: Catalog, d: string, e: string) {
    && d in c.packages && e in c.packages && c.packages[d].Package? && c.packages[e].Package?
    && c.packages[d].name == c.packages[e].name && c.packages[d].version == c.packages[e].version
  }

  lemma TroubleMeans(c: Catalog, d: string, error: PublishError)
    requires Trouble(c, d, {}, error)
    ensures ErrorMeans(c, d, error)
  {
    var p :| Path(c, p) && p[0] == d && EndsBadly(c, p, {}, error);
    var last := p[|p| - 1];
    assert Reaches(c, d, last);
    if error.Mismatch? {
      var ref :| ref in c.packages[last].refs && Mispinned(c, ref);
      var (name, version) := Partition(ref).value;
      assert Pins(c, last, name, version);
    } else if error.Cyclic? {
      var k :| 0 <= k < |p| - 1 && SameId(c, p[k], last);
      assert SamePackage(c, p[k], last);
    }
  }

  // ---------------------------------------------------------------- publisher

  class Publisher {
    const catalog: Catalog
    var completed: set<Identity>
    var active: set<Identity>
    /** The directories handed to the control plane, in order. */
    var log: seq<string>

    constructor (catalog: Catalog)
      ensures this.catalog == catalog && log == [] && completed == {} && active == {}
    {
      this.catalog := catalog;
      completed, active, log := {}, {}, [];
    }

    ghost predicate Good()
      reads this
    {
      && Ordered(catalog, log)
      && (forall d :: d in log ==> Valid(catalog, d))
      && completed == Ids(catalog, log)
      && active <= AllIds() && active !! completed
    }

    ghost function AllIds(): set<Identity> {
      set d | d in catalog.packages && Valid(catalog, d) :: Id(catalog, d)
    }

    predicate Named(d: string) {
      Valid(catalog, d) && catalog.packages[d].name == d
    }

    /** Publish a directory after everything it delegates to. Only the directory the call starts from
        may be named differently from its package. */
    method Visit(d: string) returns (r: Result<(), PublishError>)
      requires Good() && (forall x :: x in log ==> Named(x)) && (Named(d) || log == [])
      modifies this
      ensures Ordered(catalog, log) && old(log) <= log
      ensures forall x :: x in log[|old(log)|..] ==> Reaches(catalog, d, x)
      ensures r.Ok? ==> Good() && active == old(active) && d in log
      ensures r.Ok? && Named(d) ==> forall x :: x in log ==> Named(x)
      ensures r.Ok? && Valid(catalog, d) && Id(catalog, d) !in old(completed) ==> log[|log| - 1] == d
      ensures r.Err? ==> Trouble(catalog, d, old(active), r.error)
      decreases AllIds() - active, 0
    {
      if !Valid(catalog, d) {
        TroubleHere(catalog, d, active, Invalid);
        return Err(Invalid);
      }
      var package := catalog.packages[d];
      var identity := (package.name, package.version);
      if identity in completed {
        return Ok(());
      }
      if identity in active {
        TroubleHere(catalog, d, active, Cyclic);
        return Err(Cyclic);
      }
      active := active + {identity};
      r := VisitAll(d, package, identity);
      if r.Err? {
        return;
      }
      if d in catalog.refused {
        TroubleHere(catalog, d, old(active), Refused);
        return Err(Refused);
      }
      PublishedNext(catalog, log, d);
      ReachesItself(catalog, d);
      log := log + [d];
      active := active - {identity};
      completed := completed + {identity};
      assert active == old(active);
    }

    /** The loop over the references of a package. */
    method VisitAll(d: string, package: Package, identity: Identity) returns (r: Result<(), PublishError>)
      requires Good() && (forall x :: x in log ==> Named(x))
      requires Valid(catalog, d) && package == catalog.packages[d] && identity == Id(catalog, d) && identity in active
      modifies this
      ensures Ordered(catalog, log) && old(log) <= log
      ensures forall x :: x in log[|old(log)|..] ==> Reaches(catalog, d, x)
      ensures r.Ok? ==> Good() && active == old(active) && forall x :: x in log ==> Named(x)
      ensures r.Ok? ==> forall ref :: ref in package.refs ==> Fits(catalog, ref)
      ensures r.Ok? ==> forall e :: Edge(catalog, d, e) ==> e in log
      ensures r.Err? ==> Trouble(catalog, d, old(active) - {identity}, r.error)
      decreases AllIds() - active, 2
    {
      for i := 0 to |package.refs|
        invariant Good() && active == old(active) && (forall x :: x in log ==> Named(x)) && old(log) <= log
        invariant forall x :: x in log[|old(log)|..] ==> Reaches(catalog, d, x)
        invariant forall ref :: ref in package.refs[..i] ==> Fits(catalog, ref)
        invariant forall ref :: ref in package.refs[..i] && Local(catalog, ref) ==> Partition(ref).value.0 in log
      {
        r := VisitRef(d, package.refs[i], identity);
        if r.Err? {
          return;
        }
      }
      r := Ok(());
    }

    method VisitRef(d: string, ref: string, identity: Identity) returns (r: Result<(), PublishError>)
      requires Good() && (forall x :: x in log ==> Named(x))
      requires Valid(catalog, d) && ref in catalog.packages[d].refs && identity == Id(catalog, d) && identity in active
      modifies this
      ensures Ordered(catalog, log) && old(log) <= log
      ensures forall x :: x in log[|old(log)|..] ==> Reaches(catalog, d, x)
      ensures r.Ok? ==> Good() && active == old(active) && forall x :: x in log ==> Named(x)
      ensures r.Ok? ==> Fits(catalog, ref) && (Local(catalog, ref) ==> Partition(ref).value.0 in log)
      ensures r.Err? ==> Trouble(catalog, d, old(active) - {identity}, r.error)
      decreases AllIds() - active, 1
    {
      var parts := Partition(ref);
      if parts == None {
        return Ok(());
      }
      var (name, version) := parts.value;
      if name !in catalog.packages {
        return Ok(());
      }
      assert Edge(catalog, d, name);
      if !Valid(catalog, name) {
        TroubleHere(catalog, name, active, Invalid);
        assert active == (active - {identity}) + {identity};
        TroubleBelow(catalog, d, name, active - {identity}, Invalid);
        return Err(Invalid);
      }
      var child := catalog.packages[name];
      if child.name != name || child.version != version {
        assert Mispinned(catalog, ref);
        TroubleHere(catalog, d, active - {identity}, Mismatch);
        return Err(Mismatch);
      }
      r := Visit(name);
      forall x | x in log[|old(log)|..] ensures Reaches(catalog, d, x) {
        ReachesBelow(catalog, d, name, x);
      }
      if r.Err? {
        assert old(active) == (old(active) - {identity}) + {identity};
        TroubleBelow(catalog, d, name, old(active) - {identity}, r.error);
      }
    }
  }

  /** A run on its own: it succeeds exactly when no walk from the package ends badly, and then publishes exactly
      the packages it reaches, the package itself last. Whatever happens, dependencies come first. */
  method PublishLocalAgentGraph(catalog: Catalog, d: string) returns (r: Result<(), PublishError>, log: seq<string>)
    ensures r.Ok? <==> forall error :: !Trouble(catalog, d, {}, error)
    ensures r.Err? ==> Trouble(catalog, d, {}, r.error)
    ensures Ordered(catalog, log) && PublishedRightly(catalog, log)
    ensures r.Err? ==> ErrorMeans(catalog, d, r.error)
    ensures forall x :: x in log ==> Reaches(catalog, d, x)
    ensures r.Ok? ==> log != [] && log[|log| - 1] == d && forall x :: Reaches(catalog, d, x) ==> x in log
  {
    var publisher := new Publisher(catalog);
    r := publisher.Visit(d);
    log := publisher.log;
    assert log[0..] == log;
    OrderedIsRight(catalog, log);
    if r.Err? { TroubleMeans(catalog, d, r.error); }
    if r.Ok? {
      PublishedHasNoTrouble(catalog, log, d);
      forall x | Reaches(catalog, d, x) ensures x in log {
        var p :| Path(catalog, p) && p[0] == d && p[|p| - 1] == x;
        WalkGoesBack(catalog, log, p, |log| - 1);
      }
    }
  }
}
