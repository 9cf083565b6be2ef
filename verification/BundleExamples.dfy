/** Concrete tools and directories: the round-trip theorem is about something, and each way to fail occurs. */
module BundleExamples {
  import opened Outcomes
  import opened PackageHash
  import opened PackagePaths
  import opened AgentBundle
  import opened BundleRoundTrip

  // -------------------------------------------------------- a faithful claim format

  function Ones(n: nat): Bytes {
    seq(n, _ => 1)
  }

  /** Numbers in unary, each ended by a zero. */
  function Unary(ns: seq<nat>): Bytes {
    if ns == [] then [] else Ones(ns[0]) + [0] + Unary(ns[1..])
  }

  function Numbers(b: Bytes, ones: nat): seq<nat> {
    if b == [] then []
    else if b[0] == 0 then [ones] + Numbers(b[1..], 0)
    else Numbers(b[1..], ones + 1)
  }

  lemma {:induction false} OneNumber(n: nat, rest: Bytes, ones: nat)
    ensures Numbers(Ones(n) + [0] + rest, ones) == [ones + n] + Numbers(rest, 0)
    decreases n
  {
    var b := Ones(n) + [0] + rest;
    if n == 0 {
      assert b[1..] == rest;
    } else {
      assert b[1..] == Ones(n - 1) + [0] + rest;
      OneNumber(n - 1, rest, ones + 1);
    }
  }

  lemma {:induction false} UnaryRoundTrip(ns: seq<nat>)
    ensures Numbers(Unary(ns), 0) == ns
  {
    if ns != [] {
      OneNumber(ns[0], Unary(ns[1..]), 0);
      UnaryRoundTrip(ns[1..]);
    }
  }

  function Character(n: nat): char {
    if n < 0xD800 || 0xE000 <= n < 0x11_0000 then n as char else ' '
  }

  /** What is read from the front of a list of numbers, and the rest of it. */
  type Reading<T> = Option<(T, seq<nat>)>

  function OfText(t: Option<string>): seq<nat> {
    match t
    case None => [0]
    case Some(s) => [1, |s|] + seq(|s|, i requires 0 <= i < |s| => s[i] as nat)
  }

  function ToText(ns: seq<nat>): Reading<Option<string>> {
    if ns == [] then None
    else if ns[0] == 0 then Some((None, ns[1..]))
    else if |ns| < 2 || |ns| - 2 < ns[1] then None
    else Some((Some(seq(ns[1], i requires 0 <= i < ns[1] => Character(ns[2 + i]))), ns[2 + ns[1]..]))
  }

  lemma TextRoundTrip(t: Option<string>, rest: seq<nat>)
    ensures ToText(OfText(t) + rest) == Some((t, rest))
  {
    var ns := OfText(t) + rest;
    if t == None {
      assert ns[1..] == rest;
    } else {
      assert forall i :: 0 <= i < |t.value| ==> ns[2 + i] == t.value[i] as nat;
      assert ToText(ns).value.0.value == t.value;
      assert ns[2 + |t.value|..] == rest;
    }
  }

  function OfInt(n: Option<int>): seq<nat> {
    match n
    case None => [0]
    case Some(k) => if k < 0 then [1, -k] else [2, k]
  }

  function ToInt(ns: seq<nat>): Reading<Option<int>> {
    if ns == [] then None
    else if ns[0] == 0 then Some((None, ns[1..]))
    else if |ns| < 2 then None
    else Some((Some(if ns[0] == 1 then 0 - ns[1] as int else ns[1] as int), ns[2..]))
  }

  lemma IntRoundTrip(n: Option<int>, rest: seq<nat>)
    ensures ToInt(OfInt(n) + rest) == Some((n, rest))
  {
    var ns := OfInt(n) + rest;
    assert ns[|OfInt(n)|..] == rest;
  }

  function OfFile(f: ClaimedFile): seq<nat> {
    match f
    case NotARecord => [0]
    case ClaimedFile(path, sha256, size) => [1] + (OfText(path) + (OfText(sha256) + OfInt(size)))
  }

  function ToFile(ns: seq<nat>): Reading<ClaimedFile> {
    if ns == [] then None
    else if ns[0] == 0 then Some((NotARecord, ns[1..]))
    else
      match ToText(ns[1..])
      case None => None
      case Some((path, ns)) =>
        match ToText(ns)
        case None => None
        case Some((sha256, ns)) =>
          match ToInt(ns)
          case None => None
          case Some((size, ns)) => Some((ClaimedFile(path, sha256, size), ns))
  }

  lemma FileRoundTrip(f: ClaimedFile, rest: seq<nat>)
    ensures ToFile(OfFile(f) + rest) == Some((f, rest))
  {
    if f.NotARecord? {
      assert (OfFile(f) + rest)[1..] == rest;
    } else {
      var tail := OfInt(f.size) + rest;
      var middle := OfText(f.sha256) + tail;
      assert (OfFile(f) + rest)[1..] == OfText(f.path) + middle;
      TextRoundTrip(f.path, middle);
      TextRoundTrip(f.sha256, tail);
      IntRoundTrip(f.size, rest);
    }
  }

  function OfFiles(fs: seq<ClaimedFile>): seq<nat> {
    if fs == [] then [] else OfFile(fs[0]) + OfFiles(fs[1..])
  }

  function ToFiles(ns: seq<nat>, count: nat): Reading<seq<ClaimedFile>>
    decreases count
  {
    if count == 0 then Some(([], ns))
    else
      match ToFile(ns)
      case None => None
      case Some((f, ns)) =>
        match ToFiles(ns, count - 1)
        case None => None
        case Some((fs, ns)) => Some(([f] + fs, ns))
  }

  lemma {:induction false} FilesRoundTrip(fs: seq<ClaimedFile>, rest: seq<nat>)
    ensures ToFiles(OfFiles(fs) + rest, |fs|) == Some((fs, rest))
  {
    if fs == [] {
      assert OfFiles(fs) + rest == rest;
    } else {
      assert OfFiles(fs) + rest == OfFile(fs[0]) + (OfFiles(fs[1..]) + rest);
      FileRoundTrip(fs[0], OfFiles(fs[1..]) + rest);
      FilesRoundTrip(fs[1..], rest);
      assert fs == [fs[0]] + fs[1..];
    }
  }

  function OfListing(files: Option<seq<ClaimedFile>>): seq<nat> {
    match files
    case None => [0]
    case Some(fs) => [1, |fs|] + OfFiles(fs)
  }

  function ToListing(ns: seq<nat>): Reading<Option<seq<ClaimedFile>>> {
    if ns == [] then None
    else if ns[0] == 0 || |ns| < 2 then Some((None, ns[1..]))
    else
      match ToFiles(ns[2..], ns[1])
      case None => None
      case Some((files, ns)) => Some((Some(files), ns))
  }

  lemma ListingRoundTrip(files: Option<seq<ClaimedFile>>)
    ensures ToListing(OfListing(files)) == Some((files, []))
  {
    if files.Some? {
      FilesRoundTrip(files.value, []);
      assert OfListing(files)[2..] == OfFiles(files.value) + [];
    } else {
      assert OfListing(files)[1..] == [];
    }
  }

  function OfClaim(c: Claim): seq<nat> {
    match c
    case NotAnObject => [0]
    case Claim(manifestHash, packageHash, files) =>
      [1] + (OfText(manifestHash) + (OfText(packageHash) + OfListing(files)))
  }

  function ToClaim(ns: seq<nat>): Option<Claim> {
    if ns == [] then None
    else if ns[0] == 0 then Some(NotAnObject)
    else
      match ToText(ns[1..])
      case None => None
      case Some((manifestHash, ns)) =>
        match ToText(ns)
        case None => None
        case Some((packageHash, ns)) =>
          match ToListing(ns)
          case None => None
          case Some((files, _)) => Some(Claim(manifestHash, packageHash, files))
  }

  lemma ClaimRoundTrip(c: Claim)
    ensures ToClaim(OfClaim(c)) == Some(c)
  {
    if c.Claim? {
      var end := OfListing(c.files);
      assert OfClaim(c)[1..] == OfText(c.manifestHash) + (OfText(c.packageHash) + end);
      TextRoundTrip(c.manifestHash, OfText(c.packageHash) + end);
      TextRoundTrip(c.packageHash, end);
      ListingRoundTrip(c.files);
    }
  }

  /** A constant hash will do here: the round trip needs only its form. */
  function ZeroDigest(): (s: string)
    ensures HexDigest(s)
  {
    seq(64, _ => '0')
  }

  function ExampleTools(): Tools {
    Tools(_ => ZeroDigest(), c => Unary(OfClaim(c)), b => ToClaim(Numbers(b, 0)))
  }

  lemma ExampleToolsAreReliable()
    ensures Reliable(ExampleTools())
  {
    forall c ensures ExampleTools().read(ExampleTools().write(c)) == Some(c) {
      UnaryRoundTrip(OfClaim(c));
      ClaimRoundTrip(c);
    }
  }

  // ------------------------------------------------------------ packable directories

  function AcceptAll(): Scan {
    Scan(_ => false, _ => false, (_, _) => true)
  }

  /** Empty files directly in the directory. */
  function FlatTree(names: set<string>): Tree {
    map p | p in names :: Regular([])
  }

  predicate FileName(p: string) {
    && Clean(p) && p != ".." && |p| <= MAX_PART_CHARS && '\0' !in p
    && p != PROVENANCE && p != ".DS_Store" && p !in EXCLUDED_PARTS
  }

  lemma FlatFileIsFine(names: set<string>, p: string)
    requires p in names && FileName(p)
    ensures Normal(p) && Included(FlatTree(names), p) && NodeFault(AcceptAll(), p, FlatTree(names)[p]) == None
    ensures forall d :: !Under(d, p)
  {
    OneComponent(p);
    forall d ensures !Under(d, p) { UnderHasSeparator(d, p); }
  }

  lemma {:induction false} EmptyFilesTotalNothing(files: Files, names: seq<string>)
    requires AllInFiles(files, names) && forall p :: p in files ==> files[p] == []
    ensures Total(files, names) == 0
  {
    if names != [] { EmptyFilesTotalNothing(files, names[..|names| - 1]); }
  }

  lemma FlatTreeIsPackable(names: set<string>)
    requires |names| < MAX_FILES && forall p :: p in names ==> FileName(p)
    ensures RealTree(FlatTree(names)) && Packable(FlatTree(names), AcceptAll())
    ensures Contents(FlatTree(names)).Keys == names
  {
    var tree := FlatTree(names);
    forall p | p in names
      ensures Normal(p) && Included(tree, p) && Faultless(tree, AcceptAll(), p) && forall d :: !Under(d, p)
    {
      FlatFileIsFine(names, p);
    }
    assert Contents(tree).Keys == names;
    ListingLists(names);
    EmptyFilesTotalNothing(Contents(tree), Listing(names));
  }

  /** What packing such a directory writes is refused when a name holds a backslash or the manifest has another name. */
  lemma FlatTreeIsRefused(names: set<string>, size: nat)
    requires |names| < MAX_FILES && forall p :: p in names ==> FileName(p)
    requires MANIFEST_NAME !in names || exists p :: p in names && '\\' in p
    ensures RealTree(FlatTree(names)) && Packable(FlatTree(names), AcceptAll()) && Bounded(Contents(FlatTree(names)))
    ensures !Accepted(Packed(Contents(FlatTree(names)), ExampleTools(), ZeroDigest(), size), ExampleTools())
  {
    FlatTreeIsPackable(names);
    ExampleToolsAreReliable();
    PackedTreeIsAcceptedIff(FlatTree(names), AcceptAll(), ExampleTools(), ZeroDigest(), size);
    if p :| p in names && '\\' in p { assert p in Contents(FlatTree(names)); }
  }

  lemma BackslashIsRefused(size: nat)
    ensures var tree := FlatTree({MANIFEST_NAME, "a\\b"});
            && RealTree(tree) && Packable(tree, AcceptAll()) && Bounded(Contents(tree))
            && !Accepted(Packed(Contents(tree), ExampleTools(), ZeroDigest(), size), ExampleTools())
  {
    var names := {MANIFEST_NAME, "a\\b"};
    assert "a\\b"[1] == '\\' && "a\\b"[1] in "a\\b" && "a\\b" in names;
    FlatTreeIsRefused(names, size);
  }

  lemma OtherManifestIsRefused(size: nat)
    ensures var tree := FlatTree({"custom.yaml"});
            && RealTree(tree) && Packable(tree, AcceptAll()) && Bounded(Contents(tree))
            && !Accepted(Packed(Contents(tree), ExampleTools(), ZeroDigest(), size), ExampleTools())
  {
    var names := {"custom.yaml"};
    assert MANIFEST_NAME[0] == 'a' && "custom.yaml"[0] == 'c';
    FlatTreeIsRefused(names, size);
  }
}
