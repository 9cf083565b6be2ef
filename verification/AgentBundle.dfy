/** Packing an agent directory into a bundle, and checking and unpacking bundles. */
module AgentBundle {
  import opened Outcomes
  import opened PackageHash
  import opened PackagePaths

  const MAX_FILE_BYTES: nat := 64 * 1024 * 1024
  const MAX_TOTAL_BYTES: nat := 256 * 1024 * 1024
  const MAX_FILES: nat := 20_000

  const PROVENANCE := "bundle.json"
  const MANIFEST_NAME := "agent.yaml"
  const EXCLUDED_PARTS := {"__pycache__", ".pytest_cache", ".mypy_cache", ".ruff_cache", ".venv"}

  /** Contents by path. */
  type Files = map<string, Bytes>

  // --------------------------------------------------------------- what is packed

  datatype Node = Regular(content: Bytes) | Directory | Link

  type Tree = map<string, Node>

  /** Every ancestor of a path is a directory. */
  ghost predicate RealTree(tree: Tree) {
    && (forall p :: p in tree ==> Normal(p) && '\0' !in p)
    && (forall d, p :: p in tree && Under(d, p) ==> d in tree && tree[d].Directory?)
  }

  /** The pattern checks on names and contents. */
  datatype Scan = Scan(secretName: string -> bool, secretContent: Bytes -> bool, readable: (string, Bytes) -> bool)

  datatype PackError =
    | PathTooLong | Reserved | Linked | SecretName | FileTooLarge | TotalTooLarge | NotText | SecretContent | TooMany

  predicate Excluded(p: string) {
    exists part :: part in Parts(p) && part in EXCLUDED_PARTS
  }

  predicate Skipped(p: string, node: Node) {
    !node.Regular? || (Parts(p) != [] && Parts(p)[|Parts(p)| - 1] == ".DS_Store")
  }

  function NodeFault(scan: Scan, p: string, node: Node): Option<PackError> {
    if TooLong(p) then Some(PathTooLong)
    else if p == PROVENANCE then Some(Reserved)
    else if node.Link? then Some(Linked)
    else if Skipped(p, node) then None
    else if scan.secretName(p) then Some(SecretName)
    else if |node.content| > MAX_FILE_BYTES then Some(FileTooLarge)
    else if !scan.readable(p, node.content) then Some(NotText)
    else if scan.secretContent(node.content) then Some(SecretContent)
    else None
  }

  predicate Included(tree: Tree, p: string) {
    p in tree && !Excluded(p) && !Skipped(p, tree[p])
  }

  function Contents(tree: Tree): Files {
    map p | p in tree && Included(tree, p) :: tree[p].content
  }

  function Total(files: Files, names: seq<string>): nat
    requires forall p :: p in names ==> p in files
  {
    if names == [] then 0 else Total(files, names[..|names| - 1]) + |files[names[|names| - 1]]|
  }

  ghost predicate Packable(tree: Tree, scan: Scan)
    requires RealTree(tree)
  {
    && (forall p :: p in tree ==> Faultless(tree, scan, p))
    && AllInFiles(Contents(tree), Listing(Contents(tree).Keys))
    && WithinLimits(tree, Listing(Contents(tree).Keys))
  }

  predicate AllInFiles(files: Files, names: seq<string>) {
    forall p :: p in names ==> p in files
  }

  function Chosen(tree: Tree, paths: seq<string>): (chosen: seq<string>)
    ensures AllInFiles(Contents(tree), chosen)
  {
    if paths == [] then []
    else
      var front := Chosen(tree, paths[..|paths| - 1]);
      if Included(tree, paths[|paths| - 1]) then front + [paths[|paths| - 1]] else front
  }

  lemma {:induction false} ChosenIsSorted(tree: Tree, paths: seq<string>)
    requires Sorted(paths)
    ensures Sorted(Chosen(tree, paths))
    ensures forall p :: p in Chosen(tree, paths) <==> p in paths && Included(tree, p)
  {
    if paths != [] {
      var front := paths[..|paths| - 1];
      ChosenIsSorted(tree, front);
      assert paths == front + [paths[|paths| - 1]];
      forall i | 0 <= i < |Chosen(tree, front)|
        ensures PathLeq(Chosen(tree, front)[i], paths[|paths| - 1]) && Chosen(tree, front)[i] != paths[|paths| - 1]
      {
        assert Chosen(tree, front)[i] in front;
      }
    }
  }

  lemma ChosenIsListing(tree: Tree, paths: seq<string>)
    requires RealTree(tree) && paths == Listing(tree.Keys)
    ensures Chosen(tree, paths) == Listing(Contents(tree).Keys)
    ensures |Chosen(tree, paths)| == |Contents(tree)|
    ensures forall p :: p in paths <==> p in tree
  {
    ListingIsSorted(tree.Keys);
    ChosenIsSorted(tree, paths);
    SortedIsListing(Chosen(tree, paths), Contents(tree).Keys);
    ListingIsSorted(Contents(tree).Keys);
  }

  lemma {:induction false} ChosenGrows(tree: Tree, paths: seq<string>, i: nat)
    requires i <= |paths|
    ensures Chosen(tree, paths[..i]) <= Chosen(tree, paths)
    decreases |paths| - i
  {
    if i < |paths| {
      assert paths[..i + 1][..i] == paths[..i];
      ChosenGrows(tree, paths, i + 1);
    } else {
      assert paths[..i] == paths;
    }
  }

  /** One more file adds its size, and what is chosen so far is never more than what is chosen in the end. */
  lemma ChosenNext(tree: Tree, paths: seq<string>, i: nat)
    requires i < |paths|
    ensures var chosen, all := Chosen(tree, paths[..i]), Chosen(tree, paths);
            var next := Chosen(tree, paths[..i + 1]);
            && next == (if Included(tree, paths[i]) then chosen + [paths[i]] else chosen)
            && (Included(tree, paths[i]) ==>
                  Total(Contents(tree), next) == Total(Contents(tree), chosen) + |tree[paths[i]].content|)
            && Total(Contents(tree), next) <= Total(Contents(tree), all) && |next| <= |all|
  {
    assert paths[..i + 1][..i] == paths[..i];
    ChosenGrows(tree, paths, i + 1);
    TotalGrows(Contents(tree), Chosen(tree, paths[..i + 1]), Chosen(tree, paths));
    if Included(tree, paths[i]) {
      assert Chosen(tree, paths[..i + 1])[..|Chosen(tree, paths[..i])|] == Chosen(tree, paths[..i]);
    }
  }

  lemma {:induction false} TotalGrows(files: Files, a: seq<string>, b: seq<string>)
    requires a <= b && AllInFiles(files, b)
    ensures Total(files, a) <= Total(files, b)
    decreases |b|
  {
    if a != b { TotalGrows(files, a, b[..|b| - 1]); } else { assert a == b; }
  }

  predicate Faultless(tree: Tree, scan: Scan, p: string) {
    p in tree ==> Excluded(p) || NodeFault(scan, p, tree[p]) == None
  }

  /** One turn of the scan: skip the path, or add its size to the total. */
  method ScanPath(tree: Tree, scan: Scan, p: string, total: nat) returns (r: Result<Option<nat>, PackError>)
    requires p in tree
    ensures r == Ok(None) <==> Faultless(tree, scan, p) && !Included(tree, p)
    ensures r.Ok? && r.value.Some? <==>
              Faultless(tree, scan, p) && Included(tree, p) && total + |tree[p].content| <= MAX_TOTAL_BYTES
    ensures r.Ok? && r.value.Some? ==> r.value.value == total + |tree[p].content|
    ensures r.Err? && r.error != TotalTooLarge ==> !Excluded(p) && NodeFault(scan, p, tree[p]) == Some(r.error)
    ensures r.Err? ==> r.error != TooMany
    ensures r == Err(TotalTooLarge) ==> Included(tree, p) && total + |tree[p].content| > MAX_TOTAL_BYTES
  {
    if Excluded(p) {
      return Ok(None);
    }
    var fault := NodeFault(scan, p, tree[p]);
    if Skipped(p, tree[p]) {
      return if fault.Some? then Err(fault.value) else Ok(None);
    }
    if fault.Some? && fault.value !in {NotText, SecretContent} {
      return Err(fault.value);
    }
    if total + |tree[p].content| > MAX_TOTAL_BYTES {
      return Err(TotalTooLarge);
    }
    r := if fault.Some? then Err(fault.value) else Ok(Some(total + |tree[p].content|));
  }

  ghost predicate AllFaultless(tree: Tree, scan: Scan, paths: seq<string>) {
    forall p :: p in paths ==> Faultless(tree, scan, p)
  }

  predicate WithinLimits(tree: Tree, chosen: seq<string>)
    requires AllInFiles(Contents(tree), chosen)
  {
    Total(Contents(tree), chosen) <= MAX_TOTAL_BYTES && |chosen| < MAX_FILES
  }

  /** The error is the fault of one of the scanned paths. */
  predicate Explains(tree: Tree, scan: Scan, paths: seq<string>, error: PackError) {
    error in {TotalTooLarge, TooMany}
    || exists p :: p in paths && p in tree && !Excluded(p) && NodeFault(scan, p, tree[p]) == Some(error)
  }

  method ScanPaths(tree: Tree, scan: Scan, paths: seq<string>) returns (r: Result<seq<string>, PackError>)
    requires forall p :: p in paths ==> p in tree
    ensures r.Ok? <==> AllFaultless(tree, scan, paths) && WithinLimits(tree, Chosen(tree, paths))
    ensures r.Ok? ==> r.value == Chosen(tree, paths)
    ensures r.Err? ==> Explains(tree, scan, paths, r.error)
  {
    var files: seq<string>, total: nat := [], 0;
    for i := 0 to |paths|
      invariant files == Chosen(tree, paths[..i]) && WithinLimits(tree, files)
      invariant total == Total(Contents(tree), files)
      invariant AllFaultless(tree, scan, paths[..i])
    {
      var p := paths[i];
      assert p in paths && paths[..i + 1] == paths[..i] + [p];
      ChosenNext(tree, paths, i);
      var step := ScanPath(tree, scan, p, total);
      if step.Err? {
        return Err(step.error);
      }
      if step.value.Some? {
        files, total := files + [p], step.value.value;
        if |files| >= MAX_FILES {
          return Err(TooMany);
        }
      }
    }
    assert paths[..|paths|] == paths;
    r := Ok(files);
  }

  /** What goes into a package: the regular files outside the caches and environments, save Finder's. */
  predicate Goes(tree: Tree, p: string) {
    && p in tree && tree[p].Regular?
    && (forall part :: part in Parts(p) ==>
          part != "__pycache__" && part != ".pytest_cache" && part != ".mypy_cache" && part != ".ruff_cache"
          && part != ".venv")
    && (Parts(p) == [] || Parts(p)[|Parts(p)| - 1] != ".DS_Store")
  }

  lemma IncludedIffGoes(tree: Tree, p: string)
    ensures Included(tree, p) <==> Goes(tree, p)
  {
    assert Excluded(p) <==> exists part :: part in Parts(p) && part in EXCLUDED_PARTS;
  }

  predicate FitFile(scan: Scan, p: string, content: Bytes) {
    && !TooLong(p) && p != "bundle.json" && !scan.secretName(p) && !scan.secretContent(content)
    && scan.readable(p, content) && |content| <= 64 * 1024 * 1024
  }

  /** What is accepted into a package: no path too long, no link, no file in the place of the provenance; no secret by
      name or content, nothing unreadable, nothing over a limit. */
  ghost predicate FitToPack(tree: Tree, scan: Scan, files: Files) {
    && (forall p :: p in files <==> Goes(tree, p)) && (forall p :: p in files ==> files[p] == tree[p].content)
    && (forall p :: p in files ==> FitFile(scan, p, files[p]))
    && (forall p :: p in tree && tree[p].Link? ==> Excluded(p))
    && |files| < 20_000
  }

  lemma FaultlessIsFit(tree: Tree, scan: Scan, p: string)
    requires p in tree && Faultless(tree, scan, p)
    ensures tree[p].Link? ==> Excluded(p)
    ensures Included(tree, p) ==> FitFile(scan, p, tree[p].content)
  {
  }

  lemma PackableIsFit(tree: Tree, scan: Scan)
    requires RealTree(tree) && Packable(tree, scan)
    ensures FitToPack(tree, scan, Contents(tree))
  {
    forall p ensures p in Contents(tree) <==> Goes(tree, p) { IncludedIffGoes(tree, p); }
    forall p | p in tree
      ensures Faultless(tree, scan, p) && (tree[p].Link? ==> Excluded(p))
    {
      FaultlessIsFit(tree, scan, p);
    }
    forall p | p in Contents(tree) ensures FitFile(scan, p, Contents(tree)[p]) { FaultlessIsFit(tree, scan, p); }
    ChosenIsListing(tree, Listing(tree.Keys));
  }

  /** The files of a directory that go into a package, in listing order. */
  method PackageFiles(tree: Tree, scan: Scan) returns (r: Result<seq<string>, PackError>)
    requires RealTree(tree)
    ensures r.Ok? <==> Packable(tree, scan)
    ensures r.Ok? ==> r.value == Listing(Contents(tree).Keys) && FitToPack(tree, scan, Contents(tree))
    ensures r.Err? ==> Explains(tree, scan, Listing(tree.Keys), r.error)
  {
    var paths := SortPaths(tree.Keys);
    ChosenIsListing(tree, paths);
    r := ScanPaths(tree, scan, paths);
    if r.Ok? { PackableIsFit(tree, scan); }
  }

  // ---------------------------------------------------------------- package hash

  /** SHA-256 as 64 hexadecimal digits, and the JSON writer and reader. */
  datatype Tools = Tools(sha256: Bytes -> string, write: Claim -> Bytes, read: Bytes -> Option<Claim>)

  /** What a provenance file says; a field of the wrong type reads as missing. */
  datatype Claim =
    | NotAnObject
    | Claim(manifestHash: Option<string>, packageHash: Option<string>, files: Option<seq<ClaimedFile>>)

  datatype ClaimedFile =
    | NotARecord
    | ClaimedFile(path: Option<string>, sha256: Option<string>, size: Option<int>)

  predicate HexDigest(s: string) {
    |s| == 64 && forall c :: c in s ==> '0' <= c <= '9' || 'a' <= c <= 'f'
  }

  ghost predicate Reliable(tools: Tools) {
    && (forall b :: HexDigest(tools.sha256(b)))
    && (forall c :: tools.read(tools.write(c)) == Some(c))
  }

  /** Small enough for the length prefixes. */
  ghost predicate Bounded(files: Files) {
    forall p :: p in files ==> |p| <= MAX_PATH_CHARS && |files[p]| <= MAX_FILE_BYTES
  }

  function Entry(files: Files, p: string): File
    requires p in files
  {
    File(Utf8(p), files[p])
  }

  lemma BoundedIsEncodable(files: Files, p: string)
    requires Bounded(files) && p in files
    ensures Encodable(Entry(files, p))
  {
    assert Pow256(4) == 256 * (256 * (256 * (256 * Pow256(0))));
    assert Pow256(8) == 256 * (256 * (256 * (256 * Pow256(4))));
  }

  function Entries(files: Files, names: seq<string>): seq<File>
    requires AllInFiles(files, names)
  {
    seq(|names|, k requires 0 <= k < |names| => Entry(files, names[k]))
  }

  lemma EntriesAreEncodable(files: Files, names: seq<string>)
    requires Bounded(files) && AllInFiles(files, names)
    ensures forall f :: f in Entries(files, names) ==> Encodable(f)
  {
    forall k | 0 <= k < |names| ensures Encodable(Entries(files, names)[k]) {
      BoundedIsEncodable(files, names[k]);
    }
  }

  ghost function Encoded(files: Files, names: seq<string>): Bytes
    requires Bounded(files) && AllInFiles(files, names)
  {
    EntriesAreEncodable(files, names);
    Encode(Entries(files, names))
  }

  /** The bytes the package hash is taken over. */
  ghost function HashInput(files: Files): Bytes
    requires Bounded(files)
  {
    ListingLists(files.Keys);
    Encoded(files, Listing(files.Keys))
  }

  lemma EncodedNext(files: Files, names: seq<string>, i: nat)
    requires Bounded(files) && AllInFiles(files, names) && i < |names|
    ensures Encodable(Entry(files, names[i]))
    ensures Encoded(files, names[i..]) == Record(Entry(files, names[i])) + Encoded(files, names[i + 1..])
  {
    BoundedIsEncodable(files, names[i]);
    EntriesAreEncodable(files, names[i..]);
    var here := Entries(files, names[i..]);
    assert here[0] == Entry(files, names[i]) && here[1..] == Entries(files, names[i + 1..]);
  }

  method HashPackage(files: Files, tools: Tools) returns (digest: string)
    requires Bounded(files) && AllNormal(files.Keys)
    ensures digest == tools.sha256(HashInput(files))
  {
    var names := SortPaths(files.Keys);
    ListingLists(files.Keys);
    var fed := Feed(files, names);
    digest := tools.sha256(fed);
  }

  /** The loop that feeds the files to the hash. */
  method Feed(files: Files, names: seq<string>) returns (fed: Bytes)
    requires Bounded(files) && AllInFiles(files, names)
    ensures fed == Encoded(files, names)
  {
    fed := [];
    assert names[0..] == names;
    for i := 0 to |names|
      invariant fed + Encoded(files, names[i..]) == Encoded(files, names)
    {
      var path, content := Utf8(names[i]), files[names[i]];
      EncodedNext(files, names, i);
      Regroup(fed, Record(Entry(files, names[i])), Encoded(files, names[i + 1..]));
      fed := fed + (BigEndian(|path|, 4) + path + (BigEndian(|content|, 8) + content));
    }
    assert fed + [] == fed;
  }

  lemma SameBytesSameEntries(a: Files, m: seq<string>, b: Files, n: seq<string>)
    requires Bounded(a) && Bounded(b) && AllInFiles(a, m) && AllInFiles(b, n) && Encoded(a, m) == Encoded(b, n)
    ensures Entries(a, m) == Entries(b, n)
  {
    EntriesAreEncodable(a, m);
    EntriesAreEncodable(b, n);
    DecodeInvertsEncode(Entries(a, m));
    DecodeInvertsEncode(Entries(b, n));
  }

  /** Two packages whose hashes are taken over the same bytes are the same package. */
  lemma HashInputDeterminesFiles(a: Files, b: Files)
    requires Bounded(a) && Bounded(b) && HashInput(a) == HashInput(b)
    ensures a == b
  {
    ListingLists(a.Keys);
    ListingLists(b.Keys);
    ListedBytesDetermineFiles(a, Listing(a.Keys), b, Listing(b.Keys));
  }

  lemma ListedBytesDetermineFiles(a: Files, m: seq<string>, b: Files, n: seq<string>)
    requires Bounded(a) && Bounded(b) && AllInFiles(a, m) && AllInFiles(b, n) && Encoded(a, m) == Encoded(b, n)
    requires (forall p :: p in a ==> p in m) && (forall p :: p in b ==> p in n)
    ensures a == b
  {
    SameBytesSameEntries(a, m, b, n);
    SameEntries(a, m, b, n);
    SameEntries(b, n, a, m);
  }

  lemma SameEntries(a: Files, m: seq<string>, b: Files, n: seq<string>)
    requires AllInFiles(a, m) && AllInFiles(b, n) && Entries(a, m) == Entries(b, n)
    requires forall p :: p in a ==> p in m
    ensures forall p :: p in a ==> p in b && a[p] == b[p]
  {
    assert |m| == |Entries(a, m)| && |n| == |Entries(b, n)|;
    forall p | p in a ensures p in b && a[p] == b[p] {
      var k :| 0 <= k < |m| && m[k] == p;
      assert Entries(a, m)[k] == Entries(b, n)[k];
      Utf8IsInjective(m[k], n[k]);
      assert n[k] in n;
    }
  }

  // -------------------------------------------------------------------- bundles

  datatype ZipEntry = ZipEntry(name: string, link: bool, declared: nat, data: Bytes)

  /** An archive of a given size and its entries. */
  datatype Bundle = Bundle(size: nat, entries: seq<ZipEntry>)

  function Claimed(files: Files, names: seq<string>, tools: Tools): seq<ClaimedFile>
    requires AllInFiles(files, names)
  {
    seq(|names|, k requires 0 <= k < |names| =>
      ClaimedFile(Some(names[k]), Some(tools.sha256(files[names[k]])), Some(|files[names[k]]|)))
  }

  function PackedEntries(files: Files, names: seq<string>): seq<ZipEntry>
    requires AllInFiles(files, names)
  {
    if names == [] then []
    else
      var p := names[|names| - 1];
      PackedEntries(files, names[..|names| - 1]) + [ZipEntry(p, false, |files[p]|, files[p])]
  }

  /** The provenance written for a package. */
  ghost function ProvenanceOf(files: Files, tools: Tools, manifestHash: string): Bytes
    requires Bounded(files)
  {
    ListingLists(files.Keys);
    tools.write(Claim(Some(manifestHash), Some(tools.sha256(HashInput(files))),
                      Some(Claimed(files, Listing(files.Keys), tools))))
  }

  ghost function Packed(files: Files, tools: Tools, manifestHash: string, size: nat): Bundle
    requires Bounded(files)
  {
    ListingLists(files.Keys);
    var provenance := ProvenanceOf(files, tools, manifestHash);
    Bundle(size, PackedEntries(files, Listing(files.Keys)) + [ZipEntry(PROVENANCE, false, |provenance|, provenance)])
  }

  lemma PackableIsBounded(tree: Tree, scan: Scan)
    requires RealTree(tree) && Packable(tree, scan)
    ensures Bounded(Contents(tree)) && AllNormal(Contents(tree).Keys)
  {
    forall p | p in Contents(tree) ensures |p| <= MAX_PATH_CHARS { }
    forall p | p in Contents(tree) ensures |Contents(tree)[p]| <= MAX_FILE_BYTES { }
  }

  method PackAgentPackage(tree: Tree, scan: Scan, tools: Tools, manifestHash: string, size: nat)
    returns (r: Result<Bundle, PackError>)
    requires RealTree(tree)
    ensures r.Ok? <==> Packable(tree, scan)
    ensures r.Ok? ==> Bounded(Contents(tree)) && r.value == Packed(Contents(tree), tools, manifestHash, size)
  {
    var names := PackageFiles(tree, scan);
    if names.Err? {
      return Err(names.error);
    }
    PackableIsBounded(tree, scan);
    var files := Contents(tree);
    var digest := HashPackage(files, tools);
    var provenance := tools.write(Claim(Some(manifestHash), Some(digest), Some(Claimed(files, names.value, tools))));
    var entries := PackedEntries(files, names.value) + [ZipEntry(PROVENANCE, false, |provenance|, provenance)];
    r := Ok(Bundle(size, entries));
  }

  // ------------------------------------------------------------------ extraction

  datatype BundleError =
    | TooBig | TooManyEntries | UnsafePath | LongPath | DuplicatePath | LinkEntry | BigFile | BigTotal
    | WrongSize | Clash | MissingRoot | BadProvenance | WrongInventory | WrongHash

  predicate IsDirectory(e: ZipEntry) {
    e.name != "" && e.name[|e.name| - 1] == '/'
  }

  /** The files below the extraction root after the entries. */
  function Disk(entries: seq<ZipEntry>): Files {
    if entries == [] then map[]
    else
      var e, front := entries[|entries| - 1], Disk(entries[..|entries| - 1]);
      if IsDirectory(e) then front else front[Normalized(e.name) := e.data]
  }

  function Declared(entries: seq<ZipEntry>): nat {
    if entries == [] then 0
    else
      var e, front := entries[|entries| - 1], Declared(entries[..|entries| - 1]);
      if IsDirectory(e) then front else front + e.declared
  }

  /** A file cannot be written below another file, nor in place of a directory. */
  predicate Collides(disk: Files, p: string) {
    exists q :: q in disk && (Under(p, q) || Under(q, p))
  }

  /** What is wrong with an entry, given the entries before it. */
  function Fault(prior: seq<ZipEntry>, e: ZipEntry): Option<BundleError> {
    if '\\' in e.name || '\0' in e.name || !StaysInside(e.name) then Some(UnsafePath)
    else if TooLong(Normalized(e.name)) then Some(LongPath)
    else if exists f :: f in prior && Normalized(f.name) == Normalized(e.name) then Some(DuplicatePath)
    else if e.link then Some(LinkEntry)
    else if IsDirectory(e) then None
    else if e.declared > MAX_FILE_BYTES then Some(BigFile)
    else if Declared(prior) + e.declared > MAX_TOTAL_BYTES then Some(BigTotal)
    else if |e.data| != e.declared then Some(WrongSize)
    else if Collides(Disk(prior), Normalized(e.name)) then Some(Clash)
    else None
  }

  function FirstFault(entries: seq<ZipEntry>): Option<BundleError> {
    if entries == [] then None
    else
      var front := entries[..|entries| - 1];
      if FirstFault(front).Some? then FirstFault(front) else Fault(front, entries[|entries| - 1])
  }

  lemma {:induction false} FaultsStay(entries: seq<ZipEntry>, i: nat)
    requires i < |entries|
    ensures FirstFault(entries[..i]).Some? ==> FirstFault(entries) == FirstFault(entries[..i])
    ensures FirstFault(entries[..i]) == None && Fault(entries[..i], entries[i]).Some? ==>
              FirstFault(entries) == Fault(entries[..i], entries[i])
    decreases |entries|
  {
    var front := entries[..|entries| - 1];
    if i < |front| {
      FaultsStay(front, i);
      assert front[..i] == entries[..i];
    }
  }

  lemma Next(entries: seq<ZipEntry>, i: nat)
    requires i < |entries|
    ensures var (prior, e, next) := (entries[..i], entries[i], entries[..i + 1]);
            && Names(next) == Names(prior) + {Normalized(e.name)}
            && Disk(next) == (if IsDirectory(e) then Disk(prior) else Disk(prior)[Normalized(e.name) := e.data])
            && Declared(next) == (if IsDirectory(e) then Declared(prior) else Declared(prior) + e.declared)
            && FirstFault(next) == (if FirstFault(prior).Some? then FirstFault(prior) else Fault(prior, e))
  {
    var prior, e, next := entries[..i], entries[i], entries[..i + 1];
    assert next[..i] == prior && next[i] == e && next == prior + [e];
  }

  /** Write the files of an archive, checking each entry before it is written. */
  method Unpack(entries: seq<ZipEntry>) returns (r: Result<Files, BundleError>)
    ensures r.Ok? ==> FirstFault(entries) == None && r.value == Disk(entries)
    ensures r.Err? ==> FirstFault(entries) == Some(r.error)
  {
    var total: nat := 0;
    var seen: set<string>, disk: Files := {}, map[];
    for i := 0 to |entries|
      invariant FirstFault(entries[..i]) == None
      invariant seen == Names(entries[..i])
      invariant total == Declared(entries[..i]) && disk == Disk(entries[..i])
    {
      var e := entries[i];
      Next(entries, i);
      FaultsStay(entries, i);
      var fault := CheckEntry(seen, total, disk, e, entries[..i]);
      if fault.Some? {
        return Err(fault.value);
      }
      var name := Normalized(e.name);
      seen := seen + {name};
      if !IsDirectory(e) {
        total := total + e.declared;
        disk := disk[name := e.data];
      }
    }
    assert entries[..|entries|] == entries;
    r := Ok(disk);
  }

  function Names(entries: seq<ZipEntry>): set<string> {
    set e | e in entries :: Normalized(e.name)
  }

  method CheckEntry(seen: set<string>, total: nat, disk: Files, e: ZipEntry, ghost prior: seq<ZipEntry>)
    returns (fault: Option<BundleError>)
    requires seen == Names(prior) && total == Declared(prior) && disk == Disk(prior)
    ensures fault == Fault(prior, e)
  {
    var name := Normalized(e.name);
    fault :=
      if '\\' in e.name || '\0' in e.name || !StaysInside(e.name) then Some(UnsafePath)
      else if TooLong(name) then Some(LongPath)
      else if name in seen then Some(DuplicatePath)
      else if e.link then Some(LinkEntry)
      else if IsDirectory(e) then None
      else if e.declared > MAX_FILE_BYTES then Some(BigFile)
      else if total + e.declared > MAX_TOTAL_BYTES then Some(BigTotal)
      else if |e.data| != e.declared then Some(WrongSize)
      else if Collides(disk, name) then Some(Clash)
      else None;
  }

  // ------------------------------------------------------- what unpacking accepts

  predicate GoodEntry(e: ZipEntry) {
    && '\\' !in e.name && '\0' !in e.name && StaysInside(e.name) && !TooLong(Normalized(e.name)) && !e.link
    && (IsDirectory(e) || (e.declared == |e.data| && e.declared <= MAX_FILE_BYTES))
  }

  ghost predicate DistinctNames(entries: seq<ZipEntry>) {
    forall i, j :: 0 <= i < j < |entries| ==> Normalized(entries[i].name) != Normalized(entries[j].name)
  }

  /** No file lies below another. */
  ghost predicate Apart(files: Files) {
    forall p, q :: p in files && q in files ==> !Under(p, q)
  }

  ghost predicate Holds(disk: Files, entries: seq<ZipEntry>) {
    && (forall e :: e in entries && !IsDirectory(e) ==>
          Normalized(e.name) in disk && disk[Normalized(e.name)] == e.data)
    && (forall p :: p in disk ==> exists e :: e in entries && !IsDirectory(e) && Normalized(e.name) == p)
  }

  lemma {:induction false} DiskNames(entries: seq<ZipEntry>)
    ensures Disk(entries).Keys <= Names(entries)
  {
    if entries != [] {
      DiskNames(entries[..|entries| - 1]);
      assert forall e :: e in entries[..|entries| - 1] ==> e in entries;
    }
  }

  lemma DistinctNext(front: seq<ZipEntry>, e: ZipEntry)
    ensures DistinctNames(front + [e]) <==> DistinctNames(front) && Normalized(e.name) !in Names(front)
  {
    var all := front + [e];
    if DistinctNames(all) {
      forall i | 0 <= i < |front| ensures Normalized(front[i].name) != Normalized(e.name) {
        assert all[i] == front[i] && all[|front|] == e;
      }
      forall i, j | 0 <= i < j < |front| ensures Normalized(front[i].name) != Normalized(front[j].name) {
        assert all[i] == front[i] && all[j] == front[j];
      }
    }
  }

  lemma ApartNext(disk: Files, p: string, data: Bytes)
    requires p !in disk
    ensures Apart(disk[p := data]) <==> Apart(disk) && !Collides(disk, p)
  {
    var next := disk[p := data];
    assert !Under(p, p);
    if Apart(next) {
      forall q, r | q in disk && r in disk ensures !Under(q, r) { assert q in next && r in next; }
      forall q | q in disk ensures !Under(p, q) && !Under(q, p) { assert q in next && p in next; }
    }
  }

  ghost predicate AllGood(entries: seq<ZipEntry>) {
    forall e :: e in entries ==> GoodEntry(e)
  }

  predicate FitsAfter(prior: seq<ZipEntry>, e: ZipEntry) {
    IsDirectory(e)
    || (Declared(prior) + e.declared <= MAX_TOTAL_BYTES && !Collides(Disk(prior), Normalized(e.name)))
  }

  lemma NoFaultIff(prior: seq<ZipEntry>, e: ZipEntry)
    ensures Fault(prior, e) == None <==> GoodEntry(e) && Normalized(e.name) !in Names(prior) && FitsAfter(prior, e)
  {
  }

  /** The entries are good, have distinct names, fit the total, and no file lies below another. */
  ghost predicate Acceptable(entries: seq<ZipEntry>) {
    AllGood(entries) && DistinctNames(entries) && Declared(entries) <= MAX_TOTAL_BYTES && Apart(Disk(entries))
  }

  lemma AcceptableNext(entries: seq<ZipEntry>, i: nat)
    requires i < |entries|
    ensures Acceptable(entries[..i + 1]) <==> Acceptable(entries[..i]) && Fault(entries[..i], entries[i]) == None
  {
    var (prior, e) := (entries[..i], entries[i]);
    assert entries[..i + 1] == prior + [e];
    NoFaultIff(prior, e);
    DistinctNext(prior, e);
    DiskNames(prior);
    Next(entries, i);
    if Normalized(e.name) !in Names(prior) {
      ApartNext(Disk(prior), Normalized(e.name), e.data);
    }
  }

  /** What the loop over the entries accepts, said without the loop. */
  lemma {:induction false} UnpacksIff(entries: seq<ZipEntry>, i: nat)
    requires i <= |entries|
    ensures FirstFault(entries[..i]) == None <==> Acceptable(entries[..i])
  {
    if i == 0 {
      assert entries[..0] == [];
    } else {
      UnpacksIff(entries, i - 1);
      FirstFaultNext(entries, i - 1);
      AcceptableNext(entries, i - 1);
    }
  }

  lemma FirstFaultNext(entries: seq<ZipEntry>, i: nat)
    requires i < |entries|
    ensures FirstFault(entries[..i + 1]) == None <==>
              FirstFault(entries[..i]) == None && Fault(entries[..i], entries[i]) == None
  {
    Next(entries, i);
  }

  predicate Written(disk: Files, e: ZipEntry) {
    Normalized(e.name) in disk && disk[Normalized(e.name)] == e.data
  }

  lemma WrittenStays(entries: seq<ZipEntry>, i: nat, k: nat)
    requires k < i < |entries| && Written(Disk(entries[..i]), entries[k])
    requires Normalized(entries[i].name) !in Names(entries[..i])
    ensures Written(Disk(entries[..i + 1]), entries[k])
  {
    Next(entries, i);
    assert entries[..i][k] == entries[k] && entries[k] in entries[..i];
    assert Normalized(entries[k].name) in Names(entries[..i]);
  }

  /** Once the first `i` entries are accepted, the k-th has been written. */
  ghost predicate WrittenBy(entries: seq<ZipEntry>, i: nat, k: nat)
    requires k < i <= |entries|
  {
    FirstFault(entries[..i]) == None && !IsDirectory(entries[k]) ==> Written(Disk(entries[..i]), entries[k])
  }

  lemma LastIsWritten(entries: seq<ZipEntry>, k: nat)
    requires k < |entries|
    ensures WrittenBy(entries, k + 1, k)
  {
    Next(entries, k);
  }

  lemma WrittenByNext(entries: seq<ZipEntry>, i: nat, k: nat)
    requires k < i < |entries| && WrittenBy(entries, i, k)
    ensures WrittenBy(entries, i + 1, k)
  {
    if FirstFault(entries[..i + 1]) == None && !IsDirectory(entries[k]) {
      FirstFaultNext(entries, i);
      NoFaultIff(entries[..i], entries[i]);
      WrittenStays(entries, i, k);
    }
  }

  lemma {:induction false} FileIsWritten(entries: seq<ZipEntry>, i: nat, k: nat)
    requires k < i <= |entries|
    ensures WrittenBy(entries, i, k)
  {
    if i == k + 1 {
      LastIsWritten(entries, k);
    } else {
      FileIsWritten(entries, i - 1, k);
      WrittenByNext(entries, i - 1, k);
    }
  }

  lemma {:induction false} WrittenIsFile(entries: seq<ZipEntry>, i: nat, p: string) returns (k: nat)
    requires i <= |entries| && p in Disk(entries[..i])
    ensures k < i && !IsDirectory(entries[k]) && Normalized(entries[k].name) == p
  {
    if i > 0 {
      Next(entries, i - 1);
      if !IsDirectory(entries[i - 1]) && Normalized(entries[i - 1].name) == p {
        k := i - 1;
      } else {
        k := WrittenIsFile(entries, i - 1, p);
      }
    }
  }

  /** The files written are exactly those of the entries. */
  lemma {:induction false} UnpackedHolds(entries: seq<ZipEntry>)
    requires FirstFault(entries) == None
    ensures Holds(Disk(entries), entries)
  {
    assert entries[..|entries|] == entries;
    forall e | e in entries && !IsDirectory(e)
      ensures Normalized(e.name) in Disk(entries) && Disk(entries)[Normalized(e.name)] == e.data
    {
      var k :| 0 <= k < |entries| && entries[k] == e;
      FileIsWritten(entries, |entries|, k);
    }
    forall p | p in Disk(entries) ensures exists e :: e in entries && !IsDirectory(e) && Normalized(e.name) == p {
      var k := WrittenIsFile(entries, |entries|, p);
      assert entries[k] in entries;
    }
  }

  // ------------------------------------------------------------------- extraction

  /** The files of a bundle, its provenance apart, and the hashes its provenance claims. */
  datatype Extracted = Extracted(files: Files, manifestHash: string, packageHash: string)

  predicate RecordHolds(disk: Files, r: ClaimedFile, tools: Tools) {
    && r.ClaimedFile? && r.path.Some? && r.sha256.Some? && r.size.Some?
    && r.path.value != PROVENANCE && HexDigest(r.sha256.value) && r.size.value >= 0
    && r.path.value in disk
    && |disk[r.path.value]| == r.size.value && tools.sha256(disk[r.path.value]) == r.sha256.value
  }

  /** The records describe every file but the provenance itself, each once, by size and hash. */
  ghost predicate InventoryHolds(disk: Files, records: seq<ClaimedFile>, tools: Tools) {
    && (forall r :: r in records ==> RecordHolds(disk, r, tools))
    && (forall i, j :: 0 <= i < j < |records| ==> records[i] != records[j])
    && (forall p :: p in disk && p != PROVENANCE ==> exists r :: r in records && PathIs(r, p))
  }

  predicate PathIs(r: ClaimedFile, p: string) {
    r.ClaimedFile? && r.path == Some(p)
  }

  /** The claim is complete, describes the files, and names this package hash. */
  ghost predicate ClaimSays(disk: Files, claim: Claim, packageHash: string, tools: Tools) {
    && MANIFEST_NAME in disk && PROVENANCE in disk
    && claim.Claim?
    && claim.manifestHash.Some? && HexDigest(claim.manifestHash.value)
    && claim.files.Some? && InventoryHolds(disk, claim.files.value, tools)
    && claim.packageHash == Some(packageHash) && HexDigest(packageHash)
  }

  ghost predicate ClaimHolds(disk: Files, claim: Option<Claim>, tools: Tools)
    requires Bounded(disk)
  {
    claim.Some? && ClaimSays(disk, claim.value, tools.sha256(HashInput(disk - {PROVENANCE})), tools)
  }

  lemma UnpackedIsBounded(entries: seq<ZipEntry>)
    requires FirstFault(entries) == None
    ensures Bounded(Disk(entries)) && AllNormal(Disk(entries).Keys)
    ensures Declared(entries) <= MAX_TOTAL_BYTES && Apart(Disk(entries))
    ensures forall p :: p in Disk(entries) ==> '\\' !in p && '\0' !in p
  {
    assert entries[..|entries|] == entries;
    UnpacksIff(entries, |entries|);
    forall p | p in Disk(entries)
      ensures |p| <= MAX_PATH_CHARS && |Disk(entries)[p]| <= MAX_FILE_BYTES && Normal(p) && '\\' !in p && '\0' !in p
    {
      var k := WrittenIsFile(entries, |entries|, p);
      FileIsWritten(entries, |entries|, k);
      assert GoodEntry(entries[k]);
      NormalizedIsNormal(entries[k].name);
      NormalizedUses(entries[k].name, '\\');
      NormalizedUses(entries[k].name, '\0');
    }
  }

  ghost predicate Accepted(bundle: Bundle, tools: Tools) {
    && bundle.size <= MAX_TOTAL_BYTES && |bundle.entries| <= MAX_FILES
    && FirstFault(bundle.entries) == None
    && Bounded(Disk(bundle.entries))
    && PROVENANCE in Disk(bundle.entries)
    && ClaimHolds(Disk(bundle.entries), tools.read(Disk(bundle.entries)[PROVENANCE]), tools)
  }

  /** The entry is the file at this path with this content, which has the size it declares. */
  predicate FileEntry(e: ZipEntry, p: string, data: Bytes) {
    !e.link && Normalized(e.name) == p && e.data == data && e.declared == |data| <= MAX_FILE_BYTES
  }

  predicate Listed(records: seq<ClaimedFile>, p: string, data: Bytes, tools: Tools) {
    ClaimedFile(Some(p), Some(tools.sha256(data)), Some(|data|)) in records
  }

  predicate NamesOneOf(r: ClaimedFile, files: Files) {
    r.ClaimedFile? && r.path.Some? && r.path.value in files
  }

  /** The records list exactly these files, each once, with its size and digest. */
  ghost predicate Lists(records: seq<ClaimedFile>, files: Files, tools: Tools) {
    && (forall p :: p in files ==> Listed(records, p, files[p], tools))
    && (forall r :: r in records ==> NamesOneOf(r, files))
    && (forall i, j :: 0 <= i < j < |records| ==> records[i] != records[j])
  }

  /** The files lie inside the directory, and each is the content of an entry that is no link. */
  ghost predicate ComeFrom(files: Files, entries: seq<ZipEntry>) {
    && (forall e :: e in entries ==> !e.link)
    && (forall p :: p in files ==> exists e :: e in entries && FileEntry(e, p, files[p]))
    && (forall p :: p in files ==> p != "" && p[0] != '/' && ".." !in Parts(p) && '\\' !in p && '\0' !in p)
  }

  /** The provenance among the entries names the hashes and lists the files. */
  ghost predicate Attests(e: ZipEntry, x: Extracted, tools: Tools) {
    FileEntry(e, PROVENANCE, e.data) && Testifies(e.data, x, tools)
  }

  /** What an accepted bundle guarantees about the files it yields: they come from its entries, and its provenance lists
      exactly these files, each with its size and digest, and the digest of them all. */
  ghost predicate Vouched(bundle: Bundle, x: Extracted, tools: Tools)
    requires Bounded(x.files)
  {
    && bundle.size <= MAX_TOTAL_BYTES && |bundle.entries| <= MAX_FILES
    && MANIFEST_NAME in x.files && PROVENANCE !in x.files
    && ComeFrom(x.files, bundle.entries)
    && x.packageHash == tools.sha256(HashInput(x.files))
    && exists e :: e in bundle.entries && Attests(e, x, tools)
  }

  lemma WrittenIsEntry(entries: seq<ZipEntry>, p: string) returns (e: ZipEntry)
    requires FirstFault(entries) == None && p in Disk(entries)
    ensures e in entries && FileEntry(e, p, Disk(entries)[p])
  {
    assert entries[..|entries|] == entries;
    UnpacksIff(entries, |entries|);
    UnpackedHolds(entries);
    e :| e in entries && !IsDirectory(e) && Normalized(e.name) == p;
    assert GoodEntry(e);
  }

  lemma RecordIsListed(disk: Files, records: seq<ClaimedFile>, tools: Tools, r: ClaimedFile, p: string)
    requires r in records && RecordHolds(disk, r, tools) && PathIs(r, p)
    ensures Listed(records, p, disk[p], tools)
  {
    assert r == ClaimedFile(Some(p), Some(tools.sha256(disk[p])), Some(|disk[p]|));
  }

  lemma RecordNamesOne(disk: Files, r: ClaimedFile, tools: Tools)
    requires RecordHolds(disk, r, tools)
    ensures NamesOneOf(r, disk - {PROVENANCE})
  {
  }

  lemma InventoryLists(disk: Files, records: seq<ClaimedFile>, tools: Tools)
    requires forall r :: r in records ==> RecordHolds(disk, r, tools)
    requires forall i, j :: 0 <= i < j < |records| ==> records[i] != records[j]
    requires forall p :: p in disk - {PROVENANCE} ==> exists r :: r in records && PathIs(r, p)
    ensures Lists(records, disk - {PROVENANCE}, tools)
  {
    var files := disk - {PROVENANCE};
    forall p | p in files ensures Listed(records, p, files[p], tools) {
      var r :| r in records && PathIs(r, p);
      RecordIsListed(disk, records, tools, r, p);
    }
    forall r | r in records ensures NamesOneOf(r, files) {
      RecordNamesOne(disk, r, tools);
    }
  }

  lemma DiskComesFrom(entries: seq<ZipEntry>, files: Files)
    requires FirstFault(entries) == None && files == Disk(entries) - {PROVENANCE}
    ensures ComeFrom(files, entries)
  {
    UnpackedIsBounded(entries);
    forall p | p in files ensures exists e :: e in entries && FileEntry(e, p, files[p]) {
      var e := WrittenIsEntry(entries, p);
    }
    forall p | p in files ensures p != "" && p[0] != '/' && ".." !in Parts(p) {
      assert Normal(p);
    }
    assert entries[..|entries|] == entries;
    UnpacksIff(entries, |entries|);
    forall e | e in entries ensures !e.link { assert GoodEntry(e); }
  }

  /** The provenance file says this of the extracted files. */
  ghost predicate Testifies(provenance: Bytes, x: Extracted, tools: Tools) {
    exists records :: tools.read(provenance) == Some(Claim(Some(x.manifestHash), Some(x.packageHash), Some(records)))
                      && Lists(records, x.files, tools)
  }

  lemma AcceptedIsVouched(bundle: Bundle, x: Extracted, tools: Tools)
    requires bundle.size <= MAX_TOTAL_BYTES && |bundle.entries| <= MAX_FILES && FirstFault(bundle.entries) == None
    requires x.files == Disk(bundle.entries) - {PROVENANCE} && MANIFEST_NAME in x.files && Bounded(x.files)
    requires x.packageHash == tools.sha256(HashInput(x.files))
    requires PROVENANCE in Disk(bundle.entries) && Testifies(Disk(bundle.entries)[PROVENANCE], x, tools)
    ensures Vouched(bundle, x, tools)
  {
    DiskComesFrom(bundle.entries, x.files);
    var e := WrittenIsEntry(bundle.entries, PROVENANCE);
    assert Attests(e, x, tools);
  }

  method CheckInventory(disk: Files, records: seq<ClaimedFile>, tools: Tools) returns (error: Option<BundleError>)
    ensures error == None <==> InventoryHolds(disk, records, tools)
    ensures error.Some? ==> error.value in {BadProvenance, WrongInventory}
  {
    var expected: set<string> := {};
    for i := 0 to |records|
      invariant forall r :: r in records[..i] ==> RecordHolds(disk, r, tools)
      invariant expected == PathsOf(records[..i])
      invariant forall j, k :: 0 <= j < k < i ==> records[j] != records[k]
    {
      var r := records[i];
      assert r in records && records[..i + 1] == records[..i] + [r];
      if r.NotARecord? || r.path == None || r.sha256 == None || r.size == None || r.path.value == PROVENANCE
         || !HexDigest(r.sha256.value) || r.size.value < 0 {
        return Some(BadProvenance);
      }
      if r.path.value in expected {
        SamePathSameRecord(disk, records, i, tools);
        return Some(BadProvenance);
      }
      expected := expected + {r.path.value};
      if r.path.value !in disk {
        return Some(WrongInventory);
      }
      if |disk[r.path.value]| != r.size.value || tools.sha256(disk[r.path.value]) != r.sha256.value {
        return Some(WrongInventory);
      }
    }
    assert records[..|records|] == records;
    InventoryIsComplete(disk, records, tools);
    error := if disk.Keys - {PROVENANCE} == expected then None else Some(WrongInventory);
  }

  function PathsOf(records: seq<ClaimedFile>): set<string> {
    set r | r in records && r.ClaimedFile? && r.path.Some? :: r.path.value
  }

  /** Two records of one path that both describe the file are equal. */
  lemma SamePathSameRecord(disk: Files, records: seq<ClaimedFile>, i: nat, tools: Tools)
    requires i < |records| && records[i].ClaimedFile? && records[i].path.Some?
    requires records[i].path.value in PathsOf(records[..i])
    ensures !InventoryHolds(disk, records, tools)
  {
    var r :| r in records[..i] && PathIs(r, records[i].path.value);
    var j :| 0 <= j < i && records[..i][j] == r;
    assert records[j] == r && records[j] in records && records[i] in records;
    if RecordHolds(disk, records[j], tools) && RecordHolds(disk, records[i], tools) {
      var p := records[i].path.value;
      assert PathIs(records[j], p) && PathIs(records[i], p);
      assert records[i].sha256 == Some(tools.sha256(disk[p])) && records[j].sha256 == Some(tools.sha256(disk[p]));
      assert records[i].size == Some(|disk[p]|) && records[j].size == Some(|disk[p]|);
      assert records[j] == records[i];
    }
  }

  lemma InventoryIsComplete(disk: Files, records: seq<ClaimedFile>, tools: Tools)
    requires forall r :: r in records ==> RecordHolds(disk, r, tools)
    ensures disk.Keys - {PROVENANCE} == PathsOf(records) <==>
              forall p :: p in disk && p != PROVENANCE ==> exists r :: r in records && PathIs(r, p)
  {
    assert PathsOf(records) <= disk.Keys - {PROVENANCE};
    if forall p :: p in disk && p != PROVENANCE ==> exists r :: r in records && PathIs(r, p) {
      assert disk.Keys - {PROVENANCE} <= PathsOf(records);
    } else {
      var p :| p in disk && p != PROVENANCE && !exists r :: r in records && PathIs(r, p);
      assert p !in PathsOf(records);
    }
  }

  /** Compare the files written with what the provenance among them says. */
  method CheckClaim(disk: Files, tools: Tools) returns (r: Result<Extracted, BundleError>)
    requires Bounded(disk) && AllNormal(disk.Keys)
    ensures r.Ok? <==> PROVENANCE in disk && ClaimHolds(disk, tools.read(disk[PROVENANCE]), tools)
    ensures r.Err? ==> r.error in {MissingRoot, BadProvenance, WrongInventory, WrongHash}
    ensures r.Ok? ==>
              && r.value.files == disk - {PROVENANCE}
              && r.value.packageHash == tools.sha256(HashInput(disk - {PROVENANCE}))
              && tools.read(disk[PROVENANCE]).value.manifestHash == Some(r.value.manifestHash)
    ensures r.Ok? ==> MANIFEST_NAME in r.value.files && Testifies(disk[PROVENANCE], r.value, tools)
  {
    if MANIFEST_NAME !in disk || PROVENANCE !in disk {
      return Err(MissingRoot);
    }
    var claim := tools.read(disk[PROVENANCE]);
    if claim == None || claim.value.NotAnObject? || claim.value.manifestHash == None
       || !HexDigest(claim.value.manifestHash.value) || claim.value.packageHash == None
       || !HexDigest(claim.value.packageHash.value) || claim.value.files == None {
      return Err(BadProvenance);
    }
    var error := CheckInventory(disk, claim.value.files.value, tools);
    if error.Some? {
      return Err(error.value);
    }
    var digest := HashPackage(disk - {PROVENANCE}, tools);
    if digest != claim.value.packageHash.value {
      return Err(WrongHash);
    }
    InventoryLists(disk, claim.value.files.value, tools);
    r := Ok(Extracted(disk - {PROVENANCE}, claim.value.manifestHash.value, claim.value.packageHash.value));
    assert Lists(claim.value.files.value, r.value.files, tools);
  }

  /** Check a bundle and return its files. It succeeds exactly when every entry can be written safely and the
      provenance describes exactly the files written. */
  method ExtractAgentBundle(bundle: Bundle, tools: Tools) returns (r: Result<Extracted, BundleError>)
    ensures r.Ok? <==> Accepted(bundle, tools)
    ensures r.Ok? ==>
              && r.value.files == Disk(bundle.entries) - {PROVENANCE}
              && Bounded(r.value.files)
              && r.value.packageHash == tools.sha256(HashInput(r.value.files))
              && tools.read(Disk(bundle.entries)[PROVENANCE]).value.manifestHash == Some(r.value.manifestHash)
    ensures r.Ok? ==> Vouched(bundle, r.value, tools)
    ensures r.Err? && r.error !in {TooBig, TooManyEntries, MissingRoot, BadProvenance, WrongInventory, WrongHash} ==>
              FirstFault(bundle.entries) == Some(r.error)
  {
    if bundle.size > MAX_TOTAL_BYTES {
      return Err(TooBig);
    }
    if |bundle.entries| > MAX_FILES {
      return Err(TooManyEntries);
    }
    var unpacked := Unpack(bundle.entries);
    if unpacked.Err? {
      return Err(unpacked.error);
    }
    UnpackedIsBounded(bundle.entries);
    r := CheckClaim(unpacked.value, tools);
    if r.Ok? { AcceptedIsVouched(bundle, r.value, tools); }
  }
}
