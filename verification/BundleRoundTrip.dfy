/** Which packed packages are accepted when they are unpacked again, and that they come back unchanged. */
module BundleRoundTrip {
  import opened Outcomes
  import opened PackageHash
  import opened PackagePaths
  import opened AgentBundle

  /** What packing guarantees of the files it accepts; `root` is the path kept for the provenance. */
  ghost predicate Ready(files: Files, root: string) {
    && Bounded(files) && AllNormal(files.Keys) && Apart(files)
    && (forall p :: p in files ==> !TooLong(p) && '\0' !in p && p != root && !Under(root, p))
    && |files| < MAX_FILES
  }

  /** A name with nothing special about it. */
  ghost predicate Plain(name: string) {
    && Normal(name) && Parts(name) == [name] && !TooLong(name) && '\\' !in name && '\0' !in name
    && forall p :: !Under(p, name)
  }

  lemma PlainName(name: string)
    requires Clean(name) && name != ".." && |name| <= MAX_PART_CHARS && '\\' !in name && '\0' !in name
    requires name !in EXCLUDED_PARTS
    ensures Plain(name) && !Excluded(name)
  {
    OneComponent(name);
    forall p ensures !Under(p, name) { UnderHasSeparator(p, name); }
  }

  lemma ProvenanceIsPlain()
    ensures Plain(PROVENANCE) && !Excluded(PROVENANCE)
  {
    assert PROVENANCE[0] == 'b' && "__pycache__"[0] == '_';
    PlainName(PROVENANCE);
  }

  /** The reserved path is neither packed nor a directory with packed files. */
  lemma PackableIsReady(tree: Tree, scan: Scan, root: string)
    requires RealTree(tree) && Packable(tree, scan)
    requires !Excluded(root) && forall p :: p in tree && !Excluded(p) ==> p != root
    ensures Ready(Contents(tree), root)
  {
    PackableIsBounded(tree, scan);
    ListingLists(Contents(tree).Keys);
    assert root !in tree;
    forall p | p in Contents(tree) ensures !TooLong(p) && '\0' !in p && p != root && !Under(root, p) {
      assert Faultless(tree, scan, p);
    }
    forall p, q | p in Contents(tree) && q in Contents(tree) ensures !Under(p, q) {
      assert Included(tree, p);
    }
  }

  // ------------------------------------------------------------- packed entries

  lemma {:induction false} PackedEntry(files: Files, names: seq<string>, k: nat)
    requires AllInFiles(files, names) && k < |names|
    ensures |PackedEntries(files, names)| == |names|
    ensures PackedEntries(files, names)[k] == ZipEntry(names[k], false, |files[names[k]]|, files[names[k]])
  {
    PackedLength(files, names);
    var front := names[..|names| - 1];
    PackedLength(files, front);
    if k < |front| {
      PackedEntry(files, front, k);
    }
  }

  lemma {:induction false} PackedLength(files: Files, names: seq<string>)
    requires AllInFiles(files, names)
    ensures |PackedEntries(files, names)| == |names|
  {
    if names != [] { PackedLength(files, names[..|names| - 1]); }
  }

  lemma {:induction false} PackedTotals(files: Files, names: seq<string>)
    requires AllInFiles(files, names) && forall p :: p in names ==> Normal(p)
    ensures Declared(PackedEntries(files, names)) == Total(files, names)
  {
    if names != [] {
      PackedTotals(files, names[..|names| - 1]);
      LastEntryIsFile(files, names);
    }
  }

  lemma {:induction false} PackedContents(files: Files, names: seq<string>)
    requires AllInFiles(files, names) && forall p :: p in names ==> Normal(p)
    ensures Disk(PackedEntries(files, names)) == map p | p in names :: files[p]
  {
    if names != [] {
      var front, p := names[..|names| - 1], names[|names| - 1];
      PackedContents(files, front);
      LastEntryIsFile(files, names);
      assert names == front + [p];
    }
  }

  lemma {:induction false} LastEntryIsFile(files: Files, names: seq<string>)
    requires AllInFiles(files, names) && names != [] && Normal(names[|names| - 1])
    ensures var entries, p := PackedEntries(files, names), names[|names| - 1];
            && entries != [] && entries[..|entries| - 1] == PackedEntries(files, names[..|names| - 1])
            && entries[|entries| - 1] == ZipEntry(p, false, |files[p]|, files[p])
            && !IsDirectory(entries[|entries| - 1]) && Normalized(p) == p
  {
    NormalEnds(names[|names| - 1]);
  }

  /** The entries of a packed bundle, the provenance last. */
  function WithProvenance(files: Files, names: seq<string>, root: string, provenance: Bytes): seq<ZipEntry>
    requires AllInFiles(files, names)
  {
    PackedEntries(files, names) + [ZipEntry(root, false, |provenance|, provenance)]
  }

  lemma PackedDisk(files: Files, names: seq<string>, root: string, provenance: Bytes)
    requires AllInFiles(files, names) && (forall p :: p in files ==> p in names) && AllNormal(files.Keys) && Plain(root)
    ensures Disk(WithProvenance(files, names, root, provenance)) == files[root := provenance]
    ensures Declared(WithProvenance(files, names, root, provenance)) == Total(files, names) + |provenance|
  {
    PackedTotals(files, names);
    PackedContents(files, names);
    assert (map p | p in names :: files[p]) == files;
    NormalEnds(root);
    OneMoreEntry(PackedEntries(files, names), root, provenance);
  }

  lemma OneMoreEntry(entries: seq<ZipEntry>, root: string, data: Bytes)
    requires Normalized(root) == root && !IsDirectory(ZipEntry(root, false, |data|, data))
    ensures Disk(entries + [ZipEntry(root, false, |data|, data)]) == Disk(entries)[root := data]
    ensures Declared(entries + [ZipEntry(root, false, |data|, data)]) == Declared(entries) + |data|
  {
    var more := entries + [ZipEntry(root, false, |data|, data)];
    assert more[..|more| - 1] == entries;
  }

  lemma PackedIsDistinct(files: Files, names: seq<string>, root: string, provenance: Bytes)
    requires Ready(files, root) && Plain(root) && AllInFiles(files, names) && Sorted(names)
    ensures DistinctNames(WithProvenance(files, names, root, provenance))
  {
    var entries := WithProvenance(files, names, root, provenance);
    PackedLength(files, names);
    forall i, j | 0 <= i < j < |entries| ensures Normalized(entries[i].name) != Normalized(entries[j].name) {
      PackedEntry(files, names, i);
      assert names[i] in names;
      if j < |names| {
        PackedEntry(files, names, j);
        assert names[j] in names;
      }
    }
  }

  predicate NoBackslash(files: Files) {
    forall p :: p in files ==> '\\' !in p
  }

  lemma PackedIsGood(files: Files, names: seq<string>, root: string, provenance: Bytes)
    requires Ready(files, root) && Plain(root) && AllInFiles(files, names) && forall p :: p in files ==> p in names
    ensures AllGood(WithProvenance(files, names, root, provenance)) <==>
              NoBackslash(files) && |provenance| <= MAX_FILE_BYTES
  {
    var entries := WithProvenance(files, names, root, provenance);
    var last := ZipEntry(root, false, |provenance|, provenance);
    assert last in entries;
    LastIsGoodIff(root, provenance);
    forall p | p in files ensures ZipEntry(p, false, |files[p]|, files[p]) in entries {
      PackedHas(files, names, p);
    }
    forall e | e in entries && e != last
      ensures e.name in files && e == ZipEntry(e.name, false, |files[e.name]|, files[e.name])
    {
      PackedOnly(files, names, e);
    }
    forall p | p in files ensures GoodEntry(ZipEntry(p, false, |files[p]|, files[p])) <==> '\\' !in p {
    }
  }

  lemma LastIsGoodIff(root: string, provenance: Bytes)
    requires Plain(root)
    ensures GoodEntry(ZipEntry(root, false, |provenance|, provenance)) <==> |provenance| <= MAX_FILE_BYTES
  {
    NormalEnds(root);
  }

  lemma PackedHas(files: Files, names: seq<string>, p: string)
    requires AllInFiles(files, names) && p in names
    ensures ZipEntry(p, false, |files[p]|, files[p]) in PackedEntries(files, names)
  {
    var k :| 0 <= k < |names| && names[k] == p;
    PackedEntry(files, names, k);
    assert PackedEntries(files, names)[k] in PackedEntries(files, names);
  }

  lemma PackedOnly(files: Files, names: seq<string>, e: ZipEntry)
    requires AllInFiles(files, names) && e in PackedEntries(files, names)
    ensures e.name in files && e == ZipEntry(e.name, false, |files[e.name]|, files[e.name])
  {
    PackedLength(files, names);
    var k :| 0 <= k < |names| && PackedEntries(files, names)[k] == e;
    PackedEntry(files, names, k);
    assert names[k] in names;
  }

  /** There is room for the provenance beside the files. */
  ghost predicate Room(files: Files, provenance: Bytes) {
    var names := Listing(files.Keys);
    AllInFiles(files, names)
    && |provenance| <= MAX_FILE_BYTES && Total(files, names) + |provenance| <= MAX_TOTAL_BYTES
  }

  lemma PackedUnpacks(files: Files, root: string, provenance: Bytes)
    requires Ready(files, root) && Plain(root)
    ensures var names := Listing(files.Keys);
            && AllInFiles(files, names)
            && (FirstFault(WithProvenance(files, names, root, provenance)) == None <==>
                  NoBackslash(files) && Room(files, provenance))
            && Disk(WithProvenance(files, names, root, provenance)) == files[root := provenance]
            && |WithProvenance(files, names, root, provenance)| <= MAX_FILES
  {
    var names := Listing(files.Keys);
    ListingIsSorted(files.Keys);
    PackedLength(files, names);
    PackedDisk(files, names, root, provenance);
    PackedIsDistinct(files, names, root, provenance);
    PackedIsGood(files, names, root, provenance);
    AcceptedWhole(WithProvenance(files, names, root, provenance));
  }

  lemma AcceptedWhole(entries: seq<ZipEntry>)
    ensures FirstFault(entries) == None <==> Acceptable(entries)
  {
    assert entries[..|entries|] == entries;
    UnpacksIff(entries, |entries|);
  }

  // ------------------------------------------------------------------ round trip

  lemma PackedInventory(files: Files, names: seq<string>, disk: Files, tools: Tools)
    requires PROVENANCE !in files && Reliable(tools) && names == Listing(files.Keys) && AllInFiles(files, names)
    requires disk.Keys == files.Keys + {PROVENANCE} && forall p :: p in files ==> disk[p] == files[p]
    ensures InventoryHolds(disk, Claimed(files, names, tools), tools)
  {
    ListingLists(files.Keys);
    var records := Claimed(files, names, tools);
    forall r | r in records ensures RecordHolds(disk, r, tools) {
      var k :| 0 <= k < |records| && records[k] == r;
      ClaimedRecordHolds(files, names[k], disk, tools);
    }
    forall p | p in disk && p != PROVENANCE ensures exists r :: r in records && PathIs(r, p) {
      ClaimedCovers(files, names, p, tools);
    }
    ClaimedIsDistinct(files, names, tools);
  }

  lemma ClaimedCovers(files: Files, names: seq<string>, p: string, tools: Tools)
    requires AllInFiles(files, names) && p in names
    ensures exists r :: r in Claimed(files, names, tools) && PathIs(r, p)
  {
    var k :| 0 <= k < |names| && names[k] == p;
    var r := Claimed(files, names, tools)[k];
    assert r in Claimed(files, names, tools) && PathIs(r, p);
  }

  lemma ClaimedIsDistinct(files: Files, names: seq<string>, tools: Tools)
    requires AllInFiles(files, names) && forall i, j :: 0 <= i < j < |names| ==> names[i] != names[j]
    ensures var records := Claimed(files, names, tools);
            forall i, j :: 0 <= i < j < |records| ==> records[i] != records[j]
  {
    var records := Claimed(files, names, tools);
    forall i, j | 0 <= i < j < |records| ensures records[i] != records[j] {
      assert PathIs(records[i], names[i]) && PathIs(records[j], names[j]);
    }
  }

  lemma ClaimedRecordHolds(files: Files, p: string, disk: Files, tools: Tools)
    requires Reliable(tools) && p in files && p != PROVENANCE && p in disk && disk[p] == files[p]
    ensures RecordHolds(disk, ClaimedFile(Some(p), Some(tools.sha256(files[p])), Some(|files[p]|)), tools)
  {
  }

  /** The claim packing writes. */
  ghost function ClaimOf(files: Files, tools: Tools, manifestHash: string): Claim
    requires Bounded(files)
  {
    ListingLists(files.Keys);
    Claim(Some(manifestHash), Some(tools.sha256(HashInput(files))), Some(Claimed(files, Listing(files.Keys), tools)))
  }

  lemma ClaimedInventory(files: Files, disk: Files, tools: Tools, manifestHash: string, provenance: Bytes)
    requires Bounded(files) && Reliable(tools) && PROVENANCE !in files && disk == files[PROVENANCE := provenance]
    ensures InventoryHolds(disk, ClaimOf(files, tools, manifestHash).files.value, tools)
    ensures HexDigest(tools.sha256(HashInput(files)))
  {
    ListingLists(files.Keys);
    PackedInventory(files, Listing(files.Keys), disk, tools);
  }

  lemma PackedClaim(files: Files, disk: Files, tools: Tools, manifestHash: string, provenance: Bytes)
    requires Bounded(files) && Bounded(disk) && Reliable(tools) && HexDigest(manifestHash) && PROVENANCE !in files
    requires disk == files[PROVENANCE := provenance]
    ensures ClaimHolds(disk, Some(ClaimOf(files, tools, manifestHash)), tools) <==> MANIFEST_NAME in files
  {
    ClaimedInventory(files, disk, tools, manifestHash, provenance);
    assert disk - {PROVENANCE} == files;
    ClaimSaysIff(disk, ClaimOf(files, tools, manifestHash), manifestHash, tools.sha256(HashInput(files)), tools);
  }

  lemma ClaimSaysIff(disk: Files, claim: Claim, manifestHash: string, packageHash: string, tools: Tools)
    requires PROVENANCE in disk && HexDigest(manifestHash) && HexDigest(packageHash)
    requires claim.Claim? && claim.manifestHash == Some(manifestHash) && claim.packageHash == Some(packageHash)
    requires claim.files.Some?
    ensures InventoryHolds(disk, claim.files.value, tools) ==>
              (ClaimSays(disk, claim, packageHash, tools) <==> MANIFEST_NAME in disk)
  {
  }

  /** A packed package is accepted exactly when its paths hold no backslash, its manifest has the expected name,
      and there is room for the provenance and the archive; it then comes back with the same files and hash. */
  lemma PackedIsAcceptedIff(files: Files, tools: Tools, manifestHash: string, size: nat)
    requires Ready(files, PROVENANCE) && Reliable(tools) && HexDigest(manifestHash)
    ensures var bundle := Packed(files, tools, manifestHash, size);
            var provenance := ProvenanceOf(files, tools, manifestHash);
            && (Accepted(bundle, tools) <==>
                  NoBackslash(files) && MANIFEST_NAME in files && Room(files, provenance) && size <= MAX_TOTAL_BYTES)
            && Disk(bundle.entries) == files[PROVENANCE := provenance]
  {
    var provenance := ProvenanceOf(files, tools, manifestHash);
    ProvenanceIsPlain();
    PackedUnpacks(files, PROVENANCE, provenance);
    PackedIsAcceptedWhen(files, provenance, Packed(files, tools, manifestHash, size), tools, manifestHash);
  }

  /** What unpacking such a bundle yields, and when it does. */
  ghost predicate UnpacksTo(bundle: Bundle, files: Files, provenance: Bytes) {
    && (FirstFault(bundle.entries) == None <==> NoBackslash(files) && Room(files, provenance))
    && Disk(bundle.entries) == files[PROVENANCE := provenance] && |bundle.entries| <= MAX_FILES
  }

  lemma PackedIsAcceptedWhen(files: Files, provenance: Bytes, bundle: Bundle, tools: Tools, manifestHash: string)
    requires Bounded(files) && Reliable(tools) && HexDigest(manifestHash) && PROVENANCE !in files
    ensures UnpacksTo(bundle, files, provenance) && provenance == ProvenanceOf(files, tools, manifestHash) ==>
              (Accepted(bundle, tools) <==>
                 NoBackslash(files) && MANIFEST_NAME in files && Room(files, provenance)
                 && bundle.size <= MAX_TOTAL_BYTES)
  {
    if UnpacksTo(bundle, files, provenance) && provenance == ProvenanceOf(files, tools, manifestHash)
       && FirstFault(bundle.entries) == None {
      UnpackedIsBounded(bundle.entries);
      PackedClaim(files, Disk(bundle.entries), tools, manifestHash, provenance);
    }
  }

  lemma TreeIsReady(tree: Tree, scan: Scan)
    requires RealTree(tree) && Packable(tree, scan)
    ensures Ready(Contents(tree), PROVENANCE)
  {
    ProvenanceIsPlain();
    PackableIsReady(tree, scan, PROVENANCE);
  }

  /** What must hold of a packable directory for its bundle to be accepted. */
  ghost predicate Acceptance(files: Files, tools: Tools, manifestHash: string, size: nat)
    requires Bounded(files)
  {
    && NoBackslash(files) && MANIFEST_NAME in files && size <= MAX_TOTAL_BYTES
    && Room(files, ProvenanceOf(files, tools, manifestHash))
  }

  lemma PackedTreeIsAcceptedIff(tree: Tree, scan: Scan, tools: Tools, manifestHash: string, size: nat)
    requires RealTree(tree) && Packable(tree, scan) && Reliable(tools) && HexDigest(manifestHash)
    ensures Bounded(Contents(tree)) && PROVENANCE !in Contents(tree)
    ensures var bundle := Packed(Contents(tree), tools, manifestHash, size);
            && (Accepted(bundle, tools) <==> Acceptance(Contents(tree), tools, manifestHash, size))
            && ComesBack(Disk(bundle.entries), Contents(tree), tools, manifestHash)
  {
    TreeIsReady(tree, scan);
    ReadyIsAcceptedIff(Contents(tree), tools, manifestHash, size);
  }

  lemma ReadyIsAcceptedIff(files: Files, tools: Tools, manifestHash: string, size: nat)
    requires Ready(files, PROVENANCE) && Reliable(tools) && HexDigest(manifestHash)
    ensures var bundle := Packed(files, tools, manifestHash, size);
            && (Accepted(bundle, tools) <==> Acceptance(files, tools, manifestHash, size))
            && ComesBack(Disk(bundle.entries), files, tools, manifestHash)
  {
    PackedIsAcceptedIff(files, tools, manifestHash, size);
    ReadBack(files, Disk(Packed(files, tools, manifestHash, size).entries), tools, manifestHash);
  }

  lemma ReadBack(files: Files, disk: Files, tools: Tools, manifestHash: string)
    requires Bounded(files) && Reliable(tools) && PROVENANCE !in files
    requires disk == files[PROVENANCE := ProvenanceOf(files, tools, manifestHash)]
    ensures ComesBack(disk, files, tools, manifestHash)
  {
    assert disk - {PROVENANCE} == files;
  }

  /** The files unpacked are the files packed, with the provenance written for them. */
  predicate ComesBack(disk: Files, files: Files, tools: Tools, manifestHash: string) {
    && PROVENANCE in disk && disk - {PROVENANCE} == files
    && tools.read(disk[PROVENANCE]).Some? && tools.read(disk[PROVENANCE]).value.Claim?
    && tools.read(disk[PROVENANCE]).value.manifestHash == Some(manifestHash)
  }

  /** Unpacking is refused exactly when the conditions fail, and otherwise gives back the files and their hash. */
  ghost predicate ExtractedFrom(files: Files, tools: Tools, manifestHash: string, size: nat,
                                r: Result<Extracted, BundleError>)
    requires Bounded(files)
  {
    && (r.Ok? <==> Acceptance(files, tools, manifestHash, size))
    && (r.Ok? ==> r.value == Extracted(files, manifestHash, tools.sha256(HashInput(files))))
  }

  method ExtractPacked(files: Files, bundle: Bundle, tools: Tools, manifestHash: string)
    returns (r: Result<Extracted, BundleError>)
    requires Bounded(files) && ComesBack(Disk(bundle.entries), files, tools, manifestHash)
    requires Accepted(bundle, tools) <==> Acceptance(files, tools, manifestHash, bundle.size)
    ensures ExtractedFrom(files, tools, manifestHash, bundle.size, r)
  {
    r := ExtractAgentBundle(bundle, tools);
  }

  /** End to end: pack a directory, unpack what was packed, and get the same files and package hash. */
  method PackThenExtract(tree: Tree, scan: Scan, tools: Tools, manifestHash: string, size: nat)
    returns (packed: Result<Bundle, PackError>, r: Result<Extracted, BundleError>)
    requires RealTree(tree) && Reliable(tools) && HexDigest(manifestHash)
    ensures packed.Ok? <==> Packable(tree, scan)
    ensures packed.Ok? ==> Bounded(Contents(tree)) && ExtractedFrom(Contents(tree), tools, manifestHash, size, r)
  {
    packed := PackAgentPackage(tree, scan, tools, manifestHash, size);
    if packed.Err? {
      return packed, Err(MissingRoot);
    }
    PackedTreeIsAcceptedIff(tree, scan, tools, manifestHash, size);
    r := ExtractPacked(Contents(tree), packed.value, tools, manifestHash);
  }
}
