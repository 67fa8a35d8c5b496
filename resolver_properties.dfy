/** What resolution and extraction promise, proved about their specifying functions. */
module ResolverProperties {
  import opened Wrappers
  import opened Externals
  import opened Errors
  import opened LockedImages
  import opened KitMetadata
  import opened Resolver

  // ---------------------------------------------------------------------
  // The validation loop
  // ---------------------------------------------------------------------

  /**
   * The loop stops at the first entry `j` whose fetch is not the canonical
   * encoding (or runs off the end), has fetched exactly the entries up to and
   * including `j`, and reports that entry's fetch error or a mismatch.
   */
  lemma {:induction false} CheckRestStops(tool: ImageTool, registry: string, repo: string,
                                          entries: seq<ManifestEntry>, canonical: EncodedKitMetadata, i: nat)
    returns (j: nat)
    requires i <= |entries|
    ensures i <= j <= |entries|
    ensures forall k :: i <= k < j ==> FetchEntry(tool, registry, repo, entries, k) == Ok(canonical)
    ensures j < |entries| ==> FetchEntry(tool, registry, repo, entries, j) != Ok(canonical)
    ensures CheckRest(tool, registry, repo, entries, canonical, i).1
         == ConfigFetches(registry, repo, entries[i..if j < |entries| then j + 1 else j])
    ensures j == |entries| ==> CheckRest(tool, registry, repo, entries, canonical, i).0 == Ok(())
    ensures j < |entries| && FetchEntry(tool, registry, repo, entries, j).Err? ==>
      CheckRest(tool, registry, repo, entries, canonical, i).0 == Err(FetchEntry(tool, registry, repo, entries, j).error)
    ensures j < |entries| && FetchEntry(tool, registry, repo, entries, j).Ok? ==>
      CheckRest(tool, registry, repo, entries, canonical, i).0 == Err(MetadataMismatch)
    decreases |entries| - i
  {
    if i == |entries| {
      j := i;
    } else if FetchEntry(tool, registry, repo, entries, i) != Ok(canonical) {
      j := i;
      assert entries[i..i + 1][1..] == [];
    } else {
      j := CheckRestStops(tool, registry, repo, entries, canonical, i + 1);
      var end := if j < |entries| then j + 1 else j;
      assert entries[i..end][1..] == entries[i + 1..end];
    }
  }

  // ---------------------------------------------------------------------
  // Resolution
  // ---------------------------------------------------------------------

  /** Everything before the metadata phase succeeds: manifest list, registry and digest. */
  predicate PreludeSucceeds(image: ProjectImage, tool: ImageTool, c: Codecs) {
    GetManifestList(tool, c, 0, image.projectImageUri.text).Ok?
    && image.projectImageUri.registry.Some?
    && CalculateDigest(tool, c, 1, image.projectImageUri.text).Ok?
  }

  /** The manifest entries of a successful prelude. */
  function Entries(image: ProjectImage, tool: ImageTool, c: Codecs): seq<ManifestEntry>
    requires PreludeSucceeds(image, tool, c)
  {
    GetManifestList(tool, c, 0, image.projectImageUri.text).value.manifests
  }

  /** The kit metadata of entry `i` as resolution fetches it. */
  function Fetched(image: ProjectImage, tool: ImageTool, c: Codecs, i: nat): Result<EncodedKitMetadata, Error>
    requires PreludeSucceeds(image, tool, c) && i < |Entries(image, tool, c)|
  {
    FetchEntry(tool, image.projectImageUri.registry.value, image.projectImageUri.repo, Entries(image, tool, c), i)
  }

  /** The record resolution locks: the declared identity, the original source and the content digest. */
  function LockedFor(image: ProjectImage, tool: ImageTool, c: Codecs): LockedImage
    requires PreludeSucceeds(image, tool, c)
  {
    LockedImage(image.name, image.version, image.vendor, image.originalSourceUri,
                CalculateDigest(tool, c, 1, image.projectImageUri.text).value)
  }

  /**
   * The manifest list is fetched and parsed first; only then is a missing
   * registry reported, and the digest fetch is never issued in either case.
   */
  lemma ResolveFailureOrder(image: ProjectImage, skip: bool, tool: ImageTool, c: Codecs)
    ensures var uri := image.projectImageUri.text;
      GetManifestList(tool, c, 0, uri).Err? ==>
        ResolveOutcome(image, skip, tool, c) == (Err(GetManifestList(tool, c, 0, uri).error), [GetManifest(uri)])
    ensures var uri := image.projectImageUri.text;
      GetManifestList(tool, c, 0, uri).Ok? && image.projectImageUri.registry.None? ==>
        ResolveOutcome(image, skip, tool, c) == (Err(RegistryNotFound), [GetManifest(uri)])
    ensures var uri := image.projectImageUri.text;
      GetManifestList(tool, c, 0, uri).Ok? && image.projectImageUri.registry.Some?
      && CalculateDigest(tool, c, 1, uri).Err? ==>
        ResolveOutcome(image, skip, tool, c)
        == (Err(CalculateDigest(tool, c, 1, uri).error), [GetManifest(uri), GetManifest(uri)])
  {
  }

  /**
   * A successful resolution locks the declared name, version and vendor, the
   * original source URI, and base64(SHA-256) of the bytes the second manifest
   * fetch returned. When both fetches return the same bytes, the digest
   * addresses exactly the manifest list that was parsed.
   */
  lemma ResolveLockedRecord(image: ProjectImage, skip: bool, tool: ImageTool, c: Codecs)
    requires ResolveOutcome(image, skip, tool, c).0.Ok?
    ensures PreludeSucceeds(image, tool, c)
    ensures var locked := ResolveOutcome(image, skip, tool, c).0.value.locked;
      && locked == LockedFor(image, tool, c)
      && locked.ArtifactName() == image.name
      && locked.ArtifactVersion() == image.version
      && locked.VendorName() == image.vendor
      && locked.source == image.originalSourceUri
      && tool.manifest(1, image.projectImageUri.text).Ok?
      && locked.digest == c.base64Encode(c.sha256(tool.manifest(1, image.projectImageUri.text).value))
    ensures tool.manifest(0, image.projectImageUri.text) == tool.manifest(1, image.projectImageUri.text) ==>
      c.parseManifestList(tool.manifest(0, image.projectImageUri.text).value).Some?
      && ResolveOutcome(image, skip, tool, c).0.value.locked.digest
         == c.base64Encode(c.sha256(tool.manifest(0, image.projectImageUri.text).value))
  {
  }

  /**
   * Locked identity is content addressing: two successful resolutions with
   * the same original source whose digest fetches returned the same bytes
   * lock equal records, whatever names, versions and vendors were declared.
   */
  lemma SameBytesLockEqualImages(i1: ProjectImage, s1: bool, t1: ImageTool,
                                 i2: ProjectImage, s2: bool, t2: ImageTool, c: Codecs)
    requires ResolveOutcome(i1, s1, t1, c).0.Ok? && ResolveOutcome(i2, s2, t2, c).0.Ok?
    requires i1.originalSourceUri == i2.originalSourceUri
    requires t1.manifest(1, i1.projectImageUri.text) == t2.manifest(1, i2.projectImageUri.text)
    ensures ResolveOutcome(i1, s1, t1, c).0.value.locked.Equals(ResolveOutcome(i2, s2, t2, c).0.value.locked)
  {
  }

  /**
   * With metadata retrieval skipped, resolution never fetches a
   * configuration, returns no metadata, and succeeds exactly when the prelude does.
   */
  lemma ResolveSkipPath(image: ProjectImage, tool: ImageTool, c: Codecs)
    ensures var out := ResolveOutcome(image, true, tool, c);
      && (forall k :: 0 <= k < |out.1| ==> !out.1[k].GetConfig?)
      && |out.1| <= 2
      && (out.0.Ok? <==> PreludeSucceeds(image, tool, c))
      && (out.0.Ok? ==> out.0.value == Resolution(LockedFor(image, tool, c), None))
  {
  }

  /** An empty manifest list has no metadata to find. */
  lemma ResolveNeedsAnEntry(image: ProjectImage, tool: ImageTool, c: Codecs)
    requires PreludeSucceeds(image, tool, c) && |Entries(image, tool, c)| == 0
    ensures ResolveOutcome(image, false, tool, c)
         == (Err(NoMetadata(image.projectImageUri.text)),
             [GetManifest(image.projectImageUri.text), GetManifest(image.projectImageUri.text)])
  {
    var uri := image.projectImageUri.text;
    assert [GetManifest(uri), GetManifest(uri)] + [] == [GetManifest(uri), GetManifest(uri)];
  }

  /** A failure fetching the first entry's metadata is fatal: no later entry is tried. */
  lemma ResolveFirstFetchIsFatal(image: ProjectImage, tool: ImageTool, c: Codecs)
    requires PreludeSucceeds(image, tool, c) && |Entries(image, tool, c)| > 0
    requires Fetched(image, tool, c, 0).Err?
    ensures var uri := image.projectImageUri.text;
      ResolveOutcome(image, false, tool, c)
      == (Err(Fetched(image, tool, c, 0).error),
          [GetManifest(uri), GetManifest(uri),
           GetConfig(ConfigUri(image.projectImageUri.registry.value, image.projectImageUri.repo,
                               Entries(image, tool, c)[0].digest))])
  {
    var uri := image.projectImageUri.text;
    var first := GetConfig(ConfigUri(image.projectImageUri.registry.value, image.projectImageUri.repo,
                                     Entries(image, tool, c)[0].digest));
    assert [GetManifest(uri), GetManifest(uri)] + [first] == [GetManifest(uri), GetManifest(uri), first];
  }

  /**
   * The canonical-first policy. Configurations are fetched one by one, in
   * list order, at `registry/repo@digest`, the `k`-th as the `2 + k`-th tool
   * call; the scan stops at the first later entry `s` that does not return
   * the canonical raw encoding, and reports that entry's fetch error or a
   * mismatch. Only when every entry agrees is the canonical encoding decoded.
   */
  lemma ResolveMetadataPolicy(image: ProjectImage, tool: ImageTool, c: Codecs) returns (s: nat)
    requires PreludeSucceeds(image, tool, c) && |Entries(image, tool, c)| > 0
    requires Fetched(image, tool, c, 0).Ok?
    ensures 1 <= s <= |Entries(image, tool, c)|
    ensures forall k :: 1 <= k < s ==> Fetched(image, tool, c, k) == Fetched(image, tool, c, 0)
    ensures s < |Entries(image, tool, c)| ==> Fetched(image, tool, c, s) != Fetched(image, tool, c, 0)
    ensures var uri := image.projectImageUri.text;
      var fetched := if s < |Entries(image, tool, c)| then s + 1 else s;
      ResolveOutcome(image, false, tool, c).1
      == [GetManifest(uri), GetManifest(uri)]
         + ConfigFetches(image.projectImageUri.registry.value, image.projectImageUri.repo,
                         Entries(image, tool, c)[..fetched])
    ensures var fetched := if s < |Entries(image, tool, c)| then s + 1 else s;
      forall k :: 0 <= k < fetched ==>
        ResolveOutcome(image, false, tool, c).1[ConfigCallBase + k]
        == GetConfig(ConfigUri(image.projectImageUri.registry.value, image.projectImageUri.repo,
                               Entries(image, tool, c)[k].digest))
    ensures s < |Entries(image, tool, c)| && Fetched(image, tool, c, s).Err? ==>
      ResolveOutcome(image, false, tool, c).0 == Err(Fetched(image, tool, c, s).error)
    ensures s < |Entries(image, tool, c)| && Fetched(image, tool, c, s).Ok? ==>
      ResolveOutcome(image, false, tool, c).0 == Err(MetadataMismatch)
    ensures s == |Entries(image, tool, c)| ==>
      ResolveOutcome(image, false, tool, c).0
      == match DecodeMetadata(Fetched(image, tool, c, 0).value, c)
         case Ok(md) => Ok(Resolution(LockedFor(image, tool, c), Some(md)))
         case Err(stage) => Err(MetadataUndecodable(stage))
  {
    var registry, repo := image.projectImageUri.registry.value, image.projectImageUri.repo;
    var entries := Entries(image, tool, c);
    var canonical := Fetched(image, tool, c, 0).value;
    s := CheckRestStops(tool, registry, repo, entries, canonical, 1);
    var fetched := if s < |entries| then s + 1 else s;
    assert entries[..fetched][1..] == entries[1..fetched];
  }

  /**
   * Resolution with metadata succeeds exactly when the prelude succeeds,
   * there is at least one entry, every entry returns the first entry's raw
   * encoding, and that encoding decodes; the metadata is its decoding.
   */
  lemma ResolveSucceedsIff(image: ProjectImage, tool: ImageTool, c: Codecs)
    ensures ResolveOutcome(image, false, tool, c).0.Ok? <==>
      && PreludeSucceeds(image, tool, c)
      && |Entries(image, tool, c)| > 0
      && Fetched(image, tool, c, 0).Ok?
      && (forall k :: 0 <= k < |Entries(image, tool, c)| ==> Fetched(image, tool, c, k) == Fetched(image, tool, c, 0))
      && DecodeMetadata(Fetched(image, tool, c, 0).value, c).Ok?
    ensures ResolveOutcome(image, false, tool, c).0.Ok? ==>
      ResolveOutcome(image, false, tool, c).0.value
      == Resolution(LockedFor(image, tool, c), Some(DecodeMetadata(Fetched(image, tool, c, 0).value, c).value))
  {
    if PreludeSucceeds(image, tool, c) && |Entries(image, tool, c)| > 0 && Fetched(image, tool, c, 0).Ok? {
      var s := ResolveMetadataPolicy(image, tool, c);
    }
  }

  /**
   * Entries are compared by their raw encoded string: a second entry whose
   * raw string differs from the first aborts with a mismatch, even when both
   * decode to the same metadata and even when the first does not decode at all.
   */
  lemma ResolveComparesRawEncodings(image: ProjectImage, tool: ImageTool, c: Codecs)
    requires PreludeSucceeds(image, tool, c) && |Entries(image, tool, c)| >= 2
    requires Fetched(image, tool, c, 0).Ok? && Fetched(image, tool, c, 1).Ok?
    requires Fetched(image, tool, c, 0).value.raw != Fetched(image, tool, c, 1).value.raw
    ensures ResolveOutcome(image, false, tool, c).0 == Err(MetadataMismatch)
  {
  }

  // ---------------------------------------------------------------------
  // Extraction
  // ---------------------------------------------------------------------

  predicate HasArch(e: ManifestEntry, arch: Arch) {
    e.platform.Some? && e.platform.value.architecture == arch
  }

  /**
   * Selection inspects entries in order: `i` is the first entry that has no
   * platform or has the requested architecture; every entry before it has a
   * platform of another architecture.
   */
  lemma {:induction false} SelectManifestFirstMatch(entries: seq<ManifestEntry>, arch: Arch) returns (i: nat)
    ensures i <= |entries|
    ensures forall k :: 0 <= k < i ==> entries[k].platform.Some? && !HasArch(entries[k], arch)
    ensures i == |entries| <==> SelectManifest(entries, arch) == NoMatch
    ensures i < |entries| && entries[i].platform.None? <==> SelectManifest(entries, arch) == PlatformMissing
    ensures i < |entries| && entries[i].platform.Some? ==>
      HasArch(entries[i], arch) && SelectManifest(entries, arch) == Found(entries[i])
  {
    if entries == [] || entries[0].platform.None? || HasArch(entries[0], arch) {
      i := 0;
    } else {
      var j := SelectManifestFirstMatch(entries[1..], arch);
      i := j + 1;
    }
  }

  /** Directories are named after vendor, name and architecture, and the cache sits beside them. */
  lemma ExtractPaths(path: string, image: ProjectImage, arch: string)
    ensures TargetPath(path, image, arch) == path + "/" + image.vendor + "/" + image.name + "/" + arch
    ensures CachePath(path) == path + "/cache"
    ensures TargetPath(path, image, arch) != CachePath(path)
  {
    var rel := image.vendor + "/" + image.name + "/" + arch;
    var target, cache := TargetPath(path, image, arch), CachePath(path);
    assert (path + "/" + rel)[|path| + 1..] == rel;
    assert (path + "/" + "cache")[|path| + 1..] == "cache";
    assert rel[|image.vendor|] == '/';
    assert '/' !in "cache";
  }

  /** The position of the first `/` of a string, or its length when there is none. */
  function FirstSlash(s: string): nat {
    if s == [] || s[0] == '/' then 0 else 1 + FirstSlash(s[1..])
  }

  lemma {:induction false} FirstSlashOfJoin(x: string, y: string)
    requires '/' !in x
    ensures FirstSlash(x + "/" + y) == |x|
  {
    if x != [] {
      assert (x + "/" + y)[1..] == x[1..] + "/" + y;
      FirstSlashOfJoin(x[1..], y);
    }
  }

  /** Joining with `/` is injective when the left parts contain no `/`. */
  lemma SplitAtSlash(x1: string, y1: string, x2: string, y2: string)
    requires '/' !in x1 && '/' !in x2
    requires x1 + "/" + y1 == x2 + "/" + y2
    ensures x1 == x2 && y1 == y2
  {
    var s := x1 + "/" + y1;
    FirstSlashOfJoin(x1, y1);
    FirstSlashOfJoin(x2, y2);
    assert x1 == s[..|x1|] && x2 == s[..|x2|];
    assert y1 == s[|x1| + 1..] && y2 == s[|x2| + 1..];
  }

  /**
   * When vendor and name contain no `/`, distinct (vendor, name, arch)
   * triples extract to distinct directories under the same path.
   */
  lemma TargetPathsAreDisjoint(path: string, i1: ProjectImage, a1: string, i2: ProjectImage, a2: string)
    requires '/' !in i1.vendor && '/' !in i1.name && '/' !in i2.vendor && '/' !in i2.name
    requires TargetPath(path, i1, a1) == TargetPath(path, i2, a2)
    ensures i1.vendor == i2.vendor && i1.name == i2.name && a1 == a2
  {
    var r1 := i1.vendor + "/" + i1.name + "/" + a1;
    var r2 := i2.vendor + "/" + i2.name + "/" + a2;
    assert TargetPath(path, i1, a1)[|path| + 1..] == r1;
    assert TargetPath(path, i2, a2)[|path| + 1..] == r2;
    assert r1 == i1.vendor + "/" + (i1.name + "/" + a1);
    assert r2 == i2.vendor + "/" + (i2.name + "/" + a2);
    SplitAtSlash(i1.vendor, i1.name + "/" + a1, i2.vendor, i2.name + "/" + a2);
    SplitAtSlash(i1.name, a1, i2.name, a2);
  }

  /** The full plan of a successful extraction. */
  function ExtractPlan(image: ProjectImage, path: string, arch: string, archive: ArchiveRef): seq<Effect> {
    [CreateDir(TargetPath(path, image, arch)), CreateDir(CachePath(path)),
     GetManifest(image.projectImageUri.text), Pull(archive), Unpack(archive, TargetPath(path, image, arch))]
  }

  /**
   * Extraction performs a prefix of its plan: the target directory, then the
   * cache directory, then the manifest fetch, then the pull and the unpack of
   * the archive addressed by the registry, the repository, the digest of the
   * first entry of the requested architecture and the cache directory. It
   * succeeds exactly when every step succeeds, and then it has performed all
   * five.
   */
  lemma ExtractFollowsPlan(image: ProjectImage, tool: ImageTool, c: Codecs, host: Host, path: string, arch: string)
    returns (archive: ArchiveRef)
    ensures var out := ExtractOutcome(image, tool, c, host, path, arch);
      1 <= |out.1| <= 5 && out.1 == ExtractPlan(image, path, arch, archive)[..|out.1|]
    ensures var out := ExtractOutcome(image, tool, c, host, path, arch);
      |out.1| > 3 ==>
        && image.projectImageUri.registry.Some?
        && GetManifestList(tool, c, 0, image.projectImageUri.text).Ok?
        && c.dockerArch(arch).Some?
        && var entries := GetManifestList(tool, c, 0, image.projectImageUri.text).value.manifests;
           SelectManifest(entries, c.dockerArch(arch).value).Found?
           && archive == ArchiveRef(image.projectImageUri.registry.value, image.projectImageUri.repo,
                                    SelectManifest(entries, c.dockerArch(arch).value).entry.digest,
                                    CachePath(path))
    ensures ExtractOutcome(image, tool, c, host, path, arch).0.Ok? ==>
      ExtractOutcome(image, tool, c, host, path, arch).1 == ExtractPlan(image, path, arch, archive)
    ensures ExtractOutcome(image, tool, c, host, path, arch).0.Ok? <==>
      && host.createDir(TargetPath(path, image, arch)).Done?
      && host.createDir(CachePath(path)).Done?
      && GetManifestList(tool, c, 0, image.projectImageUri.text).Ok?
      && c.dockerArch(arch).Some?
      && SelectManifest(GetManifestList(tool, c, 0, image.projectImageUri.text).value.manifests,
                        c.dockerArch(arch).value).Found?
      && image.projectImageUri.registry.Some?
      && host.openArchive(archive).Done?
      && host.pull(archive).Done?
      && host.unpack(archive, TargetPath(path, image, arch)).Done?
  {
    var uri := image.projectImageUri.text;
    var listing := GetManifestList(tool, c, 0, uri);
    var cache := CachePath(path);
    if listing.Ok? && c.dockerArch(arch).Some? && image.projectImageUri.registry.Some?
       && SelectManifest(listing.value.manifests, c.dockerArch(arch).value).Found? {
      archive := ArchiveRef(image.projectImageUri.registry.value, image.projectImageUri.repo,
                            SelectManifest(listing.value.manifests, c.dockerArch(arch).value).entry.digest, cache);
    } else {
      archive := ArchiveRef("", "", "", cache);
    }
  }

  /**
   * Both directories are created before the manifest is fetched, so a
   * failure of the architecture lookup, of the selection or of the registry
   * leaves them in place, having pulled nothing.
   */
  lemma ExtractSelectionFailureKeepsDirs(image: ProjectImage, tool: ImageTool, c: Codecs, host: Host,
                                         path: string, arch: string)
    requires host.createDir(TargetPath(path, image, arch)).Done? && host.createDir(CachePath(path)).Done?
    requires GetManifestList(tool, c, 0, image.projectImageUri.text).Ok?
    ensures var out := ExtractOutcome(image, tool, c, host, path, arch);
      var entries := GetManifestList(tool, c, 0, image.projectImageUri.text).value.manifests;
      var prepared := [CreateDir(TargetPath(path, image, arch)), CreateDir(CachePath(path)),
                       GetManifest(image.projectImageUri.text)];
      && (c.dockerArch(arch).None? ==> out == (Err(UnsupportedArch(arch)), prepared))
      && (c.dockerArch(arch).Some? && SelectManifest(entries, c.dockerArch(arch).value) == NoMatch ==>
            out == (Err(NoImageForArch(c.dockerArch(arch).value, image.projectImageUri.text)), prepared))
      && (c.dockerArch(arch).Some? && SelectManifest(entries, c.dockerArch(arch).value) == PlatformMissing ==>
            out == (Err(MissingPlatform), prepared))
      && ((c.dockerArch(arch).Some? && SelectManifest(entries, c.dockerArch(arch).value).Found?
           && image.projectImageUri.registry.None?) ==> out == (Err(RegistryUnresolved), prepared))
  {
  }
}
