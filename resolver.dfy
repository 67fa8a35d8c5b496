/**
 * `ImageResolver`: resolution of a project image into a `LockedImage` and its
 * cross-checked kit metadata, and extraction of one architecture's image.
 * Each operation is specified by a function from the collaborators' answers to
 * the result and the ordered list of effects; the class's methods are proved
 * to compute exactly that.
 */
module Resolver {
  import opened Wrappers
  import opened Externals
  import opened Errors
  import opened LockedImages
  import opened KitMetadata

  /** What `resolve` returns: the locked record and, unless skipped, the kit's metadata. */
  datatype Resolution = Resolution(locked: LockedImage, metadata: Option<ImageMetadata>)

  /** `ImageResolver::get_manifest`: fetch (the `k`-th tool call) and parse the manifest list. */
  function GetManifestList(tool: ImageTool, c: Codecs, k: nat, uri: string): (r: Result<ManifestListView, Error>)
    ensures tool.manifest(k, uri).Err? ==> r == Err(Tool(tool.manifest(k, uri).error))
    ensures tool.manifest(k, uri).Ok? ==>
      (r == Err(ManifestListInvalid) <==> c.parseManifestList(tool.manifest(k, uri).value).None?)
    ensures r.Ok? <==> tool.manifest(k, uri).Ok? && c.parseManifestList(tool.manifest(k, uri).value).Some?
    ensures r.Ok? ==> c.parseManifestList(tool.manifest(k, uri).value) == Some(r.value)
  {
    match tool.manifest(k, uri)
    case Err(e) => Err(Tool(e))
    case Ok(bytes) =>
      match c.parseManifestList(bytes)
      case None => Err(ManifestListInvalid)
      case Some(list) => Ok(list)
  }

  /** `ImageResolver::calculate_digest`: base64 of the SHA-256 of a fresh manifest fetch. */
  function CalculateDigest(tool: ImageTool, c: Codecs, k: nat, uri: string): (r: Result<string, Error>)
    ensures tool.manifest(k, uri).Err? ==> r == Err(Tool(tool.manifest(k, uri).error))
    ensures r.Ok? <==> tool.manifest(k, uri).Ok?
    ensures r.Ok? ==> r.value == c.base64Encode(c.sha256(tool.manifest(k, uri).value))
  {
    match tool.manifest(k, uri)
    case Err(e) => Err(Tool(e))
    case Ok(bytes) => Ok(c.base64Encode(c.sha256(bytes)))
  }

  /** The digest-addressed URI of one manifest entry: `registry/repo@digest`. */
  function ConfigUri(registry: string, repo: string, digest: string): string {
    registry + "/" + repo + "@" + digest
  }

  /** The configuration fetches for a run of manifest entries, in list order. */
  function ConfigFetches(registry: string, repo: string, entries: seq<ManifestEntry>): (r: seq<Effect>)
    ensures |r| == |entries|
    ensures forall k :: 0 <= k < |entries| ==> r[k] == GetConfig(ConfigUri(registry, repo, entries[k].digest))
  {
    if entries == [] then []
    else [GetConfig(ConfigUri(registry, repo, entries[0].digest))] + ConfigFetches(registry, repo, entries[1..])
  }

  /** Resolution issues two manifest fetches before any configuration fetch. */
  const ConfigCallBase: nat := 2

  /** The kit metadata of entry `i`, fetched as the `2 + i`-th tool call. */
  function FetchEntry(tool: ImageTool, registry: string, repo: string, entries: seq<ManifestEntry>, i: nat)
    : Result<EncodedKitMetadata, Error>
    requires i < |entries|
  {
    TryFromImage(tool, ConfigCallBase + i, ConfigUri(registry, repo, entries[i].digest))
  }

  /**
   * The `while let` loop of `resolve`: entries `i..` are fetched one at a time
   * and each raw encoding must equal the canonical one.
   */
  function CheckRest(tool: ImageTool, registry: string, repo: string, entries: seq<ManifestEntry>,
                     canonical: EncodedKitMetadata, i: nat): (r: (Result<(), Error>, seq<Effect>))
    requires i <= |entries|
    ensures |r.1| <= |entries| - i
    ensures r.0.Ok? <==> forall k :: i <= k < |entries| ==> FetchEntry(tool, registry, repo, entries, k) == Ok(canonical)
    ensures r.0.Ok? ==> |r.1| == |entries| - i
    decreases |entries| - i
  {
    if i == |entries| then (Ok(()), [])
    else
      var fetch := GetConfig(ConfigUri(registry, repo, entries[i].digest));
      match FetchEntry(tool, registry, repo, entries, i)
      case Err(e) => (Err(e), [fetch])
      case Ok(m) =>
        if m != canonical then (Err(MetadataMismatch), [fetch])
        else
          var rest := CheckRest(tool, registry, repo, entries, canonical, i + 1);
          (rest.0, [fetch] + rest.1)
  }

  /**
   * The metadata half of `resolve`: the first entry's encoding is canonical,
   * every later one must equal it, and only then is it decoded.
   */
  function ValidateMetadata(tool: ImageTool, c: Codecs, registry: string, repo: string,
                            entries: seq<ManifestEntry>, uri: string): (r: (Result<ImageMetadata, Error>, seq<Effect>))
    ensures |entries| == 0 ==> r == (Err(NoMetadata(uri)), [])
    ensures |r.1| <= |entries|
    ensures r.0.Ok? ==>
      && |entries| > 0
      && (forall k :: 0 <= k < |entries| ==> FetchEntry(tool, registry, repo, entries, k) == FetchEntry(tool, registry, repo, entries, 0))
      && FetchEntry(tool, registry, repo, entries, 0).Ok?
      && DecodeMetadata(FetchEntry(tool, registry, repo, entries, 0).value, c) == Ok(r.0.value)
  {
    if |entries| == 0 then (Err(NoMetadata(uri)), [])
    else
      var first := GetConfig(ConfigUri(registry, repo, entries[0].digest));
      match FetchEntry(tool, registry, repo, entries, 0)
      case Err(e) => (Err(e), [first])
      case Ok(canonical) =>
        var rest := CheckRest(tool, registry, repo, entries, canonical, 1);
        var fetches := [first] + rest.1;
        if rest.0.Err? then (Err(rest.0.error), fetches)
        else
          match DecodeMetadata(canonical, c)
          case Err(stage) => (Err(MetadataUndecodable(stage)), fetches)
          case Ok(md) => (Ok(md), fetches)
  }

  /** `ImageResolver::resolve` as a function of the image tool's answers. */
  function ResolveOutcome(image: ProjectImage, skip: bool, tool: ImageTool, c: Codecs)
    : (r: (Result<Resolution, Error>, seq<Effect>))
    ensures |r.1| >= 1 && r.1[0] == GetManifest(image.projectImageUri.text)
    ensures r.0.Ok? ==> (r.0.value.metadata.None? <==> skip)
  {
    var uri := image.projectImageUri.text;
    match GetManifestList(tool, c, 0, uri)
    case Err(e) => (Err(e), [GetManifest(uri)])
    case Ok(list) =>
      match image.projectImageUri.registry
      case None => (Err(RegistryNotFound), [GetManifest(uri)])
      case Some(registry) =>
        var fetches := [GetManifest(uri), GetManifest(uri)];
        match CalculateDigest(tool, c, 1, uri)
        case Err(e) => (Err(e), fetches)
        case Ok(digest) =>
          var locked := LockedImage(image.name, image.version, image.vendor, image.originalSourceUri, digest);
          if skip then (Ok(Resolution(locked, None)), fetches)
          else
            var v := ValidateMetadata(tool, c, registry, image.projectImageUri.repo, list.manifests, uri);
            (if v.0.Ok? then Ok(Resolution(locked, Some(v.0.value))) else Err(v.0.error), fetches + v.1)
  }

  // ---------------------------------------------------------------------
  // Extraction
  // ---------------------------------------------------------------------

  /** `Path::join` of a relative path. */
  function Join(base: string, relative: string): string {
    base + "/" + relative
  }

  /** `path/vendor/name/arch` */
  function TargetPath(path: string, image: ProjectImage, arch: string): string {
    Join(path, image.vendor + "/" + image.name + "/" + arch)
  }

  /** `path/cache` */
  function CachePath(path: string): string {
    Join(path, "cache")
  }

  /** What the `find` over the manifest entries ends with. */
  datatype Selection = Found(entry: ManifestEntry) | PlatformMissing | NoMatch

  /**
   * `iter().find(|x| x.platform.as_ref().unwrap().architecture == arch)`: the
   * first entry of the requested architecture; an entry without a platform
   * reached before a match stops the search.
   */
  function SelectManifest(entries: seq<ManifestEntry>, arch: Arch): (r: Selection)
    ensures r.Found? ==> r.entry in entries && r.entry.platform == Some(Platform(arch))
    ensures r == NoMatch <==>
      forall k :: 0 <= k < |entries| ==> entries[k].platform.Some? && entries[k].platform.value.architecture != arch
  {
    if entries == [] then NoMatch
    else match entries[0].platform
      case None => PlatformMissing
      case Some(p) => if p.architecture == arch then Found(entries[0]) else SelectManifest(entries[1..], arch)
  }

  /** `ImageResolver::extract` as a function of the collaborators' answers. */
  function ExtractOutcome(image: ProjectImage, tool: ImageTool, c: Codecs, host: Host, path: string, arch: string)
    : (r: (Result<(), Error>, seq<Effect>))
    ensures 1 <= |r.1| <= 5 && r.1[0] == CreateDir(TargetPath(path, image, arch))
    ensures r.0.Ok? ==> |r.1| == 5
  {
    var target := TargetPath(path, image, arch);
    var cache := CachePath(path);
    var uri := image.projectImageUri.text;
    if host.createDir(target).Failed? then (Err(Filesystem(host.createDir(target).cause)), [CreateDir(target)])
    else if host.createDir(cache).Failed? then
      (Err(Filesystem(host.createDir(cache).cause)), [CreateDir(target), CreateDir(cache)])
    else
      var prepared := [CreateDir(target), CreateDir(cache), GetManifest(uri)];
      match GetManifestList(tool, c, 0, uri)
      case Err(e) => (Err(e), prepared)
      case Ok(list) =>
        match c.dockerArch(arch)
        case None => (Err(UnsupportedArch(arch)), prepared)
        case Some(wanted) =>
          match SelectManifest(list.manifests, wanted)
          case PlatformMissing => (Err(MissingPlatform), prepared)
          case NoMatch => (Err(NoImageForArch(wanted, uri)), prepared)
          case Found(entry) =>
            match image.projectImageUri.registry
            case None => (Err(RegistryUnresolved), prepared)
            case Some(registry) =>
              var archive := ArchiveRef(registry, image.projectImageUri.repo, entry.digest, cache);
              if host.openArchive(archive).Failed? then (Err(Archive(host.openArchive(archive).cause)), prepared)
              else if host.pull(archive).Failed? then
                (Err(Archive(host.pull(archive).cause)), prepared + [Pull(archive)])
              else if host.unpack(archive, target).Failed? then
                (Err(Archive(host.unpack(archive, target).cause)), prepared + [Pull(archive), Unpack(archive, target)])
              else (Ok(()), prepared + [Pull(archive), Unpack(archive, target)])
  }

  // ---------------------------------------------------------------------
  // The resolver object
  // ---------------------------------------------------------------------

  class ImageResolver {
    const image: ProjectImage
    var skipMetadataRetrieval: bool

    /** `from_image`, which never fails: metadata is retrieved unless later switched off. */
    constructor FromImage(image: ProjectImage)
      ensures this.image == image && !skipMetadataRetrieval
    {
      this.image := image;
      skipMetadataRetrieval := false;
    }

    /**
     * `skip_metadata_retrieval`, for SDK images, which carry no kit metadata.
     * The image is a constant of the object and stays as it was.
     */
    method SkipMetadataRetrieval()
      modifies this
      ensures skipMetadataRetrieval
    {
      skipMetadataRetrieval := true;
    }

    /** `resolve`: the second result lists the image-tool calls in the order issued. */
    method Resolve(tool: ImageTool, c: Codecs) returns (r: Result<Resolution, Error>, effects: seq<Effect>)
      ensures (r, effects) == ResolveOutcome(image, skipMetadataRetrieval, tool, c)
    {
      var uri := image.projectImageUri.text;
      var listing := GetManifestList(tool, c, 0, uri);
      effects := [GetManifest(uri)];
      if listing.Err? {
        r := Err(listing.error);
        return;
      }
      if image.projectImageUri.registry.None? {
        r := Err(RegistryNotFound);
        return;
      }
      var registry := image.projectImageUri.registry.value;
      var repo := image.projectImageUri.repo;
      var digest := CalculateDigest(tool, c, |effects|, uri);
      effects := effects + [GetManifest(uri)];
      assert effects == [GetManifest(uri), GetManifest(uri)];
      if digest.Err? {
        r := Err(digest.error);
        return;
      }
      var locked := LockedImage(image.name, image.version, image.vendor, image.originalSourceUri, digest.value);
      if skipMetadataRetrieval {
        r := Ok(Resolution(locked, None));
        return;
      }

      var entries := listing.value.manifests;
      if |entries| == 0 {
        r := Err(NoMetadata(uri));
        assert effects + [] == effects;
        return;
      }
      var firstUri := ConfigUri(registry, repo, entries[0].digest);
      var first := TryFromImage(tool, |effects|, firstUri);
      effects := effects + [GetConfig(firstUri)];
      if first.Err? {
        r := Err(first.error);
        return;
      }
      var canonical := first.value;
      ghost var expected := CheckRest(tool, registry, repo, entries, canonical, 1);

      var i := 1;
      while i < |entries|
        invariant 1 <= i <= |entries|
        invariant |effects| == ConfigCallBase + i
        invariant expected.0 == CheckRest(tool, registry, repo, entries, canonical, i).0
        invariant effects + CheckRest(tool, registry, repo, entries, canonical, i).1
               == [GetManifest(uri), GetManifest(uri)] + ([GetConfig(firstUri)] + expected.1)
      {
        var entryUri := ConfigUri(registry, repo, entries[i].digest);
        var next := TryFromImage(tool, |effects|, entryUri);
        ghost var before := effects;
        effects := effects + [GetConfig(entryUri)];
        if next.Err? {
          r := Err(next.error);
          return;
        }
        if next.value != canonical {
          r := Err(MetadataMismatch);
          return;
        }
        assert before + CheckRest(tool, registry, repo, entries, canonical, i).1
            == effects + CheckRest(tool, registry, repo, entries, canonical, i + 1).1;
        i := i + 1;
      }

      assert effects == [GetManifest(uri), GetManifest(uri)] + ([GetConfig(firstUri)] + expected.1);
      var decoded := DecodeMetadata(canonical, c);
      if decoded.Err? {
        r := Err(MetadataUndecodable(decoded.error));
        return;
      }
      r := Ok(Resolution(locked, Some(decoded.value)));
    }

    /** `extract`: the second result lists the effects in the order performed. */
    method Extract(tool: ImageTool, c: Codecs, host: Host, path: string, arch: string)
      returns (r: Result<(), Error>, effects: seq<Effect>)
      ensures (r, effects) == ExtractOutcome(image, tool, c, host, path, arch)
    {
      var target := TargetPath(path, image, arch);
      var cache := CachePath(path);
      effects := [CreateDir(target)];
      var made := host.createDir(target);
      if made.Failed? {
        r := Err(Filesystem(made.cause));
        return;
      }
      effects := effects + [CreateDir(cache)];
      assert effects == [CreateDir(target), CreateDir(cache)];
      made := host.createDir(cache);
      if made.Failed? {
        r := Err(Filesystem(made.cause));
        return;
      }

      var uri := image.projectImageUri.text;
      effects := effects + [GetManifest(uri)];
      assert effects == [CreateDir(target), CreateDir(cache), GetManifest(uri)];
      var listing := GetManifestList(tool, c, 0, uri);
      if listing.Err? {
        r := Err(listing.error);
        return;
      }
      var wanted := c.dockerArch(arch);
      if wanted.None? {
        r := Err(UnsupportedArch(arch));
        return;
      }
      var selection := SelectManifest(listing.value.manifests, wanted.value);
      if selection.PlatformMissing? {
        r := Err(MissingPlatform);
        return;
      }
      if selection.NoMatch? {
        r := Err(NoImageForArch(wanted.value, uri));
        return;
      }

      if image.projectImageUri.registry.None? {
        r := Err(RegistryUnresolved);
        return;
      }
      var archive := ArchiveRef(image.projectImageUri.registry.value, image.projectImageUri.repo,
                                selection.entry.digest, cache);
      var step := host.openArchive(archive);
      if step.Failed? {
        r := Err(Archive(step.cause));
        return;
      }
      effects := effects + [Pull(archive)];
      assert effects == [CreateDir(target), CreateDir(cache), GetManifest(uri)] + [Pull(archive)];
      step := host.pull(archive);
      if step.Failed? {
        r := Err(Archive(step.cause));
        return;
      }
      effects := effects + [Unpack(archive, target)];
      assert effects == [CreateDir(target), CreateDir(cache), GetManifest(uri)] + [Pull(archive), Unpack(archive, target)];
      step := host.unpack(archive, target);
      if step.Failed? {
        r := Err(Archive(step.cause));
        return;
      }
      r := Ok(());
    }
  }
}
