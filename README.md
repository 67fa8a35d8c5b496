# twoliter kit-image locking, modelled in Dafny

This project models the locking core of twoliter's `project/lock/image.rs`.
That file turns a declared kit image into a locked, content-addressed record for the lockfile.
It also materialises one architecture of an image on disk.

- **`LockedImage`** (`locked_image.dfy`): the lockfile record.
  Its hand-written equality looks at `source` and `digest` only.
  Its derived ordering is lexicographic over all five fields.
  The `VendedArtifact` getters are `ArtifactName`, `VendorName` and `ArtifactVersion`.
- **Kit metadata** (`kit_metadata.dfy`): `EncodedKitMetadata` is the raw label value; its equality is equality of the raw string.
  `TryFromImage` looks up the `dev.bottlerocket.kit.v1` label.
  `DecodeMetadata` is the strict decode (base64 first, then JSON).
  `DebugImageMetadata` and `TryDebugImageMetadata` are the debug renderings, and the second never fails.
- **`ImageResolver`** (`resolver.dfy`): a class holding the project image and the skip-metadata flag.
  `Resolve` fetches and parses the manifest list, then requires a registry.
  It locks name, version, vendor, the original source URI and base64(SHA-256) of a second manifest fetch.
  Unless skipped, it fetches every entry's configuration in list order and requires every raw encoding to equal the first.
  Only after that does it decode the first encoding.
  `Extract` creates `path/vendor/name/arch` and `path/cache`, fetches the manifest list and selects the first entry of the requested architecture.
  It then pulls and unpacks that entry's archive.
  Each method is proved equal to a specifying function (`ResolveOutcome`, `ExtractOutcome`).
  That function returns the result and the ordered list of effects (tool calls, directory creations, pull, unpack).
- **Properties** (`resolver_properties.dfy`): lemmas about those functions.
  They cover the failure order, the skip path, the canonical-first policy, manifest selection, extraction order and path disjointness.

Collaborators are parameters, so every proof holds for all of their behaviours (`externals.dfy`, `Codecs` in `kit_metadata.dfy`):
- The image tool (`ImageTool`) answers each manifest or configuration request with bytes, labels or an error.
  An answer may depend on the URI and on how many tool calls the operation has already made.
  So the two manifest fetches of `resolve` (lines 165 and 178) are independent answers.
- The filesystem and the OCI archive (`Host`) answer each step with success or an error.
- SHA-256, base64 (section 4 of RFC 4648), `serde_json`, the derived `Debug` of `ImageMetadata` and `DockerArchitecture::try_from` are uninterpreted total functions in `Codecs`.

Metadata comparison: the code compares the raw encoded strings (`kit_metadata != canonical_metadata` on `EncodedKitMetadata`).
It decodes the first entry only after every entry agrees.
It does not decode each entry and compare decoded values.
The model follows the code.
`ResolveComparesRawEncodings` shows the consequence: two encodings of the same metadata abort resolution.
The first entry's fetch error is fatal; no later entry is tried instead.

## Model

| member | source | states |
|---|---|---|
| `LockedImages.LockedImage.Equals` | twoliter/src/project/lock/image.rs:32-36 | two locked images are equal iff one is the other with only name, version and vendor replaced |
| `LockedImages.LockedImage.ArtifactName` | twoliter/src/project/lock/image.rs:48-50 | the `VendedArtifact` name of a lock is its recorded name (for resolved locks, the declared name: see `ResolveLockedRecord`) |
| `LockedImages.LockedImage.VendorName` | twoliter/src/project/lock/image.rs:52-54 | the `VendedArtifact` vendor of a lock is its recorded vendor |
| `LockedImages.LockedImage.ArtifactVersion` | twoliter/src/project/lock/image.rs:56-58 | the `VendedArtifact` version of a lock is its recorded version |
| `LockedImages.Compare` | twoliter/src/project/lock/image.rs:18-30 | the derived ordering: lexicographic over name, version, vendor, source and digest; its laws are the `Compare…` lemmas |
| `LockedImages.EqualsIsEquivalence` | twoliter/src/project/lock/image.rs:32-36 | the hand-written equality is reflexive, symmetric and transitive |
| `LockedImages.CompareEqualIffIdentical` | twoliter/src/project/lock/image.rs:18-30 | the derived ordering says Equal exactly for records equal in all five fields |
| `LockedImages.CompareReverse` | twoliter/src/project/lock/image.rs:18-30 | swapping the arguments of the derived ordering reverses its answer |
| `LockedImages.CompareTransitive` | twoliter/src/project/lock/image.rs:18-30 | the derived lexicographic ordering is transitive |
| `LockedImages.CompareEqualImpliesEquals` | twoliter/src/project/lock/image.rs:18-36 | whatever the derived ordering calls Equal, equality calls equal |
| `LockedImages.DerivedOrderSplitsEqualImages` | twoliter/src/project/lock/image.rs:18-36 | renaming a record keeps it equal to the original, yet the derived ordering does not call the two Equal |
| `LockedImages.CompareIdentityAgreesWithEquals` | twoliter/src/project/lock/image.rs:32-36 | ordering by (source, digest) says Equal exactly when the equality holds |
| `LockedImages.CompareIdentityReverse` | twoliter/src/project/lock/image.rs:32-36 | swapping the arguments of the (source, digest) ordering reverses its answer |
| `LockedImages.CompareIdentityTransitive` | twoliter/src/project/lock/image.rs:32-36 | the (source, digest) ordering is transitive |
| `KitMetadata.TryFromImage` | twoliter/src/project/lock/image.rs:93-112 | a configuration fetch error is returned unchanged; otherwise the result is the label's exact value, or NotAKit iff the label is absent |
| `KitMetadata.DecodeMetadata` | twoliter/src/project/lock/image.rs:76-85 | the base64 stage fails iff base64 decoding fails; the JSON stage fails iff parsing the decoded bytes fails; success returns the parsed value |
| `KitMetadata.DecodeRoundTrip` | twoliter/src/project/lock/image.rs:76-85 | metadata serialised to JSON and base64 encoded decodes back to itself, assuming base64 and the JSON parser invert their encoders on those inputs |
| `KitMetadata.EscapeNewlines` | twoliter/src/project/lock/image.rs:120 | the escaped string has no line feed, has one extra character per line feed, and is unchanged when there is none |
| `KitMetadata.EscapeNewlinesConcat` | twoliter/src/project/lock/image.rs:120 | escaping distributes over concatenation, so it works character by character and keeps the order |
| `KitMetadata.EscapeNewlinesOfChar` | twoliter/src/project/lock/image.rs:120 | a line feed becomes a backslash followed by `n`; any other character is kept as it is |
| `KitMetadata.DebugImageMetadata` | twoliter/src/project/lock/image.rs:124-130 | a rendering exists iff the strict decode succeeds, and it shows the decoded metadata |
| `KitMetadata.TryDebugImageMetadata` | twoliter/src/project/lock/image.rs:118-122 | total; shows the decoded metadata when decoding succeeds, else the one-line encoded form with line feeds escaped, which is the raw string when it has none |
| `KitMetadata.JunkMetadataStaysEncoded` | twoliter/src/project/lock/image.rs:315-322 | with standard base64, the test's junk string has no decoded rendering and is shown in its encoded form |
| `Resolver.GetManifestList` | twoliter/src/project/lock/image.rs:176-181 | a fetch error passes through; parsing failure gives ManifestListInvalid; success is the parse of the fetched bytes |
| `Resolver.CalculateDigest` | twoliter/src/project/lock/image.rs:161-174 | succeeds iff the manifest fetch does, with base64 of the SHA-256 of the fetched bytes |
| `Resolver.ConfigFetches` | twoliter/src/project/lock/image.rs:209-216 | the k-th configuration fetch is addressed `registry/repo@digest` of the k-th entry |
| `Resolver.ImageResolver.FromImage` | twoliter/src/project/lock/image.rs:146-151 | the resolver holds the given image with metadata retrieval on |
| `Resolver.ImageResolver.SkipMetadataRetrieval` | twoliter/src/project/lock/image.rs:153-159 | the skip flag is set; the image is a constant and stays |
| `Resolver.CheckRest` | twoliter/src/project/lock/image.rs:224-234 | the `while let` loop over entries `i..`: fetches at most the remaining entries, succeeds iff every one returns the canonical encoding, and then has fetched all of them |
| `Resolver.ValidateMetadata` | twoliter/src/project/lock/image.rs:208-239 | an empty list fails with NoMetadata and fetches nothing; success means every entry returned the first entry's fetch and the result is that encoding's decoding |
| `Resolver.ResolveOutcome` | twoliter/src/project/lock/image.rs:183-240 | the first call is always the manifest fetch; a success carries metadata exactly when retrieval is not skipped |
| `Resolver.ImageResolver.Resolve` | twoliter/src/project/lock/image.rs:183-240 | the loop computes exactly the result and call sequence of `ResolveOutcome` |
| `Resolver.TargetPath` | twoliter/src/project/lock/image.rs:255-259 | the target directory `path/vendor/name/arch` (shape and distinctness proved in `ExtractPaths`) |
| `Resolver.CachePath` | twoliter/src/project/lock/image.rs:260 | the cache directory `path/cache` |
| `Resolver.SelectManifest` | twoliter/src/project/lock/image.rs:267-276 | a found entry is in the list and has the requested architecture; NoMatch exactly when every entry has a platform of another architecture |
| `Resolver.ExtractOutcome` | twoliter/src/project/lock/image.rs:246-294 | between one and five effects, the first the target directory's creation; a success performs all five |
| `Resolver.ImageResolver.Extract` | twoliter/src/project/lock/image.rs:242-294 | computes exactly the result and effect sequence of `ExtractOutcome` |
| `ResolverProperties.CheckRestStops` | twoliter/src/project/lock/image.rs:224-234 | the loop stops at the first entry not returning the canonical encoding, and has fetched exactly the entries up to it; it reports that entry's fetch error or a mismatch, or succeeds when there is none |
| `ResolverProperties.ResolveFailureOrder` | twoliter/src/project/lock/image.rs:187-202 | a manifest fetch or parse error is reported before a missing registry, which is reported before the digest fetch is issued; a digest fetch error follows both |
| `ResolverProperties.ResolveLockedRecord` | twoliter/src/project/lock/image.rs:195-202 | the locked record has the declared name, version and vendor (also through its VendedArtifact view), the original source URI, and base64(SHA-256) of the second fetch's bytes, which are the parsed bytes when both fetches agree |
| `ResolverProperties.SameBytesLockEqualImages` | twoliter/src/project/lock/image.rs:162-167 | resolutions with the same source whose digest fetches returned the same bytes lock equal records, whatever the declared names |
| `ResolverProperties.ResolveSkipPath` | twoliter/src/project/lock/image.rs:204-206 | with skipping on, no configuration is fetched, no metadata is returned, and success is exactly success of manifest, registry and digest |
| `ResolverProperties.ResolveNeedsAnEntry` | twoliter/src/project/lock/image.rs:219-222 | an empty manifest list fails with NoMetadata for the image URI, after no configuration fetch |
| `ResolverProperties.ResolveFirstFetchIsFatal` | twoliter/src/project/lock/image.rs:219-222 | a first-entry fetch error is the result, after exactly one configuration fetch |
| `ResolverProperties.ResolveMetadataPolicy` | twoliter/src/project/lock/image.rs:208-239 | configurations are fetched in list order, the k-th as tool call 2+k, up to the first entry differing from the first; that entry's error or a mismatch is reported; otherwise the first encoding's decoding or its decode error |
| `ResolverProperties.ResolveSucceedsIff` | twoliter/src/project/lock/image.rs:219-239 | with metadata, resolution succeeds iff the prelude succeeds, some entry exists, every entry's fetch equals the first successful fetch, and it decodes; the metadata is that decoding |
| `ResolverProperties.ResolveComparesRawEncodings` | twoliter/src/project/lock/image.rs:225-233 | a second entry with a different raw string aborts with a mismatch, whatever either decodes to |
| `ResolverProperties.SelectManifestFirstMatch` | twoliter/src/project/lock/image.rs:267-276 | the selected entry is the first of the requested architecture; every entry before it has a platform of another one; a platformless entry reached first stops the search; none matching is NoMatch |
| `ResolverProperties.ExtractPaths` | twoliter/src/project/lock/image.rs:255-260 | the target is path/vendor/name/arch, the cache is path/cache, and they differ |
| `ResolverProperties.TargetPathsAreDisjoint` | twoliter/src/project/lock/image.rs:255-259 | with slash-free vendor and name, equal target paths under one path mean equal vendor, name and architecture |
| `ResolverProperties.ExtractFollowsPlan` | twoliter/src/project/lock/image.rs:261-291 | the effects are a prefix of: create target, create cache, fetch manifest, pull, unpack; the archive is addressed by registry, repo, the selected entry's digest and the cache; it succeeds exactly when every collaborator step succeeds, and then performs all five |
| `ResolverProperties.ExtractSelectionFailureKeepsDirs` | twoliter/src/project/lock/image.rs:261-278 | after both directories and the manifest fetch, the following each fail with nothing pulled: an unknown architecture, no matching entry, a platformless entry, or a missing registry |

## Left out

- Registry transport, `ImageTool::get_manifest` and `get_config`: modelled as arbitrary responses (`ImageTool`), not as network behaviour.
- `OCIArchive::new`, `pull_image` and `unpack_layers`: modelled as steps that succeed or fail (`Host`).
  The code behind them does not belong to this model.
  So the local cache check, the digest marker file and extraction idempotence are not modelled.
- `create_dir_all`: a recorded step that may fail; filesystem state is not modelled.
- SHA-256, base64, `serde_json`, the derived `Debug` of `ImageMetadata` and `DockerArchitecture::try_from`: foreign crates, taken as uninterpreted functions.
  So the passing debug-rendering test (lines 301-313) cannot be reproduced.
- `Display` for `LockedImage` (lines 38-45) and all logging and tracing: string formatting only.
- The rendering of `project_image_uri()` is carried as a field (`ImageUri.text`), not computed.
- `Version` is (major, minor, patch); semver pre-release and build metadata, and their ordering, are not modelled.
- `LockedImages.CompareStrings`: compares characters by code point, which matches Rust's byte order on UTF-8 strings.
- `Resolver.TargetPath`: `Path::join` is modelled as joining with `/`.
  Absolute components and trailing separators are not modelled.
- `Resolver.ImageResolver.FromImage`: the Rust function returns a `Result` that is always `Ok`, so it is a constructor.
- `Resolver.ImageResolver.SkipMetadataRetrieval`: the Rust builder takes and returns `self`; the model updates the object in place.
- The `platform.unwrap()` panic (line 271): modelled as the `MissingPlatform` error.
- The async stream (`stream::iter`, `then`, `pin_mut`, `try_next`): an explicit loop that fetches one entry per iteration, which keeps the laziness and the order.
- Error context chains: each distinct error site is one `Error` constructor; the message text is not modelled.

## Findings

| source | as written | input that shows it | evidently intended | confidence | as-written member | corrected member |
|---|---|---|---|---|---|---|
| twoliter/src/project/lock/image.rs:18-36 | `PartialOrd` and `Ord` are derived over all five fields, while `PartialEq` compares only `source` and `digest`; Rust requires `a == b` exactly when `partial_cmp` is `Some(Equal)` | two records with the same source and digest and different names: `eq` says equal, `cmp` does not say `Equal` | an ordering by (source, digest), agreeing with equality | medium; not executed | `LockedImages.DerivedOrderSplitsEqualImages` | `LockedImages.CompareIdentityAgreesWithEquals` |
