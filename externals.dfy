/**
 * Types owned by code outside `project/lock/image.rs` that the resolver consumes:
 * the declared image reference, its registry URI, the manifest-list view,
 * and the two collaborators (the image tool and the host that holds the
 * filesystem and the OCI archive cache). Collaborators are oracles:
 * each response is an arbitrary total function, so every proof holds for
 * every registry and every filesystem.
 */
module Externals {
  import opened Wrappers

  newtype byte = x: int | 0 <= x < 256

  type Bytes = seq<byte>

  /** A semantic version. Pre-release and build metadata are not modelled. */
  datatype Version = Version(major: nat, minor: nat, patch: nat)

  /** A declared dependency on a kit or SDK image (`crate::project::Image`). */
  datatype Image = Image(name: string, version: Version, vendor: string)

  /**
   * A fully or partly qualified image URI. `text` is its rendered form
   * (the `to_string()` of `project_image_uri()`), which the image tool is queried with.
   */
  datatype ImageUri = ImageUri(registry: Option<string>, repo: string, text: string)

  /** An image bound to the project: the address queried and the address recorded in the lock. */
  datatype ProjectImage = ProjectImage(
    name: string,
    version: Version,
    vendor: string,
    projectImageUri: ImageUri,
    originalSourceUri: string)

  /** `DockerArchitecture`: equality is all the core uses. */
  datatype Arch = Arch(tag: string)

  datatype Platform = Platform(architecture: Arch)

  /** One per-platform entry of an OCI manifest list. */
  datatype ManifestEntry = ManifestEntry(digest: string, platform: Option<Platform>)

  datatype ManifestListView = ManifestListView(manifests: seq<ManifestEntry>)

  /** Whatever error a collaborator reports; the core only passes it on. */
  datatype ToolError = ToolError(detail: string)

  /** The label map of an image configuration. */
  type Labels = map<string, string>

  /**
   * The image tool. Each answer may depend on the URI and on how many
   * image-tool calls the current operation has already issued, so two
   * fetches of the same URI are independent answers.
   */
  datatype ImageTool = ImageTool(
    manifest: (nat, string) -> Result<Bytes, ToolError>,
    config: (nat, string) -> Result<Labels, ToolError>)

  /** The address of a cached OCI archive (`OCIArchive::new` arguments). */
  datatype ArchiveRef = ArchiveRef(registry: string, repo: string, digest: string, cacheDir: string)

  datatype Outcome = Done | Failed(cause: ToolError)

  /** The filesystem and the OCI archive collaborator as seen by `extract`. */
  datatype Host = Host(
    createDir: string -> Outcome,
    openArchive: ArchiveRef -> Outcome,
    pull: ArchiveRef -> Outcome,
    unpack: (ArchiveRef, string) -> Outcome)

  /** The externally visible steps of one resolve or extract call, in issue order. */
  datatype Effect =
    | GetManifest(uri: string)
    | GetConfig(uri: string)
    | CreateDir(path: string)
    | Pull(archive: ArchiveRef)
    | Unpack(archive: ArchiveRef, target: string)
}
