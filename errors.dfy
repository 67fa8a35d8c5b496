/** The failures `project/lock/image.rs` can report, one constructor per distinct context. */
module Errors {
  import opened Externals

  /** Which stage of `ImageMetadata::try_from` failed. */
  datatype DecodeError = Base64Invalid | JsonInvalid

  datatype Error =
    /** An image-tool failure, passed on unchanged. */
    | Tool(cause: ToolError)
    /** "failed to deserialize manifest list" */
    | ManifestListInvalid
    /** "no registry found for image" (resolve) */
    | RegistryNotFound
    /** "no metadata stored on image, this image appears to not be a kit" */
    | NotAKit
    /** "could not find metadata for kit <uri>" */
    | NoMetadata(uri: string)
    /** "Metadata does not match between images in manifest list" */
    | MetadataMismatch
    /** "Failed to decode and parse kit metadata" */
    | MetadataUndecodable(stage: DecodeError)
    /** `create_dir_all` failed. */
    | Filesystem(cause: ToolError)
    /** `DockerArchitecture::try_from` rejected the requested architecture. */
    | UnsupportedArch(requested: string)
    /** An entry inspected before a match has no platform (the `unwrap` panic). */
    | MissingPlatform
    /** "could not find image for architecture '<arch>' at <uri>" */
    | NoImageForArch(wanted: Arch, image: string)
    /** "failed to resolve image registry" (extract) */
    | RegistryUnresolved
    /** `OCIArchive::new`, `pull_image` or `unpack_layers` failed. */
    | Archive(cause: ToolError)
}
