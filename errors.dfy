/** The errors a verification run can throw, one constructor per cause. */
module Errors {

  datatype Error =
    | ExtractFailed(message: string)  // `cp -r` or `tar -xzf` of the package failed
    | ManifestNotFound                // the package has no SKILL.md
    | NoFrontmatter                   // SKILL.md does not start with a `---` header block
    | MissingFields                   // the header lacks a non-empty name or version
    | WriteFailed(message: string)    // Dockerfile.test could not be written
    | BuildFailed(message: string)    // `docker build` failed
    | CleanupFailed(message: string)  // `rm -rf` of the extraction directory failed

  /** The `message` of the JavaScript Error object for each cause. */
  function Message(e: Error): string
  {
    match e
    case ExtractFailed(m) => m
    case ManifestNotFound => "No SKILL.md found in package"
    case NoFrontmatter => "Invalid SKILL.md: no frontmatter found"
    case MissingFields => "Manifest missing required fields: name, version"
    case WriteFailed(m) => m
    case BuildFailed(m) => m
    case CleanupFailed(m) => m
  }
}
