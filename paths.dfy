/**
 * Filesystem paths as the downloader builds them: the string the user typed
 * (the root, kept verbatim) followed by the segments appended with `/`.
 * How the root string itself is parsed and normalised is not modelled.
 */
module Paths {

  datatype FsPath = FsPath(root: string, segments: seq<string>)

  /** `Path(s)` for a user-supplied string `s`. */
  function PathOf(s: string): FsPath {
    FsPath(s, [])
  }

  /** `p / segment`. */
  function Join(p: FsPath, segment: string): FsPath {
    FsPath(p.root, p.segments + [segment])
  }
}
