/** Files and the digests that identify their bytes. */
module Artifacts {

  /** A digest stands for the bytes it was computed from: SHA-256 is taken to be injective. */
  type Sha256 = nat

  type Path = string

  /** The regular files on disk, each with the digest of its bytes. */
  type Files = map<Path, Sha256>

  /** The two kinds of artifact a human approves. */
  datatype Kind = Thumbnail | Video
}
