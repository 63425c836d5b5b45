/** The names and digests the activation protocol stores.

    SHA-256 and the JSON encoding are represented by free constructors: a digest is a value that
    determines what was digested. Paths are represented by the skill and version they name, which
    VersionPaths shows to be one-to-one. */
module Packages {

  datatype Action = Promote | Rollback | EvaluateOnly

  datatype Digest = OfContent(prompt: string) | OfMetadata(metadata: Metadata)

  /** The metadata file of one version; it binds the content by digest. */
  datatype Metadata = Metadata(
    skill: string, version: int, promptDigest: Digest,
    permissions: seq<string>, dataClasses: seq<string>, budgetUSD: real)

  /** The path of a version's content file. */
  datatype Source = Source(skill: string, version: int)

  /** The catalog's personal pin for one skill. */
  datatype Pin = Pin(source: Source, content: Digest, authority: Digest)

  /** operationKey: names one activation by everything that decides it. */
  datatype OpKey = OpKey(action: Action, skill: string, from: int, to: int, content: Digest, authority: Digest)
}
