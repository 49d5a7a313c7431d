/** The catalog entities and name grammars that projection rests on (internal/catalog/catalog.go). */
module Catalog {
  import opened Keys
  import opened Wrappers

  datatype ArtifactFormat = Raw | RawGz | Qcow2

  datatype Artifact = Artifact(
    id: Uuid, variant: string, operatingSystem: string, architecture: string, format: ArtifactFormat,
    primaryDigest: Digest, primarySize: int)

  datatype Attachment = Attachment(id: Uuid, name: string, digest: Digest, size: int)

  datatype ManifestArtifact = ManifestArtifact(artifact: Artifact, attachments: seq<Attachment>)

  datatype Manifest = Manifest(
    imageName: string, displayName: Option<string>, versionId: Uuid, version: string, artifacts: seq<ManifestArtifact>)

  const DEFAULT_ARTIFACT_VARIANT := "default"

  predicate Alnum(c: char) {
    'a' <= c <= 'z' || 'A' <= c <= 'Z' || '0' <= c <= '9'
  }

  /** The image-name pattern: a lower-case letter or digit, then up to 127 of those or ". _ -". */
  predicate ValidImageName(s: string) {
    && 1 <= |s| <= 128
    && ('a' <= s[0] <= 'z' || '0' <= s[0] <= '9')
    && forall k | 1 <= k < |s| :: 'a' <= s[k] <= 'z' || '0' <= s[k] <= '9' || s[k] in "._-"
  }

  /** The version pattern, which allows colons after the first character. */
  predicate ValidVersion(s: string) {
    1 <= |s| <= 128 && Alnum(s[0]) && forall k | 1 <= k < |s| :: Alnum(s[k]) || s[k] in "._+:-"
  }

  /** The pattern of operating systems, architectures and variants. */
  predicate ValidToken(s: string) {
    1 <= |s| <= 64 && Alnum(s[0]) && forall k | 1 <= k < |s| :: Alnum(s[k]) || s[k] in "._+-"
  }

  function NormalizeArtifactVariant(variant: string): string {
    if variant == "" then DEFAULT_ARTIFACT_VARIANT else variant
  }
}
