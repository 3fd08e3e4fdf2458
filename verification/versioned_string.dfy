/**
 The wrapper that makes the build script and the macros agree on the
 snapshot format: the serialised snapshot travels together with the version
 of the common crate that wrote it, and the reader accepts it only when its
 own version is the same. The common crate's own version is a parameter.
 */
module VersionedString {
  import C = Common

  datatype VersionedString = VersionedString(version: C.Version, text: string)

  /** `build_info_common_versioned`: stamps the string with the writer's version. */
  function Versioned(text: string, crateVersion: C.Version): (r: VersionedString)
    ensures r.text == text
    ensures r.version == crateVersion
  {
    VersionedString(crateVersion, text)
  }

  /** `check`: the reader accepts exactly the strings stamped with its own version. */
  predicate Check(v: VersionedString, crateVersion: C.Version) {
    v.version == crateVersion
  }

  /**
   What one version of the crate writes, that same version accepts, whatever
   the payload; a reader of any other version rejects it.
   */
  lemma CheckAcceptsOwnVersion(text: string, writer: C.Version, reader: C.Version)
    ensures Check(Versioned(text, writer), reader) <==> writer == reader
    ensures Check(Versioned(text, writer), writer)
  {
  }
}
