/**
 The type tags of the format-macro values and the names they print under in
 error messages.
 */
module Types {
  import opened Wrappers

  /**
   One tag per value kind. `OptimizationLevel` and `Endianness` are reported by
   value kinds of the system although the tag list of its `types.rs` stops at `Vec`.
   */
  datatype Type =
    | Bool | Char | Integer | String
    | BuildInfo | CrateInfo | CompilerInfo | CompilerChannel | VersionControl | GitInfo
    | Version | DateTimeUtc
    | Option | Vec
    | OptimizationLevel | Endianness

  /** The `Display` of a type tag. */
  function TypeName(t: Type): string {
    match t
    case Bool => "bool"
    case Char => "char"
    case Integer => "integer"
    case String => "string"
    case BuildInfo => "build_info::BuildInfo"
    case CrateInfo => "build_info::CrateInfo"
    case CompilerInfo => "build_info::CompilerInfo"
    case CompilerChannel => "build_info::CompilerChannel"
    case VersionControl => "build_info::VersionControl"
    case GitInfo => "build_info::GitInfo"
    case Version => "build_info::semver::Version"
    case DateTimeUtc => "build_info::chrono::DateTime<build_info::chrono::Utc>"
    case Option => "Option<_>"
    case Vec => "Vec<_>"
    case OptimizationLevel => "build_info::OptimizationLevel"
    case Endianness => "build_info::Endianness"
  }

  /** Reads a type name back into its tag; the inverse of `TypeName`. */
  function ParseTypeName(s: string): Option<Type> {
    if s == "bool" then Some(Bool)
    else if s == "char" then Some(Char)
    else if s == "integer" then Some(Integer)
    else if s == "string" then Some(String)
    else if s == "build_info::BuildInfo" then Some(BuildInfo)
    else if s == "build_info::CrateInfo" then Some(CrateInfo)
    else if s == "build_info::CompilerInfo" then Some(CompilerInfo)
    else if s == "build_info::CompilerChannel" then Some(CompilerChannel)
    else if s == "build_info::VersionControl" then Some(VersionControl)
    else if s == "build_info::GitInfo" then Some(GitInfo)
    else if s == "build_info::semver::Version" then Some(Version)
    else if s == "build_info::chrono::DateTime<build_info::chrono::Utc>" then Some(DateTimeUtc)
    else if s == "Option<_>" then Some(Type.Option)
    else if s == "Vec<_>" then Some(Vec)
    else if s == "build_info::OptimizationLevel" then Some(OptimizationLevel)
    else if s == "build_info::Endianness" then Some(Endianness)
    else None
  }

  lemma RoundTripScalars(t: Type)
    requires t.Bool? || t.Char? || t.Integer?
    ensures ParseTypeName(TypeName(t)) == Some(t)
  {
  }

  lemma RoundTripContainers(t: Type)
    requires t.String? || t.Option? || t.Vec?
    ensures ParseTypeName(TypeName(t)) == Some(t)
  {
    if t.String? {
      assert ParseTypeName("string") == Some(String);
    } else if t.Option? {
      assert ParseTypeName("Option<_>") == Some(Type.Option);
    } else {
      assert ParseTypeName("Vec<_>") == Some(Vec);
    }
  }

  lemma RoundTripRecords(t: Type)
    requires t.BuildInfo? || t.CrateInfo? || t.CompilerInfo? || t.CompilerChannel? || t.VersionControl?
    ensures ParseTypeName(TypeName(t)) == Some(t)
  {
  }

  lemma RoundTripOthers(t: Type)
    requires t.GitInfo? || t.Version? || t.DateTimeUtc?
    ensures ParseTypeName(TypeName(t)) == Some(t)
  {
    if t.GitInfo? {
      assert ParseTypeName("build_info::GitInfo") == Some(GitInfo);
    } else if t.Version? {
      assert ParseTypeName("build_info::semver::Version") == Some(Version);
    } else {
      assert ParseTypeName("build_info::chrono::DateTime<build_info::chrono::Utc>") == Some(DateTimeUtc);
    }
  }

  lemma RoundTripEnums(t: Type)
    requires t.OptimizationLevel? || t.Endianness?
    ensures ParseTypeName(TypeName(t)) == Some(t)
  {
    if t.OptimizationLevel? {
      assert ParseTypeName("build_info::OptimizationLevel") == Some(OptimizationLevel);
    } else {
      assert ParseTypeName("build_info::Endianness") == Some(Endianness);
    }
  }

  /** Every type name reads back as the tag it was printed from. */
  lemma TypeNameRoundTrip(t: Type)
    ensures ParseTypeName(TypeName(t)) == Some(t)
  {
    if t.Bool? || t.Char? || t.Integer? {
      RoundTripScalars(t);
    } else if t.String? || t.Option? || t.Vec? {
      RoundTripContainers(t);
    } else if t.BuildInfo? || t.CrateInfo? || t.CompilerInfo? || t.CompilerChannel? || t.VersionControl? {
      RoundTripRecords(t);
    } else if t.GitInfo? || t.Version? || t.DateTimeUtc? {
      RoundTripOthers(t);
    } else {
      RoundTripEnums(t);
    }
  }

  /** Distinct tags print under distinct names. */
  lemma TypeNameInjective(a: Type, b: Type)
    ensures TypeName(a) == TypeName(b) ==> a == b
  {
    TypeNameRoundTrip(a);
    TypeNameRoundTrip(b);
  }
}
