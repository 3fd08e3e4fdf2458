/**
 The target description a build script reads from the variables cargo sets
 for it. Names and family default to `UNKNOWN`; the pointer width and the
 endianness are required and panic when missing or malformed; the target
 features are the comma-separated list, where an unset variable counts as
 the empty string.
 */
module Target {
  import opened Wrappers
  import opened Text
  import C = Common

  datatype Panic =
    | PointerWidthMissing
    | PointerWidthNotANumber(text: string)
    | EndiannessMissing
    | UnknownEndianness(text: string)

  const UNKNOWN: string := "UNKNOWN"

  function VarOr(env: map<string, string>, name: string, default: string): (s: string)
    ensures name in env ==> s == env[name]
    ensures name !in env ==> s == default
  {
    if name in env then env[name] else default
  }

  /** `little` and `big`, and nothing else, name an endianness. */
  function ParseEndianness(s: string): (r: Result<C.Endianness, Panic>)
    ensures r.Ok? <==> s in {"little", "big"}
    ensures r == Ok(C.Little) <==> s == "little"
    ensures r == Ok(C.Big) <==> s == "big"
  {
    if s == "little" then Ok(C.Little)
    else if s == "big" then Ok(C.Big)
    else Err(UnknownEndianness(s))
  }

  /** `get_info`, with the process environment as a map. */
  function GetInfo(env: map<string, string>): (r: Result<C.TargetInfo, Panic>)
    ensures r.Ok? ==>
      r.value.triple == VarOr(env, "TARGET", UNKNOWN)
      && r.value.family == VarOr(env, "CARGO_CFG_TARGET_FAMILY", UNKNOWN)
      && r.value.os == VarOr(env, "CARGO_CFG_TARGET_OS", UNKNOWN)
      && r.value.cpu.arch == VarOr(env, "CARGO_CFG_TARGET_ARCH", UNKNOWN)
    ensures "CARGO_CFG_TARGET_POINTER_WIDTH" !in env ==> r == Err(PointerWidthMissing)
    ensures r.Ok? ==>
      ParseInteger(env["CARGO_CFG_TARGET_POINTER_WIDTH"], false, 0, U64_MAX) == Some(r.value.cpu.pointer_width as int)
    ensures r.Ok? ==> Join(r.value.cpu.features, ",") == VarOr(env, "CARGO_CFG_TARGET_FEATURE", "")
    ensures r.Ok? ==> forall i :: 0 <= i < |r.value.cpu.features| ==> ',' !in r.value.cpu.features[i]
  {
    var widthText := if "CARGO_CFG_TARGET_POINTER_WIDTH" in env then Some(env["CARGO_CFG_TARGET_POINTER_WIDTH"]) else None;
    var width :- match widthText
      case None => Err(PointerWidthMissing)
      case Some(text) =>
        (match ParseInteger(text, false, 0, U64_MAX)
         case None => Err(PointerWidthNotANumber(text))
         case Some(n) => Ok(n as nat));
    var endianness :- if "CARGO_CFG_TARGET_ENDIAN" in env then ParseEndianness(env["CARGO_CFG_TARGET_ENDIAN"])
                      else Err(EndiannessMissing);
    var features := Split(VarOr(env, "CARGO_CFG_TARGET_FEATURE", ""), ',');
    Ok(C.TargetInfo(
      triple := VarOr(env, "TARGET", UNKNOWN),
      family := VarOr(env, "CARGO_CFG_TARGET_FAMILY", UNKNOWN),
      os := VarOr(env, "CARGO_CFG_TARGET_OS", UNKNOWN),
      cpu := C.CpuInfo(
        arch := VarOr(env, "CARGO_CFG_TARGET_ARCH", UNKNOWN),
        pointer_width := width,
        endianness := endianness,
        features := features)))
  }

  // ---------------------------------------------------------------------------
  // Laws

  /**
   The width and the endianness decide whether the description can be read
   at all; a missing or malformed one panics, whatever else is set.
   */
  lemma RequiredVariables(env: map<string, string>)
    ensures GetInfo(env).Ok? <==>
      "CARGO_CFG_TARGET_POINTER_WIDTH" in env
      && ParseInteger(env["CARGO_CFG_TARGET_POINTER_WIDTH"], false, 0, U64_MAX).Some?
      && "CARGO_CFG_TARGET_ENDIAN" in env
      && env["CARGO_CFG_TARGET_ENDIAN"] in {"little", "big"}
    ensures GetInfo(env).Ok? ==>
      "CARGO_CFG_TARGET_ENDIAN" in env
      && ParseEndianness(env["CARGO_CFG_TARGET_ENDIAN"]) == Ok(GetInfo(env).value.cpu.endianness)
  {
  }

  /** An unset or empty feature variable gives exactly one empty feature. */
  lemma NoFeaturesIsOneEmptyFeature(env: map<string, string>)
    requires GetInfo(env).Ok?
    requires "CARGO_CFG_TARGET_FEATURE" !in env || env["CARGO_CFG_TARGET_FEATURE"] == ""
    ensures GetInfo(env).value.cpu.features == [""]
  {
    assert Split("", ',') == [""];
  }

  /** Features written comma-separated (none containing a comma) are read back as the same list. */
  lemma FeaturesRoundTrip(env: map<string, string>, features: seq<string>)
    requires GetInfo(env).Ok? && |features| > 0
    requires forall i :: 0 <= i < |features| ==> ',' !in features[i]
    requires "CARGO_CFG_TARGET_FEATURE" in env && env["CARGO_CFG_TARGET_FEATURE"] == Join(features, ",")
    ensures GetInfo(env).value.cpu.features == features
  {
    SplitJoin(features, ',');
  }

  lemma {:induction false} SplitJoin(parts: seq<string>, c: char)
    requires |parts| > 0
    requires forall i :: 0 <= i < |parts| ==> c !in parts[i]
    ensures Split(Join(parts, [c]), c) == parts
  {
    var s := Join(parts, [c]);
    if |parts| == 1 {
      assert s == parts[0];
      IndexOfAbsent(s, c);
    } else {
      var rest := Join(parts[1..], [c]);
      assert s == parts[0] + [c] + rest;
      IndexOfAfter(parts[0], c, rest);
      assert s[|parts[0]| + 1..] == rest;
      assert s[..|parts[0]|] == parts[0];
      SplitJoin(parts[1..], c);
      assert [parts[0]] + parts[1..] == parts;
    }
  }

  lemma IndexOfAbsent(s: string, c: char)
    requires c !in s
    ensures IndexOf(s, c) == |s|
  {
  }

  lemma IndexOfAfter(a: string, c: char, b: string)
    requires c !in a
    ensures IndexOf(a + [c] + b, c) == |a|
  {
    var s := a + [c] + b;
    assert forall i :: 0 <= i < |a| ==> s[i] == a[i];
    assert s[|a|] == c;
  }
}
