/**
 The build snapshot that every macro of the system reads: the records of
 `build-info-common` with their derived structure and their `Display`
 renderings, plus the SemVer and calendar values they embed.
 */
module Common {
  import opened Wrappers
  import opened Text

  // ---------------------------------------------------------------------------
  // SemVer

  /** One dot-separated identifier of a pre-release or build-metadata list. */
  datatype Identifier = Numeric(n: nat) | AlphaNumeric(s: string)

  datatype Version = Version(major: nat, minor: nat, patch: nat, pre: seq<Identifier>, build: seq<Identifier>)

  function IdentifierString(id: Identifier): string {
    match id
    case Numeric(n) => NatToString(n)
    case AlphaNumeric(s) => s
  }

  function IdentifierStrings(ids: seq<Identifier>): (r: seq<string>)
    ensures |r| == |ids|
    ensures forall i :: 0 <= i < |ids| ==> r[i] == IdentifierString(ids[i])
  {
    if |ids| == 0 then [] else [IdentifierString(ids[0])] + IdentifierStrings(ids[1..])
  }

  /** The rendering of `pre` or `build`: the identifiers joined by dots. */
  function IdentifiersString(ids: seq<Identifier>): string {
    Join(IdentifierStrings(ids), ".")
  }

  /** The `major.minor.patch` core of a version string. */
  function VersionCore(v: Version): string {
    NatToString(v.major) + "." + NatToString(v.minor) + "." + NatToString(v.patch)
  }

  /**
   `Display` of a version, sections 2, 9 and 10 of Semantic Versioning 2.0.0:
   the core, then `-pre` when there are pre-release identifiers, then `+build`
   when there is build metadata.
   */
  function VersionString(v: Version): (s: string)
    ensures |VersionCore(v)| <= |s| && s[..|VersionCore(v)|] == VersionCore(v)
    ensures |s| == |VersionCore(v)| <==> v.pre == [] && v.build == []
    ensures v.pre != [] ==> s[|VersionCore(v)|] == '-'
    ensures v.pre == [] && v.build != [] ==> s[|VersionCore(v)|] == '+'
  {
    var core := VersionCore(v);
    var pre := if v.pre == [] then "" else "-" + IdentifiersString(v.pre);
    var build := if v.build == [] then "" else "+" + IdentifiersString(v.build);
    core + pre + build
  }

  /**
   Where each part of a version's rendering sits: the core, then `-` and the
   pre-release identifiers when there are any, then `+` and the build
   identifiers when there are any, and nothing else.
   */
  lemma VersionStringLayout(v: Version)
    ensures var s := VersionString(v);
      |s| == |VersionCore(v)|
             + (if v.pre == [] then 0 else 1 + |IdentifiersString(v.pre)|)
             + (if v.build == [] then 0 else 1 + |IdentifiersString(v.build)|)
    ensures var s := VersionString(v);
      v.pre != [] ==>
        s[|VersionCore(v)|..|VersionCore(v)| + 1 + |IdentifiersString(v.pre)|] == "-" + IdentifiersString(v.pre)
    ensures var s := VersionString(v);
      v.build != [] ==> s[|s| - 1 - |IdentifiersString(v.build)|..] == "+" + IdentifiersString(v.build)
  {
  }

  /** Reads a `major.minor.patch` core back into its three numbers. */
  function ParseVersionCore(s: string): Option<(nat, nat, nat)> {
    var parts := Split(s, '.');
    if |parts| != 3 then None
    else
      var major :- ParseNumber(parts[0]);
      var minor :- ParseNumber(parts[1]);
      var patch :- ParseNumber(parts[2]);
      Some((major, minor, patch))
  }

  /** A non-empty run of decimal digits. */
  function ParseNumber(s: string): Option<nat> {
    if s == "" || !AllDigits(s) then None else Some(DecimalValue(s))
  }

  lemma SplitFirst(x: string, y: string, c: char)
    requires c !in x
    ensures Split(x + [c] + y, c) == [x] + Split(y, c)
  {
    var s := x + [c] + y;
    IndexOfAt(s, c, |x|);
    assert s[..|x|] == x && s[|x| + 1..] == y;
  }

  lemma SplitNone(x: string, c: char)
    requires c !in x
    ensures Split(x, c) == [x]
  {
    IndexOfAt(x, c, |x|);
  }

  lemma SplitDottedTriple(a: string, b: string, c: string)
    requires '.' !in a && '.' !in b && '.' !in c
    ensures Split(a + "." + b + "." + c, '.') == [a, b, c]
  {
    assert a + "." + b + "." + c == a + ['.'] + (b + ['.'] + c);
    SplitFirst(a, b + ['.'] + c, '.');
    SplitFirst(b, c, '.');
    SplitNone(c, '.');
  }

  lemma {:induction false} IndexOfAt(s: string, c: char, k: nat)
    requires k <= |s| && (k == |s| || s[k] == c)
    requires forall i :: 0 <= i < k ==> s[i] != c
    ensures IndexOf(s, c) == k
  {
    if k > 0 {
      IndexOfAt(s[1..], c, k - 1);
    }
  }

  lemma NoDotInDigits(n: nat)
    ensures '.' !in NatToString(n)
  {
    var s := NatToString(n);
    assert forall i :: 0 <= i < |s| ==> s[i] != '.';
  }

  /** The numeric core of a rendered version determines major, minor and patch. */
  lemma VersionCoreRoundTrip(v: Version)
    ensures ParseVersionCore(VersionCore(v)) == Some((v.major, v.minor, v.patch))
  {
    NoDotInDigits(v.major);
    NoDotInDigits(v.minor);
    NoDotInDigits(v.patch);
    SplitDottedTriple(NatToString(v.major), NatToString(v.minor), NatToString(v.patch));
    DecimalRoundTrip(v.major);
    DecimalRoundTrip(v.minor);
    DecimalRoundTrip(v.patch);
    assert ParseNumber(NatToString(v.major)) == Some(v.major);
    assert ParseNumber(NatToString(v.minor)) == Some(v.minor);
    assert ParseNumber(NatToString(v.patch)) == Some(v.patch);
  }

  // ---------------------------------------------------------------------------
  // Calendar values

  /** A UTC instant broken into calendar fields, as chrono's formatter sees it. */
  datatype DateTime = DateTime(year: int, month: nat, day: nat, hour: nat, minute: nat, second: nat, nanosecond: nat)

  /** A calendar date without time or zone. */
  datatype NaiveDate = NaiveDate(year: int, month: nat, day: nat)

  predicate ValidDate(year: int, month: nat, day: nat) {
    1 <= month <= 12 && 1 <= day <= 31
  }

  const NANOS_PER_SECOND: nat := 1_000_000_000

  /**
   A valid instant. As in chrono, a leap second is carried as a nanosecond
   count of one second or more.
   */
  predicate ValidDateTime(d: DateTime) {
    ValidDate(d.year, d.month, d.day) && d.hour < 24 && d.minute < 60 && d.second < 60
    && d.nanosecond < 2_000_000_000
  }

  /**
   `%Y`: four digits, zero-padded, for years 0 to 9999; outside that range an
   explicit sign followed by at least four digits.
   */
  function YearString(y: int): (s: string)
    ensures |s| >= 4
    ensures 0 <= y <= 9999 ==> |s| == 4 && AllDigits(s) && DecimalValue(s) == y
    ensures y > 9999 ==> s[0] == '+'
    ensures y < 0 ==> s[0] == '-'
  {
    if 0 <= y <= 9999 then
      NatToStringLength(y, 4);
      PadZeros(y, 4)
    else if y > 9999 then "+" + PadZeros(y, 4)
    else "-" + PadZeros(-y, 4)
  }

  /** A two-digit, zero-padded field such as `%m`, `%d`, `%H`, `%M` or `%S`. */
  function TwoDigits(n: nat): (s: string)
    ensures n < 100 ==> |s| == 2 && AllDigits(s) && DecimalValue(s) == n
  {
    assert n < 100 ==> |NatToString(n)| <= 2 by {
      if n < 100 {
        NatToStringLength(n, 2);
      }
    }
    PadZeros(n, 2)
  }

  /** `%Y-%m-%d`: chrono's rendering of a date, also the `Display` of `NaiveDate`. */
  function DateString(year: int, month: nat, day: nat): string {
    YearString(year) + "-" + TwoDigits(month) + "-" + TwoDigits(day)
  }

  function NaiveDateString(d: NaiveDate): string {
    DateString(d.year, d.month, d.day)
  }

  /** The second chrono's `%S` shows: a leap second reads as the second after `second`. */
  function DisplayedSecond(d: DateTime): (s: nat)
    ensures d.nanosecond < NANOS_PER_SECOND ==> s == d.second
    ensures NANOS_PER_SECOND <= d.nanosecond < 2 * NANOS_PER_SECOND ==> s == d.second + 1
    ensures ValidDateTime(d) ==> s <= 60
  {
    d.second + d.nanosecond / NANOS_PER_SECOND
  }

  /** `%Y-%m-%d %H:%M:%SZ`: the timestamp rendering used by the format macros; sub-seconds are dropped. */
  function TimestampString(d: DateTime): string {
    DateString(d.year, d.month, d.day) + " " + TwoDigits(d.hour) + ":" + TwoDigits(d.minute) + ":"
    + TwoDigits(DisplayedSecond(d)) + "Z"
  }

  /** The decimal value of the digits `s[i..j]`, or `None` when they are not all digits. */
  function DigitsAt(s: string, i: nat, j: nat): Option<nat>
    requires i <= j <= |s|
  {
    if AllDigits(s[i..j]) then Some(DecimalValue(s[i..j])) else None
  }

  /**
   Reads a four-digit-year `%Y-%m-%d %H:%M:%SZ` timestamp back into its fields,
   with zero nanoseconds.
   */
  function ParseTimestamp(s: string): Option<DateTime> {
    if |s| != 20 || s[4] != '-' || s[7] != '-' || s[10] != ' ' || s[13] != ':' || s[16] != ':' || s[19] != 'Z'
    then None
    else
      var y :- DigitsAt(s, 0, 4);
      var mo :- DigitsAt(s, 5, 7);
      var d :- DigitsAt(s, 8, 10);
      var h :- DigitsAt(s, 11, 13);
      var mi :- DigitsAt(s, 14, 16);
      var se :- DigitsAt(s, 17, 19);
      Some(DateTime(y, mo, d, h, mi, se, 0))
  }

  /**
   For years 0 to 9999 the timestamp rendering is 20 characters long and
   determines every field but the nanoseconds, which it drops; a leap
   second reads back as second 60.
   */
  lemma TimestampRoundTrip(d: DateTime)
    requires ValidDateTime(d) && 0 <= d.year <= 9999
    ensures |TimestampString(d)| == 20
    ensures ParseTimestamp(TimestampString(d)) == Some(d.(second := DisplayedSecond(d), nanosecond := 0))
  {
    var s := TimestampString(d);
    TimestampLayout(d);
    assert DigitsAt(s, 0, 4) == Some(d.year);
    assert DigitsAt(s, 5, 7) == Some(d.month);
    assert DigitsAt(s, 8, 10) == Some(d.day);
    assert DigitsAt(s, 11, 13) == Some(d.hour);
    assert DigitsAt(s, 14, 16) == Some(d.minute);
    assert DigitsAt(s, 17, 19) == Some(DisplayedSecond(d));
  }

  /** A leap second at the end of a minute shows as second 60, as chrono prints it. */
  lemma LeapSecondRendering(d: DateTime)
    requires ValidDateTime(d) && 0 <= d.year <= 9999 && d.second == 59 && d.nanosecond >= NANOS_PER_SECOND
    ensures TimestampString(d)[17..19] == "60"
  {
    TimestampLayout(d);
    var t := TwoDigits(60);
    assert |t| == 2 && AllDigits(t) && DecimalValue(t) == 60;
    assert t == "60";
  }

  /** Where each field and separator sits in a four-digit-year rendering. */
  lemma TimestampLayout(d: DateTime)
    requires ValidDateTime(d) && 0 <= d.year <= 9999
    ensures var s := TimestampString(d);
      && |s| == 20 && s[4] == '-' && s[7] == '-' && s[10] == ' ' && s[13] == ':' && s[16] == ':' && s[19] == 'Z'
      && s[0..4] == YearString(d.year) && s[5..7] == TwoDigits(d.month) && s[8..10] == TwoDigits(d.day)
      && s[11..13] == TwoDigits(d.hour) && s[14..16] == TwoDigits(d.minute) && s[17..19] == TwoDigits(DisplayedSecond(d))
  {
    var s := TimestampString(d);
    var date := DateString(d.year, d.month, d.day);
    var h, mi, se := TwoDigits(d.hour), TwoDigits(d.minute), TwoDigits(DisplayedSecond(d));
    DateLayout(d.year, d.month, d.day);
    var p1 := date + " " + h;
    var p2 := p1 + ":" + mi;
    var p3 := p2 + ":" + se;
    assert s == p3 + "Z";
    assert |p1| == 13 && p1[..10] == date && p1[10] == ' ' && p1[11..13] == h;
    assert |p2| == 16 && p2[..13] == p1 && p2[13] == ':' && p2[14..16] == mi;
    assert |p3| == 19 && p3[..16] == p2 && p3[16] == ':' && p3[17..19] == se;
    assert s[..19] == p3;
    assert s[0..4] == date[0..4] && s[5..7] == date[5..7] && s[8..10] == date[8..10];
  }

  /** Where each field and separator sits in a four-digit-year date. */
  lemma DateLayout(year: int, month: nat, day: nat)
    requires 0 <= year <= 9999 && month < 100 && day < 100
    ensures var s := DateString(year, month, day);
      && |s| == 10 && s[4] == '-' && s[7] == '-'
      && s[0..4] == YearString(year) && s[5..7] == TwoDigits(month) && s[8..10] == TwoDigits(day)
  {
    var s := DateString(year, month, day);
    var y, mo, da := YearString(year), TwoDigits(month), TwoDigits(day);
    assert s == y + "-" + mo + "-" + da;
    assert s[0..4] == y;
    assert s[5..7] == mo;
    assert s[8..10] == da;
  }

  // ---------------------------------------------------------------------------
  // The snapshot records

  /** Cargo's optimisation levels, `opt-level = 0 | 1 | 2 | 3 | "s" | "z"`. */
  datatype OptimizationLevel = O0 | O1 | O2 | O3 | Os | Oz

  datatype CompilerChannel = Dev | Nightly | Beta | Stable

  datatype CrateInfo = CrateInfo(
    name: string,
    version: Version,
    authors: seq<string>,
    license: Option<string>,
    enabled_features: seq<string>,
    available_features: seq<string>,
    dependencies: seq<CrateInfo>)

  datatype CompilerInfo = CompilerInfo(
    version: Version,
    commit_id: Option<string>,
    commit_date: Option<NaiveDate>,
    channel: CompilerChannel,
    host_triple: string,
    target_triple: string)

  datatype GitInfo = GitInfo(
    commit_id: string,
    commit_short_id: string,
    commit_timestamp: DateTime,
    dirty: bool,
    branch: Option<string>,
    tags: seq<string>)

  datatype VersionControl = Git(info: GitInfo)

  datatype BuildInfo = BuildInfo(
    timestamp: DateTime,
    profile: string,
    optimization_level: OptimizationLevel,
    crate_info: CrateInfo,
    compiler: CompilerInfo,
    version_control: Option<VersionControl>)

  datatype Endianness = Big | Little

  datatype CpuInfo = CpuInfo(arch: string, pointer_width: nat, endianness: Endianness, features: seq<string>)

  datatype TargetInfo = TargetInfo(triple: string, family: string, os: string, cpu: CpuInfo)

  /** `VersionControl::git`: the git information; with a single variant it is always present. */
  function GitOf(vc: VersionControl): (r: Option<GitInfo>)
    ensures r.Some? && r.value == vc.info
  {
    match vc
    case Git(info) => Some(info)
  }

  // ---------------------------------------------------------------------------
  // Display

  function OptimizationLevelString(o: OptimizationLevel): (s: string)
    ensures |s| == 1
  {
    match o
    case O0 => "0"
    case O1 => "1"
    case O2 => "2"
    case O3 => "3"
    case Os => "s"
    case Oz => "z"
  }

  /** The level named by a rendering, the inverse of `OptimizationLevelString`. */
  function ParseOptimizationLevel(s: string): Option<OptimizationLevel> {
    if s == "0" then Some(O0)
    else if s == "1" then Some(O1)
    else if s == "2" then Some(O2)
    else if s == "3" then Some(O3)
    else if s == "s" then Some(Os)
    else if s == "z" then Some(Oz)
    else None
  }

  lemma OptimizationLevelRoundTrip(o: OptimizationLevel, s: string)
    ensures ParseOptimizationLevel(OptimizationLevelString(o)) == Some(o)
    ensures ParseOptimizationLevel(s) == Some(o) ==> s == OptimizationLevelString(o)
  {
  }

  /** The derived `Display` of a channel: the variant name. */
  function CompilerChannelString(c: CompilerChannel): string {
    match c
    case Dev => "Dev"
    case Nightly => "Nightly"
    case Beta => "Beta"
    case Stable => "Stable"
  }

  lemma CompilerChannelStringInjective(a: CompilerChannel, b: CompilerChannel)
    ensures CompilerChannelString(a) == CompilerChannelString(b) ==> a == b
  {
    if CompilerChannelString(a) == CompilerChannelString(b) {
      var s := CompilerChannelString(a);
      assert s[0] == CompilerChannelString(b)[0];
    }
  }

  /** `"<name> v<version>"`. */
  function CrateInfoString(c: CrateInfo): (s: string)
    ensures |s| == |c.name| + 2 + |VersionString(c.version)|
    ensures s[..|c.name|] == c.name && s[|c.name|..|c.name| + 2] == " v"
    ensures s[|c.name| + 2..] == VersionString(c.version)
  {
    c.name + " v" + VersionString(c.version)
  }

  /** The commit id, then `.+` when the work tree was dirty, then ` (<branch>)` when on a branch. */
  function GitInfoString(g: GitInfo): (s: string)
    ensures |g.commit_id| <= |s| && s[..|g.commit_id|] == g.commit_id
    ensures |s| == |g.commit_id| + (if g.dirty then 2 else 0)
                   + (if g.branch.Some? then |g.branch.value| + 3 else 0)
    ensures g.branch.Some? ==> s[|s| - |g.branch.value| - 3..] == " (" + g.branch.value + ")"
    ensures g.dirty ==> s[|g.commit_id|..|g.commit_id| + 2] == ".+"
  {
    var dirty := if g.dirty then ".+" else "";
    var branch := if g.branch.Some? then " (" + g.branch.value + ")" else "";
    g.commit_id + dirty + branch
  }

  /** Renders exactly as the git information it holds. */
  function VersionControlString(vc: VersionControl): (s: string)
    ensures s == GitInfoString(GitOf(vc).value)
  {
    match vc
    case Git(g) => GitInfoString(g)
  }

  /**
   `"<crate> <profile> build"`, followed by `" from <git>"` exactly when the
   build ran inside a version-controlled checkout.
   */
  function BuildInfoString(b: BuildInfo): (s: string)
    ensures var head := CrateInfoString(b.crate_info) + " " + b.profile + " build";
      |head| <= |s| && s[..|head|] == head
      && (b.version_control.None? <==> |s| == |head|)
      && (b.version_control.Some? ==> s[|head|..] == " from " + VersionControlString(b.version_control.value))
  {
    var head := CrateInfoString(b.crate_info) + " " + b.profile + " build";
    match b.version_control
    case None => head
    case Some(vc) => head + " from " + VersionControlString(vc)
  }

  /**
   `"rustc <version>"`, then ` (<first 9 bytes of commit> <date>)` or
   ` (<first 9 bytes of commit>)` when a commit id is known. Taking the first
   nine bytes panics when the id is shorter or the cut splits a character;
   `None` stands for that panic.
   */
  function CompilerInfoString(c: CompilerInfo): (r: Option<string>)
    ensures c.commit_id.None? ==> r == Some("rustc " + VersionString(c.version))
    ensures c.commit_id.Some? ==>
      (r.None? <==> BytePrefix(c.commit_id.value, 9).None?)
    ensures r.Some? ==>
      |r.value| >= 6 + |VersionString(c.version)|
      && r.value[..6 + |VersionString(c.version)|] == "rustc " + VersionString(c.version)
    ensures r.Some? && c.commit_id.Some? ==>
      r.value[6 + |VersionString(c.version)|..]
        == " (" + BytePrefix(c.commit_id.value, 9).value
           + (if c.commit_date.Some? then " " + NaiveDateString(c.commit_date.value) else "") + ")"
  {
    var head := "rustc " + VersionString(c.version);
    match c.commit_id
    case None => Some(head)
    case Some(id) =>
      var short :- BytePrefix(id, 9);
      var date := match c.commit_date
        case Some(d) => " " + NaiveDateString(d)
        case None => "";
      var tail := " (" + short + date + ")";
      HeadKept(head, tail);
      Some(head + tail)
  }

  lemma HeadKept(head: string, tail: string)
    ensures (head + tail)[..|head|] == head
    ensures (head + tail)[|head|..] == tail
  {
  }

  /** A commit id of at least nine ASCII characters never makes the rendering panic. */
  lemma CompilerInfoStringAsciiCommit(c: CompilerInfo)
    requires c.commit_id.Some? && IsAscii(c.commit_id.value) && |c.commit_id.value| >= 9
    ensures CompilerInfoString(c).Some?
  {
    AsciiBytePrefix(c.commit_id.value, 9);
  }
}
