/**
 * The release helper scripts/version-manager.js: parsing and bumping
 * `major.minor.patch` versions (Semantic Versioning 2.0.0, items 6-8),
 * splicing an entry into CHANGELOG.md, keeping the version of package.json
 * and moonbit/moon.mod.json in step, and the command dispatch of `run`.
 *
 * File reads and writes, JSON formatting, the clock and `git` are left out:
 * the two manifests are reduced to their `version` fields, the changelog file
 * to its text (None when it cannot be read), the date is a parameter and a
 * tag request is reported as an output.
 */
module ReleaseScript {
  import opened Wrappers
  import opened JsStrings

  const Dot: CodeUnit := 0x2E

  datatype SemVer = SemVer(major: int, minor: int, patch: int)

  const InvalidVersion: JsString := [0x65E0, 0x6548, 0x7684, 0x7248, 0x672C, 0x53F7, 0x683C, 0x5F0F, 0x3A, 0x20]  // "无效的版本号格式: "
  const UnsupportedType: JsString := [0x4E0D, 0x652F, 0x6301, 0x7684, 0x7248, 0x672C, 0x7C7B, 0x578B, 0x3A, 0x20]  // "不支持的版本类型: "

  /**
   * `parseVersion(version)`: exactly three dot-separated parts, none NaN
   * under `Number` (so an empty part reads as 0).
   */
  predicate ValidParts(p: seq<JsString>) {
    |p| == 3 && ToNumber(p[0]).Some? && ToNumber(p[1]).Some? && ToNumber(p[2]).Some?
  }

  /** The three parts read as numbers, or None as soon as one of them is not. */
  function ReadParts(p: seq<JsString>): (r: Option<SemVer>)
    ensures r.Some? <==> ValidParts(p)
    ensures r.Some? ==> r.value == SemVer(ToNumber(p[0]).value, ToNumber(p[1]).value, ToNumber(p[2]).value)
  {
    if |p| != 3 then None
    else
      var x, y, z := ToNumber(p[0]), ToNumber(p[1]), ToNumber(p[2]);
      if x.None? || y.None? || z.None? then
        None
      else Some(SemVer(x.value, y.value, z.value))
  }

  function ParseVersion(s: JsString): (r: Result<SemVer, JsString>)
    ensures r.Ok? <==> ValidParts(Split(s, Dot))
    ensures r.Err? ==> r.error == InvalidVersion + s
    ensures r.Ok? ==> Some(r.value) == ReadParts(Split(s, Dot))
  {
    match ReadParts(Split(s, Dot))
    case None => Err(InvalidVersion + s)
    case Some(v) => Ok(v)
  }

  /** `${major}.${minor}.${patch}` */
  function FormatVersion(v: SemVer): JsString {
    IntToString(v.major) + [Dot] + IntToString(v.minor) + [Dot] + IntToString(v.patch)
  }

  lemma IntToStringNoDot(n: int)
    ensures Dot !in IntToString(n)
  {
    var s := NatToString(if n < 0 then -n else n);
    NatToStringDigits(if n < 0 then -n else n);
    assert forall i :: 0 <= i < |s| ==> IsDigit(s[i]);
    assert Dot !in s;
  }

  /** What `incrementVersion` prints, `parseVersion` reads back as the same record. */
  lemma ParseFormatVersion(v: SemVer)
    ensures ParseVersion(FormatVersion(v)) == Ok(v)
  {
    var parts := [IntToString(v.major), IntToString(v.minor), IntToString(v.patch)];
    IntToStringNoDot(v.major);
    IntToStringNoDot(v.minor);
    IntToStringNoDot(v.patch);
    JoinThree(parts[0], parts[1], parts[2]);
    SplitJoin(parts, Dot);
    IntToStringToNumber(v.major);
    IntToStringToNumber(v.minor);
    IntToStringToNumber(v.patch);
  }

  lemma JoinThree(a: JsString, b: JsString, c: JsString)
    ensures Join([a, b, c], [Dot]) == a + [Dot] + b + [Dot] + c
  {
    assert [a, b, c][1..] == [b, c];
    assert [b, c][1..] == [c];
    assert Join([b, c], [Dot]) == b + [Dot] + c;
    assert Join([a, b, c], [Dot]) == a + [Dot] + (b + [Dot] + c);
  }

  /** An empty part is not rejected: `Number('')` is 0, so '1..3' reads as 1.0.3. */
  lemma EmptyPartReadsAsZero(a: nat, c: nat)
    ensures ParseVersion(NatToString(a) + [Dot, Dot] + NatToString(c)) == Ok(SemVer(a, 0, c))
  {
    var x := NatToString(a);
    var z := NatToString(c);
    var parts: seq<JsString> := [x, [], z];
    IntToStringNoDot(a);
    IntToStringNoDot(c);
    JoinThree(x, [], z);
    assert x + [Dot] + [] + [Dot] + z == x + [Dot, Dot] + z;
    SplitJoin(parts, Dot);
    IntToStringToNumber(a);
    IntToStringToNumber(c);
  }

  // ----- incrementVersion -----

  datatype BumpType = Patch | Minor | Major

  const PatchName: JsString := [0x70, 0x61, 0x74, 0x63, 0x68]  // "patch"
  const MinorName: JsString := [0x6D, 0x69, 0x6E, 0x6F, 0x72]  // "minor"
  const MajorName: JsString := [0x6D, 0x61, 0x6A, 0x6F, 0x72]  // "major"

  /** `VERSION_TYPES` read backwards: the bump a type string names, if any. */
  function BumpTypeOf(t: JsString): (r: Option<BumpType>)
    ensures r.Some? <==> t in {PatchName, MinorName, MajorName}
  {
    if t == PatchName then Some(Patch)
    else if t == MinorName then Some(Minor)
    else if t == MajorName then Some(Major)
    else None
  }

  /** The bumped record. */
  function Bump(v: SemVer, b: BumpType): SemVer {
    match b
    case Patch => v.(patch := v.patch + 1)
    case Minor => v.(minor := v.minor + 1, patch := 0)
    case Major => SemVer(v.major + 1, 0, 0)
  }

  /** Precedence of two release versions: by major, then minor, then patch. */
  predicate Precedes(a: SemVer, b: SemVer) {
    a.major < b.major || (a.major == b.major && (a.minor < b.minor || (a.minor == b.minor && a.patch < b.patch)))
  }

  /**
   * Semantic Versioning 2.0.0, items 6-8: a patch bump increments the patch
   * number; a minor bump increments the minor number and resets the patch
   * number; a major bump increments the major number and resets both others.
   * Every bump yields a version of higher precedence.
   */
  lemma BumpFollowsSemVer(v: SemVer, b: BumpType)
    ensures b == Patch ==> Bump(v, b) == SemVer(v.major, v.minor, v.patch + 1)
    ensures b == Minor ==> Bump(v, b) == SemVer(v.major, v.minor + 1, 0)
    ensures b == Major ==> Bump(v, b) == SemVer(v.major + 1, 0, 0)
    ensures Precedes(v, Bump(v, b))
  {
  }

  /**
   * Every bump goes strictly up in precedence, for every record `parseVersion`
   * accepts, negative parts such as `1.-2.3` included: the bumped part grows by
   * one and only less significant parts are reset.
   */
  lemma BumpIncreasesPrecedence(v: SemVer, b: BumpType)
    ensures Precedes(v, Bump(v, b))
  {
  }

  /** `incrementVersion(currentVersion, type)`; an `Err` is the thrown error's message. */
  method IncrementVersion(current: JsString, t: JsString) returns (r: Result<JsString, JsString>)
    ensures ParseVersion(current).Err? ==> r == Err(ParseVersion(current).error)
    ensures ParseVersion(current).Ok? && BumpTypeOf(t).None? ==> r == Err(UnsupportedType + t)
    ensures ParseVersion(current).Ok? && BumpTypeOf(t).Some? ==>
              r == Ok(FormatVersion(Bump(ParseVersion(current).value, BumpTypeOf(t).value)))
  {
    var parsed := ParseVersion(current);
    if parsed.Err? {
      return Err(parsed.error);
    }
    var version := parsed.value;
    if t == PatchName {
      version := version.(patch := version.patch + 1);
    } else if t == MinorName {
      version := version.(minor := version.minor + 1);
      version := version.(patch := 0);
    } else if t == MajorName {
      version := version.(major := version.major + 1);
      version := version.(minor := 0);
      version := version.(patch := 0);
    } else {
      return Err(UnsupportedType + t);
    }
    r := Ok(FormatVersion(version));
  }

  /** A successful bump prints a version that parses back to the bumped record. */
  lemma IncrementRoundTrip(current: JsString, b: BumpType)
    requires ParseVersion(current).Ok?
    ensures ParseVersion(FormatVersion(Bump(ParseVersion(current).value, b))) == Ok(Bump(ParseVersion(current).value, b))
  {
    ParseFormatVersion(Bump(ParseVersion(current).value, b));
  }

  // ----- updateChangelog -----

  /** "\n## ", the start of a version section. */
  const SectionMarker: JsString := [0x0A, 0x23, 0x23, 0x20]

  const RocketEmoji: JsString := [0xD83D, 0xDE80]  // U+1F680
  const SparklesEmoji: JsString := [0x2728]        // U+2728
  const BugEmoji: JsString := [0xD83D, 0xDC1B]     // U+1F41B

  function TypeEmoji(b: BumpType): JsString {
    match b
    case Major => RocketEmoji
    case Minor => SparklesEmoji
    case Patch => BugEmoji
  }

  /** `type.toUpperCase()` for the three types. */
  function UpperName(b: BumpType): JsString {
    match b
    case Patch => [0x50, 0x41, 0x54, 0x43, 0x48]  // "PATCH"
    case Minor => [0x4D, 0x49, 0x4E, 0x4F, 0x52]  // "MINOR"
    case Major => [0x4D, 0x41, 0x4A, 0x4F, 0x52]  // "MAJOR"
  }

  /** `\n## [${version}] - ${date}\n\n### ${emoji} ${TYPE}\n\n${description}\n` */
  function ChangelogEntry(version: JsString, b: BumpType, description: JsString, date: JsString): JsString {
    SectionMarker + [0x5B] + version + [0x5D, 0x20, 0x2D, 0x20] + date
      + [0x0A, 0x0A, 0x23, 0x23, 0x23, 0x20] + TypeEmoji(b) + [0x20] + UpperName(b)
      + [0x0A, 0x0A] + description + [0x0A]
  }

  /** Every entry opens a version section. */
  lemma ChangelogEntryMarked(version: JsString, b: BumpType, description: JsString, date: JsString)
    ensures StartsWith(ChangelogEntry(version, b, description, date), SectionMarker)
  {
    var r := ChangelogEntry(version, b, description, date);
    var tail := r[|SectionMarker|..];
    assert r == SectionMarker + tail;
    assert (SectionMarker + tail)[..|SectionMarker|] == SectionMarker;
  }

  /** The splice of `updateChangelog`: before the first "\n## ", or at the end when there is none. */
  function SpliceChangelog(changelog: JsString, entry: JsString): JsString {
    match IndexOf(changelog, SectionMarker)
    case Some(i) => changelog[..i] + entry + changelog[i..]
    case None => changelog + entry
  }

  /** The splice point: the first section marker, or the end. */
  function SplicePoint(changelog: JsString): nat {
    match IndexOf(changelog, SectionMarker) case Some(i) => i case None => |changelog|
  }

  /** The entry goes in at the splice point, and the text on either side of it is kept. */
  lemma SpliceChangelogShape(changelog: JsString, entry: JsString)
    ensures var k := SplicePoint(changelog);
            k <= |changelog| && SpliceChangelog(changelog, entry) == changelog[..k] + entry + changelog[k..]
  {
    if IndexOf(changelog, SectionMarker).None? {
      assert changelog[..|changelog|] == changelog && changelog[|changelog|..] == [];
    }
  }

  /**
   * The spliced entry becomes the first version section: the first "\n## "
   * of the result is where the entry was inserted, and removing the entry
   * gives back the old text.
   */
  lemma SpliceMakesEntryFirst(changelog: JsString, entry: JsString)
    requires StartsWith(entry, SectionMarker)
    ensures var k := SplicePoint(changelog);
            var r := SpliceChangelog(changelog, entry);
            IndexOf(r, SectionMarker) == Some(k) && r[..k] + r[k + |entry|..] == changelog
  {
    var k := SplicePoint(changelog);
    var r := SpliceChangelog(changelog, entry);
    SpliceChangelogShape(changelog, entry);
    SpliceKeepsSides(changelog[..k], entry, changelog[k..]);
    assert r[k..k + |SectionMarker|] == entry[..|SectionMarker|];
    assert OccursAt(r, SectionMarker, k);
    forall j | 0 <= j < k
      ensures !OccursAt(r, SectionMarker, j)
    {
      NoMarkerBeforeSplice(changelog, entry, j);
    }
    FirstOccurrence(r, SectionMarker, k);
  }

  /** Inserting `mid` between `a` and `b`: removing it gives back `a + b`. */
  lemma SpliceKeepsSides(a: JsString, mid: JsString, b: JsString)
    ensures var r := a + mid + b;
            r[..|a|] == a && r[|a|..|a| + |mid|] == mid && r[|a| + |mid|..] == b
  {
  }

  /** Before the splice point no marker starts: one wholly before it was in the old text, one overlapping it would hold the entry's newline inside. */
  lemma NoMarkerBeforeSplice(changelog: JsString, entry: JsString, j: nat)
    requires StartsWith(entry, SectionMarker)
    requires j < SplicePoint(changelog)
    ensures !OccursAt(SpliceChangelog(changelog, entry), SectionMarker, j)
  {
    var k := SplicePoint(changelog);
    var r := SpliceChangelog(changelog, entry);
    SpliceChangelogShape(changelog, entry);
    assert r[..k] == changelog[..k];
    if j + |SectionMarker| <= k {
      assert r[j..j + |SectionMarker|] == changelog[j..j + |SectionMarker|];
      assert !OccursAt(changelog, SectionMarker, j);
    } else if j + |SectionMarker| <= |r| {
      assert r[k] == entry[0] == 0x0A;
      assert r[j..j + |SectionMarker|][k - j] == r[k];
      assert SectionMarker[k - j] != 0x0A;
    }
  }

  /** An occurrence with none before it is what `indexOf` finds. */
  lemma FirstOccurrence(s: JsString, sub: JsString, k: nat)
    requires OccursAt(s, sub, k)
    requires forall j :: 0 <= j < k ==> !OccursAt(s, sub, j)
    ensures IndexOf(s, sub) == Some(k)
  {
    assert k <= |s| && Contains(s, sub);
    var r := IndexOf(s, sub);
    assert r.value <= k;
  }

  // ----- the two manifests and the command dispatch -----

  /** The state the script reads and writes. */
  datatype ToolState = ToolState(packageVersion: JsString, moonVersion: JsString, changelog: Option<JsString>)

  /** How `run` ends: normally, with `process.exit(1)`, or with an uncaught error. */
  datatype Exit = Done | ExitFailure | Crashed(message: JsString)

  datatype Command = Current | BumpCmd(b: BumpType) | SetCmd | Sync | Help | Unknown

  function CommandOf(arg: JsString): Command {
    match BumpTypeOf(arg)
    case Some(b) => BumpCmd(b)
    case None =>
      if arg == [0x63, 0x75, 0x72, 0x72, 0x65, 0x6E, 0x74] then Current                                  // "current"
      else if arg == [0x73, 0x65, 0x74] then SetCmd                                                      // "set"
      else if arg == [0x73, 0x79, 0x6E, 0x63] then Sync                                                  // "sync"
      else if arg in {[0x68, 0x65, 0x6C, 0x70], [0x2D, 0x2D, 0x68, 0x65, 0x6C, 0x70], [0x2D, 0x68]} then Help  // "help", "--help", "-h"
      else Unknown
  }

  const NoGitFlag: JsString := [0x2D, 0x2D, 0x6E, 0x6F, 0x2D, 0x67, 0x69, 0x74]  // "--no-git"
  const NoChangelogFlag: JsString := [0x2D, 0x2D, 0x6E, 0x6F, 0x2D, 0x63, 0x68, 0x61, 0x6E, 0x67, 0x65, 0x6C, 0x6F, 0x67]  // "--no-changelog"
  const VersionUpdate: JsString := [0x20, 0x76, 0x65, 0x72, 0x73, 0x69, 0x6F, 0x6E, 0x20, 0x75, 0x70, 0x64, 0x61, 0x74, 0x65]  // " version update"

  /** `args[i]`, '' when absent. */
  function Arg(args: seq<JsString>, i: nat): JsString {
    if i < |args| then args[i] else []
  }

  /** `args[1] || `${command} version update`` */
  function Description(args: seq<JsString>): JsString {
    if Arg(args, 1) != [] then Arg(args, 1) else Arg(args, 0) + VersionUpdate
  }

  /** What `run` does to the state, how it ends, and the version it tags (if any). */
  function RunSpec(s: ToolState, args: seq<JsString>, date: JsString): (ToolState, Exit, Option<JsString>) {
    var noGit := NoGitFlag in args;
    var noChangelog := NoChangelogFlag in args;
    match CommandOf(Arg(args, 0))
    case Current => (s, Done, None)
    case BumpCmd(b) =>
      var parsed := ParseVersion(s.packageVersion);
      if parsed.Err? then (s, Crashed(parsed.error), None)
      else
        var v := FormatVersion(Bump(parsed.value, b));
        var log := if noChangelog || s.changelog.None? then s.changelog
                   else Some(SpliceChangelog(s.changelog.value, ChangelogEntry(v, b, Description(args), date)));
        (ToolState(v, v, log), Done, if noGit then None else Some(v))
    case SetCmd =>
      var target := Arg(args, 1);
      if target == [] || ParseVersion(target).Err? then (s, ExitFailure, None)
      else (s.(packageVersion := target, moonVersion := target), Done, if noGit then None else Some(target))
    case Sync => (s.(moonVersion := s.packageVersion), Done, None)
    case Help => (s, Done, None)
    case Unknown => (s, ExitFailure, None)
  }

  /** `set` validates its target before touching anything; a bad target or a missing one changes nothing. */
  lemma SetValidatesFirst(s: ToolState, args: seq<JsString>, date: JsString)
    requires CommandOf(Arg(args, 0)) == SetCmd
    ensures var (t, e, tag) := RunSpec(s, args, date);
            (e == Done <==> Arg(args, 1) != [] && ParseVersion(Arg(args, 1)).Ok?)
            && (e != Done ==> t == s && tag.None?)
            && (e == Done ==> t.packageVersion == t.moonVersion == Arg(args, 1) && t.changelog == s.changelog)
  {
  }

  /**
   * A bump either crashes on an unparsable package.json version and changes
   * nothing, or writes the bumped version to both manifests and, unless
   * disabled, splices its entry first into a readable changelog and tags it.
   */
  lemma BumpOutcome(s: ToolState, args: seq<JsString>, date: JsString, b: BumpType)
    requires CommandOf(Arg(args, 0)) == BumpCmd(b)
    ensures var (t, e, tag) := RunSpec(s, args, date);
            (ParseVersion(s.packageVersion).Err? ==> t == s && e.Crashed? && tag.None?)
            && (ParseVersion(s.packageVersion).Ok? ==>
                  var v := Bump(ParseVersion(s.packageVersion).value, b);
                  && e == Done && t.packageVersion == t.moonVersion == FormatVersion(v)
                  && ParseVersion(t.packageVersion) == Ok(v)
                  && (NoGitFlag !in args <==> tag == Some(FormatVersion(v)))
                  && (t.changelog.Some? <==> s.changelog.Some?)
                  && (t.changelog.Some? && NoChangelogFlag !in args ==>
                        IndexOf(t.changelog.value, SectionMarker) == Some(SplicePoint(s.changelog.value))))
  {
    if ParseVersion(s.packageVersion).Ok? {
      var v := Bump(ParseVersion(s.packageVersion).value, b);
      ParseFormatVersion(v);
      if s.changelog.Some? && NoChangelogFlag !in args {
        ChangelogEntryMarked(FormatVersion(v), b, Description(args), date);
        SpliceMakesEntryFirst(s.changelog.value, ChangelogEntry(FormatVersion(v), b, Description(args), date));
      }
    }
  }

  /** Whatever command ran, a normal end leaves the two manifests agreeing, except after `current` and `help`. */
  lemma DoneMeansInStep(s: ToolState, args: seq<JsString>, date: JsString)
    requires CommandOf(Arg(args, 0)) !in {Current, Help}
    ensures var (t, e, _) := RunSpec(s, args, date);
            e == Done ==> t.packageVersion == t.moonVersion
  {
  }

  class ReleaseTool {
    var packageVersion: JsString
    var moonVersion: JsString
    var changelog: Option<JsString>

    constructor(packageVersion: JsString, moonVersion: JsString, changelog: Option<JsString>)
      ensures State() == ToolState(packageVersion, moonVersion, changelog)
    {
      this.packageVersion := packageVersion;
      this.moonVersion := moonVersion;
      this.changelog := changelog;
    }

    function State(): ToolState
      reads this
    {
      ToolState(packageVersion, moonVersion, changelog)
    }

    /** `getCurrentVersion()`: package.json wins even when the two disagree. */
    method GetCurrentVersion() returns (v: JsString)
      ensures v == packageVersion
    {
      v := packageVersion;
    }

    /** `updateVersion(newVersion)`: both manifests get the new version. */
    method UpdateVersion(newVersion: JsString)
      modifies this
      ensures State() == old(State()).(packageVersion := newVersion, moonVersion := newVersion)
    {
      packageVersion := newVersion;
      moonVersion := newVersion;
    }

    /** `syncVersions()`: a no-op when they agree, else package.json's version goes to both. */
    method SyncVersions()
      modifies this
      ensures old(packageVersion) == old(moonVersion) ==> State() == old(State())
      ensures State() == old(State()).(moonVersion := old(packageVersion))
    {
      var pv := packageVersion;
      if pv == moonVersion {
        return;
      }
      UpdateVersion(pv);
    }

    /** `updateChangelog(version, type, description)`; an unreadable file is left alone. */
    method UpdateChangelog(version: JsString, b: BumpType, description: JsString, date: JsString)
      modifies this
      ensures var e := ChangelogEntry(version, b, description, date);
              State() == old(State()).(changelog := if old(changelog).None? then None
                                                   else Some(SpliceChangelog(old(changelog).value, e)))
    {
      var entry := ChangelogEntry(version, b, description, date);
      if changelog.Some? {
        var text := changelog.value;
        var first := IndexOf(text, SectionMarker);
        if first.Some? {
          text := text[..first.value] + entry + text[first.value..];
        } else {
          text := text + entry;
        }
        changelog := Some(text);
      }
    }

    /** The bump branch of `run()`. */
    method RunBump(args: seq<JsString>, date: JsString, b: BumpType) returns (exit: Exit, tag: Option<JsString>)
      requires CommandOf(Arg(args, 0)) == BumpCmd(b)
      modifies this
      ensures (State(), exit, tag) == RunSpec(old(State()), args, date)
    {
      var command := Arg(args, 0);
      var currentVersion := GetCurrentVersion();
      var bumped := IncrementVersion(currentVersion, command);
      assert BumpTypeOf(command) == Some(b);
      if bumped.Err? {
        return Crashed(bumped.error), None;
      }
      var newVersion := bumped.value;
      var description := if Arg(args, 1) != [] then Arg(args, 1) else command + VersionUpdate;
      UpdateVersion(newVersion);
      if NoChangelogFlag !in args {
        UpdateChangelog(newVersion, b, description, date);
      }
      tag := if NoGitFlag in args then None else Some(newVersion);
      exit := Done;
    }

    /** `run()` with the command-line arguments after the script name. */
    method Run(args: seq<JsString>, date: JsString) returns (exit: Exit, tag: Option<JsString>)
      modifies this
      ensures (State(), exit, tag) == RunSpec(old(State()), args, date)
    {
      var noGit := NoGitFlag in args;
      var noChangelog := NoChangelogFlag in args;
      var command := Arg(args, 0);
      tag := None;
      match CommandOf(command) {
        case Current =>
          var _ := GetCurrentVersion();
          exit := Done;
        case BumpCmd(b) =>
          exit, tag := RunBump(args, date, b);
        case SetCmd =>
          var targetVersion := Arg(args, 1);
          if targetVersion == [] {
            return ExitFailure, None;
          }
          if ParseVersion(targetVersion).Err? {
            return ExitFailure, None;
          }
          UpdateVersion(targetVersion);
          if !noGit {
            tag := Some(targetVersion);
          }
          exit := Done;
        case Sync =>
          SyncVersions();
          exit := Done;
        case Help =>
          exit := Done;
        case Unknown =>
          exit := ExitFailure;
      }
    }
  }
}
