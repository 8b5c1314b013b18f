/**
 * The update notice of version-manager.js: dotted version comparison, the
 * changelog table, the per-version "changelog shown" flags and the decision
 * whether to show the update modal.
 *
 * `chrome.storage.local` and `localStorage` are both a string-to-string map
 * here; a missing key and a stored '' both read as null.
 */
module UpdateNotes {
  import opened Wrappers
  import opened JsStrings

  // ----- compareVersions -----

  const Dot: CodeUnit := 0x2E

  /** `Number(part) || 0`: NaN and 0 both give 0. */
  function PartNumber(piece: JsString): int {
    match ToNumber(piece)
    case Some(n) => n
    case None => 0
  }

  function MapPieces(pieces: seq<JsString>, f: JsString -> int): (r: seq<int>)
    ensures |r| == |pieces|
  {
    seq(|pieces|, i requires 0 <= i < |pieces| => f(pieces[i]))
  }

  function Numbers(pieces: seq<JsString>): (r: seq<int>)
    ensures |r| == |pieces|
  {
    MapPieces(pieces, PartNumber)
  }

  /** `version.split('.').map(Number)`, with NaN already read as 0. */
  function Components(v: JsString): seq<int> {
    Numbers(Split(v, Dot))
  }

  /** `parts[i] || 0`: a missing component is 0. */
  function Part(ps: seq<int>, i: nat): int {
    if i < |ps| then ps[i] else 0
  }

  function Max(a: nat, b: nat): nat { if a < b then b else a }

  /** Lexicographic comparison of the components from index `i` on, padding the shorter list with 0. */
  function CompareFrom(p: seq<int>, q: seq<int>, i: nat): int
    decreases Max(|p|, |q|) - i
  {
    if i >= Max(|p|, |q|) then 0
    else if Part(p, i) > Part(q, i) then 1
    else if Part(p, i) < Part(q, i) then -1
    else CompareFrom(p, q, i + 1)
  }

  /** The value `compareVersions(v1, v2)` returns. */
  function CompareVersionsSpec(v1: JsString, v2: JsString): int {
    if v1 == [] || v2 == [] then 0 else CompareFrom(Components(v1), Components(v2), 0)
  }

  /** `compareVersions(version1, version2)` */
  method CompareVersions(v1: JsString, v2: JsString) returns (r: int)
    ensures r == CompareVersionsSpec(v1, v2)
  {
    if v1 == [] || v2 == [] {
      return 0;
    }
    var p := Components(v1);
    var q := Components(v2);
    var i := 0;
    while i < Max(|p|, |q|)
      invariant 0 <= i <= Max(|p|, |q|)
      invariant CompareFrom(p, q, i) == CompareFrom(p, q, 0)
      decreases Max(|p|, |q|) - i
    {
      if Part(p, i) > Part(q, i) {
        return 1;
      }
      if Part(p, i) < Part(q, i) {
        return -1;
      }
      i := i + 1;
    }
    return 0;
  }

  /** An empty (null or undefined) argument compares equal to anything. */
  lemma CompareFalsy(v: JsString)
    ensures CompareVersionsSpec([], v) == 0 && CompareVersionsSpec(v, []) == 0
  {
  }

  /**
   * The comparison is decided by the first differing component: the result
   * is 0 exactly when all components agree (padding with 0), and otherwise
   * 1 or -1 by that component.
   */
  lemma {:induction false} CompareFromFirstDifference(p: seq<int>, q: seq<int>, i: nat)
    ensures var r := CompareFrom(p, q, i);
            && (r == 0 <==> forall j :: i <= j < Max(|p|, |q|) ==> Part(p, j) == Part(q, j))
            && (r != 0 ==> exists k :: i <= k < Max(|p|, |q|) && Part(p, k) != Part(q, k)
                                       && (forall j :: i <= j < k ==> Part(p, j) == Part(q, j))
                                       && r == (if Part(p, k) > Part(q, k) then 1 else -1))
    decreases Max(|p|, |q|) - i
  {
    if i < Max(|p|, |q|) && Part(p, i) == Part(q, i) {
      CompareFromFirstDifference(p, q, i + 1);
      var r := CompareFrom(p, q, i);
      if r != 0 {
        var k :| i + 1 <= k < Max(|p|, |q|) && Part(p, k) != Part(q, k)
                 && (forall j :: i + 1 <= j < k ==> Part(p, j) == Part(q, j))
                 && r == (if Part(p, k) > Part(q, k) then 1 else -1);
        assert forall j :: i <= j < k ==> Part(p, j) == Part(q, j);
      }
    }
  }

  /** The result is always -1, 0 or 1. */
  lemma CompareRange(v1: JsString, v2: JsString)
    ensures CompareVersionsSpec(v1, v2) in {-1, 0, 1}
  {
    if v1 != [] && v2 != [] {
      CompareFromFirstDifference(Components(v1), Components(v2), 0);
    }
  }

  /** Every version equals itself. */
  lemma CompareReflexive(v: JsString)
    ensures CompareVersionsSpec(v, v) == 0
  {
    if v != [] {
      CompareFromFirstDifference(Components(v), Components(v), 0);
    }
  }

  lemma {:induction false} CompareFromAntisymmetric(p: seq<int>, q: seq<int>, i: nat)
    ensures CompareFrom(p, q, i) == -CompareFrom(q, p, i)
    decreases Max(|p|, |q|) - i
  {
    if i < Max(|p|, |q|) && Part(p, i) == Part(q, i) {
      CompareFromAntisymmetric(p, q, i + 1);
    }
  }

  /** Swapping the arguments negates the result. */
  lemma CompareAntisymmetric(v1: JsString, v2: JsString)
    ensures CompareVersionsSpec(v1, v2) == -CompareVersionsSpec(v2, v1)
  {
    if v1 != [] && v2 != [] {
      CompareFromAntisymmetric(Components(v1), Components(v2), 0);
    }
  }

  lemma MapPiecesAppend(a: seq<JsString>, b: seq<JsString>, f: JsString -> int)
    ensures MapPieces(a + b, f) == MapPieces(a, f) + MapPieces(b, f)
  {
    var l := MapPieces(a + b, f);
    var r := MapPieces(a, f) + MapPieces(b, f);
    forall i | 0 <= i < |a + b|
      ensures l[i] == r[i]
    {
      if i < |a| {
        assert (a + b)[i] == a[i];
      } else {
        assert (a + b)[i] == b[i - |a|];
      }
    }
  }

  /** `Number('0') || 0` */
  lemma PartNumberZero()
    ensures PartNumber([0x30]) == 0
  {
    var zero: JsString := [0x30];
    TrimNoSpaceEnds(zero);
    assert AllDigits(zero);
    assert DigitsValue(zero) == DigitsValue([]) * 10 + 0 by { assert zero[..0] == []; }
  }

  /** Components equal up to padding with 0 compare equal. */
  lemma {:induction false} CompareZeroPadded(p: seq<int>, q: seq<int>)
    requires forall j :: 0 <= j < Max(|p|, |q|) ==> Part(p, j) == Part(q, j)
    ensures CompareFrom(p, q, 0) == 0
  {
    CompareFromFirstDifference(p, q, 0);
  }

  /** A trailing `.0` makes no difference: '1.0' and '1.0.0' compare equal. */
  lemma TrailingZero(v: JsString)
    requires v != []
    ensures CompareVersionsSpec(v + [Dot, 0x30], v) == 0
  {
    var zero: JsString := [0x30];
    assert v + [Dot, 0x30] == v + [Dot] + zero;
    SplitAppendPiece(v, Dot, zero);
    MapPiecesAppend(Split(v, Dot), [zero], PartNumber);
    PartNumberZero();
    var p := Components(v + [Dot, 0x30]);
    var q := Components(v);
    assert p == q + [0];
    assert forall j :: 0 <= j < Max(|p|, |q|) ==> Part(p, j) == Part(q, j);
    CompareZeroPadded(p, q);
  }

  // ----- getChangelog -----

  /**
   * What `changelogs[version]` finds: an own entry of the table (its heading
   * and date; the feature lists are display text), or a member that every
   * object literal inherits from `Object.prototype` (a function, or the
   * prototype itself for `__proto__`), which is truthy as well.
   */
  datatype Changelog = Entry(title: JsString, date: JsString) | Inherited(name: JsString)

  const Version110: JsString := [0x31, Dot, 0x31, Dot, 0x30]  // "1.1.0"
  const Version100: JsString := [0x31, Dot, 0x30, Dot, 0x30]  // "1.0.0"

  /** The property names of `Object.prototype`, all of them truthy on the lookup. */
  const PrototypeKeys: set<JsString> := {
    Bmp("constructor"), Bmp("__proto__"), Bmp("__defineGetter__"), Bmp("__defineSetter__"),
    Bmp("__lookupGetter__"), Bmp("__lookupSetter__"), Bmp("hasOwnProperty"), Bmp("isPrototypeOf"),
    Bmp("propertyIsEnumerable"), Bmp("toString"), Bmp("toLocaleString"), Bmp("valueOf")
  }

  /**
   * `getChangelog(version)`: `changelogs[version] || null`. Only the two
   * table versions give an entry; a prototype member is found too.
   */
  function GetChangelog(version: JsString): (r: Option<Changelog>)
    ensures r.Some? <==> version == Version110 || version == Version100 || version in PrototypeKeys
    ensures r.Some? && r.value.Entry? <==> version == Version110 || version == Version100
    ensures r.Some? && r.value.Inherited? ==> r.value.name == version
  {
    if version == Version110 then Some(Entry(Utf16("🎉 版本 1.1.0 更新"), Bmp("2024-01-09")))
    else if version == Version100 then Some(Entry(Utf16("🚀 首次发布"), Bmp("2024-01-01")))
    else if version in PrototypeKeys then Some(Inherited(version))
    else None
  }

  // ----- stored flags and the update check -----

  const StorageKey: JsString := Bmp("wechat_helper_version")
  const ChangelogKey: JsString := Bmp("wechat_helper_changelog_shown")
  const Underscore: CodeUnit := 0x5F
  const TrueText: JsString := [0x74, 0x72, 0x75, 0x65]  // "true"
  const CurrentVersion: JsString := Version110

  /** `${this.changelogKey}_${version}` */
  function ShownKey(version: JsString): JsString {
    ChangelogKey + [Underscore] + version
  }

  type Store = map<JsString, JsString>

  /** `getItem(key)`, '' for null. */
  function Get(st: Store, key: JsString): JsString {
    if key in st then st[key] else []
  }

  /** `hasShownChangelog(version)`: `!!getItem(key)`. */
  predicate Shown(st: Store, version: JsString) {
    Get(st, ShownKey(version)) != []
  }

  /** The decision of `checkForUpdates`: a first install or an upgrade whose changelog has not been shown. */
  function UpdateNotice(st: Store): Option<Changelog> {
    var stored := Get(st, StorageKey);
    if (stored == [] || CompareVersionsSpec(CurrentVersion, stored) > 0) && !Shown(st, CurrentVersion)
    then GetChangelog(CurrentVersion)
    else None
  }

  /** Different versions have different flag keys, and no flag key is the version key. */
  lemma ShownKeysDistinct(v: JsString, w: JsString)
    ensures ShownKey(v) == ShownKey(w) ==> v == w
    ensures ShownKey(v) != StorageKey
  {
    var n := |ChangelogKey| + 1;
    if ShownKey(v) == ShownKey(w) {
      assert v == ShownKey(v)[n..] && w == ShownKey(w)[n..];
    }
    assert |ChangelogKey| == 29 && |StorageKey| == 21;
    if |ShownKey(v)| == |StorageKey| {
      assert false;
    }
  }

  /** Marking one version shown sets its flag and no other, and saving the version touches no flag. */
  lemma MarkIsPerVersion(st: Store, v: JsString, w: JsString, x: JsString)
    ensures Shown(st[ShownKey(v) := TrueText], v)
    ensures v != w ==> (Shown(st[ShownKey(v) := TrueText], w) <==> Shown(st, w))
    ensures Shown(st[StorageKey := x], w) <==> Shown(st, w)
  {
    ShownKeysDistinct(v, w);
    ShownKeysDistinct(w, v);
  }

  class VersionManager {
    /** The extension's key-value storage. */
    var store: Store

    constructor(store: Store)
      ensures this.store == store
    {
      this.store := store;
    }

    /** `getStoredVersion()` */
    method GetStoredVersion() returns (v: JsString)
      ensures v == Get(store, StorageKey)
    {
      v := if StorageKey in store then store[StorageKey] else [];
    }

    /** `saveVersion(version)` */
    method SaveVersion(version: JsString)
      modifies this
      ensures store == old(store)[StorageKey := version]
    {
      store := store[StorageKey := version];
    }

    /** `hasShownChangelog(version)` */
    method HasShownChangelog(version: JsString) returns (b: bool)
      ensures b == Shown(store, version)
    {
      var key := ChangelogKey + [Underscore] + version;
      b := key in store && store[key] != [];
    }

    /** `markChangelogShown(version)` */
    method MarkChangelogShown(version: JsString)
      modifies this
      ensures store == old(store)[ShownKey(version) := TrueText]
      ensures Shown(store, version)
    {
      var key := ChangelogKey + [Underscore] + version;
      store := store[key := TrueText];
    }

    /**
     * `checkForUpdates()`: the changelog to show (if any), after which the
     * stored version is the current one.
     */
    method CheckForUpdates() returns (modal: Option<Changelog>)
      modifies this
      ensures modal == UpdateNotice(old(store))
      ensures store == old(store)[StorageKey := CurrentVersion]
    {
      var storedVersion := GetStoredVersion();
      var hasShown := HasShownChangelog(CurrentVersion);
      modal := None;
      if storedVersion == [] {
        if !hasShown { modal := GetChangelog(CurrentVersion); }
      } else {
        var cmp := CompareVersions(CurrentVersion, storedVersion);
        if cmp > 0 && !hasShown { modal := GetChangelog(CurrentVersion); }
      }
      SaveVersion(CurrentVersion);
    }
  }

  /** A first install with nothing stored shows the current changelog, an own entry of the table. */
  lemma FirstInstallShowsChangelog()
    ensures UpdateNotice(map[]) == GetChangelog(CurrentVersion) && UpdateNotice(map[]).Some?
    ensures UpdateNotice(map[]).value.Entry?
  {
  }

  /** After one check has stored the current version, the next check shows nothing. */
  lemma SecondCheckQuiet(st: Store)
    ensures UpdateNotice(st[StorageKey := CurrentVersion]).None?
  {
    CompareReflexive(CurrentVersion);
  }

  /** Once the current changelog has been marked shown, no check shows it. */
  lemma ShownNeverAgain(st: Store)
    requires Shown(st, CurrentVersion)
    ensures UpdateNotice(st).None?
  {
  }

  /** A downgrade or the same version never shows the modal. */
  lemma NoNoticeWithoutUpgrade(st: Store)
    requires Get(st, StorageKey) != []
    requires CompareVersionsSpec(CurrentVersion, Get(st, StorageKey)) <= 0
    ensures UpdateNotice(st).None?
  {
  }
}
