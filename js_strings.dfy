/**
 * JavaScript strings as the scripts see them: sequences of UTF-16 code units.
 * Dafny's `char` is a Unicode scalar value and cannot hold a lone surrogate,
 * so the model works on code units and converts literals with `Utf16`.
 * The helpers here are the built-in string methods the scripts call
 * (`includes`, `startsWith`, `indexOf`, `split`, `join`, `trim`, `Number`,
 * template-literal number formatting).
 */
module JsStrings {
  import opened Wrappers

  newtype CodeUnit = x: int | 0 <= x < 0x1_0000

  type JsString = seq<CodeUnit>

  /** The UTF-16 encoding of one scalar value: one unit in the BMP, else a surrogate pair. */
  function Units(c: char): (r: JsString)
    ensures 1 <= |r| <= 2
  {
    var n := c as int;
    if n < 0x1_0000 then [n as CodeUnit]
    else [(0xD800 + (n - 0x1_0000) / 0x400) as CodeUnit, (0xDC00 + (n - 0x1_0000) % 0x400) as CodeUnit]
  }

  /** A Dafny string literal as the JavaScript string with the same text. */
  function Utf16(s: string): (r: JsString)
    ensures |s| <= |r| <= 2 * |s|
  {
    if s == [] then [] else Units(s[0]) + Utf16(s[1..])
  }

  /**
   * A literal whose characters all lie in the Basic Multilingual Plane, one
   * code unit per character (`BmpIsUtf16`); cheaper for the verifier than `Utf16`.
   */
  function Bmp(s: string): (r: JsString)
    ensures |r| == |s|
  {
    seq(|s|, i requires 0 <= i < |s| => (s[i] as int % 0x1_0000) as CodeUnit)
  }

  lemma {:induction false} BmpIsUtf16(s: string)
    requires forall i :: 0 <= i < |s| ==> s[i] as int < 0x1_0000
    ensures Bmp(s) == Utf16(s)
    decreases |s|
  {
    if s != [] {
      BmpIsUtf16(s[1..]);
      assert Bmp(s) == [s[0] as int as CodeUnit] + Bmp(s[1..]);
    }
  }

  predicate IsSurrogate(u: CodeUnit) { 0xD800 <= u <= 0xDFFF }

  /** `s.startsWith(p)` */
  predicate StartsWith(s: JsString, p: JsString) { |p| <= |s| && s[..|p|] == p }

  /** `sub` occurs in `s` at index `i`. */
  predicate OccursAt(s: JsString, sub: JsString, i: int) {
    0 <= i && i + |sub| <= |s| && s[i..i + |sub|] == sub
  }

  /** `s.includes(sub)` */
  predicate Contains(s: JsString, sub: JsString) {
    exists i :: 0 <= i <= |s| && OccursAt(s, sub, i)
  }

  /** `s.indexOf(sub)` searching from `from`, with `None` for -1. */
  function IndexOfFrom(s: JsString, sub: JsString, from: nat): (r: Option<nat>)
    ensures r.Some? ==> from <= r.value && OccursAt(s, sub, r.value)
    ensures r.Some? ==> forall j :: from <= j < r.value ==> !OccursAt(s, sub, j)
    ensures r.None? ==> forall j :: from <= j ==> !OccursAt(s, sub, j)
    decreases |s| + 1 - from
  {
    if from + |sub| > |s| then None
    else if s[from..from + |sub|] == sub then Some(from)
    else IndexOfFrom(s, sub, from + 1)
  }

  /** `s.indexOf(sub)`, with `None` for -1. */
  function IndexOf(s: JsString, sub: JsString): (r: Option<nat>)
    ensures r.Some? ==> OccursAt(s, sub, r.value) && forall j :: 0 <= j < r.value ==> !OccursAt(s, sub, j)
    ensures r.None? <==> !Contains(s, sub)
  {
    IndexOfFrom(s, sub, 0)
  }

  /** `parts.join(sep)` */
  function Join(parts: seq<JsString>, sep: JsString): (r: JsString)
    decreases |parts|
  {
    if |parts| == 0 then []
    else if |parts| == 1 then parts[0]
    else parts[0] + sep + Join(parts[1..], sep)
  }

  /** `s.split(sep)` for a one-unit separator: the pieces between separators, at least one. */
  function Split(s: JsString, sep: CodeUnit): (r: seq<JsString>)
    ensures |r| >= 1
    decreases |s|
  {
    if s == [] then [[]]
    else
      var rest := Split(s[1..], sep);
      if s[0] == sep then [[]] + rest else [[s[0]] + rest[0]] + rest[1..]
  }

  /** No piece contains the separator. */
  lemma {:induction false} SplitPiecesFree(s: JsString, sep: CodeUnit)
    ensures forall i :: 0 <= i < |Split(s, sep)| ==> sep !in Split(s, sep)[i]
    decreases |s|
  {
    if s != [] {
      SplitPiecesFree(s[1..], sep);
      var rest := Split(s[1..], sep);
      if s[0] != sep {
        assert sep !in [s[0]] + rest[0];
      }
    }
  }

  /** Splitting a string free of the separator gives that string alone. */
  lemma {:induction false} SplitNoSep(s: JsString, sep: CodeUnit)
    requires sep !in s
    ensures Split(s, sep) == [s]
    decreases |s|
  {
    if s != [] {
      assert sep !in s[1..];
      SplitNoSep(s[1..], sep);
      assert [s[0]] + s[1..] == s;
    }
  }

  /** A separator-free prefix followed by a separator splits off as the first piece. */
  lemma {:induction false} SplitAfterPiece(p: JsString, sep: CodeUnit, t: JsString)
    requires sep !in p
    ensures Split(p + [sep] + t, sep) == [p] + Split(t, sep)
    decreases |p|
  {
    if p == [] {
      assert p + [sep] + t == [sep] + t;
      assert ([sep] + t)[1..] == t;
    } else {
      var s := p + [sep] + t;
      assert s[0] == p[0] && s[1..] == p[1..] + [sep] + t;
      assert sep !in p[1..];
      SplitAfterPiece(p[1..], sep, t);
      assert [p[0]] + p[1..] == p;
    }
  }

  /** Appending a separator and a separator-free tail adds that tail as one more piece. */
  lemma {:induction false} SplitAppendPiece(s: JsString, sep: CodeUnit, t: JsString)
    requires sep !in t
    ensures Split(s + [sep] + t, sep) == Split(s, sep) + [t]
    decreases |s|
  {
    if s == [] {
      assert s + [sep] + t == [sep] + t;
      assert ([sep] + t)[1..] == t;
      SplitNoSep(t, sep);
    } else {
      var w := s + [sep] + t;
      assert w[0] == s[0] && w[1..] == s[1..] + [sep] + t;
      SplitAppendPiece(s[1..], sep, t);
    }
  }

  /** `split` undoes `join` when no piece contains the separator. */
  lemma {:induction false} SplitJoin(parts: seq<JsString>, sep: CodeUnit)
    requires |parts| >= 1
    requires forall i :: 0 <= i < |parts| ==> sep !in parts[i]
    ensures Split(Join(parts, [sep]), sep) == parts
    decreases |parts|
  {
    if |parts| == 1 {
      SplitNoSep(parts[0], sep);
    } else {
      SplitJoin(parts[1..], sep);
      SplitAfterPiece(parts[0], sep, Join(parts[1..], [sep]));
      assert [parts[0]] + parts[1..] == parts;
    }
  }

  /** `split` then `join` with the same separator gives back the string. */
  lemma {:induction false} JoinSplit(s: JsString, sep: CodeUnit)
    ensures Join(Split(s, sep), [sep]) == s
    decreases |s|
  {
    if s != [] {
      JoinSplit(s[1..], sep);
      var rest := Split(s[1..], sep);
      if s[0] == sep {
        assert Join([[]] + rest, [sep]) == [] + [sep] + Join(rest, [sep]);
      } else if |rest| == 1 {
        assert Join([[s[0]] + rest[0]] + rest[1..], [sep]) == [s[0]] + rest[0];
      } else {
        assert rest == [rest[0]] + rest[1..];
        assert Join(rest, [sep]) == rest[0] + [sep] + Join(rest[1..], [sep]);
        assert Join([[s[0]] + rest[0]] + rest[1..], [sep]) == ([s[0]] + rest[0]) + [sep] + Join(rest[1..], [sep]);
      }
    }
  }

  /** The white space and line terminators that `String.prototype.trim` removes. */
  predicate IsJsSpace(u: CodeUnit) {
    u == 0x09 || u == 0x0A || u == 0x0B || u == 0x0C || u == 0x0D || u == 0x20 || u == 0xA0
    || u == 0x1680 || (0x2000 <= u <= 0x200A) || u == 0x2028 || u == 0x2029 || u == 0x202F
    || u == 0x205F || u == 0x3000 || u == 0xFEFF
  }

  /** The leading white space removed. */
  function TrimStart(s: JsString): JsString
    decreases |s|
  {
    if s != [] && IsJsSpace(s[0]) then TrimStart(s[1..]) else s
  }

  /** The trailing white space removed. */
  function TrimEnd(s: JsString): JsString
    decreases |s|
  {
    if s != [] && IsJsSpace(s[|s| - 1]) then TrimEnd(s[..|s| - 1]) else s
  }

  /** What `TrimStart` leaves is a suffix that does not start with white space. */
  lemma {:induction false} TrimStartShape(s: JsString)
    ensures var r := TrimStart(s);
            |r| <= |s| && r == s[|s| - |r|..] && (r == [] || !IsJsSpace(r[0]))
    decreases |s|
  {
    if s != [] && IsJsSpace(s[0]) {
      TrimStartShape(s[1..]);
      var r := TrimStart(s[1..]);
      assert s[1..][|s| - 1 - |r|..] == s[|s| - |r|..];
    }
  }

  /** What `TrimEnd` leaves is a prefix that does not end with white space. */
  lemma {:induction false} TrimEndShape(s: JsString)
    ensures var r := TrimEnd(s);
            |r| <= |s| && r == s[..|r|] && (r == [] || !IsJsSpace(r[|r| - 1]))
    decreases |s|
  {
    if s != [] && IsJsSpace(s[|s| - 1]) {
      TrimEndShape(s[..|s| - 1]);
      var r := TrimEnd(s[..|s| - 1]);
      assert s[..|s| - 1][..|r|] == s[..|r|];
    }
  }

  /** `s.trim()` */
  function Trim(s: JsString): JsString {
    TrimEnd(TrimStart(s))
  }

  /** `s.trim()` is a contiguous slice of `s` with no white space at either end. */
  lemma TrimShape(s: JsString)
    ensures var r := Trim(s);
            && (r == [] || (!IsJsSpace(r[0]) && !IsJsSpace(r[|r| - 1])))
            && exists i, j :: 0 <= i <= j <= |s| && r == s[i..j]
  {
    var a := TrimStart(s);
    var r := TrimEnd(a);
    TrimStartShape(s);
    TrimEndShape(a);
    assert r == [] || r[0] == a[0];
    var i := |s| - |a|;
    assert r == s[i..i + |r|];
  }

  /** Trimming twice is trimming once. */
  lemma TrimIdempotent(s: JsString)
    ensures Trim(Trim(s)) == Trim(s)
  {
    TrimShape(s);
    TrimNoSpaceEnds(Trim(s));
  }

  /** A string whose ends are not white space is its own trim. */
  lemma TrimNoSpaceEnds(s: JsString)
    requires s == [] || (!IsJsSpace(s[0]) && !IsJsSpace(s[|s| - 1]))
    ensures Trim(s) == s
  {
    assert TrimStart(s) == s;
    assert TrimEnd(s) == s;
  }

  // ----- decimal numbers -----

  predicate IsDigit(u: CodeUnit) { 0x30 <= u <= 0x39 }

  predicate AllDigits(s: JsString) { forall i :: 0 <= i < |s| ==> IsDigit(s[i]) }

  /** The value of a string of ASCII digits. */
  function DigitsValue(s: JsString): nat
    requires AllDigits(s)
    decreases |s|
  {
    if s == [] then 0 else DigitsValue(s[..|s| - 1]) * 10 + (s[|s| - 1] - 0x30) as int
  }

  /** The decimal digits of `n`, as a template literal prints a non-negative integer. */
  function NatToString(n: nat): (r: JsString)
    ensures |r| >= 1
    decreases n
  {
    var d := [(0x30 + n % 10) as CodeUnit];
    if n < 10 then d else NatToString(n / 10) + d
  }

  /** The digits read back as `n`, with no leading zero. */
  lemma {:induction false} NatToStringDigits(n: nat)
    ensures var r := NatToString(n);
            AllDigits(r) && DigitsValue(r) == n && (n > 0 ==> r[0] != 0x30)
    decreases n
  {
    var d := [(0x30 + n % 10) as CodeUnit];
    if n < 10 {
      assert d[..0] == [];
    } else {
      NatToStringDigits(n / 10);
      var r := NatToString(n / 10) + d;
      assert r[..|r| - 1] == NatToString(n / 10);
    }
  }

  /** `${n}` for an integer `n`. */
  function IntToString(n: int): (r: JsString)
    ensures |r| >= 1
  {
    if n < 0 then [0x2D] + NatToString(-n) else NatToString(n)
  }

  /**
   * `Number(s)` for the strings the scripts meet: after trimming, the empty
   * string is 0 and an optionally signed run of ASCII digits is its value;
   * anything else is NaN (`None`).
   */
  function ToNumber(s: JsString): (r: Option<int>)
  {
    var t := Trim(s);
    if t == [] then Some(0)
    else if AllDigits(t) then Some(DigitsValue(t))
    else if (t[0] == 0x2D || t[0] == 0x2B) && |t| > 1 && AllDigits(t[1..]) then
      Some(if t[0] == 0x2D then -(DigitsValue(t[1..]) as int) else DigitsValue(t[1..]))
    else None
  }

  /** Printing an integer and reading it back with `Number` gives the integer. */
  lemma IntToStringToNumber(n: int)
    ensures ToNumber(IntToString(n)) == Some(n)
  {
    var s := IntToString(n);
    NatToStringDigits(if n < 0 then -n else n);
    TrimNoSpaceEnds(s);
    if n < 0 {
      assert s[1..] == NatToString(-n);
      assert !AllDigits(s) by { assert !IsDigit(s[0]); }
    }
  }
}
