/**
 * The reference string operations of the compute engine (the `js` object of
 * wasmLoader.js): image-URL normalisation for the WeChat CDN, referrer-policy
 * choice, filename sanitisation and HTML text/attribute escaping.
 *
 * URLs are abstract: a parsed URL is its host and its ordered list of decoded
 * query parameters (plus the parts the scripts never look at), and the WHATWG
 * URL parser (relative to the page's base URL) and serializer are a pair of
 * functions supplied by the caller.
 */
module StringOps {
  import opened Wrappers
  import opened JsStrings

  // ----- URLs -----

  datatype Param = Param(name: JsString, value: JsString)

  /** A parsed URL; `query` is the `searchParams` list in order. */
  datatype Url = Url(scheme: JsString, host: JsString, path: JsString, query: seq<Param>, fragment: JsString)

  /** The URL parser (None when `new URL` throws) and the serializer (`url.toString()`). */
  datatype UrlCodec = UrlCodec(parse: JsString -> Option<Url>, serialize: Url -> JsString)


  /** The article-image CDN host fragment. */
  const CdnHost: JsString := [0x6D, 0x6D, 0x62, 0x69, 0x7A, 0x2E, 0x71, 0x70, 0x69, 0x63, 0x2E, 0x63, 0x6E]  // "mmbiz.qpic.cn"
  predicate IsCdnHost(host: JsString) { Contains(host, CdnHost) }

  /** `searchParams.has(name)` */
  predicate HasParam(q: seq<Param>, name: JsString) {
    exists i :: 0 <= i < |q| && q[i].name == name
  }

  /** `searchParams.get(name)`: the value of the first pair with that name. */
  function GetParam(q: seq<Param>, name: JsString): (r: Option<JsString>)
    ensures r.Some? <==> HasParam(q, name)
    decreases |q|
  {
    if q == [] then None
    else if q[0].name == name then Some(q[0].value)
    else
      assert HasParam(q, name) <==> HasParam(q[1..], name) by {
        assert forall i :: 1 <= i < |q| ==> q[i] == q[1..][i - 1];
      }
      GetParam(q[1..], name)
  }

  function RemoveParam(q: seq<Param>, name: JsString): (r: seq<Param>)
    ensures !HasParam(r, name)
    decreases |q|
  {
    if q == [] then []
    else if q[0].name == name then RemoveParam(q[1..], name)
    else [q[0]] + RemoveParam(q[1..], name)
  }

  function ReplaceFirstParam(q: seq<Param>, name: JsString, value: JsString): (r: seq<Param>)
    requires HasParam(q, name)
    ensures GetParam(r, name) == Some(value)
    decreases |q|
  {
    if q[0].name == name then [Param(name, value)] + RemoveParam(q[1..], name)
    else
      assert HasParam(q[1..], name) by {
        var i :| 0 <= i < |q| && q[i].name == name;
        assert q[1..][i - 1].name == name;
      }
      [q[0]] + ReplaceFirstParam(q[1..], name, value)
  }

  /**
   * `searchParams.set(name, value)` (section 6.2 of the WHATWG URL Standard):
   * the first pair with that name takes the value and the others are removed;
   * with no such pair the new pair is appended.
   */
  function SetParam(q: seq<Param>, name: JsString, value: JsString): (r: seq<Param>)
    ensures GetParam(r, name) == Some(value)
    ensures !HasParam(q, name) ==> r == q + [Param(name, value)]
  {
    if HasParam(q, name) then ReplaceFirstParam(q, name, value)
    else
      var r := q + [Param(name, value)];
      assert GetParam(r, name) == Some(value) by { AppendedParam(q, name, value); }
      r
  }

  /** The position of the first pair with that name. */
  function FirstIndex(q: seq<Param>, name: JsString): (k: nat)
    requires HasParam(q, name)
    ensures k < |q| && q[k].name == name
    ensures forall j :: 0 <= j < k ==> q[j].name != name
    decreases |q|
  {
    if q[0].name == name then 0
    else
      assert HasParam(q[1..], name) by {
        var i :| 0 <= i < |q| && q[i].name == name;
        assert q[1..][i - 1].name == name;
      }
      var k := FirstIndex(q[1..], name);
      assert forall j :: 1 <= j < k + 1 ==> q[j] == q[1..][j - 1];
      k + 1
  }

  /** Removing pairs from a list that has none of that name changes nothing. */
  lemma {:induction false} RemoveParamAbsent(q: seq<Param>, name: JsString)
    requires !HasParam(q, name)
    ensures RemoveParam(q, name) == q
    decreases |q|
  {
    if q != [] {
      assert q[0].name != name;
      assert !HasParam(q[1..], name) by {
        forall i | 0 <= i < |q[1..]| ensures q[1..][i].name != name { assert q[1..][i] == q[i + 1]; }
      }
      RemoveParamAbsent(q[1..], name);
      assert [q[0]] + q[1..] == q;
    }
  }

  /** Removing the pairs of a name splits over concatenation. */
  lemma {:induction false} RemoveParamConcat(a: seq<Param>, b: seq<Param>, name: JsString)
    ensures RemoveParam(a + b, name) == RemoveParam(a, name) + RemoveParam(b, name)
    decreases |a|
  {
    if a == [] {
      assert a + b == b;
    } else {
      assert (a + b)[0] == a[0] && (a + b)[1..] == a[1..] + b;
      RemoveParamConcat(a[1..], b, name);
    }
  }

  /** `k` is the first position of a pair with that name. */
  predicate FirstAt(q: seq<Param>, name: JsString, k: nat) {
    k < |q| && q[k].name == name && forall j :: 0 <= j < k ==> q[j].name != name
  }

  /** `ReplaceFirstParam` keeps the prefix, puts the pair at the first position and drops the name from the rest. */
  lemma {:induction false} ReplaceFirstParamAt(q: seq<Param>, name: JsString, value: JsString, k: nat)
    requires FirstAt(q, name, k)
    ensures HasParam(q, name)
    ensures ReplaceFirstParam(q, name, value) == q[..k] + [Param(name, value)] + RemoveParam(q[k + 1..], name)
    decreases k
  {
    if k == 0 {
      assert q[..0] == [];
    } else {
      FirstAtTail(q, name, k);
      ReplaceFirstParamAt(q[1..], name, value, k - 1);
      ReplaceFirstParamStep(q, name, value);
      ConsShape(q, k, Param(name, value), RemoveParam(q[k + 1..], name));
    }
  }

  /** A first position past the head is one less in the tail. */
  lemma FirstAtTail(q: seq<Param>, name: JsString, k: nat)
    requires FirstAt(q, name, k) && k > 0
    ensures FirstAt(q[1..], name, k - 1)
  {
    var t := q[1..];
    forall j | 0 <= j < k - 1 ensures t[j].name != name { assert t[j] == q[j + 1]; }
    assert t[k - 1] == q[k];
  }

  /** Past a head of another name, `ReplaceFirstParam` keeps the head. */
  lemma ReplaceFirstParamStep(q: seq<Param>, name: JsString, value: JsString)
    requires HasParam(q, name) && q[0].name != name
    ensures HasParam(q[1..], name)
    ensures ReplaceFirstParam(q, name, value) == [q[0]] + ReplaceFirstParam(q[1..], name, value)
  {
    var i :| 0 <= i < |q| && q[i].name == name;
    assert q[1..][i - 1].name == name;
  }

  /** Prefixing the head to a split of the tail is the same split of the whole list. */
  lemma ConsShape(q: seq<Param>, k: nat, p: Param, rest: seq<Param>)
    requires 0 < k < |q|
    ensures [q[0]] + (q[1..][..k - 1] + [p] + rest) == q[..k] + [p] + rest
    ensures q[1..][k..] == q[k + 1..]
  {
    assert q[..k] == [q[0]] + q[1..][..k - 1];
  }

  /** `set` on a name first found at `k` splits the list around `k`. */
  lemma SetParamAt(q: seq<Param>, name: JsString, value: JsString, k: nat)
    requires FirstAt(q, name, k)
    ensures SetParam(q, name, value) == q[..k] + [Param(name, value)] + RemoveParam(q[k + 1..], name)
    ensures !HasParam(q[..k], name)
  {
    ReplaceFirstParamAt(q, name, value, k);
    forall i | 0 <= i < k ensures q[..k][i].name != name { assert q[..k][i] == q[i]; }
  }

  /**
   * `set` on a name already present: the pairs before its first position are
   * kept, that position holds the new pair, and the rest loses every pair of
   * that name.
   */
  lemma SetParamReplacesFirst(q: seq<Param>, name: JsString, value: JsString)
    requires HasParam(q, name)
    ensures var r := SetParam(q, name, value);
            var k := FirstIndex(q, name);
            && k < |r| && r[..k] == q[..k] && r[k] == Param(name, value)
            && r[k + 1..] == RemoveParam(q[k + 1..], name)
  {
    var k := FirstIndex(q, name);
    SetParamAt(q, name, value, k);
    SplitParts(q[..k], Param(name, value), RemoveParam(q[k + 1..], name));
  }

  /** `set` leaves the pairs of every other name as they were, in order. */
  lemma SetParamKeepsOthers(q: seq<Param>, name: JsString, value: JsString)
    ensures RemoveParam(SetParam(q, name, value), name) == RemoveParam(q, name)
  {
    var p := Param(name, value);
    if HasParam(q, name) {
      RemoveAfterReplace(q, name, value, FirstIndex(q, name));
    } else {
      RemoveParamConcat(q, [p], name);
      assert RemoveParam([p], name) == [] by { assert [p][1..] == []; }
    }
  }

  /** Removing the name after replacing its first pair leaves what removing it from the original leaves. */
  lemma RemoveAfterReplace(q: seq<Param>, name: JsString, value: JsString, k: nat)
    requires FirstAt(q, name, k)
    ensures RemoveParam(SetParam(q, name, value), name) == RemoveParam(q, name)
  {
    var p := Param(name, value);
    var pre, tail := q[..k], RemoveParam(q[k + 1..], name);
    SetParamAt(q, name, value, k);
    assert RemoveParam(pre + [p] + tail, name) == pre + tail by {
      RemoveParamAbsent(tail, name);
      RemoveAroundPair(pre, p, tail, name);
    }
    assert RemoveParam(q, name) == pre + tail by {
      assert q == pre + [q[k]] + q[k + 1..];
      RemoveAroundPair(pre, q[k], q[k + 1..], name);
    }
  }

  /** After `set` the name occurs exactly once: at its old first position, or appended at the end. */
  lemma SetParamOnlyOnce(q: seq<Param>, name: JsString, value: JsString)
    ensures var r := SetParam(q, name, value);
            var k := if HasParam(q, name) then FirstIndex(q, name) else |q|;
            k < |r| && r[k] == Param(name, value) && forall j :: 0 <= j < |r| && r[j].name == name ==> j == k
  {
    var r := SetParam(q, name, value);
    var p := Param(name, value);
    if HasParam(q, name) {
      var k := FirstIndex(q, name);
      SetParamAt(q, name, value, k);
      OnlyAtSplit(r, q[..k], p, RemoveParam(q[k + 1..], name), name);
    } else {
      OnlyAtSplit(r, q, p, [], name);
    }
  }

  /** The parts of `pre + [p] + tail` read back by position. */
  lemma SplitParts(pre: seq<Param>, p: Param, tail: seq<Param>)
    ensures var r := pre + [p] + tail;
            && |pre| < |r| && r[..|pre|] == pre && r[|pre|] == p && r[|pre| + 1..] == tail
  {
  }

  /** Around a pair of that name, with none before it, removal keeps the prefix and drops the pair. */
  lemma RemoveAroundPair(pre: seq<Param>, x: Param, rest: seq<Param>, name: JsString)
    requires !HasParam(pre, name) && x.name == name
    ensures RemoveParam(pre + [x] + rest, name) == pre + RemoveParam(rest, name)
  {
    RemoveParamConcat(pre + [x], rest, name);
    RemoveParamConcat(pre, [x], name);
    RemoveParamAbsent(pre, name);
    assert RemoveParam([x], name) == [] by { assert [x][1..] == []; }
  }

  /** With no pair of that name around it, the middle pair is the only one. */
  lemma OnlyAtSplit(r: seq<Param>, pre: seq<Param>, p: Param, tail: seq<Param>, name: JsString)
    requires r == pre + [p] + tail
    requires !HasParam(pre, name) && !HasParam(tail, name)
    ensures forall j :: 0 <= j < |r| && r[j].name == name ==> j == |pre|
  {
    forall j | 0 <= j < |r| && j != |pre| ensures r[j].name != name {
      if j < |pre| { assert r[j] == pre[j]; }
      else { assert r[j] == tail[j - |pre| - 1]; }
    }
  }


  lemma {:induction false} AppendedParam(q: seq<Param>, name: JsString, value: JsString)
    requires !HasParam(q, name)
    ensures GetParam(q + [Param(name, value)], name) == Some(value)
    decreases |q|
  {
    if q != [] {
      assert !HasParam(q[1..], name) by {
        forall i | 0 <= i < |q[1..]| ensures q[1..][i].name != name { assert q[1..][i] == q[i + 1]; }
      }
      AppendedParam(q[1..], name, value);
      assert (q + [Param(name, value)])[1..] == q[1..] + [Param(name, value)];
    }
  }

  /** Appending a pair keeps every earlier first value. */
  lemma {:induction false} GetParamAppend(q: seq<Param>, p: Param, name: JsString)
    requires HasParam(q, name)
    ensures GetParam(q + [p], name) == GetParam(q, name)
    decreases |q|
  {
    if q[0].name != name {
      assert HasParam(q[1..], name) by {
        var i :| 0 <= i < |q| && q[i].name == name;
        assert q[1..][i - 1].name == name;
      }
      GetParamAppend(q[1..], p, name);
      assert (q + [p])[1..] == q[1..] + [p];
    }
  }

  const WxFmt: JsString := [0x77, 0x78, 0x5F, 0x66, 0x6D, 0x74]  // "wx_fmt"
  const Png: JsString := [0x70, 0x6E, 0x67]  // "png"
  const Tp: JsString := [0x74, 0x70]  // "tp"
  const Webp: JsString := [0x77, 0x65, 0x62, 0x70]  // "webp"
  /** The query rewrite of `normalizeImageUrl`: each parameter is added only when absent. */
  function WithCdnParams(url: Url): (r: Url)
    ensures r.scheme == url.scheme && r.host == url.host && r.path == url.path && r.fragment == url.fragment
    ensures !IsCdnHost(url.host) ==> r == url
    ensures IsCdnHost(url.host) ==>
      GetParam(r.query, WxFmt) == (if HasParam(url.query, WxFmt) then GetParam(url.query, WxFmt) else Some(Png))
    ensures IsCdnHost(url.host) ==>
      GetParam(r.query, Tp) == (if HasParam(url.query, Tp) then GetParam(url.query, Tp) else Some(Webp))
  {
    if IsCdnHost(url.host) then
      CdnQueryFacts(url.query);
      url.(query := CdnQuery(url.query))
    else url
  }

  /** The two conditional `set` calls on the query of a CDN URL. */
  function CdnQuery(q: seq<Param>): seq<Param> {
    var q1 := if !HasParam(q, WxFmt) then SetParam(q, WxFmt, Png) else q;
    if !HasParam(q1, Tp) then SetParam(q1, Tp, Webp) else q1
  }

  lemma CdnQueryFacts(q: seq<Param>)
    ensures GetParam(CdnQuery(q), WxFmt) == (if HasParam(q, WxFmt) then GetParam(q, WxFmt) else Some(Png))
    ensures GetParam(CdnQuery(q), Tp) == (if HasParam(q, Tp) then GetParam(q, Tp) else Some(Webp))
  {
    var q1 := if !HasParam(q, WxFmt) then SetParam(q, WxFmt, Png) else q;
    assert HasParam(q1, WxFmt);
    if !HasParam(q1, Tp) { GetParamAppend(q1, Param(Tp, Webp), WxFmt); }
    if !HasParam(q, WxFmt) && HasParam(q, Tp) { GetParamAppend(q, Param(WxFmt, Png), Tp); }
  }

  /**
   * On a CDN host the rewrite keeps every pair of the query in place and
   * only appends the missing parameters at the end: `wx_fmt=png`, then
   * `tp=webp`.
   */
  lemma WithCdnParamsKeepsQuery(url: Url)
    ensures IsCdnHost(url.host) ==>
      WithCdnParams(url).query
        == url.query + (if HasParam(url.query, WxFmt) then [] else [Param(WxFmt, Png)])
                     + (if HasParam(url.query, Tp) then [] else [Param(Tp, Webp)])
  {
    var q := url.query;
    if !HasParam(q, WxFmt) {
      var q1 := q + [Param(WxFmt, Png)];
      assert HasParam(q1, Tp) ==> HasParam(q, Tp) by {
        if HasParam(q1, Tp) {
          var i :| 0 <= i < |q1| && q1[i].name == Tp;
          assert i != |q|;
          assert q[i] == q1[i];
        }
      }
      assert HasParam(q, Tp) ==> HasParam(q1, Tp) by {
        if HasParam(q, Tp) {
          var i :| 0 <= i < |q| && q[i].name == Tp;
          assert q1[i] == q[i];
        }
      }
    }
  }

  /** Once both parameters are present, the rewrite changes nothing. */
  lemma WithCdnParamsIdempotent(url: Url)
    ensures WithCdnParams(WithCdnParams(url)) == WithCdnParams(url)
  {
    var r := WithCdnParams(url);
    if IsCdnHost(url.host) {
      assert HasParam(r.query, WxFmt) && HasParam(r.query, Tp);
    }
  }

  /**
   * The WHATWG round trip, asked only of URLs the program produces: a URL the
   * parser returned, with the CDN parameters added, serializes to a text that
   * parses back to that same URL (the parser and serializer of sections 4.4
   * and 4.5 of the WHATWG URL Standard, and the query's
   * `application/x-www-form-urlencoded` format of its section 5).
   * Records no parser returns (an empty scheme, an upper-case host) are not
   * constrained.
   */
  ghost predicate SerializerReparses(c: UrlCodec) {
    forall u :: c.parse(u).Some? ==>
      c.parse(c.serialize(WithCdnParams(c.parse(u).value))) == Some(WithCdnParams(c.parse(u).value))
  }

  /**
   * `js.normalizeImageUrl(u)`: a falsy input and an input the URL parser rejects
   * are returned as they are; otherwise the parsed URL, with the CDN parameters
   * added on CDN hosts, is serialized again.
   */
  function NormalizeImageUrl(c: UrlCodec, u: JsString): (r: JsString)
    ensures u == [] ==> r == []
    ensures u != [] && c.parse(u).None? ==> r == u
    ensures u != [] && c.parse(u).Some? ==> r == c.serialize(WithCdnParams(c.parse(u).value))
  {
    if u == [] then u
    else match c.parse(u)
      case None => u
      case Some(url) => c.serialize(WithCdnParams(url))
  }

  /** Normalising an already normalised URL changes nothing (no duplicate parameters). */
  lemma NormalizeImageUrlIdempotent(c: UrlCodec, u: JsString)
    requires SerializerReparses(c)
    ensures NormalizeImageUrl(c, NormalizeImageUrl(c, u)) == NormalizeImageUrl(c, u)
  {
    if u != [] && c.parse(u).Some? {
      var url := WithCdnParams(c.parse(u).value);
      assert c.parse(c.serialize(url)) == Some(url);
      WithCdnParamsIdempotent(c.parse(u).value);
    }
  }

  /**
   * On a CDN URL the normalised text parses back to a URL carrying both CDN
   * parameters, keeping the values the input already had.
   */
  lemma NormalizeImageUrlAddsCdnParams(c: UrlCodec, u: JsString)
    requires SerializerReparses(c)
    requires u != [] && c.parse(u).Some? && IsCdnHost(c.parse(u).value.host)
    ensures c.parse(NormalizeImageUrl(c, u)).Some?
    ensures var q0 := c.parse(u).value.query;
            var q := c.parse(NormalizeImageUrl(c, u)).value.query;
            && GetParam(q, WxFmt) == (if HasParam(q0, WxFmt) then GetParam(q0, WxFmt) else Some(Png))
            && GetParam(q, Tp) == (if HasParam(q0, Tp) then GetParam(q0, Tp) else Some(Webp))
  {
    var url := WithCdnParams(c.parse(u).value);
    assert c.parse(c.serialize(url)) == Some(url);
  }

  const NoReferrer: JsString := [0x6E, 0x6F, 0x2D, 0x72, 0x65, 0x66, 0x65, 0x72, 0x72, 0x65, 0x72]  // "no-referrer"
  const NoReferrerWhenDowngrade: JsString := [0x6E, 0x6F, 0x2D, 0x72, 0x65, 0x66, 0x65, 0x72, 0x72, 0x65, 0x72, 0x2D, 0x77, 0x68, 0x65, 0x6E, 0x2D, 0x64, 0x6F, 0x77, 0x6E, 0x67, 0x72, 0x61, 0x64, 0x65]  // "no-referrer-when-downgrade"
  /** `js.decideReferrerPolicy(u)` */
  function DecideReferrerPolicy(c: UrlCodec, u: JsString): (r: JsString)
    ensures r == NoReferrerWhenDowngrade <==> (c.parse(u).Some? && IsCdnHost(c.parse(u).value.host))
    ensures r == NoReferrer || r == NoReferrerWhenDowngrade
  {
    match c.parse(u)
    case None => NoReferrer
    case Some(url) => if IsCdnHost(url.host) then NoReferrerWhenDowngrade else NoReferrer
  }

  // ----- filenames -----

  /** The characters of the class `[\\/:*?"<>|]`. */
  predicate IsReserved(u: CodeUnit) {
    u == 0x5C || u == 0x2F || u == 0x3A || u == 0x2A || u == 0x3F || u == 0x22 || u == 0x3C || u == 0x3E || u == 0x7C
  }

  predicate NoReserved(s: JsString) { forall i :: 0 <= i < |s| ==> !IsReserved(s[i]) }

  const Underscore: CodeUnit := 0x5F

  /** What is left after the leading run of reserved characters. */
  function DropReservedRun(s: JsString): (r: JsString)
    ensures |r| <= |s|
    decreases |s|
  {
    if s != [] && IsReserved(s[0]) then DropReservedRun(s[1..]) else s
  }

  /** The rest is a suffix of the text and does not start with a reserved character. */
  lemma {:induction false} DropReservedRunShape(s: JsString)
    ensures var r := DropReservedRun(s);
            r == s[|s| - |r|..] && (r == [] || !IsReserved(r[0]))
    decreases |s|
  {
    if s != [] && IsReserved(s[0]) {
      DropReservedRunShape(s[1..]);
      var r := DropReservedRun(s[1..]);
      assert s[1..][|s| - 1 - |r|..] == s[|s| - |r|..];
    }
  }

  /** `s.replace(/[\\/:*?"<>|]+/g, '_')`: every maximal run of reserved characters becomes one `_`. */
  function CollapseReserved(s: JsString): JsString
    decreases |s|
  {
    if s == [] then []
    else if IsReserved(s[0]) then [Underscore] + CollapseReserved(DropReservedRun(s[1..]))
    else [s[0]] + CollapseReserved(s[1..])
  }

  /** The replacement leaves no reserved character, never lengthens the text and keeps non-empty text non-empty. */
  lemma {:induction false} CollapseReservedShape(s: JsString)
    ensures var r := CollapseReserved(s);
            NoReserved(r) && |r| <= |s| && (s != [] ==> r != [])
    decreases |s|
  {
    if s != [] {
      var head: CodeUnit := if IsReserved(s[0]) then Underscore else s[0];
      var rest := if IsReserved(s[0]) then DropReservedRun(s[1..]) else s[1..];
      CollapseReservedShape(rest);
      var c := CollapseReserved(rest);
      assert CollapseReserved(s) == [head] + c;
      assert forall i :: 0 < i < |[head] + c| ==> ([head] + c)[i] == c[i - 1];
    }
  }

  const DefaultFilename: JsString := [0x66, 0x69, 0x6C, 0x65]  // "file"
  const MaxFilename: nat := 120

  /** `js.sanitizeFilename(name)` */
  function SanitizeFilename(name: JsString): (r: JsString)
    ensures 1 <= |r| <= MaxFilename
    ensures NoReserved(r)
  {
    var source := if name == [] then DefaultFilename else name;
    var base := CollapseReserved(source);
    CollapseReservedShape(source);
    if |base| <= MaxFilename then base else base[..MaxFilename]
  }

  /**
   * The value of `sanitizeFilename`: a falsy name reads as `file`; a clean
   * name of 1 to 120 units is kept as it is; in general the result is the
   * replacement's output cut to its first 120 units.
   */
  lemma SanitizeFilenameValue(name: JsString)
    ensures var base := CollapseReserved(if name == [] then DefaultFilename else name);
            SanitizeFilename(name) == base[..if |base| <= MaxFilename then |base| else MaxFilename]
    ensures name == [] ==> SanitizeFilename(name) == DefaultFilename
    ensures NoReserved(name) && 1 <= |name| <= MaxFilename ==> SanitizeFilename(name) == name
  {
    var base := CollapseReserved(if name == [] then DefaultFilename else name);
    if |base| <= MaxFilename { assert base[..|base|] == base; }
    if name == [] { CollapseReservedClean(DefaultFilename); }
    if NoReserved(name) && name != [] { CollapseReservedClean(name); }
  }

  /** A string without reserved characters is left alone by the replacement. */
  lemma {:induction false} CollapseReservedClean(s: JsString)
    requires NoReserved(s)
    ensures CollapseReserved(s) == s
    decreases |s|
  {
    if s != [] {
      assert NoReserved(s[1..]) by { assert forall i :: 0 <= i < |s| - 1 ==> s[1..][i] == s[i + 1]; }
      CollapseReservedClean(s[1..]);
      assert [s[0]] + s[1..] == s;
    }
  }

  /** A maximal run of reserved characters contributes exactly one `_`. */
  lemma {:induction false} CollapseReservedRun(run: JsString, rest: JsString)
    requires run != [] && forall i :: 0 <= i < |run| ==> IsReserved(run[i])
    requires rest == [] || !IsReserved(rest[0])
    ensures CollapseReserved(run + rest) == [Underscore] + CollapseReserved(rest)
  {
    assert (run + rest)[1..] == run[1..] + rest;
    DropRunOf(run[1..], rest);
  }

  lemma {:induction false} DropRunOf(run: JsString, rest: JsString)
    requires forall i :: 0 <= i < |run| ==> IsReserved(run[i])
    requires rest == [] || !IsReserved(rest[0])
    ensures DropReservedRun(run + rest) == rest
    decreases |run|
  {
    if run == [] {
      assert run + rest == rest;
    } else {
      assert (run + rest)[1..] == run[1..] + rest;
      DropRunOf(run[1..], rest);
    }
  }

  /** Sanitising a sanitised name changes nothing. */
  lemma SanitizeFilenameIdempotent(name: JsString)
    ensures SanitizeFilename(SanitizeFilename(name)) == SanitizeFilename(name)
  {
    CollapseReservedClean(SanitizeFilename(name));
  }

  /**
   * Clean pieces separated by single reserved characters keep the pieces and
   * turn each separator into `_`; 'test/file:name*.jpg' becoming
   * 'test_file_name_.jpg' is the instance with pieces "test", "file", "name",
   * ".jpg" and separators '/', ':', '*'.
   */
  lemma SanitizeFilenameExample(t: JsString, f: JsString, n: JsString, j: JsString, a: CodeUnit, b: CodeUnit, c: CodeUnit)
    requires NoReserved(t) && NoReserved(f) && NoReserved(n) && NoReserved(j)
    requires f != [] && n != [] && j != []
    requires IsReserved(a) && IsReserved(b) && IsReserved(c)
    requires |t| + |f| + |n| + |j| + 3 <= MaxFilename
    ensures SanitizeFilename(t + [a] + f + [b] + n + [c] + j)
         == t + [Underscore] + f + [Underscore] + n + [Underscore] + j
  {
    var r3 := j;
    var r2 := n + [c] + r3;
    var r1 := f + [b] + r2;
    CollapseReservedClean(j);
    assert r2[0] == n[0];
    assert r1[0] == f[0];
    SeparatorStep(n, c, r3);
    SeparatorStep(f, b, r2);
    SeparatorStep(t, a, r1);
    var name := t + [a] + f + [b] + n + [c] + j;
    var out := t + [Underscore] + f + [Underscore] + n + [Underscore] + j;
    assert name == t + [a] + r1 && name != [];
    assert CollapseReserved(name) == out;
    assert |out| <= MaxFilename;
  }

  /** A clean piece followed by one separator and a clean start. */
  lemma SeparatorStep(p: JsString, u: CodeUnit, rest: JsString)
    requires NoReserved(p) && IsReserved(u)
    requires rest == [] || !IsReserved(rest[0])
    ensures CollapseReserved(p + [u] + rest) == p + [Underscore] + CollapseReserved(rest)
  {
    assert p + [u] + rest == p + ([u] + rest);
    PrefixClean(p, [u] + rest);
    CollapseReservedRun([u], rest);
  }

  /** A clean prefix is copied through unchanged. */
  lemma {:induction false} PrefixClean(p: JsString, t: JsString)
    requires NoReserved(p)
    ensures CollapseReserved(p + t) == p + CollapseReserved(t)
    decreases |p|
  {
    if p != [] {
      assert (p + t)[0] == p[0] && (p + t)[1..] == p[1..] + t;
      assert NoReserved(p[1..]) by { assert forall i :: 0 <= i < |p| - 1 ==> p[1..][i] == p[i + 1]; }
      PrefixClean(p[1..], t);
      assert [p[0]] + (p[1..] + CollapseReserved(t)) == p + CollapseReserved(t);
    } else {
      assert p + t == t;
    }
  }

  /** Any number of slashes (200 in the batch test) collapse to a single `_`. */
  lemma SanitizeFilenameAllSlashes(n: nat)
    requires n > 0
    ensures SanitizeFilename(seq(n, _ => 0x2F as CodeUnit)) == [Underscore]
  {
    var s := seq(n, _ => 0x2F as CodeUnit);
    CollapseReservedRun(s, []);
    assert s + [] == s;
  }

  // ----- HTML escaping -----

  const Amp: CodeUnit := 0x26
  const Lt: CodeUnit := 0x3C
  const Gt: CodeUnit := 0x3E
  const Quot: CodeUnit := 0x22
  const Apos: CodeUnit := 0x27

  const AmpEntity: JsString := [0x26, 0x61, 0x6D, 0x70, 0x3B]  // "&amp;"
  const LtEntity: JsString := [0x26, 0x6C, 0x74, 0x3B]  // "&lt;"
  const GtEntity: JsString := [0x26, 0x67, 0x74, 0x3B]  // "&gt;"
  const QuotEntity: JsString := [0x26, 0x71, 0x75, 0x6F, 0x74, 0x3B]  // "&quot;"
  const AposEntity: JsString := [0x26, 0x23, 0x33, 0x39, 0x3B]  // "&#39;"

  /** What the escape loop appends for one code unit; `attr` adds the two quote characters. */
  function EscapeUnit(u: CodeUnit, attr: bool): JsString {
    if IsSurrogate(u) then [Underscore]
    else if u == Amp then AmpEntity
    else if u == Lt then LtEntity
    else if u == Gt then GtEntity
    else if attr && u == Quot then QuotEntity
    else if attr && u == Apos then AposEntity
    else [u]
  }

  /** The escape loop's output for a whole string, unit by unit. */
  function EscapeAll(s: JsString, attr: bool): JsString
    decreases |s|
  {
    if s == [] then [] else EscapeUnit(s[0], attr) + EscapeAll(s[1..], attr)
  }

  lemma {:induction false} EscapeAllAppend(a: JsString, b: JsString, attr: bool)
    ensures EscapeAll(a + b, attr) == EscapeAll(a, attr) + EscapeAll(b, attr)
    decreases |a|
  {
    if a == [] {
      assert a + b == b;
    } else {
      assert (a + b)[0] == a[0] && (a + b)[1..] == a[1..] + b;
      EscapeAllAppend(a[1..], b, attr);
    }
  }

  /** `js.escapeHtml(s)`: `&`, `<`, `>` become entities, every surrogate unit becomes `_`. */
  method EscapeHtml(s: Option<JsString>) returns (out: JsString)
    ensures s.None? ==> out == []
    ensures s.Some? ==> out == EscapeAll(s.value, false)
  {
    if s.None? { return []; }
    var str := s.value;
    out := [];
    var i := 0;
    while i < |str|
      invariant 0 <= i <= |str|
      invariant out == EscapeAll(str[..i], false)
    {
      var code := str[i];
      EscapeAllAppend(str[..i], [code], false);
      assert str[..i + 1] == str[..i] + [code];
      if IsSurrogate(code) { out := out + [Underscore]; }
      else if code == Amp { out := out + AmpEntity; }
      else if code == Lt { out := out + LtEntity; }
      else if code == Gt { out := out + GtEntity; }
      else { out := out + [code]; }
      i := i + 1;
    }
    assert str[..i] == str;
  }

  /** `js.escapeAttr(s)`: as `EscapeHtml`, and `"` and `'` become entities too. */
  method EscapeAttr(s: Option<JsString>) returns (out: JsString)
    ensures s.None? ==> out == []
    ensures s.Some? ==> out == EscapeAll(s.value, true)
  {
    if s.None? { return []; }
    var str := s.value;
    out := [];
    var i := 0;
    while i < |str|
      invariant 0 <= i <= |str|
      invariant out == EscapeAll(str[..i], true)
    {
      var code := str[i];
      EscapeAllAppend(str[..i], [code], true);
      assert str[..i + 1] == str[..i] + [code];
      if IsSurrogate(code) { out := out + [Underscore]; }
      else if code == Amp { out := out + AmpEntity; }
      else if code == Lt { out := out + LtEntity; }
      else if code == Gt { out := out + GtEntity; }
      else if code == Quot { out := out + QuotEntity; }
      else if code == Apos { out := out + AposEntity; }
      else { out := out + [code]; }
      i := i + 1;
    }
    assert str[..i] == str;
  }

  /**
   * An entity the escaper produces starts at index `i`: `&amp;`, `&lt;` or
   * `&gt;`, and in attribute mode also `&quot;` or `&#39;`.
   */
  predicate EntityAt(s: JsString, i: int, attr: bool) {
    0 <= i <= |s| &&
    (StartsWith(s[i..], AmpEntity) || StartsWith(s[i..], LtEntity) || StartsWith(s[i..], GtEntity)
     || (attr && (StartsWith(s[i..], QuotEntity) || StartsWith(s[i..], AposEntity))))
  }

  /** Escaped output: no `<` or `>`, no quotes when `attr`, and every `&` opens an entity. */
  ghost predicate EscapedText(r: JsString, attr: bool) {
    forall i :: 0 <= i < |r| ==>
      r[i] != Lt && r[i] != Gt
      && (attr ==> r[i] != Quot && r[i] != Apos)
      && (r[i] == Amp ==> EntityAt(r, i, attr))
  }

  lemma EscapedTextConcat(a: JsString, b: JsString, attr: bool)
    requires EscapedText(a, attr) && EscapedText(b, attr)
    ensures EscapedText(a + b, attr)
  {
    var r := a + b;
    forall i | 0 <= i < |r| && r[i] == Amp ensures EntityAt(r, i, attr) {
      if i < |a| {
        assert EntityAt(a, i, attr);
        EntityExtends(a, b, i, attr);
      } else {
        assert r[i] == b[i - |a|] && EntityAt(b, i - |a|, attr);
        assert r[i..] == b[i - |a|..];
      }
    }
  }

  lemma EntityExtends(a: JsString, b: JsString, i: int, attr: bool)
    requires 0 <= i < |a| && EntityAt(a, i, attr)
    ensures EntityAt(a + b, i, attr)
  {
    var ab := a + b;
    assert forall p: JsString :: StartsWith(a[i..], p) ==> StartsWith(ab[i..], p) by {
      forall p: JsString | StartsWith(a[i..], p) ensures StartsWith(ab[i..], p) {
        assert ab[i..][..|p|] == a[i..][..|p|];
      }
    }
  }

  lemma EscapeUnitSafe(u: CodeUnit, attr: bool)
    ensures EscapedText(EscapeUnit(u, attr), attr)
  {
    var e := EscapeUnit(u, attr);
    if u == Amp { assert e == AmpEntity && EntityAt(e, 0, attr); }
    else if u == Lt { assert e == LtEntity && EntityAt(e, 0, attr); }
    else if u == Gt { assert e == GtEntity && EntityAt(e, 0, attr); }
    else if attr && u == Quot { assert e == QuotEntity && EntityAt(e, 0, attr); }
    else if attr && u == Apos { assert e == AposEntity && EntityAt(e, 0, attr); }
  }

  /** Escaping safety: the escape functions' output can never open or close a tag. */
  lemma {:induction false} EscapeAllSafe(s: JsString, attr: bool)
    ensures EscapedText(EscapeAll(s, attr), attr)
    decreases |s|
  {
    if s == [] {
    } else {
      EscapeUnitSafe(s[0], attr);
      EscapeAllSafe(s[1..], attr);
      EscapedTextConcat(EscapeUnit(s[0], attr), EscapeAll(s[1..], attr), attr);
    }
  }

  predicate NoSurrogates(s: JsString) { forall i :: 0 <= i < |s| ==> !IsSurrogate(s[i]) }

  /** No surrogate code unit, paired or lone, survives either escaper. */
  lemma {:induction false} EscapeAllNoSurrogates(s: JsString, attr: bool)
    ensures NoSurrogates(EscapeAll(s, attr))
    decreases |s|
  {
    if s != [] {
      EscapeAllNoSurrogates(s[1..], attr);
      var a := EscapeUnit(s[0], attr);
      var b := EscapeAll(s[1..], attr);
      assert NoSurrogates(a);
      assert forall i :: 0 <= i < |a + b| ==> (a + b)[i] == if i < |a| then a[i] else b[i - |a|];
    }
  }

  /** The input with every surrogate code unit replaced by `_` (paired or not). */
  function ScrubSurrogates(s: JsString): (r: JsString)
    ensures |r| == |s|
    ensures forall i :: 0 <= i < |s| ==> r[i] == if IsSurrogate(s[i]) then Underscore else s[i]
    decreases |s|
  {
    if s == [] then [] else [if IsSurrogate(s[0]) then Underscore else s[0]] + ScrubSurrogates(s[1..])
  }

  /** An HTML reader's view of the escaped text: the five entities decoded. */
  function DecodeEntities(s: JsString): JsString
    decreases |s|
  {
    if s == [] then []
    else if StartsWith(s, AmpEntity) then [Amp] + DecodeEntities(s[|AmpEntity|..])
    else if StartsWith(s, LtEntity) then [Lt] + DecodeEntities(s[|LtEntity|..])
    else if StartsWith(s, GtEntity) then [Gt] + DecodeEntities(s[|GtEntity|..])
    else if StartsWith(s, QuotEntity) then [Quot] + DecodeEntities(s[|QuotEntity|..])
    else if StartsWith(s, AposEntity) then [Apos] + DecodeEntities(s[|AposEntity|..])
    else [s[0]] + DecodeEntities(s[1..])
  }

  lemma DecodeEntityPrefix(e: JsString, u: CodeUnit, t: JsString)
    requires e in {AmpEntity, LtEntity, GtEntity, QuotEntity, AposEntity}
    requires u == (if e == AmpEntity then Amp else if e == LtEntity then Lt else if e == GtEntity then Gt
                   else if e == QuotEntity then Quot else Apos)
    ensures DecodeEntities(e + t) == [u] + DecodeEntities(t)
  {
    var s := e + t;
    assert s[..|e|] == e;
    assert s[|e|..] == t;
    if e != AmpEntity { assert s[1] == e[1] && !StartsWith(s, AmpEntity); }
    if e != LtEntity { assert s[1] == e[1] && !StartsWith(s, LtEntity); }
    if e != GtEntity { assert s[1] == e[1] && !StartsWith(s, GtEntity); }
    if e != QuotEntity { assert s[1] == e[1] && !StartsWith(s, QuotEntity); }
  }

  lemma DecodePlainUnit(u: CodeUnit, t: JsString)
    requires u != Amp
    ensures DecodeEntities([u] + t) == [u] + DecodeEntities(t)
  {
    var s := [u] + t;
    assert s[0] == u && s[1..] == t;
    assert !StartsWith(s, AmpEntity) && !StartsWith(s, LtEntity) && !StartsWith(s, GtEntity)
        && !StartsWith(s, QuotEntity) && !StartsWith(s, AposEntity) by {
      assert AmpEntity[0] == Amp && LtEntity[0] == Amp && GtEntity[0] == Amp
          && QuotEntity[0] == Amp && AposEntity[0] == Amp;
    }
  }

  /**
   * Decoding the escaped text gives back the input exactly, except that every
   * surrogate code unit reads as `_`: escaping loses nothing else.
   */
  lemma {:induction false} DecodeEscapeAll(s: JsString, attr: bool)
    ensures DecodeEntities(EscapeAll(s, attr)) == ScrubSurrogates(s)
    decreases |s|
  {
    if s != [] {
      DecodeEscapeAll(s[1..], attr);
      var u := s[0];
      var t := EscapeAll(s[1..], attr);
      if IsSurrogate(u) { DecodePlainUnit(Underscore, t); }
      else if u == Amp { DecodeEntityPrefix(AmpEntity, Amp, t); }
      else if u == Lt { DecodeEntityPrefix(LtEntity, Lt, t); }
      else if u == Gt { DecodeEntityPrefix(GtEntity, Gt, t); }
      else if attr && u == Quot { DecodeEntityPrefix(QuotEntity, Quot, t); }
      else if attr && u == Apos { DecodeEntityPrefix(AposEntity, Apos, t); }
      else { DecodePlainUnit(u, t); }
    }
  }

  /** `js.ensureWechatCdnParams(u)` is `normalizeImageUrl(u)`. */
  function EnsureWechatCdnParams(c: UrlCodec, u: JsString): (r: JsString)
    ensures r == NormalizeImageUrl(c, u)
  {
    NormalizeImageUrl(c, u)
  }
}
