/**
 * The article header of the copy-all pipeline in content.js: reading the
 * title, author, account, publish time and address from the page, and
 * rendering them as plain text and as an HTML block. The page is a query
 * function from a selector to the text of the first matching element.
 */
module ArticleMeta {
  import opened Wrappers
  import opened JsStrings
  import opened StringOps

  // ----- reading the page -----

  /** The two text views of an element. */
  datatype ElementText = ElementText(innerText: JsString, textContent: JsString)

  /** The selectors `getArticleMeta` asks for, in the order it tries them. */
  datatype Selector =
    | ActivityName       // #activity-name
    | H1ActivityName     // h1#activity-name
    | RichMediaTitle     // h1.rich_media_title
    | AnyH1              // h1
    | AuthorName         // #js_author_name
    | AuthorMetaTag      // meta[name="author"]
    | RichMediaMetaText  // .rich_media_meta_text
    | AccountName        // #js_name
    | ProfileNickname    // .profile_nickname
    | PublishTime        // #publish_time
    | PublishTimeTag     // time[property="publish_time"]
    | AnyTime            // time

  /** `document.querySelector(sel)`, reduced to the matched element's text. */
  type Query = Selector -> Option<ElementText>

  /** `text(sel)`: the trimmed `innerText || textContent || ''` of the first match, or ''. */
  function SelectorText(q: Query, sel: Selector): (r: JsString)
    ensures Trim(r) == r
    ensures q(sel).None? ==> r == []
  {
    match q(sel)
    case None => []
    case Some(el) =>
      var t := Trim(if el.innerText != [] then el.innerText else el.textContent);
      TrimIdempotent(if el.innerText != [] then el.innerText else el.textContent);
      t
  }

  /** `text(a) || text(b) || ...`: the first selector with non-empty text. */
  function FirstText(q: Query, sels: seq<Selector>): (r: JsString)
    ensures Trim(r) == r
    ensures r == [] <==> forall i :: 0 <= i < |sels| ==> SelectorText(q, sels[i]) == []
    ensures r != [] ==> exists i :: 0 <= i < |sels| && r == SelectorText(q, sels[i])
                          && forall j :: 0 <= j < i ==> SelectorText(q, sels[j]) == []
  {
    FirstTextFrom(q, sels, 0)
  }

  /** The `||` chain from the selector at index `from` on. */
  function FirstTextFrom(q: Query, sels: seq<Selector>, from: nat): (r: JsString)
    requires from <= |sels|
    ensures Trim(r) == r
    ensures r == [] <==> forall i :: from <= i < |sels| ==> SelectorText(q, sels[i]) == []
    ensures r != [] ==> exists i :: from <= i < |sels| && r == SelectorText(q, sels[i])
                          && forall j :: from <= j < i ==> SelectorText(q, sels[j]) == []
    decreases |sels| - from
  {
    if from == |sels| then []
    else
      var t := SelectorText(q, sels[from]);
      if t != [] then t
      else FirstTextFrom(q, sels, from + 1)
  }

  const TitleSelectors: seq<Selector> := [ActivityName, H1ActivityName, RichMediaTitle, AnyH1]
  const AuthorSelectors: seq<Selector> := [AuthorName, AuthorMetaTag, RichMediaMetaText]
  const AccountSelectors: seq<Selector> := [AccountName, ProfileNickname]
  const TimeSelectors: seq<Selector> := [PublishTime, PublishTimeTag, AnyTime]

  datatype Meta = Meta(title: JsString, author: JsString, account: JsString, time: JsString, url: JsString)

  /** `getArticleMeta()`; `href` is `location.href`. */
  function GetArticleMeta(q: Query, href: JsString): (m: Meta)
    ensures m.title == FirstText(q, TitleSelectors) && m.author == FirstText(q, AuthorSelectors)
    ensures m.account == FirstText(q, AccountSelectors) && m.time == FirstText(q, TimeSelectors)
    ensures m.url == href
  {
    Meta(FirstText(q, TitleSelectors), FirstText(q, AuthorSelectors), FirstText(q, AccountSelectors),
         FirstText(q, TimeSelectors), href)
  }

  /** Every text field of the header is already trimmed. */
  lemma ArticleMetaTrimmed(q: Query, href: JsString)
    ensures var m := GetArticleMeta(q, href);
            Trim(m.title) == m.title && Trim(m.author) == m.author
            && Trim(m.account) == m.account && Trim(m.time) == m.time
  {
  }

  // ----- the local escapers -----

  /** The replacement table of content.js's `escapeHtml`: all five characters, no surrogate handling. */
  function ContentEscapeUnit(u: CodeUnit): JsString {
    if u == Amp then AmpEntity
    else if u == Lt then LtEntity
    else if u == Gt then GtEntity
    else if u == Quot then QuotEntity
    else if u == Apos then AposEntity
    else [u]
  }

  /** content.js `escapeHtml(str)` for a string argument ('' for a falsy one). */
  function ContentEscapeHtml(s: JsString): JsString
    decreases |s|
  {
    if s == [] then [] else ContentEscapeUnit(s[0]) + ContentEscapeHtml(s[1..])
  }

  /** `.replace(/"/g, '&quot;')` */
  function ReplaceQuotes(s: JsString): JsString
    decreases |s|
  {
    if s == [] then [] else (if s[0] == Quot then QuotEntity else [s[0]]) + ReplaceQuotes(s[1..])
  }

  /** content.js `escapeAttr(str)`: `escapeHtml` followed by a second quote replacement. */
  function ContentEscapeAttr(s: JsString): JsString {
    ReplaceQuotes(ContentEscapeHtml(s))
  }

  lemma {:induction false} ReplaceQuotesNoQuote(s: JsString)
    requires Quot !in s
    ensures ReplaceQuotes(s) == s
    decreases |s|
  {
    if s != [] {
      assert Quot !in s[1..];
      ReplaceQuotesNoQuote(s[1..]);
      assert [s[0]] + s[1..] == s;
    }
  }

  lemma ContentEscapeUnitSafe(u: CodeUnit)
    ensures EscapedText(ContentEscapeUnit(u), true)
    ensures DecodeEntities(ContentEscapeUnit(u)) == [u]
  {
    ContentEscapeUnitEscaped(u);
    ContentEscapeUnitDecodes(u);
  }

  /** The five characters get the reference escaper's entities; the rest stay as they are. */
  lemma ContentEscapeUnitEscaped(u: CodeUnit)
    ensures EscapedText(ContentEscapeUnit(u), true)
  {
    if u == Amp || u == Lt || u == Gt || u == Quot || u == Apos {
      assert !IsSurrogate(u);
      assert ContentEscapeUnit(u) == EscapeUnit(u, true);
      EscapeUnitSafe(u, true);
    } else {
      assert ContentEscapeUnit(u) == [u];
    }
  }

  lemma ContentEscapeUnitDecodes(u: CodeUnit)
    ensures DecodeEntities(ContentEscapeUnit(u)) == [u]
  {
    var e := ContentEscapeUnit(u);
    assert e + [] == e;
    if u == Amp { DecodeEntityPrefix(AmpEntity, Amp, []); }
    else if u == Lt { DecodeEntityPrefix(LtEntity, Lt, []); }
    else if u == Gt { DecodeEntityPrefix(GtEntity, Gt, []); }
    else if u == Quot { DecodeEntityPrefix(QuotEntity, Quot, []); }
    else if u == Apos { DecodeEntityPrefix(AposEntity, Apos, []); }
    else { DecodePlainUnit(u, []); }
  }

  /**
   * The local `escapeHtml` leaves no `<`, `>`, `"` or `'`, every `&` opens an
   * entity, and decoding the entities gives the input back exactly.
   */
  lemma {:induction false} ContentEscapeHtmlSafe(s: JsString)
    ensures EscapedText(ContentEscapeHtml(s), true)
    ensures DecodeEntities(ContentEscapeHtml(s)) == s
    decreases |s|
  {
    if s != [] {
      ContentEscapeHtmlSafe(s[1..]);
      ContentEscapeUnitSafe(s[0]);
      EscapedTextConcat(ContentEscapeUnit(s[0]), ContentEscapeHtml(s[1..]), true);
      var t := ContentEscapeHtml(s[1..]);
      var u := s[0];
      if u == Amp { DecodeEntityPrefix(AmpEntity, Amp, t); }
      else if u == Lt { DecodeEntityPrefix(LtEntity, Lt, t); }
      else if u == Gt { DecodeEntityPrefix(GtEntity, Gt, t); }
      else if u == Quot { DecodeEntityPrefix(QuotEntity, Quot, t); }
      else if u == Apos { DecodeEntityPrefix(AposEntity, Apos, t); }
      else { DecodePlainUnit(u, t); }
      assert [s[0]] + s[1..] == s;
    }
  }

  /** No `"` survives `escapeHtml`, so the local `escapeAttr` is `escapeHtml`. */
  lemma ContentEscapeAttrIsHtml(s: JsString)
    ensures ContentEscapeAttr(s) == ContentEscapeHtml(s)
  {
    ContentEscapeHtmlSafe(s);
    var r := ContentEscapeHtml(s);
    assert forall i :: 0 <= i < |r| ==> r[i] != Quot;
    ReplaceQuotesNoQuote(r);
  }

  /**
   * The two `escapeHtml` functions differ: on `"x"` the local one gives
   * `&quot;x&quot;` while the reference one leaves the quotes.
   */
  lemma EscapersDiffer()
    ensures ContentEscapeHtml([Quot, 0x78, Quot]) != EscapeAll([Quot, 0x78, Quot], false)
  {
    assert EscapeAll([Quot, 0x78, Quot], false)[0] == Quot;
    assert ContentEscapeHtml([Quot, 0x78, Quot])[0] == Amp;
  }

  // ----- rendering -----

  /** A labelled field; `link` marks the address, which the HTML header renders as a link. */
  datatype Field = Field(caption: JsString, value: JsString, link: bool)

  const AuthorLabel: JsString := [0x4F5C, 0x8005, 0xFF1A]  // "作者："
  const AccountLabel: JsString := [0x516C, 0x4F17, 0x53F7, 0xFF1A]  // "公众号："
  const TimeLabel: JsString := [0x65F6, 0x95F4, 0xFF1A]  // "时间："
  const SourceLabel: JsString := [0x6765, 0x6E90, 0xFF1A]  // "来源："

  /** The labelled fields after the title that are non-empty, in the order author, account, time, url. */
  function Extras(m: Meta): seq<Field> {
    OptField(AuthorLabel, m.author, false) + OptField(AccountLabel, m.account, false)
    + OptField(TimeLabel, m.time, false) + OptField(SourceLabel, m.url, true)
  }

  /** A field that is pushed only when its value is truthy. */
  function OptField(caption: JsString, value: JsString, link: bool): seq<Field> {
    if value != [] then [Field(caption, value, link)] else []
  }

  /** At most four fields, none empty, none at all exactly when every one is empty, and the address last. */
  lemma ExtrasShape(m: Meta)
    ensures var r := Extras(m);
            && |r| <= 4
            && (forall i :: 0 <= i < |r| ==> r[i].value != [])
            && (r == [] <==> (m.author == [] && m.account == [] && m.time == [] && m.url == []))
            && (m.url != [] ==> r[|r| - 1] == Field(SourceLabel, m.url, true))
  {
  }

  /** `label + value` for each field. */
  function PlainParts(fs: seq<Field>): (r: seq<JsString>)
    ensures |r| == |fs|
    decreases |fs|
  {
    if fs == [] then [] else [fs[0].caption + fs[0].value] + PlainParts(fs[1..])
  }

  const Newline: CodeUnit := 0x0A
  const Bar: JsString := [0x20, 0x7C, 0x20]  // " | "

  /**
   * `buildMetaText(meta)`: the title line when there is a title, then one line
   * with the non-empty labelled fields joined by " | ", each line ended by a
   * newline; '' when every field is empty.
   */
  method BuildMetaText(m: Meta) returns (out: JsString)
    ensures out == MetaText(m)
  {
    var lines: seq<JsString> := [];
    if m.title != [] { lines := lines + [m.title]; }
    var extra := CollectPlainParts(m);
    assert Terminated(lines, [Newline]) == if m.title != [] then m.title + [Newline] else [];
    if |extra| > 0 {
      TerminatedAppend(lines, [Join(extra, Bar)], [Newline]);
      assert Terminated([Join(extra, Bar)], [Newline]) == Join(extra, Bar) + [Newline];
      lines := lines + [Join(extra, Bar)];
    }
    JoinWithTrailingEmpty(lines, [Newline]);
    lines := lines + [[]];
    out := Join(lines, [Newline]);
  }

  /** The `extra` array of `buildMetaText`: one `label + value` per non-empty field. */
  method CollectPlainParts(m: Meta) returns (extra: seq<JsString>)
    ensures extra == PlainParts(Extras(m))
  {
    extra := [];
    ghost var fs: seq<Field> := [];
    if m.author != [] {
      extra := extra + [AuthorLabel + m.author];
    }
    PlainPartsOpt(fs, AuthorLabel, m.author, false);
    fs := fs + OptField(AuthorLabel, m.author, false);
    if m.account != [] {
      extra := extra + [AccountLabel + m.account];
    }
    PlainPartsOpt(fs, AccountLabel, m.account, false);
    fs := fs + OptField(AccountLabel, m.account, false);
    if m.time != [] {
      extra := extra + [TimeLabel + m.time];
    }
    PlainPartsOpt(fs, TimeLabel, m.time, false);
    fs := fs + OptField(TimeLabel, m.time, false);
    if m.url != [] {
      extra := extra + [SourceLabel + m.url];
    }
    PlainPartsOpt(fs, SourceLabel, m.url, true);
    fs := fs + OptField(SourceLabel, m.url, true);
    assert [] + OptField(AuthorLabel, m.author, false) == OptField(AuthorLabel, m.author, false);
  }

  /** A guarded push of `label + value`. */
  lemma PlainPartsOpt(fs: seq<Field>, caption: JsString, value: JsString, link: bool)
    ensures PlainParts(fs + OptField(caption, value, link))
            == PlainParts(fs) + (if value != [] then [caption + value] else [])
  {
    PlainPartsAppend(fs, OptField(caption, value, link));
    if value != [] {
      assert PlainParts([Field(caption, value, link)]) == [caption + value];
    }
  }

  /** The text header: the title line, then the fields line, each ended by a newline. */
  function MetaText(m: Meta): JsString {
    (if m.title != [] then m.title + [Newline] else [])
    + (if Extras(m) != [] then Join(PlainParts(Extras(m)), Bar) + [Newline] else [])
  }

  lemma {:induction false} PlainPartsAppend(a: seq<Field>, b: seq<Field>)
    ensures PlainParts(a + b) == PlainParts(a) + PlainParts(b)
    decreases |a|
  {
    if a == [] {
      assert a + b == b;
    } else {
      assert (a + b)[1..] == a[1..] + b;
      PlainPartsAppend(a[1..], b);
    }
  }

  /** Each line followed by the separator. */
  function Terminated(lines: seq<JsString>, sep: JsString): JsString
    decreases |lines|
  {
    if lines == [] then [] else lines[0] + sep + Terminated(lines[1..], sep)
  }

  lemma {:induction false} TerminatedAppend(a: seq<JsString>, b: seq<JsString>, sep: JsString)
    ensures Terminated(a + b, sep) == Terminated(a, sep) + Terminated(b, sep)
    decreases |a|
  {
    if a == [] {
      assert a + b == b;
    } else {
      assert (a + b)[1..] == a[1..] + b;
      TerminatedAppend(a[1..], b, sep);
    }
  }

  lemma {:induction false} JoinWithTrailingEmpty(lines: seq<JsString>, sep: JsString)
    ensures Join(lines + [[]], sep) == Terminated(lines, sep)
    decreases |lines|
  {
    if lines == [] {
      assert lines + [[]] == [[]];
    } else {
      assert (lines + [[]])[1..] == lines[1..] + [[]];
      JoinWithTrailingEmpty(lines[1..], sep);
    }
  }

  /** The text header is '' exactly when every field is empty, and ends in a newline otherwise. */
  lemma MetaTextShape(m: Meta)
    ensures MetaText(m) == [] <==> m == Meta([], [], [], [], [])
    ensures MetaText(m) != [] ==> MetaText(m)[|MetaText(m)| - 1] == Newline
    ensures m.title != [] ==> StartsWith(MetaText(m), m.title + [Newline])
  {
    var out := MetaText(m);
    if m.title != [] {
      assert out[..|m.title| + 1] == m.title + [Newline];
    }
  }

  const IdeographicSpace: CodeUnit := 0x3000

  const LinkOpen: JsString := [0x3C, 0x61, 0x20, 0x68, 0x72, 0x65, 0x66, 0x3D, 0x22]  // "<a href=\""
  const LinkMid: JsString := [0x22, 0x3E]  // "\">"
  const LinkClose: JsString := [0x3C, 0x2F, 0x61, 0x3E]  // "</a>"

  /**
   * One part of the HTML meta line, as its template literal writes it: the
   * label and the escaped value; the address becomes a link whose href goes
   * through `escapeAttr`.
   */
  function HtmlPart(f: Field): JsString {
    if f.link then
      f.caption + LinkOpen + ContentEscapeAttr(f.value) + LinkMid + ContentEscapeHtml(f.value) + LinkClose
    else f.caption + ContentEscapeHtml(f.value)
  }

  /** `HtmlPart` of each field. */
  function HtmlParts(fs: seq<Field>): (r: seq<JsString>)
    ensures |r| == |fs|
    decreases |fs|
  {
    if fs == [] then [] else [HtmlPart(fs[0])] + HtmlParts(fs[1..])
  }

  lemma {:induction false} HtmlPartsAppend(a: seq<Field>, b: seq<Field>)
    ensures HtmlParts(a + b) == HtmlParts(a) + HtmlParts(b)
    decreases |a|
  {
    if a == [] {
      assert a + b == b;
    } else {
      assert (a + b)[1..] == a[1..] + b;
      HtmlPartsAppend(a[1..], b);
    }
  }

  lemma {:induction false} HtmlPartsAt(fs: seq<Field>, i: int)
    requires 0 <= i < |fs|
    ensures HtmlParts(fs)[i] == HtmlPart(fs[i])
    decreases i
  {
    if i > 0 { HtmlPartsAt(fs[1..], i - 1); }
  }

  const BlockOpen: JsString :=
    Bmp("\n<div class=\"wechat-copy-meta\" style=\"border-bottom:1px solid #eee;margin-bottom:12px;\">\n  ")
  const HeadingOpen: JsString := Bmp("<h1 style=\"margin:0 0 8px;font-size:22px;line-height:1.4;\">")
  const HeadingClose: JsString := Bmp("</h1>")
  const LineOpen: JsString := Bmp("\n  <div style=\"color:#666;font-size:14px;\">")
  const BlockClose: JsString := Bmp("</div>\n</div>")

  /** The title heading, present only for a non-empty title. */
  function Heading(title: JsString): (r: JsString)
    ensures r == [] <==> title == []
  {
    if title != [] then HeadingOpen + ContentEscapeHtml(title) + HeadingClose else []
  }

  /** The pushes of `buildMetaHtml` into `parts`, one per non-empty field. */
  method CollectHtmlParts(m: Meta) returns (parts: seq<JsString>)
    ensures parts == HtmlParts(Extras(m))
  {
    parts := [];
    ghost var fs: seq<Field> := [];
    if m.author != [] {
      parts := parts + [HtmlPart(Field(AuthorLabel, m.author, false))];
    }
    HtmlPartsOpt(fs, AuthorLabel, m.author, false);
    fs := fs + OptField(AuthorLabel, m.author, false);
    if m.account != [] {
      parts := parts + [HtmlPart(Field(AccountLabel, m.account, false))];
    }
    HtmlPartsOpt(fs, AccountLabel, m.account, false);
    fs := fs + OptField(AccountLabel, m.account, false);
    if m.time != [] {
      parts := parts + [HtmlPart(Field(TimeLabel, m.time, false))];
    }
    HtmlPartsOpt(fs, TimeLabel, m.time, false);
    fs := fs + OptField(TimeLabel, m.time, false);
    if m.url != [] {
      parts := parts + [HtmlPart(Field(SourceLabel, m.url, true))];
    }
    HtmlPartsOpt(fs, SourceLabel, m.url, true);
    fs := fs + OptField(SourceLabel, m.url, true);
    assert [] + OptField(AuthorLabel, m.author, false) == OptField(AuthorLabel, m.author, false);
  }

  /** A guarded push of one field's HTML part. */
  lemma HtmlPartsOpt(fs: seq<Field>, caption: JsString, value: JsString, link: bool)
    ensures HtmlParts(fs + OptField(caption, value, link))
            == HtmlParts(fs) + (if value != [] then [HtmlPart(Field(caption, value, link))] else [])
  {
    HtmlPartsAppend(fs, OptField(caption, value, link));
    if value != [] {
      assert HtmlParts([Field(caption, value, link)]) == [HtmlPart(Field(caption, value, link))];
    }
  }

  /**
   * `buildMetaHtml(meta)`: the block with the optional heading and the parts
   * joined by U+3000; every field goes through the local `escapeHtml`, the
   * href through the local `escapeAttr`.
   */
  method BuildMetaHtml(m: Meta) returns (out: JsString)
    ensures out == MetaHtml(m)
  {
    var parts := CollectHtmlParts(m);
    var metaLine := Join(parts, [IdeographicSpace]);
    var heading := if m.title != [] then HeadingOpen + ContentEscapeHtml(m.title) + HeadingClose else [];
    assert heading == Heading(m.title);
    out := BlockOpen + heading + LineOpen + metaLine + BlockClose;
  }

  /** The HTML header block: optional heading, then the parts joined by U+3000. */
  function MetaHtml(m: Meta): (r: JsString)
    ensures StartsWith(r, BlockOpen) && |r| > |BlockOpen|
  {
    BlockOpen + Heading(m.title) + LineOpen + Join(HtmlParts(Extras(m)), [IdeographicSpace]) + BlockClose
  }

  /** No field after the title holds U+3000, the separator of the meta line. */
  predicate FieldsFreeOfSeparator(m: Meta) {
    IdeographicSpace !in m.author && IdeographicSpace !in m.account
    && IdeographicSpace !in m.time && IdeographicSpace !in m.url
  }

  /**
   * The header block is the block `<div>`, the optional heading, the meta
   * line and the closing tags. The meta line is empty when no field is
   * set; otherwise, when no field holds U+3000, splitting it at U+3000
   * gives back exactly the HTML parts of the set fields, in order: one
   * separator between neighbours and none anywhere else.
   */
  lemma MetaHtmlShape(m: Meta)
    ensures var r := MetaHtml(m);
            var k := |BlockOpen| + |Heading(m.title)| + |LineOpen|;
            var e := |r| - |BlockClose|;
            && k <= e
            && r[..k] == BlockOpen + Heading(m.title) + LineOpen
            && r[e..] == BlockClose
            && (Extras(m) == [] ==> k == e)
            && (Extras(m) != [] && FieldsFreeOfSeparator(m) ==>
                  Split(r[k..e], IdeographicSpace) == HtmlParts(Extras(m)))
  {
    var parts := HtmlParts(Extras(m));
    var line := Join(parts, [IdeographicSpace]);
    var head := BlockOpen + Heading(m.title) + LineOpen;
    var r := MetaHtml(m);
    assert r == head + line + BlockClose;
    var k := |head|;
    var e := |r| - |BlockClose|;
    assert r[..k] == head;
    assert r[k..e] == line;
    assert r[e..] == BlockClose;
    if Extras(m) != [] && FieldsFreeOfSeparator(m) {
      PartsFreeOfSeparator(m);
      SplitJoin(parts, IdeographicSpace);
    }
  }

  /** The escapers only add ASCII entities, so they never introduce U+3000. */
  lemma {:induction false} ContentEscapeNoSeparator(s: JsString)
    requires IdeographicSpace !in s
    ensures IdeographicSpace !in ContentEscapeHtml(s)
    decreases |s|
  {
    if s != [] {
      assert IdeographicSpace !in s[1..];
      ContentEscapeNoSeparator(s[1..]);
      assert IdeographicSpace !in ContentEscapeUnit(s[0]);
    }
  }

  /** A part whose label and value are free of U+3000 is free of it. */
  lemma HtmlPartNoSeparator(f: Field)
    requires IdeographicSpace !in f.caption && IdeographicSpace !in f.value
    ensures IdeographicSpace !in HtmlPart(f)
  {
    ContentEscapeNoSeparator(f.value);
    ContentEscapeAttrIsHtml(f.value);
  }

  /** With no field holding U+3000, no HTML part does. */
  lemma PartsFreeOfSeparator(m: Meta)
    requires FieldsFreeOfSeparator(m)
    ensures forall i :: 0 <= i < |HtmlParts(Extras(m))| ==> IdeographicSpace !in HtmlParts(Extras(m))[i]
  {
    var fs := Extras(m);
    forall i | 0 <= i < |HtmlParts(fs)|
      ensures IdeographicSpace !in HtmlParts(fs)[i]
    {
      HtmlPartsAt(fs, i);
      var f := fs[i];
      assert f in fs;
      assert f == Field(AuthorLabel, m.author, false) || f == Field(AccountLabel, m.account, false)
             || f == Field(TimeLabel, m.time, false) || f == Field(SourceLabel, m.url, true);
      HtmlPartNoSeparator(f);
    }
  }

  /**
   * Every value interpolated into the HTML header is escaped: each part is a
   * label followed by text with no `<`, `>` or quotes that decodes back to the
   * field (the address twice, once as the href and once as the link text).
   */
  lemma MetaHtmlFieldsEscaped(m: Meta, i: int)
    requires 0 <= i < |Extras(m)|
    ensures var f := Extras(m)[i];
            var e := ContentEscapeHtml(f.value);
            EscapedText(e, true) && DecodeEntities(e) == f.value
            && HtmlParts(Extras(m))[i] == (if f.link then f.caption + LinkOpen + e + LinkMid + e + LinkClose
                                           else f.caption + e)
  {
    HtmlPartsAt(Extras(m), i);
    ContentEscapeHtmlSafe(Extras(m)[i].value);
    ContentEscapeAttrIsHtml(Extras(m)[i].value);
  }
}
