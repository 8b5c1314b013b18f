/**
 * The console diagnosis script for image copying (`debug-image-copy.js`):
 * it recognises an article page, collects one record per `<img>`, picks the
 * first usable image for a copy test, and pairs every issue it finds with a
 * suggestion in its report.  The DOM is given as values: one `Img` per
 * element in document order, with the layout and parent-lookup facts the
 * script reads from it.
 */
module CopyDiagnosis {
  import opened Wrappers
  import opened JsStrings
  import StringOps
  import ImageDebugger

  // ---------------------------------------------------------------------
  // Page and image facts
  // ---------------------------------------------------------------------

  const ArticleHost: JsString := Bmp("mp.weixin.qq.com")
  const ArticlePath: JsString := [0x2F, 0x73, 0x2F]  // "/s/"

  /** `location.hostname === 'mp.weixin.qq.com' && location.pathname.includes('/s/')` */
  predicate IsWechatArticle(hostname: JsString, pathname: JsString) {
    hostname == ArticleHost && Contains(pathname, ArticlePath)
  }

  /** On the article host, `/s/` anywhere in the path makes the page an article. */
  lemma ArticlePathAnywhere(before: JsString, after: JsString)
    ensures IsWechatArticle(ArticleHost, before + ArticlePath + after)
  {
    var p := before + ArticlePath + after;
    assert p[|before|..|before| + |ArticlePath|] == ArticlePath;
    assert OccursAt(p, ArticlePath, |before|);
  }

  /** A path shorter than `/s/` never names an article, whatever the host. */
  lemma ShortPathIsNoArticle(hostname: JsString, pathname: JsString)
    requires |pathname| < |ArticlePath|
    ensures !IsWechatArticle(hostname, pathname)
  {
  }

  /** One `<img>` element as the script reads it. */
  datatype Img = Img(
    src: JsString,
    dataSrc: Option<JsString>,      // `img.dataset.src`, absent as `None`
    width: nat, height: nat,
    naturalWidth: nat, naturalHeight: nat,
    complete: bool,
    offsetWidth: nat, offsetHeight: nat,
    parentHasCopyButton: bool)      // `img.parentNode.querySelector('.wechat-copy-btn')` found one

  /** The record `checkImages` pushes for each image. */
  datatype ImageInfo = ImageInfo(
    index: nat,
    src: JsString,
    dataSrc: Option<JsString>,
    width: nat, height: nat,
    naturalWidth: nat, naturalHeight: nat,
    complete: bool,
    isWechatImage: bool,
    hasDataSrc: bool,
    hasCopyButton: bool,
    isVisible: bool)

  /**
   * The record for the image at 1-based position `index`.  The `img.src ?`
   * guard in front of `includes` changes nothing: an empty source cannot
   * contain the CDN host.
   */
  function InfoOf(img: Img, index: nat): (r: ImageInfo)
    ensures r.index == index && r.src == img.src && r.dataSrc == img.dataSrc
    ensures r.isWechatImage <==> Contains(img.src, StringOps.CdnHost)
    ensures r.hasDataSrc <==> img.dataSrc.Some? && img.dataSrc.value != []
    ensures r.isVisible <==> img.offsetWidth > 0 && img.offsetHeight > 0
    ensures r.hasCopyButton == img.parentHasCopyButton
  {
    ImageInfo(index, img.src, img.dataSrc, img.width, img.height, img.naturalWidth, img.naturalHeight,
              img.complete,
              if img.src != [] then Contains(img.src, StringOps.CdnHost) else false,
              img.dataSrc.Some? && img.dataSrc.value != [],
              img.parentHasCopyButton,
              img.offsetWidth > 0 && img.offsetHeight > 0)
  }

  /** `checkImages()`: one record per image, in document order, numbered from 1. */
  method CheckImages(images: seq<Img>) returns (imageInfo: seq<ImageInfo>)
    ensures |imageInfo| == |images|
    ensures forall i :: 0 <= i < |images| ==> imageInfo[i] == InfoOf(images[i], i + 1)
  {
    imageInfo := [];
    var index := 0;
    while index < |images|
      invariant 0 <= index <= |images|
      invariant |imageInfo| == index
      invariant forall i :: 0 <= i < index ==> imageInfo[i] == InfoOf(images[i], i + 1)
    {
      imageInfo := imageInfo + [InfoOf(images[index], index + 1)];
      index := index + 1;
    }
  }

  /** `imageInfo.filter(p)` */
  function Filter(xs: seq<ImageInfo>, p: ImageInfo -> bool): (r: seq<ImageInfo>)
    ensures |r| <= |xs|
    ensures forall x :: x in r <==> x in xs && p(x)
    decreases |xs|
  {
    if xs == [] then [] else (if p(xs[0]) then [xs[0]] else []) + Filter(xs[1..], p)
  }

  /** Filtering by a test that is weaker on every record keeps at least as many records. */
  lemma {:induction false} FilterMonotone(xs: seq<ImageInfo>, p: ImageInfo -> bool, q: ImageInfo -> bool)
    requires forall x :: x in xs && p(x) ==> q(x)
    ensures |Filter(xs, p)| <= |Filter(xs, q)|
    decreases |xs|
  {
    if xs != [] {
      assert forall x :: x in xs[1..] ==> x in xs;
      FilterMonotone(xs[1..], p, q);
    }
  }

  predicate Visible(x: ImageInfo) { x.isVisible }
  predicate FromCdn(x: ImageInfo) { x.isWechatImage }
  predicate WithButton(x: ImageInfo) { x.hasCopyButton }

  function VisibleCount(info: seq<ImageInfo>): nat { |Filter(info, Visible)| }
  function WechatCount(info: seq<ImageInfo>): nat { |Filter(info, FromCdn)| }
  function ButtonCount(info: seq<ImageInfo>): nat { |Filter(info, WithButton)| }

  // ---------------------------------------------------------------------
  // Clipboard support
  // ---------------------------------------------------------------------

  datatype ClipboardSupport = ClipboardSupport(
    hasNavigatorClipboard: bool, hasClipboardItem: bool, hasWriteMethod: bool, hasWriteTextMethod: bool)

  /**
   * `checkClipboardSupport()`, given whether `navigator.clipboard` and
   * `window.ClipboardItem` exist and whether `write`/`writeText` are
   * functions: a method only counts when the clipboard object exists.
   */
  function CheckClipboardSupport(clipboard: bool, clipboardItem: bool, writeIsFunction: bool, writeTextIsFunction: bool): (r: ClipboardSupport)
    ensures r.hasNavigatorClipboard == clipboard && r.hasClipboardItem == clipboardItem
    ensures r.hasWriteMethod ==> r.hasNavigatorClipboard
    ensures r.hasWriteTextMethod ==> r.hasNavigatorClipboard
    ensures clipboard ==> r.hasWriteMethod == writeIsFunction && r.hasWriteTextMethod == writeTextIsFunction
  {
    ClipboardSupport(clipboard, clipboardItem, clipboard && writeIsFunction, clipboard && writeTextIsFunction)
  }

  // ---------------------------------------------------------------------
  // The report
  // ---------------------------------------------------------------------

  /** The issues `generateReport` can find, each pushed with its own suggestion. */
  datatype Problem =
    | NoImages
    | NoVisible
    | NoWechat
    | MissingButtons(withButton: nat, visible: nat)
    | NoClipboardApi
    | NoClipboardItem

  /** `只有 b/v 张图片添加了复制按钮` */
  function ShortfallText(withButton: nat, visible: nat): JsString {
    Bmp("只有 ") + IntToString(withButton) + [0x2F] + IntToString(visible) + Bmp(" 张图片添加了复制按钮")
  }

  function IssueText(p: Problem): JsString {
    match p
    case NoImages => Bmp("页面中没有找到任何图片")
    case NoVisible => Bmp("没有可见的图片")
    case NoWechat => Bmp("没有检测到微信图片")
    case MissingButtons(b, v) => ShortfallText(b, v)
    case NoClipboardApi => Bmp("浏览器不支持现代剪贴板API")
    case NoClipboardItem => Bmp("浏览器不支持ClipboardItem")
  }

  function AdviceText(p: Problem): JsString {
    match p
    case NoImages => Bmp("确认页面已完全加载")
    case NoVisible => Bmp("检查图片是否被CSS隐藏或尺寸为0")
    case NoWechat => Bmp("确认图片URL是否包含 mmbiz.qpic.cn")
    case MissingButtons(_, _) => Bmp("扩展可能没有正确初始化，尝试刷新页面")
    case NoClipboardApi => Bmp("升级到最新版本的Chrome浏览器")
    case NoClipboardItem => Bmp("检查浏览器版本，确保支持ClipboardItem API")
  }

  /** The image section of the report: one pair for an empty page, else the three counts' checks. */
  function ImageProblems(info: seq<ImageInfo>): seq<Problem> {
    if info == [] then [NoImages]
    else
      var v := VisibleCount(info);
      var b := ButtonCount(info);
      (if v == 0 then [NoVisible] else [])
      + (if WechatCount(info) == 0 then [NoWechat] else [])
      + (if b < v then [MissingButtons(b, v)] else [])
  }

  /** The clipboard section of the report. */
  function ClipboardProblems(clip: ClipboardSupport): seq<Problem> {
    (if !clip.hasNavigatorClipboard then [NoClipboardApi] else [])
    + (if !clip.hasClipboardItem then [NoClipboardItem] else [])
  }

  function Problems(info: seq<ImageInfo>, clip: ClipboardSupport): seq<Problem> {
    ImageProblems(info) + ClipboardProblems(clip)
  }

  function Issues(ps: seq<Problem>): (r: seq<JsString>)
    ensures |r| == |ps|
  {
    seq(|ps|, i requires 0 <= i < |ps| => IssueText(ps[i]))
  }

  function Advice(ps: seq<Problem>): (r: seq<JsString>)
    ensures |r| == |ps|
  {
    seq(|ps|, i requires 0 <= i < |ps| => AdviceText(ps[i]))
  }

  /** Pushing one more pair onto both lists keeps them the texts of the problems found. */
  lemma PushPair(issues: seq<JsString>, suggestions: seq<JsString>, found: seq<Problem>, p: Problem)
    requires issues == Issues(found) && suggestions == Advice(found)
    ensures issues + [IssueText(p)] == Issues(found + [p])
    ensures suggestions + [AdviceText(p)] == Advice(found + [p])
  {
    assert Issues(found + [p])[|found|] == IssueText(p);
    assert Advice(found + [p])[|found|] == AdviceText(p);
  }

  /** An empty page gives exactly one image pair, then the clipboard pairs; the count checks are skipped. */
  lemma EmptyPageOnePair(clip: ClipboardSupport)
    ensures Problems([], clip) == [NoImages] + ClipboardProblems(clip)
    ensures NoVisible !in Problems([], clip) && NoWechat !in Problems([], clip)
    ensures forall b, v :: MissingButtons(b, v) !in Problems([], clip)
  {
  }

  /**
   * The shortfall issue appears exactly when the page has images and fewer
   * carry a copy button than are visible, and it quotes those two counts.
   */
  lemma ShortfallIff(info: seq<ImageInfo>, clip: ClipboardSupport)
    ensures (exists b, v :: MissingButtons(b, v) in Problems(info, clip))
            <==> info != [] && ButtonCount(info) < VisibleCount(info)
    ensures forall b, v :: (MissingButtons(b, v) in Problems(info, clip)
                            ==> b == ButtonCount(info) && v == VisibleCount(info))
  {
    var ps := Problems(info, clip);
    if info != [] && ButtonCount(info) < VisibleCount(info) {
      assert MissingButtons(ButtonCount(info), VisibleCount(info)) in ps;
    }
  }

  /**
   * A shortfall means some visible image has no button; when every visible
   * image has one there is no shortfall.
   */
  lemma ShortfallWitness(info: seq<ImageInfo>, clip: ClipboardSupport)
    ensures (exists b, v :: MissingButtons(b, v) in Problems(info, clip))
            ==> exists x :: x in info && x.isVisible && !x.hasCopyButton
  {
    ShortfallIff(info, clip);
    if forall x :: x in info && x.isVisible ==> x.hasCopyButton {
      FilterMonotone(info, Visible, WithButton);
    }
  }

  /** No image is visible: the visibility issue, and never a shortfall beside it. */
  lemma NothingVisibleNoShortfall(info: seq<ImageInfo>, clip: ClipboardSupport)
    requires info != [] && VisibleCount(info) == 0
    ensures NoVisible in Problems(info, clip)
    ensures forall b, v :: MissingButtons(b, v) !in Problems(info, clip)
  {
    ShortfallIff(info, clip);
  }

  const OkLine: JsString := [0x2705] + Bmp(" 未发现明显问题，图片复制功能应该正常工作")
  const IssuesHeader: JsString := [0x274C] + Bmp(" 发现以下问题:")
  const ReportTitle: JsString := [0x0A] + Bmp("=== ") + [0xD83C, 0xDFAF] + Bmp(" 诊断报告 ===")
  const AdviceHeader: JsString := [0x0A, 0xD83D, 0xDCA1] + Bmp(" 建议解决方案:")
  const HelpLine: JsString := [0x0A, 0xD83D, 0xDCCB] + Bmp(" 如需进一步帮助，请将以上诊断信息发送给开发者")

  /** The line under the title: all clear exactly when there are no issues. */
  function Headline(issues: seq<JsString>): (r: JsString)
    ensures r == OkLine <==> issues == []
    ensures r == IssuesHeader <==> issues != []
  {
    assert OkLine[0] != IssuesHeader[0];
    if |issues| == 0 then OkLine else IssuesHeader
  }

  /** `   ${index + 1}. ${item}` for each item. */
  function Numbered(items: seq<JsString>): (r: seq<JsString>)
    ensures |r| == |items|
  {
    seq(|items|, i requires 0 <= i < |items| => Bmp("   ") + IntToString(i + 1) + Bmp(". ") + items[i])
  }

  /** Each numbered line ends with its item and carries its 1-based position, which reads back as a number. */
  lemma NumberedLine(items: seq<JsString>, i: nat)
    requires i < |items|
    ensures var line := Numbered(items)[i];
            && StartsWith(line, Bmp("   ") + IntToString(i + 1) + Bmp(". "))
            && line[|line| - |items[i]|..] == items[i]
            && ToNumber(IntToString(i + 1)) == Some(i + 1)
  {
    IntToStringToNumber(i + 1);
    var head := Bmp("   ") + IntToString(i + 1) + Bmp(". ");
    assert Numbered(items)[i] == head + items[i];
    assert (head + items[i])[..|head|] == head;
  }

  /** The console lines of the report. */
  function ReportLines(issues: seq<JsString>, suggestions: seq<JsString>): (r: seq<JsString>)
    ensures |r| == 3 + |issues| + (if suggestions == [] then 0 else 1 + |suggestions|)
    ensures r[0] == ReportTitle && r[1] == Headline(issues) && r[|r| - 1] == HelpLine
    ensures forall i :: 0 <= i < |issues| ==> r[2 + i] == Numbered(issues)[i]
  {
    [ReportTitle, Headline(issues)] + Numbered(issues)
    + (if suggestions == [] then [] else [AdviceHeader] + Numbered(suggestions))
    + [HelpLine]
  }

  /** The image block of `generateReport`: one pair for an empty page, else the three count checks. */
  method ReportImages(imageInfo: seq<ImageInfo>) returns (issues: seq<JsString>, suggestions: seq<JsString>)
    ensures issues == Issues(ImageProblems(imageInfo))
    ensures suggestions == Advice(ImageProblems(imageInfo))
  {
    issues := [];
    suggestions := [];
    ghost var found: seq<Problem> := [];
    if |imageInfo| == 0 {
      PushPair(issues, suggestions, found, NoImages);
      issues := issues + [IssueText(NoImages)];
      suggestions := suggestions + [AdviceText(NoImages)];
      found := found + [NoImages];
      return;
    }
    var visible := VisibleCount(imageInfo);
    var wechat := WechatCount(imageInfo);
    var withButton := ButtonCount(imageInfo);
    if visible == 0 {
      PushPair(issues, suggestions, found, NoVisible);
      issues := issues + [IssueText(NoVisible)];
      suggestions := suggestions + [AdviceText(NoVisible)];
      found := found + [NoVisible];
    }
    if wechat == 0 {
      PushPair(issues, suggestions, found, NoWechat);
      issues := issues + [IssueText(NoWechat)];
      suggestions := suggestions + [AdviceText(NoWechat)];
      found := found + [NoWechat];
    }
    if withButton < visible {
      PushPair(issues, suggestions, found, MissingButtons(withButton, visible));
      issues := issues + [IssueText(MissingButtons(withButton, visible))];
      suggestions := suggestions + [AdviceText(MissingButtons(withButton, visible))];
      found := found + [MissingButtons(withButton, visible)];
    }
    assert found == ImageProblems(imageInfo);
  }

  /** The clipboard block of `generateReport`, appending to the pairs found so far. */
  method ReportClipboard(issues0: seq<JsString>, suggestions0: seq<JsString>, ghost found0: seq<Problem>, clip: ClipboardSupport)
    returns (issues: seq<JsString>, suggestions: seq<JsString>)
    requires issues0 == Issues(found0) && suggestions0 == Advice(found0)
    ensures issues == Issues(found0 + ClipboardProblems(clip))
    ensures suggestions == Advice(found0 + ClipboardProblems(clip))
  {
    issues, suggestions := issues0, suggestions0;
    ghost var found := found0;
    if !clip.hasNavigatorClipboard {
      PushPair(issues, suggestions, found, NoClipboardApi);
      issues := issues + [IssueText(NoClipboardApi)];
      suggestions := suggestions + [AdviceText(NoClipboardApi)];
      found := found + [NoClipboardApi];
    }
    if !clip.hasClipboardItem {
      PushPair(issues, suggestions, found, NoClipboardItem);
      issues := issues + [IssueText(NoClipboardItem)];
      suggestions := suggestions + [AdviceText(NoClipboardItem)];
      found := found + [NoClipboardItem];
    }
    assert found == found0 + ClipboardProblems(clip);
  }

  /**
   * `generateReport(imageInfo, clipboardSupport)`: push each issue with its
   * suggestion, then print the report; the console output is returned as
   * `lines`.
   */
  method GenerateReport(imageInfo: seq<ImageInfo>, clip: ClipboardSupport)
    returns (issues: seq<JsString>, suggestions: seq<JsString>, lines: seq<JsString>)
    ensures issues == Issues(Problems(imageInfo, clip))
    ensures suggestions == Advice(Problems(imageInfo, clip))
    ensures |issues| == |suggestions|
    ensures lines == ReportLines(issues, suggestions)
  {
    issues, suggestions := ReportImages(imageInfo);
    issues, suggestions := ReportClipboard(issues, suggestions, ImageProblems(imageInfo), clip);
    lines := ReportLines(issues, suggestions);
  }

  /** The report opens with the all-clear line exactly when nothing was found. */
  lemma ReportAllClear(info: seq<ImageInfo>, clip: ClipboardSupport)
    ensures ReportLines(Issues(Problems(info, clip)), Advice(Problems(info, clip)))[1] == OkLine
            <==> info != [] && VisibleCount(info) > 0 && WechatCount(info) > 0 && ButtonCount(info) >= VisibleCount(info)
                 && clip.hasNavigatorClipboard && clip.hasClipboardItem
  {
  }

  // ---------------------------------------------------------------------
  // The copy test
  // ---------------------------------------------------------------------

  /** `img.offsetWidth > 0 && img.offsetHeight > 0 && img.complete` */
  predicate Usable(img: Img) { img.offsetWidth > 0 && img.offsetHeight > 0 && img.complete }

  /** How `testImageCopy` gets on before the asynchronous blob and clipboard steps. */
  datatype CopyTest =
    | NoImagesFound
    | NoUsableImage
    | Testing(index: nat, canvasWidth: nat, canvasHeight: nat)

  /**
   * `testImageCopy()` up to the drawing: give up on an empty page, else scan
   * for the first usable image and size the canvas from it.
   */
  method TestImageCopy(images: seq<Img>) returns (outcome: CopyTest)
    ensures outcome == NoImagesFound <==> images == []
    ensures outcome == NoUsableImage <==> images != [] && forall j :: 0 <= j < |images| ==> !Usable(images[j])
    ensures outcome.Testing? ==>
              && outcome.index < |images| && Usable(images[outcome.index])
              && (forall j :: 0 <= j < outcome.index ==> !Usable(images[j]))
              && outcome.canvasWidth == ImageDebugger.Fallback(images[outcome.index].naturalWidth, images[outcome.index].width, 300)
              && outcome.canvasHeight == ImageDebugger.Fallback(images[outcome.index].naturalHeight, images[outcome.index].height, 200)
  {
    if |images| == 0 {
      return NoImagesFound;
    }
    var testImage: Option<nat> := None;
    var i := 0;
    while i < |images|
      invariant 0 <= i <= |images|
      invariant testImage.None?
      invariant forall j :: 0 <= j < i ==> !Usable(images[j])
    {
      if Usable(images[i]) {
        testImage := Some(i);
        break;
      }
      i := i + 1;
    }
    if testImage.None? {
      return NoUsableImage;
    }
    var img := images[testImage.value];
    outcome := Testing(testImage.value,
                       ImageDebugger.Fallback(img.naturalWidth, img.width, 300),
                       ImageDebugger.Fallback(img.naturalHeight, img.height, 200));
  }
}
