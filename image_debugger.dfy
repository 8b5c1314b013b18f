/**
 * The click-to-debug image tool (debug-image-copy-enhanced.js): the facts it
 * collects about an image, the load test that always settles, the canvas
 * test with its blank-region check, the clipboard probe and the suggestion
 * list it prints.
 *
 * The browser is an oracle: the events that reach the image while the load
 * test waits, what drawing to the canvas yields, and the clipboard probe's
 * answers are parameters. The panel's HTML layout is not modelled.
 */
module ImageDebugger {
  import opened Wrappers
  import opened JsStrings

  /** The image as the page has it: attributes, intrinsic and displayed sizes, `complete`. */
  datatype ImageProps = ImageProps(src: JsString, dataSrc: JsString, naturalWidth: nat, naturalHeight: nat,
                                   width: nat, height: nat, complete: bool)

  /** What `debugImageInfo` reports. */
  datatype DebugInfo = DebugInfo(src: JsString, dataSrc: JsString, naturalWidth: nat, naturalHeight: nat,
                                 width: nat, height: nat, complete: bool)

  /** `debugImageInfo(img)` as written: its `naturalHeight` is read from `img.height`. */
  function DebugImageInfoAsWritten(img: ImageProps): (r: DebugInfo)
    ensures r.naturalWidth == img.naturalWidth && r.naturalHeight == img.height
  {
    DebugInfo(img.src, img.dataSrc, img.naturalWidth, img.height, img.width, img.height, img.complete)
  }

  /** `debugImageInfo(img)` reading `naturalHeight` from `img.naturalHeight`, as its key says. */
  function DebugImageInfo(img: ImageProps): (r: DebugInfo)
    ensures r.naturalWidth == img.naturalWidth && r.naturalHeight == img.naturalHeight
    ensures r.width == img.width && r.height == img.height
  {
    DebugInfo(img.src, img.dataSrc, img.naturalWidth, img.naturalHeight, img.width, img.height, img.complete)
  }

  // ----- testImageLoad -----

  /** The load test's result. */
  datatype LoadTest = LoadTest(success: bool, loadTime: int, message: JsString)

  /** A callback that runs while the test waits, with the milliseconds since it started. */
  datatype Fired = LoadFired(elapsed: nat) | ErrorFired(elapsed: nat) | TimeoutFired(elapsed: nat)

  const AlreadyLoadedMsg: JsString := Bmp("图片已加载")
  const TimeoutMsg: JsString := Bmp("图片加载超时 (5s)")

  /** `图片加载成功 (${t}ms)` and `图片加载失败 (${t}ms)` */
  function TimedMessage(loaded: bool, t: nat): JsString {
    (if loaded then Bmp("图片加载成功 (") else Bmp("图片加载失败 (")) + NatToString(t) + Bmp("ms)")
  }

  /** The result the callback resolves with. */
  function ResultOf(f: Fired): LoadTest {
    match f
    case LoadFired(t) => LoadTest(true, t, TimedMessage(true, t))
    case ErrorFired(t) => LoadTest(false, t, TimedMessage(false, t))
    case TimeoutFired(t) => LoadTest(false, t, TimeoutMsg)
  }

  /**
   * What the promise of `testImageLoad(img)` settles to once `events` have
   * run (None: still pending). A complete image with a width settles at
   * once; otherwise the first callback to run settles it.
   */
  function LoadSpec(img: ImageProps, events: seq<Fired>): (r: Option<LoadTest>)
    ensures img.complete && img.naturalWidth > 0 ==> r == Some(LoadTest(true, 0, AlreadyLoadedMsg))
  {
    if img.complete && img.naturalWidth > 0 then Some(LoadTest(true, 0, AlreadyLoadedMsg))
    else if events == [] then None
    else Some(ResultOf(events[0]))
  }

  /**
   * The test never rejects: it is settled as soon as one callback has run,
   * and the five-second timer is one that always runs. It reports success
   * only for a loaded image, and an image that was already loaded takes no time.
   */
  lemma LoadTestAlwaysSettles(img: ImageProps, events: seq<Fired>)
    ensures LoadSpec(img, events).Some? <==> (img.complete && img.naturalWidth > 0) || events != []
    ensures (exists k :: 0 <= k < |events| && events[k].TimeoutFired?) ==> LoadSpec(img, events).Some?
    ensures LoadSpec(img, events).Some? && LoadSpec(img, events).value.success ==>
              (img.complete && img.naturalWidth > 0) || events[0].LoadFired?
    ensures LoadSpec(img, events).Some? && LoadSpec(img, events).value.success && !(img.complete && img.naturalWidth > 0) ==>
              LoadSpec(img, events).value.loadTime == events[0].elapsed
  {
  }

  /** The image element and the two listeners the test may leave attached. */
  class WatchedImage {
    const props: ImageProps
    var loadListener: bool
    var errorListener: bool

    constructor(props: ImageProps)
      ensures this.props == props && !loadListener && !errorListener
    {
      this.props := props;
      loadListener := false;
      errorListener := false;
    }
  }

  /**
   * `testImageLoad(img)`, running the callbacks in `events` as they fire.
   * The first one removes both listeners and settles the promise; later
   * ones change nothing.
   */
  method TestImageLoad(img: WatchedImage, events: seq<Fired>) returns (result: Option<LoadTest>)
    requires !img.loadListener && !img.errorListener
    modifies img
    ensures result == LoadSpec(img.props, events)
    ensures (img.props.complete && img.props.naturalWidth > 0) || events != [] ==> !img.loadListener && !img.errorListener
    ensures !(img.props.complete && img.props.naturalWidth > 0) && events == [] ==> img.loadListener && img.errorListener
  {
    if img.props.complete && img.props.naturalWidth > 0 {
      return Some(LoadTest(true, 0, AlreadyLoadedMsg));
    }
    result := None;
    img.loadListener := true;
    img.errorListener := true;
    var timerPending := true;
    var i := 0;
    while i < |events|
      invariant 0 <= i <= |events|
      invariant i == 0 ==> result.None? && img.loadListener && img.errorListener && timerPending
      invariant i > 0 ==> result == Some(ResultOf(events[0])) && !img.loadListener && !img.errorListener
    {
      match events[i] {
        case LoadFired(t) =>
          if img.loadListener {
            img.loadListener := false;
            img.errorListener := false;
            if result.None? { result := Some(LoadTest(true, t, TimedMessage(true, t))); }
          }
        case ErrorFired(t) =>
          if img.errorListener {
            img.loadListener := false;
            img.errorListener := false;
            if result.None? { result := Some(LoadTest(false, t, TimedMessage(false, t))); }
          }
        case TimeoutFired(t) =>
          if timerPending {
            timerPending := false;
            img.loadListener := false;
            img.errorListener := false;
            if result.None? { result := Some(LoadTest(false, t, TimeoutMsg)); }
          }
      }
      i := i + 1;
    }
  }

  // ----- testCanvasDrawing -----

  /** `a || b || d` on sizes. */
  function Fallback(a: nat, b: nat, d: nat): (r: nat)
    ensures d > 0 ==> r > 0
    ensures r == a || r == b || r == d
    ensures a > 0 ==> r == a
  {
    if a != 0 then a else if b != 0 then b else d
  }

  /** The canvas size: `naturalWidth || width || 300` by `naturalHeight || height || 200`. */
  function CanvasSize(img: ImageProps): (r: (nat, nat))
    ensures r.0 > 0 && r.1 > 0
    ensures img.naturalWidth > 0 ==> r.0 == img.naturalWidth
    ensures img.naturalHeight > 0 ==> r.1 == img.naturalHeight
  {
    (Fallback(img.naturalWidth, img.width, 300), Fallback(img.naturalHeight, img.height, 200))
  }

  /** The canvas falls back to the displayed size, then to 300 by 200, only where the intrinsic size is 0. */
  lemma CanvasSizeFallback(img: ImageProps)
    ensures img.naturalWidth == 0 && img.width > 0 ==> CanvasSize(img).0 == img.width
    ensures img.naturalWidth == 0 && img.width == 0 ==> CanvasSize(img).0 == 300
    ensures img.naturalHeight == 0 && img.height > 0 ==> CanvasSize(img).1 == img.height
    ensures img.naturalHeight == 0 && img.height == 0 ==> CanvasSize(img).1 == 200
  {
  }

  /** The `imageData.data.some(...)` callback from index `i` on: a colour byte (not every fourth, alpha) that is not 255. */
  function SomeFrom(data: seq<int>, i: nat): bool
    decreases |data| - i
  {
    i < |data| && ((i % 4 != 3 && data[i] != 255) || SomeFrom(data, i + 1))
  }

  /** `hasContent`: the sampled region holds a pixel that is not pure white, whatever the alpha. */
  function HasContent(data: seq<int>): bool {
    SomeFrom(data, 0)
  }

  lemma {:induction false} SomeFromSpec(data: seq<int>, i: nat)
    ensures SomeFrom(data, i) <==> exists j :: i <= j < |data| && j % 4 != 3 && data[j] != 255
    decreases |data| - i
  {
    if i < |data| {
      SomeFromSpec(data, i + 1);
      if SomeFrom(data, i + 1) {
        var j :| i + 1 <= j < |data| && j % 4 != 3 && data[j] != 255;
        assert i <= j;
      }
      if exists j :: i <= j < |data| && j % 4 != 3 && data[j] != 255 {
        var j :| i <= j < |data| && j % 4 != 3 && data[j] != 255;
        if j != i {
          assert i + 1 <= j;
        }
      }
    }
  }

  /** `hasContent` holds exactly when some red, green or blue byte is not 255; alpha bytes never count. */
  lemma HasContentSpec(data: seq<int>)
    ensures HasContent(data) <==> exists j :: 0 <= j < |data| && j % 4 != 3 && data[j] != 255
  {
    SomeFromSpec(data, 0);
  }

  /** Changing only alpha bytes does not change `hasContent`. */
  lemma HasContentIgnoresAlpha(data: seq<int>, other: seq<int>)
    requires |data| == |other|
    requires forall j :: 0 <= j < |data| && j % 4 != 3 ==> data[j] == other[j]
    ensures HasContent(data) == HasContent(other)
  {
    HasContentSpec(data);
    HasContentSpec(other);
  }

  /** What drawing yields: an error thrown, or the RGBA bytes of the sampled top-left region (at most 10 by 10). */
  datatype CanvasDraw = DrawThrew(message: JsString) | Drew(pixels: seq<int>)

  /** The canvas test's result; `width`, `height` and `hasContent` are absent (0, false) after a throw. */
  datatype CanvasTest = CanvasTest(success: bool, width: nat, height: nat, hasContent: bool, message: JsString)

  /** `testCanvasDrawing(img)`; `draw` answers for the canvas size chosen. */
  function TestCanvasDrawing(img: ImageProps, draw: (nat, nat) -> CanvasDraw): (r: CanvasTest)
    ensures r.success <==> draw(CanvasSize(img).0, CanvasSize(img).1).Drew?
    ensures r.success ==> (r.width, r.height) == CanvasSize(img)
                          && r.hasContent == HasContent(draw(r.width, r.height).pixels)
    ensures !r.success ==> !r.hasContent
  {
    var (w, h) := CanvasSize(img);
    match draw(w, h)
    case DrawThrew(m) => CanvasTest(false, 0, 0, false, Bmp("Canvas绘制失败: ") + m)
    case Drew(px) =>
      var c := HasContent(px);
      CanvasTest(true, w, h, c, if c then Bmp("Canvas绘制成功，有内容") else Bmp("Canvas绘制成功，但可能是空白"))
  }

  // ----- testClipboardAPI -----

  /** `hasWritePermission`: granted, not granted, or 'unknown' when the permission query throws. */
  datatype Permission = Granted | NotGranted | Unknown

  datatype ClipboardTest = ClipboardTest(hasNavigatorClipboard: bool, hasClipboardItem: bool,
                                         hasWritePermission: Permission, canWriteImage: bool)

  /**
   * The probe: the permission query and the one-pixel image write are only
   * tried when `navigator.clipboard` exists. The write builds a
   * `new ClipboardItem`, which throws when `window.ClipboardItem` is missing,
   * so `imageWrite` (whether `clipboard.write` accepts the item) only matters
   * when `hasItem` holds.
   */
  function TestClipboardApi(hasClipboard: bool, hasItem: bool, permission: Option<bool>, imageWrite: bool): (r: ClipboardTest)
    ensures r.hasNavigatorClipboard == hasClipboard && r.hasClipboardItem == hasItem
    ensures r.canWriteImage <==> hasClipboard && hasItem && imageWrite
    ensures r.canWriteImage ==> r.hasNavigatorClipboard && r.hasClipboardItem
    ensures !hasClipboard ==> r == ClipboardTest(false, hasItem, NotGranted, false)
    ensures hasClipboard ==> (r.hasWritePermission == Unknown <==> permission.None?)
                             && (r.hasWritePermission == Granted <==> permission == Some(true))
  {
    if !hasClipboard then ClipboardTest(false, hasItem, NotGranted, false)
    else
      var p := match permission case None => Unknown case Some(g) => if g then Granted else NotGranted;
      ClipboardTest(true, hasItem, p, hasItem && imageWrite)
  }

  // ----- generateSuggestions -----

  datatype Suggestion = LoadFailed | ZeroSize | CanvasFailed | CanvasEmpty | NoClipboardApi | CannotWriteImage | AllPass

  /** The position of each suggestion in the fixed order. */
  function Rank(s: Suggestion): nat {
    match s
    case LoadFailed => 0
    case ZeroSize => 1
    case CanvasFailed => 2
    case CanvasEmpty => 3
    case NoClipboardApi => 4
    case CannotWriteImage => 5
    case AllPass => 6
  }

  function SuggestionText(s: Suggestion): JsString {
    match s
    case LoadFailed => Bmp("• 图片加载失败，检查网络连接或图片URL")
    case ZeroSize => Bmp("• 图片尺寸为0，可能是懒加载或加载失败")
    case CanvasFailed => Bmp("• Canvas绘制失败，可能是跨域问题")
    case CanvasEmpty => Bmp("• Canvas绘制成功但内容为空，检查图片是否正确加载")
    case NoClipboardApi => Bmp("• 浏览器不支持现代剪贴板API，将使用降级方案")
    case CannotWriteImage => Bmp("• 无法写入图片到剪贴板，可能需要用户手势激活")
    case AllPass => Bmp("• 所有检查通过，图片复制应该正常工作")
  }

  function Texts(s: seq<Suggestion>): (r: seq<JsString>)
    ensures |r| == |s| && forall i :: 0 <= i < |s| ==> r[i] == SuggestionText(s[i])
  {
    seq(|s|, i requires 0 <= i < |s| => SuggestionText(s[i]))
  }

  /** The checks of `generateSuggestions`, in the order it makes them. */
  const Checks: seq<Suggestion> := [LoadFailed, ZeroSize, CanvasFailed, CanvasEmpty, NoClipboardApi, CannotWriteImage]

  /** Whether a check finds its problem; the empty-canvas check is the `else` of the failed-canvas one. */
  predicate Applies(s: Suggestion, info: DebugInfo, load: LoadTest, canvas: CanvasTest, clip: ClipboardTest) {
    match s
    case LoadFailed => !load.success
    case ZeroSize => info.naturalWidth == 0 || info.naturalHeight == 0
    case CanvasFailed => !canvas.success
    case CanvasEmpty => canvas.success && !canvas.hasContent
    case NoClipboardApi => !clip.hasNavigatorClipboard
    case CannotWriteImage => !clip.canWriteImage
    case AllPass => false
  }

  /** The checks among `xs` that find their problem, in order. */
  function Found(xs: seq<Suggestion>, info: DebugInfo, load: LoadTest, canvas: CanvasTest, clip: ClipboardTest): seq<Suggestion>
    decreases |xs|
  {
    if xs == [] then [] else Pick(xs[0], info, load, canvas, clip) + Found(xs[1..], info, load, canvas, clip)
  }

  /** The one-line list of check `x`: itself if it finds its problem, else nothing. */
  function Pick(x: Suggestion, info: DebugInfo, load: LoadTest, canvas: CanvasTest, clip: ClipboardTest): seq<Suggestion> {
    if Applies(x, info, load, canvas, clip) then [x] else []
  }

  predicate RankSorted(s: seq<Suggestion>) {
    forall i, j :: 0 <= i < j < |s| ==> Rank(s[i]) < Rank(s[j])
  }

  lemma {:induction false} FoundMembers(xs: seq<Suggestion>, info: DebugInfo, load: LoadTest, canvas: CanvasTest, clip: ClipboardTest)
    ensures forall x :: x in Found(xs, info, load, canvas, clip) <==> x in xs && Applies(x, info, load, canvas, clip)
    decreases |xs|
  {
    if xs != [] {
      FoundMembers(xs[1..], info, load, canvas, clip);
      assert forall x :: x in xs <==> x == xs[0] || x in xs[1..] by {
        assert xs == [xs[0]] + xs[1..];
      }
    }
  }

  /** Keeping some elements of a list in rank order keeps them in rank order. */
  lemma {:induction false} FoundOrdered(xs: seq<Suggestion>, info: DebugInfo, load: LoadTest, canvas: CanvasTest, clip: ClipboardTest)
    requires RankSorted(xs)
    ensures RankSorted(Found(xs, info, load, canvas, clip))
    decreases |xs|
  {
    if xs != [] {
      var tail := xs[1..];
      assert RankSorted(tail) by {
        forall i, j | 0 <= i < j < |tail| ensures Rank(tail[i]) < Rank(tail[j]) {
          assert tail[i] == xs[i + 1] && tail[j] == xs[j + 1];
        }
      }
      FoundOrdered(tail, info, load, canvas, clip);
      FoundMembers(tail, info, load, canvas, clip);
      var rest := Found(tail, info, load, canvas, clip);
      if Applies(xs[0], info, load, canvas, clip) {
        var r := [xs[0]] + rest;
        assert Found(xs, info, load, canvas, clip) == r;
        forall i, j | 0 <= i < j < |r|
          ensures Rank(r[i]) < Rank(r[j])
        {
          var x := rest[j - 1];
          assert r[j] == x;
          if i == 0 {
            assert x in tail;
            var k :| 0 <= k < |tail| && tail[k] == x;
            assert xs[k + 1] == x;
          } else {
            assert r[i] == rest[i - 1];
          }
        }
      } else {
        assert Found(xs, info, load, canvas, clip) == rest;
      }
    }
  }

  /** The suggestions listed: the problems found, or the single all-clear line. */
  function Suggestions(info: DebugInfo, load: LoadTest, canvas: CanvasTest, clip: ClipboardTest): seq<Suggestion> {
    var p := Found(Checks, info, load, canvas, clip);
    if p == [] then [AllPass] else p
  }

  const Br: JsString := [0x3C, 0x62, 0x72, 0x3E]  // "<br>"

  /** The list is never empty and follows the fixed order: load, size, canvas, clipboard API, image write. */
  lemma SuggestionsOrdered(info: DebugInfo, load: LoadTest, canvas: CanvasTest, clip: ClipboardTest)
    ensures |Suggestions(info, load, canvas, clip)| >= 1
    ensures RankSorted(Suggestions(info, load, canvas, clip))
  {
    assert RankSorted(Checks);
    FoundOrdered(Checks, info, load, canvas, clip);
  }

  /**
   * Each problem is listed exactly when its check finds it, so the two
   * canvas suggestions exclude each other; the all-clear line stands alone
   * and appears exactly when every check passed.
   */
  lemma SuggestionsListProblems(info: DebugInfo, load: LoadTest, canvas: CanvasTest, clip: ClipboardTest)
    ensures var s := Suggestions(info, load, canvas, clip);
            && (forall x :: x != AllPass ==> (x in s <==> Applies(x, info, load, canvas, clip)))
            && !(CanvasFailed in s && CanvasEmpty in s)
            && (AllPass in s <==> s == [AllPass])
            && (AllPass in s <==> load.success && info.naturalWidth != 0 && info.naturalHeight != 0
                                  && canvas.success && canvas.hasContent
                                  && clip.hasNavigatorClipboard && clip.canWriteImage)
  {
    var p := Found(Checks, info, load, canvas, clip);
    FoundMembers(Checks, info, load, canvas, clip);
    ChecksCover();
    NothingFoundIffAllPass(info, load, canvas, clip);
    assert AllPass !in p;
  }

  /**
   * Without `window.ClipboardItem` the image write cannot succeed, so the
   * "cannot write image" suggestion is always listed and the all-clear line
   * never is, whatever the other tests found.
   */
  lemma NoClipboardItemCannotWriteImage(info: DebugInfo, load: LoadTest, canvas: CanvasTest,
                                        hasClipboard: bool, permission: Option<bool>, imageWrite: bool)
    ensures var s := Suggestions(info, load, canvas, TestClipboardApi(hasClipboard, false, permission, imageWrite));
            CannotWriteImage in s && AllPass !in s
  {
    SuggestionsListProblems(info, load, canvas, TestClipboardApi(hasClipboard, false, permission, imageWrite));
  }

  /** Every suggestion but the all-clear line is one of the checks. */
  lemma ChecksCover()
    ensures forall x :: x in Checks <==> x != AllPass
  {
    forall x ensures x in Checks <==> x != AllPass {
      match x
      case LoadFailed => assert Checks[0] == x;
      case ZeroSize => assert Checks[1] == x;
      case CanvasFailed => assert Checks[2] == x;
      case CanvasEmpty => assert Checks[3] == x;
      case NoClipboardApi => assert Checks[4] == x;
      case CannotWriteImage => assert Checks[5] == x;
      case AllPass =>
    }
  }

  /** No check finds a problem exactly when every test passed. */
  lemma NothingFoundIffAllPass(info: DebugInfo, load: LoadTest, canvas: CanvasTest, clip: ClipboardTest)
    ensures Found(Checks, info, load, canvas, clip) == [] <==>
              load.success && info.naturalWidth != 0 && info.naturalHeight != 0
              && canvas.success && canvas.hasContent
              && clip.hasNavigatorClipboard && clip.canWriteImage
  {
    var p := Found(Checks, info, load, canvas, clip);
    FoundMembers(Checks, info, load, canvas, clip);
    ChecksCover();
    if p != [] {
      assert p[0] in p;
    } else {
      assert !Applies(LoadFailed, info, load, canvas, clip) && !Applies(ZeroSize, info, load, canvas, clip);
      assert !Applies(CanvasFailed, info, load, canvas, clip) && !Applies(CanvasEmpty, info, load, canvas, clip);
      assert !Applies(NoClipboardApi, info, load, canvas, clip) && !Applies(CannotWriteImage, info, load, canvas, clip);
    }
  }

  /** A list's first check, then the rest. */
  lemma FoundCons(x: Suggestion, rest: seq<Suggestion>, info: DebugInfo, load: LoadTest, canvas: CanvasTest, clip: ClipboardTest)
    ensures Found([x] + rest, info, load, canvas, clip) == Pick(x, info, load, canvas, clip) + Found(rest, info, load, canvas, clip)
  {
    assert ([x] + rest)[1..] == rest;
  }

  /** Taking one more check off the front of the list still to run. */
  lemma FoundStep(done: seq<Suggestion>, x: Suggestion, rest: seq<Suggestion>, all: seq<Suggestion>,
                  info: DebugInfo, load: LoadTest, canvas: CanvasTest, clip: ClipboardTest)
    requires done + Found([x] + rest, info, load, canvas, clip) == all
    ensures (done + Pick(x, info, load, canvas, clip)) + Found(rest, info, load, canvas, clip) == all
  {
    FoundCons(x, rest, info, load, canvas, clip);
    assert done + (Pick(x, info, load, canvas, clip) + Found(rest, info, load, canvas, clip))
        == (done + Pick(x, info, load, canvas, clip)) + Found(rest, info, load, canvas, clip);
  }

  /**
   * `generateSuggestions(info, loadTest, canvasTest, clipboardTest)`: push
   * each finding (named by its `Suggestion`, whose line is `SuggestionText`),
   * then join the lines with `<br>`.
   */
  method GenerateSuggestions(info: DebugInfo, load: LoadTest, canvas: CanvasTest, clip: ClipboardTest) returns (text: JsString)
    ensures text == Join(Texts(Suggestions(info, load, canvas, clip)), Br)
  {
    var suggestions := PushFindings(info, load, canvas, clip);
    if |suggestions| == 0 {
      suggestions := suggestions + [AllPass];
    }
    text := Join(Texts(suggestions), Br);
  }

  /** The five checks of `generateSuggestions`, each pushing its finding. */
  method PushFindings(info: DebugInfo, load: LoadTest, canvas: CanvasTest, clip: ClipboardTest) returns (suggestions: seq<Suggestion>)
    ensures suggestions == Found(Checks, info, load, canvas, clip)
  {
    suggestions := [];
    if !load.success {
      suggestions := suggestions + [LoadFailed];
    }
    assert suggestions == Pick(LoadFailed, info, load, canvas, clip);
    ghost var before := suggestions;
    if info.naturalWidth == 0 || info.naturalHeight == 0 {
      suggestions := suggestions + [ZeroSize];
    }
    assert suggestions == before + Pick(ZeroSize, info, load, canvas, clip);
    before := suggestions;
    if !canvas.success {
      suggestions := suggestions + [CanvasFailed];
    } else if !canvas.hasContent {
      suggestions := suggestions + [CanvasEmpty];
    }
    assert suggestions == before + Pick(CanvasFailed, info, load, canvas, clip) + Pick(CanvasEmpty, info, load, canvas, clip);
    before := suggestions;
    if !clip.hasNavigatorClipboard {
      suggestions := suggestions + [NoClipboardApi];
    }
    assert suggestions == before + Pick(NoClipboardApi, info, load, canvas, clip);
    before := suggestions;
    if !clip.canWriteImage {
      suggestions := suggestions + [CannotWriteImage];
    }
    assert suggestions == before + Pick(CannotWriteImage, info, load, canvas, clip);
    FoundChecks(info, load, canvas, clip);
  }

  /** The checks' findings, one after the other in the list's order. */
  lemma FoundChecks(info: DebugInfo, load: LoadTest, canvas: CanvasTest, clip: ClipboardTest)
    ensures Found(Checks, info, load, canvas, clip)
            == Pick(LoadFailed, info, load, canvas, clip) + Pick(ZeroSize, info, load, canvas, clip)
               + Pick(CanvasFailed, info, load, canvas, clip) + Pick(CanvasEmpty, info, load, canvas, clip)
               + Pick(NoClipboardApi, info, load, canvas, clip) + Pick(CannotWriteImage, info, load, canvas, clip)
  {
    ghost var all := Found(Checks, info, load, canvas, clip);
    var t5: seq<Suggestion> := [CannotWriteImage];
    var t4 := [NoClipboardApi] + t5;
    var t3 := [CanvasEmpty] + t4;
    var t2 := [CanvasFailed] + t3;
    var t1 := [ZeroSize] + t2;
    assert Checks == [LoadFailed] + t1;
    var d0: seq<Suggestion> := [];
    assert d0 + Found([LoadFailed] + t1, info, load, canvas, clip) == all;
    FoundStep(d0, LoadFailed, t1, all, info, load, canvas, clip);
    var d1 := d0 + Pick(LoadFailed, info, load, canvas, clip);
    FoundStep(d1, ZeroSize, t2, all, info, load, canvas, clip);
    var d2 := d1 + Pick(ZeroSize, info, load, canvas, clip);
    FoundStep(d2, CanvasFailed, t3, all, info, load, canvas, clip);
    var d3 := d2 + Pick(CanvasFailed, info, load, canvas, clip);
    FoundStep(d3, CanvasEmpty, t4, all, info, load, canvas, clip);
    var d4 := d3 + Pick(CanvasEmpty, info, load, canvas, clip);
    FoundStep(d4, NoClipboardApi, t5, all, info, load, canvas, clip);
    var d5 := d4 + Pick(NoClipboardApi, info, load, canvas, clip);
    assert t5 == [CannotWriteImage] + [];
    FoundStep(d5, CannotWriteImage, [], all, info, load, canvas, clip);
    assert d0 + Pick(LoadFailed, info, load, canvas, clip) == Pick(LoadFailed, info, load, canvas, clip);
    assert d5 + Pick(CannotWriteImage, info, load, canvas, clip) + [] == all;
  }

  /** The size check on what `debugImageInfo` reports, written and corrected. */
  lemma ZeroSizeFalseAlarm(load: LoadTest, canvas: CanvasTest, clip: ClipboardTest)
    ensures var img := ImageProps([], [], 640, 480, 640, 0, true);
            && ZeroSize in Suggestions(DebugImageInfoAsWritten(img), load, canvas, clip)
            && ZeroSize !in Suggestions(DebugImageInfo(img), load, canvas, clip)
  {
    var img := ImageProps([], [], 640, 480, 640, 0, true);
    SuggestionsListProblems(DebugImageInfoAsWritten(img), load, canvas, clip);
    SuggestionsListProblems(DebugImageInfo(img), load, canvas, clip);
  }

  /** With the corrected report, the size suggestion appears exactly when an intrinsic dimension is 0. */
  lemma ZeroSizeMeansUnloaded(img: ImageProps, load: LoadTest, canvas: CanvasTest, clip: ClipboardTest)
    ensures ZeroSize in Suggestions(DebugImageInfo(img), load, canvas, clip) <==> img.naturalWidth == 0 || img.naturalHeight == 0
  {
    SuggestionsListProblems(DebugImageInfo(img), load, canvas, clip);
  }
}
