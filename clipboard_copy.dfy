/**
 * The "copy full article" click handler of content.js: it assembles the
 * header and the body (with inlined images or as plain text) and writes the
 * clipboard through the richest interface available, degrading to plain text
 * and finally reporting failure.
 *
 * The clipboard is an oracle: `accepts(k)` says whether the k-th asynchronous
 * clipboard call of the click resolves.
 */
module ClipboardCopy {
  import opened Wrappers
  import opened JsStrings
  import opened ArticleMeta
  import opened ImageInliner

  /** One clipboard call of the handler. */
  datatype ClipboardOp =
    | WriteItem(html: JsString, text: JsString)   // `clipboard.write([new ClipboardItem({'text/html', 'text/plain'})])`
    | WriteText(text: JsString)                   // `clipboard.writeText(text)`
    | ExecCommandCopy(text: JsString)             // off-screen textarea and `execCommand('copy')`

  /** The message the handler shows. */
  datatype Notice = Copied | PartlyDegraded | DegradedAfterError | CopyFailed

  datatype ClipboardEnv = ClipboardEnv(hasClipboard: bool, hasClipboardItem: bool, accepts: nat -> bool)

  /** The clipboard calls made, in order, and the message shown. */
  datatype CopyTrace = CopyTrace(ops: seq<ClipboardOp>, notice: Notice)

  function NoticeText(n: Notice): JsString {
    match n
    case Copied => Utf16("✅ 全文（含标题时间）已复制到剪贴板")
    case PartlyDegraded => Utf16("⚠️ 部分内容不可用，已降级为纯文本")
    case DegradedAfterError => Utf16("⚠️ 已降级为纯文本并复制成功")
    case CopyFailed => Utf16("❌ 复制失败，请手动选择复制")
  }

  /** Whether the k-th call took effect; `execCommand`'s result is never looked at, so it counts as done. */
  predicate Succeeded(clip: ClipboardEnv, ops: seq<ClipboardOp>, k: nat)
    requires k < |ops|
  {
    ops[k].ExecCommandCopy? || clip.accepts(k)
  }

  /** The `catch` block: one more `writeText` of the header and the untrimmed body. */
  function Recover(clip: ClipboardEnv, fallbackText: JsString, ops: seq<ClipboardOp>): CopyTrace {
    if !clip.hasClipboard then CopyTrace(ops, CopyFailed)
    else CopyTrace(ops + [WriteText(fallbackText)], if clip.accepts(|ops|) then DegradedAfterError else CopyFailed)
  }

  /** The tier selection of the handler, given the assembled HTML (if any) and text. */
  function Tiers(clip: ClipboardEnv, html: Option<JsString>, text: JsString, fallbackText: JsString): CopyTrace {
    if clip.hasClipboard && clip.hasClipboardItem then
      if html.Some? && html.value != [] then
        var rich := WriteItem(html.value, text);
        if clip.accepts(0) then CopyTrace([rich], Copied)
        else if clip.accepts(1) then CopyTrace([rich, WriteText(text)], PartlyDegraded)
        else Recover(clip, fallbackText, [rich, WriteText(text)])
      else if clip.accepts(0) then CopyTrace([WriteText(text)], Copied)
      else Recover(clip, fallbackText, [WriteText(text)])
    else CopyTrace([ExecCommandCopy(text)], Copied)
  }

  /**
   * The handler stops at the first call that took effect: every call before
   * the last failed, and the message reports success (of some kind) exactly
   * when the last call took effect; a failure message means nothing was
   * written. At most three calls are made.
   */
  lemma TiersStopAtFirstSuccess(clip: ClipboardEnv, html: Option<JsString>, text: JsString, fallbackText: JsString)
    ensures var t := Tiers(clip, html, text, fallbackText);
            && 1 <= |t.ops| <= 3
            && (forall k :: 0 <= k < |t.ops| - 1 ==> !Succeeded(clip, t.ops, k))
            && (t.notice != CopyFailed <==> Succeeded(clip, t.ops, |t.ops| - 1))
  {
  }

  /**
   * The rich write carries both formats: with both interfaces and a non-empty
   * HTML it is the first call; it is the only way to `Copied` in that case,
   * and `PartlyDegraded` means it failed and plain text was written instead.
   */
  lemma RichWriteFirst(clip: ClipboardEnv, html: JsString, text: JsString, fallbackText: JsString)
    requires clip.hasClipboard && clip.hasClipboardItem && html != []
    ensures var t := Tiers(clip, Some(html), text, fallbackText);
            && t.ops[0] == WriteItem(html, text)
            && (t.notice == Copied <==> clip.accepts(0))
            && (t.notice == PartlyDegraded <==> !clip.accepts(0) && clip.accepts(1))
            && (t.notice == PartlyDegraded ==> t.ops == [WriteItem(html, text), WriteText(text)])
  {
  }

  /** Without the asynchronous interface the textarea path is taken and success is always reported. */
  lemma ExecCommandPath(clip: ClipboardEnv, html: Option<JsString>, text: JsString, fallbackText: JsString)
    requires !(clip.hasClipboard && clip.hasClipboardItem)
    ensures Tiers(clip, html, text, fallbackText) == CopyTrace([ExecCommandCopy(text)], Copied)
  {
  }

  /** The recovery write is reached only after the asynchronous interface failed, and carries the fallback text. */
  lemma RecoveryWrite(clip: ClipboardEnv, html: Option<JsString>, text: JsString, fallbackText: JsString)
    ensures var t := Tiers(clip, html, text, fallbackText);
            t.notice == DegradedAfterError ==>
              clip.hasClipboard && clip.hasClipboardItem && t.ops[|t.ops| - 1] == WriteText(fallbackText)
              && forall k :: 0 <= k < |t.ops| - 1 ==> !clip.accepts(k)
  {
  }

  /** An element's text as the handler reads it: `innerText || textContent || ''`. */
  function RootText(e: ElementText): (r: JsString)
    ensures r == [] <==> e.innerText == [] && e.textContent == []
  {
    if e.innerText != [] then e.innerText else e.textContent
  }

  /** The article root (`#js_content`, else `article`, else `body`): its text and its parsed `innerHTML`. */
  datatype Root = Root(text: ElementText, fragment: seq<Node>)

  /**
   * The click handler. With images, the HTML is the header followed by the
   * serialised inlined copy and the text is not trimmed; without images there
   * is no HTML and the text is trimmed. The clipboard calls follow `Tiers`.
   */
  method CopyAllClick(q: Query, href: JsString, root: Root, includeImages: bool,
                      env: Environment, serialize: seq<Node> -> JsString, clip: ClipboardEnv)
    returns (html: Option<JsString>, text: JsString, trace: CopyTrace)
    ensures var m := GetArticleMeta(q, href);
            html == (if includeImages then Some(MetaHtml(m) + serialize(InlinedFragment(root.fragment, env))) else None)
    ensures var m := GetArticleMeta(q, href);
            text == (if includeImages then MetaText(m) + RootText(root.text) else Trim(MetaText(m) + RootText(root.text)))
    ensures trace == Tiers(clip, html, text, MetaText(GetArticleMeta(q, href)) + RootText(root.text))
  {
    var meta := GetArticleMeta(q, href);
    html, text := AssembleCopy(meta, root, includeImages, env, serialize);
    var fallbackText := BuildMetaText(meta);
    fallbackText := fallbackText + RootText(root.text);
    trace := ClipboardWrite(clip, html, text, fallbackText);
  }

  /** The two formats the handler builds from the header and the root. */
  method AssembleCopy(meta: Meta, root: Root, includeImages: bool, env: Environment, serialize: seq<Node> -> JsString)
    returns (html: Option<JsString>, text: JsString)
    ensures html == (if includeImages then Some(MetaHtml(meta) + serialize(InlinedFragment(root.fragment, env))) else None)
    ensures text == (if includeImages then MetaText(meta) + RootText(root.text) else Trim(MetaText(meta) + RootText(root.text)))
  {
    var metaText := BuildMetaText(meta);
    if includeImages {
      var body := InlineCopy(root.fragment, env, serialize);
      var header := BuildMetaHtml(meta);
      html := Some(header + body);
      text := metaText + RootText(root.text);
    } else {
      html := None;
      text := Trim(metaText + RootText(root.text));
    }
  }

  /** `await processImagesForCopy(root.innerHTML)`: the inlined copy, serialised again. */
  method InlineCopy(fragment: seq<Node>, env: Environment, serialize: seq<Node> -> JsString) returns (body: JsString)
    ensures body == serialize(InlinedFragment(fragment, env))
  {
    var inlined, _, _ := ProcessImagesForCopy(fragment, env);
    body := serialize(inlined);
  }

  /** The clipboard part of the handler, with its `try`/`catch`. */
  method ClipboardWrite(clip: ClipboardEnv, html: Option<JsString>, text: JsString, fallbackText: JsString)
    returns (trace: CopyTrace)
    ensures trace == Tiers(clip, html, text, fallbackText)
  {
    var ops: seq<ClipboardOp> := [];
    var threw := false;
    if clip.hasClipboard && clip.hasClipboardItem {
      if html.Some? && html.value != [] {
        ops := ops + [WriteItem(html.value, text)];
        if !clip.accepts(0) {
          ops := ops + [WriteText(text)];
          if clip.accepts(1) {
            return CopyTrace(ops, PartlyDegraded);
          }
          threw := true;
        }
      } else {
        ops := ops + [WriteText(text)];
        threw := !clip.accepts(0);
      }
    } else {
      ops := ops + [ExecCommandCopy(text)];
    }
    if !threw {
      return CopyTrace(ops, Copied);
    }
    if !clip.hasClipboard {
      return CopyTrace(ops, CopyFailed);
    }
    var k := |ops|;
    ops := ops + [WriteText(fallbackText)];
    trace := CopyTrace(ops, if clip.accepts(k) then DegradedAfterError else CopyFailed);
  }

  /** With images and the asynchronous interface, the first call is always the two-format write: the header is never empty. */
  lemma ImagesGoRich(m: Meta, body: JsString, text: JsString, clip: ClipboardEnv)
    requires clip.hasClipboard && clip.hasClipboardItem
    ensures Tiers(clip, Some(MetaHtml(m) + body), text, text).ops[0] == WriteItem(MetaHtml(m) + body, text)
  {
    var html := MetaHtml(m) + body;
    assert |html| > 0;
    RichWriteFirst(clip, html, text, text);
  }
}
