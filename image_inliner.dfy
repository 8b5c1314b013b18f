/**
 * Image inlining for the rich copy (content.js): every image of a detached
 * copy of the article is fetched as a data URL, directly or through the
 * background relay, and its attributes are rewritten; an image that cannot
 * be fetched gets a transparent placeholder, and one without a source is
 * replaced by a text span.
 *
 * Network, relay and file-reader results are oracle parameters indexed by the
 * image's position; the detached copy is a sequence of nodes in document order.
 */
module ImageInliner {
  import opened Wrappers
  import opened JsStrings
  import opened StringOps
  import opened Compute

  // ----- the two-tier fetch -----

  /** The direct `fetch(url, {cache: 'no-store', referrerPolicy: 'no-referrer'})`. */
  datatype DirectFetch =
    | NetworkError                                        // fetch rejects
    | Response(ok: bool, status: int, body: Option<JsString>)  // body: the FileReader data URL, None when reading fails

  /** A reply of the relay (background.js sends `{success, dataUrl}` or `{success: false, error}`); '' is an absent field. */
  datatype RelayReply = RelayReply(success: bool, dataUrl: JsString, error: JsString)

  /** `chrome.runtime.sendMessage`: it throws, or the callback receives a reply (None for `undefined`). */
  datatype RelayChannel = SendThrows | Replied(reply: Option<RelayReply>)

  datatype FetchOutcome = Fetched(dataUrl: JsString) | FetchFailed(message: JsString)

  /** The outcome, and the URL of the `{action: 'proxyImage', url}` message when the relay was asked. */
  datatype FetchTrace = FetchTrace(outcome: FetchOutcome, relayed: Option<JsString>)

  const ProxyFailed: JsString := [0x70, 0x72, 0x6F, 0x78, 0x79, 0x5F, 0x66, 0x61, 0x69, 0x6C, 0x65, 0x64]  // "proxy_failed"
  const NoChromeRuntime: JsString := [0x6E, 0x6F, 0x5F, 0x63, 0x68, 0x72, 0x6F, 0x6D, 0x65, 0x5F, 0x72, 0x75, 0x6E, 0x74, 0x69, 0x6D, 0x65]  // "no_chrome_runtime"

  predicate DirectSucceeds(d: DirectFetch) { d.Response? && d.ok && d.body.Some? }

  /** The relay tier: accepted only when the reply has `success` and a non-empty `dataUrl`. */
  function AskRelay(relay: RelayChannel): (r: FetchOutcome)
    ensures r.Fetched? <==> relay.Replied? && relay.reply.Some? && relay.reply.value.success && relay.reply.value.dataUrl != []
    ensures r.Fetched? ==> r.dataUrl == relay.reply.value.dataUrl
    ensures relay.SendThrows? ==> r == FetchFailed(NoChromeRuntime)
    ensures r.FetchFailed? && relay.Replied? && relay.reply.Some? && relay.reply.value.error != [] ==>
              r.message == relay.reply.value.error
    ensures r.FetchFailed? && relay.Replied? && (relay.reply.None? || relay.reply.value.error == []) ==>
              r.message == ProxyFailed
  {
    var res := if relay.SendThrows? then Some(RelayReply(false, [], NoChromeRuntime)) else relay.reply;
    if res.Some? && res.value.success && res.value.dataUrl != [] then Fetched(res.value.dataUrl)
    else FetchFailed(if res.Some? && res.value.error != [] then res.value.error else ProxyFailed)
  }

  /** `fetchImageAsDataUrlWithProxy(url)` */
  function FetchImageAsDataUrlWithProxy(url: JsString, direct: DirectFetch, relay: RelayChannel): (t: FetchTrace)
    ensures DirectSucceeds(direct) ==> t == FetchTrace(Fetched(direct.body.value), None)
    ensures !DirectSucceeds(direct) ==> t == FetchTrace(AskRelay(relay), Some(url))
  {
    if DirectSucceeds(direct) then FetchTrace(Fetched(direct.body.value), None)
    else FetchTrace(AskRelay(relay), Some(url))
  }

  /** A failed fetch always carries a non-empty reason. */
  lemma FetchFailureHasReason(url: JsString, direct: DirectFetch, relay: RelayChannel)
    ensures var o := FetchImageAsDataUrlWithProxy(url, direct, relay).outcome;
            o.FetchFailed? ==> o.message != []
  {
    assert |ProxyFailed| == 12 && |NoChromeRuntime| == 17;
  }

  /** A data URL only ever comes from the direct response body or from an accepted relay reply. */
  lemma FetchedDataUrlOrigin(url: JsString, direct: DirectFetch, relay: RelayChannel)
    ensures var o := FetchImageAsDataUrlWithProxy(url, direct, relay).outcome;
            o.Fetched? ==>
              (DirectSucceeds(direct) && o.dataUrl == direct.body.value)
              || (relay.Replied? && relay.reply.Some? && relay.reply.value.success && o.dataUrl == relay.reply.value.dataUrl != [])
  {
  }

  // ----- the detached copy -----

  type Attrs = map<JsString, JsString>

  /** A node of the detached copy: an image with its attributes, a text span, or other markup. */
  datatype Node = Img(attrs: Attrs) | Span(text: JsString) | Markup(html: JsString)

  const SrcAttr: JsString := [0x73, 0x72, 0x63]  // "src"
  const DataSrcAttr: JsString := [0x64, 0x61, 0x74, 0x61, 0x2D, 0x73, 0x72, 0x63]  // "data-src"
  const SrcsetAttr: JsString := [0x73, 0x72, 0x63, 0x73, 0x65, 0x74]  // "srcset"
  const CrossOriginAttr: JsString := [0x63, 0x72, 0x6F, 0x73, 0x73, 0x6F, 0x72, 0x69, 0x67, 0x69, 0x6E]  // "crossorigin"
  const ReferrerPolicyAttr: JsString := [0x72, 0x65, 0x66, 0x65, 0x72, 0x72, 0x65, 0x72, 0x70, 0x6F, 0x6C, 0x69, 0x63, 0x79]  // "referrerpolicy"
  const AltAttr: JsString := [0x61, 0x6C, 0x74]  // "alt"
  const InlineFailedAttr: JsString := [0x64, 0x61, 0x74, 0x61, 0x2D, 0x69, 0x6E, 0x6C, 0x69, 0x6E, 0x65, 0x2D, 0x66, 0x61, 0x69, 0x6C, 0x65, 0x64]  // "data-inline-failed"
  const TrueText: JsString := [0x74, 0x72, 0x75, 0x65]  // "true"
  const NoSrcReason: JsString := [0x6E, 0x6F, 0x5F, 0x73, 0x72, 0x63]  // "no_src"
  const MissingImageText: JsString := [0x5B, 0x56FE, 0x7247, 0x7F3A, 0x5931, 0x5D]  // "[图片缺失]"
  const ImageAlt: JsString := [0x5B, 0x56FE, 0x7247, 0x5D]  // "[图片]"
  const UnavailableAlt: JsString := [0x5B, 0x56FE, 0x7247, 0x4E0D, 0x53EF, 0x7528, 0x5D]  // "[图片不可用]"
  const TransparentPng: JsString :=
    Bmp("data:image/png;base64,iVBORw0KGgoAAAANSUhEUgAAAAEAAAABCAQAAAC1HAwCAAAAC0lEQVR42mP8/x8AAwMCAO9M8gQAAAAASUVORK5CYII=")

  /** `el.getAttribute(name) || ''` */
  function Attr(a: Attrs, name: JsString): JsString {
    if name in a then a[name] else []
  }

  /** `getAttribute('src') || getAttribute('data-src') || dataset.src` (the last is the same attribute). */
  function SourceOf(a: Attrs): (r: JsString)
    ensures r == (if Attr(a, SrcAttr) != [] then Attr(a, SrcAttr) else Attr(a, DataSrcAttr))
  {
    if Attr(a, SrcAttr) != [] then Attr(a, SrcAttr) else Attr(a, DataSrcAttr)
  }

  /** `if (!img.alt) img.alt = text` */
  function DefaultAlt(a: Attrs, text: JsString): (r: Attrs)
    ensures Attr(a, AltAttr) != [] ==> r == a
    ensures Attr(a, AltAttr) == [] ==> r == a[AltAttr := text]
  {
    if Attr(a, AltAttr) != [] then a else a[AltAttr := text]
  }

  /** The attribute rewrite after a successful fetch. */
  function InlinedAttrs(a: Attrs, dataUrl: JsString): Attrs {
    DefaultAlt(((a[SrcAttr := dataUrl] - {SrcsetAttr, DataSrcAttr, CrossOriginAttr})[ReferrerPolicyAttr := NoReferrer]), ImageAlt)
  }

  /** The attribute rewrite after a failed fetch. */
  function PlaceholderAttrs(a: Attrs): Attrs {
    DefaultAlt(a[SrcAttr := TransparentPng][InlineFailedAttr := TrueText], UnavailableAlt)
  }

  /** `{index, success, reason}`; `reason` is '' on success. */
  datatype ImageResult = ImageResult(index: nat, success: bool, reason: JsString)

  /** Everything the per-image step needs from outside: the compute engine and the fetch oracles. */
  datatype Environment = Environment(
    engine: Engine, codec: UrlCodec,
    direct: (nat, JsString) -> DirectFetch,
    relay: (nat, JsString) -> RelayChannel)

  /** The normalised URL the fetch is given. */
  function FetchUrl(env: Environment, a: Attrs): JsString {
    Scalar(env.engine, env.codec, Normalize, SourceOf(a))
  }

  function FetchFor(env: Environment, index: nat, a: Attrs): FetchTrace {
    var u := FetchUrl(env, a);
    FetchImageAsDataUrlWithProxy(u, env.direct(index, u), env.relay(index, u))
  }

  /** The body of the per-image callback of `processImagesForCopy`. */
  function InlineImage(env: Environment, index: nat, a: Attrs): (r: (Node, ImageResult))
    ensures r.1.index == index
    ensures SourceOf(a) == [] ==> r == (Span(MissingImageText), ImageResult(index, false, NoSrcReason))
    ensures r.1.success <==> SourceOf(a) != [] && FetchFor(env, index, a).outcome.Fetched?
    ensures r.1.success ==> r == (Img(InlinedAttrs(a, FetchFor(env, index, a).outcome.dataUrl)), ImageResult(index, true, []))
    ensures SourceOf(a) != [] && !r.1.success ==>
              r == (Img(PlaceholderAttrs(a)), ImageResult(index, false, FetchFor(env, index, a).outcome.message))
  {
    if SourceOf(a) == [] then (Span(MissingImageText), ImageResult(index, false, NoSrcReason))
    else match FetchFor(env, index, a).outcome
      case Fetched(d) => (Img(InlinedAttrs(a, d)), ImageResult(index, true, []))
      case FetchFailed(msg) => (Img(PlaceholderAttrs(a)), ImageResult(index, false, msg))
  }

  /**
   * A successfully inlined image: `src` is the data URL, `srcset`, `data-src`
   * and `crossorigin` are gone, `referrerpolicy` is `no-referrer`, `alt` is
   * kept or defaults to "[图片]", and every other attribute is untouched.
   */
  lemma InlinedAttrsSpec(a: Attrs, d: JsString)
    ensures var r := InlinedAttrs(a, d);
            && r[SrcAttr] == d && SrcsetAttr !in r && DataSrcAttr !in r && CrossOriginAttr !in r
            && r[ReferrerPolicyAttr] == NoReferrer
            && Attr(r, AltAttr) == (if Attr(a, AltAttr) != [] then Attr(a, AltAttr) else ImageAlt)
    ensures var r := InlinedAttrs(a, d);
            forall k :: k in a && k !in {SrcAttr, SrcsetAttr, DataSrcAttr, CrossOriginAttr, ReferrerPolicyAttr, AltAttr} ==>
              k in r && r[k] == a[k]
  {
    AttrNamesDistinct();
    var c := (a[SrcAttr := d] - {SrcsetAttr, DataSrcAttr, CrossOriginAttr})[ReferrerPolicyAttr := NoReferrer];
    InlinedCore(a, d);
    assert Attr(c, AltAttr) == Attr(a, AltAttr);
  }

  lemma InlinedCore(a: Attrs, d: JsString)
    ensures var c := (a[SrcAttr := d] - {SrcsetAttr, DataSrcAttr, CrossOriginAttr})[ReferrerPolicyAttr := NoReferrer];
            c[SrcAttr] == d && SrcsetAttr !in c && DataSrcAttr !in c && CrossOriginAttr !in c
  {
    AttrNamesDistinct();
    var b := a[SrcAttr := d] - {SrcsetAttr, DataSrcAttr, CrossOriginAttr};
    assert b[SrcAttr] == d;
  }

  /**
   * A failed image: `src` is the transparent PNG, `data-inline-failed` is
   * "true", `alt` is kept or defaults to "[图片不可用]", and every other
   * attribute (including `srcset` and `data-src`) is untouched.
   */
  lemma PlaceholderAttrsSpec(a: Attrs)
    ensures var r := PlaceholderAttrs(a);
            && r[SrcAttr] == TransparentPng && r[InlineFailedAttr] == TrueText
            && Attr(r, AltAttr) == (if Attr(a, AltAttr) != [] then Attr(a, AltAttr) else UnavailableAlt)
            && forall k :: k in a && k !in {SrcAttr, InlineFailedAttr, AltAttr} ==> k in r && r[k] == a[k]
  {
    AttrNamesDistinct();
  }

  lemma AttrNamesDistinct()
    ensures AltAttr != SrcAttr && AltAttr != InlineFailedAttr && AltAttr != ReferrerPolicyAttr
    ensures SrcAttr != ReferrerPolicyAttr && SrcAttr !in {SrcsetAttr, DataSrcAttr, CrossOriginAttr}
    ensures ReferrerPolicyAttr !in {SrcsetAttr, DataSrcAttr, CrossOriginAttr}
    ensures SrcAttr != InlineFailedAttr
  {
    assert |SrcAttr| == 3 && |AltAttr| == 3 && |SrcsetAttr| == 6 && |DataSrcAttr| == 8;
    assert |CrossOriginAttr| == 11 && |ReferrerPolicyAttr| == 14 && |InlineFailedAttr| == 18;
    assert SrcAttr[0] != AltAttr[0];
  }

  /** The number of images among the nodes. */
  function ImageCount(ns: seq<Node>): (n: nat)
    ensures n <= |ns|
    decreases |ns|
  {
    if ns == [] then 0 else ImageCount(ns[..|ns| - 1]) + (if ns[|ns| - 1].Img? then 1 else 0)
  }

  function CountSuccesses(rs: seq<ImageResult>): (n: nat)
    ensures n <= |rs|
    decreases |rs|
  {
    if rs == [] then 0 else CountSuccesses(rs[..|rs| - 1]) + (if rs[|rs| - 1].success then 1 else 0)
  }

  /** The copy after every image has been through `InlineImage`; other nodes are kept. */
  function InlinedFragment(fragment: seq<Node>, env: Environment): (r: seq<Node>)
    ensures |r| == |fragment|
  {
    seq(|fragment|, i requires 0 <= i < |fragment| =>
      if fragment[i].Img? then InlineImage(env, ImageCount(fragment[..i]), fragment[i].attrs).0 else fragment[i])
  }

  /**
   * `processImagesForCopy(html)` on the parsed copy: every image gets exactly
   * one outcome, computed from that image alone, in document order; nodes that
   * are not images are untouched; `successCount` counts the successes.
   */
  method ProcessImagesForCopy(fragment: seq<Node>, env: Environment)
    returns (out: seq<Node>, results: seq<ImageResult>, successCount: nat)
    ensures |out| == |fragment| && |results| == ImageCount(fragment)
    ensures forall i :: 0 <= i < |fragment| && !fragment[i].Img? ==> out[i] == fragment[i]
    ensures forall i :: 0 <= i < |fragment| && fragment[i].Img? ==>
              ImageCount(fragment[..i]) < |results|
              && (out[i], results[ImageCount(fragment[..i])]) == InlineImage(env, ImageCount(fragment[..i]), fragment[i].attrs)
    ensures forall k :: 0 <= k < |results| ==> results[k].index == k
    ensures successCount == CountSuccesses(results) <= |results|
    ensures out == InlinedFragment(fragment, env)
  {
    out := [];
    results := [];
    var i := 0;
    while i < |fragment|
      invariant Processed(fragment, env, out, results, i)
    {
      if fragment[i].Img? {
        var step := InlineImage(env, |results|, fragment[i].attrs);
        ProcessedImage(fragment, env, out, results, i);
        out := out + [step.0];
        results := results + [step.1];
      } else {
        ProcessedOther(fragment, env, out, results, i);
        out := out + [fragment[i]];
      }
      i := i + 1;
    }
    assert fragment[..i] == fragment;
    InlinedFragmentPointwise(fragment, env, out, results);
    successCount := CountSuccessful(results);
  }

  /** The loop's state after the first `i` nodes: one outcome per image so far, other nodes copied. */
  ghost predicate Processed(fragment: seq<Node>, env: Environment, out: seq<Node>, results: seq<ImageResult>, i: nat) {
    && i <= |fragment| && |out| == i && |results| == ImageCount(fragment[..i])
    && (forall j :: 0 <= j < i && !fragment[j].Img? ==> out[j] == fragment[j])
    && (forall j :: 0 <= j < i && fragment[j].Img? ==>
          ImageCount(fragment[..j]) < |results|
          && (out[j], results[ImageCount(fragment[..j])]) == InlineImage(env, ImageCount(fragment[..j]), fragment[j].attrs))
    && (forall k :: 0 <= k < |results| ==> results[k].index == k)
  }

  /** Inlining the image at index `i` extends the loop's state. */
  lemma ProcessedImage(fragment: seq<Node>, env: Environment, out: seq<Node>, results: seq<ImageResult>, i: nat)
    requires Processed(fragment, env, out, results, i) && i < |fragment| && fragment[i].Img?
    ensures var step := InlineImage(env, |results|, fragment[i].attrs);
            Processed(fragment, env, out + [step.0], results + [step.1], i + 1)
  {
    var step := InlineImage(env, |results|, fragment[i].attrs);
    assert fragment[..i + 1][..i] == fragment[..i];
    ImageStepKeeps(fragment, env, out, results, i, step);
    var results' := results + [step.1];
    forall k | 0 <= k < |results'| ensures results'[k].index == k {
      if k < |results| { assert results'[k] == results[k]; }
    }
  }

  /** Copying a node that is not an image keeps every outcome so far. */
  lemma ProcessedOther(fragment: seq<Node>, env: Environment, out: seq<Node>, results: seq<ImageResult>, i: nat)
    requires Processed(fragment, env, out, results, i) && i < |fragment| && !fragment[i].Img?
    ensures Processed(fragment, env, out + [fragment[i]], results, i + 1)
  {
    assert fragment[..i + 1][..i] == fragment[..i];
    var out' := out + [fragment[i]];
    forall j | 0 <= j < i + 1 && fragment[j].Img?
      ensures ImageCount(fragment[..j]) < |results|
      ensures (out'[j], results[ImageCount(fragment[..j])]) == InlineImage(env, ImageCount(fragment[..j]), fragment[j].attrs)
    {
      assert out'[j] == out[j];
    }
  }

  /** Inlining image `i` keeps the outcomes of the earlier images and adds its own. */
  lemma ImageStepKeeps(fragment: seq<Node>, env: Environment, out: seq<Node>, results: seq<ImageResult>, i: nat,
                       step: (Node, ImageResult))
    requires i < |fragment| && fragment[i].Img? && |out| == i && |results| == ImageCount(fragment[..i])
    requires step == InlineImage(env, |results|, fragment[i].attrs)
    requires forall j :: 0 <= j < i && fragment[j].Img? ==>
               ImageCount(fragment[..j]) < |results|
               && (out[j], results[ImageCount(fragment[..j])]) == InlineImage(env, ImageCount(fragment[..j]), fragment[j].attrs)
    ensures forall j :: 0 <= j < i + 1 && fragment[j].Img? ==>
              ImageCount(fragment[..j]) < |results + [step.1]|
              && ((out + [step.0])[j], (results + [step.1])[ImageCount(fragment[..j])])
                 == InlineImage(env, ImageCount(fragment[..j]), fragment[j].attrs)
  {
    forall j | 0 <= j < i + 1 && fragment[j].Img?
      ensures ImageCount(fragment[..j]) < |results + [step.1]|
      ensures ((out + [step.0])[j], (results + [step.1])[ImageCount(fragment[..j])])
              == InlineImage(env, ImageCount(fragment[..j]), fragment[j].attrs)
    {
      if j < i {
        var c := ImageCount(fragment[..j]);
        assert (out + [step.0])[j] == out[j];
        assert (results + [step.1])[c] == results[c];
      } else {
        assert (out + [step.0])[j] == step.0;
      }
    }
  }

  /** The successful outcomes: `results.filter(r => r.status === 'fulfilled' && r.value.success).length`. */
  method CountSuccessful(results: seq<ImageResult>) returns (n: nat)
    ensures n == CountSuccesses(results)
  {
    n := 0;
    var k := 0;
    while k < |results|
      invariant 0 <= k <= |results|
      invariant n == CountSuccesses(results[..k])
    {
      assert results[..k + 1][..k] == results[..k];
      if results[k].success { n := n + 1; }
      k := k + 1;
    }
    assert results[..k] == results;
  }

  lemma InlinedFragmentPointwise(fragment: seq<Node>, env: Environment, out: seq<Node>, results: seq<ImageResult>)
    requires |out| == |fragment|
    requires forall i :: 0 <= i < |fragment| && !fragment[i].Img? ==> out[i] == fragment[i]
    requires forall i :: 0 <= i < |fragment| && fragment[i].Img? ==>
              ImageCount(fragment[..i]) < |results|
              && (out[i], results[ImageCount(fragment[..i])]) == InlineImage(env, ImageCount(fragment[..i]), fragment[i].attrs)
    ensures out == InlinedFragment(fragment, env)
  {
    var r := InlinedFragment(fragment, env);
    forall i | 0 <= i < |fragment|
      ensures out[i] == r[i]
    {
      if fragment[i].Img? {
        assert out[i] == InlineImage(env, ImageCount(fragment[..i]), fragment[i].attrs).0;
      }
    }
  }
}
