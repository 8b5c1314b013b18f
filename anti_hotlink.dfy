/**
 * `bypassAntiHotlink` of content.js: one pass over the page's images that
 * promotes `data-src`, pins a referrer policy and the CDN parameters on
 * WeChat images, and installs a one-shot error handler that retries the load
 * once. The `dataset` flags make every step happen at most once per image.
 *
 * Images are objects updated in place; the pure functions `BypassOne` and
 * `OnError` state what one pass and one `error` event do to an image.
 */
module AntiHotlink {
  import opened Wrappers
  import opened JsStrings
  import opened StringOps
  import opened Compute

  /** The part of an image element the pass reads and writes ('' is an absent attribute, `false` an absent flag). */
  datatype ImageState = ImageState(
    src: JsString,             // the `src` property
    dataSrc: JsString,         // `dataset.src`
    referrerPolicy: JsString,  // the `referrerpolicy` attribute
    wechatProcessed: bool,     // `dataset.wechatProcessed`
    urlFixed: bool,            // `dataset.urlFixed`
    errorHandlerAdded: bool,   // `dataset.errorHandlerAdded`
    retryAttempted: bool,      // `dataset.retryAttempted`
    errorListener: bool)       // the `{once: true}` error listener is registered and has not fired

  const QuestionMark: CodeUnit := 0x3F

  /** `src.includes('mmbiz.qpic.cn')` on the whole address string. */
  predicate IsWechatSrc(src: JsString) { src != [] && Contains(src, CdnHost) }

  /** The referrer policy and URL fix of a WeChat image. */
  function FixWechatImage(s: ImageState, e: Engine, c: UrlCodec): (r: ImageState)
    ensures r.(src := s.src, referrerPolicy := s.referrerPolicy, urlFixed := s.urlFixed) == s
  {
    var t := if s.referrerPolicy == [] then s.(referrerPolicy := Scalar(e, c, Referrer, s.src)) else s;
    if t.urlFixed then t
    else
      var newSrc := Scalar(e, c, Normalize, t.src);
      if newSrc != [] && newSrc != t.src then t.(urlFixed := true, src := newSrc) else t.(urlFixed := true)
  }

  /** What one pass of `bypassAntiHotlink` does to one image. */
  function BypassOne(s: ImageState, e: Engine, c: UrlCodec): ImageState {
    if s.wechatProcessed then s
    else
      var s1 := s.(wechatProcessed := true);
      var s2 := if s1.dataSrc != [] && s1.src == [] then s1.(src := s1.dataSrc) else s1;
      var s3 := if IsWechatSrc(s2.src) then FixWechatImage(s2, e, c) else s2;
      if s3.errorHandlerAdded then s3 else s3.(errorHandlerAdded := true, errorListener := true)
  }

  /** What the `error` event does: the listener fires once and retries a WeChat image at most once. */
  function OnError(s: ImageState): ImageState {
    if !s.errorListener then s
    else
      var s1 := s.(errorListener := false);
      if IsWechatSrc(s1.src) && !s1.retryAttempted then
        var s2 := s1.(retryAttempted := true, referrerPolicy := []);
        if s2.dataSrc != [] && s2.dataSrc != s2.src then s2.(src := s2.dataSrc)
        else s2.(src := Split(s2.src, QuestionMark)[0])
      else s1
  }

  /** A second pass changes nothing: the first one marks the image processed. */
  lemma BypassIdempotent(s: ImageState, e: Engine, c: UrlCodec)
    ensures BypassOne(s, e, c).wechatProcessed
    ensures BypassOne(BypassOne(s, e, c), e, c) == BypassOne(s, e, c)
    ensures s.wechatProcessed ==> BypassOne(s, e, c) == s
  {
  }

  /**
   * One pass keeps `data-src`, the retry flag and an existing
   * `referrerpolicy`, and leaves the error handler installed at most once
   * over the image's lifetime.
   */
  lemma BypassOneKeeps(s: ImageState, e: Engine, c: UrlCodec)
    requires !s.wechatProcessed
    ensures var r := BypassOne(s, e, c);
            && r.dataSrc == s.dataSrc && r.retryAttempted == s.retryAttempted
            && (s.referrerPolicy != [] ==> r.referrerPolicy == s.referrerPolicy)
            && r.errorHandlerAdded
            && (s.errorHandlerAdded ==> r.errorListener == s.errorListener)
  {
    var s1 := s.(wechatProcessed := true);
    var s2 := if s1.dataSrc != [] && s1.src == [] then s1.(src := s1.dataSrc) else s1;
    assert s2.dataSrc == s.dataSrc && s2.retryAttempted == s.retryAttempted && s2.referrerPolicy == s.referrerPolicy
        && s2.errorHandlerAdded == s.errorHandlerAdded && s2.errorListener == s.errorListener;
    var s3 := if IsWechatSrc(s2.src) then FixWechatImage(s2, e, c) else s2;
    FixWechatImageFacts(s2, e, c);
    assert s3.dataSrc == s.dataSrc && s3.retryAttempted == s.retryAttempted
        && (s.referrerPolicy != [] ==> s3.referrerPolicy == s.referrerPolicy)
        && s3.errorHandlerAdded == s.errorHandlerAdded && s3.errorListener == s.errorListener;
    assert BypassOne(s, e, c) == if s3.errorHandlerAdded then s3 else s3.(errorHandlerAdded := true, errorListener := true);
  }

  /**
   * `data-src` fills an empty `src`; an image whose address is not a WeChat
   * one gets no referrer policy and no URL fix.
   */
  lemma BypassOneNonWechat(s: ImageState, e: Engine, c: UrlCodec)
    requires !s.wechatProcessed
    requires !IsWechatSrc(if s.src == [] then s.dataSrc else s.src)
    ensures var r := BypassOne(s, e, c);
            && r.src == (if s.src == [] then s.dataSrc else s.src)
            && r.referrerPolicy == s.referrerPolicy && r.urlFixed == s.urlFixed
  {
  }

  /**
   * The URL fix of a WeChat image: when it was not yet fixed, the flag is set
   * and `src` becomes the normalised address unless that is '' or the same;
   * an already fixed image keeps its `src`.
   */
  lemma FixWechatImageFacts(s: ImageState, e: Engine, c: UrlCodec)
    ensures var r := FixWechatImage(s, e, c);
            && r.urlFixed
            && (s.urlFixed ==> r.src == s.src)
            && (!s.urlFixed ==> var n := Scalar(e, c, Normalize, s.src);
                                r.src == (if n != [] && n != s.src then n else s.src))
            && (s.referrerPolicy == [] ==> r.referrerPolicy == Scalar(e, c, Referrer, s.src))
            && (s.referrerPolicy != [] ==> r.referrerPolicy == s.referrerPolicy)
  {
  }

  /**
   * The retry: only for a WeChat `src` not yet retried and with the listener
   * still armed; it drops `referrerpolicy` and switches to `data-src` when
   * that differs, else to the address without its query.
   */
  lemma OnErrorFacts(s: ImageState)
    ensures var r := OnError(s);
            && !r.errorListener
            && (r.src != s.src ==> s.errorListener && IsWechatSrc(s.src) && !s.retryAttempted && r.retryAttempted)
            && (s.errorListener && IsWechatSrc(s.src) && !s.retryAttempted ==>
                  r.referrerPolicy == [] && r.retryAttempted
                  && r.src == (if s.dataSrc != [] && s.dataSrc != s.src then s.dataSrc else Split(s.src, QuestionMark)[0])
                  && QuestionMark !in (if s.dataSrc != [] && s.dataSrc != s.src then [] else r.src))
  {
    SplitPiecesFree(s.src, QuestionMark);
  }

  /** A second `error` event is ignored. */
  lemma OnErrorOnce(s: ImageState)
    ensures OnError(OnError(s)) == OnError(s)
  {
  }

  // ----- any interleaving of passes and load errors -----

  datatype Event = Pass | LoadError

  function Step(s: ImageState, ev: Event, e: Engine, c: UrlCodec): ImageState {
    match ev
    case Pass => BypassOne(s, e, c)
    case LoadError => OnError(s)
  }

  function Run(s: ImageState, evs: seq<Event>, e: Engine, c: UrlCodec): ImageState
    decreases |evs|
  {
    if evs == [] then s else Run(Step(s, evs[0], e, c), evs[1..], e, c)
  }

  /** The number of retries along a run. */
  function Retries(s: ImageState, evs: seq<Event>, e: Engine, c: UrlCodec): nat
    decreases |evs|
  {
    if evs == [] then 0
    else
      var t := Step(s, evs[0], e, c);
      (if !s.retryAttempted && t.retryAttempted then 1 else 0) + Retries(t, evs[1..], e, c)
  }

  /** The number of URL normalisations along a run. */
  function Normalisations(s: ImageState, evs: seq<Event>, e: Engine, c: UrlCodec): nat
    decreases |evs|
  {
    if evs == [] then 0
    else
      var t := Step(s, evs[0], e, c);
      (if !s.urlFixed && t.urlFixed then 1 else 0) + Normalisations(t, evs[1..], e, c)
  }

  /** No step clears a flag. */
  lemma StepKeepsFlags(s: ImageState, ev: Event, e: Engine, c: UrlCodec)
    ensures var t := Step(s, ev, e, c);
            (s.retryAttempted ==> t.retryAttempted) && (s.urlFixed ==> t.urlFixed)
            && (s.wechatProcessed ==> t.wechatProcessed) && (s.errorHandlerAdded ==> t.errorHandlerAdded)
  {
  }

  /** However passes and load errors interleave, an image is retried at most once. */
  lemma {:induction false} AtMostOneRetry(s: ImageState, evs: seq<Event>, e: Engine, c: UrlCodec)
    ensures Retries(s, evs, e, c) <= (if s.retryAttempted then 0 else 1)
    decreases |evs|
  {
    if evs != [] {
      var t := Step(s, evs[0], e, c);
      StepKeepsFlags(s, evs[0], e, c);
      AtMostOneRetry(t, evs[1..], e, c);
    }
  }

  /** However passes and load errors interleave, an image's URL is normalised at most once. */
  lemma {:induction false} AtMostOneNormalisation(s: ImageState, evs: seq<Event>, e: Engine, c: UrlCodec)
    ensures Normalisations(s, evs, e, c) <= (if s.urlFixed then 0 else 1)
    decreases |evs|
  {
    if evs != [] {
      var t := Step(s, evs[0], e, c);
      StepKeepsFlags(s, evs[0], e, c);
      AtMostOneNormalisation(t, evs[1..], e, c);
    }
  }

  // ----- the page objects -----

  class ImageElement {
    var src: JsString
    var dataSrc: JsString
    var referrerPolicy: JsString
    var wechatProcessed: bool
    var urlFixed: bool
    var errorHandlerAdded: bool
    var retryAttempted: bool
    var errorListener: bool

    /** An image as the page delivers it: none of the pass's flags set, no listener. */
    constructor(src: JsString, dataSrc: JsString, referrerPolicy: JsString)
      ensures State() == ImageState(src, dataSrc, referrerPolicy, false, false, false, false, false)
    {
      this.src := src;
      this.dataSrc := dataSrc;
      this.referrerPolicy := referrerPolicy;
      wechatProcessed := false;
      urlFixed := false;
      errorHandlerAdded := false;
      retryAttempted := false;
      errorListener := false;
    }

    function State(): ImageState
      reads this
    {
      ImageState(src, dataSrc, referrerPolicy, wechatProcessed, urlFixed, errorHandlerAdded, retryAttempted, errorListener)
    }

    /** The body of the `images.forEach` callback. */
    method Bypass(e: Engine, c: UrlCodec)
      modifies this
      ensures State() == BypassOne(old(State()), e, c)
    {
      if wechatProcessed {
        return;
      }
      wechatProcessed := true;
      if dataSrc != [] && src == [] {
        src := dataSrc;
      }
      if IsWechatSrc(src) {
        FixWechat(e, c);
      }
      if !errorHandlerAdded {
        errorHandlerAdded := true;
        errorListener := true;
      }
    }

    /** The referrer policy and the one-time URL fix of a WeChat image. */
    method FixWechat(e: Engine, c: UrlCodec)
      modifies this
      ensures State() == FixWechatImage(old(State()), e, c)
    {
      var policy := Scalar(e, c, Referrer, src);
      if referrerPolicy == [] {
        referrerPolicy := policy;
      }
      var currentSrc := src;
      if !urlFixed {
        urlFixed := true;
        var newSrc := Scalar(e, c, Normalize, currentSrc);
        if newSrc != [] && newSrc != currentSrc {
          src := newSrc;
        }
      }
    }

    /** An `error` event on the image. */
    method FireError()
      modifies this
      ensures State() == OnError(old(State()))
    {
      if !errorListener {
        return;
      }
      errorListener := false;
      if IsWechatSrc(src) && !retryAttempted {
        retryAttempted := true;
        referrerPolicy := [];
        if dataSrc != [] && dataSrc != src {
          src := dataSrc;
        } else {
          var baseUrl := Split(src, QuestionMark)[0];
          src := baseUrl;
        }
      }
    }
  }

  const ReferrerMetaContent: JsString := NoReferrerWhenDowngrade

  class Page {
    /** The `content` of `<meta name="referrer">`, if the page has one. */
    var referrerMeta: Option<JsString>
    /** `document.querySelectorAll('img')`, in document order. */
    var images: seq<ImageElement>

    /**
     * `bypassAntiHotlink()`: a referrer meta tag is added only when there is
     * none, and every image goes through `BypassOne`; nothing else changes.
     */
    method BypassAntiHotlink(e: Engine, c: UrlCodec)
      requires forall i, j :: 0 <= i < j < |images| ==> images[i] != images[j]
      modifies this, images
      ensures images == old(images)
      ensures referrerMeta == (if old(referrerMeta).None? then Some(ReferrerMetaContent) else old(referrerMeta))
      ensures forall i :: 0 <= i < |images| ==> images[i].State() == BypassOne(old(images[i].State()), e, c)
    {
      if referrerMeta.None? {
        referrerMeta := Some(ReferrerMetaContent);
      }
      var i := 0;
      while i < |images|
        invariant 0 <= i <= |images|
        invariant images == old(images)
        invariant referrerMeta == (if old(referrerMeta).None? then Some(ReferrerMetaContent) else old(referrerMeta))
        invariant forall j :: 0 <= j < i ==> images[j].State() == BypassOne(old(images[j].State()), e, c)
        invariant forall j :: i <= j < |images| ==> images[j].State() == old(images[j].State())
      {
        images[i].Bypass(e, c);
        i := i + 1;
      }
    }
  }
}
