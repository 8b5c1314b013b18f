/**
 * The `Compute` facade of wasmLoader.js: each operation tries the WASM
 * export through the direct string-to-string convention, then through the
 * linear-memory convention, and finally falls back to the reference
 * implementation in `StringOps`. The batch helpers prefer a "joined" export
 * that receives the list joined with U+0001.
 *
 * The WASM module is described by what its exports return, so the engine
 * state (not loaded / loaded with these exports) is a parameter.
 */
module Compute {
  import opened Wrappers
  import opened JsStrings
  import opened StringOps

  /** The six scalar operations; each has one export (`normalize_image_url`, ...). */
  datatype Op = Normalize | Referrer | Sanitize | EscapeHtmlOp | EscapeAttrOp | EnsureCdnParams

  /** The result of calling an export as `f(string)`. */
  datatype Returned = ReturnedString(s: JsString) | ReturnedOther | Threw

  /** The result of calling an export as `f(in_ptr, in_len, out_ptr_ptr, out_len_ptr)`. */
  datatype Written = Output(outPtr: nat, decoded: JsString) | Trapped

  /** One exported function, as seen through both calling conventions. */
  datatype Export = Export(direct: JsString -> Returned, linear: JsString -> Written)

  /**
   * The exports object: the scalar exports that are functions, whether
   * `memory`, `alloc` and `dealloc` are all present, and the joined batch exports.
   */
  datatype Exports = Exports(fns: map<Op, Export>, hasLinearAbi: bool, joined: map<BatchOp, JsString -> Returned>)

  /** `state`: `ready` is true exactly when an exports object is present. */
  datatype Engine = NotLoaded | Loaded(exports: Exports)

  /** The reference result (`js.*`). */
  function Reference(c: UrlCodec, op: Op, x: JsString): JsString {
    match op
    case Normalize => NormalizeImageUrl(c, x)
    case Referrer => DecideReferrerPolicy(c, x)
    case Sanitize => SanitizeFilename(x)
    case EscapeHtmlOp => EscapeAll(x, false)
    case EscapeAttrOp => EscapeAll(x, true)
    case EnsureCdnParams => EnsureWechatCdnParams(c, x)
  }

  /** `makeDirectStringFn`: a string only when ready, exported, and the call returns a string. */
  function DirectTier(e: Engine, op: Op, x: JsString): (r: Option<JsString>)
    ensures r.Some? <==> e.Loaded? && op in e.exports.fns && e.exports.fns[op].direct(x).ReturnedString?
    ensures r.Some? ==> r.value == e.exports.fns[op].direct(x).s
  {
    if e.NotLoaded? || op !in e.exports.fns then None
    else match e.exports.fns[op].direct(x)
      case ReturnedString(s) => Some(s)
      case _ => None
  }

  /** `makeWasmStringFn`: the decoded output, or '' when the output pointer is 0. */
  function MemoryTier(e: Engine, op: Op, x: JsString): (r: Option<JsString>)
    ensures r.Some? <==> e.Loaded? && e.exports.hasLinearAbi && op in e.exports.fns && e.exports.fns[op].linear(x).Output?
    ensures r.Some? ==> var w := e.exports.fns[op].linear(x);
                        r.value == if w.outPtr == 0 then [] else w.decoded
  {
    if e.NotLoaded? || !e.exports.hasLinearAbi || op !in e.exports.fns then None
    else match e.exports.fns[op].linear(x)
      case Output(p, s) => Some(if p == 0 then [] else s)
      case Trapped => None
  }

  /** The escapers accept an empty WASM result; the other operations treat '' as "no result". */
  predicate AcceptsEmpty(op: Op) { op == EscapeHtmlOp || op == EscapeAttrOp }

  predicate Usable(op: Op, r: Option<JsString>) { r.Some? && (AcceptsEmpty(op) || r.value != []) }

  /** `Compute.<op>(x)` */
  function Scalar(e: Engine, c: UrlCodec, op: Op, x: JsString): JsString {
    var d := DirectTier(e, op, x);
    if Usable(op, d) then d.value
    else
      var m := MemoryTier(e, op, x);
      if Usable(op, m) then m.value else Reference(c, op, x)
  }

  /** Before the WASM module has loaded (or when it cannot load) the facade is the reference. */
  lemma NotLoadedIsReference(c: UrlCodec, op: Op, x: JsString)
    ensures Scalar(NotLoaded, c, op, x) == Reference(c, op, x)
  {
  }

  /** An operation the module does not export also falls back to the reference. */
  lemma MissingExportIsReference(ex: Exports, c: UrlCodec, op: Op, x: JsString)
    requires op !in ex.fns
    ensures Scalar(Loaded(ex), c, op, x) == Reference(c, op, x)
  {
  }

  /**
   * Outside the escapers, an empty WASM answer never surfaces: the facade
   * returns '' only when the reference itself does.
   */
  lemma EmptyResultOnlyFromReference(e: Engine, c: UrlCodec, op: Op, x: JsString)
    requires !AcceptsEmpty(op)
    ensures Scalar(e, c, op, x) == [] ==> Reference(c, op, x) == []
  {
  }

  /** A string from the direct convention wins over the other tiers when it is usable. */
  lemma DirectResultWins(ex: Exports, c: UrlCodec, op: Op, x: JsString, s: JsString)
    requires op in ex.fns && ex.fns[op].direct(x) == ReturnedString(s)
    requires s != [] || AcceptsEmpty(op)
    ensures Scalar(Loaded(ex), c, op, x) == s
  {
  }

  /** The memory convention is used only when the direct one gave nothing usable. */
  lemma MemoryResultSecond(ex: Exports, c: UrlCodec, op: Op, x: JsString)
    requires Scalar(Loaded(ex), c, op, x) != Reference(c, op, x)
    requires !Usable(op, DirectTier(Loaded(ex), op, x))
    ensures ex.hasLinearAbi && op in ex.fns && ex.fns[op].linear(x).Output?
    ensures Scalar(Loaded(ex), c, op, x) == MemoryTier(Loaded(ex), op, x).value
  {
  }

  /**
   * A direct export that agrees with the reference gives the reference answer,
   * unless that answer is '' for an operation that rejects '': then the
   * memory convention is consulted and may answer differently.
   */
  lemma AgreeingModuleIsReference(ex: Exports, c: UrlCodec, op: Op, x: JsString)
    requires op in ex.fns && ex.fns[op].direct(x) == ReturnedString(Reference(c, op, x))
    requires Reference(c, op, x) != [] || AcceptsEmpty(op)
    ensures Scalar(Loaded(ex), c, op, x) == Reference(c, op, x)
  {
  }

  // ----- batch helpers -----

  datatype BatchOp = NormalizeMany | SanitizeMany | EscapeHtmlMany | EscapeAttrMany

  function ScalarOf(b: BatchOp): Op {
    match b
    case NormalizeMany => Normalize
    case SanitizeMany => Sanitize
    case EscapeHtmlMany => EscapeHtmlOp
    case EscapeAttrMany => EscapeAttrOp
  }

  /** The batch argument: `Array.isArray(list)` fails, or a list of strings. */
  datatype ListArg = NotArray | List(items: seq<JsString>)

  /** The separator U+0001. */
  const Sep: CodeUnit := 0x01

  function JoinedTier(e: Engine, b: BatchOp, joined: JsString): (r: Option<JsString>)
    ensures r.Some? <==> e.Loaded? && b in e.exports.joined && e.exports.joined[b](joined).ReturnedString?
  {
    if e.NotLoaded? || b !in e.exports.joined then None
    else match e.exports.joined[b](joined)
      case ReturnedString(s) => Some(s)
      case _ => None
  }

  /** `list.map(x => this.<op>(x))` */
  function MapScalar(e: Engine, c: UrlCodec, op: Op, xs: seq<JsString>): (r: seq<JsString>)
    ensures |r| == |xs|
    ensures forall i :: 0 <= i < |xs| ==> r[i] == Scalar(e, c, op, xs[i])
    decreases |xs|
  {
    if xs == [] then [] else [Scalar(e, c, op, xs[0])] + MapScalar(e, c, op, xs[1..])
  }

  /** `Compute.normalizeImageUrls(list)` and its three siblings, as written. */
  function Batch(e: Engine, c: UrlCodec, b: BatchOp, arg: ListArg): (r: seq<JsString>)
    ensures arg.NotArray? ==> r == []
  {
    match arg
    case NotArray => []
    case List(xs) =>
      var out := JoinedTier(e, b, Join(xs, [Sep]));
      if out.Some? then Split(out.value, Sep) else MapScalar(e, c, ScalarOf(b), xs)
  }

  /** Without a joined export (or when it does not return a string) the batch is the scalar map. */
  lemma BatchWithoutJoinedIsMap(e: Engine, c: UrlCodec, b: BatchOp, xs: seq<JsString>)
    requires JoinedTier(e, b, Join(xs, [Sep])).None?
    ensures |Batch(e, c, b, List(xs))| == |xs|
    ensures forall i :: 0 <= i < |xs| ==> Batch(e, c, b, List(xs))[i] == Scalar(e, c, ScalarOf(b), xs[i])
  {
  }

  /** The joined export returns the pointwise answers joined with the separator. */
  predicate PointwiseJoined(e: Engine, c: UrlCodec, b: BatchOp, xs: seq<JsString>) {
    e.Loaded? && b in e.exports.joined
    && e.exports.joined[b](Join(xs, [Sep])) == ReturnedString(Join(MapScalar(e, c, ScalarOf(b), xs), [Sep]))
  }

  /**
   * Batch/scalar equivalence: a pointwise joined export gives the scalar map,
   * provided the list is not empty and no answer contains the separator.
   */
  lemma BatchJoinedIsMap(e: Engine, c: UrlCodec, b: BatchOp, xs: seq<JsString>)
    requires PointwiseJoined(e, c, b, xs)
    requires |xs| >= 1
    requires forall i :: 0 <= i < |xs| ==> Sep !in Scalar(e, c, ScalarOf(b), xs[i])
    ensures Batch(e, c, b, List(xs)) == MapScalar(e, c, ScalarOf(b), xs)
  {
    SplitJoin(MapScalar(e, c, ScalarOf(b), xs), Sep);
  }

  /** The joined export that echoes its argument. */
  function EchoEngine(b: BatchOp): Engine {
    Loaded(Exports(map[], false, map[b := (s: JsString) => ReturnedString(s)]))
  }

  /**
   * The separator is not escaped: one input holding U+0001 ("a\u0001b") comes
   * back as two elements from an export that merely echoes its input.
   */
  lemma BatchSeparatorInInput(c: UrlCodec, b: BatchOp)
    ensures |Batch(EchoEngine(b), c, b, List([[0x61, Sep, 0x62]]))| == 2
  {
    var x: JsString := [0x61, Sep, 0x62];
    assert Join([x], [Sep]) == x;
    assert x == [0x61] + [Sep] + [0x62];
    SplitAfterPiece([0x61], Sep, [0x62]);
    SplitNoSep([0x62], Sep);
  }

  /**
   * As written, an empty list sent through a joined export comes back as one
   * element: `[].join(SEP)` is '' and `''.split(SEP)` is `['']`.
   */
  lemma BatchEmptyListAsWritten(e: Engine, c: UrlCodec, b: BatchOp)
    requires JoinedTier(e, b, []).Some? && Sep !in JoinedTier(e, b, []).value
    ensures Batch(e, c, b, List([])) == [JoinedTier(e, b, []).value]
    ensures |Batch(e, c, b, List([]))| == 1
  {
    SplitNoSep(JoinedTier(e, b, []).value, Sep);
  }

  /** The batch helper with the empty list answered by the scalar map. */
  function BatchCorrected(e: Engine, c: UrlCodec, b: BatchOp, arg: ListArg): (r: seq<JsString>)
    ensures arg.NotArray? ==> r == []
    ensures arg.List? && arg.items == [] ==> r == []
  {
    match arg
    case NotArray => []
    case List(xs) =>
      var out := if xs == [] then None else JoinedTier(e, b, Join(xs, [Sep]));
      if out.Some? then Split(out.value, Sep) else MapScalar(e, c, ScalarOf(b), xs)
  }

  /** With the correction, a pointwise joined export agrees with the scalar map on every list. */
  lemma BatchCorrectedIsMap(e: Engine, c: UrlCodec, b: BatchOp, xs: seq<JsString>)
    requires PointwiseJoined(e, c, b, xs)
    requires forall i :: 0 <= i < |xs| ==> Sep !in Scalar(e, c, ScalarOf(b), xs[i])
    ensures BatchCorrected(e, c, b, List(xs)) == MapScalar(e, c, ScalarOf(b), xs)
  {
    if xs != [] {
      SplitJoin(MapScalar(e, c, ScalarOf(b), xs), Sep);
    }
  }
}
