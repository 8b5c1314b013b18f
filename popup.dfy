/**
 * The licence panel of the popup (popup.js): the storage wrapper's
 * localStorage fallback, the friendly error messages, the status line, and
 * the activate / validate / deactivate handlers with their failure counter.
 *
 * The licence server is an oracle: a handler is given the `Reply` to the
 * request it makes. `JSON.parse`/`JSON.stringify` are oracles of the storage
 * methods. Values of a storage read are generic (`V`).
 */
module Popup {
  import opened Wrappers
  import opened JsStrings

  // ----- the localStorage fallback of `storage` -----

  /** `localStorage.getItem(k)` for a stored key, else `defaults[k]`; a stored text is `JSON.parse`d, kept raw when it does not parse. */
  function StoredOrDefault<V>(items: map<JsString, JsString>, defaults: map<JsString, V>,
                              parse: JsString -> Option<V>, raw: JsString -> V, k: JsString): V
    requires k in defaults
  {
    if k !in items then defaults[k]
    else match parse(items[k])
      case Some(v) => v
      case None => raw(items[k])
  }

  /** What `storage.get(defaults)` resolves to: exactly the keys of `defaults`. */
  function GetSpec<V>(items: map<JsString, JsString>, defaults: map<JsString, V>,
                      parse: JsString -> Option<V>, raw: JsString -> V): (out: map<JsString, V>)
    ensures out.Keys == defaults.Keys
  {
    map k | k in defaults :: StoredOrDefault(items, defaults, parse, raw, k)
  }

  /** The text `storage.set` stores for a value: `JSON.stringify(v)`, else `String(v)` when that throws. */
  function Serialized<V>(stringify: V -> Option<JsString>, text: V -> JsString, v: V): JsString {
    match stringify(v)
    case Some(s) => s
    case None => text(v)
  }

  function SetSpec<V>(items: map<JsString, JsString>, entries: map<JsString, V>,
                      stringify: V -> Option<JsString>, text: V -> JsString): (r: map<JsString, JsString>)
    ensures r.Keys == items.Keys + entries.Keys
    ensures forall k :: k in items && k !in entries ==> r[k] == items[k]
  {
    items + map k | k in entries :: Serialized(stringify, text, entries[k])
  }

  /** A value written whose text parses back to it is read back as itself. */
  lemma SetThenGet<V>(items: map<JsString, JsString>, entries: map<JsString, V>, defaults: map<JsString, V>,
                      stringify: V -> Option<JsString>, text: V -> JsString,
                      parse: JsString -> Option<V>, raw: JsString -> V, k: JsString)
    requires k in entries && k in defaults
    requires stringify(entries[k]).Some? && parse(stringify(entries[k]).value) == Some(entries[k])
    ensures GetSpec(SetSpec(items, entries, stringify, text), defaults, parse, raw)[k] == entries[k]
  {
    var after := SetSpec(items, entries, stringify, text);
    assert after[k] == stringify(entries[k]).value;
  }

  /** A removed key reads as its default again. */
  lemma RemoveThenDefault<V>(items: map<JsString, JsString>, keys: seq<JsString>, defaults: map<JsString, V>,
                             parse: JsString -> Option<V>, raw: JsString -> V, k: JsString)
    requires k in keys && k in defaults
    ensures GetSpec(items - (set x | x in keys), defaults, parse, raw)[k] == defaults[k]
  {
    assert k in set x | x in keys;
  }

  /** The browser's localStorage, as the popup uses it when `chrome.storage.sync` is absent. */
  class LocalStorage {
    var items: map<JsString, JsString>

    constructor(items: map<JsString, JsString>)
      ensures this.items == items
    {
      this.items := items;
    }

    /** `storage.get(defaults)`, one key of `defaults` at a time. */
    method Get<V>(defaults: map<JsString, V>, parse: JsString -> Option<V>, raw: JsString -> V)
      returns (out: map<JsString, V>)
      ensures out == GetSpec(items, defaults, parse, raw)
    {
      out := map[];
      var keys := defaults.Keys;
      while keys != {}
        invariant keys <= defaults.Keys
        invariant out.Keys == defaults.Keys - keys
        invariant forall k :: k in out ==> out[k] == StoredOrDefault(items, defaults, parse, raw, k)
        decreases keys
      {
        var k :| k in keys;
        if k !in items {
          out := out[k := defaults[k]];
        } else {
          var v := items[k];
          match parse(v) {
            case Some(p) => out := out[k := p];
            case None => out := out[k := raw(v)];
          }
        }
        keys := keys - {k};
      }
    }

    /** `storage.set(entries)`, one entry at a time. */
    method Set<V>(entries: map<JsString, V>, stringify: V -> Option<JsString>, text: V -> JsString)
      modifies this
      ensures items == SetSpec(old(items), entries, stringify, text)
    {
      var keys := entries.Keys;
      while keys != {}
        invariant keys <= entries.Keys
        invariant items.Keys == old(items).Keys + (entries.Keys - keys)
        invariant forall k :: k in items ==>
                    items[k] == if k in entries && k !in keys then Serialized(stringify, text, entries[k]) else old(items)[k]
        decreases keys
      {
        var k :| k in keys;
        match stringify(entries[k]) {
          case Some(s) => items := items[k := s];
          case None => items := items[k := text(entries[k])];
        }
        keys := keys - {k};
      }
    }

    /** `storage.remove(keys)`; a single key is passed as a one-element list. */
    method Remove(keys: seq<JsString>)
      modifies this
      ensures items == old(items) - set k | k in keys
    {
      var i := 0;
      while i < |keys|
        invariant 0 <= i <= |keys|
        invariant items == old(items) - set k | k in keys[..i]
      {
        items := items - {keys[i]};
        assert keys[..i + 1] == keys[..i] + [keys[i]];
        i := i + 1;
      }
      assert keys[..i] == keys;
    }
  }

  // ----- friendlyError -----

  /** The value caught: an `Error`'s `name` and `String(message || '')`; the `{res, data}` object thrown by a handler has neither. */
  datatype Caught = Caught(name: JsString, message: JsString)

  const Thrown: Caught := Caught([], [])

  datatype HttpResponse = HttpResponse(ok: bool, status: int)

  /**
   * The parsed JSON body (`{}` when it does not parse), always an object: a
   * body that parses to `null` is not a `ReplyData` but a `Threw` reply,
   * because reading `data.error` on it throws. Its fields: the text of a truthy
   * `error` ('' when it is absent or falsy), whether the handler's flag
   * (`activated`, `valid` or `deactivated`) is `=== false`, `instance?.id`
   * and `meta?.customer_email` ('' when absent).
   */
  datatype ReplyData = ReplyData(error: JsString, refused: bool, instanceId: JsString, customerEmail: JsString)

  const TypeErrorName: JsString := [0x54, 0x79, 0x70, 0x65, 0x45, 0x72, 0x72, 0x6F, 0x72]  // "TypeError"
  const FetchWord: JsString := [0x66, 0x65, 0x74, 0x63, 0x68]  // "fetch"
  const FailedSep: JsString := [0x5931, 0x8D25, 0xFF1A]  // "失败："

  const NetworkMsg: JsString := Bmp("网络连接异常，请检查网络或稍后重试。若您尚未提供代理域名，此为预期现象。")
  const NoServiceMsg: JsString := Bmp("无法连接到服务，请检查网络或代理是否已部署。")
  const UnauthorizedMsg: JsString := Bmp("代理未授权或 API Key 配置有误。请稍后使用我提供的正式代理域名再试。")
  const InvalidLicenseMsg: JsString := Bmp("许可证无效或实例不匹配：请确认密钥是否正确。如更换设备，请先“解绑”后在新设备“激活”。")
  const RateLimitedMsg: JsString := Bmp("请求过于频繁，请 1 分钟后重试。")
  const UnavailableOpen: JsString := Bmp("服务暂不可用（")
  const UnavailableClose: JsString := Bmp("），请稍后重试。")
  const HttpErrorOpen: JsString := Bmp("发生错误（HTTP ")
  const HttpErrorClose: JsString := Bmp("）。")
  const UnknownMsg: JsString := Bmp("未知错误")

  /** `err.name === 'TypeError' && String(err.message || '').includes('fetch')` */
  predicate IsFetchTypeError(err: Caught) {
    err.name == TypeErrorName && Contains(err.message, FetchWord)
  }

  /** The `switch (res.status)` of `friendlyError`. */
  function StatusMessage(res: HttpResponse): JsString {
    if res.status == 401 || res.status == 403 then UnauthorizedMsg
    else if res.status == 422 then InvalidLicenseMsg
    else if res.status == 429 then RateLimitedMsg
    else if res.status == 500 || res.status == 502 || res.status == 503 then
      UnavailableOpen + IntToString(res.status) + UnavailableClose
    else if !res.ok then HttpErrorOpen + IntToString(res.status) + HttpErrorClose
    else UnknownMsg
  }

  /** `friendlyError(action, res, data, err)`: the checks in order, each message after `${action}失败：`. */
  function FriendlyError(action: JsString, res: Option<HttpResponse>, data: Option<ReplyData>, err: Caught): JsString {
    var reason :=
      if IsFetchTypeError(err) then NetworkMsg
      else if res.None? then NoServiceMsg
      else if data.Some? && data.value.error != [] then data.value.error
      else StatusMessage(res.value);
    action + FailedSep + reason
  }

  /** Every message names the action and the failure first. */
  lemma FriendlyErrorPrefix(action: JsString, res: Option<HttpResponse>, data: Option<ReplyData>, err: Caught)
    ensures StartsWith(FriendlyError(action, res, data, err), action + FailedSep)
  {
    var r := FriendlyError(action, res, data, err);
    var reason := r[|action + FailedSep|..];
    assert r == action + FailedSep + reason;
    assert (action + FailedSep + reason)[..|action + FailedSep|] == action + FailedSep;
  }

  lemma ContainsMiddle(a: JsString, b: JsString, c: JsString)
    ensures Contains(a + b + c, b)
  {
    assert (a + b + c)[|a|..|a| + |b|] == b;
    assert OccursAt(a + b + c, b, |a|);
  }

  /**
   * Once the server answered and the failure is not a network `TypeError`,
   * the server's own error text is shown verbatim; without one, every
   * status the table does not word itself (anything but 401, 403, 422 and
   * 429, and not an ok one) is named in the message.
   */
  lemma FriendlyErrorNamesCause(action: JsString, res: HttpResponse, data: ReplyData, err: Caught)
    requires !IsFetchTypeError(err)
    ensures var r := FriendlyError(action, Some(res), Some(data), err);
            && (data.error != [] ==> r == action + FailedSep + data.error)
            && (data.error == [] && res.status !in {401, 403, 422, 429} && (!res.ok || res.status in {500, 502, 503}) ==>
                  Contains(r, IntToString(res.status)))
  {
    var pre := action + FailedSep;
    if data.error == [] && res.status !in {401, 403, 422, 429} && (!res.ok || res.status in {500, 502, 503}) {
      if res.status in {500, 502, 503} {
        assert pre + StatusMessage(res) == (pre + UnavailableOpen) + IntToString(res.status) + UnavailableClose;
        ContainsMiddle(pre + UnavailableOpen, IntToString(res.status), UnavailableClose);
      } else {
        assert pre + StatusMessage(res) == (pre + HttpErrorOpen) + IntToString(res.status) + HttpErrorClose;
        ContainsMiddle(pre + HttpErrorOpen, IntToString(res.status), HttpErrorClose);
      }
    }
  }

  /** A network `TypeError` wins over everything else; otherwise a missing response always reads as "no service". */
  lemma FriendlyErrorOrder(action: JsString, res: Option<HttpResponse>, data: Option<ReplyData>, err: Caught)
    ensures IsFetchTypeError(err) ==> FriendlyError(action, res, data, err) == action + FailedSep + NetworkMsg
    ensures !IsFetchTypeError(err) && res.None? ==> FriendlyError(action, res, data, err) == action + FailedSep + NoServiceMsg
    ensures res.Some? && (res.value.status == 401 || res.value.status == 403) && !IsFetchTypeError(err)
            && (data.None? || data.value.error == []) ==>
              FriendlyError(action, res, data, err) == action + FailedSep + UnauthorizedMsg
  {
  }

  // ----- updateLicenseStatus -----

  const StatusPrefix: JsString := [0x72B6, 0x6001, 0xFF1A]  // "状态："

  /** The text `updateLicenseStatus(text)` puts in the element: prefixed with `状态：` unless it already is. */
  function StatusLine(text: JsString): JsString {
    if StartsWith(text, StatusPrefix) then text else StatusPrefix + text
  }

  /** The shown text starts with the prefix, ends with the given text and adds at most the prefix. */
  lemma StatusLineShape(text: JsString)
    ensures var r := StatusLine(text);
            && StartsWith(r, StatusPrefix)
            && |text| <= |r| && r[|r| - |text|..] == text
            && |r| <= |text| + |StatusPrefix|
  {
    if !StartsWith(text, StatusPrefix) {
      assert (StatusPrefix + text)[..|StatusPrefix|] == StatusPrefix;
      assert (StatusPrefix + text)[|StatusPrefix|..] == text;
    }
  }

  /** Showing a status line again changes nothing, and the prefix is never doubled. */
  lemma StatusLineIdempotent(text: JsString)
    ensures StatusLine(StatusLine(text)) == StatusLine(text)
    ensures StartsWith(text, StatusPrefix) <==> StatusLine(text) == text
  {
    StatusLineShape(text);
    if !StartsWith(text, StatusPrefix) {
      assert |StatusLine(text)| == |text| + |StatusPrefix|;
    }
  }

  // ----- the licence handlers -----

  datatype Action = Activate | Validate | Deactivate

  /** The action word of the messages: 激活, 验证, 解绑. */
  function ActionWord(a: Action): JsString {
    match a
    case Activate => [0x6FC0, 0x6D3B]
    case Validate => [0x9A8C, 0x8BC1]
    case Deactivate => [0x89E3, 0x7ED1]
  }

  /** The licence fields kept in storage (`licenseMeta` is left out). */
  datatype License = License(key: JsString, instanceId: Option<JsString>, valid: bool, statusText: JsString,
                             email: JsString, lastCheckedAt: int, failureCount: int)

  /** The request posted to `${LICENSE_API_BASE}/${action}`. */
  datatype Request = Request(action: Action, key: JsString, instanceId: Option<JsString>, email: JsString)

  /**
   * What came back: `Threw` is whatever the `try` block threw before the
   * reply was checked (`fetch` rejecting, or the TypeError of reading
   * `data.error` when the body parsed to `null`), otherwise a response and
   * its parsed body.
   */
  datatype Reply = Threw(err: Caught) | Answered(res: HttpResponse, data: ReplyData)

  /** The handler's outcome: the request made (if any), the licence stored afterwards and the status text shown. */
  datatype Handled = Handled(request: Option<Request>, after: License, shown: JsString)

  /** `a || b` on strings. */
  function Or(a: JsString, b: JsString): JsString {
    if a != [] then a else b
  }

  /** A string that is `null` when empty. */
  function NullIfEmpty(s: JsString): Option<JsString> {
    if s == [] then None else Some(s)
  }

  /** The reply is not thrown: `res.ok`, no `data.error`, and the flag not `=== false`. */
  predicate Accepted(reply: Reply) {
    reply.Answered? && reply.res.ok && reply.data.error == [] && !reply.data.refused
  }

  const CrossMark: JsString := [0x274C, 0x20]  // "❌ "

  /** The catch block's message: `res` and `data` are destructured from the caught value. */
  function FailureShown(a: Action, reply: Reply): JsString {
    var msg := match reply
      case Threw(err) => FriendlyError(ActionWord(a), None, None, err)
      case Answered(res, data) => FriendlyError(ActionWord(a), Some(res), Some(data), Thrown);
    CrossMark + msg
  }

  /** A failure is shown as the cross mark, then the action's `friendlyError` text. */
  lemma FailureShownPrefix(a: Action, reply: Reply)
    ensures StartsWith(FailureShown(a, reply), CrossMark + ActionWord(a) + FailedSep)
    ensures StartsWith(FailureShown(a, reply), CrossMark)
  {
    var p := ActionWord(a) + FailedSep;
    var msg := FailureShown(a, reply)[|CrossMark|..];
    match reply
    case Threw(err) => FriendlyErrorPrefix(ActionWord(a), None, None, err);
    case Answered(res, data) => FriendlyErrorPrefix(ActionWord(a), Some(res), Some(data), Thrown);
    assert FailureShown(a, reply) == CrossMark + msg;
    assert StartsWith(msg, p);
    assert msg == p + msg[|p|..];
    assert CrossMark + msg == (CrossMark + p) + msg[|p|..];
    assert (CrossMark + msg)[..|CrossMark + p|] == CrossMark + p;
    assert (CrossMark + msg)[..|CrossMark|] == CrossMark;
  }

  const EnterKeyMsg: JsString := Bmp("请输入许可证密钥")
  const EnterKeyFirstMsg: JsString := Bmp("请先输入许可证密钥")
  const MissingInstanceMsg: JsString := Bmp("缺少密钥或实例，无法解绑")
  const ActivatedText: JsString := Bmp("已激活")
  const ActivatedShown: JsString := Bmp("✅ 已激活")
  const ValidText: JsString := Bmp("有效")
  const ValidShown: JsString := [0x2705, 0x20, 0x8BB8, 0x53EF, 0x8BC1, 0x6709, 0x6548]  // "✅ 许可证有效"
  const InvalidText: JsString := Bmp("无效")
  const InactiveText: JsString := Bmp("未激活")
  const DeactivatedShown: JsString := Bmp("✅ 已解绑，可在新设备重新激活")

  /** The activate click: the trimmed key is required; success stores the licence and resets the counter, failure counts. */
  function ActivateSpec(s: License, keyInput: JsString, emailInput: JsString, now: int, reply: Reply): Handled {
    var key := Trim(keyInput);
    var email := Trim(emailInput);
    if key == [] then Handled(None, s, EnterKeyMsg)
    else ActivateReplied(s, key, email, now, reply)
  }

  /** The activate click once its request has left with the trimmed key and email. */
  function ActivateReplied(s: License, key: JsString, email: JsString, now: int, reply: Reply): Handled {
    var req := Some(Request(Activate, key, None, email));
    if Accepted(reply) then
      var stored := License(key, NullIfEmpty(reply.data.instanceId), true, ActivatedText,
                            Or(email, reply.data.customerEmail), now, 0);
      Handled(req, stored, ActivatedShown)
    else Handled(req, s.(failureCount := s.failureCount + 1), FailureShown(Activate, reply))
  }

  /** The key the validate and deactivate clicks use: `(input || stored || '').trim()`. */
  function KeyOf(s: License, keyInput: JsString): JsString {
    Trim(Or(keyInput, s.key))
  }

  /** The validate click: the stored instance is sent along; failure also marks the licence invalid. */
  function ValidateSpec(s: License, keyInput: JsString, now: int, reply: Reply): Handled {
    var key := KeyOf(s, keyInput);
    var instanceId := if s.instanceId.Some? then s.instanceId.value else [];
    if key == [] then Handled(None, s, EnterKeyFirstMsg)
    else ValidateReplied(s, key, instanceId, now, reply)
  }

  /** The validate click once its request has left with the key and the stored instance. */
  function ValidateReplied(s: License, key: JsString, instanceId: JsString, now: int, reply: Reply): Handled {
    var req := Some(Request(Validate, key, NullIfEmpty(instanceId), []));
    if Accepted(reply) then
      var stored := s.(key := key, instanceId := NullIfEmpty(Or(reply.data.instanceId, instanceId)), valid := true,
                       statusText := ValidText, lastCheckedAt := now, failureCount := 0);
      Handled(req, stored, ValidShown)
    else
      var stored := s.(valid := false, statusText := InvalidText, failureCount := s.failureCount + 1, lastCheckedAt := now);
      Handled(req, stored, FailureShown(Validate, reply))
  }

  /** The deactivate click: needs both a key and an instance; success forgets the instance, failure stores nothing. */
  function DeactivateSpec(s: License, keyInput: JsString, now: int, reply: Reply): Handled {
    var key := KeyOf(s, keyInput);
    var instanceId := if s.instanceId.Some? then s.instanceId.value else [];
    if key == [] || instanceId == [] then Handled(None, s, MissingInstanceMsg)
    else DeactivateReplied(s, key, instanceId, now, reply)
  }

  /** The deactivate click once its request has left with the key and the instance. */
  function DeactivateReplied(s: License, key: JsString, instanceId: JsString, now: int, reply: Reply): Handled {
    var req := Some(Request(Deactivate, key, Some(instanceId), []));
    if Accepted(reply) then
      Handled(req, s.(instanceId := None, valid := false, statusText := InactiveText, lastCheckedAt := now), DeactivatedShown)
    else Handled(req, s, FailureShown(Deactivate, reply))
  }

  /**
   * Activation: a request leaves exactly when the trimmed key is not blank,
   * and carries that key; without one nothing is stored. A failed request
   * adds one to the failure counter, a successful one resets it to 0.
   */
  lemma ActivateRules(s: License, keyInput: JsString, emailInput: JsString, now: int, reply: Reply)
    ensures var h := ActivateSpec(s, keyInput, emailInput, now, reply);
            && (h.request.Some? <==> Trim(keyInput) != [])
            && (h.request.None? ==> h.after == s)
            && (h.request.Some? ==> h.request.value.key == Trim(keyInput))
            && (h.request.Some? ==> h.after.failureCount == (if Accepted(reply) then 0 else s.failureCount + 1))
            && (h.after.valid ==> Accepted(reply) || s.valid)
  {
  }

  /**
   * Validation: the key is the key field or else the stored key, trimmed; a
   * failed request marks the licence invalid and counts, a successful one
   * marks it valid and resets the counter.
   */
  lemma ValidateRules(s: License, keyInput: JsString, now: int, reply: Reply)
    ensures var h := ValidateSpec(s, keyInput, now, reply);
            && (h.request.Some? <==> KeyOf(s, keyInput) != [])
            && (h.request.None? ==> h.after == s)
            && (h.request.Some? ==> h.request.value.key == KeyOf(s, keyInput))
            && (h.request.Some? ==> h.after.failureCount == (if Accepted(reply) then 0 else s.failureCount + 1))
            && (h.request.Some? ==> (h.after.valid <==> Accepted(reply)))
  {
  }

  /**
   * Deactivation needs a key and a stored instance, and sends that
   * instance; success forgets it and marks the licence invalid; the failure
   * counter is never touched.
   */
  lemma DeactivateRules(s: License, keyInput: JsString, now: int, reply: Reply)
    ensures var h := DeactivateSpec(s, keyInput, now, reply);
            && (h.request.Some? <==> KeyOf(s, keyInput) != [] && s.instanceId.Some? && s.instanceId.value != [])
            && (h.request.None? ==> h.after == s)
            && (h.request.Some? ==> h.request.value.key == KeyOf(s, keyInput) && h.request.value.instanceId == s.instanceId)
            && (h.request.Some? && Accepted(reply) ==> h.after.instanceId.None? && !h.after.valid)
            && h.after.failureCount == s.failureCount
  {
  }

  /**
   * A blank-but-not-empty key field hides the stored key: `'  ' || stored`
   * is `'  '`, which trims to nothing, so validating sends no request even
   * though a key is stored.
   */
  lemma BlankInputHidesStoredKey(s: License, now: int, reply: Reply)
    requires s.key != []
    ensures ValidateSpec(s, [0x20], now, reply).request.None?
    ensures ValidateSpec(s, [], now, reply).request.Some? <==> Trim(s.key) != []
  {
    var blank: JsString := [0x20];
    assert TrimStart(blank) == [] by { assert IsJsSpace(blank[0]) && blank[1..] == []; }
    assert KeyOf(s, blank) == [];
    assert KeyOf(s, []) == Trim(s.key);
  }

  /** A failed request always shows `❌ ` and the action's `friendlyError` text; for validate, a success never does. */
  lemma FailureIsReported(s: License, keyInput: JsString, emailInput: JsString, now: int, reply: Reply)
    ensures var h := ActivateSpec(s, keyInput, emailInput, now, reply);
            h.request.Some? && !Accepted(reply) ==> StartsWith(h.shown, CrossMark + ActionWord(Activate) + FailedSep)
    ensures var h := ValidateSpec(s, keyInput, now, reply);
            h.request.Some? ==> (StartsWith(h.shown, CrossMark) <==> !Accepted(reply))
    ensures var h := DeactivateSpec(s, keyInput, now, reply);
            h.request.Some? && !Accepted(reply) ==> StartsWith(h.shown, CrossMark + ActionWord(Deactivate) + FailedSep)
  {
    ValidateShowsCrossOnFailure(s, keyInput, now, reply);
    FailureShownPrefix(Activate, reply);
    FailureShownPrefix(Deactivate, reply);
  }

  /** The validate click shows `❌ ` exactly when its request failed. */
  lemma ValidateShowsCrossOnFailure(s: License, keyInput: JsString, now: int, reply: Reply)
    ensures var h := ValidateSpec(s, keyInput, now, reply);
            h.request.Some? ==> (StartsWith(h.shown, CrossMark) <==> !Accepted(reply))
  {
    var h := ValidateSpec(s, keyInput, now, reply);
    if h.request.Some? {
      if Accepted(reply) {
        assert h.shown == ValidShown;
        assert ValidShown[0] != CrossMark[0];
      } else {
        assert h.shown == FailureShown(Validate, reply);
        FailureShownPrefix(Validate, reply);
      }
    }
  }

  /** The popup's licence controls: the stored licence and the status element's text. */
  class LicensePanel {
    var license: License
    var statusLine: JsString
    const hasStatusElement: bool

    constructor(license: License, hasStatusElement: bool)
      ensures this.license == license && this.statusLine == [] && this.hasStatusElement == hasStatusElement
    {
      this.license := license;
      this.statusLine := [];
      this.hasStatusElement := hasStatusElement;
    }

    /** `updateLicenseStatus(text)`; nothing happens without the element. */
    method UpdateLicenseStatus(text: JsString)
      modifies this
      ensures license == old(license)
      ensures statusLine == (if hasStatusElement then StatusLine(text) else old(statusLine))
    {
      if !hasStatusElement {
        return;
      }
      if !StartsWith(text, StatusPrefix) {
        statusLine := StatusPrefix + text;
      } else {
        statusLine := text;
      }
    }

    /** The activate click handler. */
    method ActivateClick(keyInput: JsString, emailInput: JsString, now: int, reply: Reply) returns (request: Option<Request>)
      modifies this
      ensures var h := ActivateSpec(old(license), keyInput, emailInput, now, reply);
              request == h.request && license == h.after
              && statusLine == (if hasStatusElement then StatusLine(h.shown) else old(statusLine))
    {
      ghost var h := ActivateSpec(license, keyInput, emailInput, now, reply);
      var key := Trim(keyInput);
      var email := Trim(emailInput);
      if key == [] {
        assert h == Handled(None, license, EnterKeyMsg);
        UpdateLicenseStatus(EnterKeyMsg);
        return None;
      }
      assert h == ActivateReplied(license, key, email, now, reply);
      request := OnActivateReply(key, email, now, reply);
    }

    /** The activate handler's `try` block after its request has left. */
    method OnActivateReply(key: JsString, email: JsString, now: int, reply: Reply) returns (request: Option<Request>)
      modifies this
      ensures var h := ActivateReplied(old(license), key, email, now, reply);
              request == h.request && license == h.after
              && statusLine == (if hasStatusElement then StatusLine(h.shown) else old(statusLine))
    {
      request := Some(Request(Activate, key, None, email));
      if Accepted(reply) {
        var instance := NullIfEmpty(reply.data.instanceId);
        license := License(key, instance, true, ActivatedText, Or(email, reply.data.customerEmail), now, 0);
        UpdateLicenseStatus(ActivatedShown);
      } else {
        var msg := FailureShown(Activate, reply);
        var count := license.failureCount;
        license := license.(failureCount := count + 1);
        UpdateLicenseStatus(msg);
      }
    }

    /** The validate click handler. */
    method ValidateClick(keyInput: JsString, now: int, reply: Reply) returns (request: Option<Request>)
      modifies this
      ensures var h := ValidateSpec(old(license), keyInput, now, reply);
              request == h.request && license == h.after
              && statusLine == (if hasStatusElement then StatusLine(h.shown) else old(statusLine))
    {
      ghost var h := ValidateSpec(license, keyInput, now, reply);
      var key := Trim(Or(keyInput, license.key));
      var instanceId := if license.instanceId.Some? then license.instanceId.value else [];
      if key == [] {
        assert h == Handled(None, license, EnterKeyFirstMsg);
        UpdateLicenseStatus(EnterKeyFirstMsg);
        return None;
      }
      assert h == ValidateReplied(license, key, instanceId, now, reply);
      request := OnValidateReply(key, instanceId, now, reply);
    }

    /** The validate handler's `try` block after its request has left. */
    method OnValidateReply(key: JsString, instanceId: JsString, now: int, reply: Reply) returns (request: Option<Request>)
      modifies this
      ensures var h := ValidateReplied(old(license), key, instanceId, now, reply);
              request == h.request && license == h.after
              && statusLine == (if hasStatusElement then StatusLine(h.shown) else old(statusLine))
    {
      request := Some(Request(Validate, key, NullIfEmpty(instanceId), []));
      if Accepted(reply) {
        license := license.(key := key, instanceId := NullIfEmpty(Or(reply.data.instanceId, instanceId)), valid := true,
                            statusText := ValidText, lastCheckedAt := now, failureCount := 0);
        UpdateLicenseStatus(ValidShown);
      } else {
        var msg := FailureShown(Validate, reply);
        var count := license.failureCount;
        license := license.(valid := false, statusText := InvalidText, failureCount := count + 1, lastCheckedAt := now);
        UpdateLicenseStatus(msg);
      }
    }

    /** The deactivate click handler. */
    method DeactivateClick(keyInput: JsString, now: int, reply: Reply) returns (request: Option<Request>)
      modifies this
      ensures var h := DeactivateSpec(old(license), keyInput, now, reply);
              request == h.request && license == h.after
              && statusLine == (if hasStatusElement then StatusLine(h.shown) else old(statusLine))
    {
      ghost var h := DeactivateSpec(license, keyInput, now, reply);
      var key := Trim(Or(keyInput, license.key));
      var instanceId := if license.instanceId.Some? then license.instanceId.value else [];
      if key == [] || instanceId == [] {
        assert h == Handled(None, license, MissingInstanceMsg);
        UpdateLicenseStatus(MissingInstanceMsg);
        return None;
      }
      assert h == DeactivateReplied(license, key, instanceId, now, reply);
      request := OnDeactivateReply(key, instanceId, now, reply);
    }

    /** The deactivate handler's `try` block after its request has left. */
    method OnDeactivateReply(key: JsString, instanceId: JsString, now: int, reply: Reply) returns (request: Option<Request>)
      modifies this
      ensures var h := DeactivateReplied(old(license), key, instanceId, now, reply);
              request == h.request && license == h.after
              && statusLine == (if hasStatusElement then StatusLine(h.shown) else old(statusLine))
    {
      request := Some(Request(Deactivate, key, Some(instanceId), []));
      if Accepted(reply) {
        license := license.(instanceId := None, valid := false, statusText := InactiveText, lastCheckedAt := now);
        UpdateLicenseStatus(DeactivatedShown);
      } else {
        UpdateLicenseStatus(FailureShown(Deactivate, reply));
      }
    }
  }
}
