/**
 * The serverless licence proxy (serverless/lemon_license_proxy.js): a
 * `fetch` handler that answers CORS preflights, checks an optional rate
 * token, routes `/…/(activate|validate|deactivate)` to the Lemon Squeezy
 * licence API with a form-encoded body, and passes the reply through
 * (a status the `Response` constructor refuses with a body becomes 500).
 *
 * The request URL is given already parsed (its pathname); the upstream call
 * is an oracle from the call made to its outcome. URLSearchParams is the
 * parameter list of StringOps; its text encoding is part of the oracle.
 */
module LicenseProxy {
  import opened Wrappers
  import opened JsStrings
  import opened StringOps

  const Slash: CodeUnit := 0x2F
  const Comma: CodeUnit := 0x2C
  const Star: JsString := [0x2A]  // "*"
  const FallbackOrigin: JsString := Bmp("https://example.com")
  const DefaultApiBase: JsString := Bmp("https://api.lemonsqueezy.com/v1/licenses")
  const JsonType: JsString := Bmp("application/json")
  const OptionsMethod: JsString := [0x4F, 0x50, 0x54, 0x49, 0x4F, 0x4E, 0x53]  // "OPTIONS"

  const ActivateName: JsString := [0x61, 0x63, 0x74, 0x69, 0x76, 0x61, 0x74, 0x65]  // "activate"
  const ValidateName: JsString := [0x76, 0x61, 0x6C, 0x69, 0x64, 0x61, 0x74, 0x65]  // "validate"
  const DeactivateName: JsString := [0x64, 0x65, 0x61, 0x63, 0x74, 0x69, 0x76, 0x61, 0x74, 0x65]  // "deactivate"

  const Unauthorized: JsString := [0x75, 0x6E, 0x61, 0x75, 0x74, 0x68, 0x6F, 0x72, 0x69, 0x7A, 0x65, 0x64]  // "unauthorized"
  const InvalidEndpoint: JsString := [0x69, 0x6E, 0x76, 0x61, 0x6C, 0x69, 0x64, 0x20, 0x65, 0x6E, 0x64, 0x70, 0x6F, 0x69, 0x6E, 0x74]  // "invalid endpoint"
  const ProxyError: JsString := [0x70, 0x72, 0x6F, 0x78, 0x79, 0x20, 0x65, 0x72, 0x72, 0x6F, 0x72]  // "proxy error"

  const LicenseKeyField: JsString := [0x6C, 0x69, 0x63, 0x65, 0x6E, 0x73, 0x65, 0x5F, 0x6B, 0x65, 0x79]  // "license_key"
  const InstanceNameField: JsString := [0x69, 0x6E, 0x73, 0x74, 0x61, 0x6E, 0x63, 0x65, 0x5F, 0x6E, 0x61, 0x6D, 0x65]  // "instance_name"
  const InstanceIdField: JsString := [0x69, 0x6E, 0x73, 0x74, 0x61, 0x6E, 0x63, 0x65, 0x5F, 0x69, 0x64]  // "instance_id"
  const EmailField: JsString := [0x65, 0x6D, 0x61, 0x69, 0x6C]  // "email"

  /** `a || b` on strings. */
  function Or(a: JsString, b: JsString): JsString {
    if a != [] then a else b
  }

  /**
   * The worker's configuration; an unset variable is ''.
   * `ORIGIN_ALLOW`, `RATE_TOKEN`, `LS_API_BASE`, `LS_LICENSE_API_ACCEPT`.
   */
  datatype Env = Env(originAllow: JsString, rateToken: JsString, apiBase: JsString, accept: JsString)

  /** The four fields read from the JSON body, '' when absent or falsy. */
  datatype Body = Body(licenseKey: JsString, instanceName: JsString, instanceId: JsString, email: JsString)

  /**
   * What `await request.json().catch(() => ({}))` gives: `{}` when the text
   * is not JSON; `null` for the JSON text `null`, on which reading
   * `body.license_key` throws a TypeError; otherwise a value whose four
   * fields are read (a number, string or array has none of them).
   */
  datatype JsonBody = NotJson | JsonNull | JsonValue(fields: Body)

  /**
   * The incoming request: its method (`verb`), URL pathname, `Origin` and
   * `x-rate-token` headers ('' when absent) and its body.
   */
  datatype Request = Request(verb: JsString, pathname: JsString, origin: JsString, rateToken: JsString, body: JsonBody)

  /**
   * The `message` of the exceptions the runtime throws inside the handler's
   * `try`: reading a property of `null`, and `new Response` refusing a
   * status (given the status).
   */
  datatype Runtime = Runtime(nullRead: JsString, refusedStatus: int -> JsString)

  /** The POST the proxy makes: URL, `Accept` header and the form fields in order. */
  datatype UpstreamCall = UpstreamCall(url: JsString, accept: JsString, form: seq<Param>)

  /** The upstream outcome: `fetch` or `res.text()` threw (with `e.message`), or it replied. */
  datatype Upstream = Threw(message: JsString) | Replied(status: int, text: JsString)

  /** The body of the proxy's response: none, `JSON.stringify({ error })`, or the upstream text as is. */
  datatype ResponseBody = NoBody | ErrorJson(error: JsString) | Passthrough(text: JsString)

  /** A response; every one carries the same `Access-Control-Allow-*` headers, given by the origin they allow. */
  datatype Response = Response(status: int, body: ResponseBody, allowOrigin: JsString)

  /**
   * `Access-Control-Allow-Origin` (section 3.2 of the Fetch Standard): `*`
   * when no list is configured or the list is `*`; otherwise the request's
   * origin when the comma-separated list names it, else a fixed origin.
   * The header never names an origin the list does not contain.
   */
  function AllowOrigin(originAllow: JsString, origin: JsString): (r: JsString)
    ensures r == Star || r == FallbackOrigin || r in Split(originAllow, Comma)
    ensures originAllow == [] || originAllow == Star ==> r == Star
    ensures originAllow != [] && originAllow != Star ==> r == (if origin in Split(originAllow, Comma) then origin else FallbackOrigin)
  {
    var allowed := Or(originAllow, Star);
    if allowed == Star then Star
    else if origin in Split(allowed, Comma) then origin
    else FallbackOrigin
  }

  /** An absent `Origin` header is reflected (as '') when the list has an empty entry, e.g. a trailing comma. */
  lemma EmptyOriginWithTrailingComma(list: JsString)
    requires list != [] && Comma !in list
    ensures AllowOrigin(list + [Comma], []) == []
  {
    assert list + [Comma] == list + [Comma] + [];
    SplitAppendPiece(list, Comma, []);
    assert Split(list + [Comma], Comma)[|Split(list + [Comma], Comma)| - 1] == [];
    assert list + [Comma] != Star by { assert |list + [Comma]| >= 2; }
  }

  /** `pathname.replace(/\/+$/, '')` */
  function StripTrailingSlashes(p: JsString): (r: JsString)
    ensures |r| <= |p| && r == p[..|r|]
    ensures r == [] || r[|r| - 1] != Slash
    ensures forall i :: |r| <= i < |p| ==> p[i] == Slash
    decreases |p|
  {
    if p != [] && p[|p| - 1] == Slash then StripTrailingSlashes(p[..|p| - 1]) else p
  }

  /** `path.split('/').pop()` */
  function ActionOf(pathname: JsString): JsString {
    var pieces := Split(StripTrailingSlashes(pathname), Slash);
    pieces[|pieces| - 1]
  }

  function Slashes(k: nat): (r: JsString)
    ensures |r| == k && forall i :: 0 <= i < k ==> r[i] == Slash
  {
    seq(k, _ => Slash)
  }

  lemma {:induction false} StripSlashesSuffix(p: JsString, k: nat)
    requires p == [] || p[|p| - 1] != Slash
    ensures StripTrailingSlashes(p + Slashes(k)) == p
    decreases k
  {
    if k > 0 {
      var q := p + Slashes(k);
      assert q[..|q| - 1] == p + Slashes(k - 1);
      StripSlashesSuffix(p, k - 1);
    }
  }

  /** The action is the last segment, whatever comes before it and however many slashes follow it. */
  lemma ActionIsLastSegment(prefix: JsString, action: JsString, k: nat)
    requires action != [] && Slash !in action
    ensures ActionOf(prefix + [Slash] + action + Slashes(k)) == action
  {
    var p := prefix + [Slash] + action;
    assert p[|p| - 1] == action[|action| - 1];
    StripSlashesSuffix(p, k);
    SplitAppendPiece(prefix, Slash, action);
  }

  predicate IsAction(a: JsString) {
    a == ActivateName || a == ValidateName || a == DeactivateName
  }

  /** The `URLSearchParams` the handler fills: the truthy fields, in this order. */
  function FormFields(b: Body): seq<Param> {
    (if b.licenseKey != [] then [Param(LicenseKeyField, b.licenseKey)] else [])
    + (if b.instanceName != [] then [Param(InstanceNameField, b.instanceName)] else [])
    + (if b.instanceId != [] then [Param(InstanceIdField, b.instanceId)] else [])
    + (if b.email != [] then [Param(EmailField, b.email)] else [])
  }

  /** The form holds exactly the truthy fields, each once, with the body's value. */
  lemma FormFieldsTruthy(b: Body)
    ensures forall n :: HasParam(FormFields(b), n) <==>
              (n == LicenseKeyField && b.licenseKey != []) || (n == InstanceNameField && b.instanceName != [])
              || (n == InstanceIdField && b.instanceId != []) || (n == EmailField && b.email != [])
    ensures GetParam(FormFields(b), LicenseKeyField) == (if b.licenseKey != [] then Some(b.licenseKey) else None)
    ensures GetParam(FormFields(b), EmailField) == (if b.email != [] then Some(b.email) else None)
    ensures |FormFields(b)| <= 4
  {
    FieldNamesDistinct();
    var f := FormFields(b);
    forall n | HasParam(f, n)
      ensures (n == LicenseKeyField && b.licenseKey != []) || (n == InstanceNameField && b.instanceName != [])
              || (n == InstanceIdField && b.instanceId != []) || (n == EmailField && b.email != [])
    {
      var i :| 0 <= i < |f| && f[i].name == n;
    }
    var i1 := if b.licenseKey != [] then 1 else 0;
    var i2 := i1 + (if b.instanceName != [] then 1 else 0);
    var i3 := i2 + (if b.instanceId != [] then 1 else 0);
    if b.licenseKey != [] {
      assert f[0] == Param(LicenseKeyField, b.licenseKey);
    }
    if b.instanceName != [] {
      assert f[i1] == Param(InstanceNameField, b.instanceName);
    }
    if b.instanceId != [] {
      assert f[i2] == Param(InstanceIdField, b.instanceId);
    }
    if b.email != [] {
      assert f[i3] == Param(EmailField, b.email);
    }
    if b.email != [] {
      assert f[|f| - 1] == Param(EmailField, b.email);
      assert forall i :: 0 <= i < |f| - 1 ==> f[i].name != EmailField;
      LastParam(f, EmailField, b.email);
    }
  }

  lemma LastParam(q: seq<Param>, name: JsString, value: JsString)
    requires q != [] && q[|q| - 1] == Param(name, value)
    requires forall i :: 0 <= i < |q| - 1 ==> q[i].name != name
    ensures GetParam(q, name) == Some(value)
    decreases |q|
  {
    if |q| > 1 {
      assert q[0].name != name;
      assert forall i :: 0 <= i < |q[1..]| - 1 ==> q[1..][i] == q[i + 1];
      LastParam(q[1..], name, value);
    }
  }

  lemma FieldNamesDistinct()
    ensures LicenseKeyField != InstanceNameField && LicenseKeyField != InstanceIdField && LicenseKeyField != EmailField
    ensures InstanceNameField != InstanceIdField && InstanceNameField != EmailField && InstanceIdField != EmailField
  {
    assert LicenseKeyField[0] != InstanceNameField[0] && LicenseKeyField[0] != EmailField[0];
    assert InstanceNameField[0] != EmailField[0];
    assert |InstanceNameField| != |InstanceIdField|;
  }

  /** `new URLSearchParams()` */
  class SearchParams {
    var entries: seq<Param>

    constructor()
      ensures entries == []
    {
      entries := [];
    }

    /** `form.set(name, value)`: replaces the first pair of that name and drops the others, else appends. */
    method Set(name: JsString, value: JsString)
      modifies this
      ensures entries == SetParam(old(entries), name, value)
    {
      entries := SetParam(entries, name, value);
    }
  }

  /** A name that no pair of the list carries. */
  lemma AbsentName(q: seq<Param>, name: JsString)
    requires forall i :: 0 <= i < |q| ==> q[i].name != name
    ensures !HasParam(q, name)
  {
  }

  /** The upstream form: one guarded `set` per truthy body field, in a fixed order. */
  method BuildForm(b: Body) returns (form: SearchParams)
    ensures fresh(form)
    ensures form.entries == FormFields(b)
  {
    FieldNamesDistinct();
    ghost var p1 := if b.licenseKey != [] then [Param(LicenseKeyField, b.licenseKey)] else [];
    ghost var p2 := if b.instanceName != [] then [Param(InstanceNameField, b.instanceName)] else [];
    ghost var p3 := if b.instanceId != [] then [Param(InstanceIdField, b.instanceId)] else [];
    form := new SearchParams();
    SetIfTruthy(form, LicenseKeyField, b.licenseKey);
    SetIfTruthy(form, InstanceNameField, b.instanceName);
    assert form.entries == p1 + p2;
    SetIfTruthy(form, InstanceIdField, b.instanceId);
    assert form.entries == p1 + p2 + p3;
    SetIfTruthy(form, EmailField, b.email);
  }

  /** `if (body[field]) form.set(name, body[field])`, for a name the form does not hold yet. */
  method SetIfTruthy(form: SearchParams, name: JsString, value: JsString)
    requires forall i :: 0 <= i < |form.entries| ==> form.entries[i].name != name
    modifies form
    ensures form.entries == old(form.entries) + (if value != [] then [Param(name, value)] else [])
  {
    if value != [] {
      AbsentName(form.entries, name);
      form.Set(name, value);
    }
  }

  /** The fields the handler reads: none when the body is not JSON (and none used for `null`, which throws). */
  function BodyOf(req: Request): Body {
    if req.body.JsonValue? then req.body.fields else Body([], [], [], [])
  }

  /** The call the handler would make for a routed request. */
  function CallFor(req: Request, env: Env): UpstreamCall {
    UpstreamCall(Or(env.apiBase, DefaultApiBase) + [Slash] + ActionOf(req.pathname), Or(env.accept, JsonType),
                 FormFields(BodyOf(req)))
  }

  /** The null body statuses of the Fetch Standard: a response with one of these may not carry a body. */
  predicate NullBodyStatus(status: int) {
    status == 101 || status == 103 || status == 204 || status == 205 || status == 304
  }

  /**
   * `new Response(text, { status })` with a string body (never null, even
   * for '') returns only for a status in 200..599 that is not a null body
   * status; otherwise it throws (a RangeError or a TypeError), and the
   * handler's `catch` answers.
   */
  predicate BodyStatusAccepted(status: int) {
    200 <= status <= 599 && !NullBodyStatus(status)
  }

  /**
   * What the handler answers, and the upstream call it makes (if any);
   * `rt` gives the messages of the exceptions the runtime throws.
   */
  function HandleSpec(req: Request, env: Env, upstream: UpstreamCall -> Upstream, rt: Runtime)
    : (Response, Option<UpstreamCall>)
  {
    var allow := AllowOrigin(env.originAllow, req.origin);
    if req.verb == OptionsMethod then (Response(200, NoBody, allow), None)
    else if env.rateToken != [] && req.rateToken != env.rateToken then (Response(401, ErrorJson(Unauthorized), allow), None)
    else if !IsAction(ActionOf(req.pathname)) then (Response(404, ErrorJson(InvalidEndpoint), allow), None)
    else if req.body.JsonNull? then (Response(500, ErrorJson(Or(rt.nullRead, ProxyError)), allow), None)
    else
      var call := CallFor(req, env);
      match upstream(call)
      case Threw(message) => (Response(500, ErrorJson(Or(message, ProxyError)), allow), Some(call))
      case Replied(status, text) =>
        if BodyStatusAccepted(status) then (Response(status, Passthrough(text), allow), Some(call))
        else (Response(500, ErrorJson(Or(rt.refusedStatus(status), ProxyError)), allow), Some(call))
  }

  /**
   * The order of the checks: a preflight gets only the headers; then a
   * mismatching rate token is refused with 401, whatever the path; then an
   * unknown action with 404; a JSON `null` body makes the first field read
   * throw, which gives 500 before any call; only then is the licence API called, at
   * `apiBase/action`, and its status and text are passed through when the
   * `Response` constructor accepts that status with a body; a throw, from
   * the call or from the constructor, becomes 500 with its message (or
   * 'proxy error'). So every answer has a status in 200..599.
   */
  lemma HandlerOrder(req: Request, env: Env, upstream: UpstreamCall -> Upstream, rt: Runtime)
    ensures var (resp, call) := HandleSpec(req, env, upstream, rt);
            && resp.allowOrigin == AllowOrigin(env.originAllow, req.origin)
            && (req.verb == OptionsMethod ==> resp == Response(200, NoBody, resp.allowOrigin) && call.None?)
            && (req.verb != OptionsMethod && env.rateToken != [] && req.rateToken != env.rateToken ==>
                  resp.status == 401 && call.None?)
            && (call.Some? <==> req.verb != OptionsMethod && (env.rateToken == [] || req.rateToken == env.rateToken)
                                && IsAction(ActionOf(req.pathname)) && !req.body.JsonNull?)
            && (req.verb != OptionsMethod && (env.rateToken == [] || req.rateToken == env.rateToken)
                && IsAction(ActionOf(req.pathname)) && req.body.JsonNull? ==>
                  call.None? && resp.status == 500 && resp.body.ErrorJson? && resp.body.error != [])
            && (call.Some? ==> call.value.url == Or(env.apiBase, DefaultApiBase) + [Slash] + ActionOf(req.pathname)
                               && call.value.form == FormFields(BodyOf(req))
                               && (upstream(call.value).Replied? && BodyStatusAccepted(upstream(call.value).status) ==>
                                     resp.status == upstream(call.value).status && resp.body == Passthrough(upstream(call.value).text))
                               && (upstream(call.value).Replied? && !BodyStatusAccepted(upstream(call.value).status) ==>
                                     resp.status == 500 && resp.body.ErrorJson? && resp.body.error != [])
                               && (upstream(call.value).Threw? ==>
                                     resp.status == 500 && resp.body.ErrorJson? && resp.body.error != []))
            && (call.None? ==> resp.status in {200, 401, 404, 500})
            && 200 <= resp.status <= 599
            && (call.None? && resp.status == 404 <==>
                  req.verb != OptionsMethod && (env.rateToken == [] || req.rateToken == env.rateToken)
                  && !IsAction(ActionOf(req.pathname)))
  {
  }

  /** A path with trailing slashes routes like the one without. */
  lemma TrailingSlashesRouteAlike(prefix: JsString, action: JsString, k: nat)
    requires action != [] && Slash !in action
    ensures ActionOf(prefix + [Slash] + action + Slashes(k)) == ActionOf(prefix + [Slash] + action)
  {
    ActionIsLastSegment(prefix, action, k);
    ActionIsLastSegment(prefix, action, 0);
    assert prefix + [Slash] + action + Slashes(0) == prefix + [Slash] + action;
  }

  /** The `fetch` handler. */
  method HandleFetch(req: Request, env: Env, upstream: UpstreamCall -> Upstream, rt: Runtime)
    returns (resp: Response, call: Option<UpstreamCall>)
    ensures (resp, call) == HandleSpec(req, env, upstream, rt)
  {
    var origin := req.origin;
    var allowed := Or(env.originAllow, Star);
    var allow := if allowed == Star then Star else if origin in Split(allowed, Comma) then origin else FallbackOrigin;
    if req.verb == OptionsMethod {
      return Response(200, NoBody, allow), None;
    }
    if env.rateToken != [] {
      var token := req.rateToken;
      if token != env.rateToken {
        return Response(401, ErrorJson(Unauthorized), allow), None;
      }
    }
    var path := StripTrailingSlashes(req.pathname);
    var pieces := Split(path, Slash);
    var action := pieces[|pieces| - 1];
    if !(action == ActivateName || action == ValidateName || action == DeactivateName) {
      return Response(404, ErrorJson(InvalidEndpoint), allow), None;
    }
    if req.body.JsonNull? {
      return Response(500, ErrorJson(Or(rt.nullRead, ProxyError)), allow), None;
    }
    var body := BodyOf(req);
    var form := BuildForm(body);
    var apiBase := Or(env.apiBase, DefaultApiBase);
    var c := UpstreamCall(apiBase + [Slash] + action, Or(env.accept, JsonType), form.entries);
    call := Some(c);
    match upstream(c) {
      case Threw(message) =>
        resp := Response(500, ErrorJson(Or(message, ProxyError)), allow);
      case Replied(status, text) =>
        if BodyStatusAccepted(status) {
          resp := Response(status, Passthrough(text), allow);
        } else {
          resp := Response(500, ErrorJson(Or(rt.refusedStatus(status), ProxyError)), allow);
        }
    }
  }
}
