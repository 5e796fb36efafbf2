/**
 * src/utils/request.js: the fetch wrapper that every module built on it uses.
 * Building a request (URL, query string, headers, body) is imperative and is
 * modelled by the method `Prepare`; what happens to the response (status
 * check, optional blob pass-through, envelope decode, final catch) is a chain
 * of pure steps composed by `Respond`. The axios instance's request
 * interceptor is the method `AxiosIntercept`.
 */
module Request {
  import opened Wrappers
  import opened Js
  import opened Http
  import Strings

  const DefaultBaseUrl := "http://localhost:8080"
  const NetworkMessage := "网络错误，请检查网络连接"
  const LoginPath := "/login"

  /** `process.env.VUE_APP_API_BASE_URL || 'http://localhost:8080'` */
  function BaseUrl(env: Option<string>): (r: string)
    ensures r != ""
  {
    if env.Some? && env.value != "" then env.value else DefaultBaseUrl
  }

  /** A `FormData` payload, kept opaque. */
  datatype FormData = FormData(entries: seq<(string, string)>)

  /** The `data` option: absent, a `FormData`, or any other value. */
  datatype RequestData = NoData | Form(form: FormData) | Data(value: Json)

  /** The options object; `params` keeps its keys in `Object.keys` order. */
  datatype Options = Options(
    url: string,
    verb: Option<string>,
    data: RequestData,
    params: Option<seq<(string, Option<Json>)>>,
    responseType: Option<string>)

  /** What is sent as `config.body`: the form itself, or `JSON.stringify` of a value. */
  datatype Body = SendForm(form: FormData) | SendJson(value: Json)

  /**
   * The request handed to `fetch`: the URL before the query string, the query
   * pairs (the URL gets `?` and their encoding exactly when there is at least
   * one), the method, the headers and the body.
   */
  datatype Prepared = Prepared(
    url: string,
    query: seq<(string, string)>,
    verb: string,
    headers: map<string, string>,
    body: Option<Body>)

  /** A query parameter survives unless it is `undefined` or `''`; `null` survives. */
  predicate Kept(v: Option<Json>)
  {
    v.Some? && v.value != JStr("")
  }

  /** The query pairs `URLSearchParams` receives, values converted with `String`. */
  function KeptParams(ps: seq<(string, Option<Json>)>): (r: seq<(string, string)>)
    ensures |r| <= |ps|
  {
    if ps == [] then []
    else
      var last := ps[|ps| - 1];
      KeptParams(ps[..|ps| - 1]) + (if Kept(last.1) then [(last.0, ToText(last.1))] else [])
  }

  /** Filtering parameters keeps their order: the survivors of `a + b` are those of `a`, then those of `b`. */
  lemma {:induction false} KeptParamsAppend(a: seq<(string, Option<Json>)>, b: seq<(string, Option<Json>)>)
    ensures KeptParams(a + b) == KeptParams(a) + KeptParams(b)
    decreases |b|
  {
    if b == [] {
      assert a + b == a;
    } else {
      var b' := b[..|b| - 1];
      assert (a + b)[..|a + b| - 1] == a + b';
      KeptParamsAppend(a, b');
    }
  }

  /** Every parameter that is neither `undefined` nor `''` reaches the query string. */
  lemma {:induction false} KeptParamsComplete(ps: seq<(string, Option<Json>)>, i: nat)
    requires i < |ps| && Kept(ps[i].1)
    ensures (ps[i].0, ToText(ps[i].1)) in KeptParams(ps)
  {
    assert ps == ps[..i] + [ps[i]] + ps[i + 1..];
    KeptParamsAppend(ps[..i] + [ps[i]], ps[i + 1..]);
    KeptParamsAppend(ps[..i], [ps[i]]);
    assert KeptParams([ps[i]]) == [(ps[i].0, ToText(ps[i].1))] by {
      assert [ps[i]][..0] == [];
    }
  }

  /** Nothing else reaches it: every query pair comes from a surviving parameter. */
  lemma {:induction false} KeptParamsSound(ps: seq<(string, Option<Json>)>, k: nat)
    requires k < |KeptParams(ps)|
    ensures exists i :: 0 <= i < |ps| && Kept(ps[i].1) && KeptParams(ps)[k] == (ps[i].0, ToText(ps[i].1))
    decreases |ps|
  {
    var front := ps[..|ps| - 1];
    if k < |KeptParams(front)| {
      KeptParamsSound(front, k);
      var i :| 0 <= i < |front| && Kept(front[i].1) && KeptParams(front)[k] == (front[i].0, ToText(front[i].1));
      assert ps[i] == front[i];
    } else {
      assert Kept(ps[|ps| - 1].1);
    }
  }

  /** The URL gets a `?` exactly when some parameter survives. */
  lemma {:induction false} KeptParamsEmpty(ps: seq<(string, Option<Json>)>)
    ensures KeptParams(ps) == [] <==> forall i :: 0 <= i < |ps| ==> !Kept(ps[i].1)
    decreases |ps|
  {
    if ps != [] {
      var front := ps[..|ps| - 1];
      KeptParamsEmpty(front);
      forall i | 0 <= i < |front| ensures front[i] == ps[i] { }
    }
  }

  /** `method = 'GET'`: the default applies only when no method is given. */
  function MethodName(verb: Option<string>): string
  {
    if verb.None? then "GET" else verb.value
  }

  /** Builds the URL, query, method, headers and body exactly as `fetchRequest` does before calling `fetch`. */
  method Prepare(opts: Options, env: Option<string>, token: Option<string>) returns (req: Prepared)
    ensures req.url == if Strings.StartsWith(opts.url, "http") then opts.url else BaseUrl(env) + opts.url
    ensures req.query == if opts.params.Some? then KeptParams(opts.params.value) else []
    ensures req.verb == Strings.Upper(MethodName(opts.verb))
    ensures "Authorization" in req.headers <==> HasToken(token)
    ensures HasToken(token) ==> req.headers["Authorization"] == "Bearer " + token.value
    ensures "Content-Type" in req.headers <==> !opts.data.Form?
    ensures "Content-Type" in req.headers ==> req.headers["Content-Type"] == "application/json"
    ensures req.headers.Keys <= {"Content-Type", "Authorization"}
    ensures opts.data.Form? ==> req.body == Some(SendForm(opts.data.form))
    ensures !opts.data.Form? ==>
      (req.body.Some? <==> opts.data.Data? && Truthy(opts.data.value) && req.verb in {"POST", "PUT"})
    ensures !opts.data.Form? && req.body.Some? ==> req.body == Some(SendJson(opts.data.value))
  {
    var fullUrl := if Strings.StartsWith(opts.url, "http") then opts.url else BaseUrl(env) + opts.url;
    var query: seq<(string, string)> := [];
    if opts.params.Some? {
      var ps := opts.params.value;
      for i := 0 to |ps|
        invariant query == KeptParams(ps[..i])
      {
        assert ps[..i + 1][..i] == ps[..i];
        if ps[i].1 != None && ps[i].1 != Some(JStr("")) {
          query := query + [(ps[i].0, ToText(ps[i].1))];
        }
      }
      assert ps[..|ps|] == ps;
    }
    var verb := Strings.Upper(MethodName(opts.verb));
    var headers := map["Content-Type" := "application/json"];
    if HasToken(token) {
      headers := headers["Authorization" := "Bearer " + token.value];
    }
    var body: Option<Body> := None;
    if opts.data.Form? {
      headers := headers - {"Content-Type"};
      body := Some(SendForm(opts.data.form));
    } else if opts.data.Data? && Truthy(opts.data.value) && (verb == "POST" || verb == "PUT") {
      body := Some(SendJson(opts.data.value));
    }
    req := Prepared(fullUrl, query, verb, headers, body);
  }

  /** A lower-case method name is sent the same way as its upper-case form. */
  lemma MethodCaseInsensitive(opts: Options, m: string)
    requires opts.verb == Some(m)
    ensures Strings.Upper(MethodName(opts.verb)) == Strings.Upper(Strings.Upper(m))
  {
    Strings.UpperIdempotent(m);
  }

  /** The raw bytes of a body read with `response.blob()`. */
  datatype Blob = Blob(bytes: seq<int>)

  /** `response.json()`: the parsed value, or the message of the `SyntaxError` it rejects with. */
  datatype Parsed = Parsed(value: Json) | Malformed(syntaxError: string)

  /** What `fetch` gives back: a rejection (no response at all), or a status with its body. */
  datatype Reply =
    | Unreachable(message: string)
    | Reply(status: int, json: Parsed, blob: Blob)

  /** `response.ok` */
  predicate IsOk(status: int)
  {
    200 <= status <= 299
  }

  /** What `fetchRequest` resolves with: a decoded JSON value or a blob. */
  datatype Value = JsonValue(json: Json) | BlobValue(blob: Blob)

  /** The errors `fetchRequest` rejects with. */
  datatype FetchError =
    | HttpFailure(status: int)   // Error('HTTP error! status: n')
    | ApiFailure(message: string, errorCode: Option<Json>, code: Option<Json>, apiResponse: Json)
    | OtherFailure(message: string)  // network failure, unparsable JSON

  datatype Settled = Resolved(value: Value) | Rejected(error: FetchError)

  /** How a call settles, with the effects performed on the way. */
  datatype Outcome = Outcome(settled: Settled, effects: seq<Effect>)

  /** `error.message` */
  function ErrorMessage(e: FetchError): string
  {
    match e
    case HttpFailure(status) => "HTTP error! status: " + Strings.IntText(status)
    case ApiFailure(message, _, _, _) => message
    case OtherFailure(message) => message
  }

  /** The toasts and navigation for a status that is not ok. */
  function StatusEffects(status: int): (effects: seq<Effect>)
    requires !IsOk(status)
    ensures Toasts(effects) <= 1
    ensures Toasts(effects) == 1 <==> status == 401 || status == 403 || status == 404 || status >= 500
    ensures Navigate(LoginPath) in effects <==> status == 401
  {
    if status == 401 then [Toast(Failure, "未授权，请重新登录"), Navigate(LoginPath)]
    else if status == 403 then [Toast(Failure, "拒绝访问")]
    else if status == 404 then [Toast(Failure, "请求地址出错")]
    else if status >= 500 then [Toast(Failure, "服务器内部错误")]
    else []
  }

  /** The result of decoding a body: accepted with a value, or refused with an error. */
  datatype Envelope = Accepted(json: Json) | Refused(error: FetchError)
  datatype Decoded = Decoded(envelope: Envelope, effects: seq<Effect>)

  /** A body of the `success` shape. */
  predicate FlagShaped(data: Json)
  {
    Truthy(data) && Get(data, "success").Some?
  }

  /** A body of the numeric `code` shape (and not of the `success` shape). */
  predicate CodeShaped(data: Json)
  {
    Truthy(data) && !FlagShaped(data) && Get(data, "code").Some?
  }

  /** An object holding `key` only when `v` is defined. */
  function Entry(key: string, v: Option<Json>): map<string, Json>
  {
    if v.Some? then map[key := v.value] else map[]
  }

  /** `{ code: 200, message, data }`, the envelope components already expect. */
  function SuccessEnvelope(message: Option<Json>, data: Option<Json>): (r: Json)
    ensures Get(r, "code") == Some(JNum(200)) && Get(r, "success").None?
    ensures Get(r, "message") == message && Get(r, "data") == data
  {
    JObj(map["code" := JNum(200)] + Entry("message", message) + Entry("data", data))
  }

  /**
   * The second `.then`: a defined `success` wins over `code`; a truthy
   * `success` becomes `{code: 200, message, data}`, `code` 200 passes the
   * body through, and any other body passes through unchanged. A falsy
   * `success` or another `code` shows one toast and refuses.
   */
  function Normalize(data: Json): (r: Decoded)
    ensures r.envelope.Accepted? ==> r.effects == []
    ensures r.envelope.Refused? ==> Toasts(r.effects) == 1 && r.effects[0].Toast?
    ensures r.envelope.Refused? ==> r.envelope.error.ApiFailure? && r.envelope.error.apiResponse == data
    ensures r.envelope.Refused? <==>
      (FlagShaped(data) && !Present(Get(data, "success"))) || (CodeShaped(data) && Get(data, "code") != Some(JNum(200)))
    ensures !FlagShaped(data) && !CodeShaped(data) ==> r == Decoded(Accepted(data), [])
    ensures FlagShaped(data) && Present(Get(data, "success")) ==>
      r == Decoded(Accepted(SuccessEnvelope(Get(data, "message"), Get(data, "data"))), [])
    ensures CodeShaped(data) && Get(data, "code") == Some(JNum(200)) ==> r == Decoded(Accepted(data), [])
    ensures r.envelope.Refused? ==> r.envelope.error.message == JsonText(Or(Get(data, "message"), JStr("请求失败")))
    ensures FlagShaped(data) && r.envelope.Refused? ==>
      r.envelope.error.errorCode == Get(data, "errorCode") && r.envelope.error.code.None? &&
      r.effects == [Toast(Failure, r.envelope.error.message)]
    ensures CodeShaped(data) && r.envelope.Refused? ==>
      r.envelope.error.errorCode.None? && r.envelope.error.code == Get(data, "code") &&
      r.effects[0] == Toast(Failure, JsonText(Or(Get(data, "message"), JStr("操作失败")))) &&
      |r.effects| == (if Get(data, "code") == Some(JNum(401)) then 2 else 1)
  {
    if FlagShaped(data) then
      if Present(Get(data, "success")) then
        Decoded(Accepted(SuccessEnvelope(Get(data, "message"), Get(data, "data"))), [])
      else
        var text := JsonText(Or(Get(data, "message"), JStr("请求失败")));
        Decoded(Refused(ApiFailure(text, Get(data, "errorCode"), None, data)), [Toast(Failure, text)])
    else if CodeShaped(data) then
      if Get(data, "code") == Some(JNum(200)) then
        Decoded(Accepted(data), [])
      else
        var shown := JsonText(Or(Get(data, "message"), JStr("操作失败")));
        var text := JsonText(Or(Get(data, "message"), JStr("请求失败")));
        Decoded(
          Refused(ApiFailure(text, None, Get(data, "code"), data)),
          [Toast(Failure, shown)] + (if Get(data, "code") == Some(JNum(401)) then [Navigate(LoginPath)] else []))
    else
      Decoded(Accepted(data), [])
  }

  /** Normalizing an accepted result again changes nothing. */
  lemma NormalizeIdempotent(data: Json)
    requires Normalize(data).envelope.Accepted?
    ensures Normalize(Normalize(data).envelope.json) == Decoded(Accepted(Normalize(data).envelope.json), [])
  {
  }

  /** `{success: true, message, data}` and `{code: 200, message, data}` decode to the same envelope. */
  lemma EquivalentSuccessShapes(message: Option<Json>, data: Option<Json>)
    ensures
      var flagged := JObj(map["success" := JBool(true)] + Entry("message", message) + Entry("data", data));
      Normalize(flagged) == Normalize(SuccessEnvelope(message, data)) == Decoded(Accepted(SuccessEnvelope(message, data)), [])
  {
  }

  /** A failed `code` body navigates to the login page exactly when the code is 401. */
  lemma CodeFailureNavigation(data: Json)
    requires CodeShaped(data) && Get(data, "code") != Some(JNum(200))
    ensures Navigate(LoginPath) in Normalize(data).effects <==> Get(data, "code") == Some(JNum(401))
  {
  }

  /** `!error.apiResponse && !error.message.includes('HTTP error!')` */
  predicate ShowsNetworkToast(e: FetchError)
  {
    !(e.ApiFailure? && Truthy(e.apiResponse)) && !Strings.Contains(ErrorMessage(e), "HTTP error!")
  }

  /** An HTTP status error never gets the extra network toast. */
  lemma HttpFailureIsQuiet(status: int)
    ensures !ShowsNetworkToast(HttpFailure(status))
  {
    Strings.RemoveLeading("HTTP error!", " status: " + Strings.IntText(status));
    assert Strings.OccursAt(ErrorMessage(HttpFailure(status)), "HTTP error!", 0);
  }

  /** The final `.catch`: maybe one more toast, then the same error is rethrown. */
  function Caught(e: FetchError, effects: seq<Effect>): (r: Outcome)
    ensures r.settled == Rejected(e)
    ensures |r.effects| >= |effects| && r.effects[..|effects|] == effects
    ensures Toasts(r.effects) == Toasts(effects) + (if ShowsNetworkToast(e) then 1 else 0)
  {
    var extra := if ShowsNetworkToast(e) then [Toast(Failure, NetworkMessage)] else [];
    ToastsAppend(effects, extra);
    Outcome(Rejected(e), effects + extra)
  }

  /** Everything after `fetch` answers, for the given `responseType`. */
  function Respond(responseType: Option<string>, reply: Reply): Outcome
  {
    match reply
    case Unreachable(message) => Caught(OtherFailure(message), [])
    case Reply(status, json, blob) =>
      if !IsOk(status) then Caught(HttpFailure(status), StatusEffects(status))
      else if responseType == Some("blob") then Outcome(Resolved(BlobValue(blob)), [])
      else match json
        case Malformed(message) => Caught(OtherFailure(message), [])
        case Parsed(data) =>
          var d := Normalize(data);
          match d.envelope
          case Accepted(j) => Outcome(Resolved(JsonValue(j)), [])
          case Refused(e) => Caught(e, d.effects)
  }

  /** Every call, whatever went wrong, shows at most one message. */
  lemma AtMostOneToast(responseType: Option<string>, reply: Reply)
    ensures Toasts(Respond(responseType, reply).effects) <= 1
  {
    if reply.Reply? && !IsOk(reply.status) {
      HttpFailureIsQuiet(reply.status);
    }
  }

  /** A status that is not ok always rejects with `HTTP error! status: n`, classified as the status says. */
  lemma HttpFailureClassified(responseType: Option<string>, status: int, json: Parsed, blob: Blob)
    requires !IsOk(status)
    ensures var out := Respond(responseType, Reply(status, json, blob));
      && out.settled == Rejected(HttpFailure(status))
      && ErrorMessage(HttpFailure(status)) == "HTTP error! status: " + Strings.IntText(status)
      && (Toasts(out.effects) == 1 <==> status == 401 || status == 403 || status == 404 || status >= 500)
      && (Navigate(LoginPath) in out.effects <==> status == 401)
  {
    HttpFailureIsQuiet(status);
  }

  /** With `responseType: 'blob'` an ok response resolves with the raw body: no JSON parse, no decode. */
  lemma BlobPassesThrough(status: int, json: Parsed, blob: Blob)
    requires IsOk(status)
    ensures Respond(Some("blob"), Reply(status, json, blob)) == Outcome(Resolved(BlobValue(blob)), [])
  {
  }

  /** A refused envelope reaches the caller with its `apiResponse`, after exactly one toast. */
  lemma RefusedEnvelopeRejects(responseType: Option<string>, status: int, data: Json, blob: Blob)
    requires IsOk(status) && responseType != Some("blob")
    requires Normalize(data).envelope.Refused?
    ensures var out := Respond(responseType, Reply(status, Parsed(data), blob));
      && out.settled.Rejected? && out.settled.error.ApiFailure? && out.settled.error.apiResponse == data
      && Toasts(out.effects) == 1
  {
  }

  /** `fetchRequest(options)`: build the request, send it, and settle on the reply. */
  method FetchRequest(opts: Options, env: Option<string>, token: Option<string>, reply: Reply)
    returns (req: Prepared, out: Outcome)
    ensures req.url == if Strings.StartsWith(opts.url, "http") then opts.url else BaseUrl(env) + opts.url
    ensures req.query == if opts.params.Some? then KeptParams(opts.params.value) else []
    ensures req.verb == Strings.Upper(MethodName(opts.verb))
    ensures "Authorization" in req.headers <==> HasToken(token)
    ensures HasToken(token) ==> req.headers["Authorization"] == "Bearer " + token.value
    ensures "Content-Type" in req.headers <==> !opts.data.Form?
    ensures "Content-Type" in req.headers ==> req.headers["Content-Type"] == "application/json"
    ensures req.headers.Keys <= {"Content-Type", "Authorization"}
    ensures opts.data.Form? ==> req.body == Some(SendForm(opts.data.form))
    ensures !opts.data.Form? ==>
      (req.body.Some? <==> opts.data.Data? && Truthy(opts.data.value) && req.verb in {"POST", "PUT"})
    ensures !opts.data.Form? && req.body.Some? ==> req.body == Some(SendJson(opts.data.value))
    ensures out == Respond(opts.responseType, reply)
    ensures Toasts(out.effects) <= 1
  {
    req := Prepare(opts, env, token);
    out := Respond(opts.responseType, reply);
    AtMostOneToast(opts.responseType, reply);
  }

  /** The headers after the axios request interceptor of the exported axios instance. */
  function AxiosHeaders(headers: map<string, string>, token: Option<string>): (r: map<string, string>)
    ensures r.Keys == headers.Keys + {"Content-Type"} + (if HasToken(token) then {"Authorization"} else {})
    ensures HasToken(token) ==> r["Authorization"] == "Bearer " + token.value
    ensures "Content-Type" in headers && headers["Content-Type"] != "" ==> r["Content-Type"] == headers["Content-Type"]
    ensures !("Content-Type" in headers && headers["Content-Type"] != "") ==> r["Content-Type"] == "application/json"
    ensures forall k :: k in headers && k != "Authorization" && k != "Content-Type" ==> r[k] == headers[k]
  {
    var withToken := if HasToken(token) then headers["Authorization" := "Bearer " + token.value] else headers;
    if "Content-Type" in withToken && withToken["Content-Type"] != "" then withToken
    else withToken["Content-Type" := "application/json"]
  }

  /** The request interceptor: adds the bearer token, and a JSON content type unless the caller set one. */
  method AxiosIntercept(config: RequestConfig, token: Option<string>)
    modifies config
    ensures config.headers == AxiosHeaders(old(config.headers), token)
  {
    if HasToken(token) {
      config.headers := config.headers["Authorization" := "Bearer " + token.value];
    }
    if !("Content-Type" in config.headers && config.headers["Content-Type"] != "") {
      config.headers := config.headers["Content-Type" := "application/json"];
    }
  }
}
