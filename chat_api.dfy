/**
 * src/api/chat.js: the chat service's header builder, the 401 response
 * interceptor it installs on the global axios instance, and its `handleError`
 * status switch.
 */
module ChatApi {
  import opened Wrappers
  import opened Js
  import opened Http
  import Request

  /** `buildAuthHeader(token)`: `{}` for a falsy token, otherwise one Authorization entry without the first prefix. */
  function BuildAuthHeader(token: Option<Json>): (r: Result<map<string, string>>)
    ensures !Present(token) ==> r == Ok(map[])
    ensures r.Ok? && Present(token) ==> r.value.Keys == {"Authorization"}
    ensures r.Err? <==> Present(token) && !token.value.JStr?
    ensures Present(token) && token.value.JStr? && !Strings.Contains(token.value.s, Bearer) ==>
      r == Ok(map["Authorization" := token.value.s])
  {
    if !Present(token) then Ok(map[])
    else if token.value.JStr? then Ok(map["Authorization" := StripBearer(token.value.s)])
    else Err(TypeFault("token.replace is not a function"))
  }

  /** A prefixed token loses exactly its first prefix. */
  lemma AuthHeaderStripsPrefix(rest: string)
    ensures BuildAuthHeader(Some(JStr(Bearer + rest))) == Ok(map["Authorization" := rest])
  {
    StripBearerOnce(rest);
  }

  /** `error.response?.status === 401` */
  predicate SessionExpired(error: AxiosError)
  {
    error.response.Some? && error.response.value.status == 401
  }

  /**
   * The rejection half of the global response interceptor: on 401 it shows
   * a message, forgets the token and the user id and leaves for the login
   * page; it always rejects with the error it was given.
   */
  method OnResponseError(error: AxiosError, storage: Storage) returns (rejected: AxiosError, effects: seq<Effect>)
    modifies storage
    ensures rejected == error
    ensures SessionExpired(error) ==> storage.items == old(storage.items) - {"token", "userId"}
    ensures SessionExpired(error) ==> effects == [Toast(Failure, "登录已过期，请重新登录"), Navigate(Request.LoginPath)]
    ensures !SessionExpired(error) ==> storage.items == old(storage.items) && effects == []
  {
    effects := [];
    if error.response.Some? && error.response.value.status == 401 {
      effects := effects + [Toast(Failure, "登录已过期，请重新登录")];
      storage.RemoveItem("token");
      storage.RemoveItem("userId");
      effects := effects + [Navigate(Request.LoginPath)];
    }
    rejected := error;
  }

  /** The message `handleError` shows. */
  function ErrorText(error: AxiosError): (text: string)
    ensures error.response.None? ==> text == "网络错误，请检查网络连接"
  {
    match error.response
    case None => "网络错误，请检查网络连接"
    case Some(resp) =>
      if resp.status == 401 then "未授权，请登录"
      else if resp.status == 403 then "拒绝访问"
      else if resp.status == 404 then "请求地址出错"
      else if resp.status == 500 then "服务器内部错误"
      else JsonText(Or(Member(resp.data, "message"), JStr(error.message)))
  }

  /** The four statuses the switch names get four different messages, none of them the network message. */
  lemma DistinctStatusMessages(a: AxiosError, b: AxiosError)
    requires a.response.Some? && b.response.Some?
    requires a.response.value.status in {401, 403, 404, 500} && b.response.value.status in {401, 403, 404, 500}
    ensures ErrorText(a) == ErrorText(b) <==> a.response.value.status == b.response.value.status
    ensures ErrorText(a) != "网络错误，请检查网络连接"
  {
  }

  /** Every other status, 502 included, shows the body's message or else the error's own. */
  lemma OtherStatusUsesBody(error: AxiosError)
    requires error.response.Some? && error.response.value.status !in {401, 403, 404, 500}
    ensures Present(Member(error.response.value.data, "message")) ==>
      ErrorText(error) == JsonText(Member(error.response.value.data, "message").value)
    ensures !Present(Member(error.response.value.data, "message")) ==> ErrorText(error) == error.message
  {
  }

  /** `handleError(error)`: exactly one message, then a rejection with the original error. */
  function HandleError(error: AxiosError): (r: (AxiosError, seq<Effect>))
    ensures r.0 == error
    ensures |r.1| == 1 && Toasts(r.1) == 1
    ensures r.1 == [Toast(Failure, ErrorText(error))]
  {
    (error, [Toast(Failure, ErrorText(error))])
  }

  /**
   * The chat switch and the fetch wrapper classify statuses differently: a
   * 502 is a server error for the wrapper but shows the body's message here,
   * and the two 401 messages differ.
   */
  lemma DiffersFromFetchWrapper(statusText: string, message: string)
    requires message != "" && message != "服务器内部错误"
    ensures var e := AxiosError("Request failed", Some(HttpResponse(502, statusText, Some(JObj(map["message" := JStr(message)])))), true);
      ErrorText(e) == message && Request.StatusEffects(502) == [Toast(Failure, "服务器内部错误")]
    ensures ErrorText(AxiosError("", Some(HttpResponse(401, statusText, None)), true)) != Request.StatusEffects(401)[0].text
  {
  }
}
