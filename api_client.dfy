/**
 * src/api/index.js: the shared axios instance of the course, video, forum
 * and related endpoint tables. Its request interceptor attaches the stored
 * token in place; its response interceptors unwrap `{success, data}` bodies
 * and turn every failure into one message and a rejection.
 */
module ApiClient {
  import opened Wrappers
  import opened Js
  import opened Http
  import ExamBookingApi

  /** The headers after the request interceptor: a bearer token when one is stored, nothing else touched. */
  function BearerHeaders(headers: map<string, string>, token: Option<string>): (r: map<string, string>)
    ensures HasToken(token) ==> r.Keys == headers.Keys + {"Authorization"} && r["Authorization"] == "Bearer " + token.value
    ensures !HasToken(token) ==> r == headers
    ensures forall k :: k in headers && k != "Authorization" ==> k in r && r[k] == headers[k]
  {
    if HasToken(token) then headers["Authorization" := "Bearer " + token.value] else headers
  }

  /** The request interceptor, writing `config.headers.Authorization` in place. */
  method AttachBearer(config: RequestConfig, token: Option<string>)
    modifies config
    ensures config.headers == BearerHeaders(old(config.headers), token)
  {
    if token.Some? && token.value != "" {
      config.headers := config.headers["Authorization" := "Bearer " + token.value];
    }
  }

  /**
   * The success interceptor: a body with a truthy `success` resolves to its
   * `data`. Any other body shows `message || '请求失败'` and rejects with
   * `new Error(message)`, whose text is '' when there is no message. A
   * missing body cannot be destructured and raises a TypeError.
   */
  function OnFulfilled(response: HttpResponse): (r: Reaction<Option<Json>>)
    ensures r.result.Err? && r.result.error.TypeFault? <==> Nullish(response.data)
    ensures r.result.Ok? <==> !Nullish(response.data) && Present(Get(response.data.value, "success"))
    ensures r.result.Ok? ==> r.result.value == Get(response.data.value, "data") && r.effects == []
    ensures r.result.Err? && !Nullish(response.data) ==>
      Toasts(r.effects) == 1 && |r.effects| == 1 && r.result.error == ErrorOf(Get(response.data.value, "message"))
  {
    match Prop(response.data, "success")
    case Err(e) => Reaction(Err(e), [])
    case Ok(flag) =>
      var body := response.data.value;
      if Present(flag) then Reaction(Ok(Get(body, "data")), [])
      else
        Reaction(Err(ErrorOf(Get(body, "message"))),
                 [Toast(Failure, JsonText(Or(Get(body, "message"), JStr("请求失败"))))])
  }

  /** A failed body without a message toasts '请求失败' yet rejects with an empty message. */
  lemma SilentRejectionMessage(status: int, statusText: string, rest: map<string, Json>)
    requires "message" !in rest
    ensures var r := OnFulfilled(HttpResponse(status, statusText, Some(JObj(rest["success" := JBool(false)]))));
      r == Reaction(Err(Thrown("")), [Toast(Failure, "请求失败")])
  {
  }

  /**
   * The text the error interceptor shows and rejects with: with a response,
   * its body's message, else its status text, else the default network text;
   * with a request and no response, the no-response text; otherwise the
   * error's own message. A response without a body raises a TypeError.
   */
  function RejectionText(error: AxiosError): (r: Result<string>)
    ensures r.Err? <==> error.response.Some? && Nullish(error.response.value.data)
    ensures error.response.None? && error.requestSent ==> r == Ok("服务器无响应，请检查网络或稍后再试")
    ensures error.response.None? && !error.requestSent ==> r == Ok(error.message)
    ensures error.response.Some? && r.Ok? && !Present(Get(error.response.value.data.value, "message")) ==>
      r.value == (if error.response.value.statusText != "" then error.response.value.statusText else "网络错误，请稍后再试")
    ensures error.response.Some? && r.Ok? && Present(Get(error.response.value.data.value, "message")) ==>
      r.value == JsonText(Get(error.response.value.data.value, "message").value)
    ensures r.Err? ==> r.error.TypeFault?
  {
    match error.response
    case Some(resp) =>
      (match Prop(resp.data, "message")
       case Err(e) => Err(e)
       case Ok(message) =>
         if Present(message) then Ok(JsonText(message.value))
         else if resp.statusText != "" then Ok(resp.statusText)
         else Ok("网络错误，请稍后再试"))
    case None =>
      if error.requestSent then Ok("服务器无响应，请检查网络或稍后再试") else Ok(error.message)
  }

  /** The error interceptor: one message, and a rejection whose text is that same message. */
  function OnRejected(error: AxiosError): (r: Reaction<Json>)
    ensures r.result.Err?
    ensures RejectionText(error).Ok? ==>
      r.effects == [Toast(Failure, RejectionText(error).value)] && r.result.error == Thrown(RejectionText(error).value)
    ensures RejectionText(error).Err? ==> r.effects == [] && r.result.error.TypeFault?
  {
    match RejectionText(error)
    case Ok(text) => Reaction(Err(Thrown(text)), [Toast(Failure, text)])
    case Err(e) => Reaction(Err(e), [])
  }

  /** Every failure of this client shows at most one message. */
  lemma AtMostOneMessage(response: HttpResponse, error: AxiosError)
    ensures Toasts(OnFulfilled(response).effects) <= 1
    ensures Toasts(OnRejected(error).effects) <= 1
  {
  }

  /** A default parameter: it replaces `undefined` only. */
  function DefaultArg(v: Option<Json>, default: Json): (r: Json)
    ensures v.Some? ==> r == v.value
    ensures v.None? ==> r == default
  {
    if v.None? then default else v.value
  }

  /** `getCourses(pageNum = 1, pageSize = 10)` and `getAdminCourses`, `getVideosAdmin` alike. */
  function CoursePaging(pageNum: Option<Json>, pageSize: Option<Json>): (r: seq<(string, Json)>)
    ensures |r| == 2 && r[0].0 == "pageNum" && r[1].0 == "pageSize"
    ensures r[0].1 == (if pageNum.None? then JNum(1) else pageNum.value)
    ensures r[1].1 == (if pageSize.None? then JNum(10) else pageSize.value)
  {
    [("pageNum", DefaultArg(pageNum, JNum(1))), ("pageSize", DefaultArg(pageSize, JNum(10)))]
  }

  /** `getComments(postId, page = 1, size = 10)` and `getCommentReplies` alike. */
  function CommentPaging(page: Option<Json>, size: Option<Json>): (r: seq<(string, Json)>)
    ensures |r| == 2 && r[0].0 == "page" && r[1].0 == "size"
    ensures r[0].1 == (if page.None? then JNum(1) else page.value)
    ensures r[1].1 == (if size.None? then JNum(10) else size.value)
  {
    [("page", DefaultArg(page, JNum(1))), ("size", DefaultArg(size, JNum(10)))]
  }

  /**
   * Default parameters and `||` differ on falsy arguments: page 0 is sent as 0
   * by the course list but replaced by 1 in the booking list.
   */
  lemma DefaultsDifferFromFallbacks()
    ensures CoursePaging(Some(JNum(0)), None) == [("pageNum", JNum(0)), ("pageSize", JNum(10))]
    ensures ExamBookingApi.BookingsQuery(Some(JObj(map["pageNum" := JNum(0)]))).value[3] == ("pageNum", Some(JNum(1)))
  {
  }
}
