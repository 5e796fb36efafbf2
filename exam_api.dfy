/**
 * src/api/exam.js: the exam service's lenient response handler, its
 * null-safe auth-header builder, and the default of `getCreatedExams`.
 */
module ExamApi {
  import opened Wrappers
  import opened Js
  import opened Http

  /** A value that carries a `success` field decides by it. */
  predicate HasSuccessField(data: Json)
  {
    Get(data, "success").Some?
  }

  /**
   * `_handleResponse(response)`: a missing response or a falsy body throws;
   * a body with a `success` field yields `data || []` when it is truthy and
   * throws `message || '请求失败'` when it is falsy; any other body, array or
   * not, is returned as it is.
   */
  function HandleResponse(response: Option<HttpResponse>): (r: Result<Json>)
    ensures response.None? ==> r == Err(Thrown("响应为空"))
    ensures response.Some? && !Present(response.value.data) ==> r == Err(Thrown("响应数据为空"))
    ensures r.Ok? <==> (response.Some? && Present(response.value.data) &&
      (!HasSuccessField(response.value.data.value) || Present(Get(response.value.data.value, "success"))))
    ensures r.Ok? ==> Truthy(r.value)
    ensures r.Err? ==> r.error.Thrown?
    ensures response.Some? && Present(response.value.data) && !HasSuccessField(response.value.data.value) ==>
      r == Ok(response.value.data.value)
  {
    if response.None? then Err(Thrown("响应为空"))
    else if !Present(response.value.data) then Err(Thrown("响应数据为空"))
    else
      var body := response.value.data.value;
      if HasSuccessField(body) then
        if Present(Get(body, "success")) then Ok(Or(Get(body, "data"), JArr([])))
        else Err(ErrorOf(Some(Or(Get(body, "message"), JStr("请求失败")))))
      else Ok(body)
  }

  /** Any envelope with a truthy `success` yields its `data` when truthy, and `[]` otherwise. */
  lemma SuccessUnwraps(response: HttpResponse)
    requires Present(response.data) && Present(Get(response.data.value, "success"))
    ensures
      var payload := Get(response.data.value, "data");
      HandleResponse(Some(response)) == Ok(if Present(payload) then payload.value else JArr([]))
  {
  }

  /**
   * Any envelope whose `success` is defined but falsy throws its message when
   * that is truthy, and '请求失败' otherwise.
   */
  lemma FailureThrowsMessage(response: HttpResponse)
    requires Present(response.data) && HasSuccessField(response.data.value)
    requires !Present(Get(response.data.value, "success"))
    ensures
      var message := Get(response.data.value, "message");
      HandleResponse(Some(response)) == Err(Thrown(if Present(message) then JsonText(message.value) else "请求失败"))
  {
  }

  /**
   * Handing a result without a `success` field back to the handler gives the
   * same result: it is a fixed point.
   */
  lemma HandleResponseStable(response: Option<HttpResponse>, status: int, statusText: string)
    requires HandleResponse(response).Ok?
    requires !HasSuccessField(HandleResponse(response).value)
    ensures HandleResponse(Some(HttpResponse(status, statusText, Some(HandleResponse(response).value)))) ==
      HandleResponse(response)
  {
  }

  /**
   * `_buildAuthHeader(token)`: `{ Authorization: token?.replace('Bearer ', '') || '' }`.
   * Null and undefined give an empty header; a value that is not a string
   * has no `replace` and raises a TypeError.
   */
  function BuildAuthHeader(token: Option<Json>): (r: Result<map<string, string>>)
    ensures r.Ok? <==> Nullish(token) || token.value.JStr?
    ensures r.Ok? ==> r.value.Keys == {"Authorization"}
    ensures Nullish(token) ==> r.value["Authorization"] == ""
    ensures r.Err? ==> r.error.TypeFault?
    ensures token.Some? && token.value.JStr? && !Strings.Contains(token.value.s, Bearer) ==>
      r.value["Authorization"] == token.value.s
  {
    if Nullish(token) then Ok(map["Authorization" := ""])
    else if token.value.JStr? then Ok(map["Authorization" := StripBearer(token.value.s)])
    else Err(TypeFault("token?.replace is not a function"))
  }

  /** A `'Bearer '`-prefixed token is sent without its first prefix. */
  lemma AuthHeaderStripsPrefix(rest: string)
    ensures BuildAuthHeader(Some(JStr(Bearer + rest))) == Ok(map["Authorization" := rest])
  {
    StripBearerOnce(rest);
  }

  /** `getCreatedExams(status = 'ALL', token)`: the default applies only when `status` is undefined. */
  function CreatedExamsQuery(status: Option<Json>): (r: seq<(string, Option<Json>)>)
    ensures |r| == 1 && r[0].0 == "status" && r[0].1.Some?
    ensures status.None? ==> r[0].1 == Some(JStr("ALL"))
    ensures status.Some? ==> r[0].1 == status
  {
    [("status", Some(if status.None? then JStr("ALL") else status.value))]
  }
}
