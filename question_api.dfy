/**
 * src/api/question.js: the question service keeps its own copy of the
 * lenient response handler and the null-safe auth-header builder. The copy
 * is modelled on its own and then shown to follow the exam service's rules.
 */
module QuestionApi {
  import opened Wrappers
  import opened Js
  import opened Http
  import ExamApi

  /** `_handleResponse(response)` of the question service. */
  function HandleResponse(response: Option<HttpResponse>): (r: Result<Json>)
    ensures response.None? ==> r == Err(Thrown("响应为空"))
    ensures response.Some? && !Present(response.value.data) ==> r == Err(Thrown("响应数据为空"))
    ensures r.Ok? ==> Truthy(r.value)
    ensures r.Err? ==> r.error.Thrown?
  {
    match response
    case None => Err(Thrown("响应为空"))
    case Some(resp) =>
      if !Present(resp.data) then Err(Thrown("响应数据为空"))
      else match Get(resp.data.value, "success")
        case None => Ok(resp.data.value)
        case Some(flag) =>
          if Truthy(flag) then Ok(Or(Get(resp.data.value, "data"), JArr([])))
          else Err(ErrorOf(Some(Or(Get(resp.data.value, "message"), JStr("请求失败")))))
  }

  /** `_buildAuthHeader(token)` of the question service. */
  function BuildAuthHeader(token: Option<Json>): (r: Result<map<string, string>>)
    ensures r.Ok? ==> r.value.Keys == {"Authorization"}
    ensures Nullish(token) ==> r == Ok(map["Authorization" := ""])
  {
    match token
    case None => Ok(map["Authorization" := ""])
    case Some(JNull) => Ok(map["Authorization" := ""])
    case Some(JStr(s)) => Ok(map["Authorization" := StripBearer(s)])
    case Some(_) => Err(TypeFault("token?.replace is not a function"))
  }

  /** The question service decodes every response exactly as the exam service does. */
  lemma SameDecodeAsExam(response: Option<HttpResponse>)
    ensures HandleResponse(response) == ExamApi.HandleResponse(response)
  {
  }

  /** ... and builds the same header from every token. */
  lemma SameHeaderAsExam(token: Option<Json>)
    ensures BuildAuthHeader(token) == ExamApi.BuildAuthHeader(token)
  {
  }
}
