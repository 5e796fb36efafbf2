/**
 * src/api/examBooking.js: the booking service's strict response handler, its
 * auth-header builder without a null guard, and the query parameters of
 * `getBookings` and `getBookingStats`.
 */
module ExamBookingApi {
  import opened Wrappers
  import opened Js
  import opened Http
  import ExamApi

  /**
   * `_handleResponse(response)`: only a truthy body with a truthy `success`
   * is accepted, and its `data` is returned as it is, possibly undefined.
   * Everything else throws `response.data?.message || '请求失败'`.
   */
  function HandleResponse(response: HttpResponse): (r: Result<Option<Json>>)
    ensures r.Ok? <==> Present(response.data) && Present(Get(response.data.value, "success"))
    ensures r.Ok? ==> r.value == Get(response.data.value, "data")
    ensures r.Err? ==> r.error.Thrown?
    ensures r.Err? && Present(Member(response.data, "message")) ==>
      r.error.message == JsonText(Member(response.data, "message").value)
    ensures r.Err? && !Present(Member(response.data, "message")) ==> r.error.message == "请求失败"
  {
    if Present(response.data) && Present(Get(response.data.value, "success")) then
      Ok(Get(response.data.value, "data"))
    else
      Err(ErrorOf(Some(Or(Member(response.data, "message"), JStr("请求失败")))))
  }

  /**
   * Whatever the body, a falsy or missing `success` (or no body at all)
   * throws the body's message when it has a truthy one, and '请求失败' otherwise.
   */
  lemma RefusalMessage(response: HttpResponse)
    requires !Present(Member(response.data, "success"))
    ensures
      var message := Member(response.data, "message");
      HandleResponse(response) == Err(Thrown(if Present(message) then JsonText(message.value) else "请求失败"))
  {
  }

  /** A bare array, which the lenient handler returns as it is, is refused here. */
  lemma BareArrayRefused(status: int, statusText: string, items: seq<Json>)
    ensures HandleResponse(HttpResponse(status, statusText, Some(JArr(items)))) == Err(Thrown("请求失败"))
    ensures ExamApi.HandleResponse(Some(HttpResponse(status, statusText, Some(JArr(items))))) == Ok(JArr(items))
  {
  }

  /**
   * Whatever the strict handler accepts with a truthy payload, the lenient
   * one accepts with the same value; on a falsy payload they part ways
   * (the lenient one substitutes `[]`).
   */
  lemma StrictImpliesLenient(response: HttpResponse)
    requires HandleResponse(response).Ok?
    ensures ExamApi.HandleResponse(Some(response)).Ok?
    ensures Present(HandleResponse(response).value) ==>
      ExamApi.HandleResponse(Some(response)).value == HandleResponse(response).value.value
    ensures !Present(HandleResponse(response).value) ==> ExamApi.HandleResponse(Some(response)).value == JArr([])
  {
  }

  /** A body without `success` is refused even when it carries data. */
  lemma MissingFlagRefused(response: HttpResponse)
    requires Present(response.data) && Get(response.data.value, "success").None?
    ensures HandleResponse(response).Err?
    ensures ExamApi.HandleResponse(Some(response)) == Ok(response.data.value)
  {
  }

  /**
   * `_buildAuthHeader(token)`: `{ Authorization: token.replace('Bearer ', '') }`
   * with no guard, so null, undefined and non-strings raise a TypeError.
   */
  function BuildAuthHeader(token: Option<Json>): (r: Result<map<string, string>>)
    ensures r.Ok? <==> token.Some? && token.value.JStr?
    ensures r.Ok? ==> r.value.Keys == {"Authorization"}
    ensures r.Err? ==> r.error.TypeFault?
    ensures token.Some? && token.value.JStr? && !Strings.Contains(token.value.s, Bearer) ==>
      r.value["Authorization"] == token.value.s
  {
    match token
    case Some(JStr(s)) => Ok(map["Authorization" := StripBearer(s)])
    case Some(JNull) => Err(ReadFault(token, "replace"))
    case None => Err(ReadFault(token, "replace"))
    case Some(_) => Err(TypeFault("token.replace is not a function"))
  }

  /** On every string token the two builders agree; on a missing one only the guarded one answers. */
  lemma HeaderBuildersAgreeOnStrings(token: Option<Json>)
    ensures token.Some? && token.value.JStr? ==> BuildAuthHeader(token) == ExamApi.BuildAuthHeader(token)
    ensures Nullish(token) ==> BuildAuthHeader(token).Err? && ExamApi.BuildAuthHeader(token).Ok?
  {
  }

  /** `params = {}`: the default applies only to undefined; a null argument is read and raises a TypeError. */
  function Arguments(params: Option<Json>, key: string): (r: Result<Option<Json>>)
    ensures r.Err? <==> params == Some(JNull)
    ensures params.None? ==> r == Ok(None)
    ensures params.Some? && r.Ok? ==> r.value == Get(params.value, key)
  {
    if params.None? then Ok(None) else Prop(params, key)
  }

  /** The paging value sent: the argument when truthy, else the default. */
  function PageValue(given: Option<Json>, default: int): (r: Json)
    ensures Truthy(r) <==> Present(given) || default != 0
    ensures Present(given) ==> r == given.value
    ensures !Present(given) ==> r == JNum(default)
  {
    Or(given, JNum(default))
  }

  /**
   * `getBookings(params)`: status, startDate and endDate pass through;
   * pageNum and pageSize fall back to 1 and 20 when absent or falsy.
   */
  function BookingsQuery(params: Option<Json>): (r: Result<seq<(string, Option<Json>)>>)
    ensures r.Err? <==> params == Some(JNull)
    ensures r.Ok? ==> |r.value| == 5
    ensures r.Ok? ==> r.value[0].0 == "status" && r.value[1].0 == "startDate" && r.value[2].0 == "endDate"
    ensures r.Ok? ==> r.value[3].0 == "pageNum" && r.value[4].0 == "pageSize"
    ensures r.Ok? ==> r.value[3].1.Some? && Truthy(r.value[3].1.value)
    ensures r.Ok? ==> r.value[4].1.Some? && Truthy(r.value[4].1.value)
    ensures r.Err? ==> r.error.TypeFault?
    ensures r.Ok? ==> r.value[0].1 == Arguments(params, "status").value
    ensures r.Ok? ==> r.value[1].1 == Arguments(params, "startDate").value
    ensures r.Ok? ==> r.value[2].1 == Arguments(params, "endDate").value
    ensures r.Ok? ==> r.value[3].1 == Some(PageValue(Arguments(params, "pageNum").value, 1))
    ensures r.Ok? ==> r.value[4].1 == Some(PageValue(Arguments(params, "pageSize").value, 20))
    ensures params.None? ==> r == Ok([("status", None), ("startDate", None), ("endDate", None),
                                      ("pageNum", Some(JNum(1))), ("pageSize", Some(JNum(20)))])
  {
    if params == Some(JNull) then Err(ReadFault(params, "status"))
    else
      var p := if params.None? then JObj(map[]) else params.value;
      Ok([("status", Get(p, "status")), ("startDate", Get(p, "startDate")), ("endDate", Get(p, "endDate")),
          ("pageNum", Some(PageValue(Get(p, "pageNum"), 1))), ("pageSize", Some(PageValue(Get(p, "pageSize"), 20)))])
  }

  /** Page number 0 and size 0 are falsy and are replaced by the defaults. */
  lemma ZeroPagingReplaced(rest: map<string, Json>)
    ensures BookingsQuery(Some(JObj(rest["pageNum" := JNum(0)]["pageSize" := JNum(0)]))).value[3..] ==
      [("pageNum", Some(JNum(1))), ("pageSize", Some(JNum(20)))]
  {
  }

  /** `getBookingStats(params)`: only startDate and endDate are forwarded. */
  function StatsQuery(params: Option<Json>): (r: Result<seq<(string, Option<Json>)>>)
    ensures r.Err? <==> params == Some(JNull)
    ensures r.Err? ==> r.error.TypeFault?
    ensures r.Ok? ==> |r.value| == 2 && r.value[0].0 == "startDate" && r.value[1].0 == "endDate"
    ensures r.Ok? ==> r.value[0].1 == Arguments(params, "startDate").value
    ensures r.Ok? ==> r.value[1].1 == Arguments(params, "endDate").value
  {
    if params == Some(JNull) then Err(ReadFault(params, "startDate"))
    else
      var p := if params.None? then JObj(map[]) else params.value;
      Ok([("startDate", Get(p, "startDate")), ("endDate", Get(p, "endDate"))])
  }

  /** No other field of the argument reaches the request. */
  lemma StatsIgnoresOtherFields(a: map<string, Json>, b: map<string, Json>)
    requires ("startDate" in a <==> "startDate" in b) && ("endDate" in a <==> "endDate" in b)
    requires "startDate" in a ==> a["startDate"] == b["startDate"]
    requires "endDate" in a ==> a["endDate"] == b["endDate"]
    ensures StatsQuery(Some(JObj(a))) == StatsQuery(Some(JObj(b)))
  {
  }
}
