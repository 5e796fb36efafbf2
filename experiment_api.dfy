/**
 * src/api/experiment.js: the experiment service's response transforms
 * (applied to the parsed body before the caller sees it), the id guard of
 * `updateExperimentStatus`, and the token helpers.
 */
module ExperimentApi {
  import opened Wrappers
  import opened Js
  import opened Http
  import ExamApi

  /** `JSON.parse(data)`: a parsed value, or `None` when the text is not JSON (a SyntaxError). */
  type ParsedBody = Option<Json>

  const SyntaxFault := Thrown("SyntaxError: Unexpected token in JSON")

  /**
   * One element of `getExperiments`: `{...item, status: item.status || 0,
   * approval_status: item.approvalStatus || item.approval_status || 0}`.
   */
  function ExperimentItem(item: Json): (r: Json)
    requires item != JNull
    ensures r.JObj? && r.fields.Keys == Spread(item).Keys + {"status", "approval_status"}
    ensures forall k :: k in Spread(item) && k != "status" && k != "approval_status" ==> r.fields[k] == item.fields[k]
    ensures r.fields["status"] == if Present(Get(item, "status")) then Get(item, "status").value else JNum(0)
    ensures Present(Get(item, "approvalStatus")) ==> r.fields["approval_status"] == Get(item, "approvalStatus").value
    ensures !Present(Get(item, "approvalStatus")) && Present(Get(item, "approval_status")) ==>
      r.fields["approval_status"] == Get(item, "approval_status").value
    ensures !Present(Get(item, "approvalStatus")) && !Present(Get(item, "approval_status")) ==>
      r.fields["approval_status"] == JNum(0)
  {
    JObj(Spread(item)["status" := Or(Get(item, "status"), JNum(0))]
                     ["approval_status" := Or(Get(item, "approvalStatus"), Or(Get(item, "approval_status"), JNum(0)))])
  }

  /** `items.map(ExperimentItem)`: a null element cannot be read and raises a TypeError. */
  function ExperimentItems(items: seq<Json>): (r: Result<seq<Json>>)
    ensures r.Ok? <==> JNull !in items
    ensures r.Ok? ==> |r.value| == |items| && forall i :: 0 <= i < |items| ==> r.value[i] == ExperimentItem(items[i])
    ensures r.Err? ==> r.error.TypeFault?
  {
    if items == [] then Ok([])
    else if items[0] == JNull then Err(ReadFault(Some(JNull), "status"))
    else match ExperimentItems(items[1..])
      case Err(e) => Err(e)
      case Ok(rest) => Ok([ExperimentItem(items[0])] + rest)
  }

  /**
   * The transform of `getExperiments`: the list under `data`, element by
   * element, in the same order. Unparsable text, a missing body or a `data`
   * that is not an array throws.
   */
  function ExperimentsTransform(parsed: ParsedBody): (r: Result<Json>)
    ensures r.Ok? <==> (parsed.Some? && parsed.value != JNull && Get(parsed.value, "data").Some? &&
      Get(parsed.value, "data").value.JArr? && JNull !in Get(parsed.value, "data").value.items)
    ensures r.Ok? ==> r.value.JArr? && |r.value.items| == |Get(parsed.value, "data").value.items|
    ensures r.Ok? ==> forall i :: 0 <= i < |r.value.items| ==>
      r.value.items[i] == ExperimentItem(Get(parsed.value, "data").value.items[i])
  {
    if parsed.None? then Err(SyntaxFault)
    else match Prop(parsed, "data")
      case Err(e) => Err(e)
      case Ok(data) =>
        if data.None? then Err(ReadFault(data, "map"))
        else if !data.value.JArr? then Err(TypeFault("parsed.data.map is not a function"))
        else match ExperimentItems(data.value.items)
          case Err(e) => Err(e)
          case Ok(items) => Ok(JArr(items))
  }

  /**
   * The transform of `getBooking`: `{...data, approval_status:
   * data.approval_status ?? data.approvalStatus ?? 0}` when `data` is
   * truthy, `null` when it is not, when the body is null, or when the text is
   * not JSON.
   */
  function BookingTransform(parsed: ParsedBody): (r: Json)
    ensures r == JNull <==> !Present(Member(parsed, "data"))
    ensures r != JNull ==> r.JObj? && "approval_status" in r.fields
    ensures r != JNull ==> forall k :: k in Spread(Member(parsed, "data").value) && k != "approval_status" ==>
      k in r.fields && r.fields[k] == Spread(Member(parsed, "data").value)[k]
    ensures r != JNull && !Nullish(Get(Member(parsed, "data").value, "approval_status")) ==>
      r.fields["approval_status"] == Get(Member(parsed, "data").value, "approval_status").value
    ensures r != JNull && Nullish(Get(Member(parsed, "data").value, "approval_status"))
                       && !Nullish(Get(Member(parsed, "data").value, "approvalStatus")) ==>
      r.fields["approval_status"] == Get(Member(parsed, "data").value, "approvalStatus").value
    ensures r != JNull && Nullish(Get(Member(parsed, "data").value, "approval_status"))
                       && Nullish(Get(Member(parsed, "data").value, "approvalStatus")) ==>
      r.fields["approval_status"] == JNum(0)
  {
    var data := Member(parsed, "data");
    if !Present(data) then JNull
    else
      JObj(Spread(data.value)["approval_status" :=
        Coalesce(Get(data.value, "approval_status"), Coalesce(Get(data.value, "approvalStatus"), JNum(0)))])
  }

  /** `??` keeps a zero status that `||` would replace: the two transforms read the same record differently. */
  lemma FalsyVersusNullish(rest: map<string, Json>)
    ensures
      var record := JObj(rest["approval_status" := JNum(0)]["approvalStatus" := JNum(2)]);
      && BookingTransform(Some(JObj(map["data" := record]))).fields["approval_status"] == JNum(0)
      && ExperimentItem(record).fields["approval_status"] == JNum(2)
    ensures
      var record := JObj(rest["approval_status" := JNum(2)]["approvalStatus" := JNum(0)]);
      && BookingTransform(Some(JObj(map["data" := record]))).fields["approval_status"] == JNum(2)
      && ExperimentItem(record).fields["approval_status"] == JNum(2)
  {
  }

  /** The transform of `getAvailableTimeSlots`: `data` when it is an array, `[]` otherwise or when parsing fails. */
  function TimeSlotsTransform(parsed: ParsedBody): (r: Json)
    ensures r.JArr?
    ensures Member(parsed, "data").Some? && Member(parsed, "data").value.JArr? ==> r == Member(parsed, "data").value
    ensures !(Member(parsed, "data").Some? && Member(parsed, "data").value.JArr?) ==> r == JArr([])
  {
    var data := Member(parsed, "data");
    if data.Some? && data.value.JArr? then data.value else JArr([])
  }

  /** A request `updateExperimentStatus` makes: the id that goes into the path and the status parameter. */
  datatype StatusUpdate = StatusUpdate(id: Json, status: Option<Json>)

  /**
   * `updateExperimentStatus({ id, status })`: a null or undefined id rejects
   * with '实验ID不能为空' before any request; every other id, 0 included, is sent.
   */
  function UpdateExperimentStatus(args: Option<Json>): (r: Result<StatusUpdate>)
    ensures r.Ok? <==> !Nullish(args) && !Nullish(Get(args.value, "id"))
    ensures !Nullish(args) && Nullish(Get(args.value, "id")) ==> r == Err(Thrown("实验ID不能为空"))
    ensures r.Ok? ==> Some(r.value.id) == Get(args.value, "id") && r.value.status == Get(args.value, "status")
  {
    match Prop(args, "id")
    case Err(e) => Err(e)
    case Ok(id) =>
      if Nullish(id) then Err(Thrown("实验ID不能为空"))
      else Ok(StatusUpdate(id.value, Get(args.value, "status")))
  }

  /** Id 0 and the empty string are falsy but still sent. */
  lemma FalsyIdsAllowed(status: Option<Json>)
    ensures UpdateExperimentStatus(Some(JObj(map["id" := JNum(0)]))).Ok?
    ensures UpdateExperimentStatus(Some(JObj(map["id" := JStr("")]))).Ok?
  {
  }

  /** `_buildAuthHeader(token)` of the experiment service: `token?.replace('Bearer ', '') || ''`. */
  function BuildAuthHeader(token: Option<Json>): (r: Result<map<string, string>>)
    ensures r.Ok? ==> r.value.Keys == {"Authorization"}
    ensures Nullish(token) ==> r == Ok(map["Authorization" := ""])
    ensures token.Some? && token.value.JStr? ==> r.Ok?
  {
    match token
    case None => Ok(map["Authorization" := ""])
    case Some(JNull) => Ok(map["Authorization" := ""])
    case Some(JStr(s)) => Ok(map["Authorization" := StripBearer(s)])
    case Some(_) => Err(TypeFault("token?.replace is not a function"))
  }

  /** The experiment service builds its header by the exam service's rule. */
  lemma SameHeaderAsExam(token: Option<Json>)
    ensures BuildAuthHeader(token) == ExamApi.BuildAuthHeader(token)
  {
  }

  /** `getToken()`: the stored token, or '' when none is stored. */
  function GetToken(stored: map<string, string>): (r: string)
    ensures "token" in stored ==> r == stored["token"]
    ensures "token" !in stored ==> r == ""
  {
    if "token" in stored && stored["token"] != "" then stored["token"] else ""
  }

  /** `checkAuth()`: throws '未登录，请先登录' exactly when no non-empty token is stored, and otherwise returns it. */
  function CheckAuth(stored: map<string, string>): (r: Result<string>)
    ensures r.Err? <==> "token" !in stored || stored["token"] == ""
    ensures r.Err? ==> r.error == Thrown("未登录，请先登录")
    ensures r.Ok? ==> r.value == stored["token"] && r.value != ""
  {
    var token := GetToken(stored);
    if token == "" then Err(Thrown("未登录，请先登录")) else Ok(token)
  }

  /** Every header the service sends is built from the stored token and never fails. */
  lemma StoredTokenHeader(stored: map<string, string>)
    ensures BuildAuthHeader(Some(JStr(GetToken(stored)))).Ok?
    ensures CheckAuth(stored).Err? ==> BuildAuthHeader(Some(JStr(GetToken(stored)))) == Ok(map["Authorization" := ""])
  {
  }
}
