/**
 * src/store/experiment.js: the experiment cache. The store keeps the list of
 * experiments and bookings, the booking being worked on (mirrored in
 * localStorage and sessionStorage), a loading flag and the last error.
 * Each action runs to completion; the backend call it awaits is an oracle.
 */
module ExperimentStore {
  import opened Wrappers
  import opened Js
  import opened Http

  const BookingKey := "currentBookingId"

  /** `parseInt(status) || 0` */
  function StatusNumber(status: Option<Json>): (r: int)
    ensures ParseInt(status).Some? ==> r == ParseInt(status).value
    ensures ParseInt(status).None? ==> r == 0
  {
    match ParseInt(status)
    case Some(n) => n
    case None => 0
  }

  /** A numeric status is kept as it is. */
  lemma StatusNumberOfNumber(n: int)
    ensures StatusNumber(Some(JNum(n))) == n
  {
    ParseIntOfNumber(n);
  }

  /** `experiments.filter(e => e.subject === subject)` */
  function BySubject(experiments: seq<Json>, subject: Option<Json>): (r: Result<seq<Json>>)
    ensures r.Err? <==> JNull in experiments
    ensures r.Ok? ==> forall x :: x in r.value ==> x in experiments && Get(x, "subject") == subject
    ensures r.Ok? ==> forall i :: 0 <= i < |experiments| && Get(experiments[i], "subject") == subject ==> experiments[i] in r.value
  {
    Select(experiments, "subject", v => v == subject)
  }

  /** The subject filter keeps the order and multiplicity of the experiments. */
  lemma BySubjectInOrder(a: seq<Json>, b: seq<Json>, experiment: Json, subject: Option<Json>)
    requires JNull !in a + b && experiment != JNull
    ensures BySubject(a + b, subject).value == BySubject(a, subject).value + BySubject(b, subject).value
    ensures BySubject([experiment], subject) == Ok(if Get(experiment, "subject") == subject then [experiment] else [])
  {
    SelectAppend(a, b, "subject", v => v == subject);
    SelectSingle(experiment, "subject", v => v == subject);
  }

  /** `experiments.filter(e => e.status === 1)`: the experiments open for booking. */
  function Available(experiments: seq<Json>): (r: Result<seq<Json>>)
    ensures r.Err? <==> JNull in experiments
    ensures r.Ok? ==> forall x :: x in r.value ==> x in experiments && Get(x, "status") == Some(JNum(1))
    ensures r.Ok? ==> forall i :: 0 <= i < |experiments| && Get(experiments[i], "status") == Some(JNum(1)) ==> experiments[i] in r.value
  {
    Select(experiments, "status", v => v == Some(JNum(1)))
  }

  /** The experiments open for booking keep their order and multiplicity. */
  lemma AvailableInOrder(a: seq<Json>, b: seq<Json>, experiment: Json)
    requires JNull !in a + b && experiment != JNull
    ensures Available(a + b).value == Available(a).value + Available(b).value
    ensures Available([experiment]) == Ok(if Get(experiment, "status") == Some(JNum(1)) then [experiment] else [])
  {
    SelectAppend(a, b, "status", v => v == Some(JNum(1)));
    SelectSingle(experiment, "status", v => v == Some(JNum(1)));
  }

  /** A string status '1' is not available: the filter compares strictly. */
  lemma AvailableIsStrict(rest: map<string, Json>)
    ensures Available([JObj(rest["status" := JStr("1")])]) == Ok([])
    ensures Available([JObj(rest["status" := JNum(1)])]) == Ok([JObj(rest["status" := JNum(1)])])
  {
    assert [JObj(rest["status" := JStr("1")])][1..] == [];
    var x := JObj(rest["status" := JNum(1)]);
    assert [x][1..] == [];
    assert Get(x, "status") == Some(JNum(1));
    var kept := Available([x]).value;
    assert x in kept && |kept| <= 1;
    assert kept[0] == x;
    assert kept == [x];
    assert Available([x]) == Ok([x]);
  }

  /** The record `getExperimentById` caches: its status made a number, or a TypeError for a primitive. */
  function WithNumericStatus(experiment: Json): (r: Result<Json>)
    requires Truthy(experiment)
    ensures r.Err? <==> !experiment.JObj? && !experiment.JArr?
    ensures experiment.JObj? ==> r == Ok(JObj(experiment.fields["status" := JNum(StatusNumber(Get(experiment, "status")))]))
    ensures experiment.JArr? ==> r == Ok(experiment)
  {
    match experiment
    case JObj(fields) => Ok(JObj(fields["status" := JNum(StatusNumber(Get(experiment, "status")))]))
    case JArr(_) => Ok(experiment)
    case _ => Err(TypeFault("Cannot create property 'status' on " + JsonText(experiment)))
  }

  /**
   * The service's transform for `getExperimentById` has already returned
   * `parsed.data`, so `response.data` is the record itself: the store's
   * `response.data.data` reads the record's own `data` field, which a record
   * without one lacks.
   */
  lemma RecordWithoutDataMissing(record: map<string, Json>, rest: map<string, Json>)
    requires "data" !in record
    ensures !Present(Member(Get(JObj(rest["data" := JObj(record)]), "data"), "data"))
  {
  }

  /** `response.data`: the record the store evidently means to cache. */
  function RecordPayload(response: Json): (r: Option<Json>)
    ensures response.JObj? && "data" in response.fields ==> r == Some(response.fields["data"])
    ensures !(response.JObj? && "data" in response.fields) ==> r.None?
  {
    Get(response, "data")
  }

  /** The intended read finds every record the service returns, and its status can then be made a number. */
  lemma RecordPayloadKept(record: map<string, Json>, rest: map<string, Json>)
    ensures RecordPayload(JObj(rest["data" := JObj(record)])) == Some(JObj(record))
    ensures WithNumericStatus(JObj(record)).Ok?
  {
  }

  class Store {
    var experiments: seq<Json>
    var bookings: seq<Json>
    var currentBookingId: Option<Json>
    var isLoading: bool
    var error: Option<Error>
    const local: Storage
    const session: Storage

    /** The initial state; the current booking is read back from localStorage. */
    constructor (local: Storage, session: Storage)
      ensures this.local == local && this.session == session
      ensures experiments == [] && bookings == [] && !isLoading && error.None?
      ensures currentBookingId ==
        if BookingKey in local.items && local.items[BookingKey] != "" then Some(JStr(local.items[BookingKey])) else Some(JNull)
    {
      this.local := local;
      this.session := session;
      experiments := [];
      bookings := [];
      isLoading := false;
      error := None;
      var stored := local.GetItem(BookingKey);
      currentBookingId := if stored.Some? && stored.value != "" then Some(JStr(stored.value)) else Some(JNull);
    }

    /**
     * `fetchExperiments(forceRefresh)`: a non-empty cache is returned as it is
     * unless a refresh is forced. Otherwise the list is fetched: an array
     * replaces the cache, anything else empties it with a warning; a failure
     * is recorded, announced and rethrown with the cache untouched.
     */
    method FetchExperiments(forceRefresh: bool, api: ApiOutcome) returns (r: Result<seq<Json>>, effects: seq<Effect>)
      modifies this
      ensures |old(experiments)| > 0 && !forceRefresh ==>
        r == Ok(old(experiments)) && effects == [] &&
        experiments == old(experiments) && isLoading == old(isLoading) && error == old(error)
      ensures !(|old(experiments)| > 0 && !forceRefresh) ==> !isLoading && |effects| >= 1 && effects[0] == Call("getExperiments")
      ensures !(|old(experiments)| > 0 && !forceRefresh) && api.Threw? ==>
        r == Err(api.error) && error == Some(api.error) && experiments == old(experiments) &&
        effects == [Call("getExperiments"), Toast(Failure, "加载实验数据失败")]
      ensures !(|old(experiments)| > 0 && !forceRefresh) && api.Returned? && !Nullish(api.value) ==>
        error.None? && r == Ok(experiments) &&
        var data := Get(api.value.value, "data");
        if data.Some? && data.value.JArr? then experiments == data.value.items && effects == [Call("getExperiments")]
        else experiments == [] && effects == [Call("getExperiments"), Toast(Warning, "获取实验数据格式错误")]
      ensures !(|old(experiments)| > 0 && !forceRefresh) && api.Returned? && Nullish(api.value) ==>
        r.Err? && r.error.TypeFault? && error == Some(r.error) && experiments == old(experiments) &&
        effects == [Call("getExperiments"), Toast(Failure, "加载实验数据失败")]
      ensures bookings == old(bookings) && currentBookingId == old(currentBookingId)
    {
      if |experiments| > 0 && !forceRefresh {
        return Ok(experiments), [];
      }
      isLoading := true;
      error := None;
      effects := [Call("getExperiments")];
      var outcome: Result<Option<Json>> := if api.Threw? then Err(api.error) else Prop(api.value, "data");
      match outcome {
        case Ok(data) =>
          if data.Some? && data.value.JArr? {
            experiments := data.value.items;
          } else {
            experiments := [];
            effects := effects + [Toast(Warning, "获取实验数据格式错误")];
          }
          r := Ok(experiments);
        case Err(e) =>
          error := Some(e);
          effects := effects + [Toast(Failure, "加载实验数据失败")];
          r := Err(e);
      }
      isLoading := false;
    }

    /** `setCurrentBookingId(id)`: the field and both storages are set together (storage holds `String(id)`). */
    method SetCurrentBookingId(id: Option<Json>)
      requires local != session
      modifies this, local, session
      ensures currentBookingId == id
      ensures local.items == old(local.items)[BookingKey := ToText(id)]
      ensures session.items == old(session.items)[BookingKey := ToText(id)]
      ensures experiments == old(experiments) && bookings == old(bookings)
      ensures isLoading == old(isLoading) && error == old(error)
    {
      currentBookingId := id;
      local.SetItem(BookingKey, ToText(id));
      session.SetItem(BookingKey, ToText(id));
    }

    /** `clearCurrentBookingId()`: the field becomes null and the key leaves both storages. */
    method ClearCurrentBookingId()
      requires local != session
      modifies this, local, session
      ensures currentBookingId == Some(JNull)
      ensures local.items == old(local.items) - {BookingKey}
      ensures session.items == old(session.items) - {BookingKey}
      ensures experiments == old(experiments) && bookings == old(bookings)
      ensures isLoading == old(isLoading) && error == old(error)
    {
      currentBookingId := Some(JNull);
      local.RemoveItem(BookingKey);
      session.RemoveItem(BookingKey);
    }

    /**
     * `bookExperiment(bookingData)`: a booking that comes back is put first,
     * becomes the current booking and is announced; an empty response throws
     * '预约响应数据为空'. Every failure is recorded and shown as
     * `预约失败: <message>` before it is rethrown.
     */
    method BookExperiment(bookingData: Option<Json>, api: ApiOutcome) returns (r: Result<Json>, effects: seq<Effect>)
      requires local != session
      modifies this, local, session
      ensures !isLoading && experiments == old(experiments)
      ensures r.Ok? <==> !Nullish(bookingData) && api.Returned? && Present(Member(api.value, "data"))
      ensures r.Ok? ==>
        && r.value == Member(api.value, "data").value
        && bookings == [r.value] + old(bookings)
        && currentBookingId == Get(r.value, "id")
        && local.items == old(local.items)[BookingKey := ToText(Get(r.value, "id"))]
        && session.items == old(session.items)[BookingKey := ToText(Get(r.value, "id"))]
        && error.None? && effects == [Call("bookExperiment"), Toast(Success, "实验预约成功")]
      ensures r.Err? ==>
        && bookings == old(bookings) && currentBookingId == old(currentBookingId)
        && local.items == old(local.items) && session.items == old(session.items)
        && error == Some(r.error) && |effects| >= 1 && effects[|effects| - 1] == Toast(Failure, "预约失败: " + r.error.message)
      ensures !Nullish(bookingData) && api.Returned? && !Nullish(api.value) && !Present(Member(api.value, "data")) ==>
        r == Err(Thrown("预约响应数据为空"))
      ensures !Nullish(bookingData) && api.Threw? ==> r == Err(api.error)
    {
      isLoading := true;
      error := None;
      effects := [];
      var failure: Error;
      if Nullish(bookingData) {
        failure := ReadFault(bookingData, "experimentId");
      } else {
        effects := effects + [Call("bookExperiment")];
        if api.Threw? {
          failure := api.error;
        } else if Nullish(api.value) {
          failure := ReadFault(api.value, "data");
        } else {
          var data := Get(api.value.value, "data");
          if Present(data) {
            bookings := [data.value] + bookings;
            SetCurrentBookingId(Get(data.value, "id"));
            effects := effects + [Toast(Success, "实验预约成功")];
            isLoading := false;
            return Ok(data.value), effects;
          }
          failure := Thrown("预约响应数据为空");
        }
      }
      error := Some(failure);
      effects := effects + [Toast(Failure, "预约失败: " + failure.message)];
      isLoading := false;
      r := Err(failure);
    }

    /**
     * `getExperimentById(id)`: a cached experiment whose id is loosely equal
     * is returned with no request. Otherwise the experiment is fetched and,
     * when the body carries one, appended with its status made a number; a
     * body without one throws '实验不存在' and the cache stays as it was.
     */
    method GetExperimentById(id: Option<Json>, api: ApiOutcome) returns (r: Result<Json>, effects: seq<Effect>)
      modifies this
      ensures bookings == old(bookings) && currentBookingId == old(currentBookingId)
      ensures isLoading == old(isLoading) && error == old(error)
      ensures var found := FirstMatch(old(experiments), "id", v => LooseEquals(v, id));
        found.Hit? && Truthy(old(experiments)[found.index]) ==>
          r == Ok(old(experiments)[found.index]) && effects == [] && experiments == old(experiments)
      ensures FirstMatch(old(experiments), "id", v => LooseEquals(v, id)).Fault? ==>
        r.Err? && r.error.TypeFault? && effects == [] && experiments == old(experiments)
      ensures r.Err? ==> experiments == old(experiments)
      ensures r.Ok? && effects != [] ==> experiments == old(experiments) + [r.value] && effects == [Call("getExperimentById")]
      ensures effects != [] && api.Returned? && !Nullish(api.value) && !Present(Member(Get(api.value.value, "data"), "data")) ==>
        r == Err(Thrown("实验不存在"))
      ensures var found := FirstMatch(old(experiments), "id", v => LooseEquals(v, id));
        !found.Fault? && !(found.Hit? && Truthy(old(experiments)[found.index])) ==> effects == [Call("getExperimentById")]
      ensures effects != [] && api.Threw? ==> r == Err(api.error)
      ensures effects != [] && api.Returned? && Nullish(api.value) ==> r.Err? && r.error.TypeFault?
      ensures effects != [] && api.Returned? && !Nullish(api.value) && Present(Member(Get(api.value.value, "data"), "data")) ==>
        r == WithNumericStatus(Member(Get(api.value.value, "data"), "data").value)
    {
      var found := FindBy(experiments, "id", v => LooseEquals(v, id));
      if found.Fault? {
        return Err(ReadFault(Some(JNull), "id")), [];
      }
      if found.Hit? && Truthy(experiments[found.index]) {
        return Ok(experiments[found.index]), [];
      }
      effects := [Call("getExperimentById")];
      if api.Threw? {
        return Err(api.error), effects;
      }
      if Nullish(api.value) {
        return Err(ReadFault(api.value, "data")), effects;
      }
      var body := Get(api.value.value, "data");
      var payload := Member(body, "data");
      if !Present(payload) {
        return Err(Thrown("实验不存在")), effects;
      }
      var record := WithNumericStatus(payload.value);
      if record.Err? {
        return Err(record.error), effects;
      }
      experiments := experiments + [record.value];
      r := Ok(record.value);
    }
  }
}
