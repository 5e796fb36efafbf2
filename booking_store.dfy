/**
 * src/stores/booking.js: the exam-booking store. It holds the time slots,
 * the user's bookings and notifications, and a loading flag; derived views
 * filter them. Each action runs to completion; the backend calls it awaits
 * are oracles, already decoded by the booking service.
 */
module BookingStore {
  import opened Wrappers
  import opened Js
  import opened Http
  import ExamBookingApi

  const Read := JStr("READ")

  /** `list.filter(...)` on a value that is not an array has no `filter` and raises a TypeError. */
  function SelectIn(list: Json, key: string, keep: Option<Json> -> bool): (r: Result<seq<Json>>)
    ensures !list.JArr? ==> r.Err? && r.error.TypeFault?
    ensures list.JArr? ==> r == Select(list.items, key, keep)
  {
    if list.JArr? then Select(list.items, key, keep) else Err(TypeFault("filter is not a function"))
  }

  /** `notifications.filter(n => n.sendStatus !== 'READ')` */
  function Unread(notifications: Json): (r: Result<seq<Json>>)
    ensures r.Ok? <==> notifications.JArr? && JNull !in notifications.items
    ensures r.Ok? ==> forall n :: n in r.value ==> n in notifications.items && Get(n, "sendStatus") != Some(Read)
    ensures r.Ok? ==> forall i :: 0 <= i < |notifications.items| && Get(notifications.items[i], "sendStatus") != Some(Read) ==>
      notifications.items[i] in r.value
  {
    SelectIn(notifications, "sendStatus", IsUnread)
  }

  predicate IsUnread(sendStatus: Option<Json>)
  {
    sendStatus != Some(Read)
  }

  /**
   * The filter keeps the order and the multiplicity of the notifications:
   * it distributes over concatenation and keeps a single record exactly when it is unread.
   */
  lemma UnreadInOrder(a: seq<Json>, b: seq<Json>, n: Json)
    requires JNull !in a + b && n != JNull
    ensures Unread(JArr(a + b)).value == Unread(JArr(a)).value + Unread(JArr(b)).value
    ensures Unread(JArr([n])) == Ok(if Get(n, "sendStatus") != Some(Read) then [n] else [])
  {
    SelectAppend(a, b, "sendStatus", IsUnread);
    SelectSingle(n, "sendStatus", IsUnread);
  }

  /** `unreadNotifications.length` */
  function UnreadCount(notifications: Json): (r: Result<nat>)
    ensures r.Ok? <==> Unread(notifications).Ok?
    ensures r.Ok? ==> r.value <= |notifications.items|
  {
    match Unread(notifications)
    case Ok(unread) => Ok(|unread|)
    case Err(e) => Err(e)
  }

  /** `bookings.filter(b => ['BOOKED', 'CONFIRMED'].includes(b.bookingStatus))` */
  function Active(bookings: Json): (r: Result<seq<Json>>)
    ensures r.Ok? <==> bookings.JArr? && JNull !in bookings.items
    ensures r.Ok? ==> forall b :: b in r.value ==>
      b in bookings.items && Get(b, "bookingStatus") in {Some(JStr("BOOKED")), Some(JStr("CONFIRMED"))}
    ensures r.Ok? ==> forall i :: (0 <= i < |bookings.items| &&
      Get(bookings.items[i], "bookingStatus") in {Some(JStr("BOOKED")), Some(JStr("CONFIRMED"))}) ==> bookings.items[i] in r.value
  {
    SelectIn(bookings, "bookingStatus", IsActive)
  }

  predicate IsActive(bookingStatus: Option<Json>)
  {
    bookingStatus == Some(JStr("BOOKED")) || bookingStatus == Some(JStr("CONFIRMED"))
  }

  /** The active bookings keep their order and multiplicity, like the unread notifications. */
  lemma ActiveInOrder(a: seq<Json>, b: seq<Json>, booking: Json)
    requires JNull !in a + b && booking != JNull
    ensures Active(JArr(a + b)).value == Active(JArr(a)).value + Active(JArr(b)).value
    ensures Active(JArr([booking])) == Ok(if IsActive(Get(booking, "bookingStatus")) then [booking] else [])
  {
    SelectAppend(a, b, "bookingStatus", IsActive);
    SelectSingle(booking, "bookingStatus", IsActive);
  }

  /** `notification.sendStatus = 'READ'; notification.readTime = now` on a record `find` returned. */
  function MarkRead(n: Json, now: string): (r: Result<Json>)
    ensures n.JObj? ==> r.Ok? && r.value.JObj? && r.value.fields.Keys == n.fields.Keys + {"sendStatus", "readTime"}
    ensures n.JObj? ==> Get(r.value, "sendStatus") == Some(Read) && Get(r.value, "readTime") == Some(JStr(now))
    ensures n.JObj? ==> forall k :: k in n.fields && k != "sendStatus" && k != "readTime" ==> r.value.fields[k] == n.fields[k]
    ensures n.JArr? ==> r == Ok(n)
    ensures !n.JObj? && !n.JArr? ==> r.Err? && r.error.TypeFault?
  {
    match n
    case JObj(fields) => Ok(JObj(fields["sendStatus" := Read]["readTime" := JStr(now)]))
    case JArr(_) => Ok(n)
    case _ => Err(TypeFault("Cannot create property 'sendStatus' on " + JsonText(n)))
  }

  /** One element of the batch loop: a record whose id is listed is marked, every other element is left alone. */
  function Touch(n: Json, ids: seq<Json>, now: string): (r: Json)
    ensures (n.JObj? && "id" in n.fields && n.fields["id"] in ids) ==> r == MarkRead(n, now).value
    ensures !(n.JObj? && "id" in n.fields && n.fields["id"] in ids) ==> r == n
  {
    if n.JObj? && "id" in n.fields && n.fields["id"] in ids then MarkRead(n, now).value else n
  }

  /** Marking again changes nothing but the read time: no send status moves. */
  lemma TouchStable(n: Json, ids: seq<Json>, first: string, second: string)
    ensures Get(Touch(Touch(n, ids, first), ids, second), "sendStatus") == Get(Touch(n, ids, first), "sendStatus")
    ensures Touch(Touch(n, ids, first), ids, first) == Touch(n, ids, first)
  {
    if n.JObj? && "id" in n.fields && n.fields["id"] in ids {
      var m := Touch(n, ids, first);
      assert m.JObj? && "id" in m.fields && m.fields["id"] == n.fields["id"];
    }
  }

  /** The unread notifications of a list, counted one by one. */
  function CountUnread(items: seq<Json>): (r: nat)
    ensures r <= |items|
  {
    if items == [] then 0 else (if Get(items[0], "sendStatus") != Some(Read) then 1 else 0) + CountUnread(items[1..])
  }

  /** The store's count is the number of unread records. */
  lemma {:induction false} UnreadCountCounts(items: seq<Json>)
    requires JNull !in items
    ensures UnreadCount(JArr(items)) == Ok(CountUnread(items))
  {
    if items != [] {
      assert JNull !in items[1..] by {
        forall k | 0 <= k < |items[1..]| ensures items[1..][k] != JNull { assert items[1..][k] == items[k + 1]; }
      }
      UnreadCountCounts(items[1..]);
    }
  }

  /** Counting distributes over concatenation. */
  lemma {:induction false} CountUnreadAppend(a: seq<Json>, b: seq<Json>)
    ensures CountUnread(a + b) == CountUnread(a) + CountUnread(b)
  {
    if a == [] {
      assert a + b == b;
    } else {
      assert (a + b)[1..] == a[1..] + b;
      CountUnreadAppend(a[1..], b);
    }
  }

  /** Marking one unread record read lowers the unread count by exactly one; marking a read one keeps it. */
  lemma MarkingLowersCount(items: seq<Json>, i: nat, now: string)
    requires i < |items| && items[i].JObj?
    ensures CountUnread(items[i := MarkRead(items[i], now).value]) ==
      CountUnread(items) - (if Get(items[i], "sendStatus") != Some(Read) then 1 else 0)
  {
    var marked := items[i := MarkRead(items[i], now).value];
    assert items == items[..i] + [items[i]] + items[i + 1..];
    assert marked == items[..i] + [marked[i]] + items[i + 1..];
    CountUnreadAppend(items[..i] + [items[i]], items[i + 1..]);
    CountUnreadAppend(items[..i], [items[i]]);
    CountUnreadAppend(items[..i] + [marked[i]], items[i + 1..]);
    CountUnreadAppend(items[..i], [marked[i]]);
    assert [items[i]][1..] == [] && [marked[i]][1..] == [];
  }

  /**
   * `response.data.data || []` as the fetch actions write it. The booking
   * service has already unwrapped the body, so `response` is the payload
   * itself: an array payload has no `data` and reading its `data` throws.
   */
  function ListOf(response: Option<Json>): (r: Result<Json>)
    ensures r.Ok? ==> Truthy(r.value)
    ensures r.Err? <==> Nullish(response) || Nullish(Member(response, "data"))
  {
    match Prop(response, "data")
    case Err(e) => Err(e)
    case Ok(data) =>
      match Prop(data, "data")
      case Err(e) => Err(e)
      case Ok(list) => Ok(Or(list, JArr([])))
  }

  /** Every array payload makes the fetch actions throw. */
  lemma ArrayPayloadRejected(items: seq<Json>)
    ensures ListOf(Some(JArr(items))).Err? && ListOf(Some(JArr(items))).error.TypeFault?
  {
  }

  /** `response || []`: the list the fetch actions evidently mean to store. */
  function ListOfPayload(response: Option<Json>): (r: Json)
    ensures Truthy(r)
    ensures Present(response) ==> r == response.value
    ensures !Present(response) ==> r == JArr([])
  {
    Or(response, JArr([]))
  }

  /** The intended reading keeps an array payload as it is. */
  lemma ArrayPayloadKept(items: seq<Json>)
    ensures ListOfPayload(Some(JArr(items))) == JArr(items)
  {
  }

  /** What a fetch action stores: the rejection of the call, or the list it reads as written. */
  function Fetched(api: ApiOutcome): Result<Json>
  {
    match api
    case Threw(e) => Err(e)
    case Returned(response) => ListOf(response)
  }

  /** A call that returns an array payload makes every fetch action reject, as written. */
  lemma ArrayPayloadFails(items: seq<Json>)
    ensures Fetched(Returned(Some(JArr(items)))).Err?
    ensures Fetched(Returned(Some(JArr(items)))).error.TypeFault?
  {
    ArrayPayloadRejected(items);
  }

  /**
   * What a fetch action that sends `token` stores: the service's header
   * builder runs first and, without a guard, faults on anything but a
   * string, before any request; otherwise as `Fetched`.
   */
  function Requested(token: Option<Json>, api: ApiOutcome): Result<Json>
  {
    var header := ExamBookingApi.BuildAuthHeader(token);
    if header.Err? then Err(header.error) else Fetched(api)
  }

  /** The store passes `userId` where the service expects a token: a user id that is not a string always fails. */
  lemma NonTextUserIdFails(userId: Option<Json>, api: ApiOutcome)
    requires !(userId.Some? && userId.value.JStr?)
    ensures Requested(userId, api).Err? && Requested(userId, api).error.TypeFault?
  {
  }

  /** A call made without a token faults in the header builder, whatever the backend would have answered. */
  lemma MissingTokenFails(api: ApiOutcome)
    ensures Requested(None, api) == Err(ReadFault(None, "replace"))
  {
  }

  class Store {
    var timeSlots: Json
    var userBookings: Json
    var notifications: Json
    var loading: bool

    constructor ()
      ensures timeSlots == JArr([]) && userBookings == JArr([]) && notifications == JArr([]) && !loading
    {
      timeSlots := JArr([]);
      userBookings := JArr([]);
      notifications := JArr([]);
      loading := false;
    }

    /** `fetchAvailableTimeSlots(examId)`: the list read as written replaces the slots; loading ends either way. */
    method FetchAvailableTimeSlots(api: ApiOutcome) returns (r: Result<Option<Json>>)
      modifies this
      ensures !loading
      ensures Fetched(api).Ok? ==> r == Ok(api.value) && timeSlots == Fetched(api).value
      ensures Fetched(api).Err? ==> r == Err(Fetched(api).error) && timeSlots == old(timeSlots)
      ensures userBookings == old(userBookings) && notifications == old(notifications)
    {
      loading := true;
      var list := Fetched(api);
      if list.Ok? {
        timeSlots := list.value;
        r := Ok(api.value);
      } else {
        r := Err(list.error);
      }
      loading := false;
    }

    /**
     * `fetchUserBookings(userId, status)`: `userId` goes to the service as its
     * token; the list read as written replaces the bookings; loading ends either way.
     */
    method FetchUserBookings(userId: Option<Json>, api: ApiOutcome) returns (r: Result<Option<Json>>)
      modifies this
      ensures !loading
      ensures Requested(userId, api).Ok? ==> r == Ok(api.value) && userBookings == Requested(userId, api).value
      ensures Requested(userId, api).Err? ==> r == Err(Requested(userId, api).error) && userBookings == old(userBookings)
      ensures timeSlots == old(timeSlots) && notifications == old(notifications)
    {
      loading := true;
      var list := Requested(userId, api);
      if list.Ok? {
        userBookings := list.value;
        r := Ok(api.value);
      } else {
        r := Err(list.error);
      }
      loading := false;
    }

    /**
     * `fetchUserNotifications(userId)`: `userId` goes to the service as its
     * token; the list read as written replaces the notifications; the flag is not touched.
     */
    method FetchUserNotifications(userId: Option<Json>, api: ApiOutcome) returns (r: Result<Option<Json>>)
      modifies this
      ensures Requested(userId, api).Ok? ==> r == Ok(api.value) && notifications == Requested(userId, api).value
      ensures Requested(userId, api).Err? ==> r == Err(Requested(userId, api).error) && notifications == old(notifications)
      ensures timeSlots == old(timeSlots) && userBookings == old(userBookings) && loading == old(loading)
    {
      var list := Requested(userId, api);
      if list.Ok? {
        notifications := list.value;
        r := Ok(api.value);
      } else {
        r := Err(list.error);
      }
    }

    /**
     * `bookExam(bookingData)` as written: the store calls the service's
     * `bookExam(data, token)` without a token, so its header builder reads
     * `undefined.replace` and the action rejects with a TypeError before any
     * request; the bookings are not refreshed.
     */
    method BookExamAsWritten(bookingData: Option<Json>) returns (r: Result<Option<Json>>, effects: seq<Effect>)
      modifies this
      ensures r == Err(ExamBookingApi.BuildAuthHeader(None).error) && r.error.TypeFault?
      ensures effects == []
      ensures !loading && timeSlots == old(timeSlots) && userBookings == old(userBookings) && notifications == old(notifications)
    {
      loading := true;
      effects := [];
      var header := ExamBookingApi.BuildAuthHeader(None);
      r := Err(header.error);
      loading := false;
    }

    /**
     * `bookExam(bookingData)` with the user's token passed to the service, as
     * evidently intended: after the booking succeeds, the user's bookings are
     * fetched again only when `bookingData.userId` is set (that id still goes
     * to the service as its token); a failed refresh fails the action.
     */
    method BookExam(bookingData: Option<Json>, api: ApiOutcome, refresh: ApiOutcome)
      returns (r: Result<Option<Json>>, effects: seq<Effect>)
      modifies this
      ensures !loading && timeSlots == old(timeSlots) && notifications == old(notifications)
      ensures api.Threw? ==> r == Err(api.error) && effects == [Call("bookExam")] && userBookings == old(userBookings)
      ensures api.Returned? && Nullish(bookingData) ==> r.Err? && r.error.TypeFault? && userBookings == old(userBookings)
      ensures api.Returned? && !Nullish(bookingData) && !Present(Get(bookingData.value, "userId")) ==>
        r == Ok(api.value) && effects == [Call("bookExam")] && userBookings == old(userBookings)
      ensures api.Returned? && !Nullish(bookingData) && Present(Get(bookingData.value, "userId")) ==>
        var userId := Get(bookingData.value, "userId");
        && effects == [Call("bookExam")] +
             (if ExamBookingApi.BuildAuthHeader(userId).Ok? then [Call("getUserBookings")] else [])
        && (Requested(userId, refresh).Ok? ==> r == Ok(api.value) && userBookings == Requested(userId, refresh).value)
        && (Requested(userId, refresh).Err? ==> r == Err(Requested(userId, refresh).error) && userBookings == old(userBookings))
    {
      loading := true;
      effects := [Call("bookExam")];
      if api.Threw? {
        r := Err(api.error);
      } else {
        match Prop(bookingData, "userId") {
          case Err(e) =>
            r := Err(e);
          case Ok(userId) =>
            r := Ok(api.value);
            if Present(userId) {
              if ExamBookingApi.BuildAuthHeader(userId).Ok? {
                effects := effects + [Call("getUserBookings")];
              }
              var refreshed := FetchUserBookings(userId, refresh);
              if refreshed.Err? {
                r := Err(refreshed.error);
              }
            }
        }
      }
      loading := false;
    }

    /**
     * `cancelBooking(bookingId, userId, cancelReason)` as written: the service's
     * `cancelBooking(bookingId, data, token)` gets no token, so the action
     * rejects with a TypeError before any request and nothing is refreshed.
     */
    method CancelBookingAsWritten(userId: Option<Json>) returns (r: Result<Option<Json>>, effects: seq<Effect>)
      modifies this
      ensures r == Err(ExamBookingApi.BuildAuthHeader(None).error) && r.error.TypeFault?
      ensures effects == []
      ensures !loading && timeSlots == old(timeSlots) && userBookings == old(userBookings) && notifications == old(notifications)
    {
      loading := true;
      effects := [];
      var header := ExamBookingApi.BuildAuthHeader(None);
      r := Err(header.error);
      loading := false;
    }

    /**
     * `cancelBooking(bookingId, userId, cancelReason)` with the user's token
     * passed to the service, as evidently intended: a successful cancellation
     * always refreshes the bookings with `userId` as the token.
     */
    method CancelBooking(userId: Option<Json>, api: ApiOutcome, refresh: ApiOutcome)
      returns (r: Result<Option<Json>>, effects: seq<Effect>)
      modifies this
      ensures !loading && timeSlots == old(timeSlots) && notifications == old(notifications)
      ensures api.Threw? ==> r == Err(api.error) && effects == [Call("cancelBooking")] && userBookings == old(userBookings)
      ensures api.Returned? ==>
        effects == [Call("cancelBooking")] + (if ExamBookingApi.BuildAuthHeader(userId).Ok? then [Call("getUserBookings")] else [])
      ensures api.Returned? && Requested(userId, refresh).Ok? ==>
        r == Ok(api.value) && userBookings == Requested(userId, refresh).value
      ensures api.Returned? && Requested(userId, refresh).Err? ==>
        r == Err(Requested(userId, refresh).error) && userBookings == old(userBookings)
    {
      loading := true;
      effects := [Call("cancelBooking")];
      if api.Threw? {
        r := Err(api.error);
      } else {
        if ExamBookingApi.BuildAuthHeader(userId).Ok? {
          effects := effects + [Call("getUserBookings")];
        }
        var refreshed := FetchUserBookings(userId, refresh);
        r := if refreshed.Err? then Err(refreshed.error) else Ok(api.value);
      }
      loading := false;
    }

    /**
     * `markAsRead(notificationId)`: once the backend accepts, the first
     * notification whose id is strictly equal is marked read at `now`; every
     * other notification stays as it was, and an unknown id changes nothing.
     * A failed call is rethrown with nothing marked.
     */
    method MarkAsRead(notificationId: Option<Json>, api: ApiOutcome, now: string)
      returns (r: Result<Option<Json>>, effects: seq<Effect>)
      modifies this
      ensures effects == [Call("markNotificationAsRead")]
      ensures timeSlots == old(timeSlots) && userBookings == old(userBookings) && loading == old(loading)
      ensures api.Threw? ==> r == Err(api.error) && notifications == old(notifications)
      ensures api.Returned? && !old(notifications).JArr? ==> r.Err? && r.error.TypeFault? && notifications == old(notifications)
      ensures api.Returned? && old(notifications).JArr? ==>
        var items := old(notifications).items;
        var found := FirstMatch(items, "id", v => v == notificationId);
        && (found.Miss? ==> r == Ok(None) && notifications == old(notifications))
        && (found.Fault? ==> r.Err? && r.error.TypeFault? && notifications == old(notifications))
        && (found.Hit? && !Truthy(items[found.index]) ==> r == Ok(None) && notifications == old(notifications))
        && (found.Hit? && items[found.index].JObj? ==>
              r == Ok(None) && notifications == JArr(items[found.index := MarkRead(items[found.index], now).value]))
        && (found.Hit? && items[found.index].JArr? ==> r == Ok(None) && notifications == old(notifications))
        && (found.Hit? && Truthy(items[found.index]) && !items[found.index].JObj? && !items[found.index].JArr? ==>
              r.Err? && r.error.TypeFault? && notifications == old(notifications))
    {
      effects := [Call("markNotificationAsRead")];
      if api.Threw? {
        return Err(api.error), effects;
      }
      if !notifications.JArr? {
        return Err(TypeFault("notifications.value.find is not a function")), effects;
      }
      var items := notifications.items;
      var found := FindBy(items, "id", v => v == notificationId);
      if found.Fault? {
        return Err(ReadFault(Some(JNull), "id")), effects;
      }
      if found.Hit? && Truthy(items[found.index]) {
        var marked := MarkRead(items[found.index], now);
        if marked.Err? {
          return Err(marked.error), effects;
        }
        notifications := JArr(items[found.index := marked.value]);
      }
      r := Ok(None);
    }

    /**
     * `batchMarkAsRead(notificationIds)` as written: it calls
     * `bookingApi.batchMarkNotificationsAsRead`, which the booking service
     * does not define, so every call raises a TypeError before any request
     * and marks nothing.
     */
    method BatchMarkAsReadAsWritten(notificationIds: Option<Json>) returns (r: Result<Option<Json>>, effects: seq<Effect>)
      ensures r == Err(TypeFault("bookingApi.batchMarkNotificationsAsRead is not a function"))
      ensures effects == []
    {
      r := Err(TypeFault("bookingApi.batchMarkNotificationsAsRead is not a function"));
      effects := [];
    }

    /**
     * `batchMarkAsRead(notificationIds)` calling the service's `batchMarkAsRead`,
     * as evidently intended: once the backend accepts, every notification
     * whose id is listed is marked read, in order, and every other one is left
     * alone. A null notification stops the loop with a TypeError, the ones
     * before it already marked.
     */
    method BatchMarkAsRead(notificationIds: seq<Json>, api: ApiOutcome, now: string)
      returns (r: Result<Option<Json>>, effects: seq<Effect>)
      modifies this
      ensures effects == [Call("batchMarkAsRead")]
      ensures timeSlots == old(timeSlots) && userBookings == old(userBookings) && loading == old(loading)
      ensures api.Threw? || !old(notifications).JArr? ==> r.Err? && notifications == old(notifications)
      ensures api.Threw? ==> r == Err(api.error)
      ensures api.Returned? && !old(notifications).JArr? ==> r.error.TypeFault?
      ensures api.Returned? && old(notifications).JArr? ==>
        var items := old(notifications).items;
        && notifications.JArr? && |notifications.items| == |items|
        && (r.Ok? <==> JNull !in items)
        && (r.Ok? ==> r.value.None?)
        && (forall i :: 0 <= i < |items| && JNull !in items[..i + 1] ==>
              notifications.items[i] == Touch(items[i], notificationIds, now))
        && (forall i, j :: 0 <= j <= i < |items| && items[j] == JNull ==> notifications.items[i] == items[i])
    {
      effects := [Call("batchMarkAsRead")];
      if api.Threw? {
        return Err(api.error), effects;
      }
      if !notifications.JArr? {
        return Err(TypeFault("notifications.value.forEach is not a function")), effects;
      }
      var original := notifications.items;
      var items := original;
      var i := 0;
      while i < |items|
        invariant 0 <= i <= |items| == |original|
        invariant JNull !in original[..i]
        invariant forall k :: 0 <= k < i ==> items[k] == Touch(original[k], notificationIds, now)
        invariant forall k :: i <= k < |items| ==> items[k] == original[k]
      {
        if items[i] == JNull {
          notifications := JArr(items);
          return Err(ReadFault(Some(JNull), "id")), effects;
        }
        assert original[..i + 1] == original[..i] + [original[i]];
        items := items[i := Touch(items[i], notificationIds, now)];
        i := i + 1;
      }
      assert original[..i] == original;
      notifications := JArr(items);
      r := Ok(None);
    }
  }
}
