# student-vue request, cache and rule layer in Dafny

This project models the logic underneath the student-vue front end. It covers:

- the `fetchRequest` wrapper and the axios interceptor of `src/utils/request.js`;
- the per-service response handlers and `Bearer ` header builders of the exam, question, exam-booking, course (`src/api/index.js`), chat and experiment services;
- the two client cache stores, `src/store/experiment.js` (options-style) and `src/stores/booking.js` (setup-style);
- the small pure rules of `src/utils/monitor.js`, `src/utils/dateUtils.js` and `src/composables/useUser.js`.

JSON bodies are the `Js.Json` datatype. `Option<Json>` stands for a value that may be `undefined`; `None` means the key is absent. JavaScript's truthiness, `||`, `??`, optional chaining and `==` are written out in the `Js` module. `String.prototype.replace` with a string pattern, which removes only the first occurrence, is `Strings.ReplaceFirst`.

Visible side effects are returned as a list of `Http.Effect` values, in order:

- `Toast`: an ElMessage;
- `Navigate`: `router.push` or `location.href`;
- `Call`: a backend request;
- `SaveUser` / `ForgetUser`: persisting the user record.

Every backend call is an oracle parameter of type `ApiOutcome`: it either returned a body or threw an error. localStorage and sessionStorage are `Http.Storage` objects holding a `map<string, string>`. The stores are classes whose fields the actions update in place.

Shared modules:

- `Wrappers`: `Option`.
- `Strings`: search, first-occurrence replace, ASCII upper-casing, decimal text.
- `Js`: the JSON value and the coercions.
- `Http`: effects, responses, axios errors, storage and the `Bearer ` strip.

There is one module for each source file: `Request`, `ExamApi`, `QuestionApi`, `ExamBookingApi`, `ApiClient`, `ChatApi`, `ExperimentApi`, `ExperimentStore`, `BookingStore`, `Monitor`, `DateUtils` and `UserSession`.

## Model

| member | source | states |
|---|---|---|
| Http.StripBearer | src/api/exam.js:208 | `token.replace('Bearer ', '')`: a leading prefix is removed; a token without the prefix is unchanged; a token containing it loses exactly its 7 characters |
| Http.StripBearerOnce | src/api/examBooking.js:310 | a token of the form `'Bearer ' + rest` becomes exactly `rest` |
| Http.StripBearerInside | src/api/chat.js:10 | the prefix is removed at its first occurrence wherever it is, leaving the text before and after it joined |
| Request.BaseUrl | src/utils/request.js:7 | `VUE_APP_API_BASE_URL \|\| 'http://localhost:8080'` is never empty |
| Request.KeptParams | src/utils/request.js:45-51 | the query pairs are never more than the parameters |
| Request.KeptParamsAppend | src/utils/request.js:47-51 | filtering keeps key order: the survivors of `a + b` are those of `a` followed by those of `b` |
| Request.KeptParamsComplete | src/utils/request.js:48-49 | every parameter that is neither undefined nor '' (null included) reaches the query, with its value converted by `String` |
| Request.KeptParamsSound | src/utils/request.js:48-49 | every query pair comes from a surviving parameter |
| Request.KeptParamsEmpty | src/utils/request.js:52-55 | the query is empty, so no `?` is appended, exactly when no parameter survives |
| Request.Prepare | src/utils/request.js:38-86 | url used verbatim when it starts with "http", else prefixed with the base URL; query as filtered; method upper-cased with default GET; Authorization `Bearer <token>` iff a non-empty token is stored; Content-Type `application/json` iff the data is not FormData; FormData sent as the body; other truthy data JSON-encoded only for POST/PUT, no body otherwise |
| Request.MethodCaseInsensitive | src/utils/request.js:66 | a method given in any case is sent as its upper-case form |
| Request.StatusEffects | src/utils/request.js:91-102 | a non-ok status shows at most one message, exactly one for 401, 403, 404 and ≥500, and navigates to /login iff it is 401 |
| Request.SuccessEnvelope | src/utils/request.js:117-121 | the compatibility envelope has code 200, no `success` field, and the body's message and data |
| Request.Normalize | src/utils/request.js:111-152 | a defined `success` wins over `code`; the body is refused (one toast, an error carrying `apiResponse`) iff `success` is falsy or `code` ≠ 200; a truthy `success` yields `{code: 200, message, data}` and `code` 200 yields the body itself, with no effects; a refusal carries `message \|\| '请求失败'`, the `errorCode` (flag shape) or the `code` (code shape), and toasts the message (code shape: `message \|\| '操作失败'`, plus the login redirect exactly on 401); a body of neither shape passes through unchanged |
| Request.NormalizeIdempotent | src/utils/request.js:113-133 | decoding an accepted result again returns it unchanged with no effects |
| Request.EquivalentSuccessShapes | src/utils/request.js:115-133 | `{success: true, message, data}` and `{code: 200, message, data}` decode to the same envelope |
| Request.CodeFailureNavigation | src/utils/request.js:136-141 | a failed `code` body navigates to /login iff the code is 401 |
| Request.HttpFailureIsQuiet | src/utils/request.js:156 | an `HTTP error!` rejection never gets the network message |
| Request.Caught | src/utils/request.js:153-160 | the catch rethrows the same error, keeps the earlier effects, and adds the network message iff the error has neither `apiResponse` nor `HTTP error!` |
| Request.AtMostOneToast | src/utils/request.js:88-160 | every call, on every path, shows at most one message |
| Request.HttpFailureClassified | src/utils/request.js:91-104 | a non-ok status always rejects with `HTTP error! status: n`, with that status's effects and no more |
| Request.BlobPassesThrough | src/utils/request.js:106-108 | with `responseType: 'blob'`, an ok response resolves to the raw body with no parse, no decode and no effects |
| Request.RefusedEnvelopeRejects | src/utils/request.js:122-147 | a refused envelope reaches the caller as its `apiResponse` error after exactly one message |
| Request.FetchRequest | src/utils/request.js:38-161 | the request is prepared as `Prepare` states and the call settles as the reply dictates, with at most one message |
| Request.AxiosHeaders | src/utils/request.js:18-35 | the interceptor adds Authorization `Bearer <token>` iff a token is stored, keeps a non-empty caller Content-Type or else sets `application/json`, and leaves every other header as it was |
| Request.AxiosIntercept | src/utils/request.js:18-35 | the config's headers become exactly what `AxiosHeaders` states |
| ExamApi.HandleResponse | src/api/exam.js:216-246 | no response throws '响应为空'; a falsy body throws '响应数据为空'; the result is a value iff the body has no `success` field or a truthy one; values are truthy; a body without `success` is returned unchanged, array or not |
| ExamApi.SuccessUnwraps | src/api/exam.js:230-232 | for every body whose `success` is truthy, the result is its `data` when truthy and `[]` otherwise |
| ExamApi.FailureThrowsMessage | src/api/exam.js:233-236 | for every body whose `success` is defined but falsy, the thrown message is `String(message)` when the message is truthy and '请求失败' otherwise |
| ExamApi.HandleResponseStable | src/api/exam.js:240-245 | handing a decoded value without a `success` field back to the handler returns it unchanged |
| ExamApi.BuildAuthHeader | src/api/exam.js:207-210 | one Authorization entry for a null, undefined or string token; '' for null/undefined; a token without the prefix unchanged; a non-string token is a TypeError |
| ExamApi.AuthHeaderStripsPrefix | src/api/exam.js:208 | a `'Bearer '`-prefixed token is sent without its prefix |
| ExamApi.CreatedExamsQuery | src/api/exam.js:162-169 | the status parameter is 'ALL' when none is given, and the argument otherwise (a null included) |
| QuestionApi.HandleResponse | src/api/question.js:129-159 | the same two guard messages as the exam service; values are truthy; errors are thrown Errors |
| QuestionApi.BuildAuthHeader | src/api/question.js:120-123 | one Authorization entry; '' for a null or undefined token |
| QuestionApi.SameDecodeAsExam | src/api/question.js:129-159 | the question copy decodes every response exactly as the exam copy |
| QuestionApi.SameHeaderAsExam | src/api/question.js:120-123 | the question copy builds the same header from every token |
| ExamBookingApi.HandleResponse | src/api/examBooking.js:318-325 | a value iff the body exists and its `success` is truthy; the value is `data` as it is, possibly undefined; anything else throws `String(data.message)` when that is truthy and '请求失败' otherwise |
| ExamBookingApi.RefusalMessage | src/api/examBooking.js:321-324 | for every response whose body is falsy or has a falsy or missing `success`, the thrown message is `String(data.message)` when that is truthy and '请求失败' otherwise |
| ExamBookingApi.BareArrayRefused | src/api/examBooking.js:319-324 | a bare array is refused here, though the exam handler returns it |
| ExamBookingApi.StrictImpliesLenient | src/api/examBooking.js:319-320 | whatever the strict handler accepts, the lenient one accepts too, with the same data or `[]` for missing data |
| ExamBookingApi.MissingFlagRefused | src/api/examBooking.js:319-324 | a body with data but no `success` is refused here and returned by the lenient handler |
| ExamBookingApi.BuildAuthHeader | src/api/examBooking.js:308-312 | one Authorization entry with the first prefix removed iff the token is a string; a missing or non-string token is a TypeError |
| ExamBookingApi.HeaderBuildersAgreeOnStrings | src/api/examBooking.js:308-312 | on string tokens the unguarded and the guarded builders agree; on a null or undefined token only the guarded one answers |
| ExamBookingApi.Arguments | src/api/examBooking.js:212-216 | `params = {}` applies only to undefined; a null argument raises a TypeError; otherwise the field is read |
| ExamBookingApi.PageValue | src/api/examBooking.js:296-297 | the argument when truthy, else the default |
| ExamBookingApi.BookingsQuery | src/api/examBooking.js:290-299 | five parameters in order; status, startDate and endDate carry the argument's values (undefined without an argument); pageNum and pageSize default to 1 and 20 when absent or falsy; a null argument raises a TypeError |
| ExamBookingApi.ZeroPagingReplaced | src/api/examBooking.js:296-297 | page 0 and size 0 are replaced by 1 and 20 |
| ExamBookingApi.StatsQuery | src/api/examBooking.js:212-218 | exactly startDate and endDate are sent, with the argument's values; a null argument raises a TypeError |
| ExamBookingApi.StatsIgnoresOtherFields | src/api/examBooking.js:212-218 | arguments that agree on startDate and endDate produce the same request |
| ApiClient.BearerHeaders | src/api/index.js:14-17 | Authorization `Bearer <token>` iff a token is stored; otherwise the headers are untouched; other headers are always kept |
| ApiClient.AttachBearer | src/api/index.js:11-25 | the config's headers become exactly what `BearerHeaders` states |
| ApiClient.OnFulfilled | src/api/index.js:31-39 | a truthy `success` resolves to `data` with no message; any other body shows one message and rejects with `new Error(message)`; a missing body is a TypeError |
| ApiClient.SilentRejectionMessage | src/api/index.js:36-37 | a failed body without a message shows '请求失败' but rejects with an empty message |
| ApiClient.RejectionText | src/api/index.js:41-48 | with a response: `String(data.message)` when truthy, else the status text, else the default network text, and a TypeError when the body is nullish; with only a request: the no-response text; otherwise the error's own message |
| ApiClient.OnRejected | src/api/index.js:40-51 | one message, and a rejection whose text is that same message |
| ApiClient.AtMostOneMessage | src/api/index.js:30-52 | both response interceptors show at most one message |
| ApiClient.DefaultArg | src/api/index.js:59 | a default parameter replaces only `undefined` |
| ApiClient.CoursePaging | src/api/index.js:59-60 | pageNum defaults to 1 and pageSize to 10 (as in `getAdminCourses` and `getVideosAdmin`, lines 83-84 and 100-101) |
| ApiClient.CommentPaging | src/api/index.js:159-163 | page defaults to 1 and size to 10 |
| ApiClient.DefaultsDifferFromFallbacks | src/api/index.js:59-60 | page 0 is sent as 0 by the course list, but replaced by 1 in the booking list |
| ChatApi.BuildAuthHeader | src/api/chat.js:8-12 | `{}` for a falsy token; otherwise one Authorization entry with the first prefix removed; a non-string token is a TypeError |
| ChatApi.AuthHeaderStripsPrefix | src/api/chat.js:10 | a prefixed token loses exactly its prefix |
| ChatApi.OnResponseError | src/api/chat.js:19-27 | on 401: one message, 'token' and 'userId' leave storage, navigation to /login; otherwise nothing changes; always rejects with the same error |
| ChatApi.ErrorText | src/api/chat.js:111-113 | an error without a response shows the network message |
| ChatApi.DistinctStatusMessages | src/api/chat.js:95-107 | 401, 403, 404 and 500 get four different messages, none of them the network message |
| ChatApi.OtherStatusUsesBody | src/api/chat.js:108-110 | any other status, 502 included, shows `String(data.message)` when that is truthy, and `error.message` otherwise (no body, no message key, or a falsy message) |
| ChatApi.HandleError | src/api/chat.js:93-115 | exactly one message, then a rejection with the original error |
| ChatApi.DiffersFromFetchWrapper | src/api/chat.js:96-106 | for 502 and for 401 this switch shows a different text from `fetchRequest` |
| ExperimentApi.ExperimentItem | src/api/experiment.js:16-20 | every field is kept; status is `status \|\| 0`; approval_status is `approvalStatus \|\| approval_status \|\| 0`, camelCase first |
| ExperimentApi.ExperimentItems | src/api/experiment.js:16-20 | the map keeps length and order, rewriting each item; a null item is a TypeError |
| ExperimentApi.ExperimentsTransform | src/api/experiment.js:14-21 | a result iff the body parses and its `data` is an array without nulls; each output item is the rewritten input item at the same index |
| ExperimentApi.BookingTransform | src/api/experiment.js:59-73 | null iff `data` is missing or falsy, or the body does not parse; otherwise `data` with `approval_status ?? approvalStatus ?? 0`, snake_case first |
| ExperimentApi.FalsyVersusNullish | src/api/experiment.js:19-65 | a zero approval status is kept by the booking transform (`??`, line 65) but replaced by the list transform (`\|\|`, line 19) |
| ExperimentApi.TimeSlotsTransform | src/api/experiment.js:137-146 | `data` when it is an array; `[]` otherwise or on a parse failure |
| ExperimentApi.UpdateExperimentStatus | src/api/experiment.js:149-157 | rejects with '实验ID不能为空', and makes no request, iff the id is null or undefined; otherwise it sends that id and the status |
| ExperimentApi.FalsyIdsAllowed | src/api/experiment.js:150 | id 0 and id '' are sent |
| ExperimentApi.BuildAuthHeader | src/api/experiment.js:167-170 | one Authorization entry; '' for null or undefined; string tokens never fail |
| ExperimentApi.SameHeaderAsExam | src/api/experiment.js:167-170 | the experiment service builds its header by the exam service's rule |
| ExperimentApi.GetToken | src/api/experiment.js:176-178 | the stored token, or '' |
| ExperimentApi.CheckAuth | src/api/experiment.js:184-190 | throws '未登录，请先登录' iff no non-empty token is stored, and otherwise returns it |
| ExperimentApi.StoredTokenHeader | src/api/experiment.js:167-178 | the header built from the stored token never fails, and is '' when not signed in |
| ExperimentStore.StatusNumber | src/store/experiment.js:217 | `parseInt(status) \|\| 0`: the parsed number, or 0 when nothing parses |
| ExperimentStore.StatusNumberOfNumber | src/store/experiment.js:217 | a numeric status is kept as it is |
| ExperimentStore.BySubject | src/store/experiment.js:231-233 | exactly the experiments whose subject is strictly equal, taken from the list; a null entry is a TypeError |
| ExperimentStore.BySubjectInOrder | src/store/experiment.js:231-233 | the filter distributes over concatenation and keeps a single experiment exactly when its subject matches, so order and multiplicity are kept |
| ExperimentStore.Available | src/store/experiment.js:236-238 | exactly the experiments whose status is strictly the number 1 |
| ExperimentStore.AvailableInOrder | src/store/experiment.js:236-238 | the filter distributes over concatenation and keeps a single experiment exactly when its status is 1 |
| ExperimentStore.AvailableIsStrict | src/store/experiment.js:237 | status '1' given as text is not available; status 1 is |
| ExperimentStore.WithNumericStatus | src/store/experiment.js:215-217 | an object record gets its status as a number, with every other field kept; a primitive record is a TypeError |
| ExperimentStore.RecordWithoutDataMissing | src/store/experiment.js:214-215 | as written, a record the service returns without its own `data` field is not found by the store's `response.data.data` read |
| ExperimentStore.RecordPayload | src/store/experiment.js:214-215 | the intended read: `response.data`, the record the service's transform returns |
| ExperimentStore.RecordPayloadKept | src/api/experiment.js:25-32 | the intended read finds every record the service returns, and its status can be made a number |
| ExperimentStore.Store.constructor | src/store/experiment.js:6-14 | empty lists, not loading, no error; the current booking is read from localStorage, or null |
| ExperimentStore.Store.FetchExperiments | src/store/experiment.js:17-44 | a non-empty cache without forceRefresh is returned with no call and no change; otherwise an array replaces the cache, anything else empties it with a warning; a rejected call or a nullish response (a TypeError) is recorded, shown and rethrown with the cache untouched; loading is false afterwards |
| ExperimentStore.Store.SetCurrentBookingId | src/store/experiment.js:46-50 | the field, localStorage and sessionStorage are all set; nothing else changes |
| ExperimentStore.Store.ClearCurrentBookingId | src/store/experiment.js:52-56 | the field becomes null and the key leaves both storages; nothing else changes |
| ExperimentStore.Store.BookExperiment | src/store/experiment.js:75-101 | success iff the call returns a truthy `data`: it is prepended, becomes the current booking in both storages, and is announced; an empty response throws '预约响应数据为空'; every failure is recorded and shown as `预约失败: <message>` with the bookings unchanged; loading is false afterwards |
| ExperimentStore.Store.GetExperimentById | src/store/experiment.js:206-226 | a cached experiment with a loosely equal id is returned with no call; a miss issues one call; when its body carries a truthy `data.data`, the result is that record with its status made a number (a TypeError for a primitive record) and exactly that record is appended; a miss without data throws '实验不存在', a rejected call is rethrown, and on every failure the cache is unchanged |
| BookingStore.SelectIn | src/stores/booking.js:15 | `filter` on a value that is not an array is a TypeError |
| BookingStore.Unread | src/stores/booking.js:14-16 | exactly the notifications whose sendStatus is not 'READ', in order |
| BookingStore.UnreadInOrder | src/stores/booking.js:14-16 | the filter distributes over concatenation and keeps a single notification exactly when it is unread, so order and multiplicity are kept |
| BookingStore.UnreadCount | src/stores/booking.js:18-20 | the count is defined when the unread list is, and never exceeds the number of notifications |
| BookingStore.UnreadCountCounts | src/stores/booking.js:18-20 | the count equals the number of unread records, counted one by one |
| BookingStore.CountUnreadAppend | src/stores/booking.js:14-20 | counting distributes over concatenation |
| BookingStore.MarkingLowersCount | src/stores/booking.js:95-99 | marking one unread record lowers the count by exactly one; marking a read record leaves it unchanged |
| BookingStore.Active | src/stores/booking.js:22-26 | exactly the bookings whose bookingStatus is 'BOOKED' or 'CONFIRMED' |
| BookingStore.ActiveInOrder | src/stores/booking.js:22-26 | the filter distributes over concatenation and keeps a single booking exactly when it is 'BOOKED' or 'CONFIRMED' |
| BookingStore.MarkRead | src/stores/booking.js:97-98 | sendStatus becomes 'READ' and readTime becomes now; every other field is unchanged; a primitive is a TypeError |
| BookingStore.Touch | src/stores/booking.js:110-115 | a record whose id is listed is marked; every other element is left alone |
| BookingStore.TouchStable | src/stores/booking.js:110-115 | repeating the batch changes no sendStatus, and with the same time it changes nothing |
| BookingStore.ListOf | src/stores/booking.js:33 | as written, `response.data.data \|\| []` fails iff the payload or its `data` is nullish |
| BookingStore.ArrayPayloadRejected | src/stores/booking.js:33-54 | as written, every array payload makes the fetch actions throw |
| BookingStore.ListOfPayload | src/stores/booking.js:33-54 | the list stored is the payload when truthy, else `[]` |
| BookingStore.ArrayPayloadKept | src/stores/booking.js:33-54 | the intended reading keeps an array payload as it is |
| BookingStore.Store.constructor | src/stores/booking.js:7-10 | all lists are empty and nothing is loading |
| BookingStore.ArrayPayloadFails | src/stores/booking.js:29-60 | as written, a call that returns an array payload makes every fetch action reject with a TypeError |
| BookingStore.NonTextUserIdFails | src/stores/booking.js:43 | a user id that is not a string, sent where the service expects a token, always makes the fetch fail with a TypeError |
| BookingStore.MissingTokenFails | src/api/examBooking.js:308-312 | a call made without a token fails in the header builder whatever the backend would answer |
| BookingStore.Store.FetchAvailableTimeSlots | src/stores/booking.js:29-38 | as written: the slots become `response.data.data \|\| []` and the response is returned; a rejected call or a nullish `response`/`response.data` rejects and leaves the slots unchanged; loading is false afterwards |
| BookingStore.Store.FetchUserBookings | src/stores/booking.js:40-49 | as written: `userId` is sent as the service's token, so a user id that is not a string rejects with a TypeError before any request; otherwise the bookings become what the as-written read stores, or the action rejects with the bookings unchanged; the other lists are unchanged and loading is false afterwards |
| BookingStore.Store.FetchUserNotifications | src/stores/booking.js:51-60 | as written, the same for notifications with `userId` as the token; the loading flag is not touched |
| BookingStore.Store.BookExamAsWritten | src/stores/booking.js:62-74 | as written: the service gets no token, so the action always rejects with the header builder's TypeError, issues no request, refreshes nothing and ends with loading false |
| BookingStore.Store.BookExam | src/stores/booking.js:62-74 | as intended, with a token given to the service: a rejected booking is rethrown after one request; a nullish `bookingData` is a TypeError; the bookings are fetched again only when `bookingData.userId` is truthy, a refresh request going out only when that id is a string; the bookings are what the refresh stores, and a failed refresh fails the action; loading is false afterwards |
| BookingStore.Store.CancelBookingAsWritten | src/stores/booking.js:76-89 | as written: the service gets no token, so the action always rejects with the header builder's TypeError, issues no request and refreshes nothing |
| BookingStore.Store.CancelBooking | src/stores/booking.js:76-89 | as intended, with a token given to the service: a successful cancellation always refreshes the bookings with `userId` as the token (a request going out only for a string id), stores what the refresh reads, and fails when the refresh fails; a rejected cancellation is rethrown with the bookings unchanged |
| BookingStore.Store.MarkAsRead | src/stores/booking.js:91-104 | after the call succeeds, the first notification with a strictly equal id is marked and all others are unchanged; an unknown id, a falsy or an array hit changes nothing; a primitive hit, a null entry before the hit or a non-array list is a TypeError with nothing marked; a failed call is rethrown with nothing marked |
| BookingStore.Store.BatchMarkAsReadAsWritten | src/stores/booking.js:106-120 | as written: always a TypeError, with no request and nothing marked |
| BookingStore.Store.BatchMarkAsRead | src/stores/booking.js:106-120 | as intended: after the call succeeds, every notification whose id is listed is marked, in order, and the rest are unchanged; a null entry stops the loop; a failed call is rethrown as it is, and a non-array list is a TypeError, both with nothing marked |
| Js.FindBy | src/stores/booking.js:95 | `find` returns the first element whose field matches; a null element before it raises a TypeError; otherwise there is no match |
| Monitor.BrowserSupport | src/utils/monitor.js:7-19 | the four flags are reported, and isSupported holds iff all four hold |
| Monitor.Percent | src/utils/monitor.js:49-50 | `Math.round(p / q * 100)`: the nearest integer, with halves rounded up |
| Monitor.PercentBounds | src/utils/monitor.js:49-50 | a part of the whole gives a percentage between 0 and 100 |
| Monitor.RatesSum | src/utils/monitor.js:49-50 | the normal and abnormal rates add up to 100, or to 101 on a double half |
| Monitor.RiskLevel | src/utils/monitor.js:58-66 | LOW for no data; HIGH iff the rate is ≥ 30%; MEDIUM iff it is ≥ 10% and below 30%; LOW iff it is below 10% |
| Monitor.RiskMonotone | src/utils/monitor.js:58-66 | for a fixed total, more abnormal events never lower the risk |
| Monitor.FormatStats | src/utils/monitor.js:40-53 | missing counts are 0; normal = total − abnormal; the rates are 100 and 0 without data and rounded percentages otherwise; the risk is computed from the same counts |
| Monitor.EmptyStats | src/utils/monitor.js:49-59 | a total of 0 gives rates 100 and 0 and risk LOW |
| Monitor.StatsRatesConsistent | src/utils/monitor.js:43-50 | with consistent counts both rates lie in 0..100 and add up to 100 or 101 |
| Monitor.RiskClass | src/utils/monitor.js:71-78 | LOW, MEDIUM and HIGH map to their classes; anything else maps to 'risk-unknown' |
| Monitor.ComputedRiskHasClass | src/utils/monitor.js:51-78 | every computed risk level has a class of its own |
| Monitor.FormatTime | src/utils/monitor.js:96-112 | blank for a falsy date; just now iff diff < 1 min (negative diffs included); otherwise whole minutes 1..59 below an hour, whole hours 1..23 below a day, and a dated result from one day on |
| Monitor.FutureIsJustNow | src/utils/monitor.js:103-104 | a date in the future reads '刚刚' |
| Monitor.StorageKey | src/utils/monitor.js:119-130 | the key is 'monitor_' followed by the name |
| Monitor.StorageKeyInjective | src/utils/monitor.js:119-130 | different names never share a key |
| Monitor.SaveToLocal | src/utils/monitor.js:117-123 | exactly the entry `monitor_<key>` is written |
| Monitor.GetFromLocal | src/utils/monitor.js:128-136 | the stored text under `monitor_<key>`, or null when it is missing or empty |
| Monitor.SaveThenGet | src/utils/monitor.js:117-136 | what is saved under a key is read back, and other keys read as before |
| Monitor.ClearLocal | src/utils/monitor.js:141-150 | exactly the keys that start with 'monitor_' and contain the exam id are removed; every other entry keeps its value |
| DateUtils.FormatDate | src/utils/dateUtils.js:7-10 | blank iff the date is falsy; otherwise the date with the given pattern, 'YYYY-MM-DD' by default |
| DateUtils.FormatDateTime | src/utils/dateUtils.js:12-14 | `formatDate` with 'YYYY-MM-DD HH:mm:ss' |
| DateUtils.FormatClock | src/utils/dateUtils.js:16-18 | `formatDate` with 'HH:mm' |
| DateUtils.FalsyDatesBlank | src/utils/dateUtils.js:7-18 | undefined, null, 0 and '' are blank in every format |
| DateUtils.IsExpired | src/utils/dateUtils.js:20-22 | holds iff the date is strictly before now |
| DateUtils.CanCancel | src/utils/dateUtils.js:24-27 | holds iff the exam time minus the deadline hours is strictly after now |
| DateUtils.CancellableNotExpired | src/utils/dateUtils.js:20-27 | with a non-negative deadline, a cancellable exam has not expired |
| DateUtils.CancelWindowShrinks | src/utils/dateUtils.js:24-27 | a shorter deadline allows whatever a longer one allows |
| DateUtils.Label | src/utils/dateUtils.js:36 | `map[key] \|\| value`: the label of a known key, else the value itself |
| DateUtils.StatusText | src/utils/dateUtils.js:28-37 | the five booking statuses map to their labels; an unknown status is returned unchanged |
| DateUtils.ExamModeText | src/utils/dateUtils.js:39-46 | ONLINE, OFFLINE and HYBRID map to their labels; an unknown mode is returned unchanged |
| DateUtils.StatusLabelsDistinct | src/utils/dateUtils.js:29-35 | different statuses get different labels |
| DateUtils.LabelsAreFixedPoints | src/utils/dateUtils.js:28-46 | labelling a label changes nothing |
| UserSession.HasPermission | src/composables/useUser.js:79-82 | holds iff the role is defined and numerically at least the required role, which defaults to 0 |
| UserSession.PermissionAntitone | src/composables/useUser.js:79-82 | permission at a higher level implies permission at every lower one |
| UserSession.AdminActionNeedsLogin | src/composables/useUser.js:60-87 | whoever may perform admin actions is signed in and holds level 1 |
| UserSession.SignedOutHasNoPermission | src/composables/useUser.js:79-87 | with nobody signed in there is no permission and no admin action |
| UserSession.NullRolePasses | src/composables/useUser.js:81 | a null role passes the default check, since `null >= 0` |
| UserSession.TextRoleCoerced | src/composables/useUser.js:62-81 | a role given as decimal text passes the numeric check but is not an admin role |
| UserSession.Session.constructor | src/composables/useUser.js:21 | the ref starts from the persisted record |
| UserSession.Session.UpdateUserInfo | src/composables/useUser.js:28-35 | the ref takes the value; a truthy value is persisted and a falsy one removed |
| UserSession.Session.Login | src/composables/useUser.js:38-41 | the user is stored and persisted (a falsy user is forgotten instead), then '登录成功！' is shown; signed in iff the user is truthy |
| UserSession.Session.Logout | src/composables/useUser.js:44-48 | the ref becomes null, so the user is signed out with no permission; the record is removed, '已退出登录' is shown and /login opens |

## Left out

- Transport is left out: axios and fetch, `response.json()`, `JSON.parse` and `JSON.stringify`, and the percent-encoding of URLSearchParams. A parsed body is a `Json` value, and a parse failure is `None` or `Malformed`. Serialized text is left symbolic; `Monitor` stores the serialized text it is given.
- Backend calls are oracles. Each store action takes the result of its call (and of its refresh call) as a parameter. The header the booking service builds is modelled where the store gets the token wrong: `userId` sent as the token, and `bookExam`/`cancelBooking` called without one. The token that the service's `batchMarkAsRead` would need is inside its oracle.
- Async interleaving is left out: each action runs atomically.
- `console.error` and `console.warn` logging (src/stores/booking.js:57, 101, 117, src/store/experiment.js:223, src/utils/monitor.js:121, 133, 148) has no observable effect on state and is left out.
- The fetch option `credentials: 'include'` (src/utils/request.js:70) is a browser cookie setting and is not a field of the prepared request.
- Monitor.GetFromLocal: returns the stored text itself; parsing it is transport, so the `null` that `getFromLocal` returns when `JSON.parse` throws on stored text that is not JSON is not modelled.
- Object identity and aliasing are left out: records are values, so `markAsRead` replaces the record in the list instead of mutating a shared object.
- `includes`, on the ids in `batchMarkAsRead`, compares values structurally.
- Object keys are unordered maps. Query parameters are an ordered sequence of pairs, following `Object.keys` order.
- An undefined-valued key and a missing key are the same thing.
- Properties on arrays are not modelled (an array has no named fields here). Spreading a string or an array item in the experiment transforms gives no fields here, where JavaScript would copy its indices as keys. Object.prototype keys such as 'toString' in the label maps are not modelled either.
- Numbers are integers. Percentages and the 0.3/0.1 thresholds are exact integer arithmetic: 10·abnormal ≥ 3·total stands for the float test, and `Math.round` is floor((200p+q)/(2q)).
- `formatStats` receives its counts as numbers or undefined; non-numeric counts are out.
- `String(n)` and `parseInt`/`Number` read and write decimal integers only. Hex, exponents, fractions, Infinity and Unicode whitespace beyond space, tab, CR and LF are out.
- `toUpperCase` is ASCII-only.
- dayjs is left out: `formatDate` returns the date and its pattern, not the rendered text. Instants are integer milliseconds, with `now` passed in. Old dates in `formatTime`, rendered by `toLocaleString`, appear only as `Dated`.
- Storage writes never fail: the quota errors caught in `saveToLocal`/`clearLocal` are out.
- `createAlert` (clock and random id) and `getCameraPermission` (browser permission query) are out.
- The chat service's success interceptor is the identity on responses and has no member of its own.
- Five actions of the experiment store are out: `saveExperimentRecord`, `endExperiment`, `generateReport`, `exportReport` and `importExperimentData`. Each only calls the service, toasts and rethrows, and most call service methods that src/api/experiment.js does not define.
- The computed user fields (id, username, email, avatar), `userRoleText` and `userStatusText` are out. They read src/utils/auth.js, which is not part of this model; only its persistence effects appear.
- Older copies of files under `.history/` are not modelled.

## Findings

| source | as written | input that shows it | evidently intended | confidence | as-written member | corrected member |
|---|---|---|---|---|---|---|
| src/stores/booking.js:108 | `batchMarkAsRead` calls `bookingApi.batchMarkNotificationsAsRead`, which the booking service does not define (it defines `batchMarkAsRead`, src/api/examBooking.js:260), so every call throws a TypeError and nothing is marked | any list of ids, e.g. `[1]` | call the service's `batchMarkAsRead`, then mark the listed notifications (that call also needs the token the store never passes, src/api/examBooking.js:260, 308-312; the service call is an oracle here) | not executed | BookingStore.Store.BatchMarkAsReadAsWritten | BookingStore.Store.BatchMarkAsRead |
| src/stores/booking.js:33 (also 44, 54) | the fetch actions read `response.data.data`, but the service's handler has already unwrapped the body (src/api/examBooking.js:320), so an array payload has no `data` and the read throws | a payload `[]` or `[{...}]` from `getAvailableTimeSlots` | store the payload itself, `response \|\| []` (the store actions model the read as written; `ListOfPayload` is the corrected read) | not executed | BookingStore.Store.FetchAvailableTimeSlots | BookingStore.ListOfPayload |
| src/stores/booking.js:65 | `bookExam` calls the service's `bookExam(data, token)` without a token; its header builder reads `undefined.replace` (src/api/examBooking.js:100-103, 310), so the action always rejects with a TypeError before any request | any `bookingData`, e.g. `{userId: 1}` | pass the signed-in user's token to the service | not executed | BookingStore.Store.BookExamAsWritten | BookingStore.Store.BookExam |
| src/stores/booking.js:79 | `cancelBooking` calls the service's `cancelBooking(bookingId, data, token)` without a token, so it always rejects with the header builder's TypeError before any request (src/api/examBooking.js:113-116, 310) | any booking id, e.g. `7` | pass the signed-in user's token to the service | not executed | BookingStore.Store.CancelBookingAsWritten | BookingStore.Store.CancelBooking |
| src/store/experiment.js:214-215 | `getExperimentById` reads `response.data.data`, but the service's transform has already returned `parsed.data` (src/api/experiment.js:27-30), so `response.data` is the record and a record without its own `data` field throws '实验不存在' | a backend body `{"data": {"id": 3, "status": "1"}}` | cache `response.data`, the record itself | not executed | ExperimentStore.RecordWithoutDataMissing | ExperimentStore.RecordPayload |
