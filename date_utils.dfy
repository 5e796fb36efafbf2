/**
 * src/utils/dateUtils.js: date display, deadline checks and the labels of
 * booking statuses and exam modes. Instants are integer milliseconds and the
 * current time is a parameter; dayjs pattern rendering is left symbolic.
 */
module DateUtils {
  import opened Wrappers
  import opened Js

  /** A formatted date: empty, or the date rendered with a dayjs pattern. */
  datatype Formatted = Blank | Rendered(date: Json, pattern: string)

  const DatePattern := "YYYY-MM-DD"

  /** `formatDate(date, pattern = 'YYYY-MM-DD')`: '' for a falsy date. */
  function FormatDate(date: Option<Json>, pattern: Option<string>): (r: Formatted)
    ensures r == Blank <==> !Present(date)
    ensures r.Rendered? ==> r.date == date.value
    ensures r.Rendered? && pattern.None? ==> r.pattern == DatePattern
    ensures r.Rendered? && pattern.Some? ==> r.pattern == pattern.value
  {
    if !Present(date) then Blank
    else Rendered(date.value, if pattern.None? then DatePattern else pattern.value)
  }

  /** `formatDateTime(date)`: a date with its time of day. */
  function FormatDateTime(date: Option<Json>): (r: Formatted)
    ensures r == FormatDate(date, Some("YYYY-MM-DD HH:mm:ss"))
    ensures r == Blank <==> !Present(date)
  {
    FormatDate(date, Some("YYYY-MM-DD HH:mm:ss"))
  }

  /** `formatTime(date)`: hours and minutes only. */
  function FormatClock(date: Option<Json>): (r: Formatted)
    ensures r == FormatDate(date, Some("HH:mm"))
    ensures r == Blank <==> !Present(date)
  {
    FormatDate(date, Some("HH:mm"))
  }

  /** `0`, `''` and `null` are all blank, in every format. */
  lemma FalsyDatesBlank(date: Option<Json>, pattern: Option<string>)
    requires date.None? || date == Some(JNull) || date == Some(JNum(0)) || date == Some(JStr(""))
    ensures FormatDate(date, pattern) == FormatDateTime(date) == FormatClock(date) == Blank
  {
  }

  const HourMillis := 3600000

  /** `isExpired(date)`: the instant lies strictly before now. */
  function IsExpired(date: int, now: int): (r: bool)
    ensures r <==> date < now
  {
    date < now
  }

  /** `canCancel(examDate, cancelDeadlineHours)`: the deadline, that many hours earlier, is still ahead. */
  function CanCancel(examDate: int, hours: int, now: int): (r: bool)
    ensures r <==> examDate - hours * HourMillis > now
  {
    examDate - hours * HourMillis > now
  }

  /** A booking that can still be cancelled is for an exam that has not passed. */
  lemma CancellableNotExpired(examDate: int, hours: int, now: int)
    requires hours >= 0 && CanCancel(examDate, hours, now)
    ensures !IsExpired(examDate, now)
  {
  }

  /** A later deadline never allows what an earlier one forbids. */
  lemma CancelWindowShrinks(examDate: int, h1: int, h2: int, now: int)
    requires h1 <= h2 && CanCancel(examDate, h2, now)
    ensures CanCancel(examDate, h1, now)
  {
  }

  /** `map[key] || fallback`: a label whose key is the value's `String` form, or the value itself. */
  function Label(labels: map<string, string>, v: Option<Json>): (r: Option<Json>)
    ensures ToText(v) in labels && labels[ToText(v)] != "" ==> r == Some(JStr(labels[ToText(v)]))
    ensures ToText(v) !in labels ==> r == v
  {
    var key := ToText(v);
    if key in labels && labels[key] != "" then Some(JStr(labels[key])) else v
  }

  const StatusLabels := map["BOOKED" := "已预约", "CONFIRMED" := "已确认", "CANCELLED" := "已取消",
                            "COMPLETED" := "已完成", "NO_SHOW" := "缺席"]

  const ModeLabels := map["ONLINE" := "线上考试", "OFFLINE" := "线下考试", "HYBRID" := "混合模式"]

  /** `getStatusText(status)` */
  function StatusText(status: Option<Json>): (r: Option<Json>)
    ensures ToText(status) in StatusLabels ==> r == Some(JStr(StatusLabels[ToText(status)]))
    ensures ToText(status) !in StatusLabels ==> r == status
  {
    Label(StatusLabels, status)
  }

  /** `getExamModeText(mode)` */
  function ExamModeText(mode: Option<Json>): (r: Option<Json>)
    ensures ToText(mode) in ModeLabels ==> r == Some(JStr(ModeLabels[ToText(mode)]))
    ensures ToText(mode) !in ModeLabels ==> r == mode
  {
    Label(ModeLabels, mode)
  }

  /** The five statuses get five different labels. */
  lemma StatusLabelsDistinct(a: string, b: string)
    requires a in StatusLabels && b in StatusLabels && a != b
    ensures StatusText(Some(JStr(a))) != StatusText(Some(JStr(b)))
  {
  }

  /** Labelling a label changes nothing: no label is itself a status or a mode. */
  lemma LabelsAreFixedPoints(v: Option<Json>)
    ensures StatusText(StatusText(v)) == StatusText(v)
    ensures ExamModeText(ExamModeText(v)) == ExamModeText(v)
  {
  }
}
