/**
 * src/utils/monitor.js: the proctoring helpers. Capability detection,
 * statistics with percentages and a risk level, the risk CSS class, the
 * "time ago" wording, and the `monitor_` key discipline in localStorage.
 * Percentages and rates are computed exactly on integers.
 */
module Monitor {
  import opened Wrappers
  import opened Js
  import opened Http
  import Strings

  /** The result of `checkBrowserSupport()`, given what the browser offers. */
  datatype Support = Support(camera: bool, canvas: bool, blob: bool, formData: bool, isSupported: bool)

  function BrowserSupport(camera: bool, canvas: bool, blob: bool, formData: bool): (r: Support)
    ensures r.camera == camera && r.canvas == canvas && r.blob == blob && r.formData == formData
    ensures r.isSupported <==> camera && canvas && blob && formData
  {
    var flags := [camera, canvas, blob, formData];
    assert flags[0] == camera && flags[1] == canvas && flags[2] == blob && flags[3] == formData;
    Support(camera, canvas, blob, formData, forall i :: 0 <= i < |flags| ==> flags[i])
  }

  /** `Math.round(p / q * 100)` for `q > 0`: the nearest integer percentage, halves rounded up. */
  function Percent(p: int, q: int): (r: int)
    requires q > 0
    ensures 2 * q * r <= 200 * p + q < 2 * q * (r + 1)
  {
    var d := 2 * q;
    var a := 200 * p + q;
    assert a == d * (a / d) + a % d;
    a / d
  }

  /** A whole between its bounds gives a percentage between 0 and 100. */
  lemma PercentBounds(p: int, q: int)
    requires 0 <= p <= q && q > 0
    ensures 0 <= Percent(p, q) <= 100
  {
    var r := Percent(p, q);
    if r < 0 {
      assert 2 * q * (r + 1) <= 0 by { MulNonPositive(2 * q, r + 1); }
    }
    if r > 100 {
      assert 2 * q * r >= 2 * q * 101 by { MulMonotone(2 * q, 101, r); }
    }
  }

  lemma MulNonPositive(d: int, k: int)
    requires d > 0 && k <= 0
    ensures d * k <= 0
  {
  }

  lemma MulMonotone(d: int, j: int, k: int)
    requires d > 0 && j <= k
    ensures d * j <= d * k
  {
  }

  /** The two rates add up to 100, or to 101 when both land exactly on a half. */
  lemma {:induction false} RatesSum(p: int, q: int)
    requires q > 0
    ensures 100 <= Percent(p, q) + Percent(q - p, q) <= 101
  {
    var a := Percent(p, q);
    var b := Percent(q - p, q);
    var d := 2 * q;
    // 2q(a + b) <= 202q < 2q(a + b + 2)
    assert d * a + d * b <= 202 * q < d * (a + 1) + d * (b + 1);
    assert d * (a + b) <= d * 101 < d * (a + b + 2);
    if a + b < 100 {
      MulMonotone(d, a + b + 2, 101);
    }
    if a + b > 101 {
      MulMonotone(d, 102, a + b);
    }
  }

  datatype Risk = Low | Medium | High

  function RiskName(r: Risk): string
  {
    match r
    case Low => "LOW"
    case Medium => "MEDIUM"
    case High => "HIGH"
  }

  /** `abnormal / total >= tenths / 10`, for a total that is not 0. */
  predicate RateAtLeast(abnormal: int, total: int, tenths: int)
    requires total != 0
  {
    if total > 0 then 10 * abnormal >= tenths * total else 10 * abnormal <= tenths * total
  }

  /** `calculateRiskLevel(abnormalCount, totalCount)`: HIGH from 30%, MEDIUM from 10%, LOW below and for no data. */
  function RiskLevel(abnormal: int, total: int): (r: Risk)
    ensures total == 0 ==> r == Low
    ensures total > 0 ==> (r == High <==> 10 * abnormal >= 3 * total)
    ensures total > 0 ==> (r == Medium <==> total <= 10 * abnormal < 3 * total)
    ensures total > 0 ==> (r == Low <==> 10 * abnormal < total)
  {
    if total == 0 then Low
    else if RateAtLeast(abnormal, total, 3) then High
    else if RateAtLeast(abnormal, total, 1) then Medium
    else Low
  }

  function Rank(r: Risk): nat
  {
    match r
    case Low => 0
    case Medium => 1
    case High => 2
  }

  /** For a fixed total, more abnormal events never lower the risk. */
  lemma RiskMonotone(a1: int, a2: int, total: int)
    requires a1 <= a2 && total >= 0
    ensures Rank(RiskLevel(a1, total)) <= Rank(RiskLevel(a2, total))
  {
  }

  /** What `formatStats(stats)` returns. */
  datatype Stats = Stats(totalCount: int, abnormalCount: int, normalCount: int,
                         normalRate: int, abnormalRate: int, riskLevel: Risk)

  /** `stats.x || 0` for a count that is a number or missing. */
  function Count(v: Option<int>): int
  {
    if v.Some? then v.value else 0
  }

  /** `formatStats(stats)`: missing counts are 0, the normal count is the rest, rates are rounded percentages. */
  function FormatStats(totalCount: Option<int>, abnormalCount: Option<int>): (r: Stats)
    ensures r.totalCount == Count(totalCount) && r.abnormalCount == Count(abnormalCount)
    ensures r.normalCount + r.abnormalCount == r.totalCount
    ensures r.totalCount <= 0 ==> r.normalRate == 100 && r.abnormalRate == 0
    ensures r.totalCount > 0 ==> r.normalRate == Percent(r.normalCount, r.totalCount)
    ensures r.totalCount > 0 ==> r.abnormalRate == Percent(r.abnormalCount, r.totalCount)
    ensures r.riskLevel == RiskLevel(r.abnormalCount, r.totalCount)
  {
    var total := Count(totalCount);
    var abnormal := Count(abnormalCount);
    var normal := total - abnormal;
    Stats(total, abnormal, normal,
          if total > 0 then Percent(normal, total) else 100,
          if total > 0 then Percent(abnormal, total) else 0,
          RiskLevel(abnormal, total))
  }

  /** Without data the report is all normal and low risk. */
  lemma EmptyStats(abnormalCount: Option<int>)
    requires abnormalCount == None || abnormalCount == Some(0)
    ensures FormatStats(None, abnormalCount) == Stats(0, 0, 0, 100, 0, Low)
    ensures FormatStats(Some(0), abnormalCount) == Stats(0, 0, 0, 100, 0, Low)
  {
  }

  /** With consistent counts, both rates are percentages that add up to 100 (101 on a double half). */
  lemma StatsRatesConsistent(total: int, abnormal: int)
    requires 0 <= abnormal <= total && total > 0
    ensures var s := FormatStats(Some(total), Some(abnormal));
      0 <= s.normalRate <= 100 && 0 <= s.abnormalRate <= 100 && 100 <= s.normalRate + s.abnormalRate <= 101
  {
    PercentBounds(abnormal, total);
    PercentBounds(total - abnormal, total);
    RatesSum(total - abnormal, total);
    assert total - (total - abnormal) == abnormal;
  }

  /** `getRiskLevelClass(level)`: the class of a known level, 'risk-unknown' for anything else. */
  function RiskClass(level: Option<Json>): (r: string)
    ensures ToText(level) == "LOW" ==> r == "risk-low"
    ensures ToText(level) == "MEDIUM" ==> r == "risk-medium"
    ensures ToText(level) == "HIGH" ==> r == "risk-high"
    ensures ToText(level) !in {"LOW", "MEDIUM", "HIGH"} ==> r == "risk-unknown"
  {
    var classMap := map["LOW" := "risk-low", "MEDIUM" := "risk-medium", "HIGH" := "risk-high"];
    var key := ToText(level);
    if key in classMap then classMap[key] else "risk-unknown"
  }

  /** Every level the statistics produce has a class of its own. */
  lemma ComputedRiskHasClass(abnormal: int, total: int)
    ensures RiskClass(Some(JStr(RiskName(RiskLevel(abnormal, total))))) != "risk-unknown"
  {
  }

  /** How long ago something happened, as `formatTime` words it. */
  datatype Elapsed = Blank | JustNow | MinutesAgo(minutes: int) | HoursAgo(hours: int) | Dated

  /** `formatTime(date)`, with `diff` the milliseconds from the date to now. */
  function FormatTime(date: Option<Json>, diff: int): (r: Elapsed)
    ensures r == Blank <==> !Present(date)
    ensures Present(date) ==> (r == JustNow <==> diff < 60000)
    ensures r.MinutesAgo? ==> 1 <= r.minutes <= 59 && r.minutes * 60000 <= diff < (r.minutes + 1) * 60000
    ensures r.HoursAgo? ==> 1 <= r.hours <= 23 && r.hours * 3600000 <= diff < (r.hours + 1) * 3600000
    ensures Present(date) ==> (r == Dated <==> diff >= 86400000)
  {
    if !Present(date) then Blank
    else if diff < 60000 then JustNow
    else if diff < 3600000 then MinutesAgo(diff / 60000)
    else if diff < 86400000 then HoursAgo(diff / 3600000)
    else Dated
  }

  /** The text shown; `None` for an old date, which `toLocaleString` renders. */
  function ElapsedText(e: Elapsed): Option<string>
  {
    match e
    case Blank => Some("")
    case JustNow => Some("刚刚")
    case MinutesAgo(n) => Some(Strings.IntText(n) + "分钟前")
    case HoursAgo(n) => Some(Strings.IntText(n) + "小时前")
    case Dated => None
  }

  /** A date in the future still reads as just now. */
  lemma FutureIsJustNow(date: Json, diff: int)
    requires Truthy(date) && diff < 0
    ensures ElapsedText(FormatTime(Some(date), diff)) == Some("刚刚")
  {
  }

  const Prefix := "monitor_"

  /** The localStorage key of a monitor entry. */
  function StorageKey(key: string): (r: string)
    ensures Strings.StartsWith(r, Prefix) && r[|Prefix|..] == key
  {
    Prefix + key
  }

  /** Different entries never share a storage key. */
  lemma StorageKeyInjective(a: string, b: string)
    requires StorageKey(a) == StorageKey(b)
    ensures a == b
  {
    assert a == StorageKey(a)[|Prefix|..];
  }

  /** `saveToLocal(key, data)`: the serialized data is stored under `monitor_<key>`. */
  method SaveToLocal(storage: Storage, key: string, text: string)
    modifies storage
    ensures storage.items == old(storage.items)[StorageKey(key) := text]
  {
    storage.SetItem(StorageKey(key), text);
  }

  /** `getFromLocal(key)`: the stored text under `monitor_<key>`, or null when it is missing or empty. */
  function GetFromLocal(items: map<string, string>, key: string): (r: Option<string>)
    ensures r.Some? <==> StorageKey(key) in items && items[StorageKey(key)] != ""
    ensures r.Some? ==> r.value == items[StorageKey(key)]
  {
    if StorageKey(key) in items && items[StorageKey(key)] != "" then Some(items[StorageKey(key)]) else None
  }

  /** What was saved under a key is read back under that key, and no other entry moves. */
  lemma SaveThenGet(items: map<string, string>, key: string, other: string, text: string)
    requires text != "" && other != key
    ensures GetFromLocal(items[StorageKey(key) := text], key) == Some(text)
    ensures GetFromLocal(items[StorageKey(key) := text], other) == GetFromLocal(items, other)
  {
    if StorageKey(other) == StorageKey(key) {
      StorageKeyInjective(other, key);
    }
  }

  /** A key `clearLocal(examId)` removes. */
  predicate Doomed(key: string, examId: Option<Json>)
  {
    Strings.StartsWith(key, Prefix) && Strings.Contains(key, ToText(examId))
  }

  /** `clearLocal(examId)`: exactly the monitor keys that mention the exam go; every other entry stays. */
  method ClearLocal(storage: Storage, examId: Option<Json>)
    modifies storage
    ensures storage.items.Keys == set k | k in old(storage.items) && !Doomed(k, examId)
    ensures forall k :: k in storage.items ==> storage.items[k] == old(storage.items)[k]
  {
    var keys := set k | k in storage.items && Doomed(k, examId);
    ghost var removed: set<string> := {};
    while keys != {}
      invariant keys !! removed
      invariant keys + removed == set k | k in old(storage.items) && Doomed(k, examId)
      invariant storage.items.Keys == old(storage.items).Keys - removed
      invariant forall k :: k in storage.items ==> storage.items[k] == old(storage.items)[k]
      decreases keys
    {
      var k :| k in keys;
      storage.RemoveItem(k);
      keys := keys - {k};
      removed := removed + {k};
    }
  }
}
