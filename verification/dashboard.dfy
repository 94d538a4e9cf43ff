/** `get_dashboard_metrics` of app/endpoints/dashboard.py: the user's weight
    logs sorted in place by time, cut to the requested period, turned into a
    day-by-day history, and the current weight, weight lost and BMI derived
    from it. */
module Dashboard {
  import opened Wrappers
  import opened Records
  import opened Seqs
  import opened Periods
  import opened LogOrder
  import Metrics

  /** One history point: the calendar day (days since the clock's epoch)
      and the weight logged then. */
  datatype LogItem = LogItem(date: int, weight: real)

  /** The response body (`DashboardMetricsOut`). */
  datatype DashboardMetrics = DashboardMetrics(
    objective: Option<string>,
    heightCm: real,
    initialWeight: real,
    currentWeight: Option<real>,
    weightLost: Option<real>,
    bmi: Option<real>,
    history: seq<LogItem>)

  /** `recorded_at.date()`: the day a timestamp falls on. */
  function DateOf(t: int): int {
    t / Day
  }

  function ToItem(l: Log): LogItem {
    LogItem(DateOf(l.recordedAt), l.weight)
  }

  /** Step 4: one history point per kept log, in the same order. */
  function History(logs: seq<Log>): (h: seq<LogItem>)
    ensures |h| == |logs|
    ensures forall k :: 0 <= k < |logs| ==> h[k] == ToItem(logs[k])
  {
    seq(|logs|, k requires 0 <= k < |logs| => ToItem(logs[k]))
  }

  /** Steps 2 and 3: the logs sorted by time, then cut to the period when a
      non-empty period is given and there is at least one log. */
  function WindowedLogs(raw: seq<Log>, period: Option<string>, now: int): Result<seq<Log>, PeriodError>
  {
    var logs := SortByTime(raw);
    if period.Some? && period.value != [] && logs != [] then
      match PeriodWindow(period.value, now)
      case Failure(e) => Failure(e)
      case Success(All) => Success(logs)
      case Success(Since(cutoff)) => Success(KeepSince(logs, cutoff))
    else Success(logs)
  }

  /** The BMI as the handler writes it inline:
      `current_weight / ((height_cm / 100) ** 2) if (current_weight and height_cm) else None`. */
  function InlineBmi(current: Option<real>, height: real): Option<real>
  {
    if current.Some? && current.value != 0.0 && height != 0.0
    then Some(current.value / ((height / 100.0) * (height / 100.0)))
    else None
  }

  /** The inline BMI is `compute_bmi` of app/utils/metrics.py. */
  lemma InlineBmiAgrees(current: Option<real>, height: real)
    ensures InlineBmi(current, height)
            == if current.Some? then Metrics.ComputeBmi(current.value, height) else None
  {
    if current.Some? {
      Metrics.BmiInline(current.value, height);
    }
  }

  /** Step 5 and the response: missing initial weight and height read as 0;
      the current weight is the last history point; the weight lost needs a
      non-zero initial and current weight; the BMI a non-zero current weight
      and height. */
  function MetricsOf(user: UserRecord, history: seq<LogItem>): DashboardMetrics
  {
    var initial := Get(user.initialWeight).GetOr(0.0);
    var height := Get(user.heightCm).GetOr(0.0);
    var current := if history == [] then None else Some(history[|history| - 1].weight);
    var lost := if initial != 0.0 && current.Some? && current.value != 0.0
                then Some(initial - current.value) else None;
    DashboardMetrics(Get(user.objetivo), height, initial, current, lost, InlineBmi(current, height), history)
  }

  /** What the endpoint answers; a period whose quantity is not an integer
      raises, which the server turns into a 500. */
  function DashboardMetricsFor(user: UserRecord, period: Option<string>, now: int): Result<DashboardMetrics, HttpError>
  {
    match WindowedLogs(GetList(user.weightLogs), period, now)
    case Failure(_) => Failure(InternalError)
    case Success(logs) => Success(MetricsOf(user, History(logs)))
  }

  /** One pass of the insertion sort: shift `a[i]` left past the later
      entries of the sorted prefix `a[..i]`. */
  method InsertStep(a: array<Log>, i: int)
    requires 0 <= i < a.Length
    requires Sorted(a[..i])
    modifies a
    ensures a[..i + 1] == InsertByTime(old(a[..i]), old(a[i]))
    ensures a[i + 1..] == old(a[i + 1..])
  {
    var x := a[i];
    ghost var r := a[..i];
    var j := i;
    while j > 0 && a[j - 1].recordedAt > x.recordedAt
      invariant 0 <= j <= i
      invariant forall k :: 0 <= k < j ==> a[k] == r[k]
      invariant forall k :: j < k <= i ==> a[k] == r[k - 1]
      invariant forall k :: i < k < a.Length ==> a[k] == old(a[k])
      invariant forall k :: j <= k < i ==> r[k].recordedAt > x.recordedAt
    {
      a[j] := a[j - 1];
      j := j - 1;
    }
    a[j] := x;
    ShiftedIsInsert(r, x, j, a[..i + 1]);
    assert a[i + 1..] == old(a[i + 1..]);
  }

  /** The array prefix the shifting loop leaves — `r` with everything from
      `j` on moved one place right and `x` at `j` — is `x` inserted in
      time order. */
  lemma ShiftedIsInsert(r: seq<Log>, x: Log, j: int, b: seq<Log>)
    requires Sorted(r) && 0 <= j <= |r| && |b| == |r| + 1
    requires forall k :: 0 <= k < j ==> b[k] == r[k]
    requires b[j] == x
    requires forall k :: j < k < |b| ==> b[k] == r[k - 1]
    requires j > 0 ==> r[j - 1].recordedAt <= x.recordedAt
    requires forall k :: j <= k < |r| ==> r[k].recordedAt > x.recordedAt
    ensures b == InsertByTime(r, x)
  {
    forall k | 0 <= k < j ensures r[k].recordedAt <= x.recordedAt {
      assert r[k].recordedAt <= r[j - 1].recordedAt;
    }
    InsertAt(r, x, j);
    assert b == r[..j] + [x] + r[j..];
  }

  /** `logs.sort(key=lambda x: x["recorded_at"])`: a stable in-place sort. */
  method SortInPlace(a: array<Log>)
    modifies a
    ensures a[..] == SortByTime(old(a[..]))
  {
    ghost var s := a[..];
    var i := 0;
    while i < a.Length
      invariant 0 <= i <= a.Length
      invariant a[..i] == SortByTime(s[..i])
      invariant a[i..] == s[i..]
    {
      SortByTimeSorted(s[..i]);
      InsertStep(a, i);
      assert s[..i + 1] == s[..i] + [s[i]];
      i := i + 1;
    }
    assert a[..] == a[..a.Length];
    assert s == s[..a.Length];
  }

  /** The endpoint: copy the logs, sort them in place, filter, build the
      history and the metrics. */
  method GetDashboardMetrics(user: UserRecord, period: Option<string>, now: int)
    returns (r: Result<DashboardMetrics, HttpError>)
    ensures r == DashboardMetricsFor(user, period, now)
  {
    var raw := GetList(user.weightLogs);
    var a := new Log[|raw|](k requires 0 <= k < |raw| => raw[k]);
    assert a[..] == raw;
    SortInPlace(a);
    var logs := a[..];
    if period.Some? && period.value != [] && a.Length > 0 {
      var w := PeriodWindow(period.value, now);
      if w.Failure? {
        return Failure(InternalError);
      }
      if w.value.Since? {
        logs := KeepSince(logs, w.value.cutoff);
      }
    }
    r := Success(MetricsOf(user, History(logs)));
  }

  lemma DateMonotone(t1: int, t2: int)
    requires t1 <= t2
    ensures DateOf(t1) <= DateOf(t2)
  {
  }

  /** The windowed logs are sorted, and each of them is an input log: no
      log is invented or duplicated. */
  lemma {:induction false} WindowedLogsShape(raw: seq<Log>, period: Option<string>, now: int)
    requires WindowedLogs(raw, period, now).Success?
    ensures Sorted(WindowedLogs(raw, period, now).value)
    ensures multiset(WindowedLogs(raw, period, now).value) <= multiset(raw)
    ensures |WindowedLogs(raw, period, now).value| <= |raw|
  {
    var logs := SortByTime(raw);
    SortByTimeSorted(raw);
    SortByTimePermutes(raw);
    var out := WindowedLogs(raw, period, now).value;
    if out != logs {
      var cutoff := PeriodWindow(period.value, now).value.cutoff;
      assert out == KeepSince(logs, cutoff);
      KeepSinceSorted(logs, cutoff);
      KeepSinceExactly(logs, cutoff);
    }
    assert |multiset(out)| <= |multiset(raw)|;
  }

  /** Without a period, or without logs, every log is kept, in time order. */
  lemma NoPeriodKeepsAll(user: UserRecord, period: Option<string>, now: int)
    requires period.None? || period == Some([]) || GetList(user.weightLogs) == []
    ensures DashboardMetricsFor(user, period, now).Success?
    ensures DashboardMetricsFor(user, period, now).value.history
              == History(SortByTime(GetList(user.weightLogs)))
  {
    SortByTimePermutes(GetList(user.weightLogs));
  }

  /** `"<n>d"` keeps exactly the logs of the last `n` days, in time order. */
  lemma DaysPeriodFilters(raw: seq<Log>, n: nat, now: int)
    ensures WindowedLogs(raw, Some(ShowNat(n) + ['d']), now)
              == Success(KeepSince(SortByTime(raw), now - n * Day))
  {
    DaysPeriod(n, now);
  }

  /** `"<n>y"` keeps exactly the logs of the last `n * 365` days. */
  lemma YearsPeriodFilters(raw: seq<Log>, n: nat, now: int)
    ensures WindowedLogs(raw, Some(ShowNat(n) + ['y']), now)
              == Success(KeepSince(SortByTime(raw), now - n * 365 * Day))
  {
    YearsPeriod(n, now);
  }

  /** Any other unit applies no filter. */
  lemma OtherUnitFiltersNothing(raw: seq<Log>, n: nat, unit: char, now: int)
    requires unit != 'd' && unit != 'y'
    ensures WindowedLogs(raw, Some(ShowNat(n) + [unit]), now) == Success(SortByTime(raw))
  {
    OtherUnitKeepsAll(n, unit, now);
  }

  /** A period without a quantity (`"d"`) is an error once there are logs;
      with no logs it is never parsed. */
  lemma UnitAlonePeriod(user: UserRecord, unit: char, now: int)
    ensures GetList(user.weightLogs) != [] ==>
              DashboardMetricsFor(user, Some([unit]), now) == Failure(InternalError)
    ensures GetList(user.weightLogs) == [] ==>
              DashboardMetricsFor(user, Some([unit]), now).Success?
  {
    UnitAloneIsError(unit, now);
    SortByTimePermutes(GetList(user.weightLogs));
  }

  /** The history is in day order, never longer than the stored logs, and
      carries each kept log's weight unchanged. */
  lemma HistoryFacts(user: UserRecord, period: Option<string>, now: int)
    requires DashboardMetricsFor(user, period, now).Success?
    ensures var h := DashboardMetricsFor(user, period, now).value.history;
            && |h| <= |GetList(user.weightLogs)|
            && (forall i, j :: 0 <= i < j < |h| ==> h[i].date <= h[j].date)
            && (forall k :: 0 <= k < |h| ==>
                  exists l :: l in GetList(user.weightLogs) && h[k] == ToItem(l))
  {
    var raw := GetList(user.weightLogs);
    WindowedLogsShape(raw, period, now);
    var logs := WindowedLogs(raw, period, now).value;
    var h := History(logs);
    forall i, j | 0 <= i < j < |h| ensures h[i].date <= h[j].date {
      DateMonotone(logs[i].recordedAt, logs[j].recordedAt);
    }
    forall k | 0 <= k < |h| ensures exists l :: l in raw && h[k] == ToItem(l) {
      assert logs[k] in multiset(logs);
      assert logs[k] in raw;
    }
  }

  /** The last entry of a sorted list is its latest. */
  lemma LastIsLatest(logs: seq<Log>)
    requires Sorted(logs) && logs != []
    ensures forall l :: l in logs ==> l.recordedAt <= logs[|logs| - 1].recordedAt
  {
    forall l | l in logs ensures l.recordedAt <= logs[|logs| - 1].recordedAt {
      var k :| 0 <= k < |logs| && logs[k] == l;
    }
  }

  /** The formulas: the weight lost needs a non-zero initial and current
      weight and is their difference; the BMI is `compute_bmi` of the
      current weight and the height. */
  lemma FormulaFacts(user: UserRecord, history: seq<LogItem>)
    ensures var m := MetricsOf(user, history);
            && (history == [] <==> m.currentWeight.None?)
            && (m.weightLost.Some? <==>
                  m.initialWeight != 0.0 && m.currentWeight.Some? && m.currentWeight.value != 0.0)
            && (m.weightLost.Some? ==> m.weightLost.value == m.initialWeight - m.currentWeight.value)
            && m.bmi == (if m.currentWeight.Some?
                         then Metrics.ComputeBmi(m.currentWeight.value, m.heightCm) else None)
  {
    var m := MetricsOf(user, history);
    InlineBmiAgrees(m.currentWeight, m.heightCm);
  }

  /** The metrics over sorted logs: the current weight is that of the
      latest log, and the formulas hold. */
  lemma SortedMetrics(user: UserRecord, logs: seq<Log>)
    requires Sorted(logs)
    ensures var m := MetricsOf(user, History(logs));
            && (logs == [] <==> m.currentWeight.None?)
            && (m.currentWeight.Some? ==>
                  exists l :: l in logs && l.weight == m.currentWeight.value
                              && forall l' :: l' in logs ==> l'.recordedAt <= l.recordedAt)
            && (m.weightLost.Some? <==>
                  m.initialWeight != 0.0 && m.currentWeight.Some? && m.currentWeight.value != 0.0)
            && (m.weightLost.Some? ==> m.weightLost.value == m.initialWeight - m.currentWeight.value)
            && m.bmi == (if m.currentWeight.Some?
                         then Metrics.ComputeBmi(m.currentWeight.value, m.heightCm) else None)
  {
    var h := History(logs);
    FormulaFacts(user, h);
    if logs != [] {
      var last := logs[|logs| - 1];
      LastIsLatest(logs);
      assert h[|h| - 1].weight == last.weight;
      assert last in logs;
    }
  }

  /** The current weight is that of the latest kept log (none without logs);
      the weight lost and the BMI follow the formulas of app/utils/metrics.py. */
  lemma MetricsFacts(user: UserRecord, period: Option<string>, now: int)
    requires DashboardMetricsFor(user, period, now).Success?
    ensures var m := DashboardMetricsFor(user, period, now).value;
            var logs := WindowedLogs(GetList(user.weightLogs), period, now).value;
            && (logs == [] <==> m.currentWeight.None?)
            && (m.currentWeight.Some? ==>
                  exists l :: l in logs && l.weight == m.currentWeight.value
                              && forall l' :: l' in logs ==> l'.recordedAt <= l.recordedAt)
            && (m.weightLost.Some? <==>
                  m.initialWeight != 0.0 && m.currentWeight.Some? && m.currentWeight.value != 0.0)
            && (m.weightLost.Some? ==> m.weightLost.value == m.initialWeight - m.currentWeight.value)
            && m.bmi == (if m.currentWeight.Some?
                         then Metrics.ComputeBmi(m.currentWeight.value, m.heightCm) else None)
  {
    var raw := GetList(user.weightLogs);
    WindowedLogsShape(raw, period, now);
    var logs := WindowedLogs(raw, period, now).value;
    assert DashboardMetricsFor(user, period, now).value == MetricsOf(user, History(logs));
    SortedMetrics(user, logs);
  }
}
