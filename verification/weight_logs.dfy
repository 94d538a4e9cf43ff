/** app/endpoints/weight_logs.py: add a weight log to the caller's document,
    and list the logs in time order, optionally cut to a period. */
module WeightLogs {
  import opened Wrappers
  import opened Records
  import opened Seqs
  import opened Periods
  import opened LogOrder
  import opened Db

  /** A request body before validation; a missing key or JSON null is `None`. */
  datatype WeightLogBody = WeightLogBody(weight: Option<real>, recordedAt: Option<int>)

  /** `WeightLogIn` once validated. */
  datatype WeightLogIn = WeightLogIn(weight: real, recordedAt: Option<int>)

  /** `weight: float = Field(..., gt=0)`: required and strictly positive. */
  function ValidateLog(b: WeightLogBody): (r: Result<WeightLogIn, HttpError>)
    ensures r.Success? <==> b.weight.Some? && b.weight.value > 0.0
    ensures r.Failure? ==> r.error == ValidationError
    ensures r.Success? ==> r.value.weight == b.weight.value && r.value.recordedAt == b.recordedAt
  {
    if b.weight.None? || b.weight.value <= 0.0 then Failure(ValidationError)
    else Success(WeightLogIn(b.weight.value, b.recordedAt))
  }

  /** The log to append: the payload's time, or `now` when it has none. */
  function NewLog(p: WeightLogIn, now: int): (l: Log)
    ensures l.weight == p.weight
    ensures p.recordedAt.None? ==> l.recordedAt == now
    ensures p.recordedAt.Some? ==> l.recordedAt == p.recordedAt.value
  {
    Log(p.weight, p.recordedAt.GetOr(now))
  }

  /** The caller's document with `l` appended to its weight list. */
  function WithLog(u: UserRecord, l: Log): (r: UserRecord)
  {
    u.(weightLogs := Present(GetList(u.weightLogs) + [l]))
  }

  /** Appending adds exactly one log at the end, keeps the earlier ones and
      changes no other key. */
  lemma AppendFacts(u: UserRecord, l: Log)
    ensures var logs := GetList(WithLog(u, l).weightLogs);
            && |logs| == |GetList(u.weightLogs)| + 1
            && logs[..|GetList(u.weightLogs)|] == GetList(u.weightLogs)
            && logs[|GetList(u.weightLogs)|] == l
    ensures WithLog(u, l).(weightLogs := u.weightLogs) == u
  {
  }

  /** `create_weight_log`: validate, append, store, answer with the new log. */
  method CreateWeightLog(table: UserTable, current: UserRecord, body: WeightLogBody, now: int)
    returns (r: Result<Log, HttpError>)
    modifies table
    ensures ValidateLog(body).Failure? ==>
              r == Failure(ValidationError) && table.docs == old(table.docs)
    ensures ValidateLog(body).Success? ==>
              r == Success(NewLog(ValidateLog(body).value, now))
              && table.docs == Upsert(old(table.docs), WithLog(current, r.value))
  {
    var payload := ValidateLog(body);
    if payload.Failure? {
      return Failure(ValidationError);
    }
    var newLog := NewLog(payload.value, now);
    table.Save(WithLog(current, newLog));
    r := Success(newLog);
  }

  /** `list_weight_logs`: the logs sorted by time; a non-empty period is
      parsed (and may fail with a 500) even when there are no logs. */
  function ListWeightLogs(u: UserRecord, period: Option<string>, now: int): (r: Result<seq<Log>, HttpError>)
  {
    var logs := SortByTime(GetList(u.weightLogs));
    if period.Some? && period.value != [] then
      match PeriodWindow(period.value, now)
      case Failure(_) => Failure(InternalError)
      case Success(All) => Success(logs)
      case Success(Since(cutoff)) => Success(KeepSince(logs, cutoff))
    else Success(logs)
  }

  /** Without a period the listing is every stored log, sorted by time. */
  lemma ListWithoutPeriod(u: UserRecord, now: int)
    ensures var r := ListWeightLogs(u, None, now);
            && r.Success? && Sorted(r.value)
            && multiset(r.value) == multiset(GetList(u.weightLogs))
  {
    SortByTimeSorted(GetList(u.weightLogs));
    SortByTimePermutes(GetList(u.weightLogs));
  }

  /** With a period that yields a cutoff, the listing is sorted and holds
      exactly the stored logs at or after the cutoff, each as often as it is
      stored; with any other unit it holds them all. */
  lemma ListWithPeriod(u: UserRecord, period: string, now: int)
    requires period != [] && PeriodWindow(period, now).Success?
    ensures var r := ListWeightLogs(u, Some(period), now);
            && r.Success? && Sorted(r.value)
            && (PeriodWindow(period, now).value.Since? ==>
                  && (forall l :: l in r.value <==>
                        l in GetList(u.weightLogs) && l.recordedAt >= PeriodWindow(period, now).value.cutoff)
                  && (forall l :: multiset(r.value)[l] ==
                        if l.recordedAt >= PeriodWindow(period, now).value.cutoff
                        then multiset(GetList(u.weightLogs))[l] else 0))
            && (PeriodWindow(period, now).value.All? ==>
                  multiset(r.value) == multiset(GetList(u.weightLogs)))
  {
    var raw := GetList(u.weightLogs);
    SortByTimeSorted(raw);
    SortByTimePermutes(raw);
    if PeriodWindow(period, now).value.Since? {
      var cutoff := PeriodWindow(period, now).value.cutoff;
      KeepSinceSorted(SortByTime(raw), cutoff);
      KeepSinceExactly(SortByTime(raw), cutoff);
      forall l ensures l in SortByTime(raw) <==> l in raw {
        assert l in multiset(SortByTime(raw)) <==> l in multiset(raw);
      }
    }
  }

  /** A bad quantity fails the listing even when there are no logs. */
  lemma ListBadPeriod(u: UserRecord, unit: char, now: int)
    ensures ListWeightLogs(u, Some([unit]), now) == Failure(InternalError)
  {
    UnitAloneIsError(unit, now);
  }

  /** After creating a log, the listing without a period holds it alongside
      every earlier log. */
  lemma CreateThenList(u: UserRecord, l: Log, now: int)
    ensures var r := ListWeightLogs(WithLog(u, l), None, now);
            r.Success? && multiset(r.value) == multiset(GetList(u.weightLogs)) + multiset{l}
  {
    SortByTimePermutes(GetList(WithLog(u, l).weightLogs));
  }
}
