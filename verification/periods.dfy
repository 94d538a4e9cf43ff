/** The period code of the weight-history queries (`"7d"`, `"30d"`, `"1y"`):
    an integer quantity followed by a one-letter unit. The same parsing is
    written out in dashboard.py and weight_logs.py. */
module Periods {
  import opened Wrappers

  /** Microseconds in one day: `timedelta(days=1)`. */
  const Day: int := 86_400_000_000

  /** Which logs a period keeps: all of them, or those at or after a cutoff. */
  datatype Window = All | Since(cutoff: int)

  /** `int(...)` raised `ValueError`. */
  datatype PeriodError = NotAnInteger

  predicate IsDigit(c: char) { '0' <= c <= '9' }

  predicate AllDigits(s: string) { forall k :: 0 <= k < |s| ==> IsDigit(s[k]) }

  function DigitValue(c: char): nat
    requires IsDigit(c)
  {
    (c - '0') as nat
  }

  function DigitChar(d: nat): (c: char)
    requires d < 10
    ensures IsDigit(c) && DigitValue(c) == d
  {
    ('0' as int + d) as char
  }

  /** The number a string of decimal digits denotes, most significant first. */
  function DigitsValue(s: string): nat
    requires AllDigits(s)
  {
    if s == [] then 0 else DigitsValue(s[..|s| - 1]) * 10 + DigitValue(s[|s| - 1])
  }

  /** `str(n)` for a natural number. */
  function ShowNat(n: nat): (s: string)
    decreases n
  {
    if n < 10 then [DigitChar(n)] else ShowNat(n / 10) + [DigitChar(n % 10)]
  }

  /** Python's `int(s)` on a string: an optional sign and at least one
      decimal digit; anything else is `None` (a `ValueError`). */
  function ParseInt(s: string): (r: Option<int>)
    ensures r.Some? ==> s != []
  {
    if s != [] && (s[0] == '+' || s[0] == '-') then
      var body := s[1..];
      if body != [] && AllDigits(body) then
        var magnitude: int := DigitsValue(body);
        Some(if s[0] == '-' then -magnitude else magnitude)
      else None
    else if s != [] && AllDigits(s) then Some(DigitsValue(s))
    else None
  }

  /** `qty, unit = int(period[:-1]), period[-1]` followed by the cutoff
      choice: `d` counts days, `y` counts 365-day years, any other unit
      filters nothing. The quantity is parsed before the unit is looked at,
      so a bad quantity is an error whatever the unit. */
  function PeriodWindow(period: string, now: int): (r: Result<Window, PeriodError>)
  {
    if period == [] then Failure(NotAnInteger)
    else
      match ParseInt(period[..|period| - 1])
      case None => Failure(NotAnInteger)
      case Some(qty) =>
        var unit := period[|period| - 1];
        if unit == 'd' then Success(Since(now - qty * Day))
        else if unit == 'y' then Success(Since(now - qty * 365 * Day))
        else Success(All)
  }

  /** `str(n)` is digits only and `int(str(n)) == n`. */
  lemma {:induction false} ShowNatDigits(n: nat)
    ensures ShowNat(n) != [] && AllDigits(ShowNat(n))
    ensures DigitsValue(ShowNat(n)) == n
    decreases n
  {
    if n >= 10 {
      ShowNatDigits(n / 10);
      var s := ShowNat(n);
      assert s[..|s| - 1] == ShowNat(n / 10);
    }
  }

  lemma ParseShowNat(n: nat)
    ensures ParseInt(ShowNat(n)) == Some(n)
  {
    ShowNatDigits(n);
    assert ShowNat(n)[0] != '+' && ShowNat(n)[0] != '-' by {
      assert IsDigit(ShowNat(n)[0]);
    }
  }

  /** `"<n>d"` keeps the logs of the last `n` days. */
  lemma DaysPeriod(n: nat, now: int)
    ensures PeriodWindow(ShowNat(n) + ['d'], now) == Success(Since(now - n * Day))
  {
    var p := ShowNat(n) + ['d'];
    assert p[..|p| - 1] == ShowNat(n);
    ParseShowNat(n);
  }

  /** `"<n>y"` keeps the logs of the last `n * 365` days. */
  lemma YearsPeriod(n: nat, now: int)
    ensures PeriodWindow(ShowNat(n) + ['y'], now) == Success(Since(now - n * 365 * Day))
  {
    var p := ShowNat(n) + ['y'];
    assert p[..|p| - 1] == ShowNat(n);
    ParseShowNat(n);
  }

  /** Any other unit letter after a valid quantity filters nothing. */
  lemma OtherUnitKeepsAll(n: nat, unit: char, now: int)
    requires unit != 'd' && unit != 'y'
    ensures PeriodWindow(ShowNat(n) + [unit], now) == Success(All)
  {
    var p := ShowNat(n) + [unit];
    assert p[..|p| - 1] == ShowNat(n);
    ParseShowNat(n);
  }

  /** A period that is a unit letter alone has no quantity: `int("")` fails. */
  lemma UnitAloneIsError(unit: char, now: int)
    ensures PeriodWindow([unit], now) == Failure(NotAnInteger)
  {
    assert [unit][..0] == [];
  }

  /** Every successful parse reads the quantity as an integer; the result is
      a cutoff exactly for the units `d` and `y`. */
  lemma WindowShape(period: string, now: int)
    ensures PeriodWindow(period, now).Success? <==>
              period != [] && ParseInt(period[..|period| - 1]).Some?
    ensures PeriodWindow(period, now).Success? ==>
              (PeriodWindow(period, now).value.Since? <==>
                 period[|period| - 1] == 'd' || period[|period| - 1] == 'y')
  {
  }
}
