/** src/pages/DashboardPage.tsx of the web client: the BMI label, the
    weight-and-height dialog, the metrics request and the choice of screen. */
module DashboardUi {
  import opened Wrappers
  import Dashboard

  // ---------------------------------------------------------------- BMI label

  /** The four labels, from the lowest band to the highest. */
  const Bands: seq<string> := ["Abaixo do peso", "Peso normal", "Sobrepeso", "Obesidade"]

  /** The label under the BMI; a missing BMI reads as 0. */
  function Classification(bmi: Option<real>): (band: string)
    ensures band in Bands
  {
    var b := bmi.GetOr(0.0);
    if b < 18.5 then "Abaixo do peso"
    else if b < 25.0 then "Peso normal"
    else if b < 30.0 then "Sobrepeso"
    else "Obesidade"
  }

  /** The position of a band name in `Bands`. */
  function Rank(name: string): (i: int)
    ensures name in Bands ==> 0 <= i < |Bands| && Bands[i] == name
    ensures name !in Bands ==> i == -1
  {
    if name == Bands[0] then 0
    else if name == Bands[1] then 1
    else if name == Bands[2] then 2
    else if name == Bands[3] then 3
    else -1
  }

  /** Each label is given to exactly its band of BMI values. */
  lemma ClassificationBands(b: real)
    ensures Classification(Some(b)) == Bands[0] <==> b < 18.5
    ensures Classification(Some(b)) == Bands[1] <==> 18.5 <= b < 25.0
    ensures Classification(Some(b)) == Bands[2] <==> 25.0 <= b < 30.0
    ensures Classification(Some(b)) == Bands[3] <==> 30.0 <= b
  {
  }

  /** A missing BMI gets the label of BMI 0, the lowest band. */
  lemma MissingBmiLowest()
    ensures Classification(None) == Classification(Some(0.0)) == Bands[0]
  {
  }

  /** A higher BMI never gets an earlier band. */
  lemma ClassificationMonotone(b1: real, b2: real)
    requires b1 <= b2
    ensures 0 <= Rank(Classification(Some(b1))) <= Rank(Classification(Some(b2)))
  {
  }

  // ------------------------------------------------------------ dialog input

  /** `s.replace(',', '.')` with a string pattern: only the first comma
      becomes a point. */
  function ReplaceFirstComma(s: string): (r: string)
    ensures |r| == |s|
  {
    if s == [] then []
    else if s[0] == ',' then ['.'] + s[1..]
    else [s[0]] + ReplaceFirstComma(s[1..])
  }

  /** The first comma, at `i`, is turned into a point; the rest is kept,
      later commas included. */
  lemma {:induction false} ReplaceFirstCommaAt(s: string, i: nat)
    requires i < |s| && s[i] == ','
    requires forall j :: 0 <= j < i ==> s[j] != ','
    ensures ReplaceFirstComma(s) == s[..i] + "." + s[i + 1..]
  {
    if i > 0 {
      ReplaceFirstCommaAt(s[1..], i - 1);
      assert s[1..][..i - 1] == s[1..i];
      assert s[1..][i..] == s[i + 1..];
      assert s[..i] == [s[0]] + s[1..i];
    }
  }

  /** Without a comma the text is unchanged. */
  lemma {:induction false} ReplaceNoComma(s: string)
    requires ',' !in s
    ensures ReplaceFirstComma(s) == s
  {
    if s != [] {
      assert ',' !in s[1..];
      ReplaceNoComma(s[1..]);
    }
  }

  /** A parsed dialog value that is usable: `parseFloat` gave a number
      (not NaN) and it is positive. */
  predicate Positive(x: Option<real>) {
    x.Some? && x.value > 0.0
  }

  // --------------------------------------------------------------- requests

  /** The requests the page sends, in the order it sends them. */
  datatype Request = PatchHeight(heightCm: real) | PostWeight(weight: real) | GetMetrics(url: string)

  const MetricsPath: string := "/api/dashboard/metrics"

  /** The metrics URL: the period goes in a query only when it is not empty. */
  function MetricsUrl(p: string): (url: string)
    ensures |MetricsPath| <= |url| && url[..|MetricsPath|] == MetricsPath
    ensures url == MetricsPath <==> p == ""
    ensures p != "" ==> url[|MetricsPath|..] == "?period=" + p
  {
    MetricsPath + (if p != "" then "?period=" + p else "")
  }

  /** What a confirm sends, given the parsed weight and height and whether the
      PATCH and the POST succeed: nothing for an unusable value; otherwise the
      height first, the weight only once the height was accepted, and the
      metrics again only once both were. */
  function ConfirmRequests(weight: Option<real>, height: Option<real>,
                           patchOk: bool, postOk: bool, period: string): (r: seq<Request>)
    ensures r == [] <==> !(Positive(weight) && Positive(height))
    ensures r != [] ==> |r| <= 3 && r[0] == PatchHeight(height.value)
    ensures |r| >= 2 <==> Positive(weight) && Positive(height) && patchOk
    ensures |r| >= 2 ==> r[1] == PostWeight(weight.value)
    ensures |r| == 3 <==> Positive(weight) && Positive(height) && patchOk && postOk
    ensures |r| == 3 ==> r[2] == GetMetrics(MetricsUrl(period))
  {
    if !(Positive(weight) && Positive(height)) then []
    else [PatchHeight(height.value)]
         + (if patchOk then [PostWeight(weight.value)] else [])
         + (if patchOk && postOk then [GetMetrics(MetricsUrl(period))] else [])
  }

  // ------------------------------------------------------------ user name

  /** The fields of the decoded token payload that the page reads. */
  datatype TokenPayload = TokenPayload(nome: Option<string>, username: Option<string>)

  /** A JavaScript string value that is truthy: present and not empty. */
  predicate Truthy(s: Option<string>) {
    s.Some? && s.value != ""
  }

  const DefaultName: string := "Usuário"

  /** `payload.nome || payload.username || 'Usuário'`. */
  function NameOf(payload: TokenPayload): (name: string)
    ensures name != ""
    ensures Truthy(payload.nome) ==> name == payload.nome.value
    ensures !Truthy(payload.nome) && Truthy(payload.username) ==> name == payload.username.value
    ensures !Truthy(payload.nome) && !Truthy(payload.username) ==> name == DefaultName
  {
    if Truthy(payload.nome) then payload.nome.value
    else if Truthy(payload.username) then payload.username.value
    else DefaultName
  }

  // ----------------------------------------------------------------- screens

  datatype Screen = Spinner | EmptyState | Overview

  /** The spinner until metrics arrive; the empty state when they have no
      history and no action is running; the overview otherwise. */
  function ScreenOf(metrics: Option<Dashboard.DashboardMetrics>, loadingAction: bool): (s: Screen)
    ensures s == Spinner <==> metrics.None?
    ensures s == EmptyState <==> metrics.Some? && |metrics.value.history| == 0 && !loadingAction
  {
    if metrics.None? then Spinner
    else if |metrics.value.history| == 0 && !loadingAction then EmptyState
    else Overview
  }

  /** The requests one click on a period button sends: none when the
      period is already the active one, otherwise one metrics request for
      the new period. */
  function PeriodChangeRequests(current: string, p: string): (r: seq<Request>)
    ensures r == [] <==> p == current
    ensures r != [] ==> r == [GetMetrics(MetricsUrl(p))]
  {
    if p == current then [] else [GetMetrics(MetricsUrl(p))]
  }

  // -------------------------------------------------------------------- page

  /** The page's state. `requests` is the list of requests it has sent. */
  class DashboardPage {
    var metrics: Option<Dashboard.DashboardMetrics>
    var period: string
    var userName: string
    var dialogOpen: bool
    var newWeight: string
    var newHeight: string
    var loadingAction: bool
    var requests: seq<Request>

    /** The greeting always has a name to show. */
    predicate Valid()
      reads this
    {
      userName != ""
    }

    function CurrentScreen(): Screen
      reads this
    {
      ScreenOf(metrics, loadingAction)
    }

    constructor()
      ensures Valid()
      ensures metrics == None && period == "30d" && userName == DefaultName
      ensures !dialogOpen && newWeight == "" && newHeight == "" && !loadingAction
      ensures requests == []
      ensures CurrentScreen() == Spinner
    {
      metrics := None;
      period := "30d";
      userName := DefaultName;
      dialogOpen := false;
      newWeight := "";
      newHeight := "";
      loadingAction := false;
      requests := [];
    }

    /** The mount effect: a token whose payload decodes (`payload` is
        `None` when there is no token or it does not decode) names the user. */
    method LoadUserName(payload: Option<TokenPayload>)
      requires Valid()
      modifies this
      ensures Valid()
      ensures userName == (if payload.Some? then NameOf(payload.value) else old(userName))
      ensures metrics == old(metrics) && period == old(period) && dialogOpen == old(dialogOpen)
      ensures newWeight == old(newWeight) && newHeight == old(newHeight)
      ensures loadingAction == old(loadingAction) && requests == old(requests)
    {
      if payload.Some? {
        userName := NameOf(payload.value);
      }
    }

    /** `fetchMetrics(period)`; `outcome` is the response body, `None` when
        the request fails, which keeps the metrics shown. */
    method FetchMetrics(outcome: Option<Dashboard.DashboardMetrics>)
      requires Valid()
      modifies this
      ensures Valid()
      ensures requests == old(requests) + [GetMetrics(MetricsUrl(period))]
      ensures metrics == (if outcome.Some? then outcome else old(metrics))
      ensures !loadingAction
      ensures period == old(period) && userName == old(userName) && dialogOpen == old(dialogOpen)
      ensures newWeight == old(newWeight) && newHeight == old(newHeight)
    {
      loadingAction := true;
      requests := requests + [GetMetrics(MetricsUrl(period))];
      if outcome.Some? {
        metrics := outcome;
      }
      loadingAction := false;
    }

    /** The chart's period buttons call `setPeriod`. Re-selecting the
        active period leaves the state as it is, so the effect keyed on
        `period` does not run again: nothing is fetched and nothing else
        changes. A new period is selected and the metrics are fetched for it. */
    method ChangePeriod(p: string, outcome: Option<Dashboard.DashboardMetrics>)
      requires Valid()
      modifies this
      ensures Valid()
      ensures period == p
      ensures requests == old(requests) + PeriodChangeRequests(old(period), p)
      ensures p == old(period) ==>
                metrics == old(metrics) && loadingAction == old(loadingAction)
      ensures p != old(period) ==>
                metrics == (if outcome.Some? then outcome else old(metrics)) && !loadingAction
      ensures userName == old(userName) && dialogOpen == old(dialogOpen)
      ensures newWeight == old(newWeight) && newHeight == old(newHeight)
    {
      if p != period {
        period := p;
        FetchMetrics(outcome);
      }
    }

    method OpenDialog()
      requires Valid()
      modifies this
      ensures Valid()
      ensures dialogOpen && newWeight == "" && newHeight == ""
      ensures metrics == old(metrics) && period == old(period) && userName == old(userName)
      ensures loadingAction == old(loadingAction) && requests == old(requests)
    {
      newWeight := "";
      newHeight := "";
      dialogOpen := true;
    }

    method CloseDialog()
      requires Valid()
      modifies this
      ensures Valid()
      ensures !dialogOpen
      ensures newWeight == old(newWeight) && newHeight == old(newHeight)
      ensures metrics == old(metrics) && period == old(period) && userName == old(userName)
      ensures loadingAction == old(loadingAction) && requests == old(requests)
    {
      dialogOpen := false;
    }

    /** Typing in the weight or the height field. */
    method EditInputs(weightText: string, heightText: string)
      requires Valid()
      modifies this
      ensures Valid()
      ensures newWeight == weightText && newHeight == heightText
      ensures dialogOpen == old(dialogOpen)
      ensures metrics == old(metrics) && period == old(period) && userName == old(userName)
      ensures loadingAction == old(loadingAction) && requests == old(requests)
    {
      newWeight := weightText;
      newHeight := heightText;
    }

    /** `handleConfirm`. `parse` is `parseFloat` (`None` for NaN);
        `patchOk` and `postOk` say whether the height PATCH and the weight
        POST succeed; `refetched` is the outcome of the metrics request made
        after both. */
    method Confirm(parse: string -> Option<real>, patchOk: bool, postOk: bool,
                   refetched: Option<Dashboard.DashboardMetrics>)
      requires Valid()
      modifies this
      ensures Valid()
      ensures var w := parse(ReplaceFirstComma(old(newWeight)));
              var h := parse(ReplaceFirstComma(old(newHeight)));
              var usable := Positive(w) && Positive(h);
              && requests == old(requests) + ConfirmRequests(w, h, patchOk, postOk, old(period))
              && dialogOpen == (if usable && patchOk && postOk then false else old(dialogOpen))
              && metrics == (if usable && patchOk && postOk && refetched.Some? then refetched else old(metrics))
              && loadingAction == (if usable then false else old(loadingAction))
      ensures period == old(period) && userName == old(userName)
      ensures newWeight == old(newWeight) && newHeight == old(newHeight)
    {
      var weight := parse(ReplaceFirstComma(newWeight));
      var height := parse(ReplaceFirstComma(newHeight));
      if !(Positive(weight) && Positive(height)) {
        return;
      }
      loadingAction := true;
      requests := requests + [PatchHeight(height.value)];
      if patchOk {
        requests := requests + [PostWeight(weight.value)];
        if postOk {
          dialogOpen := false;
          FetchMetrics(refetched);
        }
      }
      loadingAction := false;
    }
  }
}
