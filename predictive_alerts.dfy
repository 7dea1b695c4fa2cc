/**
 * Predictive alerts over the 7-day forecast: first crossings of the WARNING
 * (50) and CRITICAL (75) thresholds, day-over-day jumps of more than 15
 * points, one heat-spell alert, one calm-wind alert, one heavy-rain alert,
 * the running maximum and the first-to-last trajectory.
 */
module PredictiveAlerts {
  import opened Numerics

  const WarningThreshold: real := 50.0
  const CriticalThreshold: real := 75.0

  datatype AlertKind =
    | WarningCrossing
    | CriticalCrossing
    | RapidIncrease(jump: real)
    | HeatSpell
    | CalmWind(calmDays: nat)
    | NutrientFlush(rainDays: seq<nat>)

  /** The date shown with an alert: the forecast date, the label "Day n" when dates run short, or none. */
  datatype AlertDate = ForecastDate(date: string) | DayLabel(day: nat) | NoDate

  datatype Alert = Alert(kind: AlertKind, day: nat, date: AlertDate, score: real)

  datatype Trajectory = Worsening | Improving | Steady

  /** The summary line: none, or the number of alerts and of threshold crossings among them. */
  datatype Summary = NoCrossings | AlertCount(alerts: nat, crossings: nat)

  datatype PredictiveReport = PredictiveReport(
    alerts: seq<Alert>,
    daysToWarning: Option<nat>,
    daysToCritical: Option<nat>,
    maxForecastRisk: real,
    riskTrajectory: Trajectory,
    summary: Summary,
    nAlerts: nat)

  // ---------------------------------------------------------------- specification

  /** The first index whose score reaches t. */
  function FirstAtLeast(s: seq<real>, t: real): (r: Option<nat>)
    ensures r.Some? ==> r.value < |s|
  {
    if |s| == 0 then None
    else
      match FirstAtLeast(s[..|s| - 1], t)
      case Some(k) => Some(k)
      case None => if s[|s| - 1] >= t then Some(|s| - 1) else None
  }

  /** The index found reaches t and every earlier one is below t; none is found only when all are below t. */
  lemma {:induction false} FirstAtLeastSpec(s: seq<real>, t: real)
    ensures var r := FirstAtLeast(s, t);
            && (r.Some? ==> s[r.value] >= t && forall j :: 0 <= j < r.value ==> s[j] < t)
            && (r.None? ==> forall j :: 0 <= j < |s| ==> s[j] < t)
  {
    if |s| > 0 {
      var p := s[..|s| - 1];
      FirstAtLeastSpec(p, t);
      assert forall j :: 0 <= j < |p| ==> p[j] == s[j];
    }
  }

  /** The 1-based day of the first crossing of t, reported only when the current score is below t. */
  function CrossingDay(s: seq<real>, current: real, t: real): (r: Option<nat>)
    ensures current >= t ==> r.None?
    ensures r.Some? ==> 1 <= r.value <= |s|
  {
    if current >= t then None
    else
      match FirstAtLeast(s, t)
      case Some(k) => Some(k + 1)
      case None => None
  }

  /**
   * The reported day is the first day whose score reaches t; no day is
   * reported, with the current score below t, only when every day stays below t.
   */
  lemma CrossingDaySpec(s: seq<real>, current: real, t: real)
    ensures var r := CrossingDay(s, current, t);
            && (r.Some? ==> s[r.value - 1] >= t && forall j :: 0 <= j < r.value - 1 ==> s[j] < t)
            && (current < t && r.None? ==> forall j :: 0 <= j < |s| ==> s[j] < t)
  {
    FirstAtLeastSpec(s, t);
  }

  /** The 1-based days i + 1 (0 < i < k) whose score exceeds the previous day's by more than 15. */
  function RapidDays(s: seq<real>, k: nat): seq<nat>
    requires k <= |s|
  {
    if k <= 1 then []
    else RapidDays(s, k - 1) + (if s[k - 1] - s[k - 2] > 15.0 then [k] else [])
  }

  /** The jump days are exactly the days 2..k that rise more than 15 over the day before, in increasing order. */
  lemma {:induction false} RapidDaysSpec(s: seq<real>, k: nat)
    requires k <= |s|
    ensures forall d :: d in RapidDays(s, k) ==> 2 <= d <= k && s[d - 1] - s[d - 2] > 15.0
    ensures forall d :: 2 <= d <= k && s[d - 1] - s[d - 2] > 15.0 ==> d in RapidDays(s, k)
    ensures forall i, j :: 0 <= i < j < |RapidDays(s, k)| ==> RapidDays(s, k)[i] < RapidDays(s, k)[j]
  {
    if k > 1 {
      RapidDaysSpec(s, k - 1);
      var r0 := RapidDays(s, k - 1);
      var r := RapidDays(s, k);
      var t: seq<nat> := if s[k - 1] - s[k - 2] > 15.0 then [k] else [];
      assert r == r0 + t;
      forall i | 0 <= i < |r0| ensures r[i] == r0[i] && r0[i] < k {
        assert r0[i] in r0;
      }
      forall d | d in r ensures 2 <= d <= k && s[d - 1] - s[d - 2] > 15.0 {
        if d !in r0 { assert d in t; }
      }
      forall d | 2 <= d <= k && s[d - 1] - s[d - 2] > 15.0 ensures d in r {
        if d < k { assert d in r0; } else { assert r[|r0|] == k; }
      }
      forall i, j | 0 <= i < j < |r| ensures r[i] < r[j] {
        if j < |r0| { assert r[j] == r0[j]; }
      }
    }
  }

  /** The largest of the current score and the forecast scores. */
  function MaxOf(current: real, s: seq<real>): real
  {
    if |s| == 0 then current else Max(MaxOf(current, s[..|s| - 1]), s[|s| - 1])
  }

  /** The running maximum bounds every score from above and is one of them. */
  lemma {:induction false} MaxOfSpec(current: real, s: seq<real>)
    ensures var r := MaxOf(current, s);
            && r >= current && (forall i :: 0 <= i < |s| ==> r >= s[i])
            && (r == current || r in s)
  {
    if |s| > 0 {
      var p := s[..|s| - 1];
      MaxOfSpec(current, p);
      assert forall i :: 0 <= i < |p| ==> p[i] == s[i];
      assert forall x :: x in p ==> x in s;
    }
  }

  /** Three consecutive days above 30 degrees ending at day index i. */
  predicate HotWindow(t: seq<real>, i: nat)
    requires 2 <= i < |t|
  {
    t[i - 2] > 30.0 && t[i - 1] > 30.0 && t[i] > 30.0
  }

  /** The first index i >= 2 that ends a hot window. */
  function FirstHeat(t: seq<real>): (r: Option<nat>)
    ensures r.Some? ==> 2 <= r.value < |t|
  {
    if |t| < 3 then None
    else
      match FirstHeat(t[..|t| - 1])
      case Some(k) => Some(k)
      case None => if HotWindow(t, |t| - 1) then Some(|t| - 1) else None
  }

  /** The index found ends a hot window and no earlier one does; none is found only when no window is hot. */
  lemma {:induction false} FirstHeatSpec(t: seq<real>)
    ensures var r := FirstHeat(t);
            && (r.Some? ==> HotWindow(t, r.value) && forall j :: 2 <= j < r.value ==> !HotWindow(t, j))
            && (r.None? ==> forall j :: 2 <= j < |t| ==> !HotWindow(t, j))
  {
    if |t| >= 3 {
      FirstHeatSpec(t[..|t| - 1]);
      assert forall j :: 2 <= j < |t| - 1 ==> (HotWindow(t[..|t| - 1], j) <==> HotWindow(t, j));
    }
  }

  /** The number of days whose maximum wind is below 8 (a missing value counts as calm). */
  function CalmDays(w: seq<Option<real>>): (r: nat)
    ensures r <= |w|
  {
    if |w| == 0 then 0 else CalmDays(w[..|w| - 1]) + (if w[|w| - 1].GetOr(0.0) < 8.0 then 1 else 0)
  }

  /** The 1-based days with more than 15 mm of rain; a missing value counts as 0. */
  function HeavyRainDays(p: seq<Option<real>>): seq<nat>
  {
    if |p| == 0 then []
    else HeavyRainDays(p[..|p| - 1]) + (if p[|p| - 1].GetOr(0.0) > 15.0 then [|p|] else [])
  }

  /** Exactly the days with more than 15 mm, each a valid 1-based day, in increasing order. */
  lemma {:induction false} HeavyRainDaysSpec(p: seq<Option<real>>)
    ensures forall d :: d in HeavyRainDays(p) <==> 1 <= d <= |p| && p[d - 1].GetOr(0.0) > 15.0
    ensures forall i :: 0 <= i < |HeavyRainDays(p)| ==> 1 <= HeavyRainDays(p)[i] <= |p|
    ensures forall i, j :: 0 <= i < j < |HeavyRainDays(p)| ==> HeavyRainDays(p)[i] < HeavyRainDays(p)[j]
  {
    if |p| > 0 {
      var q := p[..|p| - 1];
      HeavyRainDaysSpec(q);
      var r0 := HeavyRainDays(q);
      var r := HeavyRainDays(p);
      var n := |p|;
      var t: seq<nat> := if p[n - 1].GetOr(0.0) > 15.0 then [n] else [];
      assert r == r0 + t;
      assert forall i :: 0 <= i < |q| ==> p[i] == q[i];
      forall i | 0 <= i < |r0| ensures r[i] == r0[i] && 1 <= r0[i] < n {
        assert r0[i] in r0;
      }
      forall d ensures d in r <==> 1 <= d <= n && p[d - 1].GetOr(0.0) > 15.0 {
        if d in r && d !in r0 { assert d in t; }
        if 1 <= d <= n && p[d - 1].GetOr(0.0) > 15.0 {
          if d < n { assert d in r0; } else { assert r[|r0|] == n; }
        }
      }
      forall i, j | 0 <= i < j < |r| ensures r[i] < r[j] {
        if j < |r0| { assert r[j] == r0[j]; }
      }
    }
  }

  function TrajectoryOf(s: seq<real>): (r: Trajectory)
    ensures |s| < 2 ==> r == Steady
    ensures |s| >= 2 ==> (r == Worsening <==> s[|s| - 1] - s[0] > 10.0)
    ensures |s| >= 2 ==> (r == Improving <==> s[|s| - 1] - s[0] < -10.0)
  {
    if |s| < 2 then Steady
    else if s[|s| - 1] - s[0] > 10.0 then Worsening
    else if s[|s| - 1] - s[0] < -10.0 then Improving
    else Steady
  }

  /** A small tag per alert kind, to select the alerts of one kind. */
  function Tag(k: AlertKind): nat {
    match k
    case WarningCrossing => 0
    case CriticalCrossing => 1
    case RapidIncrease(_) => 2
    case HeatSpell => 3
    case CalmWind(_) => 4
    case NutrientFlush(_) => 5
  }

  /** The days of the alerts with the given tag, in order. */
  function DaysOf(alerts: seq<Alert>, tag: nat): seq<nat> {
    if |alerts| == 0 then []
    else DaysOf(alerts[..|alerts| - 1], tag) + (if Tag(alerts[|alerts| - 1].kind) == tag then [alerts[|alerts| - 1].day] else [])
  }

  lemma {:induction false} DaysOfConcat(a: seq<Alert>, b: seq<Alert>, tag: nat)
    ensures DaysOf(a + b, tag) == DaysOf(a, tag) + DaysOf(b, tag)
  {
    if |b| > 0 {
      var b' := b[..|b| - 1];
      var x := b[|b| - 1];
      var tail: seq<nat> := if Tag(x.kind) == tag then [x.day] else [];
      assert (a + b)[..|a + b| - 1] == a + b';
      assert (a + b)[|a + b| - 1] == x;
      DaysOfConcat(a, b', tag);
      assert DaysOf(a + b, tag) == DaysOf(a, tag) + DaysOf(b', tag) + tail;
      assert DaysOf(b, tag) == DaysOf(b', tag) + tail;
    } else {
      assert a + b == a;
    }
  }

  function OptionSeq(o: Option<nat>): seq<nat> {
    match o
    case Some(d) => [d]
    case None => []
  }

  function DateOf(dates: seq<string>, i: nat): AlertDate {
    if i < |dates| then ForecastDate(dates[i]) else DayLabel(i + 1)
  }

  /** Whether day index i is the first to reach t, with the current score below t. */
  predicate FirstCrossingAt(scores: seq<real>, current: real, i: nat, t: real)
    requires i < |scores|
  {
    current < t && scores[i] >= t && CrossingDay(scores[..i], current, t).None?
  }

  /** Whether day index i rose by more than 15 over the day before. */
  predicate JumpAt(scores: seq<real>, i: nat)
    requires i < |scores|
  {
    i > 0 && scores[i] - scores[i - 1] > 15.0
  }

  /** The crossing alert of day index i for threshold t: the first day reaching t, when the current score is below t. */
  function CrossingAlert(dates: seq<string>, scores: seq<real>, current: real, i: nat, t: real, kind: AlertKind): seq<Alert>
    requires i < |scores|
  {
    if FirstCrossingAt(scores, current, i, t)
    then [Alert(kind, i + 1, DateOf(dates, i), scores[i])]
    else []
  }

  /** The jump alert of day index i. */
  function RapidAlert(dates: seq<string>, scores: seq<real>, i: nat): seq<Alert>
    requires i < |scores|
  {
    if JumpAt(scores, i)
    then [Alert(RapidIncrease(scores[i] - scores[i - 1]), i + 1, DateOf(dates, i), scores[i])]
    else []
  }

  /** The alerts raised on day index i, in the order they are appended. */
  function DayAlerts(dates: seq<string>, scores: seq<real>, current: real, i: nat): seq<Alert>
    requires i < |scores|
  {
    CrossingAlert(dates, scores, current, i, WarningThreshold, WarningCrossing)
    + CrossingAlert(dates, scores, current, i, CriticalThreshold, CriticalCrossing)
    + RapidAlert(dates, scores, i)
  }

  /** The alerts of the score pass over the first k days. */
  function ScanAlerts(dates: seq<string>, scores: seq<real>, current: real, k: nat): seq<Alert>
    requires k <= |scores|
  {
    if k == 0 then [] else ScanAlerts(dates, scores, current, k - 1) + DayAlerts(dates, scores, current, k - 1)
  }

  /** The score pass over one more day, with the day's alerts appended one at a time. */
  lemma ScanAlertsAppend(dates: seq<string>, scores: seq<real>, current: real, i: nat)
    requires i < |scores|
    ensures ScanAlerts(dates, scores, current, i + 1)
         == ScanAlerts(dates, scores, current, i)
            + CrossingAlert(dates, scores, current, i, WarningThreshold, WarningCrossing)
            + CrossingAlert(dates, scores, current, i, CriticalThreshold, CriticalCrossing)
            + RapidAlert(dates, scores, i)
  {
    var before := ScanAlerts(dates, scores, current, i);
    var w := CrossingAlert(dates, scores, current, i, WarningThreshold, WarningCrossing);
    var c := CrossingAlert(dates, scores, current, i, CriticalThreshold, CriticalCrossing);
    var j := RapidAlert(dates, scores, i);
    assert before + (w + c + j) == before + w + c + j;
  }

  /** The heat alert: the first three-day spell above 30 degrees, if any. */
  function HeatAlerts(dates: seq<string>, scores: seq<real>, tempMax: seq<real>): seq<Alert> {
    match FirstHeat(tempMax)
    case Some(i) => [Alert(HeatSpell, i + 1, DateOf(dates, i), if i < |scores| then scores[i] else 0.0)]
    case None => []
  }

  /** The calm-wind alert: at least three calm days in a non-empty wind forecast. */
  function CalmAlerts(windMax: seq<Option<real>>): seq<Alert> {
    if |windMax| > 0 && CalmDays(windMax) >= 3 then [Alert(CalmWind(CalmDays(windMax)), 0, NoDate, 0.0)] else []
  }

  /** The nutrient-flush alert, dated by the first heavy-rain day. */
  function RainAlerts(precip: seq<Option<real>>): seq<Alert> {
    var heavy := HeavyRainDays(precip);
    if |heavy| > 0 then [Alert(NutrientFlush(heavy), heavy[0], NoDate, 0.0)] else []
  }

  /** All alerts of a forecast, in the order they are raised. */
  function AllAlerts(dates: seq<string>, scores: seq<real>, tempMax: seq<real>,
                     precip: seq<Option<real>>, windMax: seq<Option<real>>, current: real): seq<Alert> {
    ScanAlerts(dates, scores, current, |scores|) + HeatAlerts(dates, scores, tempMax)
    + CalmAlerts(windMax) + RainAlerts(precip)
  }

  /** The number of threshold-crossing alerts (WARNING or CRITICAL) in a list. */
  function Crossings(alerts: seq<Alert>): nat {
    |DaysOf(alerts, 0)| + |DaysOf(alerts, 1)|
  }

  function SummaryOf(alerts: seq<Alert>): Summary {
    if |alerts| == 0 then NoCrossings else AlertCount(|alerts|, Crossings(alerts))
  }

  // ---------------------------------------------------------------- properties of the scan

  /** One day of the score pass adds that day's alerts, kind by kind. */
  lemma ScanStep(dates: seq<string>, scores: seq<real>, current: real, k: nat, tag: nat)
    requires 0 < k <= |scores|
    ensures DaysOf(ScanAlerts(dates, scores, current, k), tag)
         == DaysOf(ScanAlerts(dates, scores, current, k - 1), tag) + DaysOf(DayAlerts(dates, scores, current, k - 1), tag)
  {
    DaysOfConcat(ScanAlerts(dates, scores, current, k - 1), DayAlerts(dates, scores, current, k - 1), tag);
  }

  lemma DaysOfSingle(a: Alert, tag: nat)
    ensures DaysOf([a], tag) == if Tag(a.kind) == tag then [a.day] else []
  {
    assert [a][..0] == [];
  }

  /** The alerts of one day, kind by kind, as the three pieces appended that day. */
  lemma DayAlertsSplit(dates: seq<string>, scores: seq<real>, current: real, i: nat, tag: nat)
    requires i < |scores|
    ensures DaysOf(DayAlerts(dates, scores, current, i), tag)
         == DaysOf(CrossingAlert(dates, scores, current, i, WarningThreshold, WarningCrossing), tag)
            + DaysOf(CrossingAlert(dates, scores, current, i, CriticalThreshold, CriticalCrossing), tag)
            + DaysOf(RapidAlert(dates, scores, i), tag)
  {
    var w := CrossingAlert(dates, scores, current, i, WarningThreshold, WarningCrossing);
    var c := CrossingAlert(dates, scores, current, i, CriticalThreshold, CriticalCrossing);
    var j := RapidAlert(dates, scores, i);
    DaysOfConcat(w + c, j, tag);
    DaysOfConcat(w, c, tag);
  }

  /** A crossing alert carries its own tag and the 1-based day. */
  lemma CrossingAlertDays(dates: seq<string>, scores: seq<real>, current: real, i: nat, t: real, kind: AlertKind, tag: nat)
    requires i < |scores|
    ensures DaysOf(CrossingAlert(dates, scores, current, i, t, kind), tag)
         == if Tag(kind) == tag && FirstCrossingAt(scores, current, i, t) then [i + 1] else []
  {
    var w := CrossingAlert(dates, scores, current, i, t, kind);
    if |w| > 0 { DaysOfSingle(w[0], tag); }
  }

  /** A jump alert has tag 2 and the 1-based day. */
  lemma RapidAlertDays(dates: seq<string>, scores: seq<real>, i: nat, tag: nat)
    requires i < |scores|
    ensures DaysOf(RapidAlert(dates, scores, i), tag) == if tag == 2 && JumpAt(scores, i) then [i + 1] else []
  {
    var j := RapidAlert(dates, scores, i);
    if |j| > 0 { DaysOfSingle(j[0], tag); }
  }

  /** The crossing alerts of the score pass are exactly the reported days to the threshold. */
  lemma {:induction false} ScanCrossingDays(dates: seq<string>, scores: seq<real>, current: real, k: nat, t: real, kind: AlertKind, tag: nat)
    requires k <= |scores|
    requires (t == WarningThreshold && kind == WarningCrossing && tag == 0)
          || (t == CriticalThreshold && kind == CriticalCrossing && tag == 1)
    ensures DaysOf(ScanAlerts(dates, scores, current, k), tag) == OptionSeq(CrossingDay(scores[..k], current, t))
  {
    if k > 0 {
      var i := k - 1;
      ScanCrossingDays(dates, scores, current, i, t, kind, tag);
      ScanCrossingStep(dates, scores, current, i, t, kind, tag);
      CrossingDayStep(scores, i, current, t);
    }
  }

  /** One day of the score pass adds that day's crossing of t, if it is the first. */
  lemma ScanCrossingStep(dates: seq<string>, scores: seq<real>, current: real, i: nat, t: real, kind: AlertKind, tag: nat)
    requires i < |scores|
    requires (t == WarningThreshold && kind == WarningCrossing && tag == 0)
          || (t == CriticalThreshold && kind == CriticalCrossing && tag == 1)
    ensures DaysOf(ScanAlerts(dates, scores, current, i + 1), tag)
         == DaysOf(ScanAlerts(dates, scores, current, i), tag)
            + (if current < t && scores[i] >= t && CrossingDay(scores[..i], current, t).None? then [i + 1] else [])
  {
    ScanStep(dates, scores, current, i + 1, tag);
    DayAlertsSplit(dates, scores, current, i, tag);
    CrossingAlertDays(dates, scores, current, i, WarningThreshold, WarningCrossing, tag);
    CrossingAlertDays(dates, scores, current, i, CriticalThreshold, CriticalCrossing, tag);
    RapidAlertDays(dates, scores, i, tag);
  }

  /** The jump alerts of the score pass are exactly the days that rose by more than 15. */
  lemma {:induction false} ScanRapidDays(dates: seq<string>, scores: seq<real>, current: real, k: nat)
    requires k <= |scores|
    ensures DaysOf(ScanAlerts(dates, scores, current, k), 2) == RapidDays(scores, k)
  {
    if k > 0 {
      var i := k - 1;
      ScanRapidDays(dates, scores, current, i);
      ScanStep(dates, scores, current, k, 2);
      DayAlertsSplit(dates, scores, current, i, 2);
      CrossingAlertDays(dates, scores, current, i, WarningThreshold, WarningCrossing, 2);
      CrossingAlertDays(dates, scores, current, i, CriticalThreshold, CriticalCrossing, 2);
      RapidAlertDays(dates, scores, i, 2);
    }
  }

  /** The score pass raises only crossing and jump alerts. */
  lemma {:induction false} ScanOnlyScoreAlerts(dates: seq<string>, scores: seq<real>, current: real, k: nat, tag: nat)
    requires k <= |scores| && tag >= 3
    ensures DaysOf(ScanAlerts(dates, scores, current, k), tag) == []
  {
    if k > 0 {
      var i := k - 1;
      ScanOnlyScoreAlerts(dates, scores, current, i, tag);
      ScanStep(dates, scores, current, k, tag);
      DayAlertsSplit(dates, scores, current, i, tag);
      CrossingAlertDays(dates, scores, current, i, WarningThreshold, WarningCrossing, tag);
      CrossingAlertDays(dates, scores, current, i, CriticalThreshold, CriticalCrossing, tag);
      RapidAlertDays(dates, scores, i, tag);
    }
  }

  /** The alert list, kind by kind, is the score pass followed by the three weather alerts. */
  lemma AllAlertsSplit(dates: seq<string>, scores: seq<real>, tempMax: seq<real>,
                       precip: seq<Option<real>>, windMax: seq<Option<real>>, current: real, tag: nat)
    ensures DaysOf(AllAlerts(dates, scores, tempMax, precip, windMax, current), tag)
         == DaysOf(ScanAlerts(dates, scores, current, |scores|), tag) + DaysOf(HeatAlerts(dates, scores, tempMax), tag)
            + DaysOf(CalmAlerts(windMax), tag) + DaysOf(RainAlerts(precip), tag)
  {
    var sa := ScanAlerts(dates, scores, current, |scores|);
    var h := HeatAlerts(dates, scores, tempMax);
    var cw := CalmAlerts(windMax);
    DaysOfConcat(sa + h + cw, RainAlerts(precip), tag);
    DaysOfConcat(sa + h, cw, tag);
    DaysOfConcat(sa, h, tag);
  }

  /** The heat alert is the only alert with tag 3, dated by the first hot window. */
  lemma HeatAlertDays(dates: seq<string>, scores: seq<real>, tempMax: seq<real>, tag: nat)
    ensures DaysOf(HeatAlerts(dates, scores, tempMax), tag)
         == if tag == 3 then (match FirstHeat(tempMax) case Some(i) => [i + 1] case None => []) else []
  {
    var h := HeatAlerts(dates, scores, tempMax);
    if |h| > 0 { DaysOfSingle(h[0], tag); }
  }

  lemma CalmAlertDays(windMax: seq<Option<real>>, tag: nat)
    ensures DaysOf(CalmAlerts(windMax), tag)
         == if tag == 4 && |windMax| > 0 && CalmDays(windMax) >= 3 then [0] else []
  {
    var cw := CalmAlerts(windMax);
    if |cw| > 0 { DaysOfSingle(cw[0], tag); }
  }

  lemma RainAlertDays(precip: seq<Option<real>>, tag: nat)
    ensures DaysOf(RainAlerts(precip), tag)
         == if tag == 5 && |HeavyRainDays(precip)| > 0 then [HeavyRainDays(precip)[0]] else []
  {
    var ra := RainAlerts(precip);
    if |ra| > 0 { DaysOfSingle(ra[0], tag); }
  }

  /** The score pass, kind by kind: its crossings, its jumps, and nothing else. */
  lemma ScanAlertsByKind(dates: seq<string>, scores: seq<real>, current: real, tag: nat)
    ensures DaysOf(ScanAlerts(dates, scores, current, |scores|), tag)
         == if tag == 0 then OptionSeq(CrossingDay(scores, current, WarningThreshold))
            else if tag == 1 then OptionSeq(CrossingDay(scores, current, CriticalThreshold))
            else if tag == 2 then RapidDays(scores, |scores|)
            else []
  {
    var n := |scores|;
    assert scores[..n] == scores;
    if tag == 0 {
      ScanCrossingDays(dates, scores, current, n, WarningThreshold, WarningCrossing, 0);
    } else if tag == 1 {
      ScanCrossingDays(dates, scores, current, n, CriticalThreshold, CriticalCrossing, 1);
    } else if tag == 2 {
      ScanRapidDays(dates, scores, current, n);
    } else {
      ScanOnlyScoreAlerts(dates, scores, current, n, tag);
    }
  }

  /**
   * What the alert list holds, kind by kind: at most one WARNING and one
   * CRITICAL crossing, at the reported days; one jump alert per day that
   * rose by more than 15; the first heat spell; the calm-wind alert when
   * three or more days are calm; the nutrient flush at the first heavy-rain day.
   */
  lemma AllAlertsByKind(dates: seq<string>, scores: seq<real>, tempMax: seq<real>,
                        precip: seq<Option<real>>, windMax: seq<Option<real>>, current: real, tag: nat)
    ensures DaysOf(AllAlerts(dates, scores, tempMax, precip, windMax, current), tag)
         == if tag == 0 then OptionSeq(CrossingDay(scores, current, WarningThreshold))
            else if tag == 1 then OptionSeq(CrossingDay(scores, current, CriticalThreshold))
            else if tag == 2 then RapidDays(scores, |scores|)
            else if tag == 3 then (match FirstHeat(tempMax) case Some(i) => [i + 1] case None => [])
            else if tag == 4 then (if |windMax| > 0 && CalmDays(windMax) >= 3 then [0] else [])
            else if tag == 5 then (var rain := HeavyRainDays(precip); if |rain| > 0 then [rain[0]] else [])
            else []
  {
    var a := DaysOf(ScanAlerts(dates, scores, current, |scores|), tag);
    var h := DaysOf(HeatAlerts(dates, scores, tempMax), tag);
    var c := DaysOf(CalmAlerts(windMax), tag);
    var r := DaysOf(RainAlerts(precip), tag);
    assert DaysOf(AllAlerts(dates, scores, tempMax, precip, windMax, current), tag) == a + h + c + r by {
      AllAlertsSplit(dates, scores, tempMax, precip, windMax, current, tag);
    }
    assert a == if tag == 0 then OptionSeq(CrossingDay(scores, current, WarningThreshold))
                else if tag == 1 then OptionSeq(CrossingDay(scores, current, CriticalThreshold))
                else if tag == 2 then RapidDays(scores, |scores|)
                else [] by {
      ScanAlertsByKind(dates, scores, current, tag);
    }
    assert h == if tag == 3 then (match FirstHeat(tempMax) case Some(i) => [i + 1] case None => []) else [] by {
      HeatAlertDays(dates, scores, tempMax, tag);
    }
    assert c == if tag == 4 && |windMax| > 0 && CalmDays(windMax) >= 3 then [0] else [] by {
      CalmAlertDays(windMax, tag);
    }
    assert r == if tag == 5 && |HeavyRainDays(precip)| > 0 then [HeavyRainDays(precip)[0]] else [] by {
      RainAlertDays(precip, tag);
    }
    ConcatKinds(a, h, c, r, tag);
  }

  /** Four lists of which only the one owning the tag may be non-empty: their concatenation is that one. */
  lemma ConcatKinds(a: seq<nat>, h: seq<nat>, c: seq<nat>, r: seq<nat>, tag: nat)
    requires tag > 2 ==> a == []
    requires tag != 3 ==> h == []
    requires tag != 4 ==> c == []
    requires tag != 5 ==> r == []
    ensures a + h + c + r == if tag <= 2 then a else if tag == 3 then h else if tag == 4 then c else if tag == 5 then r else []
  {
    if tag <= 2 {
      assert a + h + c + r == a;
    } else if tag == 3 {
      assert a + h + c + r == h;
    } else if tag == 4 {
      assert a + h + c + r == c;
    } else if tag == 5 {
      assert a + h + c + r == r;
    }
  }

  // ---------------------------------------------------------------- the scanner

  /** The pass over the scores: threshold crossings, jumps and the running maximum. */
  method ScanScores(dates: seq<string>, scores: seq<real>, currentRisk: real)
    returns (alerts: seq<Alert>, daysToWarning: Option<nat>, daysToCritical: Option<nat>, maxRisk: real)
    ensures alerts == ScanAlerts(dates, scores, currentRisk, |scores|)
    ensures maxRisk == MaxOf(currentRisk, scores)
    ensures daysToWarning == CrossingDay(scores, currentRisk, WarningThreshold)
    ensures daysToCritical == CrossingDay(scores, currentRisk, CriticalThreshold)
  {
    alerts := [];
    daysToWarning := None;
    daysToCritical := None;
    maxRisk := currentRisk;
    var currentlyWarning := currentRisk >= WarningThreshold;
    var currentlyCritical := currentRisk >= CriticalThreshold;
    for i := 0 to |scores|
      invariant alerts == ScanAlerts(dates, scores, currentRisk, i)
      invariant maxRisk == MaxOf(currentRisk, scores[..i])
      invariant daysToWarning == CrossingDay(scores[..i], currentRisk, WarningThreshold)
      invariant daysToCritical == CrossingDay(scores[..i], currentRisk, CriticalThreshold)
    {
      var score := scores[i];
      var dayNum := i + 1;
      CrossingDayStep(scores, i, currentRisk, WarningThreshold);
      CrossingDayStep(scores, i, currentRisk, CriticalThreshold);
      MaxOfStep(scores, i, currentRisk);
      ScanAlertsAppend(dates, scores, currentRisk, i);
      ghost var before := alerts;
      ghost var w := CrossingAlert(dates, scores, currentRisk, i, WarningThreshold, WarningCrossing);
      ghost var c := CrossingAlert(dates, scores, currentRisk, i, CriticalThreshold, CriticalCrossing);
      if score > maxRisk {
        maxRisk := score;
      }
      if !currentlyWarning && score >= WarningThreshold && daysToWarning.None? {
        daysToWarning := Some(dayNum);
        alerts := alerts + [Alert(WarningCrossing, dayNum, DateOf(dates, i), score)];
      }
      assert alerts == before + w;
      if !currentlyCritical && score >= CriticalThreshold && daysToCritical.None? {
        daysToCritical := Some(dayNum);
        alerts := alerts + [Alert(CriticalCrossing, dayNum, DateOf(dates, i), score)];
      }
      assert alerts == before + w + c;
      if i > 0 && score - scores[i - 1] > 15.0 {
        alerts := alerts + [Alert(RapidIncrease(score - scores[i - 1]), dayNum, DateOf(dates, i), score)];
      }
      assert alerts == before + w + c + RapidAlert(dates, scores, i);
    }
    assert scores[..|scores|] == scores;
  }

  /** The pass over the maximum temperatures, stopping at the first three-day spell above 30 degrees. */
  method HeatAlert(dates: seq<string>, scores: seq<real>, tempMax: seq<real>) returns (heat: seq<Alert>)
    ensures heat == HeatAlerts(dates, scores, tempMax)
  {
    heat := [];
    var i := 0;
    while i < |tempMax|
      invariant 0 <= i <= |tempMax|
      invariant forall j :: 2 <= j < i ==> !HotWindow(tempMax, j)
    {
      if i >= 2 && tempMax[i - 2] > 30.0 && tempMax[i - 1] > 30.0 && tempMax[i] > 30.0 {
        assert HotWindow(tempMax, i);
        FirstHeatSpec(tempMax);
        heat := [Alert(HeatSpell, i + 1, DateOf(dates, i), if i < |scores| then scores[i] else 0.0)];
        return;
      }
      i := i + 1;
    }
    FirstHeatSpec(tempMax);
  }

  /** Extending the scanned prefix by one score. */
  lemma CrossingDayStep(s: seq<real>, i: nat, current: real, t: real)
    requires i < |s|
    ensures CrossingDay(s[..i + 1], current, t)
         == if CrossingDay(s[..i], current, t).Some? then CrossingDay(s[..i], current, t)
            else if current < t && s[i] >= t then Some(i + 1) else None
  {
    assert s[..i + 1][..i] == s[..i];
  }

  lemma MaxOfStep(s: seq<real>, i: nat, current: real)
    requires i < |s|
    ensures MaxOf(current, s[..i + 1]) == if s[i] > MaxOf(current, s[..i]) then s[i] else MaxOf(current, s[..i])
  {
    assert s[..i + 1][..i] == s[..i];
  }

  /**
   * The whole scan: the score pass, the heat pass, then the calm-wind and
   * heavy-rain alerts, the trajectory and the summary.
   */
  method BuildPredictiveAlerts(m: Ops, dates: seq<string>, scores: seq<real>, tempMax: seq<real>,
                               precip: seq<Option<real>>, windMax: seq<Option<real>>, currentRisk: real)
    returns (r: PredictiveReport)
    ensures r.alerts == AllAlerts(dates, scores, tempMax, precip, windMax, currentRisk)
    ensures r.daysToWarning == CrossingDay(scores, currentRisk, WarningThreshold)
    ensures r.daysToCritical == CrossingDay(scores, currentRisk, CriticalThreshold)
    ensures r.maxForecastRisk == m.round(MaxOf(currentRisk, scores), 1)
    ensures r.riskTrajectory == TrajectoryOf(scores)
    ensures r.nAlerts == |r.alerts|
    ensures r.summary == SummaryOf(r.alerts)
  {
    var alerts, daysToWarning, daysToCritical, maxRisk := ScanScores(dates, scores, currentRisk);
    var heat := HeatAlert(dates, scores, tempMax);
    alerts := alerts + heat;
    ghost var beforeCalm := alerts;
    if |windMax| > 0 {
      var calm := CalmDays(windMax);
      if calm >= 3 {
        alerts := alerts + [Alert(CalmWind(calm), 0, NoDate, 0.0)];
      }
    }
    assert alerts == beforeCalm + CalmAlerts(windMax);
    ghost var beforeRain := alerts;
    var heavy := HeavyRainDays(precip);
    if |heavy| > 0 {
      alerts := alerts + [Alert(NutrientFlush(heavy), heavy[0], NoDate, 0.0)];
    }
    assert alerts == beforeRain + RainAlerts(precip);
    var summary := if |alerts| == 0 then NoCrossings else AlertCount(|alerts|, Crossings(alerts));
    r := PredictiveReport(alerts, daysToWarning, daysToCritical, m.round(maxRisk, 1), TrajectoryOf(scores), summary, |alerts|);
  }
}
