/**
 * The condition evaluator (`analyze_forecast`): walks the periods in order
 * and, for every period whose maximum temperature is present and strictly
 * above 35 °C, composes an alert and hands it to the dispatcher at once.
 */
module ConditionEvaluator {
  import opened ForecastData
  import opened AlertDispatcher

  /** The heat threshold in degrees Celsius; reaching it exactly does not alert. */
  const HeatThreshold: real := 35.0

  /** The maximum is known (present and not null) and strictly above the threshold. */
  predicate IsHot(day: Period) {
    day.maxTempC.Present? && day.maxTempC.value > HeatThreshold
  }

  /** One alert event: its subject line and its body. */
  datatype Alert = Alert(subject: string, body: AlertBody)

  const SubjectPrefix := "🔥 Heat Alert for "

  /** The subject line names only the title-cased location. */
  function HeatSubject(location: string, fmt: Formatting): string {
    SubjectPrefix + fmt.title(location)
  }

  /** The alert for a hot period: its own maximum and its own date. */
  function AlertFor(day: Period, location: string, fmt: Formatting): Alert
    requires IsHot(day)
  {
    Alert(HeatSubject(location, fmt), HighTemperature(day.maxTempC.value, fmt.longDate(day.dateTimeISO)))
  }

  /**
   * The alerts of one pass, in the order of the periods. Every alert has the
   * same subject, and carries a temperature above the threshold.
   */
  function HeatAlerts(periods: seq<Period>, location: string, fmt: Formatting): (alerts: seq<Alert>)
    ensures |alerts| <= |periods|
    ensures forall a :: a in alerts ==> a.subject == HeatSubject(location, fmt)
    ensures forall a :: a in alerts ==> a.body.maxTempC > HeatThreshold
  {
    if periods == [] then []
    else
      (if IsHot(periods[0]) then [AlertFor(periods[0], location, fmt)] else [])
      + HeatAlerts(periods[1..], location, fmt)
  }

  /**
   * The positions from `lo` on whose period is hot, in increasing order:
   * every listed position is hot, and every hot position is listed.
   */
  function HotFrom(periods: seq<Period>, lo: nat): (idx: seq<nat>)
    requires lo <= |periods|
    ensures forall k :: 0 <= k < |idx| ==> lo <= idx[k] < |periods| && IsHot(periods[idx[k]])
    ensures forall k, l :: 0 <= k < l < |idx| ==> idx[k] < idx[l]
    ensures forall i :: lo <= i < |periods| && IsHot(periods[i]) ==> i in idx
    decreases |periods| - lo
  {
    if lo == |periods| then []
    else (if IsHot(periods[lo]) then [lo] else []) + HotFrom(periods, lo + 1)
  }

  /** The positions of all hot periods. */
  function HotDays(periods: seq<Period>): seq<nat> {
    HotFrom(periods, 0)
  }

  /** One alert per hot position from `lo` on, in order, each built from its own period. */
  lemma {:induction false} AlertsFollowHotFrom(periods: seq<Period>, location: string, fmt: Formatting, lo: nat)
    requires lo <= |periods|
    ensures var idx := HotFrom(periods, lo);
      var alerts := HeatAlerts(periods[lo..], location, fmt);
      |alerts| == |idx| && forall k :: 0 <= k < |idx| ==> alerts[k] == AlertFor(periods[idx[k]], location, fmt)
    decreases |periods| - lo
  {
    if lo < |periods| {
      var suffix := periods[lo..];
      assert suffix[0] == periods[lo] && suffix[1..] == periods[lo + 1..];
      AlertsFollowHotFrom(periods, location, fmt, lo + 1);
      var rest, tail := HotFrom(periods, lo + 1), HeatAlerts(periods[lo + 1..], location, fmt);
      if IsHot(periods[lo]) {
        var idx, alerts := [lo] + rest, [AlertFor(periods[lo], location, fmt)] + tail;
        assert HotFrom(periods, lo) == idx && HeatAlerts(suffix, location, fmt) == alerts;
        forall k | 0 <= k < |idx| ensures alerts[k] == AlertFor(periods[idx[k]], location, fmt) {
          if k > 0 {
            assert alerts[k] == tail[k - 1] && idx[k] == rest[k - 1];
          }
        }
      } else {
        assert HotFrom(periods, lo) == rest && HeatAlerts(suffix, location, fmt) == tail;
      }
    }
  }

  /**
   * An alert is produced for a period exactly when its maximum is present and
   * above 35 °C; the alerts come in the order of the periods, one per hot
   * period with no merging of neighbours, and the k-th alert carries the
   * maximum and the date of the k-th hot period.
   */
  lemma AlertPerHotDay(periods: seq<Period>, location: string, fmt: Formatting)
    ensures var idx := HotDays(periods);
      var alerts := HeatAlerts(periods, location, fmt);
      |alerts| == |idx| && forall k :: 0 <= k < |idx| ==> alerts[k] == AlertFor(periods[idx[k]], location, fmt)
  {
    assert periods[0..] == periods;
    AlertsFollowHotFrom(periods, location, fmt, 0);
  }

  /** Evaluating one more period appends at most its own alert. */
  lemma {:induction false} HeatAlertsSnoc(periods: seq<Period>, day: Period, location: string, fmt: Formatting)
    ensures HeatAlerts(periods + [day], location, fmt)
      == HeatAlerts(periods, location, fmt) + (if IsHot(day) then [AlertFor(day, location, fmt)] else [])
  {
    if periods != [] {
      assert (periods + [day])[1..] == periods[1..] + [day];
      HeatAlertsSnoc(periods[1..], day, location, fmt);
    } else {
      assert [day][1..] == [];
    }
  }

  /**
   * `analyze_forecast`: for each hot period in order, one call of the
   * dispatcher with that period's alert; `smtp(k)` is what the transport does
   * with the k-th attempt. Every alert gets its own call whatever the earlier
   * calls returned.
   */
  method AnalyzeForecast(periods: seq<Period>, location: string, fmt: Formatting, cfg: MailConfig, smtp: nat -> SmtpResult)
    returns (outbox: seq<Delivery>)
    ensures var alerts := HeatAlerts(periods, location, fmt);
      |outbox| == |alerts| &&
      forall k :: 0 <= k < |alerts| ==> outbox[k] == SendEmailAlert(cfg, alerts[k].subject, alerts[k].body, smtp(k))
    ensures !Configured(cfg) ==> forall d :: d in outbox ==> d.Skipped?
  {
    outbox := [];
    for i := 0 to |periods|
      invariant var alerts := HeatAlerts(periods[..i], location, fmt);
        |outbox| == |alerts| &&
        forall k :: 0 <= k < |alerts| ==> outbox[k] == SendEmailAlert(cfg, alerts[k].subject, alerts[k].body, smtp(k))
    {
      var day := periods[i];
      assert periods[..i + 1] == periods[..i] + [day];
      HeatAlertsSnoc(periods[..i], day, location, fmt);
      var maxTemp := day.maxTempC;
      if maxTemp.Present? && maxTemp.value > HeatThreshold {
        var date := fmt.longDate(day.dateTimeISO);
        var subject := HeatSubject(location, fmt);
        var body := HighTemperature(maxTemp.value, date);
        outbox := outbox + [SendEmailAlert(cfg, subject, body, smtp(|outbox|))];
      }
    }
    assert periods[..|periods|] == periods;
  }

  /**
   * The worked example of the threshold: maxima 30, 35, 35.1 and 40 give
   * alerts for the last two periods only.
   */
  lemma ThresholdExample(dates: seq<string>, weather: string)
    requires |dates| == 4
    ensures var periods := [
        Period(dates[0], weather, Present(30.0), Absent),
        Period(dates[1], weather, Present(35.0), Absent),
        Period(dates[2], weather, Present(35.1), Absent),
        Period(dates[3], weather, Present(40.0), Absent)];
      HotDays(periods) == [2, 3]
  {
    var periods := [
        Period(dates[0], weather, Present(30.0), Absent),
        Period(dates[1], weather, Present(35.0), Absent),
        Period(dates[2], weather, Present(35.1), Absent),
        Period(dates[3], weather, Present(40.0), Absent)];
    assert HotFrom(periods, 4) == [];
    assert HotFrom(periods, 3) == [3];
    assert HotFrom(periods, 2) == [2, 3];
    assert HotFrom(periods, 1) == [2, 3];
  }
}
