/**
 * The patient dashboard: the live-update callback that replaces the shown
 * reading and keeps a ten-entry alert buffer, and the per-vital card
 * statuses shown next to the overall badge.
 */
module PatientDashboard {
  import opened Wrappers
  import M = MockData
  import VS = VitalsService

  // ---------------------------------------------------------------------
  // Per-vital card statuses
  // ---------------------------------------------------------------------

  /** Heart-rate card: the outer test picks the warning band, the inner one the critical band. */
  function HeartRateCard(hr: real): (s: M.Status)
    ensures s == M.Critical <==> hr < 50.0 || hr > 120.0
    ensures s == M.Warning <==> (50.0 <= hr < 60.0 || 100.0 < hr <= 120.0)
  {
    if hr < 60.0 || hr > 100.0 then (if hr < 50.0 || hr > 120.0 then M.Critical else M.Warning)
    else M.Normal
  }

  function Spo2Card(spo2: real): (s: M.Status)
    ensures s == M.Critical <==> spo2 < 90.0
    ensures s == M.Warning <==> 90.0 <= spo2 < 95.0
  {
    if spo2 < 90.0 then M.Critical else if spo2 < 95.0 then M.Warning else M.Normal
  }

  /** Temperature card: only high temperatures raise it; there is no low-temperature warning. */
  function TemperatureCard(t: real): (s: M.Status)
    ensures s == M.Critical <==> t > 38.5
    ensures s == M.Warning <==> 37.5 < t <= 38.5
    ensures t <= 37.5 ==> s == M.Normal
  {
    if t > 38.5 then M.Critical else if t > 37.5 then M.Warning else M.Normal
  }

  function MotionCard(m: M.Motion): (s: M.Status)
    ensures s != M.Warning
    ensures s == M.Critical <==> m == M.FallDetected
  {
    if m == M.FallDetected then M.Critical else M.Normal
  }

  datatype Cards = Cards(heartRate: M.Status, spo2: M.Status, temperature: M.Status, motion: M.Status)

  function CardStatuses(v: M.VitalSigns): Cards {
    Cards(HeartRateCard(v.heartRate), Spo2Card(v.spo2), TemperatureCard(v.temperature), MotionCard(v.motionStatus))
  }

  predicate SomeCardIs(c: Cards, s: M.Status) {
    c.heartRate == s || c.spo2 == s || c.temperature == s || c.motion == s
  }

  /**
   * No card is more severe than the overall badge, and the badge is critical
   * exactly when some card is.
   */
  lemma CardsAgreeWithOverall(v: M.VitalSigns)
    ensures var c := CardStatuses(v); var o := M.Severity(VS.ClassifyStatus(v));
      M.Severity(c.heartRate) <= o && M.Severity(c.spo2) <= o &&
      M.Severity(c.temperature) <= o && M.Severity(c.motion) <= o
    ensures VS.ClassifyStatus(v) == M.Critical <==> SomeCardIs(CardStatuses(v), M.Critical)
  {
  }

  /** The only reading whose badge warns while every card is normal is a low temperature. */
  lemma SilentWarningMeansLowTemperature(v: M.VitalSigns)
    requires VS.ClassifyStatus(v) == M.Warning
    requires !SomeCardIs(CardStatuses(v), M.Warning)
    ensures v.temperature < 36.1
  {
  }

  lemma LowTemperatureWarnsSilently()
    ensures var v := M.VitalSigns(80.0, 98.0, 36.0, M.Resting, [], 0);
      VS.ClassifyStatus(v) == M.Warning && CardStatuses(v) == Cards(M.Normal, M.Normal, M.Normal, M.Normal)
  {
  }

  // ---------------------------------------------------------------------
  // Live alert buffer
  // ---------------------------------------------------------------------

  const ALERT_CAPACITY: nat := 10

  /** `x || fallback` for an optional string. */
  function OrElse(x: Option<string>, fallback: string): (r: string)
    ensures x.Some? && x.value != "" ==> r == x.value
    ensures (x.None? || x.value == "") ==> r == fallback
  {
    if x.Some? && x.value != "" then x.value else fallback
  }

  /** The alert the callback builds for a non-normal reading. */
  function LiveAlert(status: M.Status, v: M.VitalSigns, id: string, userId: Option<string>,
                     profileName: Option<string>, now: int, showNumber: real -> string): (a: M.Alert)
    ensures a.level == status && a.timestamp == now && a.id == id
    ensures a.patientId == OrElse(userId, "") && a.patientName == OrElse(profileName, "Patient")
    ensures |a.message| >= 8
    ensures status == M.Critical ==> a.kind == "CRITICAL" && a.message[..8] == "Critical"
    ensures status != M.Critical ==> a.kind == "WARNING" && a.message[..8] == "Abnormal"
  {
    var word := if status == M.Critical then "Critical" else "Abnormal";
    var msg := word + " vitals — HR: " + showNumber(v.heartRate) + ", SpO₂: " + showNumber(v.spo2) + "%";
    assert msg[..8] == word;
    M.Alert(id, OrElse(userId, ""), OrElse(profileName, "Patient"),
      if status == M.Critical then "CRITICAL" else "WARNING",
      msg, status, now)
  }

  /** `[a, ...prev].slice(0, 10)`: the new alert first, then the newest nine of the old ones. */
  function PushAlert(prev: seq<M.Alert>, a: M.Alert): (r: seq<M.Alert>)
    ensures |r| == if |prev| < ALERT_CAPACITY then |prev| + 1 else ALERT_CAPACITY
    ensures r[0] == a
    ensures r[1..] == prev[..|r| - 1]
  {
    var all := [a] + prev;
    var n := if |all| < ALERT_CAPACITY then |all| else ALERT_CAPACITY;
    assert all[1..n] == prev[..n - 1];
    all[..n]
  }

  class Dashboard {
    var vitals: M.VitalSigns
    var alerts: seq<M.Alert>

    ghost predicate Valid()
      reads this
    {
      |alerts| <= ALERT_CAPACITY
    }

    constructor (initial: M.VitalSigns)
      ensures Valid() && vitals == initial && alerts == []
    {
      vitals := initial;
      alerts := [];
    }

    /** The overall badge. */
    function Status(): (s: M.Status)
      reads this
      ensures s == M.ClassifyStatus(vitals)
    {
      VS.ClassifyStatus(vitals)
    }

    /** One tick of the subscription callback. */
    method OnVitals(newVitals: M.VitalSigns, id: string, userId: Option<string>, profileName: Option<string>,
                    now: int, showNumber: real -> string)
      requires Valid()
      modifies this
      ensures Valid()
      ensures vitals == newVitals
      ensures VS.ClassifyStatus(newVitals) == M.Normal ==> alerts == old(alerts)
      ensures VS.ClassifyStatus(newVitals) != M.Normal ==>
        alerts == PushAlert(old(alerts),
          LiveAlert(VS.ClassifyStatus(newVitals), newVitals, id, userId, profileName, now, showNumber))
    {
      vitals := newVitals;
      var status := VS.ClassifyStatus(newVitals);
      if status != M.Normal {
        alerts := PushAlert(alerts, LiveAlert(status, newVitals, id, userId, profileName, now, showNumber));
      }
    }
  }
}
