/**
 * The vitals service layer. It repeats the mock library's threshold table and
 * classifier; its generator functions are the mock library's code apart from
 * comments and are modelled by the definitions in `MockData`.
 */
module VitalsService {
  import M = MockData

  const THRESHOLDS: M.Thresholds := M.Thresholds(
    M.HeartRateBounds(60.0, 100.0, 50.0, 120.0),
    M.Spo2Bounds(95.0, 90.0),
    M.TemperatureBounds(36.1, 37.5, 38.5))

  /** The service's own copy of the classifier agrees with the mock library's on every reading. */
  function ClassifyStatus(v: M.VitalSigns): (r: M.Status)
    ensures r == M.ClassifyStatus(v)
  {
    var t := THRESHOLDS;
    if v.motionStatus == M.FallDetected ||
       v.heartRate < t.heartRate.criticalLow || v.heartRate > t.heartRate.criticalHigh ||
       v.spo2 < t.spo2.criticalLow ||
       v.temperature > t.temperature.criticalHigh
    then M.Critical
    else if v.heartRate < t.heartRate.low || v.heartRate > t.heartRate.high ||
            v.spo2 < t.spo2.low ||
            v.temperature < t.temperature.low || v.temperature > t.temperature.high
    then M.Warning
    else M.Normal
  }

  /** Both files carry the same threshold constants. */
  lemma SameThresholds()
    ensures THRESHOLDS == M.THRESHOLDS
  {
  }

  /** Fall or a critical bound gives critical; otherwise an out-of-band vital gives warning. */
  lemma ClassificationPrecedence(v: M.VitalSigns)
    ensures (v.motionStatus == M.FallDetected || v.heartRate < 50.0 || v.heartRate > 120.0 ||
             v.spo2 < 90.0 || v.temperature > 38.5) ==> ClassifyStatus(v) == M.Critical
    ensures (ClassifyStatus(v) != M.Critical &&
             (v.heartRate < 60.0 || v.heartRate > 100.0 || v.spo2 < 95.0 ||
              v.temperature < 36.1 || v.temperature > 37.5)) ==> ClassifyStatus(v) == M.Warning
  {
  }

  /** `generateVitals(false)` is always normal under the service's classifier. */
  lemma UnbiasedReadingIsNormal(d: M.VitalDraws, sinPi: real -> real, now: int)
    requires M.ValidDraws(d)
    ensures ClassifyStatus(M.GenerateVitals(false, d, sinPi, now)) == M.Normal
  {
    M.NormalBranchIsNormal(false, d, sinPi, now);
  }

  /** `generateVitals(true)` reports a fall only from the abnormal branch, and that branch is never normal. */
  lemma BiasedReadingFall(d: M.VitalDraws, sinPi: real -> real, now: int)
    requires M.ValidDraws(d)
    ensures M.GenerateVitals(true, d, sinPi, now).motionStatus == M.FallDetected ==> d.abnormal < 0.3
    ensures d.abnormal < 0.3 ==> ClassifyStatus(M.GenerateVitals(true, d, sinPi, now)) != M.Normal
    ensures d.abnormal >= 0.3 ==> ClassifyStatus(M.GenerateVitals(true, d, sinPi, now)) == M.Normal
  {
    M.FallOnlyOnAbnormalBranch(true, d, sinPi, now);
    if d.abnormal < 0.3 {
      M.AbnormalBranchIsNotNormal(true, d, sinPi, now);
    } else {
      M.NormalBranchIsNormal(true, d, sinPi, now);
    }
  }
}
