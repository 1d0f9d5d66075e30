/**
 * The mock vitals library: data types, the threshold table, the threshold
 * classifier, the synthetic generators, the patient roster, alert derivation
 * and the demo accounts.
 *
 * Randomness enters as oracle values: every `Math.random()` draw is an input
 * real that the lemmas assume to lie in [0, 1). `Math.sin(x * Math.PI)` is the
 * parameter `sinPi`, the JavaScript number-to-text conversion used inside
 * messages is the parameter `showNumber`, and clock readings are integer
 * milliseconds passed in as `now`.
 */
module MockData {
  import opened Wrappers
  import opened Text

  // ---------------------------------------------------------------------
  // Data model
  // ---------------------------------------------------------------------

  datatype Status = Normal | Warning | Critical
  datatype Motion = Resting | Active | FallDetected

  /** The severity order normal < warning < critical. */
  function Severity(s: Status): (n: nat)
    ensures n <= 2
    ensures s == Normal <==> n == 0
    ensures s == Critical <==> n == 2
  {
    match s
    case Normal => 0
    case Warning => 1
    case Critical => 2
  }

  datatype VitalSigns = VitalSigns(
    heartRate: real,
    spo2: real,
    temperature: real,
    motionStatus: Motion,
    ecgData: seq<real>,
    timestamp: int)

  datatype Gender = M | F

  datatype Patient = Patient(
    id: string,
    name: string,
    age: nat,
    gender: Gender,
    room: string,
    vitals: VitalSigns,
    status: Status)

  datatype Alert = Alert(
    id: string,
    patientId: string,
    patientName: string,
    kind: string,
    message: string,
    level: Status,
    timestamp: int)

  datatype HeartRateBounds = HeartRateBounds(low: real, high: real, criticalLow: real, criticalHigh: real)
  datatype Spo2Bounds = Spo2Bounds(low: real, criticalLow: real)
  datatype TemperatureBounds = TemperatureBounds(low: real, high: real, criticalHigh: real)
  datatype Thresholds = Thresholds(heartRate: HeartRateBounds, spo2: Spo2Bounds, temperature: TemperatureBounds)

  const THRESHOLDS: Thresholds := Thresholds(
    HeartRateBounds(60.0, 100.0, 50.0, 120.0),
    Spo2Bounds(95.0, 90.0),
    TemperatureBounds(36.1, 37.5, 38.5))

  /** Each vital's critical band encloses its warning band, which encloses its normal band. */
  lemma ThresholdsNest()
    ensures THRESHOLDS.heartRate.criticalLow < THRESHOLDS.heartRate.low <
            THRESHOLDS.heartRate.high < THRESHOLDS.heartRate.criticalHigh
    ensures THRESHOLDS.spo2.criticalLow < THRESHOLDS.spo2.low
    ensures THRESHOLDS.temperature.low < THRESHOLDS.temperature.high < THRESHOLDS.temperature.criticalHigh
  {
  }

  // ---------------------------------------------------------------------
  // Threshold classifier
  // ---------------------------------------------------------------------

  /**
   * Critical bounds first, then warning bounds, all comparisons strict.
   * The contract states the outcome as bands: critical exactly when a fall
   * or a critical bound is seen, normal exactly when every vital lies in its
   * closed normal band and there is no fall.
   */
  function ClassifyStatus(v: VitalSigns): (r: Status)
    ensures r == Critical <==>
      v.motionStatus == FallDetected || v.heartRate < 50.0 || v.heartRate > 120.0 ||
      v.spo2 < 90.0 || v.temperature > 38.5
    ensures r == Normal <==>
      v.motionStatus != FallDetected && 60.0 <= v.heartRate <= 100.0 &&
      95.0 <= v.spo2 && 36.1 <= v.temperature <= 37.5
  {
    var t := THRESHOLDS;
    if v.motionStatus == FallDetected ||
       v.heartRate < t.heartRate.criticalLow || v.heartRate > t.heartRate.criticalHigh ||
       v.spo2 < t.spo2.criticalLow ||
       v.temperature > t.temperature.criticalHigh
    then Critical
    else if v.heartRate < t.heartRate.low || v.heartRate > t.heartRate.high ||
            v.spo2 < t.spo2.low ||
            v.temperature < t.temperature.low || v.temperature > t.temperature.high
    then Warning
    else Normal
  }

  /** A fall is critical whatever the other readings are. */
  lemma FallIsCritical(v: VitalSigns)
    requires v.motionStatus == FallDetected
    ensures ClassifyStatus(v) == Critical
  {
  }

  /** A critical bound wins even when a warning bound is crossed as well. */
  lemma CriticalBoundWins(v: VitalSigns)
    requires v.heartRate < 50.0 || v.heartRate > 120.0 || v.spo2 < 90.0 || v.temperature > 38.5
    ensures ClassifyStatus(v) == Critical
  {
  }

  /** Warning exactly when no critical condition holds and some vital leaves its normal band. */
  lemma WarningBand(v: VitalSigns)
    ensures ClassifyStatus(v) == Warning <==>
      v.motionStatus != FallDetected &&
      50.0 <= v.heartRate <= 120.0 && 90.0 <= v.spo2 && v.temperature <= 38.5 &&
      (v.heartRate < 60.0 || v.heartRate > 100.0 || v.spo2 < 95.0 ||
       v.temperature < 36.1 || v.temperature > 37.5)
  {
  }

  /** Only the four monitored fields decide the class; the waveform and the time do not. */
  lemma ClassifyIgnoresWaveformAndTime(v: VitalSigns, w: VitalSigns)
    requires v.heartRate == w.heartRate && v.spo2 == w.spo2
    requires v.temperature == w.temperature && v.motionStatus == w.motionStatus
    ensures ClassifyStatus(v) == ClassifyStatus(w)
  {
  }

  /** The boundaries are strict: 50 and 59.9 warn, 49.9 is critical, 60 is normal. */
  lemma HeartRateBoundaries(v: VitalSigns)
    requires v.motionStatus != FallDetected && v.spo2 == 98.0 && v.temperature == 36.8
    ensures v.heartRate == 49.9 ==> ClassifyStatus(v) == Critical
    ensures v.heartRate == 50.0 ==> ClassifyStatus(v) == Warning
    ensures v.heartRate == 59.9 ==> ClassifyStatus(v) == Warning
    ensures v.heartRate == 60.0 ==> ClassifyStatus(v) == Normal
    ensures v.heartRate == 100.0 ==> ClassifyStatus(v) == Normal
    ensures v.heartRate == 120.0 ==> ClassifyStatus(v) == Warning
  {
  }

  // ---------------------------------------------------------------------
  // Random draws and rounding
  // ---------------------------------------------------------------------

  /** A `Math.random()` result. */
  predicate Unit(u: real) {
    0.0 <= u < 1.0
  }

  /** A stream of `Math.random()` results. */
  ghost predicate UnitStream(rand: nat -> real) {
    forall i: nat :: Unit(rand(i))
  }

  /** `Math.round`: the nearest integer, halves rounded up. */
  function RoundHalfUp(x: real): (n: int)
    ensures n as real - 0.5 <= x < n as real + 0.5
  {
    (x + 0.5).Floor
  }

  /** x is a multiple of 0.1. */
  predicate IsTenth(x: real) {
    (x * 10.0).Floor as real == x * 10.0
  }

  /** `min + Math.random() * (max - min)`: a point of [min, max] for a draw in [0, 1). */
  function Lerp(min: real, max: real, u: real): (r: real)
    ensures Unit(u) && min <= max ==> min <= r <= max
  {
    var d := max - min;
    ScaledDrawBounds(u, d);
    min + u * d
  }

  /**
   * `randomInRange(min, max)` for the draw u: rounded to tenths. The result is
   * always a tenth and lies within half a tenth of [min, max]; with bounds on
   * the tenths grid it lies inside [min, max].
   */
  function RandomInRange(min: real, max: real, u: real): (r: real)
    ensures IsTenth(r)
    ensures Unit(u) && min <= max ==> min - 0.05 <= r <= max + 0.05
    ensures Unit(u) && min <= max && IsTenth(min) && IsTenth(max) ==> min <= r <= max
  {
    var x := Lerp(min, max, u) * 10.0;
    var n := RoundHalfUp(x);
    TenthOfInteger(n);
    RoundToGrid(x, min * 10.0, max * 10.0);
    n as real / 10.0
  }

  lemma ScaledDrawBounds(u: real, d: real)
    ensures Unit(u) && 0.0 <= d ==> 0.0 <= u * d <= d
  {
    if Unit(u) && 0.0 <= d {
      assert d - u * d == (1.0 - u) * d;
    }
  }

  /** Rounding moves a value by at most one half, and never past an integer bound. */
  lemma RoundToGrid(x: real, lo: real, hi: real)
    ensures lo <= x <= hi ==> lo - 0.5 <= RoundHalfUp(x) as real <= hi + 0.5
    ensures lo <= x <= hi && lo.Floor as real == lo && hi.Floor as real == hi ==>
      lo <= RoundHalfUp(x) as real <= hi
  {
    if lo <= x <= hi && lo.Floor as real == lo && hi.Floor as real == hi {
      var n := RoundHalfUp(x);
      assert lo.Floor <= n <= hi.Floor;
    }
  }

  lemma TenthOfInteger(n: int)
    ensures IsTenth(n as real / 10.0)
  {
    assert (n as real / 10.0) * 10.0 == n as real;
  }

  // ---------------------------------------------------------------------
  // ECG template and waveform
  // ---------------------------------------------------------------------

  /** The QRS complex, the only literal waveform values of the template. */
  const QRS: seq<real> := [-0.1, -0.2, 1.0, -0.3, -0.1]

  /** The cardiac-cycle template: P wave, PR segment, QRS, ST segment, T wave, baseline. */
  function EcgCycle(sinPi: real -> real): (c: seq<real>)
    ensures |c| == 45
  {
    seq(8, i => sinPi(i as real / 8.0) * 0.15) +
    seq(4, _ => 0.0) +
    QRS +
    seq(6, _ => 0.02) +
    seq(10, i => sinPi(i as real / 10.0) * 0.25) +
    seq(12, _ => 0.0)
  }

  /** Segment layout of the template; with a sine bounded by 1 the QRS peak is its maximum. */
  lemma EcgCycleLayout(sinPi: real -> real)
    ensures var c := EcgCycle(sinPi);
      && (forall i :: 0 <= i < 8 ==> c[i] == sinPi(i as real / 8.0) * 0.15)
      && (forall i :: 8 <= i < 12 ==> c[i] == 0.0)
      && c[12..17] == QRS && c[14] == 1.0
      && (forall i :: 17 <= i < 23 ==> c[i] == 0.02)
      && (forall i :: 23 <= i < 33 ==> c[i] == sinPi((i - 23) as real / 10.0) * 0.25)
      && (forall i :: 33 <= i < 45 ==> c[i] == 0.0)
    ensures (forall x :: -1.0 <= sinPi(x) <= 1.0) ==>
      forall i :: 0 <= i < 45 ==> EcgCycle(sinPi)[i] <= EcgCycle(sinPi)[14]
  {
    var c := EcgCycle(sinPi);
    var p := seq(8, i => sinPi(i as real / 8.0) * 0.15);
    var t := seq(10, i => sinPi(i as real / 10.0) * 0.25);
    assert c == p + seq(4, _ => 0.0) + QRS + seq(6, _ => 0.02) + t + seq(12, _ => 0.0);
    assert c[12..17] == QRS;
    if forall x :: -1.0 <= sinPi(x) <= 1.0 {
      forall i | 0 <= i < 45 ensures c[i] <= c[14] {
        if i < 8 {
          assert c[i] == sinPi(i as real / 8.0) * 0.15;
        } else if 23 <= i < 33 {
          assert c[i] == sinPi((i - 23) as real / 10.0) * 0.25;
        }
      }
    }
  }

  /** `generateECGCycle`: builds the template by six push loops and one literal push. */
  method GenerateECGCycle(sinPi: real -> real) returns (cycle: seq<real>)
    ensures cycle == EcgCycle(sinPi)
  {
    cycle := [];
    for i := 0 to 8
      invariant cycle == seq(i, k => sinPi(k as real / 8.0) * 0.15)
    {
      cycle := cycle + [sinPi(i as real / 8.0) * 0.15];
    }
    ghost var p := cycle;
    for i := 0 to 4
      invariant cycle == p + seq(i, _ => 0.0)
    {
      cycle := cycle + [0.0];
    }
    cycle := cycle + [-0.1, -0.2, 1.0, -0.3, -0.1];
    ghost var q := cycle;
    for i := 0 to 6
      invariant cycle == q + seq(i, _ => 0.02)
    {
      cycle := cycle + [0.02];
    }
    ghost var st := cycle;
    for i := 0 to 10
      invariant cycle == st + seq(i, k => sinPi(k as real / 10.0) * 0.25)
    {
      cycle := cycle + [sinPi(i as real / 10.0) * 0.25];
    }
    ghost var tw := cycle;
    for i := 0 to 12
      invariant cycle == tw + seq(i, _ => 0.0)
    {
      cycle := cycle + [0.0];
    }
  }

  /** The additive noise `(Math.random() - 0.5) * 0.03` for a draw u. */
  function Noise(u: real): real {
    (u - 0.5) * 0.03
  }

  lemma NoiseBounds(u: real)
    requires Unit(u)
    ensures -0.015 <= Noise(u) < 0.015
  {
  }

  function MaxZero(n: int): (m: nat)
    ensures m == (if n > 0 then n else 0)
  {
    if n > 0 then n else 0
  }

  /** The waveform the tiling loop produces: sample i is template[i mod 45] plus the i-th draw's noise. */
  function EcgData(points: int, sinPi: real -> real, rand: nat -> real): (d: seq<real>)
    ensures |d| == MaxZero(points)
  {
    var c := EcgCycle(sinPi);
    seq(MaxZero(points), i requires 0 <= i => c[i % 45] + Noise(rand(i)))
  }

  lemma EcgDataNearTemplate(points: int, sinPi: real -> real, rand: nat -> real)
    requires UnitStream(rand)
    ensures var d := EcgData(points, sinPi, rand);
      forall i :: 0 <= i < |d| ==>
        -0.015 <= d[i] - EcgCycle(sinPi)[i % 45] < 0.015
  {
    var d := EcgData(points, sinPi, rand);
    forall i | 0 <= i < |d| ensures -0.015 <= d[i] - EcgCycle(sinPi)[i % 45] < 0.015 {
      assert Unit(rand(i));
      NoiseBounds(rand(i));
    }
  }

  /**
   * `generateECGData`: repeat the template, one draw per pushed sample,
   * stopping as soon as `points` samples exist.
   */
  method GenerateECGData(points: int, sinPi: real -> real, rand: nat -> real) returns (data: seq<real>)
    ensures data == EcgData(points, sinPi, rand)
  {
    data := [];
    var cycle := GenerateECGCycle(sinPi);
    ghost var spec := EcgData(points, sinPi, rand);
    while |data| < points
      invariant |data| <= MaxZero(points)
      invariant |data| % 45 == 0 || |data| == points
      invariant data == spec[..|data|]
      decreases points - |data|
    {
      ghost var before := |data|;
      for j := 0 to |cycle|
        invariant |data| == before + j
        invariant (|data| - j) % 45 == 0
        invariant |data| <= MaxZero(points)
        invariant data == spec[..|data|]
        invariant |data| < points
      {
        assert |data| % 45 == j;
        data := data + [cycle[j] + (rand(|data|) - 0.5) * 0.03];
        if |data| >= points {
          break;
        }
      }
    }
    assert |data| == MaxZero(points);
  }

  // ---------------------------------------------------------------------
  // Vital-sign generator
  // ---------------------------------------------------------------------

  /** The draws one `generateVitals` call may consume, one field per call site. */
  datatype VitalDraws = VitalDraws(
    abnormal: real,
    heartRateBand: real,
    heartRate: real,
    spo2: real,
    temperature: real,
    fall: real,
    active: real,
    ecgNoise: nat -> real)

  predicate ValidDraws(d: VitalDraws) {
    Unit(d.abnormal) && Unit(d.heartRateBand) && Unit(d.heartRate) && Unit(d.spo2) &&
    Unit(d.temperature) && Unit(d.fall) && Unit(d.active)
  }

  /** Whether the reading is taken from the abnormal distribution. */
  predicate AbnormalBranch(bias: bool, d: VitalDraws) {
    bias && d.abnormal < 0.3
  }

  /** `generateVitals(biasTowardsAbnormal)` at time `now`. */
  function GenerateVitals(bias: bool, d: VitalDraws, sinPi: real -> real, now: int): (v: VitalSigns)
    ensures v.timestamp == now && |v.ecgData| == 200
  {
    var abnormal := bias && d.abnormal < 0.3;
    VitalSigns(
      heartRate :=
        if abnormal then
          (if d.heartRateBand < 0.5 then RandomInRange(45.0, 55.0, d.heartRate)
           else RandomInRange(110.0, 130.0, d.heartRate))
        else RandomInRange(62.0, 98.0, d.heartRate),
      spo2 := if abnormal then RandomInRange(88.0, 94.0, d.spo2) else RandomInRange(95.0, 100.0, d.spo2),
      temperature :=
        if abnormal then RandomInRange(37.8, 39.2, d.temperature)
        else RandomInRange(36.2, 37.4, d.temperature),
      motionStatus :=
        if abnormal && d.fall < 0.1 then FallDetected
        else if d.active < 0.3 then Active
        else Resting,
      ecgData := EcgData(200, sinPi, d.ecgNoise),
      timestamp := now)
  }

  /** Off the abnormal branch every vital lies in its normal generator range and no fall occurs. */
  lemma NormalBranchRanges(bias: bool, d: VitalDraws, sinPi: real -> real, now: int)
    requires ValidDraws(d) && !AbnormalBranch(bias, d)
    ensures var v := GenerateVitals(bias, d, sinPi, now);
      && 62.0 <= v.heartRate <= 98.0
      && 95.0 <= v.spo2 <= 100.0
      && 36.2 <= v.temperature <= 37.4
      && v.motionStatus != FallDetected
  {
  }

  /** An unbiased reading, or a biased one off the abnormal branch, is always normal. */
  lemma NormalBranchIsNormal(bias: bool, d: VitalDraws, sinPi: real -> real, now: int)
    requires ValidDraws(d) && !AbnormalBranch(bias, d)
    ensures ClassifyStatus(GenerateVitals(bias, d, sinPi, now)) == Normal
  {
    NormalBranchRanges(bias, d, sinPi, now);
  }

  /** An abnormal draw is never normal: its temperature is at least 37.8 > 37.5. */
  lemma AbnormalBranchIsNotNormal(bias: bool, d: VitalDraws, sinPi: real -> real, now: int)
    requires ValidDraws(d) && AbnormalBranch(bias, d)
    ensures GenerateVitals(bias, d, sinPi, now).temperature >= 37.8
    ensures ClassifyStatus(GenerateVitals(bias, d, sinPi, now)) != Normal
  {
  }

  /** A fall is produced only on the abnormal branch, so never by an unbiased call. */
  lemma FallOnlyOnAbnormalBranch(bias: bool, d: VitalDraws, sinPi: real -> real, now: int)
    ensures GenerateVitals(bias, d, sinPi, now).motionStatus == FallDetected <==>
      AbnormalBranch(bias, d) && d.fall < 0.1
  {
  }

  // ---------------------------------------------------------------------
  // Patient roster
  // ---------------------------------------------------------------------

  datatype NameEntry = NameEntry(name: string, age: nat, gender: Gender)

  const PATIENT_NAMES: seq<NameEntry> := [
    NameEntry("Rajesh Kumar", 58, M),
    NameEntry("Priya Sharma", 34, F),
    NameEntry("Arun Patel", 72, M),
    NameEntry("Meena Devi", 45, F),
    NameEntry("Vikram Singh", 63, M),
    NameEntry("Lakshmi Iyer", 51, F),
    NameEntry("Suresh Reddy", 67, M),
    NameEntry("Ananya Das", 29, F)
  ]

  /** `P-` followed by i + 1 padded to three digits. */
  function PatientId(i: nat): string {
    "P-" + PadStart(NatToString(i + 1), 3, '0')
  }

  function RoomNumber(i: nat): string {
    NatToString(100 + i + 1)
  }

  function MakePatient(p: NameEntry, i: nat, d: VitalDraws, sinPi: real -> real, now: int): (r: Patient)
    ensures r.id == PatientId(i) && r.room == RoomNumber(i)
    ensures r.status == ClassifyStatus(r.vitals)
    ensures r.name == p.name && r.age == p.age && r.gender == p.gender
    ensures r.vitals == GenerateVitals(i % 3 == 0, d, sinPi, now)
  {
    var vitals := GenerateVitals(i % 3 == 0, d, sinPi, now);
    Patient(PatientId(i), p.name, p.age, p.gender, RoomNumber(i), vitals, ClassifyStatus(vitals))
  }

  /** `generatePatients`: one patient per roster entry, the i-th biased exactly when i mod 3 == 0. */
  function GeneratePatients(draws: nat -> VitalDraws, sinPi: real -> real, now: int): (ps: seq<Patient>)
    ensures |ps| == 8
    ensures forall i :: 0 <= i < 8 ==> ps[i] == MakePatient(PATIENT_NAMES[i], i, draws(i), sinPi, now)
    ensures forall i :: 0 <= i < 8 ==> ps[i].id == PatientId(i) && ps[i].room == RoomNumber(i)
    ensures forall i :: 0 <= i < 8 ==> ps[i].status == ClassifyStatus(ps[i].vitals)
    ensures forall i :: 0 <= i < 8 ==> ps[i].name == PATIENT_NAMES[i].name && ps[i].age == PATIENT_NAMES[i].age
    ensures forall i :: 0 <= i < 8 ==> ps[i].vitals == GenerateVitals(i % 3 == 0, draws(i), sinPi, now)
  {
    assert |PATIENT_NAMES| == 8;
    seq(8, i requires 0 <= i < 8 => MakePatient(PATIENT_NAMES[i], i, draws(i), sinPi, now))
  }

  const PATIENT_IDS: seq<string> := ["P-001", "P-002", "P-003", "P-004", "P-005", "P-006", "P-007", "P-008"]
  const ROOMS: seq<string> := ["101", "102", "103", "104", "105", "106", "107", "108"]

  /** The ids are P-001 … P-008 and the rooms 101 … 108. */
  lemma PatientIdsAndRooms(draws: nat -> VitalDraws, sinPi: real -> real, now: int)
    ensures var ps := GeneratePatients(draws, sinPi, now);
      forall i :: 0 <= i < 8 ==> ps[i].id == PATIENT_IDS[i] && ps[i].room == ROOMS[i]
  {
    forall i | 0 <= i < 8 ensures PatientId(i) == PATIENT_IDS[i] && RoomNumber(i) == ROOMS[i] {
      IdAndRoomAt(i);
    }
  }

  lemma IdAndRoomAt(i: nat)
    requires i < 8
    ensures PatientId(i) == PATIENT_IDS[i]
    ensures RoomNumber(i) == ROOMS[i]
  {
    IdDigits(i + 1);
    RoomDigits(i + 1);
    DigitTables(i);
  }

  /** A one-digit number pads to two zeros then its digit. */
  lemma IdDigits(n: nat)
    requires 1 <= n < 10
    ensures "P-" + PadStart(NatToString(n), 3, '0') == "P-00" + [Digit(n)]
  {
    assert NatToString(n) == [Digit(n)];
    var pad := PadStart([Digit(n)], 3, '0');
    assert pad == "00" + [Digit(n)] by {
      assert |pad| == 3 && pad[2] == Digit(n);
    }
  }

  /** 100 + n renders as "10" then the digit of n. */
  lemma RoomDigits(n: nat)
    requires 1 <= n < 10
    ensures NatToString(100 + n) == "10" + [Digit(n)]
  {
    assert (100 + n) / 10 == 10 && (100 + n) % 10 == n;
    assert NatToString(10) == "10" by {
      assert NatToString(1) == "1";
    }
  }

  /** Entry i of the two tables ends in the digit of i + 1. */
  lemma DigitTables(i: nat)
    requires i < 8
    ensures PATIENT_IDS[i] == "P-00" + [Digit(i + 1)]
    ensures ROOMS[i] == "10" + [Digit(i + 1)]
  {
    match i
    case 0 => assert Digit(1) == '1';
    case 1 => assert Digit(2) == '2';
    case 2 => assert Digit(3) == '3';
    case 3 => assert Digit(4) == '4';
    case 4 => assert Digit(5) == '5';
    case 5 => assert Digit(6) == '6';
    case 6 => assert Digit(7) == '7';
    case 7 => assert Digit(8) == '8';
  }

  /** Patients 1, 2, 4, 5 and 7 are generated unbiased and are therefore always normal. */
  lemma UnbiasedPatientsAreNormal(draws: nat -> VitalDraws, sinPi: real -> real, now: int)
    requires forall i: nat :: ValidDraws(draws(i))
    ensures var ps := GeneratePatients(draws, sinPi, now);
      forall i :: 0 <= i < 8 && i % 3 != 0 ==> ps[i].status == Normal
  {
    var ps := GeneratePatients(draws, sinPi, now);
    forall i | 0 <= i < 8 && i % 3 != 0 ensures ps[i].status == Normal {
      NormalBranchIsNormal(false, draws(i), sinPi, now);
    }
  }

  // ---------------------------------------------------------------------
  // Historical trend
  // ---------------------------------------------------------------------

  datatype HistoryPoint = HistoryPoint(time: int, heartRate: real, spo2: real, temperature: real)

  const HOUR_MS: int := 3600000

  /** The k-th pushed point of `generateHistoricalData(hours)`; it uses draws 3k, 3k+1, 3k+2. */
  function HistoryPointAt(hours: int, k: nat, now: int, rand: nat -> real): (p: HistoryPoint)
    ensures p.time == now - (hours - k) * HOUR_MS
    ensures Unit(rand(3 * k)) ==> 62.0 <= p.heartRate <= 100.0
    ensures Unit(rand(3 * k + 1)) ==> 94.0 <= p.spo2 <= 100.0
    ensures Unit(rand(3 * k + 2)) ==> 36.0 <= p.temperature <= 37.6
  {
    HistoryPoint(
      now - (hours - k) * HOUR_MS,
      RandomInRange(62.0, 100.0, rand(3 * k)),
      RandomInRange(94.0, 100.0, rand(3 * k + 1)),
      RandomInRange(36.0, 37.6, rand(3 * k + 2)))
  }

  function HistoricalData(hours: int, now: int, rand: nat -> real): (d: seq<HistoryPoint>)
    ensures |d| == MaxZero(hours + 1)
  {
    seq(MaxZero(hours + 1), k requires 0 <= k => HistoryPointAt(hours, k, now, rand))
  }

  /** `generateHistoricalData(hours)`: a countdown loop from `hours` to 0 pushing one point per hour. */
  method GenerateHistoricalData(hours: int, now: int, rand: nat -> real) returns (data: seq<HistoryPoint>)
    ensures data == HistoricalData(hours, now, rand)
  {
    data := [];
    var i := hours;
    ghost var spec := HistoricalData(hours, now, rand);
    while i >= 0
      invariant i <= hours || hours < 0
      invariant hours >= 0 ==> -1 <= i && |data| == hours - i
      invariant hours < 0 ==> i == hours && data == []
      invariant |data| <= |spec| && data == spec[..|data|]
    {
      var k := |data|;
      data := data + [HistoryPoint(
        now - i * HOUR_MS,
        RandomInRange(62.0, 100.0, rand(3 * k)),
        RandomInRange(94.0, 100.0, rand(3 * k + 1)),
        RandomInRange(36.0, 37.6, rand(3 * k + 2)))];
      i := i - 1;
    }
  }

  /** hours + 1 points, oldest first, an hour apart, the last at `now`, fields in their ranges. */
  lemma HistoricalDataShape(hours: int, now: int, rand: nat -> real)
    requires UnitStream(rand)
    ensures var d := HistoricalData(hours, now, rand);
      && |d| == MaxZero(hours + 1)
      && (hours >= 0 ==> d[0].time == now - hours * HOUR_MS && d[hours].time == now)
      && (forall k :: 0 <= k < |d| - 1 ==> d[k + 1].time == d[k].time + HOUR_MS)
      && (forall k :: 0 <= k < |d| ==>
            62.0 <= d[k].heartRate <= 100.0 && 94.0 <= d[k].spo2 <= 100.0 &&
            36.0 <= d[k].temperature <= 37.6)
  {
    var d := HistoricalData(hours, now, rand);
    forall k | 0 <= k < |d|
      ensures 62.0 <= d[k].heartRate <= 100.0 && 94.0 <= d[k].spo2 <= 100.0
      ensures 36.0 <= d[k].temperature <= 37.6
    {
      assert Unit(rand(3 * k)) && Unit(rand(3 * k + 1)) && Unit(rand(3 * k + 2));
    }
  }

  // ---------------------------------------------------------------------
  // Alert derivation
  // ---------------------------------------------------------------------

  /** The fall text opens with a fixed phrase and names the patient and the room. */
  function FallMessage(name: string, room: string): (r: string)
    ensures IsPrefix("Fall detected for ", r)
    ensures Contains(r, name) && Contains(r, room)
  {
    var r := "Fall detected for " + name + " in Room " + room;
    assert r[18..18 + |name|] == name;
    OccurrenceContained(r, name, 18);
    assert r[27 + |name|..] == room;
    OccurrenceContained(r, room, 27 + |name|);
    r
  }

  /** The critical text opens with a fixed phrase and names the patient. */
  function CriticalMessage(name: string, hr: string, spo2: string): (r: string)
    ensures IsPrefix("Critical vitals detected for ", r)
    ensures Contains(r, name)
  {
    var r := "Critical vitals detected for " + name + " — HR: " + hr + ", SpO₂: " + spo2 + "%";
    assert r[29..29 + |name|] == name;
    OccurrenceContained(r, name, 29);
    r
  }

  /** The warning text opens with a fixed phrase and names the patient. */
  function WarningMessage(name: string, hr: string, spo2: string): (r: string)
    ensures IsPrefix("Abnormal vitals for ", r)
    ensures Contains(r, name)
  {
    var r := "Abnormal vitals for " + name + " — HR: " + hr + ", SpO₂: " + spo2 + "%";
    assert r[20..20 + |name|] == name;
    OccurrenceContained(r, name, 20);
    r
  }

  /** `new Date(x)` keeps the integer part of x, truncating toward zero. */
  function DateMs(x: real): (ms: int)
    ensures x >= 0.0 ==> ms as real <= x < ms as real + 1.0
    ensures x < 0.0 ==> ms as real - 1.0 < x <= ms as real
  {
    if x >= 0.0 then x.Floor else -((-x).Floor)
  }

  /**
   * The alert the `forEach` body pushes for the patient at position i, if any.
   * `ids(i)` is the random id and `jitter(i)` the draw that backdates it.
   */
  function AlertFor(p: Patient, id: string, jitter: real, now: int, showNumber: real -> string): (a: Option<Alert>)
    ensures a.Some? <==> p.status != Normal
    ensures a.Some? ==>
      a.value.level == p.status && a.value.patientId == p.id && a.value.patientName == p.name &&
      a.value.id == id && a.value.kind == (if p.status == Critical then "CRITICAL" else "WARNING")
  {
    match p.status
    case Critical =>
      Some(Alert(id, p.id, p.name, "CRITICAL",
        if p.vitals.motionStatus == FallDetected then FallMessage(p.name, p.room)
        else CriticalMessage(p.name, showNumber(p.vitals.heartRate), showNumber(p.vitals.spo2)),
        Critical, DateMs(now as real - jitter * 600000.0)))
    case Warning =>
      Some(Alert(id, p.id, p.name, "WARNING",
        WarningMessage(p.name, showNumber(p.vitals.heartRate), showNumber(p.vitals.spo2)),
        Warning, DateMs(now as real - jitter * 1200000.0)))
    case Normal => None
  }

  /** A critical alert carries the fall text exactly when the patient's motion is a fall. */
  lemma CriticalMessageNamesFall(p: Patient, id: string, jitter: real, now: int, showNumber: real -> string)
    requires p.status == Critical
    ensures AlertFor(p, id, jitter, now, showNumber).value.message == FallMessage(p.name, p.room) <==>
      p.vitals.motionStatus == FallDetected
  {
    var m := AlertFor(p, id, jitter, now, showNumber).value.message;
    if p.vitals.motionStatus != FallDetected {
      assert m[0] == 'C' && FallMessage(p.name, p.room)[0] == 'F';
    }
  }

  /** An alert's timestamp lies within the jitter window before `now`. */
  lemma AlertTimestampWindow(p: Patient, id: string, jitter: real, now: int, showNumber: real -> string)
    requires p.status != Normal && Unit(jitter)
    ensures var t := AlertFor(p, id, jitter, now, showNumber).value.timestamp;
      now - (if p.status == Critical then 600000 else 1200000) <= t <= now
  {
  }

  function OptionToSeq(a: Option<Alert>): (s: seq<Alert>)
    ensures |s| <= 1
  {
    if a.Some? then [a.value] else []
  }

  /** The alerts pushed for the patients in order, before sorting. */
  function CollectAlerts(ps: seq<Patient>, ids: nat -> string, jitter: nat -> real, now: int,
                         showNumber: real -> string): (r: seq<Alert>)
    ensures |r| <= |ps|
    ensures forall a :: a in r ==> a.level != Normal
    decreases |ps|
  {
    if |ps| == 0 then []
    else CollectAlerts(ps[..|ps| - 1], ids, jitter, now, showNumber) +
         OptionToSeq(AlertFor(ps[|ps| - 1], ids(|ps| - 1), jitter(|ps| - 1), now, showNumber))
  }

  function NonNormalCount(ps: seq<Patient>): (n: nat)
    ensures n <= |ps|
    decreases |ps|
  {
    if |ps| == 0 then 0
    else NonNormalCount(ps[..|ps| - 1]) + (if ps[|ps| - 1].status != Normal then 1 else 0)
  }

  /** One alert per non-normal patient, each from some patient, at its position's draws. */
  lemma {:induction false} CollectAlertsExact(ps: seq<Patient>, ids: nat -> string, jitter: nat -> real, now: int,
                                              showNumber: real -> string)
    ensures |CollectAlerts(ps, ids, jitter, now, showNumber)| == NonNormalCount(ps)
    ensures forall a :: a in CollectAlerts(ps, ids, jitter, now, showNumber) ==>
      exists i :: 0 <= i < |ps| && AlertFor(ps[i], ids(i), jitter(i), now, showNumber) == Some(a)
    ensures forall i :: 0 <= i < |ps| && ps[i].status != Normal ==>
      AlertFor(ps[i], ids(i), jitter(i), now, showNumber).value in CollectAlerts(ps, ids, jitter, now, showNumber)
    decreases |ps|
  {
    if |ps| > 0 {
      var init := ps[..|ps| - 1];
      CollectAlertsExact(init, ids, jitter, now, showNumber);
      var r := CollectAlerts(ps, ids, jitter, now, showNumber);
      var last := AlertFor(ps[|ps| - 1], ids(|ps| - 1), jitter(|ps| - 1), now, showNumber);
      assert r == CollectAlerts(init, ids, jitter, now, showNumber) + OptionToSeq(last);
      forall a | a in r
        ensures exists i :: 0 <= i < |ps| && AlertFor(ps[i], ids(i), jitter(i), now, showNumber) == Some(a)
      {
        if a in CollectAlerts(init, ids, jitter, now, showNumber) {
          var i :| 0 <= i < |init| && AlertFor(init[i], ids(i), jitter(i), now, showNumber) == Some(a);
          assert init[i] == ps[i];
        } else {
          assert last == Some(a);
        }
      }
      forall i | 0 <= i < |ps| && ps[i].status != Normal
        ensures AlertFor(ps[i], ids(i), jitter(i), now, showNumber).value in r
      {
        if i < |ps| - 1 {
          assert init[i] == ps[i];
        }
      }
    }
  }

  // The sort `alerts.sort((a, b) => b.timestamp - a.timestamp)`, as an insertion sort.

  ghost predicate NewestFirst(s: seq<Alert>) {
    forall j, k :: 0 <= j < k < |s| ==> s[j].timestamp >= s[k].timestamp
  }

  /** Insert before the first alert that is not newer than the new one. */
  function InsertNewestFirst(a: Alert, s: seq<Alert>): (r: seq<Alert>)
    ensures multiset(r) == multiset(s) + multiset{a}
    ensures |r| == |s| + 1
    ensures r[0] == a || (|s| > 0 && r[0] == s[0])
    decreases |s|
  {
    if |s| == 0 || s[0].timestamp <= a.timestamp then [a] + s
    else
      var rest := InsertNewestFirst(a, s[1..]);
      assert s == [s[0]] + s[1..];
      [s[0]] + rest
  }

  /** Inserting into a newest-first list keeps it newest first. */
  lemma {:induction false} InsertKeepsNewestFirst(a: Alert, s: seq<Alert>)
    requires NewestFirst(s)
    ensures NewestFirst(InsertNewestFirst(a, s))
    decreases |s|
  {
    if |s| > 0 && s[0].timestamp > a.timestamp {
      var rest := InsertNewestFirst(a, s[1..]);
      assert NewestFirst(s[1..]) by {
        forall j, k | 0 <= j < k < |s[1..]| ensures s[1..][j].timestamp >= s[1..][k].timestamp {
          assert s[1..][j] == s[j + 1] && s[1..][k] == s[k + 1];
        }
      }
      InsertKeepsNewestFirst(a, s[1..]);
      var r := [s[0]] + rest;
      assert rest[0].timestamp <= s[0].timestamp;
      forall j, k | 0 <= j < k < |r| ensures r[j].timestamp >= r[k].timestamp {
        if j == 0 {
          assert r[k] == rest[k - 1];
          if k - 1 > 0 {
            assert rest[0].timestamp >= rest[k - 1].timestamp;
          }
        } else {
          assert r[j] == rest[j - 1] && r[k] == rest[k - 1];
        }
      }
    }
  }

  function SortNewestFirst(s: seq<Alert>): (r: seq<Alert>)
    ensures multiset(r) == multiset(s)
    ensures |r| == |s|
    decreases |s|
  {
    if |s| == 0 then []
    else
      assert s == [s[0]] + s[1..];
      InsertNewestFirst(s[0], SortNewestFirst(s[1..]))
  }

  /** The sort returns the same alerts, newest first. */
  lemma {:induction false} SortIsNewestFirst(s: seq<Alert>)
    ensures NewestFirst(SortNewestFirst(s))
    ensures forall a :: a in SortNewestFirst(s) <==> a in s
    decreases |s|
  {
    var r := SortNewestFirst(s);
    if |s| > 0 {
      SortIsNewestFirst(s[1..]);
      InsertKeepsNewestFirst(s[0], SortNewestFirst(s[1..]));
    }
    forall a ensures a in r <==> a in s {
      assert a in r <==> a in multiset(r);
      assert a in s <==> a in multiset(s);
    }
  }

  /**
   * `generateAlerts`: push an alert for every critical or warning patient,
   * then sort newest first.
   */
  method GenerateAlerts(patients: seq<Patient>, ids: nat -> string, jitter: nat -> real, now: int,
                        showNumber: real -> string) returns (alerts: seq<Alert>)
    ensures alerts == SortNewestFirst(CollectAlerts(patients, ids, jitter, now, showNumber))
    ensures NewestFirst(alerts)
    ensures |alerts| == NonNormalCount(patients)
    ensures forall a :: a in alerts ==>
      exists i :: 0 <= i < |patients| && AlertFor(patients[i], ids(i), jitter(i), now, showNumber) == Some(a)
    ensures forall i :: 0 <= i < |patients| && patients[i].status != Normal ==>
      AlertFor(patients[i], ids(i), jitter(i), now, showNumber).value in alerts
  {
    var pushed: seq<Alert> := [];
    for i := 0 to |patients|
      invariant pushed == CollectAlerts(patients[..i], ids, jitter, now, showNumber)
    {
      var p := patients[i];
      CollectAlertsStep(patients, i, ids, jitter, now, showNumber);
      if p.status == Critical {
        pushed := pushed + [Alert(ids(i), p.id, p.name, "CRITICAL",
          if p.vitals.motionStatus == FallDetected then FallMessage(p.name, p.room)
          else CriticalMessage(p.name, showNumber(p.vitals.heartRate), showNumber(p.vitals.spo2)),
          Critical, DateMs(now as real - jitter(i) * 600000.0))];
      } else if p.status == Warning {
        pushed := pushed + [Alert(ids(i), p.id, p.name, "WARNING",
          WarningMessage(p.name, showNumber(p.vitals.heartRate), showNumber(p.vitals.spo2)),
          Warning, DateMs(now as real - jitter(i) * 1200000.0))];
      }
    }
    assert patients[..|patients|] == patients;
    CollectAlertsExact(patients, ids, jitter, now, showNumber);
    alerts := SortNewestFirst(pushed);
    SortIsNewestFirst(pushed);
  }

  lemma CollectAlertsStep(ps: seq<Patient>, i: nat, ids: nat -> string, jitter: nat -> real, now: int,
                          showNumber: real -> string)
    requires i < |ps|
    ensures CollectAlerts(ps[..i + 1], ids, jitter, now, showNumber) ==
      CollectAlerts(ps[..i], ids, jitter, now, showNumber) +
      OptionToSeq(AlertFor(ps[i], ids(i), jitter(i), now, showNumber))
  {
    assert ps[..i + 1][..i] == ps[..i];
  }

  // ---------------------------------------------------------------------
  // Demo accounts
  // ---------------------------------------------------------------------

  datatype Role = AdminRole | PatientRole

  function RoleName(r: Role): (s: string)
    ensures s == "admin" || s == "patient"
    ensures (s == "admin") <==> r == AdminRole
  {
    match r
    case AdminRole => "admin"
    case PatientRole => "patient"
  }

  datatype DemoUser = DemoUser(username: string, password: string, role: Role, name: string, patientId: Option<string>)

  const DEMO_USERS: seq<DemoUser> := [
    DemoUser("admin", "admin123", AdminRole, "Dr. Admin", None),
    DemoUser("patient", "patient123", PatientRole, "Rajesh Kumar", Some("P-001"))
  ]
}
