/** The admin's per-patient page: the profile fetch, the live reading, and what the page shows. */
module AdminPatientDetail {
  import opened Wrappers
  import M = MockData
  import VS = VitalsService
  import PD = PatientDashboard

  datatype Profile = Profile(id: string, fullName: string, status: string, createdAt: string,
                             lastSeen: Option<string>, phoneNumber: Option<string>)

  /** What the page renders. */
  datatype Screen = Loading | NotFound | Detail(profile: Profile, status: M.Status, cards: PD.Cards)

  /** The page's decision, with the card ternaries written out as this page writes them. */
  function ScreenFor(loading: bool, patient: Option<Profile>, v: M.VitalSigns): (s: Screen)
    ensures s == Loading <==> loading
    ensures s == NotFound <==> !loading && patient.None?
    ensures s.Detail? ==> s.profile == patient.value && s.status == VS.ClassifyStatus(v)
    ensures s.Detail? ==> s.cards == PD.CardStatuses(v)
  {
    if loading then Loading
    else if patient.None? then NotFound
    else
      var hr := if v.heartRate < 60.0 || v.heartRate > 100.0 then
          (if v.heartRate < 50.0 || v.heartRate > 120.0 then M.Critical else M.Warning)
        else M.Normal;
      var spo2 := if v.spo2 < 90.0 then M.Critical else if v.spo2 < 95.0 then M.Warning else M.Normal;
      var temp := if v.temperature > 38.5 then M.Critical else if v.temperature > 37.5 then M.Warning else M.Normal;
      var motion := if v.motionStatus == M.FallDetected then M.Critical else M.Normal;
      Detail(patient.value, VS.ClassifyStatus(v), PD.Cards(hr, spo2, temp, motion))
  }

  /** On the detail screen the badge is critical exactly when some card is. */
  lemma DetailBadgeCriticalIffSomeCard(loading: bool, patient: Option<Profile>, v: M.VitalSigns)
    requires ScreenFor(loading, patient, v).Detail?
    ensures var s := ScreenFor(loading, patient, v);
      s.status == M.Critical <==> PD.SomeCardIs(s.cards, M.Critical)
  {
    PD.CardsAgreeWithOverall(v);
  }

  /** `!id` for the optional route parameter. */
  predicate Falsy(id: Option<string>) {
    id.None? || id.value == ""
  }

  class PatientDetail {
    var loading: bool
    var patient: Option<Profile>
    var vitals: M.VitalSigns

    constructor (initial: M.VitalSigns)
      ensures loading && patient == None && vitals == initial
    {
      loading := true;
      patient := None;
      vitals := initial;
    }

    function Screen(): (s: Screen)
      reads this
      ensures s == ScreenFor(loading, patient, vitals)
    {
      ScreenFor(loading, patient, vitals)
    }

    /**
     * The fetch effect for route parameter `id`; `fetched` is the row the
     * profile query returns, if any. Without an id nothing is fetched and
     * the page keeps loading.
     */
    method FetchEffect(id: Option<string>, fetched: Option<Profile>)
      modifies this
      ensures vitals == old(vitals)
      ensures Falsy(id) ==> loading == old(loading) && patient == old(patient)
      ensures !Falsy(id) ==> !loading
      ensures !Falsy(id) && fetched.Some? ==> patient == fetched
      ensures !Falsy(id) && fetched.None? ==> patient == old(patient)
    {
      if Falsy(id) {
        return;
      }
      if fetched.Some? {
        patient := fetched;
      }
      loading := false;
    }

    /** The vitals subscription callback. */
    method OnVitals(newVitals: M.VitalSigns)
      modifies this
      ensures vitals == newVitals && loading == old(loading) && patient == old(patient)
    {
      vitals := newVitals;
    }
  }

  /** Mounted without an id, the page never leaves the loading screen; with one, it never shows it again. */
  method MountScreens(id: Option<string>, fetched: Option<Profile>, initial: M.VitalSigns) returns (s: Screen)
    ensures Falsy(id) ==> s == Loading
    ensures !Falsy(id) && fetched.None? ==> s == NotFound
    ensures !Falsy(id) && fetched.Some? ==> s.Detail? && s.profile == fetched.value && s.status == VS.ClassifyStatus(initial)
  {
    var page := new PatientDetail(initial);
    page.FetchEffect(id, fetched);
    s := page.Screen();
  }
}
