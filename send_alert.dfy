/**
 * The `send-alert` edge function as a state machine over an abstract store:
 * a table of alert rows and the audit log written through the audit RPC.
 * Everything the handler reads from the backend (the parsed body, the insert
 * result, the patient profile, the admin role rows and each admin's email)
 * is an input.
 */
module SendAlert {
  import opened Wrappers

  // ---------------------------------------------------------------------
  // Requests, lookups and responses
  // ---------------------------------------------------------------------

  datatype VitalsJson = VitalsJson(heartRate: Option<real>, spo2: Option<real>, temperature: Option<real>,
                                   motionStatus: Option<string>)

  /** `{}`, the value `vitals || {}` falls back to. */
  const EMPTY_VITALS: VitalsJson := VitalsJson(None, None, None, None)

  /** A parsed JSON body; a field is `None` when it is absent or null. */
  datatype Payload = Payload(patientId: Option<string>, message: Option<string>, level: Option<string>,
                             vitals: Option<VitalsJson>)

  /** `body` is `Err` with the parser's message when the body is not JSON. */
  datatype Request = Request(verb: string, body: Result<Payload>)

  datatype Profile = Profile(fullName: Option<string>, phoneNumber: Option<string>)

  /**
   * The backend's answers: the id of the inserted row or the insert error,
   * the patient's profile row, the admin role rows' user ids, and the email
   * the auth admin API gives for each user id (a missing key is a failed lookup).
   */
  datatype Lookups = Lookups(insert: Result<string>, profile: Option<Profile>,
                             adminRoles: Option<seq<string>>, emails: map<string, string>)

  datatype AlertRow = AlertRow(id: string, patientId: string, message: string, level: string)

  datatype AuditDetails =
    | EmailDetails(adminEmail: string, patientName: string, message: string, vitals: VitalsJson)
    | SmsDetails(phoneNumber: string, patientName: string, smsStatus: string)

  datatype AuditEntry = AuditEntry(userId: string, action: string, details: AuditDetails)

  datatype Body =
    | NoBody
    | ErrorBody(error: string)
    | SuccessBody(alertId: string, notifications: seq<string>, smsStatus: string)

  /** Every response carries the CORS headers; only the status and the JSON body differ. */
  datatype Response = Response(status: nat, body: Body)

  const MISSING_FIELDS: string := "Missing required fields: patient_id, message, level"
  const INSERT_FAILED: string := "Failed to insert alert: "
  const NO_PHONE: string := "no_phone_number"
  const SMS_NOT_CONFIGURED: string := "sms_provider_not_configured"
  const UNKNOWN_PATIENT: string := "Unknown Patient"

  /** JavaScript truthiness of an optional string. */
  predicate Truthy(s: Option<string>) {
    s.Some? && s.value != ""
  }

  // ---------------------------------------------------------------------
  // The pieces of a successful call
  // ---------------------------------------------------------------------

  function PatientName(profile: Option<Profile>): (n: string)
    ensures profile.None? || !Truthy(profile.value.fullName) ==> n == UNKNOWN_PATIENT
    ensures profile.Some? && Truthy(profile.value.fullName) ==> n == profile.value.fullName.value
  {
    if profile.Some? && Truthy(profile.value.fullName) then profile.value.fullName.value else UNKNOWN_PATIENT
  }

  /** The patient's phone number, absent when no profile row was found. */
  function PhoneNumber(profile: Option<Profile>): (r: Option<string>)
    ensures profile.None? ==> r.None?
    ensures profile.Some? ==> r == profile.value.phoneNumber
  {
    if profile.Some? then profile.value.phoneNumber else None
  }

  predicate HasEmail(uid: string, emails: map<string, string>) {
    uid in emails && emails[uid] != ""
  }

  /** The emails the loop finds, in admin order, skipping admins without one. */
  function EmailTargets(admins: seq<string>, emails: map<string, string>): (r: seq<string>)
    ensures |r| <= |admins|
    ensures forall e :: e in r ==> e != ""
  {
    if |admins| == 0 then []
    else
      var uid := admins[|admins| - 1];
      EmailTargets(admins[..|admins| - 1], emails) + (if HasEmail(uid, emails) then [emails[uid]] else [])
  }

  function CountWithEmail(admins: seq<string>, emails: map<string, string>): nat {
    if |admins| == 0 then 0
    else CountWithEmail(admins[..|admins| - 1], emails) + (if HasEmail(admins[|admins| - 1], emails) then 1 else 0)
  }

  /** One email per admin that has one, and each email comes from such an admin. */
  lemma {:induction false} EmailTargetsExact(admins: seq<string>, emails: map<string, string>)
    ensures |EmailTargets(admins, emails)| == CountWithEmail(admins, emails)
    ensures forall i :: 0 <= i < |admins| && HasEmail(admins[i], emails) ==> emails[admins[i]] in EmailTargets(admins, emails)
    ensures forall e :: e in EmailTargets(admins, emails) ==>
      exists i :: 0 <= i < |admins| && HasEmail(admins[i], emails) && emails[admins[i]] == e
  {
    if |admins| > 0 {
      var init := admins[..|admins| - 1];
      EmailTargetsExact(init, emails);
      assert forall i :: 0 <= i < |init| ==> init[i] == admins[i];
    }
  }

  /** Every admin without an email, or with an empty one, contributes nothing. */
  lemma NoEmailNoTargets(admins: seq<string>, emails: map<string, string>)
    requires forall i :: 0 <= i < |admins| ==> !HasEmail(admins[i], emails)
    ensures EmailTargets(admins, emails) == []
  {
    EmailTargetsExact(admins, emails);
  }

  /** The fixed parts of every audit entry of one call. */
  datatype Context = Context(patientId: string, level: string, message: string, patientName: string, vitals: VitalsJson)

  function EmailAudit(c: Context, email: string): AuditEntry {
    AuditEntry(c.patientId, "alert_email_" + c.level, EmailDetails(email, c.patientName, c.message, c.vitals))
  }

  function EmailNote(email: string): string {
    "Email queued for " + email
  }

  function EmailAudits(c: Context, targets: seq<string>): (r: seq<AuditEntry>)
    ensures |r| == |targets|
    ensures forall i :: 0 <= i < |targets| ==> r[i] == EmailAudit(c, targets[i])
  {
    seq(|targets|, i requires 0 <= i < |targets| => EmailAudit(c, targets[i]))
  }

  function EmailNotes(targets: seq<string>): (r: seq<string>)
    ensures |r| == |targets|
    ensures forall i :: 0 <= i < |targets| ==> r[i] == EmailNote(targets[i])
  {
    seq(|targets|, i requires 0 <= i < |targets| => EmailNote(targets[i]))
  }

  /** The emails of the admin role rows, if the query returned any. */
  function Targets(look: Lookups): seq<string> {
    if look.adminRoles.Some? && |look.adminRoles.value| > 0 then EmailTargets(look.adminRoles.value, look.emails)
    else []
  }

  /** The SMS branch is taken only for a critical alert to a patient with a phone number. */
  predicate SmsTaken(phone: Option<string>, level: string) {
    Truthy(phone) && level == "critical"
  }

  function SmsStatus(phone: Option<string>, level: string): (s: string)
    ensures s == SMS_NOT_CONFIGURED <==> SmsTaken(phone, level)
    ensures s == NO_PHONE <==> !SmsTaken(phone, level)
  {
    assert NO_PHONE[0] != SMS_NOT_CONFIGURED[0];
    if SmsTaken(phone, level) then SMS_NOT_CONFIGURED else NO_PHONE
  }

  /** At most one SMS audit, written for the patient only when the SMS branch is taken. */
  function SmsAudits(c: Context, phone: Option<string>): (r: seq<AuditEntry>)
    ensures |r| == 1 <==> SmsTaken(phone, c.level)
    ensures |r| <= 1
    ensures forall a :: a in r ==>
      a.userId == c.patientId && a.action == "alert_sms_" + c.level &&
      a.details.SmsDetails? && a.details.smsStatus == SMS_NOT_CONFIGURED && a.details.phoneNumber == phone.value
  {
    if SmsTaken(phone, c.level) then
      [AuditEntry(c.patientId, "alert_sms_" + c.level, SmsDetails(phone.value, c.patientName, SMS_NOT_CONFIGURED))]
    else []
  }

  function SmsNotes(phone: Option<string>, level: string): seq<string> {
    if SmsTaken(phone, level) then ["SMS queued for " + phone.value + " (provider not configured)"] else []
  }

  // ---------------------------------------------------------------------
  // The whole handler as a function of its inputs
  // ---------------------------------------------------------------------

  /** What one call returns and appends to each table. */
  datatype Effect = Effect(response: Response, rows: seq<AlertRow>, audits: seq<AuditEntry>)

  predicate Valid(p: Payload) {
    Truthy(p.patientId) && Truthy(p.message) && Truthy(p.level)
  }

  function ContextFor(p: Payload, look: Lookups): Context
    requires Valid(p)
  {
    Context(p.patientId.value, p.level.value, p.message.value, PatientName(look.profile),
            if p.vitals.Some? then p.vitals.value else EMPTY_VITALS)
  }

  /**
   * The status is 200, 400 or 500; a status other than 200 writes nothing,
   * and a 200 is a pre-flight or a call that inserted exactly one row.
   */
  function HandleSpec(req: Request, look: Lookups): (e: Effect)
    ensures e.response.status in {200, 400, 500}
    ensures |e.rows| <= 1
    ensures e.response.status != 200 ==> e.rows == [] && e.audits == []
    ensures e.response.status == 200 <==> req.verb == "OPTIONS" || |e.rows| == 1
    ensures e.response.status == 400 <==> req.verb != "OPTIONS" && req.body.Ok? && !Valid(req.body.value)
  {
    if req.verb == "OPTIONS" then Effect(Response(200, NoBody), [], [])
    else if req.body.Err? then Effect(Response(500, ErrorBody(req.body.error)), [], [])
    else if !Valid(req.body.value) then Effect(Response(400, ErrorBody(MISSING_FIELDS)), [], [])
    else if look.insert.Err? then Effect(Response(500, ErrorBody(INSERT_FAILED + look.insert.error)), [], [])
    else
      var p := req.body.value;
      var c := ContextFor(p, look);
      var phone := PhoneNumber(look.profile);
      var t := Targets(look);
      Effect(Response(200, SuccessBody(look.insert.value, EmailNotes(t) + SmsNotes(phone, c.level), SmsStatus(phone, c.level))),
             [AlertRow(look.insert.value, c.patientId, c.message, c.level)],
             EmailAudits(c, t) + SmsAudits(c, phone))
  }

  /** A pre-flight request answers with the CORS headers alone and writes nothing. */
  lemma OptionsWritesNothing(req: Request, look: Lookups)
    requires req.verb == "OPTIONS"
    ensures HandleSpec(req, look) == Effect(Response(200, NoBody), [], [])
  {
  }

  /** Every call that writes anything is one that inserted its alert row first. */
  lemma WritesOnlyAfterInsert(req: Request, look: Lookups)
    ensures var e := HandleSpec(req, look);
      (|e.rows| > 0 || |e.audits| > 0) ==>
        req.verb != "OPTIONS" && req.body.Ok? && Valid(req.body.value) && look.insert.Ok? && |e.rows| == 1
  {
  }

  /** A body without a truthy patient id, message or level is refused with 400 and writes nothing. */
  lemma MissingFieldRejected(req: Request, look: Lookups)
    requires req.verb != "OPTIONS" && req.body.Ok?
    requires !Truthy(req.body.value.patientId) || !Truthy(req.body.value.message) || !Truthy(req.body.value.level)
    ensures HandleSpec(req, look) == Effect(Response(400, ErrorBody(MISSING_FIELDS)), [], [])
  {
  }

  /** A failed insert is reported with 500 and its message; no audit entry or notification follows. */
  lemma InsertFailureReported(req: Request, look: Lookups)
    requires req.verb != "OPTIONS" && req.body.Ok? && Valid(req.body.value) && look.insert.Err?
    ensures var e := HandleSpec(req, look);
      e.response == Response(500, ErrorBody(INSERT_FAILED + look.insert.error)) && e.rows == [] && e.audits == []
  {
  }

  /**
   * A successful call inserts exactly one row, writes one email audit per
   * admin with an email and at most one SMS audit, and lists the email
   * notifications before the SMS one.
   */
  lemma SuccessfulCall(req: Request, look: Lookups)
    requires req.verb != "OPTIONS" && req.body.Ok? && Valid(req.body.value) && look.insert.Ok?
    ensures var e := HandleSpec(req, look); var p := req.body.value;
      e.response.status == 200 && e.response.body.SuccessBody? &&
      e.response.body.alertId == look.insert.value &&
      e.rows == [AlertRow(look.insert.value, p.patientId.value, p.message.value, p.level.value)]
    ensures var e := HandleSpec(req, look); var level := req.body.value.level.value;
      var phone := PhoneNumber(look.profile); var sms := if SmsTaken(phone, level) then 1 else 0;
      |e.audits| == |Targets(look)| + sms &&
      |e.response.body.notifications| == |Targets(look)| + sms &&
      e.response.body.notifications[..|Targets(look)|] == EmailNotes(Targets(look))
    ensures var e := HandleSpec(req, look); var level := req.body.value.level.value;
      look.adminRoles.Some? ==> |Targets(look)| == CountWithEmail(look.adminRoles.value, look.emails)
    ensures var e := HandleSpec(req, look);
      forall i :: 0 <= i < |Targets(look)| ==>
        e.audits[i].action == "alert_email_" + req.body.value.level.value &&
        e.audits[i].userId == req.body.value.patientId.value
  {
    if look.adminRoles.Some? {
      EmailTargetsExact(look.adminRoles.value, look.emails);
    }
  }

  /** Only a critical alert to a patient with a phone number writes an SMS audit; a warning never does. */
  lemma SmsOnlyForCritical(req: Request, look: Lookups)
    requires req.verb != "OPTIONS" && req.body.Ok? && Valid(req.body.value) && look.insert.Ok?
    ensures var e := HandleSpec(req, look); var level := req.body.value.level.value;
      var phone := PhoneNumber(look.profile);
      (e.response.body.smsStatus == SMS_NOT_CONFIGURED <==> Truthy(phone) && level == "critical") &&
      (level == "warning" ==> (e.response.body.smsStatus == NO_PHONE &&
        forall a :: a in e.audits ==> a.action == "alert_email_warning"))
  {
  }

  /** The success branch of the specification, spelled out for one valid call. */
  lemma SuccessEffect(req: Request, look: Lookups, c: Context, phone: Option<string>)
    requires req.verb != "OPTIONS" && req.body.Ok? && Valid(req.body.value) && look.insert.Ok?
    requires c == ContextFor(req.body.value, look) && phone == PhoneNumber(look.profile)
    ensures HandleSpec(req, look) ==
      Effect(Response(200, SuccessBody(look.insert.value, EmailNotes(Targets(look)) + SmsNotes(phone, c.level),
                                       SmsStatus(phone, c.level))),
             [AlertRow(look.insert.value, c.patientId, c.message, c.level)],
             EmailAudits(c, Targets(look)) + SmsAudits(c, phone))
  {
  }

  // ---------------------------------------------------------------------
  // The handler over a store
  // ---------------------------------------------------------------------

  class AlertBackend {
    var alerts: seq<AlertRow>
    var auditLog: seq<AuditEntry>

    constructor ()
      ensures alerts == [] && auditLog == []
    {
      alerts := [];
      auditLog := [];
    }

    /** One request; the store only grows, by what the handler specification says. */
    method Handle(req: Request, look: Lookups) returns (resp: Response)
      modifies this
      ensures resp == HandleSpec(req, look).response
      ensures alerts == old(alerts) + HandleSpec(req, look).rows
      ensures auditLog == old(auditLog) + HandleSpec(req, look).audits
    {
      if req.verb == "OPTIONS" {
        return Response(200, NoBody);
      }
      if req.body.Err? {
        return Response(500, ErrorBody(req.body.error));
      }
      var p := req.body.value;
      if !Truthy(p.patientId) || !Truthy(p.message) || !Truthy(p.level) {
        return Response(400, ErrorBody(MISSING_FIELDS));
      }
      if look.insert.Err? {
        return Response(500, ErrorBody(INSERT_FAILED + look.insert.error));
      }
      var patientId, message, level := p.patientId.value, p.message.value, p.level.value;
      var row := AlertRow(look.insert.value, patientId, message, level);
      alerts := alerts + [row];

      var patientName := PatientName(look.profile);
      var phoneNumber := PhoneNumber(look.profile);
      var vitals := if p.vitals.Some? then p.vitals.value else EMPTY_VITALS;
      var c := Context(patientId, level, message, patientName, vitals);
      var notifications: seq<string> := [];
      if look.adminRoles.Some? && |look.adminRoles.value| > 0 {
        notifications := NotifyAdmins(look.adminRoles.value, look.emails, c);
      }
      assert notifications == EmailNotes(Targets(look));
      assert auditLog == old(auditLog) + EmailAudits(c, Targets(look));

      var smsStatus := NO_PHONE;
      if phoneNumber.Some? && phoneNumber.value != "" && level == "critical" {
        smsStatus := SMS_NOT_CONFIGURED;
        notifications := notifications + ["SMS queued for " + phoneNumber.value + " (provider not configured)"];
        auditLog := auditLog + [AuditEntry(patientId, "alert_sms_" + level,
                                           SmsDetails(phoneNumber.value, patientName, smsStatus))];
      }
      assert smsStatus == SmsStatus(phoneNumber, level);
      assert notifications == EmailNotes(Targets(look)) + SmsNotes(phoneNumber, level);
      assert auditLog == old(auditLog) + EmailAudits(c, Targets(look)) + SmsAudits(c, phoneNumber);
      SuccessEffect(req, look, c, phoneNumber);
      resp := Response(200, SuccessBody(look.insert.value, notifications, smsStatus));
    }

    /** The loop over the admin role rows: one email audit and one note per admin with an email. */
    method NotifyAdmins(admins: seq<string>, emails: map<string, string>, c: Context) returns (notifications: seq<string>)
      modifies this
      ensures alerts == old(alerts)
      ensures notifications == EmailNotes(EmailTargets(admins, emails))
      ensures auditLog == old(auditLog) + EmailAudits(c, EmailTargets(admins, emails))
    {
      notifications := [];
      for k := 0 to |admins|
        invariant alerts == old(alerts)
        invariant notifications == EmailNotes(EmailTargets(admins[..k], emails))
        invariant auditLog == old(auditLog) + EmailAudits(c, EmailTargets(admins[..k], emails))
      {
        var uid := admins[k];
        assert admins[..k + 1][..k] == admins[..k];
        if uid in emails && emails[uid] != "" {
          var email := emails[uid];
          notifications := notifications + ["Email queued for " + email];
          auditLog := auditLog + [AuditEntry(c.patientId, "alert_email_" + c.level,
                                             EmailDetails(email, c.patientName, c.message, c.vitals))];
        }
      }
      assert admins[..|admins|] == admins;
    }
  }

  /** The handler is not idempotent: sending the same valid alert twice stores two rows. */
  method SendTwice(b: AlertBackend, req: Request, look: Lookups) returns (first: Response, second: Response)
    requires req.verb != "OPTIONS" && req.body.Ok? && Valid(req.body.value) && look.insert.Ok?
    modifies b
    ensures |b.alerts| == |old(b.alerts)| + 2
    ensures b.alerts[|b.alerts| - 1] == b.alerts[|b.alerts| - 2]
  {
    first := b.Handle(req, look);
    second := b.Handle(req, look);
  }
}
