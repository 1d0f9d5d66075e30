# VitalSync patient-monitoring rules in Dafny

This project models the decision logic of VitalSync (vital-watch-pro). VitalSync is a React front end plus one Supabase edge function. It shows live vital signs from a simulated sensor rig and flags readings that cross clinical thresholds. It raises alerts to administrators and gates its pages behind a demo login. The Dafny model covers the following:

- **MockData** (`mock_data.dfy`). This module holds:
  - the reading, patient and alert records, and the threshold table;
  - the three-way threshold classifier;
  - the synthetic generators: tenth-rounded random ranges, the 45-sample ECG template and its noisy tiling, readings on a normal or an abnormal branch, the eight-bed roster and the hourly trend;
  - the derivation of admin alerts, sorted newest first;
  - the demo accounts.

  Every `Math.random()` draw is an input real, and the lemmas assume it lies in [0, 1). `Math.sin(x·π)` is the parameter `sinPi`. JavaScript's number-to-text conversion is `showNumber`. Clock readings are integer milliseconds (`now`).
- **VitalsService** (`vitals_service.dfy`). This is the service layer's own threshold table and classifier, proved equal to the library's. Its five generator functions are the library's code apart from comments, so they are modelled once, in MockData:
  - `generateECGCycle`: `src/services/vitalsService.ts:56-65` against `src/lib/mockData.ts:56-71`;
  - `generateECGData`: lines 67-77 against 73-83;
  - `randomInRange`: lines 79-81 against 85-87;
  - `generateVitals`: lines 89-101 against 89-101;
  - `generateHistoricalData`: lines 103-116 against 130-143.

  The library's file also holds the patient roster and `generatePatients` (`src/lib/mockData.ts:103-127`), which the service does not repeat.
- **PatientDashboard** (`patient_dashboard.dfy`). This covers the four per-vital card rules, how they relate to the overall badge, and the live alert buffer. The buffer is a class whose subscription callback replaces the reading and prepends an alert, capping the list at ten.
- **AdminDashboard** (`admin_dashboard.dfy`). This is the search/status filter and the four summary counts.
- **AuthContext**, **ProtectedRoute** and **Login** (`auth_context.dfy`, `protected_route.dfy`, `login.dfy`). These cover the demo login/logout state, the three-way route guard, and the sign-in page's navigation.
- **Signup** and **ResetPassword** (`signup.dfy`, `reset_password.dfy`). These are the password guards and the submit handlers' state changes. The external sign-up and password-update calls are inputs (their reported error) and outputs (the request made).
- **AdminPatientDetail** (`admin_patient_detail.dfy`). This covers the profile-fetch effect, the loading / not-found / detail decision, and the page's own copy of the card rules.
- **SendAlert** (`send_alert.dfy`). This is the `send-alert` edge function, modelled as a state machine over an abstract store with an alert table and an audit log.
  - Its whole behaviour is the function `HandleSpec`, which gives the response and what is appended to each table.
  - The imperative handler `AlertBackend.Handle` (validation, insert, the email-audit loop in `NotifyAdmins`, the SMS branch) is proved to match it.
  - The backend's answers are inputs: the parsed body, the insert result, the profile row, the admin role rows, and each admin's email.
- **Text** and **Wrappers** (`text.dfy`, `wrappers.dfy`). These are string helpers (ASCII lower-casing, substring search, decimal rendering, left padding) and the Option/Result types.

## Model

| member | source | states |
|---|---|---|
| MockData.ClassifyStatus | src/lib/mockData.ts:34-54 | critical exactly on a fall, HR < 50, HR > 120, SpO₂ < 90 or temp > 38.5; normal exactly when there is no fall and 60 ≤ HR ≤ 100, SpO₂ ≥ 95, 36.1 ≤ temp ≤ 37.5 |
| MockData.ThresholdsNest | src/lib/mockData.ts:34-38 | in the threshold table each critical bound lies outside the warning band it encloses: 50 < 60 < 100 < 120, 90 < 95, 36.1 < 37.5 < 38.5 |
| MockData.FallIsCritical | src/lib/mockData.ts:42-47 | a fall is critical whatever the other vitals are |
| MockData.CriticalBoundWins | src/lib/mockData.ts:42-52 | any critical bound gives critical even when a warning bound also holds |
| MockData.WarningBand | src/lib/mockData.ts:48-52 | warning iff no critical condition holds and some vital is outside its normal band |
| MockData.ClassifyIgnoresWaveformAndTime | src/lib/mockData.ts:40-41 | only heart rate, SpO₂, temperature and motion decide the class |
| MockData.HeartRateBoundaries | src/lib/mockData.ts:44-49 | strict comparisons: HR 49.9 critical, 50 and 59.9 warning, 60 and 100 normal, 120 warning |
| MockData.RoundHalfUp | src/lib/mockData.ts:86 | `Math.round` gives the integer within half a unit, halves rounding up |
| MockData.Lerp | src/lib/mockData.ts:86 | `min + r·(max − min)` lies in [min, max] for a draw r in [0, 1) |
| MockData.RandomInRange | src/lib/mockData.ts:85-87 | the result is always a multiple of 0.1; for a draw in [0, 1) it lies within 0.05 of [min, max], and inside [min, max] when both bounds are multiples of 0.1 |
| MockData.EcgCycle | src/lib/mockData.ts:56-71 | the template has 8 + 4 + 5 + 6 + 10 + 12 = 45 samples |
| MockData.EcgCycleLayout | src/lib/mockData.ts:58-69 | segment by segment: P wave, zero PR segment, the literal QRS with 1.0 at index 14, 0.02 ST segment, T wave, zero baseline; with a sine bounded by 1 the QRS peak is the largest sample |
| MockData.GenerateECGCycle | src/lib/mockData.ts:56-71 | the push loops build exactly the template |
| MockData.NoiseBounds | src/lib/mockData.ts:78 | the added noise lies in [−0.015, 0.015) |
| MockData.EcgData | src/lib/mockData.ts:73-83 | the waveform has max(points, 0) samples |
| MockData.EcgDataNearTemplate | src/lib/mockData.ts:76-80 | sample i is within 0.015 of template sample i mod 45 |
| MockData.GenerateECGData | src/lib/mockData.ts:73-83 | the while/for tiling loop with its early break yields exactly max(points, 0) samples, sample i being template[i mod 45] plus the i-th draw's noise |
| MockData.GenerateVitals | src/lib/mockData.ts:89-101 | the reading is stamped `now` and carries a 200-sample waveform |
| MockData.NormalBranchRanges | src/lib/mockData.ts:92-97 | off the abnormal branch: HR in [62, 98], SpO₂ in [95, 100], temp in [36.2, 37.4], no fall |
| MockData.NormalBranchIsNormal | src/lib/mockData.ts:89-101 | an unbiased reading (or a biased one off the abnormal branch) is always classified normal |
| MockData.AbnormalBranchIsNotNormal | src/lib/mockData.ts:90-96 | an abnormal-branch reading has temp ≥ 37.8 and is never classified normal |
| MockData.FallOnlyOnAbnormalBranch | src/lib/mockData.ts:90-97 | a fall is generated iff the abnormal branch is taken and the fall draw is below 0.1 |
| MockData.MakePatient | src/lib/mockData.ts:115-126 | the i-th patient has id `P-` + 3-digit i+1, room 100+i+1, the roster's name/age/gender, vitals biased iff i mod 3 = 0, and status = classification of its vitals |
| MockData.GeneratePatients | src/lib/mockData.ts:114-127 | eight patients, each built from its roster entry and position as above |
| MockData.PatientIdsAndRooms | src/lib/mockData.ts:118-122 | the ids are P-001 … P-008 and the rooms 101 … 108 |
| MockData.UnbiasedPatientsAreNormal | src/lib/mockData.ts:116-125 | the patients at indices 1, 2, 4, 5, 7 are always normal |
| MockData.HistoricalData | src/lib/mockData.ts:130-143 | the trend has max(hours + 1, 0) points |
| MockData.HistoryPointAt | src/lib/mockData.ts:133-140 | the point pushed when the countdown reads hours − k is stamped (hours − k) hours before `now`; for draws in [0, 1) HR is in [62, 100], SpO₂ in [94, 100], temp in [36.0, 37.6] |
| MockData.GenerateHistoricalData | src/lib/mockData.ts:130-143 | the countdown loop pushes exactly the specified points, oldest first |
| MockData.HistoricalDataShape | src/lib/mockData.ts:133-140 | hours + 1 points, the first `hours` hours ago, the last at `now`, one hour apart; HR in [62, 100], SpO₂ in [94, 100], temp in [36.0, 37.6] |
| MockData.DateMs | src/lib/mockData.ts:158-168 | `new Date(x)` keeps x truncated toward zero |
| MockData.FallMessage | src/lib/mockData.ts:155 | the fall text starts "Fall detected for " and contains the patient's name and room |
| MockData.CriticalMessage | src/lib/mockData.ts:156 | the critical text starts "Critical vitals detected for " and contains the patient's name |
| MockData.WarningMessage | src/lib/mockData.ts:166 | the warning text starts "Abnormal vitals for " and contains the patient's name |
| MockData.AlertFor | src/lib/mockData.ts:147-170 | a patient yields an alert iff not normal; its level is the status, type CRITICAL/WARNING to match, and it carries the patient's id and name |
| MockData.CriticalMessageNamesFall | src/lib/mockData.ts:154-156 | a critical alert uses the fall text exactly when motion is fall_detected |
| MockData.AlertTimestampWindow | src/lib/mockData.ts:158-168 | a critical alert is backdated by at most 10 minutes, a warning by at most 20 |
| MockData.CollectAlerts | src/lib/mockData.ts:146-171 | the pushed list never holds a normal-level alert and is no longer than the roster |
| MockData.CollectAlertsExact | src/lib/mockData.ts:147-171 | exactly one alert per non-normal patient: the count matches, every alert comes from some patient, every non-normal patient's alert is present |
| MockData.InsertNewestFirst | src/lib/mockData.ts:172 | insertion adds exactly the new alert (as a multiset) |
| MockData.InsertKeepsNewestFirst | src/lib/mockData.ts:172 | inserting into a newest-first list keeps it newest first |
| MockData.SortNewestFirst | src/lib/mockData.ts:172 | the sort is a permutation of its input |
| MockData.SortIsNewestFirst | src/lib/mockData.ts:172 | the sorted alerts are in non-increasing timestamp order and are the same alerts |
| MockData.GenerateAlerts | src/lib/mockData.ts:145-173 | `generateAlerts` returns the sorted pushed list: newest first, one alert per non-normal patient, none for normal ones |
| MockData.RoleName | src/lib/mockData.ts:177-178 | a role prints as "admin" or "patient", "admin" exactly for the admin role |
| VitalsService.ClassifyStatus | src/services/vitalsService.ts:37-51 | the service's classifier agrees with the library's on every reading |
| VitalsService.SameThresholds | src/services/vitalsService.ts:31-35 | the service's threshold table equals the library's |
| VitalsService.ClassificationPrecedence | src/services/vitalsService.ts:39-50 | fall or a critical bound gives critical; otherwise an out-of-band value gives warning |
| VitalsService.UnbiasedReadingIsNormal | src/services/vitalsService.ts:89-101 | `generateVitals(false)` always classifies normal |
| VitalsService.BiasedReadingFall | src/services/vitalsService.ts:90-97 | `generateVitals(true)` reports a fall only on the abnormal branch; that branch is never normal and the other branch always is |
| Text.ToLower | src/pages/AdminDashboard.tsx:34 | lower-casing keeps the length and maps each character (ASCII A–Z shifted) |
| Text.Contains | src/pages/AdminDashboard.tsx:34 | `includes`: a prefix is included; an included needle is no longer than the haystack, and one of equal length is the haystack itself |
| Text.ContainsIffOccurrence | src/pages/AdminDashboard.tsx:34 | `includes` holds iff the needle occurs at some index |
| Text.ContainsEmpty | src/pages/AdminDashboard.tsx:34 | every string includes the empty string |
| Text.NatToString | src/lib/mockData.ts:118-122 | decimal rendering: a non-empty digit string whose decimal value is n, with no leading zero for n > 0, one digit exactly below 10 |
| Text.PadStart | src/lib/mockData.ts:118 | `padStart` fills on the left up to the width and keeps the string as a suffix |
| PatientDashboard.HeartRateCard | src/pages/PatientDashboard.tsx:75 | critical iff HR < 50 or > 120; warning iff 50 ≤ HR < 60 or 100 < HR ≤ 120 |
| PatientDashboard.Spo2Card | src/pages/PatientDashboard.tsx:78 | critical iff SpO₂ < 90; warning iff 90 ≤ SpO₂ < 95 |
| PatientDashboard.TemperatureCard | src/pages/PatientDashboard.tsx:81 | critical iff temp > 38.5; warning iff 37.5 < temp ≤ 38.5; no low-temperature warning |
| PatientDashboard.MotionCard | src/pages/PatientDashboard.tsx:84 | critical iff fall_detected; never warning |
| PatientDashboard.CardsAgreeWithOverall | src/pages/PatientDashboard.tsx:46-84 | no card is more severe than the badge; the badge is critical iff some card is |
| PatientDashboard.SilentWarningMeansLowTemperature | src/pages/PatientDashboard.tsx:46-84 | a warning badge with no warning card can only come from a temperature below 36.1 |
| PatientDashboard.LowTemperatureWarnsSilently | src/pages/PatientDashboard.tsx:46-81 | temp 36.0 with otherwise normal vitals gives a warning badge while all four cards are normal |
| PatientDashboard.OrElse | src/pages/PatientDashboard.tsx:33-34 | `x \|\| fallback` for an optional string |
| PatientDashboard.LiveAlert | src/pages/PatientDashboard.tsx:31-38 | the alert's level is the status, type CRITICAL/WARNING and message prefix Critical/Abnormal to match; patient id falls back to '' and name to 'Patient' |
| PatientDashboard.PushAlert | src/pages/PatientDashboard.tsx:31-39 | the new alert first, then the first min(9, \|prev\|) old ones; length min(\|prev\| + 1, 10) |
| PatientDashboard.Dashboard.constructor | src/pages/PatientDashboard.tsx:20-22 | starts from the initial reading with no alerts |
| PatientDashboard.Dashboard.Status | src/pages/PatientDashboard.tsx:46 | the badge equals the classification of the current reading |
| PatientDashboard.Dashboard.OnVitals | src/pages/PatientDashboard.tsx:27-40 | the reading is always replaced; an alert is pushed iff the new reading is not normal; the buffer stays at most 10 long |
| AdminDashboard.StatusName | src/pages/AdminDashboard.tsx:35 | the status strings the selector compares against; none of them is "all" |
| AdminDashboard.Filtered | src/pages/AdminDashboard.tsx:32-38 | an order-preserving subsequence of the roster holding exactly the patients that match both the search and the status selector |
| AdminDashboard.FilteredMultiplicity | src/pages/AdminDashboard.tsx:32-38 | a patient that passes both tests appears in the filtered list as many times as in the roster; one that fails appears zero times |
| AdminDashboard.FilteredMatches | src/pages/AdminDashboard.tsx:34-35 | each kept patient matches by case-insensitive name or by id, and has the selected status unless "all" is selected |
| AdminDashboard.EmptySearchKeepsAll | src/pages/AdminDashboard.tsx:34-35 | an empty search with "all" returns the roster unchanged |
| AdminDashboard.CountStatus | src/pages/AdminDashboard.tsx:42-44 | a status count never exceeds the roster size |
| AdminDashboard.ComputeStats | src/pages/AdminDashboard.tsx:40-45 | total is the roster size and each count is that status's count |
| AdminDashboard.StatsAddUp | src/pages/AdminDashboard.tsx:40-45 | normal + warning + critical = total |
| AdminDashboard.CountMatchesFilter | src/pages/AdminDashboard.tsx:32-45 | each status count equals the length of the list shown for that status with an empty search |
| AuthContext.FindDemoUser | src/contexts/AuthContext.tsx:24 | finds an entry iff some entry matches both username and password exactly, and returns the first such entry |
| AuthContext.ToUser | src/contexts/AuthContext.tsx:26 | the stored user copies username, role, name and patientId |
| AuthContext.DemoCredentials | src/lib/mockData.ts:176-179 | admin/admin123 logs in as admin; patient/patient123 logs in as patient with patientId P-001; crossed credentials fail |
| AuthContext.DemoRoleFollowsUsername | src/lib/mockData.ts:176-179 | in the demo roster a matched entry has the admin role iff its username is "admin" |
| AuthContext.AuthProvider.constructor | src/contexts/AuthContext.tsx:21 | no one is signed in at first |
| AuthContext.AuthProvider.IsAuthenticated | src/contexts/AuthContext.tsx:35 | true iff a user is set |
| AuthContext.AuthProvider.Login | src/contexts/AuthContext.tsx:23-30 | returns true iff some demo entry matches; on success the matched entry becomes the user, on failure the user is unchanged |
| AuthContext.AuthProvider.Logout | src/contexts/AuthContext.tsx:32 | clears the user, so nobody is authenticated |
| ProtectedRoute.Guard | src/components/ProtectedRoute.tsx:9-14 | redirect to /login iff signed out; render iff signed in with the required role; otherwise redirect to /{role} |
| ProtectedRoute.SignedOutNeverReachesRoleRoute | src/components/ProtectedRoute.tsx:11-12 | authentication is checked first, so a signed-out visitor is never sent to a role route |
| ProtectedRoute.RedirectSettles | src/components/ProtectedRoute.tsx:12-13 | a role redirect lands on a route the same user is allowed to see |
| Login.LandingPath | src/pages/Login.tsx:22-23 | /admin iff the typed username is "admin", /patient otherwise |
| Login.DemoCredentials | src/pages/Login.tsx:30 | each demo button submits the username spelled as its role |
| Login.LandingMatchesRole | src/pages/Login.tsx:20-23 | after a successful demo login the landing route is the user's own role route, which the guard opens |
| Login.DemoLoginsSucceed | src/pages/Login.tsx:29-31 | both demo buttons submit accepted credentials with the button's role |
| Login.LoginPage.constructor | src/pages/Login.tsx:13 | the error starts empty |
| Login.LoginPage.HandleSubmit | src/pages/Login.tsx:17-27 | on success: error cleared, user set, navigation to the landing route; on failure: 'Invalid credentials', no navigation, user unchanged |
| Login.LoginPage.HandleDemoLogin | src/pages/Login.tsx:29-33 | navigates to /{role} only if the login succeeds, which it always does |
| Signup.PasswordError | src/pages/Signup.tsx:25-32 | mismatch iff the passwords differ; length error iff they agree and are shorter than 6; no error otherwise |
| Signup.MismatchReportedFirst | src/pages/Signup.tsx:25-32 | a short mismatched password reports the mismatch |
| Signup.SignupForm.constructor | src/pages/Signup.tsx:16-18 | no error, not loading, no success |
| Signup.SignupForm.HandleSubmit | src/pages/Signup.tsx:21-43 | a failed guard sets its message and makes no sign-up call; valid input makes exactly one call, resets loading, and then sets the returned error or success |
| ResetPassword.ResetPasswordForm.constructor | src/pages/ResetPassword.tsx:13-15 | no error, not loading, no success |
| ResetPassword.ResetPasswordForm.HandleSubmit | src/pages/ResetPassword.tsx:28-50 | the same guard order with no update on failure; valid input requests one password update; an error sets its message, otherwise success with a redirect to /login |
| AdminPatientDetail.ScreenFor | src/pages/AdminPatientDetail.tsx:54-96 | loading screen iff loading; "not found" iff loaded without a profile; otherwise the badge is the classification and the page's card ternaries equal the patient dashboard's |
| AdminPatientDetail.DetailBadgeCriticalIffSomeCard | src/pages/AdminPatientDetail.tsx:70-96 | on the detail screen the badge is critical iff some card is |
| AdminPatientDetail.PatientDetail.constructor | src/pages/AdminPatientDetail.tsx:27-29 | starts loading, with no profile |
| AdminPatientDetail.PatientDetail.Screen | src/pages/AdminPatientDetail.tsx:54-96 | the rendered screen for the current state |
| AdminPatientDetail.PatientDetail.FetchEffect | src/pages/AdminPatientDetail.tsx:33-44 | without an id nothing changes, so loading is never cleared; with one, loading ends, and the profile is set if one came back |
| AdminPatientDetail.PatientDetail.OnVitals | src/pages/AdminPatientDetail.tsx:47-52 | only the reading is replaced |
| AdminPatientDetail.MountScreens | src/pages/AdminPatientDetail.tsx:33-70 | with no id the page stays on the loading screen; with an id it shows "not found" or the detail of the fetched profile |
| SendAlert.PatientName | supabase/functions/send-alert/index.ts:59 | "Unknown Patient" when the profile is missing or full_name is empty or absent, otherwise full_name |
| SendAlert.PhoneNumber | supabase/functions/send-alert/index.ts:60 | no phone when the profile row is missing, otherwise the profile's phone_number |
| SendAlert.EmailTargets | supabase/functions/send-alert/index.ts:71-91 | one email per admin with a non-empty email, never an empty one |
| SendAlert.EmailTargetsExact | supabase/functions/send-alert/index.ts:72-76 | the count equals the number of admins with an email; each such admin's email is present; each email comes from such an admin |
| SendAlert.NoEmailNoTargets | supabase/functions/send-alert/index.ts:74 | admins without an email produce nothing |
| SendAlert.EmailAudits | supabase/functions/send-alert/index.ts:79-88 | one `alert_email_{level}` entry per email, in order, filed under the patient id |
| SendAlert.EmailNotes | supabase/functions/send-alert/index.ts:76 | one "Email queued for" note per email, in order |
| SendAlert.SmsStatus | supabase/functions/send-alert/index.ts:98-100 | "sms_provider_not_configured" iff a phone number exists and the level is "critical", else "no_phone_number" |
| SendAlert.SmsAudits | supabase/functions/send-alert/index.ts:98-134 | one audit entry exactly when the SMS branch runs, filed under the patient id as `alert_sms_{level}` with the phone number and "sms_provider_not_configured" |
| SendAlert.OptionsWritesNothing | supabase/functions/send-alert/index.ts:22-24 | a pre-flight request returns at once and writes nothing |
| SendAlert.WritesOnlyAfterInsert | supabase/functions/send-alert/index.ts:42-50 | anything written means the request was valid and its insert succeeded, and then exactly one row is written |
| SendAlert.MissingFieldRejected | supabase/functions/send-alert/index.ts:34-39 | a falsy patient_id, message or level gives 400 with the fixed message and no writes |
| SendAlert.InsertFailureReported | supabase/functions/send-alert/index.ts:48-149 | a failed insert gives 500 with "Failed to insert alert: " and its message, and no audit entries |
| SendAlert.SuccessfulCall | supabase/functions/send-alert/index.ts:42-143 | success: 200 with the inserted id, one new row; audits and notifications number the admins with an email plus one when the SMS branch runs; the email notes come first |
| SendAlert.SmsOnlyForCritical | supabase/functions/send-alert/index.ts:98-134 | the SMS status reports the provider iff phone and critical; a warning alert never writes an SMS audit |
| SendAlert.HandleSpec | supabase/functions/send-alert/index.ts:21-151 | the status is 200, 400 or 500; 400 exactly for a parsed body missing a field; a non-200 status writes nothing; 200 iff a pre-flight or exactly one row was inserted |
| SendAlert.AlertBackend.constructor | supabase/functions/send-alert/index.ts:42-46 | an empty store |
| SendAlert.AlertBackend.Handle | supabase/functions/send-alert/index.ts:21-151 | the imperative handler returns the specified response and appends exactly the specified rows and audit entries |
| SendAlert.AlertBackend.NotifyAdmins | supabase/functions/send-alert/index.ts:72-91 | the admin loop appends one `alert_email_{level}` audit per admin with an email and returns one note per such admin, in admin order; the alert table is untouched |
| SendAlert.SendTwice | supabase/functions/send-alert/index.ts:42-46 | not idempotent: the same valid alert sent twice stores two identical rows |

## Left out

- Timers and subscriptions are not modelled as processes. These are `subscribeToVitals`, the admin dashboard's five-second refresh, the ECG canvas redraw and the 3-second redirect timeout. Only one callback or tick is modelled (`Dashboard.OnVitals`, `PatientDetail.OnVitals`, the `redirect` result of `ResetPasswordForm.HandleSubmit`).
- Supabase and Deno I/O are inputs or outputs:
  - `createClient`, environment variables and `req.json()` (its result is `Request.body`);
  - the alert insert (`Lookups.insert`), the profile select, the admin-role select and `auth.admin.getUserById` (`Lookups.emails`; a missing key is a failed lookup), and the profile fetch of the patient-detail page (`fetched`);
  - the audit RPC is modelled as an append to `auditLog`. Its own errors are ignored by the handler and are not modelled.
- The commented-out Twilio block and the hardware-mode subscription never run and are not modelled.
- Floating point is not modelled. Numbers are exact reals. `Math.sin(x·π)` is the opaque `sinPi`. JavaScript's number-to-string conversion inside messages is the opaque `showNumber`. IEEE rounding in `randomInRange` is not modelled, so the tenths are exact.
- Random draws are oracle inputs (`VitalDraws`, `nat -> real` streams). The random `A-…` alert ids are opaque strings (`ids`). `Date.now()` is read once as `now`, although `generateAlerts` reads the clock once per alert.
- Date formatting is not modelled. This covers `toLocaleTimeString` (the trend's `time` is kept as milliseconds), the `admittedDate` string with its extra random draw, and `toLocaleDateString` on the detail page. `Patient` has no `admittedDate` field.
- Text.ToLower: folds only ASCII A–Z, where JavaScript `toLowerCase` folds all of Unicode.
- Signup.PasswordError: counts characters, where JavaScript's `length` counts UTF-16 code units.
- SendAlert.Payload: a field is either a string or absent. Non-string JSON values and a `level` other than "warning"/"critical" are not checked by the source and are not modelled separately; any truthy string is accepted.
- SendAlert.Response: the CORS and content-type headers are the same on every path and are not modelled. The OPTIONS response is status 200 with no body.
- The React rendering and the presentational components (VitalCard, StatusBadge, AlertPanel, VitalTrendChart, ECGWaveform) are not modelled. `ForgotPassword.tsx` is not part of this model.
- The `signup`, `resetPassword` and `profile` members of the auth context are not defined by the shown `AuthContext.tsx`. They are external: their results are inputs (`signupError`, `profileName`, `userId`).
- React state updates are applied at once, whereas React batches them and applies them at the next render. The model assumes the `user` set by `login` is visible when `Login.HandleSubmit` navigates.
- MockData.SortNewestFirst: stability (alerts with equal timestamps keep their input order, as `Array.prototype.sort` guarantees) is not stated.
