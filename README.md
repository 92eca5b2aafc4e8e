# SwasthyaSetu — a Dafny model of the server and client rules

SwasthyaSetu connects ASHA community health workers, doctors and patients.
Its Express server keeps patients, pregnancies, immunisation records, tasks,
appointments, prescriptions, blood-bank stock and field surveys. Its React
client shows these records and edits them through forms. This project
models the rules those pieces apply and proves what the code promises of
them:

- **Maternal and child health schedules.** Registering a patient
  (`addPatient`) creates a pregnancy record with four antenatal-care (ANC)
  tasks at fixed weeks after the last menstrual period. It also creates an
  immunisation record of the 23 scheduled vaccines, plus tasks for the
  vaccines due in the next 30 days.
- **The documents' pre-save hooks.** The pregnancy hook fills in the
  expected delivery date (EDD) and the trimester. The immunisation hook
  refreshes each vaccine's status.
- **The ASHA pages.** They label vaccines as due or overdue, and number and
  list pregnancy visits.
- **Access control.** This covers `protect`, `authorize` and the legacy
  middleware, with the token verifier as a parameter.
- **Appointments.** Booking, listing a patient's appointments with their
  prescriptions, and a doctor's status change. Writing a prescription
  completes the consultation.
- **The client's views of appointments.** The doctor's dashboard and its
  de-duplicated patient list, the upcoming-consultation notice, and the
  redirect after login.
- **The editing forms:**
  - the prescription draft of the consultation room;
  - the symptom list of the health-visit form;
  - the patient registration form;
  - blood-stock increments;
  - survey records.
- **Search and filter rules.** The nutrition autocomplete, the blood-bank
  city matching, the patient search, the matching of a logged-in patient to
  their record, the alert filters and actions, and the landing page
  carousel.

Conventions:

- Each source file is one Dafny module; `Common` holds the shared
  helpers, such as `Option`, ASCII lower-casing, substring search, `trim`,
  and `split`/`join` on one character.
- Dates are whole day numbers. An instant is a count of milliseconds, and
  a date written without a time is the first instant of its day. Where the
  client compares instants to the millisecond, the model does too. The
  server compares vaccine dates with the current instant; the model compares
  them by day instead, and keeps the code as written beside it (see
  Findings and the lines under Left out that name the members concerned).
- Text is a sequence of characters, and JavaScript truthiness of an optional
  string is `Truthy`.
- Documents and page state that the source updates in place are classes
  whose methods state their whole new state. The pure rules are functions.
- A database failure, a new identifier, the current time and a server
  response are parameters of the operation that uses them.

Two rules are modelled as plain definitions, without a contract of their own:

- `AppointmentNotification.Fetches`: appointments are fetched only for a
  user whose role is `Patient` (client/src/components/AppointmentNotification.jsx:12-14).
- `AppointmentNotification.Renders`: the notice renders nothing while
  loading or when no appointment is upcoming (client/src/components/AppointmentNotification.jsx:69-71).

## Model

| member | source | states |
|---|---|---|
| AppointmentController.BookAppointment | server/controllers/appointmentController.js:16-38 | A booking is refused with 400 exactly when the doctor, the date or the time slot is missing or empty. A valid booking fails with 500 exactly when the save fails. A created appointment belongs to the caller, copies the requested doctor, date, slot and reason, and is Pending. |
| AppointmentController.BookingIsCallers | server/controllers/appointmentController.js:25-31 | A complete booking is created for the caller, with or without a reason. |
| AppointmentController.PrescriptionFor | server/controllers/appointmentController.js:50 | A prescription is found exactly when one carries the appointment's id, and the one found carries it. |
| AppointmentController.MyAppointments | server/controllers/appointmentController.js:41-56 | The list has one entry per appointment of the caller, in the same order. |
| AppointmentController.MyAppointmentsMeaning | server/controllers/appointmentController.js:43-54 | Every listed appointment is the caller's. Only a Completed one carries a prescription key, and a prescription attached is that appointment's. Every appointment of the caller is listed. |
| DoctorController.Clinic.UpdateAppointmentStatus | server/controllers/doctorController.js:19-31 | A known appointment takes the requested status, whatever its current one, and is returned. An unknown id changes nothing and returns nothing (not 404). Prescriptions are untouched. |
| DoctorController.Clinic.CreatePrescription | server/controllers/doctorController.js:35-60 | A prescription is written exactly when the body passes the schema and the save succeeds. It is appended with the caller as doctor. Its appointment, when given and known, becomes Completed, and no other appointment changes. A failure changes nothing. |
| DoctorController.PrescriptionForAppend | server/controllers/appointmentController.js:50 | Appending a prescription leaves an earlier match in place, and otherwise makes the new one the match for its appointment. |
| DoctorController.PrescribedConsultationIsListed | server/controllers/appointmentController.js:52-54 | After a consultation is prescribed, the patient's list shows that appointment Completed with the new prescription. |
| BloodBankController.EmptyStock | server/models/BloodBank.js:7-16 | A new bank has a count for each of the eight blood groups and no other, all zero. |
| BloodBankController.RestockedProperties | server/controllers/bloodBankController.js:20 | The update keeps the eight groups. It adds the quantity to its group, with no lower bound, and leaves every other group unchanged. Two updates of one group add up. |
| BloodBankController.RestockedCommutes | server/controllers/bloodBankController.js:20 | Updates of two different groups give the same stock in either order. |
| BloodBankController.BloodBankRegistry.UpdateStock | server/controllers/bloodBankController.js:12-33 | An unknown bank gives 404 and a failed save 500, and both change nothing. Otherwise the bank's stock is restocked, its update time is now, other banks are untouched, and the status is 200. |
| SurveyController.SymptomList | server/controllers/surveyController.js:19 | A missing or empty symptom string gives no symptoms. Any other string is split on commas, untrimmed, and joining the pieces gives it back. |
| SurveyController.CreateSurvey | server/controllers/surveyController.js:4-29 | A survey is saved exactly when the body names an ASHA worker and the save succeeds. It gets the fixed placeholder patient, the body's ASHA worker, only blood pressure and temperature as vitals, the split symptoms, and the body's timestamp unless it is absent or 0, in which case now (`timestamp \|\| new Date()`). |
| SurveyController.SurveyIgnoresPatient | server/controllers/surveyController.js:6-21 | The patient's name and age in the body do not affect the stored survey. |
| SurveyController.SymptomListExamples | server/controllers/surveyController.js:19 | "a,b" gives the two symptoms a and b, and a single symptom gives itself. |
| AuthMiddleware.Verify | server/middleware/authMiddleware.js:10 | Claims come only from a present, non-empty token, and are what the verifier returns for it. |
| AuthMiddleware.SecondWord | server/middleware/authMiddleware.js:9 | The header has a second space-separated word exactly when it contains a space. |
| AuthMiddleware.Protect | server/middleware/authMiddleware.js:4-20 | The request passes exactly when the header starts with "Bearer" and its second word verifies; the user is then the decoded claims. Every rejection is 401. |
| AuthMiddleware.ProtectBearerToken | server/middleware/authMiddleware.js:7-12 | "Bearer <token>" passes with the token's claims when it verifies, and is otherwise rejected with 401 "token failed". |
| AuthMiddleware.ProtectNoSecondWord | server/middleware/authMiddleware.js:7-15 | A Bearer header without a token is rejected with 401. |
| AuthMiddleware.Authorize | server/middleware/authMiddleware.js:22-31 | A request passes exactly when there is a user whose role is listed. No user gives 401, and an unlisted role 403. |
| AuthMiddleware.Legacy | server/middleware/authMiddleware.js:34-53 | No token (no header, or no second word, or an empty one) gives 401 "Access Denied"; a token that does not verify gives 400 "Invalid Token"; a verified caller outside a non-empty role list gives 403 "Forbidden". The request passes exactly when the token verifies and the role list is empty or holds the role, and then carries the token's claims. |
| AuthMiddleware.LegacyAgreesWithProtectAuthorize | server/middleware/authMiddleware.js:4-53 | With roles listed, the legacy middleware admits exactly what protect and authorize together admit. An invalid token is 400 there but 401 in protect. An empty list admits every verified user there but nobody in authorize. |
| AshaController.BuildAncTasks | server/controllers/ashaController.js:210-237 | The loop builds exactly four ANC tasks, "ANC Visit 1..4", due at LMP plus 84, 140, 196 and 252 days, in strictly increasing order, for the caller, the patient and the pregnancy. |
| AshaController.ScheduleNamesMatch | server/controllers/ashaController.js:254-278 | The schedule has 23 entries, and their names are the Immunization schema's vaccine names, in order. |
| AshaController.ScheduleOffsetsSorted | server/controllers/ashaController.js:254-278 | The schedule's day offsets never decrease. |
| AshaController.ScheduledVaccines | server/controllers/ashaController.js:281-291 | One vaccine per schedule entry, in table order, each named from the schema's enum, Pending, not given, scheduled on the date of birth plus its entry's offset in days (so on or after the birth), with dates never decreasing. |
| AshaController.StoredScheduleStatuses | server/controllers/ashaController.js:293-300 | When saved, each scheduled vaccine is Overdue exactly when its date has passed, and is otherwise Pending. |
| AshaController.VaccinationTasks | server/controllers/ashaController.js:311-322 | There is one task per vaccine due within 30 days. |
| AshaController.VaccinationTasksCoverWindow | server/controllers/ashaController.js:302-322 | Every task is due within the next 30 days, on its vaccine's date, and refers to the immunisation record. Every vaccine in the window gets its task. The window keeps schedule order. |
| AshaController.NewbornGetsBirthDoseTasks | server/controllers/ashaController.js:302-309 | A child registered on its birthday gets tasks for exactly the three birth doses. |
| AshaController.NewbornGetsNoTasksAsWritten | server/controllers/ashaController.js:302-309 | As written, a child registered on its day of birth, at any time after midnight, gets no vaccination task. Compared by day, it gets the three birth-dose tasks. |
| AshaController.BirthDoseDates | server/controllers/ashaController.js:254-261 | The first three doses fall on the date of birth, and every later one at least 42 days after it. |
| AshaController.AddPatient | server/controllers/ashaController.js:185-339 | The patient is saved with the caller as ASHA worker and registrar, whatever the body says, and every other field is the body's. The status is 201 unless the patient save fails. A pregnancy is tracked only when pregnant with an LMP, and immunisation only when `trackImmunization` is set and a date of birth is given. Their failures, and those of the task inserts, do not fail the registration. |
| AshaController.TrackPregnancy | server/controllers/ashaController.js:197-244 | The record is saved unless its save fails, Active, with the EDD at LMP plus 280 days and the trimester of today. The four ANC tasks exist exactly when the record and the task insert succeed. |
| AshaController.TrackImmunization | server/controllers/ashaController.js:248-332 | The record is saved unless its save fails. Its vaccines are the schedule refreshed for today. Tasks are created for the 30-day window only when the record and the insert succeed. |
| AshaController.AssignedPatientsQuery | server/controllers/ashaController.js:96-101 | The query always fixes the caller as ASHA worker. Risk level is filtered only when non-empty. A pregnancy filter given as "true" filters on true, and any other given value on false. |
| AshaController.AssignedPatientsQueryMeaning | server/controllers/ashaController.js:98-101 | Every matching patient is assigned to the caller. A pregnancy filter other than "true" returns only non-pregnant patients. Without filters, the query returns exactly the caller's patients. |
| PregnancyTracking.Trimester | server/models/PregnancyTracking.js:63-71 | The trimester always lies between 1 and 3. |
| PregnancyTracking.TrimesterByDays | server/models/PregnancyTracking.js:65-70 | Trimester 1 is fewer than 91 days since LMP (week 12 or less), 2 is days 91 to 188 (weeks 13 to 26), and 3 is after that. |
| PregnancyTracking.TrimesterMonotone | server/models/PregnancyTracking.js:68-70 | The trimester never goes down as the days since LMP grow. |
| PregnancyTracking.SavedEdd | server/models/PregnancyTracking.js:55-60 | An EDD already present is kept. A missing one with an LMP becomes LMP plus 280 days. LMP and status are unchanged. |
| PregnancyTracking.SavedTrimester | server/models/PregnancyTracking.js:63-71 | Only an Active record with an LMP gets today's trimester; Delivered and Terminated records keep their stored value. |
| PregnancyTracking.SavedKeepsBounds | server/models/PregnancyTracking.js:63-71 | Saving keeps the trimester within the schema's bound of 1 to 3. |
| PregnancyTracking.SaveIdempotent | server/models/PregnancyTracking.js:55-75 | Saving twice on the same day gives what saving once gives. |
| PregnancyTracking.PregnancyRecord.PreSave | server/models/PregnancyTracking.js:55-75 | The hook overwrites the document's EDD and trimester with the saved values and stamps the update time. |
| PregnancyTracking.PregnancyRecord.constructor | server/models/PregnancyTracking.js:3-52 | A new record has no EDD and no trimester yet. |
| Immunization.RefreshedAll | server/models/Immunization.js:58-64 | The refresh keeps the number of vaccines. |
| Immunization.RefreshedStatusRules | server/models/Immunization.js:59-63 | A given vaccine becomes Completed. An ungiven one past its date becomes Overdue. Any other keeps its status. |
| Immunization.RefreshedChangesOnlyStatus | server/models/Immunization.js:58-64 | Only statuses change: order, names, dates and given dates are kept. |
| Immunization.RefreshedIdempotent | server/models/Immunization.js:58-64 | Refreshing twice on the same day gives what refreshing once gives. |
| Immunization.RefreshedIntroducesOnlyCompletedOrOverdue | server/models/Immunization.js:58-64 | A Pending or Missed status after the refresh was already there, on an ungiven vaccine not yet due. A Completed vaccine with no given date and a past date becomes Overdue. |
| Immunization.DoseDueTodayOverdueAsWritten | server/models/Immunization.js:55-62 | As written, a pending dose due today that is saved after midnight becomes Overdue; compared by day, it stays Pending. The two agree on every other day. |
| Immunization.ImmunizationRecord.PreSave | server/models/Immunization.js:55-76 | The loop rewrites the vaccine array in place to its refreshed contents and stamps the update time. |
| Immunization.ImmunizationRecord.constructor | server/models/Immunization.js:3-52 | A new record holds the given child, ASHA worker, date of birth and vaccines. |
| AshaImmunizations.DaysUntilIsCeiling | client/src/pages/AshaImmunizations.jsx:79 | The days until a vaccine is the time left divided by a day, rounded up. |
| AshaImmunizations.StatusBadge | client/src/pages/AshaImmunizations.jsx:71-83 | Completed is badged Completed whatever its date. Otherwise a stored Overdue or a passed date is Overdue. Otherwise it is "Due in N days" exactly when the rounded-up days are 7 or fewer, and Scheduled otherwise. |
| AshaImmunizations.OverdueWithinDue | client/src/pages/AshaImmunizations.jsx:85-100 | The overdue list is the due list narrowed to overdue vaccines, so it is never longer. |
| AshaImmunizations.OverdueVaccinesAreBadgedOverdue | client/src/pages/AshaImmunizations.jsx:71-100 | Every listed overdue vaccine is badged Overdue. A vaccine badged Overdue but not listed is one stored as Overdue whose date has not passed. |
| AshaImmunizations.OverdueTotalAtMostDueTotal | client/src/pages/AshaImmunizations.jsx:136-149 | Summed over all children, the overdue total never exceeds the due total. |
| AshaImmunizations.CompletedCount | client/src/pages/AshaImmunizations.jsx:257 | The completed counter never exceeds the total, and equals it exactly when every vaccine is Completed. |
| AshaImmunizations.CompletedAndDueDisjoint | client/src/pages/AshaImmunizations.jsx:75-92 | No completed vaccine is due. A Pending or Missed vaccine left off the due list is more than 30 days away and badged Scheduled. |
| AshaPregnancyTracking.TrimesterLabel | client/src/pages/AshaPregnancyTracking.jsx:116-123 | Trimesters 1, 2 and 3 are labelled "1st Trimester", "2nd Trimester" and "3rd Trimester"; the label is "Unknown" exactly when the trimester is missing or not 1, 2 or 3. |
| AshaPregnancyTracking.SavedTrimesterIsLabelled | client/src/pages/AshaPregnancyTracking.jsx:116-123 | The trimester the pre-save hook stores on an Active pregnancy always has a real label. |
| AshaPregnancyTracking.VisitCount | client/src/pages/AshaPregnancyTracking.jsx:240 | The count is the number of recorded visits, and 0 when the list is missing. |
| AshaPregnancyTracking.LastThree | client/src/pages/AshaPregnancyTracking.jsx:251 | The card shows the last min(3, n) visits in their original order. |
| AshaPregnancyTracking.LastThreeKeepsLatest | client/src/pages/AshaPregnancyTracking.jsx:251 | Up to three visits are all shown. The latest visit is always shown, and the shown visits are the end of the list. |
| AshaPregnancyTracking.AncAndPncExclusive | client/src/pages/AshaPregnancyTracking.jsx:236-271 | A pregnancy never offers both an ANC and a PNC visit. A Terminated one offers neither. |
| AshaPregnancyTracking.PregnancyTrackingPage.constructor | client/src/pages/AshaPregnancyTracking.jsx:10-35 | The page opens with both forms closed, nothing selected, and blank forms for visit 1. |
| AshaPregnancyTracking.PregnancyTrackingPage.OpenAnc | client/src/pages/AshaPregnancyTracking.jsx:236-242 | For an Active pregnancy, the ANC form opens on it, numbered one past its recorded ANC visits. The PNC form is untouched. |
| AshaPregnancyTracking.PregnancyTrackingPage.OpenPnc | client/src/pages/AshaPregnancyTracking.jsx:271-282 | For a Delivered pregnancy, the PNC form opens on it, numbered one past its recorded PNC visits. The ANC form is untouched. |
| AshaPregnancyTracking.PregnancyTrackingPage.SubmitAnc | client/src/pages/AshaPregnancyTracking.jsx:55-83 | A saved ANC visit closes the form, clears the selection and resets the form to visit 1. A failed save changes nothing. |
| AshaPregnancyTracking.PregnancyTrackingPage.SubmitPnc | client/src/pages/AshaPregnancyTracking.jsx:85-114 | A saved PNC visit closes the form, clears the selection and resets the form to visit 1. A failed save changes nothing. |
| AshaAlerts.QueryParams | client/src/pages/AshaAlerts.jsx:20-22 | The status and priority parameters are sent only when non-empty, status first. |
| AshaAlerts.AlertFilters.constructor | client/src/pages/AshaAlerts.jsx:10-11 | The filters start at status Active and no priority, so the first query asks for active alerts. |
| AshaAlerts.AlertFilters.SetFilterStatus | client/src/pages/AshaAlerts.jsx:13-22 | Changing the status keeps the priority and refetches with both filters. |
| AshaAlerts.AlertFilters.SetFilterPriority | client/src/pages/AshaAlerts.jsx:13-22 | Changing the priority keeps the status and refetches with both filters. |
| AshaAlerts.Actions | client/src/pages/AshaAlerts.jsx:223-246 | Acknowledge is offered exactly for Active alerts. Resolve is offered exactly for Active and Acknowledged alerts. |
| AshaAlerts.ActionsMoveForward | client/src/pages/AshaAlerts.jsx:223-246 | Resolved and Dismissed alerts offer nothing, and an acknowledged alert can still be resolved but not acknowledged again. |
| AshaAlerts.PriorityColour | client/src/pages/AshaAlerts.jsx:63-71 | Critical, High and Medium get a colour other than the default, and every other priority, Low included, gets the default. |
| AshaAlerts.PriorityColoursDistinct | client/src/pages/AshaAlerts.jsx:63-71 | Critical, High and Medium each have a different colour. |
| AshaAlerts.PriorityIcon | client/src/pages/AshaAlerts.jsx:73-81 | The four known priorities have their own icons, and exactly the unknown ones get the default. |
| AshaAlerts.PriorityIconsDistinct | client/src/pages/AshaAlerts.jsx:73-81 | No two known priorities share an icon. |
| AppointmentNotification.FormatDay | client/src/components/AppointmentNotification.jsx:45-63 | "Today" exactly for today, "Tomorrow" exactly for the next day, and any other day is shown as its date. |
| AppointmentNotification.UpcomingMeaning | client/src/components/AppointmentNotification.jsx:27-35 | Exactly the Confirmed appointments from today on are kept, in their original order. Anything shown as a date is at least two days away. |
| AppointmentNotification.UpcomingUntilItsDay | client/src/components/AppointmentNotification.jsx:31-35 | A confirmed appointment is shown up to and including its day, and not after. |
| DoctorDashboard.MapSet | client/src/pages/DoctorDashboard.jsx:136 | Setting a key gives it the new value and leaves other keys alone. A key already present keeps its place, and a new key goes at the end. |
| DoctorDashboard.LastWithKey | client/src/pages/DoctorDashboard.jsx:136 | The value found for a key comes from the list and has that key. None is found only when no element has it. |
| DoctorDashboard.LastWithKeyIsLast | client/src/pages/DoctorDashboard.jsx:136 | The value found is the last element with the key, which a later `Map` set of the same key overwrites into place: no later element has the key. |
| DoctorDashboard.BuildMap | client/src/pages/DoctorDashboard.jsx:136 | `new Map(...)` maps each patient id to the last appointment's patient with that id, one entry per key. |
| DoctorDashboard.PresentValuesMeaning | client/src/pages/DoctorDashboard.jsx:136-137 | A patient remains after dropping the missing ones exactly when the map holds it under its own id. |
| DoctorDashboard.PresentValuesDistinct | client/src/pages/DoctorDashboard.jsx:136-137 | No two remaining patients share an id. |
| DoctorDashboard.UniquePatientsMeaning | client/src/pages/DoctorDashboard.jsx:136-137 | Each id appears at most once, and every patient of an appointment is represented. The one shown is the last appointment's object for that id. |
| DoctorDashboard.FirstIndex | client/src/pages/DoctorDashboard.jsx:136 | The position of the first appointment whose patient has a given key; there is none before it, and it is the length when no appointment has the key. |
| DoctorDashboard.BuildMapKeysOrder | client/src/pages/DoctorDashboard.jsx:136 | The `Map`'s keys are in the order in which each key first occurs among the appointments. |
| DoctorDashboard.PresentValuesOrder | client/src/pages/DoctorDashboard.jsx:136-137 | Dropping the missing patients keeps the remaining ones in the order of their keys. |
| DoctorDashboard.UniquePatientsOrder | client/src/pages/DoctorDashboard.jsx:136-137 | "My Patients" lists each patient in the order of that patient's first appointment. |
| DoctorDashboard.Actions | client/src/pages/DoctorDashboard.jsx:112-120 | Actions are offered exactly for Pending and Confirmed appointments: Accept and Reject exactly for Pending ones, Start Consult exactly for Confirmed ones. |
| DoctorDashboard.DashboardTransitions | client/src/pages/DoctorDashboard.jsx:112-120 | A Pending appointment can only be Confirmed or Cancelled. A Confirmed one can only be opened for consultation. |
| Home.NextIndex | client/src/pages/Home.jsx:54-56 | The next slide is always one of the five, one on, wrapping from the last to the first. |
| Home.PrevIndex | client/src/pages/Home.jsx:58-60 | The previous slide is always one of the five, never negative, one back, wrapping from the first to the last. |
| Home.StepsAreInverse | client/src/pages/Home.jsx:54-60 | Back undoes forward, and forward undoes back. |
| Home.AdvanceIsModular | client/src/pages/Home.jsx:46-56 | n steps forward land n slides on, modulo five. |
| Home.FiveStepsComeBack | client/src/pages/Home.jsx:10-56 | Five steps forward return to the starting slide. |
| Home.Carousel.constructor | client/src/pages/Home.jsx:8 | The carousel starts on slide 0. |
| Home.Carousel.NextSlide | client/src/pages/Home.jsx:54-56 | The right arrow and the timer move to the next slide. |
| Home.Carousel.PrevSlide | client/src/pages/Home.jsx:58-60 | The left arrow moves to the previous slide. |
| Home.Carousel.GoTo | client/src/pages/Home.jsx:157-160 | Indicator k shows slide k. |
| Home.Carousel.ExactlyOneVisible | client/src/pages/Home.jsx:122 | Exactly one slide is visible: the current one. |
| Login.RoleOf | client/src/pages/Login.jsx:24 | The role is `res.data.user.role` unless it is missing or empty, and otherwise `res.user.role`. |
| Login.Redirect | client/src/pages/Login.jsx:26-32 | As written: /doctor-dashboard exactly for Doctor, /asha/dashboard exactly for the text "ASHA Worker", and /dashboard otherwise, including when the role is missing. |
| Login.AshaUserMissesAshaDashboard | client/src/pages/Login.jsx:28 | As written, a user stored with role "ASHA" is sent to /dashboard, not to the ASHA dashboard. |
| Login.IntendedRedirect | client/src/pages/Login.jsx:26-32 | Corrected: /asha/dashboard for the stored role "ASHA", as well as for the label; the Doctor and general cases are unchanged. |
| Login.IntendedRedirectByRole | server/models/User.js:9 | With the correction, doctors and ASHA workers reach their own dashboards and admins and patients the general one. Only the ASHA case differs from the code as written. |
| Login.LoginPage.constructor | client/src/pages/Login.jsx:10-11 | The page starts with no error, no welcome and no redirect pending. |
| Login.LoginPage.HandleSubmit | client/src/pages/Login.jsx:13-38 | A successful login clears the error, shows the welcome and schedules the redirect that `Redirect` computes for the role as written, so an ASHA user stored with role "ASHA" goes to /dashboard. A failed one shows the error and never shows the welcome. |
| BloodBankPage.Listed | client/src/pages/BloodBank.jsx:66-230 | An empty location lists nothing. Any other lists e-Raktakosh and Friends2Support, and each city-bound organisation exactly when the location names one of its cities. |
| BloodBankPage.IsInCityMonotone | client/src/pages/BloodBank.jsx:8-12 | Adding cities to a list never turns a match into a miss. |
| BloodBankPage.RedCrossWheneverRegional | client/src/pages/BloodBank.jsx:104-213 | The Red Cross is listed wherever Sankalp, Rotary or Lions is, because their cities are among the Red Cross's. |
| BloodBankPage.NamedCityMatches | client/src/pages/BloodBank.jsx:8-12 | A location containing a listed city is matched. |
| BloodBankPage.MumbaiListsAll | client/src/pages/BloodBank.jsx:104-213 | A location naming Mumbai lists all six organisations. |
| BloodBankPage.OnlyNationalOutsideCities | client/src/pages/BloodBank.jsx:76-213 | Outside the Red Cross cities, only the two national services are listed. |
| ConsultationRoom.FindById | client/src/pages/ConsultationRoom.jsx:51 | The appointment found is in the list and has the id. None is found only when no appointment has it. |
| ConsultationRoom.Locate | client/src/pages/ConsultationRoom.jsx:46-84 | The doctor's list wins when it has the appointment. When it comes back without it, the caller's list decides. When either request fails, the `catch` block asks for the caller's list again and that retry decides; only a failed retry is a load failure. Whatever is found has the id and comes from one of the responses. |
| ConsultationRoom.RetryAfterFailedOwnList | client/src/pages/ConsultationRoom.jsx:64-72 | If the doctor's list lacks the appointment and the first request for the caller's list fails, the retry still finds an appointment it holds. |
| ConsultationRoom.AutoStartOnlyForPatients | client/src/pages/ConsultationRoom.jsx:87-98 | The page never starts a call for a doctor, while a call is active or connecting, or in a browser whose user agent names Firefox in either case. |
| ConsultationRoom.WithField | client/src/pages/ConsultationRoom.jsx:117-121 | Editing a medicine field changes that field and no other. |
| ConsultationRoom.TrimAll | client/src/pages/ConsultationRoom.jsx:143 | Each piece is trimmed, in place and in order. |
| ConsultationRoom.ParseTestsMeaning | client/src/pages/ConsultationRoom.jsx:143 | k commas give k + 1 tests. Each test has no surrounding whitespace, and is empty exactly when its piece is blank. |
| ConsultationRoom.ParseTestsEmpty | client/src/pages/ConsultationRoom.jsx:143 | An empty field gives one empty test. |
| ConsultationRoom.ParseTestsTwo | client/src/pages/ConsultationRoom.jsx:143 | "a, b" gives the two tests a and b. |
| ConsultationRoom.PrescriptionDraft.constructor | client/src/pages/ConsultationRoom.jsx:39-44 | The draft starts empty, with exactly one blank medicine row. |
| ConsultationRoom.PrescriptionDraft.HandlePrescriptionChange | client/src/pages/ConsultationRoom.jsx:113-115 | One text field takes the value; the others and the medicines are unchanged. |
| ConsultationRoom.PrescriptionDraft.HandleMedicineChange | client/src/pages/ConsultationRoom.jsx:117-121 | Only the named field of the named row changes; the length and the other rows are unchanged. |
| ConsultationRoom.PrescriptionDraft.AddMedicine | client/src/pages/ConsultationRoom.jsx:123-128 | One blank row is appended, and the existing rows are unchanged. |
| ConsultationRoom.PrescriptionDraft.RemoveMedicine | client/src/pages/ConsultationRoom.jsx:130-133 | Exactly row i goes and the rest keep their order. Removing from the second row on never empties the list, and the first row stays. |
| ConsultationRoom.PrescriptionDraft.Payload | client/src/pages/ConsultationRoom.jsx:135-145 | The body carries the appointment, the patient, the rows and the parsed tests. The server accepts it exactly when the patient is known, a diagnosis is written and every row is filled in. |
| AshaHealthVisitForm.HealthVisitForm.constructor | client/src/pages/AshaHealthVisitForm.jsx:10-30 | The patient comes from the query parameter, or is empty. The form starts as a General visit on today, with empty vitals and no symptoms. |
| AshaHealthVisitForm.HealthVisitForm.HandleVitalChange | client/src/pages/AshaHealthVisitForm.jsx:48-56 | Exactly one vital changes; the other vitals and the symptoms are unchanged. |
| AshaHealthVisitForm.HealthVisitForm.SetSymptomInput | client/src/pages/AshaHealthVisitForm.jsx:30 | Typing only changes the symptom box. |
| AshaHealthVisitForm.HealthVisitForm.AddSymptom | client/src/pages/AshaHealthVisitForm.jsx:58-66 | A non-blank box appends its trimmed text, duplicates allowed, and clears the box. A blank box changes nothing. Every stored symptom stays non-empty and trimmed. |
| AshaHealthVisitForm.HealthVisitForm.RemoveSymptom | client/src/pages/AshaHealthVisitForm.jsx:68-73 | Exactly entry i goes and the rest keep their order; the invariant is kept. |
| AshaHealthVisitForm.HealthVisitForm.SetFollowUpRequired | client/src/pages/AshaHealthVisitForm.jsx:303 | The checkbox sets the follow-up flag only. |
| AshaHealthVisitForm.HealthVisitForm.HandleSubmit | client/src/pages/AshaHealthVisitForm.jsx:75-94 | A posted form leads to the ASHA dashboard. A failed post stops loading and stays. The form is unchanged either way. |
| AshaHealthVisitForm.RemoveAddedSymptom | client/src/pages/AshaHealthVisitForm.jsx:58-73 | Removing the chip just added restores the list. |
| PatientRegister.DigitPrefix | client/src/pages/PatientRegister.jsx:60 | The digits `parseInt` reads are the longest run of digits at the start. |
| PatientRegister.ParseIntOfDecimal | client/src/pages/PatientRegister.jsx:60 | `parseInt` reads a whole number back, with or without a minus sign. |
| PatientRegister.ParseIntNaN | client/src/pages/PatientRegister.jsx:60 | An empty field, or one starting with anything but whitespace, a sign or a digit, is NaN. |
| PatientRegister.Changed | client/src/pages/PatientRegister.jsx:21-27 | A checkbox writes its checked state, and any other field its value, to the named field only. |
| PatientRegister.OptionsByAge | client/src/pages/PatientRegister.jsx:60-63 | The pregnancy and immunisation sections are never shown together, and NaN shows neither. For a whole age n, pregnancy shows exactly for a woman with n from 15 to 50, and immunisation exactly for n of 5 or less. |
| PatientRegister.PatientRegisterPage.constructor | client/src/pages/PatientRegister.jsx:7-19 | The form starts blank, with gender Male and both flags off. |
| PatientRegister.PatientRegisterPage.HandleChange | client/src/pages/PatientRegister.jsx:21-27 | The change is applied, and changing a text field never resets the pregnancy or immunisation flag. |
| PatientRegister.PatientRegisterPage.HandleSubmit | client/src/pages/PatientRegister.jsx:29-57 | A created patient leads to its page. A failure stays. Loading ends either way and the form is kept. |
| PatientRegister.HiddenPregnancyFlagIsKept | client/src/pages/PatientRegister.jsx:21-27 | A pregnancy ticked at age 30 is still sent after the age becomes 60 and the section is hidden. |
| PatientsInfo.Filtered | client/src/pages/PatientsInfo.jsx:27-30 | Exactly the patients whose name contains the term ignoring case, or whose ABHA id contains it as typed, are kept, in list order. An empty term keeps everyone. |
| PatientsInfo.EmptyTermMatches | client/src/pages/PatientsInfo.jsx:27-30 | Every patient matches the empty term. |
| PatientsInfo.WithoutAbhaOnlyByName | client/src/pages/PatientsInfo.jsx:29 | A patient without an ABHA id matches only by name. |
| PatientsInfo.SearchFindsPatient | client/src/pages/PatientsInfo.jsx:27-30 | Searching a patient's ABHA id, or their name in any case, finds them. |
| PatientsInfo.QrValue | client/src/pages/PatientsInfo.jsx:73 | The QR code holds the stored hash, or the id when the hash is missing or empty. |
| PatientHealthRecords.LowerOpt | client/src/pages/PatientHealthRecords.jsx:35 | Lower-casing keeps a missing value missing. |
| PatientHealthRecords.FindOwnRecord | client/src/pages/PatientHealthRecords.jsx:34-38 | The record found matches the user by name ignoring case, by contact number equal to the email, or by id. None is found only when no record matches. |
| PatientHealthRecords.FindOwnRecordIsFirst | client/src/pages/PatientHealthRecords.jsx:34-38 | The record found is the first match in list order. |
| PatientHealthRecords.UnnamedRecordMatchesUnnamedUser | client/src/pages/PatientHealthRecords.jsx:35 | A record without a name matches any user without a name. |
| PatientHealthRecords.RecordsFetchedFor | client/src/pages/PatientHealthRecords.jsx:40-52 | Records are fetched exactly when the list loads and a record matches, and then for a matching record's id. |
| PatientHealthRecords.ShownAlerts | client/src/pages/PatientHealthRecords.jsx:179 | At most the first five alerts are shown, in order. |
| PatientHealthRecords.FoundRecordIsNeverEmpty | client/src/pages/PatientHealthRecords.jsx:362 | Once the user's record is found, the empty-state message never shows, and the fetched records are that record's. |
| Nutrition.Suggestions | client/src/pages/Nutrition.jsx:34-43 | An empty term suggests nothing. Otherwise the suggestions are exactly the conditions containing the term, ignoring case. |
| Nutrition.SuggestionsKeepOrder | client/src/pages/Nutrition.jsx:36-38 | Suggestions keep the list order. |
| Nutrition.SuggestionsIncludeTypedCondition | client/src/pages/Nutrition.jsx:36-38 | A condition typed in any case is among its suggestions. |
| Nutrition.FindCategory | client/src/pages/Nutrition.jsx:103 | A selected plan has exactly the disease as category. None is found only when no plan has it. |
| Nutrition.FindCategoryIgnoringCase | client/src/pages/Nutrition.jsx:133-135 | A searched plan's category equals the untrimmed term ignoring case. None is found only when none does. |
| Nutrition.FindCategoryIsFirst | client/src/pages/Nutrition.jsx:103 | As `find` does, the plan selected for a disease is the first plan with that category: no earlier plan has it. |
| Nutrition.FindCategoryIgnoringCaseIsFirst | client/src/pages/Nutrition.jsx:133-135 | As `find` does, the plan the search selects is the first whose category equals the term ignoring case: no earlier plan does. |
| Nutrition.SearchFindsSelectedPlan | client/src/pages/Nutrition.jsx:133-135 | Searching a category finds the plan selecting it finds, unless an earlier plan differs from it only in case. |
| Nutrition.NutritionPage.constructor | client/src/pages/Nutrition.jsx:17-28 | The page offers the ten conditions and starts with no plans, no term and no selection. |
| Nutrition.NutritionPage.Loaded | client/src/pages/Nutrition.jsx:45-69 | A loaded list replaces the plans, and an empty one reports an unseeded database. A failed request reports the failure. |
| Nutrition.NutritionPage.SetSearchTerm | client/src/pages/Nutrition.jsx:34-43 | Typing recomputes the suggestions for the new term. |
| Nutrition.NutritionPage.HandleDiseaseSelect | client/src/pages/Nutrition.jsx:94-121 | The condition becomes the term, and its exact-category plan, or none, becomes the selection. The suggestions close unless the term changed, in which case the effect refills them. |
| Nutrition.NutritionPage.HandleSearch | client/src/pages/Nutrition.jsx:123-155 | A blank term changes nothing. Otherwise the plan matching the term ignoring case, or none, is selected, the suggestions close and the term is kept. |
| Nutrition.PickedSuggestionStaysListed | client/src/pages/Nutrition.jsx:100-101 | A picked condition is among the suggestions the effect recomputes. |

## Left out

- The machine-learning service: a stub that returns a constant prediction.
- Server, route and socket wiring, `io.emit` broadcasts and HTTP responses: network glue. A status code or a value stands for each response.
- The video call: media devices, peer connections and signalling sockets. Only the page's decision to start a call is modelled.
- Offline storage and sync: IndexedDB and an asynchronous retry loop.
- Sign-up and login on the server (`authController`): password hashing and token signing are foreign calls. The token verifier is a parameter of the middleware.
- Mongo queries: `find`, `sort`, `populate`, dashboard counts and the `$regex` patient search of `getAssignedPatients`. The model keeps the in-memory effect of each controller, not the persistence.
- The patient controller, nutrition seeding and the seed and debug scripts: outside the modelled core.
- The growth-chart `ageInMonths` of the immunisation schema: floating-point division.
- Time zones, local-midnight truncation and daylight saving: dates are whole days.
- The carousel's four-second `setInterval` timer: the model has only the index step the timer makes.
- Presentational pages and header components: markup and colour classes only.
- AshaController.AddPatient: a task insert is all or nothing. A partial `insertMany` is not modelled.
- AshaController.AddPatient: compares vaccine dates with today by day, where the code compares the first instant of the scheduled day with the instant of registration, so a child registered on its day of birth gets the three birth-dose tasks here and none in the code (AshaController.NewbornGetsNoTasksAsWritten states the code's behaviour).
- AshaController.TrackImmunization: the stored schedule is refreshed by day; in the code a dose scheduled for the day of registration is already stored Overdue after midnight, here it stays Pending (Immunization.DoseDueTodayOverdueAsWritten).
- AshaController.StoredScheduleStatuses: states the by-day statuses; for a dose due on the day of registration the code stores Overdue, not Pending.
- AshaController.VaccinationTasks: the 30-day window is taken by day; the code's instant comparison drops doses due today (AshaController.UpcomingVaccinesAsWritten models it).
- Immunization.ImmunizationRecord.PreSave: refreshes by day; the code marks a pending dose due today Overdue as soon as the record is saved after midnight (Immunization.RefreshedAsWritten models it).
- DoctorController.Clinic.CreatePrescription: a failure to update the appointment after the prescription is saved is not modelled. Only the prescription save can fail.
- BloodBankController.BloodBankRegistry.UpdateStock: the quantity is a number. A quantity sent as text, which JavaScript `+` would concatenate, is not modelled.
- AppointmentController.BookAppointment: the date is kept as sent. Mongoose's cast of the date, and its failure, are not modelled.
- The "record vaccine" modal of the immunisation page: it posts to a server route outside the model.
- Lower-casing is ASCII only: Unicode case folding is not modelled.
- AshaAlerts.QueryParams: the parameters are a list of pairs. URL encoding is not modelled.
- ConsultationRoom.PrescriptionDraft.HandleMedicineChange: requires the row to exist, as the page only edits rows it shows. The in-place write also alters the medicine object shared with the previous state; that aliasing is not modelled.
- The patient-list fetch of the health-visit form and the alert list fetch: plain reads of server data.

## Findings

| source | as written | input that shows it | evidently intended | confidence | as-written member | corrected member |
|---|---|---|---|---|---|---|
| server/models/Immunization.js:61 | compares a vaccine's scheduled date, the first instant of its day, with the instant of the save | a pending dose scheduled for today and saved at 10:00 that day is stored as Overdue | possibly a dose is overdue only once its day has passed: the dashboard counts a day's tasks between that day's bounds (server/controllers/ashaController.js:63-64), though the immunisation page compares instants the same way as the hook (client/src/pages/AshaImmunizations.jsx:77, 98) | low; not executed | Immunization.DoseDueTodayOverdueAsWritten | Immunization.RefreshedStatusRules |
| server/controllers/ashaController.js:308 | keeps the vaccines whose date, the first instant of its day, is at or after the instant of registration | a child born today and registered at 10:00 today gets no task, though BCG, OPV-0 and Hepatitis B-0 are due today | doses due today get their tasks | not executed | AshaController.NewbornGetsNoTasksAsWritten | AshaController.NewbornGetsBirthDoseTasks |
| client/src/pages/Login.jsx:28 | sends to /asha/dashboard only the role text "ASHA Worker", which is the sign-up form's label and not a stored role | a user stored with role "ASHA" (server/models/User.js:9) logs in and lands on /dashboard | ASHA workers land on /asha/dashboard | not executed | Login.AshaUserMissesAshaDashboard | Login.IntendedRedirectByRole |
