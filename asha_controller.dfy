/** The ASHA worker's patient registration (server/controllers/ashaController.js,
    `addPatient`) and the filter of `getAssignedPatients`. Registering a
    patient stores the patient with the worker as assignee and registrar; a
    pregnant patient with an LMP also gets a pregnancy-tracking document and
    four ANC visit tasks; a child whose immunization is to be tracked gets an
    immunization document with the 23-vaccine schedule and one task for each
    vaccine due in the next 30 days. The follow-up documents are best effort:
    their failure never fails the registration. Dates are day numbers; the
    database's generated identifiers and its failures are parameters. */
module AshaController {
  import opened Common
  import PregnancyTracking
  import Immunization

  /** The patient fields the registration form sends and the flow reads. */
  datatype PatientData = PatientData(
    fullName: string,
    age: int,
    gender: string,
    contactNumber: Option<string>,
    abhaId: Option<string>,
    riskLevel: string,
    isPregnant: bool,
    assignedAshaWorker: Option<Id>,
    registeredBy: Option<Id>)

  datatype Patient = Patient(id: Id, data: PatientData)

  /** The request body: the patient's own fields, spread into the document,
      and the three registration extras. `lmp` and `dateOfBirth` are `None`
      when absent or empty. */
  datatype RegistrationBody = RegistrationBody(
    patient: PatientData,
    lmp: Option<int>,
    trackImmunization: bool,
    dateOfBirth: Option<int>)

  /** A task document as the flow builds it. */
  datatype Task = Task(
    ashaWorkerId: Id,
    taskType: string,
    priority: string,
    patientId: Id,
    title: string,
    description: string,
    dueDate: int,
    autoGenerated: bool,
    relatedRecordId: Id,
    relatedRecordType: string)

  // ---------------------------------------------------------------------------
  // ANC visit tasks

  /** The gestational week of ANC visit `i` (1 to 4). */
  function AncWeeks(i: int): int {
    if i == 1 then 12 else if i == 2 then 20 else if i == 3 then 28 else 36
  }

  /** What the four ANC tasks of a pregnancy are: visits 1 to 4 at weeks 12,
      20, 28 and 36 after the LMP, high priority, linked to the pregnancy
      record, in chronological order, all before the expected delivery
      date, the first in the first trimester, the second in the second and
      the last two in the third. */
  predicate IsAncSchedule(tasks: seq<Task>, caller: Id, patientId: Id, pregnancyId: Id, lmp: int) {
    && |tasks| == 4
    && tasks[0].dueDate == lmp + 84 && tasks[1].dueDate == lmp + 140
    && tasks[2].dueDate == lmp + 196 && tasks[3].dueDate == lmp + 252
    && (forall j, k :: 0 <= j < k < 4 ==> tasks[j].dueDate < tasks[k].dueDate)
    && (forall k :: 0 <= k < 4 ==>
          && lmp < tasks[k].dueDate < lmp + PregnancyTracking.GestationDays
          && PregnancyTracking.Trimester(tasks[k].dueDate - lmp) == (if k < 2 then k + 1 else 3)
          && tasks[k].title == "ANC Visit " + Decimal(k + 1)
          && tasks[k].taskType == "ANC Checkup" && tasks[k].priority == "High"
          && tasks[k].ashaWorkerId == caller && tasks[k].patientId == patientId
          && tasks[k].autoGenerated
          && tasks[k].relatedRecordId == pregnancyId
          && tasks[k].relatedRecordType == "PregnancyTracking")
  }

  /** The loop that builds the ANC tasks, visit by visit. */
  method BuildAncTasks(caller: Id, patientId: Id, pregnancyId: Id, lmp: int) returns (tasks: seq<Task>)
    ensures IsAncSchedule(tasks, caller, patientId, pregnancyId, lmp)
  {
    tasks := [];
    for i := 1 to 5
      invariant |tasks| == i - 1
      invariant forall k :: 0 <= k < i - 1 ==>
        && tasks[k].dueDate == lmp + 7 * AncWeeks(k + 1)
        && tasks[k].title == "ANC Visit " + Decimal(k + 1)
        && tasks[k].taskType == "ANC Checkup" && tasks[k].priority == "High"
        && tasks[k].ashaWorkerId == caller && tasks[k].patientId == patientId
        && tasks[k].autoGenerated
        && tasks[k].relatedRecordId == pregnancyId
        && tasks[k].relatedRecordType == "PregnancyTracking"
    {
      var weeksFromLmp;
      if i == 1 {
        weeksFromLmp := 12;
      } else if i == 2 {
        weeksFromLmp := 20;
      } else if i == 3 {
        weeksFromLmp := 28;
      } else {
        weeksFromLmp := 36;
      }
      var dueDate := lmp + weeksFromLmp * 7;
      tasks := tasks + [Task(
        caller, "ANC Checkup", "High", patientId,
        "ANC Visit " + Decimal(i),
        "Scheduled ANC visit " + Decimal(i) + " at " + Decimal(weeksFromLmp) + " weeks",
        dueDate, true, pregnancyId, "PregnancyTracking")];
    }
    PregnancyTracking.TrimesterByDays(84);
    PregnancyTracking.TrimesterByDays(140);
    PregnancyTracking.TrimesterByDays(196);
    PregnancyTracking.TrimesterByDays(252);
  }

  // ---------------------------------------------------------------------------
  // Immunization schedule

  /** Each vaccine with its day offset from the date of birth, in the order
      of the schedule object's keys. */
  const VaccineSchedule: seq<(string, int)> := [
    ("BCG", 0), ("OPV-0", 0), ("Hepatitis B-0", 0),
    ("OPV-1", 42), ("Pentavalent-1", 42), ("Rotavirus-1", 42), ("PCV-1", 42),
    ("OPV-2", 70), ("Pentavalent-2", 70), ("Rotavirus-2", 70), ("PCV-2", 70),
    ("OPV-3", 98), ("Pentavalent-3", 98), ("Rotavirus-3", 98), ("PCV-3", 98), ("IPV", 98),
    ("Measles-1", 270), ("Vitamin A-1", 270),
    ("DPT Booster-1", 540), ("OPV Booster", 540), ("Measles-2", 540), ("Vitamin A-2", 540),
    ("DPT Booster-2", 1825)
  ]

  /** The schedule names the vaccines of the schema's enum, in its order. */
  lemma ScheduleNamesMatch()
    ensures |VaccineSchedule| == |Immunization.VaccineNames|
    ensures forall k :: 0 <= k < |VaccineSchedule| ==> VaccineSchedule[k].0 == Immunization.VaccineNames[k]
  {
    var names := seq(|VaccineSchedule|, k requires 0 <= k < |VaccineSchedule| => VaccineSchedule[k].0);
    assert names == Immunization.VaccineNames;
  }

  /** The schedule's offsets never decrease from one entry to the next. */
  lemma ScheduleOffsetsSorted()
    ensures forall j, k :: 0 <= j <= k < |VaccineSchedule| ==> VaccineSchedule[j].1 <= VaccineSchedule[k].1
  {
    var s := VaccineSchedule;
    forall j, k | 0 <= j <= k < |s|
      ensures s[j].1 <= s[k].1
    {
      var i := j;
      while i < k
        invariant j <= i <= k
        invariant s[j].1 <= s[i].1
      {
        assert s[i].1 <= s[i + 1].1;
        i := i + 1;
      }
    }
  }

  /** The vaccine list of a child born on day `dob`: one Pending, not yet
      given vaccine for every name of the schema's enum, in the enum's
      order, each on the date of birth plus its entry's offset in days, so
      none before the birth and all in chronological order. */
  function ScheduledVaccines(dob: int): (vs: seq<Immunization.Vaccine>)
    ensures |vs| == |Immunization.VaccineNames|
    ensures forall k :: 0 <= k < |vs| ==> vs[k].name == Immunization.VaccineNames[k]
    ensures forall k :: 0 <= k < |vs| ==>
      vs[k].status == Immunization.Pending && vs[k].givenDate.None? && dob <= vs[k].scheduledDate
    ensures forall k :: 0 <= k < |vs| ==> vs[k].scheduledDate == dob + VaccineSchedule[k].1
    ensures forall j, k :: 0 <= j <= k < |vs| ==> vs[j].scheduledDate <= vs[k].scheduledDate
  {
    ScheduleOffsetsSorted();
    ScheduleNamesMatch();
    seq(|VaccineSchedule|, k requires 0 <= k < |VaccineSchedule| =>
      Immunization.Vaccine(VaccineSchedule[k].0, dob + VaccineSchedule[k].1, None, Immunization.Pending))
  }

  /** What the immunization document holds once saved on day `today`: every
      vaccine whose day has already passed is Overdue, every other one is
      Pending. */
  lemma StoredScheduleStatuses(dob: int, today: int)
    ensures forall k :: 0 <= k < |VaccineSchedule| ==>
      Immunization.RefreshedAll(ScheduledVaccines(dob), today)[k].status ==
        (if dob + VaccineSchedule[k].1 < today then Immunization.Overdue else Immunization.Pending)
  {
    var vs := ScheduledVaccines(dob);
    forall k | 0 <= k < |VaccineSchedule|
      ensures Immunization.RefreshedAll(vs, today)[k].status ==
        (if dob + VaccineSchedule[k].1 < today then Immunization.Overdue else Immunization.Pending)
    {
      Immunization.RefreshedStatusRules(vs, today, k);
    }
  }

  /** A vaccine falls in the task window: from today to 30 days on. */
  predicate DueWithinThirtyDays(v: Immunization.Vaccine, today: int) {
    today <= v.scheduledDate <= today + 30
  }

  function UpcomingVaccines(vs: seq<Immunization.Vaccine>, today: int): seq<Immunization.Vaccine> {
    Filter(vs, v => DueWithinThirtyDays(v, today))
  }

  function VaccinationTask(caller: Id, patientId: Id, immunizationId: Id, v: Immunization.Vaccine): Task {
    Task(caller, "Vaccination Follow-up", "High", patientId,
      v.name + " Vaccination", "Administer " + v.name + " vaccine",
      v.scheduledDate, true, immunizationId, "Immunization")
  }

  /** One task per upcoming vaccine, in the schedule's order. */
  function VaccinationTasks(caller: Id, patientId: Id, immunizationId: Id, vs: seq<Immunization.Vaccine>, today: int): (ts: seq<Task>)
    ensures |ts| == |UpcomingVaccines(vs, today)|
  {
    var up := UpcomingVaccines(vs, today);
    seq(|up|, k requires 0 <= k < |up| => VaccinationTask(caller, patientId, immunizationId, up[k]))
  }

  /** Every vaccination task is due within the window, and every vaccine due
      within the window has its task, named after the vaccine and due on its
      day; the tasks keep the schedule's order. */
  lemma VaccinationTasksCoverWindow(caller: Id, patientId: Id, immunizationId: Id, vs: seq<Immunization.Vaccine>, today: int)
    ensures forall t :: t in VaccinationTasks(caller, patientId, immunizationId, vs, today) ==>
      today <= t.dueDate <= today + 30 && t.relatedRecordId == immunizationId
    ensures forall v :: v in vs && DueWithinThirtyDays(v, today) ==>
      VaccinationTask(caller, patientId, immunizationId, v) in VaccinationTasks(caller, patientId, immunizationId, vs, today)
    ensures IsSubsequence(UpcomingVaccines(vs, today), vs)
  {
    var up := UpcomingVaccines(vs, today);
    var ts := VaccinationTasks(caller, patientId, immunizationId, vs, today);
    forall v | v in vs && DueWithinThirtyDays(v, today)
      ensures VaccinationTask(caller, patientId, immunizationId, v) in ts
    {
      var k :| 0 <= k < |up| && up[k] == v;
      assert ts[k] == VaccinationTask(caller, patientId, immunizationId, v);
    }
    forall t | t in ts
      ensures today <= t.dueDate <= today + 30 && t.relatedRecordId == immunizationId
    {
      var k :| 0 <= k < |ts| && ts[k] == t;
      assert up[k] in up;
    }
    FilterIsSubsequence(vs, v => DueWithinThirtyDays(v, today));
  }

  /** A child registered on its day of birth gets exactly the three birth
      doses as tasks: the next vaccines are six weeks away. */
  lemma {:induction false} NewbornGetsBirthDoseTasks(dob: int)
    ensures |UpcomingVaccines(ScheduledVaccines(dob), dob)| == 3
    ensures UpcomingVaccines(ScheduledVaccines(dob), dob) == ScheduledVaccines(dob)[..3]
  {
    var vs := ScheduledVaccines(dob);
    var p := (v: Immunization.Vaccine) => DueWithinThirtyDays(v, dob);
    var birth, later := vs[..3], vs[3..];
    assert vs == birth + later;
    BirthDoseDates(dob);
    FilterAppend(birth, later, p);
    FilterAll(birth, p);
    FilterNone(later, p);
  }

  /** The first three vaccines fall on the day of birth, the rest at least
      six weeks later. */
  lemma BirthDoseDates(dob: int)
    ensures forall v :: v in ScheduledVaccines(dob)[..3] ==> v.scheduledDate == dob
    ensures forall v :: v in ScheduledVaccines(dob)[3..] ==> v.scheduledDate >= dob + 42
  {
    var vs := ScheduledVaccines(dob);
    assert VaccineSchedule[0].1 == 0 && VaccineSchedule[1].1 == 0 && VaccineSchedule[2].1 == 0;
    assert VaccineSchedule[3].1 == 42;
    assert vs[3].scheduledDate == dob + 42;
    forall v | v in vs[3..]
      ensures v.scheduledDate >= dob + 42
    {
      var k :| 0 <= k < |vs[3..]| && vs[3..][k] == v;
      assert vs[3].scheduledDate <= vs[3 + k].scheduledDate;
    }
  }
  /** The window as written: a scheduled date, the first instant of its day,
      from the instant `now` of the registration to the same time 30 days
      later. */
  predicate DueWithinThirtyDaysAsWritten(v: Immunization.Vaccine, now: int) {
    now <= DayStart(v.scheduledDate) <= now + 30 * MillisPerDay
  }

  function UpcomingVaccinesAsWritten(vs: seq<Immunization.Vaccine>, now: int): seq<Immunization.Vaccine> {
    Filter(vs, v => DueWithinThirtyDaysAsWritten(v, now))
  }

  /** As written, a child registered on its day of birth, at any moment
      after midnight, gets no vaccination task at all: its three birth doses
      fell due at midnight, before the registration, and the next doses are
      six weeks away. Compared by day, the three birth doses get their
      tasks. */
  lemma NewbornGetsNoTasksAsWritten(dob: int, now: int)
    requires AfterMidnightOf(dob, now)
    ensures UpcomingVaccinesAsWritten(ScheduledVaccines(dob), now) == []
    ensures |UpcomingVaccines(ScheduledVaccines(dob), dob)| == 3
  {
    var vs := ScheduledVaccines(dob);
    BirthDoseDates(dob);
    forall v | v in vs
      ensures !DueWithinThirtyDaysAsWritten(v, now)
    {
      var k :| 0 <= k < |vs| && vs[k] == v;
      if k < 3 {
        assert vs[..3][k] == v;
      } else {
        assert vs[3..][k - 3] == v;
      }
      OutsideWindowAsWritten(dob, now, v);
    }
    FilterNone(vs, v => DueWithinThirtyDaysAsWritten(v, now));
    NewbornGetsBirthDoseTasks(dob);
  }

  /** A dose on the day of birth, or six weeks or more after it, is outside
      the window as written of a registration later on the day of birth. */
  lemma OutsideWindowAsWritten(dob: int, now: int, v: Immunization.Vaccine)
    requires AfterMidnightOf(dob, now)
    requires v.scheduledDate == dob || v.scheduledDate >= dob + 42
    ensures !DueWithinThirtyDaysAsWritten(v, now)
  {
    if v.scheduledDate != dob {
      DayStartMonotone(dob + 31, v.scheduledDate);
      DayStartMonotone(dob, dob + 31);
    }
  }



  // ---------------------------------------------------------------------------
  // Registration

  /** Which of the database writes fail. */
  datatype Faults = Faults(
    patientSave: bool,
    pregnancySave: bool,
    ancInsert: bool,
    immunizationSave: bool,
    vaccinationInsert: bool)

  /** The identifiers the database gives the new documents. */
  datatype NewIds = NewIds(patient: Id, pregnancy: Id, immunization: Id)

  /** The response status and every document the registration stored. */
  datatype Registration = Registration(
    status: int,
    patient: Option<Patient>,
    pregnancy: Option<PregnancyTracking.Fields>,
    ancTasks: seq<Task>,
    vaccines: Option<seq<Immunization.Vaccine>>,
    vaccinationTasks: seq<Task>)

  predicate PregnancyRequested(body: RegistrationBody) {
    body.patient.isPregnant && body.lmp.Some?
  }

  predicate ImmunizationRequested(body: RegistrationBody) {
    body.trackImmunization && body.dateOfBirth.Some?
  }

  /** Registers a patient for the worker `caller` on day `today`. */
  method AddPatient(body: RegistrationBody, caller: Id, ids: NewIds, today: int, faults: Faults)
    returns (r: Registration)
    // the response: 201 unless the patient itself cannot be saved
    ensures r.status == (if faults.patientSave then 500 else 201)
    ensures faults.patientSave ==> r == Registration(500, None, None, [], None, [])
    // the patient: the body's fields, assigned to and registered by the caller
    ensures !faults.patientSave ==> r.patient.Some? && r.patient.value.id == ids.patient
    ensures r.patient.Some? ==>
      && r.patient.value.data.assignedAshaWorker == Some(caller)
      && r.patient.value.data.registeredBy == Some(caller)
      && r.patient.value.data.(assignedAshaWorker := body.patient.assignedAshaWorker,
                               registeredBy := body.patient.registeredBy) == body.patient
    // the pregnancy record: active, EDD at LMP + 280 days, current trimester
    ensures r.pregnancy.Some? <==>
      !faults.patientSave && PregnancyRequested(body) && !faults.pregnancySave
    ensures r.pregnancy.Some? ==>
      && r.pregnancy.value.lmp == body.lmp
      && r.pregnancy.value.status == PregnancyTracking.Active
      && r.pregnancy.value.edd == Some(body.lmp.value + PregnancyTracking.GestationDays)
      && r.pregnancy.value.currentTrimester == Some(PregnancyTracking.Trimester(today - body.lmp.value))
    // the ANC tasks: the four-visit schedule, only with a stored pregnancy
    ensures r.ancTasks != [] <==> r.pregnancy.Some? && !faults.ancInsert
    ensures r.ancTasks != [] ==> IsAncSchedule(r.ancTasks, caller, ids.patient, ids.pregnancy, body.lmp.value)
    // the immunization record: the full schedule with statuses as of today
    ensures r.vaccines.Some? <==>
      !faults.patientSave && ImmunizationRequested(body) && !faults.immunizationSave
    ensures r.vaccines.Some? ==>
      r.vaccines.value == Immunization.RefreshedAll(ScheduledVaccines(body.dateOfBirth.value), today)
    // the vaccination tasks: one per vaccine due within 30 days
    ensures r.vaccinationTasks ==
      if r.vaccines.Some? && !faults.vaccinationInsert
      then VaccinationTasks(caller, ids.patient, ids.immunization, ScheduledVaccines(body.dateOfBirth.value), today)
      else []
  {
    if faults.patientSave {
      return Registration(500, None, None, [], None, []);
    }
    var data := body.patient.(assignedAshaWorker := Some(caller), registeredBy := Some(caller));
    var patient := Patient(ids.patient, data);

    var pregnancy: Option<PregnancyTracking.Fields> := None;
    var ancTasks: seq<Task> := [];
    if PregnancyRequested(body) {
      pregnancy, ancTasks := TrackPregnancy(caller, ids, body.lmp.value, today, faults);
    }
    var vaccines: Option<seq<Immunization.Vaccine>> := None;
    var vaccinationTasks: seq<Task> := [];
    if ImmunizationRequested(body) {
      vaccines, vaccinationTasks := TrackImmunization(caller, ids, body.dateOfBirth.value, today, faults);
    }
    r := Registration(201, Some(patient), pregnancy, ancTasks, vaccines, vaccinationTasks);
  }

  /** The pregnancy part of `addPatient`: an active pregnancy document for
      the LMP, updated on save, then the four ANC tasks. */
  method TrackPregnancy(caller: Id, ids: NewIds, lmp: int, today: int, faults: Faults)
    returns (pregnancy: Option<PregnancyTracking.Fields>, ancTasks: seq<Task>)
    ensures pregnancy.Some? <==> !faults.pregnancySave
    ensures pregnancy.Some? ==>
      && pregnancy.value.lmp == Some(lmp)
      && pregnancy.value.status == PregnancyTracking.Active
      && pregnancy.value.edd == Some(lmp + PregnancyTracking.GestationDays)
      && pregnancy.value.currentTrimester == Some(PregnancyTracking.Trimester(today - lmp))
    ensures ancTasks != [] <==> pregnancy.Some? && !faults.ancInsert
    ensures ancTasks != [] ==> IsAncSchedule(ancTasks, caller, ids.patient, ids.pregnancy, lmp)
  {
    pregnancy, ancTasks := None, [];
    if !faults.pregnancySave {
      var doc := new PregnancyTracking.PregnancyRecord(ids.patient, caller, Some(lmp), PregnancyTracking.Active, today);
      doc.PreSave(today, today);
      pregnancy := Some(doc.Current());
      var tasks := BuildAncTasks(caller, ids.patient, ids.pregnancy, lmp);
      if !faults.ancInsert {
        ancTasks := tasks;
      }
    }
  }

  /** The immunization part of `addPatient`: the scheduled vaccines, their
      statuses refreshed on save, then a task per vaccine due soon. */
  method TrackImmunization(caller: Id, ids: NewIds, dob: int, today: int, faults: Faults)
    returns (vaccines: Option<seq<Immunization.Vaccine>>, vaccinationTasks: seq<Task>)
    ensures vaccines.Some? <==> !faults.immunizationSave
    ensures vaccines.Some? ==> vaccines.value == Immunization.RefreshedAll(ScheduledVaccines(dob), today)
    ensures vaccinationTasks ==
      if vaccines.Some? && !faults.vaccinationInsert
      then VaccinationTasks(caller, ids.patient, ids.immunization, ScheduledVaccines(dob), today)
      else []
  {
    vaccines, vaccinationTasks := None, [];
    if !faults.immunizationSave {
      var schedule := ScheduledVaccines(dob);
      var doc := new Immunization.ImmunizationRecord(ids.patient, caller, dob, schedule, today);
      doc.PreSave(today, today);
      vaccines := Some(doc.vaccines[..]);
      var tasks := VaccinationTasks(caller, ids.patient, ids.immunization, schedule, today);
      if |tasks| > 0 && !faults.vaccinationInsert {
        vaccinationTasks := tasks;
      }
    }
  }

  // ---------------------------------------------------------------------------
  // The assigned-patients filter

  /** The equality part of the patient query: the caller's patients,
      optionally narrowed by risk level and by pregnancy. */
  datatype PatientQuery = PatientQuery(
    assignedAshaWorker: Id,
    riskLevel: Option<string>,
    isPregnant: Option<bool>)

  /** Builds the query from the request's `riskLevel` and `isPregnant`
      parameters: an empty risk level is ignored; any pregnancy parameter
      other than the string "true" asks for non-pregnant patients. */
  function AssignedPatientsQuery(caller: Id, riskLevel: Option<string>, isPregnant: Option<string>): (q: PatientQuery)
    ensures q.assignedAshaWorker == caller
    ensures q.riskLevel.Some? <==> Truthy(riskLevel)
    ensures q.riskLevel.Some? ==> q.riskLevel == riskLevel
    ensures q.isPregnant.Some? <==> isPregnant.Some?
    ensures q.isPregnant == Some(true) <==> isPregnant == Some("true")
  {
    var risk := if Truthy(riskLevel) then riskLevel else None;
    var pregnant := if isPregnant.Some? then Some(isPregnant.value == "true") else None;
    PatientQuery(caller, risk, pregnant)
  }

  predicate Matches(q: PatientQuery, p: Patient) {
    && p.data.assignedAshaWorker == Some(q.assignedAshaWorker)
    && (q.riskLevel.Some? ==> p.data.riskLevel == q.riskLevel.value)
    && (q.isPregnant.Some? ==> p.data.isPregnant == q.isPregnant.value)
  }

  /** A worker only ever sees patients assigned to them; a pregnancy
      parameter such as "false" or "yes" selects exactly the non-pregnant
      ones, and without parameters every assigned patient is listed. */
  lemma AssignedPatientsQueryMeaning(caller: Id, riskLevel: Option<string>, isPregnant: Option<string>, p: Patient)
    ensures Matches(AssignedPatientsQuery(caller, riskLevel, isPregnant), p) ==>
      p.data.assignedAshaWorker == Some(caller)
    ensures isPregnant.Some? && isPregnant.value != "true" ==>
      (Matches(AssignedPatientsQuery(caller, riskLevel, isPregnant), p) ==> !p.data.isPregnant)
    ensures !Truthy(riskLevel) && isPregnant.None? ==>
      (Matches(AssignedPatientsQuery(caller, riskLevel, isPregnant), p) <==> p.data.assignedAshaWorker == Some(caller))
  {
  }
}
