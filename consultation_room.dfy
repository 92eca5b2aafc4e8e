/** The consultation room (client/src/pages/ConsultationRoom.jsx): it finds
    the appointment being consulted, starts the video call on its own for a
    patient, and lets the doctor draft a prescription that is sent to the
    prescription handler of the doctor's side. The video call itself is not
    part of this model; only whether the page starts it is. */
module ConsultationRoom {
  import opened Common
  import opened AppointmentController
  import DoctorController

  // ---------------------------------------------------------------------------
  // Finding the appointment

  /** `list.find(a => a._id === id)`: the first appointment with the
      identifier. */
  function FindById(xs: seq<Appointment>, id: Id): (r: Option<Appointment>)
    ensures r.Some? ==> r.value in xs && r.value.id == id
    ensures r.None? <==> forall a :: a in xs ==> a.id != id
  {
    if xs == [] then None
    else if xs[0].id == id then Some(xs[0])
    else FindById(xs[1..], id)
  }

  datatype Located = Found(appointment: Appointment) | NotFound | LoadFailed

  /** The outcome of looking the appointment up in one response. */
  function FromList(xs: seq<Appointment>, id: Id): (r: Located)
    ensures r.Found? <==> FindById(xs, id).Some?
    ensures r.Found? ==> r.appointment == FindById(xs, id).value
    ensures !r.LoadFailed?
  {
    match FindById(xs, id)
    case Some(a) => Found(a)
    case None => NotFound
  }

  /** `fetchAppointment`: three responses, each `None` when its request
      fails. `doctorList` is the doctor's list, asked first. `patientList`
      is the caller's own list, asked in the same `try` block when the
      doctor's list comes back without the appointment. `retryList` is the
      caller's own list asked again by the `catch` block, which runs when
      either earlier request fails; only a failure of that retry is a load
      failure. */
  function Locate(doctorList: Option<seq<Appointment>>, patientList: Option<seq<Appointment>>,
                  retryList: Option<seq<Appointment>>, id: Id): (r: Located)
    ensures doctorList.Some? && FindById(doctorList.value, id).Some? ==>
      r == Found(FindById(doctorList.value, id).value)
    ensures doctorList.Some? && FindById(doctorList.value, id).None? && patientList.Some? ==>
      r == FromList(patientList.value, id)
    ensures (doctorList.None? || (FindById(doctorList.value, id).None? && patientList.None?)) ==>
      r == (if retryList.Some? then FromList(retryList.value, id) else LoadFailed)
    ensures r.Found? ==>
      && r.appointment.id == id
      && ((doctorList.Some? && r.appointment in doctorList.value)
          || (patientList.Some? && r.appointment in patientList.value)
          || (retryList.Some? && r.appointment in retryList.value))
    ensures r.LoadFailed? <==>
      retryList.None? && (doctorList.None? || (FindById(doctorList.value, id).None? && patientList.None?))
  {
    if doctorList.Some? && FindById(doctorList.value, id).Some? then
      Found(FindById(doctorList.value, id).value)
    else if doctorList.Some? && patientList.Some? then
      FromList(patientList.value, id)
    else if retryList.Some? then
      FromList(retryList.value, id)
    else
      LoadFailed
  }

  /** A failed request for the caller's own list is not the end: the retry
      in the `catch` block still finds an appointment it holds. */
  lemma RetryAfterFailedOwnList(doctorList: seq<Appointment>, retryList: seq<Appointment>, a: Appointment)
    requires FindById(doctorList, a.id).None? && a in retryList
    ensures Locate(Some(doctorList), None, Some(retryList), a.id).Found?
  {
  }

  // ---------------------------------------------------------------------------
  // Starting the call

  /** `user?.role === 'Doctor'`: the doctor starts calls, the patient
      receives them. */
  predicate IsDoctor(role: Option<string>) {
    role == Some("Doctor")
  }

  /** The browser is taken for Firefox when its lower-cased user agent
      contains "firefox". */
  predicate IsFirefox(userAgent: string) {
    Contains(Lower(userAgent), "firefox")
  }

  /** The page starts the call by itself for a patient once the appointment
      is loaded, while no call is active or connecting, outside Firefox. */
  predicate AutoStarts(role: Option<string>, appointmentLoaded: bool, isCallActive: bool,
                       isConnecting: bool, userAgent: string) {
    !IsDoctor(role) && appointmentLoaded && !isCallActive && !isConnecting && !IsFirefox(userAgent)
  }

  /** A doctor's call is never started by the page, nor one in Firefox,
      whatever the case of "Firefox" in its user agent; a call never starts
      twice. */
  lemma AutoStartOnlyForPatients(role: Option<string>, appointmentLoaded: bool, isCallActive: bool,
                                 isConnecting: bool, userAgent: string)
    ensures IsDoctor(role) ==> !AutoStarts(role, appointmentLoaded, isCallActive, isConnecting, userAgent)
    ensures isCallActive || isConnecting ==> !AutoStarts(role, appointmentLoaded, isCallActive, isConnecting, userAgent)
    ensures Contains(userAgent, "Firefox") ==> !AutoStarts(role, appointmentLoaded, isCallActive, isConnecting, userAgent)
    ensures Contains(userAgent, "firefox") ==> !AutoStarts(role, appointmentLoaded, isCallActive, isConnecting, userAgent)
  {
    if Contains(userAgent, "Firefox") {
      LowerContains(userAgent, "Firefox");
      assert Lower("Firefox") == "firefox";
    }
    if Contains(userAgent, "firefox") {
      LowerContains(userAgent, "firefox");
      assert Lower("firefox") == "firefox";
    }
  }

  // ---------------------------------------------------------------------------
  // The prescription draft

  const BlankMedicine := Medicine("", "", "", "", "")

  datatype MedicineField = Name | Dosage | Frequency | Duration | Instructions

  function FieldOf(m: Medicine, f: MedicineField): string {
    match f
    case Name => m.name
    case Dosage => m.dosage
    case Frequency => m.frequency
    case Duration => m.duration
    case Instructions => m.instructions
  }

  /** `medicine[field] = value`: that field changes and no other. */
  function WithField(m: Medicine, f: MedicineField, value: string): (r: Medicine)
    ensures FieldOf(r, f) == value
    ensures forall g :: g != f ==> FieldOf(r, g) == FieldOf(m, g)
  {
    match f
    case Name => m.(name := value)
    case Dosage => m.(dosage := value)
    case Frequency => m.(frequency := value)
    case Duration => m.(duration := value)
    case Instructions => m.(instructions := value)
  }

  /** `testsRecommended.split(',').map(t => t.trim())`. */
  function ParseTests(s: string): seq<string> {
    TrimAll(Split(s, ','))
  }

  /** `pieces.map(t => t.trim())`. */
  function TrimAll(pieces: seq<string>): (r: seq<string>)
    ensures |r| == |pieces|
    ensures forall k :: 0 <= k < |r| ==> r[k] == Trim(pieces[k])
  {
    if pieces == [] then [] else [Trim(pieces[0])] + TrimAll(pieces[1..])
  }

  /** One test per comma-separated piece, each without whitespace at
      either end, and empty exactly when its piece is blank. */
  lemma ParseTestsMeaning(s: string)
    ensures |ParseTests(s)| == Count(s, ',') + 1
    ensures forall k :: 0 <= k < |ParseTests(s)| ==>
      && Trimmed(ParseTests(s)[k])
      && (ParseTests(s)[k] == [] <==> AllWhitespace(Split(s, ',')[k]))
  {
    var parts := Split(s, ',');
    var tests := TrimAll(parts);
    forall k | 0 <= k < |tests|
      ensures Trimmed(tests[k]) && (tests[k] == [] <==> AllWhitespace(parts[k]))
    {
      assert tests[k] == Trim(parts[k]);
    }
  }

  /** An empty tests field still sends one test, the empty name. */
  lemma ParseTestsEmpty()
    ensures ParseTests("") == [""]
  {
    assert Split("", ',') == [""];
  }

  /** One leading space is trimmed away. */
  lemma TrimLeadingSpace(t: string)
    requires t != [] && Trimmed(t)
    ensures Trim(" " + t) == t
  {
    var spaced := " " + t;
    assert spaced[|spaced| - 1] == t[|t| - 1];
    assert TrimEnd(spaced) == spaced;
    assert spaced[1..] == t;
    assert TrimStart(t) == t;
  }

  /** A field written as "<first>, <second>" gives back the two names. */
  lemma ParseTestsTwo(first: string, second: string)
    requires first != "" && second != "" && Trimmed(first) && Trimmed(second)
    requires ',' !in first && ',' !in second
    ensures ParseTests(first + ", " + second) == [first, second]
  {
    var spaced := " " + second;
    var s := first + ", " + second;
    assert s == first + [','] + spaced;
    SplitTwoWords(first, spaced, ',');
    var parts := Split(s, ',');
    assert parts == [first, spaced];
    TrimOfTrimmed(first);
    TrimLeadingSpace(second);
    assert TrimAll(parts) == [Trim(first)] + TrimAll([spaced]);
  }

  datatype DraftField = Diagnosis | Advice | TestsRecommended

  /** The doctor's prescription form. */
  class PrescriptionDraft {
    var diagnosis: string
    var advice: string
    var testsRecommended: string
    var medicines: seq<Medicine>

    /** The form opens empty with one blank medicine row. */
    constructor ()
      ensures diagnosis == "" && advice == "" && testsRecommended == ""
      ensures medicines == [BlankMedicine]
    {
      diagnosis, advice, testsRecommended := "", "", "";
      medicines := [BlankMedicine];
    }

    /** `handlePrescriptionChange`: one text field takes the new value. */
    method HandlePrescriptionChange(field: DraftField, value: string)
      modifies this
      ensures diagnosis == (if field == Diagnosis then value else old(diagnosis))
      ensures advice == (if field == Advice then value else old(advice))
      ensures testsRecommended == (if field == TestsRecommended then value else old(testsRecommended))
      ensures medicines == old(medicines)
    {
      match field
      case Diagnosis => diagnosis := value;
      case Advice => advice := value;
      case TestsRecommended => testsRecommended := value;
    }

    /** `handleMedicineChange`: one field of one medicine row takes the new
        value; the row must exist. */
    method HandleMedicineChange(index: nat, field: MedicineField, value: string)
      requires index < |medicines|
      modifies this
      ensures |medicines| == |old(medicines)|
      ensures FieldOf(medicines[index], field) == value
      ensures forall g :: g != field ==> FieldOf(medicines[index], g) == FieldOf(old(medicines)[index], g)
      ensures forall k :: 0 <= k < |medicines| && k != index ==> medicines[k] == old(medicines)[k]
      ensures diagnosis == old(diagnosis) && advice == old(advice) && testsRecommended == old(testsRecommended)
    {
      medicines := medicines[index := WithField(medicines[index], field, value)];
    }

    /** `addMedicine`: a blank row at the end. */
    method AddMedicine()
      modifies this
      ensures medicines == old(medicines) + [BlankMedicine]
      ensures diagnosis == old(diagnosis) && advice == old(advice) && testsRecommended == old(testsRecommended)
    {
      medicines := medicines + [BlankMedicine];
    }

    /** `removeMedicine`: the row at `index` goes, the others keep their
        order. The page offers removal only from the second row on, so the
        first row always stays. */
    method RemoveMedicine(index: int)
      modifies this
      ensures medicines == RemoveAt(old(medicines), index)
      ensures 0 < index && old(medicines) != [] ==> medicines != [] && medicines[0] == old(medicines)[0]
      ensures diagnosis == old(diagnosis) && advice == old(advice) && testsRecommended == old(testsRecommended)
    {
      medicines := RemoveAt(medicines, index);
    }

    /** The body `handleSubmit` posts: the consultation's appointment and
        patient, the text fields, the medicine rows and the parsed tests.
        The server accepts it exactly when the patient is known, a
        diagnosis is written and every row is filled in. */
    function Payload(appointmentId: Id, patientId: Id): (body: DoctorController.PrescriptionBody)
      reads this
      ensures body.appointmentId == Some(appointmentId) && body.patientId == Some(patientId)
      ensures body.medicines == medicines && body.testsRecommended == ParseTests(testsRecommended)
      ensures DoctorController.PassesSchema(body) <==>
        patientId != "" && diagnosis != "" && forall m :: m in medicines ==> DoctorController.Filled(m)
    {
      DoctorController.PrescriptionBody(Some(appointmentId), Some(patientId), Some(diagnosis),
        medicines, Some(advice), ParseTests(testsRecommended))
    }
  }
}
