/** The patient's side of appointments (server/controllers/appointmentController.js):
    booking an appointment with a doctor, and listing the caller's own
    appointments with the prescription of each completed one attached.
    Also the appointment and prescription documents the doctor's side
    shares (server/models/Appointment.js, server/models/Prescription.js). */
module AppointmentController {
  import opened Common

  /** Status values; the schema's enum is Pending, Confirmed, Completed and
      Cancelled, but the doctor's status update writes whatever string it is
      sent, so a status is kept as a string. */
  const Pending := "Pending"
  const Confirmed := "Confirmed"
  const Completed := "Completed"
  const Cancelled := "Cancelled"

  datatype Appointment = Appointment(
    id: Id,
    patientId: Id,
    doctorId: Id,
    status: string,
    date: string,
    timeSlot: string,
    reason: Option<string>)

  datatype Medicine = Medicine(
    name: string,
    dosage: string,
    frequency: string,
    duration: string,
    instructions: string)

  datatype Prescription = Prescription(
    id: Id,
    appointmentId: Option<Id>,
    patientId: Id,
    doctorId: Id,
    diagnosis: string,
    medicines: seq<Medicine>,
    advice: Option<string>,
    testsRecommended: seq<string>)

  /** The booking request's fields, `None` when absent. */
  datatype BookingBody = BookingBody(
    doctorId: Option<Id>,
    date: Option<string>,
    timeSlot: Option<string>,
    reason: Option<string>)

  datatype Booked =
    | Created(appointment: Appointment)
    | BadRequest(message: string)
    | ServerError

  /** `bookAppointment` for the logged-in `caller`; `newId` is the identifier
      the database gives the document and `saveFails` whether saving it
      fails. */
  function BookAppointment(body: BookingBody, caller: Id, newId: Id, saveFails: bool): (r: Booked)
    ensures r.BadRequest? <==> !Truthy(body.doctorId) || !Truthy(body.date) || !Truthy(body.timeSlot)
    ensures r.ServerError? <==> !r.BadRequest? && saveFails
    ensures r.Created? ==>
      && r.appointment.id == newId
      && r.appointment.patientId == caller
      && Some(r.appointment.doctorId) == body.doctorId
      && Some(r.appointment.date) == body.date
      && Some(r.appointment.timeSlot) == body.timeSlot
      && r.appointment.reason == body.reason
      && r.appointment.status == Pending
  {
    if !Truthy(body.doctorId) || !Truthy(body.date) || !Truthy(body.timeSlot) then
      BadRequest("All fields are required")
    else if saveFails then ServerError
    else Created(Appointment(newId, caller, body.doctorId.value, Pending, body.date.value, body.timeSlot.value, body.reason))
  }

  /** A booking is always the caller's own: the body cannot book on behalf
      of another patient, and the reason is the only optional field. */
  lemma BookingIsCallers(body: BookingBody, caller: Id, newId: Id)
    requires Truthy(body.doctorId) && Truthy(body.date) && Truthy(body.timeSlot)
    ensures BookAppointment(body, caller, newId, false).Created?
    ensures BookAppointment(body, caller, newId, false).appointment.patientId == caller
    ensures BookAppointment(body.(reason := None), caller, newId, false).Created?
  {
  }

  /** `Prescription.findOne({ appointmentId })`: the first stored
      prescription written for the appointment. */
  function PrescriptionFor(prescriptions: seq<Prescription>, appointmentId: Id): (r: Option<Prescription>)
    ensures r.Some? <==> exists p :: p in prescriptions && p.appointmentId == Some(appointmentId)
    ensures r.Some? ==> r.value in prescriptions && r.value.appointmentId == Some(appointmentId)
  {
    if prescriptions == [] then None
    else if prescriptions[0].appointmentId == Some(appointmentId) then Some(prescriptions[0])
    else PrescriptionFor(prescriptions[1..], appointmentId)
  }

  /** The `prescription` key of a listed appointment: absent unless the
      appointment is completed, and then present even when no prescription
      was found (`null`). */
  datatype PrescriptionKey = NoKey | Key(prescription: Option<Prescription>)

  datatype ListedAppointment = ListedAppointment(appointment: Appointment, prescription: PrescriptionKey)

  function Listed(a: Appointment, prescriptions: seq<Prescription>): ListedAppointment {
    if a.status == Completed then ListedAppointment(a, Key(PrescriptionFor(prescriptions, a.id)))
    else ListedAppointment(a, NoKey)
  }

  /** The query `{ patientId: caller }`: the caller's appointments, in the
      order the database returns them. */
  function Mine(appointments: seq<Appointment>, caller: Id): seq<Appointment> {
    Filter(appointments, (a: Appointment) => a.patientId == caller)
  }

  /** `getMyAppointments`: the caller's appointments, in the order the query
      returns them, each with its prescription key. */
  function MyAppointments(appointments: seq<Appointment>, prescriptions: seq<Prescription>, caller: Id): (r: seq<ListedAppointment>)
    ensures |r| == |Mine(appointments, caller)|
    ensures forall k :: 0 <= k < |r| ==> r[k].appointment == Mine(appointments, caller)[k]
  {
    var mine := Mine(appointments, caller);
    seq(|mine|, k requires 0 <= k < |mine| => Listed(mine[k], prescriptions))
  }

  /** Every listed appointment is the caller's; a listed appointment carries
      the prescription key exactly when it is completed, and the attached
      prescription belongs to that appointment. */
  lemma MyAppointmentsMeaning(appointments: seq<Appointment>, prescriptions: seq<Prescription>, caller: Id)
    ensures forall l :: l in MyAppointments(appointments, prescriptions, caller) ==>
      && l.appointment in appointments
      && l.appointment.patientId == caller
      && (l.prescription.Key? <==> l.appointment.status == Completed)
      && (l.prescription.Key? && l.prescription.prescription.Some? ==>
            l.prescription.prescription.value.appointmentId == Some(l.appointment.id))
    ensures forall a :: a in appointments && a.patientId == caller ==>
      Listed(a, prescriptions) in MyAppointments(appointments, prescriptions, caller)
  {
    var mine := Mine(appointments, caller);
    var r := MyAppointments(appointments, prescriptions, caller);
    forall l | l in r
      ensures l.appointment in appointments && l.appointment.patientId == caller
    {
      var k :| 0 <= k < |r| && r[k] == l;
      assert mine[k] in mine;
    }
    forall a | a in appointments && a.patientId == caller
      ensures Listed(a, prescriptions) in r
    {
      var k :| 0 <= k < |mine| && mine[k] == a;
      assert r[k] == Listed(a, prescriptions);
    }
  }
}
