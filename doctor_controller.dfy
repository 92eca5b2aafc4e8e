/** The doctor's side of appointments (server/controllers/doctorController.js):
    changing an appointment's status and writing a prescription, which also
    marks the consultation's appointment as completed. The appointment and
    prescription collections are the fields of `Clinic`, which the two
    handlers update. */
module DoctorController {
  import opened Common
  import opened AppointmentController

  /** The prescription request's fields, `None` when absent. */
  datatype PrescriptionBody = PrescriptionBody(
    appointmentId: Option<Id>,
    patientId: Option<Id>,
    diagnosis: Option<string>,
    medicines: seq<Medicine>,
    advice: Option<string>,
    testsRecommended: seq<string>)

  /** A medicine's required fields: name, dosage, frequency and duration
      (an empty string does not count as given). The consultation room's
      medicine rows mark the same four inputs required. */
  predicate Filled(m: Medicine) {
    m.name != "" && m.dosage != "" && m.frequency != "" && m.duration != ""
  }

  /** The schema's required fields: a patient, a diagnosis, and every
      medicine filled. */
  predicate PassesSchema(body: PrescriptionBody) {
    && Truthy(body.patientId) && Truthy(body.diagnosis)
    && forall m :: m in body.medicines ==> Filled(m)
  }

  datatype Written = Written(prescription: Prescription) | WriteError

  /** The stored appointments and prescriptions. */
  class Clinic {
    var appointments: map<Id, Appointment>
    var prescriptions: seq<Prescription>

    constructor (appointments: map<Id, Appointment>, prescriptions: seq<Prescription>)
      ensures this.appointments == appointments && this.prescriptions == prescriptions
    {
      this.appointments := appointments;
      this.prescriptions := prescriptions;
    }

    /** `updateAppointmentStatus`: sets the status of appointment `id` to
        whatever `status` the request carries (no check against the schema's
        enum or against who the doctor is) and answers with the updated
        appointment, or with `null` when there is no such appointment. */
    method UpdateAppointmentStatus(id: Id, status: string) returns (r: Option<Appointment>)
      modifies this
      ensures id in old(appointments) ==>
        && appointments == old(appointments)[id := old(appointments)[id].(status := status)]
        && r == Some(appointments[id])
      ensures id !in old(appointments) ==> appointments == old(appointments) && r.None?
      ensures prescriptions == old(prescriptions)
    {
      if id in appointments {
        var updated := appointments[id].(status := status);
        appointments := appointments[id := updated];
        r := Some(updated);
      } else {
        r := None;
      }
    }

    /** `createPrescription` by the doctor `caller`: stores the prescription
        with the caller as its doctor and, when it names an appointment that
        exists, marks that appointment Completed. `newId` is the new
        document's identifier; `saveFails` stands for any other failure of
        the save. */
    method CreatePrescription(body: PrescriptionBody, caller: Id, newId: Id, saveFails: bool) returns (r: Written)
      modifies this
      ensures r.Written? <==> PassesSchema(body) && !saveFails
      ensures r.Written? ==>
        && prescriptions == old(prescriptions) + [r.prescription]
        && r.prescription == Prescription(newId, body.appointmentId, body.patientId.value, caller,
             body.diagnosis.value, body.medicines, body.advice, body.testsRecommended)
      ensures r.Written? && Truthy(body.appointmentId) && body.appointmentId.value in old(appointments) ==>
        appointments == old(appointments)[body.appointmentId.value :=
          old(appointments)[body.appointmentId.value].(status := Completed)]
      ensures !(r.Written? && Truthy(body.appointmentId) && body.appointmentId.value in old(appointments)) ==>
        appointments == old(appointments)
      ensures r.WriteError? ==> prescriptions == old(prescriptions)
    {
      if !PassesSchema(body) || saveFails {
        return WriteError;
      }
      var p := Prescription(newId, body.appointmentId, body.patientId.value, caller,
        body.diagnosis.value, body.medicines, body.advice, body.testsRecommended);
      prescriptions := prescriptions + [p];
      if Truthy(body.appointmentId) {
        var _ := UpdateAppointmentStatus(body.appointmentId.value, Completed);
      }
      r := Written(p);
    }
  }

  /** Appending a prescription changes the one found for an appointment
      only if none was stored for it before: the first prescription written
      for an appointment is the one its patient sees. */
  lemma {:induction false} PrescriptionForAppend(ps: seq<Prescription>, p: Prescription, appointmentId: Id)
    ensures PrescriptionFor(ps + [p], appointmentId) ==
      if PrescriptionFor(ps, appointmentId).Some? then PrescriptionFor(ps, appointmentId)
      else if p.appointmentId == Some(appointmentId) then Some(p)
      else None
  {
    if ps != [] {
      assert (ps + [p])[1..] == ps[1..] + [p];
      PrescriptionForAppend(ps[1..], p, appointmentId);
    } else {
      assert [] + [p] == [p];
    }
  }

  /** After a doctor writes the first prescription of a consultation, the
      patient's listing shows the appointment as completed with that
      prescription attached. */
  lemma PrescribedConsultationIsListed(a: Appointment, ps: seq<Prescription>, p: Prescription)
    requires PrescriptionFor(ps, a.id).None? && p.appointmentId == Some(a.id)
    ensures Listed(a.(status := Completed), ps + [p]).prescription == Key(Some(p))
  {
    PrescriptionForAppend(ps, p, a.id);
  }
}
