/** The ASHA worker's health-visit form (client/src/pages/AshaHealthVisitForm.jsx):
    a patient, five vital readings kept as typed text, a list of symptoms
    entered one at a time, and a follow-up. The form's state is the class
    `HealthVisitForm`; the posting of the form is reduced to whether it
    succeeds. */
module AshaHealthVisitForm {
  import opened Common

  /** The five vital readings the form has a field for. */
  const VitalKeys: set<string> := {"bloodPressure", "weight", "temperature", "hemoglobin", "pulse"}

  const AshaHome := "/asha/dashboard"

  /** What a symptom entry must look like once added: something other than
      whitespace, with no whitespace at either end. */
  predicate CleanSymptom(s: string) {
    s != "" && Trimmed(s)
  }

  class HealthVisitForm {
    var patientId: string
    var visitType: string
    var visitDate: string
    var vitals: map<string, string>
    var symptoms: seq<string>
    var notes: string
    var followUpRequired: bool
    var followUpDate: string
    var symptomInput: string
    var loading: bool

    /** Every vital field has an entry and every symptom is clean. */
    predicate Valid()
      reads this
    {
      && VitalKeys <= vitals.Keys
      && forall k :: 0 <= k < |symptoms| ==> CleanSymptom(symptoms[k])
    }

    /** The form opens on the patient named in the page's query, if any,
        a general visit on `today`, empty vitals and no symptoms. */
    constructor (preselectedPatientId: Option<string>, today: string)
      ensures Valid()
      ensures patientId == (if Truthy(preselectedPatientId) then preselectedPatientId.value else "")
      ensures visitType == "General" && visitDate == today
      ensures vitals == map k | k in VitalKeys :: ""
      ensures symptoms == [] && symptomInput == "" && notes == ""
      ensures !followUpRequired && followUpDate == "" && !loading
    {
      patientId := if Truthy(preselectedPatientId) then preselectedPatientId.value else "";
      visitType := "General";
      visitDate := today;
      vitals := map k | k in VitalKeys :: "";
      symptoms := [];
      notes := "";
      followUpRequired := false;
      followUpDate := "";
      symptomInput := "";
      loading := false;
    }

    /** `handleVitalChange`: one reading takes the typed text, the others
        keep theirs. */
    method HandleVitalChange(field: string, value: string)
      requires Valid()
      modifies this
      ensures Valid()
      ensures vitals == old(vitals)[field := value]
      ensures symptoms == old(symptoms) && symptomInput == old(symptomInput) && patientId == old(patientId)
    {
      vitals := vitals[field := value];
    }

    /** Typing in the symptom box. */
    method SetSymptomInput(value: string)
      requires Valid()
      modifies this
      ensures Valid()
      ensures symptomInput == value
      ensures symptoms == old(symptoms) && vitals == old(vitals)
    {
      symptomInput := value;
    }

    /** `addSymptom`: a box holding more than whitespace (its trimmed text
        is not empty) adds that trimmed text at the end and is cleared; a
        blank box changes nothing. */
    method AddSymptom()
      requires Valid()
      modifies this
      ensures Valid()
      ensures Trim(old(symptomInput)) != "" ==>
        symptoms == old(symptoms) + [Trim(old(symptomInput))] && symptomInput == ""
      ensures Trim(old(symptomInput)) == "" ==>
        symptoms == old(symptoms) && symptomInput == old(symptomInput)
      ensures vitals == old(vitals) && patientId == old(patientId)
    {
      var entry := Trim(symptomInput);
      if entry != "" {
        AppendCleanSymptom(symptoms, entry);
        symptoms := symptoms + [entry];
        symptomInput := "";
      }
    }

    /** `removeSymptom`: the chip at `index` goes, the others keep their
        order. */
    method RemoveSymptom(index: int)
      requires Valid()
      modifies this
      ensures Valid()
      ensures symptoms == RemoveAt(old(symptoms), index)
      ensures vitals == old(vitals) && symptomInput == old(symptomInput)
    {
      var before := symptoms;
      symptoms := RemoveAt(symptoms, index);
      forall k | 0 <= k < |symptoms|
        ensures CleanSymptom(symptoms[k])
      {
        if 0 <= index < |before| {
          if k < index {
            assert symptoms[k] == before[k];
          } else {
            assert symptoms[k] == before[k + 1];
          }
        }
      }
    }

    /** The follow-up checkbox. */
    method SetFollowUpRequired(checked: bool)
      requires Valid()
      modifies this
      ensures Valid()
      ensures followUpRequired == checked && followUpDate == old(followUpDate)
      ensures symptoms == old(symptoms) && vitals == old(vitals)
    {
      followUpRequired := checked;
    }

    /** `handleSubmit`: posts the form as it stands; `posted` is whether the
        request succeeds. A success leads back to the ASHA dashboard with
        the form still loading; a failure stops loading and stays. */
    method HandleSubmit(posted: bool) returns (destination: Option<string>)
      requires Valid()
      modifies this
      ensures Valid()
      ensures posted ==> destination == Some(AshaHome) && loading
      ensures !posted ==> destination.None? && !loading
      ensures symptoms == old(symptoms) && vitals == old(vitals) && patientId == old(patientId)
    {
      loading := true;
      if posted {
        destination := Some(AshaHome);
      } else {
        destination := None;
        loading := false;
      }
    }
  }

  /** A clean entry appended to clean entries leaves them all clean. */
  lemma AppendCleanSymptom(symptoms: seq<string>, entry: string)
    requires forall k :: 0 <= k < |symptoms| ==> CleanSymptom(symptoms[k])
    requires CleanSymptom(entry)
    ensures forall k :: 0 <= k < |symptoms + [entry]| ==> CleanSymptom((symptoms + [entry])[k])
  {
  }

  /** Adding a symptom and then removing the last chip gives back the list
      it started from. */
  lemma {:induction false} RemoveAddedSymptom(symptoms: seq<string>, entry: string)
    ensures RemoveAt(symptoms + [entry], |symptoms|) == symptoms
  {
    assert (symptoms + [entry])[..|symptoms|] == symptoms;
    assert (symptoms + [entry])[|symptoms| + 1..] == [];
  }
}
