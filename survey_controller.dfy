/** The field survey submission (server/controllers/surveyController.js,
    `createSurvey`, storing the document of server/models/Survey.js). The
    survey is filed under one fixed placeholder patient; the patient's
    name and age in the request are not stored. */
module SurveyController {
  import opened Common

  /** The placeholder patient every survey is filed under. */
  const PlaceholderPatientId: Id := "6430378b27293a3861234567"

  /** The request's fields, `None` when absent. Vital signs are kept as the
      text the request carries. */
  datatype SurveyBody = SurveyBody(
    patientName: Option<string>,
    age: Option<string>,
    bloodPressure: Option<string>,
    temperature: Option<string>,
    symptoms: Option<string>,
    ashaId: Option<Id>,
    timestamp: Option<int>)

  datatype Vitals = Vitals(bloodPressure: Option<string>, temperature: Option<string>)

  datatype Survey = Survey(
    patientId: Id,
    ashaId: Id,
    vitals: Vitals,
    symptoms: seq<string>,
    timestamp: int)

  datatype Submitted = Saved(survey: Survey) | ServerError

  /** `symptoms ? symptoms.split(',') : []`. */
  function SymptomList(symptoms: Option<string>): (r: seq<string>)
    ensures !Truthy(symptoms) <==> r == []
    ensures Truthy(symptoms) ==> Join(r, ',') == symptoms.value
  {
    if Truthy(symptoms) then
      JoinSplit(symptoms.value, ',');
      Split(symptoms.value, ',')
    else []
  }

  /** `createSurvey` at clock reading `now`: the reporting worker is
      required by the schema; `saveFails` stands for any other failure of
      the save. The stored time is `timestamp || new Date()`: the body's
      timestamp unless it is absent or 0. */
  function CreateSurvey(body: SurveyBody, now: int, saveFails: bool): (r: Submitted)
    ensures r.Saved? <==> Truthy(body.ashaId) && !saveFails
    ensures r.Saved? ==>
      && r.survey.patientId == PlaceholderPatientId
      && Some(r.survey.ashaId) == body.ashaId
      && r.survey.vitals == Vitals(body.bloodPressure, body.temperature)
      && r.survey.symptoms == SymptomList(body.symptoms)
      && r.survey.timestamp == (if TruthyNumber(body.timestamp) then body.timestamp.value else now)
  {
    if !Truthy(body.ashaId) || saveFails then ServerError
    else
      var timestamp := if TruthyNumber(body.timestamp) then body.timestamp.value else now;
      Saved(Survey(PlaceholderPatientId, body.ashaId.value,
        Vitals(body.bloodPressure, body.temperature), SymptomList(body.symptoms), timestamp))
  }

  /** What the patient is called and how old they are make no difference to
      the stored survey. */
  lemma SurveyIgnoresPatient(body: SurveyBody, name: Option<string>, age: Option<string>, now: int, saveFails: bool)
    ensures CreateSurvey(body.(patientName := name, age := age), now, saveFails) == CreateSurvey(body, now, saveFails)
  {
  }

  /** Symptoms typed as "fever,cough" are stored as the two entries, and one
      symptom without a comma as itself alone; the pieces are not trimmed. */
  lemma SymptomListExamples(a: string, b: string)
    requires a != "" && ',' !in a && ',' !in b
    ensures SymptomList(Some(a + [','] + b)) == [a, b]
    ensures SymptomList(Some(a)) == [a]
  {
    SplitTwoWords(a, b, ',');
    SplitWithoutSeparator(a, ',');
  }
}
