/** The patient records list (client/src/pages/PatientsInfo.jsx): a search
    box filters the patients by name, ignoring case, or by ABHA identifier,
    exactly; each card carries a QR code. */
module PatientsInfo {
  import opened Common

  /** The fields of a patient the list uses. */
  datatype PatientCard = PatientCard(id: Id, fullName: string, abhaId: Option<string>, qrCodeHash: Option<string>)

  /** The filter's test: the name contains the term ignoring case, or the
      ABHA identifier, when there is one, contains it as typed. */
  predicate MatchesSearch(p: PatientCard, term: string) {
    || Contains(Lower(p.fullName), Lower(term))
    || (p.abhaId.Some? && Contains(p.abhaId.value, term))
  }

  /** `filteredPatients`: the matching patients in list order; an empty
      search keeps every patient. */
  function Filtered(patients: seq<PatientCard>, term: string): (r: seq<PatientCard>)
    ensures forall p :: p in r <==> p in patients && MatchesSearch(p, term)
    ensures IsSubsequence(r, patients)
    ensures term == "" ==> r == patients
  {
    var matches := (p: PatientCard) => MatchesSearch(p, term);
    FilterIsSubsequence(patients, matches);
    EmptyTermMatches(patients, term);
    if term == "" then
      FilterAll(patients, matches);
      Filter(patients, matches)
    else
      Filter(patients, matches)
  }

  /** Every name contains the empty term. */
  lemma EmptyTermMatches(patients: seq<PatientCard>, term: string)
    ensures term == "" ==> forall p :: p in patients ==> MatchesSearch(p, term)
  {
    if term == "" {
      forall p | p in patients
        ensures MatchesSearch(p, term)
      {
        ContainsEmpty(Lower(p.fullName));
      }
    }
  }

  /** A patient without an ABHA identifier is found only through the name. */
  lemma WithoutAbhaOnlyByName(p: PatientCard, term: string)
    requires p.abhaId.None?
    ensures MatchesSearch(p, term) <==> Contains(Lower(p.fullName), Lower(term))
  {
  }

  /** Searching for a patient's ABHA identifier, or for their name in any
      case, finds them. */
  lemma SearchFindsPatient(patients: seq<PatientCard>, p: PatientCard, term: string)
    requires p in patients
    requires (p.abhaId.Some? && term == p.abhaId.value) || Lower(term) == Lower(p.fullName)
    ensures p in Filtered(patients, term)
  {
    if p.abhaId.Some? && term == p.abhaId.value {
      ContainsSelf(term);
    } else {
      ContainsSelf(Lower(p.fullName));
    }
  }

  /** The QR code's value: the stored hash, or the identifier when the hash
      is missing or empty. */
  function QrValue(p: PatientCard): (v: string)
    ensures Truthy(p.qrCodeHash) ==> v == p.qrCodeHash.value
    ensures !Truthy(p.qrCodeHash) ==> v == p.id
  {
    if Truthy(p.qrCodeHash) then p.qrCodeHash.value else p.id
  }
}
