/** A patient's own health records page (client/src/pages/PatientHealthRecords.jsx):
    the logged-in user is matched to a patient record, and only then are
    that patient's visits, pregnancy, immunisation and alerts fetched. */
module PatientHealthRecords {
  import opened Common

  /** The fields of a patient record the match uses; `None` for a field the
      record lacks. */
  datatype PatientRecord = PatientRecord(id: Id, fullName: Option<string>, contactNumber: Option<string>)

  /** The logged-in user as the page sees it. */
  datatype User = User(id: Option<Id>, name: Option<string>, email: Option<string>)

  /** `s?.toLowerCase()`: undefined stays undefined. */
  function LowerOpt(o: Option<string>): (r: Option<string>)
    ensures r.Some? <==> o.Some?
    ensures r.Some? ==> r.value == Lower(o.value)
  {
    if o.Some? then Some(Lower(o.value)) else None
  }

  /** The match: the names agree ignoring case (two missing names agree),
      the record's contact number is the user's email, or the record is
      the user's own identifier. */
  predicate IsUsersRecord(p: PatientRecord, user: User) {
    || LowerOpt(p.fullName) == LowerOpt(user.name)
    || p.contactNumber == user.email
    || Some(p.id) == user.id
  }

  /** `patients.find(...)`: the first record that matches. */
  function FindOwnRecord(patients: seq<PatientRecord>, user: User): (r: Option<PatientRecord>)
    ensures r.Some? ==> r.value in patients && IsUsersRecord(r.value, user)
    ensures r.None? <==> forall p :: p in patients ==> !IsUsersRecord(p, user)
  {
    if patients == [] then None
    else if IsUsersRecord(patients[0], user) then Some(patients[0])
    else FindOwnRecord(patients[1..], user)
  }

  /** The record found is the first matching one in list order. */
  lemma {:induction false} FindOwnRecordIsFirst(patients: seq<PatientRecord>, user: User)
    requires FindOwnRecord(patients, user).Some?
    ensures exists i ::
      && 0 <= i < |patients|
      && patients[i] == FindOwnRecord(patients, user).value
      && forall j :: 0 <= j < i ==> !IsUsersRecord(patients[j], user)
  {
    if !IsUsersRecord(patients[0], user) {
      var rest := patients[1..];
      FindOwnRecordIsFirst(rest, user);
      var i :| 0 <= i < |rest| && rest[i] == FindOwnRecord(rest, user).value &&
        forall j :: 0 <= j < i ==> !IsUsersRecord(rest[j], user);
      assert patients[i + 1] == rest[i];
      forall j | 0 <= j < i + 1
        ensures !IsUsersRecord(patients[j], user)
      {
        if j > 0 {
          assert patients[j] == rest[j - 1];
        }
      }
    } else {
      assert patients[0] == FindOwnRecord(patients, user).value;
    }
  }

  /** A record without a name matches a user without a name, whoever they
      are. */
  lemma UnnamedRecordMatchesUnnamedUser(p: PatientRecord, user: User)
    requires p.fullName.None? && user.name.None?
    ensures IsUsersRecord(p, user)
  {
  }

  /** The identifier whose records are fetched: `None` when the patient list
      cannot be read or no record matches, and then loading ends and
      nothing else is fetched. */
  function RecordsFetchedFor(patients: Option<seq<PatientRecord>>, user: User): (r: Option<Id>)
    ensures r.Some? <==> patients.Some? && FindOwnRecord(patients.value, user).Some?
    ensures r.Some? ==> exists p :: p in patients.value && p.id == r.value && IsUsersRecord(p, user)
  {
    if patients.None? then None
    else
      match FindOwnRecord(patients.value, user)
      case Some(p) => Some(p.id)
      case None => None
  }

  /** `alerts.slice(0, 5)`: the first five alerts at most. */
  function ShownAlerts<T>(alerts: seq<T>): (r: seq<T>)
    ensures |r| <= 5 && |r| <= |alerts|
    ensures r == alerts[..|r|]
    ensures |alerts| <= 5 ==> r == alerts
    ensures |alerts| > 5 ==> |r| == 5
  {
    if |alerts| <= 5 then alerts else alerts[..5]
  }

  /** The "No Health Records Yet" message. */
  predicate ShowsEmptyState<V, P, I>(patient: Option<PatientRecord>, visits: seq<V>, pregnancy: Option<P>, immunization: Option<I>) {
    patient.None? && |visits| == 0 && pregnancy.None? && immunization.None?
  }

  /** Once the user's record is found the empty message never shows, and
      the records fetched are that record's. */
  lemma FoundRecordIsNeverEmpty<V, P, I>(patients: seq<PatientRecord>, user: User, visits: seq<V>, pregnancy: Option<P>, immunization: Option<I>)
    requires FindOwnRecord(patients, user).Some?
    ensures !ShowsEmptyState(FindOwnRecord(patients, user), visits, pregnancy, immunization)
    ensures RecordsFetchedFor(Some(patients), user) == Some(FindOwnRecord(patients, user).value.id)
  {
  }
}
