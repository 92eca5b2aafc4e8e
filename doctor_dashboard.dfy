/** The doctor's dashboard (client/src/pages/DoctorDashboard.jsx): the
    actions offered on each appointment and the "My Patients" list, which is
    derived from the appointments through a JavaScript `Map` keyed by the
    patient's identifier. A `Map` keeps its keys in first-insertion order
    and a later `set` of a key replaces the value in place; it is modelled
    as a sequence of key/value entries with distinct keys. */
module DoctorDashboard {
  import opened Common

  /** The populated patient of an appointment; `None` when the reference
      did not resolve (`null`). */
  datatype PatientRef = PatientRef(id: Id, name: string)

  /** The key `item.patientId?._id`: undefined for a missing patient. */
  function KeyOf(p: Option<PatientRef>): Option<Id> {
    if p.Some? then Some(p.value.id) else None
  }

  type Entry = (Option<Id>, Option<PatientRef>)

  /** `map.get(k)`, with `None` for a key the map does not have. */
  function Lookup(m: seq<Entry>, k: Option<Id>): Option<Option<PatientRef>> {
    if m == [] then None
    else if m[0].0 == k then Some(m[0].1)
    else Lookup(m[1..], k)
  }

  function Keys(m: seq<Entry>): seq<Option<Id>> {
    if m == [] then [] else [m[0].0] + Keys(m[1..])
  }

  predicate DistinctKeys(m: seq<Entry>) {
    m == [] || (Lookup(m[1..], m[0].0).None? && DistinctKeys(m[1..]))
  }

  /** Every entry is keyed by its own patient's identifier. */
  predicate Consistent(m: seq<Entry>) {
    forall i :: 0 <= i < |m| ==> m[i].0 == KeyOf(m[i].1)
  }

  /** `map.set(k, v)`: a new key goes at the end, an existing key keeps its
      place and takes the new value; every other key keeps its value. */
  function MapSet(m: seq<Entry>, k: Option<Id>, v: Option<PatientRef>): (r: seq<Entry>)
    ensures Lookup(r, k) == Some(v)
    ensures forall k' :: k' != k ==> Lookup(r, k') == Lookup(m, k')
    ensures Keys(r) == if Lookup(m, k).Some? then Keys(m) else Keys(m) + [k]
    ensures DistinctKeys(m) ==> DistinctKeys(r)
    ensures Consistent(m) && k == KeyOf(v) ==> Consistent(r)
  {
    if m == [] then [(k, v)]
    else if m[0].0 == k then [(k, v)] + m[1..]
    else
      var rest := MapSet(m[1..], k, v);
      assert ([m[0]] + rest)[1..] == rest;
      [m[0]] + rest
  }

  /** The last element of `xs` with key `k`, if any. */
  function LastWithKey(xs: seq<Option<PatientRef>>, k: Option<Id>): (r: Option<Option<PatientRef>>)
    ensures r.Some? ==> r.value in xs && KeyOf(r.value) == k
    ensures r.None? ==> forall x :: x in xs ==> KeyOf(x) != k
  {
    if xs == [] then None
    else if KeyOf(xs[|xs| - 1]) == k then Some(xs[|xs| - 1])
    else
      assert forall x :: x in xs ==> x == xs[|xs| - 1] || x in xs[..|xs| - 1];
      LastWithKey(xs[..|xs| - 1], k)
  }

  /** The element found is the last one with the key: no later element
      has it. */
  lemma {:induction false} LastWithKeyIsLast(xs: seq<Option<PatientRef>>, k: Option<Id>)
    requires LastWithKey(xs, k).Some?
    ensures exists i ::
      && 0 <= i < |xs|
      && xs[i] == LastWithKey(xs, k).value
      && forall j :: i < j < |xs| ==> KeyOf(xs[j]) != k
  {
    var n := |xs| - 1;
    if KeyOf(xs[n]) != k {
      var init := xs[..n];
      LastWithKeyIsLast(init, k);
      var i :| 0 <= i < |init| && init[i] == LastWithKey(init, k).value &&
        forall j :: i < j < |init| ==> KeyOf(init[j]) != k;
      assert xs[i] == init[i];
      forall j | i < j < |xs|
        ensures KeyOf(xs[j]) != k
      {
        if j < n {
          assert xs[j] == init[j];
        }
      }
    } else {
      assert xs[n] == LastWithKey(xs, k).value;
    }
  }

  /** `new Map(appointments.map(item => [item.patientId?._id, item.patientId]))`:
      one entry per distinct key, holding the last patient seen with it. */
  function BuildMap(xs: seq<Option<PatientRef>>): (m: seq<Entry>)
    ensures DistinctKeys(m) && Consistent(m)
    ensures forall k :: Lookup(m, k) == LastWithKey(xs, k)
  {
    if xs == [] then []
    else
      var x := xs[|xs| - 1];
      MapSet(BuildMap(xs[..|xs| - 1]), KeyOf(x), x)
  }

  /** `[...map.values()].filter(p => p)`: the present patients, in key
      order. */
  function PresentValues(m: seq<Entry>): seq<PatientRef> {
    if m == [] then []
    else (if m[0].1.Some? then [m[0].1.value] else []) + PresentValues(m[1..])
  }

  /** The "My Patients" list. */
  function UniquePatients(patients: seq<Option<PatientRef>>): seq<PatientRef> {
    PresentValues(BuildMap(patients))
  }

  /** Dropping the first entry keeps the map consistent. */
  lemma ConsistentTail(m: seq<Entry>)
    requires m != [] && Consistent(m)
    ensures Consistent(m[1..])
  {
    forall i | 0 <= i < |m[1..]|
      ensures m[1..][i].0 == KeyOf(m[1..][i].1)
    {
      assert m[1..][i] == m[i + 1];
    }
  }

  /** A patient is among the present values exactly when the map holds it
      under its own identifier. */
  lemma {:induction false} PresentValuesMeaning(m: seq<Entry>)
    requires DistinctKeys(m) && Consistent(m)
    ensures forall p :: p in PresentValues(m) <==> Lookup(m, Some(p.id)) == Some(Some(p))
  {
    if m != [] {
      var rest := m[1..];
      ConsistentTail(m);
      PresentValuesMeaning(rest);
      var head := if m[0].1.Some? then [m[0].1.value] else [];
      assert PresentValues(m) == head + PresentValues(rest);
      assert m[0].0 == KeyOf(m[0].1);
      forall p
        ensures p in PresentValues(m) <==> Lookup(m, Some(p.id)) == Some(Some(p))
      {
        if p in PresentValues(rest) {
          assert Lookup(rest, Some(p.id)).Some?;
          assert m[0].0 != Some(p.id);
        }
      }
    }
  }

  /** No two patients of a list share an identifier. */
  predicate DistinctIds(u: seq<PatientRef>) {
    forall i, j :: 0 <= i < j < |u| ==> u[i].id != u[j].id
  }

  lemma DistinctIdsCons(h: PatientRef, t: seq<PatientRef>)
    requires DistinctIds(t) && forall p :: p in t ==> p.id != h.id
    ensures DistinctIds([h] + t)
  {
    var u := [h] + t;
    forall i, j | 0 <= i < j < |u|
      ensures u[i].id != u[j].id
    {
      assert u[j] == t[j - 1];
      if i > 0 {
        assert u[i] == t[i - 1];
      } else {
        assert u[j] in t;
      }
    }
  }

  /** No two present values share an identifier. */
  lemma {:induction false} PresentValuesDistinct(m: seq<Entry>)
    requires DistinctKeys(m) && Consistent(m)
    ensures DistinctIds(PresentValues(m))
  {
    if m != [] {
      var rest := m[1..];
      ConsistentTail(m);
      PresentValuesDistinct(rest);
      if m[0].1.Some? {
        var h := m[0].1.value;
        assert m[0].0 == Some(h.id);
        PresentValuesMeaning(rest);
        forall p | p in PresentValues(rest)
          ensures p.id != h.id
        {
          assert Lookup(rest, Some(p.id)).Some?;
        }
        DistinctIdsCons(h, PresentValues(rest));
        assert PresentValues(m) == [h] + PresentValues(rest);
      } else {
        assert PresentValues(m) == PresentValues(rest);
      }
    }
  }

  /** The "My Patients" list shows each patient of the doctor's appointments
      exactly once, unresolved patients never, and for a patient seen on
      several appointments the object of the last one. */
  lemma UniquePatientsMeaning(patients: seq<Option<PatientRef>>)
    ensures forall i, j :: 0 <= i < j < |UniquePatients(patients)| ==>
      UniquePatients(patients)[i].id != UniquePatients(patients)[j].id
    ensures forall a :: a in patients && a.Some? ==>
      exists p :: p in UniquePatients(patients) && p.id == a.value.id
    ensures forall p :: p in UniquePatients(patients) ==>
      Some(p) in patients && LastWithKey(patients, Some(p.id)) == Some(Some(p))
  {
    var m := BuildMap(patients);
    PresentValuesMeaning(m);
    PresentValuesDistinct(m);
    forall a | a in patients && a.Some?
      ensures exists p :: p in UniquePatients(patients) && p.id == a.value.id
    {
      var last := LastWithKey(patients, Some(a.value.id));
      assert last.Some? && last.value.Some?;
      assert last.value.value in UniquePatients(patients);
    }
  }

  /** The position of the first element of `xs` with key `k`; `|xs|` when
      there is none. */
  function FirstIndex(xs: seq<Option<PatientRef>>, k: Option<Id>): (r: nat)
    ensures r <= |xs|
    ensures r < |xs| ==> KeyOf(xs[r]) == k
    ensures forall i :: 0 <= i < r ==> KeyOf(xs[i]) != k
  {
    if xs == [] then 0
    else
      var f := FirstIndex(xs[..|xs| - 1], k);
      if f < |xs| - 1 then f
      else if KeyOf(xs[|xs| - 1]) == k then |xs| - 1
      else |xs|
  }

  /** The keys `ks` come in the order in which they first occur in `xs`. */
  predicate InFirstOccurrenceOrder(ks: seq<Option<Id>>, xs: seq<Option<PatientRef>>) {
    forall i, j :: 0 <= i < j < |ks| ==> FirstIndex(xs, ks[i]) < FirstIndex(xs, ks[j])
  }

  lemma {:induction false} KeysMeaning(m: seq<Entry>, k: Option<Id>)
    ensures k in Keys(m) <==> Lookup(m, k).Some?
  {
    if m != [] {
      KeysMeaning(m[1..], k);
    }
  }

  /** A key the elements have occurs among them before the end. */
  lemma OccursBeforeEnd(xs: seq<Option<PatientRef>>, k: Option<Id>)
    requires LastWithKey(xs, k).Some?
    ensures FirstIndex(xs, k) < |xs|
  {
    var x := LastWithKey(xs, k).value;
    var i :| 0 <= i < |xs| && xs[i] == x;
  }

  /** The map's keys are in the order of their first insertion. */
  lemma {:induction false} BuildMapKeysOrder(xs: seq<Option<PatientRef>>)
    ensures InFirstOccurrenceOrder(Keys(BuildMap(xs)), xs)
  {
    if xs != [] {
      var init := xs[..|xs| - 1];
      var x := xs[|xs| - 1];
      var m := BuildMap(init);
      BuildMapKeysOrder(init);
      forall k | k in Keys(m)
        ensures FirstIndex(xs, k) == FirstIndex(init, k) < |init|
      {
        KeysMeaning(m, k);
        OccursBeforeEnd(init, k);
      }
      if Lookup(m, KeyOf(x)).None? {
        assert FirstIndex(init, KeyOf(x)) == |init|;
        var ks := Keys(m) + [KeyOf(x)];
        forall i, j | 0 <= i < j < |ks|
          ensures FirstIndex(xs, ks[i]) < FirstIndex(xs, ks[j])
        {
          assert ks[i] in Keys(m);
          if j < |Keys(m)| {
            assert ks[j] in Keys(m);
          }
        }
      } else {
        forall i, j | 0 <= i < j < |Keys(m)|
          ensures FirstIndex(xs, Keys(m)[i]) < FirstIndex(xs, Keys(m)[j])
        {
          assert Keys(m)[i] in Keys(m) && Keys(m)[j] in Keys(m);
        }
      }
    }
  }

  /** Dropping the first entry keeps the remaining keys in order. */
  lemma OrderTail(m: seq<Entry>, xs: seq<Option<PatientRef>>)
    requires m != [] && InFirstOccurrenceOrder(Keys(m), xs)
    ensures InFirstOccurrenceOrder(Keys(m[1..]), xs)
  {
    var ks, t := Keys(m), Keys(m[1..]);
    assert ks == [m[0].0] + t;
    forall i, j | 0 <= i < j < |t|
      ensures FirstIndex(xs, t[i]) < FirstIndex(xs, t[j])
    {
      assert t[i] == ks[i + 1] && t[j] == ks[j + 1];
    }
  }

  /** Every present patient is a key of its entry. */
  lemma {:induction false} PresentKeyed(m: seq<Entry>)
    requires Consistent(m)
    ensures forall p :: p in PresentValues(m) ==> Some(p.id) in Keys(m)
  {
    if m != [] {
      ConsistentTail(m);
      PresentKeyed(m[1..]);
    }
  }

  /** The first entry's patient first occurs before every patient present
      in the later entries. */
  lemma HeadFirst(m: seq<Entry>, xs: seq<Option<PatientRef>>)
    requires m != [] && m[0].1.Some?
    requires Consistent(m) && InFirstOccurrenceOrder(Keys(m), xs)
    ensures forall p :: p in PresentValues(m[1..]) ==>
      FirstIndex(xs, Some(m[0].1.value.id)) < FirstIndex(xs, Some(p.id))
  {
    var ks, t := Keys(m), Keys(m[1..]);
    assert ks == [m[0].0] + t;
    assert ks[0] == Some(m[0].1.value.id);
    ConsistentTail(m);
    PresentKeyed(m[1..]);
    forall p | p in PresentValues(m[1..])
      ensures FirstIndex(xs, ks[0]) < FirstIndex(xs, Some(p.id))
    {
      var n :| 0 <= n < |t| && t[n] == Some(p.id);
      assert ks[n + 1] == Some(p.id);
    }
  }

  /** Keeping the present values keeps the order of their keys. */
  lemma {:induction false} PresentValuesOrder(m: seq<Entry>, xs: seq<Option<PatientRef>>)
    requires Consistent(m) && InFirstOccurrenceOrder(Keys(m), xs)
    ensures forall i, j :: 0 <= i < j < |PresentValues(m)| ==>
      FirstIndex(xs, Some(PresentValues(m)[i].id)) < FirstIndex(xs, Some(PresentValues(m)[j].id))
  {
    if m != [] {
      var tail := m[1..];
      ConsistentTail(m);
      OrderTail(m, xs);
      PresentValuesOrder(tail, xs);
      if m[0].1.Some? {
        HeadFirst(m, xs);
        var u := PresentValues(m);
        var rest := PresentValues(tail);
        assert u == [m[0].1.value] + rest;
        forall i, j | 0 <= i < j < |u|
          ensures FirstIndex(xs, Some(u[i].id)) < FirstIndex(xs, Some(u[j].id))
        {
          assert u[j] == rest[j - 1];
          if i > 0 {
            assert u[i] == rest[i - 1];
          }
        }
      }
    }
  }

  /** The "My Patients" list is in the order in which each patient first
      appears among the appointments. */
  lemma UniquePatientsOrder(patients: seq<Option<PatientRef>>)
    ensures forall i, j :: 0 <= i < j < |UniquePatients(patients)| ==>
      FirstIndex(patients, Some(UniquePatients(patients)[i].id)) <
      FirstIndex(patients, Some(UniquePatients(patients)[j].id))
  {
    BuildMapKeysOrder(patients);
    PresentValuesOrder(BuildMap(patients), patients);
  }

  /** The buttons on an appointment card. */
  datatype Action = Accept | Reject | StartConsult

  function Actions(status: string): (r: seq<Action>)
    ensures r != [] <==> status == "Pending" || status == "Confirmed"
    ensures StartConsult in r <==> status == "Confirmed"
    ensures Accept in r <==> status == "Pending"
    ensures Reject in r <==> status == "Pending"
  {
    if status == "Pending" then [Accept, Reject]
    else if status == "Confirmed" then [StartConsult]
    else []
  }

  /** The status an action sends to the server; a consultation is opened,
      not sent. */
  function ActionStatus(a: Action): Option<string> {
    match a
    case Accept => Some("Confirmed")
    case Reject => Some("Cancelled")
    case StartConsult => None
  }

  /** From the dashboard a doctor can only move a pending appointment to
      Confirmed or Cancelled; Completed is reached only by writing a
      prescription, and a confirmed appointment can only be consulted. */
  lemma DashboardTransitions(status: string, a: Action)
    requires a in Actions(status)
    ensures ActionStatus(a).Some? ==> status == "Pending" && ActionStatus(a).value in {"Confirmed", "Cancelled"}
    ensures ActionStatus(a).None? ==> status == "Confirmed"
  {
  }
}
