/** The immunization document (server/models/Immunization.js) and the part of
    its pre-save hook that brings each vaccine's status up to date: a vaccine
    that has been given is Completed, one that is past its scheduled day and
    not given is Overdue, and any other keeps the status it had. The hook
    overwrites the statuses in place, one array element at a time. */
module Immunization {
  import opened Common

  /** The schema's status enum; a status outside it cannot be represented. */
  datatype VaccineStatus = Pending | Completed | Missed | Overdue

  datatype Vaccine = Vaccine(
    name: string,
    scheduledDate: int,
    givenDate: Option<int>,
    status: VaccineStatus)

  /** The schema's enum of vaccine names, in the schema's order. */
  const VaccineNames: seq<string> := [
    "BCG", "OPV-0", "Hepatitis B-0",
    "OPV-1", "Pentavalent-1", "Rotavirus-1", "PCV-1",
    "OPV-2", "Pentavalent-2", "Rotavirus-2", "PCV-2",
    "OPV-3", "Pentavalent-3", "Rotavirus-3", "PCV-3", "IPV",
    "Measles-1", "Vitamin A-1",
    "DPT Booster-1", "OPV Booster", "Measles-2", "Vitamin A-2",
    "DPT Booster-2"
  ]

  /** One vaccine after the hook has looked at it on day `today`. */
  function Refreshed(v: Vaccine, today: int): Vaccine {
    if v.givenDate.Some? then v.(status := Completed)
    else if v.scheduledDate < today then v.(status := Overdue)
    else v
  }

  /** The hook's test as written: the scheduled date, the first instant of
      its day, against the instant `now` of the save. */
  function RefreshedAsWritten(v: Vaccine, now: int): Vaccine {
    if v.givenDate.Some? then v.(status := Completed)
    else if DayStart(v.scheduledDate) < now then v.(status := Overdue)
    else v
  }

  /** As written, a dose due today is already Overdue when the record is
      saved at any moment after midnight; compared by day it is still
      pending. The two agree on every other day. */
  lemma DoseDueTodayOverdueAsWritten(v: Vaccine, today: int, now: int)
    requires AfterMidnightOf(today, now)
    ensures v.givenDate.None? && v.status == Pending && v.scheduledDate == today ==>
      RefreshedAsWritten(v, now).status == Overdue && Refreshed(v, today).status == Pending
    ensures v.scheduledDate != today ==> RefreshedAsWritten(v, now) == Refreshed(v, today)
  {
    if v.scheduledDate < today {
      DayStartMonotone(v.scheduledDate, today);
    } else if v.scheduledDate > today {
      DayStartMonotone(today, v.scheduledDate);
    }
  }

  /** Every vaccine of a list after the hook, in the same positions. */
  function RefreshedAll(vs: seq<Vaccine>, today: int): (r: seq<Vaccine>)
    ensures |r| == |vs|
  {
    seq(|vs|, i requires 0 <= i < |vs| => Refreshed(vs[i], today))
  }

  /** The three rules, stated per position: given means Completed, overdue
      means Overdue, anything else keeps its status, Missed included. */
  lemma RefreshedStatusRules(vs: seq<Vaccine>, today: int, i: int)
    requires 0 <= i < |vs|
    ensures vs[i].givenDate.Some? ==> RefreshedAll(vs, today)[i].status == Completed
    ensures vs[i].givenDate.None? && vs[i].scheduledDate < today ==>
      RefreshedAll(vs, today)[i].status == Overdue
    ensures vs[i].givenDate.None? && vs[i].scheduledDate >= today ==>
      RefreshedAll(vs, today)[i].status == vs[i].status
  {
  }

  /** The hook changes statuses only: count, order, names and dates stay. */
  lemma RefreshedChangesOnlyStatus(vs: seq<Vaccine>, today: int)
    ensures |RefreshedAll(vs, today)| == |vs|
    ensures forall i :: 0 <= i < |vs| ==>
      RefreshedAll(vs, today)[i] == vs[i].(status := RefreshedAll(vs, today)[i].status)
  {
  }

  /** Running the hook twice on the same day gives what running it once gave. */
  lemma RefreshedIdempotent(vs: seq<Vaccine>, today: int)
    ensures RefreshedAll(RefreshedAll(vs, today), today) == RefreshedAll(vs, today)
  {
  }

  /** The hook never produces Pending or Missed: a vaccine that is Pending or
      Missed afterwards had that status before, is not given and is not past
      its day. A stored Completed without a given date that is past its day
      is turned into Overdue. */
  lemma RefreshedIntroducesOnlyCompletedOrOverdue(vs: seq<Vaccine>, today: int, i: int)
    requires 0 <= i < |vs|
    ensures RefreshedAll(vs, today)[i].status in {Pending, Missed} ==>
      RefreshedAll(vs, today)[i].status == vs[i].status &&
      vs[i].givenDate.None? && vs[i].scheduledDate >= today
    ensures vs[i].status == Completed && vs[i].givenDate.None? && vs[i].scheduledDate < today ==>
      RefreshedAll(vs, today)[i].status == Overdue
  {
  }

  /** An immunization document: the child, the ASHA worker, the date of
      birth and the vaccine list as an array the hook updates in place. */
  class ImmunizationRecord {
    const childId: Id
    const ashaWorkerId: Id
    const dateOfBirth: int
    const vaccines: array<Vaccine>
    var updatedAt: int

    constructor (childId: Id, ashaWorkerId: Id, dateOfBirth: int, vs: seq<Vaccine>, now: int)
      ensures this.childId == childId && this.ashaWorkerId == ashaWorkerId
      ensures this.dateOfBirth == dateOfBirth
      ensures fresh(vaccines) && vaccines[..] == vs
      ensures updatedAt == now
    {
      this.childId := childId;
      this.ashaWorkerId := ashaWorkerId;
      this.dateOfBirth := dateOfBirth;
      this.vaccines := new Vaccine[|vs|](i requires 0 <= i < |vs| => vs[i]);
      this.updatedAt := now;
    }

    /** The vaccine-status part of the pre-save hook, then the `updatedAt`
        stamp. */
    method PreSave(today: int, now: int)
      modifies this, vaccines
      ensures vaccines[..] == RefreshedAll(old(vaccines[..]), today)
      ensures updatedAt == now
    {
      var i := 0;
      while i < vaccines.Length
        invariant 0 <= i <= vaccines.Length
        invariant forall k :: 0 <= k < i ==> vaccines[k] == Refreshed(old(vaccines[k]), today)
        invariant forall k :: i <= k < vaccines.Length ==> vaccines[k] == old(vaccines[k])
      {
        var v := vaccines[i];
        if v.givenDate.Some? {
          vaccines[i] := v.(status := Completed);
        } else if v.scheduledDate < today && v.givenDate.None? {
          vaccines[i] := v.(status := Overdue);
        }
        i := i + 1;
      }
      updatedAt := now;
    }
  }
}
