/** The ASHA immunization page (client/src/pages/AshaImmunizations.jsx): the
    status badge of each vaccine, the per-child "due" and "overdue" lists,
    the summary cards that add those lists up over all children, and the
    completed counter. Instants are integer milliseconds; `now` is the
    page's clock reading. */
module AshaImmunizations {
  import opened Common
  import Immunization

  /** A vaccine as the page receives it. */
  datatype ShownVaccine = ShownVaccine(
    name: string,
    scheduledAt: int,
    status: Immunization.VaccineStatus)

  /** `Math.ceil(ms / MillisPerDay)`; Dafny's division by a positive divisor
      rounds down, so the ceiling is the negated floor of the negation. */
  function DaysUntil(scheduledAt: int, now: int): int {
    -((now - scheduledAt) / MillisPerDay)
  }

  /** `DaysUntil` is the ceiling: the least whole number of days covering
      the time left. */
  lemma DaysUntilIsCeiling(scheduledAt: int, now: int)
    ensures (DaysUntil(scheduledAt, now) - 1) * MillisPerDay < scheduledAt - now
    ensures scheduledAt - now <= DaysUntil(scheduledAt, now) * MillisPerDay
  {
    var q := (now - scheduledAt) / MillisPerDay;
    assert q * MillisPerDay <= now - scheduledAt < (q + 1) * MillisPerDay;
  }

  /** A badge: the label with its colour. */
  datatype Badge = CompletedBadge | OverdueBadge | DueIn(days: int) | ScheduledBadge

  datatype Colour = Green | Red | Yellow | Blue

  function BadgeColour(b: Badge): Colour {
    match b
    case CompletedBadge => Green
    case OverdueBadge => Red
    case DueIn(_) => Yellow
    case ScheduledBadge => Blue
  }

  /** `getVaccineStatus`. */
  function StatusBadge(v: ShownVaccine, now: int): (b: Badge)
    ensures b == CompletedBadge <==> v.status == Immunization.Completed
    ensures b == OverdueBadge <==>
      v.status != Immunization.Completed && (v.status == Immunization.Overdue || v.scheduledAt < now)
    ensures b.DueIn? ==> 0 <= b.days <= 7 && b.days == DaysUntil(v.scheduledAt, now)
    ensures b == ScheduledBadge ==> DaysUntil(v.scheduledAt, now) > 7
  {
    if v.status == Immunization.Completed then CompletedBadge
    else if v.status == Immunization.Overdue then OverdueBadge
    else if v.scheduledAt < now then OverdueBadge
    else
      var daysUntil := DaysUntil(v.scheduledAt, now);
      DaysUntilIsCeiling(v.scheduledAt, now);
      if daysUntil <= 7 then DueIn(daysUntil) else ScheduledBadge
  }

  predicate IsDue(v: ShownVaccine, now: int) {
    v.status != Immunization.Completed && DaysUntil(v.scheduledAt, now) <= 30
  }

  predicate IsOverdue(v: ShownVaccine, now: int) {
    v.status != Immunization.Completed && v.scheduledAt < now
  }

  /** `getDueVaccines`: not completed and due within 30 days, overdue ones
      included. */
  function DueVaccines(vs: seq<ShownVaccine>, now: int): seq<ShownVaccine> {
    Filter(vs, v => IsDue(v, now))
  }

  /** `getOverdueVaccines`: not completed and scheduled before now. */
  function OverdueVaccines(vs: seq<ShownVaccine>, now: int): seq<ShownVaccine> {
    Filter(vs, v => IsOverdue(v, now))
  }

  /** Every overdue vaccine is also in the due list, so the overdue list is
      the due list narrowed further, in the same order. */
  lemma OverdueWithinDue(vs: seq<ShownVaccine>, now: int)
    ensures OverdueVaccines(vs, now) == Filter(DueVaccines(vs, now), v => IsOverdue(v, now))
    ensures |OverdueVaccines(vs, now)| <= |DueVaccines(vs, now)|
  {
    forall v | IsOverdue(v, now)
      ensures IsDue(v, now)
    {
      DaysUntilIsCeiling(v.scheduledAt, now);
    }
    FilterNarrows(vs, v => IsOverdue(v, now), v => IsDue(v, now));
  }

  /** An overdue vaccine always wears the Overdue badge. The badge is wider:
      a vaccine stored as Overdue is badged Overdue even if its day is still
      to come, and is then not counted as overdue. */
  lemma OverdueVaccinesAreBadgedOverdue(vs: seq<ShownVaccine>, now: int)
    ensures forall v :: v in OverdueVaccines(vs, now) ==> StatusBadge(v, now) == OverdueBadge
    ensures forall v :: v in vs && StatusBadge(v, now) == OverdueBadge && !IsOverdue(v, now) ==>
      v.status == Immunization.Overdue && v.scheduledAt >= now
  {
  }

  /** The "Due This Month" card: the due lists of all children added up. */
  function DueTotal(children: seq<seq<ShownVaccine>>, now: int): nat {
    if children == [] then 0 else |DueVaccines(children[0], now)| + DueTotal(children[1..], now)
  }

  /** The "Overdue" card. */
  function OverdueTotal(children: seq<seq<ShownVaccine>>, now: int): nat {
    if children == [] then 0 else |OverdueVaccines(children[0], now)| + OverdueTotal(children[1..], now)
  }

  /** The Overdue card never shows more than the Due This Month card. */
  lemma {:induction false} OverdueTotalAtMostDueTotal(children: seq<seq<ShownVaccine>>, now: int)
    ensures OverdueTotal(children, now) <= DueTotal(children, now)
  {
    if children != [] {
      OverdueWithinDue(children[0], now);
      OverdueTotalAtMostDueTotal(children[1..], now);
    }
  }

  predicate IsCompleted(v: ShownVaccine) {
    v.status == Immunization.Completed
  }

  /** The numerator of the "n/m Completed" heading. */
  function CompletedCount(vs: seq<ShownVaccine>): (n: nat)
    ensures n <= |vs|
    ensures n == |vs| <==> forall v :: v in vs ==> v.status == Immunization.Completed
  {
    var done := Filter(vs, IsCompleted);
    if |done| == |vs| then
      CompletedEverywhere(vs);
      |done|
    else
      assert exists v :: v in vs && v.status != Immunization.Completed by {
        CompletedEverywhereConverse(vs);
      }
      |done|
  }

  lemma CompletedEverywhere(vs: seq<ShownVaccine>)
    requires |Filter(vs, IsCompleted)| == |vs|
    ensures forall v :: v in vs ==> v.status == Immunization.Completed
  {
    FilterFullLength(vs, IsCompleted);
  }

  lemma CompletedEverywhereConverse(vs: seq<ShownVaccine>)
    requires |Filter(vs, IsCompleted)| != |vs|
    ensures exists v :: v in vs && v.status != Immunization.Completed
  {
    if forall v :: v in vs ==> v.status == Immunization.Completed {
      FilterAll(vs, IsCompleted);
    }
  }

  /** A vaccine is completed, due or scheduled later: the completed counter
      and the due list never count the same vaccine, and a vaccine in
      neither is more than 30 days away. */
  lemma CompletedAndDueDisjoint(vs: seq<ShownVaccine>, now: int)
    ensures forall v :: v in DueVaccines(vs, now) ==> v !in Filter(vs, IsCompleted)
    ensures forall v :: v in vs && v.status in {Immunization.Pending, Immunization.Missed} && v !in DueVaccines(vs, now) ==>
      DaysUntil(v.scheduledAt, now) > 30 && StatusBadge(v, now) == ScheduledBadge
  {
    forall v | v in vs && v.status in {Immunization.Pending, Immunization.Missed} && v !in DueVaccines(vs, now)
      ensures DaysUntil(v.scheduledAt, now) > 30 && StatusBadge(v, now) == ScheduledBadge
    {
      DaysUntilIsCeiling(v.scheduledAt, now);
    }
  }
}
