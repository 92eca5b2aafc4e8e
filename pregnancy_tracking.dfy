/** The pregnancy-tracking document (server/models/PregnancyTracking.js) and
    its pre-save hook: the expected delivery date is derived from the last
    menstrual period (LMP) once, and the trimester is recomputed from the
    weeks elapsed since the LMP while the pregnancy is active. Dates are day
    numbers; the hook's clock reading is the parameter `today`. */
module PregnancyTracking {
  import opened Common

  datatype PregnancyStatus = Active | Delivered | Terminated

  /** Days from the LMP to the expected delivery date. */
  const GestationDays: int := 280

  /** The fields the hook reads and writes. */
  datatype Fields = Fields(
    lmp: Option<int>,
    edd: Option<int>,
    currentTrimester: Option<int>,
    status: PregnancyStatus)

  /** `Math.floor(days / 7)`: Dafny's division by a positive divisor rounds
      toward negative infinity, as `Math.floor` does, so an LMP in the future
      gives a negative week count. */
  function WeeksSince(daysSinceLmp: int): int {
    daysSinceLmp / 7
  }

  /** The trimester for a number of days since the LMP: up to week 12 is the
      first, up to week 26 the second, anything later the third. */
  function Trimester(daysSinceLmp: int): (t: int)
    ensures 1 <= t <= 3
  {
    var weeks := WeeksSince(daysSinceLmp);
    if weeks <= 12 then 1 else if weeks <= 26 then 2 else 3
  }

  /** The same rule stated on days instead of whole weeks: week 12 ends on
      day 90 and week 26 on day 188. */
  lemma TrimesterByDays(d: int)
    ensures Trimester(d) == 1 <==> d < 91
    ensures Trimester(d) == 2 <==> 91 <= d < 189
    ensures Trimester(d) == 3 <==> 189 <= d
  {
    if d < 91 {
      assert d / 7 <= 12;
    } else if d < 189 {
      assert 13 <= d / 7 <= 26;
    } else {
      assert d / 7 >= 27;
    }
  }

  /** The trimester never goes down as the days since the LMP grow. */
  lemma TrimesterMonotone(d1: int, d2: int)
    requires d1 <= d2
    ensures Trimester(d1) <= Trimester(d2)
  {
    TrimesterByDays(d1);
    TrimesterByDays(d2);
  }

  /** What the pre-save hook leaves in the hook's fields. */
  function Saved(f: Fields, today: int): Fields {
    var edd := if f.lmp.Some? && f.edd.None? then Some(f.lmp.value + GestationDays) else f.edd;
    var trimester :=
      if f.lmp.Some? && f.status == Active then Some(Trimester(today - f.lmp.value))
      else f.currentTrimester;
    f.(edd := edd, currentTrimester := trimester)
  }

  /** An EDD that is present is never overwritten; a missing one is set to
      LMP + 280 days when the LMP is known; LMP and status are untouched. */
  lemma SavedEdd(f: Fields, today: int)
    ensures Saved(f, today).lmp == f.lmp && Saved(f, today).status == f.status
    ensures f.edd.Some? ==> Saved(f, today).edd == f.edd
    ensures f.lmp.Some? && f.edd.None? ==> Saved(f, today).edd == Some(f.lmp.value + 280)
    ensures f.lmp.None? ==> Saved(f, today).edd == f.edd
  {
  }

  /** The trimester is recomputed only for an active pregnancy with an LMP;
      a delivered or terminated one keeps its stored value. */
  lemma SavedTrimester(f: Fields, today: int)
    ensures f.status != Active ==> Saved(f, today).currentTrimester == f.currentTrimester
    ensures f.lmp.Some? && f.status == Active ==>
      Saved(f, today).currentTrimester == Some(Trimester(today - f.lmp.value))
  {
  }

  /** The schema bound on the trimester, 1 to 3. */
  predicate TrimesterInBounds(f: Fields) {
    f.currentTrimester.Some? ==> 1 <= f.currentTrimester.value <= 3
  }

  /** Saving keeps the trimester inside the schema bound. */
  lemma SavedKeepsBounds(f: Fields, today: int)
    requires TrimesterInBounds(f)
    ensures TrimesterInBounds(Saved(f, today))
  {
  }

  /** Saving a second time on the same day changes nothing more. */
  lemma SaveIdempotent(f: Fields, today: int)
    ensures Saved(Saved(f, today), today) == Saved(f, today)
  {
  }

  /** A pregnancy-tracking document. */
  class PregnancyRecord {
    const patientId: Id
    const ashaWorkerId: Id
    var lmp: Option<int>
    var edd: Option<int>
    var currentTrimester: Option<int>
    var status: PregnancyStatus
    var updatedAt: int

    function Current(): Fields
      reads this
    {
      Fields(lmp, edd, currentTrimester, status)
    }

    /** A new document: no EDD and no trimester until it is saved. */
    constructor (patientId: Id, ashaWorkerId: Id, lmp: Option<int>, status: PregnancyStatus, now: int)
      ensures this.patientId == patientId && this.ashaWorkerId == ashaWorkerId
      ensures Current() == Fields(lmp, None, None, status)
      ensures updatedAt == now
    {
      this.patientId := patientId;
      this.ashaWorkerId := ashaWorkerId;
      this.lmp := lmp;
      this.edd := None;
      this.currentTrimester := None;
      this.status := status;
      this.updatedAt := now;
    }

    /** The pre-save hook: fills the EDD, recomputes the trimester and stamps
        `updatedAt` with the clock reading `now`. */
    method PreSave(today: int, now: int)
      modifies this
      ensures Current() == Saved(old(Current()), today)
      ensures updatedAt == now
    {
      if lmp.Some? && edd.None? {
        edd := Some(lmp.value + GestationDays);
      }
      if lmp.Some? && status == Active {
        var daysSinceLmp := today - lmp.value;
        var weeks := daysSinceLmp / 7;
        if weeks <= 12 {
          currentTrimester := Some(1);
        } else if weeks <= 26 {
          currentTrimester := Some(2);
        } else {
          currentTrimester := Some(3);
        }
      }
      updatedAt := now;
    }
  }
}
