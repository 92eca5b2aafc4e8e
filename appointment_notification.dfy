/** The upcoming-consultation banner (client/src/components/AppointmentNotification.jsx):
    for a logged-in patient it lists the confirmed appointments dated today
    or later and labels each day as "Today", "Tomorrow" or a formatted
    date. Dates are local day numbers (a date with its time set to
    midnight); `today` is the page's clock reading, so reduced. */
module AppointmentNotification {
  import opened Common

  datatype ShownAppointment = ShownAppointment(
    id: Id,
    status: string,
    day: int,
    timeSlot: string,
    reason: Option<string>)

  /** Only a patient's banner fetches appointments. */
  predicate Fetches(role: Option<string>) {
    role == Some("Patient")
  }

  predicate IsUpcoming(a: ShownAppointment, today: int) {
    a.status == "Confirmed" && a.day >= today
  }

  /** The banner's list: confirmed appointments not before today, in the
      order the server sent them. */
  function Upcoming(appointments: seq<ShownAppointment>, today: int): seq<ShownAppointment> {
    Filter(appointments, a => IsUpcoming(a, today))
  }

  /** How a day is shown. */
  datatype DayLabel = Today | Tomorrow | OnDate(day: int)

  /** `formatDate`: the same day is "Today", the next "Tomorrow", any other
      day is written out. */
  function FormatDay(day: int, today: int): (l: DayLabel)
    ensures l == Today <==> day == today
    ensures l == Tomorrow <==> day == today + 1
    ensures l.OnDate? ==> l.day == day
  {
    if day == today then Today
    else if day == today + 1 then Tomorrow
    else OnDate(day)
  }

  /** The banner renders only once loaded and only with something to show. */
  predicate Renders(loading: bool, upcoming: seq<ShownAppointment>) {
    !loading && |upcoming| > 0
  }

  /** Everything the banner lists is confirmed and not in the past; its
      label is a written-out date only from the day after tomorrow on; every
      confirmed appointment from today on is listed, and a pending or
      cancelled one never is. */
  lemma UpcomingMeaning(appointments: seq<ShownAppointment>, today: int)
    ensures forall a :: a in Upcoming(appointments, today) ==>
      a.status == "Confirmed" && a.day >= today &&
      (FormatDay(a.day, today).OnDate? ==> a.day >= today + 2)
    ensures forall a :: a in appointments && a.status == "Confirmed" && a.day >= today ==>
      a in Upcoming(appointments, today)
    ensures IsSubsequence(Upcoming(appointments, today), appointments)
  {
    FilterIsSubsequence(appointments, a => IsUpcoming(a, today));
  }

  /** A confirmed appointment stays in the banner through its own day and
      drops out the day after. */
  lemma UpcomingUntilItsDay(a: ShownAppointment, today: int)
    requires a.status == "Confirmed"
    ensures a.day >= today ==> Upcoming([a], today) == [a]
    ensures Upcoming([a], a.day + 1) == []
  {
    assert [a][1..] == [];
  }
}
