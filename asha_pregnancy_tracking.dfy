/** The ASHA pregnancy-tracking page (client/src/pages/AshaPregnancyTracking.jsx):
    the trimester label, which visit-recording buttons a pregnancy card
    offers, the visit number a new visit form is opened with, the last
    three visits each card lists, and the two forms' open/submit cycle. */
module AshaPregnancyTracking {
  import opened Common
  import PregnancyTracking

  /** A recorded visit, as far as the card shows it. */
  datatype Visit = Visit(visitNumber: int, date: string)

  /** A pregnancy as the page receives it; the visit lists may be absent. */
  datatype ShownPregnancy = ShownPregnancy(
    id: Id,
    status: PregnancyTracking.PregnancyStatus,
    currentTrimester: Option<int>,
    ancVisits: Option<seq<Visit>>,
    pncVisits: Option<seq<Visit>>)

  /** `getTrimesterLabel`. */
  function TrimesterLabel(trimester: Option<int>): (text: string)
    ensures text == "Unknown" <==> trimester.None? || trimester.value !in {1, 2, 3}
    ensures trimester == Some(1) ==> text == "1st Trimester"
    ensures trimester == Some(2) ==> text == "2nd Trimester"
    ensures trimester == Some(3) ==> text == "3rd Trimester"
  {
    if trimester == Some(1) then "1st Trimester"
    else if trimester == Some(2) then "2nd Trimester"
    else if trimester == Some(3) then "3rd Trimester"
    else "Unknown"
  }

  /** A trimester the server's save hook computed always gets a real label;
      only a record never saved with an LMP shows "Unknown". */
  lemma SavedTrimesterIsLabelled(f: PregnancyTracking.Fields, today: int)
    requires f.lmp.Some? && f.status == PregnancyTracking.Active
    ensures TrimesterLabel(PregnancyTracking.Saved(f, today).currentTrimester) != "Unknown"
  {
    PregnancyTracking.SavedTrimester(f, today);
  }

  /** `(visits?.length || 0)`: the number of recorded visits, zero when the
      list is absent. */
  function VisitCount(visits: Option<seq<Visit>>): (n: nat)
    ensures visits.None? ==> n == 0
    ensures visits.Some? ==> n == |visits.value|
  {
    if visits.Some? && |visits.value| != 0 then |visits.value| else 0
  }

  /** `slice(-3)`: the last three visits, or all of them if there are fewer. */
  function LastThree(visits: seq<Visit>): (r: seq<Visit>)
    ensures |r| == if |visits| < 3 then |visits| else 3
    ensures r == visits[|visits| - |r|..]
  {
    if |visits| <= 3 then visits else visits[|visits| - 3..]
  }

  /** The listed visits are the most recent ones: every earlier visit is left
      out, and a list of up to three is shown whole. */
  lemma LastThreeKeepsLatest(visits: seq<Visit>)
    ensures |visits| <= 3 ==> LastThree(visits) == visits
    ensures visits != [] ==> LastThree(visits)[|LastThree(visits)| - 1] == visits[|visits| - 1]
    ensures visits == visits[..|visits| - |LastThree(visits)|] + LastThree(visits)
  {
  }

  /** The "+ Add ANC" button is offered for active pregnancies only. */
  predicate OffersAnc(p: ShownPregnancy) {
    p.status == PregnancyTracking.Active
  }

  /** The PNC section, with its "+ Add PNC" button, is shown for delivered
      pregnancies only. */
  predicate OffersPnc(p: ShownPregnancy) {
    p.status == PregnancyTracking.Delivered
  }

  /** No card offers both buttons, and a terminated pregnancy offers
      neither. */
  lemma AncAndPncExclusive(p: ShownPregnancy)
    ensures !(OffersAnc(p) && OffersPnc(p))
    ensures p.status == PregnancyTracking.Terminated ==> !OffersAnc(p) && !OffersPnc(p)
  {
  }

  datatype AncForm = AncForm(
    visitNumber: int,
    date: string,
    weight: string,
    bp: string,
    hemoglobin: string,
    tetanusToxoid: bool,
    ifaTabletsGiven: int,
    complications: string,
    notes: string)

  datatype PncForm = PncForm(
    visitNumber: int,
    date: string,
    motherCondition: string,
    motherWeight: string,
    motherBP: string,
    babyCondition: string,
    babyWeight: string,
    breastfeedingStatus: string,
    complications: string,
    notes: string)

  /** A blank ANC form dated `today` (an ISO date string). */
  function BlankAnc(today: string): AncForm {
    AncForm(1, today, "", "", "", false, 0, "", "")
  }

  /** A blank PNC form dated `today`; breastfeeding defaults to exclusive. */
  function BlankPnc(today: string): PncForm {
    PncForm(1, today, "", "", "", "", "", "Exclusive", "", "")
  }

  /** The page's form state. */
  class PregnancyTrackingPage {
    var showAddAnc: bool
    var showAddPnc: bool
    var selected: Option<Id>
    var ancData: AncForm
    var pncData: PncForm

    /** Both forms closed and blank, as the page mounts. */
    constructor (today: string)
      ensures !showAddAnc && !showAddPnc && selected.None?
      ensures ancData == BlankAnc(today) && pncData == BlankPnc(today)
    {
      showAddAnc := false;
      showAddPnc := false;
      selected := None;
      ancData := BlankAnc(today);
      pncData := BlankPnc(today);
    }

    /** "+ Add ANC" on the card of `p` (rendered only when `OffersAnc(p)`):
        selects the pregnancy and numbers the new visit one past the
        recorded ones, keeping whatever else the form held. */
    method OpenAnc(p: ShownPregnancy)
      requires OffersAnc(p)
      modifies this
      ensures selected == Some(p.id) && showAddAnc
      ensures ancData == old(ancData).(visitNumber := VisitCount(p.ancVisits) + 1)
      ensures showAddPnc == old(showAddPnc) && pncData == old(pncData)
    {
      selected := Some(p.id);
      ancData := ancData.(visitNumber := VisitCount(p.ancVisits) + 1);
      showAddAnc := true;
    }

    /** "+ Add PNC" on the card of `p` (rendered only when `OffersPnc(p)`). */
    method OpenPnc(p: ShownPregnancy)
      requires OffersPnc(p)
      modifies this
      ensures selected == Some(p.id) && showAddPnc
      ensures pncData == old(pncData).(visitNumber := VisitCount(p.pncVisits) + 1)
      ensures showAddAnc == old(showAddAnc) && ancData == old(ancData)
    {
      selected := Some(p.id);
      pncData := pncData.(visitNumber := VisitCount(p.pncVisits) + 1);
      showAddPnc := true;
    }

    /** Submitting the ANC form; `saved` is whether the server accepted it.
        On success the form closes, the selection clears and the form is
        blank again; on failure nothing changes. */
    method SubmitAnc(saved: bool, today: string)
      modifies this
      ensures saved ==> !showAddAnc && selected.None? && ancData == BlankAnc(today)
      ensures !saved ==> showAddAnc == old(showAddAnc) && selected == old(selected) && ancData == old(ancData)
      ensures showAddPnc == old(showAddPnc) && pncData == old(pncData)
    {
      if saved {
        showAddAnc := false;
        selected := None;
        ancData := BlankAnc(today);
      }
    }

    /** Submitting the PNC form. */
    method SubmitPnc(saved: bool, today: string)
      modifies this
      ensures saved ==> !showAddPnc && selected.None? && pncData == BlankPnc(today)
      ensures !saved ==> showAddPnc == old(showAddPnc) && selected == old(selected) && pncData == old(pncData)
      ensures showAddAnc == old(showAddAnc) && ancData == old(ancData)
    {
      if saved {
        showAddPnc := false;
        selected := None;
        pncData := BlankPnc(today);
      }
    }
  }
}
