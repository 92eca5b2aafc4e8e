/** The nutrition guide (client/src/pages/Nutrition.jsx): a search box over
    a fixed list of conditions with suggestions as the user types, and the
    diet plan of the chosen condition out of the plans the server holds.
    The page's state is the class `NutritionPage`; the suggestion list is
    recomputed whenever the search term changes, as the page's effect on
    the term does. */
module Nutrition {
  import opened Common

  /** The conditions the page offers. */
  const Diseases: seq<string> := [
    "Diabetes", "Hypertension", "Anemia", "Obesity", "Heart Disease",
    "Thyroid", "PCOD/PCOS", "Arthritis", "Pregnancy", "Malnutrition"]

  const NoData := "No nutrition data found. Please seed the database first."
  const LoadFailed := "Failed to load nutrition data. Please try again."

  /** A stored diet plan; only the fields the page matches on. */
  datatype Plan = Plan(category: string, title: string)

  predicate MatchesTerm(disease: string, term: string) {
    Contains(Lower(disease), Lower(term))
  }

  /** The suggestions for a term out of the page's `conditions`: none for
      an empty term, otherwise the conditions whose name contains the term
      ignoring case. */
  function Suggestions(conditions: seq<string>, term: string): (r: seq<string>)
    ensures term == "" ==> r == []
    ensures term != "" ==> forall d :: d in r <==> d in conditions && MatchesTerm(d, term)
  {
    if term == "" then [] else Filter(conditions, d => MatchesTerm(d, term))
  }

  /** Suggestions keep the order of the condition list. */
  lemma SuggestionsKeepOrder(conditions: seq<string>, term: string)
    ensures IsSubsequence(Suggestions(conditions, term), conditions)
  {
    if term != "" {
      FilterIsSubsequence(conditions, d => MatchesTerm(d, term));
    }
  }

  /** Every condition is among its own suggestions, whatever the case the
      user types it in. */
  lemma SuggestionsIncludeTypedCondition(conditions: seq<string>, d: string, typed: string)
    requires d in conditions && d != "" && Lower(typed) == Lower(d)
    ensures d in Suggestions(conditions, typed)
  {
    ContainsSelf(Lower(d));
  }

  /** `plans.find(item => item.category === disease)`. */
  function FindCategory(plans: seq<Plan>, disease: string): (r: Option<Plan>)
    ensures r.Some? ==> r.value in plans && r.value.category == disease
    ensures r.None? <==> forall p :: p in plans ==> p.category != disease
  {
    if plans == [] then None
    else if plans[0].category == disease then Some(plans[0])
    else FindCategory(plans[1..], disease)
  }

  /** `plans.find(item => item.category.toLowerCase() === term.toLowerCase())`:
      the term is compared whole, untrimmed. */
  function FindCategoryIgnoringCase(plans: seq<Plan>, term: string): (r: Option<Plan>)
    ensures r.Some? ==> r.value in plans && Lower(r.value.category) == Lower(term)
    ensures r.None? <==> forall p :: p in plans ==> Lower(p.category) != Lower(term)
  {
    if plans == [] then None
    else if Lower(plans[0].category) == Lower(term) then Some(plans[0])
    else FindCategoryIgnoringCase(plans[1..], term)
  }

  /** The plan found is the first one with the category: no earlier plan
      has it. */
  lemma {:induction false} FindCategoryIsFirst(plans: seq<Plan>, disease: string)
    requires FindCategory(plans, disease).Some?
    ensures exists i ::
      && 0 <= i < |plans|
      && plans[i] == FindCategory(plans, disease).value
      && forall j :: 0 <= j < i ==> plans[j].category != disease
  {
    if plans[0].category != disease {
      var rest := plans[1..];
      FindCategoryIsFirst(rest, disease);
      var i :| 0 <= i < |rest| && rest[i] == FindCategory(rest, disease).value &&
        forall j :: 0 <= j < i ==> rest[j].category != disease;
      assert plans[i + 1] == rest[i];
      forall j | 0 <= j < i + 1
        ensures plans[j].category != disease
      {
        if j > 0 {
          assert plans[j] == rest[j - 1];
        }
      }
    } else {
      assert plans[0] == FindCategory(plans, disease).value;
    }
  }

  /** The plan found by the search box is the first one whose category
      equals the term ignoring case. */
  lemma {:induction false} FindCategoryIgnoringCaseIsFirst(plans: seq<Plan>, term: string)
    requires FindCategoryIgnoringCase(plans, term).Some?
    ensures exists i ::
      && 0 <= i < |plans|
      && plans[i] == FindCategoryIgnoringCase(plans, term).value
      && forall j :: 0 <= j < i ==> Lower(plans[j].category) != Lower(term)
  {
    if Lower(plans[0].category) != Lower(term) {
      var rest := plans[1..];
      FindCategoryIgnoringCaseIsFirst(rest, term);
      var i :| 0 <= i < |rest| && rest[i] == FindCategoryIgnoringCase(rest, term).value &&
        forall j :: 0 <= j < i ==> Lower(rest[j].category) != Lower(term);
      assert plans[i + 1] == rest[i];
      forall j | 0 <= j < i + 1
        ensures Lower(plans[j].category) != Lower(term)
      {
        if j > 0 {
          assert plans[j] == rest[j - 1];
        }
      }
    } else {
      assert plans[0] == FindCategoryIgnoringCase(plans, term).value;
    }
  }

  /** A plan found by its exact category is also found by a search typed in
      any case, unless an earlier plan differs from it only in case. */
  lemma {:induction false} SearchFindsSelectedPlan(plans: seq<Plan>, d: string)
    requires FindCategory(plans, d).Some?
    requires forall p :: p in plans && Lower(p.category) == Lower(d) ==> p.category == d
    ensures FindCategoryIgnoringCase(plans, d) == FindCategory(plans, d)
  {
    if plans[0].category != d {
      assert Lower(plans[0].category) != Lower(d);
      SearchFindsSelectedPlan(plans[1..], d);
    }
  }

  class NutritionPage {
    var conditions: seq<string>
    var plans: seq<Plan>
    var error: Option<string>
    var searchTerm: string
    var suggestions: seq<string>
    var selected: Option<Plan>

    constructor ()
      ensures conditions == Diseases
      ensures plans == [] && error.None? && searchTerm == "" && suggestions == [] && selected.None?
    {
      conditions := Diseases;
      plans := [];
      error := None;
      searchTerm := "";
      suggestions := [];
      selected := None;
    }

    /** `fetchNutritionData`: `response` is the server's list, `None` when
        the request fails. An empty list is reported as unseeded. */
    method Loaded(response: Option<seq<Plan>>)
      modifies this
      ensures conditions == old(conditions)
      ensures response.Some? ==> plans == response.value
      ensures response.None? ==> plans == old(plans) && error == Some(LoadFailed)
      ensures response.Some? && response.value == [] ==> error == Some(NoData)
      ensures response.Some? && response.value != [] ==> error == old(error)
      ensures searchTerm == old(searchTerm) && selected == old(selected)
    {
      if response.None? {
        error := Some(LoadFailed);
      } else {
        if response.value == [] {
          error := Some(NoData);
        }
        plans := response.value;
      }
    }

    /** Typing in the search box. */
    method SetSearchTerm(term: string)
      modifies this
      ensures conditions == old(conditions)
      ensures searchTerm == term && suggestions == Suggestions(conditions, term)
      ensures selected == old(selected)
      ensures plans == old(plans)
    {
      searchTerm := term;
      suggestions := Suggestions(conditions, term);
    }

    /** `handleDiseaseSelect`: the chosen condition becomes the term and its
        plan, found by exact category, the selection (`None` when the server
        has none). The suggestions are cleared, but when the term changed
        the effect on the term fills them again. */
    method HandleDiseaseSelect(disease: string)
      modifies this
      ensures conditions == old(conditions)
      ensures searchTerm == disease
      ensures selected == FindCategory(plans, disease)
      ensures suggestions == if disease != old(searchTerm) then Suggestions(conditions, disease) else []
      ensures plans == old(plans)
    {
      var changed := disease != searchTerm;
      searchTerm := disease;
      suggestions := [];
      selected := FindCategory(plans, disease);
      if changed {
        suggestions := Suggestions(conditions, disease);
      }
    }

    /** `handleSearch`: a blank term is refused and nothing changes;
        otherwise the plan whose category equals the term ignoring case is
        selected (`None` when there is none) and the suggestions close. */
    method HandleSearch()
      modifies this
      ensures conditions == old(conditions)
      ensures AllWhitespace(old(searchTerm)) ==>
        selected == old(selected) && suggestions == old(suggestions)
      ensures !AllWhitespace(old(searchTerm)) ==>
        selected == FindCategoryIgnoringCase(plans, searchTerm) && suggestions == []
      ensures searchTerm == old(searchTerm) && plans == old(plans)
    {
      if Trim(searchTerm) == "" {
        return;
      }
      selected := FindCategoryIgnoringCase(plans, searchTerm);
      suggestions := [];
    }
  }

  /** Picking a suggestion for a partly typed term leaves the suggestion
      list open, showing the picked condition. */
  lemma PickedSuggestionStaysListed(d: string)
    requires d in Diseases
    ensures d in Suggestions(Diseases, d)
  {
    SuggestionsIncludeTypedCondition(Diseases, d, d);
  }
}
