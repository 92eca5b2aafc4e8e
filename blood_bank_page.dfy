/** The blood bank finder (client/src/pages/BloodBank.jsx): for a typed
    location it lists the blood donation organisations that serve it. The
    national services are listed for any location; the others only when
    the location names one of the cities they serve, matched by substring
    ignoring case. */
module BloodBankPage {
  import opened Common

  const RedCrossCities: seq<string> :=
    ["Delhi", "Mumbai", "Bangalore", "Kolkata", "Chennai", "Hyderabad", "Pune", "Ahmedabad"]
  const SankalpCities: seq<string> := ["Delhi", "Mumbai", "Bangalore", "Pune", "Hyderabad", "Chennai"]
  const RotaryCities: seq<string> := ["Delhi", "Mumbai", "Bangalore", "Chennai", "Kolkata"]
  const LionsCities: seq<string> := ["Mumbai", "Delhi", "Pune", "Ahmedabad"]

  /** `isInCity(cityList)`: some city of the list occurs in the location,
      ignoring case. */
  predicate IsInCity(location: string, cities: seq<string>) {
    exists c :: c in cities && Contains(Lower(location), Lower(c))
  }

  datatype Organisation = ERaktakosh | RedCross | Friends2Support | Sankalp | Rotary | Lions

  /** The organisations listed for a location: none while the box is empty. */
  function Listed(location: string): (orgs: set<Organisation>)
    ensures location == "" ==> orgs == {}
    ensures location != "" ==> ERaktakosh in orgs && Friends2Support in orgs
    ensures RedCross in orgs <==> location != "" && IsInCity(location, RedCrossCities)
    ensures Sankalp in orgs <==> location != "" && IsInCity(location, SankalpCities)
    ensures Rotary in orgs <==> location != "" && IsInCity(location, RotaryCities)
    ensures Lions in orgs <==> location != "" && IsInCity(location, LionsCities)
  {
    if location == "" then {}
    else
      {ERaktakosh, Friends2Support}
      + (if IsInCity(location, RedCrossCities) then {RedCross} else {})
      + (if IsInCity(location, SankalpCities) then {Sankalp} else {})
      + (if IsInCity(location, RotaryCities) then {Rotary} else {})
      + (if IsInCity(location, LionsCities) then {Lions} else {})
  }

  /** Matching a longer list of cities can only match more. */
  lemma IsInCityMonotone(location: string, fewer: seq<string>, more: seq<string>)
    requires forall c :: c in fewer ==> c in more
    requires IsInCity(location, fewer)
    ensures IsInCity(location, more)
  {
  }

  /** Every city served by Sankalp, Rotary or Lions is also served by the
      Red Cross, so the Red Cross is listed wherever any of them is. */
  lemma RedCrossWheneverRegional(location: string)
    ensures Sankalp in Listed(location) || Rotary in Listed(location) || Lions in Listed(location) ==>
      RedCross in Listed(location)
  {
    if IsInCity(location, SankalpCities) {
      IsInCityMonotone(location, SankalpCities, RedCrossCities);
    }
    if IsInCity(location, RotaryCities) {
      IsInCityMonotone(location, RotaryCities, RedCrossCities);
    }
    if IsInCity(location, LionsCities) {
      IsInCityMonotone(location, LionsCities, RedCrossCities);
    }
  }

  /** A location that names a city of a list, in whatever case and with
      whatever around it, is in that list's area. */
  lemma NamedCityMatches(location: string, city: string, cities: seq<string>)
    requires city in cities && Contains(location, city)
    ensures IsInCity(location, cities)
  {
    LowerContains(location, city);
  }

  /** A location naming Mumbai lists all six organisations. */
  lemma MumbaiListsAll(location: string)
    requires Contains(location, "Mumbai")
    ensures Listed(location) == {ERaktakosh, Friends2Support, RedCross, Sankalp, Rotary, Lions}
  {
    NamedCityMatches(location, "Mumbai", RedCrossCities);
    NamedCityMatches(location, "Mumbai", SankalpCities);
    NamedCityMatches(location, "Mumbai", RotaryCities);
    NamedCityMatches(location, "Mumbai", LionsCities);
    EveryListMatched(location);
  }

  /** A location in every list's area lists all six organisations. */
  lemma EveryListMatched(location: string)
    requires location != ""
    requires IsInCity(location, RedCrossCities) && IsInCity(location, SankalpCities)
    requires IsInCity(location, RotaryCities) && IsInCity(location, LionsCities)
    ensures Listed(location) == {ERaktakosh, Friends2Support, RedCross, Sankalp, Rotary, Lions}
  {
  }

  /** Outside the Red Cross cities only the two national services are
      listed. */
  lemma OnlyNationalOutsideCities(location: string)
    requires location != "" && !IsInCity(location, RedCrossCities)
    ensures Listed(location) == {ERaktakosh, Friends2Support}
  {
    RedCrossWheneverRegional(location);
  }
}
