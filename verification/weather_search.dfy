/** The location search box, without its rendering, timers and requests:
    how a geocoding suggestion becomes a label, how choosing a location
    rewrites the page's query parameters, and how the box's state moves
    when the query is looked up, a suggestion is chosen, or the form is
    submitted. */
module WeatherSearch {
  import opened Wrappers
  import Js
  import SearchParams

  /** One geocoding result. */
  datatype GeocodeResult = GeocodeResult(name: string, latitude: real, longitude: real, country: Option<string>, admin1: Option<string>)

  /** The component's state. */
  datatype SearchState = SearchState(
    query: string,
    locationLabel: string,
    suggestions: seq<GeocodeResult>,
    showDropdown: bool,
    isInputFocused: bool)

  /** The component's state together with the query parameters of the page
      URL it navigates to. */
  datatype Page = Page(state: SearchState, params: seq<SearchParams.Param>)

  /** The answer to a geocoding request: the request or its JSON threw, or
      the body's `results` field, which may be absent. */
  datatype GeocodeAnswer = Threw | Answered(results: Option<seq<GeocodeResult>>)

  const LatitudeKey := "latitude"
  const LongitudeKey := "longitude"
  const LocationNameKey := "locationName"

  /** The query parameters choosing a location may write. */
  const LocationKeys: set<string> := {LatitudeKey, LongitudeKey, LocationNameKey}

  // ---------------------------------------------------------------------
  // The label

  /** `", " + part` when the optional part is truthy, otherwise nothing. */
  function Suffix(part: Option<string>): string {
    if Js.TruthyString(part) then ", " + part.value else ""
  }

  /** The label of a suggestion: its name, then the region, then the country,
      each of the latter two preceded by ", " and present only when
      non-empty. */
  function Label(s: GeocodeResult): (r: string)
    ensures |r| >= |s.name| && r[..|s.name|] == s.name
    ensures !Js.TruthyString(s.admin1) && !Js.TruthyString(s.country) ==> r == s.name
    ensures Js.TruthyString(s.admin1) && !Js.TruthyString(s.country) ==> r == s.name + ", " + s.admin1.value
    ensures !Js.TruthyString(s.admin1) && Js.TruthyString(s.country) ==> r == s.name + ", " + s.country.value
    ensures Js.TruthyString(s.admin1) && Js.TruthyString(s.country) ==>
              r == s.name + ", " + s.admin1.value + ", " + s.country.value
  {
    s.name + Suffix(s.admin1) + Suffix(s.country)
  }

  /** The text of a label before its first comma. */
  function BeforeComma(text: string): (r: string)
    ensures |r| <= |text| && r == text[..|r|]
    ensures ',' !in r
  {
    if |text| == 0 || text[0] == ',' then ""
    else [text[0]] + BeforeComma(text[1..])
  }

  lemma {:induction false} BeforeCommaOfPrefix(name: string, rest: string)
    requires ',' !in name
    requires |rest| == 0 || rest[0] == ','
    ensures BeforeComma(name + rest) == name
    decreases |name|
  {
    if |name| > 0 {
      assert (name + rest)[1..] == name[1..] + rest;
      BeforeCommaOfPrefix(name[1..], rest);
    } else {
      assert name + rest == rest;
    }
  }

  /** A name without commas can be read back from its label. */
  lemma NameFromLabel(s: GeocodeResult)
    requires ',' !in s.name
    ensures BeforeComma(Label(s)) == s.name
  {
    var rest := Suffix(s.admin1) + Suffix(s.country);
    assert Label(s) == s.name + rest;
    BeforeCommaOfPrefix(s.name, rest);
  }

  // ---------------------------------------------------------------------
  // Choosing a location

  /** `handleLocationSelect`: the URL's parameters after choosing a place.
      `show` renders a number as text. Latitude and longitude are written
      only when both are non-zero, the name only when non-empty; every other
      parameter stays as it was, in place. */
  function LocationSelect(params: seq<SearchParams.Param>, latitude: real, longitude: real, locationName: string, show: real -> string)
    : (r: seq<SearchParams.Param>)
    ensures Js.TruthyNumber(latitude) && Js.TruthyNumber(longitude) ==>
              SearchParams.Get(r, LatitudeKey) == Some(show(latitude))
              && SearchParams.Get(r, LongitudeKey) == Some(show(longitude))
    ensures !(Js.TruthyNumber(latitude) && Js.TruthyNumber(longitude)) ==>
              SearchParams.Get(r, LatitudeKey) == SearchParams.Get(params, LatitudeKey)
              && SearchParams.Get(r, LongitudeKey) == SearchParams.Get(params, LongitudeKey)
    ensures locationName != "" ==> SearchParams.Get(r, LocationNameKey) == Some(locationName)
    ensures locationName == "" ==> SearchParams.Get(r, LocationNameKey) == SearchParams.Get(params, LocationNameKey)
    ensures SearchParams.Drop(r, LocationKeys) == SearchParams.Drop(params, LocationKeys)
  {
    var withCoordinates :=
      if Js.TruthyNumber(latitude) && Js.TruthyNumber(longitude) then
        var p1 := SearchParams.Set(params, LatitudeKey, show(latitude));
        SearchParams.SetKeepsOtherNames(params, LatitudeKey, show(latitude), LocationNameKey);
        SearchParams.SetFrame(params, LatitudeKey, show(latitude), LocationKeys);
        SearchParams.SetKeepsOtherNames(p1, LongitudeKey, show(longitude), LatitudeKey);
        SearchParams.SetKeepsOtherNames(p1, LongitudeKey, show(longitude), LocationNameKey);
        SearchParams.SetFrame(p1, LongitudeKey, show(longitude), LocationKeys);
        SearchParams.Set(p1, LongitudeKey, show(longitude))
      else params;
    if locationName != "" then
      SearchParams.SetKeepsOtherNames(withCoordinates, LocationNameKey, locationName, LatitudeKey);
      SearchParams.SetKeepsOtherNames(withCoordinates, LocationNameKey, locationName, LongitudeKey);
      SearchParams.SetFrame(withCoordinates, LocationNameKey, locationName, LocationKeys);
      SearchParams.Set(withCoordinates, LocationNameKey, locationName)
    else withCoordinates
  }

  /** `selectSuggestion`: the query is cleared, the label shows the chosen
      place, the dropdown closes, the suggestions are dropped, and the URL
      moves to the place. Focus is untouched. */
  function SelectSuggestion(page: Page, s: GeocodeResult, show: real -> string): (r: Page)
    ensures r.state.query == "" && !r.state.showDropdown && r.state.suggestions == []
    ensures r.state.locationLabel == Label(s)
    ensures r.state.isInputFocused == page.state.isInputFocused
    ensures r.params == LocationSelect(page.params, s.latitude, s.longitude, Label(s), show)
  {
    var text := Label(s);
    var state := page.state.(query := "", locationLabel := text, showDropdown := false, suggestions := []);
    Page(state, LocationSelect(page.params, s.latitude, s.longitude, text, show))
  }

  /** The name of a chosen place always reaches the URL, since a label is
      never shorter than the place's name. */
  lemma SelectedNameReachesUrl(page: Page, s: GeocodeResult, show: real -> string)
    requires s.name != ""
    ensures SearchParams.Get(SelectSuggestion(page, s, show).params, LocationNameKey) == Some(Label(s))
  {
  }

  // ---------------------------------------------------------------------
  // Looking the query up and submitting it

  /** The debounced lookup of the current query. A blank query clears the
      suggestions and closes the dropdown without consulting `answer`;
      otherwise a `results` field (even an empty one) replaces the
      suggestions and opens the dropdown, and anything else leaves the state
      alone. */
  function LookupQuery(st: SearchState, answer: GeocodeAnswer): (r: SearchState)
    ensures Js.IsBlank(st.query) ==> r == st.(suggestions := [], showDropdown := false)
    ensures !Js.IsBlank(st.query) && answer.Answered? && answer.results.Some? ==>
              r == st.(suggestions := answer.results.value, showDropdown := true)
    ensures !Js.IsBlank(st.query) && !(answer.Answered? && answer.results.Some?) ==> r == st
  {
    Js.TrimEmptyIffBlank(st.query);
    if Js.Trim(st.query) == "" then st.(suggestions := [], showDropdown := false)
    else if answer.Answered? && answer.results.Some? then st.(suggestions := answer.results.value, showDropdown := true)
    else st
  }

  /** `handleSearch`: a blank query does nothing; otherwise the first
      suggestion is chosen when there is one, without a new lookup, and
      failing that the first result of a one-result lookup; a lookup that
      throws or finds nothing leaves the page alone. */
  function Submit(page: Page, answer: GeocodeAnswer, show: real -> string): (r: Page)
    ensures Js.IsBlank(page.state.query) ==> r == page
    ensures !Js.IsBlank(page.state.query) && |page.state.suggestions| > 0 ==>
              r == SelectSuggestion(page, page.state.suggestions[0], show)
    ensures !Js.IsBlank(page.state.query) && |page.state.suggestions| == 0 && FoundPlace(answer) ==>
              r == SelectSuggestion(page, answer.results.value[0], show)
    ensures !Js.IsBlank(page.state.query) && |page.state.suggestions| == 0 && !FoundPlace(answer) ==>
              r == page
  {
    Js.TrimEmptyIffBlank(page.state.query);
    if Js.Trim(page.state.query) == "" then page
    else if |page.state.suggestions| > 0 then SelectSuggestion(page, page.state.suggestions[0], show)
    else if FoundPlace(answer) then SelectSuggestion(page, answer.results.value[0], show)
    else page
  }

  /** The lookup answered with at least one result. */
  predicate FoundPlace(answer: GeocodeAnswer) {
    answer.Answered? && answer.results.Some? && |answer.results.value| > 0
  }

  /** Submitting settles the page: once a submit has chosen a place the query
      is empty, so submitting again changes nothing, whatever a new lookup
      would answer. */
  lemma SubmitSettles(page: Page, answer: GeocodeAnswer, again: GeocodeAnswer, show: real -> string)
    requires !Js.IsBlank(page.state.query)
    requires |page.state.suggestions| > 0 || FoundPlace(answer)
    ensures Submit(Submit(page, answer, show), again, show) == Submit(page, answer, show)
  {
  }

  /** A blank query's lookup does not depend on the answer. */
  lemma BlankQueryIgnoresAnswer(st: SearchState, a: GeocodeAnswer, b: GeocodeAnswer)
    requires Js.IsBlank(st.query)
    ensures LookupQuery(st, a) == LookupQuery(st, b)
    ensures LookupQuery(st, a).suggestions == [] && !LookupQuery(st, a).showDropdown
  {
  }
}
