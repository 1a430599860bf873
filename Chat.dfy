/**
 * The quick-pick controls of src/app/chat.tsx: three selections held as
 * component state, four handlers, and the synthetic query they submit. The
 * hidden form's submit is recorded as an entry of `submitted`; `alert` as a
 * count.
 */
module Chat {
  import opened Wrappers

  /** The values of the provider buttons (`apiOptions`). */
  const API_OPTIONS: seq<string> := ["yelp", "google"]

  /** The values of the cuisine buttons (`restaurantOptions`). */
  const RESTAURANT_OPTIONS: seq<string> :=
    ["mexican", "italian", "sportsbar", "japanese", "vegetarian",
     "chinese", "indian", "french", "steakhouse", "seafood"]

  /** The class of the selected button and of the others. */
  const SELECTED_CLASS := "bg-green-700"
  const UNSELECTED_CLASS := "bg-green-500"

  /** The synthetic query: provider, a space, cuisine, the word "in" between spaces, zip code. */
  function Query(api: string, restaurantType: string, zip: string): string
  {
    api + " " + restaurantType + " in " + zip
  }

  /** `isSelected(value, type)`: the highlighted class exactly when the two are equal. */
  function IsSelected(value: string, current: string): (cls: string)
    ensures cls == SELECTED_CLASS <==> value == current
    ensures cls == UNSELECTED_CLASS <==> value != current
  {
    if current == value then SELECTED_CLASS else UNSELECTED_CLASS
  }

  /** The index of the first space in `s`, or `|s|` when there is none. */
  function IndexOfSpace(s: string): (i: nat)
    ensures i <= |s|
    ensures forall j :: 0 <= j < i ==> s[j] != ' '
    ensures i < |s| ==> s[i] == ' '
  {
    if s == [] || s[0] == ' ' then 0 else 1 + IndexOfSpace(s[1..])
  }

  /**
   * Reads a query back: the provider up to the first space, the cuisine up to
   * the next, then "in " and the zip code as the rest.
   */
  function ParseQuery(s: string): Option<(string, string, string)>
  {
    var i := IndexOfSpace(s);
    if i == |s| then None
    else
      var rest := s[i + 1..];
      var j := IndexOfSpace(rest);
      if j == |rest| then None
      else
        var tail := rest[j + 1..];
        if |tail| >= 3 && tail[..3] == "in " then Some((s[..i], rest[..j], tail[3..])) else None
  }

  lemma {:induction false} IndexOfSpaceAfterWord(word: string, rest: string)
    requires ' ' !in word
    ensures IndexOfSpace(word + " " + rest) == |word|
  {
    if word != [] {
      assert (word + " " + rest)[1..] == word[1..] + " " + rest;
      IndexOfSpaceAfterWord(word[1..], rest);
    }
  }

  /**
   * The query format can be read back: for a provider and a cuisine without
   * spaces, the query determines all three selections.
   */
  lemma QueryRoundTrip(api: string, restaurantType: string, zip: string)
    requires ' ' !in api && ' ' !in restaurantType
    ensures ParseQuery(Query(api, restaurantType, zip)) == Some((api, restaurantType, zip))
  {
    var s := Query(api, restaurantType, zip);
    var rest := restaurantType + " " + ("in " + zip);
    assert s == api + " " + rest;
    IndexOfSpaceAfterWord(api, rest);
    assert s[|api| + 1..] == rest;
    assert s[..|api|] == api;
    IndexOfSpaceAfterWord(restaurantType, "in " + zip);
    assert rest[|restaurantType| + 1..] == "in " + zip;
    assert rest[..|restaurantType|] == restaurantType;
  }

  /** No quick-pick value contains a space. */
  lemma QuickPickValuesHaveNoSpace(i: nat, j: nat)
    requires i < |API_OPTIONS| && j < |RESTAURANT_OPTIONS|
    ensures ' ' !in API_OPTIONS[i] && ' ' !in RESTAURANT_OPTIONS[j]
  {
    if i == 0 { assert ' ' !in "yelp"; } else { assert ' ' !in "google"; }
    match j
    case 0 => assert ' ' !in "mexican";
    case 1 => assert ' ' !in "italian";
    case 2 => assert ' ' !in "sportsbar";
    case 3 => assert ' ' !in "japanese";
    case 4 => assert ' ' !in "vegetarian";
    case 5 => assert ' ' !in "chinese";
    case 6 => assert ' ' !in "indian";
    case 7 => assert ' ' !in "french";
    case 8 => assert ' ' !in "steakhouse";
    case 9 => assert ' ' !in "seafood";
  }

  /** Two quick-pick queries are equal only when their selections are. */
  lemma QuickPickQueriesDistinct(a1: nat, t1: nat, z1: string, a2: nat, t2: nat, z2: string)
    requires a1 < |API_OPTIONS| && a2 < |API_OPTIONS|
    requires t1 < |RESTAURANT_OPTIONS| && t2 < |RESTAURANT_OPTIONS|
    requires Query(API_OPTIONS[a1], RESTAURANT_OPTIONS[t1], z1) == Query(API_OPTIONS[a2], RESTAURANT_OPTIONS[t2], z2)
    ensures a1 == a2 && t1 == t2 && z1 == z2
  {
    QuickPickValuesHaveNoSpace(a1, t1);
    QuickPickValuesHaveNoSpace(a2, t2);
    QueryRoundTrip(API_OPTIONS[a1], RESTAURANT_OPTIONS[t1], z1);
    QueryRoundTrip(API_OPTIONS[a2], RESTAURANT_OPTIONS[t2], z2);
  }

  /** The state of the `Chat` component that the quick-pick handlers read and write. */
  class ChatView {
    var selectedApi: string
    var selectedRestaurantType: string
    var zipCode: string
    /** The chat input, as set by `setInput`. */
    var input: string
    /** The queries submitted through the hidden form, oldest first. */
    var submitted: seq<string>
    /** How many times the "please select" alert was raised. */
    var alerts: nat

    /** The initial state: every `useState('')` empty, nothing submitted. */
    constructor ()
      ensures selectedApi == "" && selectedRestaurantType == "" && zipCode == ""
      ensures input == "" && submitted == [] && alerts == 0
    {
      selectedApi, selectedRestaurantType, zipCode := "", "", "";
      input, submitted, alerts := "", [], 0;
    }

    /** `handleApiSelection`: stores the provider; never submits. */
    method HandleApiSelection(value: string)
      modifies this
      ensures selectedApi == value
      ensures selectedRestaurantType == old(selectedRestaurantType) && zipCode == old(zipCode)
      ensures input == old(input) && submitted == old(submitted) && alerts == old(alerts)
    {
      selectedApi := value;
    }

    /** `handleZipCodeChange`: stores the zip code; never submits. */
    method HandleZipCodeChange(value: string)
      modifies this
      ensures zipCode == value
      ensures selectedApi == old(selectedApi) && selectedRestaurantType == old(selectedRestaurantType)
      ensures input == old(input) && submitted == old(submitted) && alerts == old(alerts)
    {
      zipCode := value;
    }

    /** `triggerSearch`: sets the input to the query and submits it. */
    method TriggerSearch(restaurantType: string)
      modifies this
      ensures input == Query(selectedApi, restaurantType, zipCode)
      ensures submitted == old(submitted) + [input]
      ensures selectedApi == old(selectedApi) && selectedRestaurantType == old(selectedRestaurantType)
      ensures zipCode == old(zipCode) && alerts == old(alerts)
    {
      input := Query(selectedApi, restaurantType, zipCode);
      submitted := submitted + [input];
    }

    /**
     * `handleRestaurantTypeSelection`: stores the cuisine, and submits at once,
     * with the newly chosen cuisine, iff provider and zip code are non-empty.
     */
    method HandleRestaurantTypeSelection(value: string)
      modifies this
      ensures selectedRestaurantType == value
      ensures selectedApi == old(selectedApi) && zipCode == old(zipCode) && alerts == old(alerts)
      ensures old(selectedApi) != "" && old(zipCode) != "" ==>
        input == Query(selectedApi, value, zipCode) && submitted == old(submitted) + [input]
      ensures old(selectedApi) == "" || old(zipCode) == "" ==>
        input == old(input) && submitted == old(submitted)
    {
      selectedRestaurantType := value;
      if selectedApi != "" && zipCode != "" {
        TriggerSearch(value);
      }
    }

    /**
     * `handleSearchClick`: with all three selections non-empty, submits the
     * query once and raises no alert; otherwise submits nothing and raises
     * exactly one alert.
     */
    method HandleSearchClick()
      modifies this
      ensures selectedApi == old(selectedApi) && selectedRestaurantType == old(selectedRestaurantType)
      ensures zipCode == old(zipCode)
      ensures selectedApi != "" && zipCode != "" && selectedRestaurantType != "" ==>
        && input == Query(selectedApi, selectedRestaurantType, zipCode)
        && submitted == old(submitted) + [input] && alerts == old(alerts)
      ensures selectedApi == "" || zipCode == "" || selectedRestaurantType == "" ==>
        input == old(input) && submitted == old(submitted) && alerts == old(alerts) + 1
    {
      if selectedApi != "" && zipCode != "" && selectedRestaurantType != "" {
        TriggerSearch(selectedRestaurantType);
      } else {
        alerts := alerts + 1;
      }
    }
  }

  /**
   * A user picks Yelp, types 98104 and picks Italian: choosing the cuisine
   * submits "yelp italian in 98104" at once, and no alert is raised.
   */
  method YelpItalianScenario() returns (queries: seq<string>, alerts: nat)
    ensures queries == ["yelp italian in 98104"] && alerts == 0
  {
    var view := new ChatView();
    view.HandleApiSelection(API_OPTIONS[0]);
    view.HandleZipCodeChange("98104");
    view.HandleRestaurantTypeSelection(RESTAURANT_OPTIONS[1]);
    assert Query("yelp", "italian", "98104") == "yelp italian in 98104";
    queries, alerts := view.submitted, view.alerts;
  }
}
