/**
 * The country detail page: loading one country by exact name, the separate
 * neighbor lookup, the favorites toggle over the stored list of alpha-3
 * codes, and the display rules for borders, timezones and population.
 */
module CountryDetail {
  import opened Text
  import opened Countries
  import opened Sequences

  const LoadErrorPrefix := "Failed to load country data: "

  /**
   * The message of the TypeError thrown by `data[0].cca3` when the response
   * array is empty. Its wording belongs to the JavaScript engine; this is V8's.
   */
  const MissingRecordMessage := "Cannot read properties of undefined (reading 'cca3')"

  const NoBordersLabel := "No land borders"

  /** At most this many timezone chips are shown before the "+N more" chip. */
  const TimezoneCap: nat := 5

  const StatusMessageHead := "Country not found (Status: "

  /** The message thrown for a response whose `ok` is false; it carries the status in decimal. */
  function StatusMessage(status: nat): (message: string)
    ensures |message| > |StatusMessageHead| + 1
    ensures message[..|StatusMessageHead|] == StatusMessageHead && message[|message| - 1] == ')'
    ensures forall i :: |StatusMessageHead| <= i < |message| - 1 ==> IsDigit(message[i])
    ensures DecimalValue(message[|StatusMessageHead|..|message| - 1]) == status
  {
    var digits := NatToString(status);
    var message := StatusMessageHead + digits + ")";
    assert message[|StatusMessageHead|..|message| - 1] == digits;
    NatToStringRoundTrip(status);
    message
  }

  // ---------------------------------------------------------------------
  // The favorites list
  // ---------------------------------------------------------------------

  /** `favorites.filter((code) => code !== cca3)`. */
  function Removed(favorites: seq<string>, code: string): (r: seq<string>)
    ensures multiset(r)[code] == 0
    ensures forall x :: x != code ==> multiset(r)[x] == multiset(favorites)[x]
  {
    if favorites == [] then []
    else
      assert favorites == [favorites[0]] + favorites[1..];
      (if favorites[0] != code then [favorites[0]] else []) + Removed(favorites[1..], code)
  }

  /** The removal keeps the remaining codes in their stored order. */
  lemma {:induction false} RemovedIsSubsequence(favorites: seq<string>, code: string)
    ensures IsSubsequence(Removed(favorites, code), favorites)
  {
    if favorites != [] {
      RemovedIsSubsequence(favorites[1..], code);
      var rest := Removed(favorites[1..], code);
      if favorites[0] != code {
        assert Removed(favorites, code)[1..] == rest;
      } else {
        assert Removed(favorites, code) == rest;
      }
    }
  }

  /** Removing a code that is not stored leaves the list as it was. */
  lemma {:induction false} RemovedAbsent(favorites: seq<string>, code: string)
    requires code !in favorites
    ensures Removed(favorites, code) == favorites
  {
    if favorites != [] {
      var tail := favorites[1..];
      assert favorites == [favorites[0]] + tail;
      assert favorites[0] != code && code !in tail;
      RemovedAbsent(tail, code);
      calc {
        Removed(favorites, code);
        [favorites[0]] + Removed(tail, code);
        [favorites[0]] + tail;
      }
    }
  }

  lemma {:induction false} RemovedAppend(a: seq<string>, b: seq<string>, code: string)
    ensures Removed(a + b, code) == Removed(a, code) + Removed(b, code)
  {
    if a == [] {
      assert a + b == b;
    } else {
      var head := if a[0] != code then [a[0]] else [];
      calc {
        Removed(a + b, code);
        { assert (a + b)[0] == a[0] && (a + b)[1..] == a[1..] + b; }
        head + Removed(a[1..] + b, code);
        { RemovedAppend(a[1..], b, code); }
        head + (Removed(a[1..], code) + Removed(b, code));
        (head + Removed(a[1..], code)) + Removed(b, code);
      }
    }
  }

  /**
   * The list `toggleFavorite` writes back: without every occurrence of the
   * code when the country is a favorite, with the code appended otherwise.
   */
  function Toggled(favorites: seq<string>, code: string, isFavorite: bool): (r: seq<string>)
    ensures (code in r) == !isFavorite
    ensures forall x :: x != code ==> multiset(r)[x] == multiset(favorites)[x]
  {
    if isFavorite then Removed(favorites, code) else favorites + [code]
  }

  /** Adding a code is an append at the end and changes nothing before it. */
  lemma ToggleAddAppends(favorites: seq<string>, code: string)
    ensures |Toggled(favorites, code, false)| == |favorites| + 1
    ensures Toggled(favorites, code, false)[..|favorites|] == favorites
    ensures Toggled(favorites, code, false)[|favorites|] == code
  {
  }

  /** Toggling twice from the absent state restores the stored list exactly. */
  lemma ToggleTwiceFromAbsent(favorites: seq<string>, code: string)
    requires code !in favorites
    ensures Toggled(Toggled(favorites, code, false), code, true) == favorites
  {
    RemovedAppend(favorites, [code], code);
    RemovedAbsent(favorites, code);
  }

  /**
   * Toggling twice from the present state keeps the same codes: the code
   * moves to the end, so the list is a permutation of the original.
   */
  lemma ToggleTwiceFromPresent(favorites: seq<string>, code: string)
    requires NoDuplicates(favorites) && code in favorites
    ensures multiset(Toggled(Toggled(favorites, code, true), code, false)) == multiset(favorites)
  {
  }

  /** While the flag agrees with the list, a toggle keeps the list free of duplicates. */
  lemma ToggleKeepsNoDuplicates(favorites: seq<string>, code: string, isFavorite: bool)
    requires NoDuplicates(favorites) && isFavorite == (code in favorites)
    ensures NoDuplicates(Toggled(favorites, code, isFavorite))
  {
  }

  /** The browser storage entry holding the favorites, as an in-memory list. */
  class FavoritesStore {
    /** The stored list; `None` when the key was never written. */
    var stored: Option<seq<string>>

    constructor ()
      ensures stored == None && Read() == []
    {
      stored := None;
    }

    /** `JSON.parse(localStorage.getItem(key) || "[]")`: the stored list, or empty when there is none. */
    function Read(): (codes: seq<string>)
      reads this
      ensures stored.Some? ==> codes == stored.value
      ensures stored.None? ==> codes == []
    {
      if stored.Some? then stored.value else []
    }

    /** `localStorage.setItem(key, JSON.stringify(codes))`. */
    method Write(codes: seq<string>)
      modifies this
      ensures stored == Some(codes) && Read() == codes
    {
      stored := Some(codes);
    }
  }

  // ---------------------------------------------------------------------
  // Display rules
  // ---------------------------------------------------------------------

  /** `borders && borders.length > 0`: the neighbor lookup is issued for present, non-empty borders. */
  predicate NeedsNeighbors(borders: Option<seq<string>>): (needed: bool)
    ensures needed <==> borders.Some? && borders.value != []
  {
    borders.Some? && |borders.value| > 0
  }

  /** The "Borders" entry: `borders?.length ? "N countries" : "No land borders"`. */
  function BordersLabel(borders: Option<seq<string>>): (caption: string)
    ensures (caption == NoBordersLabel) == !NeedsNeighbors(borders)
    ensures caption != NoBordersLabel ==> caption == NatToString(|borders.value|) + " countries"
  {
    if borders.Some? && |borders.value| != 0 then
      var digits := NatToString(|borders.value|);
      assert (digits + " countries")[0] == digits[0];
      digits + " countries"
    else NoBordersLabel
  }

  /**
   * `borders?.length === 0`: the "no land borders" alert of the Neighbors
   * tab. It needs the field to be present; a missing field shows neither
   * the alert nor any neighbor, although the label says "No land borders".
   */
  function ShowsNoBordersAlert(borders: Option<seq<string>>): (shown: bool)
    ensures shown <==> borders.Some? && borders.value == []
    ensures shown ==> !NeedsNeighbors(borders) && BordersLabel(borders) == NoBordersLabel
  {
    borders.Some? && |borders.value| == 0
  }

  /** The timezone chips: `timezones?.slice(0, 5)`. */
  function TimezoneChips(timezones: Option<seq<string>>): (chips: seq<string>)
    ensures timezones.None? ==> chips == []
    ensures timezones.Some? ==> chips <= timezones.value && |chips| == Min(TimezoneCap, |timezones.value|)
  {
    if timezones.Some? then timezones.value[..Min(TimezoneCap, |timezones.value|)] else []
  }

  /** The trailing chip `+${n - 5} more`, present when `timezones?.length > 5`. */
  function MoreChip(timezones: Option<seq<string>>): (chip: Option<string>)
    ensures chip.Some? <==> timezones.Some? && |timezones.value| > TimezoneCap
  {
    if timezones.Some? && |timezones.value| > TimezoneCap
    then Some("+" + NatToString(|timezones.value| - TimezoneCap) + " more")
    else None
  }

  /** The number in the "+N more" chip plus the chips shown is the number of timezones. */
  lemma MoreChipCountsRest(zones: seq<string>)
    requires |zones| > TimezoneCap
    ensures
      var caption := MoreChip(Some(zones)).value;
      && |caption| > 6
      && caption[0] == '+' && caption[|caption| - 5..] == " more"
      && (forall i :: 1 <= i < |caption| - 5 ==> IsDigit(caption[i]))
      && |TimezoneChips(Some(zones))| + DecimalValue(caption[1..|caption| - 5]) == |zones|
  {
    var digits := NatToString(|zones| - TimezoneCap);
    var caption := "+" + digits + " more";
    assert caption[1..|caption| - 5] == digits;
    assert caption[|caption| - 5..] == " more";
    NatToStringRoundTrip(|zones| - TimezoneCap);
  }

  /** The population annotation: which of the three forms `formatPopulation` picks. */
  datatype PopulationLabel = Millions | Thousands | Plain(text: string)

  function FormatPopulation(population: nat): (caption: PopulationLabel)
    ensures caption.Millions? <==> population >= 1000000
    ensures caption.Thousands? <==> 1000 <= population < 1000000
    ensures caption.Plain? <==> population < 1000
    ensures caption.Plain? ==> caption.text == NatToString(population)
    ensures caption.Plain? ==> |caption.text| <= 3 && DecimalValue(caption.text) == population
  {
    if population >= 1000000 then Millions
    else if population >= 1000 then Thousands
    else
      NatToStringRoundTrip(population);
      NatToStringShort(population);
      Plain(NatToString(population))
  }

  // ---------------------------------------------------------------------
  // The page state
  // ---------------------------------------------------------------------

  /** What the page renders, checked in the order the component checks it. */
  datatype DetailView = Skeleton | ErrorAlert(message: string) | Blank | Content(country: Country)

  class DetailPage {
    /**
     * The route parameter, the exact name looked up. It changes when a
     * neighbour card links to another country while the page stays mounted.
     */
    var name: string
    /** The favorites storage shared by every detail page. */
    const store: FavoritesStore

    var country: Option<Country>
    var loading: bool
    var error: string
    var isFavorite: bool
    var neighboringCountries: seq<Country>
    var loadingNeighbors: bool

    constructor (name: string, store: FavoritesStore)
      ensures this.name == name && this.store == store
      ensures country == None && loading && error == "" && !isFavorite
      ensures neighboringCountries == [] && !loadingNeighbors
      ensures View() == Skeleton
    {
      this.name := name;
      this.store := store;
      country := None;
      loading := true;
      error := "";
      isFavorite := false;
      neighboringCountries := [];
      loadingNeighbors := false;
    }

    /** The heart icon agrees with the stored list for the loaded country. */
    predicate FavoriteSynced()
      reads this, store
    {
      country.Some? ==> (isFavorite <==> country.value.cca3 in store.Read())
    }

    /**
     * The skeleton wins while loading, then a non-empty error; the country
     * content appears only when neither applies and a country is loaded.
     */
    function View(): (view: DetailView)
      reads this
      ensures loading <==> view == Skeleton
      ensures view.ErrorAlert? <==> !loading && error != ""
      ensures view.ErrorAlert? ==> view.message == error
      ensures view.Content? <==> !loading && error == "" && country.Some?
      ensures view.Content? ==> view.country == country.value
    {
      if loading then Skeleton
      else if error != "" then ErrorAlert(error)
      else if country.None? then Blank
      else Content(country.value)
    }

    /** `loadCountryData` up to its `await`: loading starts and the error clears. */
    method BeginLoad() returns (request: string)
      modifies this`loading, this`error
      ensures loading && error == "" && request == name
    {
      loading := true;
      error := "";
      request := name;
    }

    /**
     * `loadCountryData` after the response: on a non-ok status, a network
     * failure or an empty array the error is set (an empty array also clears
     * the country, since `setCountry(data[0])` runs before `data[0].cca3`
     * throws); otherwise the first record is shown, the favorite flag is
     * read from storage and the neighbor lookup is issued when there are
     * borders. Loading ends in every case.
     */
    method CompleteLoad(response: Response) returns (neighborRequest: Option<seq<string>>)
      modifies this`country, this`loading, this`error, this`isFavorite, this`loadingNeighbors
      ensures !loading
      ensures response.HttpError? ==>
        error == LoadErrorPrefix + StatusMessage(response.status) && country == old(country)
      ensures response.NetworkError? ==>
        error == LoadErrorPrefix + response.message && country == old(country)
      ensures response.Ok? && response.body == [] ==>
        error == LoadErrorPrefix + MissingRecordMessage && country == None
      ensures response.Ok? && response.body != [] ==>
        && country == Some(response.body[0]) && error == old(error)
        && isFavorite == (response.body[0].cca3 in store.Read())
        && FavoriteSynced()
        && (neighborRequest.Some? <==> NeedsNeighbors(response.body[0].borders))
        && (neighborRequest.Some? ==> neighborRequest.value == response.body[0].borders.value && loadingNeighbors)
      ensures !(response.Ok? && response.body != []) ==> isFavorite == old(isFavorite) && neighborRequest == None
      ensures neighborRequest == None ==> loadingNeighbors == old(loadingNeighbors)
      ensures neighboringCountries == old(neighboringCountries)
    {
      neighborRequest := None;
      match response {
        case HttpError(status) =>
          error := LoadErrorPrefix + StatusMessage(status);
        case NetworkError(message) =>
          error := LoadErrorPrefix + message;
        case Ok(data) =>
          if data == [] {
            country := None;
            error := LoadErrorPrefix + MissingRecordMessage;
          } else {
            var record := data[0];
            country := Some(record);
            var favorites := store.Read();
            isFavorite := record.cca3 in favorites;
            if record.borders.Some? && |record.borders.value| > 0 {
              var codes := BeginNeighbors(record.borders.value);
              neighborRequest := Some(codes);
            }
          }
      }
      loading := false;
    }

    /** The load run to completion: a failure is an alert and no country content. */
    method LoadCountryData(response: Response) returns (request: string, neighborRequest: Option<seq<string>>)
      modifies this`country, this`loading, this`error, this`isFavorite, this`loadingNeighbors
      ensures request == name
      ensures !loading
      ensures response.Ok? && response.body != [] ==>
        View() == Content(response.body[0]) && FavoriteSynced()
        && (neighborRequest.Some? <==> NeedsNeighbors(response.body[0].borders))
      ensures !(response.Ok? && response.body != []) ==>
        View().ErrorAlert? && LoadErrorPrefix <= View().message && neighborRequest == None
    {
      request := BeginLoad();
      neighborRequest := CompleteLoad(response);
    }

    /**
     * The route moves to another name while the page stays mounted: only the
     * name changes, and the effect keyed on it then reloads under that name.
     */
    method Navigate(newName: string)
      modifies this`name
      ensures name == newName
    {
      name := newName;
    }

    /** A route change followed by the reload it triggers asks for the new name. */
    method NavigateAndLoad(newName: string, response: Response) returns (request: string, neighborRequest: Option<seq<string>>)
      modifies this`name, this`country, this`loading, this`error, this`isFavorite, this`loadingNeighbors
      ensures name == newName && request == newName
      ensures response.Ok? && response.body != [] ==>
        View() == Content(response.body[0]) && FavoriteSynced()
        && (neighborRequest.Some? <==> NeedsNeighbors(response.body[0].borders))
      ensures !(response.Ok? && response.body != []) ==>
        View().ErrorAlert? && LoadErrorPrefix <= View().message && neighborRequest == None
      ensures neighboringCountries == old(neighboringCountries)
    {
      Navigate(newName);
      request, neighborRequest := LoadCountryData(response);
    }

    /** `loadNeighboringCountries` up to its `await`. */
    method BeginNeighbors(codes: seq<string>) returns (request: seq<string>)
      modifies this`loadingNeighbors
      ensures loadingNeighbors && request == codes
    {
      loadingNeighbors := true;
      request := codes;
    }

    /**
     * `loadNeighboringCountries` after the response: the neighbors on
     * success; a failure is only logged. The page error is never touched.
     */
    method CompleteNeighbors(response: Response)
      modifies this`neighboringCountries, this`loadingNeighbors
      ensures response.Ok? ==> neighboringCountries == response.body
      ensures !response.Ok? ==> neighboringCountries == old(neighboringCountries)
      ensures !loadingNeighbors
      ensures error == old(error) && country == old(country) && loading == old(loading)
    {
      if response.Ok? {
        neighboringCountries := response.body;
      }
      loadingNeighbors := false;
    }

    /**
     * The heart button: nothing without a loaded country; otherwise the
     * toggled list is written back and the flag flips, which leaves the flag
     * in agreement with the stored list whatever it was before.
     */
    method ToggleFavorite()
      modifies this`isFavorite, store
      ensures country.None? ==> isFavorite == old(isFavorite) && store.stored == old(store.stored)
      ensures country.Some? ==>
        && store.stored == Some(Toggled(old(store.Read()), country.value.cca3, old(isFavorite)))
        && isFavorite == !old(isFavorite)
      ensures FavoriteSynced()
      ensures old(FavoriteSynced()) && NoDuplicates(old(store.Read())) ==> NoDuplicates(store.Read())
    {
      if country.None? {
        return;
      }
      var code := country.value.cca3;
      var favorites := store.Read();
      if isFavorite {
        var updated := Removed(favorites, code);
        store.Write(updated);
      } else {
        store.Write(favorites + [code]);
      }
      isFavorite := !isFavorite;
      if old(FavoriteSynced()) && NoDuplicates(favorites) {
        ToggleKeepsNoDuplicates(favorites, code, old(isFavorite));
      }
    }
  }
}
