/**
 * The location search box: the mapping of geocoder answers to locations, the short-query guard,
 * and the component state (query, results, open dropdown, loading flag, pending search timer)
 * that the input, selection and clear handlers change.
 */
module LocationSearch {
  import opened Common

  /** A place the user can pick; `placeType` is the program's `type` field. */
  datatype Location = Location(id: string, name: string, country: string, lat: real, lon: real, placeType: string)

  datatype Address = Address(country: Option<string>)

  /**
   * One item of the geocoder's answer. `lat` and `lon` are taken as the numbers `parseFloat`
   * reads from the item's strings.
   */
  datatype NominatimItem = NominatimItem(
    placeId: nat, displayName: string, lat: real, lon: real, itemType: string, address: Option<Address>)

  const MinQueryLength: nat := 2
  const UnknownCountry: string := "Unknown"
  const DefaultType: string := "location"
  /** The debounce delay of the input handler, in milliseconds. */
  const DebounceMs: nat := 300

  // ---------------------------------------------------------------------------------------
  // `length` of a JavaScript string

  /** The UTF-16 code units a character takes: two for one outside the Basic Multilingual Plane. */
  function CodeUnits(c: char): nat {
    if c as int < 0x1_0000 then 1 else 2
  }

  /** `s.length` in JavaScript, which counts UTF-16 code units and not characters. */
  function Utf16Length(s: string): (r: nat)
    ensures |s| <= r <= 2 * |s|
    ensures r == 0 <==> s == []
  {
    if s == [] then 0 else CodeUnits(s[0]) + Utf16Length(s[1..])
  }

  /**
   * The queries the two-character guard turns away: the empty one and a single character of the
   * Basic Multilingual Plane. A single emoji is two code units long and is searched for.
   */
  lemma ShortQueries(s: string)
    ensures Utf16Length(s) < MinQueryLength <==> s == [] || (|s| == 1 && s[0] as int < 0x1_0000)
  {
    if |s| == 1 {
      assert s[1..] == [];
    }
  }

  // ---------------------------------------------------------------------------------------
  // `place_id.toString()`

  function DigitChar(d: nat): char
    requires d < 10
  {
    "0123456789"[d]
  }

  predicate IsDigit(c: char) {
    '0' <= c <= '9'
  }

  function DigitValue(c: char): nat
    requires IsDigit(c)
  {
    (c as int - '0' as int) as nat
  }

  /** The decimal numeral of `n`, as JavaScript prints a non-negative integer. */
  function NatToString(n: nat): (r: string)
    ensures |r| >= 1 && forall i :: 0 <= i < |r| ==> IsDigit(r[i])
    ensures r[0] == '0' ==> n == 0 && r == "0"
  {
    if n < 10 then [DigitChar(n)] else NatToString(n / 10) + [DigitChar(n % 10)]
  }

  /** The number a string of digits denotes. */
  function DecimalValue(s: string): nat
    requires forall i :: 0 <= i < |s| ==> IsDigit(s[i])
  {
    if s == [] then 0 else DecimalValue(s[..|s| - 1]) * 10 + DigitValue(s[|s| - 1])
  }

  /** Reading the numeral back gives the number. */
  lemma {:induction false} NatToStringRoundTrip(n: nat)
    ensures DecimalValue(NatToString(n)) == n
  {
    if n >= 10 {
      var front := NatToString(n / 10);
      var s := front + [DigitChar(n % 10)];
      assert s[..|s| - 1] == front;
      NatToStringRoundTrip(n / 10);
    }
  }

  /** Distinct place numbers give distinct ids. */
  lemma NatToStringInjective(m: nat, n: nat)
    ensures NatToString(m) == NatToString(n) ==> m == n
  {
    NatToStringRoundTrip(m);
    NatToStringRoundTrip(n);
  }

  // ---------------------------------------------------------------------------------------
  // The item mapping

  /** `s.split(',')[0]`: the part of `s` before its first comma, all of `s` when it has none. */
  function FirstSegment(s: string): (r: string)
    ensures |r| <= |s| && r == s[..|r|]
    ensures forall i :: 0 <= i < |r| ==> r[i] != ','
    ensures |r| < |s| ==> s[|r|] == ','
  {
    if s == [] || s[0] == ',' then [] else [s[0]] + FirstSegment(s[1..])
  }

  /** `address?.country || "Unknown"`: a missing address, a missing country and "" all give "Unknown". */
  function CountryOf(address: Option<Address>): (r: string)
    ensures r != ""
    ensures (address.Some? && address.value.country.Some? && address.value.country.value != "")
            ==> r == address.value.country.value
    ensures !(address.Some? && address.value.country.Some? && address.value.country.value != "") ==> r == UnknownCountry
  {
    match address
    case Some(Address(Some(c))) => if c != "" then c else UnknownCountry
    case _ => UnknownCountry
  }

  /** `item.type || "location"`: an empty type gives "location". */
  function TypeOf(itemType: string): (r: string)
    ensures r != ""
    ensures itemType != "" ==> r == itemType
    ensures itemType == "" ==> r == DefaultType
  {
    if itemType != "" then itemType else DefaultType
  }

  function ToLocation(item: NominatimItem): Location {
    Location(NatToString(item.placeId), FirstSegment(item.displayName), CountryOf(item.address),
             item.lat, item.lon, TypeOf(item.itemType))
  }

  /** `data.map(...)`: one location per item, in the order of the items. */
  function MapItems(items: seq<NominatimItem>): (r: seq<Location>)
    ensures |r| == |items| && forall i :: 0 <= i < |items| ==> r[i] == ToLocation(items[i])
  {
    if items == [] then [] else [ToLocation(items[0])] + MapItems(items[1..])
  }

  /**
   * Every location made from an item has the id of its place number, a name without a comma that
   * starts the display name, a non-empty country and a non-empty type.
   */
  lemma MappedLocation(items: seq<NominatimItem>, i: nat)
    requires i < |items|
    ensures var l, item := MapItems(items)[i], items[i];
      && DecimalValue(l.id) == item.placeId
      && l.name == item.displayName[..|l.name|] && (forall j :: 0 <= j < |l.name| ==> l.name[j] != ',')
      && l.country != "" && l.placeType != ""
      && l.lat == item.lat && l.lon == item.lon
  {
    NatToStringRoundTrip(items[i].placeId);
  }

  /** Items of distinct places give locations with distinct ids. */
  lemma MappedIdsDistinct(items: seq<NominatimItem>, i: nat, j: nat)
    requires i < |items| && j < |items| && items[i].placeId != items[j].placeId
    ensures MapItems(items)[i].id != MapItems(items)[j].id
  {
    NatToStringInjective(items[i].placeId, items[j].placeId);
  }

  /**
   * The results a search past the guard shows, given how the request settled: the mapped items,
   * or nothing when the request or its decoding failed.
   */
  function SearchResults(response: Attempt<seq<NominatimItem>>): (r: seq<Location>)
    ensures response.Rejected? ==> r == []
    ensures response.Resolved? ==> |r| == |response.value|
    ensures response.Resolved? ==> forall i :: 0 <= i < |r| ==> r[i] == ToLocation(response.value[i])
  {
    match response
    case Resolved(items) => MapItems(items)
    case Rejected => []
  }

  // ---------------------------------------------------------------------------------------
  // What the dropdown shows

  /** The dropdown is open when `isOpen` holds and there is a query or a result. */
  predicate DropdownShown(isOpen: bool, query: string, results: seq<Location>) {
    isOpen && (Utf16Length(query) > 0 || |results| > 0)
  }

  /**
   * "No locations found" appears inside the open dropdown when no search is running, nothing was
   * found and the query is longer than one code unit.
   */
  predicate NoResultsShown(isOpen: bool, loading: bool, query: string, results: seq<Location>) {
    DropdownShown(isOpen, query, results) && !loading && |results| == 0 && Utf16Length(query) > 1
  }

  /**
   * The message is only ever shown in the open dropdown, for a query that passes the guard, and
   * then it is shown exactly when no search runs and no result is listed.
   */
  lemma NoResultsOnlyForSearchedQueries(isOpen: bool, loading: bool, query: string, results: seq<Location>)
    ensures NoResultsShown(isOpen, loading, query, results) ==> isOpen && Utf16Length(query) >= MinQueryLength
    ensures Utf16Length(query) < MinQueryLength ==> !NoResultsShown(isOpen, loading, query, results)
    ensures isOpen && Utf16Length(query) >= MinQueryLength
            ==> (NoResultsShown(isOpen, loading, query, results) <==> !loading && results == [])
  {
  }

  /** The dropdown is open exactly when `isOpen` holds and the query or the result list is non-empty. */
  lemma DropdownShownWhen(isOpen: bool, query: string, results: seq<Location>)
    ensures DropdownShown(isOpen, query, results) <==> isOpen && (query != [] || results != [])
  {
  }

  // ---------------------------------------------------------------------------------------
  // The component

  /** Timer ids are positive, as the browser's `setTimeout` returns them. */
  type TimerId = n: nat | n > 0 witness 1

  /** A timer set by the input handler: the value it will search for and the time, in milliseconds, it is due. */
  datatype PendingSearch = PendingSearch(value: string, due: int)

  /** The search box's state, its pending timer and the browser's timer table. */
  class LocationSearchBox {
    var query: string
    var results: seq<Location>
    var isOpen: bool
    var loading: bool
    /** `timeoutRef.current`: the id of the last timer set, if any. */
    var timeoutRef: Option<TimerId>
    /** The timers set and not yet cleared or fired, with the search each will run. */
    var timers: map<TimerId, PendingSearch>
    /** The id the next `setTimeout` returns. */
    var nextTimer: TimerId

    /** At most one search is pending, and it is the one `timeoutRef` names. */
    predicate Valid()
      reads this
    {
      && (forall id :: id in timers ==> timeoutRef == Some(id))
      && (forall id :: id in timers ==> id < nextTimer)
      && (timeoutRef.Some? ==> timeoutRef.value < nextTimer)
    }

    constructor ()
      ensures Valid()
      ensures query == "" && results == [] && !isOpen && !loading
      ensures timeoutRef == None && timers == map[]
    {
      query, results, isOpen, loading := "", [], false, false;
      timeoutRef, timers, nextTimer := None, map[], 1;
    }

    /** The pending searches: none or one, for the most recent value typed. */
    lemma AtMostOnePending()
      requires Valid()
      ensures |timers.Keys| <= 1
      ensures timers != map[] ==> timeoutRef.Some? && timers.Keys == {timeoutRef.value}
    {
      if timers != map[] {
        var id :| id in timers;
        assert timers.Keys == {id} by {
          forall k | k in timers.Keys ensures k == id {
            assert timeoutRef == Some(k) && timeoutRef == Some(id);
          }
        }
      }
    }

    /**
     * `handleInputChange` at time `now`: stores the value, opens the dropdown, clears the pending
     * timer and sets a new one that will search for this value once the debounce delay is over.
     */
    method InputChanged(value: string, now: int)
      requires Valid()
      modifies this
      ensures Valid()
      ensures query == value && isOpen
      ensures results == old(results) && loading == old(loading)
      ensures timeoutRef == Some(old(nextTimer))
      ensures timers == map[old(nextTimer) := PendingSearch(value, now + DebounceMs)]
      ensures value != "" ==> DropdownShown(isOpen, query, results)
    {
      query := value;
      isOpen := true;
      if timeoutRef.Some? {
        timers := timers - {timeoutRef.value};
      }
      assert timers == map[];
      var id := nextTimer;
      timers := timers[id := PendingSearch(value, now + DebounceMs)];
      nextTimer := nextTimer + 1;
      timeoutRef := Some(id);
    }

    /**
     * The pending timer fires at time `now`, once its delay is over, and runs the search for its
     * value, `response` being how the geocoder request settles.
     */
    method TimerFired(id: TimerId, now: int, response: Attempt<seq<NominatimItem>>)
      requires Valid() && id in timers && now >= timers[id].due
      modifies this
      ensures Valid()
      ensures timers == map[] && timeoutRef == old(timeoutRef)
      ensures query == old(query) && isOpen == old(isOpen)
      ensures Utf16Length(old(timers[id].value)) < MinQueryLength ==> results == [] && loading == old(loading)
      ensures Utf16Length(old(timers[id].value)) >= MinQueryLength ==> results == SearchResults(response) && !loading
      ensures old(isOpen) && query == old(timers[id].value) && Utf16Length(query) >= MinQueryLength
              ==> (NoResultsShown(isOpen, loading, query, results) <==> results == [])
      ensures (old(isOpen) && query == old(timers[id].value) && Utf16Length(query) >= MinQueryLength
               && response.Rejected?) ==> NoResultsShown(isOpen, loading, query, results)
    {
      var value := timers[id].value;
      AtMostOnePending();
      timers := timers - {id};
      Search(value, response);
    }

    /**
     * `searchLocations`: a query shorter than two characters clears the results and sends no
     * request; otherwise the results become those of the answer, or nothing when the request
     * fails, and the loading flag is lowered at the end.
     */
    method Search(searchQuery: string, response: Attempt<seq<NominatimItem>>)
      modifies this`results, this`loading
      ensures Utf16Length(searchQuery) < MinQueryLength ==> results == [] && loading == old(loading)
      ensures Utf16Length(searchQuery) >= MinQueryLength ==> results == SearchResults(response) && !loading
    {
      if Utf16Length(searchQuery) < MinQueryLength {
        results := [];
        return;
      }
      loading := true;
      match response {
        case Resolved(items) =>
          results := MapItems(items);
        case Rejected =>
          results := [];
      }
      loading := false;
    }

    /**
     * `handleLocationSelect`: shows the chosen name, closes the dropdown and passes the location
     * on to the page's `onLocationSelect`, here the returned `selected`.
     */
    method LocationSelected(location: Location) returns (selected: Location)
      modifies this`query, this`isOpen
      ensures query == location.name && !isOpen && selected == location
      ensures !DropdownShown(isOpen, query, results)
    {
      query := location.name;
      isOpen := false;
      selected := location;
    }

    /** `clearSearch`: empties the query and the results and closes the dropdown; the timer stays. */
    method ClearSearch()
      modifies this`query, this`results, this`isOpen
      ensures query == "" && results == [] && !isOpen
      ensures !DropdownShown(isOpen, query, results) && !NoResultsShown(isOpen, loading, query, results)
    {
      query := "";
      results := [];
      isOpen := false;
    }

    /** Focusing the input opens the dropdown. */
    method Focused()
      modifies this`isOpen
      ensures isOpen
    {
      isOpen := true;
    }

    /** A mouse press outside the search box closes the dropdown. */
    method ClickedOutside()
      modifies this`isOpen
      ensures !isOpen
      ensures !DropdownShown(isOpen, query, results)
    {
      isOpen := false;
    }
  }
}
