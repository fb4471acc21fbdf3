/** The booking page's address search: how a place returned by the geocoder is written as an
    address line and a secondary line, and how queries are guarded and cached. */
module BookJs {
  import opened Wrappers
  import Text

  /** A geocoder result: its `address` parts (absent when the result has none), `name` and
      `display_name`. */
  datatype Place = Place(address: Option<map<string, string>>, name: Option<string>,
                         displayName: Option<string>)

  /** `address.k`, with an absent part read as "". */
  function Part(address: map<string, string>, key: string): string {
    if key in address then address[key] else ""
  }

  /** `address.k1 || address.k2 || …`: the first non-empty part, or "". */
  function FirstOf(address: map<string, string>, keys: seq<string>): (r: string)
    ensures r == "" <==> forall i :: 0 <= i < |keys| ==> Part(address, keys[i]) == ""
    ensures r != "" ==> r in address.Values
    ensures r != "" ==> exists i :: 0 <= i < |keys| && r == Part(address, keys[i]) &&
                                    forall j :: 0 <= j < i ==> Part(address, keys[j]) == ""
  {
    if keys == [] then ""
    else if Part(address, keys[0]) != "" then Part(address, keys[0])
    else
      var r := FirstOf(address, keys[1..]);
      FirstAfterEmpty(address, keys, r);
      r
  }

  /** A first non-empty part of the keys after an empty first key is the first of all keys. */
  lemma FirstAfterEmpty(address: map<string, string>, keys: seq<string>, r: string)
    requires keys != [] && Part(address, keys[0]) == ""
    requires r == "" <==> forall i :: 0 <= i < |keys| - 1 ==> Part(address, keys[1..][i]) == ""
    requires r != "" ==> exists i :: 0 <= i < |keys| - 1 && r == Part(address, keys[1..][i]) &&
                                     forall j :: 0 <= j < i ==> Part(address, keys[1..][j]) == ""
    ensures r == "" <==> forall i :: 0 <= i < |keys| ==> Part(address, keys[i]) == ""
    ensures r != "" ==> exists i :: 0 <= i < |keys| && r == Part(address, keys[i]) &&
                                    forall j :: 0 <= j < i ==> Part(address, keys[j]) == ""
  {
    assert forall i :: 1 <= i < |keys| ==> keys[i] == keys[1..][i - 1];
    if r != "" {
      var i :| 0 <= i < |keys| - 1 && r == Part(address, keys[1..][i]) &&
               forall j :: 0 <= j < i ==> Part(address, keys[1..][j]) == "";
      assert r == Part(address, keys[i + 1]);
      forall j | 0 <= j < i + 1 ensures Part(address, keys[j]) == "" {
        if j > 0 {
          assert keys[j] == keys[1..][j - 1];
        }
      }
    }
  }

  lemma FirstOfCons(address: map<string, string>, key: string, rest: seq<string>)
    ensures FirstOf(address, [key] + rest) ==
            if Part(address, key) != "" then Part(address, key) else FirstOf(address, rest)
  {
    assert ([key] + rest)[0] == key && ([key] + rest)[1..] == rest;
  }

  function Parts(p: Place): map<string, string> {
    p.address.UnwrapOr(map[])
  }

  /** `v || ""` for an optional text. */
  function OrEmpty(o: Option<string>): string {
    o.UnwrapOr("")
  }

  function Road(p: Place): string {
    FirstOf(Parts(p), ["road", "pedestrian", "footway", "path"])
  }

  function Locality(p: Place): string {
    FirstOf(Parts(p), ["city", "town", "village", "municipality", "county"])
  }

  function Amenity(p: Place): string {
    FirstOf(Parts(p), ["amenity", "building"])
  }

  /** The line before the locality: the road (or else the amenity) with the house number
      after a space, or else the place's name. */
  function Line(p: Place): string {
    var house := Part(Parts(p), "house_number");
    var head := if Road(p) != "" then Road(p) else Amenity(p);
    if head != "" then head + (if house != "" then " " + house else "")
    else OrEmpty(p.name)
  }

  /** `formatAddress`. */
  function FormatAddress(p: Place): string {
    var city := if Locality(p) != "" then ", " + Locality(p) else "";
    if Line(p) != "" then Line(p) + city else OrEmpty(p.displayName)
  }

  /** A road (the first of road, pedestrian, footway and path that is present) leads the
      address, followed by the house number and the locality when they exist. */
  lemma RoadLeads(p: Place)
    requires Road(p) != ""
    ensures var house := Part(Parts(p), "house_number");
            FormatAddress(p) ==
              Road(p) + (if house != "" then " " + house else "") +
              (if Locality(p) != "" then ", " + Locality(p) else "")
  {
  }

  /** Without a road the amenity (or building) takes its place. */
  lemma AmenityStandsIn(p: Place)
    requires Road(p) == "" && Amenity(p) != ""
    ensures var house := Part(Parts(p), "house_number");
            FormatAddress(p) ==
              Amenity(p) + (if house != "" then " " + house else "") +
              (if Locality(p) != "" then ", " + Locality(p) else "")
  {
  }

  /** Without either, the name is the line; without a name too, the display name is the whole
      result (and the locality is dropped). */
  lemma NameThenDisplayName(p: Place)
    requires Road(p) == "" && Amenity(p) == ""
    ensures OrEmpty(p.name) != "" ==>
      FormatAddress(p) ==
        OrEmpty(p.name) + (if Locality(p) != "" then ", " + Locality(p) else "")
    ensures OrEmpty(p.name) == "" ==> FormatAddress(p) == OrEmpty(p.displayName)
  {
  }

  /** The road falls back through pedestrian, footway and path: a later key is used only when
      every earlier one is absent or empty. */
  lemma RoadFallback(p: Place)
    ensures Part(Parts(p), "road") != "" ==> Road(p) == Part(Parts(p), "road")
    ensures Part(Parts(p), "road") == "" && Part(Parts(p), "pedestrian") != "" ==>
            Road(p) == Part(Parts(p), "pedestrian")
    ensures (Part(Parts(p), "road") == "" && Part(Parts(p), "pedestrian") == "" &&
             Part(Parts(p), "footway") != "") ==> Road(p) == Part(Parts(p), "footway")
    ensures (Part(Parts(p), "road") == "" && Part(Parts(p), "pedestrian") == "" &&
             Part(Parts(p), "footway") == "") ==> Road(p) == Part(Parts(p), "path")
  {
    var a := Parts(p);
    FirstOfCons(a, "road", ["pedestrian", "footway", "path"]);
    FirstOfCons(a, "pedestrian", ["footway", "path"]);
    FirstOfCons(a, "footway", ["path"]);
    FirstOfCons(a, "path", []);
  }

  /** The locality falls back through town, village, municipality and county. */
  lemma LocalityFallback(p: Place)
    ensures Locality(p) == "" <==>
      (Part(Parts(p), "city") == "" && Part(Parts(p), "town") == "" &&
       Part(Parts(p), "village") == "" && Part(Parts(p), "municipality") == "" &&
       Part(Parts(p), "county") == "")
    ensures Part(Parts(p), "city") != "" ==> Locality(p) == Part(Parts(p), "city")
    ensures Part(Parts(p), "city") == "" && Part(Parts(p), "town") != "" ==>
            Locality(p) == Part(Parts(p), "town")
    ensures (Part(Parts(p), "city") == "" && Part(Parts(p), "town") == "" &&
             Part(Parts(p), "village") != "") ==> Locality(p) == Part(Parts(p), "village")
    ensures (Part(Parts(p), "city") == "" && Part(Parts(p), "town") == "" &&
             Part(Parts(p), "village") == "" && Part(Parts(p), "municipality") != "") ==>
            Locality(p) == Part(Parts(p), "municipality")
    ensures (Part(Parts(p), "city") == "" && Part(Parts(p), "town") == "" &&
             Part(Parts(p), "village") == "" && Part(Parts(p), "municipality") == "") ==>
            Locality(p) == Part(Parts(p), "county")
  {
    var a := Parts(p);
    FirstOfCons(a, "city", ["town", "village", "municipality", "county"]);
    FirstOfCons(a, "town", ["village", "municipality", "county"]);
    FirstOfCons(a, "village", ["municipality", "county"]);
    FirstOfCons(a, "municipality", ["county"]);
    FirstOfCons(a, "county", []);
  }

  /** `formatSecondary`: the neighbourhood (or suburb) and the locality, joined when both
      exist. */
  function FormatSecondary(p: Place): (r: string)
    ensures r == "" <==> FirstOf(Parts(p), ["neighbourhood", "suburb"]) == "" && Locality(p) == ""
  {
    var neighbourhood := FirstOf(Parts(p), ["neighbourhood", "suburb"]);
    if neighbourhood != "" && Locality(p) != "" then neighbourhood + ", " + Locality(p)
    else if neighbourhood != "" then neighbourhood
    else Locality(p)
  }

  lemma SecondaryJoinsBoth(p: Place)
    requires FirstOf(Parts(p), ["neighbourhood", "suburb"]) != "" && Locality(p) != ""
    ensures FormatSecondary(p) ==
            FirstOf(Parts(p), ["neighbourhood", "suburb"]) + ", " + Locality(p)
  {
  }

  // ---- the search box ----

  /** What the geocoder's JSON was: a list of places, or something else. */
  datatype Results = Places(places: seq<Place>) | NotAList

  /** How a fetch ended: with a parsed body, aborted by a newer search, or failed. */
  datatype Fetched = Received(results: Results) | Aborted | Failed

  /** The suggestion list: closed and emptied, or open with one item per place. */
  datatype Suggestions = Closed | Open(items: seq<Place>)

  /** `renderSuggestions`: anything but a non-empty list closes the box. */
  function Render(r: Results): (s: Suggestions)
    ensures s.Open? <==> r.Places? && r.places != []
    ensures s.Open? ==> s.items == r.places
  {
    if r.Places? && r.places != [] then Open(r.places) else Closed
  }

  lemma {:induction false} ToLowerIdempotent(s: string)
    ensures Text.ToLower(Text.ToLower(s)) == Text.ToLower(s)
  {
    var t := Text.ToLower(s);
    assert forall i :: 0 <= i < |s| ==> Text.LowerAscii(t[i]) == t[i];
  }

  class AddressSearch {
    /** `resultCache`, keyed by the lower-cased query. */
    var cache: map<string, Results>
    var suggestions: Suggestions
    /** The search the debounce timer will run, if any. */
    var scheduled: Option<string>
    /** The queries sent to the geocoder, in order. */
    var fetches: seq<string>
    var allowAutoFill: bool

    /** Every key of the cache is already lower-case. */
    ghost predicate Valid()
      reads this
    {
      forall k :: k in cache ==> Text.ToLower(k) == k
    }

    constructor ()
      ensures Valid() && cache == map[] && suggestions == Closed && scheduled == None
      ensures fetches == [] && allowAutoFill
    {
      cache := map[];
      suggestions := Closed;
      scheduled := None;
      fetches := [];
      allowAutoFill := true;
    }

    /** The two `input` listeners: typing stops auto-fill and cancels the pending search; a
        trimmed query shorter than two characters closes the box and schedules nothing. */
    method OnInput(value: string)
      modifies this`allowAutoFill, this`scheduled, this`suggestions
      ensures !allowAutoFill
      ensures |Text.Trim(value, Text.Js)| < 2 ==> scheduled == None && suggestions == Closed
      ensures |Text.Trim(value, Text.Js)| >= 2 ==>
        scheduled == Some(Text.Trim(value, Text.Js)) && suggestions == old(suggestions)
    {
      allowAutoFill := false;
      scheduled := None;
      var query := Text.Trim(value, Text.Js);
      if |query| < 2 {
        suggestions := Closed;
        return;
      }
      scheduled := Some(query);
    }

    /** `searchAddress(query)`; `fetched` is how the request would end. A query whose
        lower-case form is cached is rendered from the cache and sends nothing. */
    method Search(query: string, fetched: Fetched)
      requires Valid()
      modifies this`cache, this`suggestions, this`fetches
      ensures Valid()
      ensures Text.ToLower(query) in old(cache) ==>
        cache == old(cache) && fetches == old(fetches) &&
        suggestions == Render(old(cache)[Text.ToLower(query)])
      ensures Text.ToLower(query) !in old(cache) ==>
        fetches == old(fetches) + [query] &&
        match fetched
        case Received(r) =>
          cache == old(cache)[Text.ToLower(query) := r] && suggestions == Render(r)
        case Aborted => cache == old(cache) && suggestions == old(suggestions)
        case Failed => cache == old(cache) && suggestions == Closed
    {
      var normalized := Text.ToLower(query);
      if normalized in cache {
        suggestions := Render(cache[normalized]);
        return;
      }
      fetches := fetches + [query];
      match fetched
      case Received(r) =>
        ToLowerIdempotent(query);
        cache := cache[normalized := r];
        suggestions := Render(r);
      case Aborted =>
      case Failed =>
        suggestions := Closed;
    }
  }
}
