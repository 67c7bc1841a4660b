/** The location resolver: `zip_to_city` and `smart_search`. Every call
    into an outside service is a field of `Services`; an exception from one
    is its `Raised` answer. */
module Search {
  import opened Wrappers
  import opened Text
  import Tables
  import Clock

  /** What `us.lookup` returns when it finds something: an object with a
      city and a state. */
  datatype ZipRecord = ZipRecord(city: string, state: string)

  /** What the geocoder returns for a match: its coordinates and its
      formatted address ("Boston, Suffolk County, Massachusetts, ..."). */
  datatype Place = Place(latitude: real, longitude: real, address: string)

  /** The outside world as the resolver sees it.
      - `isDecimal`: the runtime's Unicode decimal-digit class, which the
        regular-expression class `\d` matches in a `str` pattern;
      - `zipLookup`: `us.lookup(code)`;
      - `geocode`: `geolocator.geocode(query, exactly_one, timeout)`;
      - `timezoneAt`: `tf.timezone_at(lat=..., lng=...)`, whose `Miss` is
        the Python `None` it returns for a point in no zone. */
  datatype Services = Services(
    isDecimal: char -> bool,
    zipLookup: string -> Lookup<ZipRecord>,
    geocode: (string, bool, nat) -> Lookup<Place>,
    timezoneAt: (real, real) -> Lookup<string>)

  /** The value `smart_search` returns when it finds something:
      `("zip", city_state, zip)` or `("city", name, tz)`. */
  datatype SearchResult =
    | ZipMatch(cityState: string, zip: string)
    | CityMatch(name: string, zone: Option<string>)

  /** The `timeout=12` the geocoder is called with, in seconds. */
  const GeocodeTimeoutSeconds: nat := 12

  /** What Python guarantees of `\d`: on ASCII it is exactly '0'..'9'. */
  ghost predicate DecimalClassSound(isDecimal: char -> bool) {
    forall c :: c as int < 128 ==> (isDecimal(c) <==> '0' <= c <= '9')
  }

  predicate AllDecimal(s: string, isDecimal: char -> bool) {
    forall i :: 0 <= i < |s| ==> isDecimal(s[i])
  }

  /** `re.match(r"^\d{5}$", q)`: five decimal digits, where `$` also
      matches just before a final newline. */
  predicate IsZipPattern(q: string, isDecimal: char -> bool) {
    (|q| == 5 && AllDecimal(q, isDecimal))
    || (|q| == 6 && AllDecimal(q[..5], isDecimal) && q[5] == '\n')
  }

  /** `zip_to_city(zip_code)`: a "City, State" label when the postal lookup
      of the stripped code answers, `None` when it answers nothing or raises. */
  function ZipToCity(zipCode: string, svc: Services): (r: Option<string>)
    ensures r.Some? <==> svc.zipLookup(Strip(zipCode)).Hit?
    ensures r.Some? ==>
      var z := svc.zipLookup(Strip(zipCode)).value;
      r.value == z.city + ", " + z.state && |r.value| >= 2
  {
    match svc.zipLookup(Strip(zipCode))
    case Hit(z) => Some(z.city + ", " + z.state)
    case Miss => None
    case Raised => None
  }

  /** The alias step: the canonical name for an alias key, the query itself
      for anything else. */
  function GeocoderQuery(q: string): (r: string)
    ensures q in Tables.CityAliases ==> r == Tables.CityAliases[q]
    ensures q !in Tables.CityAliases ==> r == q
  {
    if q in Tables.CityAliases then Tables.CityAliases[q] else q
  }

  /** `loc.address.split(",")[0].strip()`: the address up to its first comma,
      without the whitespace around it. */
  function DisplayName(address: string): (r: string)
    ensures Stripped(r) && ',' !in r
    ensures TrimmedAt(FirstField(address), r, SkipSpaceForward(FirstField(address), 0))
  {
    Strip(FirstField(address))
  }

  /** The geocoding step of `smart_search`: a match gives the display name
      and whatever zone the resolver returns for its coordinates, `None`
      included; no match, or an exception from either service, gives `None`. */
  function CityLookup(query: string, svc: Services): (r: Option<SearchResult>)
    ensures r.Some? ==> r.value.CityMatch?
    ensures r.Some? <==>
      svc.geocode(query, true, GeocodeTimeoutSeconds).Hit?
      && !svc.timezoneAt(svc.geocode(query, true, GeocodeTimeoutSeconds).value.latitude,
                         svc.geocode(query, true, GeocodeTimeoutSeconds).value.longitude).Raised?
  {
    match svc.geocode(query, true, GeocodeTimeoutSeconds)
    case Hit(place) =>
      (match svc.timezoneAt(place.latitude, place.longitude)
       case Hit(zone) => Some(CityMatch(DisplayName(place.address), Some(zone)))
       case Miss => Some(CityMatch(DisplayName(place.address), None))
       case Raised => None)
    case Miss => None
    case Raised => None
  }

  /** `smart_search(query)`. */
  function SmartSearch(query: string, svc: Services): (r: Option<SearchResult>)
    ensures r.Some? && r.value.ZipMatch? ==>
      r.value.zip == Normalize(query) && IsZipPattern(r.value.zip, svc.isDecimal)
  {
    var q := Normalize(query);
    var cityState := if IsZipPattern(q, svc.isDecimal) then ZipToCity(q, svc) else None;
    if cityState.Some? && cityState.value != [] then Some(ZipMatch(cityState.value, q))
    else CityLookup(GeocoderQuery(q), svc)
  }

  /** The ZIP branch is taken only for a query that normalises to exactly
      five decimal digits: after stripping, the newline `$` tolerates cannot
      be there. */
  lemma ZipRouting(query: string, isDecimal: char -> bool)
    ensures var q := Normalize(query);
      IsZipPattern(q, isDecimal) <==> |q| == 5 && AllDecimal(q, isDecimal)
  {
    var q := Normalize(query);
    if |q| == 6 {
      assert IsSpace('\n');
      assert !IsSpace(q[|q| - 1]);
    }
  }

  /** A query of any other length, a ZIP+4 code such as "12345-6789"
      among them, never enters the ZIP branch. */
  lemma OtherLengthsSkipZip(query: string, svc: Services)
    requires |Normalize(query)| != 5
    ensures !IsZipPattern(Normalize(query), svc.isDecimal)
    ensures SmartSearch(query, svc) == CityLookup(GeocoderQuery(Normalize(query)), svc)
  {
    ZipRouting(query, svc.isDecimal);
  }

  /** A ZIP code the postal lookup knows gives `("zip", "City, State", q)`,
      and the geocoder is not consulted: any other geocoder gives the same. */
  lemma ZipSuccess(query: string, svc: Services, otherGeocoder: (string, bool, nat) -> Lookup<Place>)
    requires IsZipPattern(Normalize(query), svc.isDecimal)
    requires svc.zipLookup(Normalize(query)).Hit?
    ensures var z := svc.zipLookup(Normalize(query)).value;
      SmartSearch(query, svc) == Some(ZipMatch(z.city + ", " + z.state, Normalize(query)))
    ensures SmartSearch(query, svc.(geocode := otherGeocoder)) == SmartSearch(query, svc)
  {
    StripIdempotent(Lower(query));
  }

  /** A five-digit query the postal lookup does not resolve falls through to
      the alias and geocoding steps. */
  lemma ZipFailureFallsThrough(query: string, svc: Services)
    requires IsZipPattern(Normalize(query), svc.isDecimal)
    requires !svc.zipLookup(Normalize(query)).Hit?
    ensures SmartSearch(query, svc) == CityLookup(GeocoderQuery(Normalize(query)), svc)
  {
    StripIdempotent(Lower(query));
  }

  /** No alias key has the shape of a ZIP code: each starts with a letter. */
  lemma AliasKeysAreNotZipCodes(k: string, isDecimal: char -> bool)
    requires DecimalClassSound(isDecimal) && k in Tables.CityAliases
    ensures !IsZipPattern(k, isDecimal)
  {
    Tables.AliasKeysAreLowerWords();
    assert Tables.IsLowerAsciiLetter(k[0]);
    assert !isDecimal(k[0]);
  }

  /** So a five-digit query the postal lookup misses reaches the geocoder
      unchanged. */
  lemma ZipQueryIsNoAlias(q: string, isDecimal: char -> bool)
    requires DecimalClassSound(isDecimal) && IsZipPattern(q, isDecimal)
    ensures GeocoderQuery(q) == q
  {
    if q in Tables.CityAliases {
      AliasKeysAreNotZipCodes(q, isDecimal);
    }
  }

  /** Past the ZIP branch the geocoder is asked for the alias's canonical
      name when the normalised query is exactly an alias key, and for the
      normalised query itself otherwise. */
  lemma AliasSubstitution(query: string, svc: Services)
    requires !(SmartSearch(query, svc).Some? && SmartSearch(query, svc).value.ZipMatch?)
    ensures Normalize(query) in Tables.CityAliases ==>
      SmartSearch(query, svc) == CityLookup(Tables.CityAliases[Normalize(query)], svc)
    ensures Normalize(query) !in Tables.CityAliases ==>
      SmartSearch(query, svc) == CityLookup(Normalize(query), svc)
  {
  }

  /** A geocoder match gives `("city", name, tz)`: the name is the address
      up to its first comma, stripped, and `tz` is the resolver's answer,
      `None` when it found no zone. */
  lemma GeocoderSuccess(query: string, svc: Services, place: Place)
    requires !(SmartSearch(query, svc).Some? && SmartSearch(query, svc).value.ZipMatch?)
    requires svc.geocode(GeocoderQuery(Normalize(query)), true, GeocodeTimeoutSeconds) == Hit(place)
    requires !svc.timezoneAt(place.latitude, place.longitude).Raised?
    ensures var tz := svc.timezoneAt(place.latitude, place.longitude);
      SmartSearch(query, svc)
        == Some(CityMatch(DisplayName(place.address), if tz.Hit? then Some(tz.value) else None))
  {
  }

  /** No exception escapes: the search gives `None` exactly when the ZIP
      branch produced nothing and the geocoder found nothing, or it or the
      zone resolver raised. */
  lemma FailuresGiveNone(query: string, svc: Services)
    ensures var q := Normalize(query);
      var geo := svc.geocode(GeocoderQuery(q), true, GeocodeTimeoutSeconds);
      SmartSearch(query, svc).None? <==>
        !(IsZipPattern(q, svc.isDecimal) && svc.zipLookup(q).Hit?)
        && (!geo.Hit? || svc.timezoneAt(geo.value.latitude, geo.value.longitude).Raised?)
  {
    StripIdempotent(Lower(query));
  }

  /** The search sees only the normalised query: case and surrounding
      whitespace make no difference. */
  lemma SearchIgnoresCaseAndEdgeSpace(query: string, svc: Services)
    ensures SmartSearch(query, svc) == SmartSearch(Normalize(query), svc)
  {
    NormalizeIdempotent(query);
  }

  /** The name shown for a city result contains no comma and no whitespace
      at either end. */
  lemma CityNameShape(query: string, svc: Services)
    requires SmartSearch(query, svc).Some? && SmartSearch(query, svc).value.CityMatch?
    ensures var name := SmartSearch(query, svc).value.name;
      ',' !in name && Stripped(name)
  {
  }

  /** A city result whose zone the resolver left as `None` shows both
      clock sentinels. */
  lemma NoZoneShowsSentinels(result: SearchResult, db: Clock.ZoneDatabase)
    requires result.CityMatch? && result.zone.None?
    ensures Clock.GetCurrentTime(result.zone, db) == "--:--"
    ensures Clock.GetRealTzName(result.zone, db) == "???"
  {
  }

  /** A query that is not ZIP-shaped once normalised goes straight to the
      alias and geocoding steps. */
  lemma NonZipQueryGoesToGeocoder(query: string, svc: Services)
    requires !IsZipPattern(Normalize(query), svc.isDecimal)
    ensures SmartSearch(query, svc) == CityLookup(GeocoderQuery(Normalize(query)), svc)
  {
  }

  /** A query that is already a lower-case word is its own normal form. */
  lemma NormalizeFixesLowerWords(s: string)
    requires Tables.IsLowerWord(s)
    ensures Normalize(s) == s
  {
    assert Lower(s) == s;
    assert !IsSpace(s[0]) && !IsSpace(s[|s| - 1]);
    StripAt(s, 0, |s|);
  }

  /** Every alias is reachable: typing a key sends its canonical name to
      the geocoder. */
  lemma AliasKeysReachable(k: string, svc: Services)
    requires DecimalClassSound(svc.isDecimal) && k in Tables.CityAliases
    ensures SmartSearch(k, svc) == CityLookup(Tables.CityAliases[k], svc)
  {
    Tables.AliasKeysAreLowerWords();
    NormalizeFixesLowerWords(k);
    AliasKeysAreNotZipCodes(k, svc.isDecimal);
    NonZipQueryGoesToGeocoder(k, svc);
  }

  /** Five ASCII digits always have the ZIP shape; `\d` may accept other
      Unicode digits as well. */
  lemma AsciiDigitsAreZipShaped(q: string, isDecimal: char -> bool)
    requires DecimalClassSound(isDecimal)
    requires |q| == 5 && forall i :: 0 <= i < 5 ==> '0' <= q[i] <= '9'
    ensures IsZipPattern(q, isDecimal)
  {
    assert forall i :: 0 <= i < 5 ==> q[i] as int < 128 && isDecimal(q[i]);
  }

  /** A query that normalises to "nyc" (" NYC ", "Nyc", ...) is the alias
      "nyc": the geocoder is asked for "New York". */
  lemma NycScenario(query: string, svc: Services)
    requires Normalize(query) == "nyc"
    ensures SmartSearch(query, svc) == CityLookup("New York", svc)
  {
    Tables.NewYorkAliases();
    OtherLengthsSkipZip(query, svc);
  }

  /** Matching is on the whole string: "new york" is not the key "newyork",
      so a query that normalises to it reaches the geocoder unchanged. */
  lemma InnerSpaceIsKept(query: string, svc: Services)
    requires Normalize(query) == "new york"
    ensures SmartSearch(query, svc) == CityLookup("new york", svc)
  {
    var q := Normalize(query);
    assert !Tables.IsLowerAsciiLetter(q[3]);
    Tables.NonWordsAreNoAliases(q);
    OtherLengthsSkipZip(query, svc);
  }

  /** A ZIP+4 code is not a ZIP code to the search: it goes to the
      geocoder as typed. */
  lemma ZipPlusFourScenario(query: string, svc: Services)
    requires Normalize(query) == "12345-6789"
    ensures SmartSearch(query, svc) == CityLookup("12345-6789", svc)
  {
    var q := Normalize(query);
    assert !Tables.IsLowerAsciiLetter(q[0]);
    Tables.NonWordsAreNoAliases(q);
    OtherLengthsSkipZip(query, svc);
  }

  /** "02139" has the ZIP shape. */
  lemma CambridgeCodeIsZipShaped(isDecimal: char -> bool)
    requires DecimalClassSound(isDecimal)
    ensures IsZipPattern("02139", isDecimal)
  {
    var q := "02139";
    assert q[0] == '0' && q[1] == '2' && q[2] == '1' && q[3] == '3' && q[4] == '9';
    AsciiDigitsAreZipShaped(q, isDecimal);
  }

  /** "02139" takes the ZIP branch: a postal hit for it is the result. */
  lemma CambridgeZipScenario(query: string, svc: Services)
    requires Normalize(query) == "02139" && DecimalClassSound(svc.isDecimal)
    requires svc.zipLookup("02139") == Hit(ZipRecord("Cambridge", "MA"))
    ensures SmartSearch(query, svc) == Some(ZipMatch("Cambridge, MA", "02139"))
  {
    CambridgeCodeIsZipShaped(svc.isDecimal);
    CambridgeLabel();
    ZipSuccess(query, svc, svc.geocode);
  }

  /** Proof helper for `CambridgeZipScenario`: the label `zip_to_city`
      builds for Cambridge, MA, as one string. */
  lemma CambridgeLabel()
    ensures "Cambridge" + ", " + "MA" == "Cambridge, MA"
  {
  }

  /** Proof helper for `NycQueryNormalises`: lower-casing " NYC " touches
      only the three capitals. */
  lemma LowerNycQuery()
    ensures Lower(" NYC ") == " nyc "
  {
  }

  /** " NYC " normalises to "nyc", as the first scenario assumes. */
  lemma NycQueryNormalises()
    ensures Normalize(" NYC ") == "nyc"
  {
    var l := Lower(" NYC ");
    LowerNycQuery();
    assert IsSpace(l[0]) && !IsSpace(l[1]) && !IsSpace(l[3]) && IsSpace(l[4]);
    StripAt(l, 1, 4);
    assert l[1..4] == "nyc";
  }

  /** Python lower-cases the Kelvin sign to 'k', so "NEWYOR" followed by
      it normalises to the alias key "newyork". */
  lemma KelvinSignQueryNormalises()
    ensures Normalize("NEWYOR\U{212A}") == "newyork"
  {
    var l := Lower("NEWYOR\U{212A}");
    assert l == "newyork";
    assert !IsSpace(l[0]) && !IsSpace(l[6]);
    StripAt(l, 0, 7);
  }

  /** So that query is the alias "newyork": the geocoder is asked for
      "New York". */
  lemma KelvinSignScenario(svc: Services)
    requires DecimalClassSound(svc.isDecimal)
    ensures SmartSearch("NEWYOR\U{212A}", svc) == CityLookup("New York", svc)
  {
    KelvinSignQueryNormalises();
    SearchIgnoresCaseAndEdgeSpace("NEWYOR\U{212A}", svc);
    Tables.NewYorkAliases();
    AliasKeysReachable("newyork", svc);
  }

  /** "New York" normalises to "new york", keeping its inner space. */
  lemma NewYorkQueryNormalises()
    ensures Normalize("New York") == "new york"
  {
    var l := Lower("New York");
    assert l == "new york";
    assert !IsSpace(l[0]) && !IsSpace(l[7]);
    StripAt(l, 0, 8);
  }
}
