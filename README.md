# Tbilisi world clock: location resolver and zone abbreviations

This project models the decision layer of `main.py`, a desktop world clock. The layer has these parts:

- `smart_search` turns what the user types into a result. A US ZIP code gives `("zip", "City, State", zip)`. A place name gives `("city", name, tz)`: informal spellings are first rewritten through `CITY_ALIASES`, then the name goes to a geocoder and the coordinates to a timezone resolver. When nothing is found the result is `None`.
- `zip_to_city` resolves a ZIP code to a `"City, State"` label.
- `get_real_tz_name` gives the abbreviation shown under each clock. It reads a curated table that depends on daylight-saving time, falls back to the timezone database's own name and shows `"???"` on failure.
- `get_current_time` formats a zone's wall-clock time. It shows `"--:--"` when the zone cannot be resolved.
- `CITY_ALIASES` and `US_TIMEZONES` are the constant tables.

Every outside service is a parameter:

- In `Search.Services`, the postal lookup (`us.lookup`), the geocoder (`geolocator.geocode`), the coordinate-to-zone resolver (`tf.timezone_at`) and the runtime's decimal-digit class, which `\d` matches, are fields of function type. A call that returns something is `Hit`, one that returns Python `None` is `Miss`, and one that raises is `Raised`.
- In `Clock.ZoneDatabase`, the timezone database and the system clock together give a reading for one zone. The reading holds the zone's current wall-clock hour and minute and its daylight-saving flag (`now.dst()`). It also holds the name `tz.localize(datetime.now()).tzname()` reports, which the model takes as a separate input. The result is `None` when pytz raises for the name.

The modules are:

- `Wrappers` holds `Option` and `Lookup`.
- `Text` holds the Python string operations the resolver uses:
  - `lower()`;
  - `strip()`, with Python's exact `str.isspace()` set, written as the two scans CPython makes;
  - `split(",")[0]`.
- `Tables` holds the two tables and `TBILISI_TZ`.
- `Clock` holds `get_current_time` and `get_real_tz_name`. The `names` dictionary of `get_real_tz_name` is `Clock.CuratedNames`, and `Clock.Shown` picks an entry's daylight or standard abbreviation.
- `Search` holds `zip_to_city` and `smart_search`.

`re.match(r"^\d{5}$", q)` is modelled by `Search.IsZipPattern`, as Python defines it:

- `\d` is the Unicode decimal class. Only its ASCII part is fixed, by `Search.DecimalClassSound`. ZIP codes are ASCII, but `\d` in a `str` pattern also matches other Unicode decimal digits, and the model follows `\d`.
- `$` also matches just before a final newline. `Search.ZipRouting` proves that this newline can never be present once the query is stripped.

## Model

| member | source | states |
|---|---|---|
| Text.LowerChar | main.py:77 | an ASCII capital becomes its own lower-case letter, the Kelvin sign becomes 'k', every other character is kept (other capitals included, which Python would lower), and whitespace stays whitespace |
| Text.Lower | main.py:77 | `lower()` keeps the length and lowers each capital in place, keeping every other character |
| Text.SkipSpaceForward | main.py:77 | the left scan of `strip()` stops at the first non-whitespace index and passes only whitespace |
| Text.SkipSpaceBackward | main.py:77 | the right scan of `strip()` stops just after the last non-whitespace index, never before the left scan's stop, and passes only whitespace |
| Text.Strip | main.py:77 | `strip()` returns a cut of its input with whitespace only outside it and none at its own edges |
| Text.StripUnique | main.py:77 | any cut that removes only edge whitespace and leaves none at its edges is exactly `strip()`'s result |
| Text.StripAt | main.py:77 | a concrete cut with whitespace only outside it and non-whitespace at both ends is `strip()`'s result |
| Text.StripIdempotent | main.py:77 | stripping twice is stripping once |
| Text.LowerIdempotent | main.py:77 | lower-casing twice is lower-casing once |
| Text.LowerStripCommute | main.py:77 | lower-casing and stripping commute |
| Text.Normalize | main.py:77 | the normalised query has no edge whitespace and no ASCII capital |
| Text.NormalizeIdempotent | main.py:77 | normalising a normalised query changes nothing |
| Text.FirstField | main.py:94 | `split(",")[0]` is the longest comma-free prefix: it is followed by a comma, or it is the whole string |
| Tables.AliasKeysAreLowerWords | main.py:17-27 | every `CITY_ALIASES` key is a non-empty run of lower-case ASCII letters |
| Tables.NonWordsAreNoAliases | main.py:17-27 | a string that is not such a run is not an alias key |
| Tables.NewYorkAliases | main.py:20 | "nyc", "ny" and "newyork" map to "New York", and "new york" is not a key |
| Tables.PanelLabelsDistinct | main.py:29-37 | the seven panel labels are distinct |
| Clock.FormatClock | main.py:43 | `%H:%M` is five characters: two digits, a colon, two digits |
| Clock.ParseFormatClock | main.py:43 | reading a formatted time back gives the hour and minute that were formatted |
| Clock.GetCurrentTime | main.py:41-45 | the result is "--:--" exactly when the zone cannot be resolved; otherwise it reads back as the zone's hour and minute |
| Clock.GetRealTzName | main.py:47-67 | an unresolvable zone gives "???"; a curated zone gives its table entry for the current DST flag, which is never "???"; any other zone gives the database's name |
| Clock.DstDependentZones | main.py:51-64 | Eastern, Central, Mountain, Pacific, London and Paris show EDT/EST, CDT/CST, MDT/MST, PDT/PST, BST/GMT and CEST/CET according to DST |
| Clock.DstIndependentZones | main.py:58-63 | Arizona always shows MST, Dubai and Tbilisi "+04" and Tokyo JST, whatever the database says |
| Clock.CuratedDependsOnlyOnDst | main.py:51-64 | a curated zone's abbreviation depends only on the DST flag, and for a seasonal zone it changes exactly when the flag does |
| Clock.UncuratedZonesUseDatabaseName | main.py:56-65 | zones outside the table, Alaska and Hawaii among them, show the database's own abbreviation |
| Clock.UnknownZoneSentinels | main.py:41-67 | an unresolvable zone gives "--:--" and "???", and only such a zone gives "--:--" |
| Clock.PanelAbbreviations | main.py:29-64 | every panel row except Alaska and Hawaii has a curated abbreviation, and the Tbilisi zone's is "+04" all year |
| Search.ZipToCity | main.py:69-74 | the label is present exactly when the lookup of the stripped code finds a record, and it is then "City, State"; a miss or an exception gives `None` |
| Search.GeocoderQuery | main.py:86-87 | an alias key is replaced by its canonical name, and anything else is kept |
| Search.DisplayName | main.py:94 | the shown name is the first comma-separated field of the address with its edge whitespace cut off, so it has no comma and no edge whitespace |
| Search.CityLookup | main.py:89-98 | geocoding gives a city result exactly when the geocoder matches and the zone resolver does not raise |
| Search.SmartSearch | main.py:76-98 | a ZIP result carries the normalised query, which has the ZIP shape |
| Search.ZipRouting | main.py:77-80 | after normalisation the pattern matches exactly five decimal characters; the trailing newline `$` allows cannot survive stripping |
| Search.OtherLengthsSkipZip | main.py:77-98 | a normalised query of any length other than five never takes the ZIP branch |
| Search.ZipSuccess | main.py:80-83 | a ZIP-shaped query with a postal hit gives `("zip", "City, State", q)`, whatever the geocoder would say |
| Search.ZipFailureFallsThrough | main.py:80-91 | a ZIP-shaped query with no postal hit goes on to the alias and geocoding steps |
| Search.AliasKeysAreNotZipCodes | main.py:17-80 | no alias key has the ZIP shape |
| Search.ZipQueryIsNoAlias | main.py:80-87 | a ZIP-shaped query is never rewritten by the alias table |
| Search.AliasSubstitution | main.py:86-91 | past the ZIP branch the geocoder gets the alias's canonical name when the normalised query is exactly a key, and the normalised query otherwise |
| Search.GeocoderSuccess | main.py:91-95 | a geocoder match gives `("city", name, tz)`, with the display name of the address and the resolver's zone or `None` |
| Search.FailuresGiveNone | main.py:69-98 | the search gives `None` exactly when there is no ZIP hit and the geocoder misses or either service raises |
| Search.SearchIgnoresCaseAndEdgeSpace | main.py:77 | the search depends on the query only through its normal form |
| Search.CityNameShape | main.py:94 | a city name has no comma and no edge whitespace |
| Search.NoZoneShowsSentinels | main.py:41-95 | a city result whose zone is `None` shows "--:--" and "???" |
| Search.NonZipQueryGoesToGeocoder | main.py:80-98 | a query that is not ZIP-shaped goes straight to the alias and geocoding steps |
| Search.NormalizeFixesLowerWords | main.py:77 | a lower-case ASCII word is its own normal form |
| Search.AliasKeysReachable | main.py:17-91 | typing any alias key sends that key's canonical name to the geocoder |
| Search.AsciiDigitsAreZipShaped | main.py:80 | five ASCII digits always match the ZIP pattern |
| Search.NycScenario | main.py:20-91 | a query that normalises to "nyc" sends "New York" to the geocoder |
| Search.InnerSpaceIsKept | main.py:77-91 | a query that normalises to "new york" goes to the geocoder unchanged, because it is not the key "newyork" |
| Search.ZipPlusFourScenario | main.py:80-91 | "12345-6789" skips the ZIP branch and goes to the geocoder as typed |
| Search.CambridgeCodeIsZipShaped | main.py:80 | "02139" matches the ZIP pattern |
| Search.CambridgeZipScenario | main.py:80-83 | "02139" with a postal hit for Cambridge, MA gives `("zip", "Cambridge, MA", "02139")` |
| Search.NycQueryNormalises | main.py:77 | " NYC " normalises to "nyc" |
| Search.KelvinSignQueryNormalises | main.py:77 | "NEWYOR" followed by the Kelvin sign normalises to "newyork" |
| Search.KelvinSignScenario | main.py:77-91 | that query is the alias "newyork", so the geocoder is asked for "New York" |
| Search.NewYorkQueryNormalises | main.py:77 | "New York" normalises to "new york", keeping the inner space |

## Left out

- The `App` class (main.py:100-185) is not modelled. That covers the Tk window, the widgets, `update_clocks`, the one-second `root.after` timer and the rendering of search results. It is user-interface and event-loop code.
- The second geocoding call that `App.search` makes for ZIP results (main.py:170-177) is left out. It orchestrates outside services on the UI side.
- `us.lookup`, Nominatim and `TimezoneFinder` appear only as arbitrary functions in `Search.Services`. What they answer for a given input is not modelled.
- Reading the system clock and pytz's offset and DST rules are inputs, taken from `Clock.ZoneDatabase`. `get_current_time` and `get_real_tz_name` each read the clock at their own instant, but the model gives both the same reading.
- Clock.GetRealTzName: Python evaluates the `.get` default `tz.localize(datetime.now()).tzname()` even for curated zones. The model treats that call as unable to fail, so it cannot change the result for a curated zone.
- Text.LowerChar: folds only the ASCII capitals and the Kelvin sign. Other capitals, such as 'É', are kept, where Python's `lower()` lowers them.
- Text.Lower: folds only the ASCII capitals and the Kelvin sign (U+212A), which is the one character outside ASCII whose lower case is an ASCII letter. Python's `str.lower()` also folds other capitals, such as 'É' to 'é'. It also turns U+0130 into two characters. Each of those lower cases still holds a character outside ASCII, and alias keys and ZIP codes are pure ASCII. So the model and Python agree on whether a query is ZIP-shaped and whether it is an alias key. The text sent to the geocoder, however, keeps such capitals in the model.
- Clock.GetRealTzName: for a zone outside the curated table, `tz.localize(datetime.now())` at main.py:65 takes the machine's local wall-clock time and reads it as a wall-clock time in that zone. On a machine in another zone, such as one in Tbilisi, this is a different instant, so near a daylight-saving change the reported name can disagree with `now.dst()`. The model keeps the daylight-saving flag and the database's name as independent inputs, so it does not promise any relation between them.
- Search.Place: the geocoder's float coordinates are `real` values. No arithmetic is done on them, so rounding plays no part.
- Search.DecimalClassSound: fixes `\d` only on ASCII. Other Unicode decimal digits, such as Arabic-Indic ones, may make a query ZIP-shaped and reach the postal lookup, as they do in Python.
