/** The clock formatter: `get_current_time` and `get_real_tz_name`. The
    timezone database and the system clock are one oracle, `ZoneDatabase`. */
module Clock {
  import opened Wrappers
  import Tables

  type Hour = h: int | 0 <= h < 24
  type Minute = m: int | 0 <= m < 60

  /** What the timezone database and the system clock give for one zone at
      the instant of the call: the local wall-clock hour and minute, whether
      a daylight-saving offset is in force (`now.dst()` is non-zero), and the
      abbreviation the database itself reports for the zone
      (`tz.localize(datetime.now()).tzname()`). */
  datatype ZoneReading = ZoneReading(hour: Hour, minute: Minute, dst: bool, databaseName: string)

  /** `pytz.timezone(name)` read at the current instant; `None` when the
      name is not one the database knows, where pytz raises. */
  type ZoneDatabase = string -> Option<ZoneReading>

  /** The failure sentinels of the two formatters. */
  const TimeSentinel: string := "--:--"
  const NameSentinel: string := "???"

  /** The zone a caller asks for is resolved: the caller passed a string
      (Python `None` makes `pytz.timezone` raise) and the database knows it. */
  predicate Known(zone: Option<string>, db: ZoneDatabase) {
    zone.Some? && db(zone.value).Some?
  }

  predicate IsDigitChar(c: char) { '0' <= c <= '9' }

  function DigitChar(d: int): (c: char)
    requires 0 <= d < 10
    ensures IsDigitChar(c) && c as int - '0' as int == d
  {
    ('0' as int + d) as char
  }

  /** `%H` / `%M`: a zero-padded two-digit field. */
  function TwoDigits(n: int): (r: string)
    requires 0 <= n < 100
    ensures |r| == 2 && IsDigitChar(r[0]) && IsDigitChar(r[1])
    ensures (r[0] as int - '0' as int) * 10 + (r[1] as int - '0' as int) == n
  {
    [DigitChar(n / 10), DigitChar(n % 10)]
  }

  /** `strftime("%H:%M")` of a wall-clock reading. */
  function FormatClock(h: Hour, m: Minute): (r: string)
    ensures |r| == 5 && r[2] == ':'
    ensures IsDigitChar(r[0]) && IsDigitChar(r[1]) && IsDigitChar(r[3]) && IsDigitChar(r[4])
  {
    TwoDigits(h) + ":" + TwoDigits(m)
  }

  /** Reads an "HH:MM" string back; `None` for anything else, the sentinel
      included. */
  function ParseClock(s: string): (r: Option<(Hour, Minute)>)
    ensures r.Some? ==> |s| == 5 && s[2] == ':'
  {
    if |s| == 5 && s[2] == ':' && IsDigitChar(s[0]) && IsDigitChar(s[1])
       && IsDigitChar(s[3]) && IsDigitChar(s[4])
    then
      var h := (s[0] as int - '0' as int) * 10 + (s[1] as int - '0' as int);
      var m := (s[3] as int - '0' as int) * 10 + (s[4] as int - '0' as int);
      if h < 24 && m < 60 then Some((h, m)) else None
    else None
  }

  /** Formatting a reading and reading it back gives the reading. */
  lemma ParseFormatClock(h: Hour, m: Minute)
    ensures ParseClock(FormatClock(h, m)) == Some((h, m))
  {
    var r := FormatClock(h, m);
    assert r[..2] == TwoDigits(h) && r[3..] == TwoDigits(m);
    assert r[0] == TwoDigits(h)[0] && r[1] == TwoDigits(h)[1];
    assert r[3] == TwoDigits(m)[0] && r[4] == TwoDigits(m)[1];
  }

  /** `get_current_time(tz_str)`: the zone's wall-clock time as "HH:MM", or
      the sentinel "--:--" when the zone cannot be resolved. */
  function GetCurrentTime(zone: Option<string>, db: ZoneDatabase): (r: string)
    ensures r == TimeSentinel <==> !Known(zone, db)
    ensures Known(zone, db) ==>
      ParseClock(r) == Some((db(zone.value).value.hour, db(zone.value).value.minute))
  {
    if zone.None? then TimeSentinel
    else match db(zone.value)
      case None => TimeSentinel
      case Some(reading) =>
        ParseFormatClock(reading.hour, reading.minute);
        FormatClock(reading.hour, reading.minute)
  }

  /** One entry of the `names` table inside `get_real_tz_name`: a zone that
      switches abbreviation with daylight-saving time, or one that does not. */
  datatype Abbreviation = Seasonal(standard: string, daylight: string) | YearRound(name: string)

  /** `a` as shown when the daylight-saving flag is `dst`. */
  function Shown(a: Abbreviation, dst: bool): string {
    match a
    case Seasonal(standard, daylight) => if dst then daylight else standard
    case YearRound(name) => name
  }

  /** The curated `names` table. The source leaves "US/Alaska" and
      "US/Hawaii" commented out, so they are not keys. */
  const CuratedNames: map<string, Abbreviation> := map[
    "US/Eastern" := Seasonal("EST", "EDT"),
    "US/Central" := Seasonal("CST", "CDT"),
    "US/Mountain" := Seasonal("MST", "MDT"),
    "US/Pacific" := Seasonal("PST", "PDT"),
    "US/Arizona" := YearRound("MST"),
    "Europe/London" := Seasonal("GMT", "BST"),
    "Europe/Paris" := Seasonal("CET", "CEST"),
    "Asia/Dubai" := YearRound("+04"),
    "Asia/Tbilisi" := YearRound("+04"),
    "Asia/Tokyo" := YearRound("JST")
  ]

  /** `get_real_tz_name(iana)`: the curated abbreviation for a curated zone,
      the database's own abbreviation for any other zone it knows, and "???"
      when the zone cannot be resolved. The table is looked up with the
      caller's exact string. */
  function GetRealTzName(zone: Option<string>, db: ZoneDatabase): (r: string)
    ensures !Known(zone, db) ==> r == NameSentinel
    ensures Known(zone, db) && zone.value in CuratedNames ==>
      r == Shown(CuratedNames[zone.value], db(zone.value).value.dst) && r != NameSentinel
    ensures Known(zone, db) && zone.value !in CuratedNames ==>
      r == db(zone.value).value.databaseName
  {
    if zone.None? then NameSentinel
    else match db(zone.value)
      case None => NameSentinel
      case Some(reading) =>
        if zone.value in CuratedNames then Shown(CuratedNames[zone.value], reading.dst)
        else reading.databaseName
  }

  /** The six curated zones that follow daylight-saving time show their
      daylight abbreviation exactly when DST is in force. */
  lemma DstDependentZones(zone: string, db: ZoneDatabase)
    requires zone in {"US/Eastern", "US/Central", "US/Mountain", "US/Pacific", "Europe/London", "Europe/Paris"}
    requires db(zone).Some?
    ensures var r, dst := GetRealTzName(Some(zone), db), db(zone).value.dst;
      && (zone == "US/Eastern" ==> r == if dst then "EDT" else "EST")
      && (zone == "US/Central" ==> r == if dst then "CDT" else "CST")
      && (zone == "US/Mountain" ==> r == if dst then "MDT" else "MST")
      && (zone == "US/Pacific" ==> r == if dst then "PDT" else "PST")
      && (zone == "Europe/London" ==> r == if dst then "BST" else "GMT")
      && (zone == "Europe/Paris" ==> r == if dst then "CEST" else "CET")
  {
  }

  /** Arizona, Dubai, Tbilisi and Tokyo show one abbreviation whatever the
      daylight-saving flag, the wall-clock time or the database's own name. */
  lemma DstIndependentZones(zone: string, db1: ZoneDatabase, db2: ZoneDatabase)
    requires zone in {"US/Arizona", "Asia/Dubai", "Asia/Tbilisi", "Asia/Tokyo"}
    requires db1(zone).Some? && db2(zone).Some?
    ensures GetRealTzName(Some(zone), db1) == GetRealTzName(Some(zone), db2)
    ensures zone == "US/Arizona" ==> GetRealTzName(Some(zone), db1) == "MST"
    ensures zone == "Asia/Dubai" || zone == "Asia/Tbilisi" ==> GetRealTzName(Some(zone), db1) == "+04"
    ensures zone == "Asia/Tokyo" ==> GetRealTzName(Some(zone), db1) == "JST"
  {
  }

  /** A curated zone's abbreviation depends on the daylight-saving flag
      alone; and for a seasonal zone the abbreviation tells the flag. */
  lemma CuratedDependsOnlyOnDst(zone: string, db1: ZoneDatabase, db2: ZoneDatabase)
    requires zone in CuratedNames && db1(zone).Some? && db2(zone).Some?
    ensures db1(zone).value.dst == db2(zone).value.dst ==>
      GetRealTzName(Some(zone), db1) == GetRealTzName(Some(zone), db2)
    ensures CuratedNames[zone].Seasonal? ==>
      (GetRealTzName(Some(zone), db1) == GetRealTzName(Some(zone), db2) <==> db1(zone).value.dst == db2(zone).value.dst)
  {
  }

  /** Zones outside the curated table, Alaska and Hawaii among them, show
      the database's own abbreviation. */
  lemma UncuratedZonesUseDatabaseName(zone: string, db: ZoneDatabase)
    requires zone !in CuratedNames && db(zone).Some?
    ensures GetRealTzName(Some(zone), db) == db(zone).value.databaseName
    ensures "US/Alaska" !in CuratedNames && "US/Hawaii" !in CuratedNames
  {
  }

  /** A zone the database does not know gives both sentinels, and only such
      a zone gives the time sentinel. */
  lemma UnknownZoneSentinels(zone: Option<string>, db: ZoneDatabase)
    ensures !Known(zone, db) ==> GetCurrentTime(zone, db) == "--:--" && GetRealTzName(zone, db) == "???"
    ensures GetCurrentTime(zone, db) == "--:--" ==> !Known(zone, db)
  {
  }

  /** Every row of the fixed US panel shows a curated abbreviation except
      Alaska and Hawaii, which show the database's; the Georgia row's zone
      is curated as "+04". */
  lemma PanelAbbreviations()
    ensures forall i :: 0 <= i < |Tables.UsTimezones| ==>
      (Tables.UsTimezones[i].1 in CuratedNames <==>
        Tables.UsTimezones[i].0 != "Alaska" && Tables.UsTimezones[i].0 != "Hawaii")
    ensures Tables.TbilisiZone in CuratedNames && CuratedNames[Tables.TbilisiZone] == YearRound("+04")
  {
  }
}
