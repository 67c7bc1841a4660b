/** The two constant tables at the top of main.py. */
module Tables {

  /** `CITY_ALIASES`: normalised informal place names (lower-case, no
      spaces) and the canonical name the geocoder is given instead. */
  const CityAliases: map<string, string> := map[
    "massachusetts" := "Boston", "massachussets" := "Boston", "massachusets" := "Boston",
    "masachusetts" := "Boston", "masachusets" := "Boston",
    "newyork" := "New York", "ny" := "New York", "nyc" := "New York",
    "la" := "Los Angeles", "losangeles" := "Los Angeles",
    "sf" := "San Francisco", "sanfrancisco" := "San Francisco",
    "vegas" := "Las Vegas", "lasvegas" := "Las Vegas",
    "miami" := "Miami", "chicago" := "Chicago", "houston" := "Houston",
    "dallas" := "Dallas", "atlanta" := "Atlanta", "seattle" := "Seattle",
    "phoenix" := "Phoenix"
  ]

  /** `US_TIMEZONES`, in its insertion order: the display label of each row
      of the fixed clock panel and the zone identifier it shows. */
  const UsTimezones: seq<(string, string)> := [
    ("Eastern", "US/Eastern"),
    ("Central", "US/Central"),
    ("Mountain", "US/Mountain"),
    ("Pacific", "US/Pacific"),
    ("Alaska", "US/Alaska"),
    ("Hawaii", "US/Hawaii"),
    ("Arizona", "US/Arizona")
  ]

  /** `TBILISI_TZ`: the zone of the separate Georgia row. */
  const TbilisiZone: string := "Asia/Tbilisi"

  predicate IsLowerAsciiLetter(c: char) { 'a' <= c <= 'z' }

  /** `s` is a non-empty run of lower-case ASCII letters. */
  predicate IsLowerWord(s: string) {
    |s| > 0 && forall i :: 0 <= i < |s| ==> IsLowerAsciiLetter(s[i])
  }

  /** The five spellings of Massachusetts are lower-case words. */
  lemma BostonSpellingsAreLowerWords()
    ensures IsLowerWord("massachusetts")
      && IsLowerWord("massachussets")
      && IsLowerWord("massachusets")
      && IsLowerWord("masachusetts")
      && IsLowerWord("masachusets")
  {
    assert IsLowerWord("massachusetts");
    assert IsLowerWord("massachussets");
    assert IsLowerWord("massachusets");
    assert IsLowerWord("masachusetts");
    assert IsLowerWord("masachusets");
  }

  /** The New York, Los Angeles and San Francisco keys are lower-case words. */
  lemma CoastAliasesAreLowerWords()
    ensures IsLowerWord("newyork")
      && IsLowerWord("ny")
      && IsLowerWord("nyc")
      && IsLowerWord("la")
      && IsLowerWord("losangeles")
      && IsLowerWord("sanfrancisco")
      && IsLowerWord("sf")
  {
    assert IsLowerWord("newyork");
    assert IsLowerWord("ny");
    assert IsLowerWord("nyc");
    assert IsLowerWord("la");
    assert IsLowerWord("losangeles");
    assert IsLowerWord("sanfrancisco");
    assert IsLowerWord("sf");
  }

  /** The Las Vegas keys and the plain city names are lower-case words. */
  lemma CityNamesAreLowerWords()
    ensures IsLowerWord("vegas")
      && IsLowerWord("lasvegas")
      && IsLowerWord("miami")
      && IsLowerWord("chicago")
      && IsLowerWord("houston")
      && IsLowerWord("dallas")
      && IsLowerWord("atlanta")
      && IsLowerWord("seattle")
      && IsLowerWord("phoenix")
  {
    assert IsLowerWord("vegas");
    assert IsLowerWord("lasvegas");
    assert IsLowerWord("miami");
    assert IsLowerWord("chicago");
    assert IsLowerWord("houston");
    assert IsLowerWord("dallas");
    assert IsLowerWord("atlanta");
    assert IsLowerWord("seattle");
    assert IsLowerWord("phoenix");
  }

  /** Every alias key is a non-empty run of lower-case ASCII letters, so it
      is already in the form the search box normalises a query to. */
  lemma AliasKeysAreLowerWords()
    ensures forall k :: k in CityAliases ==> IsLowerWord(k)
  {
    BostonSpellingsAreLowerWords();
    CoastAliasesAreLowerWords();
    CityNamesAreLowerWords();
  }

  /** So nothing that is not such a run is an alias key. */
  lemma NonWordsAreNoAliases(s: string)
    requires !IsLowerWord(s)
    ensures s !in CityAliases
  {
    AliasKeysAreLowerWords();
  }

  /** The three spellings of New York in the table. */
  lemma NewYorkAliases()
    ensures "nyc" in CityAliases && CityAliases["nyc"] == "New York"
    ensures "ny" in CityAliases && CityAliases["ny"] == "New York"
    ensures "newyork" in CityAliases && CityAliases["newyork"] == "New York"
    ensures "new york" !in CityAliases
  {
  }

  /** The labels of the fixed panel are distinct, as the keys of a dict are. */
  lemma PanelLabelsDistinct()
    ensures forall i, j :: 0 <= i < j < |UsTimezones| ==> UsTimezones[i].0 != UsTimezones[j].0
  {
  }
}
