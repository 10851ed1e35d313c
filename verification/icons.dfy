/**
 * The weather-text classifier (`get_weather_icon`): the description is
 * lower-cased and searched for keywords in a fixed order of priority; the
 * first group with a hit decides the icon.
 */
module Icons {
  import opened Text

  /** The six emoji the classifier can return, by meaning. */
  datatype Icon = Rain | PartlyCloudy | Sunny | Snow | Thunderstorm | Thermometer

  /** `get_weather_icon`: the if/elif chain over the lower-cased text. */
  function WeatherIcon(weather: string): Icon {
    KeywordIcon(Lower(weather))
  }

  /** The if/elif chain itself, on text that is already lower-cased. */
  function KeywordIcon(text: string): Icon {
    if Contains(text, "rain") then Rain
    else if Contains(text, "cloud") then PartlyCloudy
    else if Contains(text, "clear") || Contains(text, "sun") then Sunny
    else if Contains(text, "snow") then Snow
    else if Contains(text, "storm") || Contains(text, "thunder") then Thunderstorm
    else Thermometer
  }

  /** The keyword groups in the order the classifier tries them. */
  const Priority: seq<(Icon, seq<string>)> := [
    (Rain, ["rain"]),
    (PartlyCloudy, ["cloud"]),
    (Sunny, ["clear", "sun"]),
    (Snow, ["snow"]),
    (Thunderstorm, ["storm", "thunder"])
  ]

  /** Some word of `words` occurs in `text`. */
  predicate AnyOccurs(text: string, words: seq<string>) {
    words != [] && (Contains(text, words[0]) || AnyOccurs(text, words[1..]))
  }

  /**
   * The position of the first group in `table` with a keyword in `text`,
   * or `|table|` when no group matches.
   */
  function FirstHit(text: string, table: seq<(Icon, seq<string>)>): (k: nat)
    ensures k <= |table|
    ensures forall j :: 0 <= j < k ==> !AnyOccurs(text, table[j].1)
    ensures k < |table| ==> AnyOccurs(text, table[k].1)
  {
    if table == [] then 0
    else if AnyOccurs(text, table[0].1) then 0
    else 1 + FirstHit(text, table[1..])
  }

  /**
   * The classifier returns the icon of the first matching group of the
   * priority table, and the default icon exactly when no group matches.
   */
  lemma WeatherIconIsFirstHit(weather: string)
    ensures var k := FirstHit(Lower(weather), Priority);
      WeatherIcon(weather) == if k < |Priority| then Priority[k].0 else Thermometer
  {
    var text := Lower(weather);
    PairOccurs(text, "clear", "sun");
    PairOccurs(text, "storm", "thunder");
    assert AnyOccurs(text, Priority[0].1) == Contains(text, "rain");
    assert AnyOccurs(text, Priority[1].1) == Contains(text, "cloud");
    assert AnyOccurs(text, Priority[2].1) == (Contains(text, "clear") || Contains(text, "sun"));
    assert AnyOccurs(text, Priority[3].1) == Contains(text, "snow");
    assert AnyOccurs(text, Priority[4].1) == (Contains(text, "storm") || Contains(text, "thunder"));
  }

  /** A two-word group matches when either word occurs. */
  lemma PairOccurs(text: string, a: string, b: string)
    ensures AnyOccurs(text, [a, b]) == (Contains(text, a) || Contains(text, b))
  {
    assert [a, b][1..] == [b];
    assert [b][1..] == [];
    assert AnyOccurs(text, [b]) == Contains(text, b);
  }

  /** The default icon is returned exactly when no keyword of any group occurs. */
  lemma DefaultOnlyWithoutKeyword(weather: string)
    ensures WeatherIcon(weather) == Thermometer
      <==> forall j :: 0 <= j < |Priority| ==> !AnyOccurs(Lower(weather), Priority[j].1)
  {
    WeatherIconIsFirstHit(weather);
  }

  /**
   * The classification ignores the case of ASCII letters: lower-casing or
   * ASCII upper-casing the description first gives the same icon.
   */
  lemma WeatherIconIgnoresCase(weather: string)
    ensures WeatherIcon(Lower(weather)) == WeatherIcon(weather)
    ensures WeatherIcon(Upper(weather)) == WeatherIcon(weather)
  {
    LowerIdempotent(weather);
    LowerOfUpper(weather);
    assert KeywordIcon(Lower(Lower(weather))) == KeywordIcon(Lower(weather));
    assert KeywordIcon(Lower(Upper(weather))) == KeywordIcon(Lower(weather));
  }

  /** A lower-case keyword found in the text is found in its lower-cased form. */
  lemma LowerKeepsKeyword(text: string, word: string, i: nat)
    requires OccursAt(text, word, i)
    requires forall j :: 0 <= j < |word| ==> LowerChar(word[j]) == word[j]
    ensures Contains(Lower(text), word)
  {
    var l := Lower(text);
    assert l[i..i + |word|] == word by {
      forall j | 0 <= j < |word| ensures l[i + j] == word[j] {
        assert text[i + j] == text[i..i + |word|][j];
      }
    }
    assert OccursAt(l, word, i);
  }

  /** Rain outranks a thunderstorm: the first group that matches wins. */
  lemma ThunderstormWithRainIsRain()
    ensures WeatherIcon("Thunderstorm with rain") == Rain
  {
    var s := "Thunderstorm with rain";
    assert s[18..22] == "rain";
    LowerKeepsKeyword(s, "rain", 18);
  }
}
