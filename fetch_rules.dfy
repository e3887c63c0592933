/** What one step of the controller does: the rules each handler follows. */
module FetchRules {
  import opened Payloads
  import opened Controller
  import Text
  import Templates

  /** A completion takes its own request, and only that one, out of flight. */
  lemma SettleRemovesOne(s: State, i: nat)
    requires i < |s.inFlight|
    ensures |Settle(s, i).inFlight| == |s.inFlight| - 1
    ensures multiset(Settle(s, i).inFlight) == multiset(s.inFlight) - multiset{s.inFlight[i]}
  {
    assert s.inFlight == s.inFlight[..i] + [s.inFlight[i]] + s.inFlight[i + 1..];
  }

  /** The flag is shared: any completion lowers it even while other requests, of this
      or another widget, are still in flight. */
  lemma CompletionClearsSharedLoading(s: State, e: Event, j: nat)
    requires IsCompletion(e) && Enabled(s, e)
    requires j < |s.inFlight| && j != e.index
    ensures !Step(s, e).loading
    ensures s.inFlight[j] in Step(s, e).inFlight
  {
    var i := e.index;
    if j < i {
      assert s.inFlight[j] == s.inFlight[..i][j];
    } else {
      assert s.inFlight[j] == s.inFlight[i + 1..][j - i - 1];
    }
  }

  /** The effect starts a fetch exactly when the tab really changes to weather with no
      reading cached, or to quote with no quote cached. */
  lemma AutoFetchIff(s: State, t: Tab)
    ensures SetTab(s, t).inFlight != s.inFlight <==>
      t != s.activeTab && ((t == WeatherTab && s.weatherData.None?) || (t == QuoteTab && s.quote.None?))
  {
    if t != s.activeTab && ((t == WeatherTab && s.weatherData.None?) || (t == QuoteTab && s.quote.None?)) {
      assert |SetTab(s, t).inFlight| == |s.inFlight| + 1;
    }
  }

  /** Opening the weather tab with nothing cached starts one fetch, for "Hyderabad". */
  lemma OpenWeatherUncached(s: State)
    requires s.activeTab != WeatherTab && s.weatherData.None?
    ensures var r := SetTab(s, WeatherTab);
      r.activeTab == WeatherTab && r.loading
      && r.inFlight == s.inFlight + [Request(Weather, Templates.WeatherUrl("Hyderabad"))]
      && r.(activeTab := s.activeTab, loading := s.loading, inFlight := s.inFlight) == s
  {
  }

  /** Opening the quote tab with nothing cached starts one quote fetch. */
  lemma OpenQuoteUncached(s: State)
    requires s.activeTab != QuoteTab && s.quote.None?
    ensures var r := SetTab(s, QuoteTab);
      r.activeTab == QuoteTab && r.loading
      && r.inFlight == s.inFlight + [Request(Quote, Templates.QuoteUrl())]
      && r.(activeTab := s.activeTab, loading := s.loading, inFlight := s.inFlight) == s
  {
  }

  /** Every other tab change only changes the tab: the currency tab, the selector, and
      a tab whose datum is cached start nothing. */
  lemma OpenWithoutFetch(s: State, t: Tab)
    requires t == s.activeTab || t == Selector || t == CurrencyTab
      || (t == WeatherTab && s.weatherData.Some?) || (t == QuoteTab && s.quote.Some?)
    ensures SetTab(s, t) == s.(activeTab := t)
  {
  }

  /** Back returns to the selector and keeps every cached datum and form field. */
  lemma BackKeepsCache(s: State)
    ensures Step(s, Back) == s.(activeTab := Selector)
  {
  }

  /** Typing in the search box or the currency form starts no request. */
  lemma EditsStartNothing(s: State, e: Event)
    requires e.EditCity? || e.EditAmount? || e.EditFrom? || e.EditTo?
    ensures var r := Step(s, e);
      r.inFlight == s.inFlight && r.loading == s.loading && r.activeTab == s.activeTab
      && r.weatherData == s.weatherData && r.quote == s.quote
      && r.conversionResult == s.conversionResult && r.error == s.error
  {
  }

  /** Any other search opens the weather tab and first fetches the text as typed,
      surrounding whitespace included; no datum changes yet. */
  lemma SearchFetchesTypedText(s: State)
    requires !Text.AllWhitespace(s.searchCity)
    ensures var r := Search(s);
      r.activeTab == WeatherTab && r.loading
      && |r.inFlight| > |s.inFlight| && r.inFlight[..|s.inFlight| + 1]
        == s.inFlight + [Request(Weather, Templates.WeatherUrl(s.searchCity))]
      && r.(activeTab := s.activeTab, loading := s.loading, inFlight := s.inFlight) == s
  {
    SearchStarts(s);
    var s1 := StartWeather(s, s.searchCity);
    OpenWeatherAfterStart(s1);
    assert Search(s).inFlight[..|s1.inFlight|] == s1.inFlight;
  }

  lemma SearchStarts(s: State)
    requires !Text.AllWhitespace(s.searchCity)
    ensures Search(s) == SetTab(StartWeather(s, s.searchCity), WeatherTab)
  {
    Text.TrimEmptyIffBlank(s.searchCity);
  }

  /** Opening the weather tab after a start keeps that start's request first. */
  lemma OpenWeatherAfterStart(s1: State)
    requires s1.loading
    ensures var r := SetTab(s1, WeatherTab);
      r.activeTab == WeatherTab && r.loading
      && (r.inFlight == s1.inFlight || r.inFlight == s1.inFlight + [Request(Weather, Templates.WeatherUrl(DefaultCity))])
      && r.(activeTab := s1.activeTab, inFlight := s1.inFlight) == s1
  {
  }

  /** Searching from another tab while no reading is cached also triggers the effect:
      two weather requests go out, the typed city first and "Hyderabad" second. */
  lemma SearchAlsoFetchesDefault(s: State)
    requires !Text.AllWhitespace(s.searchCity)
    requires s.activeTab != WeatherTab && s.weatherData.None?
    ensures Search(s).inFlight == s.inFlight
      + [Request(Weather, Templates.WeatherUrl(s.searchCity)), Request(Weather, Templates.WeatherUrl("Hyderabad"))]
  {
    SearchStarts(s);
  }

  /** Searching on the weather tab, or with a reading cached, sends the one request. */
  lemma SearchFetchesOnce(s: State)
    requires !Text.AllWhitespace(s.searchCity)
    requires s.activeTab == WeatherTab || s.weatherData.Some?
    ensures Search(s).inFlight == s.inFlight + [Request(Weather, Templates.WeatherUrl(s.searchCity))]
  {
    SearchStarts(s);
  }

  /** The amount is not validated: a negative or non-numeric amount goes out as typed. */
  lemma AmountSentUnchecked(s: State)
    requires s.currencyAmount == "-5"
    ensures Step(s, Convert).inFlight
      == s.inFlight + [Request(Currency, Templates.ConvertUrl("-5", s.fromCurrency, s.toCurrency))]
    ensures Step(s, Convert).conversionResult == s.conversionResult && Step(s, Convert).error == s.error
  {
  }
}
