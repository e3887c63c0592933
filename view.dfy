/** What the markup shows for a controller state: the search bar, then either the tab
    selector or the active tab's section with its spinner, error text and panel. */
module View {
  import opened Payloads
  import opened Controller
  import Icons
  import Templates
  import FetchRules

  datatype Panel =
    | WeatherPanel(reading: WeatherReading, icon: Icons.IconKind)
    | CurrencyPanel(amount: string, fromCurrency: string, toCurrency: string, line: Option<string>)
    | QuotePanel(text: string, author: string)

  datatype Section = Section(spinner: bool, errorText: Option<string>, panel: Option<Panel>)

  /** `searchBusy`: the search icon spins and the Go button is disabled. */
  datatype Screen = Screen(searchBusy: bool, selector: bool, section: Option<Section>)

  /** The conversion panel's line, when a result is held. */
  function ConversionText(s: State): Option<string> {
    match s.conversionResult
    case Some(c) => Some(Templates.ConversionLine(s.currencyAmount, s.fromCurrency, c.result, s.toCurrency))
    case None => None
  }

  /** `quote?.quote || "Loading..."`: never empty; the quote's own text whenever it has
      one. */
  function QuoteText(q: Quotation): (t: string)
    ensures t != ""
    ensures q.quote != "" ==> t == q.quote
    ensures q.quote == "" ==> t == "Loading..."
  {
    if q.quote == "" then "Loading..." else q.quote
  }

  /** The panel of the active tab: the weather card when a reading is cached, with the
      icon its code selects; the currency form always; the quote card when a quote is
      cached; nothing on the selector. */
  function PanelFor(s: State): (p: Option<Panel>)
    ensures p.Some? <==> (s.activeTab == CurrencyTab
      || (s.activeTab == WeatherTab && s.weatherData.Some?) || (s.activeTab == QuoteTab && s.quote.Some?))
    ensures p.Some? && p.value.WeatherPanel? ==> (s.activeTab == WeatherTab
      && p.value.reading == s.weatherData.value && p.value.icon == Icons.WeatherIcon(IconCode(s.weatherData.value)))
    ensures p.Some? && p.value.CurrencyPanel? ==> (s.activeTab == CurrencyTab
      && p.value.amount == s.currencyAmount && p.value.fromCurrency == s.fromCurrency
      && p.value.toCurrency == s.toCurrency && p.value.line == ConversionText(s))
    ensures p.Some? && p.value.QuotePanel? ==> (s.activeTab == QuoteTab
      && p.value.author == s.quote.value.author && p.value.text == QuoteText(s.quote.value))
  {
    match s.activeTab
    case Selector => None
    case WeatherTab =>
      if s.weatherData.Some?
      then Some(WeatherPanel(s.weatherData.value, Icons.WeatherIcon(IconCode(s.weatherData.value))))
      else None
    case CurrencyTab =>
      Some(CurrencyPanel(s.currencyAmount, s.fromCurrency, s.toCurrency, ConversionText(s)))
    case QuoteTab =>
      if s.quote.Some? then Some(QuotePanel(QuoteText(s.quote.value), s.quote.value.author)) else None
  }

  /** The selector is shown exactly when no tab is active, the section exactly when
      one is; while `loading` is up the section shows the spinner and nothing else. */
  function Render(s: State): (v: Screen)
    ensures v.selector <==> s.activeTab == Selector
    ensures v.section.Some? <==> s.activeTab != Selector
    ensures v.section.Some? ==> v.section.value.spinner == s.loading
    ensures v.section.Some? && s.loading ==>
      v.section.value.errorText.None? && v.section.value.panel.None?
    ensures v.searchBusy == s.loading
  {
    if s.activeTab == Selector then Screen(s.loading, true, None)
    else if s.loading then Screen(s.loading, false, Some(Section(true, None, None)))
    else Screen(s.loading, false,
                Some(Section(false, if s.error != "" then Some(s.error) else None, PanelFor(s))))
  }

  /** Once idle, an active tab shows `error` if it is non-empty, whichever widget set it. */
  lemma IdleShowsError(s: State)
    requires s.activeTab != Selector && !s.loading
    ensures Render(s).section.value.errorText == if s.error == "" then None else Some(s.error)
    ensures Render(s).section.value.panel == PanelFor(s)
  {
  }

  /** The conversion line is made of the form's current amount and currencies and the
      response's `result`: the response's own `amount`, `from` and `to` are never shown. */
  lemma ConversionLineFromForm(s: State, c: Conversion, amount: string, from: string, to: string)
    requires s.conversionResult == Some(c)
    ensures var s' := s.(conversionResult := Some(c.(amount := amount, from := from, to := to)));
      Render(s') == Render(s)
    ensures ConversionText(s) == Some(Templates.ConversionLine(s.currencyAmount, s.fromCurrency, c.result, s.toCurrency))
  {
  }

  /** Editing the amount after a conversion changes the line at once, with the old
      result: "50 INR = 1.2 USD" after converting 100. */
  lemma EditedAmountKeepsOldResult(s: State, c: Conversion, amount: string)
    requires s.conversionResult == Some(c)
    ensures ConversionText(Step(s, EditAmount(amount)))
      == Some(Templates.ConversionLine(amount, s.fromCurrency, c.result, s.toCurrency))
  {
  }

  /** A successful conversion shows its line on the currency tab and no error, even
      while other requests are still in flight. */
  lemma ConversionShown(s: State, i: nat, c: Conversion)
    requires s.activeTab == CurrencyTab && Pending(s, i, Currency)
    ensures var v := Render(FinishConversion(s, i, Success(c)));
      v.section == Some(Section(false, None, Some(CurrencyPanel(
        s.currencyAmount, s.fromCurrency, s.toCurrency,
        Some(Templates.ConversionLine(s.currencyAmount, s.fromCurrency, c.result, s.toCurrency))))))
  {
  }

  /** The worked example: converting the default form 100 INR to USD with a result of
      1.2 shows "100 INR = 1.2 USD". */
  lemma DefaultConversionExample()
    ensures var s := Step(Step(Initial(), SelectTab(Currency)), Convert);
      Pending(s, 0, Currency)
      && ConversionText(Step(s, ConversionArrives(0, Success(Conversion("100", "INR", "USD", "1.2", "0.012")))))
        == Some("100 INR = 1.2 USD")
  {
    DefaultFormConverting();
    var s := Step(Step(Initial(), SelectTab(Currency)), Convert);
    assert s.currencyAmount == "100" && s.fromCurrency == "INR" && s.toCurrency == "USD";
    ArrivalShowsLine(s, Conversion("100", "INR", "USD", "1.2", "0.012"));
    DefaultLine();
  }

  lemma DefaultLine()
    ensures Templates.ConversionLine("100", "INR", "1.2", "USD") == "100 INR = 1.2 USD"
  {
  }

  lemma DefaultFormConverting()
    ensures Step(Step(Initial(), SelectTab(Currency)), Convert)
      == Initial().(activeTab := CurrencyTab, loading := true,
                    inFlight := [Request(Currency, Templates.ConvertUrl("100", "INR", "USD"))])
  {
    FetchRules.OpenWithoutFetch(Initial(), CurrencyTab);
  }

  lemma ArrivalShowsLine(s: State, c: Conversion)
    requires Pending(s, 0, Currency)
    ensures ConversionText(Step(s, ConversionArrives(0, Success(c))))
      == Some(Templates.ConversionLine(s.currencyAmount, s.fromCurrency, c.result, s.toCurrency))
  {
  }

  /** The flag is shared: once a weather answer lowers it, the quote tab shows neither
      spinner nor quote while its own request is still in flight. */
  lemma SharedFlagBlanksQuoteTab(w: WeatherReading)
    ensures var s := Step(Step(Step(Initial(), SelectTab(Weather)), Back), SelectTab(Quote));
      Pending(s, 0, Weather)
      && var r := Step(s, WeatherArrives(0, Success(w)));
      r.inFlight == [Request(Quote, Templates.QuoteUrl())]
      && Render(r).section == Some(Section(false, None, None))
  {
    var s1 := Step(Initial(), SelectTab(Weather));
    FetchRules.OpenWeatherUncached(Initial());
    var s2 := Step(s1, Back);
    var s3 := Step(s2, SelectTab(Quote));
    FetchRules.OpenQuoteUncached(s2);
    assert s3.inFlight == [Request(Weather, Templates.WeatherUrl("Hyderabad")), Request(Quote, Templates.QuoteUrl())];
    var r := Step(s3, WeatherArrives(0, Success(w)));
    assert r.inFlight == s3.inFlight[1..];
  }

  /** The error is shared: a failed quote shows "Unable to fetch quote" on the weather
      tab, next to the cached reading. */
  lemma QuoteErrorOnWeatherTab(s: State, i: nat)
    requires s.activeTab == QuoteTab && s.weatherData.Some? && Pending(s, i, Quote)
    ensures var r := Step(Step(FinishQuote(s, i, Failure), Back), SelectTab(Weather));
      Render(r).section == Some(Section(false, Some(QuoteError),
        Some(WeatherPanel(s.weatherData.value, Icons.WeatherIcon(IconCode(s.weatherData.value))))))
  {
  }
}
