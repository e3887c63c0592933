/** The dashboard's controller as a state machine over values. A fetch handler is split
    in two: starting it raises the shared `loading` flag and puts a request in flight;
    its completion, which may come at any later time and in any order with respect to
    other completions, writes the outcome into the state. There is no per-request
    token: whichever completion arrives last wins, and every completion clears
    `loading`, whatever else is still in flight. */
module Controller {
  import opened Payloads
  import Text
  import Templates

  /** `activeTab`: "" (the tab selector), "weather", "currency" or "quote". */
  datatype Tab = Selector | WeatherTab | CurrencyTab | QuoteTab

  datatype Widget = Weather | Currency | Quote

  /** A request dispatched by a fetch handler whose promise has not settled yet. */
  datatype Request = Request(widget: Widget, url: string)

  const DefaultCity: string := "Hyderabad"
  const WeatherError: string := "Unable to fetch weather data"
  const QuoteError: string := "Unable to fetch quote"
  const ConversionError: string := "Conversion failed"

  /** Every `useState` of `App`, plus the requests in flight. */
  datatype State = State(
    activeTab: Tab,
    weatherData: Option<WeatherReading>,
    currencyAmount: string,
    fromCurrency: string,
    toCurrency: string,
    conversionResult: Option<Conversion>,
    quote: Option<Quotation>,
    loading: bool,
    error: string,
    searchCity: string,
    inFlight: seq<Request>)

  function Initial(): State {
    State(Selector, None, "100", "INR", "USD", None, None, false, "", "", [])
  }

  /** What every reachable state satisfies: `loading` is only up while something is in
      flight, and `error` is empty or one of the three fixed messages. */
  ghost predicate Inv(s: State) {
    (s.loading ==> s.inFlight != [])
    && s.error in {"", WeatherError, QuoteError, ConversionError}
  }

  function TabOf(w: Widget): Tab {
    match w
    case Weather => WeatherTab
    case Currency => CurrencyTab
    case Quote => QuoteTab
  }

  // ---------------------------------------------------------------------------
  // Starting a fetch: `setLoading(true)`, then `fetch(url)`.

  function Dispatch(s: State, r: Request): State {
    s.(loading := true, inFlight := s.inFlight + [r])
  }

  /** `fetchWeatherByCity(city)` up to its `await`: `loading` goes up and the weather
      request for `city` joins those in flight; nothing else changes. */
  function StartWeather(s: State, city: string): (r: State)
    ensures r.loading && r.inFlight == s.inFlight + [Request(Weather, Templates.WeatherUrl(city))]
    ensures r.(loading := s.loading, inFlight := s.inFlight) == s
  {
    Dispatch(s, Request(Weather, Templates.WeatherUrl(city)))
  }

  /** `fetchRandomQuote()` up to its `await`. */
  function StartQuote(s: State): (r: State)
    ensures r.loading && r.inFlight == s.inFlight + [Request(Quote, Templates.QuoteUrl())]
    ensures r.(loading := s.loading, inFlight := s.inFlight) == s
  {
    Dispatch(s, Request(Quote, Templates.QuoteUrl()))
  }

  /** `convertCurrency()` up to its `await`: the URL is built from the form fields as
      they are; the amount is not checked. */
  function StartConversion(s: State): (r: State)
    ensures r.loading
    ensures r.inFlight == s.inFlight + [Request(Currency, Templates.ConvertUrl(s.currencyAmount, s.fromCurrency, s.toCurrency))]
    ensures r.(loading := s.loading, inFlight := s.inFlight) == s
  {
    Dispatch(s, Request(Currency, Templates.ConvertUrl(s.currencyAmount, s.fromCurrency, s.toCurrency)))
  }

  // ---------------------------------------------------------------------------
  // Completing a fetch: the `try`/`catch` writes the datum and `error`, the
  // `finally` clears `loading`.

  predicate Pending(s: State, i: nat, w: Widget) {
    i < |s.inFlight| && s.inFlight[i].widget == w
  }

  function Settle(s: State, i: nat): State
    requires i < |s.inFlight|
  {
    s.(loading := false, inFlight := s.inFlight[..i] + s.inFlight[i + 1..])
  }

  /** The weather completion: on success the reading replaces `weatherData` and `error`
      is cleared; on failure `weatherData` is dropped and `error` is the fixed weather
      message. Either way request `i` leaves, `loading` goes down and no other datum
      changes. */
  function FinishWeather(s: State, i: nat, o: Outcome<WeatherReading>): (r: State)
    requires Pending(s, i, Weather)
    ensures !r.loading && r.inFlight == s.inFlight[..i] + s.inFlight[i + 1..]
    ensures r.weatherData == (if o.Success? then Some(o.payload) else None)
    ensures r.error == (if o.Success? then "" else WeatherError)
    ensures r.(weatherData := s.weatherData, error := s.error, loading := s.loading, inFlight := s.inFlight) == s
  {
    match o
    case Success(data) => Settle(s, i).(weatherData := Some(data), error := "")
    case Failure => Settle(s, i).(error := WeatherError, weatherData := None)
  }

  /** The quote completion, with the quote's fixed message. */
  function FinishQuote(s: State, i: nat, o: Outcome<Quotation>): (r: State)
    requires Pending(s, i, Quote)
    ensures !r.loading && r.inFlight == s.inFlight[..i] + s.inFlight[i + 1..]
    ensures r.quote == (if o.Success? then Some(o.payload) else None)
    ensures r.error == (if o.Success? then "" else QuoteError)
    ensures r.(quote := s.quote, error := s.error, loading := s.loading, inFlight := s.inFlight) == s
  {
    match o
    case Success(data) => Settle(s, i).(quote := Some(data), error := "")
    case Failure => Settle(s, i).(error := QuoteError, quote := None)
  }

  /** The conversion completion, with the conversion's fixed message. */
  function FinishConversion(s: State, i: nat, o: Outcome<Conversion>): (r: State)
    requires Pending(s, i, Currency)
    ensures !r.loading && r.inFlight == s.inFlight[..i] + s.inFlight[i + 1..]
    ensures r.conversionResult == (if o.Success? then Some(o.payload) else None)
    ensures r.error == (if o.Success? then "" else ConversionError)
    ensures r.(conversionResult := s.conversionResult, error := s.error, loading := s.loading, inFlight := s.inFlight) == s
  {
    match o
    case Success(data) => Settle(s, i).(conversionResult := Some(data), error := "")
    case Failure => Settle(s, i).(error := ConversionError, conversionResult := None)
  }

  // ---------------------------------------------------------------------------
  // Tabs, the effect on `[activeTab]`, and the search bar.

  /** The body of the `useEffect` that runs after `activeTab` changed: it starts a fetch
      exactly when the tab is weather with no reading, or quote with no quote, and
      otherwise only keeps what is in flight; no datum changes. */
  function AutoFetch(s: State): (r: State)
    ensures r.inFlight != s.inFlight <==>
      (s.activeTab == WeatherTab && s.weatherData.None?) || (s.activeTab == QuoteTab && s.quote.None?)
    ensures |r.inFlight| >= |s.inFlight| && r.inFlight[..|s.inFlight|] == s.inFlight
    ensures r.loading == (s.loading || r.inFlight != s.inFlight)
    ensures r.(loading := s.loading, inFlight := s.inFlight) == s
  {
    var s1 := if s.activeTab == WeatherTab && s.weatherData.None? then StartWeather(s, DefaultCity) else s;
    var r := if s1.activeTab == QuoteTab && s1.quote.None? then StartQuote(s1) else s1;
    assert r.inFlight != s.inFlight ==> |r.inFlight| > |s.inFlight|;
    r
  }

  /** `setActiveTab(t)`: React re-runs the effect only when the value changed. The tab
      becomes `t`; requests may only be added; every datum, form field and `error` is
      kept. */
  function SetTab(s: State, t: Tab): (r: State)
    ensures r.activeTab == t
    ensures t == s.activeTab ==> r == s
    ensures |r.inFlight| >= |s.inFlight| && r.inFlight[..|s.inFlight|] == s.inFlight
    ensures r.loading ==> s.loading || r.inFlight != s.inFlight
    ensures r.(activeTab := s.activeTab, loading := s.loading, inFlight := s.inFlight) == s
  {
    if t == s.activeTab then s else AutoFetch(s.(activeTab := t))
  }

  /** `handleSearch`: ignored when the box is blank after trimming; otherwise the
      untrimmed text is fetched and the weather tab opened. The state is left as it
      is exactly when the text is all whitespace; only the tab, `loading` and the
      requests in flight can change. */
  function Search(s: State): (r: State)
    ensures r == s <==> Text.AllWhitespace(s.searchCity)
    ensures r.(activeTab := s.activeTab, loading := s.loading, inFlight := s.inFlight) == s
  {
    Text.TrimEmptyIffBlank(s.searchCity);
    if Text.Trim(s.searchCity) == "" then s
    else SetTab(StartWeather(s, s.searchCity), WeatherTab)
  }

  // ---------------------------------------------------------------------------
  // Events and runs.

  datatype Event =
    | SelectTab(widget: Widget)
    | Back
    | EditCity(text: string)
    | EditAmount(text: string)
    | EditFrom(code: string)
    | EditTo(code: string)
    | SubmitSearch
    | NewQuote
    | Convert
    | WeatherArrives(index: nat, weather: Outcome<WeatherReading>)
    | QuoteArrives(index: nat, quotation: Outcome<Quotation>)
    | ConversionArrives(index: nat, conversion: Outcome<Conversion>)

  predicate IsCompletion(e: Event) {
    e.WeatherArrives? || e.QuoteArrives? || e.ConversionArrives?
  }

  /** A completion can only arrive for a request of its widget that is in flight. */
  predicate Enabled(s: State, e: Event) {
    match e
    case WeatherArrives(i, _) => Pending(s, i, Weather)
    case QuoteArrives(i, _) => Pending(s, i, Quote)
    case ConversionArrives(i, _) => Pending(s, i, Currency)
    case _ => true
  }

  function Step(s: State, e: Event): State
    requires Enabled(s, e)
  {
    match e
    case SelectTab(w) => SetTab(s, TabOf(w))
    case Back => SetTab(s, Selector)
    case EditCity(v) => s.(searchCity := v)
    case EditAmount(v) => s.(currencyAmount := v)
    case EditFrom(v) => s.(fromCurrency := v)
    case EditTo(v) => s.(toCurrency := v)
    case SubmitSearch => Search(s)
    case NewQuote => StartQuote(s)
    case Convert => StartConversion(s)
    case WeatherArrives(i, o) => FinishWeather(s, i, o)
    case QuoteArrives(i, o) => FinishQuote(s, i, o)
    case ConversionArrives(i, o) => FinishConversion(s, i, o)
  }

  /** Every event of `evs` can happen in turn from `s`. */
  ghost predicate Admissible(s: State, evs: seq<Event>)
    decreases |evs|
  {
    evs == [] || (Enabled(s, evs[0]) && Admissible(Step(s, evs[0]), evs[1..]))
  }

  ghost function Run(s: State, evs: seq<Event>): State
    requires Admissible(s, evs)
    decreases |evs|
  {
    if evs == [] then s else Run(Step(s, evs[0]), evs[1..])
  }
}
