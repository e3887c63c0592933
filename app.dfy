/** The `App` component as an object: its `useState` slots are fields, each handler a
    method that updates them step by step as the setters do. A fetch handler is split
    at its `await`: the method named after it runs up to the dispatch, and the matching
    `Complete…` method runs the `try`/`catch`/`finally` once the network answers.
    Every method is specified by the controller step it performs. */
module Dashboard {
  import opened Payloads
  import opened Controller
  import Text
  import Templates
  import Traces

  class App {
    var activeTab: Tab
    var weatherData: Option<WeatherReading>
    var currencyAmount: string
    var fromCurrency: string
    var toCurrency: string
    var conversionResult: Option<Conversion>
    var quote: Option<Quotation>
    var loading: bool
    var error: string
    var searchCity: string
    /** Requests dispatched and not yet settled (held by the JavaScript runtime). */
    var inFlight: seq<Request>

    function Snapshot(): State
      reads this
    {
      State(activeTab, weatherData, currencyAmount, fromCurrency, toCurrency,
            conversionResult, quote, loading, error, searchCity, inFlight)
    }

    ghost predicate Valid()
      reads this
    {
      Inv(Snapshot())
    }

    /** The initial `useState` values. */
    constructor ()
      ensures Valid() && Snapshot() == Initial()
    {
      activeTab := Selector;
      weatherData := None;
      currencyAmount := "100";
      fromCurrency := "INR";
      toCurrency := "USD";
      conversionResult := None;
      quote := None;
      loading := false;
      error := "";
      searchCity := "";
      inFlight := [];
    }

    // -------------------------------------------------------------------------
    // Fetch handlers, up to the `await`.

    method FetchWeatherByCity(city: string)
      requires Valid()
      modifies this
      ensures Valid() && Snapshot() == StartWeather(old(Snapshot()), city)
    {
      loading := true;
      inFlight := inFlight + [Request(Weather, Templates.WeatherUrl(city))];
    }

    /** Called by the "New Quote" button and by the effect. */
    method FetchRandomQuote()
      requires Valid()
      modifies this
      ensures Valid() && Snapshot() == Step(old(Snapshot()), NewQuote)
    {
      loading := true;
      inFlight := inFlight + [Request(Quote, Templates.QuoteUrl())];
    }

    method ConvertCurrency()
      requires Valid()
      modifies this
      ensures Valid() && Snapshot() == Step(old(Snapshot()), Convert)
    {
      loading := true;
      var url := Templates.ConvertUrl(currencyAmount, fromCurrency, toCurrency);
      inFlight := inFlight + [Request(Currency, url)];
    }

    // -------------------------------------------------------------------------
    // Fetch handlers, after the `await`: request `i` of `inFlight` settles.

    method CompleteWeather(i: nat, outcome: Outcome<WeatherReading>)
      requires Valid() && Pending(Snapshot(), i, Weather)
      modifies this
      ensures Valid() && Snapshot() == Step(old(Snapshot()), WeatherArrives(i, outcome))
    {
      match outcome {
        case Success(data) =>
          weatherData := Some(data);
          error := "";
        case Failure =>
          error := WeatherError;
          weatherData := None;
      }
      loading := false;
      inFlight := inFlight[..i] + inFlight[i + 1..];
    }

    method CompleteQuote(i: nat, outcome: Outcome<Quotation>)
      requires Valid() && Pending(Snapshot(), i, Quote)
      modifies this
      ensures Valid() && Snapshot() == Step(old(Snapshot()), QuoteArrives(i, outcome))
    {
      match outcome {
        case Success(data) =>
          quote := Some(data);
          error := "";
        case Failure =>
          error := QuoteError;
          quote := None;
      }
      loading := false;
      inFlight := inFlight[..i] + inFlight[i + 1..];
    }

    method CompleteConversion(i: nat, outcome: Outcome<Conversion>)
      requires Valid() && Pending(Snapshot(), i, Currency)
      modifies this
      ensures Valid() && Snapshot() == Step(old(Snapshot()), ConversionArrives(i, outcome))
    {
      match outcome {
        case Success(data) =>
          conversionResult := Some(data);
          error := "";
        case Failure =>
          error := ConversionError;
          conversionResult := None;
      }
      loading := false;
      inFlight := inFlight[..i] + inFlight[i + 1..];
    }

    // -------------------------------------------------------------------------
    // Tabs and the effect on `[activeTab]`.

    /** `setActiveTab(t)` followed, when the value changed, by the effect. */
    method SetActiveTab(t: Tab)
      requires Valid()
      modifies this
      ensures Valid() && Snapshot() == SetTab(old(Snapshot()), t)
    {
      if t != activeTab {
        activeTab := t;
        if activeTab == WeatherTab && weatherData.None? {
          FetchWeatherByCity(DefaultCity);
        }
        if activeTab == QuoteTab && quote.None? {
          FetchRandomQuote();
        }
      }
    }

    /** A tile of the tab selector. */
    method SelectTab(w: Widget)
      requires Valid()
      modifies this
      ensures Valid() && Snapshot() == Step(old(Snapshot()), Event.SelectTab(w))
    {
      SetActiveTab(TabOf(w));
      Traces.StepKeepsInv(old(Snapshot()), Event.SelectTab(w));
    }

    /** The back arrow. */
    method Back()
      requires Valid()
      modifies this
      ensures Valid() && Snapshot() == Step(old(Snapshot()), Event.Back)
    {
      SetActiveTab(Selector);
      Traces.StepKeepsInv(old(Snapshot()), Event.Back);
    }

    // -------------------------------------------------------------------------
    // The search bar and the currency form.

    method HandleSearch()
      requires Valid()
      modifies this
      ensures Valid() && Snapshot() == Step(old(Snapshot()), SubmitSearch)
    {
      if Text.Trim(searchCity) != "" {
        FetchWeatherByCity(searchCity);
        SetActiveTab(WeatherTab);
      }
      Traces.StepKeepsInv(old(Snapshot()), SubmitSearch);
    }

    method SetSearchCity(text: string)
      requires Valid()
      modifies this
      ensures Valid() && Snapshot() == Step(old(Snapshot()), EditCity(text))
    {
      searchCity := text;
    }

    method SetCurrencyAmount(text: string)
      requires Valid()
      modifies this
      ensures Valid() && Snapshot() == Step(old(Snapshot()), EditAmount(text))
    {
      currencyAmount := text;
    }

    method SetFromCurrency(code: string)
      requires Valid()
      modifies this
      ensures Valid() && Snapshot() == Step(old(Snapshot()), EditFrom(code))
    {
      fromCurrency := code;
    }

    method SetToCurrency(code: string)
      requires Valid()
      modifies this
      ensures Valid() && Snapshot() == Step(old(Snapshot()), EditTo(code))
    {
      toCurrency := code;
    }
  }
}
