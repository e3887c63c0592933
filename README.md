# Dashboard controller — a Dafny model

This project models the controller of a single-page React dashboard
(`src/App.jsx`). The dashboard has three widgets: weather by city, currency
conversion and a random quote. Each widget is backed by one GET endpoint under
`http://localhost:5000/api`. The model covers four parts:

- the `App` component's state and handlers. The class `Dashboard.App` has one field
  per `useState`. Its methods are the handlers `fetchWeatherByCity`,
  `fetchRandomQuote`, `convertCurrency`, `handleSearch`, the tab tiles, the back
  arrow, the form setters and the effect on `[activeTab]`;
- the same state as a value (`Controller.State`). Each handler is a transition on that
  value, and runs of events (`Controller.Step`, `Controller.Run`) build on those
  transitions. Every method of the class is specified by the transition it performs;
- `WeatherIcon`, which picks an icon kind from the provider's icon code;
- the request URLs and the conversion line. These are string templates that splice
  values in verbatim. They are proved against a reader of the query of the string
  handed to `fetch` (`Templates.QueryFields`). The reader works on that string as
  it stands, before a URL parser normalises it.

A fetch handler is split at its `await`. The *start* raises the shared `loading` flag
and puts a `Request` into `inFlight`. The *completion* `Complete…(i, outcome)` takes
request `i` out and writes the outcome, either `Success(payload)` or `Failure`. So the
network is an input, and completions may arrive in any order.

The code behaves as follows, and the model does the same:

- There is no stale-response guard. The last completion to arrive decides the datum
  and `error` (`Traces.LastWeatherCompletionWins`, `Traces.LastCompletionDecidesError`).
- There is one `loading` flag. Any completion clears it while other requests are
  still in flight (`FetchRules.CompletionClearsSharedLoading`, `View.SharedFlagBlanksQuoteTab`).
- There is one `error`. A failed quote shows its message on the weather tab
  (`View.QuoteErrorOnWeatherTab`).
- A search from another tab, with no reading cached, requests the searched city and then
  the effect's "Hyderabad" (`FetchRules.SearchAlsoFetchesDefault`). If Hyderabad
  answers last, the user sees Hyderabad (`Traces.StaleResponseOverwrites`).
- The currency amount goes into the URL as typed, without validation (`FetchRules.AmountSentUnchecked`).

## Model

| member | source | states |
|---|---|---|
| `Text.Trim` | src/App.jsx:241 | `searchCity.trim()` with ECMAScript's whitespace set: the result is a slice of the input that neither starts nor ends with whitespace, and everything cut off on either side is whitespace |
| `Text.TrimEmptyIffBlank` | src/App.jsx:241 | the trimmed text is empty (falsy) exactly when the input is all whitespace |
| `Templates.WeatherUrl` | src/App.jsx:193 | the weather URL is the fixed prefix `…/api/weather?city=` followed by the city exactly as given, unencoded |
| `Templates.QuoteUrl` | src/App.jsx:209 | the quote URL holds no `?` and no `#`: there is no query string |
| `Templates.ConvertUrl` | src/App.jsx:225-227 | the conversion URL is the fixed prefix `…/api/currency/convert?amount=`, then the amount, `from` and `to` values exactly as given, unencoded, in that order |
| `Templates.ConversionLine` | src/App.jsx:144 | the conversion line splits at spaces into amount, from, "=", result, to when no value holds a space |
| `Templates.WeatherUrlRoundTrip` | src/App.jsx:193 | the weather URL has path `/api/weather`, and its query reads back as exactly `[("city", city)]` when the city holds no `&` or `#` |
| `Templates.QuoteUrlHasNoQuery` | src/App.jsx:209 | the quote URL has path `/api/quote/random` and carries no query fields |
| `Templates.ConvertUrlRoundTrip` | src/App.jsx:225-227 | the conversion URL has path `/api/currency/convert`, and its query reads back as `amount`, `from`, `to` in that order, each value verbatim |
| `Templates.WeatherUrlFragmentTruncates` | src/App.jsx:193 | with no encoding, a `#` in the city cuts what the server reads to the text before it |
| `Templates.ConvertUrlNotInjective` | src/App.jsx:226 | with no encoding, two different conversions can produce the same URL |
| `Icons.Prefix2` | src/App.jsx:55 | `substring(0, 2)`: a prefix of the code, two characters long or the whole of a shorter code |
| `Icons.WeatherIcon` | src/App.jsx:53-61 | Sun exactly when the code is present and starts with "01"; CloudRain exactly when it starts with "09", "10" or "11"; Cloud otherwise, including an absent or empty code |
| `Icons.SuffixIgnored` | src/App.jsx:55-59 | only the first two characters decide the icon |
| `Icons.ShortCodeIsCloud` | src/App.jsx:55-60 | a code shorter than two characters is Cloud |
| `Icons.ProviderCodes` | src/App.jsx:53-61 | the provider's day and night codes map to the expected kinds |
| `Payloads.IconCode` | src/App.jsx:331 | `weather?.[0]?.icon` is present exactly when the array is non-empty and its first entry has an icon, and it is then that entry's icon |
| `Dashboard.App.constructor` | src/App.jsx:174-183 | the initial state: no tab, no data, form "100"/"INR"/"USD", not loading, no error, empty search, nothing in flight |
| `Dashboard.App.FetchWeatherByCity` | src/App.jsx:190-193 | raises `loading` and sends the weather request for the city |
| `Dashboard.App.CompleteWeather` | src/App.jsx:194-203 | the weather completion step: the reading and "" on success, no reading and the weather message on failure, and `loading` down |
| `Dashboard.App.FetchRandomQuote` | src/App.jsx:206-209 | raises `loading` and sends the quote request; keeps the invariant |
| `Dashboard.App.CompleteQuote` | src/App.jsx:210-219 | the quote completion step |
| `Dashboard.App.ConvertCurrency` | src/App.jsx:222-227 | raises `loading` and sends the conversion request built from the current form |
| `Dashboard.App.CompleteConversion` | src/App.jsx:228-237 | the conversion completion step |
| `Dashboard.App.SetActiveTab` | src/App.jsx:185-188 | sets the tab, and only when it changed runs the effect's two cache checks |
| `Dashboard.App.SelectTab` | src/App.jsx:281 | a selector tile: the tab-change step, keeping the invariant |
| `Dashboard.App.Back` | src/App.jsx:306 | the back arrow: the tab-change step to the selector, keeping the invariant |
| `Dashboard.App.HandleSearch` | src/App.jsx:240-245 | the search step: nothing when the trimmed text is empty, otherwise the fetch for the untrimmed text followed by the weather tab |
| `Dashboard.App.SetSearchCity` | src/App.jsx:27 | typing in the search box only changes `searchCity` |
| `Dashboard.App.SetCurrencyAmount` | src/App.jsx:107 | typing the amount only changes `currencyAmount` |
| `Dashboard.App.SetFromCurrency` | src/App.jsx:115 | picking the source currency only changes `fromCurrency` |
| `Dashboard.App.SetToCurrency` | src/App.jsx:125 | picking the target currency only changes `toCurrency` |
| `Controller.StartWeather` | src/App.jsx:190-193 | `fetchWeatherByCity` up to its `await`: `loading` goes up and exactly the weather request for the city joins those in flight; nothing else changes |
| `Controller.StartQuote` | src/App.jsx:206-209 | `fetchRandomQuote` up to its `await`: `loading` up, exactly the quote request added, nothing else changes |
| `Controller.StartConversion` | src/App.jsx:222-227 | `convertCurrency` up to its `await`: `loading` up, exactly the request built from the current form added, nothing else changes |
| `Controller.FinishWeather` | src/App.jsx:194-203 | success: the reading replaces `weatherData` and `error` becomes ""; failure: `weatherData` becomes null and `error` "Unable to fetch weather data"; request `i` leaves and `loading` is false either way; nothing else changes |
| `Controller.FinishQuote` | src/App.jsx:210-219 | the same for the quote, with "Unable to fetch quote" |
| `Controller.FinishConversion` | src/App.jsx:228-237 | the same for the conversion, with "Conversion failed" |
| `Controller.AutoFetch` | src/App.jsx:185-188 | the effect starts a fetch exactly when the tab is weather with no reading or quote with no quote; earlier requests stay first; `loading` rises only if something started; no other field changes |
| `Controller.SetTab` | src/App.jsx:185-188 | the tab becomes `t`; setting the current tab again changes nothing; requests are only added; every datum, form field and `error` is kept |
| `Controller.Search` | src/App.jsx:240-245 | `handleSearch` leaves the state unchanged exactly when the search text is all whitespace; otherwise only the tab, `loading` and the requests in flight change |
| `FetchRules.SettleRemovesOne` | src/App.jsx:201-202 | a completion removes exactly its own request from those in flight |
| `FetchRules.CompletionClearsSharedLoading` | src/App.jsx:181-237 | any completion lowers the single `loading` flag while other requests remain in flight |
| `FetchRules.AutoFetchIff` | src/App.jsx:185-188 | a tab change starts a fetch exactly when the tab changes to weather with no reading, or to quote with no quote |
| `FetchRules.OpenWeatherUncached` | src/App.jsx:186 | opening weather with no reading starts exactly one fetch, for "Hyderabad" |
| `FetchRules.OpenQuoteUncached` | src/App.jsx:187 | opening quote with no quote starts exactly one quote fetch |
| `FetchRules.OpenWithoutFetch` | src/App.jsx:185-188 | the currency tab, the selector, an unchanged tab and a tab with cached data only change `activeTab` |
| `FetchRules.BackKeepsCache` | src/App.jsx:306 | back sets the tab to "" and keeps every datum, form field and request |
| `FetchRules.EditsStartNothing` | src/App.jsx:107-125 | editing the search box or a form field starts no request and changes no datum |
| `FetchRules.SearchFetchesTypedText` | src/App.jsx:240-244 | any other search opens the weather tab, and its first request is built from the untrimmed text; no datum changes |
| `FetchRules.SearchAlsoFetchesDefault` | src/App.jsx:240-244 | a search from another tab with no reading cached sends two requests, the typed city and then "Hyderabad" |
| `FetchRules.SearchFetchesOnce` | src/App.jsx:240-244 | a search on the weather tab, or with a reading cached, sends exactly one request |
| `FetchRules.AmountSentUnchecked` | src/App.jsx:222-227 | an amount of "-5" is sent as is and changes no datum |
| `Traces.NonCompletionKeepsData` | src/App.jsx:185-245 | only completions write a datum or `error` |
| `Traces.StepKeepsInv` | src/App.jsx:181-238 | every step keeps the invariant: `loading` implies a request in flight, and `error` is "" or one of the three messages |
| `Traces.RunKeepsInv` | src/App.jsx:181-238 | every run keeps the invariant |
| `Traces.ReachableInv` | src/App.jsx:173-245 | every state reachable from the initial state satisfies the invariant |
| `Traces.LastWeatherCompletionWins` | src/App.jsx:196-200 | after any run, `weatherData` is what the last weather completion wrote, whichever request it answered |
| `Traces.LastCompletionDecidesError` | src/App.jsx:196-233 | after any run, `error` is what the last completion of any widget wrote |
| `Traces.ErrorAfter` | src/App.jsx:196-233 | a completion leaves "" or one of the three fixed messages |
| `Traces.StaleResponseOverwrites` | src/App.jsx:240-244 | after searching Paris and then London, answers arriving London, Paris, Hyderabad leave the reading for Hyderabad |
| `View.Render` | src/App.jsx:272-375 | the selector shows exactly when no tab is active and the section exactly when one is; the spinner shows exactly while `loading`, and then with no content and no error |
| `View.QuoteText` | src/App.jsx:156 | `quote?.quote \|\| "Loading..."`: never empty; the quote's text when it has one, otherwise "Loading..." |
| `View.PanelFor` | src/App.jsx:328-375 | a panel shows exactly on the currency tab, on the weather tab with a reading, or on the quote tab with a quote; each panel carries the fields of its tab: the reading and the icon its code selects, the form and the conversion line, the quote text and author |
| `View.IdleShowsError` | src/App.jsx:321-325 | once idle, an active tab shows any non-empty `error`, whichever widget set it |
| `View.ConversionLineFromForm` | src/App.jsx:142-146 | the line uses the current form's amount and currencies and the response's `result`; the response's own amount and currencies never show |
| `View.EditedAmountKeepsOldResult` | src/App.jsx:144 | editing the amount after a conversion changes the line at once, with the old result |
| `View.ConversionShown` | src/App.jsx:142-146 | a successful conversion on the currency tab shows its line and no error |
| `View.DefaultConversionExample` | src/App.jsx:176-178 | with the default form and a result of 1.2, the line reads "100 INR = 1.2 USD" |
| `View.SharedFlagBlanksQuoteTab` | src/App.jsx:313-375 | after a weather answer lowers the shared flag, the quote tab shows neither spinner nor quote while its request is still in flight |
| `View.QuoteErrorOnWeatherTab` | src/App.jsx:321-331 | a failed quote followed by back and weather shows "Unable to fetch quote" beside the cached reading |

## Left out

- Markup, Tailwind classes, framer-motion animation and the lucide icon components are rendering only. The two Cloud icons (lines 54 and 60) differ only in styling (colour and a drop shadow) and are one `IconKind`.
- `fetch`, `res.ok` and `res.json()` are replaced by an `Outcome`: any failure is `Failure`. A body that parses to a falsy value such as `null` is not modelled. Every payload is treated as a present object.
- React scheduling is not modelled: update batching, render timing and StrictMode's double effects. The effect runs right after the tab changes, and each start and each completion is one discrete event.
- Numbers in payloads are kept as the text JavaScript prints for them. `Math.round(temp)`, `(visibility / 1000).toFixed(1)` and the `WeatherStats` cards are not modelled.
- `new Date().toLocaleDateString(...)` depends on the clock and the locale, so it is not modelled.
- Whether a control is on screen is not modelled. The selector tiles exist only with no active tab. Convert and New Quote exist only when their panel is shown. Go is disabled while loading. The handlers can be called in any state, which covers every order the UI allows.
- The query reader partnering the URL templates stops before percent-decoding and `+` decoding. The round trips are about the raw field values.
- A non-string `icon` value in the weather body is not modelled; the icon code is an optional string.
- Request tokens, a stale-response guard, per-widget loading states and amount validation are not modelled because `src/App.jsx` has none of them.
- The URL parser that `fetch` runs is not modelled. It strips leading and trailing C0 controls and spaces from the whole URL and removes TAB, LF and CR anywhere, so a search for "Paris " reaches the server as `city=Paris`. The templates and `Templates.QueryFields` describe the string handed to `fetch`, not what the server receives.
- Icons.Prefix2: strings are sequences of Unicode scalar values, while JavaScript's `substring(0, 2)` counts UTF-16 code units. For a code that starts with a character outside the Basic Multilingual Plane the two prefixes differ ("😀" against "😀1" for "😀1d"). The icon chosen is the same, because neither prefix can equal one of the ASCII codes "01", "09", "10" or "11".
