/** The values the dashboard receives from its three endpoints, and the shape of a
    settled request. Numbers in the JSON bodies are kept as the text JavaScript would
    print for them: the controller never computes with them. */
module Payloads {

  datatype Option<+T> = None | Some(value: T)

  /** How a `fetch` settles as seen by a handler: a parsed body, or any of the
      failures the handler's `catch` swallows (network error, non-2xx status, bad JSON). */
  datatype Outcome<+T> = Success(payload: T) | Failure

  /** One entry of the weather body's `weather` array. */
  datatype Condition = Condition(icon: Option<string>, description: string)

  /** Body of `GET /weather?city=…`. */
  datatype WeatherReading = WeatherReading(
    name: string,
    country: string,
    conditions: seq<Condition>,
    temp: string,
    humidity: string,
    pressure: string,
    windSpeed: string,
    visibility: string)

  /** Body of `GET /quote/random`. */
  datatype Quotation = Quotation(quote: string, author: string)

  /** Body of `GET /currency/convert?…`. */
  datatype Conversion = Conversion(amount: string, from: string, to: string, result: string, rate: string)

  /** `weatherData.weather?.[0]?.icon`: absent when the array is empty or the field is missing. */
  function IconCode(w: WeatherReading): (code: Option<string>)
    ensures code.Some? <==> |w.conditions| > 0 && w.conditions[0].icon.Some?
    ensures code.Some? ==> code == w.conditions[0].icon
  {
    if |w.conditions| > 0 then w.conditions[0].icon else None
  }
}
