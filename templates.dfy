/** The strings the dashboard builds by template: the three request URLs and the
    conversion line. Values are spliced in verbatim, without URL encoding; a reader
    of the query of the string handed to `fetch` (`QueryFields`) is the partner the
    templates are proved against. */
module Templates {
  import Text

  const ApiBaseUrl: string := "http://localhost:5000/api"

  /** `${API_BASE_URL}/weather?city=${city}`: the city goes in as typed, unencoded,
      after the fixed weather prefix. */
  function WeatherUrl(city: string): (u: string)
    ensures |u| == |WeatherPrefix| + |city|
    ensures u[..|WeatherPrefix|] == WeatherPrefix && u[|WeatherPrefix|..] == city
  {
    WeatherPrefix + city
  }

  const WeatherPrefix: string := ApiBaseUrl + "/weather?city="

  /** `${API_BASE_URL}/quote/random`: the quote endpoint, with no query string. */
  function QuoteUrl(): (u: string)
    ensures '?' !in u && '#' !in u
  {
    ApiBaseUrl + "/quote/random"
  }

  /** `${API_BASE_URL}/currency/convert?amount=${currencyAmount}&from=${fromCurrency}&to=${toCurrency}`:
      the three values go in as typed, unencoded, each after its field name. */
  function ConvertUrl(amount: string, from: string, to: string): (u: string)
    ensures var n := |ConvertPrefix|; var m := n + |amount| + |"&from="|;
      |u| == m + |from| + |"&to="| + |to|
      && u[..n] == ConvertPrefix && u[n..n + |amount|] == amount
      && u[m..m + |from|] == from && u[|u| - |to|..] == to
  {
    ConvertPrefix + amount + "&from=" + from + "&to=" + to
  }

  const ConvertPrefix: string := ApiBaseUrl + "/currency/convert?amount="

  /** The text of the conversion panel: `{currencyAmount} {fromCurrency} = {result} {toCurrency}`.
      Read back word by word it gives the four values around "=", when none holds a space. */
  function ConversionLine(amount: string, from: string, result: string, to: string): (line: string)
    ensures ' ' !in amount && ' ' !in from && ' ' !in result && ' ' !in to ==>
      Text.Split(line, ' ') == [amount, from, "=", result, to]
  {
    var line := amount + " " + from + " = " + result + " " + to;
    assert line == amount + [' '] + (from + [' '] + ("=" + [' '] + (result + [' '] + to)));
    assert ' ' !in amount && ' ' !in from && ' ' !in result && ' ' !in to ==>
      Text.Split(line, ' ') == [amount, from, "=", result, to] by {
      if ' ' !in amount && ' ' !in from && ' ' !in result && ' ' !in to {
        ConversionWords(amount, from, result, to);
      }
    }
    line
  }

  // ---------------------------------------------------------------------------
  // Reading a URL back, as an application/x-www-form-urlencoded query parser does
  // before percent-decoding: the path ends at the first '?', the query at the first
  // '#', fields are separated by '&' (empty ones skipped) and split at their first '='.

  function Path(url: string): string {
    url[..Text.Find(url, '?')]
  }

  function Query(url: string): string {
    var q := Text.Find(url, '?');
    if q == |url| then "" else
      var rest := url[q + 1..];
      rest[..Text.Find(rest, '#')]
  }

  function Field(part: string): (string, string) {
    var k := Text.Find(part, '=');
    if k == |part| then (part, "") else (part[..k], part[k + 1..])
  }

  function Fields(parts: seq<string>): seq<(string, string)> {
    if parts == [] then []
    else if parts[0] == "" then Fields(parts[1..])
    else [Field(parts[0])] + Fields(parts[1..])
  }

  /** The (name, value) pairs in the query of the string handed to `fetch`, read as it
      stands, before a URL parser strips surrounding spaces or controls from it. */
  function QueryFields(url: string): seq<(string, string)> {
    Fields(Text.Split(Query(url), '&'))
  }

  /** A value that a template can carry through the query unchanged. */
  predicate QuerySafe(v: string) {
    '&' !in v && '#' !in v
  }

  // ---------------------------------------------------------------------------
  // The templates against the reader.

  lemma FieldNamed(name: string, v: string)
    requires '=' !in name && name != ""
    ensures Field(name + "=" + v) == (name, v)
  {
    var p := name + "=" + v;
    assert p == name + (['='] + v);
    Text.FindPast(name, '=', ['='] + v);
    assert p[..|name|] == name;
    assert p[|name| + 1..] == v;
  }

  lemma QueryAfter(path: string, q: string)
    requires '?' !in path
    ensures Path(path + "?" + q) == path
    ensures Query(path + "?" + q) == q[..Text.Find(q, '#')]
  {
    var url := path + "?" + q;
    assert url == path + (['?'] + q);
    Text.FindPast(path, '?', ['?'] + q);
    assert url[..|path|] == path;
    assert url[|path| + 1..] == q;
  }

  lemma NoFragment(q: string)
    requires '#' !in q
    ensures q[..Text.Find(q, '#')] == q
  {
    Text.FindPast(q, '#', []);
    assert q + [] == q;
  }

  lemma BaseHasNoQuery()
    ensures '?' !in ApiBaseUrl + "/weather" && '?' !in ApiBaseUrl + "/currency/convert"
    ensures '?' !in QuoteUrl()
  {
  }

  lemma CityFields(city: string)
    requires QuerySafe(city)
    ensures Fields(Text.Split("city=" + city, '&')) == [("city", city)]
  {
    var rest := "city=" + city;
    Text.SplitNone(rest, '&');
    FieldNamed("city", city);
    assert rest == "city" + "=" + city;
    assert Fields([rest]) == [Field(rest)] + Fields([]);
  }

  /** The weather URL asks for `/weather` and its query holds exactly `city`, verbatim. */
  lemma {:induction false} WeatherUrlRoundTrip(city: string)
    requires QuerySafe(city)
    ensures Path(WeatherUrl(city)) == ApiBaseUrl + "/weather"
    ensures QueryFields(WeatherUrl(city)) == [("city", city)]
  {
    BaseHasNoQuery();
    WeatherUrlShape(city);
    QueryAfter(ApiBaseUrl + "/weather", "city=" + city);
    NoFragment("city=" + city);
    CityFields(city);
  }

  lemma WeatherUrlShape(city: string)
    ensures WeatherUrl(city) == (ApiBaseUrl + "/weather") + "?" + ("city=" + city)
  {
  }

  /** The quote URL asks for `/quote/random` with no query at all. */
  lemma QuoteUrlHasNoQuery()
    ensures Path(QuoteUrl()) == ApiBaseUrl + "/quote/random"
    ensures QueryFields(QuoteUrl()) == []
  {
    BaseHasNoQuery();
    Text.FindPast(QuoteUrl(), '?', []);
    assert QuoteUrl() + [] == QuoteUrl();
    Text.SplitNone("", '&');
  }

  /** The conversion URL asks for `/currency/convert` with `amount`, `from`, `to` in
      that order, each value verbatim. */
  lemma {:induction false} ConvertUrlRoundTrip(amount: string, from: string, to: string)
    requires QuerySafe(amount) && QuerySafe(from) && QuerySafe(to)
    ensures Path(ConvertUrl(amount, from, to)) == ApiBaseUrl + "/currency/convert"
    ensures QueryFields(ConvertUrl(amount, from, to)) == [("amount", amount), ("from", from), ("to", to)]
  {
    ConvertQuery(amount, from, to);
    ConvertFields(amount, from, to);
  }

  lemma ConvertQuery(amount: string, from: string, to: string)
    requires QuerySafe(amount) && QuerySafe(from) && QuerySafe(to)
    ensures Path(ConvertUrl(amount, from, to)) == ApiBaseUrl + "/currency/convert"
    ensures Query(ConvertUrl(amount, from, to))
      == ("amount" + "=" + amount) + ['&'] + (("from" + "=" + from) + ['&'] + ("to" + "=" + to))
  {
    BaseHasNoQuery();
    var rest := ("amount" + "=" + amount) + ['&'] + (("from" + "=" + from) + ['&'] + ("to" + "=" + to));
    ConvertUrlShape(amount, from, to);
    QueryAfter(ApiBaseUrl + "/currency/convert", rest);
    NoFragment(rest);
  }

  lemma ConvertUrlShape(amount: string, from: string, to: string)
    ensures ConvertUrl(amount, from, to)
      == (ApiBaseUrl + "/currency/convert") + "?" + (("amount" + "=" + amount) + ['&'] + (("from" + "=" + from) + ['&'] + ("to" + "=" + to)))
  {
    assert ConvertPrefix == (ApiBaseUrl + "/currency/convert") + "?" + ("amount" + "=");
    assert "&from=" == ['&'] + ("from" + "=") && "&to=" == ['&'] + ("to" + "=");
    JoinFive((ApiBaseUrl + "/currency/convert") + "?", "amount" + "=", amount, "from" + "=", from, "to" + "=", to);
  }

  lemma JoinFive(p: string, a: string, x: string, f: string, y: string, t: string, z: string)
    ensures p + a + x + (['&'] + f) + y + (['&'] + t) + z == p + ((a + x) + ['&'] + ((f + y) + ['&'] + (t + z)))
  {
  }

  lemma ConvertFields(amount: string, from: string, to: string)
    requires QuerySafe(amount) && QuerySafe(from) && QuerySafe(to)
    ensures Fields(Text.Split(("amount" + "=" + amount) + ['&'] + (("from" + "=" + from) + ['&'] + ("to" + "=" + to)), '&'))
      == [("amount", amount), ("from", from), ("to", to)]
  {
    ThreeFields("amount", amount, "from", from, "to", to);
  }

  /** Three `name=value` fields joined by '&' read back as the three pairs. */
  lemma ThreeFields(n1: string, v1: string, n2: string, v2: string, n3: string, v3: string)
    requires n1 != "" && n2 != "" && n3 != ""
    requires '=' !in n1 && '=' !in n2 && '=' !in n3
    requires '&' !in n1 && '&' !in n2 && '&' !in n3
    requires '&' !in v1 && '&' !in v2 && '&' !in v3
    ensures Fields(Text.Split((n1 + "=" + v1) + ['&'] + ((n2 + "=" + v2) + ['&'] + (n3 + "=" + v3)), '&'))
      == [(n1, v1), (n2, v2), (n3, v3)]
  {
    var a, f, t := n1 + "=" + v1, n2 + "=" + v2, n3 + "=" + v3;
    ConvertParts(a, f, t);
    FieldNamed(n1, v1);
    FieldNamed(n2, v2);
    FieldNamed(n3, v3);
    FieldsOfThree(a, f, t);
  }

  lemma ConvertParts(a: string, f: string, t: string)
    requires '&' !in a && '&' !in f && '&' !in t
    ensures Text.Split(a + ['&'] + (f + ['&'] + t), '&') == [a, f, t]
  {
    Text.SplitNone(t, '&');
    Text.SplitAt(f, '&', t);
    Text.SplitAt(a, '&', f + ['&'] + t);
  }

  lemma FieldsOfThree(a: string, f: string, t: string)
    requires a != "" && f != "" && t != ""
    ensures Fields([a, f, t]) == [Field(a), Field(f), Field(t)]
  {
    assert [t][1..] == [];
    assert Fields([t]) == [Field(t)];
    assert [f, t][1..] == [t];
    assert Fields([f, t]) == [Field(f), Field(t)];
    assert [a, f, t][1..] == [f, t];
  }

  /** Because nothing is encoded, a `#` in the city cuts the city short: the server
      sees only what precedes it. */
  lemma {:induction false} WeatherUrlFragmentTruncates(city: string, tail: string)
    requires QuerySafe(city)
    ensures QueryFields(WeatherUrl(city + "#" + tail)) == [("city", city)]
  {
    FragmentQuery(city, tail);
    CityFields(city);
  }

  lemma FragmentQuery(city: string, tail: string)
    requires '#' !in city
    ensures Query(WeatherUrl(city + "#" + tail)) == "city=" + city
  {
    BaseHasNoQuery();
    var q := ("city=" + city) + "#" + tail;
    WeatherUrlShape(city + "#" + tail);
    assert "city=" + (city + "#" + tail) == q;
    QueryAfter(ApiBaseUrl + "/weather", q);
    CutAtHash("city=" + city, tail);
  }

  lemma CutAtHash(rest: string, tail: string)
    requires '#' !in rest
    ensures var q := rest + "#" + tail; q[..Text.Find(q, '#')] == rest
  {
    var q := rest + "#" + tail;
    assert q == rest + (['#'] + tail);
    Text.FindPast(rest, '#', ['#'] + tail);
    assert q[..|rest|] == rest;
  }

  /** Because nothing is encoded, two different conversions can share one URL. */
  lemma ConvertUrlNotInjective()
    ensures ConvertUrl("1&from=INR", "USD", "EUR") == ConvertUrl("1", "INR&from=USD", "EUR")
  {
    assert "1&from=INR" + "&from=" + "USD" == "1" + "&from=" + "INR&from=USD";
    SameFromPart("1&from=INR", "USD", "1", "INR&from=USD", "EUR");
  }

  lemma SameFromPart(a: string, f: string, a2: string, f2: string, t: string)
    requires a + "&from=" + f == a2 + "&from=" + f2
    ensures ConvertUrl(a, f, t) == ConvertUrl(a2, f2, t)
  {
    Regroup(ConvertPrefix, a, "&from=", f);
    Regroup(ConvertPrefix, a2, "&from=", f2);
  }

  lemma Regroup(p: string, a: string, b: string, c: string)
    ensures p + a + b + c == p + (a + b + c)
  {
  }

  lemma ConversionWords(amount: string, from: string, result: string, to: string)
    requires ' ' !in amount && ' ' !in from && ' ' !in result && ' ' !in to
    ensures Text.Split(amount + [' '] + (from + [' '] + ("=" + [' '] + (result + [' '] + to))), ' ')
      == [amount, from, "=", result, to]
  {
    var s3 := "=" + [' '] + (result + [' '] + to);
    LastWords(result, to);
    Text.SplitAt("=", ' ', result + [' '] + to);
    assert Text.Split(s3, ' ') == ["=", result, to];
    FirstWords(amount, from, s3, ["=", result, to]);
  }

  lemma LastWords(result: string, to: string)
    requires ' ' !in result && ' ' !in to
    ensures Text.Split(result + [' '] + to, ' ') == [result, to]
  {
    Text.SplitNone(to, ' ');
    Text.SplitAt(result, ' ', to);
  }

  lemma FirstWords(amount: string, from: string, rest: string, words: seq<string>)
    requires ' ' !in amount && ' ' !in from && Text.Split(rest, ' ') == words
    ensures Text.Split(amount + [' '] + (from + [' '] + rest), ' ') == [amount, from] + words
  {
    Text.SplitAt(from, ' ', rest);
    Text.SplitAt(amount, ' ', from + [' '] + rest);
  }
}
