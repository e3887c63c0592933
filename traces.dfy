/** What runs of the controller do: the invariant every reachable state keeps, and the
    consequence of having no stale-response guard — the last completion to arrive
    decides what is shown, whichever request it answers. */
module Traces {
  import opened Payloads
  import opened Controller
  import Templates
  import Text
  import FetchRules

  lemma {:induction false} RunAppend(s: State, a: seq<Event>, b: seq<Event>)
    requires Admissible(s, a)
    ensures Admissible(s, a + b) <==> Admissible(Run(s, a), b)
    ensures Admissible(s, a + b) ==> Run(s, a + b) == Run(Run(s, a), b)
    decreases |a|
  {
    if a != [] {
      assert (a + b)[0] == a[0];
      assert (a + b)[1..] == a[1..] + b;
      RunAppend(Step(s, a[0]), a[1..], b);
    } else {
      assert a + b == b;
    }
  }

  /** Only completions write a datum or `error`. */
  lemma NonCompletionKeepsData(s: State, e: Event)
    requires Enabled(s, e) && !IsCompletion(e)
    ensures var r := Step(s, e);
      r.weatherData == s.weatherData && r.quote == s.quote
      && r.conversionResult == s.conversionResult && r.error == s.error
      && (r.loading ==> s.loading || r.inFlight != [])
      && (s.inFlight != [] ==> r.inFlight != [])
  {
  }

  lemma StepKeepsInv(s: State, e: Event)
    requires Inv(s) && Enabled(s, e)
    ensures Inv(Step(s, e))
  {
    if !IsCompletion(e) {
      NonCompletionKeepsData(s, e);
    }
  }

  /** Every run from a state that keeps the invariant ends in one that does. */
  lemma {:induction false} RunKeepsInv(s: State, evs: seq<Event>)
    requires Inv(s) && Admissible(s, evs)
    ensures Inv(Run(s, evs))
    decreases |evs|
  {
    if evs != [] {
      StepKeepsInv(s, evs[0]);
      RunKeepsInv(Step(s, evs[0]), evs[1..]);
    }
  }

  /** In every reachable state `loading` implies a request in flight, and `error` is
      empty or one of the three fixed messages. */
  lemma ReachableInv(evs: seq<Event>)
    requires Admissible(Initial(), evs)
    ensures Inv(Run(Initial(), evs))
  {
    RunKeepsInv(Initial(), evs);
  }

  /** Events other than weather completions never touch `weatherData`. */
  lemma {:induction false} OthersKeepWeather(s: State, evs: seq<Event>)
    requires Admissible(s, evs)
    requires forall k :: 0 <= k < |evs| ==> !evs[k].WeatherArrives?
    ensures Run(s, evs).weatherData == s.weatherData
    decreases |evs|
  {
    if evs != [] {
      if !IsCompletion(evs[0]) {
        NonCompletionKeepsData(s, evs[0]);
      }
      OthersKeepWeather(Step(s, evs[0]), evs[1..]);
    }
  }

  /** Events other than completions never touch `error`. */
  lemma {:induction false} OthersKeepError(s: State, evs: seq<Event>)
    requires Admissible(s, evs)
    requires forall k :: 0 <= k < |evs| ==> !IsCompletion(evs[k])
    ensures Run(s, evs).error == s.error
    decreases |evs|
  {
    if evs != [] {
      NonCompletionKeepsData(s, evs[0]);
      OthersKeepError(Step(s, evs[0]), evs[1..]);
    }
  }

  /** No stale guard: the last weather completion decides `weatherData`, whichever
      request it answers and however many newer ones were sent after it. */
  lemma LastWeatherCompletionWins(s: State, pre: seq<Event>, i: nat, o: Outcome<WeatherReading>, post: seq<Event>)
    requires Admissible(s, pre + [WeatherArrives(i, o)] + post)
    requires forall k :: 0 <= k < |post| ==> !post[k].WeatherArrives?
    ensures Run(s, pre + [WeatherArrives(i, o)] + post).weatherData
      == if o.Success? then Some(o.payload) else None
  {
    var e := WeatherArrives(i, o);
    assert pre + [e] + post == pre + ([e] + post);
    AdmissiblePrefix(s, pre, [e] + post);
    RunAppend(s, pre, [e] + post);
    var m := Run(s, pre);
    assert ([e] + post)[0] == e && ([e] + post)[1..] == post;
    OthersKeepWeather(Step(m, e), post);
  }

  /** The shared `error` is decided by the last completion of any widget: empty after a
      success, that widget's fixed message after a failure. */
  lemma LastCompletionDecidesError(s: State, pre: seq<Event>, e: Event, post: seq<Event>)
    requires IsCompletion(e)
    requires Admissible(s, pre + [e] + post)
    requires forall k :: 0 <= k < |post| ==> !IsCompletion(post[k])
    ensures Run(s, pre + [e] + post).error == ErrorAfter(e)
  {
    assert pre + [e] + post == pre + ([e] + post);
    AdmissiblePrefix(s, pre, [e] + post);
    RunAppend(s, pre, [e] + post);
    var m := Run(s, pre);
    assert ([e] + post)[0] == e && ([e] + post)[1..] == post;
    OthersKeepError(Step(m, e), post);
  }

  /** The message a completion leaves in `error`. */
  function ErrorAfter(e: Event): (msg: string)
    requires IsCompletion(e)
    ensures msg in {"", WeatherError, QuoteError, ConversionError}
  {
    match e
    case WeatherArrives(_, o) => if o.Success? then "" else WeatherError
    case QuoteArrives(_, o) => if o.Success? then "" else QuoteError
    case ConversionArrives(_, o) => if o.Success? then "" else ConversionError
  }

  lemma {:induction false} AdmissiblePrefix(s: State, a: seq<Event>, b: seq<Event>)
    requires Admissible(s, a + b)
    ensures Admissible(s, a)
    decreases |a|
  {
    if a != [] {
      assert (a + b)[0] == a[0];
      assert (a + b)[1..] == a[1..] + b;
      AdmissiblePrefix(Step(s, a[0]), a[1..], b);
    }
  }

  // ---------------------------------------------------------------------------
  // A concrete run showing the missing guard.

  const Paris := WeatherReading("Paris", "FR", [], "18", "60", "1012", "3", "10000")
  const London := WeatherReading("London", "GB", [], "14", "80", "1008", "5", "8000")
  const Hyderabad := WeatherReading("Hyderabad", "IN", [], "31", "50", "1006", "2", "6000")

  function ParisReq(): Request { Request(Weather, Templates.WeatherUrl("Paris")) }
  function LondonReq(): Request { Request(Weather, Templates.WeatherUrl("London")) }
  function HyderabadReq(): Request { Request(Weather, Templates.WeatherUrl("Hyderabad")) }

  // The states of the run below, one per event.
  function S1(): State { Initial().(searchCity := "Paris") }
  function S2(): State { S1().(activeTab := WeatherTab, loading := true, inFlight := [ParisReq(), HyderabadReq()]) }
  function S3(): State { S2().(searchCity := "London") }
  function S4(): State { S3().(inFlight := [ParisReq(), HyderabadReq(), LondonReq()]) }
  function S5(): State { S4().(loading := false, inFlight := [ParisReq(), HyderabadReq()], weatherData := Some(London)) }
  function S6(): State { S5().(inFlight := [HyderabadReq()], weatherData := Some(Paris)) }
  function S7(): State { S6().(inFlight := [], weatherData := Some(Hyderabad)) }

  /** Search "Paris" from the selector (which, with nothing cached, also fetches
      Hyderabad), then search "London". If London answers first, then Paris, then
      Hyderabad, the user who last asked for London is shown Hyderabad. */
  lemma StaleResponseOverwrites()
    ensures var evs := [EditCity("Paris"), SubmitSearch, EditCity("London"), SubmitSearch,
                        WeatherArrives(2, Success(London)), WeatherArrives(0, Success(Paris)),
                        WeatherArrives(0, Success(Hyderabad))];
      Admissible(Initial(), evs)
      && Run(Initial(), evs).weatherData == Some(Hyderabad)
      && Run(Initial(), evs).searchCity == "London"
      && Run(Initial(), evs).activeTab == WeatherTab
  {
    var e4, e5, e6 := WeatherArrives(2, Success(London)), WeatherArrives(0, Success(Paris)),
                      WeatherArrives(0, Success(Hyderabad));
    SearchesStep();
    ArrivalsStep();
    RunCons(S6(), e6, []);
    RunCons(S5(), e5, [e6]);
    RunCons(S4(), e4, [e5, e6]);
    RunCons(S3(), SubmitSearch, [e4, e5, e6]);
    RunCons(S2(), EditCity("London"), [SubmitSearch, e4, e5, e6]);
    RunCons(S1(), SubmitSearch, [EditCity("London"), SubmitSearch, e4, e5, e6]);
    RunCons(Initial(), EditCity("Paris"), [SubmitSearch, EditCity("London"), SubmitSearch, e4, e5, e6]);
  }

  lemma SearchesStep()
    ensures Step(Initial(), EditCity("Paris")) == S1()
    ensures Step(S1(), SubmitSearch) == S2()
    ensures Step(S2(), EditCity("London")) == S3()
    ensures Step(S3(), SubmitSearch) == S4()
  {
    FirstSearch(S1());
    SecondSearch(S3());
    StepIsHandler(Initial(), "Paris");
    StepIsHandler(S1(), "");
    StepIsHandler(S2(), "London");
    StepIsHandler(S3(), "");
  }

  lemma StepIsHandler(s: State, v: string)
    ensures Step(s, EditCity(v)) == s.(searchCity := v)
    ensures Step(s, SubmitSearch) == Search(s)
  {
  }

  lemma ArrivalsStep()
    ensures Pending(S4(), 2, Weather) && Step(S4(), WeatherArrives(2, Success(London))) == S5()
    ensures Pending(S5(), 0, Weather) && Step(S5(), WeatherArrives(0, Success(Paris))) == S6()
    ensures Pending(S6(), 0, Weather) && Step(S6(), WeatherArrives(0, Success(Hyderabad))) == S7()
  {
    assert S4().inFlight[..2] + S4().inFlight[3..] == [ParisReq(), HyderabadReq()];
    assert S5().inFlight[..0] + S5().inFlight[1..] == [HyderabadReq()];
    assert S6().inFlight[..0] + S6().inFlight[1..] == [];
  }

  lemma FirstSearch(s1: State)
    requires s1 == Initial().(searchCity := "Paris")
    ensures Search(s1) == s1.(activeTab := WeatherTab, loading := true, inFlight := [ParisReq(), HyderabadReq()])
  {
    assert !Text.IsJsWhitespace("Paris"[0]);
    FetchRules.SearchAlsoFetchesDefault(s1);
    FetchRules.SearchFetchesTypedText(s1);
  }

  lemma SecondSearch(s3: State)
    requires s3.searchCity == "London" && s3.activeTab == WeatherTab && s3.loading
    ensures Search(s3) == s3.(inFlight := s3.inFlight + [LondonReq()])
  {
    assert !Text.IsJsWhitespace("London"[0]);
    FetchRules.SearchFetchesOnce(s3);
    FetchRules.SearchFetchesTypedText(s3);
  }

  lemma RunCons(s: State, e: Event, rest: seq<Event>)
    requires Enabled(s, e) && Admissible(Step(s, e), rest)
    ensures Admissible(s, [e] + rest) && Run(s, [e] + rest) == Run(Step(s, e), rest)
  {
    assert ([e] + rest)[0] == e && ([e] + rest)[1..] == rest;
  }
}
