/** The weather panel's icon choice, made from the provider's icon code
    (e.g. "01d", "10n"). Only the kind of icon matters here, not how it is drawn. */
module Icons {
  import opened Payloads

  datatype IconKind = Sun | CloudRain | Cloud

  /** `code.substring(0, 2)`: the first two characters, or all of a shorter code. */
  function Prefix2(code: string): (p: string)
    ensures |p| == if |code| < 2 then |code| else 2
    ensures p <= code
  {
    if |code| < 2 then code else code[..2]
  }

  /** An absent or empty code is Cloud; a code starting "01" is Sun; one starting
      "09", "10" or "11" is CloudRain; anything else is Cloud. */
  function WeatherIcon(iconCode: Option<string>): (k: IconKind)
    ensures k == Sun <==> iconCode.Some? && |iconCode.value| >= 2 && iconCode.value[..2] == "01"
    ensures k == CloudRain <==>
      iconCode.Some? && |iconCode.value| >= 2 && iconCode.value[..2] in {"09", "10", "11"}
  {
    if iconCode.None? || iconCode.value == "" then Cloud
    else
      var code := Prefix2(iconCode.value);
      if code == "01" then Sun
      else if code in ["09", "10", "11"] then CloudRain
      else Cloud
  }

  /** The day/night suffix and anything after the first two characters do not matter. */
  lemma SuffixIgnored(prefix: string, suffix: string)
    requires |prefix| == 2
    ensures WeatherIcon(Some(prefix + suffix)) == WeatherIcon(Some(prefix))
  {
    assert (prefix + suffix)[..2] == prefix;
    assert prefix[..2] == prefix;
  }

  /** A code shorter than two characters is never recognised. */
  lemma ShortCodeIsCloud(code: string)
    requires |code| < 2
    ensures WeatherIcon(Some(code)) == Cloud
  {
  }

  /** The provider's documented codes, day and night. */
  lemma ProviderCodes()
    ensures WeatherIcon(Some("01d")) == Sun && WeatherIcon(Some("01n")) == Sun
    ensures WeatherIcon(Some("09d")) == CloudRain && WeatherIcon(Some("10n")) == CloudRain
    ensures WeatherIcon(Some("11d")) == CloudRain
    ensures WeatherIcon(Some("02d")) == Cloud && WeatherIcon(Some("03n")) == Cloud
    ensures WeatherIcon(Some("04d")) == Cloud && WeatherIcon(Some("13d")) == Cloud
    ensures WeatherIcon(Some("50n")) == Cloud && WeatherIcon(None) == Cloud
  {
    assert "01d"[..2] == "01" && "01n"[..2] == "01";
    assert "09d"[..2] == "09" && "10n"[..2] == "10" && "11d"[..2] == "11";
    assert "02d"[..2] == "02" && "03n"[..2] == "03" && "04d"[..2] == "04";
    assert "13d"[..2] == "13" && "50n"[..2] == "50";
  }
}
