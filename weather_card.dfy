/** `getWeatherEmoji` of the weather card: the provider's icon code mapped to an emoji.
    The values are written as Unicode code points (an emoji and, for most, the
    variation selector U+FE0F). */
module WeatherCard {

  const ClearDay := "\U{2600}\U{FE0F}"
  const ClearNight := "\U{1F319}"
  const FewCloudsDay := "\U{26C5}"
  const Cloud := "\U{2601}\U{FE0F}"
  const ShowerRain := "\U{1F327}\U{FE0F}"
  const RainDay := "\U{1F326}\U{FE0F}"
  const Thunderstorm := "\U{26C8}\U{FE0F}"
  const Snow := "\U{2744}\U{FE0F}"
  const Mist := "\U{1F32B}\U{FE0F}"
  /** The value for any code the table does not list. */
  const Fallback := "\U{1F324}\U{FE0F}"

  /** The 18 OpenWeather icon codes the card knows. */
  const IconMap: map<string, string> := map[
    "01d" := ClearDay, "01n" := ClearNight,
    "02d" := FewCloudsDay, "02n" := Cloud,
    "03d" := Cloud, "03n" := Cloud,
    "04d" := Cloud, "04n" := Cloud,
    "09d" := ShowerRain, "09n" := ShowerRain,
    "10d" := RainDay, "10n" := ShowerRain,
    "11d" := Thunderstorm, "11n" := Thunderstorm,
    "13d" := Snow, "13n" := Snow,
    "50d" := Mist, "50n" := Mist
  ]

  /** `iconMap[icon] || Fallback`: a missing entry (`undefined`) and an empty one
      (`""`, falsy) both give the fallback. */
  function WeatherEmoji(icon: string): (e: string)
    ensures icon in IconMap ==> e == IconMap[icon]
    ensures icon !in IconMap ==> e == Fallback
    ensures e != ""
  {
    if icon in IconMap && IconMap[icon] != "" then IconMap[icon] else Fallback
  }

  /** The table's entries, code by code; WeatherEmoji returns each of them. */
  lemma TableEntries()
    ensures WeatherEmoji("01d") == ClearDay && WeatherEmoji("01n") == ClearNight
    ensures WeatherEmoji("02d") == FewCloudsDay && WeatherEmoji("10d") == RainDay
    ensures WeatherEmoji("09d") == WeatherEmoji("10n") == ShowerRain
    ensures WeatherEmoji("11d") == Thunderstorm && WeatherEmoji("13d") == Snow && WeatherEmoji("50d") == Mist
    ensures WeatherEmoji("") == Fallback && WeatherEmoji("01") == Fallback && WeatherEmoji("01D") == Fallback
  {
  }

  /** Few clouds at night, scattered and broken clouds all show the same cloud. */
  lemma CloudCodesAgree()
    ensures WeatherEmoji("02n") == WeatherEmoji("03d") == WeatherEmoji("03n")
            == WeatherEmoji("04d") == WeatherEmoji("04n") == Cloud
  {
  }

  /** Showers, thunderstorms, snow and mist look the same by day and by night. */
  lemma DayNightAgree()
    ensures WeatherEmoji("09d") == WeatherEmoji("09n")
    ensures WeatherEmoji("11d") == WeatherEmoji("11n")
    ensures WeatherEmoji("13d") == WeatherEmoji("13n")
    ensures WeatherEmoji("50d") == WeatherEmoji("50n")
  {
  }

  /** Clear sky and rain are the codes whose day and night values differ. */
  lemma DayNightDiffer()
    ensures WeatherEmoji("01d") != WeatherEmoji("01n")
    ensures WeatherEmoji("10d") != WeatherEmoji("10n")
  {
    assert ClearDay[0] != ClearNight[0];
    assert RainDay[0] != ShowerRain[0];
  }
}
