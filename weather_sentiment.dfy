/**
 * The weather-and-sentiment tools, written the same way in the tool
 * overview and in the custom-tools example: a weather report for two known
 * cities, matched without regard to case, and a keyword-based sentiment
 * guess. Confidence values are floating-point constants and are kept as
 * tags.
 */
module WeatherSentiment {
  import opened Values
  import Text

  const LondonReport := "The current weather in London is cloudy with a temperature of 18 degrees Celsius and a chance of rain."
  const ParisReport := "The weather in Paris is sunny with a temperature of 25 degrees Celsius."
  const UnknownHead := "Weather information for '"
  const UnknownTail := "' is not available."

  /** An empty report or error message stands for the omitted JSON field. */
  datatype WeatherReport = WeatherReport(status: string, report: string, errorMessage: string)

  /** getWeatherReport */
  function GetWeatherReport(city: string): WeatherReport {
    var key := Text.ToLower(city);
    if key == "london" then WeatherReport("success", LondonReport, "")
    else if key == "paris" then WeatherReport("success", ParisReport, "")
    else WeatherReport("error", "", UnknownHead + city + UnknownTail)
  }

  /**
   * Exactly London and Paris, in any case, are known; any other city is an
   * error whose message names the city as it was given.
   */
  lemma WeatherKnownCities(city: string)
    ensures GetWeatherReport(city).status == "success" <==> Text.ToLower(city) in {"london", "paris"}
    ensures Text.ToLower(city) == "london" ==> GetWeatherReport(city).report == LondonReport
    ensures Text.ToLower(city) == "paris" ==> GetWeatherReport(city).report == ParisReport
    ensures GetWeatherReport(city).status == "error" ==>
              var m := GetWeatherReport(city).errorMessage;
              && GetWeatherReport(city).report == ""
              && |m| == |UnknownHead| + |city| + |UnknownTail|
              && m[|UnknownHead|..|m| - |UnknownTail|] == city
  {
    if GetWeatherReport(city).status == "error" {
      var m := GetWeatherReport(city).errorMessage;
      assert m == UnknownHead + city + UnknownTail;
      assert m[|UnknownHead|..|m| - |UnknownTail|] == city;
    }
  }

  /** Spellings of a city that differ only in case get the same status and report. */
  lemma WeatherIgnoresCase(city: string)
    ensures GetWeatherReport(Text.ToUpper(city)).status == GetWeatherReport(city).status
    ensures GetWeatherReport(Text.ToUpper(city)).report == GetWeatherReport(city).report
  {
    Text.LowerOfUpper(city);
  }

  datatype Sentiment = Sentiment(sentiment: string, confidence: Value)

  predicate Mentions(text: string, word: string) {
    Text.Contains(Text.ToLower(text), word)
  }

  predicate SoundsPositive(text: string) {
    Mentions(text, "good") || Mentions(text, "sunny")
  }

  predicate SoundsNegative(text: string) {
    Mentions(text, "rain") || Mentions(text, "bad")
  }

  /** analyzeSentiment */
  function AnalyzeSentiment(text: string): Sentiment {
    if SoundsPositive(text) then Sentiment("positive", Float("0.8"))
    else if SoundsNegative(text) then Sentiment("negative", Float("0.7"))
    else Sentiment("neutral", Float("0.6"))
  }

  /**
   * Positive keywords win over negative ones; negative needs a negative
   * keyword and no positive one; text with neither is neutral.
   */
  lemma SentimentByKeywords(text: string)
    ensures AnalyzeSentiment(text).sentiment == "positive" <==> SoundsPositive(text)
    ensures AnalyzeSentiment(text).sentiment == "negative" <==> !SoundsPositive(text) && SoundsNegative(text)
    ensures AnalyzeSentiment(text).sentiment == "neutral" <==> !SoundsPositive(text) && !SoundsNegative(text)
  {
  }

  /** Keyword matching ignores case. */
  lemma SentimentIgnoresCase(text: string)
    ensures AnalyzeSentiment(Text.ToUpper(text)) == AnalyzeSentiment(text)
  {
    Text.LowerOfUpper(text);
  }
}
