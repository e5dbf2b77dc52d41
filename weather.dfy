/** The dashboard's weather rules (script.js): the playing-conditions class of
    the current reading, the alert list and the one match recommendation per
    class. Temperatures (degrees Celsius) and wind speeds (metres per second)
    are whole numbers here. */
module Weather {

  /** The fields of `weatherData` the rules read: `main.temp`, `wind.speed`
      and `weather[0].main`. */
  datatype Reading = Reading(temp: int, wind: int, condition: string)

  /** `getWeatherImpact`'s `class`: weather-poor, weather-fair or weather-good. */
  datatype Impact = Poor | Fair | Good

  predicate Precipitation(r: Reading) {
    r.condition == "Rain" || r.condition == "Snow"
  }

  predicate Uncomfortable(r: Reading) {
    r.temp < 5 || r.temp > 35 || r.wind > 10
  }

  /** `getWeatherImpact`: rain, snow or a wind above 15 is poor; otherwise a
      temperature outside 5..35 or a wind above 10 is fair; otherwise good. */
  function ImpactOf(r: Reading): (i: Impact)
    ensures i == Poor <==> Precipitation(r) || r.wind > 15
    ensures i == Fair <==> !Precipitation(r) && r.wind <= 15 && Uncomfortable(r)
    ensures i == Good <==> !Precipitation(r) && 5 <= r.temp <= 35 && r.wind <= 10
  {
    if Precipitation(r) || r.wind > 15 then Poor
    else if Uncomfortable(r) then Fair
    else Good
  }

  /** How good an impact is: poor < fair < good. */
  function Rank(i: Impact): nat {
    match i
    case Poor => 0
    case Fair => 1
    case Good => 2
  }

  /** More wind never makes conditions better. */
  lemma MoreWindNeverBetter(r: Reading, stronger: int)
    requires stronger >= r.wind
    ensures Rank(ImpactOf(Reading(r.temp, stronger, r.condition))) <= Rank(ImpactOf(r))
  {
  }

  /** Rain or snow is poor whatever the temperature and the wind. */
  lemma PrecipitationAlwaysPoor(r: Reading)
    requires Precipitation(r)
    ensures ImpactOf(r) == Poor
    ensures forall t: int, w: int :: ImpactOf(Reading(t, w, r.condition)) == Poor
  {
  }

  /** One entry of `updateWeatherAlerts`'s list. */
  datatype Alert = HighWind | RainDelay | AllClear

  /** `updateWeatherAlerts`: a high-wind warning above 15, a rain warning for
      rain, and the all-clear only when neither applies. */
  function Alerts(r: Reading): (a: seq<Alert>)
    ensures 1 <= |a| <= 2
    ensures HighWind in a <==> r.wind > 15
    ensures RainDelay in a <==> r.condition == "Rain"
    ensures AllClear in a <==> a == [AllClear]
    ensures AllClear in a <==> r.wind <= 15 && r.condition != "Rain"
  {
    var wind := if r.wind > 15 then [HighWind] else [];
    var rain := if r.condition == "Rain" then [RainDelay] else [];
    if wind + rain == [] then [AllClear] else wind + rain
  }

  /** Every warning goes with a poor impact, and a fair or good impact always
      comes with the all-clear. */
  lemma WarningsMeanPoor(r: Reading)
    ensures (HighWind in Alerts(r) || RainDelay in Alerts(r)) ==> ImpactOf(r) == Poor
    ensures ImpactOf(r) != Poor ==> Alerts(r) == [AllClear]
  {
  }

  /** The two widgets disagree on snow: calm snow is poor for play, yet the
      alert list gives the all-clear. */
  lemma SnowIsPoorButAllClear(r: Reading)
    requires r.condition == "Snow" && r.wind <= 15
    ensures ImpactOf(r) == Poor
    ensures Alerts(r) == [AllClear]
  {
  }

  /** One card of `generateMatchRecommendations`. */
  datatype Recommendation = Recommendation(message: string, venue: string)

  /** The single recommendation for each impact class. */
  function RecommendationFor(i: Impact): (rec: Recommendation)
    ensures rec.message != "" && rec.venue != ""
  {
    match i
    case Good => Recommendation("Perfect day for outdoor cricket matches", "All outdoor venues available")
    case Fair => Recommendation("Consider covered venues or shorter formats", "Semi-covered stadiums recommended")
    case Poor => Recommendation("Indoor venues strongly recommended", "Move to indoor facilities")
  }

  /** Different classes get different recommendations, so the card tells the
      class apart. */
  lemma RecommendationsDistinct(i: Impact, j: Impact)
    requires i != j
    ensures RecommendationFor(i) != RecommendationFor(j)
  {
    assert |RecommendationFor(i).message| != |RecommendationFor(j).message|;
  }

  /** The recommendation the dashboard shows for a reading. */
  function RecommendationOf(r: Reading): (rec: Recommendation)
    ensures Precipitation(r) ==> rec == RecommendationFor(Poor)
    ensures rec == RecommendationFor(Good) <==> ImpactOf(r) == Good
    ensures rec == RecommendationFor(Fair) <==> ImpactOf(r) == Fair
    ensures rec == RecommendationFor(Poor) <==> ImpactOf(r) == Poor
  {
    var i := ImpactOf(r);
    assert forall j :: RecommendationFor(i) == RecommendationFor(j) <==> i == j by {
      forall j | i != j
        ensures RecommendationFor(i) != RecommendationFor(j)
      {
        RecommendationsDistinct(i, j);
      }
    }
    RecommendationFor(i)
  }
}
