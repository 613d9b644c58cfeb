/** The AQI level shown by the dashboard widget: the category bands, the alert
    marker and the health-impact message (`WidgetItem` and `getHealthImpact`
    in src/pages/Dashboard.jsx). */
module Classification {
  import opened Wrappers

  datatype Category = Good | Moderate | Poor | Unhealthy | Severe | Hazardous

  /** The marker placed around the widget's message: an exclamation mark for
      alert levels, a smiley for the others. */
  datatype Marker = Exclamation | Smiley

  /** Severity order of the categories, Good lowest. */
  function Rank(c: Category): nat {
    match c
    case Good => 0
    case Moderate => 1
    case Poor => 2
    case Unhealthy => 3
    case Severe => 4
    case Hazardous => 5
  }

  /** The inclusive band `lo <= aqi <= hi` the widget tests for each category.
      Good has no band of its own: it is whatever no other band catches. */
  predicate InBand(aqi: real, c: Category) {
    match c
    case Hazardous => 401.0 <= aqi <= 500.0
    case Severe => 301.0 <= aqi <= 400.0
    case Unhealthy => 201.0 <= aqi <= 300.0
    case Poor => 101.0 <= aqi <= 200.0
    case Moderate => 51.0 <= aqi <= 100.0
    case Good => false
  }

  /** The widget's if/else chain, tried from Hazardous down to Moderate.
      The bands are disjoint, so the category is the one whose band holds the
      value, and Good exactly when no band does. */
  function Classify(aqi: real): (r: Category)
    ensures forall c :: c != Good ==> (r == c <==> InBand(aqi, c))
    ensures r == Good <==> forall c :: !InBand(aqi, c)
  {
    if InBand(aqi, Hazardous) then Hazardous
    else if InBand(aqi, Severe) then Severe
    else if InBand(aqi, Unhealthy) then Unhealthy
    else if InBand(aqi, Poor) then Poor
    else if InBand(aqi, Moderate) then Moderate
    else Good
  }

  /** No value lies in two bands, so the order of the tests does not matter. */
  lemma BandsDisjoint(aqi: real, c1: Category, c2: Category)
    requires InBand(aqi, c1) && InBand(aqi, c2)
    ensures c1 == c2
  {
  }

  /** Good is the catch-all: below 51, above 500, and the open fractional gaps
      just above 100, 200, 300 and 400 all classify as Good. */
  lemma ClassifyGoodIff(aqi: real)
    ensures Classify(aqi) == Good <==>
      || aqi < 51.0
      || (100.0 < aqi < 101.0)
      || (200.0 < aqi < 201.0)
      || (300.0 < aqi < 301.0)
      || (400.0 < aqi < 401.0)
      || aqi > 500.0
  {
  }

  /** Concrete boundary values, compared exactly as written with `>=` and `<=`. */
  lemma ClassifyBoundaryExamples()
    ensures Classify(50.5) == Good
    ensures Classify(100.5) == Good
    ensures Classify(200.5) == Good
    ensures Classify(400.5) == Good
    ensures Classify(-1.0) == Good
    ensures Classify(501.0) == Good
    ensures Classify(51.0) == Moderate && Classify(100.0) == Moderate
    ensures Classify(101.0) == Poor && Classify(200.0) == Poor
    ensures Classify(201.0) == Unhealthy && Classify(300.0) == Unhealthy
    ensures Classify(301.0) == Severe
    ensures Classify(400.0) == Severe && Classify(401.0) == Hazardous
    ensures Classify(500.0) == Hazardous
  {
  }

  /** Within each band the category is the same, so classifying any value of
      the band that an AQI fell into gives back that AQI's category. */
  lemma ClassifyStableOnBand(aqi: real, other: real)
    requires Classify(aqi) != Good && InBand(other, Classify(aqi))
    ensures Classify(other) == Classify(aqi)
  {
  }

  /** The emoji choice of the widget: the alert marker for Hazardous and Severe only. */
  function MarkerOf(c: Category): (m: Marker)
    ensures m == Exclamation <==> Rank(c) >= Rank(Severe)
  {
    if c == Hazardous || c == Severe then Exclamation else Smiley
  }

  /** The alert marker is shown exactly for AQI values in 301-400 or 401-500. */
  lemma AlertIff(aqi: real)
    ensures MarkerOf(Classify(aqi)) == Exclamation <==>
      (301.0 <= aqi <= 400.0) || (401.0 <= aqi <= 500.0)
  {
  }

  /** Values up to 150 classify no higher than Poor and never raise the alert marker. */
  lemma LevelsUpTo150(aqi: real)
    requires aqi <= 150.0
    ensures Classify(aqi) in {Good, Moderate, Poor}
    ensures MarkerOf(Classify(aqi)) == Smiley
  {
  }

  /** The level text the widget assigns and shows for a category; the six texts
      are distinct, so the text identifies the category. */
  function Label(c: Category): (s: string)
    ensures |s| > 0
    ensures s == "Hazardous" || s == "Severe" <==> Rank(c) >= Rank(Severe)
  {
    match c
    case Good => "Good"
    case Moderate => "Moderate"
    case Poor => "Poor"
    case Unhealthy => "Unhealthy"
    case Severe => "Severe"
    case Hazardous => "Hazardous"
  }

  /** The cases of the `switch` in `getHealthImpact`: the category whose label
      equals `s`, or None when `s` is none of the six labels. */
  function ParseLabel(s: string): (r: Option<Category>)
    ensures r.Some? ==> Label(r.value) == s
    ensures r.None? <==> forall c :: Label(c) != s
  {
    if s == "Hazardous" then Some(Hazardous)
    else if s == "Severe" then Some(Severe)
    else if s == "Unhealthy" then Some(Unhealthy)
    else if s == "Poor" then Some(Poor)
    else if s == "Moderate" then Some(Moderate)
    else if s == "Good" then Some(Good)
    else None
  }

  /** Labels are distinct, so parsing a category's label gives back the category. */
  lemma LabelRoundTrip(c: Category)
    ensures ParseLabel(Label(c)) == Some(c)
  {
  }

  /** The fixed health-impact messages, one per category. */
  const HazardousMessage: string := "Avoid outdoor activities and stay indoors."
  const SevereMessage: string := "Limit outdoor activities, especially if you have respiratory issues."
  const UnhealthyMessage: string := "Sensitive individuals may experience health effects; everyone should limit prolonged outdoor exertion."
  const PoorMessage: string := "Some individuals may experience health effects; sensitive groups may experience more serious effects."
  const ModerateMessage: string := "Air quality is acceptable; however, there may be some health concern for a small number of people who are unusually sensitive to air pollution."
  const GoodMessage: string := "Air quality is satisfactory, and air pollution poses little or no risk."

  /** The message `getHealthImpact` returns for a category; never empty. */
  function Message(c: Category): (m: string)
    ensures |m| > 0
  {
    match c
    case Hazardous => HazardousMessage
    case Severe => SevereMessage
    case Unhealthy => UnhealthyMessage
    case Poor => PoorMessage
    case Moderate => ModerateMessage
    case Good => GoodMessage
  }

  /** `getHealthImpact`: the message of the category a label names, and the
      empty string for any other text. */
  function HealthImpact(level: string): (msg: string)
    ensures forall c :: level == Label(c) ==> msg == Message(c)
    ensures (forall c :: level != Label(c)) ==> msg == ""
    ensures msg != "" <==> exists c :: level == Label(c)
  {
    match ParseLabel(level)
    case Some(c) =>
      assert forall c' :: level == Label(c') ==> c' == c by {
        forall c' | level == Label(c')
          ensures c' == c
        {
          LabelRoundTrip(c');
        }
      }
      Message(c)
    case None => ""
  }
}
