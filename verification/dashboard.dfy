/** What the dashboard widget shows for a reading: the overall AQI fed into
    the category bands, the alert marker and the health-impact message. */
module Dashboard {
  import opened Breakpoints
  import opened Aqi
  import opened Classification

  /** The tables stop at index 150, so a computed AQI is always Good, Moderate
      or Poor and never raises the alert marker; the Unhealthy, Severe and
      Hazardous bands are out of reach. */
  lemma ReachableLevels(reading: Reading)
    ensures Classify(OverallAQI(reading)) in {Good, Moderate, Poor}
    ensures MarkerOf(Classify(OverallAQI(reading))) == Smiley
  {
    OverallAQIBounds(reading);
    LevelsUpTo150(OverallAQI(reading));
  }

  /** Every level the widget can show carries its fixed, non-empty message. */
  lemma WidgetMessage(aqi: real)
    ensures HealthImpact(Label(Classify(aqi))) == Message(Classify(aqi))
    ensures HealthImpact(Label(Classify(aqi))) != ""
  {
  }

  /** An empty reading gives AQI 0, which shows as Good with the Good message. */
  lemma EmptyReadingIsGood()
    ensures Classify(OverallAQI([])) == Good
    ensures HealthImpact(Label(Classify(OverallAQI([])))) == GoodMessage
  {
    EmptyReading();
  }

  /** pm10 at 100 alone gives 7254/99 (about 73.27), shown as Moderate. */
  lemma PM10Example()
    ensures Classify(OverallAQI([Entry(PM10, 100.0)])) == Moderate
  {
  }
}
