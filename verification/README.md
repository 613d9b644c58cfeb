# AQI computation of the air-quality dashboard

A Dafny model of the Air Quality Index logic in the dashboard page
`src/pages/Dashboard.jsx`:

- **Breakpoint table** (`Breakpoints.Table`): for each of the six pollutants
  (pm25, pm10, no2, so2, co, o3) three rows mapping a closed concentration
  interval `[cLow, cHigh]` onto an index interval `[iLow, iHigh]`.
- **Lookup** (`Breakpoints.Find`, `Breakpoints.Lookup`): `Array.prototype.find`
  over a pollutant's rows, returning the first row whose closed interval holds
  the concentration, or nothing.
- **Interpolation** (`Aqi.SubIndex`) and **aggregation** (`Aqi.Accumulate`,
  `Aqi.OverallAQI`): the linear sub-index of a matched row, and the running
  maximum over the pollutant object, started at 0, with unmatched pollutants
  skipped.
- **Classification** (`Classification.Classify`, `MarkerOf`, `HealthImpact`):
  the widget's `>=`/`<=` bands, the exclamation/smiley marker and the
  health-impact message of each level.

Concentrations and indices are Dafny `real`, so all arithmetic is exact. The
pollutant object is a sequence of `(pollutant, concentration)` entries in the
order `Object.keys` visits them; a pollutant without a value is not listed.
The module `Dashboard` ties the parts together. One consequence is
`Dashboard.ReachableLevels`: every table stops at index 150, so a computed AQI
only ever shows as Good, Moderate or Poor, and the alert marker never appears.

The band tests are modelled exactly as the code writes them, with `>=` on
the lower and `<=` on the upper bound. Fractional values between bands, such
as 50.5, 100.5, 200.5, 300.5 and 400.5, pass none of the tests and fall
through to Good (`Classification.ClassifyGoodIff`,
`Classification.ClassifyBoundaryExamples`).

## Model

| member | source | states |
|---|---|---|
| Breakpoints.Table | src/pages/Dashboard.jsx:40-77 | every pollutant has exactly three rows, each with `cLow < cHigh` and `iLow < iHigh`, strictly ascending with a gap before the next row, starting at concentration 0, with index ranges 0-50, 51-100, 101-150 |
| Breakpoints.Find | src/pages/Dashboard.jsx:80-82 | `find` with the closed-interval test: a returned position holds the concentration and no earlier row does; nothing is returned exactly when no row holds it |
| Breakpoints.Lookup | src/pages/Dashboard.jsx:39-85 | a returned row belongs to the pollutant's table, holds the concentration and is well formed; no row is returned exactly when no row of the table holds the concentration |
| Breakpoints.LookupIsOnlyMatch | src/pages/Dashboard.jsx:41-84 | since rows are disjoint, lookup returns row `b` if and only if `b` is in the table and holds the concentration |
| Breakpoints.LookupNoneIff | src/pages/Dashboard.jsx:41-84 | lookup finds nothing exactly for a negative reading, a reading above the third row, or one strictly inside a gap between rows |
| Breakpoints.LookupGapExamples | src/pages/Dashboard.jsx:41-84 | pm25 at 12.05, co at 4.45, pm10 at 54.5, o3 at -1 and no2 at 360.5 match nothing; pm25 at 12 and 12.1 match the first and second rows |
| Aqi.SubIndex | src/pages/Dashboard.jsx:30-37 | interpolation at `cLow` gives exactly `iLow` and at `cHigh` exactly `iHigh` |
| Aqi.SubIndexOnLine | src/pages/Dashboard.jsx:30-37 | a value is the sub-index if and only if it is the point above the concentration on the line through `(cLow, iLow)` and `(cHigh, iHigh)` |
| Aqi.SubIndexInRange | src/pages/Dashboard.jsx:30-37 | for an increasing row and a concentration inside it, the sub-index lies in `[iLow, iHigh]` |
| Aqi.SubIndexMonotone | src/pages/Dashboard.jsx:30-37 | for an increasing row the sub-index is non-decreasing in the concentration |
| Aqi.SubIndexOf | src/pages/Dashboard.jsx:92-96 | an entry has a sub-index exactly when lookup matches; the value is the linear interpolation of the concentration on the table row that holds it, and lies within that row's index range and within 0-150 |
| Aqi.Accumulate | src/pages/Dashboard.jsx:88-101 | the running maximum is at least its start value and every matched sub-index, and equals the start value or one of those sub-indices |
| Aqi.OverallAQI | src/pages/Dashboard.jsx:87-104 | the overall AQI is the largest of 0 and the sub-indices of the matched entries |
| Aqi.MaxSubIndexUnique | src/pages/Dashboard.jsx:87-104 | that characterisation determines a single value |
| Aqi.OrderIndependent | src/pages/Dashboard.jsx:91-101 | any reordering of the entries gives the same overall AQI |
| Aqi.OverallAQIBounds | src/pages/Dashboard.jsx:87-104 | the overall AQI always lies in `[0, 150]` |
| Aqi.EmptyReading | src/pages/Dashboard.jsx:88-103 | an empty reading gives 0 |
| Aqi.SingleMatched | src/pages/Dashboard.jsx:87-104 | one matched entry with all others unmatched gives exactly its sub-index |
| Aqi.AppendEntry | src/pages/Dashboard.jsx:95-100 | a further entry raises the overall AQI to its sub-index if that is larger; an unmatched entry changes nothing |
| Aqi.WorkedExamplePM25 | src/pages/Dashboard.jsx:30-104 | pm25 at 6 alone gives 25 |
| Aqi.WorkedExamplePM10 | src/pages/Dashboard.jsx:30-104 | pm10 at 100 alone gives 7254/99, about 73.27 |
| Aqi.WorkedExampleGaps | src/pages/Dashboard.jsx:80-104 | readings that fall only into gaps give 0 |
| Classification.Classify | src/pages/Dashboard.jsx:321-339 | a non-Good category is chosen exactly when the value lies in its inclusive band; Good exactly when no band holds the value |
| Classification.BandsDisjoint | src/pages/Dashboard.jsx:321-339 | no value lies in two bands, so the category is unique and the order of the tests does not matter |
| Classification.ClassifyGoodIff | src/pages/Dashboard.jsx:321-339 | Good exactly for values below 51, above 500, or strictly between 100 and 101, 200 and 201, 300 and 301, 400 and 401 |
| Classification.ClassifyBoundaryExamples | src/pages/Dashboard.jsx:321-339 | 50.5, 100.5, 200.5, 400.5, -1 and 501 are Good; every band's two end values get that band's category |
| Classification.ClassifyStableOnBand | src/pages/Dashboard.jsx:321-339 | any value in the band of an already classified AQI gets the same category again |
| Classification.MarkerOf | src/pages/Dashboard.jsx:341-346 | the alert marker is chosen exactly for the two most severe categories |
| Classification.AlertIff | src/pages/Dashboard.jsx:321-346 | the alert marker shows exactly for AQI values in 301-400 or 401-500 |
| Classification.LevelsUpTo150 | src/pages/Dashboard.jsx:321-346 | values up to 150 classify as Good, Moderate or Poor and never get the alert marker |
| Classification.Label | src/pages/Dashboard.jsx:321-346 | each category's level text is non-empty, and the text equals "Hazardous" or "Severe" (the test of line 342) exactly for the two most severe categories; with `LabelRoundTrip` the six texts are distinct |
| Classification.ParseLabel | src/pages/Dashboard.jsx:386-400 | a recognised text is the label of the returned category; nothing is returned exactly when the text is none of the six labels |
| Classification.LabelRoundTrip | src/pages/Dashboard.jsx:386-398 | parsing a category's label gives back that category |
| Classification.Message | src/pages/Dashboard.jsx:387-398 | each category's fixed health-impact message, word for word as the switch returns it, is non-empty |
| Classification.HealthImpact | src/pages/Dashboard.jsx:385-402 | a category's label gets that category's fixed message, any other text gets `""`, and the message is non-empty exactly for the six labels |
| Dashboard.ReachableLevels | src/pages/Dashboard.jsx:41-76 | a computed AQI classifies only as Good, Moderate or Poor and never shows the alert marker |
| Dashboard.WidgetMessage | src/pages/Dashboard.jsx:376-377 | the widget's health-impact line is the fixed non-empty message of the shown level |
| Dashboard.EmptyReadingIsGood | src/pages/Dashboard.jsx:87-104 | an empty reading gives 0, shown as Good with the Good message |
| Dashboard.PM10Example | src/pages/Dashboard.jsx:48-49 | pm10 at 100 alone is shown as Moderate |

## Left out

- React rendering and state: hooks, the loading flag, charts, progress bars, the sidebar and `AqiLevel` are display code with no computation.
- `fetchAqiData`: the HTTP request, the toast notifications, the `|| 0` defaults and the fallback to the last city are network plumbing; the model starts from a reading already in hand.
- Floating point: JavaScript numbers are doubles; the model uses exact `real` and says nothing about rounding.
- `toFixed(2)` and string coercion: the widget receives the AQI as a two-decimal string (or `"N/A"`, which compares false everywhere and so shows as Good). The model classifies the exact value; a value such as 100.004, which rounds to `"100.00"`, is Moderate in the page but Good in the model.
- Non-numeric concentrations (`undefined` or a string from the API) are not modelled; every listed concentration is a real number.
- Unrecognised pollutant keys, for which `find` would throw, cannot occur: the pollutant is an enumerated type.
- Display colours of the categories are not modelled; only the category and the alert split are.
- Aqi.SubIndex: requires `cHigh != cLow`, which every table row meets; the code would divide by zero otherwise, and that case is not modelled.
