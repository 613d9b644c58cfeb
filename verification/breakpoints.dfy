/** The static AQI breakpoint table of the dashboard and the first-match lookup
    over it (`getAQIBreakpoints` in src/pages/Dashboard.jsx). */
module Breakpoints {
  import opened Wrappers

  /** The six pollutant keys of the table: pm25, pm10, no2, so2, co, o3. */
  datatype Pollutant = PM25 | PM10 | NO2 | SO2 | CO | O3

  /** One row of a pollutant's table: the closed concentration interval
      [cLow, cHigh] is mapped linearly onto the index interval [iLow, iHigh]. */
  datatype Breakpoint = Breakpoint(cLow: real, cHigh: real, iLow: real, iHigh: real)

  /** True when the closed interval of `b` holds `c` (the predicate passed to `find`). */
  predicate Contains(b: Breakpoint, c: real) {
    b.cLow <= c && c <= b.cHigh
  }

  /** A row usable for interpolation: non-empty concentration and index intervals
      starting at or above zero. */
  predicate WellFormedRow(b: Breakpoint) {
    0.0 <= b.cLow < b.cHigh && 0.0 <= b.iLow < b.iHigh
  }

  /** Rows strictly ascending in concentration, each ending before the next begins. */
  predicate Ascending(rows: seq<Breakpoint>) {
    forall i, j :: 0 <= i < j < |rows| ==> rows[i].cHigh < rows[j].cLow
  }

  /** The shape every table of the dashboard has: three well-formed ascending rows
      starting at concentration 0 and covering the index ranges 0-50, 51-100, 101-150. */
  predicate TableShape(rows: seq<Breakpoint>) {
    && |rows| == 3
    && (forall i :: 0 <= i < |rows| ==> WellFormedRow(rows[i]))
    && Ascending(rows)
    && rows[0].cLow == 0.0
    && rows[0].iLow == 0.0 && rows[0].iHigh == 50.0
    && rows[1].iLow == 51.0 && rows[1].iHigh == 100.0
    && rows[2].iLow == 101.0 && rows[2].iHigh == 150.0
  }

  /** The breakpoint rows of a pollutant, in the order the dashboard lists them. */
  function Table(p: Pollutant): (rows: seq<Breakpoint>)
    ensures TableShape(rows)
  {
    match p
    case PM25 => [Breakpoint(0.0, 12.0, 0.0, 50.0),
                  Breakpoint(12.1, 35.4, 51.0, 100.0),
                  Breakpoint(35.5, 55.4, 101.0, 150.0)]
    case PM10 => [Breakpoint(0.0, 54.0, 0.0, 50.0),
                  Breakpoint(55.0, 154.0, 51.0, 100.0),
                  Breakpoint(155.0, 254.0, 101.0, 150.0)]
    case NO2 =>  [Breakpoint(0.0, 53.0, 0.0, 50.0),
                  Breakpoint(54.0, 100.0, 51.0, 100.0),
                  Breakpoint(101.0, 360.0, 101.0, 150.0)]
    case SO2 =>  [Breakpoint(0.0, 35.0, 0.0, 50.0),
                  Breakpoint(36.0, 75.0, 51.0, 100.0),
                  Breakpoint(76.0, 185.0, 101.0, 150.0)]
    case CO =>   [Breakpoint(0.0, 4.4, 0.0, 50.0),
                  Breakpoint(4.5, 9.4, 51.0, 100.0),
                  Breakpoint(9.5, 12.4, 101.0, 150.0)]
    case O3 =>   [Breakpoint(0.0, 54.0, 0.0, 50.0),
                  Breakpoint(55.0, 70.0, 51.0, 100.0),
                  Breakpoint(71.0, 85.0, 101.0, 150.0)]
  }

  /** `Array.prototype.find` with the closed-interval predicate: the position of the
      first row containing `c`, or None when no row does. */
  function Find(rows: seq<Breakpoint>, c: real): (r: Option<nat>)
    ensures r.Some? ==> r.value < |rows| && Contains(rows[r.value], c)
    ensures r.Some? ==> forall j :: 0 <= j < r.value ==> !Contains(rows[j], c)
    ensures r.None? <==> forall j :: 0 <= j < |rows| ==> !Contains(rows[j], c)
  {
    if |rows| == 0 then None
    else if Contains(rows[0], c) then Some(0)
    else
      match Find(rows[1..], c)
      case None => None
      case Some(k) => Some(k + 1)
  }

  /** The row of `p`'s table that holds concentration `c`, if any. */
  function Lookup(p: Pollutant, c: real): (r: Option<Breakpoint>)
    ensures r.Some? ==> r.value in Table(p) && Contains(r.value, c) && WellFormedRow(r.value)
    ensures r.None? <==> forall b :: b in Table(p) ==> !Contains(b, c)
  {
    var rows := Table(p);
    match Find(rows, c)
    case None => None
    case Some(k) => Some(rows[k])
  }

  /** Rows of one table are disjoint, so lookup returns the row holding `c`
      whenever there is one: first match and only match coincide. */
  lemma LookupIsOnlyMatch(p: Pollutant, c: real, b: Breakpoint)
    ensures Lookup(p, c) == Some(b) <==> b in Table(p) && Contains(b, c)
  {
  }

  /** Lookup finds nothing exactly when the reading is negative, beyond the third
      row, or strictly inside one of the two gaps between rows. */
  lemma LookupNoneIff(p: Pollutant, c: real)
    ensures var rows := Table(p);
      Lookup(p, c).None? <==>
        || c < 0.0
        || c > rows[2].cHigh
        || (rows[0].cHigh < c < rows[1].cLow)
        || (rows[1].cHigh < c < rows[2].cLow)
  {
  }

  /** Concrete gaps: pm25 at 12.05 lies between 12 and 12.1, and co at 4.45
      between 4.4 and 4.5; neither matches, nor do a negative reading or one
      above the last row. */
  lemma LookupGapExamples()
    ensures Lookup(PM25, 12.05).None?
    ensures Lookup(CO, 4.45).None?
    ensures Lookup(PM10, 54.5).None?
    ensures Lookup(O3, -1.0).None?
    ensures Lookup(NO2, 360.5).None?
    ensures Lookup(PM25, 12.0) == Some(Breakpoint(0.0, 12.0, 0.0, 50.0))
    ensures Lookup(PM25, 12.1) == Some(Breakpoint(12.1, 35.4, 51.0, 100.0))
  {
  }
}
