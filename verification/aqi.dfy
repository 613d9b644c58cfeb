/** Sub-index interpolation and the overall AQI of a reading
    (`calculateAQI` and `calculateOverallAQI` in src/pages/Dashboard.jsx). */
module Aqi {
  import opened Wrappers
  import opened Breakpoints

  /** One key/value pair of the pollutant object the dashboard aggregates. */
  datatype Entry = Entry(pollutant: Pollutant, concentration: real)

  /** The pollutant object, as its keys come out of `Object.keys`; a pollutant
      with no concentration is simply not listed. */
  type Reading = seq<Entry>

  /** Linear interpolation of `c` over row `b` (`calculateAQI`): it hits the
      row's endpoints exactly. */
  function SubIndex(c: real, b: Breakpoint): (r: real)
    requires b.cHigh != b.cLow
    ensures c == b.cLow ==> r == b.iLow
    ensures c == b.cHigh ==> r == b.iHigh
  {
    (b.iHigh - b.iLow) / (b.cHigh - b.cLow) * (c - b.cLow) + b.iLow
  }

  /** The sub-index is the point above `c` on the line through (cLow, iLow) and
      (cHigh, iHigh); since the interval is not degenerate that point is unique. */
  lemma SubIndexOnLine(b: Breakpoint, c: real, r: real)
    requires b.cHigh != b.cLow
    ensures r == SubIndex(c, b) <==> (r - b.iLow) * (b.cHigh - b.cLow) == (b.iHigh - b.iLow) * (c - b.cLow)
  {
    var d := b.cHigh - b.cLow;
    var slope := (b.iHigh - b.iLow) / d;
    var s := SubIndex(c, b);
    assert slope * d == b.iHigh - b.iLow;
    assert s - b.iLow == slope * (c - b.cLow);
    assert (s - b.iLow) * d == (slope * d) * (c - b.cLow);
    if (r - b.iLow) * d == (b.iHigh - b.iLow) * (c - b.cLow) {
      assert (r - s) * d == (r - b.iLow) * d - (s - b.iLow) * d;
      ZeroFactor(r - s, d);
    }
  }

  /** A product with a nonzero factor vanishes only when the other factor does. */
  lemma ZeroFactor(x: real, d: real)
    requires d != 0.0 && x * d == 0.0
    ensures x == 0.0
  {
  }

  /** Within an increasing row the sub-index stays inside the index interval. */
  lemma SubIndexInRange(b: Breakpoint, c: real)
    requires b.cLow < b.cHigh && b.iLow <= b.iHigh
    requires b.cLow <= c <= b.cHigh
    ensures b.iLow <= SubIndex(c, b) <= b.iHigh
  {
    SubIndexMonotone(b, b.cLow, c);
    SubIndexMonotone(b, c, b.cHigh);
  }

  /** Within an increasing row the sub-index is non-decreasing in the concentration. */
  lemma SubIndexMonotone(b: Breakpoint, c1: real, c2: real)
    requires b.cLow < b.cHigh && b.iLow <= b.iHigh
    requires c1 <= c2
    ensures SubIndex(c1, b) <= SubIndex(c2, b)
  {
    var slope := (b.iHigh - b.iLow) / (b.cHigh - b.cLow);
    assert slope >= 0.0;
    assert slope * (c2 - c1) >= 0.0;
    assert SubIndex(c2, b) - SubIndex(c1, b) == slope * (c2 - c1);
  }

  /** `getAQIBreakpoints` followed by `calculateAQI`: the sub-index of one entry,
      or None when its concentration lies in no row of its table. */
  function SubIndexOf(e: Entry): (r: Option<real>)
    ensures r.None? <==> Lookup(e.pollutant, e.concentration).None?
    ensures r.Some? ==> 0.0 <= r.value <= 150.0
    ensures r.Some? ==> exists b :: b in Table(e.pollutant) && Contains(b, e.concentration)
                                   && b.iLow <= r.value <= b.iHigh
    ensures r.Some? ==> exists b :: b in Table(e.pollutant) && Contains(b, e.concentration)
                                   && WellFormedRow(b) && r.value == SubIndex(e.concentration, b)
  {
    match Lookup(e.pollutant, e.concentration)
    case None => None
    case Some(b) =>
      SubIndexInRange(b, e.concentration);
      assert b.iHigh <= 150.0 by {
        var rows := Table(e.pollutant);
        assert rows == [rows[0], rows[1], rows[2]];
      }
      Some(SubIndex(e.concentration, b))
  }

  /** The reference meaning of the overall AQI: the largest of 0 and the
      sub-indices of the matched entries. */
  predicate IsMaxSubIndex(reading: Reading, r: real) {
    && r >= 0.0
    && (forall e :: e in reading && SubIndexOf(e).Some? ==> SubIndexOf(e).value <= r)
    && (r == 0.0 || exists e :: e in reading && SubIndexOf(e) == Some(r))
  }

  /** The `forEach` loop of `calculateOverallAQI`, entry by entry from the left,
      with `highest` the running maximum; unmatched entries leave it unchanged. */
  function Accumulate(highest: real, reading: Reading): (r: real)
    ensures r >= highest
    ensures forall e :: e in reading && SubIndexOf(e).Some? ==> SubIndexOf(e).value <= r
    ensures r == highest || exists e :: e in reading && SubIndexOf(e) == Some(r)
    decreases |reading|
  {
    if |reading| == 0 then highest
    else
      var next :=
        match SubIndexOf(reading[0])
        case None => highest
        case Some(aqi) => if aqi > highest then aqi else highest;
      assert reading == [reading[0]] + reading[1..];
      Accumulate(next, reading[1..])
  }

  /** The overall AQI of a reading: the running maximum started at 0. */
  function OverallAQI(reading: Reading): (r: real)
    ensures IsMaxSubIndex(reading, r)
  {
    Accumulate(0.0, reading)
  }

  /** The reference meaning pins down a single value. */
  lemma MaxSubIndexUnique(reading: Reading, x: real, y: real)
    requires IsMaxSubIndex(reading, x) && IsMaxSubIndex(reading, y)
    ensures x == y
  {
  }

  /** The overall AQI does not depend on the order in which the keys are visited. */
  lemma OrderIndependent(r1: Reading, r2: Reading)
    requires multiset(r1) == multiset(r2)
    ensures OverallAQI(r1) == OverallAQI(r2)
  {
    var x := OverallAQI(r1);
    forall e | e in r2
      ensures e in r1
    {
      assert e in multiset(r2);
    }
    forall e | e in r1
      ensures e in r2
    {
      assert e in multiset(r1);
    }
    assert IsMaxSubIndex(r2, x);
    MaxSubIndexUnique(r2, x, OverallAQI(r2));
  }

  /** The overall AQI always lies within the index range the tables cover. */
  lemma OverallAQIBounds(reading: Reading)
    ensures 0.0 <= OverallAQI(reading) <= 150.0
  {
  }

  /** An empty reading yields 0. */
  lemma EmptyReading()
    ensures OverallAQI([]) == 0.0
  {
  }

  /** One matched entry with every other entry unmatched yields exactly its sub-index. */
  lemma SingleMatched(reading: Reading, e: Entry)
    requires e in reading && SubIndexOf(e).Some?
    requires forall e' :: e' in reading && e' != e ==> SubIndexOf(e').None?
    ensures OverallAQI(reading) == SubIndexOf(e).value
  {
  }

  /** Appending an entry moves the overall AQI to the larger of the old value and
      the new entry's sub-index; an unmatched entry changes nothing and raises no error. */
  lemma AppendEntry(reading: Reading, e: Entry)
    ensures SubIndexOf(e).None? ==> OverallAQI(reading + [e]) == OverallAQI(reading)
    ensures SubIndexOf(e).Some? ==>
      OverallAQI(reading + [e]) ==
        (if SubIndexOf(e).value > OverallAQI(reading) then SubIndexOf(e).value else OverallAQI(reading))
  {
    var prev := OverallAQI(reading);
    var want := match SubIndexOf(e)
      case None => prev
      case Some(v) => if v > prev then v else prev;
    var ext := reading + [e];
    forall x | x in ext
      ensures x in reading || x == e
    {
    }
    assert IsMaxSubIndex(ext, want) by {
      if want != 0.0 && want == prev {
        var w :| w in reading && SubIndexOf(w) == Some(prev);
        assert w in ext;
      }
    }
    MaxSubIndexUnique(ext, want, OverallAQI(ext));
  }

  /** Worked value: pm2.5 at 6 matches the first row and gives 50/12 * 6 = 25. */
  lemma WorkedExamplePM25()
    ensures OverallAQI([Entry(PM25, 6.0)]) == 25.0
  {
  }

  /** Worked value: pm10 at 100 matches the second row and gives 51 + 49/99 * 45 = 7254/99. */
  lemma WorkedExamplePM10()
    ensures OverallAQI([Entry(PM10, 100.0)]) == 7254.0 / 99.0
  {
  }

  /** Readings that fall only into gaps between rows yield 0. */
  lemma WorkedExampleGaps()
    ensures OverallAQI([Entry(PM25, 12.05), Entry(CO, 4.45)]) == 0.0
  {
  }
}
