/** Country-name normalisation before the join (app.py lines 11-12): a value
    replacement on the key column of each join side, written back in place. */
module Normalize {
  import opened Tables

  /** `Series.replace({from: to})` on one cell: `from` becomes `to`, every
      other value passes through. */
  function ReplaceValue(v: string, from: string, to: string): string {
    if v == from then to else v
  }

  /** `worldometer_data['Country/Region'].replace({from: to})`, assigned back
      to the column. */
  function ReplaceCountryRegion(t: seq<CountryStat>, from: string, to: string): (r: seq<CountryStat>)
    ensures |r| == |t|
    ensures forall i :: 0 <= i < |t| && t[i].countryRegion != from ==> r[i] == t[i]
    ensures forall i :: 0 <= i < |t| && t[i].countryRegion == from ==>
              r[i].countryRegion == to && r[i].(countryRegion := from) == t[i]
  {
    seq(|t|, i requires 0 <= i < |t| => t[i].(countryRegion := ReplaceValue(t[i].countryRegion, from, to)))
  }

  /** `employment_data['country'].replace({from: to})`, assigned back to the
      column. */
  function ReplaceCountry(t: seq<Employment>, from: string, to: string): (r: seq<Employment>)
    ensures |r| == |t|
    ensures forall i :: 0 <= i < |t| && t[i].country != from ==> r[i] == t[i]
    ensures forall i :: 0 <= i < |t| && t[i].country == from ==>
              r[i].country == to && r[i].(country := from) == t[i]
  {
    seq(|t|, i requires 0 <= i < |t| => t[i].(country := ReplaceValue(t[i].country, from, to)))
  }

  /** Line 11: the abbreviation "USA" becomes "United States". */
  function NormalizeWorldometer(t: seq<CountryStat>): (r: seq<CountryStat>)
    ensures |r| == |t|
    ensures forall i :: 0 <= i < |r| ==> r[i].countryRegion != "USA"
  {
    ReplaceCountryRegion(t, "USA", "United States")
  }

  /** Line 12 replaces "United States" by itself, so it leaves the table as
      it is. */
  function NormalizeEmployment(t: seq<Employment>): (r: seq<Employment>)
    ensures r == t
  {
    ReplaceCountry(t, "United States", "United States")
  }

  /** A value replaced by a different one no longer occurs in the column; a
      row keeps its name unless it was `from`, and no name other than `to`
      can be produced. */
  lemma ReplaceCountryRegionRemoves(t: seq<CountryStat>, from: string, to: string)
    requires from != to
    ensures forall i :: 0 <= i < |t| ==> ReplaceCountryRegion(t, from, to)[i].countryRegion != from
    ensures forall i :: 0 <= i < |t| ==>
              ReplaceCountryRegion(t, from, to)[i].countryRegion in {to, t[i].countryRegion}
  {
  }

  /** The row-level effect of line 11: exactly the rows named "USA" are
      renamed "United States"; every other cell of every row, and the row
      count, stay as they were. */
  lemma NormalizeWorldometerRows(t: seq<CountryStat>, i: nat)
    requires i < |t|
    ensures |NormalizeWorldometer(t)| == |t|
    ensures NormalizeWorldometer(t)[i].countryRegion ==
              if t[i].countryRegion == "USA" then "United States" else t[i].countryRegion
    ensures NormalizeWorldometer(t)[i].(countryRegion := t[i].countryRegion) == t[i]
  {
  }
}
