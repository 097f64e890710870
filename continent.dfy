/** The continent column of merged_data (app.py lines 20-26 and 43): a
    fixed five-entry lookup on the normalised country name, NaN on a miss. */
module Continent {
  import opened Tables
  import Normalize
  import Join

  const ContinentMapping: map<string, string> := map[
    "USA" := "North America",
    "Brazil" := "South America",
    "India" := "Asia",
    "Russia" := "Europe",
    "South Africa" := "Africa"
  ]

  /** `Series.map(continent_mapping)` on one cell. */
  function ContinentOf(name: string): Option<string> {
    if name in ContinentMapping then Some(ContinentMapping[name]) else None
  }

  /** Line 43: the continent column, computed from Country/Region and added
      to every row; no other cell changes. */
  function WithContinent(t: seq<MergedRow>): (r: seq<MergedRow>)
    ensures |r| == |t|
    ensures forall i :: 0 <= i < |t| ==>
              r[i].continent == Present(ContinentOf(t[i].stat.countryRegion)) &&
              r[i].(continent := t[i].continent) == t[i]
  {
    seq(|t|, i requires 0 <= i < |t| => t[i].(continent := Present(ContinentOf(t[i].stat.countryRegion))))
  }

  /** The lookup hits exactly the five names of the mapping, and only "USA"
      gives "North America". */
  lemma ContinentOfCases(name: string)
    ensures ContinentOf(name).Some? <==> name in {"USA", "Brazil", "India", "Russia", "South Africa"}
    ensures ContinentOf(name) == Some("North America") <==> name == "USA"
    ensures name == "Brazil" ==> ContinentOf(name) == Some("South America")
  {
  }

  /** Line 11 has replaced every "USA" before line 43 looks names up, so no
      merged row is labelled "North America", and the United States row gets
      NaN: the mapping's "USA" entry can never be used. */
  lemma NoRowIsNorthAmerica(w: seq<CountryStat>, e: seq<Employment>)
    ensures var t := WithContinent(Join.InnerJoin(Normalize.NormalizeWorldometer(w), Normalize.NormalizeEmployment(e)));
            forall k :: 0 <= k < |t| ==>
              && t[k].continent != Present(Some("North America"))
              && (t[k].stat.countryRegion == "United States" ==> t[k].continent == Present(None))
  {
    var l := Normalize.NormalizeWorldometer(w);
    var m := Join.InnerJoin(l, Normalize.NormalizeEmployment(e));
    var t := WithContinent(m);
    forall k | 0 <= k < |t|
      ensures t[k].continent != Present(Some("North America"))
    {
      assert Join.JoinedFrom(m[k], l, Normalize.NormalizeEmployment(e));
      var i :| 0 <= i < |l| && l[i] == m[k].stat;
      ContinentOfCases(m[k].stat.countryRegion);
    }
  }
}
