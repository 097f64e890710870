/** The data preparation of app.py as it runs when the module is imported
    (lines 7-45): the module-level tables are the fields of a DataContext,
    and each statement that rewrites one of them is a method. Prepare runs
    them in the order of the file; the lemmas state what the finished tables
    satisfy. */
module Pipeline {
  import opened Tables
  import Normalize
  import Join
  import Continent
  import Frames
  import Monthly
  import Options
  import Sorting

  /** The rows of the joined table with their continent, before the sort
      (merged_data after line 43). */
  function ContinentJoin(w: seq<CountryStat>, e: seq<Employment>): seq<MergedRow> {
    Continent.WithContinent(Join.InnerJoin(Normalize.NormalizeWorldometer(w), Normalize.NormalizeEmployment(e)))
  }

  /** merged_data after line 45, as a function of the two loaded tables. */
  function EnrichedTable(w: seq<CountryStat>, e: seq<Employment>): seq<MergedRow> {
    Frames.WithFrames(Frames.SortByDeaths(ContinentJoin(w, e)))
  }

  /** The rows with their frame column taken off again. */
  function WithoutFrame(t: seq<MergedRow>): seq<MergedRow> {
    seq(|t|, i requires 0 <= i < |t| => t[i].(frame := Absent))
  }

  /** Every row before line 44 carries no frame and the continent of its name. */
  lemma ContinentJoinRows(w: seq<CountryStat>, e: seq<Employment>)
    ensures var c := ContinentJoin(w, e);
            forall k :: 0 <= k < |c| ==>
              && c[k].frame == Absent
              && c[k].continent == Present(Continent.ContinentOf(c[k].stat.countryRegion))
              && c[k].continent != Present(Some("North America"))
              && c[k].stat in Normalize.NormalizeWorldometer(w) && c[k].emp in e
              && Join.KeysMatch(c[k].stat, c[k].emp)
  {
    var l := Normalize.NormalizeWorldometer(w);
    var j := Join.InnerJoin(l, e);
    var c := ContinentJoin(w, e);
    Continent.NoRowIsNorthAmerica(w, e);
    forall k | 0 <= k < |c|
      ensures c[k].frame == Absent && c[k].stat in l && c[k].emp in e && Join.KeysMatch(c[k].stat, c[k].emp)
    {
      assert Join.JoinedFrom(j[k], l, e);
    }
  }

  /** After line 45 merged_data holds one row per matching pair of the
      normalised tables, is a permutation of the joined rows (frames aside),
      is ordered by TotalDeaths with missing counts last, and carries the
      frame of each row's rank. */
  lemma EnrichedTableIsRankedJoin(w: seq<CountryStat>, e: seq<Employment>)
    ensures var t := EnrichedTable(w, e);
            && |t| == |Join.MatchingPairs(Normalize.NormalizeWorldometer(w), e)|
            && multiset(WithoutFrame(t)) == multiset(ContinentJoin(w, e))
            && Frames.RankedFrames(t)
            && forall i, j :: 0 <= i < j < |t| ==> Frames.DeathsBefore(t[i], t[j])
  {
    var c := ContinentJoin(w, e);
    var s := Frames.SortByDeaths(c);
    var t := Frames.WithFrames(s);
    assert t == EnrichedTable(w, e);
    Join.JoinSize(Normalize.NormalizeWorldometer(w), e);
    assert |s| == |c| by {
      assert |multiset(s)| == |multiset(c)|;
    }
    ContinentJoinRows(w, e);
    forall i | 0 <= i < |s| ensures s[i].frame == Absent {
      assert s[i] in multiset(c);
    }
    assert WithoutFrame(t) == s;
  }

  /** Every row of merged_data after line 45 pairs a normalised left row with
      a right row of equal name, and carries that name's continent, which is
      never "North America". */
  lemma EnrichedTableRows(w: seq<CountryStat>, e: seq<Employment>)
    ensures var t := EnrichedTable(w, e);
            forall k :: 0 <= k < |t| ==>
              && t[k].stat in Normalize.NormalizeWorldometer(w) && t[k].emp in e
              && Join.KeysMatch(t[k].stat, t[k].emp)
              && t[k].continent == Present(Continent.ContinentOf(t[k].stat.countryRegion))
              && t[k].continent != Present(Some("North America"))
  {
    var c := ContinentJoin(w, e);
    var s := Frames.SortByDeaths(c);
    var t := Frames.WithFrames(s);
    assert t == EnrichedTable(w, e);
    ContinentJoinRows(w, e);
    forall k | 0 <= k < |t|
      ensures t[k].stat == s[k].stat && t[k].emp == s[k].emp && t[k].continent == s[k].continent
      ensures s[k] in c
    {
      assert s[k] in multiset(c);
    }
  }

  /** Each row of the joined table reappears, with its employment row, in
      merged_data after line 45. */
  lemma JoinedRowSurvives(w: seq<CountryStat>, e: seq<Employment>, m: nat)
    requires m < |Join.InnerJoin(Normalize.NormalizeWorldometer(w), e)|
    ensures exists k :: 0 <= k < |EnrichedTable(w, e)| &&
              EnrichedTable(w, e)[k].emp == Join.InnerJoin(Normalize.NormalizeWorldometer(w), e)[m].emp
  {
    var jn := Join.InnerJoin(Normalize.NormalizeWorldometer(w), e);
    var c := ContinentJoin(w, e);
    var s := Frames.SortByDeaths(c);
    var t := Frames.WithFrames(s);
    assert t == EnrichedTable(w, e);
    assert c[m].emp == jn[m].emp;
    assert c[m] in multiset(s);
    var k :| 0 <= k < |s| && s[k] == c[m];
    assert t[k].emp == s[k].emp;
  }

  /** The dropdown lists exactly the countries that occur in both normalised
      tables. */
  lemma OptionsAreJoinedCountries(w: seq<CountryStat>, e: seq<Employment>, name: string)
    ensures var l := Normalize.NormalizeWorldometer(w);
            name in Options.DropdownOptions(EnrichedTable(w, e)) <==>
              exists i, j :: 0 <= i < |l| && 0 <= j < |e| && Join.KeysMatch(l[i], e[j]) && e[j].country == name
  {
    var l := Normalize.NormalizeWorldometer(w);
    var t := EnrichedTable(w, e);
    if name in Options.DropdownOptions(t) {
      EnrichedTableRows(w, e);
      var k :| 0 <= k < |t| && t[k].emp.country == name;
      var i :| 0 <= i < |l| && l[i] == t[k].stat;
      var j :| 0 <= j < |e| && e[j] == t[k].emp;
      assert Join.KeysMatch(l[i], e[j]);
    }
    if exists i, j :: 0 <= i < |l| && 0 <= j < |e| && Join.KeysMatch(l[i], e[j]) && e[j].country == name {
      var i, j :| 0 <= i < |l| && 0 <= j < |e| && Join.KeysMatch(l[i], e[j]) && e[j].country == name;
      var jn := Join.InnerJoin(l, e);
      assert Join.Pair(l[i], e[j]) in jn;
      var m :| 0 <= m < |jn| && jn[m] == Join.Pair(l[i], e[j]);
      JoinedRowSurvives(w, e, m);
      var k :| 0 <= k < |t| && t[k].emp == e[j];
      assert t[k].emp.country == name;
    }
  }

  /** The monthly summary holds one row per (location, month) that some
      record falls in, holding the sum of that month's new cases. */
  lemma MonthlyTableIsSummary(c: seq<CovidRow>, location: string, month: Date)
    ensures var s := Monthly.MonthlySummary(Monthly.WithMonthStart(c));
            && ((exists k :: 0 <= k < |s| && s[k].location == location && s[k].monthStart == month) <==>
                (exists i :: 0 <= i < |c| && c[i].location == location && Monthly.MonthStart(c[i].date) == month))
            && forall k :: 0 <= k < |s| ==>
                 s[k].monthlyCases == Monthly.SumFor(Monthly.WithMonthStart(c), (s[k].location, s[k].monthStart))
  {
    var t := Monthly.WithMonthStart(c);
    var s := Monthly.MonthlySummary(t);
    var key := (location, month);
    if exists k :: 0 <= k < |s| && s[k].location == location && s[k].monthStart == month {
      var k :| 0 <= k < |s| && s[k].location == location && s[k].monthStart == month;
      assert s[k] in s;
      assert key in Monthly.SourceKeys(t);
      var i :| 0 <= i < |t| && Monthly.KeyOf(t[i]) == key;
      assert c[i].location == location && Monthly.MonthStart(c[i].date) == month;
    }
    if exists i :: 0 <= i < |c| && c[i].location == location && Monthly.MonthStart(c[i].date) == month {
      var i :| 0 <= i < |c| && c[i].location == location && Monthly.MonthStart(c[i].date) == month;
      assert Monthly.KeyOf(t[i]) == key;
      assert key in Monthly.KeySet(s);
      var row :| row in s && Monthly.RowKey(row) == key;
      var k :| 0 <= k < |s| && s[k] == row;
      assert s[k].location == location && s[k].monthStart == month;
    }
  }

  /** The situation line 11 is written for: the statistics name the United
      States "USA" in one row and have no row called "United States", and the
      employment table has one row called "United States". */
  predicate OneUnitedStates(w: seq<CountryStat>, e: seq<Employment>, a: int, b: int) {
    && 0 <= a < |w| && w[a].countryRegion == "USA"
    && (forall i :: 0 <= i < |w| && i != a ==> w[i].countryRegion != "USA" && w[i].countryRegion != "United States")
    && 0 <= b < |e| && e[b].country == "United States"
    && (forall j :: 0 <= j < |e| && j != b ==> e[j].country != "United States")
  }

  /** In that situation the join pairs the renamed row with the employment
      row exactly once, and every United States row of the join is that pair. */
  lemma UnitedStatesJoinedOnce(w: seq<CountryStat>, e: seq<Employment>, a: int, b: int)
    requires OneUnitedStates(w, e, a, b)
    ensures var l := Normalize.NormalizeWorldometer(w);
            var jn := Join.InnerJoin(l, Normalize.NormalizeEmployment(e));
            var p := Join.Pair(l[a], e[b]);
            && l[a].countryRegion == "United States"
            && multiset(jn)[p] == 1
            && forall m :: 0 <= m < |jn| && jn[m].emp.country == "United States" ==> jn[m] == p
  {
    var l := Normalize.NormalizeWorldometer(w);
    assert Normalize.NormalizeEmployment(e) == e;
    var jn := Join.InnerJoin(l, e);
    var p := Join.Pair(l[a], e[b]);
    assert forall i :: 0 <= i < |l| ==> (l[i].countryRegion == "United States" <==> i == a) by {
      forall i | 0 <= i < |l| ensures l[i].countryRegion == "United States" <==> i == a {
        Normalize.NormalizeWorldometerRows(w, i);
      }
    }
    forall i, j | 0 <= i < |l| && 0 <= j < |e| && Join.KeysMatch(l[i], e[j]) && Join.Pair(l[i], e[j]) == p
      ensures (i, j) == (a, b)
    {
      assert e[j].country == "United States";
    }
    assert (a, b) in Join.PairsGiving(l, e, p);
    assert Join.PairsGiving(l, e, p) == {(a, b)};
    Join.JoinCount(l, e, p);
    forall m | 0 <= m < |jn| && jn[m].emp.country == "United States" ensures jn[m] == p {
      assert Join.JoinedFrom(jn[m], l, e);
      var i :| 0 <= i < |l| && l[i] == jn[m].stat;
      var j :| 0 <= j < |e| && e[j] == jn[m].emp;
    }
  }

  /** Before the sort the United States row occurs once, with continent
      NaN, and no other row is a United States row. */
  lemma UnitedStatesLabelledOnce(w: seq<CountryStat>, e: seq<Employment>, a: int, b: int)
    requires OneUnitedStates(w, e, a, b)
    ensures var c := ContinentJoin(w, e);
            var row := MergedRow(Normalize.NormalizeWorldometer(w)[a], e[b], Present(None), Absent);
            && multiset(c)[row] == 1
            && forall m :: 0 <= m < |c| && c[m].emp.country == "United States" ==> c[m] == row
  {
    var l := Normalize.NormalizeWorldometer(w);
    var jn := Join.InnerJoin(l, Normalize.NormalizeEmployment(e));
    var p := Join.Pair(l[a], e[b]);
    var row := MergedRow(l[a], e[b], Present(None), Absent);
    var c := ContinentJoin(w, e);
    UnitedStatesJoinedOnce(w, e, a, b);
    Continent.ContinentOfCases("United States");
    assert p in multiset(jn);
    var m0 :| 0 <= m0 < |jn| && jn[m0] == p;
    forall m | 0 <= m < |c| && c[m].emp.country == "United States" ensures m == m0 && c[m] == row {
      assert jn[m].emp == c[m].emp;
      Sorting.CopiesCounted(jn, m, m0);
    }
    Sorting.OneCopy(c, m0);
  }

  /** Line 11 makes the statistics' "USA" row meet the employment table's
      "United States" row: merged_data then holds exactly one United States
      row, and it pairs those two rows. */
  lemma UnitedStatesMatchedOnce(w: seq<CountryStat>, e: seq<Employment>, a: int, b: int)
    requires OneUnitedStates(w, e, a, b)
    ensures var t := EnrichedTable(w, e);
            exists k :: 0 <= k < |t| && t[k].stat == Normalize.NormalizeWorldometer(w)[a] && t[k].emp == e[b]
    ensures var t := EnrichedTable(w, e);
            forall k1, k2 ::
              (0 <= k1 < |t| && 0 <= k2 < |t| &&
               t[k1].emp.country == "United States" && t[k2].emp.country == "United States") ==> k1 == k2
  {
    var row := MergedRow(Normalize.NormalizeWorldometer(w)[a], e[b], Present(None), Absent);
    var c := ContinentJoin(w, e);
    var s := Frames.SortByDeaths(c);
    var t := Frames.WithFrames(s);
    assert t == EnrichedTable(w, e);
    UnitedStatesLabelledOnce(w, e, a, b);
    assert row in multiset(s);
    var k0 :| 0 <= k0 < |s| && s[k0] == row;
    assert t[k0].stat == row.stat && t[k0].emp == row.emp;
    forall k1, k2 | 0 <= k1 < |t| && 0 <= k2 < |t| &&
      t[k1].emp.country == "United States" && t[k2].emp.country == "United States"
      ensures k1 == k2
    {
      assert s[k1] in multiset(c) && s[k2] in multiset(c);
      Sorting.CopiesCounted(s, k1, k2);
    }
  }

  /** The module-level tables of app.py. merged_data and monthly_data are
      empty until the statements that create them have run. */
  class DataContext {
    var worldometer: seq<CountryStat>
    var employment: seq<Employment>
    var covid: seq<CovidRow>
    var merged: seq<MergedRow>
    var monthly: seq<MonthlyRow>

    /** Lines 7-9: the three tables as read from their files. */
    constructor (w: seq<CountryStat>, e: seq<Employment>, c: seq<CovidRow>)
      ensures worldometer == w && employment == e && covid == c
      ensures merged == [] && monthly == []
    {
      worldometer, employment, covid := w, e, c;
      merged, monthly := [], [];
    }

    /** Lines 11-12: both key columns rewritten in place. */
    method NormalizeCountryNames()
      modifies this
      ensures worldometer == Normalize.NormalizeWorldometer(old(worldometer))
      ensures employment == Normalize.NormalizeEmployment(old(employment)) == old(employment)
      ensures covid == old(covid) && merged == old(merged) && monthly == old(monthly)
    {
      worldometer := Normalize.NormalizeWorldometer(worldometer);
      employment := Normalize.NormalizeEmployment(employment);
    }

    /** Lines 14-18. */
    method MergeTables()
      modifies this
      ensures merged == Join.InnerJoin(worldometer, employment)
      ensures worldometer == old(worldometer) && employment == old(employment)
      ensures covid == old(covid) && monthly == old(monthly)
    {
      merged := Join.InnerJoin(worldometer, employment);
    }

    /** Line 30: the month_start_date column added to covid_data. */
    method AddMonthStart()
      modifies this
      ensures covid == Monthly.WithMonthStart(old(covid)) && Monthly.HasMonthStart(covid)
      ensures worldometer == old(worldometer) && employment == old(employment)
      ensures merged == old(merged) && monthly == old(monthly)
    {
      covid := Monthly.WithMonthStart(covid);
    }

    /** Lines 32-39: monthly_data built from covid_data, which must already
      carry month_start_date. */
    method SummarizeMonths()
      requires Monthly.HasMonthStart(covid)
      modifies this
      ensures covid == old(covid) && monthly == Monthly.MonthlySummary(covid)
      ensures worldometer == old(worldometer) && employment == old(employment)
      ensures merged == old(merged)
    {
      monthly := Monthly.MonthlySummary(covid);
    }

    /** Line 43: the continent column added to merged_data. */
    method AddContinent()
      modifies this
      ensures merged == Continent.WithContinent(old(merged))
      ensures worldometer == old(worldometer) && employment == old(employment)
      ensures covid == old(covid) && monthly == old(monthly)
    {
      merged := Continent.WithContinent(merged);
    }

    /** Line 44: merged_data rebound to its sorted copy. */
    method SortByDeaths()
      modifies this
      ensures merged == Frames.SortByDeaths(old(merged))
      ensures multiset(merged) == multiset(old(merged))
      ensures worldometer == old(worldometer) && employment == old(employment)
      ensures covid == old(covid) && monthly == old(monthly)
    {
      merged := Frames.SortByDeaths(merged);
    }

    /** Line 45: the frame column added to merged_data. */
    method AddFrames()
      modifies this
      ensures merged == Frames.WithFrames(old(merged)) && Frames.RankedFrames(merged)
      ensures worldometer == old(worldometer) && employment == old(employment)
      ensures covid == old(covid) && monthly == old(monthly)
    {
      merged := Frames.WithFrames(merged);
    }
  }

  /** The module-level statements of app.py, lines 7-45, in their order. */
  method Prepare(w: seq<CountryStat>, e: seq<Employment>, c: seq<CovidRow>) returns (d: DataContext)
    ensures fresh(d)
    ensures d.worldometer == Normalize.NormalizeWorldometer(w) && d.employment == e
    ensures d.covid == Monthly.WithMonthStart(c)
    ensures d.merged == EnrichedTable(w, e)
    ensures d.monthly == Monthly.MonthlySummary(Monthly.WithMonthStart(c))
  {
    d := new DataContext(w, e, c);
    d.NormalizeCountryNames();
    d.MergeTables();
    d.AddMonthStart();
    d.SummarizeMonths();
    d.AddContinent();
    d.SortByDeaths();
    d.AddFrames();
  }
}
