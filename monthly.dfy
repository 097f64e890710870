/** The monthly case summary (app.py lines 28-39): every record's date is
    truncated to the first day of its month, the records are grouped by
    (location, month) with new_cases summed per group, and the groups are
    sorted by location, then month. The summary's rows have exactly the
    fields location, month_start_date and monthly_cases, so the drop of a
    `date` column at lines 36-37 never applies and is not modelled. */
module Monthly {
  import opened Tables
  import opened Sorting

  /** `dt.to_period('M').dt.to_timestamp()`: the first day of the month. */
  function MonthStart(d: Date): Date {
    Date(d.year, d.month, 1)
  }

  /** Truncation is idempotent, and two dates share a month start exactly
      when they share year and month. */
  lemma MonthStartProperties(a: Date, b: Date)
    ensures MonthStart(MonthStart(a)) == MonthStart(a)
    ensures MonthStart(a) == MonthStart(b) <==> a.year == b.year && a.month == b.month
    ensures MonthStart(a).day == 1
  {
  }

  predicate HasMonthStart(t: seq<CovidRow>) {
    forall i :: 0 <= i < |t| ==> t[i].monthStart.Present?
  }

  /** Line 30: the month_start_date column, computed from `date` and added to
      every record; no other cell changes. */
  function WithMonthStart(t: seq<CovidRow>): (r: seq<CovidRow>)
    ensures |r| == |t| && HasMonthStart(r)
    ensures forall i :: 0 <= i < |t| ==>
              r[i].monthStart == Present(MonthStart(t[i].date)) && r[i].(monthStart := t[i].monthStart) == t[i]
  {
    seq(|t|, i requires 0 <= i < |t| => t[i].(monthStart := Present(MonthStart(t[i].date))))
  }

  /** The group key of a record: (location, month_start_date). The groupby
      needs the month_start_date column to exist. */
  function KeyOf(r: CovidRow): (string, Date)
    requires r.monthStart.Present?
  {
    (r.location, r.monthStart.value)
  }

  function RowKey(g: MonthlyRow): (string, Date) {
    (g.location, g.monthStart)
  }

  /** A record's contribution to the sum: a missing new_cases counts 0. */
  function Cases(r: CovidRow): int {
    if r.newCases.Some? then r.newCases.value else 0
  }

  /** The reference definition of a group's total: new_cases summed over
      exactly the records whose key is `key`. */
  function SumFor(t: seq<CovidRow>, key: (string, Date)): int
    requires HasMonthStart(t)
  {
    if t == [] then 0
    else
      var n := |t| - 1;
      assert HasMonthStart(t[..n]) by { assert forall i :: 0 <= i < n ==> t[..n][i] == t[i]; }
      SumFor(t[..n], key) + (if KeyOf(t[n]) == key then Cases(t[n]) else 0)
  }

  /** The (location, month) pairs that occur in the records. */
  ghost function SourceKeys(t: seq<CovidRow>): set<(string, Date)>
    requires HasMonthStart(t)
  {
    set i | 0 <= i < |t| :: KeyOf(t[i])
  }

  ghost function KeySet(g: seq<MonthlyRow>): set<(string, Date)> {
    set row | row in g :: RowKey(row)
  }

  predicate UniqueKeys(g: seq<MonthlyRow>) {
    forall a, b :: 0 <= a < b < |g| ==> RowKey(g[a]) != RowKey(g[b])
  }

  /** The monthly_cases of the row with `key`, or 0 when there is none. */
  function CasesAt(g: seq<MonthlyRow>, key: (string, Date)): int {
    if g == [] then 0
    else if RowKey(g[0]) == key then g[0].monthlyCases
    else CasesAt(g[1..], key)
  }

  /** One record folded into the partial groups: its group's sum grows by
      `c`, or a new group starts at the end. */
  function AddCase(g: seq<MonthlyRow>, key: (string, Date), c: int): seq<MonthlyRow> {
    if g == [] then [MonthlyRow(key.0, key.1, c)]
    else if RowKey(g[0]) == key then [g[0].(monthlyCases := g[0].monthlyCases + c)] + g[1..]
    else [g[0]] + AddCase(g[1..], key, c)
  }

  /** Folding a record in adds `c` to its own group's sum and to no other. */
  lemma {:induction false} AddCaseSums(g: seq<MonthlyRow>, key: (string, Date), c: int)
    ensures forall k :: CasesAt(AddCase(g, key, c), k) == CasesAt(g, k) + (if k == key then c else 0)
  {
    if g != [] && RowKey(g[0]) != key {
      AddCaseSums(g[1..], key, c);
    }
  }

  lemma KeySetCons(x: MonthlyRow, g: seq<MonthlyRow>)
    ensures KeySet([x] + g) == {RowKey(x)} + KeySet(g)
  {
    assert forall row :: row in [x] + g <==> row == x || row in g;
  }

  /** Folding a record in adds its key to the groups' keys and no other. */
  lemma {:induction false} AddCaseKeys(g: seq<MonthlyRow>, key: (string, Date), c: int)
    ensures KeySet(AddCase(g, key, c)) == KeySet(g) + {key}
  {
    if g == [] {
      assert KeySet([MonthlyRow(key.0, key.1, c)]) == {key} by {
        KeySetCons(MonthlyRow(key.0, key.1, c), []);
      }
    } else {
      KeySetCons(g[0], g[1..]);
      assert g == [g[0]] + g[1..];
      if RowKey(g[0]) == key {
        KeySetCons(g[0].(monthlyCases := g[0].monthlyCases + c), g[1..]);
      } else {
        AddCaseKeys(g[1..], key, c);
        KeySetCons(g[0], AddCase(g[1..], key, c));
      }
    }
  }

  lemma KeySetIndex(g: seq<MonthlyRow>)
    ensures forall b :: 0 <= b < |g| ==> RowKey(g[b]) in KeySet(g)
  {
    assert forall b :: 0 <= b < |g| ==> g[b] in g;
  }

  /** Folding a record in keeps the keys unique. */
  lemma {:induction false} AddCaseUnique(g: seq<MonthlyRow>, key: (string, Date), c: int)
    requires UniqueKeys(g)
    ensures UniqueKeys(AddCase(g, key, c))
  {
    if g != [] && RowKey(g[0]) != key {
      var rest := AddCase(g[1..], key, c);
      AddCaseUnique(g[1..], key, c);
      AddCaseKeys(g[1..], key, c);
      KeySetIndex(rest);
      assert RowKey(g[0]) !in KeySet(g[1..]) by {
        forall row | row in g[1..] ensures RowKey(row) != RowKey(g[0]) {
          var j :| 0 <= j < |g[1..]| && g[1..][j] == row;
          assert g[j + 1] == row;
        }
      }
      assert AddCase(g, key, c) == [g[0]] + rest;
    }
  }

  /** `groupby(['location', 'month_start_date']).agg(monthly_cases=('new_cases', 'sum'))`:
      one row per key that occurs, holding that key's total. */
  function GroupSums(t: seq<CovidRow>): (g: seq<MonthlyRow>)
    requires HasMonthStart(t)
    ensures UniqueKeys(g)
    ensures KeySet(g) == SourceKeys(t)
    ensures forall key :: CasesAt(g, key) == SumFor(t, key)
  {
    if t == [] then []
    else
      var n := |t| - 1;
      assert forall i :: 0 <= i < n ==> t[..n][i] == t[i];
      var g := GroupSums(t[..n]);
      assert SourceKeys(t) == SourceKeys(t[..n]) + {KeyOf(t[n])};
      AddCaseSums(g, KeyOf(t[n]), Cases(t[n]));
      AddCaseKeys(g, KeyOf(t[n]), Cases(t[n]));
      AddCaseUnique(g, KeyOf(t[n]), Cases(t[n]));
      AddCase(g, KeyOf(t[n]), Cases(t[n]))
  }

  lemma {:induction false} CasesAtEntry(g: seq<MonthlyRow>, k: nat)
    requires UniqueKeys(g) && k < |g|
    ensures CasesAt(g, RowKey(g[k])) == g[k].monthlyCases
  {
    if k > 0 {
      assert RowKey(g[0]) != RowKey(g[k]);
      assert g[1..][k - 1] == g[k];
      CasesAtEntry(g[1..], k - 1);
    }
  }

  lemma {:induction false} UniqueCount(g: seq<MonthlyRow>, x: MonthlyRow)
    requires UniqueKeys(g)
    ensures multiset(g)[x] <= 1
  {
    if g != [] {
      var n := |g| - 1;
      assert g == g[..n] + [g[n]];
      UniqueCount(g[..n], x);
      assert forall i :: 0 <= i < n ==> g[..n][i] == g[i];
      assert g[n] !in g[..n];
    }
  }

  /** A permutation of rows with unique keys has unique keys. */
  lemma UniqueKeysPermutation(g: seq<MonthlyRow>, s: seq<MonthlyRow>)
    requires multiset(g) == multiset(s) && UniqueKeys(g)
    ensures UniqueKeys(s)
  {
    forall a, b | 0 <= a < b < |s| ensures RowKey(s[a]) != RowKey(s[b]) {
      assert s[a] in multiset(g) && s[b] in multiset(g);
      if s[a] == s[b] {
        assert s == s[..b] + s[b..];
        assert s[a] in s[..b] && s[b] in s[b..];
        assert multiset(s)[s[a]] == multiset(s[..b])[s[a]] + multiset(s[b..])[s[a]];
        UniqueCount(g, s[a]);
      } else {
        var i :| 0 <= i < |g| && g[i] == s[a];
        var j :| 0 <= j < |g| && g[j] == s[b];
        assert i != j;
      }
    }
  }

  /** The order of `sort_values(['location', 'month_start_date'])`. */
  predicate MonthlyBefore(a: MonthlyRow, b: MonthlyRow) {
    || StrLt(a.location, b.location)
    || (a.location == b.location && DateLe(a.monthStart, b.monthStart))
  }

  lemma MonthlyBeforeIsTotalPreorder()
    ensures IsTotalPreorder(MonthlyBefore)
  {
    forall a: MonthlyRow, b: MonthlyRow ensures MonthlyBefore(a, b) || MonthlyBefore(b, a) {
      StrLeTotal(a.location, b.location);
    }
    forall a: MonthlyRow, b: MonthlyRow, c: MonthlyRow | MonthlyBefore(a, b) && MonthlyBefore(b, c)
      ensures MonthlyBefore(a, c)
    {
      if StrLt(a.location, b.location) && StrLt(b.location, c.location) {
        StrLeTransitive(a.location, b.location, c.location);
        if a.location == c.location {
          StrLeAntisymmetric(a.location, b.location);
        }
      }
    }
  }

  /** A permutation of the grouped rows is a summary just as good: same
      keys, still unique, same sums. */
  lemma PermutedGroups(t: seq<CovidRow>, g: seq<MonthlyRow>, s: seq<MonthlyRow>)
    requires HasMonthStart(t) && multiset(s) == multiset(g)
    requires UniqueKeys(g) && KeySet(g) == SourceKeys(t)
    requires forall key :: CasesAt(g, key) == SumFor(t, key)
    ensures UniqueKeys(s) && KeySet(s) == SourceKeys(t)
    ensures forall k :: 0 <= k < |s| ==> s[k].monthlyCases == SumFor(t, RowKey(s[k]))
  {
    UniqueKeysPermutation(g, s);
    assert forall row :: row in s <==> row in g by {
      forall row ensures row in s <==> row in g {
        assert row in s <==> row in multiset(s);
      }
    }
    assert KeySet(s) == KeySet(g);
    forall k | 0 <= k < |s| ensures s[k].monthlyCases == SumFor(t, RowKey(s[k])) {
      assert s[k] in multiset(g);
      var i :| 0 <= i < |g| && g[i] == s[k];
      CasesAtEntry(g, i);
    }
  }

  /** Lines 32-39: the monthly summary, sorted by location, then month. In
      pandas the groupby already orders its groups this way, and with one row
      per key the final order does not depend on how it was reached. */
  function MonthlySummary(t: seq<CovidRow>): (s: seq<MonthlyRow>)
    requires HasMonthStart(t)
    ensures UniqueKeys(s)
    ensures KeySet(s) == SourceKeys(t)
    ensures forall k :: 0 <= k < |s| ==> s[k].monthlyCases == SumFor(t, RowKey(s[k]))
    ensures forall i, j :: 0 <= i < j < |s| ==> MonthlyBefore(s[i], s[j])
  {
    var g := GroupSums(t);
    MonthlyBeforeIsTotalPreorder();
    var s := InsertionSort(g, MonthlyBefore);
    PermutedGroups(t, g, s);
    s
  }

  /** Rows of the summary are strictly ordered: by location, and by month
      within one location. */
  lemma SummarySorted(t: seq<CovidRow>)
    requires HasMonthStart(t)
    ensures var s := MonthlySummary(t);
            forall i, j :: 0 <= i < j < |s| ==>
              || StrLt(s[i].location, s[j].location)
              || (s[i].location == s[j].location && DateLe(s[i].monthStart, s[j].monthStart) &&
                  s[i].monthStart != s[j].monthStart)
  {
  }

  /** Records that all share one key give a summary of exactly one row. */
  lemma SingleKeySummary(t: seq<CovidRow>, key: (string, Date))
    requires HasMonthStart(t) && SourceKeys(t) == {key}
    ensures MonthlySummary(t) == [MonthlyRow(key.0, key.1, SumFor(t, key))]
  {
    var s := MonthlySummary(t);
    KeySetIndex(s);
    assert |s| > 0 by {
      assert key in KeySet(s);
    }
    assert forall b :: 0 <= b < |s| ==> RowKey(s[b]) == key;
    assert |s| > 1 ==> RowKey(s[0]) == RowKey(s[1]);
  }

  /** Two records of one location within one month, with 5 and 7 new cases,
      give a single row for that month holding 12. */
  lemma FiveAndSevenMakeTwelve()
    ensures var t := WithMonthStart([CovidRow("X", Date(2020, 3, 5), Some(5), Absent),
                                     CovidRow("X", Date(2020, 3, 20), Some(7), Absent)]);
            MonthlySummary(t) == [MonthlyRow("X", Date(2020, 3, 1), 12)]
  {
    var t := WithMonthStart([CovidRow("X", Date(2020, 3, 5), Some(5), Absent),
                             CovidRow("X", Date(2020, 3, 20), Some(7), Absent)]);
    var key := ("X", Date(2020, 3, 1));
    assert KeyOf(t[0]) == key && KeyOf(t[1]) == key;
    assert SourceKeys(t) == {key};
    assert t[..1][..0] == [] && t[..2] == t;
    assert SumFor(t, key) == 12;
    SingleKeySummary(t, key);
  }
}
