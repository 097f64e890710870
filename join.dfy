/** The inner join of the country statistics with the employment table on
    the normalised country name (app.py lines 14-18):
    `pd.merge(worldometer_data, employment_data, left_on="Country/Region",
    right_on="country", how="inner")`. Every matching (left, right) pair
    gives one row, so duplicate keys give the cross product. */
module Join {
  import opened Tables

  predicate KeysMatch(x: CountryStat, y: Employment) {
    x.countryRegion == y.country
  }

  /** The merged row of a left and a right row, before any column is added. */
  function Pair(x: CountryStat, y: Employment): MergedRow {
    MergedRow(x, y, Absent, Absent)
  }

  /** `row` is a left row of `l` paired with a right row of `r` under equal
      keys, and carries no derived column yet. */
  predicate JoinedFrom(row: MergedRow, l: seq<CountryStat>, r: seq<Employment>) {
    && row.stat in l && row.emp in r
    && KeysMatch(row.stat, row.emp)
    && row == Pair(row.stat, row.emp)
  }

  /** The rows one left row forms with the right table, in right-table order. */
  function MatchesOf(x: CountryStat, r: seq<Employment>): (m: seq<MergedRow>)
    ensures forall k :: 0 <= k < |m| ==> m[k].stat == x && JoinedFrom(m[k], [x], r)
    ensures forall j {:trigger Pair(x, r[j])} :: 0 <= j < |r| && KeysMatch(x, r[j]) ==> Pair(x, r[j]) in m
  {
    if r == [] then []
    else
      var n := |r| - 1;
      var front := MatchesOf(x, r[..n]);
      assert forall j :: 0 <= j < n ==> r[..n][j] == r[j];
      assert forall y :: y in r[..n] ==> y in r;
      front + (if KeysMatch(x, r[n]) then [Pair(x, r[n])] else [])
  }

  /** The join: the left table's rows in order, each followed by its matches. */
  function InnerJoin(l: seq<CountryStat>, r: seq<Employment>): (m: seq<MergedRow>)
    ensures forall k :: 0 <= k < |m| ==> JoinedFrom(m[k], l, r)
    ensures forall i, j {:trigger Pair(l[i], r[j])} :: 0 <= i < |l| && 0 <= j < |r| && KeysMatch(l[i], r[j]) ==>
              Pair(l[i], r[j]) in m
  {
    if l == [] then []
    else
      var n := |l| - 1;
      var front, back := InnerJoin(l[..n], r), MatchesOf(l[n], r);
      assert forall i :: 0 <= i < n ==> l[..n][i] == l[i];
      assert forall x :: x in l[..n] ==> x in l;
      assert forall i, j {:trigger Pair(l[i], r[j])} :: 0 <= i < |l| && 0 <= j < |r| && KeysMatch(l[i], r[j]) ==>
               Pair(l[i], r[j]) in front + back by {
        forall i, j | 0 <= i < |l| && 0 <= j < |r| && KeysMatch(l[i], r[j])
          ensures Pair(l[i], r[j]) in front + back
        {
          if i < n {
            assert Pair(l[..n][i], r[j]) in front;
          } else {
            assert Pair(l[n], r[j]) in back;
          }
        }
      }
      front + back
  }

  /** The index pairs of matching rows: the reference definition of what an
      inner join contains. */
  ghost function MatchingPairs(l: seq<CountryStat>, r: seq<Employment>): set<(int, int)> {
    set i, j | 0 <= i < |l| && 0 <= j < |r| && KeysMatch(l[i], r[j]) :: (i, j)
  }

  /** The pairs (a, j) for the right rows j that match `x`. */
  ghost function TaggedMatches(a: int, x: CountryStat, r: seq<Employment>): set<(int, int)> {
    set j | 0 <= j < |r| && KeysMatch(x, r[j]) :: (a, j)
  }

  lemma {:induction false} MatchesOfSize(a: int, x: CountryStat, r: seq<Employment>)
    ensures |MatchesOf(x, r)| == |TaggedMatches(a, x, r)|
  {
    if r != [] {
      var n := |r| - 1;
      MatchesOfSize(a, x, r[..n]);
      assert forall j :: 0 <= j < n ==> r[..n][j] == r[j];
      if KeysMatch(x, r[n]) {
        assert TaggedMatches(a, x, r) == TaggedMatches(a, x, r[..n]) + {(a, n)};
      } else {
        assert TaggedMatches(a, x, r) == TaggedMatches(a, x, r[..n]);
      }
    }
  }

  /** The join has exactly as many rows as there are matching (left, right)
      pairs. */
  lemma {:induction false} JoinSize(l: seq<CountryStat>, r: seq<Employment>)
    ensures |InnerJoin(l, r)| == |MatchingPairs(l, r)|
  {
    if l != [] {
      var n := |l| - 1;
      JoinSize(l[..n], r);
      MatchesOfSize(n, l[n], r);
      assert forall i :: 0 <= i < n ==> l[..n][i] == l[i];
      assert MatchingPairs(l, r) == MatchingPairs(l[..n], r) + TaggedMatches(n, l[n], r);
      assert MatchingPairs(l[..n], r) !! TaggedMatches(n, l[n], r);
    }
  }

  /** The matching index pairs whose merged row is `p`. */
  ghost function PairsGiving(l: seq<CountryStat>, r: seq<Employment>, p: MergedRow): set<(int, int)> {
    set i, j | 0 <= i < |l| && 0 <= j < |r| && KeysMatch(l[i], r[j]) && Pair(l[i], r[j]) == p :: (i, j)
  }

  /** The pairs (a, j) for the right rows j that match `x` and give `p`. */
  ghost function TaggedGiving(a: int, x: CountryStat, r: seq<Employment>, p: MergedRow): set<(int, int)> {
    set j | 0 <= j < |r| && KeysMatch(x, r[j]) && Pair(x, r[j]) == p :: (a, j)
  }

  lemma {:induction false} MatchesOfCount(a: int, x: CountryStat, r: seq<Employment>, p: MergedRow)
    ensures multiset(MatchesOf(x, r))[p] == |TaggedGiving(a, x, r, p)|
  {
    if r != [] {
      var n := |r| - 1;
      var front := MatchesOf(x, r[..n]);
      var back := if KeysMatch(x, r[n]) then [Pair(x, r[n])] else [];
      assert MatchesOf(x, r) == front + back;
      assert multiset(front + back) == multiset(front) + multiset(back);
      MatchesOfCount(a, x, r[..n], p);
      var hit := KeysMatch(x, r[n]) && Pair(x, r[n]) == p;
      assert multiset(back)[p] == if hit then 1 else 0;
      TaggedGivingSplit(a, x, r, p);
    }
  }

  lemma TaggedGivingSplit(a: int, x: CountryStat, r: seq<Employment>, p: MergedRow)
    requires r != []
    ensures var n := |r| - 1;
            |TaggedGiving(a, x, r, p)| ==
              |TaggedGiving(a, x, r[..n], p)| + (if KeysMatch(x, r[n]) && Pair(x, r[n]) == p then 1 else 0)
  {
    var n := |r| - 1;
    assert forall j :: 0 <= j < n ==> r[..n][j] == r[j];
    if KeysMatch(x, r[n]) && Pair(x, r[n]) == p {
      assert TaggedGiving(a, x, r, p) == TaggedGiving(a, x, r[..n], p) + {(a, n)};
    } else {
      assert TaggedGiving(a, x, r, p) == TaggedGiving(a, x, r[..n], p);
    }
  }

  /** The cross product row by row: each merged row occurs in the join as
      many times as there are matching (left index, right index) pairs that
      give it, so duplicated rows on either side are paired once per copy. */
  lemma {:induction false} JoinCount(l: seq<CountryStat>, r: seq<Employment>, p: MergedRow)
    ensures multiset(InnerJoin(l, r))[p] == |PairsGiving(l, r, p)|
  {
    if l != [] {
      var n := |l| - 1;
      var front, back := InnerJoin(l[..n], r), MatchesOf(l[n], r);
      assert InnerJoin(l, r) == front + back;
      assert multiset(front + back) == multiset(front) + multiset(back);
      JoinCount(l[..n], r, p);
      MatchesOfCount(n, l[n], r, p);
      PairsGivingSplit(l, r, p);
    }
  }

  lemma PairsGivingSplit(l: seq<CountryStat>, r: seq<Employment>, p: MergedRow)
    requires l != []
    ensures var n := |l| - 1;
            |PairsGiving(l, r, p)| == |PairsGiving(l[..n], r, p)| + |TaggedGiving(n, l[n], r, p)|
  {
    var n := |l| - 1;
    assert forall i :: 0 <= i < n ==> l[..n][i] == l[i];
    assert PairsGiving(l, r, p) == PairsGiving(l[..n], r, p) + TaggedGiving(n, l[n], r, p);
    assert PairsGiving(l[..n], r, p) !! TaggedGiving(n, l[n], r, p);
  }

  predicate HasMatch(x: CountryStat, r: seq<Employment>) {
    exists j :: 0 <= j < |r| && KeysMatch(x, r[j])
  }

  /** The left rows that have a partner on the right, in order. */
  function MatchedRows(l: seq<CountryStat>, r: seq<Employment>): (s: seq<CountryStat>)
    ensures forall k :: 0 <= k < |s| ==> s[k] in l && HasMatch(s[k], r)
    ensures forall i :: 0 <= i < |l| && HasMatch(l[i], r) ==> l[i] in s
    ensures forall z :: multiset(s)[z] == if HasMatch(z, r) then multiset(l)[z] else 0
  {
    if l == [] then []
    else
      var n := |l| - 1;
      assert l == l[..n] + [l[n]];
      MatchedRows(l[..n], r) + (if HasMatch(l[n], r) then [l[n]] else [])
  }

  lemma MatchesOfUnmatched(x: CountryStat, r: seq<Employment>)
    requires !HasMatch(x, r)
    ensures MatchesOf(x, r) == []
  {
  }

  lemma JoinAppend(l: seq<CountryStat>, x: CountryStat, r: seq<Employment>)
    ensures InnerJoin(l + [x], r) == InnerJoin(l, r) + MatchesOf(x, r)
  {
    assert (l + [x])[..|l|] == l;
  }

  /** Left rows without a matching key contribute nothing: dropping them
      first leaves the join unchanged. */
  lemma {:induction false} UnmatchedRowsContributeNothing(l: seq<CountryStat>, r: seq<Employment>)
    ensures InnerJoin(l, r) == InnerJoin(MatchedRows(l, r), r)
  {
    if l != [] {
      var n := |l| - 1;
      var m := MatchedRows(l[..n], r);
      calc {
        InnerJoin(l, r);
        InnerJoin(l[..n], r) + MatchesOf(l[n], r);
        { UnmatchedRowsContributeNothing(l[..n], r); }
        InnerJoin(m, r) + MatchesOf(l[n], r);
      }
      if HasMatch(l[n], r) {
        assert MatchedRows(l, r) == m + [l[n]];
        JoinAppend(m, l[n], r);
      } else {
        assert MatchedRows(l, r) == m;
        MatchesOfUnmatched(l[n], r);
      }
    }
  }
}
