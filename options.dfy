/** What the country selector shows and what it selects: the option list of
    the dropdown (app.py line 76) and the rows the bar chart callback
    highlights (lines 232-233). */
module Options {
  import opened Tables

  predicate NoDuplicates(s: seq<string>) {
    forall i, j :: 0 <= i < j < |s| ==> s[i] != s[j]
  }

  /** The position of the first occurrence of `x`. */
  function FirstIndex(s: seq<string>, x: string): (p: nat)
    requires x in s
    ensures p < |s| && s[p] == x && x !in s[..p]
  {
    if s[0] == x then 0
    else
      var p := 1 + FirstIndex(s[1..], x);
      assert s[..p] == [s[0]] + s[1..][..p - 1];
      p
  }

  /** A position holding `x` with no `x` before it is the first index of `x`. */
  lemma FirstIndexUnique(s: seq<string>, x: string, p: nat)
    requires p < |s| && s[p] == x && x !in s[..p]
    ensures FirstIndex(s, x) == p
  {
  }

  lemma FirstIndexPrefix(s: seq<string>, m: nat, x: string)
    requires m <= |s| && x in s[..m]
    ensures FirstIndex(s, x) == FirstIndex(s[..m], x)
  {
    var q := FirstIndex(s[..m], x);
    assert s[..m][..q] == s[..q];
    FirstIndexUnique(s, x, q);
  }

  /** `Series.unique()`: every value of `s` exactly once, in order of first
      occurrence. */
  function Distinct(s: seq<string>): (u: seq<string>)
    ensures forall x :: x in u <==> x in s
    ensures NoDuplicates(u)
    ensures forall i, j :: 0 <= i < j < |u| ==> FirstIndex(s, u[i]) < FirstIndex(s, u[j])
  {
    if s == [] then []
    else
      var n := |s| - 1;
      var u := Distinct(s[..n]);
      assert forall x :: x in s <==> x in s[..n] || x == s[n] by {
        assert s == s[..n] + [s[n]];
      }
      assert forall i :: 0 <= i < |u| ==> FirstIndex(s, u[i]) == FirstIndex(s[..n], u[i]) by {
        forall i | 0 <= i < |u| ensures FirstIndex(s, u[i]) == FirstIndex(s[..n], u[i]) {
          FirstIndexPrefix(s, n, u[i]);
        }
      }
      if s[n] in u then u
      else
        FirstIndexUnique(s, s[n], n);
        u + [s[n]]
  }

  /** The `country` column of the merged table. */
  function Countries(t: seq<MergedRow>): (c: seq<string>)
    ensures |c| == |t| && forall i :: 0 <= i < |t| ==> c[i] == t[i].emp.country
  {
    seq(|t|, i requires 0 <= i < |t| => t[i].emp.country)
  }

  /** Line 76: one dropdown option per distinct country of the merged table,
      each once, in the order in which the table first lists it. */
  function DropdownOptions(t: seq<MergedRow>): (o: seq<string>)
    ensures forall c :: c in o <==> exists i :: 0 <= i < |t| && t[i].emp.country == c
    ensures NoDuplicates(o)
    ensures forall i, j :: 0 <= i < j < |o| ==>
              o[i] in Countries(t) && o[j] in Countries(t) &&
              FirstIndex(Countries(t), o[i]) < FirstIndex(Countries(t), o[j])
  {
    var cs := Countries(t);
    assert forall c :: c in cs <==> exists i :: 0 <= i < |t| && t[i].emp.country == c by {
      forall c ensures c in cs <==> exists i :: 0 <= i < |t| && t[i].emp.country == c {
        if c in cs {
          var i :| 0 <= i < |cs| && cs[i] == c;
          assert t[i].emp.country == c;
        }
      }
    }
    Distinct(cs)
  }

  /** `merged_data[merged_data['country'] == c]`: the rows of country `c`, in
      table order. */
  function RowsOf(t: seq<MergedRow>, c: string): (h: seq<MergedRow>)
    ensures forall row :: multiset(h)[row] == if row.emp.country == c then multiset(t)[row] else 0
  {
    if t == [] then []
    else
      var n := |t| - 1;
      assert t == t[..n] + [t[n]];
      RowsOf(t[..n], c) + (if t[n].emp.country == c then [t[n]] else [])
  }

  /** Lines 232-233: the rows to highlight. A selection that is None or the
      empty string is false in Python, and then nothing is highlighted; the
      test that the country occurs in the table only spares an empty filter. */
  function Highlight(t: seq<MergedRow>, selected: Option<string>): (h: seq<MergedRow>)
    ensures selected == None || selected == Some("") ==> h == []
    ensures selected.Some? && selected.value != "" ==> h == RowsOf(t, selected.value)
    ensures h != [] <==> selected.Some? && selected.value != "" && selected.value in Countries(t)
  {
    if selected.Some? && selected.value != "" && selected.value in Countries(t) then
      var h := RowsOf(t, selected.value);
      var i :| 0 <= i < |t| && t[i].emp.country == selected.value;
      assert t[i] in multiset(h);
      h
    else []
  }
}
