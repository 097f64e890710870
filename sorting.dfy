/** Sorting a table by a caller-chosen order, as `DataFrame.sort_values`
    does. Only what pandas promises is stated: the result is a permutation of
    the input that is sorted by the order; how ties are arranged is left open. */
module Sorting {

  /** `le(a, b)`: `a` may stand before `b`. */
  ghost predicate IsTotalPreorder<T(!new)>(le: (T, T) -> bool) {
    && (forall a, b :: le(a, b) || le(b, a))
    && (forall a, b, c :: le(a, b) && le(b, c) ==> le(a, c))
  }

  predicate Sorted<T(!new)>(s: seq<T>, le: (T, T) -> bool) {
    forall i, j :: 0 <= i < j < |s| ==> le(s[i], s[j])
  }

  function Insert<T(!new)>(x: T, s: seq<T>, le: (T, T) -> bool): (r: seq<T>)
    requires IsTotalPreorder(le) && Sorted(s, le)
    ensures multiset(r) == multiset(s) + multiset{x}
    ensures forall k :: 0 <= k < |r| ==> r[k] == x || r[k] in s
    ensures Sorted(r, le)
  {
    if s == [] then [x]
    else if le(x, s[0]) then [x] + s
    else
      var rest := Insert(x, s[1..], le);
      assert forall k :: 0 <= k < |rest| ==> le(s[0], rest[k]) by {
        forall k | 0 <= k < |rest| ensures le(s[0], rest[k]) {
          if rest[k] != x {
            var j :| 0 <= j < |s[1..]| && s[1..][j] == rest[k];
            assert s[j + 1] == rest[k];
          }
        }
      }
      assert s == [s[0]] + s[1..];
      [s[0]] + rest
  }

  function InsertionSort<T(!new)>(s: seq<T>, le: (T, T) -> bool): (r: seq<T>)
    requires IsTotalPreorder(le)
    ensures multiset(r) == multiset(s)
    ensures |r| == |s|
    ensures Sorted(r, le)
  {
    if s == [] then []
    else
      assert s == [s[0]] + s[1..];
      Insert(s[0], InsertionSort(s[1..], le), le)
  }

  /** Two positions holding the same value are two copies of it. */
  lemma CopiesCounted<T>(s: seq<T>, i: int, j: int)
    ensures 0 <= i < |s| && 0 <= j < |s| && i != j && s[i] == s[j] ==> multiset(s)[s[i]] >= 2
  {
    if 0 <= i < |s| && 0 <= j < |s| && i != j && s[i] == s[j] {
      var lo, hi := if i < j then i else j, if i < j then j else i;
      assert s == s[..hi] + s[hi..];
      assert s[..hi][lo] == s[lo] && s[hi..][0] == s[hi];
    }
  }

  /** A value held at one position only occurs once. */
  lemma OneCopy<T>(s: seq<T>, m: int)
    requires 0 <= m < |s|
    requires forall i :: 0 <= i < |s| && s[i] == s[m] ==> i == m
    ensures multiset(s)[s[m]] == 1
  {
    assert s == s[..m] + [s[m]] + s[m + 1..];
    assert s[m] !in s[..m] by {
      forall i | 0 <= i < m ensures s[..m][i] != s[m] {
        assert s[..m][i] == s[i];
      }
    }
    var rest := s[m + 1..];
    assert s[m] !in rest by {
      forall i | 0 <= i < |rest| ensures rest[i] != s[m] {
        assert rest[i] == s[m + 1 + i];
      }
    }
  }
}
