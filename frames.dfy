/** The animation frames of the bar chart (app.py lines 44-45): merged_data
    is sorted by TotalDeaths, largest first, and the row at position i gets
    `frame = i // 10`. */
module Frames {
  import opened Tables
  import opened Sorting

  /** The number of rows per frame. */
  const BucketSize := 10

  /** The order of `sort_values('TotalDeaths', ascending=False)`: `a` may
      stand before `b` when `b`'s count is missing (missing counts sort last)
      or both are present and `a`'s is at least `b`'s. */
  predicate DeathsBefore(a: MergedRow, b: MergedRow) {
    || b.stat.totalDeaths.None?
    || (a.stat.totalDeaths.Some? && a.stat.totalDeaths.value >= b.stat.totalDeaths.value)
  }

  lemma DeathsBeforeIsTotalPreorder()
    ensures IsTotalPreorder(DeathsBefore)
  {
  }

  /** Line 44. The sort pandas uses here is not stable, so nothing is
      promised about the order of rows with equal counts. */
  function SortByDeaths(t: seq<MergedRow>): (r: seq<MergedRow>)
    ensures multiset(r) == multiset(t)
    ensures forall i, j :: 0 <= i < j < |r| ==>
              && (r[i].stat.totalDeaths.None? ==> r[j].stat.totalDeaths.None?)
              && (r[i].stat.totalDeaths.Some? && r[j].stat.totalDeaths.Some? ==>
                    r[i].stat.totalDeaths.value >= r[j].stat.totalDeaths.value)
  {
    DeathsBeforeIsTotalPreorder();
    var s := InsertionSort(t, DeathsBefore);
    assert forall i, j :: 0 <= i < j < |s| ==> DeathsBefore(s[i], s[j]);
    s
  }

  /** Every row carries the frame of its position. */
  predicate RankedFrames(s: seq<MergedRow>) {
    forall i :: 0 <= i < |s| ==> s[i].frame == Present(i / BucketSize)
  }

  /** Line 45: `np.arange(len(merged_data)) // 10` assigned as the frame
      column; no other cell changes. */
  function WithFrames(t: seq<MergedRow>): (r: seq<MergedRow>)
    ensures |r| == |t| && RankedFrames(r)
    ensures forall i :: 0 <= i < |t| ==> r[i].(frame := t[i].frame) == t[i]
  {
    seq(|t|, i requires 0 <= i < |t| => t[i].(frame := Present(i / BucketSize)))
  }

  /** The number of rows in frame `f`. */
  function FrameCount(s: seq<MergedRow>, f: nat): nat {
    if s == [] then 0
    else FrameCount(s[..|s| - 1], f) + (if s[|s| - 1].frame == Present(f) then 1 else 0)
  }

  function Min(a: int, b: int): int {
    if a <= b then a else b
  }

  /** Every frame before the last holds exactly ten rows, the last one the
      remaining 1 to 10, and no frame beyond it holds any; 25 rows, for
      instance, give frames 0, 1 and 2 of sizes 10, 10 and 5. */
  lemma {:induction false} FrameSizes(s: seq<MergedRow>, f: nat)
    requires RankedFrames(s)
    ensures FrameCount(s, f) == if |s| <= BucketSize * f then 0 else Min(BucketSize, |s| - BucketSize * f)
  {
    if s != [] {
      var n := |s| - 1;
      assert RankedFrames(s[..n]) by {
        forall i | 0 <= i < n ensures s[..n][i].frame == Present(i / BucketSize) {
          assert s[..n][i] == s[i];
        }
      }
      FrameSizes(s[..n], f);
      assert s[n].frame == Present(n / 10);
      assert n / 10 == f <==> 10 * f <= n < 10 * f + 10;
    }
  }

  /** Frames never decrease down the table and run from 0 to (n - 1) / 10
      with no value skipped: frame f starts at row 10 * f. */
  lemma FramesContiguous(s: seq<MergedRow>)
    requires RankedFrames(s)
    ensures forall i, j :: 0 <= i <= j < |s| ==> s[i].frame.value <= s[j].frame.value
    ensures forall i :: 0 <= i < |s| ==> s[i].frame.value <= (|s| - 1) / BucketSize
    ensures forall f: nat :: f <= (|s| - 1) / BucketSize ==>
              BucketSize * f < |s| && s[BucketSize * f].frame == Present(f)
  {
  }

  /** The sizes of the frames of 25 ranked rows. */
  lemma TwentyFiveRows(s: seq<MergedRow>)
    requires RankedFrames(s) && |s| == 25
    ensures FrameCount(s, 0) == 10 && FrameCount(s, 1) == 10 && FrameCount(s, 2) == 5
    ensures forall f: nat :: f >= 3 ==> FrameCount(s, f) == 0
  {
    FrameSizes(s, 0);
    FrameSizes(s, 1);
    FrameSizes(s, 2);
    forall f: nat | f >= 3 ensures FrameCount(s, f) == 0 {
      FrameSizes(s, f);
    }
  }
}
