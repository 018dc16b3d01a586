/** `groups_of_same_number` of npy.py: the maximal runs of one number in an
    array, found from the places where an indicator array changes value. */
module NpyGroups {

  /** One row of the `(m, 2)` result: the index of the first `number` of a
      run and the index just past its last one. */
  datatype Run = Run(start: nat, stop: nat)

  /** Does index `k` hold `num`? Indices outside the array do not, which is
      what the zero padding of the indicator expresses. */
  predicate Holds(a: seq<int>, num: int, k: int)
  {
    0 <= k < |a| && a[k] == num
  }

  /** `run` is a maximal run of `num` in `a`: non-empty, made of `num` only,
      and bordered on both sides by another value or by an end of the array. */
  predicate IsMaximalRun(a: seq<int>, num: int, run: Run)
  {
    && run.start < run.stop <= |a|
    && (forall k :: run.start <= k < run.stop ==> a[k] == num)
    && !Holds(a, num, run.start - 1)
    && !Holds(a, num, run.stop)
  }

  predicate Covers(run: Run, p: nat)
  {
    run.start <= p < run.stop
  }

  /** Runs listed left to right, each ending before the next one starts. */
  predicate Ordered(runs: seq<Run>)
  {
    forall k, l :: 0 <= k < l < |runs| ==> runs[k].stop < runs[l].start
  }

  // ---------------------------------------------------------------------
  // The reference definition: a left-to-right scan of the runs.
  // ---------------------------------------------------------------------

  /** The first index at or after `i` that does not hold `num`. */
  function RunEnd(a: seq<int>, num: int, i: nat): (j: nat)
    requires i <= |a|
    ensures i <= j <= |a| && !Holds(a, num, j)
    ensures forall k :: i <= k < j ==> a[k] == num
    decreases |a| - i
  {
    if i == |a| || a[i] != num then i else RunEnd(a, num, i + 1)
  }

  /** The maximal runs of `num` in `a[i..]`, when `i` is not inside a run. */
  function RunsFrom(a: seq<int>, num: int, i: nat): (runs: seq<Run>)
    requires i <= |a| && !Holds(a, num, i - 1)
    decreases |a| - i
  {
    if i == |a| then []
    else if a[i] != num then RunsFrom(a, num, i + 1)
    else
      var j := RunEnd(a, num, i);
      if j == |a| then [Run(i, j)] else [Run(i, j)] + RunsFrom(a, num, j + 1)
  }

  /** The scanned runs are maximal runs of `num`, listed left to right. */
  lemma {:induction false} RunsFromAreMaximal(a: seq<int>, num: int, i: nat)
    requires i <= |a| && !Holds(a, num, i - 1)
    ensures forall k :: 0 <= k < |RunsFrom(a, num, i)| ==>
      i <= RunsFrom(a, num, i)[k].start && IsMaximalRun(a, num, RunsFrom(a, num, i)[k])
    ensures Ordered(RunsFrom(a, num, i))
    decreases |a| - i
  {
    if i < |a| {
      if a[i] != num {
        RunsFromAreMaximal(a, num, i + 1);
      } else {
        var j := RunEnd(a, num, i);
        if j < |a| {
          RunsFromAreMaximal(a, num, j + 1);
          PrependRun(a, num, Run(i, j), RunsFrom(a, num, j + 1));
        }
      }
    }
  }

  /** A maximal run put before maximal runs that start after it keeps the
      list ordered and maximal. */
  lemma PrependRun(a: seq<int>, num: int, run: Run, rest: seq<Run>)
    requires IsMaximalRun(a, num, run) && Ordered(rest)
    requires forall k :: 0 <= k < |rest| ==> run.stop < rest[k].start && IsMaximalRun(a, num, rest[k])
    ensures forall k :: 0 <= k < |[run] + rest| ==>
      run.start <= ([run] + rest)[k].start && IsMaximalRun(a, num, ([run] + rest)[k])
    ensures Ordered([run] + rest)
  {
  }

  /** Every occurrence of `num` in `a[i..]` lies in one of the scanned runs. */
  lemma {:induction false} RunsFromCover(a: seq<int>, num: int, i: nat, p: nat)
    requires i <= p < |a| && a[p] == num && !Holds(a, num, i - 1)
    ensures exists k :: 0 <= k < |RunsFrom(a, num, i)| && Covers(RunsFrom(a, num, i)[k], p)
    decreases |a| - i
  {
    var runs := RunsFrom(a, num, i);
    if a[i] != num {
      RunsFromCover(a, num, i + 1, p);
      var k :| 0 <= k < |RunsFrom(a, num, i + 1)| && Covers(RunsFrom(a, num, i + 1)[k], p);
      assert runs[k] == RunsFrom(a, num, i + 1)[k];
    } else {
      var j := RunEnd(a, num, i);
      if p < j {
        assert runs[0] == Run(i, j);
      } else {
        assert p != j && j < |a|;
        RunsFromCover(a, num, j + 1, p);
        var rest := RunsFrom(a, num, j + 1);
        var k :| 0 <= k < |rest| && Covers(rest[k], p);
        assert runs[k + 1] == rest[k];
      }
    }
  }

  // ---------------------------------------------------------------------
  // The source's computation, step by step.
  // ---------------------------------------------------------------------

  /** `np.concatenate(([0], np.equal(array, number).view(np.int8), [0]))`. */
  function Indicator(a: seq<int>, num: int): (r: seq<int>)
    ensures |r| == |a| + 2
    ensures forall k :: 0 <= k < |r| ==> r[k] == if Holds(a, num, k - 1) then 1 else 0
  {
    [0] + seq(|a|, k requires 0 <= k < |a| => if a[k] == num then 1 else 0) + [0]
  }

  /** `np.abs(np.diff(s))`. */
  function AbsDiff(s: seq<int>): (d: seq<int>)
    requires |s| > 0
    ensures |d| == |s| - 1
    ensures forall k :: 0 <= k < |d| ==> d[k] == if s[k + 1] >= s[k] then s[k + 1] - s[k] else s[k] - s[k + 1]
  {
    seq(|s| - 1, k requires 0 <= k < |s| - 1 =>
      if s[k + 1] >= s[k] then s[k + 1] - s[k] else s[k] - s[k + 1])
  }

  /** `np.abs(np.diff(is_number))`, with the indicator built first. */
  function Changes(a: seq<int>, num: int): (d: seq<int>)
    ensures |d| == |a| + 1
  {
    AbsDiff(Indicator(a, num))
  }

  /** The differenced indicator is 1 exactly where the array switches
      between holding `num` and not holding it, the virtual neighbours
      before and after the array included, and 0 elsewhere. */
  lemma ChangesAt(a: seq<int>, num: int, k: nat)
    requires k <= |a|
    ensures Changes(a, num)[k] == if Holds(a, num, k) != Holds(a, num, k - 1) then 1 else 0
  {
    var s := Indicator(a, num);
    assert s[k + 1] == (if Holds(a, num, k) then 1 else 0);
    assert s[k] == (if Holds(a, num, k - 1) then 1 else 0);
  }

  /** `np.where(d == 1)[0]`, restricted to `d[i..]`: the indices holding 1,
      in increasing order. */
  function WhereOne(d: seq<int>, i: nat): (w: seq<nat>)
    requires i <= |d|
    ensures forall k :: 0 <= k < |w| ==> i <= w[k] < |d| && d[w[k]] == 1
    decreases |d| - i
  {
    if i == |d| then []
    else if d[i] == 1 then [i] + WhereOne(d, i + 1)
    else WhereOne(d, i + 1)
  }

  /** `.reshape(-1, 2)` of a flat index list of even length. */
  function PairUp(w: seq<nat>): (runs: seq<Run>)
    requires |w| % 2 == 0
    ensures |runs| * 2 == |w|
    ensures forall k :: 0 <= k < |runs| ==> runs[k] == Run(w[2 * k], w[2 * k + 1])
  {
    if w == [] then [] else [Run(w[0], w[1])] + PairUp(w[2..])
  }

  /** The rows of a run table, read row by row (the inverse of `PairUp`). */
  function Flatten(runs: seq<Run>): (w: seq<nat>)
    ensures |w| == 2 * |runs|
  {
    if runs == [] then [] else [runs[0].start, runs[0].stop] + Flatten(runs[1..])
  }

  lemma {:induction false} PairUpFlatten(runs: seq<Run>)
    ensures PairUp(Flatten(runs)) == runs
  {
    if runs != [] {
      PairUpFlatten(runs[1..]);
      assert Flatten(runs)[2..] == Flatten(runs[1..]);
    }
  }

  /** npy.py `groups_of_same_number`. The reshape into pairs cannot fail:
      the indicator changes value an even number of times. The rows are
      exactly the maximal runs of `number`, left to right. */
  function GroupsOfSameNumber(a: seq<int>, num: int): (runs: seq<Run>)
    ensures forall k :: 0 <= k < |runs| ==> IsMaximalRun(a, num, runs[k])
    ensures Ordered(runs)
    ensures runs == RunsFrom(a, num, 0)
  {
    ChangesPairUpIntoRuns(a, num);
    RunsFromAreMaximal(a, num, 0);
    PairUp(WhereOne(Changes(a, num), 0))
  }

  /** The ones of the differenced indicator come in pairs, and the pairs
      are the scanned runs. */
  lemma ChangesPairUpIntoRuns(a: seq<int>, num: int)
    ensures |WhereOne(Changes(a, num), 0)| % 2 == 0
    ensures PairUp(WhereOne(Changes(a, num), 0)) == RunsFrom(a, num, 0)
  {
    BoundariesAreRunEnds(a, num, 0);
    PairUpFlatten(RunsFrom(a, num, 0));
  }

  /** Every occurrence of `number` belongs to one of the returned rows. */
  lemma GroupsCoverEveryOccurrence(a: seq<int>, num: int, p: nat)
    requires p < |a| && a[p] == num
    ensures exists k :: 0 <= k < |GroupsOfSameNumber(a, num)| && Covers(GroupsOfSameNumber(a, num)[k], p)
  {
    RunsFromCover(a, num, 0, p);
    var runs := RunsFrom(a, num, 0);
    var k :| 0 <= k < |runs| && Covers(runs[k], p);
    assert GroupsOfSameNumber(a, num)[k] == runs[k];
  }

  // ---------------------------------------------------------------------
  // Why the computation finds the runs.
  // ---------------------------------------------------------------------

  /** The scan for ones passes over a stretch without any. */
  lemma {:induction false} SkipNonOnes(d: seq<int>, k: nat, j: nat)
    requires k <= j <= |d|
    requires forall m :: k <= m < j ==> d[m] != 1
    ensures WhereOne(d, k) == WhereOne(d, j)
    decreases j - k
  {
    if k < j {
      SkipNonOnes(d, k + 1, j);
    }
  }

  /** The ones of the differenced indicator, from a position outside any run,
      are the starts and ends of the remaining runs, in order. */
  lemma {:induction false} BoundariesAreRunEnds(a: seq<int>, num: int, i: nat)
    requires i <= |a| && !Holds(a, num, i - 1)
    ensures WhereOne(Changes(a, num), i) == Flatten(RunsFrom(a, num, i))
    decreases |a| - i
  {
    var d := Changes(a, num);
    if i == |a| {
      assert WhereOne(d, i + 1) == [];
    } else if a[i] != num {
      BoundariesAreRunEnds(a, num, i + 1);
      ChangesAt(a, num, i);
    } else {
      var j := RunEnd(a, num, i);
      if j < |a| {
        BoundariesAreRunEnds(a, num, j + 1);
      }
      RunBoundaries(a, num, i);
    }
  }

  /** One step of `BoundariesAreRunEnds` at the start of a run, given the
      claim for the position after the run's end. */
  lemma RunBoundaries(a: seq<int>, num: int, i: nat)
    requires i < |a| && a[i] == num && !Holds(a, num, i - 1)
    requires RunEnd(a, num, i) < |a| ==>
      WhereOne(Changes(a, num), RunEnd(a, num, i) + 1) == Flatten(RunsFrom(a, num, RunEnd(a, num, i) + 1))
    ensures WhereOne(Changes(a, num), i) == Flatten(RunsFrom(a, num, i))
  {
    var d, j := Changes(a, num), RunEnd(a, num, i);
    // the scan finds the run's start, then nothing until its end
    ChangesAroundRun(a, num, i);
    TwoOnes(d, i, j);
    if j == |a| {
      assert RunsFrom(a, num, i) == [Run(i, j)];
      assert WhereOne(d, j + 1) == [];
    } else {
      var rest := RunsFrom(a, num, j + 1);
      assert RunsFrom(a, num, i) == [Run(i, j)] + rest;
      assert ([Run(i, j)] + rest)[1..] == rest;
    }
  }

  /** The differenced indicator is 1 at the start of a run and just past
      its end, and not 1 in between. */
  lemma ChangesAroundRun(a: seq<int>, num: int, i: nat)
    requires i < |a| && a[i] == num && !Holds(a, num, i - 1)
    ensures var d, j := Changes(a, num), RunEnd(a, num, i);
      && i < j < |d| && d[i] == 1 && d[j] == 1
      && forall m :: i < m < j ==> d[m] != 1
  {
    var d, j := Changes(a, num), RunEnd(a, num, i);
    ChangesAt(a, num, i);
    ChangesAt(a, num, j);
    assert Holds(a, num, j - 1);
    forall m | i < m < j ensures d[m] != 1 {
      ChangesAt(a, num, m);
      assert Holds(a, num, m) && Holds(a, num, m - 1);
    }
  }

  /** Two ones with nothing but other values between them are found one
      after the other. */
  lemma TwoOnes(d: seq<int>, i: nat, j: nat)
    requires i < j < |d| && d[i] == 1 && d[j] == 1
    requires forall m :: i < m < j ==> d[m] != 1
    ensures WhereOne(d, i) == [i, j] + WhereOne(d, j + 1)
  {
    SkipNonOnes(d, i + 1, j);
    assert WhereOne(d, j) == [j] + WhereOne(d, j + 1);
  }
}
