/** `is_coherent` of npy.py: are the values consecutive integers? */
module NpyCoherent {
  import opened Common

  /** `np.diff`: the differences of neighbouring elements. */
  function Diff(s: seq<int>): (d: seq<int>)
    ensures |d| == if |s| == 0 then 0 else |s| - 1
    ensures forall i :: 0 <= i < |d| ==> d[i] == s[i + 1] - s[i]
  {
    if |s| <= 1 then [] else [s[1] - s[0]] + Diff(s[1..])
  }

  /** Python's `range(lo, hi)` as a sequence. */
  function Range(lo: int, hi: int): (r: seq<int>)
    ensures |r| == if hi <= lo then 0 else hi - lo
    ensures forall i :: 0 <= i < |r| ==> r[i] == lo + i
    decreases hi - lo
  {
    if hi <= lo then [] else [lo] + Range(lo + 1, hi)
  }

  /** The ndarray branch: `np.all(np.diff(sequence) == 1)`. It holds exactly
      when the array counts up by one from its first element, and vacuously
      for arrays of length 0 and 1. */
  function IsCoherent(s: seq<int>): (r: bool)
    ensures r <==> forall i :: 0 <= i < |s| ==> s[i] == s[0] + i
    ensures |s| <= 1 ==> r
  {
    var d := Diff(s);
    var all := forall i :: 0 <= i < |d| ==> d[i] == 1;
    CoherentIsCounting(s, d, all);
    all
  }

  lemma CoherentIsCounting(s: seq<int>, d: seq<int>, all: bool)
    requires d == Diff(s)
    requires all <==> forall i :: 0 <= i < |d| ==> d[i] == 1
    ensures all <==> forall i :: 0 <= i < |s| ==> s[i] == s[0] + i
  {
    if all {
      forall j | 0 <= j < |s| - 1 ensures s[j + 1] - s[j] == 1 {
        assert d[j] == 1;
      }
      forall i | 0 <= i < |s| ensures s[i] == s[0] + i {
        CountsUp(s, i);
      }
    } else {
      var j :| 0 <= j < |d| && d[j] != 1;
      assert s[j + 1] != s[0] + (j + 1) || s[j] != s[0] + j;
    }
  }

  lemma {:induction false} CountsUp(s: seq<int>, i: nat)
    requires i < |s|
    requires forall j :: 0 <= j < |s| - 1 ==> s[j + 1] - s[j] == 1
    ensures s[i] == s[0] + i
  {
    if i > 0 { CountsUp(s, i - 1); }
  }

  /** The list/tuple branch as written: `sequence == range(...)` compares a
      list or tuple with a `range` object, which Python 3 never finds equal,
      so the answer is False for every non-empty sequence; an empty sequence
      fails on `sequence[0]`. */
  function IsCoherentListAsWritten(s: seq<int>): (r: Result<bool>)
    ensures |s| == 0 <==> r == Err(IndexError)
    ensures |s| > 0 ==> r == Ok(false)
  {
    if |s| == 0 then Err(IndexError) else Ok(false)
  }

  /** A coherent list is reported as not coherent by the branch as written. */
  lemma ListBranchRejectsCoherentList()
    ensures IsCoherent([1, 2, 3])
    ensures IsCoherentListAsWritten([1, 2, 3]) == Ok(false)
  {
    var s := [1, 2, 3];
    assert forall i :: 0 <= i < |s| ==> s[i] == s[0] + i;
  }

  /** The list/tuple branch as evidently intended: compare with the values
      of `range(sequence[0], sequence[-1] + 1)`. It agrees with the ndarray
      branch on every non-empty input. */
  function IsCoherentList(s: seq<int>): (r: Result<bool>)
    ensures |s| == 0 <==> r == Err(IndexError)
    ensures |s| > 0 ==> r == Ok(IsCoherent(s))
  {
    if |s| == 0 then Err(IndexError)
    else
      var eq := s == Range(s[0], s[|s| - 1] + 1);
      ListComparisonIsCoherence(s, eq);
      Ok(eq)
  }

  lemma ListComparisonIsCoherence(s: seq<int>, eq: bool)
    requires |s| > 0
    requires eq <==> s == Range(s[0], s[|s| - 1] + 1)
    ensures eq <==> IsCoherent(s)
  {
    var r := Range(s[0], s[|s| - 1] + 1);
    if IsCoherent(s) {
      assert s[|s| - 1] == s[0] + |s| - 1;
      assert |r| == |s|;
      assert forall i :: 0 <= i < |s| ==> r[i] == s[i];
    }
  }
}
