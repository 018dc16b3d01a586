/** `axes` of plotting.py: the y-axes laid out left and right of a host
    axes, with the spine offsets and frame settings each one gets. */
module PlotAxes {
  import opened Common

  /** A y-label argument: `None`, one string, or a collection of strings. */
  datatype Labels = NoLabels | Label(text: string) | Several(texts: seq<string>)

  /** Which axes object a layout entry is: the host passed in, or the result
      of the n-th `host_ax.twinx()` call (counting from 0). */
  datatype AxisRef = Host | Twin(n: nat)

  datatype Side = Left | Right

  /** One entry of the returned list, with what `axes` did to it: the
      position its spine was moved to (`None` when the spine was left
      alone), whether its frame was re-enabled with invisible patch and
      spines, and its y-label. */
  datatype AxisSetup = AxisSetup(ax: AxisRef, side: Side, spine: Option<real>,
                                 frameReenabled: bool, yLabel: string)

  /** The labels of the left axes. A single string is one label; a
      collection gives one axis per element; `None` gives none. */
  function LeftLabels(left: Labels): (ls: seq<string>)
    ensures left.Label? ==> ls == [left.text]
    ensures left.Several? ==> ls == left.texts
    ensures left.NoLabels? ==> ls == []
  {
    match left
    case NoLabels => []
    case Label(s) => [s]
    case Several(ts) => ts
  }

  /** The labels of the right axes. The right side is tested for truth
      before the string case, so an empty string gives no axis at all
      there, while on the left it still labels the host. */
  function RightLabels(right: Labels): (ls: seq<string>)
    ensures right.Label? && right.text != "" ==> ls == [right.text]
    ensures right.Label? && right.text == "" ==> ls == []
    ensures right.Several? ==> ls == right.texts
    ensures right.NoLabels? ==> ls == []
  {
    match right
    case NoLabels => []
    case Label(s) => if s == "" then [] else [s]
    case Several(ts) => ts
  }

  /** Spine position of left axis `i` of `n`: `-(n - i - 1) * offset`. */
  function LeftSpine(n: nat, i: nat, offset: real): real
  {
    -((n - i - 1) as real) * offset
  }

  /** Spine position of right axis `j`: `1 + j * offset`. */
  function RightSpine(j: nat, offset: real): real
  {
    1.0 + (j as real) * offset
  }

  /** plotting.py `axes`, its y-axis part: the left axes, host first, then
      the right axes, all of them fresh twins. */
  method Axes(left: Labels, right: Labels, offset: real) returns (axs: seq<AxisSetup>)
    ensures |axs| == |LeftLabels(left)| + |RightLabels(right)|
    ensures forall i :: 0 <= i < |axs| ==> (axs[i].side == Left <==> i < |LeftLabels(left)|)
    ensures forall i :: 0 <= i < |LeftLabels(left)| ==> axs[i].yLabel == LeftLabels(left)[i]
    ensures forall j :: 0 <= j < |RightLabels(right)| ==>
      axs[|LeftLabels(left)| + j].yLabel == RightLabels(right)[j]
    // the host is the first left axis and appears nowhere else
    ensures forall i :: 0 <= i < |axs| ==> (axs[i].ax == Host <==> i == 0 && |LeftLabels(left)| > 0)
    ensures forall i, k :: 0 <= i < k < |axs| ==> axs[i].ax != axs[k].ax
    // a lone string on the left labels the host and changes no spine
    ensures left.Label? ==> axs[0].spine.None? && !axs[0].frameReenabled
    ensures left.Several? ==> forall i :: 0 <= i < |left.texts| ==>
      && axs[i].spine == Some(LeftSpine(|left.texts|, i, offset))
      && (axs[i].frameReenabled <==> i < |left.texts| - 1)
    ensures forall j :: 0 <= j < |RightLabels(right)| ==>
      && axs[|LeftLabels(left)| + j].spine == Some(RightSpine(j, offset))
      && (axs[|LeftLabels(left)| + j].frameReenabled <==> j > 0)
  {
    var axsLeft, twins := LeftAxes(left, offset);
    var axsRight := RightAxes(RightLabels(right), twins, offset);
    axs := axsLeft + axsRight;
    assert forall i :: 0 <= i < |axsLeft| ==> axs[i] == axsLeft[i];
    assert forall j :: 0 <= j < |axsRight| ==> axs[|axsLeft| + j] == axsRight[j];
    // entry p is the host or twin number p - 1, shifted by one without left axes
    var shift := if |axsLeft| == 0 then 1 else 0;
    assert forall p :: 0 <= p < |axs| ==> Creation(axs[p].ax) == p + shift by {
      forall p | 0 <= p < |axs| ensures Creation(axs[p].ax) == p + shift {
        if p >= |axsLeft| {
          assert axs[p] == axsRight[p - |axsLeft|];
        }
      }
    }
  }

  /** The order in which an axes object came to be: the host first, then
      the twins in the order they were made. */
  function Creation(ax: AxisRef): (n: nat)
    ensures n == 0 <==> ax == Host
  {
    match ax
    case Host => 0
    case Twin(k) => k + 1
  }

  /** The entry `axes` makes for left label `k`. */
  function LeftEntry(left: Labels, k: nat, offset: real): AxisSetup
    requires k < |LeftLabels(left)|
  {
    match left
    case Label(s) => AxisSetup(Host, Left, None, false, s)
    case Several(ts) =>
      AxisSetup(if k == 0 then Host else Twin(k - 1), Left,
                Some(LeftSpine(|ts|, k, offset)), k < |ts| - 1, ts[k])
  }

  /** The loop over the left labels: the host for the first, a fresh twin
      for each further one. */
  method LeftAxes(left: Labels, offset: real) returns (axsLeft: seq<AxisSetup>, twins: nat)
    ensures |axsLeft| == |LeftLabels(left)|
    ensures twins == if |axsLeft| == 0 then 0 else |axsLeft| - 1
    ensures forall k :: 0 <= k < |axsLeft| ==> axsLeft[k] == LeftEntry(left, k, offset)
  {
    axsLeft, twins := [], 0;
    match left {
      case NoLabels =>
      case Label(s) =>
        axsLeft := axsLeft + [AxisSetup(Host, Left, None, false, s)];
      case Several(ts) =>
        var n := |ts|;
        for i := 0 to n
          invariant |axsLeft| == i
          invariant twins == if i == 0 then 0 else i - 1
          invariant forall k :: 0 <= k < i ==> axsLeft[k] == LeftEntry(left, k, offset)
        {
          var ax := Host;
          if i != 0 {
            ax := Twin(twins);
            twins := twins + 1;
          }
          axsLeft := axsLeft + [AxisSetup(ax, Left, Some(LeftSpine(n, i, offset)), i < n - 1, ts[i])];
        }
    }
  }

  /** The loop over the right labels: a fresh twin for each, numbered on
      from the twins the left side made. */
  method RightAxes(rs: seq<string>, first: nat, offset: real) returns (axsRight: seq<AxisSetup>)
    ensures |axsRight| == |rs|
    ensures forall j :: 0 <= j < |rs| ==>
      axsRight[j] == AxisSetup(Twin(first + j), Right, Some(RightSpine(j, offset)), j > 0, rs[j])
  {
    axsRight := [];
    var twins := first;
    for j := 0 to |rs|
      invariant |axsRight| == j && twins == first + j
      invariant forall k :: 0 <= k < j ==>
        axsRight[k] == AxisSetup(Twin(first + k), Right, Some(RightSpine(k, offset)), k > 0, rs[k])
    {
      axsRight := axsRight + [AxisSetup(Twin(twins), Right, Some(RightSpine(j, offset)), j > 0, rs[j])];
      twins := twins + 1;
    }
  }

  /** For a positive offset the left spines move strictly outwards from the
      innermost one, which sits on the canvas edge at 0. */
  lemma LeftSpinesMoveOutward(n: nat, i: nat, k: nat, offset: real)
    requires offset > 0.0 && i < k < n
    ensures LeftSpine(n, i, offset) < LeftSpine(n, k, offset)
    ensures LeftSpine(n, n - 1, offset) == 0.0
  {
    assert (n - i - 1) as real > (n - k - 1) as real;
  }

  /** For a positive offset the right spines move strictly outwards from the
      innermost one, which sits on the canvas edge at 1. */
  lemma RightSpinesMoveOutward(j: nat, k: nat, offset: real)
    requires offset > 0.0 && j < k
    ensures 1.0 <= RightSpine(j, offset) < RightSpine(k, offset)
    ensures RightSpine(0, offset) == 1.0
  {
    assert (k as real) * offset > (j as real) * offset;
  }
}
