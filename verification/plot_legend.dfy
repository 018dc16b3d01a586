/** `legend` and `LegendLocation` of plotting.py: one legend combining the
    entries of several axes, attached to the first of them. */
module PlotLegend {
  import opened Common

  /** The locations a matplotlib legend accepts by name. */
  datatype LegendLocation =
    | Best | UpperRight | UpperLeft | LowerLeft | LowerRight | Right
    | CenterLeft | CenterRight | LowerCenter | UpperCenter | Center
  {
    /** The enum member's string value. */
    function Value(): string
    {
      match this
      case Best => "best"
      case UpperRight => "upper right"
      case UpperLeft => "upper left"
      case LowerLeft => "lower left"
      case LowerRight => "lower right"
      case Right => "right"
      case CenterLeft => "center left"
      case CenterRight => "center right"
      case LowerCenter => "lower center"
      case UpperCenter => "upper center"
      case Center => "center"
    }
  }

  /** No two locations share a value, so the value names the location. */
  lemma ValuesAreDistinct(a: LegendLocation, b: LegendLocation)
    requires a != b
    ensures a.Value() != b.Value()
  {
  }

  /** The `loc` argument: a `LegendLocation`, or anything else, which is
      handed to matplotlib as it is. */
  datatype Loc = Location(location: LegendLocation) | Raw(text: string)

  /** `loc.value if isinstance(loc, LegendLocation) else loc`. */
  function ResolveLoc(loc: Loc): (s: string)
    ensures loc.Location? ==> s == loc.location.Value()
    ensures loc.Raw? ==> s == loc.text
  {
    match loc
    case Location(l) => l.Value()
    case Raw(t) => t
  }

  /** What `axis.get_legend_handles_labels()` returns for one axes, with
      the axes' identity. */
  datatype AxisEntries = AxisEntries(ax: nat, handles: seq<nat>, labels: seq<string>)

  /** The call `axes_[0].legend(lines, labels, loc=...)` that is made. */
  datatype LegendCall = LegendCall(ax: nat, handles: seq<nat>, labels: seq<string>, loc: string)

  /** All handles, axes by axes in the given order. */
  function AllHandles(axes: seq<AxisEntries>): (hs: seq<nat>)
  {
    if axes == [] then [] else AllHandles(axes[..|axes| - 1]) + axes[|axes| - 1].handles
  }

  /** All labels, axes by axes in the given order. */
  function AllLabels(axes: seq<AxisEntries>): (ls: seq<string>)
  {
    if axes == [] then [] else AllLabels(axes[..|axes| - 1]) + axes[|axes| - 1].labels
  }

  /** plotting.py `legend`. The loop collecting the entries runs first, so
      an empty `axes_` only fails at `axes_[0]`. */
  method Legend(axes: seq<AxisEntries>, loc: Loc) returns (r: Result<LegendCall>)
    ensures r.Err? <==> axes == []
    ensures r.Err? ==> r.error == IndexError
    ensures r.Ok? ==> r.value == LegendCall(axes[0].ax, AllHandles(axes), AllLabels(axes), ResolveLoc(loc))
  {
    var lines: seq<nat> := [];
    var labels: seq<string> := [];
    for i := 0 to |axes|
      invariant lines == AllHandles(axes[..i]) && labels == AllLabels(axes[..i])
    {
      assert axes[..i + 1][..i] == axes[..i];
      lines := lines + axes[i].handles;
      labels := labels + axes[i].labels;
    }
    assert axes[..|axes|] == axes;
    if |axes| == 0 {
      return Err(IndexError);
    }
    return Ok(LegendCall(axes[0].ax, lines, labels, ResolveLoc(loc)));
  }

  /** Each axes' own handles appear in the combined list as one block, at
      the position given by the handles of the axes before it. */
  lemma {:induction false} HandlesKeepAxisBlocks(axes: seq<AxisEntries>, k: nat)
    requires k < |axes|
    ensures |AllHandles(axes[..k])| + |axes[k].handles| <= |AllHandles(axes)|
    ensures AllHandles(axes)[|AllHandles(axes[..k])|..|AllHandles(axes[..k])| + |axes[k].handles|]
            == axes[k].handles
  {
    var n := |axes|;
    assert axes[..n - 1] == axes[..n][..n - 1];
    if k == n - 1 {
      assert axes[..k] == axes[..n - 1];
    } else {
      HandlesKeepAxisBlocks(axes[..n - 1], k);
      assert axes[..n - 1][..k] == axes[..k];
    }
  }

  /** When every axes reports as many labels as handles, so does the
      combined legend; applied to each prefix of `axes`, this puts every
      axes' labels at the same positions as its handles. */
  lemma {:induction false} LabelsStayPaired(axes: seq<AxisEntries>)
    requires forall k :: 0 <= k < |axes| ==> |axes[k].handles| == |axes[k].labels|
    ensures |AllHandles(axes)| == |AllLabels(axes)|
  {
    if axes != [] {
      LabelsStayPaired(axes[..|axes| - 1]);
    }
  }
}
