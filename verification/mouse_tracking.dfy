/** `add_mouse_tracking_vertical_line` of plotting.py: a vertical line on
    every tracked axes that follows the mouse, with the two module-level
    dictionaries that remember, per canvas, the callback ids and the lines
    currently drawn. */
module MouseTracking {
  import opened Common
  import opened PlotEvents

  /** The `to_axes` argument: `None`, one axes, or an iterable of axes in
      which falsy entries (`None`) are skipped. */
  datatype Target = NoTarget | OneAxis(ax: Axis) | AxisList(axes: seq<Option<Axis>>)

  /** The axes the comprehension `{ax: None for ax in to_axes if ax}` keeps. */
  function TrackedAxes(target: Target): (s: set<Axis>)
    ensures target.NoTarget? ==> s == {}
    ensures target.OneAxis? ==> s == {target.ax}
    ensures target.AxisList? ==> forall ax :: ax in s <==> Some(ax) in target.axes
  {
    match target
    case NoTarget => {}
    case OneAxis(ax) => {ax}
    case AxisList(axes) =>
      set k | 0 <= k < |axes| && axes[k].Some? :: axes[k].value
  }

  /** The x position a mouse position is drawn at: converted when a
      converter is given. */
  function Converted(x: real, converter: Option<real -> real>): real
  {
    if converter.Some? then converter.value(x) else x
  }

  /** Every tracked axes with no line. */
  function Cleared(m: map<Axis, Option<Line>>): (r: map<Axis, Option<Line>>)
    ensures r.Keys == m.Keys && forall ax :: ax in r ==> r[ax] == None
  {
    map ax | ax in m :: None
  }

  /** The lines held by one canvas' dictionary. */
  ghost function Drawn(m: map<Axis, Option<Line>>): set<Line>
  {
    set ax | ax in m && m[ax].Some? :: m[ax].value
  }

  /** The line a slot holds, as a set of at most one line. */
  function Held(slot: Option<Line>): set<Line>
  {
    if slot.Some? then {slot.value} else {}
  }

  /** `m` with the slots of the axes in `done` emptied. */
  function ClearedOn(m: map<Axis, Option<Line>>, done: set<Axis>): (r: map<Axis, Option<Line>>)
  {
    map ax | ax in m :: if ax in done then None else m[ax]
  }

  /** The lines `m` holds for the axes in `done`. */
  ghost function DrawnOn(m: map<Axis, Option<Line>>, done: set<Axis>): set<Line>
  {
    set ax | ax in m && ax in done && m[ax].Some? :: m[ax].value
  }

  lemma DrawnOnOneMore(m: map<Axis, Option<Line>>, done: set<Axis>, ax: Axis)
    requires ax in m
    ensures DrawnOn(m, done + {ax}) == DrawnOn(m, done) + Held(m[ax])
  {
  }

  lemma ClearedOnOneMore(m: map<Axis, Option<Line>>, done: set<Axis>, ax: Axis)
    requires ax in m
    ensures ClearedOn(m, done + {ax}) == ClearedOn(m, done)[ax := None]
  {
  }

  lemma DrawnFillOne(m: map<Axis, Option<Line>>, ax: Axis, l: Line)
    requires ax in m && m[ax] == None
    ensures Drawn(m[ax := Some(l)]) == Drawn(m) + {l}
  {
    var m' := m[ax := Some(l)];
    assert l in Drawn(m') by {
      assert m'[ax].Some? && m'[ax].value == l;
    }
    forall y | y in Drawn(m')
      ensures y in Drawn(m) + {l}
    {
      var a :| a in m' && m'[a].Some? && m'[a].value == y;
      if a != ax {
        assert m[a].Some? && m[a].value == y;
      }
    }
    forall y | y in Drawn(m)
      ensures y in Drawn(m')
    {
      var a :| a in m && m[a].Some? && m[a].value == y;
      assert m'[a] == m[a];
    }
  }

  /** A non-empty set of axes has a member to pick. */
  lemma HasMember(s: set<Axis>)
    requires s != {}
    ensures exists x :: x in s
  {
    if forall x :: x !in s {
      assert false;
    }
  }

  /** Canvas `c` has its mouse-move and close callbacks connected under
      the ids remembered for it. */
  ghost predicate Subscribed(cids: map<Canvas, (Cid, Cid)>, handlers: map<Cid, Subscription>, c: Canvas)
    requires c in cids
  {
    var (move, close) := cids[c];
    && move != close
    && move in handlers && close in handlers
    && handlers[move].canvas == c
    && handlers[move].event == MouseMove.Value()
    && handlers[move].callback.TrackMouse?
    && handlers[close] == Subscription(c, Close.Value(), CloseTracking)
  }

  /** Every canvas in the id dictionary is subscribed, and every connected
      tracking callback is one whose id is remembered for its canvas: none
      is left behind. */
  ghost predicate CallbacksConnected(cids: map<Canvas, (Cid, Cid)>, handlers: map<Cid, Subscription>)
  {
    && (forall c :: c in cids ==> Subscribed(cids, handlers, c))
    && (forall cid :: cid in handlers && !handlers[cid].callback.Other? ==>
          && handlers[cid].canvas in cids
          && (cid == cids[handlers[cid].canvas].0 || cid == cids[handlers[cid].canvas].1))
  }

  /** The connected callbacks once those remembered for canvas `c`, if
      any, are disconnected. */
  function Released(handlers: map<Cid, Subscription>, cids: map<Canvas, (Cid, Cid)>, c: Canvas)
    : (r: map<Cid, Subscription>)
    ensures forall cid :: cid in r <==> cid in handlers && !(c in cids && (cid == cids[c].0 || cid == cids[c].1))
    ensures forall cid :: cid in r ==> r[cid] == handlers[cid]
  {
    if c in cids then handlers - {cids[c].0, cids[c].1} else handlers
  }

  /** Some tracking callback is connected to canvas `c`. */
  ghost predicate CallbackOn(handlers: map<Cid, Subscription>, c: Canvas)
  {
    exists cid :: cid in handlers && handlers[cid].canvas == c && !handlers[cid].callback.Other?
  }

  /** Disconnecting the two callbacks of a canvas and forgetting its ids
      keeps the others connected and leaves no tracking callback on it. */
  lemma Unsubscribing(cids: map<Canvas, (Cid, Cid)>, handlers: map<Cid, Subscription>, c: Canvas)
    requires CallbacksConnected(cids, handlers) && c in cids
    ensures CallbacksConnected(cids - {c}, handlers - {cids[c].0, cids[c].1})
    ensures !CallbackOn(handlers - {cids[c].0, cids[c].1}, c)
  {
    var rest, left := cids - {c}, handlers - {cids[c].0, cids[c].1};
    forall c' | c' in rest
      ensures Subscribed(rest, left, c')
    {
      assert Subscribed(cids, handlers, c');
    }
  }

  /** Connecting both callbacks of an untracked canvas under fresh ids and
      remembering them keeps everything connected. */
  lemma Subscribing(cids: map<Canvas, (Cid, Cid)>, handlers: map<Cid, Subscription>, c: Canvas,
                    move: Cid, close: Cid, converter: Option<real -> real>, style: Style)
    requires CallbacksConnected(cids, handlers) && c !in cids
    requires move !in handlers && close !in handlers && move != close
    ensures CallbacksConnected(cids[c := (move, close)],
      handlers[move := Subscription(c, MouseMove.Value(), TrackMouse(converter, style))]
              [close := Subscription(c, Close.Value(), CloseTracking)])
  {
    var cids', handlers' := cids[c := (move, close)],
      handlers[move := Subscription(c, MouseMove.Value(), TrackMouse(converter, style))]
              [close := Subscription(c, Close.Value(), CloseTracking)];
    forall c' | c' in cids'
      ensures Subscribed(cids', handlers', c')
    {
      if c' != c {
        assert Subscribed(cids, handlers, c');
      }
    }
  }

  /** The two dictionaries of plotting.py, over the matplotlib state. */
  class Tracker {
    const world: Figures
    /** `_mouse_tracking_vertical_lines_cid`: mouse-move and close callback ids. */
    var cids: map<Canvas, (Cid, Cid)>
    /** `_mouse_tracking_vertical_lines`: the line on each tracked axes, if any. */
    var tracked: map<Canvas, map<Axis, Option<Line>>>
    /** Which dictionary slot a line was drawn for. */
    ghost var owner: map<Line, (Canvas, Axis)>

    /** Every line the dictionary holds is drawn, on its own axes, and no
        line is held by two slots. */
    ghost predicate LinesDrawn()
      reads this, world
    {
      forall c, ax :: c in tracked && ax in tracked[c] && tracked[c][ax].Some? ==>
        && tracked[c][ax].value in world.lines
        && world.lines[tracked[c][ax].value].ax == ax
        && tracked[c][ax].value in owner
        && owner[tracked[c][ax].value] == (c, ax)
    }

    ghost predicate Valid()
      reads this, world
    {
      && world.Valid()
      && cids.Keys == tracked.Keys
      && CallbacksConnected(cids, world.handlers)
      && LinesDrawn()
    }

    constructor (figures: Figures)
      requires figures.Valid()
      requires forall cid :: cid in figures.handlers ==> figures.handlers[cid].callback.Other?
      ensures Valid() && world == figures
      ensures cids == map[] && tracked == map[]
    {
      world := figures;
      cids, tracked := map[], map[];
      owner := map[];
    }

    /** `remove_lines`: every line of canvas `c` is removed from its axes
        and its slot emptied; the tracked axes stay. */
    method RemoveLines(c: Canvas)
      requires world.Valid() && LinesDrawn() && c in tracked
      modifies this, world
      ensures world.Valid() && LinesDrawn()
      ensures tracked == old(tracked)[c := Cleared(old(tracked[c]))]
      ensures world.lines == old(world.lines) - Drawn(old(tracked[c]))
      ensures cids == old(cids) && world.handlers == old(world.handlers) && world.nextCid == old(world.nextCid)
      ensures world.redraws == old(world.redraws) && world.nextLine == old(world.nextLine)
    {
      ghost var m0 := tracked[c];
      ghost var done: set<Axis> := {};
      var todo := tracked[c].Keys;
      assert ClearedOn(m0, done) == m0;
      while todo != {}
        invariant world.Valid() && LinesDrawn()
        invariant todo <= m0.Keys && done == m0.Keys - todo
        invariant tracked == old(tracked)[c := ClearedOn(m0, done)]
        invariant world.lines == old(world.lines) - DrawnOn(m0, done)
        invariant cids == old(cids) && world.handlers == old(world.handlers) && world.nextCid == old(world.nextCid)
        invariant world.redraws == old(world.redraws) && world.nextLine == old(world.nextLine)
        decreases todo
      {
        HasMember(todo);
        var ax: Axis :| ax in todo;
        DrawnOnOneMore(m0, done, ax);
        ClearedOnOneMore(m0, done, ax);
        ClearSlot(c, ax);
        done := done + {ax};
        todo := todo - {ax};
      }
      assert done == m0.Keys;
      assert ClearedOn(m0, done) == Cleared(m0);
      assert DrawnOn(m0, done) == Drawn(m0);
    }

    /** One step of `remove_lines`: the line of axes `ax`, if any, is
        removed and its slot emptied. */
    method ClearSlot(c: Canvas, ax: Axis)
      requires world.Valid() && LinesDrawn() && c in tracked && ax in tracked[c]
      modifies this, world
      ensures world.Valid() && LinesDrawn()
      ensures tracked == old(tracked)[c := old(tracked[c])[ax := None]]
      ensures world.lines == old(world.lines) - Held(old(tracked[c][ax]))
      ensures cids == old(cids) && world.handlers == old(world.handlers) && world.nextCid == old(world.nextCid)
      ensures world.redraws == old(world.redraws) && world.nextLine == old(world.nextLine)
    {
      if tracked[c][ax].Some? {
        var l := tracked[c][ax].value;
        world.RemoveLine(l);
        tracked := tracked[c := tracked[c][ax := None]];
        owner := owner - {l};
      } else {
        tracked := tracked[c := tracked[c][ax := None]];
      }
    }

    /** The loop of `on_mouse_move` that draws: a new line at `x` on every
        tracked axes of canvas `c`, whose slots are all empty. */
    method DrawLines(c: Canvas, x: real, style: Style)
      requires world.Valid() && LinesDrawn() && c in tracked
      requires forall ax :: ax in tracked[c] ==> tracked[c][ax] == None
      modifies this, world
      ensures world.Valid() && LinesDrawn()
      ensures c in tracked && tracked == old(tracked)[c := tracked[c]]
      ensures tracked[c].Keys == old(tracked[c]).Keys
      ensures forall ax :: ax in tracked[c] ==>
        && tracked[c][ax].Some?
        && old(world.nextLine) <= tracked[c][ax].value
        && world.lines[tracked[c][ax].value] == Placement(ax, x, style)
      ensures world.lines.Keys == old(world.lines).Keys + Drawn(tracked[c])
      ensures forall l :: l in old(world.lines) ==> world.lines[l] == old(world.lines)[l]
      ensures cids == old(cids) && world.handlers == old(world.handlers) && world.nextCid == old(world.nextCid)
      ensures world.redraws == old(world.redraws)
    {
      ghost var m0 := tracked[c];
      ghost var done: set<Axis> := {};
      var todo := tracked[c].Keys;
      assert Drawn(tracked[c]) == {};
      while todo != {}
        invariant world.Valid() && LinesDrawn()
        invariant todo <= m0.Keys && done == m0.Keys - todo
        invariant c in tracked && tracked == old(tracked)[c := tracked[c]]
        invariant tracked[c].Keys == m0.Keys
        invariant forall ax :: ax in todo ==> tracked[c][ax] == None
        invariant forall ax :: ax in done ==>
          && tracked[c][ax].Some?
          && old(world.nextLine) <= tracked[c][ax].value
          && world.lines[tracked[c][ax].value] == Placement(ax, x, style)
        invariant world.lines.Keys == old(world.lines).Keys + Drawn(tracked[c])
        invariant forall l :: l in old(world.lines) ==> world.lines[l] == old(world.lines)[l]
        invariant old(world.nextLine) <= world.nextLine
        invariant cids == old(cids) && world.handlers == old(world.handlers) && world.nextCid == old(world.nextCid)
        invariant world.redraws == old(world.redraws)
        decreases todo
      {
        HasMember(todo);
        var ax: Axis :| ax in todo;
        ghost var before := tracked[c];
        var l := DrawSlot(c, ax, x, style);
        DrawnFillOne(before, ax, l);
        done := done + {ax};
        todo := todo - {ax};
      }
    }

    /** One step of the drawing loop: `my_axes[ax] = ax.axvline(...)`. */
    method DrawSlot(c: Canvas, ax: Axis, x: real, style: Style) returns (l: Line)
      requires world.Valid() && LinesDrawn() && c in tracked && ax in tracked[c]
      requires tracked[c][ax] == None
      modifies this, world
      ensures world.Valid() && LinesDrawn()
      ensures old(world.nextLine) <= l < world.nextLine && l !in old(world.lines)
      ensures tracked == old(tracked)[c := old(tracked[c])[ax := Some(l)]]
      ensures world.lines == old(world.lines)[l := Placement(ax, x, style)]
      ensures cids == old(cids) && world.handlers == old(world.handlers) && world.nextCid == old(world.nextCid)
      ensures world.redraws == old(world.redraws)
    {
      l := world.AxVLine(ax, x, style);
      tracked := tracked[c := tracked[c][ax := Some(l)]];
      owner := owner[l := (c, ax)];
    }

    /** `on_mouse_move` for a mouse position over canvas `c`, with the
        converter and line style of the call that connected it: the old
        lines go; when the mouse is inside the axes area, a new line at the
        (converted) position is drawn on every tracked axes and a redraw
        is requested. */
    method OnMouseMove(c: Canvas, xdata: Option<real>, converter: Option<real -> real>, style: Style)
      requires Valid() && c in tracked
      modifies this, world
      ensures Valid()
      ensures cids == old(cids) && world.handlers == old(world.handlers) && world.nextCid == old(world.nextCid)
      ensures c in tracked && tracked == old(tracked)[c := tracked[c]]
      ensures tracked[c].Keys == old(tracked[c]).Keys
      ensures xdata.None? ==>
        && tracked[c] == Cleared(old(tracked[c]))
        && world.lines == old(world.lines) - Drawn(old(tracked[c]))
        && world.redraws == old(world.redraws)
      ensures xdata.Some? ==>
        && (forall ax :: ax in tracked[c] ==>
              && tracked[c][ax].Some?
              && tracked[c][ax].value !in old(world.lines)
              && world.lines[tracked[c][ax].value] == Placement(ax, Converted(xdata.value, converter), style))
        && world.lines.Keys == (old(world.lines).Keys - Drawn(old(tracked[c]))) + Drawn(tracked[c])
        && world.redraws == old(world.redraws) + [c]
      ensures forall l :: l in old(world.lines) && l in world.lines ==> world.lines[l] == old(world.lines)[l]
    {
      RemoveLines(c);
      if xdata.None? {
        return;
      }
      var x := Converted(xdata.value, converter);
      DrawLines(c, x, style);
      world.DrawIdle(c);
    }

    /** `on_close` for canvas `c`: when tracking is enabled there, both
        callbacks are disconnected, the lines removed and both dictionary
        entries deleted; otherwise nothing happens. */
    method OnClose(c: Canvas)
      requires Valid()
      modifies this, world
      ensures Valid()
      ensures c !in cids && c !in tracked
      ensures c !in old(cids) ==>
        && cids == old(cids) && tracked == old(tracked)
        && world.handlers == old(world.handlers) && world.lines == old(world.lines)
      ensures c in old(cids) ==>
        && cids == old(cids) - {c} && tracked == old(tracked) - {c}
        && world.handlers == old(world.handlers) - {old(cids[c]).0, old(cids[c]).1}
        && world.lines == old(world.lines) - Drawn(old(tracked[c]))
      ensures world.redraws == old(world.redraws) && world.nextCid == old(world.nextCid)
      // no tracking callback is left connected to the canvas
      ensures forall cid :: cid in world.handlers && world.handlers[cid].canvas == c ==>
        world.handlers[cid].callback.Other?
    {
      if c in cids {
        StopTracking(c);
      } else {
        assert !CallbackOn(world.handlers, c);
      }
    }

    /** The work of `on_close` on a tracked canvas. */
    method StopTracking(c: Canvas)
      requires Valid() && c in cids
      modifies this, world
      ensures Valid()
      ensures cids == old(cids) - {c} && tracked == old(tracked) - {c}
      ensures world.handlers == old(world.handlers) - {old(cids[c]).0, old(cids[c]).1}
      ensures world.lines == old(world.lines) - Drawn(old(tracked[c]))
      ensures world.redraws == old(world.redraws) && world.nextCid == old(world.nextCid)
      ensures !CallbackOn(world.handlers, c)
    {
      Unsubscribe(c);
      RemoveLines(c);
      tracked := tracked - {c};
    }

    /** The first half of `on_close`: both callback ids of canvas `c` are
        unregistered and forgotten. */
    method Unsubscribe(c: Canvas)
      requires world.Valid() && LinesDrawn() && c in cids && CallbacksConnected(cids, world.handlers)
      modifies this, world
      ensures world.Valid() && LinesDrawn() && CallbacksConnected(cids, world.handlers)
      ensures cids == old(cids) - {c} && tracked == old(tracked)
      ensures world.handlers == old(world.handlers) - {old(cids[c]).0, old(cids[c]).1}
      ensures world.lines == old(world.lines) && world.redraws == old(world.redraws)
      ensures world.nextCid == old(world.nextCid) && world.nextLine == old(world.nextLine)
      ensures !CallbackOn(world.handlers, c)
    {
      var (move, close) := cids[c];
      Unsubscribing(cids, world.handlers, c);
      UnregisterEvent(world, c, move);
      UnregisterEvent(world, c, close);
      cids := cids - {c};
    }

    /** plotting.py `add_mouse_tracking_vertical_line`: tracking on the
        figure's canvas is first switched off as by a close event; then,
        unless `to_axes` is `None`, the given axes are tracked with no line
        yet and the mouse-move and close callbacks are connected. */
    method AddMouseTrackingVerticalLine(c: Canvas, target: Target,
                                        converter: Option<real -> real>, style: Style)
      requires Valid()
      modifies this, world
      ensures Valid()
      ensures target.NoTarget? ==> c !in cids && c !in tracked
      ensures !target.NoTarget? ==>
        && c in cids
        && tracked[c] == Cleared(tracked[c]) && tracked[c].Keys == TrackedAxes(target)
        && world.handlers[cids[c].0] == Subscription(c, MouseMove.Value(), TrackMouse(converter, style))
        && world.handlers[cids[c].1] == Subscription(c, Close.Value(), CloseTracking)
      // the tracking callbacks of an earlier call on the canvas are gone, two
      // fresh ones are connected unless `to_axes` is `None`, and every other
      // callback stays as it was
      ensures target.NoTarget? ==> world.handlers == Released(old(world.handlers), old(cids), c)
      ensures !target.NoTarget? ==>
        && old(world.nextCid) <= cids[c].0 && old(world.nextCid) <= cids[c].1
        && world.handlers == Released(old(world.handlers), old(cids), c)
             [cids[c].0 := Subscription(c, MouseMove.Value(), TrackMouse(converter, style))]
             [cids[c].1 := Subscription(c, Close.Value(), CloseTracking)]
      ensures world.lines == old(world.lines) - (if c in old(tracked) then Drawn(old(tracked[c])) else {})
      // other canvases are left alone
      ensures forall c' :: c' != c ==>
        && (c' in cids <==> c' in old(cids))
        && (c' in cids ==> cids[c'] == old(cids[c']) && tracked[c'] == old(tracked[c']))
      ensures world.redraws == old(world.redraws)
    {
      ghost var before := if c in cids then Some(cids[c]) else None;
      assert before.Some? ==> before.value.0 < world.nextCid && before.value.1 < world.nextCid;
      ghost var released := Released(world.handlers, cids, c);
      OnClose(c);
      assert world.handlers == released;
      if target.NoTarget? {
        return;
      }
      StartTracking(c, TrackedAxes(target), converter, style);
    }

    /** The work of `add_mouse_tracking_vertical_line` once the canvas is
        untracked: the axes are tracked with no line, and both callbacks
        are connected under fresh ids. */
    method StartTracking(c: Canvas, axes: set<Axis>, converter: Option<real -> real>, style: Style)
      requires Valid() && c !in cids
      modifies this, world
      ensures Valid()
      ensures c in cids && old(world.nextCid) <= cids[c].0 && old(world.nextCid) <= cids[c].1
      ensures cids == old(cids)[c := cids[c]]
      ensures tracked == old(tracked)[c := map ax | ax in axes :: None]
      ensures world.handlers == old(world.handlers)
        [cids[c].0 := Subscription(c, MouseMove.Value(), TrackMouse(converter, style))]
        [cids[c].1 := Subscription(c, Close.Value(), CloseTracking)]
      ensures world.lines == old(world.lines) && world.redraws == old(world.redraws)
    {
      tracked := tracked[c := map ax | ax in axes :: None];
      ghost var handlers0 := world.handlers;
      var move := RegisterEvent(world, c, MouseMove, TrackMouse(converter, style));
      var close := RegisterEvent(world, c, Close, CloseTracking);
      Subscribing(cids, handlers0, c, move, close, converter, style);
      cids := cids[c := (move, close)];
    }

    /** matplotlib calling the callback connected under `cid`. The callbacks
        the tracking code connected only fire for canvases it still tracks,
        so the dictionary lookup in `on_mouse_move` always succeeds. */
    method Dispatch(cid: Cid, xdata: Option<real>)
      requires Valid() && cid in world.handlers
      modifies this, world
      ensures Valid()
    {
      var sub := world.handlers[cid];
      match sub.callback {
        case TrackMouse(converter, style) =>
          OnMouseMove(sub.canvas, xdata, converter, style);
        case CloseTracking =>
          OnClose(sub.canvas);
        case Other(_) =>
      }
    }
  }
}
