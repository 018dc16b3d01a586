/** The part of matplotlib that plotting.py's event helpers and mouse
    tracking touch, as an abstract registry: the callbacks connected to each
    canvas, the vertical lines drawn on axes, and the redraw requests. Axes,
    canvases, lines and callback ids are bare identities. */
module PlotEvents {
  import opened Common

  type Canvas = int
  type Axis = int
  type Line = int
  type Cid = int

  /** The `Event` enum of plotting.py: a matplotlib event name per member. */
  datatype Event =
    | MouseButtonPress | MouseButtonRelease | KeyPress | KeyRelease | MouseMove | Close
  {
    function Value(): string
    {
      match this
      case MouseButtonPress => "button_press_event"
      case MouseButtonRelease => "button_release_event"
      case KeyPress => "key_press_event"
      case KeyRelease => "key_release_event"
      case MouseMove => "motion_notify_event"
      case Close => "close_event"
    }
  }

  /** Each member names a different matplotlib event. */
  lemma EventValuesAreDistinct(a: Event, b: Event)
    requires a != b
    ensures a.Value() != b.Value()
  {
  }

  /** The keyword arguments passed on to `axvline`. */
  datatype Style = Style(kwargs: seq<(string, string)>)

  /** A connected callback: the mouse-tracking code's mouse-move handler,
      which carries the converter and line style of the call that made it,
      its close handler, or any other function, known by an identity. */
  datatype Callback =
    | TrackMouse(converter: Option<real -> real>, style: Style)
    | CloseTracking
    | Other(id: nat)

  /** A connected callback: the canvas, the event name and the callback. */
  datatype Subscription = Subscription(canvas: Canvas, event: string, callback: Callback)

  /** A vertical line on an axes, at data coordinate `x`. */
  datatype Placement = Placement(ax: Axis, x: real, style: Style)

  /** The matplotlib state the modelled code reads and changes. Callback ids
      and lines are handed out fresh, as `mpl_connect` and `axvline` do. */
  class Figures {
    var handlers: map<Cid, Subscription>
    var nextCid: Cid
    var lines: map<Line, Placement>
    var nextLine: Line
    var redraws: seq<Canvas>

    ghost predicate Valid()
      reads this
    {
      && (forall cid :: cid in handlers ==> cid < nextCid)
      && (forall l :: l in lines ==> l < nextLine)
    }

    constructor ()
      ensures Valid()
      ensures handlers == map[] && lines == map[] && redraws == []
    {
      handlers, nextCid := map[], 0;
      lines, nextLine := map[], 0;
      redraws := [];
    }

    /** `canvas.mpl_connect(event, callback)`: a new callback id. */
    method Connect(canvas: Canvas, event: string, callback: Callback) returns (cid: Cid)
      requires Valid()
      modifies this
      ensures Valid() && cid !in old(handlers) && old(nextCid) <= cid < nextCid
      ensures handlers == old(handlers)[cid := Subscription(canvas, event, callback)]
      ensures lines == old(lines) && redraws == old(redraws) && nextLine == old(nextLine)
    {
      cid := nextCid;
      handlers := handlers[cid := Subscription(canvas, event, callback)];
      nextCid := nextCid + 1;
    }

    /** `canvas.mpl_disconnect(cid)`: the id is removed from that canvas'
        registry; an id the canvas does not know is ignored. */
    method Disconnect(canvas: Canvas, cid: Cid)
      requires Valid()
      modifies this
      ensures Valid()
      ensures cid in old(handlers) && old(handlers)[cid].canvas == canvas ==> handlers == old(handlers) - {cid}
      ensures !(cid in old(handlers) && old(handlers)[cid].canvas == canvas) ==> handlers == old(handlers)
      ensures lines == old(lines) && redraws == old(redraws) && nextLine == old(nextLine)
      ensures nextCid == old(nextCid)
    {
      if cid in handlers && handlers[cid].canvas == canvas {
        handlers := handlers - {cid};
      }
    }

    /** `ax.axvline(x=x, **style)`: a new line. */
    method AxVLine(ax: Axis, x: real, style: Style) returns (l: Line)
      requires Valid()
      modifies this
      ensures Valid() && old(nextLine) <= l < nextLine
      ensures lines == old(lines)[l := Placement(ax, x, style)]
      ensures handlers == old(handlers) && redraws == old(redraws) && nextCid == old(nextCid)
    {
      l := nextLine;
      lines := lines[l := Placement(ax, x, style)];
      nextLine := nextLine + 1;
    }

    /** `line.remove()` of a line that is drawn. */
    method RemoveLine(l: Line)
      requires Valid() && l in lines
      modifies this
      ensures Valid()
      ensures lines == old(lines) - {l}
      ensures handlers == old(handlers) && redraws == old(redraws) && nextLine == old(nextLine)
      ensures nextCid == old(nextCid)
    {
      lines := lines - {l};
    }

    /** `canvas.draw_idle()`: a redraw request is recorded. */
    method DrawIdle(canvas: Canvas)
      requires Valid()
      modifies this
      ensures Valid()
      ensures redraws == old(redraws) + [canvas]
      ensures handlers == old(handlers) && lines == old(lines) && nextLine == old(nextLine)
      ensures nextCid == old(nextCid)
    {
      redraws := redraws + [canvas];
    }
  }

  /** plotting.py `register_event`: connects `callback` to the event's name
      on the canvas and returns the new callback id. */
  method RegisterEvent(world: Figures, canvas: Canvas, event: Event, callback: Callback)
    returns (cid: Cid)
    requires world.Valid()
    modifies world
    ensures world.Valid() && cid !in old(world.handlers) && old(world.nextCid) <= cid < world.nextCid
    ensures world.handlers == old(world.handlers)[cid := Subscription(canvas, event.Value(), callback)]
    ensures world.lines == old(world.lines) && world.redraws == old(world.redraws)
    ensures world.nextLine == old(world.nextLine)
  {
    cid := world.Connect(canvas, event.Value(), callback);
  }

  /** plotting.py `unregister_event`: disconnects the callback id from the
      figure's canvas. A callback of another canvas stays connected. */
  method UnregisterEvent(world: Figures, canvas: Canvas, cid: Cid)
    requires world.Valid()
    modifies world
    ensures world.Valid()
    ensures cid in old(world.handlers) && old(world.handlers)[cid].canvas == canvas ==>
      world.handlers == old(world.handlers) - {cid}
    ensures !(cid in old(world.handlers) && old(world.handlers)[cid].canvas == canvas) ==>
      world.handlers == old(world.handlers)
    ensures world.lines == old(world.lines) && world.redraws == old(world.redraws)
    ensures world.nextLine == old(world.nextLine) && world.nextCid == old(world.nextCid)
  {
    world.Disconnect(canvas, cid);
  }

  /** Registering and then unregistering leaves the registry as it was. */
  method RegisterThenUnregister(world: Figures, canvas: Canvas, event: Event, callback: Callback)
    requires world.Valid()
    modifies world
    ensures world.Valid()
    ensures world.handlers == old(world.handlers)
  {
    var cid := RegisterEvent(world, canvas, event, callback);
    UnregisterEvent(world, canvas, cid);
    assert world.handlers == old(world.handlers)[cid := Subscription(canvas, event.Value(), callback)] - {cid};
  }
}
