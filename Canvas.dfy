/** The whiteboard canvas: the mouse handlers turn a press-drag-release gesture
    into one drawing command, and each committed path is drawn from the points
    its tool uses.

    The handlers change `isDrawing` and `currentPath` step by step and are the
    class `GestureState`; `MouseDown` … `MouseOut` are the same steps as
    functions, used to reason about whole sequences of mouse events. */
module Canvas {
  import opened Types

  /** The canvas props in force when an event arrives. */
  datatype Brush = Brush(tool: Tool, color: Color, size: real)

  /** The gesture state: whether a stroke is in progress and its points so far. */
  datatype Gesture = Gesture(isDrawing: bool, currentPath: seq<Point>)

  /** The state the canvas starts in. */
  const Idle := Gesture(false, [])

  /** The command a release turns the current gesture into. */
  function Command(g: Gesture, brush: Brush): (pd: PathData)
    ensures pd.points == g.currentPath
    ensures pd.tool == brush.tool && pd.color == brush.color && pd.size == brush.size
  {
    PathData(brush.tool, g.currentPath, brush.color, brush.size)
  }

  /** The gesture after a handler, and the command it sent, if any. */
  datatype Stepped = Stepped(gesture: Gesture, command: Option<PathData>)

  /** Press: start a stroke at the mouse position. */
  function MouseDown(g: Gesture, position: Point): (r: Gesture)
    ensures r.isDrawing && r.currentPath == [position]
  {
    Gesture(true, [position])
  }

  /** Drag: extend the stroke only while drawing. */
  function MouseMove(g: Gesture, position: Point): (r: Gesture)
    ensures r.isDrawing == g.isDrawing
    ensures g.isDrawing ==> r.currentPath == g.currentPath + [position]
    ensures !g.isDrawing ==> r.currentPath == g.currentPath
  {
    if g.isDrawing then g.(currentPath := g.currentPath + [position]) else g
  }

  /** Release: send exactly one command and return to idle, but only for a
      stroke in progress with at least one point; otherwise nothing happens. */
  function MouseUp(g: Gesture, brush: Brush): (r: Stepped)
    ensures g.isDrawing && |g.currentPath| > 0 ==> r == Stepped(Idle, Some(Command(g, brush)))
    ensures !(g.isDrawing && |g.currentPath| > 0) ==> r == Stepped(g, None)
  {
    if g.isDrawing && |g.currentPath| > 0 then Stepped(Idle, Some(Command(g, brush))) else Stepped(g, None)
  }

  /** Leaving the canvas ends a stroke in progress like a release does. */
  function MouseOut(g: Gesture, brush: Brush): (r: Stepped)
    ensures g.isDrawing ==> r == MouseUp(g, brush)
    ensures !g.isDrawing ==> r == Stepped(g, None)
  {
    if g.isDrawing then MouseUp(g, brush) else Stepped(g, None)
  }

  datatype MouseEvent = Down(position: Point) | Move(position: Point) | Up(brush: Brush) | Out(brush: Brush)

  function Step(g: Gesture, e: MouseEvent): Stepped
  {
    match e
    case Down(p) => Stepped(MouseDown(g, p), None)
    case Move(p) => Stepped(MouseMove(g, p), None)
    case Up(b) => MouseUp(g, b)
    case Out(b) => MouseOut(g, b)
  }

  /** The gesture after a sequence of events, and every command sent, in order. */
  datatype Ran = Ran(gesture: Gesture, commands: seq<PathData>)

  function Run(g: Gesture, events: seq<MouseEvent>): Ran
    decreases |events|
  {
    if events == [] then Ran(g, [])
    else
      var s := Step(g, events[0]);
      var rest := Run(s.gesture, events[1..]);
      Ran(rest.gesture, Sent(s) + rest.commands)
  }

  /** The command a handler sent, as a sequence of zero or one. */
  function Sent(s: Stepped): seq<PathData>
  {
    if s.command.Some? then [s.command.value] else []
  }

  /** The number of mouse-down events. */
  function Presses(events: seq<MouseEvent>): (n: nat)
    ensures n <= |events|
    ensures n == 0 <==> forall i :: 0 <= i < |events| ==> !events[i].Down?
    decreases |events|
  {
    if events == [] then 0 else (if events[0].Down? then 1 else 0) + Presses(events[1..])
  }

  function Positions(moves: seq<MouseEvent>): seq<Point>
    requires forall e :: e in moves ==> e.Move?
    decreases |moves|
  {
    if moves == [] then [] else [moves[0].position] + Positions(moves[1..])
  }

  /** The states the handlers can reach from `Idle`: an idle canvas holds no
      points and a stroke in progress holds at least its starting point. */
  predicate Settled(g: Gesture)
  {
    (!g.isDrawing ==> g.currentPath == []) && (g.isDrawing ==> |g.currentPath| >= 1)
  }

  function Pending(g: Gesture): nat
  {
    if g.isDrawing then 1 else 0
  }

  /** Over any sequence of mouse events every command sent has at least one
      point, and a command is only ever sent for a press not yet released. */
  lemma {:induction false} RunSendsOnePerPress(g: Gesture, events: seq<MouseEvent>)
    requires Settled(g)
    ensures Settled(Run(g, events).gesture)
    ensures forall c :: c in Run(g, events).commands ==> |c.points| >= 1
    ensures |Run(g, events).commands| + Pending(Run(g, events).gesture) <= Presses(events) + Pending(g)
    decreases |events|
  {
    if events != [] {
      var s := Step(g, events[0]);
      RunSendsOnePerPress(s.gesture, events[1..]);
    }
  }

  /** From the idle canvas, no more commands than presses. */
  lemma CommandsBoundedByPresses(events: seq<MouseEvent>)
    ensures |Run(Idle, events).commands| <= Presses(events)
    ensures forall c :: c in Run(Idle, events).commands ==> |c.points| >= 1
  {
    RunSendsOnePerPress(Idle, events);
  }

  /** Dragging extends the stroke by exactly the positions passed over, in order. */
  lemma {:induction false} DragCollectsPositions(g: Gesture, moves: seq<MouseEvent>)
    requires g.isDrawing
    requires forall e :: e in moves ==> e.Move?
    ensures Run(g, moves) == Ran(Gesture(true, g.currentPath + Positions(moves)), [])
    decreases |moves|
  {
    if moves != [] {
      var g' := MouseMove(g, moves[0].position);
      DragCollectsPositions(g', moves[1..]);
      assert g.currentPath + [moves[0].position] + Positions(moves[1..]) == g.currentPath + Positions(moves);
    }
  }

  /** A press, a drag and a release send exactly one command, whose points are
      the press position followed by every position dragged over. */
  lemma OneGestureOneCommand(p: Point, moves: seq<MouseEvent>, brush: Brush)
    requires forall e :: e in moves ==> e.Move?
    ensures Run(Idle, [Down(p)] + moves + [Up(brush)])
         == Ran(Idle, [PathData(brush.tool, [p] + Positions(moves), brush.color, brush.size)])
  {
    var g := MouseDown(Idle, p);
    DragCollectsPositions(g, moves);
    RunAppend(g, moves, [Up(brush)]);
    assert ([Down(p)] + moves + [Up(brush)])[1..] == moves + [Up(brush)];
  }

  /** Running two sequences one after the other. */
  lemma {:induction false} RunAppend(g: Gesture, a: seq<MouseEvent>, b: seq<MouseEvent>)
    ensures Run(g, a + b) == Ran(Run(Run(g, a).gesture, b).gesture, Run(g, a).commands + Run(Run(g, a).gesture, b).commands)
    decreases |a|
  {
    if a == [] {
      assert a + b == b;
    } else {
      var s := Step(g, a[0]);
      assert (a + b)[0] == a[0] && (a + b)[1..] == a[1..] + b;
      RunAppend(s.gesture, a[1..], b);
      var mid := Run(s.gesture, a[1..]);
      var last := Run(mid.gesture, b);
      assert Sent(s) + (mid.commands + last.commands) == (Sent(s) + mid.commands) + last.commands;
    }
  }

  /** The mouse handlers over the component's state. */
  class GestureState {
    var isDrawing: bool
    var currentPath: seq<Point>

    function Value(): Gesture
      reads this
    {
      Gesture(isDrawing, currentPath)
    }

    constructor ()
      ensures Value() == Idle
    {
      isDrawing, currentPath := false, [];
    }

    method HandleMouseDown(position: Point)
      modifies this
      ensures Value() == MouseDown(old(Value()), position)
    {
      isDrawing := true;
      currentPath := [position];
    }

    /** Every move is offered to the cursor channel (`cursor`); the stroke grows
        only while drawing. */
    method HandleMouseMove(position: Point) returns (cursor: Point)
      modifies this
      ensures cursor == position
      ensures Value() == MouseMove(old(Value()), position)
    {
      cursor := position;
      if isDrawing {
        currentPath := currentPath + [position];
      }
    }

    method HandleMouseUp(brush: Brush) returns (command: Option<PathData>)
      modifies this
      ensures Stepped(Value(), command) == MouseUp(old(Value()), brush)
    {
      command := None;
      if isDrawing && |currentPath| > 0 {
        command := Some(PathData(brush.tool, currentPath, brush.color, brush.size));
        isDrawing := false;
        currentPath := [];
      }
    }

    method HandleMouseOut(brush: Brush) returns (command: Option<PathData>)
      modifies this
      ensures Stepped(Value(), command) == MouseOut(old(Value()), brush)
    {
      command := None;
      if isDrawing {
        command := HandleMouseUp(brush);
      }
    }
  }

  /** The shape a path is drawn as; only the points its tool uses are kept. */
  datatype Outline =
    | Polyline(points: seq<Point>)
    | Segment(start: Point, end: Point)
    | Box(start: Point, end: Point)
    | Disc(center: Point, rim: Point)

  /** One path as it is painted: outline, stroke colour, line width and fill. */
  datatype Stroke = Stroke(outline: Outline, strokeStyle: Color, lineWidth: real, fill: Option<Color>)

  /** The background colour the eraser paints with. */
  const EraserColor: Color := "#f5f5f5"
  const Transparent: Color := "transparent"

  /** How a tool draws a sequence of points; nothing for an empty sequence.
      Pencil and eraser go through every point; line, rectangle and circle are
      fixed by the first and the last point alone. */
  function Render(tool: Tool, points: seq<Point>, color: Color, size: real): (r: Option<Stroke>)
    ensures r.None? <==> |points| < 1
    ensures r.Some? ==> r.value.lineWidth == size
    ensures r.Some? && tool == Eraser ==> r.value.strokeStyle == EraserColor && r.value.fill == None
    ensures r.Some? && tool != Eraser ==> r.value.strokeStyle == color
    ensures r.Some? && (tool == Pencil || tool == Eraser) ==> r.value.outline == Polyline(points)
    ensures r.Some? && tool == Line ==> r.value.outline == Segment(points[0], points[|points| - 1])
    ensures r.Some? && tool == Rect ==> r.value.outline == Box(points[0], points[|points| - 1])
    ensures r.Some? && tool == Circle ==> r.value.outline == Disc(points[0], points[|points| - 1])
    ensures r.Some? && (tool == Rect || tool == Circle) && color != Transparent ==> r.value.fill == Some(color)
    ensures r.Some? && !((tool == Rect || tool == Circle) && color != Transparent) ==> r.value.fill == None
  {
    if |points| < 1 then None
    else
      var first, last := points[0], points[|points| - 1];
      var fill := if color != Transparent then Some(color) else None;
      var style := if tool == Eraser then EraserColor else color;
      match tool
      case Pencil => Some(Stroke(Polyline(points), style, size, None))
      case Eraser => Some(Stroke(Polyline(points), style, size, None))
      case Line => Some(Stroke(Segment(first, last), style, size, None))
      case Rect => Some(Stroke(Box(first, last), style, size, fill))
      case Circle => Some(Stroke(Disc(first, last), style, size, fill))
  }

  /** A committed path as the canvas draws it. */
  function RenderPath(p: DrawingPath): Option<Stroke>
  {
    Render(p.tool, p.points, p.color, p.size)
  }

  /** The stroke in progress as the canvas previews it. */
  function Preview(g: Gesture, brush: Brush): Option<Stroke>
  {
    if g.isDrawing && |g.currentPath| > 0 then Render(brush.tool, g.currentPath, brush.color, brush.size) else None
  }

  /** Line, rectangle and circle ignore every point between the first and the last. */
  lemma EndpointToolsIgnoreInterior(tool: Tool, a: seq<Point>, b: seq<Point>, color: Color, size: real)
    requires tool == Line || tool == Rect || tool == Circle
    requires |a| >= 1 && |b| >= 1 && a[0] == b[0] && a[|a| - 1] == b[|b| - 1]
    ensures Render(tool, a, color, size) == Render(tool, b, color, size)
  {
  }

  /** Rectangles and circles are filled with their colour unless it is
      "transparent"; other tools are never filled. */
  lemma FillRule(tool: Tool, points: seq<Point>, color: Color, size: real)
    requires |points| >= 1
    ensures Render(tool, points, color, size).value.fill ==
      if (tool == Rect || tool == Circle) && color != Transparent then Some(color) else None
  {
  }

  /** What is previewed while dragging is exactly what the released command
      will be drawn as, once stamped with any author. */
  lemma PreviewIsCommittedDrawing(g: Gesture, brush: Brush, userId: SocketId, username: string, userColor: Color)
    requires g.isDrawing && |g.currentPath| > 0
    ensures Preview(g, brush) == RenderPath(WithAuthor(MouseUp(g, brush).command.value, userId, username, userColor))
    ensures Preview(g, brush).Some?
  {
  }
}
