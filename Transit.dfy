/** The relay with messages in flight: every socket has a queue of messages
    on their way to the server (`up`) and a queue of messages on their way to
    the client (`down`). A client action, the server handling it and each
    client taking each message it was sent are separate events that other
    events can come between. Socket.IO keeps each queue in order.

    The relay as written (`AsWritten`) shows a stroke and empties the canvas
    locally at once and never echoes a stroke to its sender; in this setting
    two such clients can end with different canvases (see
    `CrossingClearLosesStroke` and `CrossingStrokesReordered`). The corrected
    relay (`Echoed`) leaves the local canvas to the server: a client only
    sends, and `draw-update` goes to every socket, the sender included. Then
    every client that has taken all its messages shows the server's log
    (`EchoedConverges`). */
module Transit {
  import opened Types
  import Server
  import SocketContext

  type Mirror = SocketContext.Mirror

  datatype Protocol = AsWritten | Echoed

  /** The server's state, each connected client's mirror, the two queues of
      every socket, and every id ever connected. */
  datatype Net = Net(
    server: Snapshot,
    clients: map<SocketId, Mirror>,
    up: map<SocketId, seq<ClientMsg>>,
    down: map<SocketId, seq<ServerMsg>>,
    used: set<SocketId>)

  const Start := Net(Snapshot([], map[]), map[], map[], map[], {})

  /** A socket connects; a client acts on its own canvas and queues the
      message; the server takes the oldest message a socket sent; a client
      takes the oldest message sent to it; a socket closes (whatever it had
      not yet delivered is lost). */
  datatype Event =
    | Connect(id: SocketId, roll: real, prior: Mirror)
    | Act(id: SocketId, action: ClientMsg)
    | Serve(id: SocketId)
    | Take(id: SocketId)
    | Close(id: SocketId)

  /** What a client's own action does to its mirror before anything is sent.
      As written, `sendDrawingData` shows the stroke at once and
      `clearCanvas` empties the canvas at once; corrected, the mirror waits
      for the server. */
  function ClientAct(p: Protocol, m: Mirror, action: ClientMsg): (r: Mirror)
    ensures p == Echoed || action.CursorMove? ==> r == m
    ensures p == AsWritten && action.Draw? ==>
      r.drawingPaths == m.drawingPaths + [SocketContext.LocalStamp(action.pathData, m.currentUser)]
    ensures p == AsWritten && action.ClearCanvas? ==> r.drawingPaths == []
    ensures r.users == m.users && r.currentUser == m.currentUser
  {
    match action
    case CursorMove(_) => m
    case Draw(pd) => if p == AsWritten then SocketContext.SendDrawingData(m, pd, true).mirror else m
    case ClearCanvas => if p == AsWritten then SocketContext.ClearCanvasLocally(m, true).mirror else m
  }

  /** The corrected `draw` handler: the same change to the server's state,
      but `draw-update` goes to every socket (`io.emit`), the sender included. */
  function EchoDraw(s: Snapshot, id: SocketId, pd: PathData): (r: Server.Handled)
    requires id in s.users
    ensures r.state == Server.HandleDraw(s, id, pd).state
    ensures |r.state.paths| == |s.paths| + 1
    ensures r.out == [Emit(Everyone, DrawUpdate(r.state.paths[|s.paths|]))]
  {
    var h := Server.HandleDraw(s, id, pd);
    Server.Handled(h.state, [Emit(Everyone, DrawUpdate(h.state.paths[|s.paths|]))])
  }

  /** The server's handler for a message a client sent: as written, or with
      `draw` replaced by `EchoDraw`. */
  function ServerHandle(p: Protocol, s: Snapshot, id: SocketId, msg: ClientMsg): Server.Handled
    requires msg.Draw? ==> id in s.users
  {
    match msg
    case Draw(pd) => if p == AsWritten then Server.HandleDraw(s, id, pd) else EchoDraw(s, id, pd)
    case _ => Server.HandleMessage(s, id, msg)
  }

  /** One emission queued for every socket it addresses, behind what is
      already queued for it. */
  function PostOne(down: map<SocketId, seq<ServerMsg>>, e: Emit): (r: map<SocketId, seq<ServerMsg>>)
    ensures r.Keys == down.Keys
    ensures forall c :: c in down && Receives(e.to, c) ==> r[c] == down[c] + [e.msg]
    ensures forall c :: c in down && !Receives(e.to, c) ==> r[c] == down[c]
  {
    map c | c in down :: if Receives(e.to, c) then down[c] + [e.msg] else down[c]
  }

  /** Emissions queued in the order they were made. */
  function Post(down: map<SocketId, seq<ServerMsg>>, out: seq<Emit>): (r: map<SocketId, seq<ServerMsg>>)
    ensures r.Keys == down.Keys
    decreases |out|
  {
    if out == [] then down else Post(PostOne(down, out[0]), out[1..])
  }

  function ConnectStep(n: Net, id: SocketId, roll: real, prior: Mirror): Net
    requires 0.0 <= roll < 1.0
  {
    var h := Server.HandleConnection(n.server, id, roll);
    Net(h.state, n.clients[id := prior], n.up[id := []], Post(n.down[id := []], h.out), n.used + {id})
  }

  function ActStep(p: Protocol, n: Net, id: SocketId, action: ClientMsg): Net
    requires id in n.clients && id in n.up
  {
    n.(clients := n.clients[id := ClientAct(p, n.clients[id], action)], up := n.up[id := n.up[id] + [action]])
  }

  function ServeStep(p: Protocol, n: Net, id: SocketId): Net
    requires id in n.up && n.up[id] != [] && (n.up[id][0].Draw? ==> id in n.server.users)
  {
    var h := ServerHandle(p, n.server, id, n.up[id][0]);
    n.(server := h.state, up := n.up[id := n.up[id][1..]], down := Post(n.down, h.out))
  }

  function TakeStep(n: Net, id: SocketId): Net
    requires id in n.clients && id in n.down && n.down[id] != []
  {
    n.(clients := n.clients[id := SocketContext.Receive(n.clients[id], n.down[id][0], id)],
       down := n.down[id := n.down[id][1..]])
  }

  function CloseStep(n: Net, id: SocketId): Net
  {
    var h := Server.HandleDisconnect(n.server, id);
    n.(server := h.state, clients := n.clients - {id}, up := n.up - {id}, down := Post(n.down - {id}, h.out))
  }

  /** Events a real run can produce: a fresh id connects, a connected client
      acts, a queue is taken from only when it holds something, and the
      server's `draw` handler only meets registered senders. */
  predicate Enabled(n: Net, e: Event)
  {
    match e
    case Connect(id, roll, _) => id !in n.used && 0.0 <= roll < 1.0
    case Act(id, _) => id in n.clients && id in n.up
    case Serve(id) => id in n.up && n.up[id] != [] && (n.up[id][0].Draw? ==> id in n.server.users)
    case Take(id) => id in n.clients && id in n.down && n.down[id] != []
    case Close(id) => id in n.clients
  }

  function Step(p: Protocol, n: Net, e: Event): Net
    requires Enabled(n, e)
  {
    match e
    case Connect(id, roll, prior) => ConnectStep(n, id, roll, prior)
    case Act(id, action) => ActStep(p, n, id, action)
    case Serve(id) => ServeStep(p, n, id)
    case Take(id) => TakeStep(n, id)
    case Close(id) => CloseStep(n, id)
  }

  predicate Valid(p: Protocol, n: Net, trace: seq<Event>)
    decreases |trace|
  {
    trace == [] || (Enabled(n, trace[0]) && Valid(p, Step(p, n, trace[0]), trace[1..]))
  }

  function Run(p: Protocol, n: Net, trace: seq<Event>): Net
    requires Valid(p, n, trace)
    decreases |trace|
  {
    if trace == [] then n else Run(p, Step(p, n, trace[0]), trace[1..])
  }

  /** A client has taken every message sent to it. */
  predicate Drained(n: Net, c: SocketId)
  {
    c in n.down && n.down[c] == []
  }

  lemma RunOne(p: Protocol, n: Net, e: Event, r: Net)
    requires Enabled(n, e) && Step(p, n, e) == r
    ensures Valid(p, n, [e]) && Run(p, n, [e]) == r
  {
    assert [e][1..] == [];
  }

  lemma RunTwo(p: Protocol, n: Net, e1: Event, n1: Net, e2: Event, r: Net)
    requires Enabled(n, e1) && Step(p, n, e1) == n1
    requires Enabled(n1, e2) && Step(p, n1, e2) == r
    ensures Valid(p, n, [e1, e2]) && Run(p, n, [e1, e2]) == r
  {
    RunOne(p, n1, e2, r);
    assert [e1, e2][1..] == [e2];
  }

  lemma RunThree(p: Protocol, n: Net, e1: Event, n1: Net, e2: Event, n2: Net, e3: Event, r: Net)
    requires Enabled(n, e1) && Step(p, n, e1) == n1
    requires Enabled(n1, e2) && Step(p, n1, e2) == n2
    requires Enabled(n2, e3) && Step(p, n2, e3) == r
    ensures Valid(p, n, [e1, e2, e3]) && Run(p, n, [e1, e2, e3]) == r
  {
    RunTwo(p, n1, e2, n2, e3, r);
    assert [e1, e2, e3][1..] == [e2, e3];
  }

  lemma PostSingle(down: map<SocketId, seq<ServerMsg>>, e: Emit)
    ensures Post(down, [e]) == PostOne(down, e)
  {
    assert [e][1..] == [];
  }

  /** A client's action: only its own mirror and its own outgoing queue change. */
  lemma ActFacts(p: Protocol, n: Net, id: SocketId, action: ClientMsg) returns (r: Net)
    requires id in n.clients && id in n.up
    ensures Enabled(n, Act(id, action)) && r == ActStep(p, n, id, action) && Step(p, n, Act(id, action)) == r
    ensures r.server == n.server && r.down == n.down
    ensures r.clients == n.clients[id := ClientAct(p, n.clients[id], action)]
    ensures r.up == n.up[id := n.up[id] + [action]]
  {
    r := ActStep(p, n, id, action);
  }

  /** A client taking the oldest message sent to it: only its mirror and its
      incoming queue change. */
  lemma TakeFacts(p: Protocol, n: Net, id: SocketId) returns (r: Net)
    requires id in n.clients && id in n.down && n.down[id] != []
    ensures Enabled(n, Take(id)) && r == TakeStep(n, id) && Step(p, n, Take(id)) == r
    ensures r.server == n.server && r.up == n.up
    ensures r.clients == n.clients[id := SocketContext.Receive(n.clients[id], n.down[id][0], id)]
    ensures r.down == n.down[id := n.down[id][1..]]
  {
    r := TakeStep(n, id);
  }

  /** The server taking a `clear-canvas`: the log is emptied and every socket
      is queued `canvas-cleared`. */
  lemma ServeClear(p: Protocol, n: Net, id: SocketId) returns (r: Net)
    requires id in n.up && n.up[id] != [] && n.up[id][0] == ClearCanvas
    ensures Enabled(n, Serve(id)) && r == ServeStep(p, n, id) && Step(p, n, Serve(id)) == r
    ensures r.server == Snapshot([], n.server.users) && r.clients == n.clients
    ensures r.up == n.up[id := n.up[id][1..]]
    ensures r.down == PostOne(n.down, Emit(Everyone, CanvasCleared))
  {
    r := ServeStep(p, n, id);
    PostSingle(n.down, Emit(Everyone, CanvasCleared));
  }

  /** The server taking a `draw`: one stamped path `s` is logged, and it is
      queued for every other socket, as written, or for every socket, corrected. */
  lemma ServeDraw(p: Protocol, n: Net, id: SocketId, pd: PathData) returns (r: Net, s: DrawingPath)
    requires id in n.up && n.up[id] != [] && n.up[id][0] == Draw(pd) && id in n.server.users
    ensures Enabled(n, Serve(id)) && r == ServeStep(p, n, id) && Step(p, n, Serve(id)) == r
    ensures r.server.paths == n.server.paths + [s] && r.server.users == n.server.users
    ensures s.userId == id && Geometry(s) == pd
    ensures r.clients == n.clients && r.up == n.up[id := n.up[id][1..]]
    ensures r.down == PostOne(n.down, Emit(if p == AsWritten then AllBut(id) else Everyone, DrawUpdate(s)))
  {
    r := ServeStep(p, n, id);
    var h := Server.HandleDraw(n.server, id, pd);
    s := h.state.paths[|n.server.paths|];
    assert h.state.paths == n.server.paths + [s];
    PostSingle(n.down, Emit(if p == AsWritten then AllBut(id) else Everyone, DrawUpdate(s)));
  }

  // ---------------------------------------------------------------------------
  // The relay as written: two counterexamples to convergence.
  // ---------------------------------------------------------------------------

  lemma {:induction false} RunAppend(p: Protocol, n: Net, t1: seq<Event>, t2: seq<Event>)
    requires Valid(p, n, t1) && Valid(p, Run(p, n, t1), t2)
    ensures Valid(p, n, t1 + t2) && Run(p, n, t1 + t2) == Run(p, Run(p, n, t1), t2)
    decreases |t1|
  {
    if t1 != [] {
      assert (t1 + t2)[0] == t1[0];
      assert (t1 + t2)[1..] == t1[1..] + t2;
      RunAppend(p, Step(p, n, t1[0]), t1[1..], t2);
    } else {
      assert t1 + t2 == t2;
    }
  }

  /** `b` finishes a stroke, shown at once and queued; `a` clears at once
      and queues the clear. */
  lemma DrawThenClear(n: Net, a: SocketId, b: SocketId, pd: PathData) returns (r: Net)
    requires a != b && a in n.clients && b in n.clients
    requires a in n.up && b in n.up && n.up[a] == [] && n.up[b] == []
    ensures var trace := [Act(b, Draw(pd)), Act(a, ClearCanvas)];
      Valid(AsWritten, n, trace) && r == Run(AsWritten, n, trace)
    ensures r.server == n.server && r.down == n.down && r.clients.Keys == n.clients.Keys
    ensures a in r.up && b in r.up && r.up[a] == [ClearCanvas] && r.up[b] == [Draw(pd)]
  {
    var p := AsWritten;
    var n1 := ActFacts(p, n, b, Draw(pd));
    r := ActFacts(p, n1, a, ClearCanvas);
    RunTwo(p, n, Act(b, Draw(pd)), n1, Act(a, ClearCanvas), r);
  }

  /** The server, as written, taking the stroke `id` sent, seen from `id`
      and one other socket: the stroke is queued for the other only. */
  lemma ServeStroke(n: Net, id: SocketId, other: SocketId, pd: PathData) returns (r: Net, s: DrawingPath)
    requires id != other && id in n.server.users && id in n.up && n.up[id] == [Draw(pd)]
    requires other in n.up && id in n.down && other in n.down
    ensures Enabled(n, Serve(id)) && Step(AsWritten, n, Serve(id)) == r
    ensures r.server.paths == n.server.paths + [s] && r.server.users == n.server.users
    ensures s.userId == id && Geometry(s) == pd && r.clients == n.clients
    ensures id in r.up && other in r.up && r.up[id] == [] && r.up[other] == n.up[other]
    ensures id in r.down && other in r.down
    ensures r.down[id] == n.down[id] && r.down[other] == n.down[other] + [DrawUpdate(s)]
  {
    r, s := ServeDraw(AsWritten, n, id, pd);
  }

  /** The server takes `a`'s clear before `b`'s stroke. */
  lemma ClearServedFirst(n: Net, a: SocketId, b: SocketId, pd: PathData) returns (r: Net, s: DrawingPath)
    requires a != b && b in n.server.users
    requires a in n.up && b in n.up && n.up[a] == [ClearCanvas] && n.up[b] == [Draw(pd)]
    requires a in n.down && b in n.down && n.down[a] == [] && n.down[b] == []
    ensures var trace := [Serve(a), Serve(b)];
      Valid(AsWritten, n, trace) && r == Run(AsWritten, n, trace)
    ensures r.server.paths == [s] && Geometry(s) == pd && r.clients == n.clients
    ensures a in r.up && b in r.up && r.up[a] == [] && r.up[b] == []
    ensures a in r.down && b in r.down
    ensures r.down[a] == [CanvasCleared, DrawUpdate(s)] && r.down[b] == [CanvasCleared]
  {
    var p := AsWritten;
    var n1 := ServeClear(p, n, a);
    assert n1.down[a] == [CanvasCleared] && n1.down[b] == [CanvasCleared];
    assert n1.up[b] == [Draw(pd)] && n1.server.paths == [];
    r, s := ServeStroke(n1, b, a, pd);
    RunTwo(p, n, Serve(a), n1, Serve(b), r);
  }

  /** First half of `CrossingClearLosesStroke`: `b` draws, `a` clears, and the
      server takes the clear before the stroke. */
  lemma ClearOvertakesStroke(n: Net, a: SocketId, b: SocketId, pd: PathData) returns (r: Net, s: DrawingPath)
    requires a != b
    requires a in n.clients && b in n.clients && b in n.server.users
    requires a in n.up && b in n.up && n.up[a] == [] && n.up[b] == []
    requires a in n.down && b in n.down && n.down[a] == [] && n.down[b] == []
    ensures var trace := [Act(b, Draw(pd)), Act(a, ClearCanvas), Serve(a), Serve(b)];
      Valid(AsWritten, n, trace) && r == Run(AsWritten, n, trace)
    ensures r.server.paths == [s] && Geometry(s) == pd
    ensures a in r.clients && b in r.clients && a in r.up && b in r.up && r.up[a] == [] && r.up[b] == []
    ensures a in r.down && b in r.down
    ensures r.down[a] == [CanvasCleared, DrawUpdate(s)] && r.down[b] == [CanvasCleared]
  {
    var t1 := [Act(b, Draw(pd)), Act(a, ClearCanvas)];
    var t2 := [Serve(a), Serve(b)];
    var mid := DrawThenClear(n, a, b, pd);
    r, s := ClearServedFirst(mid, a, b, pd);
    RunAppend(AsWritten, n, t1, t2);
    assert t1 + t2 == [Act(b, Draw(pd)), Act(a, ClearCanvas), Serve(a), Serve(b)];
  }

  /** Second half of `CrossingClearLosesStroke`: `b` takes the clear, `a`
      takes the clear and then the stroke. */
  lemma ClearThenStrokeTaken(n: Net, a: SocketId, b: SocketId, s: DrawingPath) returns (r: Net)
    requires a != b && a in n.clients && b in n.clients && a in n.down && b in n.down
    requires n.down[a] == [CanvasCleared, DrawUpdate(s)] && n.down[b] == [CanvasCleared]
    ensures var trace := [Take(b), Take(a), Take(a)];
      Valid(AsWritten, n, trace) && r == Run(AsWritten, n, trace)
    ensures r.server == n.server && r.up == n.up
    ensures a in r.clients && b in r.clients && Drained(r, a) && Drained(r, b)
    ensures r.clients[a].drawingPaths == [s] && r.clients[b].drawingPaths == []
  {
    var p := AsWritten;
    var n1 := TakeFacts(p, n, b);
    assert n1.clients[b].drawingPaths == [] && n1.down[b] == [];
    var n2 := TakeFacts(p, n1, a);
    assert [CanvasCleared, DrawUpdate(s)][1..] == [DrawUpdate(s)];
    assert n2.clients[a].drawingPaths == [] && n2.down[a] == [DrawUpdate(s)];
    r := TakeFacts(p, n2, a);
    assert r.clients[b] == n1.clients[b];
    RunThree(p, n, Take(b), n1, Take(a), n2, Take(a), r);
  }

  /** Client `a` clears while a stroke of client `b` is on its way. The server
      takes the clear first and tells everybody, then takes the stroke and
      tells everybody but `b`. Once both have taken every message, the server
      and `a` show the stroke, but `b`, whose optimistic copy the clear
      removed, never sees its own stroke again. */
  lemma CrossingClearLosesStroke(n: Net, a: SocketId, b: SocketId, pd: PathData)
    requires a != b
    requires a in n.clients && b in n.clients && b in n.server.users
    requires a in n.up && b in n.up && n.up[a] == [] && n.up[b] == []
    requires a in n.down && b in n.down && n.down[a] == [] && n.down[b] == []
    ensures var trace := [Act(b, Draw(pd)), Act(a, ClearCanvas), Serve(a), Serve(b), Take(b), Take(a), Take(a)];
      Valid(AsWritten, n, trace) &&
      var r := Run(AsWritten, n, trace);
      && a in r.up && b in r.up && r.up[a] == [] && r.up[b] == []
      && Drained(r, a) && Drained(r, b)
      && |r.server.paths| == 1 && Geometry(r.server.paths[0]) == pd
      && a in r.clients && r.clients[a].drawingPaths == r.server.paths
      && b in r.clients && r.clients[b].drawingPaths == []
  {
    var t1 := [Act(b, Draw(pd)), Act(a, ClearCanvas), Serve(a), Serve(b)];
    var t2 := [Take(b), Take(a), Take(a)];
    var mid, s := ClearOvertakesStroke(n, a, b, pd);
    var r := ClearThenStrokeTaken(mid, a, b, s);
    RunAppend(AsWritten, n, t1, t2);
    assert t1 + t2 == [Act(b, Draw(pd)), Act(a, ClearCanvas), Serve(a), Serve(b), Take(b), Take(a), Take(a)];
    assert Run(AsWritten, n, t1 + t2) == r;
  }

  /** `a` and then `b` finish a stroke; each is shown at once and queued. */
  lemma BothDraw(n: Net, a: SocketId, b: SocketId, pa: PathData, pb: PathData) returns (r: Net)
    requires a != b && a in n.clients && b in n.clients
    requires a in n.up && b in n.up && n.up[a] == [] && n.up[b] == []
    ensures var trace := [Act(a, Draw(pa)), Act(b, Draw(pb))];
      Valid(AsWritten, n, trace) && r == Run(AsWritten, n, trace)
    ensures r.server == n.server && r.down == n.down && a in r.up && b in r.up
    ensures r.up[a] == [Draw(pa)] && r.up[b] == [Draw(pb)]
    ensures r.clients.Keys == n.clients.Keys
    ensures r.clients[b].drawingPaths == n.clients[b].drawingPaths + [SocketContext.LocalStamp(pb, n.clients[b].currentUser)]
  {
    var p := AsWritten;
    var n1 := ActFacts(p, n, a, Draw(pa));
    r := ActFacts(p, n1, b, Draw(pb));
    RunTwo(p, n, Act(a, Draw(pa)), n1, Act(b, Draw(pb)), r);
  }

  /** The server takes `a`'s stroke, then `b`'s; each is queued for the other. */
  lemma BothServed(n: Net, a: SocketId, b: SocketId, pa: PathData, pb: PathData)
    returns (r: Net, sa: DrawingPath, sb: DrawingPath)
    requires a != b && a in n.server.users && b in n.server.users
    requires a in n.up && b in n.up && n.up[a] == [Draw(pa)] && n.up[b] == [Draw(pb)]
    requires a in n.down && b in n.down && n.down[a] == [] && n.down[b] == []
    ensures var trace := [Serve(a), Serve(b)];
      Valid(AsWritten, n, trace) && r == Run(AsWritten, n, trace)
    ensures r.server.paths == n.server.paths + [sa, sb] && sa.userId == a && Geometry(sa) == pa
    ensures r.clients == n.clients && a in r.down && b in r.down
    ensures r.down[a] == [DrawUpdate(sb)] && r.down[b] == [DrawUpdate(sa)]
  {
    var p := AsWritten;
    var n1;
    n1, sa := ServeStroke(n, a, b, pa);
    r, sb := ServeStroke(n1, b, a, pb);
    assert n.server.paths + [sa] + [sb] == n.server.paths + [sa, sb];
    RunTwo(p, n, Serve(a), n1, Serve(b), r);
  }

  /** First half of `CrossingStrokesReordered`: both draw, and the server
      takes `a`'s stroke, then `b`'s. */
  lemma BothStrokesServed(n: Net, a: SocketId, b: SocketId, pa: PathData, pb: PathData)
    returns (r: Net, lb: DrawingPath, sa: DrawingPath, sb: DrawingPath)
    requires a != b
    requires a in n.clients && b in n.clients && a in n.server.users && b in n.server.users
    requires a in n.up && b in n.up && n.up[a] == [] && n.up[b] == []
    requires a in n.down && b in n.down && n.down[a] == [] && n.down[b] == []
    ensures var trace := [Act(a, Draw(pa)), Act(b, Draw(pb)), Serve(a), Serve(b)];
      Valid(AsWritten, n, trace) && r == Run(AsWritten, n, trace)
    ensures lb == SocketContext.LocalStamp(pb, n.clients[b].currentUser)
    ensures r.server.paths == n.server.paths + [sa, sb] && sa.userId == a && Geometry(sa) == pa
    ensures a in r.clients && b in r.clients && a in r.down && b in r.down
    ensures r.clients[b].drawingPaths == n.clients[b].drawingPaths + [lb]
    ensures r.down[a] == [DrawUpdate(sb)] && r.down[b] == [DrawUpdate(sa)]
  {
    var t1 := [Act(a, Draw(pa)), Act(b, Draw(pb))];
    var t2 := [Serve(a), Serve(b)];
    lb := SocketContext.LocalStamp(pb, n.clients[b].currentUser);
    var mid := BothDraw(n, a, b, pa, pb);
    r, sa, sb := BothServed(mid, a, b, pa, pb);
    RunAppend(AsWritten, n, t1, t2);
    assert t1 + t2 == [Act(a, Draw(pa)), Act(b, Draw(pb)), Serve(a), Serve(b)];
  }

  /** Second half of `CrossingStrokesReordered`: each takes the other's stroke. */
  lemma StrokesTakenCrosswise(n: Net, a: SocketId, b: SocketId, sa: DrawingPath, sb: DrawingPath) returns (r: Net)
    requires a != b && a in n.clients && b in n.clients && a in n.down && b in n.down
    requires n.down[a] == [DrawUpdate(sb)] && n.down[b] == [DrawUpdate(sa)]
    ensures var trace := [Take(a), Take(b)];
      Valid(AsWritten, n, trace) && r == Run(AsWritten, n, trace)
    ensures r.server == n.server && b in r.clients && Drained(r, a) && Drained(r, b)
    ensures r.clients[b].drawingPaths == n.clients[b].drawingPaths + [sa]
  {
    var p := AsWritten;
    var n1 := TakeFacts(p, n, a);
    assert n1.clients[b] == n.clients[b] && n1.down[a] == [] && n1.down[b] == [DrawUpdate(sa)];
    r := TakeFacts(p, n1, b);
    RunTwo(p, n, Take(a), n1, Take(b), r);
  }

  /** The whole crossing-strokes trace, composed from its two halves. */
  lemma CrossingStrokesRun(n: Net, a: SocketId, b: SocketId, pa: PathData, pb: PathData)
    returns (r: Net, lb: DrawingPath, sa: DrawingPath, sb: DrawingPath)
    requires a != b
    requires a in n.clients && b in n.clients && a in n.server.users && b in n.server.users
    requires a in n.up && b in n.up && n.up[a] == [] && n.up[b] == []
    requires a in n.down && b in n.down && n.down[a] == [] && n.down[b] == []
    ensures var trace := [Act(a, Draw(pa)), Act(b, Draw(pb)), Serve(a), Serve(b), Take(a), Take(b)];
      Valid(AsWritten, n, trace) && r == Run(AsWritten, n, trace)
    ensures lb == SocketContext.LocalStamp(pb, n.clients[b].currentUser)
    ensures r.server.paths == n.server.paths + [sa, sb] && sa.userId == a && Geometry(sa) == pa
    ensures Drained(r, a) && Drained(r, b) && b in r.clients
    ensures r.clients[b].drawingPaths == n.clients[b].drawingPaths + [lb, sa]
  {
    var t1 := [Act(a, Draw(pa)), Act(b, Draw(pb)), Serve(a), Serve(b)];
    var t2 := [Take(a), Take(b)];
    var mid;
    mid, lb, sa, sb := BothStrokesServed(n, a, b, pa, pb);
    r := StrokesTakenCrosswise(mid, a, b, sa, sb);
    assert n.clients[b].drawingPaths + [lb] + [sa] == n.clients[b].drawingPaths + [lb, sa];
    RunAppend(AsWritten, n, t1, t2);
    assert t1 + t2 == [Act(a, Draw(pa)), Act(b, Draw(pb)), Serve(a), Serve(b), Take(a), Take(b)];
  }

  /** Clients `a` and `b` each finish a stroke before either reaches the
      server. The server logs `a`'s first; `b` shows its own first, since it
      was shown at once, and `a`'s after it when it arrives. Starting from a
      mirror equal to the server's log, `b` ends with the two strokes in the
      other order. */
  lemma CrossingStrokesReordered(n: Net, a: SocketId, b: SocketId, pa: PathData, pb: PathData)
    requires a != b && b != ""
    requires a in n.clients && b in n.clients && a in n.server.users && b in n.server.users
    requires a in n.up && b in n.up && n.up[a] == [] && n.up[b] == []
    requires a in n.down && b in n.down && n.down[a] == [] && n.down[b] == []
    requires n.clients[b].drawingPaths == n.server.paths
    requires n.clients[b].currentUser == Some(n.server.users[b]) && n.server.users[b].id == b
    ensures var trace := [Act(a, Draw(pa)), Act(b, Draw(pb)), Serve(a), Serve(b), Take(a), Take(b)];
      Valid(AsWritten, n, trace) &&
      var r := Run(AsWritten, n, trace);
      var k := |n.server.paths|;
      && Drained(r, a) && Drained(r, b) && b in r.clients
      && |r.server.paths| == k + 2 && |r.clients[b].drawingPaths| == k + 2
      && r.server.paths[k].userId == a && Geometry(r.server.paths[k]) == pa
      && r.clients[b].drawingPaths[k].userId == b && Geometry(r.clients[b].drawingPaths[k]) == pb
      && r.clients[b].drawingPaths != r.server.paths
  {
    var k := |n.server.paths|;
    var r, lb, sa, sb := CrossingStrokesRun(n, a, b, pa, pb);
    assert lb.userId == b by {
      assert lb == WithAuthor(pb, b, SocketContext.OrElse(n.server.users[b].username, SocketContext.LocalUsername),
                              SocketContext.OrElse(n.server.users[b].color, SocketContext.FallbackColor));
    }
    assert r.clients[b].drawingPaths[k] == lb && r.server.paths[k] == sa;
  }

  // ---------------------------------------------------------------------------
  // The corrected relay: every client that has taken all its messages shows
  // the server's log.
  // ---------------------------------------------------------------------------

  /** What one message does to a client's paths. */
  function PathsOn(paths: seq<DrawingPath>, msg: ServerMsg): seq<DrawingPath>
  {
    match msg
    case Init(state) => state.paths
    case DrawUpdate(path) => paths + [path]
    case CanvasCleared => []
    case UserConnected(_) => paths
    case UserDisconnected(_) => paths
    case CursorUpdate(_, _) => paths
  }

  /** The paths a client will show once it has taken every message in `q`. */
  function Replay(paths: seq<DrawingPath>, q: seq<ServerMsg>): seq<DrawingPath>
    decreases |q|
  {
    if q == [] then paths else Replay(PathsOn(paths, q[0]), q[1..])
  }

  lemma ReceivePaths(m: Mirror, msg: ServerMsg, id: SocketId)
    ensures SocketContext.Receive(m, msg, id).drawingPaths == PathsOn(m.drawingPaths, msg)
  {
  }

  /** A message queued last acts last. */
  lemma {:induction false} ReplayAppend(paths: seq<DrawingPath>, q: seq<ServerMsg>, msg: ServerMsg)
    ensures Replay(paths, q + [msg]) == PathsOn(Replay(paths, q), msg)
    decreases |q|
  {
    if q == [] {
      assert q + [msg] == [msg];
      assert [msg][1..] == [];
    } else {
      assert (q + [msg])[0] == q[0];
      assert (q + [msg])[1..] == q[1..] + [msg];
      ReplayAppend(PathsOn(paths, q[0]), q[1..], msg);
    }
  }

  /** Every connected client will show the server's log once it has taken
      every message queued for it. */
  predicate Agrees(n: Net)
  {
    forall c :: c in n.clients ==> c in n.down && Replay(n.clients[c].drawingPaths, n.down[c]) == n.server.paths
  }

  /** A message that leaves every client's paths alone, queued to anyone,
      keeps `Agrees`. */
  lemma PostNeutral(n: Net, r: Net, e: Emit)
    requires Agrees(n) && r.clients == n.clients && r.server.paths == n.server.paths
    requires r.down == PostOne(n.down, e)
    requires forall paths :: PathsOn(paths, e.msg) == paths
    ensures Agrees(r)
  {
    forall c | c in r.clients
      ensures c in r.down && Replay(r.clients[c].drawingPaths, r.down[c]) == r.server.paths
    {
      if Receives(e.to, c) {
        ReplayAppend(n.clients[c].drawingPaths, n.down[c], e.msg);
      }
    }
  }

  lemma PostTwo(down: map<SocketId, seq<ServerMsg>>, e0: Emit, e1: Emit)
    ensures Post(down, [e0, e1]) == PostOne(PostOne(down, e0), e1)
  {
    assert [e0, e1][1..] == [e1];
    PostSingle(PostOne(down, e0), e1);
  }

  /** The queues right after a connection: the joiner's holds only `init`,
      every other socket's gets `user-connected` behind what it held. */
  lemma ConnectQueues(n: Net, id: SocketId, roll: real, prior: Mirror)
    requires 0.0 <= roll < 1.0
    ensures var r := ConnectStep(n, id, roll, prior);
      && id in r.down && r.down[id] == [Init(r.server)]
      && forall c :: c in n.down && c != id ==> r.down[c] == n.down[c] + [UserConnected(r.server.users[id])]
  {
    var h := Server.HandleConnection(n.server, id, roll);
    PostTwo(n.down[id := []], h.out[0], h.out[1]);
  }

  /** A connection keeps `Agrees`: the joiner's queue holds only `init`, and
      every other socket is queued `user-connected`, which leaves its paths
      alone. */
  lemma ConnectAgrees(n: Net, id: SocketId, roll: real, prior: Mirror)
    requires Agrees(n) && 0.0 <= roll < 1.0
    ensures var r := ConnectStep(n, id, roll, prior);
      id in r.down && r.down[id] == [Init(r.server)]
    ensures Agrees(ConnectStep(n, id, roll, prior))
  {
    var r := ConnectStep(n, id, roll, prior);
    ConnectQueues(n, id, roll, prior);
    assert r.server.paths == n.server.paths;
    forall c | c in r.clients
      ensures c in r.down && Replay(r.clients[c].drawingPaths, r.down[c]) == r.server.paths
    {
      if c != id {
        ReplayAppend(n.clients[c].drawingPaths, n.down[c], UserConnected(r.server.users[id]));
      }
    }
  }

  lemma ActAgrees(n: Net, id: SocketId, action: ClientMsg)
    requires Agrees(n) && id in n.clients && id in n.up
    ensures Agrees(ActStep(Echoed, n, id, action))
  {
    assert ActStep(Echoed, n, id, action).clients == n.clients;
  }

  lemma ServeAgrees(n: Net, id: SocketId)
    requires Agrees(n) && id in n.up && n.up[id] != [] && (n.up[id][0].Draw? ==> id in n.server.users)
    ensures Agrees(ServeStep(Echoed, n, id))
  {
    var r := ServeStep(Echoed, n, id);
    match n.up[id][0]
    case CursorMove(position) =>
      var h := Server.HandleCursorMove(n.server, id, position);
      if id in n.server.users {
        PostSingle(n.down, h.out[0]);
        PostNeutral(n, r, h.out[0]);
      }
    case Draw(pd) =>
      var r', s := ServeDraw(Echoed, n, id, pd);
      forall c | c in r.clients
        ensures c in r.down && Replay(r.clients[c].drawingPaths, r.down[c]) == r.server.paths
      {
        ReplayAppend(n.clients[c].drawingPaths, n.down[c], DrawUpdate(s));
      }
    case ClearCanvas =>
      var r' := ServeClear(Echoed, n, id);
      forall c | c in r.clients
        ensures c in r.down && Replay(r.clients[c].drawingPaths, r.down[c]) == r.server.paths
      {
        ReplayAppend(n.clients[c].drawingPaths, n.down[c], CanvasCleared);
      }
  }

  lemma TakeAgrees(n: Net, id: SocketId)
    requires Agrees(n) && id in n.clients && id in n.down && n.down[id] != []
    ensures Agrees(TakeStep(n, id))
  {
    ReceivePaths(n.clients[id], n.down[id][0], id);
  }

  lemma CloseAgrees(n: Net, id: SocketId)
    requires Agrees(n)
    ensures Agrees(CloseStep(n, id))
  {
    var e := Emit(Everyone, UserDisconnected(id));
    var m := n.(clients := n.clients - {id}, down := n.down - {id});
    PostSingle(m.down, e);
    PostNeutral(m, CloseStep(n, id), e);
  }

  /** Every event of the corrected relay keeps `Agrees`. */
  lemma StepAgrees(n: Net, e: Event)
    requires Agrees(n) && Enabled(n, e)
    ensures Agrees(Step(Echoed, n, e))
  {
    match e
    case Connect(id, roll, prior) => ConnectAgrees(n, id, roll, prior);
    case Act(id, action) => ActAgrees(n, id, action);
    case Serve(id) => ServeAgrees(n, id);
    case Take(id) => TakeAgrees(n, id);
    case Close(id) => CloseAgrees(n, id);
  }

  lemma {:induction false} RunAgrees(n: Net, trace: seq<Event>)
    requires Agrees(n) && Valid(Echoed, n, trace)
    ensures Agrees(Run(Echoed, n, trace))
    decreases |trace|
  {
    if trace != [] {
      StepAgrees(n, trace[0]);
      RunAgrees(Step(Echoed, n, trace[0]), trace[1..]);
    }
  }

  /** With the corrected relay, however the queues interleave, every client
      that has taken every message sent to it shows exactly the server's log,
      in the server's order: a stroke crossing a clear or another stroke
      cannot leave two canvases different. */
  lemma EchoedConverges(trace: seq<Event>)
    requires Valid(Echoed, Start, trace)
    ensures var r := Run(Echoed, Start, trace);
      forall c :: c in r.clients && Drained(r, c) ==> r.clients[c].drawingPaths == r.server.paths
  {
    RunAgrees(Start, trace);
  }
}
