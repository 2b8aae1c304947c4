/** The relay as a whole: the server's state plus the mirror of every
    connected socket, driven by a trace of events handled one at a time.

    Each event is delivered completely before the next one is handled: the
    client action (if any) updates the sender's mirror, the server handler
    runs, and its emissions are applied, in order, to every connected mirror
    they address. */
module Relay {
  import opened Types
  import Server
  import SocketContext

  type Mirror = SocketContext.Mirror

  /** `used` holds every socket id ever connected: Socket.IO never reuses one. */
  datatype World = World(server: Snapshot, clients: map<SocketId, Mirror>, used: set<SocketId>)

  /** The relay before anybody connected. */
  const Empty := World(Snapshot([], map[]), map[], {})

  /** A socket connects (its mirror holds `prior`, whatever it showed before);
      a connected participant moves the cursor, finishes a stroke, clears the
      canvas, or goes away. */
  datatype Event =
    | Join(id: SocketId, roll: real, prior: Mirror)
    | MoveCursor(id: SocketId, position: Point)
    | Stroke(id: SocketId, pd: PathData)
    | Wipe(id: SocketId)
    | Leave(id: SocketId)

  /** Events a real run can produce: a new socket has a fresh, non-empty id and
      only a connected socket sends anything; a stroke additionally needs its
      sender registered, which the server's `draw` handler takes for granted. */
  predicate Enabled(w: World, e: Event)
  {
    match e
    case Join(id, roll, _) => id != "" && id !in w.used && 0.0 <= roll < 1.0
    case Stroke(id, _) => id in w.clients && id in w.server.users
    case MoveCursor(id, _) => id in w.clients
    case Wipe(id) => id in w.clients
    case Leave(id) => id in w.clients
  }

  /** One emission, applied to every connected mirror it addresses. */
  function DeliverOne(clients: map<SocketId, Mirror>, e: Emit): (r: map<SocketId, Mirror>)
    ensures r.Keys == clients.Keys
    ensures forall c :: c in clients && !Receives(e.to, c) ==> r[c] == clients[c]
    ensures forall c :: c in clients && Receives(e.to, c) ==> r[c] == SocketContext.Receive(clients[c], e.msg, c)
  {
    map c | c in clients :: if Receives(e.to, c) then SocketContext.Receive(clients[c], e.msg, c) else clients[c]
  }

  /** Emissions delivered in the order they were made. */
  function Deliver(clients: map<SocketId, Mirror>, out: seq<Emit>): (r: map<SocketId, Mirror>)
    ensures r.Keys == clients.Keys
    decreases |out|
  {
    if out == [] then clients else Deliver(DeliverOne(clients, out[0]), out[1..])
  }

  /** `connection`: the server registers the socket, the joiner's mirror
      takes the snapshot, the others learn of the joiner. */
  function JoinStep(w: World, id: SocketId, roll: real, prior: Mirror): World
    requires 0.0 <= roll < 1.0
  {
    var h := Server.HandleConnection(w.server, id, roll);
    World(h.state, Deliver(w.clients[id := prior], h.out), w.used + {id})
  }

  /** `sendCursorPosition` then the server's `cursor-move`. */
  function MoveCursorStep(w: World, id: SocketId, position: Point): World
  {
    var h := Server.HandleMessage(w.server, id, CursorMove(position));
    World(h.state, Deliver(w.clients, h.out), w.used)
  }

  /** `sendDrawingData` (shown at once, sent because connected) then the
      server's `draw`. */
  function StrokeStep(w: World, id: SocketId, pd: PathData): World
    requires id in w.clients && id in w.server.users
  {
    var sent := SocketContext.SendDrawingData(w.clients[id], pd, true);
    var h := Server.HandleMessage(w.server, id, sent.out.value);
    World(h.state, Deliver(w.clients[id := sent.mirror], h.out), w.used)
  }

  /** `clearCanvas` (emptied at once, sent because connected) then the
      server's `clear-canvas`. */
  function WipeStep(w: World, id: SocketId): World
    requires id in w.clients
  {
    var sent := SocketContext.ClearCanvasLocally(w.clients[id], true);
    var h := Server.HandleMessage(w.server, id, sent.out.value);
    World(h.state, Deliver(w.clients[id := sent.mirror], h.out), w.used)
  }

  /** The socket closes, then the server's `disconnect`. */
  function LeaveStep(w: World, id: SocketId): World
  {
    var h := Server.HandleDisconnect(w.server, id);
    World(h.state, Deliver(w.clients - {id}, h.out), w.used)
  }

  /** One event, handled from start to finish. */
  function Apply(w: World, e: Event): World
    requires Enabled(w, e)
  {
    match e
    case Join(id, roll, prior) => JoinStep(w, id, roll, prior)
    case MoveCursor(id, position) => MoveCursorStep(w, id, position)
    case Stroke(id, pd) => StrokeStep(w, id, pd)
    case Wipe(id) => WipeStep(w, id)
    case Leave(id) => LeaveStep(w, id)
  }

  /** A trace every event of which is enabled when it happens. */
  predicate Valid(w: World, trace: seq<Event>)
    decreases |trace|
  {
    trace == [] || (Enabled(w, trace[0]) && Valid(Apply(w, trace[0]), trace[1..]))
  }

  function Run(w: World, trace: seq<Event>): World
    requires Valid(w, trace)
    decreases |trace|
  {
    if trace == [] then w else Run(Apply(w, trace[0]), trace[1..])
  }

  /** A registered participant as the server creates it. */
  predicate WellFormed(k: SocketId, u: User)
  {
    u.id == k && SocketContext.Complete(u)
  }

  /** Mirror `m` of socket `c` agrees with the server: the same paths in the
      same order, the same participants, each of them identical except the
      client's own cursor, which it never hears back about; and `currentUser`
      is the client's own participant. */
  predicate InSync(s: Snapshot, c: SocketId, m: Mirror)
  {
    && m.drawingPaths == s.paths
    && m.users.Keys == s.users.Keys
    && (forall k :: k in m.users && k != c ==> m.users[k] == s.users[k])
    && c in s.users && c in m.users && SameIdentity(m.users[c], s.users[c])
    && m.currentUser.Some? && SameIdentity(m.currentUser.value, s.users[c])
  }

  /** The relay invariant: the connected sockets are exactly the registered
      participants, and every mirror is in sync with the server. */
  predicate Inv(w: World)
  {
    && w.clients.Keys == w.server.users.Keys
    && w.clients.Keys <= w.used
    && (forall k :: k in w.server.users ==> WellFormed(k, w.server.users[k]))
    && (forall c :: c in w.clients ==> InSync(w.server, c, w.clients[c]))
  }

  lemma EmptyInv()
    ensures Inv(Empty)
  {
  }

  lemma DeliverOneEmit(clients: map<SocketId, Mirror>, e: Emit)
    ensures Deliver(clients, [e]) == DeliverOne(clients, e)
  {
    assert [e][1..] == [];
  }

  lemma DeliverTwoEmits(clients: map<SocketId, Mirror>, e1: Emit, e2: Emit)
    ensures Deliver(clients, [e1, e2]) == DeliverOne(DeliverOne(clients, e1), e2)
  {
    assert [e1, e2][1..] == [e2];
    DeliverOneEmit(DeliverOne(clients, e1), e2);
  }

  /** The mirror a joiner builds from its `init` is in sync with the server. */
  lemma InitInSync(s: Snapshot, id: SocketId, prior: Mirror)
    requires id in s.users
    ensures InSync(s, id, SocketContext.OnInit(prior, s, id))
  {
  }

  /** A mirror that learns of a joiner stays in sync with a server that registered it. */
  lemma {:induction false} UserConnectedInSync(s: Snapshot, s': Snapshot, c: SocketId, m: Mirror, u: User)
    requires InSync(s, c, m) && c != u.id
    requires s'.paths == s.paths && s'.users == s.users[u.id := u]
    ensures InSync(s', c, SocketContext.OnUserConnected(m, u))
  {
  }

  /** A mirror told of another participant's cursor stays in sync. */
  lemma {:induction false} CursorUpdateInSync(s: Snapshot, c: SocketId, m: Mirror, id: SocketId, position: Point)
    requires InSync(s, c, m) && c != id && id in s.users
    ensures InSync(Server.HandleCursorMove(s, id, position).state, c, SocketContext.OnCursorUpdate(m, id, position))
  {
  }

  /** The mover's own mirror is not told, and stays in sync all the same. */
  lemma {:induction false} OwnCursorInSync(s: Snapshot, id: SocketId, m: Mirror, position: Point)
    requires InSync(s, id, m)
    ensures InSync(Server.HandleCursorMove(s, id, position).state, id, m)
  {
  }

  /** A mirror told that another participant left stays in sync. */
  lemma {:induction false} UserDisconnectedInSync(s: Snapshot, c: SocketId, m: Mirror, id: SocketId)
    requires InSync(s, c, m) && c != id
    ensures InSync(Server.HandleDisconnect(s, id).state, c, SocketContext.OnUserDisconnected(m, id))
  {
  }

  /** What each mirror holds after a join. */
  lemma JoinMirrors(w: World, id: SocketId, roll: real, prior: Mirror)
    requires 0.0 <= roll < 1.0 && id !in w.clients
    ensures var h := Server.HandleConnection(w.server, id, roll);
      var w' := JoinStep(w, id, roll, prior);
      && w'.clients.Keys == w.clients.Keys + {id}
      && w'.clients[id] == SocketContext.OnInit(prior, h.state, id)
      && forall c :: c in w.clients ==> w'.clients[c] == SocketContext.OnUserConnected(w.clients[c], Server.NewUser(id, roll))
  {
    var h := Server.HandleConnection(w.server, id, roll);
    DeliverTwoEmits(w.clients[id := prior], h.out[0], h.out[1]);
  }

  /** A participant joining receives the log as it stands at that moment and
      every participant including itself; the others learn of the joiner, and
      everything stays in sync. */
  lemma {:induction false} JoinKeepsInv(w: World, id: SocketId, roll: real, prior: Mirror)
    requires Inv(w) && Enabled(w, Join(id, roll, prior))
    ensures var w' := JoinStep(w, id, roll, prior);
      && Inv(w')
      && w'.server.paths == w.server.paths
      && w'.clients[id] == SocketContext.Mirror(w.server.paths, w'.server.users, Some(Server.NewUser(id, roll)))
  {
    var h := Server.HandleConnection(w.server, id, roll);
    var w' := JoinStep(w, id, roll, prior);
    JoinMirrors(w, id, roll, prior);
    JoinMirrorsInSync(w, id, roll, prior);
    assert w'.server == h.state && w'.used == w.used + {id};
    assert w'.clients.Keys == w'.server.users.Keys;
    forall k | k in h.state.users
      ensures WellFormed(k, h.state.users[k])
    {
      if k != id {
        assert WellFormed(k, w.server.users[k]);
      }
    }
  }

  lemma JoinMirrorsInSync(w: World, id: SocketId, roll: real, prior: Mirror)
    requires Inv(w) && Enabled(w, Join(id, roll, prior))
    ensures var w' := JoinStep(w, id, roll, prior);
      forall c :: c in w'.clients ==> InSync(w'.server, c, w'.clients[c])
  {
    var h := Server.HandleConnection(w.server, id, roll);
    var w' := JoinStep(w, id, roll, prior);
    JoinMirrors(w, id, roll, prior);
    forall c | c in w'.clients
      ensures InSync(h.state, c, w'.clients[c])
    {
      if c == id {
        InitInSync(h.state, id, prior);
      } else {
        UserConnectedInSync(w.server, h.state, c, w.clients[c], Server.NewUser(id, roll));
      }
    }
  }

  /** What each mirror holds after a cursor move. */
  lemma MoveCursorMirrors(w: World, id: SocketId, position: Point)
    requires id in w.server.users
    ensures var w' := MoveCursorStep(w, id, position);
      && w'.server == Server.HandleCursorMove(w.server, id, position).state && w'.used == w.used
      && w'.clients.Keys == w.clients.Keys
      && (id in w.clients ==> w'.clients[id] == w.clients[id])
      && forall c :: c in w.clients && c != id ==> w'.clients[c] == SocketContext.OnCursorUpdate(w.clients[c], id, position)
  {
    var h := Server.HandleCursorMove(w.server, id, position);
    DeliverOneEmit(w.clients, h.out[0]);
  }

  lemma MoveCursorMirrorsInSync(w: World, id: SocketId, position: Point)
    requires Inv(w) && Enabled(w, MoveCursor(id, position))
    ensures var w' := MoveCursorStep(w, id, position);
      forall c :: c in w'.clients ==> InSync(w'.server, c, w'.clients[c])
  {
    var w' := MoveCursorStep(w, id, position);
    MoveCursorMirrors(w, id, position);
    assert w'.server == Server.HandleCursorMove(w.server, id, position).state;
    forall c | c in w'.clients
      ensures InSync(w'.server, c, w'.clients[c])
    {
      if c == id {
        OwnCursorInSync(w.server, id, w.clients[id], position);
      } else {
        CursorUpdateInSync(w.server, c, w.clients[c], id, position);
      }
    }
  }

  /** Moving a cursor keeps every participant well formed. */
  lemma CursorMoveWellFormed(s: Snapshot, id: SocketId, position: Point)
    requires forall k :: k in s.users ==> WellFormed(k, s.users[k])
    ensures var s' := Server.HandleCursorMove(s, id, position).state;
      forall k :: k in s'.users ==> WellFormed(k, s'.users[k])
  {
    var s' := Server.HandleCursorMove(s, id, position).state;
    forall k | k in s'.users
      ensures WellFormed(k, s'.users[k])
    {
      assert WellFormed(k, s.users[k]);
    }
  }

  lemma MoveCursorSync(w: World, id: SocketId, position: Point)
    requires Inv(w) && Enabled(w, MoveCursor(id, position))
    ensures Inv(MoveCursorStep(w, id, position))
  {
    MoveCursorMirrors(w, id, position);
    MoveCursorMirrorsInSync(w, id, position);
    CursorMoveWellFormed(w.server, id, position);
  }

  /** Moving a cursor changes only that participant's cursor, on the server and
      in every other mirror. */
  lemma {:induction false} MoveCursorKeepsInv(w: World, id: SocketId, position: Point)
    requires Inv(w) && Enabled(w, MoveCursor(id, position))
    ensures var w' := MoveCursorStep(w, id, position);
      && Inv(w')
      && w'.server.users[id].cursorPosition == position
      && (forall c :: c in w'.clients && c != id ==> w'.clients[c].users[id].cursorPosition == position)
      && w'.clients[id] == w.clients[id]
  {
    MoveCursorSync(w, id, position);
    MoveCursorMirrors(w, id, position);
    var w' := MoveCursorStep(w, id, position);
    forall c | c in w'.clients && c != id
      ensures w'.clients[c].users[id].cursorPosition == position
    {
      assert InSync(w.server, c, w.clients[c]);
    }
  }

  /** The stamp a connected client puts on its own stroke is the one the
      server puts on it: `currentUser` is the client's own registration, so no
      local-mode fallback applies. */
  lemma LocalStampMatchesServer(w: World, id: SocketId, pd: PathData)
    requires Inv(w) && id in w.clients
    ensures SocketContext.LocalStamp(pd, w.clients[id].currentUser)
         == WithAuthor(pd, id, w.server.users[id].username, w.server.users[id].color)
  {
    assert InSync(w.server, id, w.clients[id]);
    assert WellFormed(id, w.server.users[id]);
  }

  /** What each mirror holds after a stroke. */
  lemma StrokeMirrors(w: World, id: SocketId, pd: PathData)
    requires id in w.clients && id in w.server.users
    ensures var w' := StrokeStep(w, id, pd);
      && w'.clients.Keys == w.clients.Keys
      && w'.clients[id] == SocketContext.SendDrawingData(w.clients[id], pd, true).mirror
      && w'.server == Server.HandleDraw(w.server, id, pd).state
      && forall c :: c in w.clients && c != id ==> w'.clients[c] == SocketContext.OnDrawUpdate(w.clients[c], Server.Stamp(w.server, id, pd))
  {
    var sent := SocketContext.SendDrawingData(w.clients[id], pd, true);
    var h := Server.HandleDraw(w.server, id, pd);
    DeliverOneEmit(w.clients[id := sent.mirror], h.out[0]);
  }

  /** A mirror sent someone else's stroke stays in sync. */
  lemma {:induction false} DrawUpdateInSync(s: Snapshot, c: SocketId, m: Mirror, id: SocketId, pd: PathData)
    requires InSync(s, c, m) && id in s.users
    ensures InSync(Server.HandleDraw(s, id, pd).state, c, SocketContext.OnDrawUpdate(m, Server.Stamp(s, id, pd)))
  {
  }

  /** The sender's optimistic copy of its stroke keeps its mirror in sync. */
  lemma {:induction false} OwnStrokeInSync(s: Snapshot, id: SocketId, m: Mirror, pd: PathData)
    requires InSync(s, id, m) && WellFormed(id, s.users[id])
    ensures InSync(Server.HandleDraw(s, id, pd).state, id, SocketContext.SendDrawingData(m, pd, true).mirror)
    ensures SocketContext.SendDrawingData(m, pd, true).mirror.drawingPaths == m.drawingPaths + [Server.Stamp(s, id, pd)]
  {
  }

  /** A stroke ends up exactly once at the end of every mirror, the sender's
      included (shown optimistically, never echoed), and at the end of the
      server's log, stamped with the sender's identity. */
  lemma {:induction false} StrokeKeepsInv(w: World, id: SocketId, pd: PathData)
    requires Inv(w) && Enabled(w, Stroke(id, pd))
    ensures var w' := StrokeStep(w, id, pd);
      var p := WithAuthor(pd, id, w.server.users[id].username, w.server.users[id].color);
      && Inv(w')
      && w'.server.paths == w.server.paths + [p]
      && w'.server.users == w.server.users
      && (forall c :: c in w'.clients ==> w'.clients[c].drawingPaths == w.clients[c].drawingPaths + [p])
  {
    var p := Server.Stamp(w.server, id, pd);
    var h := Server.HandleDraw(w.server, id, pd);
    var w' := StrokeStep(w, id, pd);
    StrokeMirrors(w, id, pd);
    forall c | c in w'.clients
      ensures InSync(h.state, c, w'.clients[c]) && w'.clients[c].drawingPaths == w.clients[c].drawingPaths + [p]
    {
      if c == id {
        OwnStrokeInSync(w.server, id, w.clients[id], pd);
      } else {
        DrawUpdateInSync(w.server, c, w.clients[c], id, pd);
      }
    }
  }

  /** The sender sees its own stroke exactly once: it is shown optimistically
      and the server never echoes it back. */
  lemma OwnStrokeShownOnce(w: World, id: SocketId, pd: PathData)
    requires Inv(w) && Enabled(w, Stroke(id, pd))
    ensures var p := WithAuthor(pd, id, w.server.users[id].username, w.server.users[id].color);
      var w' := StrokeStep(w, id, pd);
      multiset(w'.clients[id].drawingPaths)[p] == multiset(w.clients[id].drawingPaths)[p] + 1
  {
    StrokeKeepsInv(w, id, pd);
  }

  /** What each mirror holds after a clear: the same, without paths. */
  lemma WipeMirrors(w: World, id: SocketId)
    requires id in w.clients
    ensures var w' := WipeStep(w, id);
      && w'.clients.Keys == w.clients.Keys
      && w'.server == w.server.(paths := [])
      && forall c :: c in w.clients ==> w'.clients[c] == w.clients[c].(drawingPaths := [])
  {
    var sent := SocketContext.ClearCanvasLocally(w.clients[id], true);
    var h := Server.HandleClearCanvas(w.server);
    DeliverOneEmit(w.clients[id := sent.mirror], h.out[0]);
  }

  /** Clearing empties the server's log and every mirror, the sender's too. */
  lemma {:induction false} WipeKeepsInv(w: World, id: SocketId)
    requires Inv(w) && Enabled(w, Wipe(id))
    ensures var w' := WipeStep(w, id);
      && Inv(w')
      && w'.server.paths == []
      && w'.server.users == w.server.users
      && (forall c :: c in w'.clients ==> w'.clients[c].drawingPaths == [])
  {
    var w' := WipeStep(w, id);
    WipeMirrors(w, id);
    forall c | c in w'.clients
      ensures InSync(w'.server, c, w'.clients[c])
    {
      assert InSync(w.server, c, w.clients[c]);
    }
  }

  /** What each remaining mirror holds after a departure. */
  lemma LeaveMirrors(w: World, id: SocketId)
    ensures var w' := LeaveStep(w, id);
      && w'.clients.Keys == w.clients.Keys - {id}
      && forall c :: c in w'.clients ==> w'.clients[c] == SocketContext.OnUserDisconnected(w.clients[c], id)
  {
    var h := Server.HandleDisconnect(w.server, id);
    DeliverOneEmit(w.clients - {id}, h.out[0]);
  }

  /** A participant leaving is forgotten by the server and by every remaining
      mirror; the log is untouched. */
  lemma {:induction false} LeaveKeepsInv(w: World, id: SocketId)
    requires Inv(w) && Enabled(w, Leave(id))
    ensures var w' := LeaveStep(w, id);
      && Inv(w')
      && w'.server.paths == w.server.paths
      && id !in w'.server.users && w'.clients.Keys == w.clients.Keys - {id}
  {
    var h := Server.HandleDisconnect(w.server, id);
    var w' := LeaveStep(w, id);
    LeaveMirrors(w, id);
    forall c | c in w'.clients
      ensures InSync(h.state, c, w'.clients[c])
    {
      UserDisconnectedInSync(w.server, c, w.clients[c], id);
    }
  }

  lemma StepKeepsInv(w: World, e: Event)
    requires Inv(w) && Enabled(w, e)
    ensures Inv(Apply(w, e))
  {
    match e
    case Join(id, roll, prior) => JoinKeepsInv(w, id, roll, prior);
    case MoveCursor(id, position) => MoveCursorKeepsInv(w, id, position);
    case Stroke(id, pd) => StrokeKeepsInv(w, id, pd);
    case Wipe(id) => WipeKeepsInv(w, id);
    case Leave(id) => LeaveKeepsInv(w, id);
  }

  /** Convergence: after any valid trace from a synchronised relay, every
      connected mirror shows exactly the server's log, in the server's order. */
  lemma {:induction false} MirrorsConverge(w: World, trace: seq<Event>)
    requires Inv(w) && Valid(w, trace)
    ensures Inv(Run(w, trace))
    ensures forall c :: c in Run(w, trace).clients ==> Run(w, trace).clients[c].drawingPaths == Run(w, trace).server.paths
    decreases |trace|
  {
    if trace != [] {
      StepKeepsInv(w, trace[0]);
      MirrorsConverge(Apply(w, trace[0]), trace[1..]);
    }
  }

  /** The commands of the strokes in a trace, in the order they happen. */
  function Drawn(trace: seq<Event>): seq<PathData>
    decreases |trace|
  {
    if trace == [] then [] else (if trace[0].Stroke? then [trace[0].pd] else []) + Drawn(trace[1..])
  }

  function Geometries(paths: seq<DrawingPath>): (r: seq<PathData>)
    ensures |r| == |paths|
    decreases |paths|
  {
    if paths == [] then [] else [Geometry(paths[0])] + Geometries(paths[1..])
  }

  lemma {:induction false} GeometriesAppend(a: seq<DrawingPath>, b: seq<DrawingPath>)
    ensures Geometries(a + b) == Geometries(a) + Geometries(b)
    decreases |a|
  {
    if a == [] {
      assert a + b == b;
    } else {
      assert (a + b)[0] == a[0] && (a + b)[1..] == a[1..] + b;
      GeometriesAppend(a[1..], b);
    }
  }

  predicate NoWipe(trace: seq<Event>)
  {
    forall i :: 0 <= i < |trace| ==> !trace[i].Wipe?
  }

  /** What one event other than a clear does to the server's log: a stroke
      appends its stamped command, anything else leaves the log alone. */
  lemma LogStep(w: World, e: Event)
    requires Enabled(w, e) && !e.Wipe?
    ensures e.Stroke? ==>
      Apply(w, e).server.paths == w.server.paths + [WithAuthor(e.pd, e.id, w.server.users[e.id].username, w.server.users[e.id].color)]
    ensures !e.Stroke? ==> Apply(w, e).server.paths == w.server.paths
  {
  }

  lemma RunFirst(w: World, trace: seq<Event>)
    requires Valid(w, trace) && trace != []
    ensures Enabled(w, trace[0]) && Valid(Apply(w, trace[0]), trace[1..])
    ensures Run(w, trace) == Run(Apply(w, trace[0]), trace[1..])
  {
  }

  lemma NoWipeSplit(trace: seq<Event>)
    requires NoWipe(trace) && trace != []
    ensures !trace[0].Wipe? && NoWipe(trace[1..])
  {
    forall i | 0 <= i < |trace[1..]| ensures !trace[1..][i].Wipe? {
      assert trace[1..][i] == trace[i + 1];
    }
  }

  /** Without a clear, the server's log only grows, and what it grows by is the
      strokes of the trace in the order the server received them, each with its
      geometry unchanged. */
  lemma {:induction false} LogIsReceiptOrder(w: World, trace: seq<Event>)
    requires Valid(w, trace) && NoWipe(trace)
    ensures Geometries(Run(w, trace).server.paths) == Geometries(w.server.paths) + Drawn(trace)
    ensures w.server.paths <= Run(w, trace).server.paths
    decreases |trace|
  {
    if trace == [] {
      assert Drawn(trace) == [];
    } else {
      var e := trace[0];
      RunFirst(w, trace);
      NoWipeSplit(trace);
      var w1 := Apply(w, e);
      var last := Run(w1, trace[1..]);
      LogIsReceiptOrder(w1, trace[1..]);
      LogStep(w, e);
      var added := if e.Stroke? then [e.pd] else [];
      assert Drawn(trace) == added + Drawn(trace[1..]);
      if e.Stroke? {
        var p := Server.Stamp(w.server, e.id, e.pd);
        GeometriesAppend(w.server.paths, [p]);
        assert Geometries([p]) == [e.pd];
      }
      GrowthComposes(w.server.paths, w1.server.paths, Run(w1, trace[1..]).server.paths, added, Drawn(trace[1..]));
    }
  }

  lemma GrowthComposes(a: seq<DrawingPath>, b: seq<DrawingPath>, c: seq<DrawingPath>, ab: seq<PathData>, bc: seq<PathData>)
    requires Geometries(b) == Geometries(a) + ab && a <= b
    requires Geometries(c) == Geometries(b) + bc && b <= c
    ensures Geometries(c) == Geometries(a) + (ab + bc) && a <= c
  {
  }

  /** The snapshot a joiner is sent is the log committed at the moment it
      joins; after that it shows exactly what the server commits. */
  lemma JoinerStartsFromLogAtJoin(w: World, id: SocketId, roll: real, prior: Mirror, trace: seq<Event>)
    requires Inv(w) && Enabled(w, Join(id, roll, prior))
    requires Valid(Apply(w, Join(id, roll, prior)), trace)
    ensures Apply(w, Join(id, roll, prior)).clients[id].drawingPaths == w.server.paths
    ensures var w' := Run(Apply(w, Join(id, roll, prior)), trace);
      id in w'.clients ==> w'.clients[id].drawingPaths == w'.server.paths
  {
    JoinKeepsInv(w, id, roll, prior);
    MirrorsConverge(Apply(w, Join(id, roll, prior)), trace);
  }

  /** The first participant to join an empty board is its only participant
      and is sent the empty log. */
  lemma FirstJoin(id: SocketId, prior: Mirror)
    requires id != ""
    ensures var w1 := JoinStep(Empty, id, 0.0, prior);
      && Inv(w1) && w1.server.paths == [] && w1.used == {id}
      && id in w1.clients && id in w1.server.users
  {
    EmptyInv();
    JoinKeepsInv(Empty, id, 0.0, prior);
  }

  /** First phase of the scenario below: A joins an empty board and draws. */
  lemma AliceJoinsAndDraws(prior: Mirror, pd: PathData) returns (p: DrawingPath)
    ensures var a := "alice-socket";
      var w1 := JoinStep(Empty, a, 0.0, prior);
      && a in w1.clients && a in w1.server.users
      && (var w2 := StrokeStep(w1, a, pd);
          && Inv(w2) && w2.server.paths == [p]
          && p.userId == a && Geometry(p) == pd
          && "bob-socket" !in w2.used && a in w2.clients)
  {
    var a := "alice-socket";
    FirstJoin(a, prior);
    var w1 := JoinStep(Empty, a, 0.0, prior);
    StrokeKeepsInv(w1, a, pd);
    var w2 := StrokeStep(w1, a, pd);
    p := WithAuthor(pd, a, w1.server.users[a].username, w1.server.users[a].color);
    assert w2.used == {a};
    assert "bob-socket" != a by { assert "bob-socket"[0] != a[0]; }
  }

  /** Participant A joins and draws a three-point freehand stroke; B joins and
      is sent exactly that one stroke; A clears and B's canvas is empty. */
  lemma AliceDrawsBobJoinsAliceClears(prior: Mirror, p0: Point, p1: Point, p2: Point, color: Color, size: real)
    ensures var a, b := "alice-socket", "bob-socket";
      var pd := PathData(Pencil, [p0, p1, p2], color, size);
      var w1 := JoinStep(Empty, a, 0.0, prior);
      && a in w1.clients && a in w1.server.users
      && (var w2 := StrokeStep(w1, a, pd);
          var w3 := JoinStep(w2, b, 0.5, prior);
          && a in w3.clients && b in w3.clients
          && |w3.clients[b].drawingPaths| == 1
          && Geometry(w3.clients[b].drawingPaths[0]) == pd
          && w3.clients[b].drawingPaths[0].userId == a
          && WipeStep(w3, a).clients[b].drawingPaths == [])
  {
    var a, b := "alice-socket", "bob-socket";
    var pd := PathData(Pencil, [p0, p1, p2], color, size);
    var p := AliceJoinsAndDraws(prior, pd);
    var w2 := StrokeStep(JoinStep(Empty, a, 0.0, prior), a, pd);
    JoinKeepsInv(w2, b, 0.5, prior);
    var w3 := JoinStep(w2, b, 0.5, prior);
    assert w3.clients[b].drawingPaths == [p];
    assert a in w3.clients && b in w3.clients;
    WipeKeepsInv(w3, a);
  }
}
