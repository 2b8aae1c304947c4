/** The relay server: one module-level `drawingState = {paths, users}` that the
    socket handlers change in place, one event at a time.

    The handlers are first given as functions from the old state to the new
    state and the emissions (`Handled`); the class `DrawingState` holds the
    mutable state and its methods are proved to do what those functions say. */
module Server {
  import opened Types

  /** The nine colours `getRandomColor` picks from. */
  const Palette: seq<Color> := [
    "#3B82F6", "#EF4444", "#10B981", "#F59E0B", "#8B5CF6",
    "#EC4899", "#6366F1", "#F97316", "#14B8A6"
  ]

  /** `colors[Math.floor(Math.random() * colors.length)]`, with the value of
      `Math.random()` passed in as `roll`. */
  function GetRandomColor(roll: real): (c: Color)
    requires 0.0 <= roll < 1.0
    ensures c in Palette
    ensures c != ""
  {
    var i := (roll * |Palette| as real).Floor;
    Palette[i]
  }

  /** `socket.id.substring(0, 5)` */
  function Prefix5(id: SocketId): (p: string)
    ensures p <= id
    ensures |p| == if |id| < 5 then |id| else 5
  {
    if |id| < 5 then id else id[..5]
  }

  /** The generated display name `User-xxxxx`. */
  function Username(id: SocketId): (name: string)
    ensures |name| >= 5 && name[..5] == "User-"
    ensures name[5..] <= id && |name| == 5 + |Prefix5(id)|
  {
    "User-" + Prefix5(id)
  }

  /** The record registered for a new connection. */
  function NewUser(id: SocketId, roll: real): (u: User)
    requires 0.0 <= roll < 1.0
    ensures u.id == id && u.username == Username(id)
    ensures u.color in Palette && u.cursorPosition == Origin
  {
    User(id, Username(id), GetRandomColor(roll), Origin)
  }

  /** The state after a handler ran, and what it emitted, in order. */
  datatype Handled = Handled(state: Snapshot, out: seq<Emit>)

  /** `io.on('connection')`: register the participant, send the whole state to
      the joiner only, then announce the joiner to everybody else. */
  function HandleConnection(s: Snapshot, id: SocketId, roll: real): (r: Handled)
    requires 0.0 <= roll < 1.0
    ensures id in r.state.users && r.state.users[id] == NewUser(id, roll)
    ensures forall k :: k != id ==> (k in r.state.users <==> k in s.users)
    ensures forall k :: k in s.users && k != id ==> r.state.users[k] == s.users[k]
    ensures r.state.paths == s.paths
    ensures r.out == [Emit(Only(id), Init(r.state)), Emit(AllBut(id), UserConnected(r.state.users[id]))]
  {
    var users := s.users[id := NewUser(id, roll)];
    var state := Snapshot(s.paths, users);
    Handled(state, [Emit(Only(id), Init(state)), Emit(AllBut(id), UserConnected(users[id]))])
  }

  /** `cursor-move`: ignored for a socket that is not registered; otherwise only
      that participant's cursor changes and everybody else is told. */
  function HandleCursorMove(s: Snapshot, id: SocketId, position: Point): (r: Handled)
    ensures id !in s.users ==> r.state == s && r.out == []
    ensures r.state.paths == s.paths && r.state.users.Keys == s.users.Keys
    ensures forall k :: k in s.users && k != id ==> r.state.users[k] == s.users[k]
    ensures id in s.users ==>
      && r.state.users[id].cursorPosition == position
      && SameIdentity(r.state.users[id], s.users[id])
      && r.out == [Emit(AllBut(id), CursorUpdate(id, position))]
  {
    if id in s.users then
      var users := s.users[id := s.users[id].(cursorPosition := position)];
      Handled(Snapshot(s.paths, users), [Emit(AllBut(id), CursorUpdate(id, position))])
    else
      Handled(s, [])
  }

  /** `draw`: stamp the command with the sender's identity, append it to the
      log and send it to everybody but the sender. The sender must be
      registered: the handler reads its record without a check. */
  function HandleDraw(s: Snapshot, id: SocketId, pd: PathData): (r: Handled)
    requires id in s.users
    ensures |r.state.paths| == |s.paths| + 1 && r.state.paths[..|s.paths|] == s.paths
    ensures Geometry(r.state.paths[|s.paths|]) == pd
    ensures r.state.paths[|s.paths|].userId == id
    ensures r.state.paths[|s.paths|].username == s.users[id].username
    ensures r.state.paths[|s.paths|].userColor == s.users[id].color
    ensures r.state.users == s.users
    ensures r.out == [Emit(AllBut(id), DrawUpdate(r.state.paths[|s.paths|]))]
  {
    var stamped := Stamp(s, id, pd);
    Handled(Snapshot(s.paths + [stamped], s.users), [Emit(AllBut(id), DrawUpdate(stamped))])
  }

  /** The path `draw` logs: the command with the sender's socket id and its
      registered name and colour. */
  function Stamp(s: Snapshot, id: SocketId, pd: PathData): DrawingPath
    requires id in s.users
  {
    WithAuthor(pd, id, s.users[id].username, s.users[id].color)
  }

  /** `clear-canvas`: empty the log and tell every socket, the sender included.
      The handler does not look at who sent it. */
  function HandleClearCanvas(s: Snapshot): (r: Handled)
    ensures r.state.paths == [] && r.state.users == s.users
    ensures r.out == [Emit(Everyone, CanvasCleared)]
  {
    Handled(Snapshot([], s.users), [Emit(Everyone, CanvasCleared)])
  }

  /** `disconnect`: forget the participant if it is there, and tell every socket
      in either case. */
  function HandleDisconnect(s: Snapshot, id: SocketId): (r: Handled)
    ensures r.state.paths == s.paths
    ensures r.state.users.Keys == s.users.Keys - {id}
    ensures forall k :: k in r.state.users ==> r.state.users[k] == s.users[k]
    ensures r.out == [Emit(Everyone, UserDisconnected(id))]
  {
    var users := if id in s.users then s.users - {id} else s.users;
    Handled(Snapshot(s.paths, users), [Emit(Everyone, UserDisconnected(id))])
  }

  /** The handler the server runs for a message a client sent. */
  function HandleMessage(s: Snapshot, id: SocketId, msg: ClientMsg): Handled
    requires msg.Draw? ==> id in s.users
  {
    match msg
    case CursorMove(position) => HandleCursorMove(s, id, position)
    case Draw(pd) => HandleDraw(s, id, pd)
    case ClearCanvas => HandleClearCanvas(s)
  }

  /** Clearing twice leaves the same state as clearing once. */
  lemma ClearCanvasIdempotent(s: Snapshot)
    ensures HandleClearCanvas(HandleClearCanvas(s).state).state == HandleClearCanvas(s).state
  {
  }

  /** Disconnecting a socket that is not registered changes nothing, yet
      `user-disconnected` is still sent to everybody. */
  lemma DisconnectAbsent(s: Snapshot, id: SocketId)
    requires id !in s.users
    ensures HandleDisconnect(s, id).state == s
    ensures HandleDisconnect(s, id).out == [Emit(Everyone, UserDisconnected(id))]
  {
  }

  /** A stroke is never sent back to the socket that drew it, while every other
      socket is sent exactly that stroke. */
  lemma DrawNotEchoed(s: Snapshot, id: SocketId, pd: PathData, c: SocketId)
    requires id in s.users
    ensures var r := HandleDraw(s, id, pd);
      forall e :: e in r.out ==> (Receives(e.to, c) <==> c != id) && e.msg.DrawUpdate? && Geometry(e.msg.path) == pd
  {
  }

  /** The shared state as the server process holds it. */
  class DrawingState {
    var paths: seq<DrawingPath>
    var users: map<SocketId, User>

    function Value(): Snapshot
      reads this
    {
      Snapshot(paths, users)
    }

    /** `let drawingState = { paths: [], users: {} }` */
    constructor ()
      ensures paths == [] && users == map[]
    {
      paths := [];
      users := map[];
    }

    method OnConnection(id: SocketId, roll: real) returns (out: seq<Emit>)
      requires 0.0 <= roll < 1.0
      modifies this
      ensures users == old(users)[id := NewUser(id, roll)] && paths == old(paths)
      ensures out == [Emit(Only(id), Init(Value())), Emit(AllBut(id), UserConnected(users[id]))]
      ensures Handled(Value(), out) == HandleConnection(old(Value()), id, roll)
    {
      var username := "User-" + Prefix5(id);
      users := users[id := User(id, username, GetRandomColor(roll), Point(0.0, 0.0))];
      out := [Emit(Only(id), Init(Snapshot(paths, users)))];
      out := out + [Emit(AllBut(id), UserConnected(users[id]))];
    }

    method OnCursorMove(id: SocketId, position: Point) returns (out: seq<Emit>)
      modifies this
      ensures paths == old(paths)
      ensures id !in old(users) ==> users == old(users) && out == []
      ensures id in old(users) ==>
        && users == old(users)[id := old(users)[id].(cursorPosition := position)]
        && out == [Emit(AllBut(id), CursorUpdate(id, position))]
      ensures Handled(Value(), out) == HandleCursorMove(old(Value()), id, position)
    {
      out := [];
      if id in users {
        users := users[id := users[id].(cursorPosition := position)];
        out := [Emit(AllBut(id), CursorUpdate(id, position))];
      }
    }

    method OnDraw(id: SocketId, pd: PathData) returns (out: seq<Emit>)
      requires id in users
      modifies this
      ensures users == old(users) && paths == old(paths) + [WithAuthor(pd, id, users[id].username, users[id].color)]
      ensures out == [Emit(AllBut(id), DrawUpdate(WithAuthor(pd, id, users[id].username, users[id].color)))]
      ensures Handled(Value(), out) == HandleDraw(old(Value()), id, pd)
    {
      var pathWithUser := WithAuthor(pd, id, users[id].username, users[id].color);
      paths := paths + [pathWithUser];
      out := [Emit(AllBut(id), DrawUpdate(pathWithUser))];
    }

    method OnClearCanvas() returns (out: seq<Emit>)
      modifies this
      ensures paths == [] && users == old(users)
      ensures out == [Emit(Everyone, CanvasCleared)]
      ensures Handled(Value(), out) == HandleClearCanvas(old(Value()))
    {
      paths := [];
      out := [Emit(Everyone, CanvasCleared)];
    }

    method OnDisconnect(id: SocketId) returns (out: seq<Emit>)
      modifies this
      ensures paths == old(paths) && users == old(users) - {id}
      ensures out == [Emit(Everyone, UserDisconnected(id))]
      ensures Handled(Value(), out) == HandleDisconnect(old(Value()), id)
    {
      if id in users {
        users := users - {id};
      }
      out := [Emit(Everyone, UserDisconnected(id))];
    }
  }
}
