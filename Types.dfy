/** Shapes shared by the relay server and its browser clients: participants,
    drawing commands, the session snapshot, and the messages that travel
    between a client socket and the server. */
module Types {

  /** Socket.IO connection identifier; the server keys participants by it. */
  type SocketId = string

  /** CSS colour token such as "#3B82F6". */
  type Color = string

  datatype Option<T> = None | Some(value: T)

  /** A canvas coordinate (JavaScript numbers, taken here as reals). */
  datatype Point = Point(x: real, y: real)

  /** The cursor position every new participant starts with. */
  const Origin := Point(0.0, 0.0)

  datatype Tool = Pencil | Line | Rect | Circle | Eraser

  /** A drawing command as the canvas produces it, before authorship is
      attached (`Omit<DrawingPath, 'userId' | 'username' | 'userColor'>`). */
  datatype PathData = PathData(tool: Tool, points: seq<Point>, color: Color, size: real)

  /** A committed drawing command: the geometry plus its author. */
  datatype DrawingPath = DrawingPath(
    tool: Tool, points: seq<Point>, color: Color, size: real,
    userId: SocketId, username: string, userColor: Color)

  datatype User = User(id: SocketId, username: string, color: Color, cursorPosition: Point)

  /** The whole shared state: the ordered log of committed paths and the
      participants keyed by socket id. The server owns one; `init` carries a copy. */
  datatype Snapshot = Snapshot(paths: seq<DrawingPath>, users: map<SocketId, User>)

  /** The geometry of a committed path, with the authorship dropped. */
  function Geometry(p: DrawingPath): PathData
  {
    PathData(p.tool, p.points, p.color, p.size)
  }

  /** `{...pathData, userId, username, userColor}`: the command keeps every
      field it had and gains the three author fields. */
  function WithAuthor(pd: PathData, userId: SocketId, username: string, userColor: Color): (p: DrawingPath)
    ensures Geometry(p) == pd
    ensures p.userId == userId && p.username == username && p.userColor == userColor
  {
    DrawingPath(pd.tool, pd.points, pd.color, pd.size, userId, username, userColor)
  }

  /** Stamping with a participant's identity: what the server does on `draw`. */
  function StampedBy(pd: PathData, u: User): (p: DrawingPath)
    ensures Geometry(p) == pd
    ensures p.userId == u.id && p.username == u.username && p.userColor == u.color
  {
    WithAuthor(pd, u.id, u.username, u.color)
  }

  /** Two participant records that differ at most in their cursor position. */
  predicate SameIdentity(a: User, b: User)
  {
    a.id == b.id && a.username == b.username && a.color == b.color
  }

  /** Messages the server sends (left column of the event table). */
  datatype ServerMsg =
    | Init(state: Snapshot)
    | UserConnected(user: User)
    | UserDisconnected(userId: SocketId)
    | CursorUpdate(userId: SocketId, position: Point)
    | DrawUpdate(path: DrawingPath)
    | CanvasCleared

  /** Messages a client sends to the server. */
  datatype ClientMsg =
    | CursorMove(position: Point)
    | Draw(pathData: PathData)
    | ClearCanvas

  /** Who an emission reaches: `socket.emit` (the socket alone),
      `socket.broadcast.emit` (every socket but this one) and `io.emit` (every socket). */
  datatype Audience = Only(id: SocketId) | AllBut(id: SocketId) | Everyone

  datatype Emit = Emit(to: Audience, msg: ServerMsg)

  predicate Receives(to: Audience, c: SocketId)
  {
    match to
    case Only(id) => c == id
    case AllBut(id) => c != id
    case Everyone => true
  }
}
