/** The browser side of the relay: each client keeps a mirror of the shared
    state, `(drawingPaths, users, currentUser)`.

    Inbound events are copy-and-return updaters over the mirror and are
    functions here. The provider's own state (`isConnected`,
    `connectionAttempts`, `currentUser`, the socket) is changed step by step by
    its handlers and is the class `SocketProvider`. */
module SocketContext {
  import opened Types

  /** The five colours `generateMockUser` picks from. */
  const MockColors: seq<Color> := ["#3B82F6", "#EF4444", "#10B981", "#F59E0B", "#8B5CF6"]

  const LocalUserId: SocketId := "local-user"
  const LocalUsername: string := "You (Local Mode)"
  const FallbackColor: Color := "#000000"

  /** Connection attempts allowed before the provider stops setting up sockets. */
  const MaxAttempts: nat := 3

  /** The offline stand-in participant; `roll` is the value of `Math.random()`. */
  function GenerateMockUser(roll: real): (u: User)
    requires 0.0 <= roll < 1.0
    ensures u.id == LocalUserId && u.username == LocalUsername
    ensures u.color in MockColors && u.cursorPosition == Origin
  {
    var i := (roll * |MockColors| as real).Floor;
    User(LocalUserId, LocalUsername, MockColors[i], Origin)
  }

  /** What a client knows of the shared state. */
  datatype Mirror = Mirror(drawingPaths: seq<DrawingPath>, users: map<SocketId, User>, currentUser: Option<User>)

  /** `init`: the snapshot replaces the local paths and participants wholesale,
      and the client's own entry in it becomes `currentUser`. */
  function OnInit(m: Mirror, state: Snapshot, ownId: SocketId): (r: Mirror)
    ensures r.drawingPaths == state.paths && r.users == state.users
    ensures ownId in state.users ==> r.currentUser == Some(state.users[ownId])
    ensures ownId !in state.users ==> r.currentUser == None
  {
    Mirror(state.paths, state.users, if ownId in state.users then Some(state.users[ownId]) else None)
  }

  /** `user-connected`: insert or overwrite exactly one participant. */
  function OnUserConnected(m: Mirror, u: User): (r: Mirror)
    ensures r.users.Keys == m.users.Keys + {u.id} && r.users[u.id] == u
    ensures forall k :: k in m.users && k != u.id ==> r.users[k] == m.users[k]
    ensures r.drawingPaths == m.drawingPaths && r.currentUser == m.currentUser
  {
    m.(users := m.users[u.id := u])
  }

  /** `user-disconnected`: delete that participant if present. */
  function OnUserDisconnected(m: Mirror, userId: SocketId): (r: Mirror)
    ensures r.users.Keys == m.users.Keys - {userId}
    ensures forall k :: k in r.users ==> r.users[k] == m.users[k]
    ensures userId !in m.users ==> r == m
    ensures r.drawingPaths == m.drawingPaths && r.currentUser == m.currentUser
  {
    if userId in m.users then m.(users := m.users - {userId}) else m
  }

  /** `cursor-update`: for a known participant replace only the cursor; for an
      unknown one leave everything as it is. */
  function OnCursorUpdate(m: Mirror, userId: SocketId, position: Point): (r: Mirror)
    ensures userId !in m.users ==> r == m
    ensures r.users.Keys == m.users.Keys
    ensures forall k :: k in m.users && k != userId ==> r.users[k] == m.users[k]
    ensures userId in m.users ==>
      r.users[userId].cursorPosition == position && SameIdentity(r.users[userId], m.users[userId])
    ensures r.drawingPaths == m.drawingPaths && r.currentUser == m.currentUser
  {
    if userId !in m.users then m
    else m.(users := m.users[userId := m.users[userId].(cursorPosition := position)])
  }

  /** `draw-update`: append after every path already shown. */
  function OnDrawUpdate(m: Mirror, p: DrawingPath): (r: Mirror)
    ensures |r.drawingPaths| == |m.drawingPaths| + 1
    ensures r.drawingPaths[..|m.drawingPaths|] == m.drawingPaths && r.drawingPaths[|m.drawingPaths|] == p
    ensures r.users == m.users && r.currentUser == m.currentUser
  {
    m.(drawingPaths := m.drawingPaths + [p])
  }

  /** `canvas-cleared`: drop every path, whatever was drawn locally. */
  function OnCanvasCleared(m: Mirror): (r: Mirror)
    ensures r.drawingPaths == [] && r.users == m.users && r.currentUser == m.currentUser
  {
    m.(drawingPaths := [])
  }

  /** The handler registered for each server message; `ownId` is `socketIo.id`. */
  function Receive(m: Mirror, msg: ServerMsg, ownId: SocketId): Mirror
  {
    match msg
    case Init(state) => OnInit(m, state, ownId)
    case UserConnected(u) => OnUserConnected(m, u)
    case UserDisconnected(userId) => OnUserDisconnected(m, userId)
    case CursorUpdate(userId, position) => OnCursorUpdate(m, userId, position)
    case DrawUpdate(p) => OnDrawUpdate(m, p)
    case CanvasCleared => OnCanvasCleared(m)
  }

  /** JavaScript's `s || fallback` on a string: the empty string is falsy. */
  function OrElse(s: string, fallback: string): (r: string)
    ensures s != "" ==> r == s
    ensures s == "" ==> r == fallback
  {
    if s == "" then fallback else s
  }

  /** A participant none of whose identity fields is the empty string, so that
      no `||` fallback applies to it. */
  predicate Complete(u: User)
  {
    u.id != "" && u.username != "" && u.color != ""
  }

  /** The optimistic stamp `sendDrawingData` puts on a local stroke: the current
      participant's identity, or the local-mode placeholders. */
  function LocalStamp(pd: PathData, currentUser: Option<User>): (p: DrawingPath)
    ensures Geometry(p) == pd
    ensures currentUser.None? ==>
      p.userId == LocalUserId && p.username == LocalUsername && p.userColor == FallbackColor
    ensures currentUser.Some? && Complete(currentUser.value) ==> p == StampedBy(pd, currentUser.value)
  {
    match currentUser
    case None => WithAuthor(pd, LocalUserId, LocalUsername, FallbackColor)
    case Some(u) =>
      WithAuthor(pd, OrElse(u.id, LocalUserId), OrElse(u.username, LocalUsername), OrElse(u.color, FallbackColor))
  }

  /** The mirror after a local action, and what was sent to the server, if anything. */
  datatype Sent = Sent(mirror: Mirror, out: Option<ClientMsg>)

  /** `sendDrawingData`: always show the stroke locally at once; send the
      unstamped command only when `online` (`socket && isConnected`). */
  function SendDrawingData(m: Mirror, pd: PathData, online: bool): (r: Sent)
    ensures |r.mirror.drawingPaths| == |m.drawingPaths| + 1
    ensures r.mirror.drawingPaths[..|m.drawingPaths|] == m.drawingPaths
    ensures Geometry(r.mirror.drawingPaths[|m.drawingPaths|]) == pd
    ensures r.mirror.drawingPaths[|m.drawingPaths|] == LocalStamp(pd, m.currentUser)
    ensures r.mirror.users == m.users && r.mirror.currentUser == m.currentUser
    ensures online ==> r.out == Some(Draw(pd))
    ensures !online ==> r.out == None
  {
    Sent(m.(drawingPaths := m.drawingPaths + [LocalStamp(pd, m.currentUser)]), if online then Some(Draw(pd)) else None)
  }

  /** `clearCanvas`: always empty the local paths; tell the server only when online. */
  function ClearCanvasLocally(m: Mirror, online: bool): (r: Sent)
    ensures r.mirror.drawingPaths == [] && r.mirror.users == m.users && r.mirror.currentUser == m.currentUser
    ensures online ==> r.out == Some(ClearCanvas)
    ensures !online ==> r.out == None
  {
    Sent(m.(drawingPaths := []), if online then Some(ClearCanvas) else None)
  }

  /** Offline, a stroke is kept locally with the local-mode author when there
      is no current participant, and nothing leaves the client. */
  lemma OfflineStrokeStaysLocal(m: Mirror, pd: PathData)
    requires m.currentUser.None?
    ensures var r := SendDrawingData(m, pd, false);
      r.out == None && r.mirror.drawingPaths == m.drawingPaths + [WithAuthor(pd, LocalUserId, LocalUsername, FallbackColor)]
  {
  }

  /** The snapshot decides the whole mirror: whatever the client showed before
      `init`, offline strokes included, is discarded. */
  lemma InitDiscardsLocalState(m1: Mirror, m2: Mirror, state: Snapshot, ownId: SocketId)
    ensures OnInit(m1, state, ownId) == OnInit(m2, state, ownId)
  {
  }

  /** Events on the provider's connection that move `connectionAttempts`. */
  datatype LinkEvent = Connected | ConnectError | Retry | Dropped

  /** How one event changes the attempt counter: reset on a successful
      connection and on a manual retry, one more on each connection error. */
  function NextAttempts(attempts: nat, e: LinkEvent): nat
  {
    match e
    case Connected => 0
    case Retry => 0
    case ConnectError => attempts + 1
    case Dropped => attempts
  }

  /** The counter after a sequence of events, from a starting value. */
  function AttemptsAfter(start: nat, events: seq<LinkEvent>): nat
    decreases |events|
  {
    if events == [] then start else NextAttempts(AttemptsAfter(start, events[..|events| - 1]), events[|events| - 1])
  }

  predicate IsReset(e: LinkEvent)
  {
    e.Connected? || e.Retry?
  }

  /** The position of the most recent connect or retry, or -1 when there was none. */
  function LastReset(events: seq<LinkEvent>): (i: int)
    ensures -1 <= i < |events|
    ensures 0 <= i ==> IsReset(events[i])
    ensures forall j :: i < j < |events| ==> !IsReset(events[j])
    decreases |events|
  {
    if events == [] then -1
    else if IsReset(events[|events| - 1]) then |events| - 1
    else LastReset(events[..|events| - 1])
  }

  /** The connection errors after the most recent reset (or since the start),
      counted directly in that suffix of the trace. */
  function ErrorsSinceReset(events: seq<LinkEvent>): nat
  {
    multiset(events[LastReset(events) + 1..])[ConnectError]
  }

  /** The count after one more event moves as the counter does. */
  lemma ErrorsStep(events: seq<LinkEvent>)
    requires events != []
    ensures ErrorsSinceReset(events) == NextAttempts(ErrorsSinceReset(events[..|events| - 1]), events[|events| - 1])
  {
    var n := |events| - 1;
    var init, e := events[..n], events[n];
    if IsReset(e) {
      assert events[LastReset(events) + 1..] == [];
    } else {
      var i := LastReset(init);
      assert LastReset(events) == i;
      assert events[i + 1..] == init[i + 1..] + [e];
      assert multiset(events[i + 1..]) == multiset(init[i + 1..]) + multiset{e};
    }
  }

  /** Starting from zero, the counter is exactly the number of connection
      errors since the last reset; so a socket is set up again
      (`connectionAttempts < 3`) exactly while fewer than three errors have
      happened since the last successful connection or retry. */
  lemma {:induction false} AttemptsCountErrorsSinceReset(events: seq<LinkEvent>)
    ensures AttemptsAfter(0, events) == ErrorsSinceReset(events)
    ensures AttemptsAfter(0, events) < MaxAttempts <==> ErrorsSinceReset(events) < 3
    decreases |events|
  {
    if events != [] {
      AttemptsCountErrorsSinceReset(events[..|events| - 1]);
      ErrorsStep(events);
    }
  }

  /** Once a reset has happened, the counter no longer depends on where it started. */
  lemma {:induction false} ResetForgetsStart(a: nat, b: nat, events: seq<LinkEvent>, i: nat)
    requires i < |events| && IsReset(events[i])
    ensures AttemptsAfter(a, events) == AttemptsAfter(b, events)
    decreases |events|
  {
    if i < |events| - 1 {
      ResetForgetsStart(a, b, events[..|events| - 1], i);
    }
  }

  /** The provider component: the socket, the connection status, the attempt
      counter and the mirror, updated by the handlers in place. */
  class SocketProvider {
    var hasSocket: bool
    var isConnected: bool
    var socketId: SocketId
    var connectionAttempts: nat
    var drawingPaths: seq<DrawingPath>
    var users: map<SocketId, User>
    var currentUser: Option<User>

    function View(): Mirror
      reads this
    {
      Mirror(drawingPaths, users, currentUser)
    }

    /** `socket && isConnected`: the condition for anything to be sent. */
    function Online(): bool
      reads this
    {
      hasSocket && isConnected
    }

    /** The initial `useState` values followed by the mount effect, which
        installs the local stand-in participant at once. */
    constructor (roll: real)
      requires 0.0 <= roll < 1.0
      ensures !hasSocket && !isConnected && connectionAttempts == 0
      ensures drawingPaths == []
      ensures users == map[LocalUserId := GenerateMockUser(roll)] && currentUser == Some(GenerateMockUser(roll))
    {
      hasSocket, isConnected, socketId, connectionAttempts := false, false, "", 0;
      drawingPaths := [];
      var mockUser := GenerateMockUser(roll);
      users := map[mockUser.id := mockUser];
      currentUser := Some(mockUser);
    }

    /** `setupSocketConnection`: disconnect any existing socket (whose
        `disconnect` handler clears `isConnected`) and install a new one. */
    method SetupSocketConnection()
      modifies this
      ensures hasSocket
      ensures isConnected == (old(isConnected) && !old(hasSocket))
      ensures connectionAttempts == old(connectionAttempts) && View() == old(View())
      ensures socketId == old(socketId)
    {
      if hasSocket {
        isConnected := false;
      }
      hasSocket := true;
    }

    /** The connection effect: set up a socket while fewer than three attempts
        were made; otherwise make sure a local participant exists. */
    method ConnectionEffect(roll: real) returns (setUp: bool)
      requires 0.0 <= roll < 1.0
      modifies this
      ensures setUp <==> old(connectionAttempts) < MaxAttempts
      ensures setUp ==> hasSocket && View() == old(View())
      ensures setUp ==> isConnected == (old(isConnected) && !old(hasSocket))
      ensures !setUp ==> hasSocket == old(hasSocket) && isConnected == old(isConnected)
      ensures socketId == old(socketId)
      ensures !setUp && (|old(users)| == 0 || old(currentUser).None?) ==>
        users == map[LocalUserId := GenerateMockUser(roll)] && currentUser == Some(GenerateMockUser(roll))
      ensures !setUp && !(|old(users)| == 0 || old(currentUser).None?) ==> View() == old(View())
      ensures drawingPaths == old(drawingPaths) && connectionAttempts == old(connectionAttempts)
    {
      if connectionAttempts < MaxAttempts {
        SetupSocketConnection();
        setUp := true;
      } else {
        if |users| == 0 || currentUser.None? {
          var mockUser := GenerateMockUser(roll);
          users := map[mockUser.id := mockUser];
          currentUser := Some(mockUser);
        }
        setUp := false;
      }
    }

    /** `connect`: the socket is live under `id`, and the counter is reset. */
    method OnConnect(id: SocketId)
      modifies this
      ensures isConnected && socketId == id && hasSocket == old(hasSocket)
      ensures connectionAttempts == NextAttempts(old(connectionAttempts), Connected)
      ensures View() == old(View())
    {
      isConnected := true;
      socketId := id;
      connectionAttempts := 0;
    }

    /** `disconnect` */
    method OnDisconnect()
      modifies this
      ensures !isConnected && hasSocket == old(hasSocket)
      ensures connectionAttempts == NextAttempts(old(connectionAttempts), Dropped)
      ensures View() == old(View())
    {
      isConnected := false;
    }

    /** `connect_error`: one more attempt; from the third attempt on, make sure
        there is a local participant without replacing an existing one. */
    method OnConnectError(roll: real)
      requires 0.0 <= roll < 1.0
      modifies this
      ensures connectionAttempts == NextAttempts(old(connectionAttempts), ConnectError)
      ensures old(connectionAttempts) < 2 ==> View() == old(View())
      ensures old(connectionAttempts) >= 2 ==>
        && (|old(users)| == 0 ==> users == map[LocalUserId := GenerateMockUser(roll)])
        && (|old(users)| != 0 ==> users == old(users))
        && (old(currentUser).Some? ==> currentUser == old(currentUser))
        && (old(currentUser).None? ==> currentUser == Some(GenerateMockUser(roll)))
      ensures drawingPaths == old(drawingPaths)
      ensures hasSocket == old(hasSocket) && isConnected == old(isConnected)
    {
      var attempts := connectionAttempts;
      connectionAttempts := connectionAttempts + 1;
      if attempts >= 2 {
        var mockUser := GenerateMockUser(roll);
        if |users| == 0 {
          users := map[mockUser.id := mockUser];
        }
        if currentUser.None? {
          currentUser := Some(mockUser);
        }
      }
    }

    /** `retryConnection`: reset the counter and set up a fresh socket. */
    method RetryConnection()
      modifies this
      ensures connectionAttempts == NextAttempts(old(connectionAttempts), Retry)
      ensures hasSocket && View() == old(View())
      ensures isConnected == (old(isConnected) && !old(hasSocket))
      ensures socketId == old(socketId)
    {
      connectionAttempts := 0;
      SetupSocketConnection();
    }

    /** A message arriving on the socket. */
    method OnMessage(msg: ServerMsg)
      modifies this
      ensures View() == Receive(old(View()), msg, socketId)
      ensures hasSocket == old(hasSocket) && isConnected == old(isConnected)
      ensures connectionAttempts == old(connectionAttempts) && socketId == old(socketId)
    {
      var m := Receive(View(), msg, socketId);
      drawingPaths, users, currentUser := m.drawingPaths, m.users, m.currentUser;
    }

    /** `sendDrawingData` */
    method SendDrawing(pd: PathData) returns (out: Option<ClientMsg>)
      modifies this
      ensures Sent(View(), out) == SendDrawingData(old(View()), pd, old(Online()))
      ensures hasSocket == old(hasSocket) && isConnected == old(isConnected)
      ensures connectionAttempts == old(connectionAttempts) && socketId == old(socketId)
    {
      var fullPathData := LocalStamp(pd, currentUser);
      drawingPaths := drawingPaths + [fullPathData];
      out := None;
      if hasSocket && isConnected {
        out := Some(Draw(pd));
      }
    }

    /** `clearCanvas` */
    method Clear() returns (out: Option<ClientMsg>)
      modifies this
      ensures Sent(View(), out) == ClearCanvasLocally(old(View()), old(Online()))
      ensures hasSocket == old(hasSocket) && isConnected == old(isConnected)
      ensures connectionAttempts == old(connectionAttempts) && socketId == old(socketId)
    {
      drawingPaths := [];
      out := None;
      if hasSocket && isConnected {
        out := Some(ClearCanvas);
      }
    }

    /** `sendCursorPosition`: sends when online and never touches local state. */
    method SendCursorPosition(position: Point) returns (out: Option<ClientMsg>)
      ensures hasSocket && isConnected ==> out == Some(CursorMove(position))
      ensures !(hasSocket && isConnected) ==> out == None
    {
      out := None;
      if hasSocket && isConnected {
        out := Some(CursorMove(position));
      }
    }
  }
}
