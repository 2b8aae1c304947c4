# Real-time collaborative whiteboard: relay protocol model

This project models the collaboration core of a shared whiteboard. One
Socket.IO server holds the authoritative `drawingState = {paths, users}` and
relays events between browser clients. Each client keeps a mirror of that
state in its React socket provider, and the canvas turns mouse gestures into
drawing commands.

- `Types.dfy` (module `Types`): participants (`User`), drawing commands
  before and after authorship (`PathData`, `DrawingPath`), the shared
  `Snapshot`, and the wire messages with their audiences (`socket.emit`,
  `socket.broadcast.emit`, `io.emit`).
- `Server.dfy` (module `Server`, from `src/server/server.js`): each socket
  handler as a function from the old state to the new state and its emissions,
  plus the class `DrawingState` whose methods change `paths` and `users` in
  place and are proved to match those functions. `getRandomColor` gets the
  value of `Math.random()` as a parameter.
- `SocketContext.dfy` (module `SocketContext`, from
  `src/context/SocketContext.tsx`): the inbound updaters and the optimistic
  outbound actions as functions over the mirror. The class `SocketProvider`
  models the provider's step-by-step state: socket, `isConnected`,
  `connectionAttempts`, `currentUser`. The counter, as the handlers update it
  event by event (`NextAttempts`, `AttemptsAfter`), is checked against a
  separate count: `LastReset` finds the position of the latest connect or
  retry, and `ErrorsSinceReset` counts the `connect_error`s after it.
- `Canvas.dfy` (module `Canvas`, from `src/components/whiteboard/Canvas.tsx`):
  the gesture state machine (`isDrawing`, `currentPath`) as the class
  `GestureState` and as functions, plus the points and colours each tool draws
  with.
- `Relay.dfy` (module `Relay`): the whole system, meaning the server state
  plus one mirror per connected socket, driven by a trace of events. Here
  each event is delivered to every socket it addresses before the next event
  starts; nothing is in flight. Under that assumption the invariant `Inv`
  says every mirror is in sync with the server, and from it follow:
  - every mirror equals the server's log;
  - a joiner's snapshot is the log at join time;
  - a clear empties every mirror;
  - a sender's own stroke appears once in its own mirror;
  - without a clear, the log is the strokes in the order the server received them.
- `Transit.dfy` (module `Transit`): the same handler functions as `Relay`
  (`Server.HandleMessage`, `SocketContext.Receive` and the client's actions),
  but with messages in flight.
  Every socket has an ordered queue towards the server and one towards the
  client, and a client's action, the server handling it and each delivery are
  separate events. Here the code as written lets two canvases end up
  different (see "Findings"). The corrected relay waits for the server
  instead of updating the canvas locally, and echoes every stroke to its
  sender. For it, every client that has taken all its messages shows the
  server's log.

The handlers do not check registration or validate input except where noted:

- The server's `draw` handler dereferences the sender's record without a
  check, so `HandleDraw` requires the sender to be registered. It is not a
  silent no-op.
- `clear-canvas` does not check who sent it.
- `disconnect` sends `user-disconnected` even when the participant was
  already gone.
- The server does not validate commands. Paths without points are only
  skipped when drawn.

## Model

| member | source | states |
|---|---|---|
| `Types.WithAuthor` | src/server/server.js:58-63 | the stamped path keeps the command's geometry exactly and carries the given author id, name and colour |
| `Types.StampedBy` | src/server/server.js:58-63 | stamping with a participant keeps the geometry and takes id, username and colour from that participant |
| `Server.GetRandomColor` | src/server/server.js:93-107 | for any value of `Math.random()` in [0,1) the colour is one of the nine palette entries, never empty |
| `Server.Prefix5` | src/server/server.js:28 | `substring(0, 5)`: a prefix of the id, of length 5 or the whole id when shorter |
| `Server.Username` | src/server/server.js:28 | the name starts with `User-` followed by a prefix of the socket id of at most five characters |
| `Server.NewUser` | src/server/server.js:31-36 | the new record has the socket id, the generated name, a palette colour and cursor (0,0) |
| `Server.HandleConnection` | src/server/server.js:24-42 | the joiner is registered under its id and no other participant or path changes; `init` with the whole new state, joiner included, goes to the joiner only, then `user-connected` to every other socket |
| `Server.HandleCursorMove` | src/server/server.js:45-53 | from an unregistered socket, nothing changes and nothing is sent; otherwise only that participant's cursor changes (identity kept) and `cursor-update` goes to all but the sender |
| `Server.HandleDraw` | src/server/server.js:56-70 | exactly one path is appended and earlier ones are unchanged; it has the command's geometry and the sender's id, username and colour; participants are unchanged; `draw-update` of it goes to all but the sender |
| `Server.HandleClearCanvas` | src/server/server.js:73-76 | the log becomes empty, participants are unchanged, and `canvas-cleared` goes to every socket |
| `Server.HandleDisconnect` | src/server/server.js:79-89 | only that participant is removed and the log is unchanged; `user-disconnected` goes to every socket |
| `Server.ClearCanvasIdempotent` | src/server/server.js:73-76 | clearing twice gives the same state as clearing once |
| `Server.DisconnectAbsent` | src/server/server.js:83-88 | disconnecting an absent participant leaves the state unchanged but still broadcasts `user-disconnected` |
| `Server.DrawNotEchoed` | src/server/server.js:69 | the stroke reaches a socket exactly when it is not the sender, and it carries the command's geometry |
| `Server.DrawingState.constructor` | src/server/server.js:19-22 | the server starts with no paths and no participants |
| `Server.DrawingState.OnConnection` | src/server/server.js:24-42 | updates `users` in place as `HandleConnection` says and returns its two emissions |
| `Server.DrawingState.OnCursorMove` | src/server/server.js:45-53 | updates the sender's cursor in place only when registered, as `HandleCursorMove` says |
| `Server.DrawingState.OnDraw` | src/server/server.js:56-70 | pushes the stamped path onto `paths` and leaves `users` alone, as `HandleDraw` says |
| `Server.DrawingState.OnClearCanvas` | src/server/server.js:73-76 | replaces `paths` with the empty log, as `HandleClearCanvas` says |
| `Server.DrawingState.OnDisconnect` | src/server/server.js:79-89 | deletes the key if present and always emits, as `HandleDisconnect` says |
| `SocketContext.GenerateMockUser` | src/context/SocketContext.tsx:50-58 | the offline participant is `local-user` / `You (Local Mode)` at (0,0), with one of the five mock colours |
| `SocketContext.OnInit` | src/context/SocketContext.tsx:127-131 | paths and participants are replaced wholesale by the snapshot; `currentUser` is the snapshot's entry for the client's own id, and absent when there is none |
| `SocketContext.OnUserConnected` | src/context/SocketContext.tsx:133-139 | upserts exactly one participant; all others, the paths and `currentUser` are unchanged |
| `SocketContext.OnUserDisconnected` | src/context/SocketContext.tsx:141-150 | removes that key if present and keeps every other entry; an unknown id leaves the mirror unchanged |
| `SocketContext.OnCursorUpdate` | src/context/SocketContext.tsx:152-164 | an unknown id leaves the mirror unchanged; otherwise only that participant's cursor is replaced, with id, username and colour kept |
| `SocketContext.OnDrawUpdate` | src/context/SocketContext.tsx:166-168 | the received path is appended at the end and every earlier path stays in order |
| `SocketContext.OnCanvasCleared` | src/context/SocketContext.tsx:170-173 | the local paths become empty unconditionally, and participants are kept |
| `SocketContext.OrElse` | src/context/SocketContext.tsx:230-232 | JavaScript `||` on strings: the value unless it is empty, else the fallback |
| `SocketContext.LocalStamp` | src/context/SocketContext.tsx:228-233 | keeps the geometry; without a current participant it stamps `local-user`, `You (Local Mode)`, `#000000`; with a participant whose fields are non-empty it stamps exactly as the server would |
| `SocketContext.SendDrawingData` | src/context/SocketContext.tsx:226-240 | always appends exactly one path, stamped as `LocalStamp` says with the current participant or the local-mode fallbacks, whatever the connection state; sends the unstamped command exactly when online |
| `SocketContext.ClearCanvasLocally` | src/context/SocketContext.tsx:242-248 | always empties the local paths; sends `clear-canvas` exactly when online |
| `SocketContext.OfflineStrokeStaysLocal` | src/context/SocketContext.tsx:226-240 | offline and without a participant, the stroke is kept locally with the local-mode author and nothing is sent |
| `SocketContext.InitDiscardsLocalState` | src/context/SocketContext.tsx:127-131 | the mirror after `init` does not depend on what the client showed before, including offline strokes |
| `SocketContext.LastReset` | src/context/SocketContext.tsx:92-97 | the position of the most recent connect or retry, or -1: that event is a reset and none comes after it |
| `SocketContext.ErrorsStep` | src/context/SocketContext.tsx:95-107 | one more event changes the count of errors since the last reset as the counter's handlers change the counter: 0 after a connect or retry, one more after an error, the same after a disconnect |
| `SocketContext.AttemptsCountErrorsSinceReset` | src/context/SocketContext.tsx:95-107 | from 0, the counter equals the number of `connect_error`s since the last connect or retry, so a socket is set up (fewer than 3 attempts) exactly while fewer than three such errors happened |
| `SocketContext.ResetForgetsStart` | src/context/SocketContext.tsx:214-217 | after any connect or retry, the counter no longer depends on its starting value |
| `SocketContext.SocketProvider.constructor` | src/context/SocketContext.tsx:61-74 | starts with no socket, not connected, 0 attempts and no paths; the mount effect installs the mock participant as the only participant and as `currentUser` |
| `SocketContext.SocketProvider.SetupSocketConnection` | src/context/SocketContext.tsx:76-90 | installs a socket; an existing one is disconnected first, which clears `isConnected`; the mirror and counter are untouched |
| `SocketContext.SocketProvider.ConnectionEffect` | src/context/SocketContext.tsx:192-204 | sets up a socket exactly when attempts < 3, which leaves it not connected when it replaced a socket; otherwise leaves the socket and `isConnected` as they were and installs the mock participant only if there are no participants or no `currentUser`; the counter, the paths and the socket id are unchanged |
| `SocketContext.SocketProvider.OnConnect` | src/context/SocketContext.tsx:92-97 | becomes connected under the socket's id and resets the counter to 0 |
| `SocketContext.SocketProvider.OnDisconnect` | src/context/SocketContext.tsx:99-103 | becomes disconnected; counter and mirror unchanged |
| `SocketContext.SocketProvider.OnConnectError` | src/context/SocketContext.tsx:105-125 | the counter goes up by one; from the third attempt the mock participant is added only when there are none, and an existing `currentUser` is kept |
| `SocketContext.SocketProvider.RetryConnection` | src/context/SocketContext.tsx:214-218 | resets the counter to 0 and sets up a socket; a socket it replaces is disconnected first, so `isConnected` stays set only when there was no socket before; the mirror and the socket id are unchanged |
| `SocketContext.SocketProvider.OnMessage` | src/context/SocketContext.tsx:127-173 | applies the matching inbound updater to the mirror; the connection state is unchanged |
| `SocketContext.SocketProvider.SendDrawing` | src/context/SocketContext.tsx:226-240 | changes the mirror and returns the message as `SendDrawingData` says, with online = socket && isConnected |
| `SocketContext.SocketProvider.Clear` | src/context/SocketContext.tsx:242-248 | changes the mirror and returns the message as `ClearCanvasLocally` says |
| `SocketContext.SocketProvider.SendCursorPosition` | src/context/SocketContext.tsx:220-224 | sends `cursor-move` exactly when socket && isConnected, and changes nothing |
| `Canvas.Command` | src/components/whiteboard/Canvas.tsx:215-220 | the command carries the gesture's points and the active tool, colour and brush size |
| `Canvas.MouseDown` | src/components/whiteboard/Canvas.tsx:196-200 | drawing starts, and the path is exactly the pressed position |
| `Canvas.MouseMove` | src/components/whiteboard/Canvas.tsx:202-211 | appends the position only while drawing; otherwise the path is unchanged |
| `Canvas.MouseUp` | src/components/whiteboard/Canvas.tsx:213-225 | while drawing with a non-empty path, emits exactly one command and returns to idle with an empty path; otherwise does nothing |
| `Canvas.MouseOut` | src/components/whiteboard/Canvas.tsx:227-231 | behaves as mouse-up while drawing and does nothing otherwise |
| `Canvas.Presses` | src/components/whiteboard/Canvas.tsx:196-200 | the count of mouse-down events is at most the number of events, and 0 exactly when no event is a press |
| `Canvas.RunSendsOnePerPress` | src/components/whiteboard/Canvas.tsx:196-231 | over any event sequence from a reachable state, every command has at least one point, and commands plus an unfinished stroke never exceed presses |
| `Canvas.CommandsBoundedByPresses` | src/components/whiteboard/Canvas.tsx:196-225 | from the idle canvas, the commands sent never outnumber the mouse-down events, and each has at least one point |
| `Canvas.DragCollectsPositions` | src/components/whiteboard/Canvas.tsx:202-211 | dragging extends the path by exactly the positions moved over, in order, and sends nothing |
| `Canvas.OneGestureOneCommand` | src/components/whiteboard/Canvas.tsx:196-225 | press, drag, release sends exactly one command, whose points are the press position then every dragged position |
| `Canvas.GestureState.constructor` | src/components/whiteboard/Canvas.tsx:18-19 | starts not drawing, with an empty path |
| `Canvas.GestureState.HandleMouseDown` | src/components/whiteboard/Canvas.tsx:196-200 | sets `isDrawing` and `currentPath` in place as `MouseDown` says |
| `Canvas.GestureState.HandleMouseMove` | src/components/whiteboard/Canvas.tsx:202-211 | offers the position to the cursor channel and grows the path in place as `MouseMove` says |
| `Canvas.GestureState.HandleMouseUp` | src/components/whiteboard/Canvas.tsx:213-225 | returns the command and resets the state in place as `MouseUp` says |
| `Canvas.GestureState.HandleMouseOut` | src/components/whiteboard/Canvas.tsx:227-231 | calls the mouse-up handler only while drawing, as `MouseOut` says |
| `Canvas.Render` | src/components/whiteboard/Canvas.tsx:61-106 | paths with no points are skipped; pencil and eraser go through all points in order; line, rectangle and circle are drawn from the first and the last point; the eraser always strokes `#f5f5f5`, other tools their own colour; rectangles and circles are filled with their colour unless it is `transparent`, nothing else is filled; the line width is the path's size |
| `Canvas.EndpointToolsIgnoreInterior` | src/components/whiteboard/Canvas.tsx:75-97 | line, rectangle and circle are drawn the same for any two point sequences with the same first and last points |
| `Canvas.FillRule` | src/components/whiteboard/Canvas.tsx:86-105 | rectangles and circles are filled with their colour unless it is `transparent`; other tools are never filled |
| `Canvas.PreviewIsCommittedDrawing` | src/components/whiteboard/Canvas.tsx:112-158 | the preview shown while dragging is what the released command is drawn as, once stamped with any author |
| `Relay.EmptyInv` | src/server/server.js:19-22 | the relay before any connection satisfies the invariant |
| `Relay.InitInSync` | src/context/SocketContext.tsx:127-131 | a mirror built from `init` is in sync with the server that sent it |
| `Relay.UserConnectedInSync` | src/context/SocketContext.tsx:133-139 | a mirror that upserts the joiner stays in sync with the server that registered it |
| `Relay.CursorUpdateInSync` | src/context/SocketContext.tsx:152-164 | a mirror told of another participant's cursor stays in sync with the server |
| `Relay.OwnCursorInSync` | src/server/server.js:48-51 | the mover's own mirror, which is not told, stays in sync: only its own cursor differs |
| `Relay.UserDisconnectedInSync` | src/context/SocketContext.tsx:141-150 | a mirror told that another participant left stays in sync |
| `Relay.JoinMirrors` | src/server/server.js:39-42 | after a join, the joiner's mirror is `init` applied to the new state and every other mirror has upserted the new participant |
| `Relay.JoinKeepsInv` | src/server/server.js:24-42 | a join keeps every mirror in sync; the joiner's mirror holds the log as it was at join time, every participant including itself, and itself as `currentUser` |
| `Relay.MoveCursorMirrors` | src/server/server.js:45-53 | after a cursor move, the mover's mirror is untouched and every other mirror applied `cursor-update` |
| `Relay.MoveCursorKeepsInv` | src/server/server.js:45-53 | a cursor move keeps every mirror in sync, updates the cursor on the server and in every other mirror, and leaves the mover's mirror as it was |
| `Relay.LocalStampMatchesServer` | src/context/SocketContext.tsx:228-233 | for a connected client, the optimistic stamp equals the server's stamp, so no local-mode fallback applies |
| `Relay.StrokeMirrors` | src/server/server.js:56-70 | after a stroke, the sender's mirror is its optimistic `sendDrawingData` result, the server ran `draw`, and every other mirror appended the server's stamped path |
| `Relay.DrawUpdateInSync` | src/context/SocketContext.tsx:166-168 | a mirror that appends another participant's stamped stroke stays in sync with the server that logged it |
| `Relay.OwnStrokeInSync` | src/context/SocketContext.tsx:226-234 | the sender's optimistic append is exactly the server's stamped path, so its mirror stays in sync without an echo |
| `Relay.StrokeKeepsInv` | src/server/server.js:56-70 | a stroke keeps every mirror in sync; the server log and every mirror, the sender's included, grow by exactly the same stamped path |
| `Relay.OwnStrokeShownOnce` | src/context/SocketContext.tsx:234 | the sender's mirror holds its own stroke exactly once more than before, since it is shown optimistically and never echoed |
| `Relay.WipeMirrors` | src/server/server.js:73-76 | after a clear, the server and every mirror, the sender's included, are as before but without paths |
| `Relay.WipeKeepsInv` | src/server/server.js:73-76 | a clear keeps every mirror in sync and empties the server log and every mirror, the sender's included |
| `Relay.LeaveMirrors` | src/server/server.js:79-89 | after a departure, the leaver's mirror is gone and every remaining mirror removed it |
| `Relay.LeaveKeepsInv` | src/server/server.js:79-89 | a departure keeps every remaining mirror in sync and leaves the log untouched |
| `Relay.StepKeepsInv` | src/server/server.js:24-90 | every enabled event preserves the invariant |
| `Relay.MirrorsConverge` | src/server/server.js:24-90 | after any valid trace, every connected mirror shows exactly the server's log, in the server's order |
| `Relay.LogStep` | src/server/server.js:66 | an event other than a clear appends the stamped stroke if it is one and otherwise leaves the log alone |
| `Relay.LogIsReceiptOrder` | src/server/server.js:56-70 | without a clear, the old log is a prefix of the new one, and the added geometry is the trace's strokes in receipt order |
| `Relay.JoinerStartsFromLogAtJoin` | src/server/server.js:39 | the joiner's snapshot is the log committed when it joins; afterwards its mirror equals the server's log |
| `Relay.AliceDrawsBobJoinsAliceClears` | src/server/server.js:39-76 | A draws a three-point stroke and B then joins: B's snapshot holds exactly that stroke, authored by A; after A clears, B's canvas is empty |
| `Transit.ClientAct` | src/context/SocketContext.tsx:226-248 | as written, a stroke is shown at once with the local stamp and a clear empties the canvas at once; corrected, and for a cursor move, the mirror is unchanged; participants and `currentUser` are always kept |
| `Transit.EchoDraw` | src/server/server.js:56-70 | the corrected `draw` changes the server's state exactly as `draw` does, appending one path, and sends that path to every socket, the sender included |
| `Transit.PostOne` | src/server/server.js:69-75 | an emission is queued behind what is already queued, for exactly the sockets it addresses; every other queue is unchanged |
| `Transit.ServeDraw` | src/server/server.js:56-70 | the server taking a stroke appends one path with the sender's id and the command's geometry and queues its `draw-update` for all but the sender as written, for everybody when corrected |
| `Transit.ServeClear` | src/server/server.js:73-76 | the server taking a clear empties its log, keeps its participants and queues `canvas-cleared` for every socket |
| `Transit.CrossingClearLosesStroke` | src/context/SocketContext.tsx:234-248 | A clears while B's stroke is on its way and the server takes the clear first: once both have taken all messages, the server and A hold the stroke but B's canvas is empty |
| `Transit.CrossingStrokesReordered` | src/context/SocketContext.tsx:234 | A and B each draw before either stroke reaches the server: the server logs A's stroke first while B's canvas shows its own first, so B's canvas differs from the log |
| `Transit.ReplayAppend` | src/context/SocketContext.tsx:166-173 | a message queued last acts on a client's paths after all the messages queued before it |
| `Transit.ConnectQueues` | src/server/server.js:39-42 | right after a connection the joiner's queue holds only `init` with the new state, and every other socket's queue gets `user-connected` behind what it held |
| `Transit.ConnectAgrees` | src/server/server.js:24-42 | a connection keeps every client's paths, once its queue is taken, equal to the server's log; the joiner's queue holds only `init` with the new state |
| `Transit.ServeAgrees` | src/server/server.js:45-76 | the corrected server taking a cursor move, a stroke or a clear keeps every client's paths, once its queue is taken, equal to the server's log |
| `Transit.StepAgrees` | src/server/server.js:24-90 | every enabled event of the corrected relay, whether a connection, a client action, a server step, a delivery or a close, keeps that agreement |
| `Transit.RunAgrees` | src/server/server.js:24-90 | the agreement holds after any valid trace of the corrected relay |
| `Transit.EchoedConverges` | src/server/server.js:66-75 | with the corrected relay, after any interleaving, every client that has taken all its messages shows exactly the server's log, in the server's order |

## Left out

- Transport: Socket.IO, express, http, cors, `server.listen` and the client's `io(...)` options (timeouts, transports, `reconnectionAttempts`) are not modelled. `Relay` delivers every event before the next one starts. `Transit` keeps messages in flight in per-socket queues that Socket.IO keeps in order. Message loss on a live socket is not modelled.
- Transit: no lemma shows that a `Relay` step equals the `Transit` schedule that acts, serves and then delivers every message; the two share the handler functions but not a proof.
- Relay.MirrorsConverge: holds only when every event is delivered before the next starts. With messages in flight the code as written can leave a mirror different from the log (`Transit.CrossingClearLosesStroke`, `Transit.CrossingStrokesReordered`).
- Relay.OwnStrokeShownOnce: holds only when every event is delivered before the next starts. A clear that crosses the stroke removes the sender's only copy (`Transit.CrossingClearLosesStroke`).
- Relay.JoinerStartsFromLogAtJoin: the snapshot part holds with messages in flight too (`Transit.ConnectQueues`). The "afterwards equals the log" part holds only when every event is delivered before the next starts.
- Concurrency: sockets are not concurrent; the server handles a sequential event trace.
- `Math.random`: the value is a parameter `roll` in [0,1) of `GetRandomColor` and `GenerateMockUser`.
- Extra fields: the server spreads whatever object the client sends (`...pathData`). The model's `PathData` has only the four fields the client's type allows.
- Rendering: the `ctx.*` calls, `drawGrid`, the circle radius (`Math.sqrt`/`Math.pow`, floating point) and `getMousePosition` (DOM geometry) are left out. `Render` keeps the points each tool uses, the stroke colour, the line width and the fill.
- Throttling: lodash `throttle` on cursor updates is a timing concern. `HandleMouseMove` returns every position it offers to the cursor channel.
- React: `useEffect` re-runs on dependency changes and `useCallback` identity are left out. Toasts and console logging are left out too.
- SocketContext.SocketProvider.OnConnectError: reads `connectionAttempts` before its own increment. The stale closure at SocketContext.tsx:109 can read an older value, and that is not modelled.
- SocketContext.SocketProvider.SetupSocketConnection: the `catch` branch for an exception thrown by `io(...)` (lines 176-188) is not modelled. It depends on library behaviour.
- Relay: only connected clients with a server-assigned identity are in the system model. The provider's offline mode is modelled on its own (`SocketProvider`, `OfflineStrokeStaysLocal`).
- Relay: a transport drop that never fires `disconnect` is not modelled, so stale ghost participants do not arise.
- Presentation components: `Toolbar.tsx`, `UsersList.tsx`, `RemoteCursors.tsx`, `InstructionsModal.tsx`, `Whiteboard.tsx` and `Index.tsx` are not part of this model. They hold no protocol logic.

## Findings

| source | as written | input that shows it | evidently intended | confidence | as-written member | corrected member |
|---|---|---|---|---|---|---|
| src/context/SocketContext.tsx:234-248, src/server/server.js:69-75 | `clearCanvas` empties the local canvas at once, and the server never sends a stroke back to its sender | B draws stroke s; before s reaches the server, A clears; the server takes the clear, then s | every canvas shows the server's log once all messages are delivered: the server and A hold [s], so B should too | medium, not executed | `Transit.CrossingClearLosesStroke` (B ends with []) | `Transit.EchoedConverges` |
| src/context/SocketContext.tsx:234, src/server/server.js:66-69 | `sendDrawingData` appends the stroke locally at once, and `draw-update` goes to all but the sender | A draws a and B draws b before either reaches the server; the server takes a, then b | every canvas holds the strokes in the server's order [a, b] | medium, not executed | `Transit.CrossingStrokesReordered` (B ends with [b, a]) | `Transit.EchoedConverges` |
