# VR desktop signaling, viewer client, screen controls and leverage game, in Dafny

This project models four pieces of a small WebXR repository and proves
properties of the models.

- **The signaling relay** (`relay.dfy`, module `Relay`). The WebSocket server
  keeps a registry of live connections by id and at most one streamer.
  - It greets each new connection with a `connected` message carrying its id.
  - It handles `register-streamer` and `register-viewer`.
  - It forwards `offer`, `answer` and `ice-candidate` to their target, stamped
    with `from`.
  - When the streamer closes, it broadcasts `streamer-disconnected`.

  Each handler is a pure transition on a `RelayState`, written as the `After*`
  functions. Class `RelayServer` performs the same handlers in place, and
  each of its methods is proved to produce the state the matching function
  gives. What every connection has been sent is kept in a per-connection
  outbox. `Run` plays any serial interleaving of transport events.
- **The viewer client** (`viewer.dfy`, module `Viewer`). Class
  `VRDesktopClient` holds the socket, the peer connection, the client id and
  the stream. Outward effects are recorded as logs:
  - frames given to `ws.send`;
  - statuses reported through `setStatus`;
  - peer connections and sockets it closes.
- **The screen controls** (`screen.dfy`, module `ScreenControls`). The
  `screen-controls` component cycles the aspect ratio through 16:9, 21:9 and
  32:9, toggles curvature and moves the screen within [1.5, 6]. It has pure
  functions for the next value and class `ScreenComponent` for the element
  attributes `update` rewrites.
- **The leverage game** (`game.dfy`, module `LeverageGame`). Class `Game`
  holds `gameState`. The market interval is an explicit `Tick` step, and the
  delayed return to the leverage choice is `ReturnToSelection`.

`json.dfy` holds the parsed JSON values both sides exchange and JavaScript
truthiness. It also defines two readings used throughout: `Get` is a
property read (`v.key`), undefined unless the value is an object with that
field, and `TypeOf` is the string a `switch (message.type)` compares
against, absent unless `type` is a string field. They are definitions of
JavaScript's semantics rather than operations of the system, so they carry
no contract of their own; what the handlers need of them is stated by
`Message`, `ConnectedMessage` and `ForwardingIsOpaque`. `session.dfy` connects the viewer to the relay:
- The viewer's offer reaches the streamer.
- The streamer's answer reaches the viewer and is applied there.
- In a whole streamer/viewer session, A is sent `connected` and B's offer;
  B is sent `connected`, `streamer-available`, A's answer and
  `streamer-disconnected`.

## Model

| member | source | states |
|---|---|---|
| Json.Truthy | virtual-desktop/client/js/webrtc-client.js:80 | JavaScript truthiness: undefined and null are falsy, every object and array (even empty) is truthy, and `false`, `0` and `""` are falsy |
| Json.Message | virtual-desktop/server/server.js:67 | a message with only a `type` field, of the given kind |
| Relay.ConnectedMessage | virtual-desktop/server/server.js:72 | the greeting has type `connected` and carries the connection's id |
| Relay.WithSender | virtual-desktop/server/server.js:95 | the forwarded message has the original fields plus `from` equal to the sender, and every other field unchanged |
| Relay.BroadcastsTo | virtual-desktop/server/server.js:112 | `broadcast` sends only to a registered, open connection, and never to the excluded one |
| Relay.AfterBroadcast | virtual-desktop/server/server.js:109-116 | every open connection except the excluded one is sent the data exactly once, everyone else nothing, and the registry is unchanged |
| Relay.AfterSend | virtual-desktop/server/server.js:86 | one `send`: only the addressee's outbox grows, by exactly that message |
| Relay.AfterConnect | virtual-desktop/server/server.js:46-48 | a fresh id joins the registry as open, and only it is sent `connected` with its id |
| Relay.AfterRegisterStreamer | virtual-desktop/server/server.js:77-82 | the sender becomes streamer and is sent nothing; every other open connection, including a displaced streamer, is sent `streamer-available` once |
| Relay.AfterRegisterViewer | virtual-desktop/server/server.js:84-88 | the sender alone is sent `streamer-available`, exactly when a streamer is registered; nothing else changes |
| Relay.Route | virtual-desktop/server/server.js:94-101 | the target `streamer` goes to the registered streamer; otherwise a truthy target that names a live id goes to that id; otherwise nowhere (both directions) |
| Relay.AfterForward | virtual-desktop/server/server.js:90-102 | the message stamped with `from` reaches the routed connection only, and the registry and role are unchanged |
| Relay.AfterMessage | virtual-desktop/server/server.js:52-59 | unparsable frames and unknown kinds change nothing, the sender stays registered, and only `register-streamer` changes the role |
| Relay.AfterClose | virtual-desktop/server/server.js:61-69 | the id leaves the registry; if it was the streamer, the role is cleared and each remaining open connection gets `streamer-disconnected` once; otherwise nothing is sent |
| Relay.AfterReadyState | virtual-desktop/server/server.js:112 | one connection's readyState changes; every other connection, the role and the outboxes are unchanged |
| Relay.Step | virtual-desktop/server/server.js:46-73 | one delivered event keeps the registry invariant: the streamer is a live connection |
| Relay.Run | virtual-desktop/server/server.js:46-73 | any serial interleaving of events from a valid registry keeps it valid |
| Relay.StreamerRegisteredItself | virtual-desktop/server/server.js:77-78 | in every run from the empty registry, a set streamer is live and has itself sent `register-streamer` |
| Relay.RelayServer.constructor | virtual-desktop/server/server.js:29-30 | the server starts with no clients, no streamer and nothing sent |
| Relay.RelayServer.Send | virtual-desktop/server/server.js:86 | in place, the new state is `AfterSend` of the old |
| Relay.RelayServer.OnConnection | virtual-desktop/server/server.js:46-73 | in place, the new state is `AfterConnect` of the old |
| Relay.RelayServer.OnMessage | virtual-desktop/server/server.js:52-59 | in place, the new state is `AfterMessage` of the old, with a failed parse changing nothing |
| Relay.RelayServer.HandleMessage | virtual-desktop/server/server.js:75-107 | in place, the dispatch on `type` gives `AfterMessage` of the old state |
| Relay.RelayServer.OnClose | virtual-desktop/server/server.js:61-69 | in place, the new state is `AfterClose` of the old |
| Relay.RelayServer.OnReadyState | virtual-desktop/server/server.js:112 | in place, the new state is `AfterReadyState` of the old |
| Relay.RelayServer.Broadcast | virtual-desktop/server/server.js:109-116 | the loop over the registry gives exactly `AfterBroadcast` of the old state |
| Viewer.RegisterViewerRequest | virtual-desktop/client/js/webrtc-client.js:95 | the frame has type `register-viewer` |
| Viewer.OfferRequest | virtual-desktop/client/js/webrtc-client.js:141-145 | the frame has type `offer`, targets `streamer` and carries the offer |
| Viewer.CandidateRequest | virtual-desktop/client/js/webrtc-client.js:118-122 | the frame has type `ice-candidate`, targets `streamer` and carries the candidate |
| Viewer.VRDesktopClient.constructor | virtual-desktop/client/js/webrtc-client.js:11-26 | no socket, peer connection, id or stream, and nothing sent or reported |
| Viewer.VRDesktopClient.Connect | virtual-desktop/client/js/webrtc-client.js:34-37 | the new socket becomes `ws`, still connecting, and nothing else changes |
| Viewer.VRDesktopClient.OnSocketEvent | virtual-desktop/client/js/webrtc-client.js:39-51 | open, error and close each report exactly one status (connected, error or disconnected), even from a replaced socket; the current socket is open after `open` and closed after `error` or `close` |
| Viewer.VRDesktopClient.HandleMessage | virtual-desktop/client/js/webrtc-client.js:60-91 | the effect of each message kind: the id recorded, a status reported, the peer closed and cleared, a truthy answer or candidate applied only with a peer; other kinds change nothing |
| Viewer.VRDesktopClient.RequestStream | virtual-desktop/client/js/webrtc-client.js:93-148 | without a socket, or while it is still connecting, the first `send` throws and nothing happens; otherwise the new peer holds the offer as local description and `connecting` is reported, and an open socket transmits `register-viewer` before the offer |
| Viewer.VRDesktopClient.OnIceCandidate | virtual-desktop/client/js/webrtc-client.js:116-124 | a truthy candidate is sent to the streamer once over an open socket; the end-of-gathering null sends nothing |
| Viewer.VRDesktopClient.OnConnectionStateChange | virtual-desktop/client/js/webrtc-client.js:127-134 | `connected` reports connected and `failed` reports error, each once; other states report nothing |
| Viewer.VRDesktopClient.OnTrack | virtual-desktop/client/js/webrtc-client.js:105-113 | the first stream of the event, if any, becomes `stream` |
| Viewer.VRDesktopClient.Disconnect | virtual-desktop/client/js/webrtc-client.js:150-160 | peer and socket are each closed once if present, and peer, socket and stream all end null |
| Viewer.VRDesktopClient.DisconnectTwice | virtual-desktop/client/js/webrtc-client.js:150-160 | a second `disconnect` closes nothing more |
| Session.ForwardingIsOpaque | virtual-desktop/server/server.js:95 | the recipient reads every field the sender wrote, `type` included, unchanged, plus `from` |
| Session.OfferReachesStreamer | virtual-desktop/server/server.js:94-95 | the viewer's offer reaches the registered streamer alone, stamped with the viewer's id, and the registry and role are unchanged |
| Session.OfferWithoutStreamerDropped | virtual-desktop/server/server.js:94-101 | with no streamer and no connection named `streamer`, the offer is dropped and the state is unchanged |
| Session.AnswerReachesViewer | virtual-desktop/server/server.js:96-100 | an answer addressed to a live viewer reaches it, and its `type` and `answer` read as the streamer sent them |
| Session.StreamerCloseClearsRole | virtual-desktop/server/server.js:61-69 | after the streamer closes, a viewer's `register-viewer` gets no reply |
| Session.StreamerViewerSession | virtual-desktop/server/server.js:46-116 | the two-client session ends with A having received `connected` and B's offer from B, and B having received `connected`, `streamer-available`, A's answer from A and `streamer-disconnected`; only B is left and the role is vacant |
| Session.ViewerSession | virtual-desktop/client/js/webrtc-client.js:60-148 | a client whose socket has opened sends `register-viewer` then its offer, holds the offer locally, and applies the relayed answer exactly when it is truthy |
| Session.RequestBeforeOpen | virtual-desktop/client/js/webrtc-client.js:93-95 | a stream requested before the socket opens sends nothing, creates no peer connection and reports no status |
| LeverageGame.LeverageTable | games/risk-reward-game/js/game.js:7-15 | the multipliers are exactly 2 to 8, and multiplier k costs 100 * (k - 1) |
| LeverageGame.Costs | games/risk-reward-game/js/game.js:364 | `Object.values(LEVERAGE_OPTIONS)` is exactly 100, 200, 300, 400, 500, 600 and 700, in key order |
| LeverageGame.Min | games/risk-reward-game/js/game.js:364 | `Math.min`: one of its arguments and at most all of them |
| LeverageGame.MinimumCost | games/risk-reward-game/js/game.js:364 | the cheapest leverage: a cost in the table, at most every cost, equal to 100 |
| LeverageGame.AffordabilityRule | games/risk-reward-game/js/game.js:240-242 | multiplier k is affordable exactly when capital exceeds 100 * (k - 1), and then capital exceeds the cheapest cost |
| LeverageGame.SolventButStuck | games/risk-reward-game/js/game.js:238-245 | capital of exactly 100 is not insolvent, yet no leverage is affordable with it |
| LeverageGame.LeverageOrbs | games/risk-reward-game/js/game.js:420-440 | each orb in key order is shown affordable exactly when `selectLeverage` would accept it |
| LeverageGame.Valuation | games/risk-reward-game/js/game.js:296 | a draw is a whole number from 0 to the maximum when the maximum is not negative |
| LeverageGame.Multiplier | games/risk-reward-game/js/game.js:344 | a null leverage multiplies as 0; a selected one is its multiplier, from 2 to 8 |
| LeverageGame.Game.constructor | games/risk-reward-game/js/game.js:18-26 | capital 1000, solvent, market closed, valuation 0, no selection, no history |
| LeverageGame.Game.SelectLeverage | games/risk-reward-game/js/game.js:238-268 | a leverage whose cost leaves no capital is refused and nothing changes; otherwise it is selected and the market closes |
| LeverageGame.Game.StartMarket | games/risk-reward-game/js/game.js:273-299 | without a selection nothing happens; otherwise the market opens with bound capital minus cost, and the valuation is kept |
| LeverageGame.Game.StartMarketReset | games/risk-reward-game/js/game.js:273-299 | as `startMarket`, but opening the market also resets the valuation to 0, so it is within the bound from the start |
| LeverageGame.Game.Tick | games/risk-reward-game/js/game.js:289-298 | while open, a draw between 0 and the captured bound becomes the valuation; once closed, nothing changes |
| LeverageGame.Game.CatchValue | games/risk-reward-game/js/game.js:334-381 | while open: the market closes, capital becomes valuation times leverage, one history record is added, insolvency is capital below 100, and otherwise a return is scheduled; with a leverage selected, no return pending and the player solvent, after a draw or a reset since opening, capital is at most (capital - cost) * leverage |
| LeverageGame.Game.ReturnToSelection | games/risk-reward-game/js/game.js:370-376 | the delayed return clears the selection and nothing else |
| LeverageGame.Game.GoBack | games/risk-reward-game/js/game.js:445-452 | the market closes and the selection is cleared; capital and history are unchanged |
| LeverageGame.Game.RestartGame | games/risk-reward-game/js/game.js:467-483 | back to capital 1000, solvent, closed, valuation 0, no selection, empty history |
| LeverageGame.StaleValuationExample | games/risk-reward-game/js/game.js:273-299 | a catch right after `startMarket` can lock 450 under a bound of 200 and reach 3600, above 200 * 8 |
| LeverageGame.StaleValuationCorrected | games/risk-reward-game/js/game.js:273-299 | with the reset on opening, the same rounds lock at most the bound of 200 and reach at most 200 * 8 |
| ScreenControls.IndexOf | virtual-desktop/client/js/screen-controls.js:54 | `indexOf`: the first position of the element, or -1 exactly when it is absent |
| ScreenControls.NextRatio | virtual-desktop/client/js/screen-controls.js:52-57 | the next ratio is in the table, one position on cyclically; an unknown ratio goes to 16:9 |
| ScreenControls.CycleOfThree | virtual-desktop/client/js/screen-controls.js:23-27 | the cycle is 16:9, 21:9, 32:9 and back; three steps return to the start |
| ScreenControls.ClampDistance | virtual-desktop/client/js/screen-controls.js:64 | the distance stays within [1.5, 6]: unchanged inside, clamped to the nearer end outside |
| ScreenControls.ScreenComponent.constructor | virtual-desktop/client/js/screen-controls.js:15-30 | the first `update` runs every branch, so the scene agrees with the initial data |
| ScreenControls.ScreenComponent.UpdateScreenSize | virtual-desktop/client/js/screen-controls.js:91-122 | an unknown ratio changes nothing; otherwise each present element takes the ratio's size, the frame 0.1 larger |
| ScreenControls.ScreenComponent.SetVisibility | virtual-desktop/client/js/screen-controls.js:80-88 | flat screen and frame are shown exactly when not curved, and the cylinder exactly when curved |
| ScreenControls.ScreenComponent.Update | virtual-desktop/client/js/screen-controls.js:68-89 | each branch runs only when its field changed, and an unchanged field leaves its attributes alone |
| ScreenControls.ScreenComponent.SetData | virtual-desktop/client/js/screen-controls.js:56 | setting the data and running `update` keeps the scene in agreement with the data |
| ScreenControls.ScreenComponent.CycleAspectRatio | virtual-desktop/client/js/screen-controls.js:52-57 | the ratio moves to the next one and every element takes its size; visibility is unchanged |
| ScreenControls.ScreenComponent.ToggleCurved | virtual-desktop/client/js/screen-controls.js:59-61 | `curved` is negated, sizes and position are unchanged, and visibility follows |
| ScreenControls.ScreenComponent.AdjustDistance | virtual-desktop/client/js/screen-controls.js:63-66 | the distance moves by delta, clamped, and the screen sits at minus that distance |
| ScreenControls.ScreenComponent.OnTriggerDown | virtual-desktop/client/js/screen-controls.js:36-42 | the right trigger cycles the ratio, the left toggles curvature, and any other hand does nothing |
| ScreenControls.ScreenComponent.OnThumbstickMoved | virtual-desktop/client/js/screen-controls.js:45-49 | a deflection beyond 0.5 moves the screen by 0.1, within the clamp; a smaller one does nothing |

## Findings

| source | as written | input that shows it | evidently intended | confidence | as-written member | corrected member |
|---|---|---|---|---|---|---|
| games/risk-reward-game/js/game.js:273-299 | `startMarket` opens the market without resetting `currentValuation`, so a catch before the interval's first draw locks the previous round's value | capital 1000, x2 caught at 450 (capital 900), then x8 (cost 700) started and caught at once: 450 is locked under a bound of 200, giving 3600 > (900 - 700) * 8 | the locked value never exceeds capital minus cost | medium, not executed | LeverageGame.StaleValuationExample | LeverageGame.StaleValuationCorrected |

## Behaviour of the code worth knowing

- Relay.AfterRegisterStreamer: a displaced streamer is still an open
  connection other than the sender, so it too is sent `streamer-available`.
  `broadcast` excludes only the new streamer
  (virtual-desktop/server/server.js:81), and the old holder is not told it
  lost the role in any other way.
- Viewer.VRDesktopClient.HandleMessage: `streamer-available` only reports a
  status. The client does not start an offer on it; offers start only in
  `requestStream` (webrtc-client.js:93).
- LeverageGame.Game.StartMarket models the code as written.
  `StartMarketReset` is the corrected opening of the finding above; the
  bound in `CatchValue` holds after either a draw or that reset.
- The client has no explicit negotiation state. Its phase is whether `pc`
  exists and which descriptions it holds.

## Left out

- Relay I/O: the HTTP server, Express static routes, `getLocalIPs`, `listen`
  and logging are left out. They do not affect the registry or any message.
- `uuidv4` becomes a caller-chosen id that was never issued before. This is
  the `Deliverable` guard and the `requires` of `AfterConnect`.
- `JSON.parse` and `JSON.stringify` are not modelled as text. A frame is
  its parsed `Value`, or None when parsing throws.
- Relay.RelayServer.Send: a socket's `send` is recorded even when the socket
  is not open. What happens on the wire then, including a throw from the `ws`
  library, is the transport's business. Only `broadcast` checks readyState.
- The connection's socket identity (`streamer === ws`) is modelled by its id.
  Ids are unique, so the two agree.
- Viewer.VRDesktopClient.RequestStream: the `await`s are left out. The
  method runs as one step, so a message handled while `createOffer` is
  pending is not interleaved. Transceivers and ICE server configuration are
  not modelled.
- Viewer.VRDesktopClient.HandleMessage: `setRemoteDescription` and
  `addIceCandidate` always succeed in the model. Rejections by the browser's
  peer connection are not modelled.
- Viewer.VRDesktopClient.OnConnectionStateChange takes the value of
  `pc.connectionState` as a parameter. The browser's state machine behind it
  is not modelled.
- Viewer.VRDesktopClient.OnSocketEvent: the promise `connect` returns is not
  modelled. CLOSING and CLOSED are one socket state, since `send` discards
  in both.
- The `onStatusChange` and `onStream` callbacks are represented by the
  status log and the `stream` field.
- A frame that is not valid JSON makes `onmessage` throw. The model's
  `HandleMessage` only receives parsed values.
- LeverageGame.Game.SelectLeverage requires a multiplier from the table. In
  the code, the orbs only offer 2 to 8. With any other number, `cost` is
  undefined and the NaN comparison lets the selection through; that path is
  not modelled.
- LeverageGame.Game.Tick models one market interval: the one started by the
  last `startMarket`, drawing under that call's bound. In the code, every
  `clearInterval` (game.js:291, 339 and 448) clears the handle in
  `gameState.marketInterval`, which belongs to the interval started last
  (game.js:289). An interval whose handle has been overwritten is therefore
  never cleared. This happens after a second `startMarket` while the market
  is open, or after a `startMarket` within 100 ms of `selectLeverage`
  (game.js:248) or `restartGame` (game.js:470), which close the market
  without clearing anything. Such an orphaned interval skips its firings
  while the market is closed. In every later open market it goes on drawing
  under its own captured `maxValue` (game.js:287, 296). For example, x2
  started, x8 selected and started at once, leaves a bound of 300 in the
  model, while the orphaned first interval may still draw up to 900 in that
  round and in every later round. Concurrent intervals are not modelled.
- LeverageGame.Game.CatchValue: the bound on the new capital, after a draw
  or a reset since opening, holds only under the model's single interval.
  An orphaned interval, as described above, can leave a valuation above
  the current round's bound, and the catch then exceeds it.
- DOM, sounds, toasts, confetti, the result display and the `showInsolvency`
  timer in game.js are left out. They only show state the model already
  holds.
- effects.js and ui.js are not part of this model.
- ScreenControls: the curved screen's theta geometry is left out. It is
  floating-point arithmetic over `Math.PI`: radius 4, and `thetaStart` and
  `thetaLength` computed from the ratio's width.
  The `gaze-control` component and the keyboard shortcuts are left out: they
  only emit events and click buttons.
- ScreenControls.ClampDistance uses exact real arithmetic. JavaScript's
  floating-point rounding of `distance + delta` is not modelled.
- ScreenControls.ScreenComponent.UpdateScreenSize gives the frame the exact
  real sizes width + 0.1 and height + 0.1. In JavaScript these sums are
  rounded (3.2 + 0.1 is 3.3000000000000003), which is not modelled.
  The lookup `this.aspectRatios[this.data.aspectRatio]`
  (screen-controls.js:92-93) also finds names inherited from
  `Object.prototype`, such as `constructor`, `toString`, `valueOf` or
  `__proto__`. Such a name passes the `!dims` guard and writes undefined or
  NaN sizes and theta values. The model treats it as an unknown ratio and
  changes nothing, in `UpdateScreenSize`, `Update` and `SetData` alike. No
  caller in the source produces such a name: the default is `16:9` and
  `cycleAspectRatio` only picks table keys.
- ScreenControls.ScreenComponent.Update: its sizes-unchanged clause for an
  unknown ratio has the same `Object.prototype` gap as `UpdateScreenSize`.
- ScreenControls.ScreenComponent.SetData: likewise, through `Update`.
- LeverageGame.Valuation uses an exact real for `Math.random()`. It does not
  model floating-point rounding in the product.
