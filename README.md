# Carry-Ease session model

Carry-Ease pairs two browser pages over PeerJS. The **controller** is a button panel. The **simulator** renders a cube. Button presses travel from controller to simulator over a data channel, and the simulator streams its canvas back as a media call. This project models the session logic of both pages in Dafny and proves properties of it:

- how the simulator accepts one controller at a time (last writer wins);
- how it tears a session down;
- how it pushes media to the viewer that registered;
- how it decodes control messages and which cube component a button id changes;
- how the controller guards its load, registers itself, answers calls receive-only and guards its sends.

Layout:

- `wrappers.dfy`: `Option` and JavaScript truthiness of an optional string.
- `wire.dfy` (`Wire`): the payloads on the data channel, the messages the controller encodes, and the simulator's `data` dispatcher (`Dispatch`), with round-trip lemmas.
- `scene.dfy` (`Scene`): the `handleButtonEvent` switch (`CommandFor`, `Apply`), with lemmas. Positions are counted in button steps of 0.3 and rotations in steps of 0.2, so every value is an integer.
- `transport.dfy` (`Transport`): PeerJS data connections (`Channel`) and media calls (`Call`) as abstract handles. A handle has an `open` flag, a `closeCount`, and, on a channel, the outbox of sent payloads.
- `simulator.dfy` (`Simulator`): `Page` holds the module-level state of `simulator/script.js`, and `Cube` holds the mesh fields mutated in place. Each PeerJS callback is one method. `Page.Valid()` states the invariant every handler keeps: every call but the current one is closed, and the current call targets exactly the registered viewer.
- `controller.dfy` (`Controller`): `Page` holds the module-level state of `controller/script.js`. `Page.Valid()` states that every accepted call but the current one is closed.
- `pairing.dfy` (`Pairing`): the two pages wired together. The payloads the controller sends are the ones the simulator's `data` handler receives.

Results PeerJS or the browser would supply are method parameters:
- the `requestAnimationFrame` handle (`frame`);
- whether `peer.call` returned a call (`callCreated`);
- the far end of a new connection, and an incoming call;
- the parsed `data-id` of a click (None for NaN);
- the `simId` query parameter.

Behaviour as written that the model keeps:
- A previous channel that is not yet open is neither closed nor detached by `handleNewConnection`, and `HandleNewConnection` leaves it unchanged. Its handlers stay registered (simulator/script.js:78-103). If it opens later, its `data` handler can register its controller as viewer and receive the media push, and its `close` handler tears down the session of the newer controller. The model does not prove that at most one channel is open at a time.
- `handleNewConnection` closes the current call whether or not the old channel was open (simulator/script.js:66-73).

## Model

| member | source | states |
|---|---|---|
| Wire.Encode | controller/script.js:79 | the controller's two message literals, the registration here and the button message at controller/script.js:118; its partners are the round-trip lemmas below |
| Wire.Dispatch | simulator/script.js:83-93 | a payload registers a viewer iff it is an object of type `registerViewer` with a truthy `peerId`, and the identity registered is that `peerId`; it reaches the cube iff its type is `button`, carrying its own `id` |
| Wire.DroppedExactly | simulator/script.js:84-92 | the dropped payloads are exactly: falsy, a registration without a truthy `peerId`, or any other `type` |
| Wire.RegisterRoundTrip | simulator/script.js:85-86 | a registration encoded by the controller with a non-empty identity registers exactly that identity |
| Wire.EmptyRegistrationDropped | simulator/script.js:85 | a registration with the empty identity is dropped |
| Wire.ButtonRoundTrip | simulator/script.js:89-91 | a button message encoded by the controller reaches the command sink with the same id |
| Scene.CommandFor | simulator/script.js:237-251 | ids 1 to 9 select a move or a turn, with moves of one step either way; 10 and every other id, missing or non-integer ones too, select the wireframe toggle |
| Scene.Apply | simulator/script.js:238-249 | the switch arm of a command moves its target component one step (a move in the command's direction, a turn forwards, or a wireframe flip), and every other component keeps its value |
| Scene.ExactlyOneComponent | simulator/script.js:233-252 | every button event changes exactly one component of the cube, the one its command targets |
| Scene.MovingIdsDistinct | simulator/script.js:238-246 | no two of the ids 1 to 9 have the same effect |
| Scene.OppositeMovesCancel | simulator/script.js:238-243 | ids 1/2, 3/4 and 5/6 move in opposite directions on one axis, so one press of each cancels out |
| Scene.TwoTogglesRestore | simulator/script.js:247-250 | two fall-through events restore the wireframe flag, and with it the whole pose |
| Scene.NetEffect | simulator/script.js:233-252 | after any sequence of events, each component equals its start value plus the counts of its buttons, and the wireframe flag flips once per fall-through event |
| Simulator.Page.constructor | simulator/script.js:11-26 | after load: no channel, no call, no viewer, no animation frame, waiting panel and status `Disconnected` |
| Simulator.Page.StartAnimation | simulator/script.js:211-222 | with a frame already scheduled nothing changes; otherwise the new frame handle is kept |
| Simulator.Page.StopAnimation | simulator/script.js:224-229 | the frame handle ends cleared, and with none scheduled nothing changes |
| Simulator.Page.SetSimulating | simulator/script.js:146-160 | shows the matching panel and status text; turning on keeps an existing frame, turning off clears it, so a repeat with the same value changes nothing more |
| Simulator.Page.HandleNewConnection | simulator/script.js:64-76 | the new channel is installed with no call and no viewer; the old channel is closed exactly once if it was open and untouched if not; the old call is closed either way; the invariant is kept |
| Simulator.Page.OnConnOpen | simulator/script.js:78-81 | the channel's `open` handler shows the simulating panel and starts the animation |
| Simulator.Page.CleanupConnection | simulator/script.js:95-113 | viewer, call and animation cleared, waiting panel shown, any call closed exactly once, channel untouched; on a page already torn down the session state is unchanged, so a second run is a no-op |
| Simulator.Page.StartMediaStreamToController | simulator/script.js:116-142 | without peer, viewer or stream nothing changes; otherwise the old call is closed first, and the new call is fresh, targets exactly the registered viewer and carries the canvas stream; if PeerJS returns no call the current call ends null |
| Simulator.Page.HandleButtonEvent | simulator/script.js:233-252 | with no cube nothing changes; otherwise the cube becomes the selected command applied to it |
| Simulator.Page.OnConnData | simulator/script.js:83-93 | a dropped payload changes nothing; a button payload changes only the cube; a registration records the viewer, closes the old call exactly once and pushes a fresh call to exactly that viewer, or leaves the call null if PeerJS returns none |
| Controller.Page.constructor | controller/script.js:9-14 | before load: no peer, no channel, no call, every button enabled |
| Controller.Page.Status | controller/script.js:146-151 | the text is always replaced; the background changes only when a colour is given |
| Controller.Page.DisableButtons | controller/script.js:128-134 | every button of the grid ends disabled |
| Controller.Page.OnLoad | controller/script.js:18-30 | with no `simId`: status `No simulator ID`, every button disabled, no peer and no click handler; with one: peer started, buttons wired and the binding hint shown |
| Controller.Page.OnPeerOpen | controller/script.js:39-42 | shows the own identity and opens a fresh, not yet open channel to the simulator id, with an empty outbox |
| Controller.Page.OnChannelOpen | controller/script.js:76-80 | exactly one message is appended to the outbox: the registration carrying the controller's own identity |
| Controller.Page.OnChannelClose | controller/script.js:82-88 | status `Simulator disconnected`; the current call is closed exactly once and forgotten, so every accepted call is closed; a repeated close closes nothing |
| Controller.Page.OnChannelError | controller/script.js:90-93 | reports only |
| Controller.Page.OnPeerError | controller/script.js:67-70 | reports only |
| Controller.Page.OnCall | controller/script.js:44-50 | the previous call is closed exactly once; the incoming call becomes current and is answered with no local stream; every other call is closed |
| Controller.Page.OnCallStream | controller/script.js:138-142 | the received stream becomes the video source |
| Controller.Page.OnCallClose | controller/script.js:54-60 | the video source ends null, and its tracks are stopped first if one was attached |
| Controller.Page.OnCallError | controller/script.js:61-64 | reports only |
| Controller.Page.SendButtonPress | controller/script.js:113-119 | with no channel or a channel that is not open, nothing is sent and the status says so; otherwise exactly one button message is appended |
| Controller.Page.OnClick | controller/script.js:104-110 | a click off a button, or on one whose `data-id` is not an integer, changes nothing; otherwise it is a `SendButtonPress` of the parsed id |
| Pairing.ConnectController | controller/script.js:73-80 | a controller loaded with a simulator id connects. Both ends are open: the simulator's channel is fresh, goes to the controller and has an empty outbox. The simulator shows the simulating panel with status `Connected` and holds no viewer and no call yet. The controller's outbox holds exactly its one registration |
| Pairing.RegisteredViewerIsPushTarget | simulator/script.js:85-88 | end to end: the controller sends one registration naming itself, and the simulator's media call targets exactly that identity |
| Pairing.ButtonPressReachesCube | simulator/script.js:89-91 | end to end, delivering the outbox in order: the registration leaves the cube as it was, and a click on button `id` then changes it by exactly the command `id` selects |
| Pairing.SecondControllerSupersedes | simulator/script.js:64-76 | a second controller supersedes a streaming first one: the first channel and call end closed and the next call targets the second |

## Left out

- PeerJS itself: `new Peer`, `peer.connect`, `peer.call`, `call.answer`, connection negotiation, event delivery and timing. Channels and calls are abstract handles, and each callback is one atomic method.
- Re-entrant callbacks: PeerJS emits a channel's `close` event synchronously inside `close()`, but the model runs every callback to completion, one at a time. What this gives up:
  - Simulator.Page.HandleNewConnection: when the superseded channel was open, the browser runs `cleanupConnection` in the middle of `handleNewConnection`. The page then ends on the waiting panel with status `Disconnected` and the animation stopped, until the new channel's `open`. The model instead keeps `simulating`, `status` and `animationId` unchanged.
  - Controller.Page.OnCall, Controller.Page.OnChannelClose: if a media call's `close()` also emits its `close` event synchronously, the call's `close` handler runs inside them. The video is then cleared and the status ends `Media call closed`. The model does not run that handler there.
- Which channel or call fired an event: the source's handlers do not look at it (except in log lines), so the model's handlers take no handle argument.
- Simulator.Page.OnConnData: a `peerId` or `id` of another type than the one compared with (a numeric `peerId`, say) is treated as absent. In JavaScript a truthy non-string `peerId` would be registered.
- Transport: a close by the far end is the handle's `Closed()` transition, which leaves `closeCount` alone; `closeCount` counts local `close()` calls only.
- Transport.Call: `open` means "not yet closed"; PeerJS's distinction between a call being negotiated and one that is streaming is not modelled.
- Three.js: scene construction, rendering, resizing, and the animation loop body. Only whether a frame handle is held is modelled.
- Scene.NetEffect, Scene.OppositeMovesCancel: hold of integer step counts, not of the page's doubles. In double arithmetic a move and its opposite need not cancel exactly: from x = -2, (x - 0.3) + 0.3 is -1.9999999999999998. Every animation frame also adds 0.01 to `rotation.x` and 0.015 to `rotation.y` (simulator/script.js:216-217), and the model leaves that out.
- The pairing URL and QR code in the simulator's `open` handler (simulator/script.js:38-50): string formatting and foreign libraries.
- Handlers that only log: the simulator's peer `error` handler, the simulator's media call `close` and `error` handlers, and the controller's channel `data` handler.
- Everything visual beyond the recorded state: log lines, console output, `flashButton`, `videoEl.play()`, button opacity, and the simulator's status colours.
- `URLSearchParams` and `parseInt`: their results are inputs.
