/**
 * simulator/script.js: the page that accepts one controller at a time,
 * pushes its canvas stream to the controller that registered as viewer, and
 * applies button commands to the cube.
 */
module Simulator {
  import opened Wrappers
  import opened Wire
  import Scene
  import opened Transport

  /** A `requestAnimationFrame` handle: browsers return positive integers. */
  type FrameId = n: nat | n > 0 witness 1

  const Connected := "Connected"
  const Disconnected := "Disconnected"

  /** The Three.js mesh, with the fields `handleButtonEvent` mutates in place. */
  class Cube {
    var position: Scene.Vec
    var rotation: Scene.Vec
    var wireframe: bool

    constructor (p: Scene.Pose)
      ensures Pose() == p
    {
      position, rotation, wireframe := p.position, p.rotation, p.wireframe;
    }

    function Pose(): Scene.Pose
      reads this
    {
      Scene.Pose(position, rotation, wireframe)
    }
  }

  /** The values of the simulator's session fields at one instant. */
  datatype SessionView = SessionView(
    peer: bool, dataConn: Channel?, currentCall: Call?, controllerPeerId: Option<PeerId>,
    animationId: Option<FrameId>, simulating: bool, status: string)

  /** The module-level state of the simulator page. */
  class Page {
    /** Set by `initThree`; null if the scene was not built. */
    const cube: Cube?
    /** `renderer.domElement.captureStream(30)`, or None if unsupported. */
    const stream: Option<StreamId>
    /** `peer` is defined (set by `initPeer` at load). */
    var peer: bool
    var dataConn: Channel?
    var currentCall: Call?
    var controllerPeerId: Option<PeerId>
    var animationId: Option<FrameId>
    /** Whether the "simulating" panel is shown rather than "waiting". */
    var simulating: bool
    /** `statusEl.textContent`. */
    var status: string
    /** Every call this page has created, oldest first. */
    ghost var calls: seq<Call>

    /** The invariant on calls: the current call was created by this page,
        from its own stream, and every other call is closed, so at most one
        media call is live. */
    ghost predicate CallsValid()
      reads this, calls
    {
      && (currentCall != null ==> currentCall in calls && peer && stream.Some?)
      && (forall i :: 0 <= i < |calls| ==> calls[i].sending == stream)
      && (forall i :: 0 <= i < |calls| && calls[i] != currentCall ==> !calls[i].open)
    }

    /** The page invariant: in addition, a registered viewer id is truthy and
        the current call targets exactly the registered viewer. */
    ghost predicate Valid()
      reads this, calls
    {
      && CallsValid()
      && (controllerPeerId.Some? ==> controllerPeerId.value != "")
      && (currentCall != null ==> controllerPeerId == Some(currentCall.remote))
    }

    /** The page after load: `initThree` (which yields `cube` and `stream`),
        `initPeer` and `setSimulating(false)`. */
    constructor (cube: Cube?, stream: Option<StreamId>)
      ensures Valid()
      ensures this.cube == cube && this.stream == stream && peer
      ensures dataConn == null && currentCall == null && controllerPeerId == None
      ensures animationId == None && !simulating && status == Disconnected && calls == []
    {
      this.cube := cube;
      this.stream := stream;
      peer := true;
      dataConn := null;
      currentCall := null;
      controllerPeerId := None;
      animationId := None;
      simulating := false;
      status := Disconnected;
      calls := [];
    }

    /** `startAnimation`: a no-op while a frame is scheduled; otherwise the
        first frame is requested and its handle kept. */
    method StartAnimation(frame: FrameId)
      modifies this
      ensures animationId == if old(animationId).Some? then old(animationId) else Some(frame)
      ensures dataConn == old(dataConn) && currentCall == old(currentCall)
      ensures controllerPeerId == old(controllerPeerId) && peer == old(peer)
      ensures simulating == old(simulating) && status == old(status) && calls == old(calls)
    {
      if animationId.Some? {
        return;
      }
      animationId := Some(frame);
    }

    /** `stopAnimation`: cancels and clears a scheduled frame; a no-op when
        none is scheduled. */
    method StopAnimation()
      modifies this
      ensures animationId == None
      ensures old(animationId).None? ==> unchanged(this)
      ensures dataConn == old(dataConn) && currentCall == old(currentCall)
      ensures controllerPeerId == old(controllerPeerId) && peer == old(peer)
      ensures simulating == old(simulating) && status == old(status) && calls == old(calls)
    {
      if animationId.Some? {
        animationId := None;
      }
    }

    /** `setSimulating(on)`: shows the matching panel and status text and
        starts or stops the animation. Calling it twice with the same value
        leaves the state of calling it once. */
    method SetSimulating(on: bool, frame: FrameId)
      modifies this
      ensures simulating == on && status == (if on then Connected else Disconnected)
      ensures on ==> animationId == if old(animationId).Some? then old(animationId) else Some(frame)
      ensures !on ==> animationId == None
      ensures dataConn == old(dataConn) && currentCall == old(currentCall)
      ensures controllerPeerId == old(controllerPeerId) && peer == old(peer) && calls == old(calls)
    {
      simulating := on;
      if on {
        status := Connected;
        StartAnimation(frame);
      } else {
        status := Disconnected;
        StopAnimation();
      }
    }

    /** `handleNewConnection(conn)`: last writer wins. The previous channel is
        closed if it is open and left alone if it is not; the current call is
        closed whichever it was; then `conn` is installed with no viewer
        registered. */
    method HandleNewConnection(conn: Channel)
      requires Valid()
      modifies this, dataConn, currentCall
      ensures Valid()
      ensures dataConn == conn && currentCall == null && controllerPeerId == None
      ensures old(dataConn) != null && old(dataConn.open) ==>
        !old(dataConn).open && old(dataConn).closeCount == old(dataConn.closeCount) + 1
      ensures old(dataConn) != null && !old(dataConn.open) ==> unchanged(old(dataConn))
      ensures old(currentCall) != null ==>
        !old(currentCall).open && old(currentCall).closeCount == old(currentCall.closeCount) + 1
      ensures old(dataConn) != null ==> old(dataConn).sent == old(dataConn.sent)
      ensures conn != old(dataConn) ==> unchanged(conn)
      ensures peer == old(peer) && animationId == old(animationId)
      ensures simulating == old(simulating) && status == old(status) && calls == old(calls)
    {
      if dataConn != null && dataConn.open {
        dataConn.Close();
      }
      if currentCall != null {
        currentCall.Close();
        currentCall := null;
      }
      controllerPeerId := None;
      dataConn := conn;
    }

    /** The channel's `open` handler. */
    method OnConnOpen(frame: FrameId)
      requires Valid()
      modifies this
      ensures Valid()
      ensures simulating && status == Connected
      ensures animationId == if old(animationId).Some? then old(animationId) else Some(frame)
      ensures dataConn == old(dataConn) && currentCall == old(currentCall)
      ensures controllerPeerId == old(controllerPeerId) && peer == old(peer) && calls == old(calls)
    {
      SetSimulating(true, frame);
    }

    /** `cleanupConnection`, the channel's `close` and `error` handler: closes
        and forgets the call, forgets the viewer and shows the waiting panel.
        It never touches `dataConn`, and on a page already torn down it
        changes nothing, so running it twice is running it once. */
    method CleanupConnection()
      requires Valid()
      modifies this, currentCall
      ensures Valid()
      ensures TornDown()
      ensures old(currentCall) != null ==>
        !old(currentCall).open && old(currentCall).closeCount == old(currentCall.closeCount) + 1
      ensures old(TornDown()) ==> Snapshot() == old(Snapshot())
      ensures dataConn == old(dataConn) && peer == old(peer) && calls == old(calls)
    {
      controllerPeerId := None;
      if currentCall != null {
        currentCall.Close();
        currentCall := null;
      }
      SetSimulating(false, 1);
    }

    /** The session fields of the page, as one value. */
    ghost function Snapshot(): SessionView
      reads this
    {
      SessionView(peer, dataConn, currentCall, controllerPeerId, animationId, simulating, status)
    }

    /** The state `cleanupConnection` leaves. */
    ghost predicate TornDown()
      reads this
    {
      controllerPeerId == None && currentCall == null && !simulating
      && animationId == None && status == Disconnected
    }

    /** Whether `startMediaStreamToController` gets past its guard. */
    predicate CanPush()
      reads this
    {
      peer && Truthy(controllerPeerId) && stream.Some?
    }

    /** `startMediaStreamToController`. Without a peer, a registered viewer or
        a stream nothing changes. Otherwise the current call is closed first,
        then `peer.call(controllerPeerId, stream)` is placed; `callCreated`
        says whether PeerJS returned a call. */
    method StartMediaStreamToController(callCreated: bool)
      requires CallsValid()
      modifies this, currentCall
      ensures !old(CanPush()) ==> unchanged(this) && (currentCall != null ==> unchanged(currentCall))
      ensures old(CanPush()) ==> Valid()
      ensures old(CanPush()) && old(currentCall) != null ==>
        !old(currentCall).open && old(currentCall).closeCount == old(currentCall.closeCount) + 1
      ensures old(CanPush()) && callCreated ==>
        && currentCall != null && fresh(currentCall) && currentCall.open
        && Some(currentCall.remote) == controllerPeerId && currentCall.sending == stream
        && calls == old(calls) + [currentCall]
      ensures old(CanPush()) && !callCreated ==> currentCall == null && calls == old(calls)
      ensures dataConn == old(dataConn) && controllerPeerId == old(controllerPeerId) && peer == old(peer)
      ensures animationId == old(animationId) && simulating == old(simulating) && status == old(status)
    {
      if !peer || !Truthy(controllerPeerId) || stream.None? {
        return;
      }
      if currentCall != null {
        currentCall.Close();
        currentCall := null;
      }
      if callCreated {
        currentCall := new Call(controllerPeerId.value, stream);
        calls := calls + [currentCall];
      }
    }

    /** `handleButtonEvent(id)`: with no cube nothing changes (the frame is
        then empty); otherwise the one command the id selects is applied. */
    method HandleButtonEvent(id: Option<int>)
      modifies cube
      ensures cube != null ==> cube.Pose() == Scene.Apply(old(cube.Pose()), Scene.CommandFor(id))
    {
      if cube == null {
        return;
      }
      match Scene.CommandFor(id)
      case Translate(a, d) => cube.position := cube.position.Shift(a, d);
      case Rotate(a) => cube.rotation := cube.rotation.Shift(a, 1);
      case ToggleWireframe => cube.wireframe := !cube.wireframe;
    }

    /** The channel's `data` handler. A registration records the viewer and
        pushes media to exactly that identity; a button payload reaches the
        cube and nothing else; every other payload changes nothing at all. */
    method OnConnData(msg: Payload, callCreated: bool)
      requires Valid()
      modifies this, currentCall, cube
      ensures Valid()
      ensures Dispatch(msg).Drop? ==>
        && unchanged(this) && (currentCall != null ==> unchanged(currentCall))
        && (cube != null ==> unchanged(cube))
      ensures Dispatch(msg).Press? ==>
        && unchanged(this) && (currentCall != null ==> unchanged(currentCall))
        && (cube != null ==> cube.Pose() == Scene.Apply(old(cube.Pose()), Scene.CommandFor(msg.id)))
      ensures Dispatch(msg).Register? ==>
        && controllerPeerId == Some(Dispatch(msg).viewer)
        && (cube != null ==> unchanged(cube))
        && (old(currentCall) != null && peer && stream.Some? ==>
              !old(currentCall).open && old(currentCall).closeCount == old(currentCall.closeCount) + 1)
        && (peer && stream.Some? && callCreated ==>
              && currentCall != null && fresh(currentCall) && currentCall.open
              && currentCall.remote == Dispatch(msg).viewer && currentCall.sending == stream
              && calls == old(calls) + [currentCall])
        && (peer && stream.Some? && !callCreated ==> currentCall == null && calls == old(calls))
        && (!(peer && stream.Some?) ==> currentCall == old(currentCall) && calls == old(calls))
      ensures dataConn == old(dataConn) && peer == old(peer)
      ensures animationId == old(animationId) && simulating == old(simulating) && status == old(status)
    {
      if msg.Falsy? {
        return;
      }
      if msg.kind == Some(RegisterViewerType) && Truthy(msg.peerId) {
        controllerPeerId := msg.peerId;
        StartMediaStreamToController(callCreated);
      } else if msg.kind == Some(ButtonType) {
        HandleButtonEvent(msg.id);
      }
    }
  }
}
