/**
 * The two pages wired together over PeerJS: what the controller sends on its
 * end of the data channel is what the simulator's `data` handler receives on
 * the other end. PeerJS delivers that end to the simulator as a fresh
 * `Channel` whose remote is the controller.
 */
module Pairing {
  import opened Wrappers
  import opened Wire
  import opened Transport
  import Scene
  import Simulator
  import Controller

  /** A controller opened on the pairing URL of `simId` connects to `sim`:
      load, the peer's `open`, the simulator's `connection` event, then both
      ends open. The controller's outbox then holds its one registration,
      not yet delivered. */
  method ConnectController(
    sim: Simulator.Page, simId: PeerId, controllerId: PeerId, frame: Simulator.FrameId)
    returns (ctrl: Controller.Page, near: Channel)
    requires sim.Valid() && simId != "" && controllerId != ""
    modifies sim, sim.dataConn, sim.currentCall
    ensures sim.Valid() && ctrl.Valid()
    ensures fresh(ctrl) && fresh(ctrl.buttons) && fresh(near)
    ensures ctrl.dataConn == near && near.open && ctrl.buttonsWired
    ensures near.sent == [Encode(RegisterViewer(controllerId))]
    ensures sim.dataConn != null && fresh(sim.dataConn) && sim.dataConn.open
    ensures sim.dataConn.remote == controllerId && sim.dataConn.sent == []
    ensures sim.simulating && sim.status == Simulator.Connected
    ensures sim.currentCall == null && sim.controllerPeerId == None
    ensures sim.peer == old(sim.peer) && sim.calls == old(sim.calls)
  {
    ctrl := new Controller.Page(Some(simId), 0, "");
    ctrl.OnLoad();
    ctrl.OnPeerOpen(controllerId);
    near := ctrl.dataConn;
    var far := new Channel(controllerId);
    sim.HandleNewConnection(far);
    far.Opened();
    sim.OnConnOpen(frame);
    near.Opened();
    ctrl.OnChannelOpen();
  }

  /** A controller opened on the pairing URL of `simId` pairs with the
      simulator: its one registration names its own identity, and the
      simulator's media call targets exactly that identity. */
  method RegisteredViewerIsPushTarget(
    simId: PeerId, controllerId: PeerId, stream: StreamId, frame: Simulator.FrameId)
    returns (registration: seq<Payload>, target: PeerId)
    requires simId != "" && controllerId != ""
    ensures registration == [Encode(RegisterViewer(controllerId))]
    ensures target == controllerId
  {
    var sim := new Simulator.Page(null, Some(stream));
    var ctrl, near := ConnectController(sim, simId, controllerId, frame);
    registration := near.sent;
    RegisterRoundTrip(controllerId);
    sim.OnConnData(registration[0], true);
    target := sim.currentCall.remote;
  }

  /** A paired controller's button press moves the simulator's cube by
      exactly the command its id selects. The channel is ordered, so the
      registration is delivered first; on a page without a stream it leaves
      the cube as it was. */
  method ButtonPressReachesCube(
    simId: PeerId, controllerId: PeerId, id: int, pose: Scene.Pose, frame: Simulator.FrameId)
    returns (after: Scene.Pose)
    requires simId != "" && controllerId != ""
    ensures after == Scene.Apply(pose, Scene.CommandFor(Some(id)))
  {
    var cube := new Simulator.Cube(pose);
    var sim := new Simulator.Page(cube, None);
    var ctrl, near := ConnectController(sim, simId, controllerId, frame);
    RegisterRoundTrip(controllerId);
    sim.OnConnData(near.sent[0], false);
    ctrl.OnClick(true, Some(id));
    assert near.sent == [Encode(RegisterViewer(controllerId)), Encode(Button(id))];
    ButtonRoundTrip(id);
    sim.OnConnData(near.sent[1], false);
    after := cube.Pose();
  }

  /** A second controller connecting while the first is streaming
      supersedes it: the first channel and the first media call end closed,
      and the next push targets the second controller. */
  method SecondControllerSupersedes(
    first: PeerId, second: PeerId, stream: StreamId, frame: Simulator.FrameId)
    returns (firstChannelOpen: bool, firstCallOpen: bool, target: PeerId)
    requires first != "" && second != ""
    ensures !firstChannelOpen && !firstCallOpen
    ensures target == second
  {
    var sim := new Simulator.Page(null, Some(stream));
    var a := new Channel(first);
    sim.HandleNewConnection(a);
    a.Opened();
    sim.OnConnOpen(frame);
    RegisterRoundTrip(first);
    sim.OnConnData(Encode(RegisterViewer(first)), true);
    var firstCall := sim.currentCall;
    var b := new Channel(second);
    sim.HandleNewConnection(b);
    b.Opened();
    sim.OnConnOpen(frame);
    RegisterRoundTrip(second);
    sim.OnConnData(Encode(RegisterViewer(second)), true);
    firstChannelOpen := a.open;
    firstCallOpen := firstCall.open;
    target := sim.currentCall.remote;
  }
}
