/**
 * controller/script.js: the button panel that connects to the simulator named
 * in its URL, registers itself as viewer, sends button presses and shows the
 * video the simulator pushes back.
 */
module Controller {
  import opened Wrappers
  import opened Wire
  import opened Transport

  const Red := "#7f1d1d"
  const Green := "#065f46"
  const Grey := "#4b5563"

  const NoSimulatorId := "No simulator ID"
  const ScanHint := "Open this page by scanning the QR code from the Simulator."
  const BindingPrefix := "Binding to simulator: "
  const ControllerIdPrefix := "Controller ID: "
  const ConnectedText := "Connected to simulator"
  const DisconnectedText := "Simulator disconnected"
  const ChannelErrorText := "Data connection error"
  const NotConnectedText := "Not connected to simulator"
  const ReceivingText := "Receiving video from simulator"
  const CallClosedText := "Media call closed"
  const CallErrorText := "Media call error"
  const PeerErrorPrefix := "Peer error: "

  /** The module-level state of the controller page. */
  class Page {
    /** `params.get('simId')`. */
    const simulatorId: Option<PeerId>
    /** The `disabled` flag of each button of the grid. */
    const buttons: array<bool>
    /** `initPeer` has run. */
    var peerStarted: bool
    /** `setupButtons` has run: clicks on the grid are handled. */
    var buttonsWired: bool
    /** The controller's own identity, as passed to `connectToSimulator`. */
    var viewerId: Option<PeerId>
    var dataConn: Channel?
    var currentCall: Call?
    /** `statusEl.textContent` and `statusEl.style.background`. */
    var statusText: string
    var background: string
    /** `hintEl.textContent`. */
    var hint: string
    /** `videoEl.srcObject`. */
    var video: Option<StreamId>
    /** The streams whose tracks have been stopped, in order. */
    var stopped: seq<StreamId>
    /** Every call this page has accepted, oldest first. */
    ghost var calls: seq<Call>

    /** The page invariant: the peer exists only when a simulator id was
        given, a channel only once the own identity is known, and every
        accepted call but the current one is closed. */
    ghost predicate Valid()
      reads this, calls
    {
      && (peerStarted ==> Truthy(simulatorId))
      && (dataConn != null ==> peerStarted && viewerId.Some? && dataConn.remote == simulatorId.value)
      && (currentCall != null ==> currentCall in calls)
      && (forall i :: 0 <= i < |calls| && calls[i] != currentCall ==> !calls[i].open)
    }

    /** The page before its `load` event: `buttonCount` enabled buttons and
        the status text of the markup. */
    constructor (simulatorId: Option<PeerId>, buttonCount: nat, initialStatus: string)
      ensures Valid()
      ensures this.simulatorId == simulatorId && fresh(buttons) && buttons.Length == buttonCount
      ensures forall i :: 0 <= i < buttons.Length ==> !buttons[i]
      ensures !peerStarted && !buttonsWired && viewerId == None
      ensures dataConn == null && currentCall == null && calls == []
      ensures statusText == initialStatus && video == None && stopped == []
    {
      this.simulatorId := simulatorId;
      buttons := new bool[buttonCount](_ => false);
      peerStarted := false;
      buttonsWired := false;
      viewerId := None;
      dataConn := null;
      currentCall := null;
      statusText := initialStatus;
      background := "";
      hint := "";
      video := None;
      stopped := [];
      calls := [];
    }

    /** `status(text, color)`: the text is always replaced, the background
        only when a colour is given. */
    method Status(text: string, color: Option<string>)
      modifies this
      ensures statusText == text
      ensures background == if Truthy(color) then color.value else old(background)
      ensures peerStarted == old(peerStarted) && buttonsWired == old(buttonsWired)
      ensures viewerId == old(viewerId) && dataConn == old(dataConn) && currentCall == old(currentCall)
      ensures hint == old(hint) && video == old(video) && stopped == old(stopped) && calls == old(calls)
    {
      statusText := text;
      if Truthy(color) {
        background := color.value;
      }
    }

    /** `disableButtons`: every button of the grid ends disabled. */
    method DisableButtons()
      modifies buttons
      ensures forall i :: 0 <= i < buttons.Length ==> buttons[i]
    {
      var i := 0;
      while i < buttons.Length
        invariant 0 <= i <= buttons.Length
        invariant forall j :: 0 <= j < i ==> buttons[j]
      {
        buttons[i] := true;
        i := i + 1;
      }
    }

    /** The `load` handler. Without a simulator id the page reports the
        configuration error, disables every button and stops there: no peer
        is created and no click handler installed. */
    method OnLoad()
      requires Valid()
      modifies this, buttons
      ensures Valid()
      ensures !Truthy(simulatorId) ==>
        && statusText == NoSimulatorId && background == Red && hint == ScanHint
        && (forall i :: 0 <= i < buttons.Length ==> buttons[i])
        && !peerStarted && buttonsWired == old(buttonsWired)
      ensures Truthy(simulatorId) ==>
        && hint == BindingPrefix + simulatorId.value && peerStarted && buttonsWired
        && statusText == old(statusText) && background == old(background)
        && (forall i :: 0 <= i < buttons.Length ==> buttons[i] == old(buttons[i]))
      ensures viewerId == old(viewerId) && dataConn == old(dataConn) && currentCall == old(currentCall)
      ensures video == old(video) && stopped == old(stopped) && calls == old(calls)
    {
      if !Truthy(simulatorId) {
        statusText := NoSimulatorId;
        background := Red;
        hint := ScanHint;
        DisableButtons();
        return;
      }
      hint := BindingPrefix + simulatorId.value;
      peerStarted := true;
      buttonsWired := true;
    }

    /** The peer's `open` handler: shows the own identity and opens the data
        channel to the simulator (`connectToSimulator(id)`). */
    method OnPeerOpen(id: PeerId)
      requires Valid() && peerStarted
      modifies this
      ensures Valid()
      ensures statusText == ControllerIdPrefix + id && background == Grey
      ensures dataConn != null && fresh(dataConn) && dataConn.remote == simulatorId.value
      ensures !dataConn.open && dataConn.closeCount == 0 && dataConn.sent == []
      ensures viewerId == Some(id)
      ensures peerStarted == old(peerStarted) && buttonsWired == old(buttonsWired)
      ensures currentCall == old(currentCall) && hint == old(hint)
      ensures video == old(video) && stopped == old(stopped) && calls == old(calls)
    {
      Status(ControllerIdPrefix + id, Some(Grey));
      viewerId := Some(id);
      dataConn := new Channel(simulatorId.value);
    }

    /** The channel's `open` handler: exactly one message is sent, the
        registration carrying the controller's own identity. */
    method OnChannelOpen()
      requires Valid() && dataConn != null && dataConn.open
      modifies this, dataConn
      ensures Valid()
      ensures statusText == ConnectedText && background == Green
      ensures dataConn == old(dataConn) && dataConn.open
      ensures dataConn.sent == old(dataConn.sent) + [Encode(RegisterViewer(viewerId.value))]
      ensures dataConn.closeCount == old(dataConn.closeCount)
      ensures peerStarted == old(peerStarted) && buttonsWired == old(buttonsWired)
      ensures viewerId == old(viewerId) && currentCall == old(currentCall) && hint == old(hint)
      ensures video == old(video) && stopped == old(stopped) && calls == old(calls)
    {
      Status(ConnectedText, Some(Green));
      dataConn.Send(Encode(RegisterViewer(viewerId.value)));
    }

    /** The channel's `close` handler: the current call is closed and
        forgotten. A second close finds no call and closes nothing. */
    method OnChannelClose()
      requires Valid()
      modifies this, currentCall
      ensures Valid()
      ensures statusText == DisconnectedText && background == Red
      ensures currentCall == null
      ensures old(currentCall) != null ==>
        !old(currentCall).open && old(currentCall).closeCount == old(currentCall.closeCount) + 1
      ensures forall i :: 0 <= i < |calls| ==> !calls[i].open
      ensures peerStarted == old(peerStarted) && buttonsWired == old(buttonsWired)
      ensures viewerId == old(viewerId) && dataConn == old(dataConn) && hint == old(hint)
      ensures video == old(video) && stopped == old(stopped) && calls == old(calls)
    {
      Status(DisconnectedText, Some(Red));
      if currentCall != null {
        currentCall.Close();
        currentCall := null;
      }
    }

    /** The channel's `error` handler only reports. */
    method OnChannelError()
      modifies this
      ensures statusText == ChannelErrorText && background == Red
      ensures peerStarted == old(peerStarted) && buttonsWired == old(buttonsWired)
      ensures viewerId == old(viewerId) && dataConn == old(dataConn) && currentCall == old(currentCall)
      ensures hint == old(hint) && video == old(video) && stopped == old(stopped) && calls == old(calls)
    {
      Status(ChannelErrorText, Some(Red));
    }

    /** The peer's `error` handler only reports. */
    method OnPeerError(err: string)
      modifies this
      ensures statusText == PeerErrorPrefix + err && background == Red
      ensures peerStarted == old(peerStarted) && buttonsWired == old(buttonsWired)
      ensures viewerId == old(viewerId) && dataConn == old(dataConn) && currentCall == old(currentCall)
      ensures hint == old(hint) && video == old(video) && stopped == old(stopped) && calls == old(calls)
    {
      Status(PeerErrorPrefix + err, Some(Red));
    }

    /** The peer's `call` handler: the previous call, if any, is closed; the
        incoming call becomes current and is answered receive-only. */
    method OnCall(call: Call)
      requires Valid() && call !in calls
      modifies this, currentCall, call
      ensures Valid()
      ensures currentCall == call && calls == old(calls) + [call]
      ensures call.answered && call.sending == None && call.open == old(call.open)
      ensures call.closeCount == old(call.closeCount)
      ensures old(currentCall) != null ==>
        !old(currentCall).open && old(currentCall).closeCount == old(currentCall.closeCount) + 1
      ensures forall i :: 0 <= i < |calls| && calls[i] != call ==> !calls[i].open
      ensures statusText == old(statusText) && background == old(background)
      ensures peerStarted == old(peerStarted) && buttonsWired == old(buttonsWired)
      ensures viewerId == old(viewerId) && dataConn == old(dataConn) && hint == old(hint)
      ensures video == old(video) && stopped == old(stopped)
    {
      if currentCall != null {
        currentCall.Close();
      }
      currentCall := call;
      calls := calls + [call];
      call.Answer(None);
    }

    /** A call's `stream` handler (`attachStream`). */
    method OnCallStream(s: StreamId)
      modifies this
      ensures video == Some(s) && statusText == ReceivingText && background == Green
      ensures peerStarted == old(peerStarted) && buttonsWired == old(buttonsWired)
      ensures viewerId == old(viewerId) && dataConn == old(dataConn) && currentCall == old(currentCall)
      ensures hint == old(hint) && stopped == old(stopped) && calls == old(calls)
    {
      video := Some(s);
      Status(ReceivingText, Some(Green));
    }

    /** A call's `close` handler: the video source ends null, its tracks
        stopped first if one was attached. */
    method OnCallClose()
      modifies this
      ensures video == None
      ensures stopped == if old(video).Some? then old(stopped) + [old(video).value] else old(stopped)
      ensures statusText == CallClosedText && background == Red
      ensures peerStarted == old(peerStarted) && buttonsWired == old(buttonsWired)
      ensures viewerId == old(viewerId) && dataConn == old(dataConn) && currentCall == old(currentCall)
      ensures hint == old(hint) && calls == old(calls)
    {
      if video.Some? {
        stopped := stopped + [video.value];
      }
      video := None;
      Status(CallClosedText, Some(Red));
    }

    /** A call's `error` handler only reports. */
    method OnCallError()
      modifies this
      ensures statusText == CallErrorText && background == Red
      ensures peerStarted == old(peerStarted) && buttonsWired == old(buttonsWired)
      ensures viewerId == old(viewerId) && dataConn == old(dataConn) && currentCall == old(currentCall)
      ensures hint == old(hint) && video == old(video) && stopped == old(stopped) && calls == old(calls)
    {
      Status(CallErrorText, Some(Red));
    }

    /** `sendButtonPress(id)`: without an open channel nothing is sent and the
        status says so; otherwise exactly the button message is appended. */
    method SendButtonPress(id: int)
      requires Valid()
      modifies this, dataConn
      ensures Valid()
      ensures dataConn == old(dataConn)
      ensures old(dataConn) == null || !old(dataConn.open) ==>
        && statusText == NotConnectedText && background == Red
        && (dataConn != null ==> dataConn.sent == old(dataConn.sent))
      ensures old(dataConn) != null && old(dataConn.open) ==>
        && dataConn.sent == old(dataConn.sent) + [Encode(Button(id))]
        && statusText == old(statusText) && background == old(background)
      ensures dataConn != null ==> dataConn.open == old(dataConn.open) && dataConn.closeCount == old(dataConn.closeCount)
      ensures peerStarted == old(peerStarted) && buttonsWired == old(buttonsWired)
      ensures viewerId == old(viewerId) && currentCall == old(currentCall) && hint == old(hint)
      ensures video == old(video) && stopped == old(stopped) && calls == old(calls)
    {
      if dataConn == null || !dataConn.open {
        Status(NotConnectedText, Some(Red));
        return;
      }
      dataConn.Send(Encode(Button(id)));
    }

    /** The grid's click handler: only a click on a button whose `data-id`
        parses to an integer (`parsed`, None for NaN) sends a press. */
    method OnClick(onButton: bool, parsed: Option<int>)
      requires Valid() && buttonsWired
      modifies this, dataConn
      ensures Valid()
      ensures dataConn == old(dataConn) && currentCall == old(currentCall)
      ensures !(onButton && parsed.Some?) ==>
        unchanged(this) && (dataConn != null ==> unchanged(dataConn))
      ensures onButton && parsed.Some? && old(dataConn) != null && old(dataConn.open) ==>
        && dataConn.sent == old(dataConn.sent) + [Encode(Button(parsed.value))]
        && statusText == old(statusText) && background == old(background)
      ensures onButton && parsed.Some? && (old(dataConn) == null || !old(dataConn.open)) ==>
        && statusText == NotConnectedText && background == Red
        && (dataConn != null ==> dataConn.sent == old(dataConn.sent))
      ensures dataConn != null ==> dataConn.open == old(dataConn.open) && dataConn.closeCount == old(dataConn.closeCount)
      ensures peerStarted == old(peerStarted) && buttonsWired == old(buttonsWired)
      ensures viewerId == old(viewerId) && hint == old(hint)
      ensures video == old(video) && stopped == old(stopped) && calls == old(calls)
    {
      if !onButton {
        return;
      }
      if parsed.None? {
        return;
      }
      SendButtonPress(parsed.value);
    }
  }
}
