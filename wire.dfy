/**
 * The control messages carried over the PeerJS data channel, as the controller
 * writes them and as the simulator's `data` handler reads them.
 */
module Wire {
  import opened Wrappers

  /** A PeerJS identity: an opaque string issued by the signalling broker. */
  type PeerId = string

  const RegisterViewerType := "registerViewer"
  const ButtonType := "button"

  /**
   * A payload as the simulator receives it. `Falsy` stands for every JavaScript
   * falsy value (null, undefined, false, 0, ""); `Record` for an object, with
   * the three fields the dispatcher reads. A field is None when it is absent or
   * holds a value of another type than the one the dispatcher compares with.
   */
  datatype Payload =
    | Falsy
    | Record(kind: Option<string>, peerId: Option<string>, id: Option<int>)

  /** The two messages the controller sends. */
  datatype Message =
    | RegisterViewer(viewer: PeerId)
    | Button(id: int)

  /** What the simulator does with a payload. */
  datatype Action =
    | Drop
    | Register(viewer: PeerId)
    | Press(id: Option<int>)

  /** The object literal the controller hands to `dataConn.send`. */
  function Encode(m: Message): (p: Payload)
    ensures p.Record? && p.kind.Some?
  {
    match m
    case RegisterViewer(v) => Record(Some(RegisterViewerType), Some(v), None)
    case Button(id) => Record(Some(ButtonType), None, Some(id))
  }

  /**
   * The simulator's `conn.on('data')` dispatcher: a falsy payload is dropped,
   * a `registerViewer` with a truthy `peerId` registers that viewer, a `button`
   * payload reaches the command sink with whatever `id` it carries, and
   * everything else is dropped.
   */
  function Dispatch(msg: Payload): (a: Action)
    ensures a.Register? <==>
      msg.Record? && msg.kind == Some(RegisterViewerType) && Truthy(msg.peerId)
    ensures a.Register? ==> Some(a.viewer) == msg.peerId && a.viewer != ""
    ensures a.Press? <==> msg.Record? && msg.kind == Some(ButtonType)
    ensures a.Press? ==> a.id == msg.id
  {
    if msg.Falsy? then Drop
    else if msg.kind == Some(RegisterViewerType) && Truthy(msg.peerId) then Register(msg.peerId.value)
    else if msg.kind == Some(ButtonType) then Press(msg.id)
    else Drop
  }

  /** The payloads the dispatcher ignores: falsy ones, registrations without a
      usable `peerId`, and every `type` other than the two it knows. */
  lemma DroppedExactly(msg: Payload)
    ensures Dispatch(msg).Drop? <==>
      || msg.Falsy?
      || (msg.kind == Some(RegisterViewerType) && !Truthy(msg.peerId))
      || (msg.kind != Some(RegisterViewerType) && msg.kind != Some(ButtonType))
  {
  }

  /** Round trip: a registration the controller sends with a non-empty identity
      registers exactly that identity at the simulator. */
  lemma RegisterRoundTrip(viewer: PeerId)
    requires viewer != ""
    ensures Dispatch(Encode(RegisterViewer(viewer))) == Register(viewer)
  {
  }

  /** A registration carrying the empty identity is falsy on arrival and dropped. */
  lemma EmptyRegistrationDropped()
    ensures Dispatch(Encode(RegisterViewer(""))) == Drop
  {
  }

  /** Round trip: a button press the controller sends reaches the command sink
      with the same id. */
  lemma ButtonRoundTrip(id: int)
    ensures Dispatch(Encode(Button(id))) == Press(Some(id))
  {
  }
}
