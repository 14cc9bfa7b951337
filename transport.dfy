/**
 * PeerJS connections and calls as abstract handles. The library itself is not
 * part of this model: a handle records only whether it is open, how many times
 * it was closed, and what was sent on it.
 */
module Transport {
  import opened Wrappers
  import opened Wire

  /** A captured media stream, by identity. */
  type StreamId = nat

  /** A PeerJS `DataConnection`. */
  class Channel {
    /** `conn.peer`: the identity at the far end. */
    const remote: PeerId
    var open: bool
    var closeCount: nat
    /** Every payload handed to `send`, in order (the outbox). */
    var sent: seq<Payload>

    /** A connection as `peer.connect` returns it or the `connection` event
        delivers it: not yet open. */
    constructor (remote: PeerId)
      ensures this.remote == remote && !open && closeCount == 0 && sent == []
    {
      this.remote := remote;
      open := false;
      closeCount := 0;
      sent := [];
    }

    /** The transport reports the channel open (just before its `open` event). */
    method Opened()
      modifies this
      ensures open && closeCount == old(closeCount) && sent == old(sent)
    {
      open := true;
    }

    /** `close()`: always safe, on an open or an already closed channel. */
    method Close()
      modifies this
      ensures !open && closeCount == old(closeCount) + 1 && sent == old(sent)
    {
      open := false;
      closeCount := closeCount + 1;
    }

    /** The far end closed the channel or the transport failed (just before
        its `close` event); no local `close()` was called. */
    method Closed()
      modifies this
      ensures !open && closeCount == old(closeCount) && sent == old(sent)
    {
      open := false;
    }

    /** `send(p)` on an open channel appends `p` to the outbox. */
    method Send(p: Payload)
      requires open
      modifies this
      ensures sent == old(sent) + [p]
      ensures open && closeCount == old(closeCount)
    {
      sent := sent + [p];
    }
  }

  /** A PeerJS `MediaConnection`; `open` here means "not closed yet". */
  class Call {
    /** The identity at the far end: the callee for `peer.call`, the caller
        for an incoming call. */
    const remote: PeerId
    /** The local stream this side sends, if any. */
    var sending: Option<StreamId>
    var answered: bool
    var open: bool
    var closeCount: nat

    constructor (remote: PeerId, sending: Option<StreamId>)
      ensures this.remote == remote && this.sending == sending
      ensures open && !answered && closeCount == 0
    {
      this.remote := remote;
      this.sending := sending;
      answered := false;
      open := true;
      closeCount := 0;
    }

    /** `answer(s)`: accept an incoming call, sending `s` back (None: receive only). */
    method Answer(s: Option<StreamId>)
      modifies this
      ensures answered && sending == s
      ensures open == old(open) && closeCount == old(closeCount)
    {
      answered := true;
      sending := s;
    }

    /** `close()`: always safe, on an open or an already closed call. */
    method Close()
      modifies this
      ensures !open && closeCount == old(closeCount) + 1
      ensures sending == old(sending) && answered == old(answered)
    {
      open := false;
      closeCount := closeCount + 1;
    }

    /** The far end hung up (just before the call's `close` event); no local
        `close()` was called. */
    method Closed()
      modifies this
      ensures !open && closeCount == old(closeCount)
      ensures sending == old(sending) && answered == old(answered)
    {
      open := false;
    }
  }
}
