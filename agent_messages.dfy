/**
 * The two buses between the agent connection and the protocol channels: inbound frames,
 * as decoded from the socket's JSON, and outbound WSJT-X envelopes.
 */
module AgentMessages {
  import opened Wrappers
  import opened WsjtxMessages
  import opened HamlibMessages

  /** The `wsjtx` part of an inbound frame; `msgType` is `None` when `type` is absent. */
  datatype WsjtxPart = WsjtxPart(msgType: Option<string>, payload: Payload)

  /** The `hamlib` part of an inbound frame. */
  datatype HamlibPart = HamlibPart(msgType: Option<string>, payload: HamlibRigState)

  /** An inbound frame: either key may be missing. */
  datatype Frame = Frame(wsjtx: Option<WsjtxPart>, hamlib: Option<HamlibPart>)

  /** An outbound command `{wsjtx: {type, payload}}`. */
  datatype Envelope = Envelope(msgType: string, payload: Payload)

  /** The frame an envelope becomes when the same JSON object is read back. */
  function AsFrame(e: Envelope): Frame {
    Frame(Some(WsjtxPart(Some(e.msgType), e.payload)), None)
  }
}
