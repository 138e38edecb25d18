/**
 * End-to-end scenarios that drive the channels and the agent connection, each from a
 * fresh service: silence from start-up, a heartbeat arriving, silence after it, a repeated
 * heartbeat, and a socket error in the middle of a session.
 */
module Scenarios {
  import opened Wrappers
  import opened WsjtxMessages
  import opened HamlibMessages
  import opened AgentMessages
  import Wsjtx
  import Hamlib
  import Agent

  /** No frame ever arrives: 15 s after start-up both channels are down with no snapshot. */
  method SilenceFromStart(t0: int)
    returns (wsjtxUp: bool, heartbeat: Option<Payload>, status: Option<Payload>,
             hamlibUp: bool, rigState: Option<HamlibRigState>)
    ensures !wsjtxUp && heartbeat.None? && status.None?
    ensures !hamlibUp && rigState.None?
  {
    var w := new Wsjtx.WsjtxService(t0);
    var h := new Hamlib.HamlibService(t0);
    h.SetupBehaviors();
    w.Tick(t0 + Wsjtx.SilenceMs);
    h.Tick(t0 + Hamlib.SilenceMs);
    wsjtxUp, heartbeat, status := w.connected, w.heartbeat, w.status;
    hamlibUp, rigState := h.connected, h.rigState;
  }

  /** The heartbeat of the scenarios, from a client named "X" at version 2.5.2. */
  function HeartbeatFrame(maxSchemaVersion: int, revision: string): Frame {
    Frame(Some(WsjtxPart(Some("HeartbeatMessage"),
                         HeartbeatPayload(WsjtxHeartbeat("X", maxSchemaVersion, revision, "2.5.2")))),
          None)
  }

  /**
   * A heartbeat arrives over the socket and is routed to the WSJT-X channel: that channel
   * is up with the heartbeat as its snapshot and later commands go to client "X"; the
   * Hamlib channel stays as it was.
   */
  method HeartbeatArrives(t0: int, maxSchemaVersion: int, revision: string)
    returns (wsjtxUp: bool, heartbeat: Option<Payload>, clientId: string, replay: Envelope,
             hamlibUp: bool, rigState: Option<HamlibRigState>)
    ensures wsjtxUp && heartbeat == Some(HeartbeatFrame(maxSchemaVersion, revision).wsjtx.value.payload)
    ensures clientId == "X" && replay.payload == ReplayPayload(WsjtxReplay("X"))
    ensures !hamlibUp && rigState.None?
  {
    var a := new Agent.AgentService(map[]);
    var w := new Wsjtx.WsjtxService(t0);
    var h := new Hamlib.HamlibService(t0);
    h.SetupBehaviors();
    a.Init();
    var frame := HeartbeatFrame(maxSchemaVersion, revision);
    a.SocketFrame(frame);
    w.HandleMessage(a.received[|a.received| - 1]);
    w.Replay();
    wsjtxUp, heartbeat, clientId, replay := w.connected, w.heartbeat, w.wsjtxId, w.outbox[|w.outbox| - 1];
    hamlibUp, rigState := h.connected, h.rigState;
  }

  /**
   * After the heartbeat, 16 s pass without another frame: the debounce fires at 15 s and
   * the channel is down with both snapshots cleared; the last-seen id is kept.
   */
  method SilenceAfterHeartbeat(t0: int, maxSchemaVersion: int, revision: string)
    returns (wsjtxUp: bool, heartbeat: Option<Payload>, status: Option<Payload>, clientId: string)
    ensures !wsjtxUp && heartbeat.None? && status.None? && clientId == "X"
  {
    var w := new Wsjtx.WsjtxService(t0);
    w.HandleMessage(HeartbeatFrame(maxSchemaVersion, revision));
    w.Tick(t0 + Wsjtx.SilenceMs);
    w.Tick(t0 + 16000);
    wsjtxUp, heartbeat, status, clientId := w.connected, w.heartbeat, w.status, w.wsjtxId;
  }

  /**
   * The same heartbeat arrives twice, 10 s apart, and 20 s after the first one the channel
   * has never gone down: the snapshot is the same heartbeat throughout.
   */
  method RepeatedHeartbeat(t0: int, maxSchemaVersion: int, revision: string)
    returns (upBetween: bool, upAfter: bool, first: Option<Payload>, second: Option<Payload>)
    ensures upBetween && upAfter && first.Some? && second == first
  {
    var w := new Wsjtx.WsjtxService(t0);
    var frame := HeartbeatFrame(maxSchemaVersion, revision);
    w.HandleMessage(frame);
    first := w.heartbeat;
    w.Tick(t0 + 10000);
    upBetween := w.connected;
    w.HandleMessage(frame);
    w.Tick(t0 + 20000);
    upAfter, second := w.connected, w.heartbeat;
  }

  /**
   * A socket error in the middle of a session: the flag goes down, one reopening is
   * scheduled and happens on the same subscription, so no second socket is ever opened.
   */
  method ErrorMidSession(storage: map<string, string>, frame: Frame)
    returns (upBeforeError: bool, upAfterError: bool, retryScheduled: bool, retryDone: bool,
             before: Option<nat>, after: Option<nat>)
    ensures upBeforeError && !upAfterError && retryScheduled && retryDone
    ensures before.Some? && after == before
  {
    var a := new Agent.AgentService(storage);
    a.Init();
    a.SocketFrame(frame);
    upBeforeError, before := a.connectedState, a.subscription;
    a.SocketError();
    upAfterError, retryScheduled := a.connectedState, a.retryPending;
    a.RetryElapsed();
    retryDone, after := !a.retryPending, a.subscription;
  }
}
