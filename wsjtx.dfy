/**
 * The WSJT-X channel of the bridge: the inbound router, the liveness tracker with its
 * snapshot clearing, and the command encoder.
 *
 * Time is discrete: `clock` is the current time in milliseconds and `deadline` the moment
 * the 15-second silence debounce fires. Every emission on `connected$` (true or false)
 * re-arms the debounce, so `deadline` is always 15000 ms after the last emission.
 */
module Wsjtx {
  import opened Wrappers
  import opened WsjtxMessages
  import opened AgentMessages

  /** The client id commands carry until the first frame names one. */
  const DefaultId := "WSJT-X"

  /** The silence after which the channel counts as down. */
  const SilenceMs := 15000

  /** The eight inbound kinds the router knows, named after their wire `type` strings. */
  datatype Kind =
    | HeartbeatMessage | StatusMessage | DecodeMessage | ClearMessage
    | QsoLoggedMessage | CloseMessage | WsprDecodeMessage | LoggedAdifMessage

  function TypeName(k: Kind): string {
    match k
    case HeartbeatMessage => "HeartbeatMessage"
    case StatusMessage => "StatusMessage"
    case DecodeMessage => "DecodeMessage"
    case ClearMessage => "ClearMessage"
    case QsoLoggedMessage => "QsoLoggedMessage"
    case CloseMessage => "CloseMessage"
    case WsprDecodeMessage => "WSPRDecodeMessage"
    case LoggedAdifMessage => "LoggedAdifMessage"
  }

  /** The router's `switch` on the type string: the kind whose name it is, if any. */
  function KindOf(t: string): (k: Option<Kind>)
    ensures forall kind :: k == Some(kind) <==> TypeName(kind) == t
  {
    if t == "HeartbeatMessage" then Some(HeartbeatMessage)
    else if t == "StatusMessage" then Some(StatusMessage)
    else if t == "DecodeMessage" then Some(DecodeMessage)
    else if t == "ClearMessage" then Some(ClearMessage)
    else if t == "QsoLoggedMessage" then Some(QsoLoggedMessage)
    else if t == "CloseMessage" then Some(CloseMessage)
    else if t == "WSPRDecodeMessage" then Some(WsprDecodeMessage)
    else if t == "LoggedAdifMessage" then Some(LoggedAdifMessage)
    else None
  }

  /** Heartbeat and Status are cached as the latest value; the other six are events. */
  predicate IsSnapshot(k: Kind) {
    k == HeartbeatMessage || k == StatusMessage
  }

  /** One occurrence delivered on an event stream (`decode$`, `clear$`, ...). */
  datatype Event = Event(kind: Kind, payload: Payload)

  /** The router's guard: the frame has a `wsjtx` part whose `type` is present and not empty. */
  predicate Accepts(f: Frame) {
    f.wsjtx.Some? && f.wsjtx.value.msgType.Some? && f.wsjtx.value.msgType.value != ""
  }

  /** What `connected$` records about the last accepted frame: when, and whether it was a Close. */
  datatype Sighting = Sighting(at: int, close: bool)

  /** The outbound commands, one per command method of the service. */
  datatype Command =
    | ClearBandActivity | ClearRxFreqWindow | ClearAll | Replay | HaltTxNow | HaltTxAfterCurrent
    | Reply(decode: WsjtxDecode)
    | HighlightCallsign(highlight: WsjtxHighlightCallsign)
    | SendFreeText(freeText: WsjtxFreeText)
    | SetLocation(grid: string)
    | SwitchConfiguration(configName: string)
    | Configure(config: WsjtxConfigure)

  /**
   * The envelope a command method pushes when the last-seen client id is `id`. Every
   * command is addressed to `id`, except a reply, which is addressed to the client of
   * the decode it answers.
   */
  function Encode(cmd: Command, id: string): (e: Envelope)
    ensures e.payload.Id() == if cmd.Reply? then cmd.decode.id else id
    ensures match cmd
      case ClearBandActivity => e == Envelope("ClearMessage", ClearPayload(WsjtxClear(id, 0)))
      case ClearRxFreqWindow => e == Envelope("ClearMessage", ClearPayload(WsjtxClear(id, 1)))
      case ClearAll => e == Envelope("ClearMessage", ClearPayload(WsjtxClear(id, 2)))
      case Replay => e == Envelope("ReplayMessage", ReplayPayload(WsjtxReplay(id)))
      case HaltTxNow => e == Envelope("HaltTxMessage", HaltTxPayload(WsjtxHaltTx(id, false)))
      case HaltTxAfterCurrent => e == Envelope("HaltTxMessage", HaltTxPayload(WsjtxHaltTx(id, true)))
      case Reply(d) =>
        && e.msgType == "ReplyMessage" && e.payload.ReplyPayload?
        && var r := e.payload.reply;
        && r.id == d.id && r.time == d.time && r.snr == d.snr && r.deltaTime == d.deltaTime
        && r.deltaFrequency == d.deltaFrequency && r.mode == d.mode && r.message == d.message
        && r.lowConfidence == d.lowConfidence && r.modifiers.None?
      case HighlightCallsign(h) =>
        e == Envelope("HighlightCallsignMessage", HighlightCallsignPayload(h.(id := id)))
      case SendFreeText(f) => e == Envelope("FreeTextMessage", FreeTextPayload(f.(id := id)))
      case SetLocation(grid) => e == Envelope("LocationMessage", LocationPayload(WsjtxLocation(id, grid)))
      case SwitchConfiguration(name) =>
        e == Envelope("SwitchConfigurationMessage",
                      SwitchConfigurationPayload(WsjtxSwitchConfiguration(id, name)))
      case Configure(c) => e == Envelope("ConfigureMessage", ConfigurePayload(c.(id := id)))
  {
    match cmd
    case ClearBandActivity => Envelope("ClearMessage", ClearPayload(WsjtxClear(id, 0)))
    case ClearRxFreqWindow => Envelope("ClearMessage", ClearPayload(WsjtxClear(id, 1)))
    case ClearAll => Envelope("ClearMessage", ClearPayload(WsjtxClear(id, 2)))
    case Replay => Envelope("ReplayMessage", ReplayPayload(WsjtxReplay(id)))
    case HaltTxNow => Envelope("HaltTxMessage", HaltTxPayload(WsjtxHaltTx(id, false)))
    case HaltTxAfterCurrent => Envelope("HaltTxMessage", HaltTxPayload(WsjtxHaltTx(id, true)))
    case Reply(d) =>
      Envelope("ReplyMessage", ReplyPayload(WsjtxReply(
        d.id, d.time, d.snr, d.deltaTime, d.deltaFrequency, d.mode, d.message, d.lowConfidence,
        None)))
    case HighlightCallsign(h) => Envelope("HighlightCallsignMessage", HighlightCallsignPayload(h.(id := id)))
    case SendFreeText(f) => Envelope("FreeTextMessage", FreeTextPayload(f.(id := id)))
    case SetLocation(grid) => Envelope("LocationMessage", LocationPayload(WsjtxLocation(id, grid)))
    case SwitchConfiguration(name) =>
      Envelope("SwitchConfigurationMessage", SwitchConfigurationPayload(WsjtxSwitchConfiguration(id, name)))
    case Configure(c) => Envelope("ConfigureMessage", ConfigurePayload(c.(id := id)))
  }

  /**
   * An encoded command read back as an inbound frame passes the router's guard and names
   * the client it was addressed to; of all commands only the three clears have a type the
   * router dispatches, and they dispatch to the Clear stream.
   */
  lemma {:induction false} EncodedCommandRoutes(cmd: Command, id: string)
    ensures var f := AsFrame(Encode(cmd, id));
      && Accepts(f)
      && f.wsjtx.value.payload.Id() == (if cmd.Reply? then cmd.decode.id else id)
      && (KindOf(f.wsjtx.value.msgType.value) == Some(ClearMessage)
          <==> cmd.ClearBandActivity? || cmd.ClearRxFreqWindow? || cmd.ClearAll?)
      && (KindOf(f.wsjtx.value.msgType.value).Some? ==> KindOf(f.wsjtx.value.msgType.value) == Some(ClearMessage))
  {
    var t := Encode(cmd, id).msgType;
    ControlTypesNotDispatched();
    TextTypesNotDispatched();
    match cmd
    case ClearBandActivity => assert t == TypeName(ClearMessage);
    case ClearRxFreqWindow => assert t == TypeName(ClearMessage);
    case ClearAll => assert t == TypeName(ClearMessage);
    case _ =>
  }

  /** The type strings of the replay, halt, reply and highlight commands are not inbound kinds. */
  lemma ControlTypesNotDispatched()
    ensures KindOf("ReplayMessage").None? && KindOf("HaltTxMessage").None?
    ensures KindOf("ReplyMessage").None? && KindOf("HighlightCallsignMessage").None?
  {
  }

  /** Nor are those of the free-text, location and configuration commands. */
  lemma TextTypesNotDispatched()
    ensures KindOf("FreeTextMessage").None? && KindOf("LocationMessage").None?
    ensures KindOf("SwitchConfigurationMessage").None? && KindOf("ConfigureMessage").None?
  {
  }

  /** The WSJT-X channel: `connected$`, the two snapshot subjects, the six event subjects
      (as one log), the last-seen client id, and the outbound bus `txMessage$`. */
  class WsjtxService {
    var connected: bool
    var heartbeat: Option<Payload>
    var status: Option<Payload>
    var events: seq<Event>
    var wsjtxId: string
    var outbox: seq<Envelope>
    var clock: int
    var deadline: int
    ghost var lastAccepted: Option<Sighting>

    /** A frame that is not a Close arrived less than 15000 ms ago. */
    ghost predicate RecentlyHeard()
      reads this
    {
      lastAccepted.Some? && !lastAccepted.value.close && clock < lastAccepted.value.at + SilenceMs
    }

    ghost predicate Valid()
      reads this
    {
      // the debounce is always armed, and by the last emission at or before `clock`
      && clock < deadline <= clock + SilenceMs
      // snapshots are never stale while the channel is down
      && (!connected ==> heartbeat.None? && status.None?)
      // liveness: up exactly when a non-Close frame arrived within the last 15000 ms
      && (connected <==> RecentlyHeard())
      && (lastAccepted.Some? ==>
            lastAccepted.value.at <= clock && lastAccepted.value.at + SilenceMs <= deadline)
      && (connected ==> lastAccepted.Some? && deadline == lastAccepted.value.at + SilenceMs)
    }

    /** The constructor runs `setupBehaviors`: `connected$` replays `false` to its
        subscribers, which clears both snapshots and arms the debounce. */
    constructor (now: int)
      ensures Valid()
      ensures !connected && heartbeat.None? && status.None?
      ensures wsjtxId == DefaultId && events == [] && outbox == []
      ensures clock == now && deadline == now + SilenceMs && lastAccepted.None?
    {
      connected := false;
      heartbeat := None;
      status := None;
      events := [];
      wsjtxId := DefaultId;
      outbox := [];
      clock := now;
      deadline := now + SilenceMs;
      lastAccepted := None;
    }

    /** `connected$.next(isUp)` with its two subscribers: the debounce re-arms, and going
        down clears the snapshots. */
    method EmitConnected(isUp: bool)
      modifies this`connected, this`deadline, this`heartbeat, this`status
      ensures connected == isUp && deadline == clock + SilenceMs
      ensures heartbeat == (if isUp then old(heartbeat) else None)
      ensures status == (if isUp then old(status) else None)
    {
      connected := isUp;
      deadline := clock + SilenceMs;
      if !isUp {
        heartbeat := None;
        status := None;
      }
    }

    /** `handleMessage`: drop a frame the guard rejects, and dispatch any other. */
    method HandleMessage(frame: Frame)
      requires Valid()
      modifies this
      ensures Valid()
      ensures clock == old(clock) && outbox == old(outbox)
      ensures !Accepts(frame) ==>
        && connected == old(connected) && wsjtxId == old(wsjtxId) && deadline == old(deadline)
        && heartbeat == old(heartbeat) && status == old(status) && events == old(events)
        && lastAccepted == old(lastAccepted)
      ensures Accepts(frame) ==>
        var p, kind := frame.wsjtx.value.payload, KindOf(frame.wsjtx.value.msgType.value);
        && wsjtxId == p.Id()
        && connected == (kind != Some(CloseMessage))
        && deadline == clock + SilenceMs
        && heartbeat == (if kind == Some(HeartbeatMessage) then Some(p)
                         else if kind == Some(CloseMessage) then None else old(heartbeat))
        && status == (if kind == Some(StatusMessage) then Some(p)
                      else if kind == Some(CloseMessage) then None else old(status))
        && events == old(events) + (if kind.Some? && !IsSnapshot(kind.value)
                                    then [Event(kind.value, p)] else [])
    {
      if Accepts(frame) {
        Dispatch(frame.wsjtx.value.payload, KindOf(frame.wsjtx.value.msgType.value));
      }
    }

    /** An accepted frame with payload `p` whose type is `kind` (`None` when the switch has
        no case for it): mark up, record the id, and route by kind. */
    method Dispatch(p: Payload, kind: Option<Kind>)
      requires Valid()
      modifies this
      ensures Valid()
      ensures clock == old(clock) && outbox == old(outbox)
      ensures wsjtxId == p.Id()
      ensures connected == (kind != Some(CloseMessage))
      ensures deadline == clock + SilenceMs
      ensures heartbeat == (if kind == Some(HeartbeatMessage) then Some(p)
                            else if kind == Some(CloseMessage) then None else old(heartbeat))
      ensures status == (if kind == Some(StatusMessage) then Some(p)
                         else if kind == Some(CloseMessage) then None else old(status))
      ensures events == old(events) + (if kind.Some? && !IsSnapshot(kind.value)
                                       then [Event(kind.value, p)] else [])
    {
      EmitConnected(true);
      wsjtxId := p.Id();
      lastAccepted := Some(Sighting(clock, kind == Some(CloseMessage)));
      match kind
      case Some(HeartbeatMessage) =>
        heartbeat := Some(p);
      case Some(StatusMessage) =>
        status := Some(p);
      case Some(CloseMessage) =>
        // the close$ subscriber of setupBehaviors takes the channel down at once
        events := events + [Event(CloseMessage, p)];
        EmitConnected(false);
      case Some(k) =>
        events := events + [Event(k, p)];
      case None =>
    }

    /** The scheduler advances time to `now`; the debounce fires when its deadline is
        reached, and its own `false` emission re-arms it. Time cannot pass a due deadline. */
    method Tick(now: int)
      requires Valid()
      requires clock <= now <= deadline
      modifies this
      ensures Valid()
      ensures clock == now
      ensures wsjtxId == old(wsjtxId) && events == old(events) && outbox == old(outbox)
      ensures lastAccepted == old(lastAccepted)
      ensures now == old(deadline) ==>
        !connected && heartbeat.None? && status.None? && deadline == now + SilenceMs
      ensures now < old(deadline) ==>
        && connected == old(connected) && deadline == old(deadline)
        && heartbeat == old(heartbeat) && status == old(status)
    {
      clock := now;
      if now == deadline {
        EmitConnected(false);
      }
    }

    /** Pushes the envelope of `cmd`, addressed with the current `wsjtxId`. */
    method Send(cmd: Command)
      requires Valid()
      modifies this`outbox
      ensures Valid()
      ensures outbox == old(outbox) + [Encode(cmd, wsjtxId)]
    {
      outbox := outbox + [Encode(cmd, wsjtxId)];
    }

    /** Clears the Band Activity window (window 0). */
    method ClearBandActivity()
      requires Valid()
      modifies this`outbox
      ensures Valid()
      ensures outbox == old(outbox) + [Encode(Command.ClearBandActivity, wsjtxId)]
    {
      Send(Command.ClearBandActivity);
    }

    /** Clears the Rx Frequency window (window 1). */
    method ClearRxFreqWindow()
      requires Valid()
      modifies this`outbox
      ensures Valid()
      ensures outbox == old(outbox) + [Encode(Command.ClearRxFreqWindow, wsjtxId)]
    {
      Send(Command.ClearRxFreqWindow);
    }

    /** Clears both windows (window 2). */
    method ClearAll()
      requires Valid()
      modifies this`outbox
      ensures Valid()
      ensures outbox == old(outbox) + [Encode(Command.ClearAll, wsjtxId)]
    {
      Send(Command.ClearAll);
    }

    /** Asks WSJT-X to replay its decodes. */
    method Replay()
      requires Valid()
      modifies this`outbox
      ensures Valid()
      ensures outbox == old(outbox) + [Encode(Command.Replay, wsjtxId)]
    {
      Send(Command.Replay);
    }

    /** Halts any transmission at once (`autoTxOnly` false). */
    method HaltTxNow()
      requires Valid()
      modifies this`outbox
      ensures Valid()
      ensures outbox == old(outbox) + [Encode(Command.HaltTxNow, wsjtxId)]
    {
      Send(Command.HaltTxNow);
    }

    /** Stops auto-transmitting after the current round (`autoTxOnly` true). */
    method HaltTxAfterCurrent()
      requires Valid()
      modifies this`outbox
      ensures Valid()
      ensures outbox == old(outbox) + [Encode(Command.HaltTxAfterCurrent, wsjtxId)]
    {
      Send(Command.HaltTxAfterCurrent);
    }

    /** Replies to a decode, addressed as the decode was. */
    method Reply(decode: WsjtxDecode)
      requires Valid()
      modifies this`outbox
      ensures Valid()
      ensures outbox == old(outbox) + [Encode(Command.Reply(decode), wsjtxId)]
    {
      Send(Command.Reply(decode));
    }

    /** Highlights a callsign. The caller's record gets its `id` overwritten; `stamped` is
        that record afterwards. */
    method HighlightCallsign(highlightMsg: WsjtxHighlightCallsign)
      returns (stamped: WsjtxHighlightCallsign)
      requires Valid()
      modifies this`outbox
      ensures Valid()
      ensures stamped == highlightMsg.(id := wsjtxId)
      ensures outbox == old(outbox) + [Encode(Command.HighlightCallsign(highlightMsg), wsjtxId)]
    {
      stamped := highlightMsg.(id := wsjtxId);
      Send(Command.HighlightCallsign(highlightMsg));
    }

    /** Sets the free text to transmit; the caller's record gets its `id` overwritten. */
    method SendFreeText(freeText: WsjtxFreeText) returns (stamped: WsjtxFreeText)
      requires Valid()
      modifies this`outbox
      ensures Valid()
      ensures stamped == freeText.(id := wsjtxId)
      ensures outbox == old(outbox) + [Encode(Command.SendFreeText(freeText), wsjtxId)]
    {
      stamped := freeText.(id := wsjtxId);
      Send(Command.SendFreeText(freeText));
    }

    /** Sets the station's Maidenhead grid for this WSJT-X session. */
    method SetLocation(grid: string)
      requires Valid()
      modifies this`outbox
      ensures Valid()
      ensures outbox == old(outbox) + [Encode(Command.SetLocation(grid), wsjtxId)]
    {
      Send(Command.SetLocation(grid));
    }

    /** Switches to the named configuration. */
    method SwitchConfiguration(configName: string)
      requires Valid()
      modifies this`outbox
      ensures Valid()
      ensures outbox == old(outbox) + [Encode(Command.SwitchConfiguration(configName), wsjtxId)]
    {
      Send(Command.SwitchConfiguration(configName));
    }

    /** Sets configuration parameters; the caller's record gets its `id` overwritten. */
    method Configure(config: WsjtxConfigure) returns (stamped: WsjtxConfigure)
      requires Valid()
      modifies this`outbox
      ensures Valid()
      ensures stamped == config.(id := wsjtxId)
      ensures outbox == old(outbox) + [Encode(Command.Configure(config), wsjtxId)]
    {
      stamped := config.(id := wsjtxId);
      Send(Command.Configure(config));
    }
  }
}
