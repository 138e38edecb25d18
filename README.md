# ngx-kel-agent client bridge, modelled in Dafny

ngx-kel-agent is an Angular library. It keeps one WebSocket open to the kel-agent
server and carries two device protocols over it:

- WSJT-X, a digital-mode radio application with status messages and commands;
- Hamlib, rig control, with one status message.

This project models the three services that make up the bridge's core and proves
properties about them.

- **WsjtxService** (`wsjtx.dfy`, `wsjtx_format.dfy`).
  - *Router.* `handleMessage` drops frames without a `wsjtx` part or without a
    non-empty `type`. For any other frame it:
    - marks the channel up;
    - records `payload.id` as the last-seen client id;
    - dispatches on the type. `HeartbeatMessage` and `StatusMessage` become the
      cached snapshots. The six other known kinds are appended to an event log, and
      unknown types are dropped.
  - *Liveness tracker.* `setupBehaviors` runs from the constructor.
    - Every emission on `connected$` re-arms a 15000 ms debounce.
    - When the debounce fires, it emits `false` itself.
    - A `CloseMessage` takes the channel down at once.
    - Going down clears both snapshots.
  - *Command encoder.* Twelve methods push envelopes onto the outbound bus. Each is
    stamped with the last-seen id, except `reply`, which keeps the id of the decode it
    answers.
  - *Formatters.* `formatTime` and `formatDecode` render decodes as the WSJT-X band
    activity window does.
- **HamlibService** (`hamlib.dfy`).
  - The same debounce and snapshot clearing, for `rigState$`.
  - These behaviours are installed only when `setupBehaviors` is called; the
    constructor does not call it.
  - Any frame marks the channel up, and a `RigState` frame replaces the snapshot.
- **AgentService** (`agent.dfy`).
  - Host and port are read from browser storage, with defaults `localhost` and 8081.
    The port is read with `parseInt(_, 10)`.
  - The URL is `ws://host:port/websocket` for `localhost` and `wss://…` for any other
    host.
  - `connect` cancels the previous subscription before subscribing again, so at most
    one subscription is live.
  - `connectedState$` is set optimistically on connect and on every frame. It goes
    false on an error, which schedules a reopen of the same subscription, and on
    completion.

Time is discrete. Each channel has a `clock` and the `deadline` at which its debounce
fires. `Tick(now)` advances the clock and cannot skip a due deadline. The invariant
`Valid()` of `WsjtxService` states the liveness property outright: the channel is up
exactly when the last accepted frame was not a `CloseMessage` and arrived less than
15000 ms ago, and the snapshots are absent whenever the channel is down.

The JavaScript primitives the formatters and `getPort` depend on are modelled in
`js_text.dfy`:

- `Number.prototype.toString` on integers;
- `String.prototype.padStart`;
- `toFixed(1)` on a value held in tenths;
- `parseInt(_, 10)`: leading white space, an optional sign, the longest digit
  prefix, and NaN when there are no digits.

`scenarios.dfy` states end-to-end scenarios that drive the services: silence from start-up, a heartbeat
arriving through the agent socket, silence after it, a repeated heartbeat, and a socket
error in the middle of a session.

Notes on the code:

- The inbound type strings are `HeartbeatMessage`, `WSPRDecodeMessage` and so on.
- `reply` is addressed to the decode's own id, not the last-seen id.
- Hamlib's debounce exists only after `setupBehaviors` has been called.
- `send` forwards to the socket subject whenever one exists, whether or not the flag
  is up.

## Model

| member | source | states |
|---|---|---|
| JsText.NatToString | projects/ngx-kel-agent/src/lib/wsjtx.service.ts:278-280 | the decimal text of a natural is a non-empty digit string with no leading zero unless the number is 0 |
| JsText.NatToStringValue | projects/ngx-kel-agent/src/lib/wsjtx.service.ts:278-280 | the digits of `toString` read back as the number |
| JsText.NatToStringShort | projects/ngx-kel-agent/src/lib/wsjtx.service.ts:264-266 | a natural below 10^k has at most k digits |
| JsText.Fill | projects/ngx-kel-agent/src/lib/wsjtx.service.ts:264-266 | the padding of `padStart` has the requested length and consists only of the fill character |
| JsText.PadStart | projects/ngx-kel-agent/src/lib/wsjtx.service.ts:264-266 | `padStart` gives the longer of the text and the width |
| JsText.PadStartPrefix | projects/ngx-kel-agent/src/lib/wsjtx.service.ts:264-266 | `padStart` only puts fill characters in front of the unchanged text |
| JsText.TrimStart | projects/ngx-kel-agent/src/lib/agent.service.ts:179 | `parseInt` strips a white-space prefix and stops at the first other character |
| JsText.DigitPrefix | projects/ngx-kel-agent/src/lib/agent.service.ts:179 | `parseInt` reads the longest digit prefix, with a non-digit or the end after it |
| JsText.ParseDigits | projects/ngx-kel-agent/src/lib/agent.service.ts:179 | an unsigned digit run never parses negative |
| JsText.ToFixed1 | projects/ngx-kel-agent/src/lib/wsjtx.service.ts:264-265 | `toFixed(1)` ends with a point and the tenths digit; it starts with a minus sign exactly when the value is negative, and has no other minus sign; between the sign and the point stand the digits of the truncated magnitude, with no leading zero |
| JsText.TrimStartAfterWhiteSpace | projects/ngx-kel-agent/src/lib/agent.service.ts:179 | trimming removes exactly a white-space prefix |
| JsText.DigitPrefixOfNumeral | projects/ngx-kel-agent/src/lib/agent.service.ts:179 | a digit run followed by a non-digit is the digit prefix |
| JsText.ParseIntSkipsWhiteSpace | projects/ngx-kel-agent/src/lib/agent.service.ts:179 | leading white space does not change what `parseInt` reads |
| JsText.ParseSignedNumeral | projects/ngx-kel-agent/src/lib/agent.service.ts:179 | an optionally signed digit run followed by a non-digit parses to its signed value |
| JsText.ParseIntOfNumeral | projects/ngx-kel-agent/src/lib/agent.service.ts:179 | white space, a sign and the decimal text of n, followed by anything but a digit, parse to ±n |
| JsText.ParseIntOfIntToString | projects/ngx-kel-agent/src/lib/agent.service.ts:179-183 | `parseInt` inverts integer `toString` after any white-space prefix |
| JsText.ToFixed1Reads | projects/ngx-kel-agent/src/lib/wsjtx.service.ts:264-265 | `parseInt` of a `toFixed(1)` text gives the value truncated toward zero |
| WsjtxFormat.ClockFields | projects/ngx-kel-agent/src/lib/wsjtx.service.ts:273-277 | the floor arithmetic gives minutes and seconds below 60 that, together with hours, count the whole seconds of `time` |
| WsjtxFormat.ClockFieldsWithinDay | projects/ngx-kel-agent/src/lib/wsjtx.service.ts:273-275 | within a day the hours are 0 to 23 |
| WsjtxFormat.Pad2 | projects/ngx-kel-agent/src/lib/wsjtx.service.ts:278-280 | a zero-padded field is at least two characters wide |
| WsjtxFormat.Pad2Digits | projects/ngx-kel-agent/src/lib/wsjtx.service.ts:278-280 | a value 0 to 99 pads to exactly two digits that read back as the value |
| WsjtxFormat.FormatTime | projects/ngx-kel-agent/src/lib/wsjtx.service.ts:272-281 | the time text is at least six characters |
| WsjtxFormat.TimeLayout | projects/ngx-kel-agent/src/lib/wsjtx.service.ts:278-280 | three two-digit fields in a row sit at offsets 0, 2 and 4 |
| WsjtxFormat.FormatTimeWithinDay | projects/ngx-kel-agent/src/lib/wsjtx.service.ts:272-281 | within a day the text is six digits HHMMSS with hours below 24, minutes and seconds below 60, and h·3600+m·60+s equal to the whole seconds since midnight |
| WsjtxFormat.FormatTimeSixWide | projects/ngx-kel-agent/src/lib/wsjtx.service.ts:272-281 | within a day the text is exactly six characters |
| WsjtxFormat.FormatTimeExample | projects/ngx-kel-agent/src/lib/wsjtx.service.ts:272-281 | 3723000 ms renders as `010203` |
| WsjtxFormat.FormatDecodeEndsWithMessage | projects/ngx-kel-agent/src/lib/wsjtx.service.ts:262-269 | every decode line ends with ` ~  ` and the message text verbatim |
| WsjtxFormat.IntColumnReads | projects/ngx-kel-agent/src/lib/wsjtx.service.ts:264-266 | a space and a padded integer column read back as the integer |
| WsjtxFormat.TenthsColumnReads | projects/ngx-kel-agent/src/lib/wsjtx.service.ts:264-265 | the ΔT column reads back as its integer part |
| WsjtxFormat.IntColumnWidth | projects/ngx-kel-agent/src/lib/wsjtx.service.ts:264-266 | an integer that fits the width fills its column exactly |
| WsjtxFormat.ColumnPrefix | projects/ngx-kel-agent/src/lib/wsjtx.service.ts:264-266 | a column is a space and padding spaces before the unchanged text |
| WsjtxFormat.TenthsColumnShape | projects/ngx-kel-agent/src/lib/wsjtx.service.ts:264-265 | for ΔT from −9.9 to 99.9 the column is five characters, with the point and the tenths digit last and a minus sign exactly when negative |
| WsjtxFormat.DecodeLayout | projects/ngx-kel-agent/src/lib/wsjtx.service.ts:264-268 | fixed-width parts sit at offsets 0, 6, 10, 15, 20 and 24 of the line |
| WsjtxFormat.FormatDecodeColumns | projects/ngx-kel-agent/src/lib/wsjtx.service.ts:262-269 | for values that fit their columns, the line is `HHMMSS SNR ΔT ΔF ~  MESSAGE` at fixed offsets, and each numeric column reads back as its value |
| WsjtxFormat.SnrColumnExample | projects/ngx-kel-agent/src/lib/wsjtx.service.ts:264 | −5 renders as the SNR column `  -5` |
| WsjtxFormat.DeltaTimeColumnExample | projects/ngx-kel-agent/src/lib/wsjtx.service.ts:264-265 | 0.3 renders as the ΔT column `  0.3` |
| WsjtxFormat.FrequencyColumnExample | projects/ngx-kel-agent/src/lib/wsjtx.service.ts:266 | 1234 renders as the ΔF column ` 1234` |
| WsjtxFormat.ExampleLineJoins | projects/ngx-kel-agent/src/lib/wsjtx.service.ts:264-268 | the example's parts join into the example line |
| WsjtxFormat.FormatDecodeExample | projects/ngx-kel-agent/src/lib/wsjtx.service.ts:262-269 | a decode at 01:02:03 with SNR −5, ΔT 0.3, ΔF 1234 and `CQ KEL` renders as `010203  -5  0.3 1234 ~  CQ KEL`, whatever its other fields |
| Wsjtx.KindOf | projects/ngx-kel-agent/src/lib/wsjtx.service.ts:78-103 | the switch selects a kind exactly when the type is that kind's wire name, so no other string is dispatched |
| Wsjtx.Encode | projects/ngx-kel-agent/src/lib/wsjtx.service.ts:107-258 | each command's envelope type and payload: windows 0/1/2 for the clears, `autoTxOnly` for the halts, the eight fields the reply copies, with no modifiers; every payload carries the last-seen id except a reply, which carries the decode's id |
| Wsjtx.EncodedCommandRoutes | projects/ngx-kel-agent/src/lib/wsjtx.service.ts:73-103 | an encoded command fed back to the router passes its guard and names its addressee; it is dispatched exactly when it is one of the three clears, and then to the Clear stream |
| Wsjtx.WsjtxService.constructor | projects/ngx-kel-agent/src/lib/wsjtx.service.ts:29-70 | the channel starts down, with no snapshots, id `WSJT-X`, and the debounce armed 15000 ms out |
| Wsjtx.WsjtxService.EmitConnected | projects/ngx-kel-agent/src/lib/wsjtx.service.ts:56-69 | an emission re-arms the debounce, and `false` clears both snapshots |
| Wsjtx.WsjtxService.HandleMessage | projects/ngx-kel-agent/src/lib/wsjtx.service.ts:72-104 | a rejected frame changes nothing. An accepted frame: records its id; leaves the channel up unless it is a Close; re-arms the debounce; replaces the matching snapshot (a Close clears both); appends exactly the event kinds to the log. Liveness and clearing are preserved |
| Wsjtx.WsjtxService.Dispatch | projects/ngx-kel-agent/src/lib/wsjtx.service.ts:76-103 | for an accepted payload and its kind: the id is recorded, and the channel is up unless the kind is Close. Heartbeat and Status replace their snapshot, a Close clears both, and exactly the six event kinds are logged |
| Wsjtx.WsjtxService.Tick | projects/ngx-kel-agent/src/lib/wsjtx.service.ts:56-58 | at the deadline the channel goes down, cleared and re-armed; before it nothing changes; id, events and outbox never change |
| Wsjtx.WsjtxService.Send | projects/ngx-kel-agent/src/lib/wsjtx.service.ts:107-258 | a command pushes exactly its envelope, addressed with the current id |
| Wsjtx.WsjtxService.ClearBandActivity | projects/ngx-kel-agent/src/lib/wsjtx.service.ts:107-115 | pushes a Clear of window 0 to the last-seen id |
| Wsjtx.WsjtxService.ClearRxFreqWindow | projects/ngx-kel-agent/src/lib/wsjtx.service.ts:118-126 | pushes a Clear of window 1 to the last-seen id |
| Wsjtx.WsjtxService.ClearAll | projects/ngx-kel-agent/src/lib/wsjtx.service.ts:129-137 | pushes a Clear of window 2 to the last-seen id |
| Wsjtx.WsjtxService.Replay | projects/ngx-kel-agent/src/lib/wsjtx.service.ts:141-149 | pushes a Replay to the last-seen id |
| Wsjtx.WsjtxService.HaltTxNow | projects/ngx-kel-agent/src/lib/wsjtx.service.ts:152-160 | pushes a HaltTx with `autoTxOnly` false |
| Wsjtx.WsjtxService.HaltTxAfterCurrent | projects/ngx-kel-agent/src/lib/wsjtx.service.ts:163-171 | pushes a HaltTx with `autoTxOnly` true |
| Wsjtx.WsjtxService.Reply | projects/ngx-kel-agent/src/lib/wsjtx.service.ts:174-191 | pushes a Reply copied from the decode and addressed to the decode's id |
| Wsjtx.WsjtxService.HighlightCallsign | projects/ngx-kel-agent/src/lib/wsjtx.service.ts:194-203 | the caller's record is stamped with the last-seen id and pushed |
| Wsjtx.WsjtxService.SendFreeText | projects/ngx-kel-agent/src/lib/wsjtx.service.ts:208-217 | the caller's record is stamped with the last-seen id and pushed |
| Wsjtx.WsjtxService.SetLocation | projects/ngx-kel-agent/src/lib/wsjtx.service.ts:221-232 | pushes a Location with the grid to the last-seen id |
| Wsjtx.WsjtxService.SwitchConfiguration | projects/ngx-kel-agent/src/lib/wsjtx.service.ts:235-246 | pushes a SwitchConfiguration with the name to the last-seen id |
| Wsjtx.WsjtxService.Configure | projects/ngx-kel-agent/src/lib/wsjtx.service.ts:249-258 | the caller's record is stamped with the last-seen id and pushed |
| Hamlib.HamlibService.constructor | projects/ngx-kel-agent/src/lib/hamlib.service.ts:12-16 | the channel starts down, with no rig state and no behaviours installed |
| Hamlib.HamlibService.SetupBehaviors | projects/ngx-kel-agent/src/lib/hamlib.service.ts:18-29 | the first call arms the debounce and clears the rig state if the channel is down; later calls change nothing; liveness and clearing hold from then on |
| Hamlib.HamlibService.HandleMessage | projects/ngx-kel-agent/src/lib/hamlib.service.ts:31-38 | any frame marks the channel up and re-arms the debounce if it is installed; a `RigState` frame replaces the snapshot and other types leave it |
| Hamlib.HamlibService.Tick | projects/ngx-kel-agent/src/lib/hamlib.service.ts:20-28 | once set up, reaching the deadline takes the channel down, clears the rig state and re-arms; otherwise nothing changes |
| Agent.HostOf | projects/ngx-kel-agent/src/lib/agent.service.ts:167-171 | the stored host if it is present and non-empty, otherwise `localhost`; never empty |
| Agent.PortOf | projects/ngx-kel-agent/src/lib/agent.service.ts:174-184 | 8081 if no port is stored or it does not parse; otherwise what `parseInt` reads |
| Agent.SocketUrlIsSecureUnlessLocalhost | projects/ngx-kel-agent/src/lib/agent.service.ts:141-144 | the URL starts with `ws://` exactly when the host is `localhost`, and with `wss://` exactly when it is not |
| Agent.SocketUrlNamesAgent | projects/ngx-kel-agent/src/lib/agent.service.ts:141-144 | after the scheme the URL holds the host, a colon and a port that reads back with `parseInt` |
| Agent.SocketUrlPath | projects/ngx-kel-agent/src/lib/agent.service.ts:143 | the URL ends in `/websocket` |
| Agent.UrlLayout | projects/ngx-kel-agent/src/lib/agent.service.ts:143 | the parts of the URL sit where they were concatenated |
| Agent.PortFieldReads | projects/ngx-kel-agent/src/lib/agent.service.ts:143 | the port text followed by the path reads back as the port |
| Agent.PortRoundTrip | projects/ngx-kel-agent/src/lib/agent.service.ts:174-196 | `getPort` after `setPort(p)` gives p back |
| Agent.HostRoundTrip | projects/ngx-kel-agent/src/lib/agent.service.ts:167-190 | `getHost` after `setHost(h)` gives h back, or `localhost` when h is empty |
| Agent.AgentService.constructor | projects/ngx-kel-agent/src/lib/agent.service.ts:98-106 | the defaults, no socket, no subscription and the flag down |
| Agent.AgentService.Connect | projects/ngx-kel-agent/src/lib/agent.service.ts:135-164 | re-reads host and port; builds the URL; the previous subscription is no longer live and only the new one is; the flag goes up; nothing is pending |
| Agent.AgentService.Unsubscribe | projects/ngx-kel-agent/src/lib/agent.service.ts:136-138 | cancelling the held subscription leaves none live and no reopening pending |
| Agent.AgentService.Subscribe | projects/ngx-kel-agent/src/lib/agent.service.ts:141-146 | the socket subject is created for the host and port; the flag goes up; exactly one new subscription is live |
| Agent.AgentService.Init | projects/ngx-kel-agent/src/lib/agent.service.ts:127-132 | leaves the state `connect` leaves |
| Agent.AgentService.SetHost | projects/ngx-kel-agent/src/lib/agent.service.ts:187-190 | stores the host and reconnects to it, or to `localhost` when it is empty, keeping the stored port |
| Agent.AgentService.SetPort | projects/ngx-kel-agent/src/lib/agent.service.ts:193-196 | stores `String(port)` and reconnects on exactly that port, keeping the stored host |
| Agent.AgentService.Send | projects/ngx-kel-agent/src/lib/agent.service.ts:198-200 | the envelope is forwarded when a socket subject exists and dropped otherwise |
| Agent.AgentService.SocketFrame | projects/ngx-kel-agent/src/lib/agent.service.ts:157-160 | a frame sets the flag and is forwarded unchanged, after the earlier ones |
| Agent.AgentService.SocketError | projects/ngx-kel-agent/src/lib/agent.service.ts:148-153 | an error sets the flag down and schedules one reopening |
| Agent.AgentService.RetryElapsed | projects/ngx-kel-agent/src/lib/agent.service.ts:148-153 | the reopening reuses the live subscription and leaves the flag alone |
| Agent.AgentService.SocketComplete | projects/ngx-kel-agent/src/lib/agent.service.ts:162 | completion sets the flag down and leaves no live subscription |
| Agent.AtMostOneLive | projects/ngx-kel-agent/src/lib/agent.service.ts:135-146 | never two live subscriptions at once |
| Scenarios.SilenceFromStart | projects/ngx-kel-agent/src/lib/wsjtx.service.ts:53-69 | with no frame, after 15 s both channels are down with no snapshots |
| Scenarios.HeartbeatArrives | projects/ngx-kel-agent/src/lib/wsjtx.service.ts:72-81 | a heartbeat through the socket brings WSJT-X up with that snapshot, makes later commands go to its id, and leaves Hamlib down |
| Scenarios.SilenceAfterHeartbeat | projects/ngx-kel-agent/src/lib/wsjtx.service.ts:56-69 | 16 s after the heartbeat the channel is down and cleared, and the last-seen id is kept |
| Scenarios.RepeatedHeartbeat | projects/ngx-kel-agent/src/lib/wsjtx.service.ts:76-80 | the same heartbeat twice, 10 s apart, keeps the channel up and the snapshot unchanged |
| Scenarios.ErrorMidSession | projects/ngx-kel-agent/src/lib/agent.service.ts:145-162 | an error mid-session sets the flag down and reopens on the same subscription |

## Left out

- RxJS subjects and the scheduler are reduced to their effects. A snapshot is the last value its `ReplaySubject` would replay, and the event streams are one appended log. Repeated emissions (a `null` re-sent to snapshot subscribers) and emission timing within one step are not recorded.
- The 10-second retry delay is an event, `RetryElapsed`, not a timed wait. The Agent socket has no clock.
- The `error` callback of `connect` (agent.service.ts line 161) is not an event of its own: the `retryWhen` notifier never errors, so socket errors reach only the retry tap.
- Socket-level behaviour (buffering of sends before the socket opens, the wire JSON) is not modelled. `Send` records what is handed to the socket subject.
- Wiring between the services is left out: the subscription to `rxMessage$` and `txMessage$` and Angular's dependency injection. The scenarios call the methods directly. Each call of `init` adds one more subscriber that forwards outbound messages. The model does not count them.
- `HamlibService` is never fed frames or set up by the rest of the library. The model lets callers do both.
- The deprecated aliases in agent.service.ts (lines 28-96, 113-124, 202-282) are not part of this model.
- messages.ts, agent-message.service.ts and the spec files are not part of this model. The message records are modelled only as far as the core reads or writes their fields.
- Floating point is not modelled:
  - ΔT is held in integer tenths, so `toFixed(1)` is exact and its rounding of other values is not modelled;
  - times and frequencies are integers;
  - `parseInt` has unbounded precision, no exponent forms and no `-0`.
- Browser storage is a map. Storage being unavailable or throwing is not modelled.
- Type errors are not modelled:
  - `handleMessage` reading `payload.id` from a missing payload;
  - Hamlib's `handleMessage` on a frame without a `hamlib` part, where the source throws. It is a precondition here;
  - a `type` that is a truthy non-string.
- Wsjtx.WsjtxService.HighlightCallsign: the source overwrites the caller's record in place, and the queued envelope aliases it, so later changes by the caller would change what is sent. The model returns the stamped record and queues a copy.
- Wsjtx.WsjtxService.SendFreeText: same aliasing as HighlightCallsign, not modelled.
- Wsjtx.WsjtxService.Configure: same aliasing as HighlightCallsign, not modelled.
- WsjtxFormat.FormatDecodeColumns: states the fixed layout only for values that fit their columns. Wider values shift the later columns, which only FormatDecodeEndsWithMessage covers.
