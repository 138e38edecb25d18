/**
 * The WSJT-X message records exchanged with the agent, one datatype per record.
 * Numbers are integers; `deltaTime` is an integer count of tenths of a second, and the
 * date-times of a logged QSO are the ISO texts that arrive in the JSON.
 */
module WsjtxMessages {
  import opened Wrappers

  datatype WsjtxHeartbeat = WsjtxHeartbeat(
    id: string, maxSchemaVersion: int, revision: string, version: string)

  datatype WsjtxStatus = WsjtxStatus(
    configName: string, deCall: string, deGrid: string, decoding: bool, dialFrequency: int,
    dxCall: string, dxGrid: string, fastMode: bool, frequencyTolerance: int, id: string,
    mode: string, report: string, rxDeltaFreq: int, specialMode: int, submode: string,
    transmitting: bool, txDeltaFreq: int, txEnabled: bool, txMode: string, txRxPeriod: int,
    txWatchdog: bool, txMessage: string)

  datatype WsjtxDecode = WsjtxDecode(
    deltaFrequency: int, deltaTime: int, id: string, lowConfidence: bool, message: string,
    mode: string, isNew: bool, offAir: bool, snr: int, time: int)

  /** `window`: 0 is Band Activity, 1 is Rx Frequency, 2 is both. */
  datatype WsjtxClear = WsjtxClear(id: string, window: int)

  /** `modifiers` is absent (`None`) when the sender leaves it out. */
  datatype WsjtxReply = WsjtxReply(
    id: string, time: int, snr: int, deltaTime: int, deltaFrequency: int, mode: string,
    message: string, lowConfidence: bool, modifiers: Option<int>)

  datatype WsjtxQsoLogged = WsjtxQsoLogged(
    comments: string, dateTimeOff: string, dateTimeOn: string, dxCall: string, dxGrid: string,
    exchangeReceived: string, exchangeSent: string, mode: string, myCall: string,
    myGrid: string, name: string, operatorCall: string, reportReceived: string,
    reportSent: string, txFrequency: int, txPower: string, id: string, propagationMode: string)

  datatype WsjtxClose = WsjtxClose(id: string)

  datatype WsjtxReplay = WsjtxReplay(id: string)

  /** `autoTxOnly` false halts at once; true only stops transmitting after the current round. */
  datatype WsjtxHaltTx = WsjtxHaltTx(id: string, autoTxOnly: bool)

  datatype WsjtxFreeText = WsjtxFreeText(id: string, text: string, send: bool)

  datatype WsjtxWsprDecode = WsjtxWsprDecode(
    id: string, isNew: bool, time: int, snr: int, deltaTime: int, frequency: int, drift: int,
    callsign: string, grid: string, power: int, offAir: bool)

  datatype WsjtxLocation = WsjtxLocation(id: string, location: string)

  datatype WsjtxLoggedAdif = WsjtxLoggedAdif(id: string, adif: string)

  datatype WsjtxHighlightCallsign = WsjtxHighlightCallsign(
    id: string, callsign: string, backgroundColor: string, foregroundColor: string,
    highlightLast: bool, reset: bool)

  datatype WsjtxSwitchConfiguration = WsjtxSwitchConfiguration(id: string, configurationName: string)

  datatype WsjtxConfigure = WsjtxConfigure(
    id: string, mode: string, frequencyTolerance: int, submode: string, fastMode: bool,
    trPeriod: int, rxDF: int, dxCall: string, dxGrid: string, generateMessages: bool)

  /**
   * The `payload` of a WSJT-X envelope: any of the records above, or a record of a kind
   * this library does not know, of which only its `id` is of interest.
   */
  datatype Payload =
    | HeartbeatPayload(heartbeat: WsjtxHeartbeat)
    | StatusPayload(status: WsjtxStatus)
    | DecodePayload(decode: WsjtxDecode)
    | ClearPayload(clear: WsjtxClear)
    | ReplyPayload(reply: WsjtxReply)
    | QsoLoggedPayload(qsoLogged: WsjtxQsoLogged)
    | ClosePayload(close: WsjtxClose)
    | ReplayPayload(replay: WsjtxReplay)
    | HaltTxPayload(haltTx: WsjtxHaltTx)
    | FreeTextPayload(freeText: WsjtxFreeText)
    | WsprDecodePayload(wsprDecode: WsjtxWsprDecode)
    | LocationPayload(location: WsjtxLocation)
    | LoggedAdifPayload(loggedAdif: WsjtxLoggedAdif)
    | HighlightCallsignPayload(highlightCallsign: WsjtxHighlightCallsign)
    | SwitchConfigurationPayload(switchConfiguration: WsjtxSwitchConfiguration)
    | ConfigurePayload(configure: WsjtxConfigure)
    | UnrecognisedPayload(unknownId: string)
  {
    /** `payload.id`, the WSJT-X client name every record carries. */
    function Id(): string {
      match this
      case HeartbeatPayload(r) => r.id
      case StatusPayload(r) => r.id
      case DecodePayload(r) => r.id
      case ClearPayload(r) => r.id
      case ReplyPayload(r) => r.id
      case QsoLoggedPayload(r) => r.id
      case ClosePayload(r) => r.id
      case ReplayPayload(r) => r.id
      case HaltTxPayload(r) => r.id
      case FreeTextPayload(r) => r.id
      case WsprDecodePayload(r) => r.id
      case LocationPayload(r) => r.id
      case LoggedAdifPayload(r) => r.id
      case HighlightCallsignPayload(r) => r.id
      case SwitchConfigurationPayload(r) => r.id
      case ConfigurePayload(r) => r.id
      case UnrecognisedPayload(id) => id
    }
  }
}
