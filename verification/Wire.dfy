/** The envelopes exchanged between the signaling service, the devices and the
    browsers, and the small result types shared by the rest of the model. */
module Wire {

  datatype Option<+T> = None | Some(value: T)

  /** The `type` field of an envelope. `Other` is any string the service does not know. */
  datatype Kind =
    | Hello
    | Ping
    | Pong
    | SessionOpen
    | SessionRequest
    | SessionReady
    | SessionOffer
    | SessionAnswer
    | SessionCandidate
    | SessionEnd
    | Other(name: string)

  /** One JSON frame. An empty `sid` is an absent session_id; `data` stays undecoded. */
  datatype Envelope = Envelope(kind: Kind, sid: string, data: string)

  /** What a browser may have forwarded to its device. */
  predicate ForwardedFromBrowser(kind: Kind) {
    kind.SessionAnswer? || kind.SessionCandidate? || kind.SessionEnd?
  }

  /** What a device may have forwarded to a browser. */
  predicate ForwardedFromDevice(kind: Kind) {
    kind.SessionOffer? || kind.SessionAnswer? || kind.SessionCandidate? || kind.SessionEnd?
  }

  // ---- The envelopes the service makes ----

  const HELLO := Envelope(Hello, "", "")
  const PONG := Envelope(Pong, "", "")

  function RequestEnvelope(id: string, kind: string): Envelope {
    Envelope(SessionRequest, id, kind)
  }

  function ReadyEnvelope(id: string): Envelope {
    Envelope(SessionReady, id, id)
  }

  function EndEnvelope(id: string, reason: string): Envelope {
    Envelope(SessionEnd, id, reason)
  }

  // ---- Reasons and errors ----

  const BAD_OPENER := "expected session.open first"
  const BAD_OPEN_DATA := "invalid session.open data"
  const DEVICE_OFFLINE := "device offline"
  const QUEUE_FULL := "device outbound queue full"
  const DEVICE_UNREACHABLE := "device unreachable"
  const BROWSER_CLOSED := "browser closed"
  const DEVICE_ENDED := "device ended session"
  const DEVICE_DISCONNECTED := "device disconnected"
  const UNKNOWN_SESSION := "unknown session"
}
