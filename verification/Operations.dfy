/** open, close, fromBrowser and fromDevice as whole operations, as they are when no other handler comes
    between their regions: what they make of the table, of the queue of the device's connection, and
    of the browser's queue and context. Generic in the pointers, like the regions. */
module Operations {
  import opened Wire
  import opened Regions

  /** What a session's open and close work on; without a connection the device is offline. */
  datatype Scene<S> = Scene(
    table: map<string, S>,
    device: Option<seq<Envelope>>,
    browser: seq<Envelope>,
    cancelled: bool)

  /** The session is out of the table, both sides have been offered its end, the browser is cancelled. */
  function Closed<S>(v: Scene<S>, id: string, reason: string): Scene<S> {
    var end := Envelope(SessionEnd, id, reason);
    Scene(Removed(v.table, id),
          if v.device.None? then None else Some(Offer(v.device.value, end)),
          Offer(v.browser, end),
          true)
  }

  function ClosedIfOpen<S>(v: Scene<S>, id: string, reason: string): Scene<S> {
    if id in v.table then Closed(v, id, reason) else v
  }

  function OpenError<S>(v: Scene<S>): Option<string> {
    if v.device.None? then Some("device offline")
    else if HasRoom(v.device.value) then None
    else Some("device outbound queue full")
  }

  /** The session is in the table and its request on the device's queue. */
  function Opened<S>(v: Scene<S>, id: string, kind: string, session: S): Scene<S>
    requires OpenError(v).None?
  {
    v.(table := Inserted(v.table, id, session), device := Some(v.device.value + [Envelope(SessionRequest, id, kind)]))
  }

  /** Nothing, when the device is offline; when its queue is full, the browser has been offered the end
      of the session it does not have, and is cancelled. */
  function NotOpened<S>(v: Scene<S>, id: string): Scene<S>
    requires OpenError(v).Some?
  {
    if v.device.None? then v
    else v.(browser := Offer(v.browser, Envelope(SessionEnd, id, "device unreachable")), cancelled := true)
  }

  /** What a browser sends goes to the device, under the session's id, if the session is in the table
      and the device online. */
  function Forwarded<S>(v: Scene<S>, id: string, env: Envelope): Scene<S> {
    if id !in v.table || v.device.None? then v
    else v.(device := Some(Offer(v.device.value, Envelope(env.kind, id, env.data))))
  }

  /** What a device sends for its own session goes to the browser; a session.end then closes the session. */
  function Relayed<S>(v: Scene<S>, env: Envelope): Scene<S> {
    var offered := v.(browser := Offer(v.browser, env));
    if env.kind == SessionEnd then ClosedIfOpen(offered, env.sid, "device ended session") else offered
  }
}
