/** The session broker and the presence table as one interleaved step machine.

    Any number of browser handlers and device handlers run at once. Each locked
    region and each channel push of the source is one step, so a step of any other
    handler may come between two of them. A handler's position in its code is its
    program counter. A session object is named by the number of the browser
    handler that allocated it, a device connection by the number of its handler. */
module Machine {
  import opened Wire
  import opened Regions

  /** A thread: browser handler `B(h)` or device handler `D(c)`. */
  datatype Thread = B(h: nat) | D(c: nat)

  // ---- Histories (kept for the proofs; no step depends on them, but for the freshness of a drawn id) ----

  /** Who pushed an envelope, and why. */
  datatype Origin =
    | Greeting                                     // hello, by the device handler
    | Heartbeat                                    // pong, by the device handler
    | Rejection                                    // session.end without an id, by the browser handler
    | Ready                                        // session.ready, by the browser handler
    | Requested(h: nat)                            // session.request, by open
    | Ended(h: nat)                                // session.end, by close
    | Carried(src: Thread, i: nat, gotAt: nat)     // the i-th envelope `src` received, looked up at step gotAt

  /** An envelope on a queue, with its origin and the number of the step that pushed it. */
  datatype Item = Item(env: Envelope, origin: Origin, at: nat)

  /** An outbound queue with its whole past. */
  datatype Channel = Channel(pending: seq<Item>, enqueued: seq<Item>, dequeued: seq<Item>)

  /** What became of an envelope received by a read loop. */
  datatype Fate =
    | Ignored                             // not a session envelope, or no session id
    | Unrouted(at: nat)                   // the lookup of the session failed
    | Offline(at: nat, gotAt: nat)        // the session was found at step gotAt, its device was not
    | Enqueued(to: Thread, k: nat)        // pushed, as number k of that queue
    | Dropped(to: Thread, at: nat, gotAt: nat) // found at step gotAt, not pushed at step `at`, the queue being full

  /** How far the tearing down of a session has come: 1 once marked and deleted, 2 once
      the device, 3 once the browser has been offered session.end, 4 once cancelled. */
  datatype Teardown = Live | Torn(closer: Thread, at: nat, stage: nat)

  /** When session.request was pushed: step `at`, as number k of connection c's queue. */
  datatype Request = Request(at: nat, c: nat, k: nat)

  /** A session object. `closed` is the field the source tests; the last four are histories. */
  datatype Session = Session(id: string, dev: string, closed: bool,
                             insertedAt: nat, requested: Option<Request>, teardown: Teardown, cancels: nat)

  /** The id-collection step of one closeByDevice. */
  datatype Collection = Collection(at: nat, ids: set<string>)

  // ---- Program counters ----

  /** handleSessionWS, with open and fromBrowser. */
  datatype BrowserPC =
    | Start
    | CheckOnline(dev: string, kind: string)
    | Insert(dev: string, kind: string)
    | RequestLookup(kind: string)
    | RequestPush(kind: string, c: nat)
    | Reject(reason: string)
    | SayReady
    | Loop
    | FwdGet(env: Envelope)
    | FwdLookup(env: Envelope, h: nat, gotAt: nat)
    | FwdPush(env: Envelope, c: nat, gotAt: nat)
    | Leaving
    | Gone

  /** handleDeviceWS, with fromDevice and the loop of closeByDevice. */
  datatype DevicePC =
    | Join
    | SayHello
    | Serve
    | SayPong
    | RelayGet(env: Envelope)
    | RelayPush(env: Envelope, h: nat, gotAt: nat)
    | CollectIds
    | EndNext(todo: set<string>)
    | Part
    | Parted
    | Off

  /** sessionBroker.close. */
  datatype Stage =
    | Mark(id: string)
    | Lookup(h: nat)
    | PushDevice(h: nat, c: nat)
    | PushBrowser(h: nat)
    | Cancel(h: nat)

  /** The callers of sessionBroker.close. */
  datatype Why = FailedOpen(err: string) | BrowserGone | DeviceEnded | DeviceGone(todo: set<string>)

  datatype PC = AtBrowser(b: BrowserPC) | AtDevice(d: DevicePC) | Closing(stage: Stage, why: Why)

  datatype State = State(
    now: nat,                              // number of steps taken
    table: map<string, nat>,               // sessionBroker.sessions
    conns: map<string, nat>,               // presence.conns
    objs: map<nat, Session>,               // every session object ever allocated
    cdev: map<nat, string>,                // the device each connection authenticated as
    pc: map<Thread, PC>,
    q: map<Thread, Channel>,               // browserOut and deviceConn.out
    cancelled: set<Thread>,                // contexts
    writerDone: set<Thread>,
    recv: map<Thread, seq<Envelope>>,      // received by the read loops
    fates: map<Thread, seq<Fate>>,
    used: set<string>,                     // ids ever inserted
    collect: map<nat, Collection>,         // by connection
    lastOut: map<string, nat>)             // the connection last taken out of `conns`, by device

  const INITIAL := State(0, map[], map[], map[], map[], map[], map[], {}, {}, map[], map[], {}, map[], map[])

  // ---- Effects: the atomic regions ----

  datatype Effect =
    | Quiet
    | InsertSession(id: string, dev: string)
    | PushRequest(c: nat, kind: string)
    | PushOwn(env: Envelope, origin: Origin)
    | Receive(env: Envelope)
    | Skip(env: Envelope)
    | Lose(fate: Fate)
    | Carry(to: Thread, env: Envelope, gotAt: nat)
    | Register
    | Unregister
    | Collect
    | Delete(id: string)
    | DeviceOffline(h: nat)
    | TellDevice(h: nat, c: nat, reason: string)
    | TellBrowser(h: nat, reason: string)
    | CancelSession(h: nat)
    | CancelSelf

  const NEW_CHANNEL := Channel([], [], [])
  predicate Room(s: State, t: Thread)
    requires t in s.q
  {
    HasRoom(s.q[t].pending)
  }

  function OfferItem(ch: Channel, item: Item): Channel {
    if HasRoom(ch.pending)
    then Channel(Offer(ch.pending, item), ch.enqueued + [item], ch.dequeued)
    else ch
  }

  /** The fate of a carried envelope at its push. */
  function PushFate(s: State, t: Thread, gotAt: nat): Fate
    requires t in s.q
  {
    if Room(s, t) then Enqueued(t, |s.q[t].enqueued|) else Dropped(t, s.now, gotAt)
  }

  /** Session h with its teardown at another stage. */
  function AtStage(o: Session, stage: nat): Session {
    match o.teardown
    case Live => o
    case Torn(closer, at, _) => o.(teardown := Torn(closer, at, stage))
  }

  predicate Performable(s: State, t: Thread, e: Effect) {
    t in s.q && t in s.recv && t in s.fates &&
    match e
    case InsertSession(_, _) => t.B?
    case PushRequest(c, _) => t.B? && t.h in s.objs && D(c) in s.q
    case Carry(to, _, _) => to in s.q
    case Register => t.D? && t.c in s.cdev
    case Unregister => t.D? && t.c in s.cdev
    case Collect => t.D? && t.c in s.cdev && forall id :: id in s.table ==> s.table[id] in s.objs
    case Delete(id) => id in s.table && s.table[id] in s.objs
    case DeviceOffline(h) => h in s.objs
    case TellDevice(h, c, _) => h in s.objs && D(c) in s.q
    case TellBrowser(h, _) => h in s.objs && B(h) in s.q
    case CancelSession(h) => h in s.objs
    case _ => true
  }

  function IdsOf(s: State, dev: string): set<string>
    requires forall id :: id in s.table ==> s.table[id] in s.objs
  {
    Collected(s.table, h requires h in s.objs => s.objs[h].dev, dev)
  }

  // What an effect does to each component of the state.

  function TableAfter(s: State, t: Thread, e: Effect): map<string, nat>
    requires Performable(s, t, e)
  {
    if e.InsertSession? then Inserted(s.table, e.id, t.h)
    else if e.Delete? then Removed(s.table, e.id)
    else s.table
  }

  function UsedAfter(s: State, e: Effect): set<string> {
    if e.InsertSession? then s.used + {e.id} else s.used
  }

  /** The effects that change a session object. */
  predicate Touches(e: Effect) {
    e.InsertSession? || e.PushRequest? || e.Delete?
    || e.DeviceOffline? || e.TellDevice? || e.TellBrowser? || e.CancelSession?
  }

  function TouchedBy(s: State, t: Thread, e: Effect): nat
    requires Performable(s, t, e) && Touches(e)
  {
    if e.InsertSession? || e.PushRequest? then t.h
    else if e.Delete? then s.table[e.id]
    else e.h
  }

  function SessionAfter(s: State, t: Thread, e: Effect): Session
    requires Performable(s, t, e) && Touches(e)
  {
    if e.InsertSession? then Session(e.id, e.dev, false, s.now, None, Live, 0) else
    var o := s.objs[TouchedBy(s, t, e)];
    if e.PushRequest? then o.(requested := Some(Request(s.now, e.c, |s.q[D(e.c)].enqueued|)))
    else if e.Delete? then o.(closed := true, teardown := Torn(t, s.now, 1))
    else if e.TellBrowser? then AtStage(o, 3)
    else if e.CancelSession? then AtStage(o, 4).(cancels := o.cancels + 1)
    else AtStage(o, 2)
  }

  function ObjsAfter(s: State, t: Thread, e: Effect): map<nat, Session>
    requires Performable(s, t, e)
  {
    if Touches(e) then s.objs[TouchedBy(s, t, e) := SessionAfter(s, t, e)] else s.objs
  }

  function ConnsAfter(s: State, t: Thread, e: Effect): map<string, nat>
    requires Performable(s, t, e)
  {
    if e.Register? then Registered(s.conns, s.cdev[t.c], t.c)
    else if e.Unregister? then Unregistered(s.conns, s.cdev[t.c], t.c)
    else s.conns
  }

  function LastOutAfter(s: State, t: Thread, e: Effect): map<string, nat>
    requires Performable(s, t, e)
  {
    if e.Unregister? && s.cdev[t.c] in s.conns && s.conns[s.cdev[t.c]] == t.c
    then s.lastOut[s.cdev[t.c] := t.c]
    else s.lastOut
  }

  /** The contexts an effect cancels; registering kicks the stale connection. */
  function CancelledBy(s: State, t: Thread, e: Effect): set<Thread>
    requires Performable(s, t, e)
  {
    if e.Register? then (if s.cdev[t.c] in s.conns then {D(s.conns[s.cdev[t.c]])} else {})
    else if e.CancelSession? then {B(e.h)}
    else if e.CancelSelf? then {t}
    else {}
  }

  datatype Pushed = Pushed(to: Thread, env: Envelope, origin: Origin)

  predicate Pushes(e: Effect) {
    e.PushRequest? || e.PushOwn? || e.Carry? || e.TellDevice? || e.TellBrowser?
  }

  function PushOf(s: State, t: Thread, e: Effect): Pushed
    requires Performable(s, t, e) && Pushes(e)
  {
    if e.PushRequest? then Pushed(D(e.c), RequestEnvelope(s.objs[t.h].id, e.kind), Requested(t.h))
    else if e.PushOwn? then Pushed(t, e.env, e.origin)
    else if e.Carry? then Pushed(e.to, e.env, Carried(t, |s.fates[t]|, e.gotAt))
    else Pushed(if e.TellDevice? then D(e.c) else B(e.h), EndEnvelope(s.objs[e.h].id, e.reason), Ended(e.h))
  }

  function ChannelsAfter(s: State, t: Thread, e: Effect): map<Thread, Channel>
    requires Performable(s, t, e)
  {
    if !Pushes(e) then s.q else
    var push := PushOf(s, t, e);
    s.q[push.to := OfferItem(s.q[push.to], Item(push.env, push.origin, s.now))]
  }

  function RecvAfter(s: State, t: Thread, e: Effect): map<Thread, seq<Envelope>>
    requires Performable(s, t, e)
  {
    if e.Receive? || e.Skip? then s.recv[t := s.recv[t] + [e.env]] else s.recv
  }

  /** The effects that settle what becomes of a received envelope. */
  predicate Decides(e: Effect) {
    e.Skip? || e.Lose? || e.Carry?
  }

  function FateOf(s: State, t: Thread, e: Effect): Fate
    requires Performable(s, t, e) && Decides(e)
  {
    if e.Skip? then Ignored else if e.Lose? then e.fate else PushFate(s, e.to, e.gotAt)
  }

  function FatesAfter(s: State, t: Thread, e: Effect): map<Thread, seq<Fate>>
    requires Performable(s, t, e)
  {
    if Decides(e) then s.fates[t := s.fates[t] + [FateOf(s, t, e)]] else s.fates
  }

  function CollectAfter(s: State, t: Thread, e: Effect): map<nat, Collection>
    requires Performable(s, t, e)
  {
    if e.Collect? then s.collect[t.c := Collection(s.now, IdsOf(s, s.cdev[t.c]))] else s.collect
  }

  // ---- Plans: the control flow ----

  /** What a handler gets from outside at a step that depends on it. */
  datatype Input =
    | Tick
    | ReadError
    | BadMessage(reason: string)
    | OpenMessage(dev: string, kind: string)
    | Message(env: Envelope)
    | FreshId(id: string)
    | NextId(id: string)

  datatype Plan = Plan(next: PC, effect: Effect)

  /** The first message is not session.open, or its data name no device. */
  predicate BadOpen(input: Input) {
    input.BadMessage? && (input.reason == BAD_OPENER || input.reason == BAD_OPEN_DATA)
  }

  predicate BrowserReady(s: State, h: nat, b: BrowserPC, input: Input) {
    B(h) in s.q &&
    match b
    case Start => input.ReadError? || BadOpen(input) || (input.OpenMessage? && input.dev != "")
    case CheckOnline(_, _) => input.Tick?
    case Insert(_, _) => input.FreshId? && input.id != "" && input.id !in s.used
    case RequestLookup(_) => input.Tick? && h in s.objs
    case RequestPush(_, c) => input.Tick? && h in s.objs && D(c) in s.q
    case Reject(_) => input.Tick? && Room(s, B(h))
    case SayReady => input.Tick? && h in s.objs && Room(s, B(h))
    case Loop => (input.ReadError? || input.Message?) && h in s.objs
    case FwdGet(_) => input.Tick? && h in s.objs
    case FwdLookup(_, p, _) => input.Tick? && h in s.objs && p in s.objs
    case FwdPush(_, _, _) => input.Tick? && h in s.objs
    case Leaving => input.Tick? && B(h) in s.writerDone
    case Gone => false
  }

  /** Where the browser's read loop goes on after forwarding. */
  function AfterForward(id: string, env: Envelope): PC {
    if env.kind.SessionEnd? then Closing(Mark(id), BrowserGone) else AtBrowser(Loop)
  }

  function BrowserPlan(s: State, h: nat, b: BrowserPC, input: Input): Plan
    requires BrowserReady(s, h, b, input)
  {
    match b
    case Start =>
      if input.OpenMessage? then Plan(AtBrowser(CheckOnline(input.dev, input.kind)), Quiet)
      else if input.BadMessage? then Plan(AtBrowser(Reject(input.reason)), Quiet)
      else Plan(AtBrowser(Leaving), Quiet)
    case CheckOnline(dev, kind) =>
      Plan(AtBrowser(if dev in s.conns then Insert(dev, kind) else Reject(DEVICE_OFFLINE)), Quiet)
    case Insert(dev, kind) => Plan(AtBrowser(RequestLookup(kind)), InsertSession(input.id, dev))
    case RequestLookup(kind) =>
      var dev := s.objs[h].dev;
      if dev in s.conns then Plan(AtBrowser(RequestPush(kind, s.conns[dev])), Quiet)
      else Plan(Closing(Mark(s.objs[h].id), FailedOpen(DEVICE_OFFLINE)), Quiet)
    case RequestPush(kind, c) =>
      if Room(s, D(c)) then Plan(AtBrowser(SayReady), PushRequest(c, kind))
      else Plan(Closing(Mark(s.objs[h].id), FailedOpen(QUEUE_FULL)), Quiet)
    case Reject(reason) => Plan(AtBrowser(Leaving), PushOwn(EndEnvelope("", reason), Rejection))
    case SayReady => Plan(AtBrowser(Loop), PushOwn(ReadyEnvelope(s.objs[h].id), Ready))
    case Loop =>
      if input.ReadError? then Plan(Closing(Mark(s.objs[h].id), BrowserGone), Quiet)
      else if ForwardedFromBrowser(input.env.kind) then Plan(AtBrowser(FwdGet(input.env)), Receive(input.env))
      else Plan(AtBrowser(Loop), Skip(input.env))
    case FwdGet(env) =>
      var id := s.objs[h].id;
      if id in s.table then Plan(AtBrowser(FwdLookup(env, s.table[id], s.now)), Quiet)
      else Plan(AfterForward(id, env), Lose(Unrouted(s.now)))
    case FwdLookup(env, p, gotAt) =>
      var dev := s.objs[p].dev;
      if dev in s.conns then Plan(AtBrowser(FwdPush(env, s.conns[dev], gotAt)), Quiet)
      else Plan(AfterForward(s.objs[h].id, env), Lose(Offline(s.now, gotAt)))
    case FwdPush(env, c, gotAt) =>
      var id := s.objs[h].id;
      Plan(AfterForward(id, env), Carry(D(c), env.(sid := id), gotAt))
    case _ => Plan(AtBrowser(Gone), CancelSelf)
  }

  predicate DeviceReady(s: State, c: nat, d: DevicePC, input: Input) {
    D(c) in s.q && c in s.cdev &&
    match d
    case Join => input.Tick?
    case SayHello => input.Tick? && Room(s, D(c))
    case Serve => input.ReadError? || input.Message?
    case SayPong => input.Tick? && Room(s, D(c))
    case RelayGet(env) => input.Tick? && (env.sid in s.table ==> s.table[env.sid] in s.objs)
    case RelayPush(_, h, _) => input.Tick? && h in s.objs
    case CollectIds => input.Tick? && D(c) in s.writerDone
                       && forall id :: id in s.table ==> s.table[id] in s.objs
    case EndNext(todo) => if todo == {} then input.Tick? else input.NextId? && input.id in todo
    case Part => input.Tick?
    case Parted => input.Tick?
    case Off => false
  }

  function DevicePlan(s: State, c: nat, d: DevicePC, input: Input): Plan
    requires DeviceReady(s, c, d, input)
  {
    match d
    case Join => Plan(AtDevice(SayHello), Register)
    case SayHello => Plan(AtDevice(Serve), PushOwn(HELLO, Greeting))
    case Serve =>
      if input.ReadError? then Plan(AtDevice(CollectIds), Quiet)
      else if input.env.kind.Ping? then Plan(AtDevice(SayPong), Skip(input.env))
      else if ForwardedFromDevice(input.env.kind) && input.env.sid != ""
      then Plan(AtDevice(RelayGet(input.env)), Receive(input.env))
      else Plan(AtDevice(Serve), Skip(input.env))
    case SayPong => Plan(AtDevice(Serve), PushOwn(PONG, Heartbeat))
    case RelayGet(env) =>
      if env.sid in s.table && s.objs[s.table[env.sid]].dev == s.cdev[c]
      then Plan(AtDevice(RelayPush(env, s.table[env.sid], s.now)), Quiet)
      else Plan(AtDevice(Serve), Lose(Unrouted(s.now)))
    case RelayPush(env, h, gotAt) =>
      Plan(if env.kind.SessionEnd? then Closing(Mark(s.objs[h].id), DeviceEnded) else AtDevice(Serve),
           Carry(B(h), env, gotAt))
    case CollectIds => Plan(AtDevice(EndNext(IdsOf(s, s.cdev[c]))), Collect)
    case EndNext(todo) =>
      if todo == {} then Plan(AtDevice(Part), Quiet)
      else Plan(Closing(Mark(input.id), DeviceGone(todo - {input.id})), Quiet)
    case Part => Plan(AtDevice(Parted), Unregister)
    case _ => Plan(AtDevice(Off), CancelSelf)
  }

  /** The reason each caller of close gives. */
  function Reason(why: Why): string {
    match why
    case FailedOpen(_) => DEVICE_UNREACHABLE
    case BrowserGone => BROWSER_CLOSED
    case DeviceEnded => DEVICE_ENDED
    case DeviceGone(_) => DEVICE_DISCONNECTED
  }

  /** Where the caller of close goes on. */
  function After(why: Why): PC {
    match why
    case FailedOpen(err) => AtBrowser(Reject(err))
    case BrowserGone => AtBrowser(Leaving)
    case DeviceEnded => AtDevice(Serve)
    case DeviceGone(todo) => AtDevice(EndNext(todo))
  }

  predicate CloseReady(s: State, stage: Stage) {
    match stage
    case Mark(id) => id in s.table ==> s.table[id] in s.objs
    case Lookup(h) => h in s.objs
    case _ => true
  }

  function ClosePlan(s: State, stage: Stage, why: Why): Plan
    requires CloseReady(s, stage)
  {
    match stage
    case Mark(id) =>
      if id !in s.table || s.objs[s.table[id]].closed then Plan(After(why), Quiet)
      else Plan(Closing(Lookup(s.table[id]), why), Delete(id))
    case Lookup(h) =>
      var dev := s.objs[h].dev;
      if dev in s.conns then Plan(Closing(PushDevice(h, s.conns[dev]), why), Quiet)
      else Plan(Closing(PushBrowser(h), why), DeviceOffline(h))
    case PushDevice(h, c) => Plan(Closing(PushBrowser(h), why), TellDevice(h, c, Reason(why)))
    case PushBrowser(h) => Plan(Closing(Cancel(h), why), TellBrowser(h, Reason(why)))
    case Cancel(h) => Plan(After(why), CancelSession(h))
  }

  predicate MayMove(s: State, t: Thread, input: Input) {
    t in s.pc &&
    match s.pc[t]
    case AtBrowser(b) => t.B? && BrowserReady(s, t.h, b, input)
    case AtDevice(d) => t.D? && DeviceReady(s, t.c, d, input)
    case Closing(stage, _) => input.Tick? && CloseReady(s, stage)
  }

  function PlanOf(s: State, t: Thread, input: Input): Plan
    requires MayMove(s, t, input)
  {
    match s.pc[t]
    case AtBrowser(b) => BrowserPlan(s, t.h, b, input)
    case AtDevice(d) => DevicePlan(s, t.c, d, input)
    case Closing(stage, why) => ClosePlan(s, stage, why)
  }

  // ---- Steps ----

  datatype Action =
    | BrowserConnects(h: nat)
    | DeviceConnects(c: nat, dev: string)
    | Moves(t: Thread, input: Input)
    | WriterTakes(t: Thread, ok: bool)
    | WriterExits(t: Thread)
    | ContextCancelled(t: Thread)

  predicate Enabled(s: State, a: Action) {
    match a
    case BrowserConnects(h) => B(h) !in s.pc
    case DeviceConnects(c, _) => D(c) !in s.pc
    case Moves(t, input) => MayMove(s, t, input) && Performable(s, t, PlanOf(s, t, input).effect)
    case WriterTakes(t, _) =>
      t in s.pc && t in s.q && s.pc[t] != AtDevice(Join) && t !in s.writerDone && s.q[t].pending != []
    case WriterExits(t) => t in s.pc && s.pc[t] != AtDevice(Join) && t in s.cancelled
    case ContextCancelled(t) => t in s.pc
  }

  function Connect(s: State, t: Thread, p: PC): State {
    s.(now := s.now + 1, pc := s.pc[t := p], q := s.q[t := NEW_CHANNEL],
       recv := s.recv[t := []], fates := s.fates[t := []])
  }

  function TakeFirst(ch: Channel): Channel
    requires ch.pending != []
  {
    Channel(ch.pending[1..], ch.enqueued, ch.dequeued + [ch.pending[0]])
  }

  /** A writer takes an envelope out; if writing it fails, the writer cancels its context and exits. */
  function Take(s: State, t: Thread, ok: bool): State
    requires t in s.q && s.q[t].pending != []
  {
    var failed := if ok then {} else {t};
    s.(now := s.now + 1, q := s.q[t := TakeFirst(s.q[t])],
       cancelled := s.cancelled + failed, writerDone := s.writerDone + failed)
  }

  /** One step of thread t. */
  function Move(s: State, t: Thread, plan: Plan): State
    requires Performable(s, t, plan.effect)
  {
    var e := plan.effect;
    State(
      s.now + 1, TableAfter(s, t, e), ConnsAfter(s, t, e), ObjsAfter(s, t, e), s.cdev,
      s.pc[t := plan.next], ChannelsAfter(s, t, e), s.cancelled + CancelledBy(s, t, e), s.writerDone,
      RecvAfter(s, t, e), FatesAfter(s, t, e), UsedAfter(s, e), CollectAfter(s, t, e), LastOutAfter(s, t, e))
  }

  function Apply(s: State, a: Action): State
    requires Enabled(s, a)
  {
    match a
    case BrowserConnects(h) => Connect(s, B(h), AtBrowser(Start))
    case DeviceConnects(c, dev) => Connect(s, D(c), AtDevice(Join)).(cdev := s.cdev[c := dev])
    case Moves(t, input) => Move(s, t, PlanOf(s, t, input))
    case WriterTakes(t, ok) => Take(s, t, ok)
    case WriterExits(t) => s.(now := s.now + 1, writerDone := s.writerDone + {t})
    case ContextCancelled(t) => s.(now := s.now + 1, cancelled := s.cancelled + {t})
  }
}
