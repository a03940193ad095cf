/** What every step keeps about the queues and about what becomes of the envelopes
    the read loops receive. */
module Queues {
  import opened Wire
  import opened Regions
  import opened Machine
  import opened Control

  // ---- The invariant ----

  ghost predicate ChannelOk(ch: Channel) {
    ch.enqueued == ch.dequeued + ch.pending && |ch.pending| <= CAPACITY
  }

  /** The browser handler has pushed session.ready, or is done with an open that succeeded. */
  ghost predicate PastReady(p: PC) {
    match p
    case AtBrowser(b) => b.Loop? || b.FwdGet? || b.FwdLookup? || b.FwdPush? || b.Leaving? || b.Gone?
    case AtDevice(_) => false
    case Closing(_, why) => why.BrowserGone?
  }

  ghost predicate PastReject(p: PC) {
    p.AtBrowser? && (p.b.Leaving? || p.b.Gone?)
  }

  /** The thread has received an envelope and not yet settled what becomes of it. */
  ghost predicate Busy(p: PC) {
    match p
    case AtBrowser(b) => b.FwdGet? || b.FwdLookup? || b.FwdPush?
    case AtDevice(d) => d.RelayGet? || d.RelayPush?
    case Closing(_, _) => false
  }

  ghost function InHand(p: PC): Envelope
    requires Busy(p)
  {
    if p.AtBrowser? then p.b.env else p.d.env
  }

  /** An envelope a read loop hands on: of a forwarded kind and, from a device, with a session id. */
  ghost predicate Forwardable(t: Thread, env: Envelope) {
    if t.B? then ForwardedFromBrowser(env.kind) else ForwardedFromDevice(env.kind) && env.sid != ""
  }

  ghost predicate HandOk(s: State, t: Thread, p: PC)
    requires t in s.recv && t in s.fates
  {
    if Busy(p)
    then |s.recv[t]| == |s.fates[t]| + 1 && s.recv[t][|s.fates[t]|] == InHand(p) && Forwardable(t, InHand(p))
    else |s.recv[t]| == |s.fates[t]|
  }

  /** A browser's forward looked its session up after the request was enqueued. */
  ghost predicate AskedBefore(s: State, h: nat, at: nat) {
    Asked(s, h) && s.objs[h].requested.value.at < at
  }

  ghost predicate ForwardOk(s: State, t: Thread, p: PC) {
    (p.AtBrowser? && p.b.FwdLookup? ==> t.B? && AskedBefore(s, t.h, p.b.gotAt))
    && (p.AtBrowser? && p.b.FwdPush? ==> t.B? && AskedBefore(s, t.h, p.b.gotAt))
  }

  /** The item is number k of queue `to` because its source got it there. */
  ghost predicate CarriedOk(s: State, to: Thread, k: nat, it: Item)
    requires it.origin.Carried?
  {
    var src, i, g := it.origin.src, it.origin.i, it.origin.gotAt;
    src in s.recv && src in s.fates && i < |s.fates[src]| && i < |s.recv[src]|
    && s.fates[src][i] == Enqueued(to, k) && g < it.at && Forwardable(src, s.recv[src][i])
    && match to
       case B(h) => src.D? && ConnOf(s, src.c, h) && FoundAt(s, h, g)
                    && it.env == s.recv[src][i] && it.env.sid == s.objs[h].id
       case D(c) => src.B? && ConnOf(s, c, src.h) && FoundAt(s, src.h, g) && AskedBefore(s, src.h, g)
                    && it.env == s.recv[src][i].(sid := s.objs[src.h].id)
  }

  ghost predicate EndedOk(s: State, to: Thread, h: nat, it: Item) {
    h in s.objs && it.env == EndEnvelope(s.objs[h].id, it.env.data)
    && s.objs[h].teardown.Torn? && s.objs[h].teardown.at < it.at
    && match to
       case B(h') => h' == h && s.objs[h].teardown.stage >= 3
       case D(c) => ConnOf(s, c, h) && s.objs[h].teardown.stage >= 2
  }

  ghost predicate RequestedOk(s: State, to: Thread, h: nat, it: Item) {
    to.D? && ConnOf(s, to.c, h) && Asked(s, h) && s.objs[h].requested.value.at == it.at
    && it.env.kind.SessionRequest? && it.env.sid == s.objs[h].id
  }

  ghost predicate ReadyOk(s: State, to: Thread, it: Item) {
    to.B? && AskedBefore(s, to.h, it.at) && it.env == ReadyEnvelope(s.objs[to.h].id)
  }

  /** What item number k of queue `to` tells, apart from its handler's program counter. */
  ghost predicate ItemOk(s: State, to: Thread, k: nat, it: Item) {
    it.at < s.now &&
    match it.origin
    case Greeting => to.D? && it.env == HELLO
    case Heartbeat => to.D? && it.env == PONG
    case Rejection => to.B? && it.env == EndEnvelope("", it.env.data)
    case Ready => ReadyOk(s, to, it)
    case Requested(h) => RequestedOk(s, to, h, it)
    case Ended(h) => EndedOk(s, to, h, it)
    case Carried(_, _, _) => CarriedOk(s, to, k, it)
  }

  ghost predicate ItemPcOk(p: PC, it: Item) {
    (it.origin.Rejection? ==> PastReject(p)) && (it.origin.Ready? ==> PastReady(p))
  }

  /** a comes before b in one queue. */
  ghost predicate Before(a: Item, b: Item) {
    a.at < b.at
    && !(a.origin.Rejection? && b.origin.Rejection?)
    && !(a.origin.Ready? && b.origin.Ready?)
    && !(a.origin.Ended? && b.origin.Ended? && a.origin.h == b.origin.h)
    && (a.origin.Carried? && b.origin.Carried? && a.origin.src == b.origin.src ==> a.origin.i < b.origin.i)
  }

  ghost predicate Ordered(items: seq<Item>) {
    forall j, k :: 0 <= j < k < |items| ==> Before(items[j], items[k])
  }

  ghost predicate QueueOk(s: State, t: Thread)
    requires t in s.q && t in s.pc
  {
    ChannelOk(s.q[t]) && Ordered(s.q[t].enqueued)
    && (forall k :: 0 <= k < |s.q[t].enqueued| ==> ItemOk(s, t, k, s.q[t].enqueued[k]))
    && (forall k :: 0 <= k < |s.q[t].enqueued| ==> ItemPcOk(s.pc[t], s.q[t].enqueued[k]))
  }

  /** The i-th envelope t received has this fate. */
  ghost predicate FateOk(s: State, t: Thread, i: nat, f: Fate)
    requires t in s.recv && i < |s.recv[t]|
  {
    match f
    case Ignored => !Forwardable(t, s.recv[t][i])
    case Unrouted(at) => Forwardable(t, s.recv[t][i]) && at < s.now && NotLiveAt(s, t, s.recv[t][i], at)
    case Offline(at, g) => Forwardable(t, s.recv[t][i]) && t.B? && g < at < s.now && FoundAt(s, t.h, g)
    case Enqueued(to, k) =>
      Forwardable(t, s.recv[t][i]) && to in s.q && k < |s.q[to].enqueued|
      && s.q[to].enqueued[k].origin.Carried?
      && s.q[to].enqueued[k].origin.src == t && s.q[to].enqueued[k].origin.i == i
    case Dropped(to, at, g) => Forwardable(t, s.recv[t][i]) && g < at < s.now && Destined(s, t, s.recv[t][i], to, g)
  }

  /** Queue `to` is where this envelope belongs: a browser's goes to a connection of its session's
      device, a connection's to the browser of the session it names; a lookup at step g found that session. */
  ghost predicate Destined(s: State, t: Thread, env: Envelope, to: Thread, g: nat) {
    match t
    case B(h) => to.D? && ConnOf(s, to.c, h) && FoundAt(s, h, g)
    case D(c) => to.B? && ConnOf(s, c, to.h) && FoundAt(s, to.h, g) && s.objs[to.h].id == env.sid
  }

  /** At step `at` no session for this envelope was in the table: a browser's own session had
      been removed; any session of that id and the connection's device was removed earlier
      or inserted later. */
  ghost predicate NotLiveAt(s: State, t: Thread, env: Envelope, at: nat) {
    match t
    case B(h) => h in s.objs && s.objs[h].teardown.Torn? && s.objs[h].teardown.at < at
    case D(c) =>
      c in s.cdev &&
      forall h :: h in s.objs && s.objs[h].id == env.sid && s.objs[h].dev == s.cdev[c] ==>
        at < s.objs[h].insertedAt || (s.objs[h].teardown.Torn? && s.objs[h].teardown.at < at)
  }

  ghost predicate FatesOk(s: State, t: Thread)
    requires t in s.recv && t in s.fates
  {
    |s.fates[t]| <= |s.recv[t]|
    && forall i :: 0 <= i < |s.fates[t]| ==> FateOk(s, t, i, s.fates[t][i])
  }

  /** No session is requested or ended twice, on whatever connections of its device. */
  ghost predicate OnceOnDevices(s: State) {
    forall c1, k1, c2, k2 :: IsItem(s, D(c1), k1) && IsItem(s, D(c2), k2) && SameOnce(s, c1, k1, c2, k2) ==>
      c1 == c2 && k1 == k2
  }

  ghost predicate IsItem(s: State, t: Thread, k: int) {
    t in s.q && 0 <= k < |s.q[t].enqueued|
  }

  /** Both are the request of one session, or both its broker-made end. */
  ghost predicate SameOnce(s: State, c1: nat, k1: nat, c2: nat, k2: nat)
    requires IsItem(s, D(c1), k1) && IsItem(s, D(c2), k2)
  {
    var a, b := s.q[D(c1)].enqueued[k1].origin, s.q[D(c2)].enqueued[k2].origin;
    a == b && (a.Requested? || a.Ended?)
  }

  /** A handler that has rejected its browser never had a session requested. */
  ghost predicate RejectedOk(s: State, t: Thread)
    requires t in s.q
  {
    t.B? && Asked(s, t.h) ==> forall k :: 0 <= k < |s.q[t].enqueued| ==> !s.q[t].enqueued[k].origin.Rejection?
  }

  ghost predicate ThreadOk(s: State, t: Thread) {
    t in s.pc && t in s.q && t in s.recv && t in s.fates
    && QueueOk(s, t) && RejectedOk(s, t) && FatesOk(s, t) && HandOk(s, t, s.pc[t]) && ForwardOk(s, t, s.pc[t])
  }

  /** The request of a session that was requested is where its record says. */
  ghost predicate RequestKept(s: State, h: nat)
    requires h in s.objs
  {
    s.objs[h].requested.Some? ==>
      var r := s.objs[h].requested.value;
      IsItem(s, D(r.c), r.k) && s.q[D(r.c)].enqueued[r.k].origin == Requested(h)
      && s.q[D(r.c)].enqueued[r.k].at == r.at
  }

  ghost predicate RequestsKept(s: State) {
    forall h :: h in s.objs ==> RequestKept(s, h)
  }

  ghost predicate QueuesOk(s: State) {
    (forall t :: t in s.pc ==> ThreadOk(s, t)) && OnceOnDevices(s) && RequestsKept(s)
  }

  // ---- Stability: what is said of an item stays true ----

  /** The histories only grow. */
  ghost predicate HistoriesGrow(s: State, s': State) {
    (forall t :: t in s.recv ==> t in s'.recv && s.recv[t] <= s'.recv[t])
    && (forall t :: t in s.fates ==> t in s'.fates && s.fates[t] <= s'.fates[t])
    && (forall t :: t in s.q ==> t in s'.q && s.q[t].enqueued <= s'.q[t].enqueued
                                 && s.q[t].dequeued <= s'.q[t].dequeued)
  }

  lemma MoveGrows(s: State, t: Thread, e: Effect, p: PC)
    requires Performable(s, t, e)
    ensures HistoriesGrow(s, Move(s, t, Plan(p, e)))
  {
    hide Performable, Pushes, PushOf, ChannelsAfter;
    ChannelsGrow(s, t, e);
    HandsGrow(s, t, e);
    hide RecvAfter, FatesAfter;
  }

  lemma ChannelsGrow(s: State, t: Thread, e: Effect)
    requires Performable(s, t, e)
    ensures forall t' :: t' in s.q ==>
              t' in ChannelsAfter(s, t, e) && s.q[t'].enqueued <= ChannelsAfter(s, t, e)[t'].enqueued
              && s.q[t'].dequeued <= ChannelsAfter(s, t, e)[t'].dequeued
  {
    hide Performable, PushOf;
  }

  lemma HandsGrow(s: State, t: Thread, e: Effect)
    requires Performable(s, t, e)
    ensures forall t' :: t' in s.recv ==> t' in RecvAfter(s, t, e) && s.recv[t'] <= RecvAfter(s, t, e)[t']
    ensures forall t' :: t' in s.fates ==> t' in FatesAfter(s, t, e) && s.fates[t'] <= FatesAfter(s, t, e)[t']
  {
    hide FateOf;
  }

  /** The lasting facts about session objects and connections, for any observer. */
  ghost predicate FactsLast(s: State, s': State) {
    s.now <= s'.now
    && (forall h, at {:trigger AskedBefore(s', h, at)} :: AskedBefore(s, h, at) ==> AskedBefore(s', h, at))
    && (forall c, h {:trigger ConnOf(s', c, h)} :: ConnOf(s, c, h) ==> ConnOf(s', c, h))
    && (forall h, g {:trigger FoundAt(s', h, g)} :: FoundAt(s, h, g) ==> FoundAt(s', h, g))
    && (forall h :: h in s.objs ==> h in s'.objs && SessionLasts(s.objs[h], s'.objs[h]))
  }

  ghost predicate SessionLasts(o: Session, o': Session) {
    o'.id == o.id && o'.dev == o.dev && o'.insertedAt == o.insertedAt
    && (o.requested.Some? ==> o'.requested == o.requested)
    && (o.teardown.Torn? ==>
          o'.teardown.Torn? && o'.teardown.closer == o.teardown.closer
          && o'.teardown.at == o.teardown.at && o'.teardown.stage >= o.teardown.stage)
  }

  lemma FramedFactsLast(s: State, s': State, t: Thread)
    requires Framed(s, s', t) && ObjectsOk(s)
    ensures FactsLast(s, s')
  {
    hide ObjectsOk;
  }

  lemma ItemLasts(s: State, s': State, to: Thread, k: nat, it: Item)
    requires FactsLast(s, s') && HistoriesGrow(s, s') && ItemOk(s, to, k, it)
    ensures ItemOk(s', to, k, it)
  {
    hide ConnOf;
  }

  // ---- What a step adds to the queues ----

  /** The item a pushing effect offers. */
  function NewItem(s: State, t: Thread, e: Effect): Item
    requires Performable(s, t, e) && Pushes(e)
  {
    var push := PushOf(s, t, e);
    Item(push.env, push.origin, s.now)
  }

  /** The item is pushed at the handler's right moment. */
  ghost predicate OwnPushOk(s: State, t: Thread, e: Effect, p: PC)
    requires t in s.pc
  {
    e.PushOwn? ==>
      (t.D? && e == PushOwn(HELLO, Greeting)) || (t.D? && e == PushOwn(PONG, Heartbeat))
      || (t.B? && e == PushOwn(EndEnvelope("", e.env.data), Rejection) && !PastReject(s.pc[t]) && PastReject(p))
      || (t.B? && Asked(s, t.h) && e == PushOwn(ReadyEnvelope(s.objs[t.h].id), Ready)
          && !PastReady(s.pc[t]) && PastReady(p))
  }

  /** A carried envelope is the one in hand, addressed to the session it was looked up for. */
  ghost predicate CarryOk(s: State, t: Thread, e: Effect) {
    e.Carry? ==>
      t in s.recv && t in s.fates && |s.recv[t]| == |s.fates[t]| + 1
      && Forwardable(t, s.recv[t][|s.fates[t]|])
      && match e.to
         case B(h) => t.D? && ConnOf(s, t.c, h) && FoundAt(s, h, e.gotAt)
                      && e.env == s.recv[t][|s.fates[t]|] && e.env.sid == s.objs[h].id
         case D(c) => t.B? && ConnOf(s, c, t.h) && FoundAt(s, t.h, e.gotAt) && AskedBefore(s, t.h, e.gotAt)
                      && e.env == s.recv[t][|s.fates[t]|].(sid := s.objs[t.h].id)
  }

  lemma RequestItemOk(s: State, t: Thread, e: Effect, p: PC)
    requires Performable(s, t, e) && EffectOk(s, t, e) && e.PushRequest?
    ensures ItemOk(Move(s, t, Plan(p, e)), D(e.c), |s.q[D(e.c)].enqueued|, NewItem(s, t, e))
  {
  }

  lemma OwnItemOk(s: State, t: Thread, e: Effect, p: PC)
    requires Performable(s, t, e) && t in s.pc && OwnPushOk(s, t, e, p) && e.PushOwn?
    requires t.B? && t.h in s.objs ==> ObjectOk(s, t.h)
    ensures ItemOk(Move(s, t, Plan(p, e)), t, |s.q[t].enqueued|, NewItem(s, t, e))
  {
  }

  lemma EndItemOk(s: State, t: Thread, e: Effect, p: PC)
    requires Performable(s, t, e) && EffectOk(s, t, e) && (e.TellDevice? || e.TellBrowser?)
    requires ObjectOk(s, e.h)
    ensures ItemOk(Move(s, t, Plan(p, e)), PushOf(s, t, e).to,
                   |s.q[PushOf(s, t, e).to].enqueued|, NewItem(s, t, e))
  {
  }

  lemma CarriedItemOk(s: State, t: Thread, e: Effect, p: PC)
    requires Performable(s, t, e) && CarryOk(s, t, e) && e.Carry? && Room(s, e.to)
    ensures ItemOk(Move(s, t, Plan(p, e)), e.to, |s.q[e.to].enqueued|, NewItem(s, t, e))
  {
  }

  lemma NewItemOk(s: State, t: Thread, e: Effect, p: PC)
    requires Performable(s, t, e) && EffectOk(s, t, e) && Pushes(e) && Room(s, PushOf(s, t, e).to)
    requires t in s.pc && OwnPushOk(s, t, e, p) && CarryOk(s, t, e) && ObjectsOk(s)
    ensures ItemOk(Move(s, t, Plan(p, e)), PushOf(s, t, e).to,
                   |s.q[PushOf(s, t, e).to].enqueued|, NewItem(s, t, e))
  {
    if e.PushRequest? {
      RequestItemOk(s, t, e, p);
    } else if e.PushOwn? {
      assert t.B? && t.h in s.objs ==> ObjectOk(s, t.h);
      OwnItemOk(s, t, e, p);
    } else if e.Carry? {
      CarriedItemOk(s, t, e, p);
    } else {
      assert ObjectOk(s, e.h);
      EndItemOk(s, t, e, p);
    }
  }

  lemma NewItemAfter(s: State, t: Thread, e: Effect, p: PC, k: nat)
    requires Performable(s, t, e) && EffectOk(s, t, e) && Pushes(e)
    requires t in s.pc && OwnPushOk(s, t, e, p)
    requires var to := PushOf(s, t, e).to;
             k < |s.q[to].enqueued| && ItemOk(s, to, k, s.q[to].enqueued[k])
             && to in s.pc && ItemPcOk(s.pc[to], s.q[to].enqueued[k])
    ensures Before(s.q[PushOf(s, t, e).to].enqueued[k], NewItem(s, t, e))
  {
    hide Performable;
  }

  // ---- What the plans provide ----

  /** The fate a deciding effect settles is right for the envelope in question. */
  ghost predicate DecisionOk(s: State, t: Thread, e: Effect) {
    (e.Skip? ==> !Forwardable(t, e.env))
    && (e.Lose? ==>
          t in s.recv && t in s.fates && |s.recv[t]| == |s.fates[t]| + 1
          && Forwardable(t, s.recv[t][|s.fates[t]|])
          && ((e.fate.Offline? && e.fate.at == s.now && t.B? && FoundAt(s, t.h, e.fate.gotAt))
              || (e.fate == Unrouted(s.now) && NotLiveAt(s, t, s.recv[t][|s.fates[t]|], s.now))))
  }

  /** How receiving and deciding change what thread t has in hand. */
  ghost predicate HandMoves(s: State, t: Thread, e: Effect, p: PC)
    requires t in s.pc
  {
    if e.Receive? then !Busy(s.pc[t]) && Busy(p) && InHand(p) == e.env && Forwardable(t, e.env)
    else if e.Skip? then !Busy(s.pc[t]) && !Busy(p)
    else if e.Lose? || e.Carry? then Busy(s.pc[t]) && !Busy(p)
    else Busy(s.pc[t]) == Busy(p) && (Busy(p) ==> InHand(p) == InHand(s.pc[t]))
  }

  ghost predicate PassesOn(p: PC, p': PC) {
    (PastReady(p) ==> PastReady(p')) && (PastReject(p) ==> PastReject(p'))
  }

  /** All that the queues need of a thread's plan. */
  ghost predicate GoodPush(s: State, t: Thread, plan: Plan)
    requires t in s.pc
  {
    OwnPushOk(s, t, plan.effect, plan.next) && CarryOk(s, t, plan.effect) && DecisionOk(s, t, plan.effect)
    && HandMoves(s, t, plan.effect, plan.next) && PassesOn(s.pc[t], plan.next)
    && ForwardOk(s, t, plan.next)
    && (plan.effect.PushRequest? ==> !PastReject(s.pc[t]))
    && (plan.effect.PushOwn? && plan.effect.origin.Rejection? ==> t.B? && !Asked(s, t.h))
  }

  lemma OpeningPushes(s: State, h: nat, b: BrowserPC, input: Input)
    requires B(h) in s.pc && s.pc[B(h)] == AtBrowser(b) && BrowserReady(s, h, b, input)
    requires BrowserPcOk(s, h, b)
    requires !(b.Loop? || b.FwdGet? || b.FwdLookup? || b.FwdPush?)
    ensures GoodPush(s, B(h), BrowserPlan(s, h, b, input))
  {
    hide ConnOf, Room;
  }

  lemma ForwardingPushes(s: State, h: nat, b: BrowserPC, input: Input)
    requires B(h) in s.pc && s.pc[B(h)] == AtBrowser(b) && BrowserReady(s, h, b, input)
    requires B(h) in s.recv && B(h) in s.fates && HandOk(s, B(h), s.pc[B(h)]) && ForwardOk(s, B(h), s.pc[B(h)])
    requires BrowserPcOk(s, h, b) && h in s.objs && ObjectOk(s, h)
    requires s.objs[h].id in s.table ==> s.table[s.objs[h].id] == h && s.objs[h].teardown.Live?
    requires b.Loop? || b.FwdGet? || b.FwdLookup? || b.FwdPush?
    ensures GoodPush(s, B(h), BrowserPlan(s, h, b, input))
  {
    hide BadOpen, ConnOf;
  }

  /** A failed lookup by a connection: no session of that id and device is in the table now. */
  lemma LookupFailed(s: State, c: nat, env: Envelope)
    requires c in s.cdev && ObjectsOk(s)
    requires env.sid in s.table ==> s.table[env.sid] in s.objs && s.objs[s.table[env.sid]].dev != s.cdev[c]
    ensures NotLiveAt(s, D(c), env, s.now)
  {
    forall h | h in s.objs && s.objs[h].id == env.sid && s.objs[h].dev == s.cdev[c]
      ensures s.objs[h].teardown.Torn? && s.objs[h].teardown.at < s.now {
      assert ObjectOk(s, h);
    }
  }

  lemma DevicePushes(s: State, c: nat, d: DevicePC, input: Input)
    requires D(c) in s.pc && s.pc[D(c)] == AtDevice(d) && DeviceReady(s, c, d, input)
    requires D(c) in s.recv && D(c) in s.fates && HandOk(s, D(c), s.pc[D(c)])
    requires DevicePcOk(s, c, d)
    requires d.RelayGet? && (d.env.sid in s.table ==> s.objs[s.table[d.env.sid]].dev != s.cdev[c]) ==>
               NotLiveAt(s, D(c), d.env, s.now)
    ensures GoodPush(s, D(c), DevicePlan(s, c, d, input))
  {
    hide IdsOf, TodoOk, DeviceReady;
  }

  lemma ClosePushes(s: State, t: Thread, stage: Stage, why: Why)
    requires t in s.pc && s.pc[t] == Closing(stage, why) && CloseReady(s, stage)
    ensures GoodPush(s, t, ClosePlan(s, stage, why))
  {
  }

  lemma BrowserPushes(s: State, h: nat, b: BrowserPC, input: Input)
    requires ControlOk(s) && ThreadOk(s, B(h)) && s.pc[B(h)] == AtBrowser(b) && BrowserReady(s, h, b, input)
    ensures GoodPush(s, B(h), BrowserPlan(s, h, b, input))
  {
    assert PcOk(s, B(h), s.pc[B(h)]);
    if b.Loop? || b.FwdGet? || b.FwdLookup? || b.FwdPush? {
      assert ObjectOk(s, h);
      ForwardingPushes(s, h, b, input);
    } else {
      OpeningPushes(s, h, b, input);
    }
  }

  lemma PlanPushes(s: State, t: Thread, input: Input)
    requires ControlOk(s) && ThreadOk(s, t) && MayMove(s, t, input)
    ensures GoodPush(s, t, PlanOf(s, t, input))
  {
    hide DomainsOk, ForwardOk;
    if s.pc[t].AtBrowser? {
      BrowserPushes(s, t.h, s.pc[t].b, input);
    } else if s.pc[t].AtDevice? {
      assert PcOk(s, t, s.pc[t]);
      var d := s.pc[t].d;
      if d.RelayGet? && (d.env.sid in s.table ==> s.objs[s.table[d.env.sid]].dev != s.cdev[t.c]) {
        LookupFailed(s, t.c, d.env);
      }
      DevicePushes(s, t.c, d, input);
    } else {
      ClosePushes(s, t, s.pc[t].stage, s.pc[t].why);
    }
  }

  // ---- Every step keeps the invariant ----

  lemma OfferKeepsChannel(ch: Channel, it: Item)
    requires ChannelOk(ch) && Ordered(ch.enqueued)
    requires HasRoom(ch.pending) ==> forall k :: 0 <= k < |ch.enqueued| ==> Before(ch.enqueued[k], it)
    ensures ChannelOk(OfferItem(ch, it)) && Ordered(OfferItem(ch, it).enqueued)
  {
  }

  lemma MoveKeepsOrder(s: State, t: Thread, plan: Plan, to: Thread)
    requires t in s.pc && GoodPlan(s, t, plan) && GoodPush(s, t, plan)
    requires to in s.q && to in s.pc && QueueOk(s, to)
    ensures ChannelOk(Move(s, t, plan).q[to]) && Ordered(Move(s, t, plan).q[to].enqueued)
  {
    var e := plan.effect;
    if Pushes(e) && PushOf(s, t, e).to == to {
      forall k | 0 <= k < |s.q[to].enqueued| ensures Before(s.q[to].enqueued[k], NewItem(s, t, e)) {
        NewItemAfter(s, t, e, plan.next, k);
      }
      OfferKeepsChannel(s.q[to], NewItem(s, t, e));
    }
  }

  /** A queue's items after a step are those before it, and perhaps the one just pushed. */
  lemma ItemsAfter(s: State, t: Thread, e: Effect, p: PC, to: Thread, k: nat)
    requires Performable(s, t, e) && to in s.q && k < |Move(s, t, Plan(p, e)).q[to].enqueued|
    ensures var it := Move(s, t, Plan(p, e)).q[to].enqueued[k];
            if k < |s.q[to].enqueued| then it == s.q[to].enqueued[k]
            else k == |s.q[to].enqueued| && Pushes(e) && PushOf(s, t, e).to == to
                 && Room(s, to) && it == NewItem(s, t, e)
  {
  }

  lemma QueueAfterMove(s: State, t: Thread, plan: Plan, to: Thread)
    requires Performable(s, t, plan.effect) && to in s.q && to in Move(s, t, plan).q
    ensures Pushes(plan.effect) && PushOf(s, t, plan.effect).to == to && HasRoom(s.q[to].pending) ==>
              Move(s, t, plan).q[to].enqueued == s.q[to].enqueued + [NewItem(s, t, plan.effect)]
    ensures !(Pushes(plan.effect) && PushOf(s, t, plan.effect).to == to && HasRoom(s.q[to].pending)) ==>
              Move(s, t, plan).q[to].enqueued == s.q[to].enqueued
  {
    hide Performable, PushOf;
  }

  lemma MoveKeepsItems(s: State, t: Thread, plan: Plan, to: Thread, k: nat)
    requires t in s.pc && GoodPlan(s, t, plan) && GoodPush(s, t, plan) && ObjectsOk(s)
    requires to in s.q && to in s.pc && QueueOk(s, to) && k < |Move(s, t, plan).q[to].enqueued|
    ensures ItemOk(Move(s, t, plan), to, k, Move(s, t, plan).q[to].enqueued[k])
    ensures to in Move(s, t, plan).pc && ItemPcOk(Move(s, t, plan).pc[to], Move(s, t, plan).q[to].enqueued[k])
  {
    hide Performable, OwnPushOk, Framed, Forwardable, ItemOk, HistoriesGrow;
    var e, p, s' := plan.effect, plan.next, Move(s, t, plan);
    ItemsAfter(s, t, e, p, to, k);
    if k < |s.q[to].enqueued| {
      EffectFramed(s, t, e, p);
      FramedFactsLast(s, s', t);
      MoveGrows(s, t, e, p);
      ItemLasts(s, s', to, k, s.q[to].enqueued[k]);
    } else {
      NewItemOk(s, t, e, p);
      NewItemPcOk(s, t, e, p);
    }
  }

  lemma NewItemPcOk(s: State, t: Thread, e: Effect, p: PC)
    requires Performable(s, t, e) && Pushes(e) && t in s.pc && OwnPushOk(s, t, e, p)
    ensures ItemPcOk(if PushOf(s, t, e).to == t then p else AtBrowser(Start), NewItem(s, t, e))
  {
  }

  lemma MoveKeepsQueue(s: State, t: Thread, plan: Plan, to: Thread)
    requires t in s.pc && GoodPlan(s, t, plan) && GoodPush(s, t, plan) && ObjectsOk(s)
    requires to in s.q && to in s.pc && QueueOk(s, to)
    ensures to in Move(s, t, plan).q && to in Move(s, t, plan).pc && QueueOk(Move(s, t, plan), to)
  {
    var s' := Move(s, t, plan);
    MoveKeepsOrder(s, t, plan, to);
    forall k | 0 <= k < |s'.q[to].enqueued|
      ensures ItemOk(s', to, k, s'.q[to].enqueued[k]) && ItemPcOk(s'.pc[to], s'.q[to].enqueued[k]) {
      MoveKeepsItems(s, t, plan, to, k);
    }
  }

  lemma MoveKeepsRejected(s: State, t: Thread, plan: Plan, to: Thread)
    requires t in s.pc && GoodPlan(s, t, plan) && GoodPush(s, t, plan) && ThreadOk(s, to)
    ensures to in Move(s, t, plan).q && RejectedOk(Move(s, t, plan), to)
  {
    var e, s' := plan.effect, Move(s, t, plan);
    assert to in s'.q && RejectedOk(s, to);
    forall k | 0 <= k < |s'.q[to].enqueued| && to.B? && Asked(s', to.h)
      ensures !s'.q[to].enqueued[k].origin.Rejection? {
      ItemsAfter(s, t, e, plan.next, to, k);
      RequestedByPush(s, t, e, plan.next, to.h);
      assert k < |s.q[to].enqueued| ==> ItemPcOk(s.pc[to], s.q[to].enqueued[k]);
      hide Move, ThreadOk, GoodPlan, Performable;
      if k >= |s.q[to].enqueued| {
        RejectionOrRequest(s, t, plan);
      }
    }
  }

  /** A step pushes no rejection for a handler whose session has been requested. */
  lemma RejectionOrRequest(s: State, t: Thread, plan: Plan)
    requires t in s.pc && Performable(s, t, plan.effect) && GoodPush(s, t, plan) && Pushes(plan.effect)
    ensures NewItem(s, t, plan.effect).origin.Rejection? ==>
              !plan.effect.PushRequest? && t.B? && PushOf(s, t, plan.effect).to == t && !Asked(s, t.h)
  {
  }

  lemma RequestLasts(s: State, s': State, h: nat)
    requires HistoriesGrow(s, s') && h in s.objs && h in s'.objs && RequestKept(s, h)
    requires s'.objs[h].requested == s.objs[h].requested
    ensures RequestKept(s', h)
  {
  }

  lemma NewRequestKept(s: State, t: Thread, e: Effect, p: PC)
    requires Performable(s, t, e) && EffectOk(s, t, e) && e.PushRequest?
    ensures RequestKept(Move(s, t, Plan(p, e)), t.h)
  {
  }

  lemma RequestedByPush(s: State, t: Thread, e: Effect, p: PC, h: nat)
    requires Performable(s, t, e) && h in Move(s, t, Plan(p, e)).objs
    ensures var s' := Move(s, t, Plan(p, e));
            (e.PushRequest? && h == t.h) || (h in s.objs && s'.objs[h].requested == s.objs[h].requested)
            || s'.objs[h].requested.None?
  {
    hide CollectAfter, FatesAfter, ChannelsAfter, RecvAfter;
  }

  lemma MoveKeepsRequests(s: State, t: Thread, plan: Plan)
    requires t in s.pc && GoodPlan(s, t, plan) && RequestsKept(s)
    ensures RequestsKept(Move(s, t, plan))
  {
    var e, s' := plan.effect, Move(s, t, plan);
    MoveGrows(s, t, e, plan.next);
    forall h | h in s'.objs ensures RequestKept(s', h) {
      RequestedByPush(s, t, e, plan.next, h);
      if e.PushRequest? && h == t.h {
        NewRequestKept(s, t, e, plan.next);
      } else if h in s.objs && s'.objs[h].requested == s.objs[h].requested {
        RequestLasts(s, s', h);
      }
    }
  }

  lemma MoveKeepsHand(s: State, t: Thread, plan: Plan, t': Thread)
    requires t in s.pc && Performable(s, t, plan.effect) && GoodPush(s, t, plan)
    requires ThreadOk(s, t') && ObjectsOk(s) && EffectOk(s, t, plan.effect)
    ensures var s' := Move(s, t, plan);
            t' in s'.recv && t' in s'.fates && HandOk(s', t', s'.pc[t']) && ForwardOk(s', t', s'.pc[t'])
  {
    hide AskedBefore, ChannelsAfter, CancelledBy, Busy, FateOf;
    EffectFramed(s, t, plan.effect, plan.next);
    FramedFactsLast(s, Move(s, t, plan), t);
  }

  lemma FateLasts(s: State, s': State, t: Thread, i: nat, f: Fate, mover: Thread)
    requires FactsLast(s, s') && HistoriesGrow(s, s') && Framed(s, s', mover) && s.now < s'.now
    requires t in s.recv && i < |s.recv[t]| && FateOk(s, t, i, f)
    ensures t in s'.recv && i < |s'.recv[t]| && FateOk(s', t, i, f)
  {
  }

  lemma NewFateOk(s: State, t: Thread, plan: Plan)
    requires t in s.pc && Performable(s, t, plan.effect) && GoodPush(s, t, plan) && EffectOk(s, t, plan.effect)
    requires ThreadOk(s, t) && Decides(plan.effect) && t in Move(s, t, plan).recv && ChannelsFit(s)
    ensures |s.fates[t]| < |Move(s, t, plan).recv[t]|
    ensures FateOk(Move(s, t, plan), t, |s.fates[t]|, FateOf(s, t, plan.effect))
  {
    hide Framed, PastReject, QueueOk, OwnPushOk, PassesOn, ForwardOk;
    EffectFramed(s, t, plan.effect, plan.next);
  }

  ghost predicate ChannelsFit(s: State) {
    forall t :: t in s.q ==> ChannelOk(s.q[t])
  }

  lemma MoveKeepsFates(s: State, t: Thread, plan: Plan, t': Thread)
    requires t in s.pc && GoodPlan(s, t, plan) && GoodPush(s, t, plan) && ObjectsOk(s) && ChannelsFit(s)
    requires ThreadOk(s, t')
    ensures t' in Move(s, t, plan).recv && t' in Move(s, t, plan).fates && FatesOk(Move(s, t, plan), t')
  {
    hide Performable, HistoriesGrow, PastReject, Framed, DecisionOk, OwnPushOk, FactsLast, Forwardable, PcOk;
    var s' := Move(s, t, plan);
    EffectFramed(s, t, plan.effect, plan.next);
    FramedFactsLast(s, s', t);
    MoveGrows(s, t, plan.effect, plan.next);
    forall i | 0 <= i < |s'.fates[t']| ensures i < |s'.recv[t']| && FateOk(s', t', i, s'.fates[t'][i]) {
      if i < |s.fates[t']| {
        FateLasts(s, s', t', i, s.fates[t'][i], t);
      } else {
        NewFateOk(s, t, plan);
      }
    }
  }

  /** The session a new request or end belongs to has none on any device queue yet. */
  lemma FirstOnDevices(s: State, t: Thread, e: Effect, p: PC, c: nat, k: nat)
    requires Performable(s, t, e) && EffectOk(s, t, e) && Pushes(e) && PushOf(s, t, e).to.D?
    requires IsItem(s, D(c), k) && ItemOk(s, D(c), k, s.q[D(c)].enqueued[k])
    requires NewItem(s, t, e).origin.Requested? || NewItem(s, t, e).origin.Ended?
    requires t in s.pc && OwnPushOk(s, t, e, p)
    ensures s.q[D(c)].enqueued[k].origin != NewItem(s, t, e).origin
  {
  }

  lemma MoveKeepsOnce(s: State, t: Thread, plan: Plan)
    requires t in s.pc && GoodPlan(s, t, plan) && GoodPush(s, t, plan) && OnceOnDevices(s)
    requires forall c, k :: IsItem(s, D(c), k) ==> ItemOk(s, D(c), k, s.q[D(c)].enqueued[k])
    ensures OnceOnDevices(Move(s, t, plan))
  {
    hide Asked, CancelledBy, ConnOf, Forwardable, ObjsAfter, OfferItem, PastReject, PcOk;
    var e, p, s' := plan.effect, plan.next, Move(s, t, plan);
    forall c1, k1, c2, k2 | IsItem(s', D(c1), k1) && IsItem(s', D(c2), k2) && SameOnce(s', c1, k1, c2, k2)
      ensures c1 == c2 && k1 == k2 {
      ItemsAfter(s, t, e, p, D(c1), k1);
      ItemsAfter(s, t, e, p, D(c2), k2);
      if IsItem(s, D(c1), k1) {
        if IsItem(s, D(c2), k2) {
          assert SameOnce(s, c1, k1, c2, k2);
        } else {
          FirstOnDevices(s, t, e, p, c1, k1);
        }
      } else if IsItem(s, D(c2), k2) {
        FirstOnDevices(s, t, e, p, c2, k2);
      }
    }
  }

  lemma MoveKeepsThread(s: State, t: Thread, plan: Plan, t': Thread)
    requires t in s.pc && GoodPlan(s, t, plan) && GoodPush(s, t, plan) && ObjectsOk(s) && ChannelsFit(s)
    requires ThreadOk(s, t')
    ensures ThreadOk(Move(s, t, plan), t')
  {
    assert Performable(s, t, plan.effect) && EffectOk(s, t, plan.effect);
    assert t' in s.q && t' in s.pc && QueueOk(s, t');
    hide GoodPlan, GoodPush, ObjectsOk, ChannelsFit, QueueOk, RejectedOk, FatesOk, HandOk, ForwardOk, Performable;
    hide EffectOk, Move;
    MoveKeepsQueue(s, t, plan, t');
    MoveKeepsRejected(s, t, plan, t');
    MoveKeepsFates(s, t, plan, t');
    MoveKeepsHand(s, t, plan, t');
  }

  lemma QueuesFit(s: State)
    requires DomainsOk(s) && forall t :: t in s.pc ==> ThreadOk(s, t)
    ensures ChannelsFit(s)
    ensures forall c, k :: IsItem(s, D(c), k) ==> ItemOk(s, D(c), k, s.q[D(c)].enqueued[k])
  {
    forall t | t in s.q ensures ThreadOk(s, t) {}
  }

  lemma SameThreads(s: State, t: Thread, plan: Plan)
    requires ControlOk(s) && t in s.pc && GoodPlan(s, t, plan)
    ensures Performable(s, t, plan.effect) && EffectOk(s, t, plan.effect) && ObjectsOk(s) && DomainsOk(s)
    ensures forall t' :: t' in Move(s, t, plan).pc ==> t' in s.pc
  {
    hide Performable, EffectOk, ObjectsOk, DomainsOk, Tracks, ServiceMoves, PcOk;
  }

  lemma MoveKeepsQueues(s: State, t: Thread, plan: Plan)
    requires ControlOk(s) && QueuesOk(s) && t in s.pc && GoodPlan(s, t, plan) && GoodPush(s, t, plan)
    ensures QueuesOk(Move(s, t, plan))
  {
    hide ControlOk, GoodPlan, GoodPush, ObjectsOk, ChannelsFit, ThreadOk, OnceOnDevices, RequestsKept, Move;
    hide Performable, DomainsOk, ItemOk, EffectOk;
    SameThreads(s, t, plan);
    QueuesFit(s);
    var s' := Move(s, t, plan);
    forall t' | t' in s'.pc ensures ThreadOk(s', t') {
      MoveKeepsThread(s, t, plan, t');
    }
    MoveKeepsOnce(s, t, plan);
    MoveKeepsRequests(s, t, plan);
  }

  /** A new handler, a writer's step or a context cancelled from outside. */
  ghost predicate ElsewhereHistories(s: State, s': State) {
    Elsewhere(s, s')
    && (forall t :: t in s.q ==>
          t in s'.q && s'.q[t].enqueued == s.q[t].enqueued && (ChannelOk(s.q[t]) ==> ChannelOk(s'.q[t])))
    && (forall t :: t in s.recv ==> t in s'.recv && s'.recv[t] == s.recv[t])
    && (forall t :: t in s.fates ==> t in s'.fates && s'.fates[t] == s.fates[t])
    && (forall t :: t in s'.q && t !in s.q ==> s'.q[t] == NEW_CHANNEL && s'.recv[t] == [] && s'.fates[t] == [])
    && (forall t :: t in s.q ==> s.q[t].dequeued <= s'.q[t].dequeued)
  }

  /** Everybody else's queue and history is as before; a newcomer's are empty. */
  lemma ArrivalHistories(s: State, s': State, t: Thread, p: PC)
    requires Elsewhere(s, s') && t !in s.q && t !in s.recv && t !in s.fates
    requires s'.q == Connect(s, t, p).q && s'.recv == Connect(s, t, p).recv && s'.fates == Connect(s, t, p).fates
    ensures ElsewhereHistories(s, s')
  {
  }

  lemma TakeKeepsChannel(ch: Channel)
    requires ch.pending != []
    ensures TakeFirst(ch).enqueued == ch.enqueued && ch.dequeued <= TakeFirst(ch).dequeued
    ensures ChannelOk(ch) ==> ChannelOk(TakeFirst(ch))
  {
    if ChannelOk(ch) {
      assert ch.pending == [ch.pending[0]] + ch.pending[1..];
    }
  }

  lemma TakeKeepsDomains(s: State, t: Thread, ok: bool)
    requires DomainsOk(s) && t in s.q && s.q[t].pending != []
    ensures forall t' :: t' in Take(s, t, ok).q <==> t' in s.q
  {
  }

  lemma TakeHistories(s: State, t: Thread, ok: bool)
    requires DomainsOk(s) && t in s.q && s.q[t].pending != []
    ensures ElsewhereHistories(s, Take(s, t, ok))
  {
    hide ChannelOk, TakeFirst, Elsewhere, DomainsOk;
    TakeIsElsewhere(s, t, ok);
    TakeKeepsChannel(s.q[t]);
    TakeKeepsDomains(s, t, ok);
  }

  lemma OutsideHistories(s: State, a: Action)
    requires DomainsOk(s) && Enabled(s, a) && !a.Moves?
    ensures ElsewhereHistories(s, Apply(s, a))
  {
    hide MayMove, PlanOf, Move, Take, Elsewhere;
    if a.WriterTakes? {
      TakeHistories(s, a.t, a.ok);
    } else {
      OutsideIsElsewhere(s, a);
      if a.BrowserConnects? {
        ArrivalHistories(s, Apply(s, a), B(a.h), AtBrowser(Start));
      } else if a.DeviceConnects? {
        ArrivalHistories(s, Apply(s, a), D(a.c), AtDevice(Join));
      } else {
        SignalHistories(s, Apply(s, a));
      }
      hide ElsewhereHistories, Connect, DomainsOk;
    }
  }

  lemma SignalHistories(s: State, s': State)
    requires Elsewhere(s, s') && s'.q == s.q && s'.recv == s.recv && s'.fates == s.fates
    ensures ElsewhereHistories(s, s')
  {
    hide Elsewhere;
  }

  lemma ElsewhereFramed(s: State, s': State, t: Thread)
    requires Elsewhere(s, s')
    ensures Framed(s, s', t)
  {
  }

  lemma ElsewhereItem(s: State, s': State, t: Thread, k: nat, it: Item)
    requires Elsewhere(s, s') && FactsLast(s, s') && HistoriesGrow(s, s') && t in s.pc
    requires ItemOk(s, t, k, it) && ItemPcOk(s.pc[t], it)
    ensures t in s'.pc && ItemOk(s', t, k, it) && ItemPcOk(s'.pc[t], it)
  {
    hide FactsLast, HistoriesGrow, ItemOk, ItemPcOk, DomainsOk;
    ItemLasts(s, s', t, k, it);
  }

  lemma ElsewhereGrow(s: State, s': State)
    requires ElsewhereHistories(s, s') && ObjectsOk(s)
    ensures Elsewhere(s, s') && FactsLast(s, s') && HistoriesGrow(s, s') && Framed(s, s', B(0))
  {
    hide ObjectsOk;
    ElsewhereFramed(s, s', B(0));
    FramedFactsLast(s, s', B(0));
    hide FactsLast, Framed, Elsewhere;
  }

  lemma ElsewhereQueue(s: State, s': State, t: Thread)
    requires ElsewhereHistories(s, s') && FactsLast(s, s') && HistoriesGrow(s, s')
    requires t in s.q && t in s.pc && QueueOk(s, t) && RejectedOk(s, t)
    ensures t in s'.q && t in s'.pc && QueueOk(s', t)
  {
    hide FactsLast, HistoriesGrow, ItemOk, ItemPcOk, ChannelOk, Ordered, DomainsOk;
    forall k | 0 <= k < |s.q[t].enqueued|
      ensures ItemOk(s', t, k, s'.q[t].enqueued[k]) && ItemPcOk(s'.pc[t], s'.q[t].enqueued[k]) {
      ElsewhereItem(s, s', t, k, s.q[t].enqueued[k]);
    }
  }

  lemma ElsewhereFates(s: State, s': State, t: Thread)
    requires ElsewhereHistories(s, s') && FactsLast(s, s') && HistoriesGrow(s, s') && Framed(s, s', B(0))
    requires t in s.recv && t in s.fates && FatesOk(s, t)
    ensures t in s'.recv && t in s'.fates && FatesOk(s', t)
  {
    hide FactsLast, HistoriesGrow, FateOk, DomainsOk;
    forall i | 0 <= i < |s.fates[t]| ensures FateOk(s', t, i, s'.fates[t][i]) {
      FateLasts(s, s', t, i, s.fates[t][i], B(0));
    }
  }

  lemma ElsewhereHand(s: State, s': State, t: Thread)
    requires ElsewhereHistories(s, s') && FactsLast(s, s') && t in s.pc && t in s.q && t in s.recv && t in s.fates
    requires HandOk(s, t, s.pc[t]) && ForwardOk(s, t, s.pc[t]) && RejectedOk(s, t)
    ensures t in s'.pc && t in s'.q && t in s'.recv && t in s'.fates
    ensures HandOk(s', t, s'.pc[t]) && ForwardOk(s', t, s'.pc[t]) && RejectedOk(s', t)
  {
    hide DomainsOk;
  }

  lemma ElsewhereThread(s: State, s': State, t: Thread)
    requires ElsewhereHistories(s, s') && ThreadOk(s, t) && ObjectsOk(s)
    ensures ThreadOk(s', t)
  {
    hide ElsewhereHistories, ObjectsOk, QueueOk, FatesOk, HandOk, ForwardOk, RejectedOk;
    hide FactsLast, HistoriesGrow, Framed;
    ElsewhereGrow(s, s');
    ElsewhereQueue(s, s', t);
    ElsewhereFates(s, s', t);
    ElsewhereHand(s, s', t);
  }

  lemma EmptyThread(s: State, t: Thread)
    requires t in s.pc && (s.pc[t] == AtBrowser(Start) || s.pc[t] == AtDevice(Join))
    requires t in s.q && s.q[t] == NEW_CHANNEL && t in s.recv && s.recv[t] == [] && t in s.fates && s.fates[t] == []
    ensures ThreadOk(s, t)
  {
    hide ItemOk, ItemPcOk, Before, FateOk, Asked, AskedBefore;
  }

  lemma NewThread(s: State, s': State, t: Thread)
    requires DomainsOk(s) && ElsewhereHistories(s, s') && t in s'.pc && t !in s.pc
    ensures ThreadOk(s', t)
  {
    hide ThreadOk, ChannelOk;
    assert t !in s.q && t in s'.q && t in s'.recv && t in s'.fates;
    EmptyThread(s', t);
  }

  lemma ElsewhereKeepsOnce(s: State, s': State)
    requires ElsewhereHistories(s, s') && OnceOnDevices(s)
    ensures OnceOnDevices(s')
  {
    forall c1, k1, c2, k2 | IsItem(s', D(c1), k1) && IsItem(s', D(c2), k2) && SameOnce(s', c1, k1, c2, k2)
      ensures c1 == c2 && k1 == k2 {
      assert IsItem(s, D(c1), k1) && IsItem(s, D(c2), k2) && SameOnce(s, c1, k1, c2, k2);
    }
  }

  lemma ElsewhereKeepsRequests(s: State, s': State)
    requires ElsewhereHistories(s, s') && RequestsKept(s)
    ensures RequestsKept(s')
  {
    forall h | h in s'.objs ensures RequestKept(s', h) {
      assert RequestKept(s, h);
    }
  }

  lemma ElsewhereKeepsQueues(s: State, s': State)
    requires ControlOk(s) && QueuesOk(s) && ElsewhereHistories(s, s')
    ensures QueuesOk(s')
  {
    assert ObjectsOk(s) && DomainsOk(s);
    hide ControlOk, ObjectsOk, ElsewhereHistories, ThreadOk, OnceOnDevices, RequestsKept;
    forall t | t in s'.pc ensures ThreadOk(s', t) {
      if t in s.pc {
        ElsewhereThread(s, s', t);
      } else {
        NewThread(s, s', t);
      }
    }
    ElsewhereKeepsOnce(s, s');
    ElsewhereKeepsRequests(s, s');
  }

  lemma StepKeepsQueues(s: State, a: Action)
    requires ControlOk(s) && QueuesOk(s) && Enabled(s, a)
    ensures QueuesOk(Apply(s, a))
  {
    hide ElsewhereHistories, GoodPlan, GoodPush;
    if a.Moves? {
      PlanGood(s, a.t, a.input);
      PlanPushes(s, a.t, a.input);
      MoveKeepsQueues(s, a.t, PlanOf(s, a.t, a.input));
    } else {
      OutsideHistories(s, a);
      ElsewhereKeepsQueues(s, Apply(s, a));
    }
  }
}
