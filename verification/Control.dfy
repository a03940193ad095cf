/** What every step keeps about the control state: program counters, the two tables,
    the session objects and the threads tearing them down. */
module Control {
  import opened Machine

  // ---- The invariant ----

  /** `id` was inserted once, and if it is still in the table it names a session of connection c's device. */
  ghost predicate OwnDevice(s: State, c: nat, id: string) {
    c in s.cdev && id in s.used
    && (id in s.table ==> s.table[id] in s.objs && s.objs[s.table[id]].dev == s.cdev[c])
  }

  /** A lookup at step gotAt found session h: it was not removed before then. */
  ghost predicate FoundAt(s: State, h: nat, gotAt: nat) {
    h in s.objs && s.objs[h].insertedAt < gotAt < s.now
    && (s.objs[h].teardown.Torn? ==> gotAt < s.objs[h].teardown.at)
  }

  ghost predicate ConnOf(s: State, c: nat, h: nat) {
    h in s.objs && c in s.cdev && s.cdev[c] == s.objs[h].dev
  }

  ghost predicate Asked(s: State, h: nat) {
    h in s.objs && s.objs[h].requested.Some?
  }

  ghost predicate Unasked(s: State, h: nat) {
    h in s.objs && s.objs[h].requested.None?
  }

  /** A browser handler closes its own session only, a connection those of its device only. */
  ghost predicate MayClose(s: State, t: Thread, h: nat) {
    match t
    case B(h') => h' == h && h in s.objs
    case D(c) => ConnOf(s, c, h)
  }

  /** t won the close of session h and has come to this stage. */
  ghost predicate TearingAt(s: State, t: Thread, h: nat, stage: nat) {
    h in s.objs && s.objs[h].teardown.Torn?
    && s.objs[h].teardown.closer == t && s.objs[h].teardown.stage == stage
    && MayClose(s, t, h)
  }

  ghost predicate StageOk(s: State, t: Thread, stage: Stage) {
    match stage
    case Mark(id) => if t.B? then t.h in s.objs && id == s.objs[t.h].id else OwnDevice(s, t.c, id)
    case Lookup(h) => TearingAt(s, t, h, 1)
    case PushDevice(h, c) => TearingAt(s, t, h, 1) && ConnOf(s, c, h)
    case PushBrowser(h) => TearingAt(s, t, h, 2)
    case Cancel(h) => TearingAt(s, t, h, 3)
  }

  ghost predicate TodoOk(s: State, c: nat, todo: set<string>) {
    forall id :: id in todo ==> OwnDevice(s, c, id)
  }

  ghost predicate WhyOk(s: State, t: Thread, why: Why) {
    match why
    case FailedOpen(_) => t.B? && Unasked(s, t.h)
    case BrowserGone => t.B? && Asked(s, t.h)
    case DeviceEnded => t.D?
    case DeviceGone(todo) => t.D? && TodoOk(s, t.c, todo)
  }

  ghost predicate BrowserPcOk(s: State, h: nat, b: BrowserPC) {
    match b
    case Start => h !in s.objs
    case CheckOnline(_, _) => h !in s.objs
    case Insert(_, _) => h !in s.objs
    case RequestLookup(_) => Unasked(s, h)
    case RequestPush(_, c) => Unasked(s, h) && ConnOf(s, c, h)
    case Reject(_) => h in s.objs ==> Unasked(s, h)
    case SayReady => Asked(s, h)
    case Loop => Asked(s, h)
    case FwdGet(_) => Asked(s, h)
    case FwdLookup(_, p, gotAt) => Asked(s, h) && p == h && FoundAt(s, h, gotAt)
    case FwdPush(_, c, gotAt) => Asked(s, h) && ConnOf(s, c, h) && FoundAt(s, h, gotAt)
    case Leaving => true
    case Gone => true
  }

  ghost predicate DevicePcOk(s: State, c: nat, d: DevicePC) {
    match d
    case RelayPush(env, h, gotAt) => ConnOf(s, c, h) && FoundAt(s, h, gotAt) && s.objs[h].id == env.sid
    case EndNext(todo) => TodoOk(s, c, todo)
    case _ => true
  }

  /** What thread t's program counter says about the shared state. */
  ghost predicate PcOk(s: State, t: Thread, p: PC) {
    match p
    case AtBrowser(b) => t.B? && BrowserPcOk(s, t.h, b)
    case AtDevice(d) => t.D? && DevicePcOk(s, t.c, d)
    case Closing(stage, why) => StageOk(s, t, stage) && WhyOk(s, t, why)
  }

  /** A browser handler at this point has inserted its session and not yet passed its close. */
  ghost predicate Holding(p: PC) {
    match p
    case AtBrowser(b) => !(b.Start? || b.CheckOnline? || b.Insert? || b.Reject? || b.Leaving? || b.Gone?)
    case AtDevice(_) => false
    case Closing(stage, why) => stage.Mark? && (why.FailedOpen? || why.BrowserGone?)
  }

  /** At this point a thread is tearing session h down. */
  ghost predicate TearsDown(p: PC, h: nat) {
    p.Closing? && !p.stage.Mark? && p.stage.h == h
  }

  ghost predicate TableOk(s: State) {
    forall id :: id in s.table ==>
      s.table[id] in s.objs && s.objs[s.table[id]].id == id && s.objs[s.table[id]].teardown.Live?
  }

  /** What holds of every session object ever allocated. */
  ghost predicate ObjectOk(s: State, h: nat)
    requires h in s.objs
  {
    var o := s.objs[h];
    o.id != "" && o.id in s.used && B(h) in s.pc && o.insertedAt < s.now
    && (o.requested.Some? ==> o.insertedAt < o.requested.value.at < s.now)
    && (o.closed <==> o.teardown.Torn?)
    && (o.teardown.Live? ==>
          o.cancels == 0 && o.id in s.table && s.table[o.id] == h && Holding(s.pc[B(h)]))
    && (o.teardown.Torn? ==> TornOk(s, h, o.teardown))
  }

  ghost predicate TornOk(s: State, h: nat, td: Teardown)
    requires h in s.objs && td.Torn?
  {
    s.objs[h].insertedAt < td.at < s.now && 1 <= td.stage <= 4 && MayClose(s, td.closer, h)
    && s.objs[h].cancels == (if td.stage == 4 then 1 else 0)
    && (td.stage == 4 ==> B(h) in s.cancelled)
    && (td.stage < 4 ==> td.closer in s.pc && TearsDown(s.pc[td.closer], h))
  }

  ghost predicate IdsDiffer(s: State) {
    forall h1, h2 :: h1 in s.objs && h2 in s.objs && s.objs[h1].id == s.objs[h2].id ==> h1 == h2
  }

  ghost predicate DomainsOk(s: State) {
    (forall t :: t in s.pc <==> t in s.q)
    && (forall t :: t in s.q <==> t in s.recv)
    && (forall t :: t in s.q <==> t in s.fates)
    && (forall c :: D(c) in s.pc <==> c in s.cdev)
  }

  /** Registered and not yet unregistered. */
  ghost predicate InService(p: PC) {
    match p
    case AtBrowser(_) => false
    case AtDevice(d) => !(d.Join? || d.Parted? || d.Off?)
    case Closing(_, why) => why.DeviceEnded? || why.DeviceGone?
  }

  ghost predicate ConnsOk(s: State) {
    forall d :: d in s.conns ==>
      s.conns[d] in s.cdev && s.cdev[s.conns[d]] == d
      && D(s.conns[d]) in s.pc && InService(s.pc[D(s.conns[d])])
  }

  /** An uncancelled connection in service is the one in the table. */
  ghost predicate PresenceOk(s: State) {
    forall c :: D(c) in s.pc && c in s.cdev && InService(s.pc[D(c)]) && D(c) !in s.cancelled ==>
      s.cdev[c] in s.conns && s.conns[s.cdev[c]] == c
  }

  ghost predicate ObjectsOk(s: State) {
    forall h :: h in s.objs ==> ObjectOk(s, h)
  }

  ghost predicate PcsOk(s: State) {
    forall t :: t in s.pc ==> PcOk(s, t, s.pc[t])
  }

  ghost predicate ControlOk(s: State) {
    DomainsOk(s) && TableOk(s) && IdsDiffer(s) && ConnsOk(s) && PresenceOk(s) && ObjectsOk(s) && PcsOk(s)
  }

  // ---- What an effect may rely on ----

  ghost predicate EffectOk(s: State, t: Thread, e: Effect) {
    match e
    case InsertSession(id, _) => t.B? && t.h !in s.objs && id != "" && id !in s.used
    case PushRequest(c, _) => t.B? && Unasked(s, t.h) && ConnOf(s, c, t.h) && D(c) in s.q && Room(s, D(c))
    case Delete(id) => id in s.table && MayClose(s, t, s.table[id]) && s.objs[s.table[id]].teardown.Live?
                       && s.objs[s.table[id]].id == id
    case DeviceOffline(h) => TearingAt(s, t, h, 1)
    case TellDevice(h, c, _) => TearingAt(s, t, h, 1) && ConnOf(s, c, h)
    case TellBrowser(h, _) => TearingAt(s, t, h, 2)
    case CancelSession(h) => TearingAt(s, t, h, 3)
    case Register => t.D? && t in s.pc && s.pc[t] == AtDevice(Join)
    case Unregister => t.D? && t in s.pc && s.pc[t] == AtDevice(Part)
    case _ => true
  }

  lemma BrowserEffectOk(s: State, h: nat, b: BrowserPC, input: Input)
    requires DomainsOk(s) && B(h) in s.pc && s.pc[B(h)] == AtBrowser(b) && BrowserReady(s, h, b, input)
    requires BrowserPcOk(s, h, b)
    ensures Performable(s, B(h), BrowserPlan(s, h, b, input).effect)
    ensures EffectOk(s, B(h), BrowserPlan(s, h, b, input).effect)
  {
    hide Room, FoundAt, DeviceReady, DomainsOk;
    ThreadIsListed(s, B(h));
    if b.RequestPush? || b.FwdPush? {
      ConnIsListed(s, b.c);
    }
  }

  lemma ThreadIsListed(s: State, t: Thread)
    requires DomainsOk(s) && t in s.pc
    ensures t in s.q && t in s.recv && t in s.fates
  {
  }

  lemma ConnIsListed(s: State, c: nat)
    requires DomainsOk(s) && c in s.cdev
    ensures D(c) in s.q
  {
  }

  lemma DeviceEffectOk(s: State, c: nat, d: DevicePC, input: Input)
    requires DomainsOk(s) && D(c) in s.pc && s.pc[D(c)] == AtDevice(d) && DeviceReady(s, c, d, input)
    requires d.RelayPush? ==> B(d.h) in s.pc
    ensures Performable(s, D(c), DevicePlan(s, c, d, input).effect)
    ensures EffectOk(s, D(c), DevicePlan(s, c, d, input).effect)
  {
    hide Room, DomainsOk, ConnOf, Unasked;
    ThreadIsListed(s, D(c));
    if d.RelayPush? {
      ThreadIsListed(s, B(d.h));
    }
  }

  lemma MarkEffectOk(s: State, t: Thread, id: string, why: Why)
    requires DomainsOk(s) && t in s.pc && CloseReady(s, Mark(id)) && StageOk(s, t, Mark(id)) && TableOk(s)
    requires t.B? && t.h in s.objs && id in s.table ==> s.table[id] == t.h
    ensures Performable(s, t, ClosePlan(s, Mark(id), why).effect)
    ensures EffectOk(s, t, ClosePlan(s, Mark(id), why).effect)
  {
  }

  lemma TearingEffectOk(s: State, t: Thread, stage: Stage, why: Why)
    requires DomainsOk(s) && t in s.pc && CloseReady(s, stage) && StageOk(s, t, stage) && !stage.Mark?
    requires B(stage.h) in s.pc
    ensures Performable(s, t, ClosePlan(s, stage, why).effect)
    ensures EffectOk(s, t, ClosePlan(s, stage, why).effect)
  {
    hide Reason;
  }

  lemma CloseEffectOk(s: State, t: Thread, stage: Stage, why: Why)
    requires ControlOk(s) && t in s.pc && s.pc[t] == Closing(stage, why) && CloseReady(s, stage)
    ensures Performable(s, t, ClosePlan(s, stage, why).effect)
    ensures EffectOk(s, t, ClosePlan(s, stage, why).effect)
  {
    assert PcOk(s, t, s.pc[t]);
    hide ClosePlan, Performable, EffectOk, OwnDevice, WhyOk;
    if stage.Mark? {
      assert TableOk(s) && IdsDiffer(s);
      MarkEffectOk(s, t, stage.id, why);
    } else {
      assert ObjectOk(s, stage.h);
      TearingEffectOk(s, t, stage, why);
    }
  }

  lemma PlanEffectOk(s: State, t: Thread, input: Input)
    requires ControlOk(s) && MayMove(s, t, input)
    ensures Performable(s, t, PlanOf(s, t, input).effect)
    ensures EffectOk(s, t, PlanOf(s, t, input).effect)
  {
    assert PcOk(s, t, s.pc[t]);
    if s.pc[t].AtBrowser? {
      BrowserEffectOk(s, t.h, s.pc[t].b, input);
    } else if s.pc[t].AtDevice? {
      assert s.pc[t].d.RelayPush? ==> ObjectOk(s, s.pc[t].d.h);
      DeviceEffectOk(s, t.c, s.pc[t].d, input);
    } else {
      CloseEffectOk(s, t, s.pc[t].stage, s.pc[t].why);
    }
  }

  // ---- What a step of thread t leaves to the others ----

  /** How a step of thread t, taken at `now`, may change session object number h. */
  ghost predicate Evolves(o: Session, o': Session, now: nat, t: Thread, h: nat) {
    o'.id == o.id && o'.dev == o.dev && o'.insertedAt == o.insertedAt
    && (o'.requested == o.requested
        || (t == B(h) && o.requested.None? && o'.requested.Some? && o'.requested.value.at == now))
    && (o'.teardown == o.teardown
        || (o.teardown.Live? && o'.teardown == Torn(t, now, 1))
        || (o.teardown.Torn? && o'.teardown.Torn? && o.teardown.closer == t == o'.teardown.closer
            && o'.teardown.at == o.teardown.at && o.teardown.stage < o'.teardown.stage))
  }

  ghost predicate Framed(s: State, s': State, t: Thread) {
    s'.now == s.now + 1
    && (forall h :: h in s.objs ==> h in s'.objs && Evolves(s.objs[h], s'.objs[h], s.now, t, h))
    && (forall h :: h in s'.objs && h !in s.objs ==>
          t == B(h) && s'.objs[h].id !in s.used && s'.objs[h].insertedAt == s.now
          && s'.objs[h].teardown.Live? && s'.objs[h].requested.None?)
    && (forall id :: id in s'.table ==> id !in s.used || (id in s.table && s'.table[id] == s.table[id]))
    && s.used <= s'.used
    && (forall c :: c in s.cdev ==> c in s'.cdev && s'.cdev[c] == s.cdev[c])
  }

  lemma TouchEvolves(s: State, t: Thread, e: Effect)
    requires Performable(s, t, e) && EffectOk(s, t, e) && Touches(e) && TouchedBy(s, t, e) in s.objs
    ensures Evolves(s.objs[TouchedBy(s, t, e)], SessionAfter(s, t, e), s.now, t, TouchedBy(s, t, e))
  {
  }

  lemma TouchFramed(s: State, t: Thread, e: Effect, p: PC)
    requires Performable(s, t, e) && EffectOk(s, t, e) && Touches(e)
    ensures Framed(s, Move(s, t, Plan(p, e)), t)
  {
    hide ChannelsAfter, RecvAfter, FatesAfter, ConnsAfter, LastOutAfter, CollectAfter, CancelledBy;
    if TouchedBy(s, t, e) in s.objs {
      TouchEvolves(s, t, e);
    }
    InsertedFresh(s, t, e);
    hide Performable, EffectOk, SessionAfter, Evolves, TouchedBy;
  }

  lemma InsertedFresh(s: State, t: Thread, e: Effect)
    requires Performable(s, t, e) && EffectOk(s, t, e) && Touches(e)
    ensures TouchedBy(s, t, e) !in s.objs ==>
              e.InsertSession? && t == B(TouchedBy(s, t, e))
              && var o := SessionAfter(s, t, e);
                 o.id == e.id && o.insertedAt == s.now && o.requested.None? && o.teardown.Live?
    ensures e.InsertSession? ==> e.id !in s.used
  {
  }

  lemma OtherFramed(s: State, t: Thread, e: Effect, p: PC)
    requires Performable(s, t, e) && !Touches(e)
    ensures Framed(s, Move(s, t, Plan(p, e)), t)
  {
    hide ChannelsAfter, RecvAfter, FatesAfter, ConnsAfter, LastOutAfter, CollectAfter, CancelledBy;
  }

  lemma EffectFramed(s: State, t: Thread, e: Effect, p: PC)
    requires Performable(s, t, e) && EffectOk(s, t, e)
    ensures Framed(s, Move(s, t, Plan(p, e)), t)
  {
    hide *;
    if Touches(e) {
      TouchFramed(s, t, e, p);
    } else {
      OtherFramed(s, t, e, p);
    }
  }

  lemma OthersTearing(s: State, s': State, t: Thread, t': Thread)
    requires Framed(s, s', t) && t' != t
    ensures forall h, stage :: TearingAt(s, t', h, stage) ==> TearingAt(s', t', h, stage)
  {
    forall h | h in s.objs ensures h in s'.objs && Evolves(s.objs[h], s'.objs[h], s.now, t, h) {}
  }

  lemma OthersOwn(s: State, s': State, t: Thread)
    requires Framed(s, s', t)
    ensures forall c, id :: OwnDevice(s, c, id) ==> OwnDevice(s', c, id)
  {
    forall h | h in s.objs ensures h in s'.objs && Evolves(s.objs[h], s'.objs[h], s.now, t, h) {}
  }

  lemma OthersFacts(s: State, s': State, t: Thread, t': Thread)
    requires Framed(s, s', t) && t' != t && ObjectsOk(s)
    ensures forall h :: Asked(s, h) ==> Asked(s', h)
    ensures forall c, h :: ConnOf(s, c, h) ==> ConnOf(s', c, h)
    ensures forall h, g :: FoundAt(s, h, g) ==> FoundAt(s', h, g)
    ensures t'.B? && t'.h !in s.objs ==> t'.h !in s'.objs
    ensures t'.B? && Unasked(s, t'.h) ==> Unasked(s', t'.h)
    ensures forall c, id :: OwnDevice(s, c, id) ==> OwnDevice(s', c, id)
    ensures forall h, stage :: TearingAt(s, t', h, stage) ==> TearingAt(s', t', h, stage)
  {
    OthersTearing(s, s', t, t');
    OthersOwn(s, s', t);
    hide TearsDown, Holding, TearingAt, OwnDevice;
    forall h | h in s.objs ensures Evolves(s.objs[h], s'.objs[h], s.now, t, h) && ObjectOk(s, h) {}
  }

  lemma OthersBrowserOk(s: State, s': State, t: Thread, h: nat, b: BrowserPC)
    requires Framed(s, s', t) && B(h) != t && BrowserPcOk(s, h, b) && ObjectsOk(s)
    ensures BrowserPcOk(s', h, b)
  {
    OthersFacts(s, s', t, B(h));
  }

  lemma OthersStageOk(s: State, s': State, t: Thread, t': Thread, stage: Stage)
    requires Framed(s, s', t) && t' != t && StageOk(s, t', stage) && ObjectsOk(s)
    ensures StageOk(s', t', stage)
  {
    OthersFacts(s, s', t, t');
  }

  lemma OthersPcOk(s: State, s': State, t: Thread, t': Thread, p: PC)
    requires Framed(s, s', t) && t' != t && PcOk(s, t', p) && ObjectsOk(s)
    ensures PcOk(s', t', p)
  {
    if p.AtBrowser? {
      OthersBrowserOk(s, s', t, t'.h, p.b);
    } else {
      OthersFacts(s, s', t, t');
      if p.Closing? {
        OthersStageOk(s, s', t, t', p.stage);
      }
    }
  }

  // ---- The tables and the session objects after a step ----

  lemma TableStep(s: State, t: Thread, e: Effect, p: PC)
    requires Performable(s, t, e) && EffectOk(s, t, e) && TableOk(s)
    ensures TableOk(Move(s, t, Plan(p, e)))
  {
    hide Performable, UsedAfter;
  }

  lemma IdsStep(s: State, t: Thread, e: Effect, p: PC)
    requires Performable(s, t, e) && EffectOk(s, t, e) && IdsDiffer(s) && ObjectsOk(s)
    ensures IdsDiffer(Move(s, t, Plan(p, e)))
  {
    hide Move;
    forall h | h in s.objs ensures s.objs[h].id in s.used {
      assert ObjectOk(s, h);
    }
    EffectFramed(s, t, e, p);
  }

  /** The keys of m' are those of m. */
  ghost predicate SameKeys<K(!new), V>(m: map<K, V>, m': map<K, V>) {
    forall x :: x in m' <==> x in m
  }

  lemma MoveKeys(s: State, t: Thread, e: Effect)
    requires Performable(s, t, e)
    ensures SameKeys(s.q, ChannelsAfter(s, t, e)) && SameKeys(s.recv, RecvAfter(s, t, e))
    ensures SameKeys(s.fates, FatesAfter(s, t, e))
  {
    hide OfferItem, PushFate;
  }

  lemma SameDomains(s: State, s': State)
    requires DomainsOk(s) && SameKeys(s.pc, s'.pc) && SameKeys(s.q, s'.q)
    requires SameKeys(s.recv, s'.recv) && SameKeys(s.fates, s'.fates) && s'.cdev == s.cdev
    ensures DomainsOk(s')
  {
  }

  lemma DomainsStep(s: State, t: Thread, e: Effect, p: PC)
    requires Performable(s, t, e) && DomainsOk(s) && t in s.pc
    ensures DomainsOk(Move(s, t, Plan(p, e)))
  {
    assert SameKeys(s.pc, s.pc[t := p]);
    hide DomainsOk, Performable, SameKeys;
    MoveKeys(s, t, e);
    SameDomains(s, Move(s, t, Plan(p, e)));
  }

  /** How registering and unregistering change whether a thread is in service. */
  ghost predicate ServiceMoves(p: PC, e: Effect, p': PC) {
    if e.Register? then InService(p')
    else if e.Unregister? then !InService(p')
    else InService(p) == InService(p')
  }

  lemma ConnsStep(s: State, t: Thread, e: Effect, p: PC)
    requires Performable(s, t, e) && EffectOk(s, t, e) && DomainsOk(s) && t in s.pc && ConnsOk(s)
    requires ServiceMoves(s.pc[t], e, p)
    ensures ConnsOk(Move(s, t, Plan(p, e)))
  {
    hide TableAfter, ObjsAfter, ChannelsAfter, RecvAfter, FatesAfter, UsedAfter, CollectAfter, LastOutAfter, InService;
  }

  lemma PresenceStep(s: State, t: Thread, e: Effect, p: PC)
    requires Performable(s, t, e) && EffectOk(s, t, e) && DomainsOk(s) && t in s.pc && ConnsOk(s) && PresenceOk(s)
    requires ServiceMoves(s.pc[t], e, p)
    ensures PresenceOk(Move(s, t, Plan(p, e)))
  {
    hide TableAfter, ObjsAfter, ChannelsAfter, RecvAfter, FatesAfter, UsedAfter, CollectAfter, LastOutAfter, InService;
    hide DomainsOk;
    if e.Register? {
      PresenceRegisters(s, t, e, p);
    } else {
      PresenceKept(s, t, e, p);
    }
  }

  lemma PresenceRegisters(s: State, t: Thread, e: Effect, p: PC)
    requires Performable(s, t, e) && e.Register? && t in s.pc && PresenceOk(s)
    ensures PresenceOk(Move(s, t, Plan(p, e)))
  {
    hide TableAfter, ObjsAfter, ChannelsAfter, RecvAfter, FatesAfter, UsedAfter, CollectAfter, LastOutAfter, InService;
  }

  lemma PresenceKept(s: State, t: Thread, e: Effect, p: PC)
    requires Performable(s, t, e) && !e.Register? && t in s.pc && PresenceOk(s)
    requires e.Unregister? ==> t.D? && !InService(p)
    requires !e.Unregister? ==> InService(p) == InService(s.pc[t])
    ensures PresenceOk(Move(s, t, Plan(p, e)))
  {
    hide TableAfter, ObjsAfter, ChannelsAfter, RecvAfter, FatesAfter, UsedAfter, CollectAfter, LastOutAfter, InService;
  }

  /** How a thread's next program counter keeps track of the sessions it holds or tears down. */
  ghost predicate Tracks(s: State, t: Thread, e: Effect, p: PC)
    requires t in s.pc
  {
    (t.B? && t.h in s.objs && s.objs[t.h].teardown.Live? ==>
       Holding(p) || (e.Delete? && e.id == s.objs[t.h].id))
    && (e.InsertSession? ==> Holding(p))
    && (e.Delete? && e.id in s.table ==> TearsDown(p, s.table[e.id]))
    && (forall h :: h in s.objs && TearsDown(s.pc[t], h) ==> TearsDown(p, h) || e == CancelSession(h))
  }

  lemma NewObject(s: State, t: Thread, e: Effect, p: PC)
    requires Performable(s, t, e) && EffectOk(s, t, e) && t in s.pc && Tracks(s, t, e, p)
    requires e.InsertSession?
    ensures ObjectOk(Move(s, t, Plan(p, e)), t.h)
  {
  }

  lemma ObjectStep(s: State, t: Thread, e: Effect, p: PC, h: nat)
    requires Performable(s, t, e) && EffectOk(s, t, e) && t in s.pc && Tracks(s, t, e, p)
    requires h in s.objs && ObjectOk(s, h) && TableOk(s)
    ensures h in Move(s, t, Plan(p, e)).objs && ObjectOk(Move(s, t, Plan(p, e)), h)
  {
    var s' := Move(s, t, Plan(p, e));
    if Touches(e) && TouchedBy(s, t, e) == h {
      TouchedObjectStep(s, t, e, p);
    } else {
      OtherObjectStep(s, t, e, p, h);
    }
  }

  lemma TouchedObjectStep(s: State, t: Thread, e: Effect, p: PC)
    requires Performable(s, t, e) && EffectOk(s, t, e) && t in s.pc && Tracks(s, t, e, p)
    requires Touches(e) && !e.InsertSession? && ObjectOk(s, TouchedBy(s, t, e))
    ensures TouchedBy(s, t, e) in Move(s, t, Plan(p, e)).objs
    ensures ObjectOk(Move(s, t, Plan(p, e)), TouchedBy(s, t, e))
  {
    hide Performable, TearsDown;
    if e.PushRequest? {
      RequestedObjectStep(s, t, e, p);
    } else {
      TearingObjectStep(s, t, e, p);
    }
    hide ObjectOk, EffectOk, Tracks, Move;
  }

  lemma RequestedObjectStep(s: State, t: Thread, e: Effect, p: PC)
    requires Performable(s, t, e) && EffectOk(s, t, e) && t in s.pc && Tracks(s, t, e, p)
    requires e.PushRequest? && ObjectOk(s, TouchedBy(s, t, e))
    ensures TouchedBy(s, t, e) in Move(s, t, Plan(p, e)).objs
    ensures ObjectOk(Move(s, t, Plan(p, e)), TouchedBy(s, t, e))
  {
    hide RecvAfter, TearsDown, Room, ChannelsAfter, Performable, FatesAfter;
  }

  lemma TearingObjectStep(s: State, t: Thread, e: Effect, p: PC)
    requires Performable(s, t, e) && EffectOk(s, t, e) && t in s.pc && Tracks(s, t, e, p)
    requires Touches(e) && !e.InsertSession? && !e.PushRequest? && ObjectOk(s, TouchedBy(s, t, e))
    ensures TouchedBy(s, t, e) in Move(s, t, Plan(p, e)).objs
    ensures ObjectOk(Move(s, t, Plan(p, e)), TouchedBy(s, t, e))
  {
    hide RecvAfter, TearsDown, Room, ChannelsAfter, Performable, FatesAfter;
  }

  lemma OtherObjectStep(s: State, t: Thread, e: Effect, p: PC, h: nat)
    requires Performable(s, t, e) && EffectOk(s, t, e) && t in s.pc && Tracks(s, t, e, p)
    requires h in s.objs && ObjectOk(s, h) && !(Touches(e) && TouchedBy(s, t, e) == h)
    ensures h in Move(s, t, Plan(p, e)).objs
    ensures ObjectOk(Move(s, t, Plan(p, e)), h)
  {
    hide CancelledBy, ChannelsAfter, CollectAfter, Performable, RecvAfter, Room, Unasked;
    var s' := Move(s, t, Plan(p, e));
    assert s'.objs[h] == s.objs[h];
    if s.objs[h].teardown.Torn? {
      OtherTornStep(s, t, e, p, h);
    }
  }

  lemma OtherTornStep(s: State, t: Thread, e: Effect, p: PC, h: nat)
    requires Performable(s, t, e) && t in s.pc && Tracks(s, t, e, p) && h in s.objs
    requires s.objs[h].teardown.Torn? && TornOk(s, h, s.objs[h].teardown)
    requires !(Touches(e) && TouchedBy(s, t, e) == h)
    ensures var s' := Move(s, t, Plan(p, e));
            h in s'.objs && s'.objs[h] == s.objs[h] && TornOk(s', h, s.objs[h].teardown)
  {
    hide ChannelsAfter, CollectAfter, RecvAfter, FatesAfter, ConnsAfter, LastOutAfter, TableAfter, UsedAfter, Holding;
    assert MayClose(Move(s, t, Plan(p, e)), s.objs[h].teardown.closer, h);
  }

  lemma BrowserTracks(s: State, h: nat, b: BrowserPC, input: Input)
    requires B(h) in s.pc && s.pc[B(h)] == AtBrowser(b) && BrowserReady(s, h, b, input)
    requires h in s.objs ==> ObjectOk(s, h)
    ensures var plan := BrowserPlan(s, h, b, input);
            Tracks(s, B(h), plan.effect, plan.next) && ServiceMoves(s.pc[B(h)], plan.effect, plan.next)
  {
    hide BrowserReady;
  }

  lemma DeviceTracks(s: State, c: nat, d: DevicePC, input: Input)
    requires D(c) in s.pc && s.pc[D(c)] == AtDevice(d) && DeviceReady(s, c, d, input)
    ensures var plan := DevicePlan(s, c, d, input);
            Tracks(s, D(c), plan.effect, plan.next) && ServiceMoves(s.pc[D(c)], plan.effect, plan.next)
  {
    hide IdsOf, DeviceReady;
  }

  lemma CloseTracks(s: State, t: Thread, stage: Stage, why: Why)
    requires t in s.pc && s.pc[t] == Closing(stage, why) && CloseReady(s, stage) && PcOk(s, t, s.pc[t])
    requires t.B? && t.h in s.objs ==> ObjectOk(s, t.h)
    ensures var plan := ClosePlan(s, stage, why);
            Tracks(s, t, plan.effect, plan.next) && ServiceMoves(s.pc[t], plan.effect, plan.next)
  {
  }

  lemma EnteringNextOk(s: State, h: nat, b: BrowserPC, input: Input)
    requires B(h) in s.pc && s.pc[B(h)] == AtBrowser(b) && BrowserReady(s, h, b, input)
    requires Performable(s, B(h), BrowserPlan(s, h, b, input).effect) && BrowserPcOk(s, h, b)
    requires b.Start? || b.CheckOnline? || b.Reject? || b.SayReady? || b.Leaving? || b.Gone?
    ensures var plan := BrowserPlan(s, h, b, input); PcOk(Move(s, B(h), plan), B(h), plan.next)
  {
    hide ChannelsAfter, RecvAfter, FatesAfter, ConnsAfter, LastOutAfter, CollectAfter, CancelledBy, TableAfter;
    hide Performable, Room, BadOpen;
  }

  lemma InsertingNextOk(s: State, h: nat, b: BrowserPC, input: Input)
    requires B(h) in s.pc && s.pc[B(h)] == AtBrowser(b) && BrowserReady(s, h, b, input)
    requires Performable(s, B(h), BrowserPlan(s, h, b, input).effect)
    requires ConnsOk(s) && BrowserPcOk(s, h, b)
    requires b.Insert? || b.RequestLookup? || b.RequestPush?
    ensures var plan := BrowserPlan(s, h, b, input); PcOk(Move(s, B(h), plan), B(h), plan.next)
  {
    hide Performable, FatesAfter;
  }

  lemma ReceivingNextOk(s: State, h: nat, b: BrowserPC, input: Input)
    requires B(h) in s.pc && s.pc[B(h)] == AtBrowser(b) && BrowserReady(s, h, b, input)
    requires Performable(s, B(h), BrowserPlan(s, h, b, input).effect)
    requires BrowserPcOk(s, h, b) && h in s.objs && s.objs[h].insertedAt < s.now
    requires s.objs[h].id in s.table ==> s.table[s.objs[h].id] == h && s.objs[h].teardown.Live?
    requires b.Loop? || b.FwdGet?
    ensures var plan := BrowserPlan(s, h, b, input); PcOk(Move(s, B(h), plan), B(h), plan.next)
  {
    hide ChannelsAfter, RecvAfter, FatesAfter, ConnsAfter, LastOutAfter, CollectAfter, CancelledBy, TableAfter;
    hide Performable, Room, BadOpen;
  }

  lemma ForwardingNextOk(s: State, h: nat, b: BrowserPC, input: Input)
    requires B(h) in s.pc && s.pc[B(h)] == AtBrowser(b) && BrowserReady(s, h, b, input)
    requires Performable(s, B(h), BrowserPlan(s, h, b, input).effect)
    requires ConnsOk(s) && BrowserPcOk(s, h, b)
    requires b.FwdLookup? || b.FwdPush?
    ensures var plan := BrowserPlan(s, h, b, input); PcOk(Move(s, B(h), plan), B(h), plan.next)
  {
    hide FatesAfter, RecvAfter;
  }

  /** What a connection relaying an envelope knows of the session it looked up. */
  lemma RelayNextOk(s: State, c: nat, d: DevicePC, input: Input, h: nat)
    requires D(c) in s.pc && s.pc[D(c)] == AtDevice(d) && DeviceReady(s, c, d, input)
    requires Performable(s, D(c), DevicePlan(s, c, d, input).effect)
    requires d.RelayGet? || d.RelayPush?
    requires DevicePcOk(s, c, d) && h in s.objs && ObjectOk(s, h)
    requires d.RelayPush? ==> h == d.h
    requires d.RelayGet? && d.env.sid in s.table ==> h == s.table[d.env.sid]
    requires s.objs[h].id in s.table ==> s.table[s.objs[h].id] == h
    requires d.RelayGet? && d.env.sid in s.table ==> s.objs[h].teardown.Live? && s.objs[h].id == d.env.sid
    ensures var plan := DevicePlan(s, c, d, input); PcOk(Move(s, D(c), plan), D(c), plan.next)
  {
    hide Performable;
  }

  lemma ServingNextOk(s: State, c: nat, d: DevicePC, input: Input)
    requires D(c) in s.pc && s.pc[D(c)] == AtDevice(d) && DeviceReady(s, c, d, input)
    requires Performable(s, D(c), DevicePlan(s, c, d, input).effect)
    requires DevicePcOk(s, c, d)
    requires !d.RelayPush? && !(d.RelayGet? && d.env.sid in s.table)
    requires forall id :: id in s.table ==> id in s.used
    ensures var plan := DevicePlan(s, c, d, input); PcOk(Move(s, D(c), plan), D(c), plan.next)
  {
    hide ChannelsAfter, Performable, LastOutAfter;
  }

  lemma DeviceNextOk(s: State, c: nat, d: DevicePC, input: Input)
    requires D(c) in s.pc && s.pc[D(c)] == AtDevice(d) && DeviceReady(s, c, d, input)
    requires Performable(s, D(c), DevicePlan(s, c, d, input).effect)
    requires DevicePcOk(s, c, d) && TableOk(s) && IdsDiffer(s) && ObjectsOk(s)
    ensures var plan := DevicePlan(s, c, d, input); PcOk(Move(s, D(c), plan), D(c), plan.next)
  {
    if d.RelayPush? {
      RelayNextOk(s, c, d, input, d.h);
    } else if d.RelayGet? && d.env.sid in s.table {
      RelayNextOk(s, c, d, input, s.table[d.env.sid]);
    } else {
      forall id | id in s.table ensures id in s.used {
        assert ObjectOk(s, s.table[id]);
      }
      ServingNextOk(s, c, d, input);
    }
  }

  lemma MarkNextOk(s: State, t: Thread, id: string, why: Why)
    requires t in s.pc && s.pc[t] == Closing(Mark(id), why) && CloseReady(s, Mark(id)) && PcOk(s, t, s.pc[t])
    requires Performable(s, t, ClosePlan(s, Mark(id), why).effect)
    requires EffectOk(s, t, ClosePlan(s, Mark(id), why).effect)
    ensures var plan := ClosePlan(s, Mark(id), why); PcOk(Move(s, t, plan), t, plan.next)
  {
    hide Performable;
  }

  lemma LookupNextOk(s: State, t: Thread, h: nat, why: Why)
    requires t in s.pc && s.pc[t] == Closing(Lookup(h), why) && PcOk(s, t, s.pc[t]) && CloseReady(s, Lookup(h))
    requires Performable(s, t, ClosePlan(s, Lookup(h), why).effect) && ConnsOk(s)
    ensures var plan := ClosePlan(s, Lookup(h), why); PcOk(Move(s, t, plan), t, plan.next)
  {
  }

  lemma TearingNextOk(s: State, t: Thread, stage: Stage, why: Why)
    requires t in s.pc && s.pc[t] == Closing(stage, why) && CloseReady(s, stage) && PcOk(s, t, s.pc[t])
    requires stage.PushDevice? || stage.PushBrowser? || stage.Cancel?
    requires Performable(s, t, ClosePlan(s, stage, why).effect)
    ensures var plan := ClosePlan(s, stage, why); PcOk(Move(s, t, plan), t, plan.next)
  {
    hide Reason, ChannelsAfter, RecvAfter, FatesAfter, ConnsAfter, LastOutAfter, CancelledBy, FoundAt, Performable;
  }

  // ---- Every step keeps the invariant ----

  /** All that the invariant needs of a thread's plan. */
  ghost predicate GoodPlan(s: State, t: Thread, plan: Plan)
    requires t in s.pc
  {
    Performable(s, t, plan.effect) && EffectOk(s, t, plan.effect)
    && Tracks(s, t, plan.effect, plan.next) && ServiceMoves(s.pc[t], plan.effect, plan.next)
    && PcOk(Move(s, t, plan), t, plan.next)
  }

  lemma BrowserPlanGood(s: State, h: nat, b: BrowserPC, input: Input)
    requires ControlOk(s) && B(h) in s.pc && s.pc[B(h)] == AtBrowser(b) && BrowserReady(s, h, b, input)
    ensures GoodPlan(s, B(h), BrowserPlan(s, h, b, input))
  {
    hide DomainsOk;
    assert PcOk(s, B(h), s.pc[B(h)]);
    BrowserEffectOk(s, h, b, input);
    assert h in s.objs ==> ObjectOk(s, h);
    BrowserTracks(s, h, b, input);
    if b.Loop? || b.FwdGet? {
      ReceivingNextOk(s, h, b, input);
    } else if b.FwdLookup? || b.FwdPush? {
      ForwardingNextOk(s, h, b, input);
    } else {
      if b.Insert? || b.RequestLookup? || b.RequestPush? {
        InsertingNextOk(s, h, b, input);
      } else {
        EnteringNextOk(s, h, b, input);
      }
    }
  }

  lemma DevicePlanGood(s: State, c: nat, d: DevicePC, input: Input)
    requires ControlOk(s) && D(c) in s.pc && s.pc[D(c)] == AtDevice(d) && DeviceReady(s, c, d, input)
    ensures GoodPlan(s, D(c), DevicePlan(s, c, d, input))
  {
    assert PcOk(s, D(c), s.pc[D(c)]);
    assert d.RelayPush? ==> ObjectOk(s, d.h);
    DeviceEffectOk(s, c, d, input);
    DeviceTracks(s, c, d, input);
    DeviceNextOk(s, c, d, input);
  }

  lemma ClosePlanGood(s: State, t: Thread, stage: Stage, why: Why)
    requires ControlOk(s) && t in s.pc && s.pc[t] == Closing(stage, why) && CloseReady(s, stage)
    ensures GoodPlan(s, t, ClosePlan(s, stage, why))
  {
    CloseEffectOk(s, t, stage, why);
    assert PcOk(s, t, s.pc[t]);
    assert t.B? && t.h in s.objs ==> ObjectOk(s, t.h);
    CloseTracks(s, t, stage, why);
    if stage.Mark? {
      MarkNextOk(s, t, stage.id, why);
    } else if stage.Lookup? {
      LookupNextOk(s, t, stage.h, why);
    } else {
      TearingNextOk(s, t, stage, why);
    }
  }

  lemma PlanGood(s: State, t: Thread, input: Input)
    requires ControlOk(s) && MayMove(s, t, input)
    ensures GoodPlan(s, t, PlanOf(s, t, input))
  {
    hide ControlOk;
    if s.pc[t].AtBrowser? {
      BrowserPlanGood(s, t.h, s.pc[t].b, input);
    } else if s.pc[t].AtDevice? {
      DevicePlanGood(s, t.c, s.pc[t].d, input);
    } else {
      ClosePlanGood(s, t, s.pc[t].stage, s.pc[t].why);
    }
  }

  lemma MoveKeepsObjects(s: State, t: Thread, plan: Plan)
    requires ControlOk(s) && t in s.pc && GoodPlan(s, t, plan)
    ensures ObjectsOk(Move(s, t, plan))
  {
    hide PcOk, InService, ObjectOk;
    var s' := Move(s, t, plan);
    forall h | h in s'.objs ensures ObjectOk(s', h) {
      if h in s.objs {
        ObjectStep(s, t, plan.effect, plan.next, h);
      } else {
        EffectFramed(s, t, plan.effect, plan.next);
        NewObject(s, t, plan.effect, plan.next);
      }
    }
  }

  lemma MoveKeepsPcs(s: State, t: Thread, plan: Plan)
    requires ControlOk(s) && t in s.pc && GoodPlan(s, t, plan)
    ensures PcsOk(Move(s, t, plan))
  {
    hide PcOk, ChannelsAfter;
    var s' := Move(s, t, plan);
    EffectFramed(s, t, plan.effect, plan.next);
    forall t' | t' in s'.pc ensures PcOk(s', t', s'.pc[t']) {
      if t' != t {
        OthersPcOk(s, s', t, t', s.pc[t']);
      }
    }
  }

  lemma MoveKeepsControl(s: State, t: Thread, plan: Plan)
    requires ControlOk(s) && t in s.pc && GoodPlan(s, t, plan)
    ensures ControlOk(Move(s, t, plan))
  {
    DomainsStep(s, t, plan.effect, plan.next);
    TableStep(s, t, plan.effect, plan.next);
    IdsStep(s, t, plan.effect, plan.next);
    ConnsStep(s, t, plan.effect, plan.next);
    PresenceStep(s, t, plan.effect, plan.next);
    MoveKeepsObjects(s, t, plan);
    MoveKeepsPcs(s, t, plan);
  }

  /** A new handler, a writer's step or a context cancelled from outside. */
  ghost predicate Elsewhere(s: State, s': State) {
    s'.now == s.now + 1 && s'.table == s.table && s'.conns == s.conns && s'.objs == s.objs && s'.used == s.used
    && s.cancelled <= s'.cancelled
    && (forall t :: t in s.pc ==> t in s'.pc && s'.pc[t] == s.pc[t])
    && (forall t :: t in s'.pc && t !in s.pc ==>
          (t.B? && s'.pc[t] == AtBrowser(Start)) || (t.D? && s'.pc[t] == AtDevice(Join)))
    && (forall c :: c in s.cdev ==> c in s'.cdev && s'.cdev[c] == s.cdev[c])
    && DomainsOk(s')
  }

  /** The keys of m' are those of m and k. */
  ghost predicate OneMoreKey<K(!new), V>(m: map<K, V>, m': map<K, V>, k: K) {
    forall x :: x in m' <==> x in m || x == k
  }

  lemma ArrivalDomains(s: State, s': State, t: Thread)
    requires DomainsOk(s)
    requires OneMoreKey(s.pc, s'.pc, t) && OneMoreKey(s.q, s'.q, t)
    requires OneMoreKey(s.recv, s'.recv, t) && OneMoreKey(s.fates, s'.fates, t)
    requires if t.D? then OneMoreKey(s.cdev, s'.cdev, t.c) else s'.cdev == s.cdev
    ensures DomainsOk(s')
  {
    forall c ensures D(c) in s'.pc <==> c in s'.cdev {
      assert D(c) in s.pc <==> c in s.cdev;
    }
  }

  /** s' has one new handler, t, at its start. */
  lemma ArrivalIsElsewhere(s: State, s': State, t: Thread)
    requires t !in s.pc && s'.now == s.now + 1 && s.cancelled <= s'.cancelled && DomainsOk(s')
    requires s'.table == s.table && s'.conns == s.conns && s'.objs == s.objs && s'.used == s.used
    requires s'.pc == s.pc[t := if t.B? then AtBrowser(Start) else AtDevice(Join)]
    requires forall c :: c in s.cdev ==> c in s'.cdev && s'.cdev[c] == s.cdev[c]
    ensures Elsewhere(s, s')
  {
    hide DomainsOk;
  }

  lemma BrowserIsElsewhere(s: State, h: nat)
    requires DomainsOk(s) && B(h) !in s.pc
    ensures Elsewhere(s, Connect(s, B(h), AtBrowser(Start)))
  {
    var s' := Connect(s, B(h), AtBrowser(Start));
    hide DomainsOk, Elsewhere;
    ArrivalDomains(s, s', B(h));
    ArrivalIsElsewhere(s, s', B(h));
  }

  lemma NewConnection(s: State, c: nat)
    requires DomainsOk(s) && D(c) !in s.pc
    ensures c !in s.cdev
  {
  }

  lemma DeviceIsElsewhere(s: State, c: nat, dev: string)
    requires DomainsOk(s) && D(c) !in s.pc
    ensures Elsewhere(s, Connect(s, D(c), AtDevice(Join)).(cdev := s.cdev[c := dev]))
  {
    hide DomainsOk, Elsewhere;
    var s' := Connect(s, D(c), AtDevice(Join)).(cdev := s.cdev[c := dev]);
    NewConnection(s, c);
    ArrivalDomains(s, s', D(c));
    ArrivalIsElsewhere(s, s', D(c));
  }

  lemma TakeIsElsewhere(s: State, t: Thread, ok: bool)
    requires DomainsOk(s) && t in s.q && s.q[t].pending != []
    ensures Elsewhere(s, Take(s, t, ok))
  {
  }

  /** A writer exits or a context is cancelled: only the contexts and the writers differ. */
  lemma SignalIsElsewhere(s: State, s': State)
    requires DomainsOk(s) && s' == s.(now := s.now + 1, cancelled := s'.cancelled, writerDone := s'.writerDone)
    requires s.cancelled <= s'.cancelled
    ensures Elsewhere(s, s')
  {
  }

  lemma OutsideIsElsewhere(s: State, a: Action)
    requires DomainsOk(s) && Enabled(s, a) && !a.Moves?
    ensures Elsewhere(s, Apply(s, a))
  {
    hide MayMove, PlanOf, Move, Take, Connect, Elsewhere;
    if a.WriterTakes? {
      TakeIsElsewhere(s, a.t, a.ok);
    } else if a.BrowserConnects? {
      BrowserIsElsewhere(s, a.h);
    } else if a.DeviceConnects? {
      DeviceIsElsewhere(s, a.c, a.dev);
    } else {
      SignalIsElsewhere(s, Apply(s, a));
    }
  }

  lemma PcKnown(s: State, t: Thread)
    requires ControlOk(s)
    ensures t in s.pc ==> PcOk(s, t, s.pc[t])
  {
    hide DomainsOk, ObjectsOk, TableOk, IdsDiffer, ConnsOk, PresenceOk;
  }

  lemma MovesOnly(s: State, t: Thread, input: Input)
    requires MayMove(s, t, input) && Performable(s, t, PlanOf(s, t, input).effect)
    ensures t in s.pc && Move(s, t, PlanOf(s, t, input)).pc == s.pc[t := PlanOf(s, t, input).next]
  {
    hide PlanOf, Performable;
  }

  /** A thread's place changes by its own steps only. */
  lemma PcStep(s: State, a: Action, t: Thread)
    requires ControlOk(s) && Enabled(s, a) && t in Apply(s, a).pc
    ensures if t !in s.pc then Apply(s, a).pc[t] == (if t.B? then AtBrowser(Start) else AtDevice(Join))
            else if a.Moves? && a.t == t then
              MayMove(s, t, a.input) && Performable(s, t, PlanOf(s, t, a.input).effect)
              && Apply(s, a).pc[t] == PlanOf(s, t, a.input).next
            else Apply(s, a).pc[t] == s.pc[t]
  {
    assert DomainsOk(s);
    hide ControlOk, DomainsOk, PlanOf, Performable, Connect, Take;
    if !a.Moves? {
      hide MayMove;
      OutsideIsElsewhere(s, a);
    } else {
      MovesOnly(s, a.t, a.input);
      hide MayMove;
    }
  }

  lemma HandlerStays(s: State, a: Action, t: Thread)
    requires ControlOk(s) && Enabled(s, a) && t in s.pc
    ensures t in Apply(s, a).pc
  {
    assert DomainsOk(s);
    hide ControlOk, DomainsOk, MayMove, PlanOf, Performable, Connect, Take;
    if !a.Moves? {
      OutsideIsElsewhere(s, a);
    }
  }

  lemma ElsewherePc(s: State, s': State, t: Thread, p: PC)
    requires Elsewhere(s, s') && PcOk(s, t, p)
    ensures PcOk(s', t, p)
  {
    forall h, gotAt | FoundAt(s, h, gotAt) ensures FoundAt(s', h, gotAt) {}
    forall c, h | ConnOf(s, c, h) ensures ConnOf(s', c, h) {}
    forall c, id | OwnDevice(s, c, id) ensures OwnDevice(s', c, id) {}
    forall t, h, k | TearingAt(s, t, h, k) ensures TearingAt(s', t, h, k) {}
  }

  lemma ElsewhereKeepsObjects(s: State, s': State)
    requires ObjectsOk(s) && Elsewhere(s, s')
    ensures ObjectsOk(s') && forall h :: h in s.objs ==> B(h) in s.pc
  {
    forall h | h in s'.objs ensures ObjectOk(s', h) && B(h) in s.pc {
      assert ObjectOk(s, h);
    }
  }

  lemma ElsewhereKeepsConns(s: State, s': State)
    requires DomainsOk(s) && ConnsOk(s) && PresenceOk(s) && Elsewhere(s, s')
    ensures ConnsOk(s') && PresenceOk(s')
  {
  }

  lemma ElsewhereKeepsControl(s: State, s': State)
    requires ControlOk(s) && Elsewhere(s, s')
    ensures ControlOk(s')
  {
    ElsewhereKeepsObjects(s, s');
    ElsewhereKeepsConns(s, s');
    forall t | t in s'.pc ensures PcOk(s', t, s'.pc[t]) {
      if t in s.pc {
        ElsewherePc(s, s', t, s.pc[t]);
      }
    }
  }

  lemma StepKeepsControl(s: State, a: Action)
    requires ControlOk(s) && Enabled(s, a)
    ensures ControlOk(Apply(s, a))
  {
    if a.Moves? {
      PlanGood(s, a.t, a.input);
      MoveKeepsControl(s, a.t, PlanOf(s, a.t, a.input));
    } else {
      OutsideIsElsewhere(s, a);
      ElsewhereKeepsControl(s, Apply(s, a));
    }
  }
}
