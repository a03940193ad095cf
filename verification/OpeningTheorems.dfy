/** How a session is opened or refused: the device is asked for what the browser asked for, and the
    browser is told that its session is ready, or why it has none. */
module OpeningTheorems {
  import opened Wire
  import opened Machine
  import opened Control
  import opened Queues
  import opened Runs
  import opened RoutingTheorems
  import opened OrderTheorems

  // ---- The request carries what the browser asked for ----

  /** At step e browser handler h received session.open for this device and kind as its first message. */
  ghost predicate AskedAt(states: seq<State>, acts: seq<Action>, e: int, h: nat, dev: string, kind: string) {
    0 <= e < |acts| < |states| && B(h) in states[e].pc && states[e].pc[B(h)] == AtBrowser(BrowserPC.Start)
    && acts[e] == Moves(B(h), OpenMessage(dev, kind))
  }

  /** The handler is inside open, up to the push of the request. */
  ghost predicate Asking(p: PC) {
    p.AtBrowser? && (p.b.CheckOnline? || p.b.Insert? || p.b.RequestLookup? || p.b.RequestPush?)
  }

  /** The device it asks: still the one in its hands, or its session's. */
  ghost predicate Asks(s: State, h: nat, p: PC, dev: string, kind: string) {
    Asking(p) && p.b.kind == kind
    && if p.b.CheckOnline? || p.b.Insert? then p.b.dev == dev else h in s.objs && s.objs[h].dev == dev
  }

  lemma PlanAsks(s: State, h: nat, input: Input, dev: string, kind: string)
    requires MayMove(s, B(h), input) && Performable(s, B(h), PlanOf(s, B(h), input).effect)
    requires PcOk(s, B(h), s.pc[B(h)])
    requires Asks(Move(s, B(h), PlanOf(s, B(h), input)), h, PlanOf(s, B(h), input).next, dev, kind)
    ensures (s.pc[B(h)] == AtBrowser(BrowserPC.Start) && input == OpenMessage(dev, kind))
            || Asks(s, h, s.pc[B(h)], dev, kind)
  {
    hide ChannelsAfter, RecvAfter, FatesAfter, ConnsAfter, LastOutAfter, CollectAfter, CancelledBy, TableAfter;
    hide DevicePlan, DeviceReady, ConnOf, FoundAt, Performable, BadOpen, UsedAfter, Room, Reason;
  }

  lemma StepAsks(s: State, a: Action, h: nat, dev: string, kind: string)
    requires ControlOk(s) && Enabled(s, a) && B(h) in Apply(s, a).pc
    requires Asks(Apply(s, a), h, Apply(s, a).pc[B(h)], dev, kind)
    ensures B(h) in s.pc
    ensures (s.pc[B(h)] == AtBrowser(BrowserPC.Start) && a == Moves(B(h), OpenMessage(dev, kind)))
            || Asks(s, h, s.pc[B(h)], dev, kind)
  {
    PcStep(s, a, B(h));
    PcKnown(s, B(h));
    hide PcsOk, PcOk, PlanOf, MayMove, Performable, Connect, Take, DomainsOk;
    if a.Moves? {
      if a.t == B(h) {
        hide ControlOk;
        PlanAsks(s, h, a.input, dev, kind);
      } else {
        PlanEffectOk(s, a.t, a.input);
        OthersKeepAsking(s, a.t, PlanOf(s, a.t, a.input), h, dev, kind);
      }
    } else {
      OutsideIsElsewhere(s, a);
    }
  }

  lemma OthersKeepAsking(s: State, t: Thread, plan: Plan, h: nat, dev: string, kind: string)
    requires Performable(s, t, plan.effect) && EffectOk(s, t, plan.effect) && t != B(h) && ObjectsOk(s)
    requires B(h) in Move(s, t, plan).pc && Asks(Move(s, t, plan), h, Move(s, t, plan).pc[B(h)], dev, kind)
    ensures B(h) in s.pc && Asks(s, h, s.pc[B(h)], dev, kind)
  {
    EffectFramed(s, t, plan.effect, plan.next);
    hide Performable, EffectOk, ObjectsOk;
  }

  lemma {:induction false} OpenAsked(states: seq<State>, acts: seq<Action>, i: nat, h: nat, dev: string, kind: string)
    returns (e: nat)
    requires IsRun(states, acts) && i < |states| && B(h) in states[i].pc
    requires Asks(states[i], h, states[i].pc[B(h)], dev, kind)
    ensures e < i && AskedAt(states, acts, e, h, dev, kind)
  {
    hide Enabled, Apply, Asks;
    assert |states| == |acts| + 1 && i > 0;
    hide IsRun;
    RunStep(states, acts, i - 1);
    StepAsks(states[i - 1], acts[i - 1], h, dev, kind);
    hide ControlOk;
    if Asks(states[i - 1], h, states[i - 1].pc[B(h)], dev, kind) {
      e := OpenAsked(states, acts, i - 1, h, dev, kind);
    } else {
      e := i - 1;
    }
  }

  lemma RequestPushes(s: State, a: Action, to: Thread, it: Item, h: nat)
    requires PushesItem(s, a, to, it) && it.origin == Requested(h)
    ensures B(h) in s.pc && s.pc[B(h)].AtBrowser? && s.pc[B(h)].b.RequestPush? && h in s.objs
    ensures it.env == Envelope(SessionRequest, s.objs[h].id, s.pc[B(h)].b.kind)
  {
    hide IdsOf, BadOpen, Room, After, AfterForward, Reason;
  }

  /** The request for a session is the one its browser made: it names the session and the kind asked
      for, and the session is one of the device asked for. */
  lemma RequestAsksForIt(states: seq<State>, acts: seq<Action>, i: nat, c: nat, k: int, h: nat)
    returns (e: nat, kind: string)
    requires IsRun(states, acts) && i < |states| && RequestAt(states[i], c, k, h)
    ensures h in states[i].objs && e < states[i].q[D(c)].enqueued[k].at
    ensures AskedAt(states, acts, e, h, states[i].objs[h].dev, kind)
    ensures states[i].q[D(c)].enqueued[k].env == Envelope(SessionRequest, states[i].objs[h].id, kind)
  {
    var it := states[i].q[D(c)].enqueued[k];
    hide IsRun, PushesItem;
    ItemPushed(states, acts, i, D(c), k);
    RequestPushes(states[it.at], acts[it.at], D(c), it, h);
    RunLater(states, acts, it.at, i);
    kind := states[it.at].pc[B(h)].b.kind;
    e := OpenAsked(states, acts, it.at, h, states[it.at].objs[h].dev, kind);
  }

  lemma OnlyInsertsInsert(s: State, t: Thread, input: Input, h: nat)
    requires MayMove(s, t, input) && Performable(s, t, PlanOf(s, t, input).effect)
    requires EffectOk(s, t, PlanOf(s, t, input).effect)
    requires h !in s.objs && h in ObjsAfter(s, t, PlanOf(s, t, input).effect)
    ensures t == B(h) && t in s.pc && s.pc[t].AtBrowser? && s.pc[t].b.Insert?
    ensures PlanOf(s, t, input).next.AtBrowser? && PlanOf(s, t, input).next.b.RequestLookup?
  {
    hide IdsOf, BadOpen, Room, Reason, After, AfterForward, ConnOf, TearingAt, SessionAfter;
  }

  lemma InsertsForAsked(s: State, a: Action, h: nat)
    requires ControlOk(s) && Enabled(s, a) && h !in s.objs && h in Apply(s, a).objs
    ensures a.Moves? && a.t == B(h) && a.t in s.pc && s.pc[a.t].AtBrowser? && s.pc[a.t].b.Insert?
    ensures B(h) in Apply(s, a).pc && Apply(s, a).pc[B(h)].AtBrowser? && Apply(s, a).pc[B(h)].b.RequestLookup?
  {
    assert DomainsOk(s);
    hide ControlOk, DomainsOk, PlanOf, MayMove, Performable, EffectOk, Connect, Take, ObjsAfter;
    if a.Moves? {
      PlanEffectOk(s, a.t, a.input);
      OnlyInsertsInsert(s, a.t, a.input, h);
    } else {
      OutsideIsElsewhere(s, a);
    }
  }

  lemma InsertedNow(states: seq<State>, acts: seq<Action>, i: nat, h: nat)
    requires IsRun(states, acts) && i < |states| && h in states[i].objs
    ensures var n := states[i].objs[h].insertedAt;
            n + 1 <= i && h !in states[n].objs && h in states[n + 1].objs
            && states[n + 1].objs[h].dev == states[i].objs[h].dev
  {
    var n := states[i].objs[h].insertedAt;
    hide IsRun, TornOk, HistoriesGrow, Holding, FactsLast, MayClose;
    RunObject(states, acts, i, h);
    RunClock(states, acts, n);
    RunClock(states, acts, n + 1);
    if h in states[n].objs {
      RunObject(states, acts, n, h);
      SameInsertion(states, acts, n, i, h);
    }
    RunLater(states, acts, n + 1, i);
    assert h in states[n + 1].objs;
    SameInsertion(states, acts, n + 1, i, h);
  }

  lemma SameInsertion(states: seq<State>, acts: seq<Action>, n: nat, i: nat, h: nat)
    requires IsRun(states, acts) && n <= i < |states| && h in states[n].objs
    ensures h in states[i].objs && states[i].objs[h].insertedAt == states[n].objs[h].insertedAt
    ensures states[i].objs[h].dev == states[n].objs[h].dev
  {
    hide IsRun, HistoriesGrow;
    RunLater(states, acts, n, i);
  }

  lemma LooksUpWhatItAsked(s: State, h: nat)
    requires B(h) in s.pc && s.pc[B(h)].AtBrowser? && s.pc[B(h)].b.RequestLookup? && h in s.objs
    ensures Asks(s, h, s.pc[B(h)], s.objs[h].dev, s.pc[B(h)].b.kind)
  {
  }

  lemma InsertingStep(states: seq<State>, acts: seq<Action>, n: nat, h: nat) returns (kind: string)
    requires IsRun(states, acts) && n + 1 < |states| && h !in states[n].objs && h in states[n + 1].objs
    ensures B(h) in states[n + 1].pc && Asks(states[n + 1], h, states[n + 1].pc[B(h)], states[n + 1].objs[h].dev, kind)
    ensures B(h) in states[n].pc && states[n].pc[B(h)] != AtBrowser(BrowserPC.Start)
  {
    hide Enabled, Apply, Asks, ControlOk;
    assert n < |acts|;
    hide IsRun;
    RunStep(states, acts, n);
    InsertsForAsked(states[n], acts[n], h);
    kind := states[n + 1].pc[B(h)].b.kind;
    LooksUpWhatItAsked(states[n + 1], h);
  }

  /** Every session ever made is one that its browser asked for, on the device it asked for. */
  lemma SessionWasAskedFor(states: seq<State>, acts: seq<Action>, i: nat, h: nat) returns (e: nat, kind: string)
    requires IsRun(states, acts) && i < |states| && h in states[i].objs
    ensures e < states[i].objs[h].insertedAt && AskedAt(states, acts, e, h, states[i].objs[h].dev, kind)
  {
    var n := states[i].objs[h].insertedAt;
    hide IsRun, Asks;
    InsertedNow(states, acts, i, h);
    kind := InsertingStep(states, acts, n, h);
    e := OpenAsked(states, acts, n + 1, h, states[i].objs[h].dev, kind);
  }

  // ---- A browser that gets no session is told why ----

  /** At this step browser handler h gives up: the first message was no proper session.open, or the
      device was offline, at the first check or at the lookup for the request, or its queue was full. */
  ghost predicate Refuses(s: State, a: Action, h: nat, reason: string) {
    a.Moves? && a.t == B(h) && B(h) in s.pc && s.pc[B(h)].AtBrowser?
    && match s.pc[B(h)].b
       case Start => a.input == BadMessage(reason)
                     && (reason == "expected session.open first" || reason == "invalid session.open data")
       case CheckOnline(dev, _) => reason == "device offline" && dev !in s.conns
       case RequestLookup(_) => reason == "device offline" && h in s.objs && s.objs[h].dev !in s.conns
       case RequestPush(_, c) =>
         reason == "device outbound queue full" && D(c) in s.q && |s.q[D(c)].pending| >= 32
       case _ => false
  }

  ghost predicate RefusesAt(states: seq<State>, acts: seq<Action>, e: int, h: nat, reason: string) {
    0 <= e < |acts| < |states| && Refuses(states[e], acts[e], h, reason)
  }

  /** The handler is about to tell its browser this, if need be once it has closed the session again. */
  ghost predicate Refusing(p: PC, reason: string) {
    p == AtBrowser(Reject(reason)) || (p.Closing? && p.why == FailedOpen(reason))
  }

  lemma PlanRefuses(s: State, h: nat, input: Input, reason: string)
    requires MayMove(s, B(h), input) && PcOk(s, B(h), s.pc[B(h)])
    ensures Refusing(PlanOf(s, B(h), input).next, reason) <==>
            Refuses(s, Moves(B(h), input), h, reason)
            || (Refusing(s.pc[B(h)], reason) && s.pc[B(h)] != AtBrowser(Reject(reason)))
    ensures s.pc[B(h)] == AtBrowser(Reject(reason)) ==>
              PlanOf(s, B(h), input).effect == PushOwn(Envelope(SessionEnd, "", reason), Rejection)
              && B(h) in s.q && Room(s, B(h))
    ensures PlanOf(s, B(h), input).effect.PushOwn? && PlanOf(s, B(h), input).effect.origin.Rejection? ==>
              s.pc[B(h)].AtBrowser? && s.pc[B(h)].b.Reject?
  {
    hide DevicePlan, DeviceReady, ConnOf, FoundAt, IdsOf, Reason;
  }

  lemma StepRefuses(s: State, a: Action, h: nat, reason: string)
    requires ControlOk(s) && Enabled(s, a) && B(h) in Apply(s, a).pc
    ensures Refusing(Apply(s, a).pc[B(h)], reason) <==>
            Refuses(s, a, h, reason)
            || (B(h) in s.pc && Refusing(s.pc[B(h)], reason)
                && !(a.Moves? && a.t == B(h) && s.pc[B(h)] == AtBrowser(Reject(reason))))
  {
    PcKnown(s, B(h));
    hide ControlOk, PcOk, PlanOf, MayMove, Performable, Connect, Take, Move;
    PcStep(s, a, B(h));
    if a.Moves? && a.t == B(h) {
      PlanRefuses(s, h, a.input, reason);
      assert a == Moves(B(h), a.input);
    }
    hide Apply;
  }

  lemma {:induction false} RefusedBecause(states: seq<State>, acts: seq<Action>, i: nat, h: nat, reason: string)
    returns (e: nat)
    requires IsRun(states, acts) && i < |states| && B(h) in states[i].pc && Refusing(states[i].pc[B(h)], reason)
    ensures e < i && RefusesAt(states, acts, e, h, reason)
  {
    hide Enabled, Apply, Refuses, Refusing, ControlOk;
    assert |states| == |acts| + 1 && i > 0;
    hide IsRun;
    RunStep(states, acts, i - 1);
    StepRefuses(states[i - 1], acts[i - 1], h, reason);
    if Refuses(states[i - 1], acts[i - 1], h, reason) {
      e := i - 1;
    } else {
      e := RefusedBecause(states, acts, i - 1, h, reason);
    }
  }

  ghost predicate RejectionAt(s: State, h: nat, k: int) {
    IsItem(s, B(h), k) && s.q[B(h)].enqueued[k].origin == Rejection
  }

  lemma RejectionPushes(s: State, a: Action, h: nat, it: Item)
    requires PushesItem(s, a, B(h), it) && it.origin == Rejection
    ensures B(h) in s.pc && s.pc[B(h)].AtBrowser? && s.pc[B(h)].b.Reject?
    ensures it.env == Envelope(SessionEnd, "", s.pc[B(h)].b.reason)
  {
    hide IdsOf, BadOpen, Room, After, AfterForward, Reason;
  }

  /** A browser that is sent an end without a session is told what it was refused for. */
  lemma RejectionTells(states: seq<State>, acts: seq<Action>, i: nat, h: nat, k: int) returns (e: nat)
    requires IsRun(states, acts) && i < |states| && RejectionAt(states[i], h, k)
    ensures e < states[i].q[B(h)].enqueued[k].at
    ensures RefusesAt(states, acts, e, h, states[i].q[B(h)].enqueued[k].env.data)
    ensures states[i].q[B(h)].enqueued[k].env == Envelope(SessionEnd, "", states[i].q[B(h)].enqueued[k].env.data)
  {
    var it := states[i].q[B(h)].enqueued[k];
    hide IsRun, PushesItem, Refuses;
    ItemPushed(states, acts, i, B(h), k);
    RejectionPushes(states[it.at], acts[it.at], h, it);
    e := RefusedBecause(states, acts, it.at, h, it.env.data);
  }

  /** The envelope is, or has been, on the handler's queue. */
  ghost predicate HasBeenTold(s: State, t: Thread, env: Envelope) {
    exists k :: IsItem(s, t, k) && s.q[t].enqueued[k].env == env
  }

  /** A push that has room is on the queue after the step. */
  lemma OwnPushArrives(s: State, t: Thread, plan: Plan, env: Envelope, origin: Origin)
    requires Performable(s, t, plan.effect) && plan.effect == PushOwn(env, origin) && Room(s, t)
    ensures IsItem(Move(s, t, plan), t, |s.q[t].enqueued|)
    ensures Move(s, t, plan).q[t].enqueued[|s.q[t].enqueued|] == Item(env, origin, s.now)
  {
  }

  lemma RejectTells(s: State, a: Action, h: nat, reason: string)
    requires ControlOk(s) && Enabled(s, a) && a.Moves? && a.t == B(h)
    requires B(h) in s.pc && s.pc[B(h)] == AtBrowser(Reject(reason))
    ensures HasBeenTold(Apply(s, a), B(h), Envelope(SessionEnd, "", reason))
  {
    PcKnown(s, B(h));
    hide ControlOk, PcOk, PlanOf, MayMove, Performable, Move, Room;
    PlanRefuses(s, h, a.input, reason);
    OwnPushArrives(s, B(h), PlanOf(s, B(h), a.input), Envelope(SessionEnd, "", reason), Rejection);
  }

  lemma ToldLasts(states: seq<State>, acts: seq<Action>, j: nat, i: nat, t: Thread, env: Envelope)
    requires IsRun(states, acts) && j <= i < |states| && HasBeenTold(states[j], t, env)
    ensures HasBeenTold(states[i], t, env)
  {
    var k :| IsItem(states[j], t, k) && states[j].q[t].enqueued[k].env == env;
    hide IsRun;
    RunKeepsItem(states, acts, j, i, t, k);
  }

  /** A browser that is refused is told so before its handler leaves: the handler is on its way to tell it,
      or has told it. */
  lemma {:induction false} RefusalIsTold(states: seq<State>, acts: seq<Action>, e: nat, i: nat, h: nat, reason: string)
    requires IsRun(states, acts) && RefusesAt(states, acts, e, h, reason) && e < i < |states|
    ensures B(h) in states[i].pc
    ensures Refusing(states[i].pc[B(h)], reason) || HasBeenTold(states[i], B(h), Envelope(SessionEnd, "", reason))
    decreases i
  {
    hide Enabled, Apply, Refuses, Refusing, ControlOk, HasBeenTold;
    assert |states| == |acts| + 1;
    hide IsRun;
    RunStep(states, acts, i - 1);
    if e == i - 1 {
      RefuserIsThere(states[e], acts[e], h, reason);
      StepRefuses(states[e], acts[e], h, reason);
    } else {
      RefusalIsTold(states, acts, e, i - 1, h, reason);
      HandlerStays(states[i - 1], acts[i - 1], B(h));
      if HasBeenTold(states[i - 1], B(h), Envelope(SessionEnd, "", reason)) {
        ToldLasts(states, acts, i - 1, i, B(h), Envelope(SessionEnd, "", reason));
      } else {
        StepRefuses(states[i - 1], acts[i - 1], h, reason);
        if acts[i - 1].Moves? && acts[i - 1].t == B(h) && states[i - 1].pc[B(h)] == AtBrowser(Reject(reason)) {
          RejectTells(states[i - 1], acts[i - 1], h, reason);
        }
      }
    }
  }

  lemma RefuserIsThere(s: State, a: Action, h: nat, reason: string)
    requires ControlOk(s) && Enabled(s, a) && Refuses(s, a, h, reason)
    ensures B(h) in s.pc && B(h) in Apply(s, a).pc
  {
    assert B(h) in s.pc;
    hide Refuses, ControlOk, Enabled, Apply;
    HandlerStays(s, a, B(h));
  }
}
