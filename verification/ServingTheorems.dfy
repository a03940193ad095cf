/** What handlers say for themselves, and how they leave: every registered connection is greeted, every
    ping is answered once, every opened session is reported ready, and who has left is cancelled. */
module ServingTheorems {
  import opened Wire
  import opened Regions
  import opened Machine
  import opened Control
  import opened Queues
  import opened Runs
  import opened OrderTheorems
  import opened CauseTheorems
  import opened OpeningTheorems

  // ---- Ready ----

  /** Between the push of the request and the push of session.ready. */
  lemma ReadyPlan(s: State, h: nat, input: Input)
    requires MayMove(s, B(h), input) && PcOk(s, B(h), s.pc[B(h)])
    ensures var plan := PlanOf(s, B(h), input);
            (plan.effect.PushRequest? ==> plan.next == AtBrowser(SayReady))
            && (s.pc[B(h)] == AtBrowser(SayReady) ==>
                  h in s.objs && plan.effect == PushOwn(Envelope(SessionReady, s.objs[h].id, s.objs[h].id), Ready)
                  && B(h) in s.q && Room(s, B(h)))
  {
    hide Room, ConnOf, FoundAt, Reason;
  }

  ghost predicate ReadySaid(s: State, h: nat) {
    h in s.objs && HasBeenTold(s, B(h), Envelope(SessionReady, s.objs[h].id, s.objs[h].id))
  }

  /** A requested session is about to be reported ready, or has been. */
  ghost predicate ReadyOrSaying(s: State, h: nat) {
    Asked(s, h) ==> (B(h) in s.pc && s.pc[B(h)] == AtBrowser(SayReady)) || ReadySaid(s, h)
  }

  lemma AskedNow(s: State, a: Action, h: nat)
    requires ControlOk(s) && Enabled(s, a) && Asked(Apply(s, a), h) && !Asked(s, h)
    ensures a.Moves? && a.t == B(h) && MayMove(s, B(h), a.input) && PlanOf(s, B(h), a.input).effect.PushRequest?
  {
    assert DomainsOk(s);
    hide ControlOk, DomainsOk, PlanOf, MayMove, Connect, Take, EffectOk;
    if a.Moves? {
      RequestedByPush(s, a.t, PlanOf(s, a.t, a.input).effect, PlanOf(s, a.t, a.input).next, h);
      PlanEffectOk(s, a.t, a.input);
      RequestsForItself(s, a.t, PlanOf(s, a.t, a.input).effect);
    } else {
      OutsideIsElsewhere(s, a);
    }
    hide Performable, ObjsAfter;
  }

  lemma RequestsForItself(s: State, t: Thread, e: Effect)
    requires Performable(s, t, e)
    ensures e.PushRequest? ==> t.B?
  {
  }

  lemma ReadyTells(s: State, a: Action, h: nat)
    requires ControlOk(s) && Enabled(s, a) && a.Moves? && a.t == B(h)
    requires B(h) in s.pc && s.pc[B(h)] == AtBrowser(SayReady)
    ensures h in s.objs && HasBeenTold(Apply(s, a), B(h), Envelope(SessionReady, s.objs[h].id, s.objs[h].id))
  {
    PcKnown(s, B(h));
    hide ControlOk, PlanOf, MayMove, Performable, Move, Room;
    ReadyPlan(s, h, a.input);
    hide PcOk;
    var env := Envelope(SessionReady, s.objs[h].id, s.objs[h].id);
    OwnPushArrives(s, B(h), PlanOf(s, B(h), a.input), env, Ready);
  }

  lemma ReadyStep(s: State, a: Action, h: nat)
    requires ControlOk(s) && Enabled(s, a) && ReadyOrSaying(s, h) && Asked(Apply(s, a), h) && B(h) in s.pc
    ensures (Asked(s, h) && ReadySaid(s, h))
            || (B(h) in Apply(s, a).pc && Apply(s, a).pc[B(h)] == AtBrowser(SayReady))
            || (h in s.objs && HasBeenTold(Apply(s, a), B(h), Envelope(SessionReady, s.objs[h].id, s.objs[h].id)))
  {
    PcKnown(s, B(h));
    HandlerStays(s, a, B(h));
    PcStep(s, a, B(h));
    hide ControlOk, Enabled, Apply, ReadySaid, HasBeenTold, MayMove, PlanOf, PcOk;
    if !Asked(s, h) {
      AskedNow(s, a, h);
      ReadyPlan(s, h, a.input);
    } else if a.Moves? && a.t == B(h) && s.pc[B(h)] == AtBrowser(SayReady) {
      ReadyTells(s, a, h);
    }
  }

  lemma SessionKeepsId(states: seq<State>, acts: seq<Action>, j: nat, i: nat, h: nat)
    requires IsRun(states, acts) && j <= i < |states| && h in states[j].objs
    ensures h in states[i].objs && states[i].objs[h].id == states[j].objs[h].id
  {
    hide IsRun;
    RunLater(states, acts, j, i);
  }

  lemma RequesterIsThere(states: seq<State>, acts: seq<Action>, i: nat, h: nat)
    requires IsRun(states, acts) && 0 < i < |states| && Asked(states[i], h)
    ensures B(h) in states[i - 1].pc
  {
    hide Enabled, Apply;
    RunObject(states, acts, i, h);
    assert |states| == |acts| + 1;
    hide IsRun, ObjectOk;
    RunStep(states, acts, i - 1);
    RunClock(states, acts, i - 1);
    if h !in states[i - 1].objs {
      AskedNow(states[i - 1], acts[i - 1], h);
      assert B(h) in states[i - 1].pc;
    } else {
      RunObject(states, acts, i - 1, h);
    }
  }

  lemma {:induction false} ReadySooner(states: seq<State>, acts: seq<Action>, i: nat, h: nat)
    requires IsRun(states, acts) && i < |states|
    ensures ReadyOrSaying(states[i], h)
  {
    if i > 0 && Asked(states[i], h) {
      hide Enabled, Apply, ControlOk, HasBeenTold;
      assert |states| == |acts| + 1;
      hide IsRun;
      ReadySooner(states, acts, i - 1, h);
      RunStep(states, acts, i - 1);
      RequesterIsThere(states, acts, i, h);
      ReadyStep(states[i - 1], acts[i - 1], h);
      if h in states[i - 1].objs {
        SessionKeepsId(states, acts, i - 1, i, h);
        if ReadySaid(states[i - 1], h) {
          var id := states[i].objs[h].id;
          ToldLasts(states, acts, i - 1, i, B(h), Envelope(SessionReady, id, id));
        }
      }
    }
  }

  /** A browser whose session has been requested of its device is told that it is ready, as the next thing
      its handler does. */
  lemma ReadyIsTold(states: seq<State>, acts: seq<Action>, i: nat, h: nat)
    requires IsRun(states, acts) && i < |states| && Asked(states[i], h)
    requires B(h) in states[i].pc && states[i].pc[B(h)] != AtBrowser(SayReady)
    ensures HasBeenTold(states[i], B(h), Envelope(SessionReady, states[i].objs[h].id, states[i].objs[h].id))
  {
    hide IsRun, HasBeenTold;
    ReadySooner(states, acts, i, h);
  }

  // ---- Hello ----

  lemma HelloPlan(s: State, c: nat, input: Input)
    requires MayMove(s, D(c), input)
    ensures var plan := PlanOf(s, D(c), input);
            (s.pc[D(c)] == AtDevice(Join) ==> plan.next == AtDevice(SayHello))
            && (s.pc[D(c)] == AtDevice(SayHello) ==>
                  plan.effect == PushOwn(Envelope(Hello, "", ""), Greeting) && D(c) in s.q && Room(s, D(c)))
  {
    hide Room, IdsOf;
  }

  lemma HelloStep(s: State, a: Action, c: nat)
    requires ControlOk(s) && Enabled(s, a) && D(c) in Apply(s, a).pc
    requires D(c) in s.pc ==> BeforeHello(s, c)
    ensures BeforeHello(Apply(s, a), c) || HasBeenTold(Apply(s, a), D(c), Envelope(Hello, "", ""))
  {
    PcStep(s, a, D(c));
    hide ControlOk, MayMove, PlanOf, Performable, Move, Room;
    if D(c) in s.pc && a.Moves? && a.t == D(c) {
      HelloPlan(s, c, a.input);
      if s.pc[D(c)] == AtDevice(SayHello) {
        OwnPushArrives(s, D(c), PlanOf(s, D(c), a.input), Envelope(Hello, "", ""), Greeting);
      }
    }
  }

  /** Every connection is greeted before anything it sends is read. */
  lemma {:induction false} HelloIsSaid(states: seq<State>, acts: seq<Action>, i: nat, c: nat)
    requires IsRun(states, acts) && i < |states| && D(c) in states[i].pc
    ensures BeforeHello(states[i], c) || HasBeenTold(states[i], D(c), Envelope(Hello, "", ""))
  {
    hide Enabled, Apply, ControlOk, HasBeenTold, BeforeHello;
    assert |states| == |acts| + 1 && i > 0;
    hide IsRun;
    RunStep(states, acts, i - 1);
    if D(c) in states[i - 1].pc && !BeforeHello(states[i - 1], c) {
      HelloIsSaid(states, acts, i - 1, c);
      ToldLasts(states, acts, i - 1, i, D(c), Envelope(Hello, "", ""));
    } else {
      HelloStep(states[i - 1], acts[i - 1], c);
    }
  }

  // ---- Pings and pongs ----

  function Pings(received: seq<Envelope>): nat {
    if received == [] then 0
    else Pings(received[..|received| - 1]) + if received[|received| - 1].kind == Ping then 1 else 0
  }

  function Pongs(items: seq<Item>): nat {
    if items == [] then 0
    else Pongs(items[..|items| - 1]) + if items[|items| - 1].env == Envelope(Pong, "", "") then 1 else 0
  }

  lemma OnePingMore(received: seq<Envelope>, env: Envelope)
    ensures Pings(received + [env]) == Pings(received) + if env.kind == Ping then 1 else 0
  {
    assert (received + [env])[..|received|] == received;
  }

  lemma OnePongMore(items: seq<Item>, it: Item)
    ensures Pongs(items + [it]) == Pongs(items) + if it.env == Envelope(Pong, "", "") then 1 else 0
  {
    assert (items + [it])[..|items|] == items;
  }

  /** A connection's pings that are not answered yet: the one in its handler's hands. */
  ghost function Unanswered(p: PC): nat {
    if p == AtDevice(SayPong) then 1 else 0
  }

  lemma PlanServes(s: State, c: nat, input: Input)
    requires MayMove(s, D(c), input)
    ensures var p, e := PlanOf(s, D(c), input).next, PlanOf(s, D(c), input).effect;
            (e.Receive? || e.Skip? ==> Unanswered(s.pc[D(c)]) == 0)
            && Unanswered(p) == (if e.Skip? && e.env.kind == Ping then 1 else 0)
            && (e.Receive? ==> e.env.kind != Ping)
            && (if Unanswered(s.pc[D(c)]) == 1
                then e == PushOwn(Envelope(Pong, "", ""), Heartbeat) && D(c) in s.q && Room(s, D(c))
                else !(e.PushOwn? && e.origin.Heartbeat?))
  {
    hide Room, IdsOf, Reason;
  }

  lemma PongsAreHeartbeats(s: State, c: nat, k: nat, it: Item)
    requires ItemOk(s, D(c), k, it)
    ensures it.env == Envelope(Pong, "", "") <==> it.origin.Heartbeat?
  {
    hide ConnOf, FoundAt, AskedBefore;
  }

  ghost predicate PingsAnsweredIn(s: State, c: nat) {
    D(c) in s.pc && D(c) in s.recv && D(c) in s.q
    && Pings(s.recv[D(c)]) == Pongs(s.q[D(c)].enqueued) + Unanswered(s.pc[D(c)])
  }

  lemma ReceivedAfterMove(s: State, t: Thread, plan: Plan, to: Thread)
    requires Performable(s, t, plan.effect) && to in s.recv
    ensures to in Move(s, t, plan).recv
    ensures Move(s, t, plan).recv[to]
            == s.recv[to] + if t == to && (plan.effect.Receive? || plan.effect.Skip?) then [plan.effect.env] else []
  {
    hide Performable;
  }

  lemma PingsAfterMove(s: State, t: Thread, plan: Plan, to: Thread)
    requires Performable(s, t, plan.effect) && to in s.recv && to in Move(s, t, plan).recv
    ensures Pings(Move(s, t, plan).recv[to])
            == Pings(s.recv[to])
               + if t == to && (plan.effect.Receive? || plan.effect.Skip?) && plan.effect.env.kind == Ping then 1 else 0
  {
    hide Pings, Performable, Move;
    ReceivedAfterMove(s, t, plan, to);
    if plan.effect.Receive? || plan.effect.Skip? {
      OnePingMore(s.recv[to], plan.effect.env);
    }
    assert s.recv[to] + [] == s.recv[to];
  }

  /** What a step adds to a connection's pongs: its own heartbeat's. */
  ghost predicate PushesPong(s: State, t: Thread, e: Effect, c: nat)
    requires Performable(s, t, e) && D(c) in s.q
  {
    t == D(c) && e.PushOwn? && e.origin.Heartbeat? && Room(s, D(c))
  }

  lemma OwnPush(s: State, t: Thread, e: Effect, c: nat)
    requires Performable(s, t, e) && D(c) in s.q
    ensures PushesPong(s, t, e, c) <==>
            Pushes(e) && PushOf(s, t, e).to == D(c) && PushOf(s, t, e).origin.Heartbeat? && Room(s, D(c))
    ensures Room(s, D(c)) <==> HasRoom(s.q[D(c)].pending)
  {
  }

  lemma PongsAfterMove(s: State, t: Thread, plan: Plan, c: nat)
    requires Performable(s, t, plan.effect) && D(c) in s.q && D(c) in Move(s, t, plan).q
    requires var items := Move(s, t, plan).q[D(c)].enqueued; var n := |s.q[D(c)].enqueued|;
             n < |items| ==> ItemOk(Move(s, t, plan), D(c), n, items[n])
    ensures Pongs(Move(s, t, plan).q[D(c)].enqueued)
            == Pongs(s.q[D(c)].enqueued) + if PushesPong(s, t, plan.effect, c) then 1 else 0
  {
    hide Pongs, Performable, Move, ItemOk, Pushes, PushOf, PushesPong, Room;
    QueueAfterMove(s, t, plan, D(c));
    OwnPush(s, t, plan.effect, c);
    if Pushes(plan.effect) && PushOf(s, t, plan.effect).to == D(c) && HasRoom(s.q[D(c)].pending) {
      var it := NewItem(s, t, plan.effect);
      PongsAreHeartbeats(Move(s, t, plan), c, |s.q[D(c)].enqueued|, it);
      OnePongMore(s.q[D(c)].enqueued, it);
    }
  }

  lemma MoveAnswers(s: State, t: Thread, input: Input, c: nat)
    requires MayMove(s, t, input) && Performable(s, t, PlanOf(s, t, input).effect) && PingsAnsweredIn(s, c)
    requires D(c) in Move(s, t, PlanOf(s, t, input)).q && D(c) in Move(s, t, PlanOf(s, t, input)).recv
    requires var items := Move(s, t, PlanOf(s, t, input)).q[D(c)].enqueued; var n := |s.q[D(c)].enqueued|;
             n < |items| ==> ItemOk(Move(s, t, PlanOf(s, t, input)), D(c), n, items[n])
    ensures PingsAnsweredIn(Move(s, t, PlanOf(s, t, input)), c)
  {
    MovesOnly(s, t, input);
    hide MayMove, PlanOf, Performable, Move, ItemOk, Pings, Pongs, Unanswered, Room;
    PingsAfterMove(s, t, PlanOf(s, t, input), D(c));
    PongsAfterMove(s, t, PlanOf(s, t, input), c);
    if t == D(c) {
      PlanServes(s, c, input);
      hide PlanOf;
    }
  }

  lemma OutsideAnswers(s: State, a: Action, c: nat)
    requires ControlOk(s) && Enabled(s, a) && !a.Moves? && D(c) in Apply(s, a).pc
    requires D(c) in s.pc ==> PingsAnsweredIn(s, c)
    ensures PingsAnsweredIn(Apply(s, a), c)
  {
    PcStep(s, a, D(c));
    assert DomainsOk(s);
    hide ControlOk, MayMove, PlanOf, Connect, Take, Apply, Enabled, Pings, Pongs;
    OutsideHistories(s, a);
    assert D(c) in s.pc <==> D(c) in s.q;
    assert D(c) in Apply(s, a).pc <==> D(c) in Apply(s, a).q;
    assert Pings([]) == 0 && Pongs([]) == 0 by {
      NothingYet();
    }
  }

  lemma NothingYet()
    ensures Pings([]) == 0 && Pongs([]) == 0
  {
  }

  lemma StepAnswers(s: State, a: Action, c: nat)
    requires ControlOk(s) && Enabled(s, a) && D(c) in Apply(s, a).pc && ControlOk(Apply(s, a))
    requires D(c) in s.pc ==> PingsAnsweredIn(s, c)
    requires forall k :: IsItem(Apply(s, a), D(c), k) ==> ItemOk(Apply(s, a), D(c), k, Apply(s, a).q[D(c)].enqueued[k])
    ensures PingsAnsweredIn(Apply(s, a), c)
  {
    if a.Moves? {
      PcStep(s, a, D(c));
      ThreadIsListed(Apply(s, a), D(c));
      hide ControlOk, MayMove, PlanOf, Performable, Move, ItemOk, PingsAnsweredIn;
      MovesOnly(s, a.t, a.input);
      MoveAnswers(s, a.t, a.input, c);
    } else {
      hide ControlOk, MayMove, PlanOf, Performable, Connect, Take, ItemOk, PingsAnsweredIn, Apply, Enabled;
      OutsideAnswers(s, a, c);
    }
  }

  /** Every ping a connection sends is answered by exactly one pong, which is on its queue before
      anything else is read from it. */
  lemma {:induction false} PingsAnswered(states: seq<State>, acts: seq<Action>, i: nat, c: nat)
    requires IsRun(states, acts) && i < |states| && D(c) in states[i].pc
    ensures PingsAnsweredIn(states[i], c)
  {
    hide Enabled, Apply, ControlOk, PingsAnsweredIn, ItemOk;
    assert |states| == |acts| + 1 && i > 0;
    forall k | IsItem(states[i], D(c), k) ensures ItemOk(states[i], D(c), k, states[i].q[D(c)].enqueued[k]) {
      RunItem(states, acts, i, D(c), k);
    }
    hide IsRun;
    RunStep(states, acts, i - 1);
    RunControl(states, acts, i);
    if D(c) in states[i - 1].pc {
      PingsAnswered(states, acts, i - 1, c);
    }
    StepAnswers(states[i - 1], acts[i - 1], c);
  }

  // ---- Leaving ----

  /** The handler reads no more: its read has failed, its browser is done or refused. */
  ghost predicate Left(p: PC) {
    match p
    case AtBrowser(b) => b.Reject? || b.Leaving? || b.Gone?
    case AtDevice(d) => d.CollectIds? || d.EndNext? || d.Part? || d.Parted? || d.Off?
    case Closing(_, why) => !why.DeviceEnded?
  }

  /** At this step the handler comes to leave: a device's when its read fails; a browser's when its first
      or a later read fails, when it has sent session.end, or when it is refused. */
  ghost predicate Leaves(s: State, a: Action, t: Thread) {
    a.Moves? && a.t == t && t in s.pc
    && match t
       case B(h) => (s.pc[t] == AtBrowser(BrowserPC.Start) && a.input.ReadError?)
                    || BrowserCause(s, h, a.input, "browser closed") || exists reason :: Refuses(s, a, h, reason)
       case D(c) => s.pc[t] == AtDevice(Serve) && a.input.ReadError?
  }

  lemma BrowserLeaves(s: State, h: nat, input: Input)
    requires MayMove(s, B(h), input) && PcOk(s, B(h), s.pc[B(h)])
    ensures var plan := PlanOf(s, B(h), input);
            (Left(plan.next) <==> Left(s.pc[B(h)]) || Leaves(s, Moves(B(h), input), B(h)))
            && (Left(s.pc[B(h)]) || Leaves(s, Moves(B(h), input), B(h)) ==> !plan.effect.Receive? && !plan.effect.Skip?)
  {
    hide ConnOf, FoundAt, Reason;
    var a := Moves(B(h), input);
    if s.pc[B(h)].AtBrowser? {
      var b := s.pc[B(h)].b;
      if b.Start? && input.BadMessage? {
        assert Refuses(s, a, h, input.reason);
      } else if b.CheckOnline? && b.dev !in s.conns {
        assert Refuses(s, a, h, "device offline");
      } else if b.RequestLookup? && s.objs[h].dev !in s.conns {
        assert Refuses(s, a, h, "device offline");
      } else if b.RequestPush? && !Room(s, D(b.c)) {
        assert Refuses(s, a, h, "device outbound queue full");
      }
    }
  }

  lemma DeviceLeaves(s: State, c: nat, input: Input)
    requires MayMove(s, D(c), input) && PcOk(s, D(c), s.pc[D(c)])
    ensures var plan := PlanOf(s, D(c), input);
            (Left(plan.next) <==> Left(s.pc[D(c)]) || Leaves(s, Moves(D(c), input), D(c)))
            && (Left(s.pc[D(c)]) || Leaves(s, Moves(D(c), input), D(c)) ==> !plan.effect.Receive? && !plan.effect.Skip?)
  {
    hide ConnOf, FoundAt, Reason, IdsOf, OwnDevice;
  }

  lemma LeaveStep(s: State, a: Action, t: Thread)
    requires ControlOk(s) && Enabled(s, a) && t in Apply(s, a).pc
    ensures Left(Apply(s, a).pc[t]) <==> Leaves(s, a, t) || (t in s.pc && Left(s.pc[t]))
  {
    PcKnown(s, t);
    hide ControlOk, MayMove, PlanOf, Performable, Apply, Enabled, PcOk;
    PcStep(s, a, t);
    if t in s.pc && a.Moves? && a.t == t {
      assert a == Moves(t, a.input);
      if t.B? {
        BrowserLeaves(s, t.h, a.input);
      } else {
        DeviceLeaves(s, t.c, a.input);
      }
    }
  }

  lemma LeaversRead(s: State, a: Action, t: Thread)
    requires ControlOk(s) && Enabled(s, a) && t in s.pc && (Left(s.pc[t]) || Leaves(s, a, t))
    ensures t in s.recv && t in Apply(s, a).recv && Apply(s, a).recv[t] == s.recv[t]
  {
    PcKnown(s, t);
    ThreadIsListed(s, t);
    assert DomainsOk(s);
    hide ControlOk, MayMove, PlanOf, Performable, PcOk, Connect, Take, DomainsOk, Leaves, Move;
    if a.Moves? {
      var plan := PlanOf(s, a.t, a.input);
      ReceivedAfterMove(s, a.t, plan, t);
      assert s.recv[t] + [] == s.recv[t];
      if a.t == t {
        assert a == Moves(t, a.input);
        if t.B? {
          BrowserLeaves(s, t.h, a.input);
        } else {
          DeviceLeaves(s, t.c, a.input);
        }
      }
    } else {
      hide Apply, Enabled;
      OutsideHistories(s, a);
    }
  }

  ghost predicate LeavesAt(states: seq<State>, acts: seq<Action>, e: int, t: Thread) {
    0 <= e < |acts| < |states| && Leaves(states[e], acts[e], t)
  }

  /** A handler leaves only for a cause it has met... */
  lemma {:induction false} LeftBecause(states: seq<State>, acts: seq<Action>, i: nat, t: Thread) returns (e: nat)
    requires IsRun(states, acts) && i < |states| && t in states[i].pc && Left(states[i].pc[t])
    ensures e < i && LeavesAt(states, acts, e, t)
  {
    hide Enabled, Apply, ControlOk, Leaves, Left;
    assert |states| == |acts| + 1;
    NobodyHasLeft(states, acts, t);
    hide IsRun;
    RunStep(states, acts, i - 1);
    LeaveStep(states[i - 1], acts[i - 1], t);
    if Leaves(states[i - 1], acts[i - 1], t) {
      e := i - 1;
    } else {
      e := LeftBecause(states, acts, i - 1, t);
    }
  }

  lemma NobodyHasLeft(states: seq<State>, acts: seq<Action>, t: Thread)
    requires IsRun(states, acts)
    ensures t !in states[0].pc
  {
    hide Enabled, Apply;
  }

  lemma LeaverIsThere(s: State, a: Action, t: Thread)
    requires Leaves(s, a, t)
    ensures t in s.pc
  {
  }

  /** ... and then reads nothing more. */
  lemma {:induction false} LeaversReadNoMore(states: seq<State>, acts: seq<Action>, e: nat, i: nat, t: Thread)
    requires IsRun(states, acts) && LeavesAt(states, acts, e, t) && e < i < |states|
    ensures t in states[i].pc && Left(states[i].pc[t])
    ensures t in states[e].recv && t in states[i].recv && states[i].recv[t] == states[e].recv[t]
    decreases i
  {
    hide Enabled, Apply, ControlOk, Leaves, Left;
    assert |states| == |acts| + 1;
    hide IsRun;
    RunStep(states, acts, i - 1);
    if e == i - 1 {
      LeaverIsThere(states[e], acts[e], t);
    } else {
      LeaversReadNoMore(states, acts, e, i - 1, t);
    }
    HandlerStays(states[i - 1], acts[i - 1], t);
    LeaveStep(states[i - 1], acts[i - 1], t);
    LeaversRead(states[i - 1], acts[i - 1], t);
  }

  // ---- Contexts and writers ----

  /** The handler has returned. */
  ghost predicate Returned(p: PC) {
    p == AtBrowser(Gone) || p == AtDevice(Off)
  }

  ghost predicate WritersOk(s: State) {
    s.writerDone <= s.cancelled && forall t :: t in s.pc && Returned(s.pc[t]) ==> t in s.cancelled
  }

  lemma ReturningCancels(s: State, t: Thread, input: Input)
    requires MayMove(s, t, input)
    ensures Returned(PlanOf(s, t, input).next) ==> PlanOf(s, t, input).effect == CancelSelf
  {
    hide IdsOf, Room, Reason;
  }

  lemma StepKeepsWriters(s: State, a: Action)
    requires ControlOk(s) && Enabled(s, a) && WritersOk(s)
    ensures WritersOk(Apply(s, a))
  {
    forall t | t in Apply(s, a).pc {
      PcStep(s, a, t);
    }
    assert DomainsOk(s);
    if a.Moves? {
      ReturningCancels(s, a.t, a.input);
    }
    hide ControlOk, DomainsOk, MayMove, PlanOf, Performable, Connect;
  }

  /** The context of every handler that has returned, and of every writer that has stopped, is cancelled. */
  lemma {:induction false} WhoHasLeftIsCancelled(states: seq<State>, acts: seq<Action>, i: nat)
    requires IsRun(states, acts) && i < |states|
    ensures states[i].writerDone <= states[i].cancelled
    ensures forall t :: t in states[i].pc && Returned(states[i].pc[t]) ==> t in states[i].cancelled
  {
    hide Enabled, Apply, ControlOk;
    if i > 0 {
      assert |states| == |acts| + 1;
      hide IsRun;
      WhoHasLeftIsCancelled(states, acts, i - 1);
      RunStep(states, acts, i - 1);
      StepKeepsWriters(states[i - 1], acts[i - 1]);
    }
  }

  lemma NeverJoinsAgain(s: State, t: Thread, input: Input)
    requires MayMove(s, t, input)
    ensures PlanOf(s, t, input).next != AtDevice(Join)
  {
    hide IdsOf, Room, Reason;
  }

  /** Nothing has been read, and no writer run, before the connection registers. */
  ghost predicate Unstarted(s: State, t: Thread) {
    (t in s.writerDone ==> t in s.pc)
    && (t in s.pc && s.pc[t] == AtDevice(Join) ==>
          t !in s.writerDone && t in s.q && t in s.recv && s.q[t].dequeued == [] && s.recv[t] == [])
  }

  lemma MoveLeavesReader(s: State, t: Thread, plan: Plan, u: Thread)
    requires DomainsOk(s) && u in s.q && Performable(s, t, plan.effect) && u != t
    ensures var s' := Move(s, t, plan);
            u in s'.q && u in s'.recv && s'.q[u].dequeued == s.q[u].dequeued && s'.recv[u] == s.recv[u]
    ensures Move(s, t, plan).writerDone == s.writerDone
  {
  }

  lemma MoveKeepsUnstarted(s: State, t: Thread, input: Input, u: Thread)
    requires ControlOk(s) && Enabled(s, Moves(t, input)) && Unstarted(s, u)
    ensures Unstarted(Apply(s, Moves(t, input)), u)
  {
    assert DomainsOk(s);
    var plan := PlanOf(s, t, input);
    NeverJoinsAgain(s, t, input);
    MovesOnly(s, t, input);
    if u != t && u in s.pc {
      MoveLeavesReader(s, t, plan, u);
    }
    hide ControlOk, MayMove, PlanOf, Performable;
  }

  lemma StepKeepsUnstarted(s: State, a: Action, t: Thread)
    requires ControlOk(s) && Enabled(s, a) && Unstarted(s, t)
    ensures Unstarted(Apply(s, a), t)
  {
    if a.Moves? {
      hide *;
      MoveKeepsUnstarted(s, a.t, a.input, t);
    } else {
      assert DomainsOk(s);
      hide ControlOk, MayMove, PlanOf, Performable;
    }
  }

  /** A connection's reader and writer start after it has registered. */
  lemma {:induction false} NothingBeforeJoining(states: seq<State>, acts: seq<Action>, i: nat, c: nat)
    requires IsRun(states, acts) && i < |states|
    ensures D(c) in states[i].writerDone ==> D(c) in states[i].pc
    ensures D(c) in states[i].pc && states[i].pc[D(c)] == AtDevice(Join) ==>
              D(c) !in states[i].writerDone && D(c) in states[i].q && D(c) in states[i].recv
              && states[i].q[D(c)].dequeued == [] && states[i].recv[D(c)] == []
  {
    hide Enabled, Apply, ControlOk;
    if i > 0 {
      assert |states| == |acts| + 1;
      hide IsRun;
      NothingBeforeJoining(states, acts, i - 1, c);
      RunStep(states, acts, i - 1);
      StepKeepsUnstarted(states[i - 1], acts[i - 1], D(c));
    }
  }

  ghost predicate WriterStops(s: State, a: Action, t: Thread) {
    a == WriterTakes(t, false) || a == WriterExits(t)
  }

  lemma StoppedStep(s: State, a: Action, t: Thread)
    requires Enabled(s, a) && t in s.q && (t in s.writerDone || WriterStops(s, a, t))
    ensures t in Apply(s, a).q && t in Apply(s, a).writerDone
    ensures t in s.writerDone && DomainsOk(s) ==> Apply(s, a).q[t].dequeued == s.q[t].dequeued
  {
    hide MayMove, PlanOf, Performable;
  }

  /** A writer that has failed to write, or has seen its context cancelled, takes nothing more out. */
  lemma {:induction false} StoppedWritersTakeNothing(states: seq<State>, acts: seq<Action>, e: nat, i: nat, t: Thread)
    requires IsRun(states, acts) && e < |acts| && e < i < |states| && WriterStops(states[e], acts[e], t)
    ensures t in states[i].writerDone && t in states[e + 1].q && t in states[i].q
    ensures states[i].q[t].dequeued == states[e + 1].q[t].dequeued
    decreases i
  {
    hide Enabled, Apply, ControlOk;
    assert |states| == |acts| + 1;
    hide IsRun;
    RunStep(states, acts, i - 1);
    if e == i - 1 {
      WriterIsListed(states[e], acts[e], t);
    } else {
      StoppedWritersTakeNothing(states, acts, e, i - 1, t);
      RunDomains(states, acts, i - 1);
      hide DomainsOk;
    }
    StoppedStep(states[i - 1], acts[i - 1], t);
  }

  lemma RunDomains(states: seq<State>, acts: seq<Action>, i: nat)
    requires IsRun(states, acts) && i < |states|
    ensures DomainsOk(states[i])
  {
    hide IsRun, DomainsOk;
    RunControl(states, acts, i);
  }

  lemma WriterIsListed(s: State, a: Action, t: Thread)
    requires ControlOk(s) && Enabled(s, a) && WriterStops(s, a, t)
    ensures t in s.q
  {
    assert DomainsOk(s);
    hide ControlOk, MayMove;
  }
}
