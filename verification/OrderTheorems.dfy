/** When items were pushed, and what that says about the order in which a device is told of a
    session, of its end, and of itself. */
module OrderTheorems {
  import opened Wire
  import opened Machine
  import opened Control
  import opened Queues
  import opened Runs
  import opened SessionTheorems
  import opened RoutingTheorems

  // ---- Every item was pushed at the step it records ----

  /** Thread t's step puts `it` on queue `to`. */
  ghost predicate PushesItem(s: State, a: Action, to: Thread, it: Item) {
    a.Moves? && MayMove(s, a.t, a.input) && Performable(s, a.t, PlanOf(s, a.t, a.input).effect)
    && Pushes(PlanOf(s, a.t, a.input).effect)
    && PushOf(s, a.t, PlanOf(s, a.t, a.input).effect).to == to
    && NewItem(s, a.t, PlanOf(s, a.t, a.input).effect) == it
  }

  lemma MovePushes(s: State, t: Thread, plan: Plan, to: Thread, k: int)
    requires Performable(s, t, plan.effect) && IsItem(Move(s, t, plan), to, k) && !IsItem(s, to, k)
    ensures Pushes(plan.effect) && PushOf(s, t, plan.effect).to == to
    ensures to in s.q && k == |s.q[to].enqueued|
    ensures Move(s, t, plan).q[to].enqueued[k] == NewItem(s, t, plan.effect)
  {
    hide TableAfter, ObjsAfter, ConnsAfter, RecvAfter, FatesAfter, UsedAfter, CollectAfter, LastOutAfter, CancelledBy;
  }

  lemma StepPushes(s: State, a: Action, to: Thread, k: int)
    requires DomainsOk(s) && Enabled(s, a) && IsItem(Apply(s, a), to, k) && !IsItem(s, to, k)
    ensures PushesItem(s, a, to, Apply(s, a).q[to].enqueued[k])
    ensures to in s.q && k == |s.q[to].enqueued| && Apply(s, a).q[to].enqueued[k].at == s.now
  {
    if a.Moves? {
      MovePushes(s, a.t, PlanOf(s, a.t, a.input), to, k);
    }
  }

  /** Item number k of queue t is pushed at step `at`. */
  ghost predicate PushedAt(states: seq<State>, acts: seq<Action>, at: int, t: Thread, k: int, it: Item) {
    0 <= at < |acts| < |states| && PushesItem(states[at], acts[at], t, it)
    && IsItem(states[at + 1], t, k) && states[at + 1].q[t].enqueued[k] == it
    && t in states[at].q && k == |states[at].q[t].enqueued|
  }

  lemma PushedJustNow(states: seq<State>, acts: seq<Action>, i: nat, t: Thread, k: int)
    requires IsRun(states, acts) && i < |acts| && IsItem(states[i + 1], t, k) && !IsItem(states[i], t, k)
    ensures PushedAt(states, acts, i, t, k, states[i + 1].q[t].enqueued[k])
    ensures states[i + 1].q[t].enqueued[k].at == i
  {
    assert DomainsOk(states[i]) && states[i].now == i by {
      RunInv(states, acts, i);
    }
    assert Enabled(states[i], acts[i]) && states[i + 1] == Apply(states[i], acts[i]);
    hide IsRun, Enabled, Apply;
    StepPushes(states[i], acts[i], t, k);
  }

  lemma {:induction false} ItemPushed(states: seq<State>, acts: seq<Action>, i: nat, t: Thread, k: int)
    requires IsRun(states, acts) && i < |states| && IsItem(states[i], t, k)
    ensures PushedAt(states, acts, states[i].q[t].enqueued[k].at, t, k, states[i].q[t].enqueued[k])
    ensures states[i].q[t].enqueued[k].at < i
  {
    assert i > 0;
    if IsItem(states[i - 1], t, k) {
      assert states[i - 1].q[t].enqueued <= states[i].q[t].enqueued by {
        RunLater(states, acts, i - 1, i);
      }
      hide IsRun;
      ItemPushed(states, acts, i - 1, t, k);
    } else {
      hide IsRun;
      PushedJustNow(states, acts, i - 1, t, k);
    }
  }

  // ---- The end against the request ----

  /** Session h has been removed and its closer is past the device: it has been told, or was offline. */
  ghost predicate PastDevice(s: State, h: nat) {
    h in s.objs && s.objs[h].teardown.Torn? && s.objs[h].teardown.stage >= 2
  }

  /** Session h has been removed and its closer is past the browser as well. */
  ghost predicate PastBrowser(s: State, h: nat) {
    h in s.objs && s.objs[h].teardown.Torn? && s.objs[h].teardown.stage >= 3
  }

  /** The two sides a closer deals with, and the one a queue is on. */
  datatype Side = OfDevice | OfBrowser

  function SideOf(to: Thread): Side {
    if to.D? then OfDevice else OfBrowser
  }

  ghost predicate Past(s: State, side: Side, h: nat) {
    if side.OfDevice? then PastDevice(s, h) else PastBrowser(s, h)
  }

  lemma EndPushedBefore(s: State, t: Thread, input: Input, to: Thread, h: nat, it: Item)
    requires ControlOk(s) && PushesItem(s, Moves(t, input), to, it) && it.origin == Ended(h)
    ensures !Past(s, SideOf(to), h)
  {
    hide ControlOk, DeviceReady, IdsOf;
    PlanEffectOk(s, t, input);
    hide ControlOk;
  }

  lemma RequestPushedBefore(s: State, t: Thread, input: Input, c: nat, h: nat, it: Item)
    requires ControlOk(s) && PushesItem(s, Moves(t, input), D(c), it) && it.origin == Requested(h)
    ensures h in s.objs && (s.objs[h].id in s.table ==> !PastDevice(s, h))
  {
    hide DomainsOk, PcsOk;
    PlanEffectOk(s, t, input);
    assert TableOk(s) && IdsDiffer(s);
    hide ControlOk;
  }

  lemma PastLasts(states: seq<State>, acts: seq<Action>, i: nat, j: nat, side: Side, h: nat)
    requires IsRun(states, acts) && i <= j < |states| && Past(states[i], side, h)
    ensures Past(states[j], side, h)
  {
    RunLater(states, acts, i, j);
    hide IsRun;
  }

  lemma EndedIsPast(s: State, to: Thread, h: nat, it: Item)
    requires EndedOk(s, to, h, it)
    ensures Past(s, SideOf(to), h)
  {
  }

  lemma EndPassesSide(states: seq<State>, acts: seq<Action>, i: nat, to: Thread, k: int, h: nat)
    requires IsRun(states, acts) && i < |states| && EndAt(states[i], to, k, h)
    ensures var at := states[i].q[to].enqueued[k].at;
            at < i && !Past(states[at], SideOf(to), h) && Past(states[at + 1], SideOf(to), h)
  {
    var it := states[i].q[to].enqueued[k];
    ItemPushed(states, acts, i, to, k);
    assert EndedOk(states[it.at + 1], to, h, it) by {
      RunItem(states, acts, it.at + 1, to, k);
    }
    assert |states| == |acts| + 1 && acts[it.at].Moves?;
    hide *;
    EndedIsPast(states[it.at + 1], to, h, it);
    RunStep(states, acts, it.at);
    EndPushedBefore(states[it.at], acts[it.at].t, acts[it.at].input, to, h, it);
  }

  /** A broker-made end on a queue was pushed before step r exactly if at step r the closer is past
      the queue's side. */
  lemma EndPushedWhen(states: seq<State>, acts: seq<Action>, i: nat, to: Thread, k: int, h: nat, r: nat)
    requires IsRun(states, acts) && i < |states| && EndAt(states[i], to, k, h) && r < |states|
    ensures states[i].q[to].enqueued[k].at < r <==> Past(states[r], SideOf(to), h)
  {
    var at := states[i].q[to].enqueued[k].at;
    hide IsRun, Past;
    EndPassesSide(states, acts, i, to, k, h);
    if at < r {
      PastLasts(states, acts, at + 1, r, SideOf(to), h);
    } else if Past(states[r], SideOf(to), h) {
      PastLasts(states, acts, r, at, SideOf(to), h);
    }
  }

  lemma RequestPushed(states: seq<State>, acts: seq<Action>, i: nat, c: nat, k: int, h: nat)
    requires IsRun(states, acts) && i < |states| && RequestAt(states[i], c, k, h)
    ensures var r := states[i].q[D(c)].enqueued[k].at;
            r < i && h in states[r].objs
            && (states[r].objs[h].id in states[r].table ==> !PastDevice(states[r], h))
  {
    var req := states[i].q[D(c)].enqueued[k];
    ItemPushed(states, acts, i, D(c), k);
    assert ControlOk(states[req.at]) by {
      RunInv(states, acts, req.at);
    }
    hide IsRun, ControlOk, PastDevice;
    RequestPushedBefore(states[req.at], acts[req.at].t, acts[req.at].input, c, h, req);
  }

  /** One step pushes one item. */
  lemma PushedApart(states: seq<State>, acts: seq<Action>, i: nat, t1: Thread, k1: int, t2: Thread, k2: int)
    requires IsRun(states, acts) && i < |states| && IsItem(states[i], t1, k1) && IsItem(states[i], t2, k2)
    requires states[i].q[t1].enqueued[k1].origin != states[i].q[t2].enqueued[k2].origin
    ensures states[i].q[t1].enqueued[k1].at != states[i].q[t2].enqueued[k2].at
  {
    ItemPushed(states, acts, i, t1, k1);
    ItemPushed(states, acts, i, t2, k2);
  }

  lemma QueueIsInOrder(states: seq<State>, acts: seq<Action>, i: nat, t: Thread, k1: int, k2: int)
    requires IsRun(states, acts) && i < |states| && IsItem(states[i], t, k1) && IsItem(states[i], t, k2)
    ensures states[i].q[t].enqueued[k1].at < states[i].q[t].enqueued[k2].at <==> k1 < k2
  {
    RunOrder(states, acts, i, t);
    hide IsRun;
    if k2 < k1 {
      assert Before(states[i].q[t].enqueued[k2], states[i].q[t].enqueued[k1]);
    }
  }

  /** A device is told of a session's broker-made end before its request exactly if, when the request
      is pushed, the session has been removed and its closer has come past the device; so while the
      session is in the table the request is still going to be first. On one queue the earlier push
      is the earlier item. */
  lemma EndAgainstRequest(states: seq<State>, acts: seq<Action>, i: nat, h: nat, c: nat, k: int, c': nat, k': int)
    requires IsRun(states, acts) && i < |states|
    requires RequestAt(states[i], c, k, h) && EndAt(states[i], D(c'), k', h)
    ensures var r, end := states[i].q[D(c)].enqueued[k].at, states[i].q[D(c')].enqueued[k'].at;
            r < i && end != r && h in states[r].objs
            && (end < r <==> PastDevice(states[r], h))
            && (states[r].objs[h].id in states[r].table ==> r < end)
            && (c == c' ==> (end < r <==> k' < k))
  {
    hide IsRun, PastDevice;
    RequestPushed(states, acts, i, c, k, h);
    EndPushedWhen(states, acts, i, D(c'), k', h, states[i].q[D(c)].enqueued[k].at);
    PushedApart(states, acts, i, D(c), k, D(c'), k');
    if c == c' {
      QueueIsInOrder(states, acts, i, D(c), k', k);
    }
  }

  // ---- Hello ----

  ghost predicate HelloAt(s: State, c: nat, k: int) {
    IsItem(s, D(c), k) && s.q[D(c)].enqueued[k].origin == Greeting
  }

  /** A thread here has looked connection c up: its next step pushes to c's queue. */
  ghost predicate HasLookedUp(p: PC, c: nat) {
    match p
    case AtBrowser(b) => (b.RequestPush? || b.FwdPush?) && b.c == c
    case AtDevice(_) => false
    case Closing(stage, _) => stage.PushDevice? && stage.c == c
  }

  ghost predicate OtherPushes(s: State, a: Action, c: nat) {
    a.Moves? && a.t in s.pc && a.t != D(c) && HasLookedUp(s.pc[a.t], c)
  }

  /** At step r a thread other than connection c's handler, having looked c up, comes to push. */
  ghost predicate OtherPushesAt(states: seq<State>, acts: seq<Action>, r: int, c: nat) {
    0 <= r < |acts| < |states| && OtherPushes(states[r], acts[r], c)
  }

  ghost predicate BeforeHello(s: State, c: nat) {
    D(c) in s.pc && (s.pc[D(c)] == AtDevice(Join) || s.pc[D(c)] == AtDevice(SayHello))
  }

  /** A connection that somebody has looked up has been registered. */
  ghost predicate LookedUpOk(s: State) {
    forall t, c :: t in s.pc && HasLookedUp(s.pc[t], c) ==> D(c) in s.pc && s.pc[D(c)] != AtDevice(Join)
  }

  lemma PlanLooksUp(s: State, t: Thread, input: Input, c: nat)
    requires MayMove(s, t, input)
    ensures PlanOf(s, t, input).next != AtDevice(Join)
    ensures HasLookedUp(PlanOf(s, t, input).next, c) ==> exists dev :: dev in s.conns && s.conns[dev] == c
  {
    hide IdsOf, Room, BadOpen;
  }

  lemma InTableIsRegistered(s: State, dev: string)
    requires ConnsOk(s) && dev in s.conns
    ensures D(s.conns[dev]) in s.pc && s.pc[D(s.conns[dev])] != AtDevice(Join)
  {
  }

  lemma MoveKeepsLookedUp(s: State, t: Thread, plan: Plan)
    requires ConnsOk(s) && LookedUpOk(s) && t in s.pc && Performable(s, t, plan.effect)
    requires plan.next != AtDevice(Join)
    requires forall c :: HasLookedUp(plan.next, c) ==> exists dev :: dev in s.conns && s.conns[dev] == c
    ensures LookedUpOk(Move(s, t, plan))
  {
    assert Move(s, t, plan).pc == s.pc[t := plan.next];
    hide HasLookedUp, Performable, ConnsOk, Move;
    forall c | HasLookedUp(plan.next, c) ensures D(c) in s.pc && s.pc[D(c)] != AtDevice(Join) {
      var dev :| dev in s.conns && s.conns[dev] == c;
      InTableIsRegistered(s, dev);
    }
  }

  lemma PlanKeepsLookedUp(s: State, t: Thread, input: Input)
    requires ControlOk(s) && LookedUpOk(s) && MayMove(s, t, input) && Performable(s, t, PlanOf(s, t, input).effect)
    ensures LookedUpOk(Move(s, t, PlanOf(s, t, input)))
  {
    assert ConnsOk(s) && t in s.pc;
    hide *;
    forall c ensures HasLookedUp(PlanOf(s, t, input).next, c) ==> exists dev :: dev in s.conns && s.conns[dev] == c {
      PlanLooksUp(s, t, input, c);
    }
    PlanLooksUp(s, t, input, 0);
    MoveKeepsLookedUp(s, t, PlanOf(s, t, input));
  }

  lemma StepKeepsLookedUp(s: State, a: Action)
    requires ControlOk(s) && LookedUpOk(s) && Enabled(s, a)
    ensures LookedUpOk(Apply(s, a))
  {
    assert DomainsOk(s);
    hide ControlOk, DomainsOk, PlanOf, MayMove, Move, LookedUpOk, Performable, Connect, Take;
    if a.Moves? {
      PlanKeepsLookedUp(s, a.t, a.input);
    } else {
      OutsideIsElsewhere(s, a);
      ElsewhereKeepsLookedUp(s, Apply(s, a));
    }
  }

  lemma ElsewhereKeepsLookedUp(s: State, s': State)
    requires LookedUpOk(s) && Elsewhere(s, s')
    ensures LookedUpOk(s')
  {
    hide DomainsOk;
  }

  lemma {:induction false} RunLookedUp(states: seq<State>, acts: seq<Action>, i: nat)
    requires IsRun(states, acts) && i < |states|
    ensures LookedUpOk(states[i])
  {
    if i > 0 {
      assert |states| == |acts| + 1;
      hide *;
      RunLookedUp(states, acts, i - 1);
      RunStep(states, acts, i - 1);
      StepKeepsLookedUp(states[i - 1], acts[i - 1]);
    }
  }

  /** Who can push to a connection's queue. */
  lemma PushesToConnection(s: State, t: Thread, input: Input, c: nat)
    requires MayMove(s, t, input) && Performable(s, t, PlanOf(s, t, input).effect) && D(c) in s.q
    ensures var e := PlanOf(s, t, input).effect;
            (Pushes(e) && PushOf(s, t, e).to == D(c) ==>
               HasLookedUp(s.pc[t], c) || (t == D(c) && PlanOf(s, t, input).next == AtDevice(Serve)))
            && (HasLookedUp(s.pc[t], c) && Room(s, D(c)) ==> Pushes(e) && PushOf(s, t, e).to == D(c))
  {
    hide IdsOf, BadOpen, ForwardedFromBrowser, ForwardedFromDevice, Reason, After, AfterForward;
  }

  lemma MoveBeforeHello(s: State, t: Thread, plan: Plan, c: nat)
    requires t in s.pc && Performable(s, t, plan.effect) && D(c) in s.pc && D(c) in s.q && ChannelOk(s.q[D(c)])
    requires plan.next != AtDevice(Join)
    requires var e := plan.effect;
             (Pushes(e) && PushOf(s, t, e).to == D(c) ==>
                HasLookedUp(s.pc[t], c) || (t == D(c) && plan.next == AtDevice(Serve)))
             && (HasLookedUp(s.pc[t], c) && Room(s, D(c)) ==> Pushes(e) && PushOf(s, t, e).to == D(c))
    requires BeforeHello(Move(s, t, plan), c) && (t == D(c) ==> !HasLookedUp(s.pc[t], c))
    ensures D(c) in Move(s, t, plan).q
    ensures Move(s, t, plan).q[D(c)].enqueued == []
            <==> s.q[D(c)].enqueued == [] && !(t != D(c) && HasLookedUp(s.pc[t], c))
  {
    hide HasLookedUp, Performable, PushOf, TableAfter, ObjsAfter, ConnsAfter, RecvAfter, FatesAfter, CancelledBy;
  }

  lemma PlanBeforeHello(s: State, t: Thread, input: Input, c: nat)
    requires MayMove(s, t, input) && Performable(s, t, PlanOf(s, t, input).effect)
    requires D(c) in s.pc && D(c) in s.q && ChannelOk(s.q[D(c)]) && BeforeHello(Move(s, t, PlanOf(s, t, input)), c)
    ensures BeforeHello(s, c) && t in s.pc && D(c) in Move(s, t, PlanOf(s, t, input)).q
    ensures Move(s, t, PlanOf(s, t, input)).q[D(c)].enqueued == []
            <==> s.q[D(c)].enqueued == [] && !(t != D(c) && HasLookedUp(s.pc[t], c))
  {
    assert t in s.pc;
    hide ChannelOk, PlanOf, MayMove, HasLookedUp, Performable, Room, PushOf, Pushes, ChannelsAfter;
    PushesToConnection(s, t, input, c);
    PlanLooksUp(s, t, input, c);
    if t == D(c) {
      StaysBefore(s, t, input, c);
    }
    MoveBeforeHello(s, t, PlanOf(s, t, input), c);
  }

  /** Until a connection's hello, what is pushed to its queue is what others push that have looked it up. */
  lemma StepBeforeHello(s: State, a: Action, c: nat)
    requires DomainsOk(s) && Enabled(s, a) && D(c) in s.pc && BeforeHello(Apply(s, a), c)
    requires D(c) in s.q && ChannelOk(s.q[D(c)])
    ensures BeforeHello(s, c) && D(c) in Apply(s, a).q
    ensures Apply(s, a).q[D(c)].enqueued == [] <==> s.q[D(c)].enqueued == [] && !OtherPushes(s, a, c)
  {
    hide DomainsOk, ChannelOk, PlanOf, MayMove, HasLookedUp, Performable, Move;
    if a.Moves? {
      PlanBeforeHello(s, a.t, a.input, c);
    }
  }

  lemma StaysBefore(s: State, t: Thread, input: Input, c: nat)
    requires MayMove(s, t, input) && PlanOf(s, t, input).next == AtDevice(SayHello)
    ensures s.pc[t] == AtDevice(Join) && !HasLookedUp(s.pc[t], c)
  {
  }

  lemma RunStaysBefore(states: seq<State>, acts: seq<Action>, r: nat, i: nat, c: nat)
    requires IsRun(states, acts) && r <= i < |states| && D(c) in states[r].pc && BeforeHello(states[i], c)
    ensures BeforeHello(states[r], c)
    decreases i
  {
    if r < i {
      ConnectionStays(states, acts, r, i - 1, c);
      HelloStep(states, acts, i - 1, c);
      RunStaysBefore(states, acts, r, i - 1, c);
    }
  }

  lemma ConnectionStays(states: seq<State>, acts: seq<Action>, r: nat, i: nat, c: nat)
    requires IsRun(states, acts) && r <= i < |states| && D(c) in states[r].pc
    ensures D(c) in states[i].pc
  {
    RunInv(states, acts, r);
    RunInv(states, acts, i);
    RunLater(states, acts, r, i);
  }

  lemma HelloStep(states: seq<State>, acts: seq<Action>, i: nat, c: nat)
    requires IsRun(states, acts) && i < |acts| && D(c) in states[i].pc && BeforeHello(states[i + 1], c)
    ensures BeforeHello(states[i], c) && D(c) in states[i].q && D(c) in states[i + 1].q
    ensures states[i + 1].q[D(c)].enqueued == []
            <==> states[i].q[D(c)].enqueued == [] && !OtherPushesAt(states, acts, i, c)
  {
    assert |states| == |acts| + 1;
    hide IsRun, Enabled, Apply, OtherPushes, BeforeHello, ChannelOk, Ordered;
    RunStep(states, acts, i);
    ThreadIsListed(states[i], D(c));
    hide ControlOk, DomainsOk;
    RunOrder(states, acts, i, D(c));
    StepBeforeHello(states[i], acts[i], c);
  }

  /** Nothing is pushed to a connection that has not connected, and it starts with an empty queue. */
  lemma ConnectsUnknown(states: seq<State>, acts: seq<Action>, i: nat, c: nat)
    requires IsRun(states, acts) && i < |acts| && D(c) !in states[i].pc && D(c) in states[i + 1].pc
    ensures D(c) in states[i + 1].q && states[i + 1].q[D(c)].enqueued == []
    ensures forall r :: 0 <= r <= i ==> !OtherPushesAt(states, acts, r, c)
  {
    forall r | 0 <= r <= i ensures !OtherPushesAt(states, acts, r, c) {
      RunLookedUp(states, acts, r);
      if D(c) in states[r].pc {
        ConnectionStays(states, acts, r, i, c);
      }
    }
    RunStep(states, acts, i);
    hide IsRun, OtherPushesAt, Enabled, Apply, LookedUpOk;
    ConnectsEmpty(states[i], acts[i], c);
  }

  lemma ConnectsEmpty(s: State, a: Action, c: nat)
    requires DomainsOk(s) && Enabled(s, a) && D(c) !in s.pc && D(c) in Apply(s, a).pc
    ensures D(c) in Apply(s, a).q && Apply(s, a).q[D(c)].enqueued == []
  {
    hide PlanOf, ChannelsAfter;
  }

  lemma {:induction false} QueueBeforeHello(states: seq<State>, acts: seq<Action>, i: nat, c: nat)
    requires IsRun(states, acts) && i < |states| && BeforeHello(states[i], c)
    ensures D(c) in states[i].q
    ensures states[i].q[D(c)].enqueued == [] <==> forall r :: 0 <= r < i ==> !OtherPushesAt(states, acts, r, c)
  {
    assert i > 0;
    hide IsRun, OtherPushesAt;
    if D(c) !in states[i - 1].pc {
      ConnectsUnknown(states, acts, i - 1, c);
    } else {
      HelloStep(states, acts, i - 1, c);
      QueueBeforeHello(states, acts, i - 1, c);
    }
  }

  /** Hello is the first envelope of a connection's queue exactly if, before the handler pushes it, no
      other thread that has looked the connection up comes to its push. */
  lemma HelloFirstIff(states: seq<State>, acts: seq<Action>, i: nat, c: nat, k: int)
    requires IsRun(states, acts) && i < |states| && HelloAt(states[i], c, k)
    ensures var at := states[i].q[D(c)].enqueued[k].at;
            at < i && D(c) in states[at].pc && states[at].pc[D(c)] == AtDevice(SayHello)
            && (k == 0 <==> forall r :: 0 <= r < at ==> !OtherPushesAt(states, acts, r, c))
  {
    var it := states[i].q[D(c)].enqueued[k];
    ItemPushed(states, acts, i, D(c), k);
    GreetingPushed(states[it.at], acts[it.at].t, acts[it.at].input, c, it);
    hide IsRun, PushesItem, OtherPushesAt;
    QueueBeforeHello(states, acts, it.at, c);
  }

  /** So hello is first if nobody has looked the connection up between its registering and its hello. */
  lemma HelloFirstIfUnseen(states: seq<State>, acts: seq<Action>, i: nat, c: nat, k: int)
    requires IsRun(states, acts) && i < |states| && HelloAt(states[i], c, k)
    requires forall r, t | 0 <= r < i && D(c) in states[r].pc && t in states[r].pc ::
               states[r].pc[D(c)] == AtDevice(SayHello) ==> !HasLookedUp(states[r].pc[t], c)
    ensures k == 0
  {
    HelloFirstIff(states, acts, i, c, k);
    var at := states[i].q[D(c)].enqueued[k].at;
    forall r | 0 <= r < at ensures !OtherPushesAt(states, acts, r, c) {
      if OtherPushesAt(states, acts, r, c) {
        RunLookedUp(states, acts, r);
        RunStaysBefore(states, acts, r, at, c);
      }
    }
  }

  lemma GreetingPushed(s: State, t: Thread, input: Input, c: nat, it: Item)
    requires PushesItem(s, Moves(t, input), D(c), it) && it.origin == Greeting
    ensures t == D(c) && t in s.pc && s.pc[t] == AtDevice(SayHello)
  {
  }
}
