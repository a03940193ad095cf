/** What the two sides of a session are told once it has been removed: its end, unless there is
    nobody or no room to tell it to, and little else. */
module RemovalTheorems {
  import opened Wire
  import opened Regions
  import opened Machine
  import opened Control
  import opened Queues
  import opened Runs
  import opened SessionTheorems
  import opened RoutingTheorems
  import opened OrderTheorems

  // ---- Each side is told, if it can be ----

  /** The effects that deal with this side in the teardown of session h. */
  predicate DealsWith(e: Effect, side: Side, h: nat) {
    if side.OfBrowser? then e.TellBrowser? && e.h == h else (e.DeviceOffline? || e.TellDevice?) && e.h == h
  }

  /** Thread t is at the place of close where it finds the device offline or pushes the end to this side. */
  ghost predicate Tells(s: State, t: Thread, side: Side, h: nat) {
    t in s.pc && s.pc[t].Closing? && h in s.objs
    && var stage := s.pc[t].stage;
    if side.OfBrowser? then stage == PushBrowser(h) && B(h) in s.q
    else (stage == Lookup(h) && s.objs[h].dev !in s.conns)
         || (stage.PushDevice? && stage.h == h && ConnOf(s, stage.c, h) && D(stage.c) in s.q)
  }

  /** The queue it pushes to there, if it pushes. */
  ghost function QueueTold(s: State, t: Thread, side: Side, h: nat): (r: Option<Thread>)
    requires Tells(s, t, side, h)
    ensures r.Some? ==> r.value in s.q && SideOf(r.value) == side
  {
    if side.OfBrowser? then Some(B(h))
    else if s.pc[t].stage.PushDevice? then Some(D(s.pc[t].stage.c))
    else None
  }

  lemma MovePastSide(s: State, t: Thread, e: Effect, p: PC, side: Side, h: nat)
    requires Performable(s, t, e) && EffectOk(s, t, e)
    requires !Past(s, side, h) && Past(Move(s, t, Plan(p, e)), side, h)
    ensures DealsWith(e, side, h) && h in s.objs && s.objs[h].teardown.Torn? && s.objs[h].teardown.closer == t
  {
    hide ChannelsAfter, RecvAfter, FatesAfter, ConnsAfter, LastOutAfter, CollectAfter, CancelledBy, TableAfter;
  }

  lemma PlanTells(s: State, t: Thread, input: Input, side: Side, h: nat)
    requires MayMove(s, t, input) && Performable(s, t, PlanOf(s, t, input).effect)
    requires EffectOk(s, t, PlanOf(s, t, input).effect) && DealsWith(PlanOf(s, t, input).effect, side, h)
    ensures Tells(s, t, side, h)
  {
    hide IdsOf, Room, BadOpen, Reason, After, AfterForward, ConnOf, Unasked, MayClose;
  }

  lemma StepTells(s: State, a: Action, side: Side, h: nat)
    requires ControlOk(s) && Enabled(s, a) && !Past(s, side, h) && Past(Apply(s, a), side, h)
    ensures a.Moves? && Tells(s, a.t, side, h)
    ensures s.objs[h].teardown.Torn? && s.objs[h].teardown.closer == a.t
  {
    assert DomainsOk(s);
    hide ControlOk, DomainsOk, PlanOf, MayMove, Move, Performable, EffectOk, Connect, Take;
    if a.Moves? {
      var plan := PlanOf(s, a.t, a.input);
      PlanEffectOk(s, a.t, a.input);
      MovePastSide(s, a.t, plan.effect, plan.next, side, h);
      hide Past, DealsWith;
      PlanTells(s, a.t, a.input, side, h);
    } else {
      OutsideIsElsewhere(s, a);
    }
  }

  lemma NotPastAtStart(states: seq<State>, acts: seq<Action>, side: Side, h: nat)
    requires IsRun(states, acts)
    ensures !Past(states[0], side, h)
  {
    hide Enabled, Apply;
  }

  /** The step at which the closer came past a side. */
  lemma {:induction false} TellingStep(states: seq<State>, acts: seq<Action>, i: nat, side: Side, h: nat)
    returns (r: nat)
    requires IsRun(states, acts) && i < |states| && Past(states[i], side, h)
    ensures r < i && acts[r].Moves? && Tells(states[r], acts[r].t, side, h)
    ensures !Past(states[r], side, h) && Past(states[r + 1], side, h)
    ensures states[r].objs[h].teardown.Torn? && states[r].objs[h].teardown.closer == acts[r].t
  {
    hide Enabled, Apply, Past, Tells;
    assert |states| == |acts| + 1;
    hide IsRun;
    NotPastAtStart(states, acts, side, h);
    hide *;
    if Past(states[i - 1], side, h) {
      r := TellingStep(states, acts, i - 1, side, h);
    } else {
      r := i - 1;
      RunStep(states, acts, r);
      StepTells(states[r], acts[r], side, h);
    }
  }

  /** A broker-made end is on a queue of a side only if it was pushed at the one step that deals with
      the side. */
  lemma EndOnlyThen(states: seq<State>, acts: seq<Action>, i: nat, to: Thread, k: int, h: nat, r: nat)
    requires IsRun(states, acts) && r < i < |states| && EndAt(states[i], to, k, h)
    requires !Past(states[r], SideOf(to), h) && Past(states[r + 1], SideOf(to), h)
    ensures PushedAt(states, acts, r, to, k, states[i].q[to].enqueued[k])
  {
    hide IsRun, Past, PushesItem;
    EndPushedWhen(states, acts, i, to, k, h, r);
    EndPushedWhen(states, acts, i, to, k, h, r + 1);
    ItemPushed(states, acts, i, to, k);
  }

  /** The teardown's step with this side: what it pushes, and where. */
  lemma TellingPushes(s: State, t: Thread, input: Input, side: Side, h: nat)
    requires Tells(s, t, side, h) && MayMove(s, t, input) && Performable(s, t, PlanOf(s, t, input).effect)
    ensures var e, q := PlanOf(s, t, input).effect, QueueTold(s, t, side, h);
            (Pushes(e) <==> q.Some?)
            && (q.Some? ==> PushOf(s, t, e).to == q.value && PushOf(s, t, e).origin == Ended(h))
  {
  }

  /** What the step of thread t with this side, taken in s, has come to in a later state: the device
      was offline or the queue full, and no queue of the side has the end; or the queue has it. */
  ghost predicate Told(s: State, later: State, t: Thread, side: Side, h: nat)
    requires Tells(s, t, side, h)
  {
    var q := QueueTold(s, t, side, h);
    if q.Some? && |s.q[q.value].pending| != 32
    then EndAt(later, q.value, |s.q[q.value].enqueued|, h)
    else forall to, k :: SideOf(to) == side ==> !EndAt(later, to, k, h)
  }

  lemma TellsNow(s: State, t: Thread, input: Input, side: Side, h: nat)
    requires Tells(s, t, side, h) && MayMove(s, t, input) && Performable(s, t, PlanOf(s, t, input).effect)
    requires forall t' :: t' in s.q ==> ChannelOk(s.q[t'])
    ensures var q, s' := QueueTold(s, t, side, h), Move(s, t, PlanOf(s, t, input));
            if q.Some? && |s.q[q.value].pending| != CAPACITY
            then EndAt(s', q.value, |s.q[q.value].enqueued|, h)
            else forall to :: to in s.q && to in s'.q ==> s'.q[to].enqueued == s.q[to].enqueued
  {
    var q, plan := QueueTold(s, t, side, h), PlanOf(s, t, input);
    assert q.Some? ==> ChannelOk(s.q[q.value]);
    TellingPushes(s, t, input, side, h);
    assert forall to :: to in s.q ==> to in Move(s, t, plan).q;
    hide Tells, MayMove, PlanOf, Performable, PushOf, Pushes, QueueTold, Move;
    forall to | to in s.q {
      QueueAfterMove(s, t, plan, to);
    }
  }

  lemma ToldThen(states: seq<State>, acts: seq<Action>, r: nat, side: Side, h: nat)
    requires IsRun(states, acts) && r < |acts| && acts[r].Moves? && Tells(states[r], acts[r].t, side, h)
    ensures var s, s', q := states[r], states[r + 1], QueueTold(states[r], acts[r].t, side, h);
            if q.Some? && |s.q[q.value].pending| != CAPACITY
            then EndAt(s', q.value, |s.q[q.value].enqueued|, h)
            else forall to :: to in s.q && to in s'.q ==> s'.q[to].enqueued == s.q[to].enqueued
  {
    forall t | t in states[r].q ensures ChannelOk(states[r].q[t]) {
      RunOrder(states, acts, r, t);
    }
    hide IsRun, Tells, QueueTold, ChannelOk, Ordered, MayMove, PlanOf, Performable, EndAt, Move;
    RunStep(states, acts, r);
    TellsNow(states[r], acts[r].t, acts[r].input, side, h);
  }

  lemma EndLasts(states: seq<State>, acts: seq<Action>, j: nat, i: nat, to: Thread, k: int, h: nat)
    requires IsRun(states, acts) && j <= i < |states| && EndAt(states[j], to, k, h)
    ensures EndAt(states[i], to, k, h)
  {
    RunLater(states, acts, j, i);
    hide IsRun;
  }

  lemma TornSince(states: seq<State>, acts: seq<Action>, r: nat, i: nat, h: nat)
    requires IsRun(states, acts) && r <= i < |states| && h in states[r].objs && states[r].objs[h].teardown.Torn?
    ensures h in states[i].objs && states[i].objs[h].teardown.Torn?
    ensures states[i].objs[h].teardown.at == states[r].objs[h].teardown.at < r
    ensures states[i].objs[h].teardown.closer == states[r].objs[h].teardown.closer
  {
    RunObject(states, acts, r, h);
    RunLater(states, acts, r, i);
    hide IsRun;
  }

  /** Once the closer is past a side, the side has been told, or could not be: at the one step that
      deals with it the device was offline or the queue had exactly 32 pending. */
  lemma SideTold(states: seq<State>, acts: seq<Action>, i: nat, side: Side, h: nat) returns (r: nat)
    requires IsRun(states, acts) && i < |states| && Past(states[i], side, h)
    ensures h in states[i].objs && states[i].objs[h].teardown.Torn?
    ensures states[i].objs[h].teardown.at < r < i
    ensures acts[r].Moves? && acts[r].t == states[i].objs[h].teardown.closer
    ensures Tells(states[r], acts[r].t, side, h) && Told(states[r], states[i], acts[r].t, side, h)
  {
    assert |states| == |acts| + 1;
    hide IsRun, Past, QueueTold;
    r := TellingStep(states, acts, i, side, h);
    TornSince(states, acts, r, i, h);
    ToldThen(states, acts, r, side, h);
    hide Tells;
    var s, q := states[r], QueueTold(states[r], acts[r].t, side, h);
    if q.Some? && |s.q[q.value].pending| != CAPACITY {
      EndLasts(states, acts, r + 1, i, q.value, |s.q[q.value].enqueued|, h);
    } else {
      forall to, k | SideOf(to) == side ensures !EndAt(states[i], to, k, h) {
        if EndAt(states[i], to, k, h) {
          EndOnlyThen(states, acts, i, to, k, h, r);
        }
      }
    }
  }

  // ---- A read loop forwards one envelope at a time ----

  /** Here a thread holds an envelope whose session it has found. */
  ghost predicate HasFound(p: PC) {
    (p.AtBrowser? && (p.b.FwdLookup? || p.b.FwdPush?)) || (p.AtDevice? && p.d.RelayPush?)
  }

  ghost function FoundStep(p: PC): nat
    requires HasFound(p)
  {
    if p.AtBrowser? then p.b.gotAt else p.d.gotAt
  }

  lemma PlanFinds(s: State, t: Thread, input: Input)
    requires MayMove(s, t, input) && HasFound(PlanOf(s, t, input).next)
    ensures PlanOf(s, t, input).effect.Quiet?
    ensures FoundStep(PlanOf(s, t, input).next) == s.now
            || (HasFound(s.pc[t]) && FoundStep(PlanOf(s, t, input).next) == FoundStep(s.pc[t]))
  {
    hide IdsOf, Room, BadOpen;
  }

  /** Thread t, having looked up at this step of the run, has settled nothing since. */
  ghost predicate SettledNothing(s: State, t: Thread, states: seq<State>) {
    t in s.pc && t in s.fates
    && (HasFound(s.pc[t]) ==>
          var g := FoundStep(s.pc[t]);
          g < s.now && g < |states| && t in states[g].fates && |states[g].fates[t]| == |s.fates[t]|)
  }

  lemma MoveSettlesNothing(s: State, t: Thread, input: Input, t': Thread, states: seq<State>)
    requires MayMove(s, t, input) && Performable(s, t, PlanOf(s, t, input).effect)
    requires SettledNothing(s, t', states) && s.now < |states| && states[s.now] == s
    ensures SettledNothing(Move(s, t, PlanOf(s, t, input)), t', states)
  {
    if t == t' && HasFound(PlanOf(s, t, input).next) {
      PlanFinds(s, t, input);
    }
    hide PlanOf, MayMove, Performable, Decides, FateOf;
  }

  lemma StepSettlesNothing(s: State, a: Action, t: Thread, states: seq<State>)
    requires DomainsOk(s) && Enabled(s, a) && t in s.pc && SettledNothing(s, t, states)
    requires s.now < |states| && states[s.now] == s
    ensures SettledNothing(Apply(s, a), t, states)
  {
    hide DomainsOk, PlanOf, MayMove, Move, Performable, HasFound, Connect, Take;
    if a.Moves? {
      MoveSettlesNothing(s, a.t, a.input, t, states);
    } else {
      OutsideHistories(s, a);
    }
  }

  lemma NewcomerSettledNothing(s: State, a: Action, t: Thread, states: seq<State>)
    requires DomainsOk(s) && Enabled(s, a) && t !in s.pc && t in Apply(s, a).pc
    ensures SettledNothing(Apply(s, a), t, states)
  {
    hide PlanOf, ChannelsAfter;
  }

  lemma {:induction false} RunSettlesNothing(states: seq<State>, acts: seq<Action>, i: nat, t: Thread)
    requires IsRun(states, acts) && i < |states| && t in states[i].pc
    ensures SettledNothing(states[i], t, states)
  {
    hide Enabled, Apply, SettledNothing;
    assert i > 0 && |states| == |acts| + 1;
    hide IsRun;
    RunStep(states, acts, i - 1);
    RunClock(states, acts, i - 1);
    hide ControlOk, DomainsOk;
    if t in states[i - 1].pc {
      RunSettlesNothing(states, acts, i - 1, t);
      StepSettlesNothing(states[i - 1], acts[i - 1], t, states);
    } else {
      NewcomerSettledNothing(states[i - 1], acts[i - 1], t, states);
    }
  }

  lemma CarriedPushed(s: State, a: Action, to: Thread, it: Item)
    requires PushesItem(s, a, to, it) && it.origin.Carried?
    ensures a.t == it.origin.src && a.t in s.pc && HasFound(s.pc[a.t]) && FoundStep(s.pc[a.t]) == it.origin.gotAt
    ensures a.t in s.fates && |s.fates[a.t]| == it.origin.i
  {
    hide IdsOf, Room, BadOpen;
  }

  /** An envelope that was pushed on was settled next after its lookup. */
  lemma CarriedWhen(states: seq<State>, acts: seq<Action>, i: nat, to: Thread, k: int)
    requires IsRun(states, acts) && i < |states| && IsItem(states[i], to, k)
    requires states[i].q[to].enqueued[k].origin.Carried?
    ensures var it := states[i].q[to].enqueued[k]; var src := it.origin.src;
            it.origin.gotAt < it.at < i
            && src in states[it.origin.gotAt].fates && |states[it.origin.gotAt].fates[src]| == it.origin.i
            && src in states[it.at].fates && |states[it.at].fates[src]| == it.origin.i
  {
    var it := states[i].q[to].enqueued[k];
    hide IsRun, PushesItem, HasFound;
    ItemPushed(states, acts, i, to, k);
    CarriedPushed(states[it.at], acts[it.at], to, it);
    RunClock(states, acts, it.at);
    RunSettlesNothing(states, acts, it.at, it.origin.src);
  }

  /** Of two envelopes of one read loop the later one is looked up after the earlier has been pushed. */
  lemma OneAtATime(states: seq<State>, acts: seq<Action>, i: nat, to1: Thread, k1: int, to2: Thread, k2: int)
    requires IsRun(states, acts) && i < |states| && IsItem(states[i], to1, k1) && IsItem(states[i], to2, k2)
    requires var a, b := states[i].q[to1].enqueued[k1].origin, states[i].q[to2].enqueued[k2].origin;
             a.Carried? && b.Carried? && a.src == b.src && a.i < b.i
    ensures states[i].q[to1].enqueued[k1].at < states[i].q[to2].enqueued[k2].origin.gotAt
  {
    hide IsRun;
    CarriedWhen(states, acts, i, to1, k1);
    CarriedWhen(states, acts, i, to2, k2);
    var at, g := states[i].q[to1].enqueued[k1].at, states[i].q[to2].enqueued[k2].origin.gotAt;
    if g <= at {
      RunLater(states, acts, g, at);
    }
  }

  // ---- What a removed session's device is still told ----

  /** An item with the session's id, pushed to some connection after the session's removal. */
  ghost predicate LateForDevice(s: State, c: nat, k: int, h: nat) {
    IsItem(s, D(c), k) && h in s.objs && s.objs[h].teardown.Torn?
    && s.q[D(c)].enqueued[k].env.sid == s.objs[h].id && s.objs[h].teardown.at < s.q[D(c)].enqueued[k].at
  }

  /** What such an item is: the broker-made end, the request, or what its browser had forwarded after
      finding the session still in the table. */
  ghost predicate LateItem(states: seq<State>, o: Session, h: nat, it: Item) {
    it.origin == Ended(h) || it.origin == Requested(h)
    || (it.origin.Carried? && it.origin.src == B(h) && it.origin.gotAt < |states|
        && o.teardown.Torn? && it.origin.gotAt < o.teardown.at
        && o.id in states[it.origin.gotAt].table && states[it.origin.gotAt].table[o.id] == h)
  }

  lemma IdsTell(s: State, c: nat, k: nat, it: Item, h: nat)
    requires ItemOk(s, D(c), k, it) && IdsDiffer(s) && h in s.objs && s.objs[h].id != "" && it.env.sid == s.objs[h].id
    ensures it.origin == Ended(h) || it.origin == Requested(h)
            || (it.origin.Carried? && it.origin.src == B(h) && FoundAt(s, h, it.origin.gotAt))
    ensures it.origin.Requested? ==> Asked(s, h) && s.objs[h].requested.value.at == it.at
    ensures it.origin.Carried? ==> AskedBefore(s, h, it.origin.gotAt)
  {
  }

  lemma LateItems(states: seq<State>, acts: seq<Action>, i: nat, c: nat, k: int, h: nat)
    requires IsRun(states, acts) && i < |states| && LateForDevice(states[i], c, k, h)
    ensures LateItem(states, states[i].objs[h], h, states[i].q[D(c)].enqueued[k])
    ensures var it := states[i].q[D(c)].enqueued[k];
            (it.origin.Requested? ==> Asked(states[i], h) && states[i].objs[h].requested.value.at == it.at)
            && (it.origin.Carried? ==> AskedBefore(states[i], h, it.origin.gotAt))
  {
    var it := states[i].q[D(c)].enqueued[k];
    RunItem(states, acts, i, D(c), k);
    RunTable(states, acts, i);
    RunObject(states, acts, i, h);
    hide IsRun, ObjectOk, TableOk;
    IdsTell(states[i], c, k, it, h);
    hide ItemOk, IdsDiffer;
    if it.origin.Carried? {
      TableHistory(states, acts, it.origin.gotAt, i, h);
    }
  }

  lemma OneLateForward(states: seq<State>, acts: seq<Action>, i: nat, h: nat, c1: nat, k1: int, c2: nat, k2: int)
    requires IsRun(states, acts) && i < |states|
    requires LateForDevice(states[i], c1, k1, h) && LateForDevice(states[i], c2, k2, h)
    requires var s := states[i]; var a, b := s.q[D(c1)].enqueued[k1].origin, s.q[D(c2)].enqueued[k2].origin;
             a.Carried? && b.Carried? && a.src == b.src
             && a.gotAt < s.objs[h].teardown.at && b.gotAt < s.objs[h].teardown.at
    ensures c1 == c2 && k1 == k2
  {
    var a, b := states[i].q[D(c1)].enqueued[k1].origin, states[i].q[D(c2)].enqueued[k2].origin;
    hide IsRun;
    if a.i < b.i {
      OneAtATime(states, acts, i, D(c1), k1, D(c2), k2);
    } else if b.i < a.i {
      OneAtATime(states, acts, i, D(c2), k2, D(c1), k1);
    } else {
      RunItem(states, acts, i, D(c1), k1);
      RunItem(states, acts, i, D(c2), k2);
    }
  }

  /** After a session has been removed, its device is still sent, over all its connections, at most the
      one broker-made end and one envelope more: either the request, or one that the browser's
      handler was forwarding, having found the session before. */
  lemma DeviceAfterRemoval(states: seq<State>, acts: seq<Action>, i: nat, h: nat, c1: nat, k1: int, c2: nat, k2: int)
    requires IsRun(states, acts) && i < |states|
    requires LateForDevice(states[i], c1, k1, h) && LateForDevice(states[i], c2, k2, h)
    ensures LateItem(states, states[i].objs[h], h, states[i].q[D(c1)].enqueued[k1])
    ensures states[i].q[D(c1)].enqueued[k1].origin.Ended? == states[i].q[D(c2)].enqueued[k2].origin.Ended? ==>
              c1 == c2 && k1 == k2
  {
    hide IsRun;
    LateItems(states, acts, i, c1, k1, h);
    LateItems(states, acts, i, c2, k2, h);
    var a, b := states[i].q[D(c1)].enqueued[k1].origin, states[i].q[D(c2)].enqueued[k2].origin;
    if a.Ended? && b.Ended? {
      EndsOnce(states, acts, i, h);
      assert EndAt(states[i], D(c1), k1, h) && EndAt(states[i], D(c2), k2, h);
    } else if a.Requested? && b.Requested? {
      RequestComesFirst(states, acts, i, h);
      assert RequestAt(states[i], c1, k1, h) && RequestAt(states[i], c2, k2, h);
    } else if a.Carried? && b.Carried? {
      OneLateForward(states, acts, i, h, c1, k1, c2, k2);
    }
  }
}
