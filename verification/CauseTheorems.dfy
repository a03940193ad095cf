/** Why sessions end: every close has a cause in what a handler met, every cause leads to the close, and
    both sides are told the reason that goes with it. */
module CauseTheorems {
  import opened Wire
  import opened Machine
  import opened Control
  import opened Queues
  import opened Runs
  import opened SessionTheorems
  import opened OrderTheorems

  // ---- Causes ----

  /** At this step browser handler h comes to close its session: its open fails, because the device's
      connection is gone or its queue full; its read fails; or it is done with a session.end that
      its browser sent. */
  ghost predicate BrowserCause(s: State, h: nat, input: Input, reason: string) {
    B(h) in s.pc && s.pc[B(h)].AtBrowser? && h in s.objs
    && match s.pc[B(h)].b
       case RequestLookup(_) => reason == "device unreachable" && s.objs[h].dev !in s.conns
       case RequestPush(_, c) => reason == "device unreachable" && D(c) in s.q && |s.q[D(c)].pending| >= 32
       case Loop => reason == "browser closed" && input.ReadError?
       case FwdGet(env) => reason == "browser closed" && env.kind == SessionEnd && s.objs[h].id !in s.table
       case FwdLookup(env, _, _) =>
         reason == "browser closed" && env.kind == SessionEnd && s.objs[h].dev !in s.conns
       case FwdPush(env, _, _) => reason == "browser closed" && env.kind == SessionEnd
       case _ => false
  }

  /** At this step connection c comes to close session `id`: it has relayed a session.end for it, or, its
      own read having failed, it takes the id as the next of those it ends. */
  ghost predicate DeviceCause(s: State, c: nat, input: Input, id: string, reason: string) {
    D(c) in s.pc && s.pc[D(c)].AtDevice?
    && match s.pc[D(c)].d
       case RelayPush(env, _, _) => reason == "device ended session" && env.kind == SessionEnd && env.sid == id
       case EndNext(todo) => reason == "device disconnected" && input == NextId(id) && id in todo
       case _ => false
  }

  ghost predicate Causes(s: State, a: Action, id: string, reason: string) {
    a.Moves?
    && match a.t
       case B(h) => BrowserCause(s, h, a.input, reason) && id == s.objs[h].id
       case D(c) => DeviceCause(s, c, a.input, id, reason)
  }

  ghost predicate CauseAt(states: seq<State>, acts: seq<Action>, e: int, t: Thread, id: string, reason: string) {
    0 <= e < |acts| < |states| && acts[e].Moves? && acts[e].t == t && Causes(states[e], acts[e], id, reason)
  }

  // ---- A step comes to a close exactly when there is a cause ----

  lemma BrowserCauses(s: State, h: nat, b: BrowserPC, input: Input)
    requires B(h) in s.pc && s.pc[B(h)] == AtBrowser(b) && BrowserReady(s, h, b, input) && BrowserPcOk(s, h, b)
    ensures var p := BrowserPlan(s, h, b, input).next;
            if exists reason :: BrowserCause(s, h, input, reason)
            then p.Closing? && p.stage == Mark(s.objs[h].id) && BrowserCause(s, h, input, Reason(p.why))
            else p.AtBrowser?
  {
    hide ConnOf, FoundAt, BadOpen;
    var p := BrowserPlan(s, h, b, input).next;
    assert p.Closing? ==> BrowserCause(s, h, input, Reason(p.why));
  }

  lemma DeviceCauses(s: State, c: nat, d: DevicePC, input: Input)
    requires D(c) in s.pc && s.pc[D(c)] == AtDevice(d) && DeviceReady(s, c, d, input) && DevicePcOk(s, c, d)
    ensures var p := DevicePlan(s, c, d, input).next;
            if exists id, reason :: DeviceCause(s, c, input, id, reason)
            then p.Closing? && p.stage.Mark? && DeviceCause(s, c, input, p.stage.id, Reason(p.why))
            else p.AtDevice?
  {
    hide ConnOf, FoundAt, IdsOf;
    var p := DevicePlan(s, c, d, input).next;
    assert p.Closing? ==> DeviceCause(s, c, input, p.stage.id, Reason(p.why));
  }

  lemma ClosePlanKeepsWhy(s: State, stage: Stage, why: Why)
    requires CloseReady(s, stage)
    ensures var p := ClosePlan(s, stage, why).next;
            p == After(why) || (p.Closing? && p.why == why && !p.stage.Mark?)
    ensures !After(why).Closing?
    ensures stage.Mark? && (stage.id !in s.table || s.objs[s.table[stage.id]].closed) ==>
              ClosePlan(s, stage, why).effect == Quiet
    ensures stage.Mark? && stage.id in s.table && !s.objs[s.table[stage.id]].closed ==>
              ClosePlan(s, stage, why).effect == Delete(stage.id)
  {
  }

  /** A thread not at work on a close comes to one exactly if it has a cause, and then to the one
      that the cause says; a close goes on for the same reason until it is done. */
  lemma PlanCauses(s: State, t: Thread, input: Input)
    requires ControlOk(s) && MayMove(s, t, input)
    ensures var p := PlanOf(s, t, input).next;
            if s.pc[t].Closing? then p == After(s.pc[t].why) || (p.Closing? && p.why == s.pc[t].why && !p.stage.Mark?)
            else if exists id, reason :: Causes(s, Moves(t, input), id, reason)
            then p.Closing? && p.stage.Mark? && Causes(s, Moves(t, input), p.stage.id, Reason(p.why))
            else !p.Closing?
  {
    assert PcOk(s, t, s.pc[t]);
    hide ControlOk, Reason, DeviceCause, BrowserCause, BrowserPlan, DevicePlan, ClosePlan, DevicePcOk, BrowserPcOk;
    if s.pc[t].Closing? {
      ClosePlanKeepsWhy(s, s.pc[t].stage, s.pc[t].why);
    } else if s.pc[t].AtBrowser? {
      BrowserCauses(s, t.h, s.pc[t].b, input);
      CausesOfBrowser(s, t.h, input, PlanOf(s, t, input).next);
    } else {
      DeviceCauses(s, t.c, s.pc[t].d, input);
      CausesOfDevice(s, t.c, input, PlanOf(s, t, input).next);
    }
  }

  lemma CausesOfBrowser(s: State, h: nat, input: Input, p: PC)
    requires if exists reason :: BrowserCause(s, h, input, reason)
             then h in s.objs && p.Closing? && p.stage == Mark(s.objs[h].id) && BrowserCause(s, h, input, Reason(p.why))
             else p.AtBrowser?
    ensures if exists id, reason :: Causes(s, Moves(B(h), input), id, reason)
            then p.Closing? && p.stage.Mark? && Causes(s, Moves(B(h), input), p.stage.id, Reason(p.why))
            else !p.Closing?
  {
    assert forall reason :: BrowserCause(s, h, input, reason) ==> h in s.objs;
    hide BrowserCause, Reason;
    if reason :| BrowserCause(s, h, input, reason) {
      assert Causes(s, Moves(B(h), input), s.objs[h].id, Reason(p.why));
    }
  }

  lemma CausesOfDevice(s: State, c: nat, input: Input, p: PC)
    requires if exists id, reason :: DeviceCause(s, c, input, id, reason)
             then p.Closing? && p.stage.Mark? && DeviceCause(s, c, input, p.stage.id, Reason(p.why))
             else p.AtDevice?
    ensures if exists id, reason :: Causes(s, Moves(D(c), input), id, reason)
            then p.Closing? && p.stage.Mark? && Causes(s, Moves(D(c), input), p.stage.id, Reason(p.why))
            else !p.Closing?
  {
    hide DeviceCause, Reason;
    if id, reason :| DeviceCause(s, c, input, id, reason) {
      assert Causes(s, Moves(D(c), input), p.stage.id, Reason(p.why));
    }
  }

  // ---- Every close has its cause ----

  lemma ClosingStep(s: State, a: Action, t: Thread)
    requires ControlOk(s) && Enabled(s, a) && t in Apply(s, a).pc && Apply(s, a).pc[t].Closing?
    ensures t in s.pc
    ensures var p, p' := s.pc[t], Apply(s, a).pc[t];
            if p.Closing? then p'.why == p.why && (p'.stage.Mark? ==> p' == p)
            else a.Moves? && a.t == t && p'.stage.Mark? && Causes(s, a, p'.stage.id, Reason(p'.why))
  {
    assert DomainsOk(s);
    hide ControlOk, DomainsOk, Causes, Reason, PlanOf, MayMove, Performable, Connect, Take;
    if a.Moves? {
      MovedFrom(s, a.t, a.input);
      if a.t == t {
        PlanCauses(s, t, a.input);
      }
    } else {
      OutsideIsElsewhere(s, a);
    }
  }

  lemma MovedFrom(s: State, t: Thread, input: Input)
    requires MayMove(s, t, input)
    ensures t in s.pc
    ensures s.pc[t].Closing? ==> !After(s.pc[t].why).Closing?
  {
  }

  lemma {:induction false} ClosingSince(states: seq<State>, acts: seq<Action>, i: nat, t: Thread)
    returns (e: nat, id: string)
    requires IsRun(states, acts) && i < |states| && t in states[i].pc && states[i].pc[t].Closing?
    ensures e < i && CauseAt(states, acts, e, t, id, Reason(states[i].pc[t].why))
    ensures states[i].pc[t].stage.Mark? ==> states[i].pc[t].stage.id == id
  {
    hide Enabled, Apply, Causes, Reason;
    assert |states| == |acts| + 1 && i > 0;
    hide IsRun;
    RunStep(states, acts, i - 1);
    ClosingStep(states[i - 1], acts[i - 1], t);
    hide ControlOk;
    if states[i - 1].pc[t].Closing? {
      e, id := ClosingSince(states, acts, i - 1, t);
    } else {
      e, id := i - 1, states[i].pc[t].stage.id;
    }
  }

  lemma DeletesAtMark(s: State, t: Thread, input: Input)
    requires MayMove(s, t, input) && PlanOf(s, t, input).effect.Delete?
    ensures s.pc[t].Closing? && s.pc[t].stage == Mark(PlanOf(s, t, input).effect.id)
  {
  }

  lemma TearingNow(states: seq<State>, acts: seq<Action>, j: nat, h: nat)
    requires IsRun(states, acts) && j < |states| && h in states[j].objs && states[j].objs[h].teardown.Torn?
    requires states[j].objs[h].teardown.stage < 4
    ensures states[j].objs[h].teardown.at < j
    ensures var t := states[j].objs[h].teardown.closer;
            t in states[j].pc && states[j].pc[t].Closing? && !states[j].pc[t].stage.Mark?
  {
    hide IsRun;
    RunObject(states, acts, j, h);
  }

  /** From the removal on until cancel is called the closer is at the same close. */
  lemma {:induction false} SameClose(states: seq<State>, acts: seq<Action>, r: nat, j: nat, h: nat)
    requires IsRun(states, acts) && r <= j < |states| && h in states[j].objs && states[j].objs[h].teardown.Torn?
    requires r == states[j].objs[h].teardown.at + 1 && states[j].objs[h].teardown.stage < 4
    ensures var t := states[j].objs[h].teardown.closer;
            t in states[r].pc && states[r].pc[t].Closing? && t in states[j].pc && states[j].pc[t].Closing?
            && states[j].pc[t].why == states[r].pc[t].why
    decreases j
  {
    hide IsRun, Enabled, Apply, Causes, Reason, ControlOk;
    TearingNow(states, acts, j, h);
    if r < j {
      var t := states[j].objs[h].teardown.closer;
      TornBefore(states, acts, j, h);
      SameClose(states, acts, r, j - 1, h);
      RunStep(states, acts, j - 1);
      ClosingStep(states[j - 1], acts[j - 1], t);
    }
  }

  lemma TornBefore(states: seq<State>, acts: seq<Action>, j: nat, h: nat)
    requires IsRun(states, acts) && 0 < j < |states| && h in states[j].objs && states[j].objs[h].teardown.Torn?
    requires states[j].objs[h].teardown.at + 1 < j
    ensures h in states[j - 1].objs && states[j - 1].objs[h].teardown.Torn?
    ensures var td, td' := states[j - 1].objs[h].teardown, states[j].objs[h].teardown;
            td.closer == td'.closer && td.at == td'.at && td.stage <= td'.stage
    ensures |states| == |acts| + 1
  {
    hide Enabled, Apply;
    assert |states| == |acts| + 1;
    hide IsRun;
    RunObject(states, acts, j, h);
    RunClock(states, acts, j - 1);
    RunLater(states, acts, j - 1, j);
    hide HistoriesGrow;
  }

  lemma EndItemEffect(s: State, t: Thread, input: Input, to: Thread, h: nat, it: Item)
    requires PushesItem(s, Moves(t, input), to, it) && it.origin == Ended(h)
    ensures t in s.pc && s.pc[t].Closing? && h in s.objs
    ensures var e := PlanOf(s, t, input).effect; (e.TellDevice? || e.TellBrowser?) && e.h == h
    ensures it.env == Envelope(SessionEnd, s.objs[h].id, Reason(s.pc[t].why))
  {
    hide Reason, IdsOf, BadOpen, Room, After, AfterForward;
  }

  lemma EndItemReason(s: State, t: Thread, input: Input, to: Thread, h: nat, it: Item)
    requires ControlOk(s) && PushesItem(s, Moves(t, input), to, it) && it.origin == Ended(h)
    ensures h in s.objs && s.objs[h].teardown.Torn? && s.objs[h].teardown.closer == t
    ensures s.objs[h].teardown.stage < 4 && t in s.pc && s.pc[t].Closing?
    ensures it.env == Envelope(SessionEnd, s.objs[h].id, Reason(s.pc[t].why))
  {
    assert MayMove(s, t, input);
    hide ControlOk, PushesItem, PlanOf, MayMove, Reason;
    EndItemEffect(s, t, input, to, h, it);
    PlanEffectOk(s, t, input);
  }

  lemma TornAtPush(states: seq<State>, acts: seq<Action>, j: nat, i: nat, h: nat)
    requires IsRun(states, acts) && j <= i < |states| && h in states[j].objs && states[j].objs[h].teardown.Torn?
    ensures h in states[i].objs && states[i].objs[h].teardown.Torn? && states[i].objs[h].id == states[j].objs[h].id
    ensures states[i].objs[h].teardown.at == states[j].objs[h].teardown.at
    ensures states[i].objs[h].teardown.closer == states[j].objs[h].teardown.closer
  {
    RunLater(states, acts, j, i);
    hide IsRun, HistoriesGrow;
  }

  lemma EndPushedBy(states: seq<State>, acts: seq<Action>, i: nat, h: nat, to: Thread, k: int)
    requires IsRun(states, acts) && i < |states| && EndAt(states[i], to, k, h)
    ensures var it := states[i].q[to].enqueued[k];
            it.at < i && h in states[it.at].objs && states[it.at].objs[h].teardown.Torn?
            && states[it.at].objs[h].teardown.stage < 4
            && var t := states[it.at].objs[h].teardown.closer;
               t in states[it.at].pc && states[it.at].pc[t].Closing?
               && it.env == Envelope(SessionEnd, states[it.at].objs[h].id, Reason(states[it.at].pc[t].why))
  {
    var it := states[i].q[to].enqueued[k];
    hide IsRun, PushesItem, Reason, ControlOk, Enabled, Apply;
    ItemPushed(states, acts, i, to, k);
    RunControl(states, acts, it.at);
    PushMoves(states[it.at], acts[it.at], to, it);
    EndItemReason(states[it.at], acts[it.at].t, acts[it.at].input, to, h, it);
  }

  /** The closer's reason, at its removing step, is the one every broker-made end carries. */
  lemma EndCarries(states: seq<State>, acts: seq<Action>, i: nat, h: nat, to: Thread, k: int)
    requires IsRun(states, acts) && i < |states| && EndAt(states[i], to, k, h)
    ensures h in states[i].objs && states[i].objs[h].teardown.Torn?
    ensures var td := states[i].objs[h].teardown;
            td.at + 1 < |states| && td.closer in states[td.at + 1].pc && states[td.at + 1].pc[td.closer].Closing?
            && states[i].q[to].enqueued[k].env
                 == Envelope(SessionEnd, states[i].objs[h].id, Reason(states[td.at + 1].pc[td.closer].why))
  {
    hide IsRun, Reason;
    EndPushedBy(states, acts, i, h, to, k);
    var at := states[i].q[to].enqueued[k].at;
    TornAtPush(states, acts, at, i, h);
    TearingNow(states, acts, at, h);
    SameClose(states, acts, states[i].objs[h].teardown.at + 1, at, h);
  }

  lemma PushMoves(s: State, a: Action, to: Thread, it: Item)
    requires PushesItem(s, a, to, it)
    ensures a.Moves? && a == Moves(a.t, a.input)
  {
    hide PlanOf, MayMove;
  }

  lemma RemovingStep(states: seq<State>, acts: seq<Action>, i: nat, h: nat)
    requires IsRun(states, acts) && i < |states| && h in states[i].objs && states[i].objs[h].teardown.Torn?
    ensures var td := states[i].objs[h].teardown; var r := td.at;
            r < i && td.closer in states[r].pc && states[r].pc[td.closer].Closing?
            && states[r].pc[td.closer].stage == Mark(states[i].objs[h].id)
    ensures var td := states[i].objs[h].teardown; var r := td.at;
            td.closer in states[r + 1].pc && states[r + 1].pc[td.closer].Closing? ==>
              states[r + 1].pc[td.closer].why == states[r].pc[td.closer].why
  {
    var td := states[i].objs[h].teardown;
    RemovedByItsCloser(states, acts, i, h);
    RunStep(states, acts, td.at);
    DeletesAtMark(states[td.at], td.closer, acts[td.at].input);
    hide IsRun, OpOf, Enabled, Apply, Causes, Reason;
    if td.closer in states[td.at + 1].pc && states[td.at + 1].pc[td.closer].Closing? {
      ClosingStep(states[td.at], acts[td.at], td.closer);
    }
  }

  /** A session that has been removed was removed for a cause that its closer had met: its own browser's
      open failed, its own browser was gone or had sent session.end, a connection of its device had
      relayed a session.end for it or was leaving; and every broker-made end of it gives that reason. */
  lemma ClosedBecause(states: seq<State>, acts: seq<Action>, i: nat, h: nat) returns (e: nat, reason: string)
    requires IsRun(states, acts) && i < |states| && h in states[i].objs && states[i].objs[h].teardown.Torn?
    ensures e < states[i].objs[h].teardown.at
    ensures CauseAt(states, acts, e, states[i].objs[h].teardown.closer, states[i].objs[h].id, reason)
    ensures forall to, k :: EndAt(states[i], to, k, h) ==>
              states[i].q[to].enqueued[k].env == Envelope(SessionEnd, states[i].objs[h].id, reason)
  {
    var td := states[i].objs[h].teardown;
    hide IsRun, Reason, CauseAt;
    RemovingStep(states, acts, i, h);
    var id: string;
    e, id := ClosingSince(states, acts, td.at, td.closer);
    reason := Reason(states[td.at].pc[td.closer].why);
    forall to, k | EndAt(states[i], to, k, h)
      ensures states[i].q[to].enqueued[k].env == Envelope(SessionEnd, states[i].objs[h].id, reason) {
      EndCarries(states, acts, i, h, to, k);
    }
  }

  // ---- Every cause leads to the close ----

  lemma OutStays(s: State, a: Action, id: string)
    requires ControlOk(s) && Enabled(s, a) && id in s.used && id !in s.table
    ensures id in Apply(s, a).used && id !in Apply(s, a).table
  {
    assert DomainsOk(s);
    hide DomainsOk, PlanOf, MayMove, Move, Performable, EffectOk, Connect, Take;
    if a.Moves? {
      PlanEffectOk(s, a.t, a.input);
      EffectFramed(s, a.t, PlanOf(s, a.t, a.input).effect, PlanOf(s, a.t, a.input).next);
    } else {
      OutsideIsElsewhere(s, a);
    }
    hide ControlOk;
  }

  /** Thread t is about to mark session `id`, or it is out of the table. */
  ghost predicate OnItsWayOut(s: State, t: Thread, id: string) {
    id in s.used && (id in s.table ==> t in s.pc && s.pc[t].Closing? && s.pc[t].stage == Mark(id))
  }

  lemma MarkRemoves(s: State, t: Thread, input: Input, id: string)
    requires ControlOk(s) && MayMove(s, t, input) && Performable(s, t, PlanOf(s, t, input).effect)
    requires s.pc[t].Closing? && s.pc[t].stage == Mark(id)
    ensures id in s.used ==> id in Move(s, t, PlanOf(s, t, input)).used
    ensures id !in Move(s, t, PlanOf(s, t, input)).table
  {
    if id in s.table {
      assert TableOk(s) && ObjectOk(s, s.table[id]);
    }
    hide ControlOk, ObjectOk, Reason;
    ClosePlanKeepsWhy(s, s.pc[t].stage, s.pc[t].why);
    hide ClosePlan, ChannelsAfter, ObjsAfter;
  }

  lemma OthersLeaveMark(s: State, a: Action, t: Thread, id: string)
    requires ControlOk(s) && Enabled(s, a) && !(a.Moves? && a.t == t) && id in s.table && OnItsWayOut(s, t, id)
    ensures t in Apply(s, a).pc && Apply(s, a).pc[t] == s.pc[t] && id in Apply(s, a).used
  {
    assert DomainsOk(s);
    hide ControlOk, DomainsOk, PlanOf, MayMove, Performable, TableAfter, ChannelsAfter, Connect, Take, ObjsAfter;
    if !a.Moves? {
      OutsideIsElsewhere(s, a);
    }
  }

  lemma WayOutStep(s: State, a: Action, t: Thread, id: string)
    requires ControlOk(s) && Enabled(s, a) && OnItsWayOut(s, t, id)
    ensures OnItsWayOut(Apply(s, a), t, id)
  {
    hide ControlOk, PlanOf, MayMove, Performable, Move, Connect, Take;
    if id !in s.table {
      OutStays(s, a, id);
    } else if a.Moves? && a.t == t {
      MarkRemoves(s, t, a.input, id);
    } else {
      OthersLeaveMark(s, a, t, id);
    }
  }

  lemma MarkedIsUsed(s: State, t: Thread, id: string)
    requires ControlOk(s) && t in s.pc && s.pc[t].Closing? && s.pc[t].stage == Mark(id)
    ensures id in s.used
  {
    assert PcOk(s, t, s.pc[t]);
    if t.B? {
      assert ObjectOk(s, t.h);
    }
  }

  lemma CauseComesToMark(states: seq<State>, acts: seq<Action>, e: nat, t: Thread, id: string, reason: string)
    requires IsRun(states, acts) && CauseAt(states, acts, e, t, id, reason)
    ensures OnItsWayOut(states[e + 1], t, id)
    ensures t in states[e + 1].pc && states[e + 1].pc[t].Closing? && states[e + 1].pc[t].stage == Mark(id)
    ensures Reason(states[e + 1].pc[t].why) == reason
  {
    hide Enabled, Apply, Causes, Reason, ControlOk;
    assert e + 1 < |states|;
    hide IsRun;
    RunStep(states, acts, e);
    CauseSteps(states[e], acts[e], id, reason);
    RunControl(states, acts, e + 1);
    MarkedIsUsed(states[e + 1], t, id);
  }

  lemma RunControl(states: seq<State>, acts: seq<Action>, i: nat)
    requires IsRun(states, acts) && i < |states|
    ensures ControlOk(states[i])
  {
    hide ControlOk, QueuesOk, IsRun;
    RunInv(states, acts, i);
  }

  lemma CauseSteps(s: State, a: Action, id: string, reason: string)
    requires ControlOk(s) && Enabled(s, a) && Causes(s, a, id, reason)
    ensures a.t in Apply(s, a).pc && Apply(s, a).pc[a.t].Closing? && Apply(s, a).pc[a.t].stage == Mark(id)
    ensures Reason(Apply(s, a).pc[a.t].why) == reason
  {
    NotClosingYet(s, a, id, reason);
    assert Causes(s, Moves(a.t, a.input), id, reason);
    hide ControlOk, PlanOf, MayMove, Performable, Reason, Causes;
    PlanCauses(s, a.t, a.input);
    var p := PlanOf(s, a.t, a.input).next;
    OneCause(s, a, id, reason, p.stage.id, Reason(p.why));
  }

  lemma NotClosingYet(s: State, a: Action, id: string, reason: string)
    requires Causes(s, a, id, reason)
    ensures a.t in s.pc && !s.pc[a.t].Closing?
  {
  }

  lemma OneCause(s: State, a: Action, id: string, reason: string, id': string, reason': string)
    requires Causes(s, a, id, reason) && Causes(s, a, id', reason')
    ensures id == id' && reason == reason'
  {
  }

  lemma {:induction false} StaysOnItsWayOut(states: seq<State>, acts: seq<Action>, j: nat, i: nat,
                                            t: Thread, id: string)
    requires IsRun(states, acts) && j <= i < |states| && OnItsWayOut(states[j], t, id)
    ensures OnItsWayOut(states[i], t, id)
    decreases i
  {
    hide Enabled, Apply, OnItsWayOut, ControlOk;
    if j < i {
      assert |states| == |acts| + 1;
      hide IsRun;
      StaysOnItsWayOut(states, acts, j, i - 1, t, id);
      RunStep(states, acts, i - 1);
      WayOutStep(states[i - 1], acts[i - 1], t, id);
    }
  }

  /** A thread that has met a cause closes the session: once it is past marking it, the id is out of the
      table, whoever removed it, and stays out. */
  lemma CauseCloses(states: seq<State>, acts: seq<Action>, e: nat, m: nat, i: nat,
                    t: Thread, id: string, reason: string)
    requires IsRun(states, acts) && CauseAt(states, acts, e, t, id, reason) && e < m <= i < |states|
    requires t in states[m].pc && !(states[m].pc[t].Closing? && states[m].pc[t].stage.Mark?)
    ensures id !in states[i].table
  {
    hide IsRun, CauseAt;
    CauseComesToMark(states, acts, e, t, id, reason);
    StaysOnItsWayOut(states, acts, e + 1, m, t, id);
    StaysOut(states, acts, m, i, id);
  }

  lemma {:induction false} StaysOut(states: seq<State>, acts: seq<Action>, m: nat, i: nat, id: string)
    requires IsRun(states, acts) && m <= i < |states| && id in states[m].used && id !in states[m].table
    ensures id in states[i].used && id !in states[i].table
    decreases i
  {
    hide Enabled, Apply, ControlOk;
    if m < i {
      assert |states| == |acts| + 1;
      hide IsRun;
      StaysOut(states, acts, m, i - 1, id);
      RunStep(states, acts, i - 1);
      OutStays(states[i - 1], acts[i - 1], id);
    }
  }
}
