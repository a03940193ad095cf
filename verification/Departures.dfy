/** What every step keeps about devices that go away: the sessions that closeByDevice
    still has to end, and the sessions whose device is offline. */
module Departures {
  import opened Machine
  import opened Control

  // ---- The invariant ----

  /** The connection has collected the ids closeByDevice is to end. */
  ghost predicate HasCollected(p: PC) {
    match p
    case AtBrowser(_) => false
    case AtDevice(d) => d.EndNext? || d.Part? || d.Parted? || d.Off?
    case Closing(_, why) => why.DeviceGone?
  }

  /** The ids among them whose close is still to come. */
  ghost function Remaining(p: PC): set<string> {
    match p
    case AtBrowser(_) => {}
    case AtDevice(d) => if d.EndNext? then d.todo else {}
    case Closing(stage, why) =>
      if !why.DeviceGone? then {} else if stage.Mark? then why.todo + {stage.id} else why.todo
  }

  /** Session h was in the table at step `at`. */
  ghost predicate InTableAt(s: State, h: nat, at: nat) {
    h in s.objs && s.objs[h].insertedAt < at
    && (s.objs[h].teardown.Torn? ==> at < s.objs[h].teardown.at)
  }

  ghost predicate CollectionOk(s: State, c: nat, p: PC) {
    HasCollected(p) ==>
      c in s.collect && c in s.cdev && s.collect[c].at < s.now
      && (forall h :: h in s.objs ==>
            (s.objs[h].id in s.collect[c].ids <==>
               s.objs[h].dev == s.cdev[c] && InTableAt(s, h, s.collect[c].at)))
      && (forall h :: h in s.objs && s.objs[h].teardown.Live? && s.objs[h].id in s.collect[c].ids ==>
            s.objs[h].id in Remaining(p))
      && Remaining(p) <= s.collect[c].ids <= s.used
      && (forall h :: h in s.objs ==> s.objs[h].insertedAt != s.collect[c].at)
  }

  ghost predicate LastOutOk(s: State) {
    forall d :: d in s.lastOut ==>
      var c := s.lastOut[d];
      c in s.cdev && s.cdev[c] == d && D(c) in s.pc && HasCollected(s.pc[D(c)])
      && Remaining(s.pc[D(c)]) == {} && !InService(s.pc[D(c)])
  }

  /** Inside open, before the request is pushed: the device's connection is yet to be looked
      up, or the lookup or the push has failed and the session is yet to be removed. */
  ghost predicate InsideOpen(p: PC) {
    match p
    case AtBrowser(b) => b.RequestLookup?
    case AtDevice(_) => false
    case Closing(stage, why) => stage.Mark? && why.FailedOpen?
  }

  /** Session h came too late for the connection of its device that left last. */
  ghost predicate TooLate(s: State, h: nat) {
    h in s.objs && s.objs[h].dev in s.lastOut && s.lastOut[s.objs[h].dev] in s.collect
    && s.collect[s.lastOut[s.objs[h].dev]].at < s.objs[h].insertedAt
  }

  ghost predicate OfflineOk(s: State) {
    forall h :: h in s.objs && Stranded(s, h) ==> TooLate(s, h)
  }

  /** A session in the table whose device is offline, and whose open is over or about to succeed. */
  ghost predicate Stranded(s: State, h: nat)
    requires h in s.objs
  {
    s.objs[h].teardown.Live? && s.objs[h].dev !in s.conns && B(h) in s.pc && !InsideOpen(s.pc[B(h)])
  }

  ghost predicate CollectionsOk(s: State) {
    forall c :: D(c) in s.pc ==> CollectionOk(s, c, s.pc[D(c)])
  }

  ghost predicate DeparturesOk(s: State) {
    CollectionsOk(s) && LastOutOk(s) && OfflineOk(s)
  }

  // ---- Preservation ----

  lemma CollectionLasts(s: State, s': State, t: Thread, c: nat, p: PC)
    requires Framed(s, s', t) && CollectionOk(s, c, p)
    requires c in s.collect ==> c in s'.collect && s'.collect[c] == s.collect[c]
    ensures CollectionOk(s', c, p)
  {
  }

  /** How a connection's next program counter keeps track of what it still has to end. */
  ghost predicate KeepsEnding(s: State, t: Thread, e: Effect, p: PC)
    requires t in s.pc
  {
    if e.Collect? then
      t.D? && !HasCollected(s.pc[t])
      && (forall id :: id in s.table ==> s.table[id] in s.objs)
      && t.c in s.cdev && p == AtDevice(EndNext(IdsOf(s, s.cdev[t.c])))
    else
      HasCollected(p) == HasCollected(s.pc[t]) && Remaining(p) <= Remaining(s.pc[t])
      && (forall id :: id in Remaining(s.pc[t]) && id !in Remaining(p) ==> id !in s.table || e == Delete(id))
      && (e.Unregister? ==> HasCollected(p) && Remaining(p) == {} && Remaining(s.pc[t]) == {} && !InService(p))
  }

  lemma BrowserEnding(s: State, h: nat, b: BrowserPC, input: Input)
    requires B(h) in s.pc && s.pc[B(h)] == AtBrowser(b) && BrowserReady(s, h, b, input)
    ensures var plan := BrowserPlan(s, h, b, input); KeepsEnding(s, B(h), plan.effect, plan.next)
  {
  }

  lemma DeviceEnding(s: State, c: nat, d: DevicePC, input: Input)
    requires D(c) in s.pc && s.pc[D(c)] == AtDevice(d) && DeviceReady(s, c, d, input)
    ensures var plan := DevicePlan(s, c, d, input); KeepsEnding(s, D(c), plan.effect, plan.next)
  {
  }

  lemma CloseEnding(s: State, t: Thread, stage: Stage, why: Why)
    requires t in s.pc && s.pc[t] == Closing(stage, why) && CloseReady(s, stage) && StageOk(s, t, stage)
    requires stage.Mark? && stage.id in s.table ==> !s.objs[s.table[stage.id]].closed
    ensures var plan := ClosePlan(s, stage, why); KeepsEnding(s, t, plan.effect, plan.next)
  {
  }

  lemma PlanEnding(s: State, t: Thread, input: Input)
    requires ControlOk(s) && MayMove(s, t, input)
    ensures var plan := PlanOf(s, t, input); KeepsEnding(s, t, plan.effect, plan.next)
  {
    if s.pc[t].AtBrowser? {
      BrowserEnding(s, t.h, s.pc[t].b, input);
    } else if s.pc[t].AtDevice? {
      DeviceEnding(s, t.c, s.pc[t].d, input);
    } else {
      assert PcOk(s, t, s.pc[t]);
      var stage := s.pc[t].stage;
      if stage.Mark? && stage.id in s.table {
        assert ObjectOk(s, s.table[stage.id]);
      }
      CloseEnding(s, t, stage, s.pc[t].why);
    }
  }

  lemma CollectStep(s: State, c: nat, plan: Plan)
    requires D(c) in s.pc && Performable(s, D(c), plan.effect) && KeepsEnding(s, D(c), plan.effect, plan.next)
    requires plan.effect.Collect? && TableOk(s) && IdsDiffer(s) && ObjectsOk(s)
    ensures CollectionOk(Move(s, D(c), plan), c, plan.next)
  {
    hide Performable, CancelledBy, InService, SessionAfter, ChannelsAfter, TearsDown, TableAfter, TouchedBy, MayClose;
    hide FatesAfter;
    var s' := Move(s, D(c), plan);
    forall h | h in s'.objs
      ensures s'.objs[h].id in s'.collect[c].ids <==>
                s'.objs[h].dev == s'.cdev[c] && InTableAt(s', h, s'.collect[c].at) {
      assert ObjectOk(s, h);
      assert s.objs[h].id in s.table ==> s.table[s.objs[h].id] == h;
    }
    forall h | h in s'.objs ensures s'.objs[h].insertedAt != s'.collect[c].at {
      assert ObjectOk(s, h);
    }
    forall id | id in s'.collect[c].ids ensures id in s.used {
      assert ObjectOk(s, s.table[id]);
    }
  }

  lemma EndingStep(s: State, c: nat, plan: Plan)
    requires D(c) in s.pc && Performable(s, D(c), plan.effect) && KeepsEnding(s, D(c), plan.effect, plan.next)
    requires !plan.effect.Collect? && EffectOk(s, D(c), plan.effect)
    requires CollectionOk(s, c, s.pc[D(c)]) && ObjectsOk(s)
    ensures CollectionOk(Move(s, D(c), plan), c, plan.next)
  {
    hide Performable, ChannelsAfter, FatesAfter;
    var s' := Move(s, D(c), plan);
    EffectFramed(s, D(c), plan.effect, plan.next);
    CollectionLasts(s, s', D(c), c, s.pc[D(c)]);
    if HasCollected(plan.next) {
      forall h | h in s'.objs && s'.objs[h].teardown.Live? && s'.objs[h].id in s'.collect[c].ids
        ensures s'.objs[h].id in Remaining(plan.next) {
        assert h in s.objs && ObjectOk(s, h);
      }
    }
  }

  lemma MoveKeepsCollections(s: State, t: Thread, plan: Plan)
    requires ControlOk(s) && CollectionsOk(s) && t in s.pc && GoodPlan(s, t, plan)
    requires KeepsEnding(s, t, plan.effect, plan.next)
    ensures CollectionsOk(Move(s, t, plan))
  {
    hide DomainsOk, Framed, IdsOf;
    var s' := Move(s, t, plan);
    forall c | D(c) in s'.pc ensures CollectionOk(s', c, s'.pc[D(c)]) {
      if D(c) == t {
        if plan.effect.Collect? {
          CollectStep(s, c, plan);
        } else {
          EndingStep(s, c, plan);
        }
      } else {
        EffectFramed(s, t, plan.effect, plan.next);
        CollectionLasts(s, s', t, c, s.pc[D(c)]);
      }
    }
  }

  lemma MoveKeepsLastOut(s: State, t: Thread, plan: Plan)
    requires LastOutOk(s) && t in s.pc && Performable(s, t, plan.effect)
    requires EffectOk(s, t, plan.effect) && ServiceMoves(s.pc[t], plan.effect, plan.next)
    requires KeepsEnding(s, t, plan.effect, plan.next)
    ensures LastOutOk(Move(s, t, plan))
  {
  }

  /** A handler leaves the first part of open only when it has found the device online or
      when it removes its session. */
  ghost predicate LeavesOpen(s: State, t: Thread, e: Effect, p: PC)
    requires t in s.pc
  {
    (t.B? && t.h in s.objs && InsideOpen(s.pc[t]) && s.objs[t.h].teardown.Live? ==>
       InsideOpen(p) || s.objs[t.h].dev in s.conns || e == Delete(s.objs[t.h].id))
    && (e.InsertSession? ==> InsideOpen(p))
  }

  lemma BrowserLeavesOpen(s: State, h: nat, b: BrowserPC, input: Input)
    requires B(h) in s.pc && s.pc[B(h)] == AtBrowser(b) && BrowserReady(s, h, b, input)
    ensures var plan := BrowserPlan(s, h, b, input); LeavesOpen(s, B(h), plan.effect, plan.next)
  {
  }

  lemma CloseLeavesOpen(s: State, t: Thread, stage: Stage, why: Why)
    requires t in s.pc && s.pc[t] == Closing(stage, why) && CloseReady(s, stage) && StageOk(s, t, stage)
    requires t.B? && t.h in s.objs ==> ObjectOk(s, t.h)
    ensures var plan := ClosePlan(s, stage, why); LeavesOpen(s, t, plan.effect, plan.next)
  {
  }

  lemma PlanLeavesOpen(s: State, t: Thread, input: Input)
    requires ControlOk(s) && MayMove(s, t, input)
    ensures var plan := PlanOf(s, t, input); LeavesOpen(s, t, plan.effect, plan.next)
  {
    hide DomainsOk, ConnsOk, ObjectOk;
    if s.pc[t].AtBrowser? {
      BrowserLeavesOpen(s, t.h, s.pc[t].b, input);
    } else if s.pc[t].Closing? {
      assert PcOk(s, t, s.pc[t]);
      assert t.B? && t.h in s.objs ==> ObjectOk(s, t.h);
      CloseLeavesOpen(s, t, s.pc[t].stage, s.pc[t].why);
    }
  }

  /** Every session of the device that the leaving connection had collected is gone. */
  lemma LeavingStrands(s: State, c: nat, h: nat, e: Effect, p: PC)
    requires D(c) in s.pc && Performable(s, D(c), e) && e.Unregister?
    requires CollectionOk(s, c, s.pc[D(c)]) && HasCollected(s.pc[D(c)]) && Remaining(s.pc[D(c)]) == {}
    requires h in s.objs && s.objs[h].teardown.Live? && s.objs[h].dev in s.conns && ObjectOk(s, h)
    requires h in Move(s, D(c), Plan(p, e)).objs && Stranded(Move(s, D(c), Plan(p, e)), h)
    ensures TooLate(Move(s, D(c), Plan(p, e)), h)
  {
  }

  /** A device's last leaver stays the last while the device is offline. */
  lemma StaysTooLate(s: State, t: Thread, e: Effect, p: PC, h: nat)
    requires t in s.pc && Performable(s, t, e) && EffectOk(s, t, e) && LastOutOk(s) && KeepsEnding(s, t, e, p)
    requires TooLate(s, h) && s.objs[h].dev !in s.conns
    ensures TooLate(Move(s, t, Plan(p, e)), h)
  {
    hide TearingAt, ChannelsAfter, CancelledBy, RecvAfter, ObjsAfter, InService, Remaining, TableAfter, FatesAfter;
    EffectFramed(s, t, e, p);
  }

  lemma StrandedStep(s: State, t: Thread, plan: Plan, h: nat)
    requires t in s.pc && Performable(s, t, plan.effect) && EffectOk(s, t, plan.effect)
    requires KeepsEnding(s, t, plan.effect, plan.next) && LeavesOpen(s, t, plan.effect, plan.next)
    requires LastOutOk(s) && (t.D? ==> CollectionOk(s, t.c, s.pc[t]))
    requires h in s.objs && ObjectOk(s, h) && (Stranded(s, h) ==> TooLate(s, h))
    requires h in Move(s, t, plan).objs && Stranded(Move(s, t, plan), h)
    ensures TooLate(Move(s, t, plan), h)
  {
    hide Performable;
    EffectFramed(s, t, plan.effect, plan.next);
    if s.objs[h].dev in s.conns {
      LeavingStrands(s, t.c, h, plan.effect, plan.next);
    } else {
      StaysTooLate(s, t, plan.effect, plan.next, h);
    }
  }

  lemma MoveKeepsOffline(s: State, t: Thread, plan: Plan)
    requires ObjectsOk(s) && DeparturesOk(s) && t in s.pc && GoodPlan(s, t, plan)
    requires KeepsEnding(s, t, plan.effect, plan.next) && LeavesOpen(s, t, plan.effect, plan.next)
    ensures OfflineOk(Move(s, t, plan))
  {
    var s' := Move(s, t, plan);
    EffectFramed(s, t, plan.effect, plan.next);
    forall h | h in s'.objs && Stranded(s', h) ensures TooLate(s', h) {
      assert h in s.objs;
      assert ObjectOk(s, h);
      StrandedStep(s, t, plan, h);
    }
  }

  lemma ElsewhereKeepsDepartures(s: State, s': State)
    requires DeparturesOk(s) && Elsewhere(s, s') && s'.collect == s.collect && s'.lastOut == s.lastOut
    requires forall h :: h in s.objs ==> B(h) in s.pc
    ensures DeparturesOk(s')
  {
    hide DomainsOk, Remaining;
    forall c | D(c) in s'.pc ensures CollectionOk(s', c, s'.pc[D(c)]) {
      if D(c) in s.pc {
        assert CollectionOk(s, c, s.pc[D(c)]);
      }
    }
  }

  lemma StepKeepsDepartures(s: State, a: Action)
    requires ControlOk(s) && DeparturesOk(s) && Enabled(s, a)
    ensures DeparturesOk(Apply(s, a))
  {
    hide DomainsOk, EffectOk, PlanOf, IdsDiffer, CollectionsOk, Move, BadOpen;
    if a.Moves? {
      PlanGood(s, a.t, a.input);
      PlanEnding(s, a.t, a.input);
      PlanLeavesOpen(s, a.t, a.input);
      MoveKeepsCollections(s, a.t, PlanOf(s, a.t, a.input));
      MoveKeepsLastOut(s, a.t, PlanOf(s, a.t, a.input));
      MoveKeepsOffline(s, a.t, PlanOf(s, a.t, a.input));
    } else {
      OutsideIsElsewhere(s, a);
      ElsewhereKeepsObjects(s, Apply(s, a));
      ElsewhereKeepsDepartures(s, Apply(s, a));
    }
  }
}
