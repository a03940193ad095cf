/** What every run of the signaling service keeps, whatever the interleaving: the broker is
    an atomic map, sessions do not leak, and they are torn down once. */
module SessionTheorems {
  import opened Machine
  import opened Control
  import opened Queues
  import opened Runs

  // ---- The broker is an atomic map ----

  /** The atomic map from the ids of open sessions to their devices. */
  ghost function OpenSessions(s: State): map<string, string>
    requires TableOk(s)
  {
    map id | id in s.table :: s.objs[s.table[id]].dev
  }

  datatype MapOp = Open(id: string, dev: string) | Close(id: string) | Nothing

  /** The operation on the atomic map that takes effect at a step. */
  function OpOf(s: State, a: Action): MapOp
    requires Enabled(s, a)
  {
    if !a.Moves? then Nothing else
    var e := PlanOf(s, a.t, a.input).effect;
    if e.InsertSession? then Open(e.id, e.dev) else if e.Delete? then Close(e.id) else Nothing
  }

  predicate MapStep(m: map<string, string>, op: MapOp, m': map<string, string>) {
    match op
    case Open(id, dev) => id !in m && m' == m[id := dev]
    case Close(id) => id in m && m' == m - {id}
    case Nothing => m' == m
  }

  lemma InsertOpens(s: State, t: Thread, e: Effect, p: PC)
    requires TableOk(s) && Performable(s, t, e) && EffectOk(s, t, e) && e.InsertSession?
    requires e.id !in s.table && TableOk(Move(s, t, Plan(p, e)))
    ensures OpenSessions(Move(s, t, Plan(p, e))) == OpenSessions(s)[e.id := e.dev]
  {
    hide ChannelsAfter, RecvAfter, FatesAfter, ConnsAfter, LastOutAfter, CollectAfter, CancelledBy, UsedAfter;
    var s' := Move(s, t, Plan(p, e));
    forall id | id in s'.table ensures OpenSessions(s')[id] == OpenSessions(s)[e.id := e.dev][id] {
      assert id != e.id ==> s.table[id] != t.h;
    }
  }

  lemma DeleteCloses(s: State, t: Thread, e: Effect, p: PC)
    requires TableOk(s) && Performable(s, t, e) && e.Delete? && TableOk(Move(s, t, Plan(p, e)))
    ensures OpenSessions(Move(s, t, Plan(p, e))) == OpenSessions(s) - {e.id}
  {
  }

  lemma OthersKeepMap(s: State, t: Thread, e: Effect, p: PC)
    requires TableOk(s) && Performable(s, t, e) && EffectOk(s, t, e) && !e.InsertSession? && !e.Delete?
    requires TableOk(Move(s, t, Plan(p, e)))
    ensures OpenSessions(Move(s, t, Plan(p, e))) == OpenSessions(s)
  {
    EffectFramed(s, t, e, p);
  }

  lemma TableIdsUsed(s: State)
    requires TableOk(s) && ObjectsOk(s)
    ensures forall id :: id in s.table ==> id in s.used
  {
    forall id | id in s.table ensures id in s.used {
      assert ObjectOk(s, s.table[id]);
    }
  }

  lemma MoveRefinesMap(s: State, t: Thread, plan: Plan)
    requires TableOk(s) && ObjectsOk(s) && Performable(s, t, plan.effect) && EffectOk(s, t, plan.effect)
    requires TableOk(Move(s, t, plan))
    ensures var m, m', e := OpenSessions(s), OpenSessions(Move(s, t, plan)), plan.effect;
            if e.InsertSession? then e.id !in m && m' == m[e.id := e.dev]
            else if e.Delete? then e.id in m && m' == m - {e.id}
            else m' == m
  {
    if plan.effect.InsertSession? {
      TableIdsUsed(s);
      InsertOpens(s, t, plan.effect, plan.next);
    } else if plan.effect.Delete? {
      DeleteCloses(s, t, plan.effect, plan.next);
    } else {
      OthersKeepMap(s, t, plan.effect, plan.next);
    }
  }

  lemma StepRefinesMap(s: State, a: Action)
    requires Inv(s) && Enabled(s, a)
    ensures TableOk(Apply(s, a)) && MapStep(OpenSessions(s), OpOf(s, a), OpenSessions(Apply(s, a)))
  {
    hide DomainsOk, Move, QueuesOk;
    StepKeepsControl(s, a);
    if a.Moves? {
      PlanEffectOk(s, a.t, a.input);
      MoveRefinesMap(s, a.t, PlanOf(s, a.t, a.input));
    } else {
      OutsideIsElsewhere(s, a);
    }
  }

  /** Every run of the lock-level broker is a run of the atomic map, step by step; no session
      in the table is marked closed, and every key is its session's id. */
  lemma RunRefinesAtomicMap(states: seq<State>, acts: seq<Action>, i: nat)
    requires IsRun(states, acts) && i < |acts|
    ensures TableOk(states[i]) && TableOk(states[i + 1])
    ensures MapStep(OpenSessions(states[i]), OpOf(states[i], acts[i]), OpenSessions(states[i + 1]))
    ensures forall id :: id in states[i].table ==>
              states[i].table[id] in states[i].objs
              && states[i].objs[states[i].table[id]].id == id && !states[i].objs[states[i].table[id]].closed
    ensures OpenSessions(states[0]) == map[]
  {
    hide QueuesOk, DomainsOk, Enabled;
    RunInv(states, acts, i);
    StepRefinesMap(states[i], acts[i]);
    forall id | id in states[i].table ensures !states[i].objs[states[i].table[id]].closed {
      assert ObjectOk(states[i], states[i].table[id]);
    }
  }

  lemma OpenIsInsert(s: State, a: Action)
    requires Inv(s) && Enabled(s, a) && OpOf(s, a).Open?
    ensures a.t.B? && a.t.h !in s.objs && OpOf(s, a).id !in s.used
    ensures a.t.h in Apply(s, a).objs && Apply(s, a).objs[a.t.h].id == OpOf(s, a).id
    ensures Apply(s, a).objs[a.t.h].insertedAt == s.now
  {
    hide QueuesOk, ControlOk, CollectAfter, PlanOf;
    PlanEffectOk(s, a.t, a.input);
  }

  lemma CloseIsDelete(s: State, a: Action)
    requires Inv(s) && Enabled(s, a) && OpOf(s, a).Close?
    ensures OpOf(s, a).id in s.table
    ensures var h := s.table[OpOf(s, a).id];
            h in s.objs && s.objs[h].id == OpOf(s, a).id && s.objs[h].teardown.Live? && MayClose(s, a.t, h)
            && h in Apply(s, a).objs && Apply(s, a).objs[h].teardown == Torn(a.t, s.now, 1)
  {
    hide ControlOk, QueuesOk, PlanOf;
    PlanEffectOk(s, a.t, a.input);
  }

  lemma RunOpen(states: seq<State>, acts: seq<Action>, i: nat) returns (h: nat)
    requires IsRun(states, acts) && i < |acts| && OpOf(states[i], acts[i]).Open?
    ensures h in states[i + 1].objs && states[i + 1].objs[h].id == OpOf(states[i], acts[i]).id
    ensures states[i + 1].objs[h].insertedAt == i && h !in states[i].objs
    ensures OpOf(states[i], acts[i]).id !in states[i].used
  {
    RunInv(states, acts, i);
    OpenIsInsert(states[i], acts[i]);
    h := acts[i].t.h;
  }

  lemma RunClose(states: seq<State>, acts: seq<Action>, i: nat) returns (h: nat)
    requires IsRun(states, acts) && i < |acts| && OpOf(states[i], acts[i]).Close?
    ensures OpOf(states[i], acts[i]).id in states[i].table && h == states[i].table[OpOf(states[i], acts[i]).id]
    ensures h in states[i + 1].objs && states[i + 1].objs[h].id == OpOf(states[i], acts[i]).id
    ensures states[i + 1].objs[h].teardown == Torn(acts[i].t, i, 1)
    ensures h in states[i].objs && MayClose(states[i], acts[i].t, h)
  {
    hide UsedAfter, Inv, Later, MayClose, RecvAfter, PlanOf;
    RunInv(states, acts, i);
    CloseIsDelete(states[i], acts[i]);
    h := states[i].table[OpOf(states[i], acts[i]).id];
    RunLater(states, acts, i, i + 1);
  }

  /** An id once opened stays used. */
  lemma OpenedStaysUsed(states: seq<State>, acts: seq<Action>, i: nat, j: nat)
    requires IsRun(states, acts) && i < j < |states| && OpOf(states[i], acts[i]).Open?
    ensures OpOf(states[i], acts[i]).id in states[j].used
  {
    hide Apply, HistoriesGrow;
    var h := RunOpen(states, acts, i);
    RunLater(states, acts, i + 1, j);
    RunObject(states, acts, j, h);
  }

  /** An id once closed is out of the table for ever. */
  lemma ClosedStaysOut(states: seq<State>, acts: seq<Action>, i: nat, j: nat)
    requires IsRun(states, acts) && i < j < |states| && OpOf(states[i], acts[i]).Close?
    ensures OpOf(states[i], acts[i]).id !in states[j].table
  {
    hide OpOf, Apply;
    var h := RunClose(states, acts, i);
    RunLater(states, acts, i + 1, j);
    RunTable(states, acts, j);
  }

  /** Both open the id, for whatever devices, or both close it. */
  predicate SameKind(a: MapOp, b: MapOp) {
    (a.Open? && b.Open? && a.id == b.id) || (a.Close? && b.Close? && a.id == b.id)
  }

  lemma OnceInOrder(states: seq<State>, acts: seq<Action>, i: nat, j: nat)
    requires IsRun(states, acts) && i < j < |acts|
    ensures !SameKind(OpOf(states[i], acts[i]), OpOf(states[j], acts[j]))
  {
    hide Apply, OpOf, Inv;
    RunInv(states, acts, j);
    hide IsRun;
    if OpOf(states[i], acts[i]).Open? {
      OpenedStaysUsed(states, acts, i, j);
      if OpOf(states[j], acts[j]).Open? {
        OpenIsInsert(states[j], acts[j]);
      }
    } else if OpOf(states[i], acts[i]).Close? {
      ClosedStaysOut(states, acts, i, j);
      if OpOf(states[j], acts[j]).Close? {
        CloseIsDelete(states[j], acts[j]);
      }
    }
  }

  /** No id is opened twice, be it for different devices, or closed twice in a run, however the
      closers race. */
  lemma OpenedAndClosedOnce(states: seq<State>, acts: seq<Action>, i: nat, j: nat)
    requires IsRun(states, acts) && i < |acts| && j < |acts|
    requires SameKind(OpOf(states[i], acts[i]), OpOf(states[j], acts[j]))
    ensures i == j
  {
    hide Enabled, Apply, OpOf;
    if i < j {
      OnceInOrder(states, acts, i, j);
    } else if j < i {
      OnceInOrder(states, acts, j, i);
    }
  }

  // ---- Teardown ----

  /** At the step recorded in a removed session its close took effect. */
  lemma RemovedThen(states: seq<State>, acts: seq<Action>, i: nat, h: nat)
    requires IsRun(states, acts) && i < |states| && h in states[i].objs && states[i].objs[h].teardown.Torn?
    ensures var o := states[i].objs[h]; var r := o.teardown.at;
            r < i && OpOf(states[r], acts[r]) == Close(o.id) && states[r].table[o.id] == h
  {
    var o := states[i].objs[h];
    var r := o.teardown.at;
    RunObject(states, acts, i, h);
    TableHistory(states, acts, r, i, h);
    TableHistory(states, acts, r + 1, i, h);
    assert o.id in states[r].table && o.id !in states[r + 1].table && r < |acts|;
    hide IsRun, OpenSessions, MapStep, OpOf, TableOk, ObjectOk, Alive;
    RunRefinesAtomicMap(states, acts, r);
    OpenIsInTable(states[r], o.id);
    OpenIsInTable(states[r + 1], o.id);
    OnlyCloseRemoves(OpenSessions(states[r]), OpOf(states[r], acts[r]), OpenSessions(states[r + 1]), o.id);
  }

  lemma OpenIsInTable(s: State, id: string)
    requires TableOk(s)
    ensures id in OpenSessions(s) <==> id in s.table
  {
  }

  lemma OnlyCloseRemoves(m: map<string, string>, op: MapOp, m': map<string, string>, id: string)
    requires MapStep(m, op, m') && id in m && id !in m'
    ensures op == Close(id)
  {
  }

  /** A removed session was removed by the one step at which its closer's close took effect. */
  lemma RemovedByItsCloser(states: seq<State>, acts: seq<Action>, i: nat, h: nat)
    requires IsRun(states, acts) && i < |states| && h in states[i].objs && states[i].objs[h].teardown.Torn?
    ensures var o := states[i].objs[h];
            o.teardown.at < i && OpOf(states[o.teardown.at], acts[o.teardown.at]) == Close(o.id)
            && acts[o.teardown.at].Moves? && acts[o.teardown.at].t == o.teardown.closer
  {
    hide Apply, PlanOf, HistoriesGrow;
    RemovedThen(states, acts, i, h);
    var r := states[i].objs[h].teardown.at;
    var h' := RunClose(states, acts, r);
    RunLater(states, acts, r + 1, i);
  }

  /** Only the winner of the close is at work on a removed session. */
  lemma OneTearsDown(s: State, h: nat, t: Thread)
    requires PcsOk(s) && h in s.objs && t in s.pc && TearsDown(s.pc[t], h)
    ensures s.objs[h].teardown.Torn? && s.objs[h].teardown.closer == t && s.objs[h].teardown.stage < 4
  {
    assert PcOk(s, t, s.pc[t]);
  }

  ghost predicate EndAt(s: State, t: Thread, k: int, h: nat) {
    t in s.q && 0 <= k < |s.q[t].enqueued| && s.q[t].enqueued[k].origin == Ended(h)
  }

  /** However the browser's close, a device's session.end, leaving devices and a failed open
      race: a session has one closer; until that thread has called cancel it is the only one
      tearing the session down, then cancel has been called exactly once; and each side has been sent at
      most one broker-made session.end. */
  lemma TornDownOnce(states: seq<State>, acts: seq<Action>, i: nat, h: nat)
    requires IsRun(states, acts) && i < |states| && h in states[i].objs
    ensures var s, o := states[i], states[i].objs[h];
            (o.teardown.Live? ==> o.cancels == 0)
            && (o.teardown.Torn? && o.teardown.stage < 4 ==>
                  o.cancels == 0 && o.teardown.closer in s.pc && TearsDown(s.pc[o.teardown.closer], h))
            && (o.teardown.Torn? && o.teardown.stage >= 4 ==> o.cancels == 1 && B(h) in s.cancelled)
    ensures forall t :: t in states[i].pc && TearsDown(states[i].pc[t], h) ==>
              states[i].objs[h].teardown.Torn? && t == states[i].objs[h].teardown.closer
              && states[i].objs[h].cancels == 0
    ensures forall k1, k2 :: EndAt(states[i], B(h), k1, h) && EndAt(states[i], B(h), k2, h) ==> k1 == k2
    ensures forall c1, k1, c2, k2 :: EndAt(states[i], D(c1), k1, h) && EndAt(states[i], D(c2), k2, h) ==>
              c1 == c2 && k1 == k2
    ensures forall t, k :: EndAt(states[i], t, k, h) ==>
              states[i].objs[h].teardown.Torn? && states[i].objs[h].teardown.at < states[i].q[t].enqueued[k].at
  {
    var s := states[i];
    RunObject(states, acts, i, h);
    forall t | t in s.pc && TearsDown(s.pc[t], h)
      ensures s.objs[h].teardown.Torn? && t == s.objs[h].teardown.closer && s.objs[h].cancels == 0 {
      assert PcsOk(s) by {
        RunInv(states, acts, i);
      }
      OneTearsDown(s, h, t);
    }
    EndsOnce(states, acts, i, h);
  }

  lemma EndsOnce(states: seq<State>, acts: seq<Action>, i: nat, h: nat)
    requires IsRun(states, acts) && i < |states| && h in states[i].objs
    ensures forall k1, k2 :: EndAt(states[i], B(h), k1, h) && EndAt(states[i], B(h), k2, h) ==> k1 == k2
    ensures forall c1, k1, c2, k2 :: EndAt(states[i], D(c1), k1, h) && EndAt(states[i], D(c2), k2, h) ==>
              c1 == c2 && k1 == k2
    ensures forall t, k :: EndAt(states[i], t, k, h) ==>
              states[i].objs[h].teardown.Torn? && states[i].objs[h].teardown.at < states[i].q[t].enqueued[k].at
  {
    var s := states[i];
    forall t, k | EndAt(s, t, k, h)
      ensures s.objs[h].teardown.Torn? && s.objs[h].teardown.at < s.q[t].enqueued[k].at {
      RunItem(states, acts, i, t, k);
    }
    forall k1, k2 | EndAt(s, B(h), k1, h) && EndAt(s, B(h), k2, h) ensures k1 == k2 {
      RunOrder(states, acts, i, B(h));
    }
    forall c1, k1, c2, k2 | EndAt(s, D(c1), k1, h) && EndAt(s, D(c2), k2, h) ensures c1 == c2 && k1 == k2 {
      assert IsItem(s, D(c1), k1) && IsItem(s, D(c2), k2) && SameOnce(s, c1, k1, c2, k2);
      assert OnceOnDevices(s) by {
        RunInv(states, acts, i);
      }
    }
  }

  // ---- No leaks ----

  /** Every entry of the table belongs to one browser handler that has inserted it and not yet
      passed its close, and to no other. */
  lemma EntriesAreHeld(states: seq<State>, acts: seq<Action>, i: nat, id: string)
    requires IsRun(states, acts) && i < |states| && id in states[i].table
    ensures var s := states[i]; B(s.table[id]) in s.pc && Holding(s.pc[B(s.table[id])])
    ensures forall id' :: id' in states[i].table && states[i].table[id'] == states[i].table[id] ==> id' == id
  {
    RunTable(states, acts, i);
    RunObject(states, acts, i, states[i].table[id]);
  }

  /** Once every browser handler has passed its close, no session is left. */
  lemma NothingLeaks(states: seq<State>, acts: seq<Action>, i: nat)
    requires IsRun(states, acts) && i < |states|
    requires forall h :: B(h) in states[i].pc ==> !Holding(states[i].pc[B(h)])
    ensures states[i].table == map[]
  {
    forall id | id in states[i].table ensures false {
      EntriesAreHeld(states, acts, i, id);
    }
  }

  /** open has returned an error, or the handler is past its close. */
  ghost predicate Through(p: PC) {
    p.AtBrowser? && (p.b.Reject? || p.b.Leaving? || p.b.Gone?)
  }

  lemma StepStaysThrough(s: State, a: Action, h: nat)
    requires DomainsOk(s) && Enabled(s, a) && B(h) in s.pc && Through(s.pc[B(h)])
    ensures B(h) in Apply(s, a).pc && Through(Apply(s, a).pc[B(h)])
  {
    hide Enabled, DomainsOk;
    if !a.Moves? {
      OutsideIsElsewhere(s, a);
    }
  }

  lemma {:induction false} StaysThrough(states: seq<State>, acts: seq<Action>, i: nat, j: nat, h: nat)
    requires IsRun(states, acts) && i <= j < |states| && B(h) in states[i].pc && Through(states[i].pc[B(h)])
    ensures B(h) in states[j].pc && Through(states[j].pc[B(h)])
    decreases j
  {
    hide Apply, Enabled, Through;
    if i < j {
      assert |states| == |acts| + 1;
      hide IsRun;
      StaysThrough(states, acts, i, j - 1, h);
      RunStep(states, acts, j - 1);
      hide DomainsOk;
      StepStaysThrough(states[j - 1], acts[j - 1], h);
    }
  }

  /** When open has returned an error, and also when a handler has passed its close, no session
      of that handler is in the table, then or ever after. */
  lemma FailedOpenLeavesNothing(states: seq<State>, acts: seq<Action>, i: nat, j: nat, h: nat)
    requires IsRun(states, acts) && i <= j < |states| && B(h) in states[i].pc && Through(states[i].pc[B(h)])
    ensures forall id :: id in states[j].table ==> states[j].table[id] != h
  {
    StaysThrough(states, acts, i, j, h);
    forall id | id in states[j].table ensures states[j].table[id] != h {
      EntriesAreHeld(states, acts, j, id);
    }
  }
}
