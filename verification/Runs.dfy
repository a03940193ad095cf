/** Runs of the machine: what holds at every state of every run, and how two states of one
    run are related. The number of steps taken is the state's position in the run, so the
    step numbers recorded in the histories are positions in the run. */
module Runs {
  import opened Machine
  import opened Control
  import opened Queues
  import opened Departures

  /** Any interleaving of any number of handlers, from the moment the service starts. */
  ghost predicate IsRun(states: seq<State>, acts: seq<Action>) {
    |states| == |acts| + 1 && states[0] == INITIAL
    && forall i {:trigger acts[i]} :: 0 <= i < |acts| ==>
         Enabled(states[i], acts[i]) && states[i + 1] == Apply(states[i], acts[i])
  }

  ghost predicate Inv(s: State) {
    ControlOk(s) && QueuesOk(s) && DeparturesOk(s)
  }

  lemma StepKeepsInv(s: State, a: Action)
    requires Inv(s) && Enabled(s, a)
    ensures Inv(Apply(s, a)) && Apply(s, a).now == s.now + 1
  {
    StepKeepsControl(s, a);
    StepKeepsQueues(s, a);
    StepKeepsDepartures(s, a);
  }

  lemma InitialInv()
    ensures Inv(INITIAL)
  {
  }

  lemma {:induction false} RunInv(states: seq<State>, acts: seq<Action>, i: nat)
    requires IsRun(states, acts) && i < |states|
    ensures Inv(states[i]) && states[i].now == i
  {
    if i == 0 {
      InitialInv();
    } else {
      RunInv(states, acts, i - 1);
      StepKeepsInv(states[i - 1], acts[i - 1]);
    }
  }

  lemma RunStep(states: seq<State>, acts: seq<Action>, i: nat)
    requires IsRun(states, acts) && i < |acts|
    ensures i + 1 < |states| && Enabled(states[i], acts[i]) && states[i + 1] == Apply(states[i], acts[i])
    ensures ControlOk(states[i])
  {
    hide Enabled, Apply, ControlOk, QueuesOk;
    RunInv(states, acts, i);
  }

  lemma RunClock(states: seq<State>, acts: seq<Action>, i: nat)
    requires IsRun(states, acts) && i < |states|
    ensures states[i].now == i
  {
    RunInv(states, acts, i);
  }

  lemma RunObject(states: seq<State>, acts: seq<Action>, i: nat, h: nat)
    requires IsRun(states, acts) && i < |states| && h in states[i].objs
    ensures ObjectOk(states[i], h) && states[i].now == i
  {
    RunInv(states, acts, i);
  }

  lemma RunTable(states: seq<State>, acts: seq<Action>, i: nat)
    requires IsRun(states, acts) && i < |states|
    ensures TableOk(states[i]) && IdsDiffer(states[i]) && states[i].now == i
  {
    RunInv(states, acts, i);
  }

  lemma RunItem(states: seq<State>, acts: seq<Action>, i: nat, t: Thread, k: nat)
    requires IsRun(states, acts) && i < |states| && t in states[i].q && k < |states[i].q[t].enqueued|
    ensures ItemOk(states[i], t, k, states[i].q[t].enqueued[k])
  {
    RunInv(states, acts, i);
    assert ThreadOk(states[i], t);
  }

  lemma RunOrder(states: seq<State>, acts: seq<Action>, i: nat, t: Thread)
    requires IsRun(states, acts) && i < |states| && t in states[i].q
    ensures ChannelOk(states[i].q[t]) && Ordered(states[i].q[t].enqueued)
  {
    RunInv(states, acts, i);
    assert ThreadOk(states[i], t);
  }

  // ---- Two states of one run ----

  /** s' comes later than s in a run. */
  ghost predicate Later(s: State, s': State) {
    FactsLast(s, s') && HistoriesGrow(s, s')
    && (forall c :: c in s.cdev ==> c in s'.cdev && s'.cdev[c] == s.cdev[c])
    && (forall h :: h in s.objs && h in s'.objs && s.objs[h].teardown.Live? && s'.objs[h].teardown.Torn? ==>
          s.now <= s'.objs[h].teardown.at)
    && (forall h :: h in s'.objs && h !in s.objs ==> s.now <= s'.objs[h].insertedAt)
  }

  lemma FramedLater(s: State, s': State, t: Thread)
    requires Framed(s, s', t) && ObjectsOk(s) && HistoriesGrow(s, s')
    ensures Later(s, s')
  {
    FramedFactsLast(s, s', t);
  }

  lemma StepLater(s: State, a: Action)
    requires Inv(s) && Enabled(s, a)
    ensures Later(s, Apply(s, a))
  {
    hide DomainsOk, DeparturesOk, ChannelOk, QueuesOk, Move, Later, PcOk, PlanOf, MayMove, Framed, HistoriesGrow;
    if a.Moves? {
      PlanGood(s, a.t, a.input);
      var plan := PlanOf(s, a.t, a.input);
      EffectFramed(s, a.t, plan.effect, plan.next);
      MoveGrows(s, a.t, plan.effect, plan.next);
      FramedLater(s, Apply(s, a), a.t);
    } else {
      OutsideHistories(s, a);
      ElsewhereFramed(s, Apply(s, a), B(0));
      FramedLater(s, Apply(s, a), B(0));
    }
  }

  lemma FactsTransitive(s1: State, s2: State, s3: State)
    requires FactsLast(s1, s2) && FactsLast(s2, s3)
    ensures FactsLast(s1, s3)
  {
  }

  lemma HistoriesTransitive(s1: State, s2: State, s3: State)
    requires HistoriesGrow(s1, s2) && HistoriesGrow(s2, s3)
    ensures HistoriesGrow(s1, s3)
  {
  }

  lemma LaterTransitive(s1: State, s2: State, s3: State)
    requires Later(s1, s2) && Later(s2, s3)
    ensures Later(s1, s3)
  {
    hide HistoriesGrow;
    FactsTransitive(s1, s2, s3);
    HistoriesTransitive(s1, s2, s3);
  }

  lemma {:induction false} RunLater(states: seq<State>, acts: seq<Action>, i: nat, j: nat)
    requires IsRun(states, acts) && i <= j < |states|
    ensures Later(states[i], states[j])
    decreases j
  {
    if i < j {
      RunLater(states, acts, i, j - 1);
      RunInv(states, acts, j - 1);
      StepLater(states[j - 1], acts[j - 1]);
      LaterTransitive(states[i], states[j - 1], states[j]);
    }
  }

  lemma RunKeepsItem(states: seq<State>, acts: seq<Action>, j: nat, i: nat, t: Thread, k: int)
    requires IsRun(states, acts) && j <= i < |states| && IsItem(states[j], t, k)
    ensures IsItem(states[i], t, k) && states[i].q[t].enqueued[k] == states[j].q[t].enqueued[k]
  {
    RunLater(states, acts, j, i);
    hide IsRun, FactsLast;
  }

  /** Session object h, as known at the end of a run, is in the table at position n exactly
      between its insertion and its removal. */
  ghost predicate Alive(o: Session, n: nat) {
    o.insertedAt < n && (o.teardown.Torn? ==> n <= o.teardown.at)
  }

  lemma AliveThen(s: State, s': State, h: nat)
    requires Later(s, s') && TableOk(s) && (h in s.objs ==> ObjectOk(s, h))
    requires h in s'.objs && IdsDiffer(s')
    ensures Alive(s'.objs[h], s.now) <==> s'.objs[h].id in s.table && s.table[s'.objs[h].id] == h
    ensures s'.objs[h].id in s.table ==> s.table[s'.objs[h].id] == h
    ensures Alive(s'.objs[h], s.now) ==> h in s.objs && s.objs[h].dev == s'.objs[h].dev
  {
    var id := s'.objs[h].id;
    if id in s.table {
      assert s.table[id] in s'.objs && s'.objs[s.table[id]].id == id;
    }
  }

  lemma TableHistory(states: seq<State>, acts: seq<Action>, n: nat, i: nat, h: nat)
    requires IsRun(states, acts) && n <= i < |states| && h in states[i].objs
    ensures Alive(states[i].objs[h], n) <==>
              states[i].objs[h].id in states[n].table && states[n].table[states[i].objs[h].id] == h
    ensures states[i].objs[h].id in states[n].table ==> states[n].table[states[i].objs[h].id] == h
    ensures Alive(states[i].objs[h], n) ==> h in states[n].objs && states[n].objs[h].dev == states[i].objs[h].dev
  {
    RunInv(states, acts, n);
    RunInv(states, acts, i);
    RunLater(states, acts, n, i);
    AliveThen(states[n], states[i], h);
  }

  // ---- Connections that leave ----

  /** Once a connection has collected its ids, it only has fewer of them to end. */
  ghost predicate SameCollection(s: State, s': State, c: nat) {
    D(c) in s.pc && D(c) in s'.pc && HasCollected(s.pc[D(c)]) && HasCollected(s'.pc[D(c)])
    && c in s.collect && c in s'.collect && s'.collect[c] == s.collect[c]
    && Remaining(s'.pc[D(c)]) <= Remaining(s.pc[D(c)])
  }

  lemma MoveKeepsCollection(s: State, t: Thread, plan: Plan, c: nat)
    requires t in s.pc && Performable(s, t, plan.effect) && KeepsEnding(s, t, plan.effect, plan.next)
    requires D(c) in s.pc && HasCollected(s.pc[D(c)]) && c in s.collect
    ensures SameCollection(s, Move(s, t, plan), c)
  {
  }

  lemma StepKeepsCollection(s: State, a: Action, c: nat)
    requires Inv(s) && Enabled(s, a) && D(c) in s.pc && HasCollected(s.pc[D(c)])
    ensures SameCollection(s, Apply(s, a), c)
  {
    hide QueuesOk, DomainsOk, PcsOk;
    assert CollectionOk(s, c, s.pc[D(c)]);
    if a.Moves? {
      PlanEnding(s, a.t, a.input);
      MoveKeepsCollection(s, a.t, PlanOf(s, a.t, a.input), c);
    } else {
      OutsideIsElsewhere(s, a);
    }
  }

  lemma {:induction false} RunKeepsCollection(states: seq<State>, acts: seq<Action>, i: nat, j: nat, c: nat)
    requires IsRun(states, acts) && i <= j < |states| && D(c) in states[i].pc && HasCollected(states[i].pc[D(c)])
    ensures D(c) in states[j].pc && HasCollected(states[j].pc[D(c)])
    ensures c in states[i].collect && c in states[j].collect && states[j].collect[c] == states[i].collect[c]
    ensures Remaining(states[j].pc[D(c)]) <= Remaining(states[i].pc[D(c)])
    decreases j
  {
    hide ControlOk, QueuesOk;
    if i == j {
      RunInv(states, acts, i);
      assert CollectionOk(states[i], c, states[i].pc[D(c)]);
    } else {
      RunKeepsCollection(states, acts, i, j - 1, c);
      RunInv(states, acts, j - 1);
      StepKeepsCollection(states[j - 1], acts[j - 1], c);
    }
  }

  /** At step m connection c collects the ids of its device's sessions. */
  ghost predicate CollectsAt(states: seq<State>, acts: seq<Action>, m: int, c: nat) {
    0 <= m < |acts| < |states| && D(c) in states[m].pc
    && states[m].pc[D(c)] == AtDevice(CollectIds) && acts[m] == Moves(D(c), Tick)
  }

  lemma CollectsOnlyThere(s: State, t: Thread, input: Input)
    requires MayMove(s, t, input) && PlanOf(s, t, input).effect.Collect?
    ensures t.D? && s.pc[t] == AtDevice(CollectIds) && input == Tick
  {
  }

  lemma CollectingStep(s: State, a: Action, c: nat)
    requires Enabled(s, a) && c in Apply(s, a).collect
    ensures (c in s.collect && Apply(s, a).collect[c] == s.collect[c])
            || (D(c) in s.pc && s.pc[D(c)] == AtDevice(CollectIds) && a == Moves(D(c), Tick)
                && Apply(s, a).collect[c].at == s.now)
  {
    if a.Moves? {
      if PlanOf(s, a.t, a.input).effect.Collect? {
        CollectsOnlyThere(s, a.t, a.input);
      }
    }
  }

  lemma CollectedByThen(states: seq<State>, acts: seq<Action>, i: nat, c: nat)
    requires IsRun(states, acts) && i < |states| && c in states[i].collect
    ensures i > 0
    ensures (c in states[i - 1].collect && states[i].collect[c] == states[i - 1].collect[c])
            || (CollectsAt(states, acts, i - 1, c) && states[i].collect[c].at == i - 1)
  {
    assert i > 0;
    RunClock(states, acts, i - 1);
    var s, a := states[i - 1], acts[i - 1];
    assert Enabled(s, a) && states[i] == Apply(s, a);
    hide IsRun, Enabled, Apply;
    CollectingStep(s, a, c);
  }

  lemma {:induction false} CollectedWhen(states: seq<State>, acts: seq<Action>, i: nat, c: nat)
    requires IsRun(states, acts) && i < |states| && c in states[i].collect
    ensures states[i].collect[c].at < i && CollectsAt(states, acts, states[i].collect[c].at, c)
  {
    var s := states[i - 1];
    CollectedByThen(states, acts, i, c);
    if c in s.collect && states[i].collect[c] == s.collect[c] {
      CollectedWhen(states, acts, i - 1, c);
    }
  }

  /** Connection c was taken out of the presence table at step k, and its device has been offline since. */
  ghost predicate LeftLast(states: seq<State>, i: nat, dev: string, c: nat, k: int) {
    0 <= k < i < |states| && dev in states[k].conns && states[k].conns[dev] == c
    && forall j :: k < j <= i ==> dev !in states[j].conns
  }

  lemma OfflineStep(s: State, a: Action, dev: string)
    requires Enabled(s, a) && dev !in Apply(s, a).conns && dev in Apply(s, a).lastOut
    ensures var s' := Apply(s, a);
            if dev in s.conns then s.conns[dev] == s'.lastOut[dev]
            else dev in s.lastOut && s.lastOut[dev] == s'.lastOut[dev]
  {
  }

  lemma {:induction false} LastLeaver(states: seq<State>, acts: seq<Action>, i: nat, dev: string) returns (k: nat)
    requires IsRun(states, acts) && i < |states| && dev !in states[i].conns && dev in states[i].lastOut
    ensures LeftLast(states, i, dev, states[i].lastOut[dev], k)
  {
    hide Apply;
    OfflineStep(states[i - 1], acts[i - 1], dev);
    if dev in states[i - 1].conns {
      k := i - 1;
    } else {
      k := LastLeaver(states, acts, i - 1, dev);
    }
  }
}
