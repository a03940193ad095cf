/** What every run keeps about devices: which connection is a device's, what the exit of a
    connection does to sessions, and which sessions can have no device. */
module DeviceTheorems {
  import opened Machine
  import opened Control
  import opened Departures
  import opened Runs
  import opened SessionTheorems

  // ---- Presence ----

  ghost predicate Serving(s: State, c: nat, dev: string) {
    D(c) in s.pc && c in s.cdev && s.cdev[c] == dev && InService(s.pc[D(c)])
  }

  ghost predicate Uncancelled(s: State, c: nat, dev: string) {
    Serving(s, c, dev) && D(c) !in s.cancelled
  }

  /** Of one device's registered and not yet unregistered connections at most one is uncancelled,
      and that one is the connection in the table; the table holds only connections in service. */
  lemma OneUncancelledConnection(states: seq<State>, acts: seq<Action>, i: nat, dev: string)
    requires IsRun(states, acts) && i < |states|
    ensures forall c1, c2 :: Uncancelled(states[i], c1, dev) && Uncancelled(states[i], c2, dev) ==> c1 == c2
    ensures forall c :: Uncancelled(states[i], c, dev) ==>
              dev in states[i].conns && states[i].conns[dev] == c
    ensures dev in states[i].conns ==> Serving(states[i], states[i].conns[dev], dev)
  {
    RunInv(states, acts, i);
  }

  /** A connection's exit takes its device offline exactly when that connection is the one in
      the table; otherwise the table is untouched. Nothing else takes a device offline. */
  lemma OnlyItsOwnConnectionLeaves(states: seq<State>, acts: seq<Action>, i: nat, dev: string)
    requires IsRun(states, acts) && i < |acts| && dev in states[i].conns
    ensures dev !in states[i + 1].conns <==>
              acts[i] == Moves(D(states[i].conns[dev]), Tick)
              && states[i].pc[D(states[i].conns[dev])] == AtDevice(Part)
    ensures forall c :: D(c) in states[i].pc && acts[i] == Moves(D(c), Tick)
                        && states[i].pc[D(c)] == AtDevice(Part) && states[i].conns[dev] != c ==>
              dev in states[i + 1].conns && states[i + 1].conns[dev] == states[i].conns[dev]
  {
    assert ConnsOk(states[i]) && PcsOk(states[i]) by {
      RunInv(states, acts, i);
    }
    PartsOnlyThere(states[i], acts[i], dev);
  }

  lemma UnregistersOnlyThere(s: State, t: Thread, input: Input)
    requires MayMove(s, t, input)
    ensures PlanOf(s, t, input).effect.Unregister? <==> (t.D? && s.pc[t] == AtDevice(Part) && input == Tick)
  {
  }

  lemma PartsOnlyThere(s: State, a: Action, dev: string)
    requires Enabled(s, a) && ConnsOk(s) && dev in s.conns
    ensures dev !in Apply(s, a).conns <==>
              a == Moves(D(s.conns[dev]), Tick) && s.pc[D(s.conns[dev])] == AtDevice(Part)
    ensures forall c :: D(c) in s.pc && a == Moves(D(c), Tick)
                        && s.pc[D(c)] == AtDevice(Part) && s.conns[dev] != c ==>
              dev in Apply(s, a).conns && Apply(s, a).conns[dev] == s.conns[dev]
  {
    if a.Moves? {
      UnregistersOnlyThere(s, a.t, a.input);
    }
  }

  // ---- closeByDevice ----

  /** Between its collection step and here, connection c has called close for every id. */
  ghost predicate Returned(p: PC) {
    p.AtDevice? && (p.d.Part? || p.d.Parted? || p.d.Off?)
  }

  lemma CollectedThen(states: seq<State>, acts: seq<Action>, m: nat, c: nat)
    requires IsRun(states, acts) && CollectsAt(states, acts, m, c)
    ensures TableOk(states[m])
    ensures D(c) in states[m + 1].pc && HasCollected(states[m + 1].pc[D(c)]) && c in states[m + 1].collect
    ensures c in states[m].cdev && states[m + 1].cdev == states[m].cdev
    ensures states[m + 1].collect[c].at == m
    ensures forall id :: id in states[m + 1].collect[c].ids <==>
              id in states[m].table && states[m].objs[states[m].table[id]].dev == states[m].cdev[c]
  {
    RunTable(states, acts, m);
  }

  lemma CollectedIsTorn(s: State, c: nat, h: nat)
    requires D(c) in s.pc && CollectionOk(s, c, s.pc[D(c)]) && HasCollected(s.pc[D(c)]) && c in s.collect
    requires Remaining(s.pc[D(c)]) == {} && h in s.objs && s.objs[h].id in s.collect[c].ids
    ensures s.objs[h].teardown.Torn?
  {
  }

  lemma RunCollection(states: seq<State>, acts: seq<Action>, i: nat, c: nat)
    requires IsRun(states, acts) && i < |states| && D(c) in states[i].pc
    ensures CollectionOk(states[i], c, states[i].pc[D(c)])
  {
    RunInv(states, acts, i);
  }

  /** When closeByDevice returns, every session of the device that was in the table at the
      collection step is gone, and it never comes back. */
  lemma CloseByDeviceEndsAll(states: seq<State>, acts: seq<Action>, m: nat, j: nat, i: nat, c: nat, id: string)
    requires IsRun(states, acts) && CollectsAt(states, acts, m, c) && m < j <= i < |states|
    requires D(c) in states[j].pc && Returned(states[j].pc[D(c)])
    requires TableOk(states[m]) && c in states[m].cdev
    requires id in OpenSessions(states[m]) && OpenSessions(states[m])[id] == states[m].cdev[c]
    ensures id !in states[i].table
  {
    hide IsRun, CollectionOk, CollectsAt, TableOk, OpenSessions;
    RunKeepsCollection(states, acts, j, i, c);
    CollectedIsGone(states, acts, m, i, c, id);
  }

  lemma CollectedIsGone(states: seq<State>, acts: seq<Action>, m: nat, i: nat, c: nat, id: string)
    requires IsRun(states, acts) && CollectsAt(states, acts, m, c) && m < i < |states|
    requires D(c) in states[i].pc && HasCollected(states[i].pc[D(c)]) && Remaining(states[i].pc[D(c)]) == {}
    requires TableOk(states[m]) && c in states[m].cdev
    requires id in OpenSessions(states[m]) && OpenSessions(states[m])[id] == states[m].cdev[c]
    ensures id !in states[i].table
  {
    hide IsRun, CollectionOk;
    CollectedThen(states, acts, m, c);
    RunKeepsCollection(states, acts, m + 1, i, c);
    var h := states[m].table[id];
    SessionLastsInRun(states, acts, m, i, h);
    hide CollectsAt, TableOk;
    RunCollection(states, acts, i, c);
    CollectedIsTorn(states[i], c, h);
    TornIsOut(states, acts, i, h);
  }

  lemma SessionLastsInRun(states: seq<State>, acts: seq<Action>, m: nat, i: nat, h: nat)
    requires IsRun(states, acts) && m <= i < |states| && h in states[m].objs
    ensures h in states[i].objs && states[i].objs[h].id == states[m].objs[h].id
  {
    RunLater(states, acts, m, i);
  }

  lemma TornIsOut(states: seq<State>, acts: seq<Action>, i: nat, h: nat)
    requires IsRun(states, acts) && i < |states| && h in states[i].objs && states[i].objs[h].teardown.Torn?
    ensures states[i].objs[h].id !in states[i].table
  {
    RunTable(states, acts, i);
  }

  /** Session `id` is open against device `dev`. */
  ghost predicate HasSession(s: State, id: string, dev: string) {
    TableOk(s) && id in OpenSessions(s) && OpenSessions(s)[id] == dev
  }

  ghost predicate NoSessions(s: State, dev: string) {
    forall id :: !HasSession(s, id, dev)
  }

  /** Every session open against the device in s was in the table in `before`. */
  ghost predicate NoneSince(before: State, s: State, dev: string) {
    forall id :: HasSession(s, id, dev) ==> id in before.table
  }

  lemma LateSession(states: seq<State>, acts: seq<Action>, m: nat, i: nat, c: nat, dev: string, id: string)
    requires IsRun(states, acts) && CollectsAt(states, acts, m, c) && m < i < |states|
    requires D(c) in states[i].pc && Returned(states[i].pc[D(c)]) && c in states[m].cdev && states[m].cdev[c] == dev
    requires HasSession(states[i], id, dev)
    ensures id !in states[m].table
  {
    hide CollectsAt, IsRun, TableOk;
    RunTable(states, acts, m);
    if id in states[m].table {
      var h := states[m].table[id];
      assert h in states[i].objs && states[i].objs[h].id == id && states[i].objs[h].dev == states[m].objs[h].dev by {
        RunLater(states, acts, m, i);
      }
      assert states[i].table[id] == h by {
        RunTable(states, acts, i);
      }
      CloseByDeviceEndsAll(states, acts, m, i, i, c, id);
    }
  }

  lemma LeavingStep(states: seq<State>, acts: seq<Action>, i: nat, c: nat, dev: string)
    requires IsRun(states, acts) && i < |acts|
    requires dev in states[i].conns && dev !in states[i + 1].conns && states[i].conns[dev] == c
    ensures D(c) in states[i].pc && Returned(states[i].pc[D(c)]) && c in states[i].cdev && states[i].cdev[c] == dev
    ensures NoSessions(states[i + 1], dev) <==> NoSessions(states[i], dev)
  {
    hide Apply, OpenSessions;
    OneUncancelledConnection(states, acts, i, dev);
    OnlyItsOwnConnectionLeaves(states, acts, i, dev);
    RunRefinesAtomicMap(states, acts, i);
    SameSessions(states[i], states[i + 1], dev);
  }

  lemma SameSessions(s: State, s': State, dev: string)
    requires TableOk(s) && TableOk(s') && OpenSessions(s) == OpenSessions(s')
    ensures NoSessions(s', dev) <==> NoSessions(s, dev)
  {
    forall id ensures HasSession(s, id, dev) <==> HasSession(s', id, dev) {}
  }

  /** When the exit of connection c takes its device offline, it leaves no session of the device
      in the table if and only if none was opened since its collection step that is still there. */
  lemma ExitStrandsExactlyTheLateOnes(states: seq<State>, acts: seq<Action>, m: nat, i: nat, c: nat, dev: string)
    requires IsRun(states, acts) && CollectsAt(states, acts, m, c) && m < i < |acts|
    requires dev in states[i].conns && dev !in states[i + 1].conns && states[i].conns[dev] == c
    ensures NoSessions(states[i + 1], dev) <==> NoneSince(states[m], states[i], dev)
  {
    LeavingStep(states, acts, i, c, dev);
    assert c in states[m].cdev && states[m].cdev[c] == dev by {
      CollectedThen(states, acts, m, c);
      RunLater(states, acts, m, i);
    }
    forall id | HasSession(states[i], id, dev) ensures id !in states[m].table {
      LateSession(states, acts, m, i, c, dev, id);
    }
  }

  // ---- What an exit ends ----

  /** Step r is the removal of session `id` by the closeByDevice of connection c. */
  ghost predicate ExitCloses(states: seq<State>, acts: seq<Action>, r: int, c: nat, id: string) {
    0 <= r < |acts| < |states| && Enabled(states[r], acts[r]) && OpOf(states[r], acts[r]) == Close(id)
    && acts[r].t == D(c) && D(c) in states[r].pc && states[r].pc[D(c)].Closing? && states[r].pc[D(c)].why.DeviceGone?
  }

  lemma ExitCloseRemains(s: State, a: Action, c: nat, id: string)
    requires Enabled(s, a) && a.Moves? && a.t == D(c) && s.pc[D(c)].Closing? && s.pc[D(c)].why.DeviceGone?
    requires PlanOf(s, a.t, a.input).effect == Delete(id)
    ensures HasCollected(s.pc[D(c)]) && id in Remaining(s.pc[D(c)])
  {
  }

  lemma CollectedBefore(states: seq<State>, acts: seq<Action>, m: nat, r: nat, c: nat)
    requires IsRun(states, acts) && CollectsAt(states, acts, m, c) && r < |states|
    requires D(c) in states[r].pc && HasCollected(states[r].pc[D(c)])
    ensures m < r && c in states[r].collect && c in states[m + 1].collect
    ensures states[r].collect[c] == states[m + 1].collect[c]
  {
    hide IsRun;
    if r <= m {
      RunKeepsCollection(states, acts, r, m, c);
    } else {
      CollectedThen(states, acts, m, c);
      RunKeepsCollection(states, acts, m + 1, r, c);
    }
  }

  /** An exit ends no session but those in its collection: open on its device at its collection step. */
  lemma ExitEndsOnlyTheCollected(states: seq<State>, acts: seq<Action>, m: nat, r: nat, c: nat, id: string)
    requires IsRun(states, acts) && CollectsAt(states, acts, m, c) && ExitCloses(states, acts, r, c, id)
    ensures m < r && c in states[m].cdev && HasSession(states[m], id, states[m].cdev[c])
  {
    ExitCloseRemains(states[r], acts[r], c, id);
    CollectedBefore(states, acts, m, r, c);
    CollectedThen(states, acts, m, c);
    RunCollection(states, acts, r, c);
  }

  lemma RemovedSession(states: seq<State>, acts: seq<Action>, j: nat, h: nat) returns (r: nat)
    requires IsRun(states, acts) && j < |states| && h in states[j].objs
    requires states[j].objs[h].id !in states[j].table
    ensures r < j && OpOf(states[r], acts[r]) == Close(states[j].objs[h].id)
  {
    RunObject(states, acts, j, h);
    r := states[j].objs[h].teardown.at;
    RemovedThen(states, acts, j, h);
  }

  /** The exit of a connection, replaced or not, ends exactly the sessions that were open on its device
      at its collection step, whichever connection they were opened through: of two sessions that
      nobody else has removed, the one open then is gone when closeByDevice has returned, and the one
      opened later is still in the table. */
  lemma ExitEndsExactlyTheCollected(states: seq<State>, acts: seq<Action>, m: nat, j: nat, c: nat, h: nat)
    requires IsRun(states, acts) && CollectsAt(states, acts, m, c) && m < j < |states|
    requires D(c) in states[j].pc && Returned(states[j].pc[D(c)]) && ConnOf(states[j], c, h)
    requires forall r :: 0 <= r < j && OpOf(states[r], acts[r]) == Close(states[j].objs[h].id) ==>
               ExitCloses(states, acts, r, c, states[j].objs[h].id)
    ensures states[j].objs[h].id !in states[j].table
            <==> HasSession(states[m], states[j].objs[h].id, states[j].objs[h].dev)
  {
    var id := states[j].objs[h].id;
    CollectedThen(states, acts, m, c);
    assert states[m].cdev[c] == states[j].objs[h].dev by {
      RunLater(states, acts, m, j);
    }
    hide IsRun, CollectsAt;
    if HasSession(states[m], id, states[j].objs[h].dev) {
      CloseByDeviceEndsAll(states, acts, m, j, j, c, id);
    }
    if id !in states[j].table {
      var r := RemovedSession(states, acts, j, h);
      ExitEndsOnlyTheCollected(states, acts, m, r, c, id);
    }
  }

  /** A connection removes no session but its own device's, and a browser handler none but its own. */
  lemma ClosesOwnSessionsOnly(states: seq<State>, acts: seq<Action>, i: nat)
    requires IsRun(states, acts) && i < |acts| && OpOf(states[i], acts[i]).Close?
    ensures TableOk(states[i])
    ensures var id, t := OpOf(states[i], acts[i]).id, acts[i].t;
            id in OpenSessions(states[i])
            && match t
               case B(h) => states[i].table[id] == h
               case D(c) => c in states[i].cdev && OpenSessions(states[i])[id] == states[i].cdev[c]
  {
    RunTable(states, acts, i);
    var h := RunClose(states, acts, i);
  }

  // ---- Sessions without a device ----

  ghost predicate InsertedAt(states: seq<State>, n: int, id: string) {
    0 <= n && n + 1 < |states| && id !in states[n].table && id in states[n + 1].table
  }

  /** A session in the table whose device is offline is either still inside open, or it was
      inserted after the connection of its device that left last had collected the ids of the
      sessions it was going to end. */
  lemma OfflineSession(states: seq<State>, acts: seq<Action>, i: nat, id: string)
    requires IsRun(states, acts) && i < |states| && id in states[i].table
    requires TableOk(states[i]) && OpenSessions(states[i])[id] !in states[i].conns
    ensures B(states[i].table[id]) in states[i].pc
    ensures InsideOpen(states[i].pc[B(states[i].table[id])])
            || exists c, k, m, n ::
                 LeftLast(states, i, OpenSessions(states[i])[id], c, k) && CollectsAt(states, acts, m, c)
                 && InsertedAt(states, n, id) && m < n < i
  {
    hide IsRun, ControlOk;
    var s, h := states[i], states[i].table[id];
    RunObject(states, acts, i, h);
    if !InsideOpen(s.pc[B(h)]) {
      assert TooLate(s, h) by {
        RunInv(states, acts, i);
        assert Stranded(s, h);
      }
      var c := s.lastOut[s.objs[h].dev];
      var k := LastLeaver(states, acts, i, s.objs[h].dev);
      CollectedWhen(states, acts, i, c);
      InsertedThen(states, acts, i, h);
      assert LeftLast(states, i, OpenSessions(s)[id], c, k) && CollectsAt(states, acts, s.collect[c].at, c)
             && InsertedAt(states, s.objs[h].insertedAt, id);
    }
  }

  lemma InsertedThen(states: seq<State>, acts: seq<Action>, i: nat, h: nat)
    requires IsRun(states, acts) && i < |states| && h in states[i].objs && states[i].objs[h].teardown.Live?
    ensures InsertedAt(states, states[i].objs[h].insertedAt, states[i].objs[h].id)
  {
    RunObject(states, acts, i, h);
    var n := states[i].objs[h].insertedAt;
    TableHistory(states, acts, n, i, h);
    TableHistory(states, acts, n + 1, i, h);
  }

  // ---- When every session has its device ----

  /** Every session is inserted while its device is online. */
  ghost predicate InsertsFindDevices(states: seq<State>, acts: seq<Action>)
    requires IsRun(states, acts)
  {
    forall n :: 0 <= n < |acts| && OpOf(states[n], acts[n]).Open? ==>
      OpOf(states[n], acts[n]).dev in states[n].conns
  }

  /** Between its collection step m and its unregistering at step k, connection c leaves its device. */
  ghost predicate LeavesDuring(states: seq<State>, acts: seq<Action>, m: int, k: int, c: nat, dev: string) {
    CollectsAt(states, acts, m, c) && m < k < |acts| && c in states[m].cdev && states[m].cdev[c] == dev
    && D(c) in states[k].pc && states[k].pc[D(c)] == AtDevice(Part) && acts[k] == Moves(D(c), Tick)
  }

  /** No session of a device is inserted while a connection of it leaves. */
  ghost predicate ExitsAreApart(states: seq<State>, acts: seq<Action>)
    requires IsRun(states, acts)
  {
    forall n, m, k, c | 0 <= n < |acts| && OpOf(states[n], acts[n]).Open? ::
      LeavesDuring(states, acts, m, k, c, OpOf(states[n], acts[n]).dev) ==> !(m < n < k)
  }

  lemma InsertedIsOpened(states: seq<State>, acts: seq<Action>, n: nat, id: string)
    requires IsRun(states, acts) && n < |acts| && InsertedAt(states, n, id)
    ensures id in states[n + 1].table && TableOk(states[n + 1])
    ensures OpOf(states[n], acts[n]) == Open(id, OpenSessions(states[n + 1])[id])
  {
    RunRefinesAtomicMap(states, acts, n);
    assert id in OpenSessions(states[n + 1]) && id !in OpenSessions(states[n]);
  }

  lemma SameDeviceLater(states: seq<State>, acts: seq<Action>, n: nat, i: nat, id: string)
    requires IsRun(states, acts) && n <= i < |states| && id in states[n].table && id in states[i].table
    ensures TableOk(states[n]) && TableOk(states[i]) && OpenSessions(states[n])[id] == OpenSessions(states[i])[id]
  {
    RunTable(states, acts, n);
    RunTable(states, acts, i);
    RunLater(states, acts, n, i);
    hide IsRun, Later, TableOk, IdsDiffer, OpenSessions;
    SameDevice(states[n], states[i], id);
  }

  lemma SameDevice(s: State, s': State, id: string)
    requires Later(s, s') && TableOk(s) && TableOk(s') && IdsDiffer(s') && id in s.table && id in s'.table
    ensures OpenSessions(s)[id] == OpenSessions(s')[id]
  {
    var h := s.table[id];
    assert h in s'.objs && s'.objs[h].id == id && s'.objs[h].dev == s.objs[h].dev;
    assert s'.table[id] == h;
  }

  lemma LastLeaves(states: seq<State>, acts: seq<Action>, i: nat, dev: string, c: nat, k: int, m: int)
    requires IsRun(states, acts) && LeftLast(states, i, dev, c, k) && CollectsAt(states, acts, m, c)
    ensures LeavesDuring(states, acts, m, k, c, dev)
  {
    OnlyItsOwnConnectionLeaves(states, acts, k, dev);
    OneUncancelledConnection(states, acts, k, dev);
    assert dev !in states[k + 1].conns;
    CollectedBefore(states, acts, m, k, c);
    CollectedThen(states, acts, m, c);
    RunLater(states, acts, m, k);
  }

  lemma OpenedByBrowser(s: State, a: Action)
    requires Enabled(s, a) && OpOf(s, a).Open?
    ensures a.Moves? && a.t.B?
  {
  }

  lemma InsertedForDevice(states: seq<State>, acts: seq<Action>, i: nat, id: string, n: nat, dev: string)
    requires IsRun(states, acts) && n < i < |states| && InsertedAt(states, n, id)
    requires id in states[i].table && TableOk(states[i]) && OpenSessions(states[i])[id] == dev
    ensures OpOf(states[n], acts[n]) == Open(id, dev)
  {
    hide Apply, InsertedAt;
    assert n < |acts|;
    hide IsRun, OpenSessions, TableOk, OpOf;
    InsertedIsOpened(states, acts, n, id);
    SameDeviceLater(states, acts, n + 1, i, id);
  }

  /** A session inserted while its device was online, and before it went offline for good. */
  lemma InsertedBeforeLeaving(states: seq<State>, acts: seq<Action>, i: nat, dev: string,
                              c: nat, k: nat, m: nat, n: nat)
    requires IsRun(states, acts) && n < i < |states| && InsertsFindDevices(states, acts)
    requires OpOf(states[n], acts[n]).Open? && OpOf(states[n], acts[n]).dev == dev
    requires LeftLast(states, i, dev, c, k) && LeavesDuring(states, acts, m, k, c, dev)
    ensures n < k
  {
    assert Enabled(states[n], acts[n]);
    OpenedByBrowser(states[n], acts[n]);
    assert dev in states[n].conns;
    hide IsRun, InsertsFindDevices, OpOf, Enabled, CollectsAt;
  }

  /** If every session were inserted while its device is online and none while a connection of its
      device leaves, which is what larger steps would give, then at every step of every
      interleaving every session in the table that is not still inside open would have its device online. */
  lemma SessionsHaveDevices(states: seq<State>, acts: seq<Action>, i: nat, id: string)
    requires IsRun(states, acts) && i < |states| && InsertsFindDevices(states, acts) && ExitsAreApart(states, acts)
    requires id in states[i].table
    ensures TableOk(states[i]) && B(states[i].table[id]) in states[i].pc
    ensures OpenSessions(states[i])[id] in states[i].conns || InsideOpen(states[i].pc[B(states[i].table[id])])
  {
    RunTable(states, acts, i);
    EntriesAreHeld(states, acts, i, id);
    hide IsRun, InsertsFindDevices, InsideOpen, OpenSessions, LeftLast, CollectsAt, InsertedAt, TableOk;
    var dev := OpenSessions(states[i])[id];
    if dev !in states[i].conns && !InsideOpen(states[i].pc[B(states[i].table[id])]) {
      OfflineSession(states, acts, i, id);
      var c: nat, k: nat, m: nat, n: nat :| LeftLast(states, i, dev, c, k) && CollectsAt(states, acts, m, c)
                                            && InsertedAt(states, n, id) && m < n < i;
      InsertedForDevice(states, acts, i, id, n, dev);
      LastLeaves(states, acts, i, dev, c, k, m);
      InsertedBeforeLeaving(states, acts, i, dev, c, k, m, n);
    }
  }
}
