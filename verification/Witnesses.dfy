/** Runs that show what the service does not promise. */
module Witnesses {
  import opened Machine
  import opened Departures
  import opened Runs

  ghost predicate Reachable(s: State) {
    exists states, acts :: IsRun(states, acts) && states[|states| - 1] == s
  }

  lemma ExtendRun(states: seq<State>, acts: seq<Action>, a: Action, s': State)
    requires IsRun(states, acts) && Enabled(states[|states| - 1], a) && s' == Apply(states[|states| - 1], a)
    ensures Reachable(s')
  {
    var states', acts' := states + [s'], acts + [a];
    forall i | 0 <= i < |acts'|
      ensures Enabled(states'[i], acts'[i]) && states'[i + 1] == Apply(states'[i], acts'[i]) {
      if i < |acts| {
        assert states'[i] == states[i] && states'[i + 1] == states[i + 1] && acts'[i] == acts[i];
      }
    }
    assert IsRun(states', acts') && states'[|states'| - 1] == s';
  }

  lemma Reach(s: State, a: Action) returns (s': State)
    requires Reachable(s) && Enabled(s, a)
    ensures s' == Apply(s, a) && Reachable(s')
  {
    var states, acts :| IsRun(states, acts) && states[|states| - 1] == s;
    s' := Apply(s, a);
    ExtendRun(states, acts, a, s');
  }

  lemma Start() returns (s: State)
    ensures s == INITIAL && Reachable(s)
  {
    s := INITIAL;
    assert IsRun([s], []) && [s][|[s]| - 1] == s;
  }

  lemma Go(s: State, t: Thread, input: Input) returns (s': State)
    requires Reachable(s) && MayMove(s, t, input) && Performable(s, t, PlanOf(s, t, input).effect)
    ensures s' == Move(s, t, PlanOf(s, t, input)) && Reachable(s')
  {
    s' := Reach(s, Moves(t, input));
  }

  // ---- The scene: connection 0 of device "d", and perhaps browser handler 0 ----

  ghost predicate Listed(s: State, t: Thread) {
    t in s.pc && t in s.q && t in s.recv && t in s.fates
  }

  ghost predicate DeviceAt(s: State, p: PC) {
    Listed(s, D(0)) && s.pc[D(0)] == p && 0 in s.cdev && s.cdev[0] == "d" && |s.q[D(0)].pending| <= 2
  }

  ghost predicate Online(s: State) {
    "d" in s.conns && s.conns["d"] == 0
  }

  ghost predicate Nobody(s: State) {
    s.table == map[] && s.objs == map[] && s.used == {} && B(0) !in s.pc
  }

  ghost predicate BrowserAt(s: State, b: BrowserPC) {
    Listed(s, B(0)) && s.pc[B(0)] == AtBrowser(b)
  }

  ghost predicate SessionIn(s: State) {
    s.table.Keys == {"s"} && s.table["s"] == 0 && 0 in s.objs
    && s.objs[0].id == "s" && s.objs[0].dev == "d" && !s.objs[0].closed
  }

  ghost predicate SessionMade(s: State, b: BrowserPC) {
    BrowserAt(s, b) && SessionIn(s)
  }

  lemma DeviceConnected() returns (s: State)
    ensures Reachable(s) && DeviceAt(s, AtDevice(Join)) && Nobody(s) && s.q[D(0)] == NEW_CHANNEL
    ensures D(1) !in s.pc && s.cancelled == {} && s.conns == map[]
  {
    s := Start();
    s := Reach(s, DeviceConnects(0, "d"));
  }

  lemma DeviceArrives() returns (s: State)
    ensures Reachable(s) && DeviceAt(s, AtDevice(SayHello)) && Nobody(s) && Online(s)
    ensures s.q[D(0)] == NEW_CHANNEL && D(1) !in s.pc && s.cancelled == {}
  {
    s := DeviceConnected();
    hide Reachable;
    s := Go(s, D(0), Tick);
  }

  lemma DeviceGreets() returns (s: State)
    ensures Reachable(s) && DeviceAt(s, AtDevice(Serve)) && Nobody(s) && Online(s)
    ensures s.q[D(0)].enqueued == s.q[D(0)].pending && |s.q[D(0)].pending| == 1
    ensures D(1) !in s.pc && s.cancelled == {}
  {
    s := DeviceArrives();
    s := Go(s, D(0), Tick);
  }

  /** The device's WebSocket breaks: its writer exits and its read loop gets an error. */
  lemma DeviceBreaks(s: State) returns (s': State)
    requires Reachable(s) && DeviceAt(s, AtDevice(Serve))
    ensures Reachable(s') && DeviceAt(s', AtDevice(CollectIds)) && D(0) in s'.writerDone
    ensures s'.table == s.table && s'.objs == s.objs && s'.used == s.used && s'.conns == s.conns && s'.q == s.q
    ensures forall t :: t != D(0) ==> (Listed(s', t) <==> Listed(s, t))
    ensures forall t :: t != D(0) && t in s.pc ==> t in s'.pc && s'.pc[t] == s.pc[t]
    ensures B(0) !in s.pc ==> B(0) !in s'.pc
  {
    s' := Reach(s, ContextCancelled(D(0)));
    s' := Reach(s', WriterExits(D(0)));
    s' := Go(s', D(0), ReadError);
  }

  lemma DeviceCollectsNothing(s: State) returns (s': State)
    requires Reachable(s) && DeviceAt(s, AtDevice(CollectIds)) && D(0) in s.writerDone && Nobody(s) && Online(s)
    ensures Reachable(s') && DeviceAt(s', AtDevice(EndNext({}))) && Nobody(s') && Online(s')
    ensures s'.q[D(0)] == s.q[D(0)]
  {
    assert IdsOf(s, "d") == {};
    s' := Go(s, D(0), Tick);
  }

  lemma BrowserArrives(s: State, p: PC) returns (s': State)
    requires Reachable(s) && DeviceAt(s, p) && Nobody(s) && Online(s)
    ensures Reachable(s') && DeviceAt(s', p) && Online(s') && BrowserAt(s', CheckOnline("d", ""))
    ensures s'.table == map[] && s'.objs == map[] && s'.used == {} && s'.q[D(0)] == s.q[D(0)]
  {
    s' := Reach(s, BrowserConnects(0));
    assert BrowserAt(s', BrowserPC.Start) && DeviceAt(s', p) && Online(s');
    s' := Go(s', B(0), OpenMessage("d", ""));
  }

  lemma BrowserChecks(s: State, p: PC) returns (s': State)
    requires Reachable(s) && DeviceAt(s, p) && Online(s) && BrowserAt(s, CheckOnline("d", ""))
    requires s.table == map[] && s.objs == map[] && s.used == {}
    ensures Reachable(s') && DeviceAt(s', p) && Online(s') && BrowserAt(s', Insert("d", ""))
    ensures s'.table == map[] && s'.objs == map[] && s'.used == {} && s'.q[D(0)] == s.q[D(0)]
  {
    hide Reachable;
    s' := Go(s, B(0), Tick);
  }

  lemma BrowserInserts(s: State, p: PC) returns (s': State)
    requires Reachable(s) && DeviceAt(s, p) && Online(s) && BrowserAt(s, CheckOnline("d", ""))
    requires s.table == map[] && s.objs == map[] && s.used == {}
    ensures Reachable(s') && DeviceAt(s', p) && Online(s') && SessionMade(s', RequestLookup(""))
    ensures s'.q[D(0)] == s.q[D(0)]
  {
    s' := BrowserChecks(s, p);
    hide Reachable;
    s' := Go(s', B(0), FreshId("s"));
  }

  lemma BrowserLooksUp(s: State, p: PC) returns (s': State)
    requires Reachable(s) && DeviceAt(s, p) && Online(s) && SessionMade(s, RequestLookup(""))
    ensures Reachable(s') && DeviceAt(s', p) && Online(s') && SessionMade(s', RequestPush("", 0))
    ensures s'.q[D(0)] == s.q[D(0)]
  {
    s' := Go(s, B(0), Tick);
  }

  lemma BrowserRequests(s: State, p: PC) returns (s': State)
    requires Reachable(s) && DeviceAt(s, p) && SessionMade(s, RequestPush("", 0)) && |s.q[D(0)].pending| == 1
    ensures Reachable(s') && DeviceAt(s', p) && SessionMade(s', SayReady) && s'.conns == s.conns
  {
    s' := Go(s, B(0), Tick);
  }

  lemma DeviceEndsNone(s: State, b: BrowserPC) returns (s': State)
    requires Reachable(s) && DeviceAt(s, AtDevice(EndNext({}))) && Online(s) && SessionMade(s, b)
    ensures Reachable(s') && DeviceAt(s', AtDevice(Part)) && Online(s') && SessionMade(s', b)
  {
    hide Reachable;
    s' := Go(s, D(0), Tick);
  }

  lemma DeviceLeaves(s: State, b: BrowserPC) returns (s': State)
    requires Reachable(s) && DeviceAt(s, AtDevice(EndNext({}))) && Online(s) && SessionMade(s, b)
    ensures Reachable(s') && "d" !in s'.conns && SessionMade(s', b)
  {
    s' := DeviceEndsNone(s, b);
    hide Reachable;
    s' := Go(s', D(0), Tick);
  }

  /** It is not so that every open session has its device online: a session inserted between the
      collection of ids and the unregistering of the leaving connection outlives its device. */
  lemma SessionOutlivesItsDevice() returns (s: State)
    ensures Reachable(s) && SessionIn(s) && "d" !in s.conns && B(0) in s.pc && !InsideOpen(s.pc[B(0)])
  {
    s := DeviceGreets();
    s := DeviceBreaks(s);
    s := DeviceCollectsNothing(s);
    s := BrowserArrives(s, AtDevice(EndNext({})));
    s := BrowserInserts(s, AtDevice(EndNext({})));
    s := BrowserLooksUp(s, AtDevice(EndNext({})));
    s := BrowserRequests(s, AtDevice(EndNext({})));
    s := DeviceLeaves(s, SayReady);
  }

  lemma DeviceCollectsOne(s: State, b: BrowserPC) returns (s': State)
    requires Reachable(s) && DeviceAt(s, AtDevice(CollectIds)) && D(0) in s.writerDone
    requires Online(s) && SessionMade(s, b)
    ensures Reachable(s') && DeviceAt(s', AtDevice(EndNext({"s"}))) && Online(s') && SessionMade(s', b)
    ensures s'.q[D(0)] == s.q[D(0)]
  {
    DeviceMayCollect(s, b);
    hide Reachable, IdsOf, MayMove, PlanOf;
    s' := Go(s, D(0), Tick);
  }

  lemma DeviceMayCollect(s: State, b: BrowserPC)
    requires DeviceAt(s, AtDevice(CollectIds)) && D(0) in s.writerDone && SessionMade(s, b)
    ensures MayMove(s, D(0), Tick) && PlanOf(s, D(0), Tick) == Plan(AtDevice(EndNext({"s"})), Collect)
    ensures Performable(s, D(0), Collect) && IdsOf(s, "d") == {"s"}
  {
    assert IdsOf(s, "d") == {"s"};
  }

  lemma DeviceCollects(s: State, b: BrowserPC) returns (s': State)
    requires Reachable(s) && DeviceAt(s, AtDevice(CollectIds)) && D(0) in s.writerDone
    requires Online(s) && SessionMade(s, b)
    ensures Reachable(s') && DeviceAt(s', Closing(Mark("s"), DeviceGone({}))) && Online(s') && SessionMade(s', b)
    ensures s'.q[D(0)] == s.q[D(0)]
  {
    s' := DeviceCollectsOne(s, b);
    assert {"s"} - {"s"} == {};
    s' := Go(s', D(0), NextId("s"));
  }

  lemma DeviceMarks(s: State, b: BrowserPC) returns (s': State)
    requires Reachable(s) && DeviceAt(s, Closing(Mark("s"), DeviceGone({}))) && Online(s) && SessionMade(s, b)
    ensures Reachable(s') && DeviceAt(s', Closing(Lookup(0), DeviceGone({}))) && Online(s') && BrowserAt(s', b)
    ensures 0 in s'.objs && s'.objs[0].id == "s" && s'.objs[0].dev == "d" && s'.q[D(0)] == s.q[D(0)]
  {
    s' := Go(s, D(0), Tick);
  }

  lemma DeviceIsFound(s: State, b: BrowserPC) returns (s': State)
    requires Reachable(s) && DeviceAt(s, Closing(Lookup(0), DeviceGone({}))) && Online(s) && BrowserAt(s, b)
    requires 0 in s.objs && s.objs[0].id == "s" && s.objs[0].dev == "d"
    ensures Reachable(s') && DeviceAt(s', Closing(PushDevice(0, 0), DeviceGone({}))) && BrowserAt(s', b)
    ensures s'.objs == s.objs && s'.q == s.q
  {
    hide Reachable;
    s' := Go(s, D(0), Tick);
  }

  lemma DeviceIsTold(s: State, b: BrowserPC) returns (s': State)
    requires Reachable(s) && DeviceAt(s, Closing(Lookup(0), DeviceGone({}))) && Online(s) && BrowserAt(s, b)
    requires 0 in s.objs && s.objs[0].id == "s" && s.objs[0].dev == "d" && |s.q[D(0)].pending| == 1
    ensures Reachable(s') && BrowserAt(s', b) && 0 in s'.objs && Listed(s', D(0))
    ensures |s'.q[D(0)].pending| == 2 && |s'.q[D(0)].enqueued| == |s.q[D(0)].enqueued| + 1
    ensures s'.q[D(0)].enqueued[|s.q[D(0)].enqueued|].origin == Ended(0)
  {
    s' := DeviceIsFound(s, b);
    hide Reachable;
    s' := Go(s', D(0), Tick);
  }

  lemma LateRequest(s: State) returns (s': State)
    requires Reachable(s) && BrowserAt(s, RequestPush("", 0)) && 0 in s.objs && Listed(s, D(0))
    requires |s.q[D(0)].pending| == 2
    ensures Reachable(s') && D(0) in s'.q && |s'.q[D(0)].enqueued| == |s.q[D(0)].enqueued| + 1
    ensures s.q[D(0)].enqueued <= s'.q[D(0)].enqueued
    ensures s'.q[D(0)].enqueued[|s.q[D(0)].enqueued|].origin == Requested(0)
  {
    s' := Go(s, B(0), Tick);
  }

  /** It is not so that a device is told of a session before its end: the broker-made
      session.end of a closer that comes between the insertion and the push of the request is
      on the queue first. */
  lemma EndBeforeRequest() returns (s: State)
    ensures Reachable(s) && D(0) in s.q && |s.q[D(0)].enqueued| == 3
    ensures s.q[D(0)].enqueued[1].origin == Ended(0) && s.q[D(0)].enqueued[2].origin == Requested(0)
  {
    s := DeviceGreets();
    s := BrowserArrives(s, AtDevice(Serve));
    s := BrowserInserts(s, AtDevice(Serve));
    s := BrowserLooksUp(s, AtDevice(Serve));
    s := DeviceBreaks(s);
    s := DeviceCollects(s, RequestPush("", 0));
    s := DeviceMarks(s, RequestPush("", 0));
    s := DeviceIsTold(s, RequestPush("", 0));
    s := LateRequest(s);
  }
}
