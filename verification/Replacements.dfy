/** Runs in which a second connection replaces a device's first: what the first still does to the
    second's sessions, and what comes before the second's hello. */
module Replacements {
  import opened Machine
  import opened Queues
  import opened Witnesses

  // ---- The scene: connection 1 has replaced connection 0 of device "d" ----

  ghost predicate Replaced(s: State, p0: PC, p1: PC) {
    Listed(s, D(0)) && s.pc[D(0)] == p0 && Listed(s, D(1)) && s.pc[D(1)] == p1
    && 0 in s.cdev && s.cdev[0] == "d" && 1 in s.cdev && s.cdev[1] == "d"
    && "d" in s.conns && s.conns["d"] == 1 && s.cancelled == {D(0)}
  }

  ghost predicate NoSession(s: State) {
    s.table == map[] && s.objs == map[] && s.used == {}
  }

  /** The session has been requested on connection 1's queue, where nothing had been pushed before. */
  ghost predicate RequestedFirst(s: State) {
    0 in s.objs && s.objs[0].requested.Some? && s.objs[0].requested.value.c == 1 && D(1) in s.q
    && RequestOnly(s.q[D(1)])
  }

  ghost predicate RequestOnly(ch: Channel) {
    |ch.enqueued| == 1 == |ch.pending| && ch.enqueued[0].origin == Requested(0)
  }

  lemma SecondConnects() returns (s: State)
    ensures Reachable(s) && Nobody(s) && Listed(s, D(1)) && s.pc[D(1)] == AtDevice(Join)
    ensures DeviceAt(s, AtDevice(Serve)) && Online(s) && 1 in s.cdev && s.cdev[1] == "d"
    ensures s.q[D(1)] == NEW_CHANNEL && s.cancelled == {}
  {
    s := DeviceGreets();
    s := Reach(s, DeviceConnects(1, "d"));
  }

  lemma SecondReplaces() returns (s: State)
    ensures Reachable(s) && Nobody(s) && Replaced(s, AtDevice(Serve), AtDevice(SayHello))
    ensures s.q[D(1)] == NEW_CHANNEL
  {
    s := SecondConnects();
    s := Go(s, D(1), Tick);
  }

  lemma BrowserComes() returns (s: State)
    ensures Reachable(s) && NoSession(s) && Replaced(s, AtDevice(Serve), AtDevice(SayHello))
    ensures BrowserAt(s, CheckOnline("d", "")) && s.q[D(1)] == NEW_CHANNEL
  {
    s := SecondReplaces();
    s := Reach(s, BrowserConnects(0));
    assert BrowserAt(s, BrowserPC.Start) && Replaced(s, AtDevice(Serve), AtDevice(SayHello));
    s := Go(s, B(0), OpenMessage("d", ""));
  }

  lemma DeviceFoundOnline() returns (s: State)
    ensures Reachable(s) && NoSession(s) && Replaced(s, AtDevice(Serve), AtDevice(SayHello))
    ensures BrowserAt(s, Insert("d", "")) && s.q[D(1)] == NEW_CHANNEL
  {
    s := BrowserComes();
    hide Reachable;
    s := Go(s, B(0), Tick);
  }

  lemma SessionInserted() returns (s: State)
    ensures Reachable(s) && Replaced(s, AtDevice(Serve), AtDevice(SayHello))
    ensures SessionMade(s, RequestLookup("")) && s.q[D(1)] == NEW_CHANNEL
  {
    s := DeviceFoundOnline();
    hide Reachable;
    s := Go(s, B(0), FreshId("s"));
  }

  lemma SecondLookedUp() returns (s: State)
    ensures Reachable(s) && Replaced(s, AtDevice(Serve), AtDevice(SayHello))
    ensures SessionMade(s, RequestPush("", 1)) && s.q[D(1)] == NEW_CHANNEL
  {
    hide Reachable, ClosePlan, BadOpen, SessionAfter;
    s := SessionInserted();
    s := Go(s, B(0), Tick);
  }

  /** The session is opened through the replacement, which has not said hello yet. */
  lemma OpenedThroughSecond() returns (s: State)
    ensures Reachable(s) && Replaced(s, AtDevice(Serve), AtDevice(SayHello))
    ensures SessionMade(s, SayReady) && RequestedFirst(s)
  {
    hide DevicePlan, Reachable, ClosePlan, Performable, LastOutAfter, CollectAfter;
    s := SecondLookedUp();
    s := Go(s, B(0), Tick);
  }

  /** It is not so that hello is the first envelope of a connection's queue: a session's request can
      be pushed between the connection's registering and its hello. */
  lemma RequestBeforeHello() returns (s: State)
    ensures Reachable(s) && IsItem(s, D(1), 1)
    ensures s.q[D(1)].enqueued[0].origin == Requested(0) && s.q[D(1)].enqueued[1].origin == Greeting
  {
    s := OpenedThroughSecond();
    s := Go(s, D(1), Tick);
  }

  lemma FirstWriterExits() returns (s: State)
    ensures Reachable(s) && Replaced(s, AtDevice(Serve), AtDevice(SayHello)) && D(0) in s.writerDone
    ensures SessionMade(s, SayReady) && RequestedFirst(s)
  {
    s := OpenedThroughSecond();
    s := Reach(s, WriterExits(D(0)));
  }

  lemma FirstBreaks() returns (s: State)
    ensures Reachable(s) && Replaced(s, AtDevice(CollectIds), AtDevice(SayHello)) && D(0) in s.writerDone
    ensures SessionMade(s, SayReady) && RequestedFirst(s)
  {
    s := FirstWriterExits();
    hide Reachable;
    s := Go(s, D(0), ReadError);
  }

  lemma FirstMayCollect(s: State)
    requires Replaced(s, AtDevice(CollectIds), AtDevice(SayHello)) && D(0) in s.writerDone && SessionIn(s)
    ensures MayMove(s, D(0), Tick) && PlanOf(s, D(0), Tick) == Plan(AtDevice(EndNext({"s"})), Collect)
    ensures Performable(s, D(0), Collect) && IdsOf(s, "d") == {"s"}
  {
    assert IdsOf(s, "d") == {"s"};
  }

  lemma FirstMayClose(s: State)
    requires Replaced(s, AtDevice(EndNext({"s"})), AtDevice(SayHello))
    ensures MayMove(s, D(0), NextId("s"))
    ensures PlanOf(s, D(0), NextId("s")) == Plan(Closing(Mark("s"), DeviceGone({})), Quiet)
    ensures Performable(s, D(0), Quiet)
  {
    assert {"s"} - {"s"} == {};
  }

  lemma FirstCollects() returns (s: State)
    ensures Reachable(s) && Replaced(s, AtDevice(EndNext({"s"})), AtDevice(SayHello))
    ensures SessionMade(s, SayReady) && RequestedFirst(s)
  {
    s := FirstBreaks();
    FirstMayCollect(s);
    hide Reachable, RequestOnly, IdsOf, MayMove, PlanOf;
    s := Go(s, D(0), Tick);
  }

  lemma FirstCloses() returns (s: State)
    ensures Reachable(s) && Replaced(s, Closing(Mark("s"), DeviceGone({})), AtDevice(SayHello))
    ensures SessionMade(s, SayReady) && RequestedFirst(s)
  {
    s := FirstCollects();
    FirstMayClose(s);
    hide Reachable, RequestOnly, MayMove, PlanOf;
    s := Go(s, D(0), NextId("s"));
  }

  /** It is not so that a session survives the exit of a connection that its own has replaced: the
      replaced connection removes the session that was requested on its replacement, which is in the
      table of connections and uncancelled all the while. */
  lemma ReplacedConnectionEndsSession() returns (s: State)
    ensures Reachable(s) && 0 in s.objs && s.objs[0].requested.Some? && s.objs[0].requested.value.c == 1
    ensures s.objs[0].teardown.Torn? && s.objs[0].teardown.closer == D(0) && s.objs[0].id !in s.table
    ensures 0 in s.cdev && 1 in s.cdev && s.cdev[0] == s.cdev[1] == s.objs[0].dev
    ensures s.cdev[1] in s.conns && s.conns[s.cdev[1]] == 1 && D(1) !in s.cancelled
  {
    s := FirstCloses();
    s := Go(s, D(0), Tick);
  }
}
