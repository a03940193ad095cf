/** The steps of the machine do to numbered pointers what the methods of the objects do to their
    pointers: for any way of numbering them, each region gives the same result whether the pointers
    are numbered before or after; and a thread of the machine that goes through open or close with no
    other thread in between leaves what the objects' Open and Close leave. */
module Simulation {
  import opened Wire
  import opened Regions
  import opened Machine
  import opened Control
  import opened RoutingTheorems
  import Operations

  /** A table of pointers with every pointer replaced by its number. */
  function Numbered<P>(m: map<string, P>, number: P -> nat): map<string, nat> {
    map k | k in m :: number(m[k])
  }

  /** The insertion made by open. */
  lemma InsertSimulated<P>(s: State, t: Thread, e: Effect, sessions: map<string, P>, number: P -> nat, p: P)
    requires Performable(s, t, e) && e.InsertSession? && number(p) == t.h && s.table == Numbered(sessions, number)
    ensures TableAfter(s, t, e) == Numbered(Inserted(sessions, e.id, p), number)
  {
  }

  /** The deletion made by close. */
  lemma DeleteSimulated<P>(s: State, t: Thread, e: Effect, sessions: map<string, P>, number: P -> nat)
    requires Performable(s, t, e) && e.Delete? && s.table == Numbered(sessions, number)
    ensures TableAfter(s, t, e) == Numbered(Removed(sessions, e.id), number)
  {
  }

  /** The update made by register. */
  lemma RegisterSimulated<P>(s: State, t: Thread, e: Effect, conns: map<string, P>, number: P -> nat, p: P)
    requires Performable(s, t, e) && e.Register? && number(p) == t.c && s.conns == Numbered(conns, number)
    ensures ConnsAfter(s, t, e) == Numbered(Registered(conns, s.cdev[t.c], p), number)
  {
  }

  /** The update made by unregister, which compares pointers: different ones have different numbers. */
  lemma UnregisterSimulated<P>(s: State, t: Thread, e: Effect, conns: map<string, P>, number: P -> nat, p: P)
    requires Performable(s, t, e) && e.Unregister? && number(p) == t.c && s.conns == Numbered(conns, number)
    requires forall d :: d in conns && number(conns[d]) == number(p) ==> conns[d] == p
    ensures ConnsAfter(s, t, e) == Numbered(Unregistered(conns, s.cdev[t.c], p), number)
  {
  }

  /** The ids collected by closeByDevice. */
  lemma CollectSimulated<P>(s: State, dev: string, sessions: map<string, P>, number: P -> nat, deviceOf: P -> string)
    requires s.table == Numbered(sessions, number)
    requires forall id :: id in sessions ==>
               number(sessions[id]) in s.objs && s.objs[number(sessions[id])].dev == deviceOf(sessions[id])
    ensures IdsOf(s, dev) == Collected(sessions, deviceOf, dev)
  {
    hide Collected;
    CollectedMeans(s.table, h requires h in s.objs => s.objs[h].dev, dev);
    CollectedMeans(sessions, deviceOf, dev);
  }

  lemma CollectedMeans<P>(table: map<string, P>, deviceOf: P --> string, dev: string)
    requires forall id :: id in table ==> deviceOf.requires(table[id])
    ensures forall id :: id in Collected(table, deviceOf, dev) <==> id in table && deviceOf(table[id]) == dev
  {
  }

  /** Every push of the machine is the non-blocking push of the same envelope on the same queue, and
      leaves the other queues as they are. */
  lemma PushSimulated(s: State, t: Thread, e: Effect, queue: seq<Envelope>)
    requires Performable(s, t, e) && Pushes(e) && PushOf(s, t, e).to in s.q
    requires Envelopes(s.q[PushOf(s, t, e).to].pending) == queue
    ensures var push := PushOf(s, t, e);
            ChannelsAfter(s, t, e).Keys == s.q.Keys
            && Envelopes(ChannelsAfter(s, t, e)[push.to].pending) == Offer(queue, push.env)
            && forall other :: other in s.q && other != push.to ==> ChannelsAfter(s, t, e)[other] == s.q[other]
  {
    hide PushOf;
  }

  // ---- Whole operations ----

  /** Thread t takes these steps one after the other, and nobody else any in between. */
  ghost predicate RunsAlone(s: State, t: Thread, inputs: seq<Input>, s': State)
    decreases |inputs|
  {
    if inputs == [] then s' == s
    else Enabled(s, Moves(t, inputs[0])) && RunsAlone(Apply(s, Moves(t, inputs[0])), t, inputs[1..], s')
  }

  ghost predicate Visible(s: State, h: nat, dev: string) {
    B(h) in s.pc && B(h) in s.q && (dev in s.conns ==> D(s.conns[dev]) in s.q)
  }

  /** The scene of a session of browser handler h with the device. */
  ghost function SceneIn(s: State, h: nat, dev: string): Operations.Scene<nat>
    requires Visible(s, h, dev)
  {
    Operations.Scene(
      s.table, if dev in s.conns then Some(Envelopes(s.q[D(s.conns[dev])].pending)) else None,
      Envelopes(s.q[B(h)].pending), B(h) in s.cancelled)
  }

  lemma SceneTells(s: State, h: nat, dev: string)
    requires Visible(s, h, dev)
    ensures SceneIn(s, h, dev).table == s.table && (SceneIn(s, h, dev).device.Some? <==> dev in s.conns)
  {
  }

  lemma SceneIsVisible(s: State, h: nat, dev: string)
    requires ControlOk(s) && B(h) in s.pc
    ensures Visible(s, h, dev)
  {
    hide ObjectsOk, PcsOk, TableOk, IdsDiffer, PresenceOk, InService;
    ThreadIsListed(s, B(h));
    if dev in s.conns {
      ThreadIsListed(s, D(s.conns[dev]));
    }
  }

  /** Handler h's session is one of this device with this id. */
  ghost predicate Named(s: State, h: nat, id: string, dev: string) {
    h in s.objs && s.objs[h].id == id && s.objs[h].dev == dev
  }

  /** Thread t steps to p, the session and the connections are as before, and this is the scene. */
  ghost predicate Leaves(s: State, t: Thread, input: Input, p: PC, h: nat, id: string, dev: string,
                         v: Operations.Scene<nat>)
  {
    Enabled(s, Moves(t, input))
    && var s' := Apply(s, Moves(t, input));
       t in s'.pc && s'.pc[t] == p && s'.conns == s.conns && Named(s', h, id, dev)
       && Visible(s', h, dev) && SceneIn(s', h, dev) == v
  }

  lemma FirstStep(s: State, t: Thread, inputs: seq<Input>, s': State)
    requires RunsAlone(s, t, inputs, s') && inputs != []
    ensures Enabled(s, Moves(t, inputs[0])) && RunsAlone(Apply(s, Moves(t, inputs[0])), t, inputs[1..], s')
  {
    hide Enabled, Apply;
  }

  lemma LastStep(s: State, t: Thread, inputs: seq<Input>, s': State)
    requires RunsAlone(s, t, inputs, s') && |inputs| == 1
    ensures Enabled(s, Moves(t, inputs[0])) && s' == Apply(s, Moves(t, inputs[0]))
  {
    hide Enabled, Apply;
    FirstStep(s, t, inputs, s');
  }

  // close

  lemma MarkAlone(s: State, t: Thread, input: Input, why: Why, h: nat, id: string, dev: string)
    requires t in s.pc && s.pc[t] == Closing(Mark(id), why) && Enabled(s, Moves(t, input))
    requires id in s.table && s.table[id] == h && Named(s, h, id, dev) && Visible(s, h, dev) && !s.objs[h].closed
    ensures Leaves(s, t, input, Closing(Lookup(h), why), h, id, dev,
                   SceneIn(s, h, dev).(table := Removed(s.table, id)))
  {
    hide PushOf;
    hide BrowserPlan, DevicePlan, BrowserReady, DeviceReady, Connect, Take, RecvAfter, FatesAfter, CollectAfter;
    hide LastOutAfter, UsedAfter, Envelopes;
  }

  lemma LookupAlone(s: State, t: Thread, input: Input, why: Why, h: nat, id: string, dev: string)
    requires t in s.pc && s.pc[t] == Closing(Lookup(h), why) && Enabled(s, Moves(t, input))
    requires Named(s, h, id, dev) && Visible(s, h, dev)
    ensures Leaves(s, t, input,
                   Closing(if dev in s.conns then PushDevice(h, s.conns[dev]) else PushBrowser(h), why), h, id, dev,
                   SceneIn(s, h, dev))
  {
    hide PushOf;
    hide BrowserPlan, DevicePlan, BrowserReady, DeviceReady, Connect, Take, RecvAfter, FatesAfter, CollectAfter;
    hide LastOutAfter, UsedAfter, Envelopes;
  }

  lemma PushDeviceAlone(s: State, t: Thread, input: Input, why: Why, h: nat, id: string, dev: string)
    requires t in s.pc && dev in s.conns && s.pc[t] == Closing(PushDevice(h, s.conns[dev]), why)
    requires Enabled(s, Moves(t, input)) && Named(s, h, id, dev) && Visible(s, h, dev)
    ensures var v := SceneIn(s, h, dev);
            v.device.Some? && Leaves(s, t, input, Closing(PushBrowser(h), why), h, id, dev,
                                     v.(device := Some(Offer(v.device.value, Envelope(SessionEnd, id, Reason(why))))))
  {
    hide BrowserPlan, DevicePlan, BrowserReady, DeviceReady, Connect, Take, RecvAfter, FatesAfter, CollectAfter;
    hide LastOutAfter, UsedAfter, Envelopes;
    PushSimulated(s, t, PlanOf(s, t, input).effect, Envelopes(s.q[D(s.conns[dev])].pending));
    hide ChannelsAfter;
  }

  lemma PushBrowserAlone(s: State, t: Thread, input: Input, why: Why, h: nat, id: string, dev: string)
    requires t in s.pc && s.pc[t] == Closing(PushBrowser(h), why) && Enabled(s, Moves(t, input))
    requires Named(s, h, id, dev) && Visible(s, h, dev)
    ensures var v := SceneIn(s, h, dev);
            Leaves(s, t, input, Closing(Cancel(h), why), h, id, dev,
                   v.(browser := Offer(v.browser, Envelope(SessionEnd, id, Reason(why)))))
  {
    hide BrowserPlan, DevicePlan, BrowserReady, DeviceReady, Connect, Take, RecvAfter, FatesAfter, CollectAfter;
    hide LastOutAfter, UsedAfter, Envelopes;
    PushSimulated(s, t, PlanOf(s, t, input).effect, Envelopes(s.q[B(h)].pending));
    hide ChannelsAfter;
  }

  lemma CancelAlone(s: State, t: Thread, input: Input, why: Why, h: nat, id: string, dev: string)
    requires t in s.pc && s.pc[t] == Closing(Cancel(h), why) && Enabled(s, Moves(t, input))
    requires Named(s, h, id, dev) && Visible(s, h, dev)
    ensures Leaves(s, t, input, After(why), h, id, dev, SceneIn(s, h, dev).(cancelled := true))
  {
    hide PushOf;
    hide BrowserPlan, DevicePlan, BrowserReady, DeviceReady, Connect, Take, RecvAfter, FatesAfter, CollectAfter;
    hide LastOutAfter, UsedAfter, Envelopes;
  }

  lemma ClosesFromBrowser(s: State, t: Thread, why: Why, h: nat, id: string, dev: string, inputs: seq<Input>, s': State)
    requires t in s.pc && s.pc[t] == Closing(PushBrowser(h), why) && Named(s, h, id, dev) && Visible(s, h, dev)
    requires RunsAlone(s, t, inputs, s') && |inputs| == 2
    ensures t in s'.pc && s'.pc[t] == After(why) && s'.conns == s.conns
    ensures Named(s', h, id, dev) && Visible(s', h, dev)
    ensures var v := SceneIn(s, h, dev);
            SceneIn(s', h, dev)
              == v.(browser := Offer(v.browser, Envelope(SessionEnd, id, Reason(why))), cancelled := true)
  {
    hide ControlOk, Enabled, Apply, Named, Visible, SceneIn, RunsAlone, Offer, Reason, After;
    FirstStep(s, t, inputs, s');
    PushBrowserAlone(s, t, inputs[0], why, h, id, dev);
    var s1 := Apply(s, Moves(t, inputs[0]));
    LastStep(s1, t, inputs[1..], s');
    CancelAlone(s1, t, inputs[1], why, h, id, dev);
  }

  lemma ClosesFromLookup(s: State, t: Thread, why: Why, h: nat, id: string, dev: string, inputs: seq<Input>, s': State)
    requires t in s.pc && s.pc[t] == Closing(Lookup(h), why) && Named(s, h, id, dev) && Visible(s, h, dev)
    requires RunsAlone(s, t, inputs, s') && |inputs| == if dev in s.conns then 4 else 3
    ensures t in s'.pc && s'.pc[t] == After(why) && s'.conns == s.conns
    ensures Named(s', h, id, dev) && Visible(s', h, dev)
    ensures SceneIn(s', h, dev)
            == Operations.Closed(SceneIn(s, h, dev), id, Reason(why)).(table := SceneIn(s, h, dev).table)
  {
    hide ControlOk, Enabled, Apply, Named, Visible, SceneIn, RunsAlone, Offer, Reason, After, Removed;
    SceneTells(s, h, dev);
    FirstStep(s, t, inputs, s');
    LookupAlone(s, t, inputs[0], why, h, id, dev);
    var s1 := Apply(s, Moves(t, inputs[0]));
    if dev in s.conns {
      FirstStep(s1, t, inputs[1..], s');
      PushDeviceAlone(s1, t, inputs[1], why, h, id, dev);
      var s2 := Apply(s1, Moves(t, inputs[1]));
      assert inputs[1..][1..] == inputs[2..];
      ClosesFromBrowser(s2, t, why, h, id, dev, inputs[2..], s');
    } else {
      ClosesFromBrowser(s1, t, why, h, id, dev, inputs[1..], s');
    }
  }

  lemma EntryIsLive(s: State, id: string)
    requires ControlOk(s) && id in s.table
    ensures s.table[id] in s.objs && !s.objs[s.table[id]].closed
    ensures Named(s, s.table[id], id, s.objs[s.table[id]].dev) && Visible(s, s.table[id], s.objs[s.table[id]].dev)
  {
    assert TableOk(s) && ObjectOk(s, s.table[id]);
    SceneIsVisible(s, s.table[id], s.objs[s.table[id]].dev);
  }

  /** A close that no other step comes between does in the machine what Broker.Close does, whoever
      calls it: a session in the table is taken out, both sides are offered its end once, and its browser's
      context is cancelled. */
  lemma CloseAlone(s: State, t: Thread, why: Why, id: string, inputs: seq<Input>, s': State)
    requires ControlOk(s) && t in s.pc && s.pc[t] == Closing(Mark(id), why) && id in s.table && s.table[id] in s.objs
    requires RunsAlone(s, t, inputs, s') && |inputs| == if s.objs[s.table[id]].dev in s.conns then 5 else 4
    ensures t in s'.pc && s'.pc[t] == After(why) && s'.conns == s.conns
    ensures var h, dev := s.table[id], s.objs[s.table[id]].dev;
            Visible(s, h, dev) && Visible(s', h, dev) && Named(s', h, id, dev)
            && SceneIn(s', h, dev) == Operations.Closed(SceneIn(s, h, dev), id, Reason(why))
  {
    hide ControlOk, Enabled, Apply, Named, Visible, SceneIn, RunsAlone, Offer, Reason, After, Removed;
    var h, dev := s.table[id], s.objs[s.table[id]].dev;
    EntryIsLive(s, id);
    SceneTells(s, h, dev);
    FirstStep(s, t, inputs, s');
    MarkAlone(s, t, inputs[0], why, h, id, dev);
    ClosesFromLookup(Apply(s, Moves(t, inputs[0])), t, why, h, id, dev, inputs[1..], s');
  }

  // open

  lemma CheckAlone(s: State, h: nat, input: Input, dev: string, kind: string)
    requires B(h) in s.pc && s.pc[B(h)] == AtBrowser(CheckOnline(dev, kind)) && Enabled(s, Moves(B(h), input))
    requires Visible(s, h, dev)
    ensures var s' := Apply(s, Moves(B(h), input));
            Visible(s', h, dev) && s'.conns == s.conns && SceneIn(s', h, dev) == SceneIn(s, h, dev)
            && B(h) in s'.pc
            && s'.pc[B(h)] == AtBrowser(if dev in s.conns then Insert(dev, kind) else Reject("device offline"))
  {
    hide ClosePlan, DevicePlan, CloseReady, DeviceReady, Connect, Take, RecvAfter, FatesAfter, CollectAfter;
    hide LastOutAfter, UsedAfter, Envelopes, PushOf, BadOpen;
  }

  lemma InsertAlone(s: State, h: nat, input: Input, dev: string, kind: string)
    requires B(h) in s.pc && s.pc[B(h)] == AtBrowser(Insert(dev, kind)) && Enabled(s, Moves(B(h), input))
    requires Visible(s, h, dev)
    ensures input.FreshId? && input.id !in s.used
    ensures Leaves(s, B(h), input, AtBrowser(RequestLookup(kind)), h, input.id, dev,
                   SceneIn(s, h, dev).(table := Inserted(s.table, input.id, h)))
  {
    hide ClosePlan, DevicePlan, CloseReady, DeviceReady, Connect, Take, RecvAfter, FatesAfter, CollectAfter;
    hide LastOutAfter, UsedAfter, Envelopes, PushOf, BadOpen;
  }

  lemma RequestLookupAlone(s: State, h: nat, input: Input, id: string, dev: string, kind: string)
    requires B(h) in s.pc && s.pc[B(h)] == AtBrowser(RequestLookup(kind)) && Enabled(s, Moves(B(h), input))
    requires Named(s, h, id, dev) && Visible(s, h, dev) && dev in s.conns
    ensures Leaves(s, B(h), input, AtBrowser(RequestPush(kind, s.conns[dev])), h, id, dev, SceneIn(s, h, dev))
  {
    hide ClosePlan, DevicePlan, CloseReady, DeviceReady, Connect, Take, RecvAfter, FatesAfter, CollectAfter;
    hide LastOutAfter, UsedAfter, Envelopes, PushOf, BadOpen;
  }

  lemma RequestPushAlone(s: State, h: nat, input: Input, id: string, dev: string, kind: string)
    requires B(h) in s.pc && dev in s.conns && s.pc[B(h)] == AtBrowser(RequestPush(kind, s.conns[dev]))
    requires Enabled(s, Moves(B(h), input)) && Named(s, h, id, dev) && Visible(s, h, dev)
    ensures var v := SceneIn(s, h, dev);
            v.device.Some?
            && if HasRoom(v.device.value)
               then Leaves(s, B(h), input, AtBrowser(SayReady), h, id, dev,
                           v.(device := Some(v.device.value + [Envelope(SessionRequest, id, kind)])))
               else Leaves(s, B(h), input, Closing(Mark(id), FailedOpen("device outbound queue full")), h, id, dev, v)
  {
    hide ClosePlan, DevicePlan, CloseReady, DeviceReady, Connect, Take, RecvAfter, FatesAfter, CollectAfter;
    hide LastOutAfter, UsedAfter, Envelopes, BadOpen;
    if Room(s, D(s.conns[dev])) {
      PushSimulated(s, B(h), PlanOf(s, B(h), input).effect, Envelopes(s.q[D(s.conns[dev])].pending));
    }
    hide ChannelsAfter;
  }

  /** How many steps open takes. */
  function OpenSteps<S>(v: Operations.Scene<S>): nat {
    if v.device.None? then 1 else if HasRoom(v.device.value) then 4 else 9
  }

  lemma KeepsControl(s: State, t: Thread, input: Input)
    requires ControlOk(s) && Enabled(s, Moves(t, input))
    ensures ControlOk(Apply(s, Moves(t, input)))
  {
    StepKeepsControl(s, Moves(t, input));
  }

  lemma FreshIsAbsent(s: State, id: string)
    requires ControlOk(s) && id !in s.used
    ensures id !in s.table
  {
    forall id' | id' in s.table ensures id' in s.used {
      assert TableOk(s) && ObjectOk(s, s.table[id']);
    }
  }

  lemma FullStays(queue: seq<Envelope>, env: Envelope)
    requires !HasRoom(queue)
    ensures Offer(queue, env) == queue
  {
  }

  lemma OpenedIsNamed(s: State, h: nat, id: string, dev: string)
    requires Named(s, h, id, dev)
    ensures h in s.objs && s.objs[h].dev == dev
  {
  }

  /** The session is in the table, its request has found the queue full: open closes it again. */
  lemma OpenClosesAgain(s: State, h: nat, id: string, dev: string, table: map<string, nat>,
                        inputs: seq<Input>, s': State)
    requires ControlOk(s) && B(h) in s.pc && s.pc[B(h)] == Closing(Mark(id), FailedOpen("device outbound queue full"))
    requires id !in table && s.table == Inserted(table, id, h)
    requires Named(s, h, id, dev) && Visible(s, h, dev) && dev in s.conns
    requires RunsAlone(s, B(h), inputs, s') && |inputs| == 5 && !HasRoom(SceneIn(s, h, dev).device.value)
    ensures B(h) in s'.pc && s'.pc[B(h)] == AtBrowser(Reject("device outbound queue full"))
    ensures s'.conns == s.conns && Visible(s', h, dev)
    ensures SceneIn(s', h, dev) == Operations.NotOpened(SceneIn(s, h, dev).(table := table), id)
  {
    hide ControlOk, Enabled, Apply, Named, Visible, SceneIn, RunsAlone, Offer, HasRoom;
    assert Removed(Inserted(table, id, h), id) == table && id in s.table && s.table[id] == h;
    SceneTells(s, h, dev);
    OpenedIsNamed(s, h, id, dev);
    CloseAlone(s, B(h), FailedOpen("device outbound queue full"), id, inputs, s');
    FullStays(SceneIn(s, h, dev).device.value, Envelope(SessionEnd, id, "device unreachable"));
    hide Removed, Inserted;
  }

  /** What open has come to: the scene, and where its handler goes on. */
  ghost predicate OpenDone(s': State, h: nat, dev: string, kind: string, id: string, v: Operations.Scene<nat>)
    requires v.device.Some?
  {
    B(h) in s'.pc && Visible(s', h, dev)
    && if HasRoom(v.device.value)
       then SceneIn(s', h, dev) == Operations.Opened(v, id, kind, h) && s'.pc[B(h)] == AtBrowser(SayReady)
       else
         SceneIn(s', h, dev) == Operations.NotOpened(v, id)
         && s'.pc[B(h)] == AtBrowser(Reject("device outbound queue full"))
  }

  lemma OpenFromPush(s: State, h: nat, id: string, dev: string, kind: string, table: map<string, nat>,
                     inputs: seq<Input>, s': State)
    requires ControlOk(s) && B(h) in s.pc && dev in s.conns
    requires s.pc[B(h)] == AtBrowser(RequestPush(kind, s.conns[dev]))
    requires id !in table && s.table == Inserted(table, id, h) && Named(s, h, id, dev) && Visible(s, h, dev)
    requires RunsAlone(s, B(h), inputs, s')
    requires |inputs| == if HasRoom(SceneIn(s, h, dev).device.value) then 1 else 6
    ensures s'.conns == s.conns && OpenDone(s', h, dev, kind, id, SceneIn(s, h, dev).(table := table))
  {
    hide ControlOk, Enabled, Apply, Named, Visible, SceneIn, RunsAlone, HasRoom, Offer;
    SceneTells(s, h, dev);
    FirstStep(s, B(h), inputs, s');
    RequestPushAlone(s, h, inputs[0], id, dev, kind);
    if HasRoom(SceneIn(s, h, dev).device.value) {
      LastStep(s, B(h), inputs, s');
    } else {
      KeepsControl(s, B(h), inputs[0]);
      var s1 := Apply(s, Moves(B(h), inputs[0]));
      SceneTells(s1, h, dev);
      OpenClosesAgain(s1, h, id, dev, table, inputs[1..], s');
    }
  }

  lemma OpenFromLookup(s: State, h: nat, id: string, dev: string, kind: string, table: map<string, nat>,
                       inputs: seq<Input>, s': State)
    requires ControlOk(s) && B(h) in s.pc && dev in s.conns && s.pc[B(h)] == AtBrowser(RequestLookup(kind))
    requires id !in table && s.table == Inserted(table, id, h) && Named(s, h, id, dev) && Visible(s, h, dev)
    requires RunsAlone(s, B(h), inputs, s')
    requires |inputs| == if HasRoom(SceneIn(s, h, dev).device.value) then 2 else 7
    ensures s'.conns == s.conns && OpenDone(s', h, dev, kind, id, SceneIn(s, h, dev).(table := table))
  {
    hide ControlOk, Enabled, Apply, Named, Visible, SceneIn, RunsAlone, HasRoom, Inserted, OpenDone;
    SceneTells(s, h, dev);
    FirstStep(s, B(h), inputs, s');
    RequestLookupAlone(s, h, inputs[0], id, dev, kind);
    KeepsControl(s, B(h), inputs[0]);
    SceneTells(Apply(s, Moves(B(h), inputs[0])), h, dev);
    OpenFromPush(Apply(s, Moves(B(h), inputs[0])), h, id, dev, kind, table, inputs[1..], s');
  }

  lemma OpenFromInsert(s: State, h: nat, dev: string, kind: string, inputs: seq<Input>, s': State)
    requires ControlOk(s) && B(h) in s.pc && s.pc[B(h)] == AtBrowser(Insert(dev, kind))
    requires Visible(s, h, dev) && dev in s.conns
    requires RunsAlone(s, B(h), inputs, s')
    requires |inputs| == if HasRoom(SceneIn(s, h, dev).device.value) then 3 else 8
    ensures inputs[0].FreshId? && inputs[0].id !in s.table
    ensures s'.conns == s.conns && OpenDone(s', h, dev, kind, inputs[0].id, SceneIn(s, h, dev))
  {
    hide ControlOk, Enabled, Apply, Named, Visible, SceneIn, RunsAlone, HasRoom, Inserted, OpenDone;
    var v := SceneIn(s, h, dev);
    SceneTells(s, h, dev);
    assert v.(table := s.table) == v;
    FirstStep(s, B(h), inputs, s');
    InsertAlone(s, h, inputs[0], dev, kind);
    FreshIsAbsent(s, inputs[0].id);
    KeepsControl(s, B(h), inputs[0]);
    SceneTells(Apply(s, Moves(B(h), inputs[0])), h, dev);
    OpenFromLookup(Apply(s, Moves(B(h), inputs[0])), h, inputs[0].id, dev, kind, s.table, inputs[1..], s');
  }

  lemma OpenOnline(s: State, h: nat, dev: string, kind: string, inputs: seq<Input>, s': State)
    requires ControlOk(s) && B(h) in s.pc && s.pc[B(h)] == AtBrowser(CheckOnline(dev, kind)) && Visible(s, h, dev)
    requires dev in s.conns && RunsAlone(s, B(h), inputs, s')
    requires |inputs| == if HasRoom(SceneIn(s, h, dev).device.value) then 4 else 9
    ensures inputs[1].FreshId? && inputs[1].id !in s.table
    ensures s'.conns == s.conns && OpenDone(s', h, dev, kind, inputs[1].id, SceneIn(s, h, dev))
  {
    hide ControlOk, Enabled, Apply, Visible, SceneIn, RunsAlone, HasRoom, OpenDone;
    SceneTells(s, h, dev);
    FirstStep(s, B(h), inputs, s');
    CheckAlone(s, h, inputs[0], dev, kind);
    KeepsControl(s, B(h), inputs[0]);
    SceneTells(Apply(s, Moves(B(h), inputs[0])), h, dev);
    OpenFromInsert(Apply(s, Moves(B(h), inputs[0])), h, dev, kind, inputs[1..], s');
  }

  /** An open that no other step comes between does in the machine what Broker.Open does: nothing when
      the device is offline, the session and its request when there is room, and neither, but the
      browser's end and its cancelled context, when the queue is full. */
  lemma OpenAlone(s: State, h: nat, dev: string, kind: string, inputs: seq<Input>, s': State)
    requires ControlOk(s) && B(h) in s.pc && s.pc[B(h)] == AtBrowser(CheckOnline(dev, kind)) && Visible(s, h, dev)
    requires RunsAlone(s, B(h), inputs, s') && |inputs| == OpenSteps(SceneIn(s, h, dev))
    ensures B(h) in s'.pc && s'.conns == s.conns && Visible(s', h, dev)
    ensures dev in s.conns ==> inputs[1].FreshId? && inputs[1].id !in s.table
    ensures var v, v' := SceneIn(s, h, dev), SceneIn(s', h, dev);
            var error := Operations.OpenError(v);
            s'.pc[B(h)] == AtBrowser(if error.None? then SayReady else Reject(error.value))
            && v' == (if error.None? then Operations.Opened(v, inputs[1].id, kind, h)
                      else Operations.NotOpened(v, if dev in s.conns then inputs[1].id else ""))
  {
    hide ControlOk, Enabled, Apply, Visible, SceneIn, RunsAlone, HasRoom;
    SceneTells(s, h, dev);
    if dev in s.conns {
      OpenOnline(s, h, dev, kind, inputs, s');
    } else {
      LastStep(s, B(h), inputs, s');
      CheckAlone(s, h, inputs[0], dev, kind);
    }
  }

  // ---- Whole operations of the objects ----

  /** A scene of the objects with every session replaced by its number. */
  function NumberedScene<P>(v: Operations.Scene<P>, number: P -> nat): Operations.Scene<nat> {
    Operations.Scene(Numbered(v.table, number), v.device, v.browser, v.cancelled)
  }

  lemma ClosedNumbered<P>(v: Operations.Scene<P>, number: P -> nat, id: string, reason: string)
    ensures Operations.Closed(NumberedScene(v, number), id, reason)
            == NumberedScene(Operations.Closed(v, id, reason), number)
  {
    assert Removed(Numbered(v.table, number), id) == Numbered(Removed(v.table, id), number);
  }

  lemma OpenedNumbered<P>(v: Operations.Scene<P>, number: P -> nat, id: string, kind: string, p: P)
    requires Operations.OpenError(v).None?
    ensures Operations.Opened(NumberedScene(v, number), id, kind, number(p))
            == NumberedScene(Operations.Opened(v, id, kind, p), number)
  {
    assert Inserted(Numbered(v.table, number), id, number(p)) == Numbered(Inserted(v.table, id, p), number);
  }

  /** If the machine shows the objects' scene before a close that no other step comes between, it
      shows the scene that Broker.Close leaves after it. */
  lemma CloseSimulated<P>(s: State, t: Thread, why: Why, id: string, inputs: seq<Input>, s': State,
                          v: Operations.Scene<P>, number: P -> nat)
    requires ControlOk(s) && t in s.pc && s.pc[t] == Closing(Mark(id), why) && id in s.table && s.table[id] in s.objs
    requires RunsAlone(s, t, inputs, s') && |inputs| == if s.objs[s.table[id]].dev in s.conns then 5 else 4
    requires Visible(s, s.table[id], s.objs[s.table[id]].dev)
    requires SceneIn(s, s.table[id], s.objs[s.table[id]].dev) == NumberedScene(v, number)
    ensures t in s'.pc && s'.pc[t] == After(why) && Visible(s', s.table[id], s.objs[s.table[id]].dev)
    ensures SceneIn(s', s.table[id], s.objs[s.table[id]].dev)
            == NumberedScene(Operations.Closed(v, id, Reason(why)), number)
  {
    hide *;
    CloseAlone(s, t, why, id, inputs, s');
    ClosedNumbered(v, number, id, Reason(why));
  }

  /** Likewise for an open and the scene and the error that Broker.Open leaves, the new session being
      numbered by its handler. */
  lemma OpenSimulated<P>(s: State, h: nat, dev: string, kind: string, inputs: seq<Input>, s': State,
                         v: Operations.Scene<P>, number: P -> nat, p: P)
    requires ControlOk(s) && B(h) in s.pc && s.pc[B(h)] == AtBrowser(CheckOnline(dev, kind)) && Visible(s, h, dev)
    requires RunsAlone(s, B(h), inputs, s') && |inputs| == OpenSteps(v)
    requires SceneIn(s, h, dev) == NumberedScene(v, number) && number(p) == h
    ensures B(h) in s'.pc && Visible(s', h, dev) && (v.device.Some? ==> inputs[1].FreshId? && inputs[1].id !in v.table)
    ensures s'.pc[B(h)]
            == AtBrowser(if Operations.OpenError(v).None? then SayReady else Reject(Operations.OpenError(v).value))
    ensures SceneIn(s', h, dev)
            == NumberedScene(if Operations.OpenError(v).None? then Operations.Opened(v, inputs[1].id, kind, p)
                             else Operations.NotOpened(v, if v.device.Some? then inputs[1].id else ""), number)
  {
    hide ControlOk, Visible, SceneIn, RunsAlone, HasRoom;
    SceneTells(s, h, dev);
    OpenAlone(s, h, dev, kind, inputs, s');
    if Operations.OpenError(v).None? {
      OpenedNumbered(v, number, inputs[1].id, kind, p);
    }
  }
}
