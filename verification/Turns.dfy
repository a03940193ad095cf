/** One turn of a handler's loop, taken alone: what a message, an end or a failed read comes to, in the
    machine and so in the objects. */
module Turns {
  import opened Wire
  import opened Regions
  import opened Machine
  import opened Control
  import opened RoutingTheorems
  import opened Simulation
  import Operations

  // ---- Single steps ----

  lemma FwdGetAlone(s: State, h: nat, input: Input, env: Envelope, id: string, dev: string)
    requires B(h) in s.pc && s.pc[B(h)] == AtBrowser(FwdGet(env)) && Enabled(s, Moves(B(h), input))
    requires Named(s, h, id, dev) && Visible(s, h, dev) && (id in s.table ==> s.table[id] == h)
    ensures Leaves(s, B(h), input,
                   if id in s.table then AtBrowser(FwdLookup(env, h, s.now))
                   else if env.kind == SessionEnd then Closing(Mark(id), BrowserGone) else AtBrowser(Loop),
                   h, id, dev, SceneIn(s, h, dev))
  {
    hide ClosePlan, DevicePlan, CloseReady, DeviceReady, Connect, Take, RecvAfter, FatesAfter, CollectAfter;
    hide LastOutAfter, UsedAfter, Envelopes, PushOf, BadOpen;
  }

  lemma FwdLookupAlone(s: State, h: nat, input: Input, env: Envelope, g: nat, id: string, dev: string)
    requires B(h) in s.pc && s.pc[B(h)] == AtBrowser(FwdLookup(env, h, g)) && Enabled(s, Moves(B(h), input))
    requires Named(s, h, id, dev) && Visible(s, h, dev)
    ensures Leaves(s, B(h), input,
                   if dev in s.conns then AtBrowser(FwdPush(env, s.conns[dev], g))
                   else if env.kind == SessionEnd then Closing(Mark(id), BrowserGone) else AtBrowser(Loop),
                   h, id, dev, SceneIn(s, h, dev))
  {
    hide ClosePlan, DevicePlan, CloseReady, DeviceReady, Connect, Take, RecvAfter, FatesAfter, CollectAfter;
    hide LastOutAfter, UsedAfter, Envelopes, PushOf, BadOpen;
  }

  lemma FwdPushAlone(s: State, h: nat, input: Input, env: Envelope, g: nat, id: string, dev: string)
    requires B(h) in s.pc && dev in s.conns && s.pc[B(h)] == AtBrowser(FwdPush(env, s.conns[dev], g))
    requires Enabled(s, Moves(B(h), input)) && Named(s, h, id, dev) && Visible(s, h, dev)
    ensures var v := SceneIn(s, h, dev);
            v.device.Some?
            && Leaves(s, B(h), input,
                      if env.kind == SessionEnd then Closing(Mark(id), BrowserGone) else AtBrowser(Loop),
                      h, id, dev, v.(device := Some(Offer(v.device.value, Envelope(env.kind, id, env.data)))))
  {
    hide ClosePlan, DevicePlan, CloseReady, DeviceReady, Connect, Take, RecvAfter, FatesAfter, CollectAfter;
    hide LastOutAfter, UsedAfter, Envelopes, BadOpen;
    PushSimulated(s, B(h), PlanOf(s, B(h), input).effect, Envelopes(s.q[D(s.conns[dev])].pending));
    hide ChannelsAfter;
  }

  lemma RelayGetAlone(s: State, c: nat, input: Input, env: Envelope, h: nat, dev: string)
    requires D(c) in s.pc && s.pc[D(c)] == AtDevice(RelayGet(env)) && Enabled(s, Moves(D(c), input))
    requires env.sid in s.table && s.table[env.sid] == h && Named(s, h, env.sid, dev) && Visible(s, h, dev)
    requires c in s.cdev && s.cdev[c] == dev
    ensures Leaves(s, D(c), input, AtDevice(RelayPush(env, h, s.now)), h, env.sid, dev, SceneIn(s, h, dev))
  {
    hide ClosePlan, BrowserPlan, CloseReady, BrowserReady, Connect, Take, RecvAfter, FatesAfter, CollectAfter;
    hide LastOutAfter, UsedAfter, Envelopes, PushOf, IdsOf;
  }

  lemma RelayPushAlone(s: State, c: nat, input: Input, env: Envelope, h: nat, g: nat, dev: string)
    requires D(c) in s.pc && s.pc[D(c)] == AtDevice(RelayPush(env, h, g)) && Enabled(s, Moves(D(c), input))
    requires Named(s, h, env.sid, dev) && Visible(s, h, dev)
    ensures var v := SceneIn(s, h, dev);
            Leaves(s, D(c), input,
                   if env.kind == SessionEnd then Closing(Mark(env.sid), DeviceEnded) else AtDevice(Serve),
                   h, env.sid, dev, v.(browser := Offer(v.browser, env)))
  {
    hide ClosePlan, BrowserPlan, CloseReady, BrowserReady, Connect, Take, RecvAfter, FatesAfter, CollectAfter;
    hide LastOutAfter, UsedAfter, Envelopes, IdsOf;
    PushSimulated(s, D(c), PlanOf(s, D(c), input).effect, Envelopes(s.q[B(h)].pending));
    hide ChannelsAfter;
  }

  /** What the browser's read loop comes to: an answer, a candidate or an end is handed on, a failed read ends
      the session, the rest is nothing. */
  lemma LoopAlone(s: State, h: nat, input: Input, id: string, dev: string)
    requires B(h) in s.pc && s.pc[B(h)] == AtBrowser(Loop) && Enabled(s, Moves(B(h), input))
    requires Named(s, h, id, dev) && Visible(s, h, dev)
    ensures input.ReadError? || input.Message?
    ensures Leaves(s, B(h), input,
                   if input.ReadError? then Closing(Mark(id), BrowserGone)
                   else if ToBeForwarded(B(h), input.env) then AtBrowser(FwdGet(input.env)) else AtBrowser(Loop),
                   h, id, dev, SceneIn(s, h, dev))
  {
    hide ClosePlan, DevicePlan, CloseReady, DeviceReady, Connect, Take, FatesAfter, CollectAfter;
    hide LastOutAfter, UsedAfter, Envelopes, PushOf, BadOpen;
  }

  /** What the device's read loop comes to, for any session whatever. */
  lemma ServeAlone(s: State, c: nat, input: Input, h: nat, id: string, dev: string)
    requires D(c) in s.pc && s.pc[D(c)] == AtDevice(Serve) && Enabled(s, Moves(D(c), input))
    requires Named(s, h, id, dev) && Visible(s, h, dev)
    ensures input.ReadError? || input.Message?
    ensures Leaves(s, D(c), input,
                   AtDevice(if input.ReadError? then CollectIds
                            else if input.env.kind == Ping then SayPong
                            else if ToBeForwarded(D(c), input.env) then RelayGet(input.env) else Serve),
                   h, id, dev, SceneIn(s, h, dev))
  {
    hide ClosePlan, BrowserPlan, CloseReady, BrowserReady, Connect, Take, FatesAfter, CollectAfter;
    hide LastOutAfter, UsedAfter, Envelopes, PushOf, IdsOf;
  }

  lemma RelayGetsNothing(s: State, c: nat, input: Input, env: Envelope, h: nat, id: string, dev: string)
    requires D(c) in s.pc && s.pc[D(c)] == AtDevice(RelayGet(env)) && Enabled(s, Moves(D(c), input))
    requires Named(s, h, id, dev) && Visible(s, h, dev) && c in s.cdev
    requires env.sid in s.table && s.table[env.sid] in s.objs ==> s.objs[s.table[env.sid]].dev != s.cdev[c]
    ensures Leaves(s, D(c), input, AtDevice(Serve), h, id, dev, SceneIn(s, h, dev))
  {
    hide ClosePlan, BrowserPlan, CloseReady, BrowserReady, Connect, Take, RecvAfter, CollectAfter;
    hide LastOutAfter, UsedAfter, Envelopes, PushOf, IdsOf;
  }

  lemma EndNextAlone(s: State, c: nat, input: Input, todo: set<string>, h: nat, id: string, dev: string)
    requires D(c) in s.pc && s.pc[D(c)] == AtDevice(EndNext(todo)) && Enabled(s, Moves(D(c), input))
    requires Named(s, h, id, dev) && Visible(s, h, dev) && input == NextId(id)
    ensures id in todo
    ensures Leaves(s, D(c), input, Closing(Mark(id), DeviceGone(todo - {id})), h, id, dev, SceneIn(s, h, dev))
  {
    hide ClosePlan, BrowserPlan, CloseReady, BrowserReady, Connect, Take, RecvAfter, FatesAfter, CollectAfter;
    hide LastOutAfter, UsedAfter, Envelopes, PushOf, IdsOf;
  }

  lemma MarkGoneAlone(s: State, t: Thread, input: Input, why: Why, h: nat, id: string, dev: string)
    requires t in s.pc && s.pc[t] == Closing(Mark(id), why) && Enabled(s, Moves(t, input)) && id !in s.table
    requires Named(s, h, id, dev) && Visible(s, h, dev)
    ensures Leaves(s, t, input, After(why), h, id, dev, SceneIn(s, h, dev))
  {
    hide BrowserPlan, DevicePlan, BrowserReady, DeviceReady, Connect, Take, RecvAfter, FatesAfter, CollectAfter;
    hide LastOutAfter, UsedAfter, Envelopes, PushOf;
  }

  // ---- Runs of one thread ----

  lemma {:induction false} SplitRun(s: State, t: Thread, inputs: seq<Input>, n: nat, s': State) returns (m: State)
    requires RunsAlone(s, t, inputs, s') && n <= |inputs|
    ensures RunsAlone(s, t, inputs[..n], m) && RunsAlone(m, t, inputs[n..], s')
    decreases n
  {
    hide Enabled, Apply;
    if n == 0 {
      m := s;
      assert inputs[0..] == inputs;
    } else {
      m := SplitRun(Apply(s, Moves(t, inputs[0])), t, inputs[1..], n - 1, s');
      assert inputs[..n][1..] == inputs[1..][..n - 1] && inputs[1..][n - 1..] == inputs[n..];
    }
  }

  lemma {:induction false} RunKeepsControl(s: State, t: Thread, inputs: seq<Input>, s': State)
    requires ControlOk(s) && RunsAlone(s, t, inputs, s')
    ensures ControlOk(s')
    decreases |inputs|
  {
    hide Enabled, Apply, ControlOk;
    if inputs != [] {
      KeepsControl(s, t, inputs[0]);
      RunKeepsControl(Apply(s, Moves(t, inputs[0])), t, inputs[1..], s');
    }
  }

  lemma OwnEntry(s: State, h: nat, id: string, dev: string)
    requires ControlOk(s) && Named(s, h, id, dev)
    ensures id in s.table ==> s.table[id] == h
  {
    if id in s.table {
      assert TableOk(s) && IdsDiffer(s);
    }
  }

  // ---- Whole operations ----

  /** How many steps a close takes, and a forward. */
  function CloseSteps<S>(v: Operations.Scene<S>, id: string): nat {
    if id !in v.table then 1 else if v.device.None? then 4 else 5
  }

  function ForwardSteps<S>(v: Operations.Scene<S>, id: string): nat {
    if id !in v.table then 1 else if v.device.None? then 2 else 3
  }

  /** A close for any reason, of a session that may be closed already. */
  lemma ClosesAlone(s: State, t: Thread, why: Why, h: nat, id: string, dev: string, inputs: seq<Input>, s': State)
    requires ControlOk(s) && t in s.pc && s.pc[t] == Closing(Mark(id), why)
    requires Named(s, h, id, dev) && Visible(s, h, dev)
    requires RunsAlone(s, t, inputs, s') && |inputs| == CloseSteps(SceneIn(s, h, dev), id)
    ensures t in s'.pc && s'.pc[t] == After(why) && Named(s', h, id, dev) && Visible(s', h, dev)
    ensures SceneIn(s', h, dev) == Operations.ClosedIfOpen(SceneIn(s, h, dev), id, Reason(why))
  {
    SceneTells(s, h, dev);
    OpenedIsNamed(s, h, id, dev);
    hide ControlOk, Enabled, Apply, Named, Visible, SceneIn, RunsAlone, Operations.Closed, Reason, After;
    OwnEntry(s, h, id, dev);
    if id in s.table {
      CloseAlone(s, t, why, id, inputs, s');
    } else {
      LastStep(s, t, inputs, s');
      MarkGoneAlone(s, t, inputs[0], why, h, id, dev);
    }
  }

  lemma ForwardsFromPush(s: State, h: nat, env: Envelope, g: nat, id: string, dev: string,
                         inputs: seq<Input>, s': State)
    requires ControlOk(s) && B(h) in s.pc && Named(s, h, id, dev) && Visible(s, h, dev) && id in s.table
    requires s.pc[B(h)] == AtBrowser(FwdLookup(env, h, g))
    requires RunsAlone(s, B(h), inputs, s') && |inputs| == if dev in s.conns then 2 else 1
    ensures B(h) in s'.pc && Named(s', h, id, dev) && Visible(s', h, dev)
    ensures s'.pc[B(h)] == if env.kind == SessionEnd then Closing(Mark(id), BrowserGone) else AtBrowser(Loop)
    ensures SceneIn(s', h, dev) == Operations.Forwarded(SceneIn(s, h, dev), id, env)
  {
    hide ControlOk, Enabled, Apply, Named, Visible, SceneIn, RunsAlone, Offer;
    SceneTells(s, h, dev);
    FirstStep(s, B(h), inputs, s');
    FwdLookupAlone(s, h, inputs[0], env, g, id, dev);
    if dev in s.conns {
      var s1 := Apply(s, Moves(B(h), inputs[0]));
      LastStep(s1, B(h), inputs[1..], s');
      FwdPushAlone(s1, h, inputs[1], env, g, id, dev);
    } else {
      LastStep(s, B(h), inputs, s');
    }
  }

  /** fromBrowser, with what the read loop does after it. */
  lemma ForwardsAlone(s: State, h: nat, env: Envelope, id: string, dev: string, inputs: seq<Input>, s': State)
    requires ControlOk(s) && B(h) in s.pc && Named(s, h, id, dev) && Visible(s, h, dev)
    requires s.pc[B(h)] == AtBrowser(FwdGet(env))
    requires RunsAlone(s, B(h), inputs, s') && |inputs| == ForwardSteps(SceneIn(s, h, dev), id)
    ensures B(h) in s'.pc && Named(s', h, id, dev) && Visible(s', h, dev)
    ensures s'.pc[B(h)] == if env.kind == SessionEnd then Closing(Mark(id), BrowserGone) else AtBrowser(Loop)
    ensures SceneIn(s', h, dev) == Operations.Forwarded(SceneIn(s, h, dev), id, env)
  {
    hide ControlOk, Enabled, Apply, Named, Visible, SceneIn, RunsAlone, Offer;
    SceneTells(s, h, dev);
    OwnEntry(s, h, id, dev);
    FirstStep(s, B(h), inputs, s');
    FwdGetAlone(s, h, inputs[0], env, id, dev);
    if id in s.table {
      var s1 := Apply(s, Moves(B(h), inputs[0]));
      KeepsControl(s, B(h), inputs[0]);
      SceneTells(s1, h, dev);
      ForwardsFromPush(s1, h, env, s.now, id, dev, inputs[1..], s');
    } else {
      LastStep(s, B(h), inputs, s');
    }
  }

  /** Closing for a browser that is gone, or after its session.end. */
  lemma BrowserClosesAlone(s: State, h: nat, id: string, dev: string, inputs: seq<Input>, s': State)
    requires ControlOk(s) && B(h) in s.pc && s.pc[B(h)] == Closing(Mark(id), BrowserGone)
    requires Named(s, h, id, dev) && Visible(s, h, dev)
    requires RunsAlone(s, B(h), inputs, s') && |inputs| == CloseSteps(SceneIn(s, h, dev), id)
    ensures B(h) in s'.pc && s'.pc[B(h)] == AtBrowser(Leaving) && Visible(s', h, dev)
    ensures SceneIn(s', h, dev) == Operations.ClosedIfOpen(SceneIn(s, h, dev), id, "browser closed")
  {
    assert Reason(BrowserGone) == "browser closed" && After(BrowserGone) == AtBrowser(Leaving);
    hide *;
    ClosesAlone(s, B(h), BrowserGone, h, id, dev, inputs, s');
  }

  // ---- Turns of the browser's loop ----

  predicate EndsLoop(input: Input) {
    input.ReadError? || (input.Message? && input.env.kind == SessionEnd)
  }

  /** What a turn makes of the scene. */
  function AfterBrowserTurn<S>(v: Operations.Scene<S>, id: string, input: Input): Operations.Scene<S> {
    if input.ReadError? then Operations.ClosedIfOpen(v, id, "browser closed")
    else if input.Message? && ToBeForwarded(B(0), input.env) then
      var w := Operations.Forwarded(v, id, input.env);
      if input.env.kind == SessionEnd then Operations.ClosedIfOpen(w, id, "browser closed") else w
    else v
  }

  function BrowserTurnSteps<S>(v: Operations.Scene<S>, id: string, input: Input): nat {
    if input.ReadError? then 1 + CloseSteps(v, id)
    else if input.Message? && ToBeForwarded(B(0), input.env) then
      1 + ForwardSteps(v, id)
      + if input.env.kind == SessionEnd then CloseSteps(Operations.Forwarded(v, id, input.env), id) else 0
    else 1
  }

  lemma ForwardTurn(s: State, h: nat, env: Envelope, id: string, dev: string, inputs: seq<Input>, s': State)
    requires ControlOk(s) && B(h) in s.pc && Named(s, h, id, dev) && Visible(s, h, dev)
    requires s.pc[B(h)] == AtBrowser(FwdGet(env)) && RunsAlone(s, B(h), inputs, s') && env.kind == SessionEnd
    requires |inputs| == ForwardSteps(SceneIn(s, h, dev), id)
                         + CloseSteps(Operations.Forwarded(SceneIn(s, h, dev), id, env), id)
    ensures B(h) in s'.pc && s'.pc[B(h)] == AtBrowser(Leaving) && Visible(s', h, dev)
    ensures SceneIn(s', h, dev)
            == Operations.ClosedIfOpen(Operations.Forwarded(SceneIn(s, h, dev), id, env), id, "browser closed")
  {
    hide *;
    var n := ForwardSteps(SceneIn(s, h, dev), id);
    var m := SplitRun(s, B(h), inputs, n, s');
    ForwardsAlone(s, h, env, id, dev, inputs[..n], m);
    RunKeepsControl(s, B(h), inputs[..n], m);
    BrowserClosesAlone(m, h, id, dev, inputs[n..], s');
  }

  /** A turn of the browser's read loop that no other step comes between: an answer, a candidate or an end
      goes to the device under the session's id; an end, or a failed read, then closes the session, whose
      sides are told "browser closed", and the handler leaves; anything else does nothing. */
  lemma BrowserTurn(s: State, h: nat, id: string, dev: string, inputs: seq<Input>, s': State)
    requires ControlOk(s) && B(h) in s.pc && s.pc[B(h)] == AtBrowser(Loop) && Named(s, h, id, dev) && Visible(s, h, dev)
    requires RunsAlone(s, B(h), inputs, s') && inputs != []
    requires |inputs| == BrowserTurnSteps(SceneIn(s, h, dev), id, inputs[0])
    ensures inputs[0].ReadError? || inputs[0].Message?
    ensures B(h) in s'.pc && s'.pc[B(h)] == AtBrowser(if EndsLoop(inputs[0]) then Leaving else Loop)
    ensures Visible(s', h, dev) && SceneIn(s', h, dev) == AfterBrowserTurn(SceneIn(s, h, dev), id, inputs[0])
  {
    hide ControlOk, Enabled, Apply, Named, Visible, SceneIn, RunsAlone, Operations.ClosedIfOpen, Operations.Forwarded;
    hide CloseSteps, ForwardSteps;
    FirstStep(s, B(h), inputs, s');
    LoopAlone(s, h, inputs[0], id, dev);
    KeepsControl(s, B(h), inputs[0]);
    var s1 := Apply(s, Moves(B(h), inputs[0]));
    if inputs[0].ReadError? {
      BrowserClosesAlone(s1, h, id, dev, inputs[1..], s');
    } else if ToBeForwarded(B(h), inputs[0].env) {
      if inputs[0].env.kind == SessionEnd {
        ForwardTurn(s1, h, inputs[0].env, id, dev, inputs[1..], s');
      } else {
        ForwardsAlone(s1, h, inputs[0].env, id, dev, inputs[1..], s');
      }
    } else {
      LastStep(s, B(h), inputs, s');
    }
  }

  // ---- Turns of the device's loops ----

  lemma DeviceClosesAlone(s: State, c: nat, why: Why, h: nat, id: string, dev: string, inputs: seq<Input>, s': State)
    requires ControlOk(s) && D(c) in s.pc && s.pc[D(c)] == Closing(Mark(id), why) && why.DeviceEnded?
    requires Named(s, h, id, dev) && Visible(s, h, dev)
    requires RunsAlone(s, D(c), inputs, s') && |inputs| == CloseSteps(SceneIn(s, h, dev), id)
    ensures D(c) in s'.pc && s'.pc[D(c)] == AtDevice(Serve) && Visible(s', h, dev)
    ensures SceneIn(s', h, dev) == Operations.ClosedIfOpen(SceneIn(s, h, dev), id, "device ended session")
  {
    assert Reason(why) == "device ended session" && After(why) == AtDevice(Serve);
    hide *;
    ClosesAlone(s, D(c), why, h, id, dev, inputs, s');
  }

  /** fromDevice for a session of the connection's device, in the table: the browser is offered the
      envelope, and a session.end then closes the session, whose sides are told "device ended session";
      the connection reads on. */
  lemma RelaysAlone(s: State, c: nat, env: Envelope, h: nat, dev: string, inputs: seq<Input>, s': State)
    requires ControlOk(s) && D(c) in s.pc && s.pc[D(c)] == AtDevice(RelayGet(env)) && c in s.cdev && s.cdev[c] == dev
    requires env.sid in s.table && s.table[env.sid] == h && Named(s, h, env.sid, dev) && Visible(s, h, dev)
    requires RunsAlone(s, D(c), inputs, s')
    requires |inputs| == 2 + if env.kind == SessionEnd then CloseSteps(SceneIn(s, h, dev), env.sid) else 0
    ensures D(c) in s'.pc && s'.pc[D(c)] == AtDevice(Serve) && Visible(s', h, dev)
    ensures SceneIn(s', h, dev) == Operations.Relayed(SceneIn(s, h, dev), env)
  {
    hide ControlOk, Enabled, Apply, Named, Visible, SceneIn, RunsAlone, Operations.ClosedIfOpen, Offer;
    FirstStep(s, D(c), inputs, s');
    RelayGetAlone(s, c, inputs[0], env, h, dev);
    KeepsControl(s, D(c), inputs[0]);
    var s1 := Apply(s, Moves(D(c), inputs[0]));
    FirstStep(s1, D(c), inputs[1..], s');
    RelayPushAlone(s1, c, inputs[1], env, h, s.now, dev);
    KeepsControl(s1, D(c), inputs[1]);
    var s2 := Apply(s1, Moves(D(c), inputs[1]));
    assert inputs[1..][1..] == inputs[2..];
    if env.kind == SessionEnd {
      DeviceClosesAlone(s2, c, DeviceEnded, h, env.sid, dev, inputs[2..], s');
    } else {
      LastStep(s1, D(c), inputs[1..], s');
    }
  }

  /** One id of closeByDevice: the session is closed, if it is still there, its sides are told
      "device disconnected", and the connection goes on with the other ids. */
  lemma EndsNextAlone(s: State, c: nat, todo: set<string>, h: nat, id: string, dev: string,
                      inputs: seq<Input>, s': State)
    requires ControlOk(s) && D(c) in s.pc && s.pc[D(c)] == AtDevice(EndNext(todo))
    requires Named(s, h, id, dev) && Visible(s, h, dev)
    requires RunsAlone(s, D(c), inputs, s') && |inputs| == 1 + CloseSteps(SceneIn(s, h, dev), id)
    requires inputs[0] == NextId(id)
    ensures id in todo && D(c) in s'.pc && s'.pc[D(c)] == AtDevice(EndNext(todo - {id})) && Visible(s', h, dev)
    ensures SceneIn(s', h, dev) == Operations.ClosedIfOpen(SceneIn(s, h, dev), id, "device disconnected")
  {
    hide *;
    FirstStep(s, D(c), inputs, s');
    var s1 := EndsNextStep(s, c, inputs[0], todo, h, id, dev);
    GoneClosesAlone(s1, c, todo - {id}, h, id, dev, inputs[1..], s');
  }

  lemma EndsNextStep(s: State, c: nat, input: Input, todo: set<string>, h: nat, id: string, dev: string)
    returns (s1: State)
    requires ControlOk(s) && D(c) in s.pc && s.pc[D(c)] == AtDevice(EndNext(todo)) && Enabled(s, Moves(D(c), input))
    requires Named(s, h, id, dev) && Visible(s, h, dev) && input == NextId(id)
    ensures s1 == Apply(s, Moves(D(c), input)) && ControlOk(s1) && id in todo
    ensures D(c) in s1.pc && s1.pc[D(c)] == Closing(Mark(id), DeviceGone(todo - {id}))
    ensures Named(s1, h, id, dev) && Visible(s1, h, dev) && SceneIn(s1, h, dev) == SceneIn(s, h, dev)
  {
    hide ControlOk, Enabled, Apply, Named, Visible, SceneIn;
    EndNextAlone(s, c, input, todo, h, id, dev);
    KeepsControl(s, D(c), input);
    s1 := Apply(s, Moves(D(c), input));
  }

  lemma GoneClosesAlone(s: State, c: nat, todo: set<string>, h: nat, id: string, dev: string,
                        inputs: seq<Input>, s': State)
    requires ControlOk(s) && D(c) in s.pc && s.pc[D(c)] == Closing(Mark(id), DeviceGone(todo))
    requires Named(s, h, id, dev) && Visible(s, h, dev)
    requires RunsAlone(s, D(c), inputs, s') && |inputs| == CloseSteps(SceneIn(s, h, dev), id)
    ensures D(c) in s'.pc && s'.pc[D(c)] == AtDevice(EndNext(todo)) && Visible(s', h, dev)
    ensures SceneIn(s', h, dev) == Operations.ClosedIfOpen(SceneIn(s, h, dev), id, "device disconnected")
  {
    var why := DeviceGone(todo);
    assert Reason(why) == "device disconnected" && After(why) == AtDevice(EndNext(todo));
    hide *;
    ClosesAlone(s, D(c), why, h, id, dev, inputs, s');
  }

  // ---- And so in the objects ----

  lemma ForwardedNumbered<P>(v: Operations.Scene<P>, number: P -> nat, id: string, env: Envelope)
    ensures Operations.Forwarded(NumberedScene(v, number), id, env)
            == NumberedScene(Operations.Forwarded(v, id, env), number)
  {
  }

  lemma ClosedIfOpenNumbered<P>(v: Operations.Scene<P>, number: P -> nat, id: string, reason: string)
    ensures Operations.ClosedIfOpen(NumberedScene(v, number), id, reason)
            == NumberedScene(Operations.ClosedIfOpen(v, id, reason), number)
  {
    ClosedNumbered(v, number, id, reason);
  }

  lemma RelayedNumbered<P>(v: Operations.Scene<P>, number: P -> nat, env: Envelope)
    ensures Operations.Relayed(NumberedScene(v, number), env) == NumberedScene(Operations.Relayed(v, env), number)
  {
    var offered := v.(browser := Offer(v.browser, env));
    assert NumberedScene(offered, number) == NumberedScene(v, number).(browser := Offer(v.browser, env));
    ClosedIfOpenNumbered(offered, number, env.sid, "device ended session");
  }

  /** If the machine shows the objects' scene before a fromBrowser that no other step comes between, it
      shows the scene that Broker.FromBrowser leaves after it. */
  lemma FromBrowserSimulated<P>(s: State, h: nat, env: Envelope, id: string, dev: string, inputs: seq<Input>, s': State,
                                v: Operations.Scene<P>, number: P -> nat)
    requires ControlOk(s) && B(h) in s.pc && s.pc[B(h)] == AtBrowser(FwdGet(env))
    requires Named(s, h, id, dev) && Visible(s, h, dev) && SceneIn(s, h, dev) == NumberedScene(v, number)
    requires RunsAlone(s, B(h), inputs, s') && |inputs| == ForwardSteps(SceneIn(s, h, dev), id)
    ensures Visible(s', h, dev) && SceneIn(s', h, dev) == NumberedScene(Operations.Forwarded(v, id, env), number)
  {
    hide *;
    ForwardsAlone(s, h, env, id, dev, inputs, s');
    ForwardedNumbered(v, number, id, env);
  }

  /** Likewise for fromDevice and Broker.FromDevice, the close after a session.end included. */
  lemma FromDeviceSimulated<P>(s: State, c: nat, env: Envelope, h: nat, dev: string, inputs: seq<Input>, s': State,
                               v: Operations.Scene<P>, number: P -> nat)
    requires ControlOk(s) && D(c) in s.pc && s.pc[D(c)] == AtDevice(RelayGet(env)) && c in s.cdev && s.cdev[c] == dev
    requires env.sid in s.table && s.table[env.sid] == h && Named(s, h, env.sid, dev) && Visible(s, h, dev)
    requires SceneIn(s, h, dev) == NumberedScene(v, number) && RunsAlone(s, D(c), inputs, s')
    requires |inputs| == 2 + if env.kind == SessionEnd then CloseSteps(SceneIn(s, h, dev), env.sid) else 0
    ensures D(c) in s'.pc && s'.pc[D(c)] == AtDevice(Serve)
    ensures Visible(s', h, dev) && SceneIn(s', h, dev) == NumberedScene(Operations.Relayed(v, env), number)
  {
    hide *;
    RelaysAlone(s, c, env, h, dev, inputs, s');
    RelayedNumbered(v, number, env);
  }
}
