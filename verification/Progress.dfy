/** No step of the machine is held back by anything but what the source waits for. */
module Progress {
  import opened Machine
  import opened Control
  import opened Runs

  /** What a thread waits for at this point: nothing, a message from outside, room on its own
      queue, its writer to exit, or for ever. */
  datatype Waits = ForNothing | ForInput | ForRoom | ForWriter | ForEver

  function WaitsFor(p: PC): Waits {
    match p
    case AtBrowser(b) =>
      if b.Start? || b.Loop? || b.Insert? then ForInput
      else if b.Reject? || b.SayReady? then ForRoom
      else if b.Leaving? then ForWriter
      else if b.Gone? then ForEver
      else ForNothing
    case AtDevice(d) =>
      if d.Serve? then ForInput
      else if d.SayHello? || d.SayPong? then ForRoom
      else if d.CollectIds? then ForWriter
      else if d.Off? then ForEver
      else if d.EndNext? && d.todo != {} then ForInput
      else ForNothing
    case Closing(_, _) => ForNothing
  }

  /** The inputs the outside may give at this point: an id drawn for a new session is fresh, and
      closeByDevice takes its ids in any order. */
  ghost predicate Offers(s: State, p: PC, input: Input) {
    match p
    case AtBrowser(b) =>
      if b.Start? then input.ReadError? || BadOpen(input) || (input.OpenMessage? && input.dev != "")
      else if b.Loop? then input.ReadError? || input.Message?
      else input.FreshId? && input.id != "" && input.id !in s.used
    case AtDevice(d) =>
      if d.EndNext? then input.NextId? && input.id in d.todo else input.ReadError? || input.Message?
    case Closing(_, _) => false
  }

  ghost predicate Free(s: State, t: Thread, p: PC, input: Input)
    requires t in s.q
  {
    match WaitsFor(p)
    case ForNothing => input.Tick?
    case ForInput => Offers(s, p, input)
    case ForRoom => input.Tick? && Room(s, t)
    case ForWriter => input.Tick? && t in s.writerDone
    case ForEver => false
  }

  lemma BrowserFree(s: State, h: nat, b: BrowserPC, input: Input)
    requires DomainsOk(s) && B(h) in s.q && BrowserPcOk(s, h, b)
    ensures BrowserReady(s, h, b, input) <==> Free(s, B(h), AtBrowser(b), input)
  {
  }

  lemma DeviceFree(s: State, c: nat, d: DevicePC, input: Input)
    requires DomainsOk(s) && D(c) in s.q && DevicePcOk(s, c, d) && TableOk(s)
    ensures DeviceReady(s, c, d, input) <==> Free(s, D(c), AtDevice(d), input)
  {
  }

  /** In every run a thread can take its next step exactly when what it waits for is there: no
      lookup ever finds a dangling session or connection, and a push or a lock never blocks
      except where the source pushes on its own queue without a default. */
  lemma StepsOnlyWaitWhereTheSourceWaits(states: seq<State>, acts: seq<Action>, i: nat, t: Thread, input: Input)
    requires IsRun(states, acts) && i < |states| && t in states[i].pc
    ensures t in states[i].q
    ensures Enabled(states[i], Moves(t, input)) <==> Free(states[i], t, states[i].pc[t], input)
  {
    RunInv(states, acts, i);
    ThreadFree(states[i], t, input);
  }

  lemma ThreadFree(s: State, t: Thread, input: Input)
    requires ControlOk(s) && t in s.pc
    ensures t in s.q
    ensures Enabled(s, Moves(t, input)) <==> Free(s, t, s.pc[t], input)
  {
    hide ControlOk, DomainsOk, TableOk, BrowserPcOk, DevicePcOk, Performable, PlanOf, BrowserReady, DeviceReady, Free;
    hide CloseReady, StageOk, WhyOk;
    ThreadFacts(s, t, input);
    if s.pc[t].AtBrowser? {
      BrowserFree(s, t.h, s.pc[t].b, input);
    } else if s.pc[t].AtDevice? {
      DeviceFree(s, t.c, s.pc[t].d, input);
    } else {
      CloseFree(s, t, s.pc[t].stage, s.pc[t].why);
    }
  }

  lemma ThreadFacts(s: State, t: Thread, input: Input)
    requires ControlOk(s) && t in s.pc
    ensures PcOk(s, t, s.pc[t]) && DomainsOk(s) && TableOk(s) && t in s.q
    ensures MayMove(s, t, input) ==> Performable(s, t, PlanOf(s, t, input).effect)
  {
    hide MayMove, Performable, PlanOf, PcOk, EffectOk;
    if MayMove(s, t, input) {
      PlanEffectOk(s, t, input);
    }
  }

  lemma CloseFree(s: State, t: Thread, stage: Stage, why: Why)
    requires TableOk(s) && t in s.q && StageOk(s, t, stage)
    ensures CloseReady(s, stage) && forall input :: Free(s, t, Closing(stage, why), input) <==> input.Tick?
  {
  }
}
