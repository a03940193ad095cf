/** The agents' loops and the service's interleaved polls together: agents whose polls do not overlap
    leave the service no overlapping polls. */
module EnrollTogether {
  import opened Tables
  import opened Requests
  import opened EnrollRaces
  import AgentEnroll

  /** One agent's loop: the polls it logged, and for each handler of its polls the poll's number. */
  datatype Agent = Agent(
    log: seq<AgentEnroll.PollRecord>,
    first: int,
    t0: int,
    deadline: int,
    w: AgentEnroll.World,
    number: map<nat, nat>)

  ghost predicate Loops(g: Agent) {
    g.first >= 1 && AgentEnroll.Paced(g.log, g.first, g.t0, g.deadline, g.w)
  }

  /** Every poll of the code that the service serves is one poll of the agent's, served after it was
      sent; and, unless it is the agent's last, served before the agent has its answer. */
  ghost predicate Serves(states: seq<State>, acts: seq<Action>, code: string, g: Agent)
    requires |states| == |acts| + 1
  {
    (forall h1, h2 :: h1 in g.number && h2 in g.number && g.number[h1] == g.number[h2] ==> h1 == h2)
    && (forall n :: 0 <= n < |acts| && acts[n].Look? && acts[n].code == code ==> LookFits(acts[n], g))
    && (forall n, h :: 0 <= n < |acts| && InFlightOn(states[n], h, code) && AnswerGot(g, h) ==>
          acts[n].at <= g.log[g.number[h]].got)
  }

  /** The poll of handler h is not the agent's last, so the agent has had its answer. */
  predicate AnswerGot(g: Agent, h: nat) {
    h in g.number && g.number[h] + 1 < |g.log|
  }

  predicate LookFits(a: Action, g: Agent)
    requires a.Look?
  {
    a.h in g.number && g.number[a.h] < |g.log| && g.log[g.number[a.h]].sent <= a.at
    && (AnswerGot(g, a.h) ==> a.at <= g.log[g.number[a.h]].got)
  }

  lemma StepStarts(s: State, a: Action, lib: Library, h: nat, code: string)
    requires Enabled(s, a) && InFlightOn(Step(s, a, lib), h, code) && !InFlightOn(s, h, code)
    ensures a.Look? && a.h == h && a.code == code
  {
  }

  /** A poll in flight was looked up at some step, and has been in flight ever since. */
  lemma {:induction false} LookedUpThen(states: seq<State>, acts: seq<Action>, lib: Library, k: nat,
                                        h: nat, code: string)
    returns (n: nat)
    requires IsRun(states, acts, lib) && k < |states| && InFlightOn(states[k], h, code)
    ensures n < k && acts[n].Look? && acts[n].h == h && acts[n].code == code
    ensures forall i :: n < i <= k ==> InFlightOn(states[i], h, code)
  {
    assert k > 0;
    RunStep(states, acts, lib, k - 1);
    if InFlightOn(states[k - 1], h, code) {
      n := LookedUpThen(states, acts, lib, k - 1, h, code);
    } else {
      n := k - 1;
      hide IsRun, Step, Enabled, InFlightOn;
      StepStarts(states[n], acts[n], lib, h, code);
    }
  }

  lemma EarlierIsAnswered(g: Agent, k1: nat, k2: nat)
    requires Loops(g) && k1 < k2 < |g.log|
    ensures g.log[k1].got < g.log[k2].sent
  {
    AgentEnroll.PollsDoNotOverlap(g.log, g.first, g.t0, g.deadline, g.w, k1, k2);
  }

  /** While a poll whose answer the agent will have is in flight, no step is later than the answer. */
  lemma NotYetAnswered(states: seq<State>, acts: seq<Action>, lib: Library, code: string, g: Agent,
                       k: nat, h: nat, n: nat)
    requires IsRun(states, acts, lib) && n < k < |states| && Serves(states, acts, code, g)
    requires InFlightOn(states[k], h, code) && AnswerGot(g, h)
    ensures acts[n].at <= g.log[g.number[h]].got
  {
    var n0 := LookedUpThen(states, acts, lib, k, h, code);
    assert LookFits(acts[n0], g) && ClockRuns(acts);
    if n0 < n {
      assert InFlightOn(states[n], h, code);
    } else if n < n0 {
      assert acts[n].at <= acts[n0].at;
    }
  }

  lemma SentByThen(states: seq<State>, acts: seq<Action>, lib: Library, code: string, g: Agent, k: nat, h: nat)
    returns (n: nat)
    requires IsRun(states, acts, lib) && k < |states| && Serves(states, acts, code, g) && InFlightOn(states[k], h, code)
    ensures n < k && h in g.number && g.number[h] < |g.log| && g.log[g.number[h]].sent <= acts[n].at
  {
    n := LookedUpThen(states, acts, lib, k, h, code);
    assert LookFits(acts[n], g);
  }

  lemma NotAfterAnother(states: seq<State>, acts: seq<Action>, lib: Library, code: string, g: Agent,
                        k: nat, h1: nat, h2: nat)
    requires IsRun(states, acts, lib) && k < |states| && Loops(g) && Serves(states, acts, code, g)
    requires InFlightOn(states[k], h1, code) && InFlightOn(states[k], h2, code)
    ensures h1 in g.number && h2 in g.number && g.number[h2] <= g.number[h1]
  {
    var n1 := SentByThen(states, acts, lib, code, g, k, h1);
    var n2 := SentByThen(states, acts, lib, code, g, k, h2);
    hide IsRun, Serves, InFlightOn, Loops;
    if g.number[h1] < g.number[h2] {
      EarlierIsAnswered(g, g.number[h1], g.number[h2]);
      NotYetAnswered(states, acts, lib, code, g, k, h1, n2);
    }
  }

  /** An agent's polls of its device code never overlap at the service. */
  lemma AgentIsAlone(states: seq<State>, acts: seq<Action>, lib: Library, code: string, g: Agent, k: nat)
    requires IsRun(states, acts, lib) && k < |states| && Loops(g) && Serves(states, acts, code, g)
    ensures AloneOn(states[k], code)
  {
    forall h1, h2 | InFlightOn(states[k], h1, code) && InFlightOn(states[k], h2, code) ensures h1 == h2 {
      NotAfterAnother(states, acts, lib, code, g, k, h1, h2);
      NotAfterAnother(states, acts, lib, code, g, k, h2, h1);
    }
  }

  /** If each device code is polled by the loop of one agent only, claims and devices correspond
      one-to-one in every state, however the agents' polls interleave with each other. */
  lemma AgentsClaimOnce(states: seq<State>, acts: seq<Action>, lib: Library, agents: string -> Agent, i: nat)
    requires IsRun(states, acts, lib) && i < |states|
    requires forall code :: Loops(agents(code)) && Serves(states, acts, code, agents(code))
    ensures OneToOne(states[i].db)
  {
    forall k | 0 <= k < i ensures Alone(states[k]) {
      forall code ensures AloneOn(states[k], code) {
        AgentIsAlone(states, acts, lib, code, agents(code), k);
      }
    }
    AlonePollsClaimOnce(states, acts, lib, i);
  }

  /** The agent never gives up on an enrollment that could still be claimed: once its timer has fired
      after its own deadline, a poll that then reads the service's clock is answered as expired,
      whatever has happened to the enrollment and however other polls interleave. */
  lemma GivesUpOnlyWhenExpired(states: seq<State>, acts: seq<Action>, lib: Library, i: nat, j: nat,
                               start: StartReply, t0: int, log: seq<AgentEnroll.PollRecord>, w: AgentEnroll.World)
    requires IsRun(states, acts, lib) && i < j < |acts| && StartsAt(states, acts, i)
    requires start.expiresIn == 600 && acts[i].r.at <= t0
    requires acts[j].Look? && acts[j].code == acts[i].r.deviceCode
    requires AgentEnroll.Deadline(start, t0) < AgentEnroll.Fires(log, AgentEnroll.FirstInterval(start), t0, w)
             <= acts[j].seen
    ensures acts[j].h in states[j + 1].pollers
            && states[j + 1].pollers[acts[j].h] == Poller(acts[j].code, Answered(ExpiredToken))
  {
    ExpiresExactly(states, acts, lib, i, j);
  }
}
