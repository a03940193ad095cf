/** What every run keeps about envelopes: where they go, in which order, and what becomes of
    each one a read loop receives. */
module RoutingTheorems {
  import opened Wire
  import opened Regions
  import opened Machine
  import opened Control
  import opened Queues
  import opened Runs
  import opened SessionTheorems

  /** What a read loop is to hand on: from a browser an answer, a candidate or an end; from a device
      an offer, an answer, a candidate or an end that names a session. */
  predicate ToBeForwarded(src: Thread, env: Envelope) {
    match src
    case B(_) => env.kind == SessionAnswer || env.kind == SessionCandidate || env.kind == SessionEnd
    case D(_) =>
      env.sid != ""
      && (env.kind == SessionOffer || env.kind == SessionAnswer || env.kind == SessionCandidate
          || env.kind == SessionEnd)
  }

  // ---- Isolation ----

  /** What may stand on a browser's queue: the rejection of its open, without an id; or an
      envelope with its own session's id, from its own handler, the broker's close of that very
      session, or a connection of that session's device, unchanged. */
  ghost predicate ForBrowser(s: State, h: nat, it: Item) {
    (it.origin == Rejection && it.env == Envelope(SessionEnd, "", it.env.data))
    || (h in s.objs && it.env.sid == s.objs[h].id
        && (it == Item(Envelope(SessionReady, s.objs[h].id, s.objs[h].id), Ready, it.at)
            || it == Item(Envelope(SessionEnd, s.objs[h].id, it.env.data), Ended(h), it.at)
            || (it.origin.Carried? && it.origin.src.D? && ConnOf(s, it.origin.src.c, h)
                && it.origin.src in s.recv && it.origin.i < |s.recv[it.origin.src]|
                && it.env == s.recv[it.origin.src][it.origin.i] && ToBeForwarded(it.origin.src, it.env))))
  }

  /** What may stand on a connection's queue: hello and pong, without an id; or an envelope with
      the id of session h, opened against the connection's device: its request, its broker-made
      end, or what its browser sent with whatever id the browser wrote replaced by its own. */
  ghost predicate ForDevice(s: State, c: nat, it: Item) {
    (it.origin == Greeting && it.env == Envelope(Hello, "", ""))
    || (it.origin == Heartbeat && it.env == Envelope(Pong, "", ""))
    || exists h :: ConnOf(s, c, h) && it.env.sid == s.objs[h].id && OfSession(s, h, it)
  }

  ghost predicate OfSession(s: State, h: nat, it: Item)
    requires h in s.objs
  {
    (it.origin == Requested(h) && it.env.kind.SessionRequest?)
    || (it.origin == Ended(h) && it.env == Envelope(SessionEnd, s.objs[h].id, it.env.data))
    || (it.origin.Carried? && it.origin.src == B(h)
        && B(h) in s.recv && it.origin.i < |s.recv[B(h)]| && ToBeForwarded(B(h), it.env)
        && it.env == s.recv[B(h)][it.origin.i].(sid := s.objs[h].id))
  }

  lemma ItemForDevice(s: State, c: nat, k: nat, it: Item)
    requires ItemOk(s, D(c), k, it)
    ensures ForDevice(s, c, it)
  {
    if it.origin.Requested? {
      assert ConnOf(s, c, it.origin.h) && OfSession(s, it.origin.h, it);
    } else if it.origin.Ended? {
      assert ConnOf(s, c, it.origin.h) && OfSession(s, it.origin.h, it);
    } else if it.origin.Carried? {
      assert ConnOf(s, c, it.origin.src.h) && OfSession(s, it.origin.src.h, it);
    }
  }

  lemma RoutingIsolation(states: seq<State>, acts: seq<Action>, i: nat, t: Thread, k: nat)
    requires IsRun(states, acts) && i < |states| && t in states[i].q && k < |states[i].q[t].enqueued|
    ensures var it := states[i].q[t].enqueued[k];
            match t case B(h) => ForBrowser(states[i], h, it) case D(c) => ForDevice(states[i], c, it)
  {
    RunItem(states, acts, i, t, k);
    if t.D? {
      ItemForDevice(states[i], t.c, k, states[i].q[t].enqueued[k]);
    }
  }

  // ---- Order and conservation ----

  /** Every queue holds at most 32 envelopes, and what was enqueued is what was dequeued
      followed by what is pending. */
  lemma QueuesConserve(states: seq<State>, acts: seq<Action>, i: nat, t: Thread)
    requires IsRun(states, acts) && i < |states| && t in states[i].q
    ensures var ch := states[i].q[t];
            ch.enqueued == ch.dequeued + ch.pending && |ch.pending| <= 32
  {
    RunOrder(states, acts, i, t);
  }

  /** The items that src's read loop got there, in order. */
  function FromSource(items: seq<Item>, src: Thread): (r: seq<Item>)
    ensures forall n :: 0 <= n < |r| ==> r[n].origin.Carried? && r[n].origin.src == src
  {
    if items == [] then []
    else
      var last := items[|items| - 1];
      FromSource(items[..|items| - 1], src)
      + (if last.origin.Carried? && last.origin.src == src then [last] else [])
  }

  lemma {:induction false} FromSourceOrdered(items: seq<Item>, src: Thread)
    requires Ordered(items)
    ensures forall m, n :: 0 <= m < n < |FromSource(items, src)| ==>
              FromSource(items, src)[m].origin.i < FromSource(items, src)[n].origin.i
    ensures forall n :: 0 <= n < |FromSource(items, src)| ==> FromSource(items, src)[n] in items
  {
    if items != [] {
      var front, last := items[..|items| - 1], items[|items| - 1];
      FromSourceOrdered(front, src);
      forall n | 0 <= n < |FromSource(front, src)| ensures Before(FromSource(front, src)[n], last) {
        assert FromSource(front, src)[n] in front;
      }
    }
  }

  /** xs is obtained from ys by leaving some out: same order, nothing twice. */
  ghost predicate SubsequenceOf(xs: seq<Envelope>, ys: seq<Envelope>) {
    exists at: seq<nat> :: Selects(at, xs, ys)
  }

  ghost predicate Selects(at: seq<nat>, xs: seq<Envelope>, ys: seq<Envelope>) {
    |at| == |xs|
    && (forall m, n :: 0 <= m < n < |at| ==> at[m] < at[n])
    && (forall n :: 0 <= n < |at| ==> at[n] < |ys| && xs[n] == ys[at[n]])
  }

  function Envelopes(items: seq<Item>): (r: seq<Envelope>)
    ensures |r| == |items| && forall n :: 0 <= n < |r| ==> r[n] == items[n].env
  {
    seq(|items|, n requires 0 <= n < |items| => items[n].env)
  }

  /** The received envelopes as they are forwarded: those of a browser under its own id. */
  function AsForwarded(t: Thread, id: string, received: seq<Envelope>): (r: seq<Envelope>)
    ensures |r| == |received|
    ensures forall n :: 0 <= n < |r| ==> r[n] == if t.B? then received[n].(sid := id) else received[n]
  {
    if t.D? then received
    else seq(|received|, n requires 0 <= n < |received| => received[n].(sid := id))
  }

  /** The id a browser's forwards carry. */
  function OwnId(s: State, t: Thread): string {
    if t.B? && t.h in s.objs then s.objs[t.h].id else ""
  }

  lemma TakenInOrder(s: State, to: Thread, src: Thread)
    requires to in s.q && src in s.recv && QueueItemsOk(s, to)
    requires ChannelOk(s.q[to]) && Ordered(s.q[to].enqueued)
    ensures SubsequenceOf(Envelopes(FromSource(s.q[to].dequeued, src)), AsForwarded(src, OwnId(s, src), s.recv[src]))
  {
    var taken := s.q[to].dequeued;
    assert Ordered(taken) by {
      assert forall k :: 0 <= k < |taken| ==> taken[k] == s.q[to].enqueued[k];
    }
    FromSourceOrdered(taken, src);
    var got := FromSource(taken, src);
    var at: seq<nat> := seq(|got|, n requires 0 <= n < |got| => got[n].origin.i);
    forall n | 0 <= n < |got|
      ensures at[n] < |s.recv[src]|
              && Envelopes(got)[n] == AsForwarded(src, OwnId(s, src), s.recv[src])[at[n]] {
      var k :| 0 <= k < |taken| && taken[k] == got[n];
      assert s.q[to].enqueued[k] == got[n];
      assert ItemOk(s, to, k, got[n]);
    }
    assert Selects(at, Envelopes(got), AsForwarded(src, OwnId(s, src), s.recv[src]));
  }

  ghost predicate QueueItemsOk(s: State, t: Thread)
    requires t in s.q
  {
    forall k :: 0 <= k < |s.q[t].enqueued| ==> ItemOk(s, t, k, s.q[t].enqueued[k])
  }

  /** What a writer takes out that came from one read loop is an in-order, duplicate-free
      subsequence of what that read loop received, in either direction. */
  lemma WritersKeepOrder(states: seq<State>, acts: seq<Action>, i: nat, to: Thread, src: Thread)
    requires IsRun(states, acts) && i < |states| && to in states[i].q && src in states[i].recv
    ensures SubsequenceOf(Envelopes(FromSource(states[i].q[to].dequeued, src)),
                          AsForwarded(src, OwnId(states[i], src), states[i].recv[src]))
  {
    RunOrder(states, acts, i, to);
    forall k | 0 <= k < |states[i].q[to].enqueued| ensures ItemOk(states[i], to, k, states[i].q[to].enqueued[k]) {
      RunItem(states, acts, i, to, k);
    }
    TakenInOrder(states[i], to, src);
  }

  ghost predicate CarriedAt(s: State, to: Thread, k: int, src: Thread, n: nat) {
    to in s.q && 0 <= k < |s.q[to].enqueued| && s.q[to].enqueued[k].origin.Carried?
    && s.q[to].enqueued[k].origin.src == src && s.q[to].enqueued[k].origin.i == n
  }

  lemma RunFate(states: seq<State>, acts: seq<Action>, i: nat, src: Thread, n: nat)
    requires IsRun(states, acts) && i < |states| && src in states[i].fates && n < |states[i].fates[src]|
    ensures src in states[i].recv && n < |states[i].recv[src]|
    ensures FateOk(states[i], src, n, states[i].fates[src][n])
  {
    RunInv(states, acts, i);
    assert ThreadOk(states[i], src);
  }

  /** At position `at` the session an envelope is for is not open: the browser's own session
      or, for a connection of device `dev`, the session named on the envelope. */
  ghost predicate NotOpenAt(states: seq<State>, at: nat, src: Thread, dev: string, env: Envelope)
    requires at < |states|
  {
    var s := states[at];
    match src
    case B(h) => forall id :: id in s.table ==> s.table[id] != h
    case D(c) => env.sid in s.table ==> s.table[env.sid] in s.objs && s.objs[s.table[env.sid]].dev != dev
  }

  function DeviceOf(s: State, t: Thread): string {
    if t.D? && t.c in s.cdev then s.cdev[t.c] else ""
  }

  /** Fate f, settled for src in state s: a dropped envelope found the queue full, a lost one
      its device offline. */
  ghost predicate FullOrOffline(s: State, src: Thread, f: Fate) {
    (f.Dropped? ==> f.to in s.q && |s.q[f.to].pending| == CAPACITY)
    && (f.Offline? ==> src.B? && src.h in s.objs && s.objs[src.h].dev !in s.conns)
  }

  /** At step g the id was open against the device, as the session of browser handler h. */
  ghost predicate OpenAt(states: seq<State>, g: nat, h: nat, id: string, dev: string)
    requires g < |states|
  {
    TableOk(states[g]) && id in OpenSessions(states[g]) && OpenSessions(states[g])[id] == dev
    && states[g].table[id] == h
  }

  /** Queue `to` is the one an envelope from src was for, as found at step g: a connection of the
      device of the browser's own session, or the browser of the session that a connection named
      and its device has. */
  ghost predicate MeantFor(states: seq<State>, i: nat, src: Thread, env: Envelope, to: Thread, g: nat)
    requires g < |states| && i < |states|
  {
    var s := states[i];
    match src
    case B(h) => to.D? && h in s.objs && to.c in s.cdev && OpenAt(states, g, h, s.objs[h].id, s.cdev[to.c])
    case D(c) => to.B? && c in s.cdev && OpenAt(states, g, to.h, env.sid, s.cdev[c])
  }

  /** What became of the n-th envelope src received. Either it is not of the kind that is
      forwarded, or exactly one thing happened to it: it was pushed, and is one item of one
      queue; its session was found, and it was dropped because the very queue it was for had exactly
      32 pending at that step; a browser's session was found, and its device was offline at
      that step; or its session was not in the table at the step of the lookup. */
  ghost predicate Settled(states: seq<State>, i: nat, src: Thread, n: nat)
    requires i < |states| && src in states[i].recv && n < |states[i].recv[src]|
    requires src in states[i].fates && n < |states[i].fates[src]|
  {
    var s, env := states[i], states[i].recv[src][n];
    match s.fates[src][n]
    case Ignored => !ToBeForwarded(src, env)
    case Enqueued(to, k) => ToBeForwarded(src, env) && CarriedAt(s, to, k, src, n)
    case Dropped(to, at, g) =>
      ToBeForwarded(src, env) && g < at < i && MeantFor(states, i, src, env, to, g)
      && to in states[at].q && |states[at].q[to].pending| == 32
    case Offline(at, g) =>
      ToBeForwarded(src, env) && g < at < i && src.B? && src.h in s.objs
      && OpenAt(states, g, src.h, s.objs[src.h].id, s.objs[src.h].dev) && s.objs[src.h].dev !in states[at].conns
    case Unrouted(at) => ToBeForwarded(src, env) && at < i && NotOpenAt(states, at, src, DeviceOf(s, src), env)
  }

  lemma UnroutedThen(states: seq<State>, acts: seq<Action>, at: nat, i: nat, src: Thread, env: Envelope)
    requires IsRun(states, acts) && at < i < |states| && NotLiveAt(states[i], src, env, at)
    ensures NotOpenAt(states, at, src, DeviceOf(states[i], src), env)
  {
    RunTable(states, acts, at);
    RunLater(states, acts, at, i);
    if src.B? {
      TableHistory(states, acts, at, i, src.h);
    } else if env.sid in states[at].table {
      TableHistory(states, acts, at, i, states[at].table[env.sid]);
    }
  }

  lemma FoundThen(states: seq<State>, acts: seq<Action>, g: nat, i: nat, h: nat)
    requires IsRun(states, acts) && i < |states| && FoundAt(states[i], h, g)
    ensures g < i && OpenAt(states, g, h, states[i].objs[h].id, states[i].objs[h].dev)
  {
    RunClock(states, acts, i);
    RunTable(states, acts, g);
    TableHistory(states, acts, g, i, h);
  }

  ghost predicate SettledIn(s: State, src: Thread, f: Fate) {
    (f.Dropped? || f.Offline? ==> f.at == s.now) && FullOrOffline(s, src, f)
  }

  lemma MoveSettles(s: State, t: Thread, plan: Plan, src: Thread, n: nat)
    requires Performable(s, t, plan.effect)
    requires plan.effect.Lose? ==> SettledIn(s, t, plan.effect.fate)
    requires plan.effect.Carry? ==> ChannelOk(s.q[plan.effect.to])
    requires src in Move(s, t, plan).fates && n < |Move(s, t, plan).fates[src]|
    ensures (src in s.fates && n < |s.fates[src]| && Move(s, t, plan).fates[src][n] == s.fates[src][n])
            || SettledIn(s, src, Move(s, t, plan).fates[src][n])
  {
  }

  /** A lookup of the device fails only when the device is offline. */
  lemma PlanLoses(s: State, t: Thread, input: Input)
    requires MayMove(s, t, input) && PcOk(s, t, s.pc[t])
    ensures PlanOf(s, t, input).effect.Lose? ==> SettledIn(s, t, PlanOf(s, t, input).effect.fate)
  {
  }

  lemma StepSettles(s: State, a: Action, src: Thread, n: nat)
    requires PcsOk(s) && (forall t :: t in s.q ==> ChannelOk(s.q[t])) && Enabled(s, a)
    requires src in Apply(s, a).fates && n < |Apply(s, a).fates[src]|
    ensures (src in s.fates && n < |s.fates[src]| && Apply(s, a).fates[src][n] == s.fates[src][n])
            || SettledIn(s, src, Apply(s, a).fates[src][n])
  {
    if a.Moves? {
      PlanLoses(s, a.t, a.input);
      MoveSettles(s, a.t, PlanOf(s, a.t, a.input), src, n);
    }
  }

  lemma RunStepOk(states: seq<State>, acts: seq<Action>, i: nat)
    requires IsRun(states, acts) && i < |states|
    ensures PcsOk(states[i]) && states[i].now == i
    ensures forall t :: t in states[i].q ==> ChannelOk(states[i].q[t])
  {
    RunInv(states, acts, i);
    forall t | t in states[i].q ensures ChannelOk(states[i].q[t]) {
      RunOrder(states, acts, i, t);
    }
  }

  lemma {:induction false} DecidedThen(states: seq<State>, acts: seq<Action>, i: nat, src: Thread, n: nat)
    requires IsRun(states, acts) && i < |states| && src in states[i].fates && n < |states[i].fates[src]|
    ensures var f := states[i].fates[src][n];
            f.Dropped? || f.Offline? ==> f.at < i && FullOrOffline(states[f.at], src, f)
  {
    assert i > 0;
    var s, f := states[i - 1], states[i].fates[src][n];
    assert (src in s.fates && n < |s.fates[src]| && f == s.fates[src][n])
           || (s.now == i - 1 && SettledIn(s, src, f)) by {
      RunStepOk(states, acts, i - 1);
      StepSettles(s, acts[i - 1], src, n);
    }
    if src in s.fates && n < |s.fates[src]| && f == s.fates[src][n] {
      DecidedThen(states, acts, i - 1, src, n);
    }
  }

  /** A dropped envelope's session had been found, and at the step of the push the queue of that
      session at the other end had exactly 32 pending; an envelope lost to an offline device was
      a browser's whose session had been found, and at the recorded step the session's device was offline. */
  lemma DecidedWhen(states: seq<State>, acts: seq<Action>, i: nat, src: Thread, n: nat)
    requires IsRun(states, acts) && i < |states| && src in states[i].fates && n < |states[i].fates[src]|
    ensures src in states[i].recv && n < |states[i].recv[src]|
    ensures var s, f := states[i], states[i].fates[src][n];
            (f.Dropped? ==>
               f.gotAt < f.at < i && MeantFor(states, i, src, s.recv[src][n], f.to, f.gotAt)
               && f.to in states[f.at].q && |states[f.at].q[f.to].pending| == 32)
            && (f.Offline? ==>
                  f.gotAt < f.at < i && src.B? && src.h in s.objs
                  && OpenAt(states, f.gotAt, src.h, s.objs[src.h].id, s.objs[src.h].dev)
                  && s.objs[src.h].dev !in states[f.at].conns)
  {
    var s, f := states[i], states[i].fates[src][n];
    RunFate(states, acts, i, src, n);
    DecidedThen(states, acts, i, src, n);
    if f.Dropped? || f.Offline? {
      FoundThen(states, acts, f.gotAt, i, if src.B? then src.h else f.to.h);
      if f.Offline? {
        RunLater(states, acts, f.at, i);
      }
      hide IsRun;
    }
  }

  /** Everything a read loop received has been settled, except perhaps the envelope in its
      hand; it is an item of a queue exactly if its fate says so, and then of that one only. */
  lemma EveryEnvelopeSettled(states: seq<State>, acts: seq<Action>, i: nat, src: Thread, n: nat)
    requires IsRun(states, acts) && i < |states| && src in states[i].recv && n < |states[i].recv[src]|
    ensures src in states[i].fates
    ensures n >= |states[i].fates[src]| ==>
              n == |states[i].recv[src]| - 1 && src in states[i].pc && Busy(states[i].pc[src])
    ensures n < |states[i].fates[src]| ==>
              Settled(states, i, src, n)
              && (states[i].fates[src][n] == Ignored <==> !ToBeForwarded(src, states[i].recv[src][n]))
    ensures forall to, k :: CarriedAt(states[i], to, k, src, n) ==>
              n < |states[i].fates[src]| && states[i].fates[src][n] == Enqueued(to, k)
  {
    var s := states[i];
    assert ThreadOk(s, src) by {
      RunInv(states, acts, i);
    }
    if n < |s.fates[src]| {
      RunFate(states, acts, i, src, n);
      if s.fates[src][n].Unrouted? {
        assert s.now == i by {
          RunInv(states, acts, i);
        }
        UnroutedThen(states, acts, s.fates[src][n].at, i, src, s.recv[src][n]);
      }
      DecidedWhen(states, acts, i, src, n);
      hide MeantFor, OpenAt;
    }
    forall to, k | CarriedAt(s, to, k, src, n)
      ensures n < |s.fates[src]| && s.fates[src][n] == Enqueued(to, k) {
      RunItem(states, acts, i, to, k);
    }
  }

  // ---- Lookups ----

  /** The connection at the one end of a carried envelope, and the browser handler at the other. */
  function ConnectionEnd(to: Thread, it: Item): Thread
    requires it.origin.Carried?
  {
    if to.D? then to else it.origin.src
  }

  function BrowserEnd(to: Thread, it: Item): Thread
    requires it.origin.Carried?
  {
    if to.B? then to else it.origin.src
  }

  /** A lookup agrees with the atomic map, for all that is done with the session pointer later,
      when the session may be gone: an envelope is pushed on only if at the step of its lookup the
      id it carries was open, on the device of the very connection it came from or went to, and was
      the session of the very browser handler it went to or came from. (EveryEnvelopeSettled has the
      lookups that fail.) */
  lemma LookupsAgree(states: seq<State>, acts: seq<Action>, i: nat, to: Thread, k: nat)
    requires IsRun(states, acts) && i < |states| && to in states[i].q && k < |states[i].q[to].enqueued|
    requires states[i].q[to].enqueued[k].origin.Carried?
    ensures var it := states[i].q[to].enqueued[k]; var g := it.origin.gotAt;
            g < it.at < i && TableOk(states[g])
            && it.env.sid in OpenSessions(states[g])
            && OpenSessions(states[g])[it.env.sid] == DeviceOf(states[i], ConnectionEnd(to, it))
            && ConnectionEnd(to, it).D? && ConnectionEnd(to, it).c in states[i].cdev
            && BrowserEnd(to, it) == B(states[g].table[it.env.sid])
  {
    var it := states[i].q[to].enqueued[k];
    var g := it.origin.gotAt;
    RunItem(states, acts, i, to, k);
    RunClock(states, acts, i);
    RunTable(states, acts, g);
    TableHistory(states, acts, g, i, BrowserEnd(to, it).h);
  }

  // ---- After a session has left the table ----

  /** After a successfully opened session has left the table, all that is still pushed to its
      browser is the winner's one session.end, the handler's one session.ready, and one envelope
      for each relaying call that had found the session in the table before it left. */
  lemma AfterRemoval(states: seq<State>, acts: seq<Action>, i: nat, h: nat, k: nat)
    requires IsRun(states, acts) && i < |states| && Asked(states[i], h) && states[i].objs[h].teardown.Torn?
    requires B(h) in states[i].q && k < |states[i].q[B(h)].enqueued|
    requires states[i].objs[h].teardown.at < states[i].q[B(h)].enqueued[k].at
    ensures var o, it := states[i].objs[h], states[i].q[B(h)].enqueued[k];
            it.origin == Ended(h) || it.origin == Ready
            || (it.origin.Carried? && it.origin.src.D? && it.origin.gotAt < o.teardown.at < i
                && o.id in states[it.origin.gotAt].table && states[it.origin.gotAt].table[o.id] == h)
    ensures forall k' :: 0 <= k' < |states[i].q[B(h)].enqueued| && k' != k ==>
              SameCall(states[i].q[B(h)].enqueued[k], states[i].q[B(h)].enqueued[k']) == false
  {
    hide ControlOk, IsRun, FatesOk;
    var s := states[i];
    var it := s.q[B(h)].enqueued[k];
    RunItem(states, acts, i, B(h), k);
    RunOrder(states, acts, i, B(h));
    RunObject(states, acts, i, h);
    assert RejectedOk(s, B(h)) by {
      RunInv(states, acts, i);
      assert ThreadOk(s, B(h));
    }
    if it.origin.Carried? {
      TableHistory(states, acts, it.origin.gotAt, i, h);
    }
  }

  /** Both were pushed by the same close, by the handler as session.ready, or by one relaying call. */
  ghost predicate SameCall(a: Item, b: Item) {
    (a.origin.Ended? && b.origin.Ended? && a.origin.h == b.origin.h)
    || (a.origin.Ready? && b.origin.Ready?)
    || (a.origin.Carried? && b.origin.Carried? && a.origin.src == b.origin.src && a.origin.i == b.origin.i)
  }

  // ---- Requests ----

  ghost predicate RequestAt(s: State, c: nat, k: int, h: nat) {
    IsItem(s, D(c), k) && s.q[D(c)].enqueued[k].origin == Requested(h)
  }

  /** Item k' of connection c' was enqueued before item k of connection c; if the two are one
      connection and k has been taken out, then so has k', before it. */
  ghost predicate Precedes(s: State, c': nat, k': int, c: nat, k: int)
    requires IsItem(s, D(c'), k') && IsItem(s, D(c), k)
  {
    s.q[D(c')].enqueued[k'].at < s.q[D(c)].enqueued[k].at
    && (c' == c ==> k' < k && Taken(s.q[D(c)], k', k))
  }

  ghost predicate Taken(ch: Channel, k': int, k: int)
    requires 0 <= k' < k < |ch.enqueued|
  {
    k < |ch.dequeued| ==> ch.dequeued[k'] == ch.enqueued[k'] && ch.dequeued[k] == ch.enqueued[k]
  }

  /** A session is requested at most once, on whatever connections of its device; and the request
      was enqueued before anything its browser has had forwarded, so that a connection's writer
      that takes both out takes the request out first. */
  lemma RequestComesFirst(states: seq<State>, acts: seq<Action>, i: nat, h: nat)
    requires IsRun(states, acts) && i < |states|
    ensures forall c1, k1, c2, k2 :: RequestAt(states[i], c1, k1, h) && RequestAt(states[i], c2, k2, h) ==>
              c1 == c2 && k1 == k2
    ensures forall c, k, n :: CarriedAt(states[i], D(c), k, B(h), n) ==>
              exists c', k' :: RequestAt(states[i], c', k', h) && Precedes(states[i], c', k', c, k)
  {
    var s := states[i];
    forall c1, k1, c2, k2 | RequestAt(s, c1, k1, h) && RequestAt(s, c2, k2, h) ensures c1 == c2 && k1 == k2 {
      assert SameOnce(s, c1, k1, c2, k2);
      assert OnceOnDevices(s) by {
        RunInv(states, acts, i);
      }
    }
    forall c, k, n | CarriedAt(s, D(c), k, B(h), n)
      ensures exists c', k' :: RequestAt(s, c', k', h) && Precedes(s, c', k', c, k) {
      RequestBefore(states, acts, i, h, c, k);
    }
  }

  lemma RequestBefore(states: seq<State>, acts: seq<Action>, i: nat, h: nat, c: nat, k: nat)
    requires IsRun(states, acts) && i < |states|
    requires D(c) in states[i].q && k < |states[i].q[D(c)].enqueued|
    requires states[i].q[D(c)].enqueued[k].origin.Carried? && states[i].q[D(c)].enqueued[k].origin.src == B(h)
    ensures h in states[i].objs && states[i].objs[h].requested.Some?
    ensures var s := states[i]; var r := s.objs[h].requested.value;
            RequestAt(s, r.c, r.k, h) && Precedes(s, r.c, r.k, c, k)
  {
    hide ControlOk;
    var s := states[i];
    RunItem(states, acts, i, D(c), k);
    assert RequestKept(s, h) by {
      RunInv(states, acts, i);
    }
    RunOrder(states, acts, i, D(c));
  }
}
