/** The agent's side of enrollment: the poll loop, with its deadline and its growing interval. */
module AgentEnroll {
  import opened Wire
  import opened Tables
  import Requests
  import EnrollRuns

  /** What a granted poll returns, and what the agent keeps. */
  datatype Grant = Grant(id: string, token: string, name: string)

  /** An HTTP response: its status, its body read as a grant if it can be, and the error its body
      names, if any. */
  datatype Response = Response(status: int, grant: Option<Grant>, error: string)

  datatype PollResult = Granted(grant: Grant) | Pending | SlowDown | Failed(message: string)

  /** What one poll makes of the response, or of having none. */
  function Classify(response: Option<Response>): PollResult {
    if response.None? then Failed("no response")
    else
      var r := response.value;
      if r.status == 200 then
        if r.grant.Some? then Granted(r.grant.value) else Failed("parse poll success")
      else if r.error == "authorization_pending" then Pending
      else if r.error == "slow_down" then SlowDown
      else if r.error == "expired_token" then Failed("enrollment expired before approval")
      else if r.error == "already_claimed" then Failed("enrollment was already claimed by another agent")
      else if r.error == "" then Failed("poll failed")
      else Failed("poll error: " + r.error)
  }

  /** How the service writes its replies. */
  function Written(reply: Requests.Reply): Response {
    match reply
    case Granted(id, token, name) => Response(200, Some(Grant(id, token, name)), "")
    case InvalidDeviceCode => Response(400, None, "invalid_device_code")
    case ExpiredToken => Response(400, None, "expired_token")
    case AuthorizationPending => Response(400, None, "authorization_pending")
    case AlreadyClaimed => Response(400, None, "already_claimed")
    case ServerError => Response(500, None, "")
  }

  /** What the agent makes of a refused poll, and of a reply it cannot use. */
  function FailureOf(reply: Requests.Reply): string {
    match reply
    case InvalidDeviceCode => "poll error: invalid_device_code"
    case ExpiredToken => "enrollment expired before approval"
    case AlreadyClaimed => "enrollment was already claimed by another agent"
    case _ => "poll failed"
  }

  /** Reading back what the service wrote: a grant is read as that grant, pending as pending, every
      other reply as a failure with a message of its own; the service never says to slow down. */
  lemma RepliesReadBack(reply: Requests.Reply, grant: Grant)
    ensures Classify(Some(Written(reply))) == Granted(grant)
            <==> reply.Granted? && Grant(reply.id, reply.token, reply.name) == grant
    ensures Classify(Some(Written(reply))) == Pending <==> reply.AuthorizationPending?
    ensures Classify(Some(Written(reply))) != SlowDown
    ensures (Written(reply).status == 200 <==> reply.Granted?) && (Written(reply).status == 500 <==> reply.ServerError?)
    ensures Written(reply).status == 200 || Written(reply).status == 500 || Written(reply).status == 400
    ensures reply.InvalidDeviceCode? || reply.ExpiredToken? || reply.AlreadyClaimed? || reply.ServerError? ==>
              Classify(Some(Written(reply))) == Failed(FailureOf(reply))
  {
    hide Classify;
    if reply.Granted? {
      ReadsGrant(reply);
    } else if reply.AuthorizationPending? {
      ReadsPending();
    } else if reply.InvalidDeviceCode? {
      ReadsInvalid();
    } else if reply.ExpiredToken? {
      ReadsExpired();
    } else if reply.AlreadyClaimed? {
      ReadsClaimed();
    } else {
      ReadsNothing();
    }
  }

  lemma ReadsGrant(reply: Requests.Reply)
    requires reply.Granted?
    ensures Classify(Some(Written(reply))) == Granted(Grant(reply.id, reply.token, reply.name))
  {
  }

  lemma ReadsPending()
    ensures Classify(Some(Response(400, None, "authorization_pending"))) == Pending
  {
  }

  lemma ReadsInvalid()
    ensures Classify(Some(Response(400, None, "invalid_device_code"))) == Failed("poll error: invalid_device_code")
  {
    var invalid, expired, claimed := "invalid_device_code", "expired_token", "already_claimed";
    var pending, slow := "authorization_pending", "slow_down";
    assert |invalid| == 19 && |expired| == 13 && |claimed| == 15 && |pending| == 21 && |slow| == 9;
    assert "poll error: " + invalid == "poll error: invalid_device_code";
  }

  lemma ReadsExpired()
    ensures Classify(Some(Response(400, None, "expired_token"))) == Failed("enrollment expired before approval")
  {
    var expired, pending, slow := "expired_token", "authorization_pending", "slow_down";
    assert |expired| == 13 && |pending| == 21 && |slow| == 9;
  }

  lemma ReadsClaimed()
    ensures Classify(Some(Response(400, None, "already_claimed")))
            == Failed("enrollment was already claimed by another agent")
  {
    var expired, claimed := "expired_token", "already_claimed";
    var pending, slow := "authorization_pending", "slow_down";
    assert |expired| == 13 && |claimed| == 15 && |pending| == 21 && |slow| == 9;
  }

  lemma ReadsNothing()
    ensures Classify(Some(Response(500, None, ""))) == Failed("poll failed")
  {
    var expired, claimed := "expired_token", "already_claimed";
    var pending, slow := "authorization_pending", "slow_down";
    assert |expired| == 13 && |claimed| == 15 && |pending| == 21 && |slow| == 9;
  }

  /** Replies that fail a poll are told apart by their messages. */
  lemma FailuresDiffer(a: Requests.Reply, b: Requests.Reply)
    requires a.InvalidDeviceCode? || a.ExpiredToken? || a.AlreadyClaimed? || a.ServerError?
    requires b.InvalidDeviceCode? || b.ExpiredToken? || b.AlreadyClaimed? || b.ServerError?
    ensures Classify(Some(Written(a))) == Classify(Some(Written(b))) <==> a == b
  {
    var invalid, expired := "poll error: invalid_device_code", "enrollment expired before approval";
    var claimed, failed := "enrollment was already claimed by another agent", "poll failed";
    assert |invalid| == 31 && |expired| == 34 && |claimed| == 47 && |failed| == 11;
    RepliesReadBack(a, Grant("", "", ""));
    RepliesReadBack(b, Grant("", "", ""));
  }

  // ----- the loop ----------------------------------------------------------------------------------

  /** Everything round k of the loop meets: how late its timer fires, how long its poll takes, what
      the poll gets, and whether the context is found cancelled. */
  datatype World = World(
    late: nat -> nat,
    took: nat -> nat,
    response: nat -> Option<Response>,
    cancelled: nat -> bool)

  datatype Outcome =
    | Enrolled(grant: Grant)
    | Cancelled
    | TimedOut
    | Refused(message: string)

  /** One poll: when it was sent, when it was answered, and what came. */
  datatype PollRecord = PollRecord(sent: int, got: int, result: PollResult)

  function Slowdowns(log: seq<PollRecord>): nat {
    if log == [] then 0
    else Slowdowns(log[..|log| - 1]) + if log[|log| - 1].result.SlowDown? then 1 else 0
  }

  /** The interval, in seconds, before the loop has grown it: the service's, or 2 if that is below 1. */
  function FirstInterval(start: Requests.StartReply): (i: int)
    ensures i >= 1 && (start.interval >= 1 ==> i == start.interval) && (start.interval < 1 ==> i == 2)
  {
    if start.interval < 1 then 2 else start.interval
  }

  function Deadline(start: Requests.StartReply, t0: int): int {
    t0 + start.expiresIn * SECOND
  }

  /** The seconds waited before the last of the polls was sent. */
  function Waits(log: seq<PollRecord>, first: int): int {
    if log == [] then 0
    else Waits(log[..|log| - 1], first) + first + Slowdowns(log[..|log| - 1])
  }

  /** When round k's timer fires: the interval, as grown by the slow-downs so far, after the last
      answer, and as late as it is. */
  function Fires(log: seq<PollRecord>, first: int, t0: int, w: World): int {
    (if log == [] then t0 else log[|log| - 1].got) + (first + Slowdowns(log)) * SECOND + w.late(|log|)
  }

  predicate ToldToGoOn(log: seq<PollRecord>) {
    log != [] ==> log[|log| - 1].result.Pending? || log[|log| - 1].result.SlowDown?
  }

  /** Every poll was sent when its timer fired, not after the deadline and not in a cancelled
      round, and all but the last were told to go on. */
  ghost predicate Paced(log: seq<PollRecord>, first: int, t0: int, deadline: int, w: World)
    decreases |log|
  {
    log != [] ==>
      var n := |log| - 1;
      Paced(log[..n], first, t0, deadline, w) && ToldToGoOn(log[..n]) && !w.cancelled(n)
      && log[n].sent == Fires(log[..n], first, t0, w) <= deadline
      && log[n].got == log[n].sent + w.took(n) && log[n].result == Classify(w.response(n))
  }

  /** The loop ends with r after these polls: on what the last one brought or, when that was to go on,
      because the next round was cancelled or its timer fired after the deadline. */
  ghost predicate EndsWith(log: seq<PollRecord>, first: int, t0: int, deadline: int, w: World, r: Outcome) {
    match r
    case Enrolled(grant) => log != [] && log[|log| - 1].result == Granted(grant)
    case Refused(message) => log != [] && log[|log| - 1].result == Failed(message)
    case Cancelled => ToldToGoOn(log) && w.cancelled(|log|)
    case TimedOut => ToldToGoOn(log) && !w.cancelled(|log|) && Fires(log, first, t0, w) > deadline
  }

  ghost predicate Polled(log: seq<PollRecord>, start: Requests.StartReply, t0: int, w: World, r: Outcome) {
    Paced(log, FirstInterval(start), t0, Deadline(start, t0), w)
    && EndsWith(log, FirstInterval(start), t0, Deadline(start, t0), w, r)
  }

  /** The loop polls as paced until it ends, and returns what it ends with. By OneOutcome there is one
      such result only. */
  method Enroll(w: World, start: Requests.StartReply, t0: int) returns (r: Outcome)
    ensures exists log :: Polled(log, start, t0, w, r)
  {
    hide Classify;
    ghost var first := FirstInterval(start);
    var interval := start.interval * SECOND;
    if interval < SECOND {
      interval := 2 * SECOND;
    }
    var deadline := t0 + start.expiresIn * SECOND;
    var now := t0;
    ghost var log: seq<PollRecord> := [];
    var k := 0;
    while true
      invariant k == |log|
      invariant interval == (first + Slowdowns(log)) * SECOND
      invariant Paced(log, first, t0, deadline, w) && ToldToGoOn(log)
      invariant now == if log == [] then t0 else log[|log| - 1].got
      decreases deadline - now
    {
      if w.cancelled(k) {
        assert Polled(log, start, t0, w, Cancelled);
        return Cancelled;
      }
      now := now + interval + w.late(k);
      assert now == Fires(log, first, t0, w);
      if now > deadline {
        assert Polled(log, start, t0, w, TimedOut);
        return TimedOut;
      }
      var res := Classify(w.response(k));
      ghost var before := log;
      log := log + [PollRecord(now, now + w.took(k), res)];
      assert log[..k] == before;
      now := now + w.took(k);
      k := k + 1;
      if res.Granted? {
        assert Polled(log, start, t0, w, Enrolled(res.grant));
        return Enrolled(res.grant);
      }
      if res.Pending? {
        continue;
      }
      if res.SlowDown? {
        interval := interval + SECOND;
        continue;
      }
      assert Polled(log, start, t0, w, Refused(res.message));
      return Refused(res.message);
    }
  }

  /** What the loop returns, by the last response it got: the grant, or the failure the response
      names; only after being told to wait, or to slow down, can it end otherwise. */
  lemma OutcomeTells(log: seq<PollRecord>, start: Requests.StartReply, t0: int, w: World, r: Outcome)
    requires Polled(log, start, t0, w, r) && log != []
    ensures var last := w.response(|log| - 1);
            if last.None? then r == Refused("no response")
            else if last.value.status == 200 then
              r == if last.value.grant.Some? then Enrolled(last.value.grant.value) else Refused("parse poll success")
            else if last.value.error == "authorization_pending" || last.value.error == "slow_down" then
              r == Cancelled || r == TimedOut
            else if last.value.error == "expired_token" then r == Refused("enrollment expired before approval")
            else if last.value.error == "already_claimed" then
              r == Refused("enrollment was already claimed by another agent")
            else if last.value.error == "" then r == Refused("poll failed")
            else r == Refused("poll error: " + last.value.error)
  {
    hide Fires, Slowdowns;
  }

  /** How many of the first k polls were answered with slow_down. */
  ghost function SlowedBy(log: seq<PollRecord>, k: nat, w: World): nat
    requires k <= |log|
  {
    |set m: nat | m < k && SaysSlowDown(w.response(m))|
  }

  predicate SaysSlowDown(response: Option<Response>) {
    response.Some? && response.value.status != 200 && response.value.error == "slow_down"
  }

  lemma SlowedByOneMore(log: seq<PollRecord>, k: nat, w: World)
    requires k < |log|
    ensures SlowedBy(log, k + 1, w) == SlowedBy(log, k, w) + if SaysSlowDown(w.response(k)) then 1 else 0
  {
    hide SaysSlowDown;
    var before := set m: nat | m < k && SaysSlowDown(w.response(m));
    var slow := set m: nat | m < k + 1 && SaysSlowDown(w.response(m));
    assert slow == if SaysSlowDown(w.response(k)) then before + {k} else before;
  }

  lemma NothingSlowed(log: seq<PollRecord>, w: World)
    ensures SlowedBy(log, 0, w) == 0
  {
    assert (set m: nat | m < 0 && SaysSlowDown(w.response(m))) == {};
  }

  lemma {:induction false} SlowdownsAreCounted(log: seq<PollRecord>, first: int, t0: int, deadline: int, w: World,
                                               k: nat)
    requires Paced(log, first, t0, deadline, w) && k <= |log|
    ensures Slowdowns(log[..k]) == SlowedBy(log, k, w)
    decreases k
  {
    hide Classify, Fires, SlowedBy, SaysSlowDown;
    if k == 0 {
      NothingSlowed(log, w);
    } else {
      SlowdownsAreCounted(log, first, t0, deadline, w, k - 1);
      PacedPrefix(log, first, t0, deadline, w, k);
      assert log[..k][..k - 1] == log[..k - 1];
      ClassifiesSlowDown(w.response(k - 1));
      SlowedByOneMore(log, k - 1, w);
    }
  }

  lemma ClassifiesSlowDown(response: Option<Response>)
    ensures Classify(response) == SlowDown <==> SaysSlowDown(response)
  {
  }

  /** When each poll is sent: after the last answer, or after the start, come the service's interval, one
      second more for every slow_down so far, and what the timer is late. */
  lemma SentExactly(log: seq<PollRecord>, start: Requests.StartReply, t0: int, w: World, r: Outcome, k: nat)
    requires Polled(log, start, t0, w, r) && k < |log|
    ensures var interval := if start.interval >= 1 then start.interval else 2;
            log[k].sent == (if k == 0 then t0 else log[k - 1].got)
                           + (interval + SlowedBy(log, k, w)) * 1_000_000_000 + w.late(k)
    ensures log[k].got == log[k].sent + w.took(k)
    ensures log[k].sent <= t0 + start.expiresIn * 1_000_000_000 && !w.cancelled(k)
  {
    var first, deadline := FirstInterval(start), Deadline(start, t0);
    PacedPrefix(log, first, t0, deadline, w, k + 1);
    SlowdownsAreCounted(log, first, t0, deadline, w, k);
    assert log[..k + 1][..k] == log[..k];
    hide Classify, SlowedBy, Slowdowns;
  }

  lemma SameNextPoll(log1: seq<PollRecord>, log2: seq<PollRecord>, first: int, t0: int, deadline: int, w: World,
                     n: nat)
    requires Paced(log1, first, t0, deadline, w) && Paced(log2, first, t0, deadline, w)
    requires |log1| == |log2| == n + 1 && log1[..n] == log2[..n]
    ensures log1 == log2
  {
    hide Slowdowns, Classify, Fires, ToldToGoOn;
    assert log1[n] == log2[n];
    assert log1 == log1[..n] + [log1[n]] && log2 == log2[..n] + [log2[n]];
  }

  /** What the loop meets determines what it polls: of two runs of it one is not longer than the other
      and has the same polls as far as it goes. */
  lemma {:induction false} PollsAreDetermined(log1: seq<PollRecord>, log2: seq<PollRecord>, first: int, t0: int,
                                              deadline: int, w: World, n: nat)
    requires Paced(log1, first, t0, deadline, w) && Paced(log2, first, t0, deadline, w)
    requires n <= |log1| && n <= |log2|
    ensures log1[..n] == log2[..n]
  {
    hide *;
    if n > 0 {
      PollsAreDetermined(log1, log2, first, t0, deadline, w, n - 1);
      PacedPrefix(log1, first, t0, deadline, w, n);
      PacedPrefix(log2, first, t0, deadline, w, n);
      assert log1[..n][..n - 1] == log1[..n - 1] && log2[..n][..n - 1] == log2[..n - 1];
      SameNextPoll(log1[..n], log2[..n], first, t0, deadline, w, n - 1);
    }
  }

  /** So the result is determined, too. */
  lemma OneOutcome(log1: seq<PollRecord>, log2: seq<PollRecord>, first: int, t0: int, deadline: int, w: World,
                   r1: Outcome, r2: Outcome)
    requires Paced(log1, first, t0, deadline, w) && EndsWith(log1, first, t0, deadline, w, r1)
    requires Paced(log2, first, t0, deadline, w) && EndsWith(log2, first, t0, deadline, w, r2)
    ensures log1 == log2 && r1 == r2
  {
    if |log1| < |log2| {
      NotLonger(log1, log2, first, t0, deadline, w, r1);
    } else if |log2| < |log1| {
      NotLonger(log2, log1, first, t0, deadline, w, r2);
    } else {
      assert log1[..|log1|] == log1 && log2[..|log2|] == log2;
      PollsAreDetermined(log1, log2, first, t0, deadline, w, |log1|);
      hide Slowdowns, Classify, Fires, Paced;
    }
  }

  lemma NextPollWasDue(log: seq<PollRecord>, first: int, t0: int, deadline: int, w: World, n: nat, r: Outcome)
    requires Paced(log, first, t0, deadline, w) && n < |log|
    ensures !EndsWith(log[..n], first, t0, deadline, w, r)
  {
    PacedPrefix(log, first, t0, deadline, w, n + 1);
    assert log[..n + 1][..n] == log[..n];
    hide Slowdowns, Classify, Fires;
  }

  lemma NotLonger(log1: seq<PollRecord>, log2: seq<PollRecord>, first: int, t0: int, deadline: int, w: World,
                  r: Outcome)
    requires Paced(log1, first, t0, deadline, w) && EndsWith(log1, first, t0, deadline, w, r)
    requires Paced(log2, first, t0, deadline, w)
    ensures |log2| <= |log1|
  {
    hide *;
    if |log1| < |log2| {
      assert log1[..|log1|] == log1;
      NextPollWasDue(log2, first, t0, deadline, w, |log1|, r);
      PollsAreDetermined(log1, log2, first, t0, deadline, w, |log1|);
    }
  }

  // ----- how many polls there can be ---------------------------------------------------------------

  lemma {:induction false} PacedTakesTime(log: seq<PollRecord>, first: int, t0: int, deadline: int, w: World)
    requires Paced(log, first, t0, deadline, w) && first >= 1 && log != []
    ensures t0 + Waits(log, first) * SECOND <= log[|log| - 1].sent
  {
    var n := |log| - 1;
    if n > 0 {
      PacedTakesTime(log[..n], first, t0, deadline, w);
    } else {
      assert log[..n] == [];
    }
  }

  lemma OneWaitMore(waits: int, n: nat, first: int, s0: nat, s: nat)
    requires 2 * waits >= 2 * (n * first) + s0 * (s0 + 1) && (s == s0 || s == s0 + 1)
    ensures 2 * (waits + first + s) >= 2 * ((n + 1) * first) + s * (s + 1)
  {
    assert (n + 1) * first == n * first + first;
  }

  lemma {:induction false} WaitsGrow(log: seq<PollRecord>, first: int)
    requires log != []
    ensures var s := Slowdowns(log[..|log| - 1]);
            2 * Waits(log, first) >= 2 * (|log| * first) + s * (s + 1)
  {
    var n := |log| - 1;
    var s := Slowdowns(log[..n]);
    if n == 0 {
      assert log[..n] == [];
    } else {
      WaitsGrow(log[..n], first);
      var s0 := Slowdowns(log[..n][..n - 1]);
      assert s == s0 || s == s0 + 1;
      assert Waits(log, first) == Waits(log[..n], first) + first + s;
      hide *;
      OneWaitMore(Waits(log[..n], first), n, first, s0, s);
    }
  }

  lemma HalfIsEnough(product: int, s: nat, waits: int)
    requires 2 * waits >= 2 * product + s * (s + 1)
    ensures product + s * (s + 1) / 2 <= waits
  {
  }

  /** The loop is bounded: n polls, with s slow-downs among the replies to all but the last, have
      taken n * i + s (s + 1) / 2 seconds of waiting, which the service's time limit covers. */
  lemma PollsAreFew(log: seq<PollRecord>, start: Requests.StartReply, t0: int, w: World)
    requires Paced(log, FirstInterval(start), t0, Deadline(start, t0), w) && log != []
    ensures var s := Slowdowns(log[..|log| - 1]);
            |log| * FirstInterval(start) + s * (s + 1) / 2 <= start.expiresIn
  {
    var first := FirstInterval(start);
    var s := Slowdowns(log[..|log| - 1]);
    PacedTakesTime(log, first, t0, Deadline(start, t0), w);
    WaitsGrow(log, first);
    assert Waits(log, first) <= start.expiresIn;
    hide *;
    HalfIsEnough(|log| * first, s, Waits(log, first));
  }

  lemma {:induction false} PacedPrefix(log: seq<PollRecord>, first: int, t0: int, deadline: int, w: World, n: nat)
    requires Paced(log, first, t0, deadline, w) && n <= |log|
    ensures Paced(log[..n], first, t0, deadline, w)
    decreases |log|
  {
    if n < |log| {
      PacedPrefix(log[..|log| - 1], first, t0, deadline, w, n);
      assert log[..|log| - 1][..n] == log[..n];
    } else {
      assert log[..n] == log;
    }
  }

  /** One agent's polls do not overlap: each is answered at least a second before the next is sent. */
  lemma {:induction false} PollsDoNotOverlap(log: seq<PollRecord>, first: int, t0: int, deadline: int, w: World,
                                             a: nat, b: nat)
    requires Paced(log, first, t0, deadline, w) && first >= 1 && a < b < |log|
    ensures log[a].got + SECOND <= log[b].sent
    decreases b
  {
    PacedPrefix(log, first, t0, deadline, w, b + 1);
    assert log[..b + 1][..b] == log[..b];
    if a < b - 1 {
      PollsDoNotOverlap(log, first, t0, deadline, w, a, b - 1);
      PacedPrefix(log, first, t0, deadline, w, b);
    }
  }

  // ----- both ends together --------------------------------------------------------------------

  /** The agent never gives up on an enrollment that could still be claimed: once its timer has
      fired after its own deadline, the service would call the enrollment expired, whatever had
      happened to it. */
  lemma GivesUpOnlyWhenExpired(dbs: seq<DB>, reqs: seq<Requests.Request>, lib: Requests.Library, i: nat, j: nat,
                               start: Requests.StartReply, t0: int, log: seq<PollRecord>, w: World)
    requires EnrollRuns.IsRun(dbs, reqs, lib) && i < j < |reqs| && EnrollRuns.Starts(dbs, reqs, i)
    requires start.expiresIn == 600 && reqs[i].at <= t0
    requires Fires(log, FirstInterval(start), t0, w) > Deadline(start, t0)
    requires reqs[j].Poll? && reqs[j].code == reqs[i].deviceCode
    requires Fires(log, FirstInterval(start), t0, w) <= reqs[j].seen
    ensures Requests.PollReply(dbs[j], reqs[j], lib) == Requests.ExpiredToken
  {
    EnrollRuns.ExpiresExactly(dbs, reqs, lib, i, j);
  }

  /** What the agent was granted keeps working: the token it saves authenticates it, as the device
      and under the name it was told, in every later state of the service. */
  lemma EnrolledGrantWorks(dbs: seq<DB>, reqs: seq<Requests.Request>, lib: Requests.Library, i: nat, j: nat,
                           grant: Grant)
    requires EnrollRuns.IsRun(dbs, reqs, lib) && i < j < |dbs| && reqs[i].Poll?
    requires Classify(Some(Written(Requests.PollReply(dbs[i], reqs[i], lib)))) == Granted(grant)
    ensures |grant.id| == 36 && Authenticated(dbs[j], lib.hash, grant.token) == Some(grant.id)
    ensures grant.id in dbs[j].devices && dbs[j].devices[grant.id].name == grant.name
  {
    RepliesReadBack(Requests.PollReply(dbs[i], reqs[i], lib), grant);
    hide *;
    EnrollRuns.TokenWorksForEver(dbs, reqs, lib, i, j);
  }
}
