/** Which reply a request gets, said by the requests before it: what has been started, approved and
    granted by then. */
module EnrollReplies {
  import opened Wire
  import opened Tables
  import opened Typing
  import opened Requests
  import opened EnrollRuns

  /** The last moment of an enrollment: ten minutes after its start, rounded down to a second. */
  function Limit(start: Request): int
    requires start.Start?
  {
    Unix(start.at + 600 * SECOND) * SECOND
  }

  /** Request k is the operator's approval, in time, of the enrollment that request i started. */
  ghost predicate Approves(reqs: seq<Request>, lib: Library, i: nat, k: nat) {
    i < k < |reqs| && reqs[i].Start? && reqs[k].Approve?
    && Types(reqs[k].typed, reqs[i].userCode, lib.upper) && reqs[k].at < Limit(reqs[i])
  }

  ghost predicate GrantedPoll(dbs: seq<DB>, reqs: seq<Request>, lib: Library, k: int, c: string) {
    0 <= k < |reqs| < |dbs| && reqs[k].Poll? && reqs[k].code == c && PollReply(dbs[k], reqs[k], lib).Granted?
  }

  // ----- what a start leaves -----------------------------------------------------------------------

  /** A start stores the code it gave, what the agent says of itself and the expiry, in whole seconds; of
      these nothing changes later. */
  lemma StartedRow(dbs: seq<DB>, reqs: seq<Request>, lib: Library, i: nat, j: nat)
    requires IsRun(dbs, reqs, lib) && i < j < |dbs| && Starts(dbs, reqs, i)
    ensures dbs[i + 1].enrollments[reqs[i].deviceCode]
            == EnrollmentRow(reqs[i].userCode, Unix(reqs[i].at + 600 * SECOND), false, None, None,
                             reqs[i].platform, reqs[i].hostname)
    ensures reqs[i].deviceCode in dbs[j].enrollments
    ensures var row := dbs[j].enrollments[reqs[i].deviceCode];
            row.userCode == reqs[i].userCode && row.expiresAt * SECOND == Limit(reqs[i])
            && row.platform == reqs[i].platform && row.hostname == reqs[i].hostname
  {
    RunStep(dbs, reqs, lib, i);
    RunLater(dbs, reqs, lib, i + 1, j);
    hide IsRun, PollReply;
  }

  lemma {:induction false} StartHappened(dbs: seq<DB>, reqs: seq<Request>, lib: Library, j: nat, c: string)
    returns (i: nat)
    requires IsRun(dbs, reqs, lib) && j < |dbs| && c in dbs[j].enrollments
    ensures i < j && Starts(dbs, reqs, i) && reqs[i].deviceCode == c
  {
    hide Next;
    RunStep(dbs, reqs, lib, j - 1);
    hide IsRun, Next, Starts;
    if c in dbs[j - 1].enrollments {
      i := StartHappened(dbs, reqs, lib, j - 1, c);
    } else {
      i := j - 1;
      OnlyStartsStart(dbs[i], reqs[i], lib, c);
      assert Starts(dbs, reqs, i) by {
        StartsMeans(dbs, reqs, i, c);
      }
    }
  }

  lemma StartsMeans(dbs: seq<DB>, reqs: seq<Request>, i: nat, c: string)
    requires i < |reqs| && i + 1 < |dbs| && reqs[i].Start? && reqs[i].deviceCode == c
    requires c !in dbs[i].enrollments && c in dbs[i + 1].enrollments
    ensures Starts(dbs, reqs, i)
  {
  }

  lemma OnlyStartsStart(db: DB, r: Request, lib: Library, c: string)
    requires c !in db.enrollments && c in Next(db, r, lib).enrollments
    ensures r.Start? && r.deviceCode == c
  {
    hide Normalize, Trim;
    if r.Poll? && PollReply(db, r, lib).Granted? {
      GrantMeans(db, r, lib);
    }
  }

  /** A poll is answered as unknown exactly if no request before it started its device code. */
  lemma UnknownExactly(dbs: seq<DB>, reqs: seq<Request>, lib: Library, j: nat)
    requires IsRun(dbs, reqs, lib) && j < |reqs| && reqs[j].Poll?
    ensures PollReply(dbs[j], reqs[j], lib) == InvalidDeviceCode <==>
            forall i :: 0 <= i < j ==> !(Starts(dbs, reqs, i) && reqs[i].deviceCode == reqs[j].code)
  {
    if reqs[j].code in dbs[j].enrollments {
      var i := StartHappened(dbs, reqs, lib, j, reqs[j].code);
    }
    forall i | 0 <= i < j && Starts(dbs, reqs, i) && reqs[i].deviceCode == reqs[j].code
      ensures reqs[j].code in dbs[j].enrollments
    {
      RunLater(dbs, reqs, lib, i + 1, j);
    }
  }

  /** A start is stored exactly if no earlier one has its device code or its user code. */
  lemma StartsExactly(dbs: seq<DB>, reqs: seq<Request>, lib: Library, j: nat)
    requires IsRun(dbs, reqs, lib) && j < |reqs| && reqs[j].Start?
    ensures Starts(dbs, reqs, j) <==>
            forall i :: 0 <= i < j && Starts(dbs, reqs, i) ==>
              reqs[i].deviceCode != reqs[j].deviceCode && reqs[i].userCode != reqs[j].userCode
  {
    RunStep(dbs, reqs, lib, j);
    forall i | 0 <= i < j && Starts(dbs, reqs, i)
      ensures reqs[i].deviceCode in dbs[j].enrollments
              && dbs[j].enrollments[reqs[i].deviceCode].userCode == reqs[i].userCode
    {
      StartedRow(dbs, reqs, lib, i, j);
    }
    hide IsRun;
    if reqs[j].deviceCode in dbs[j].enrollments {
      var i := StartHappened(dbs, reqs, lib, j, reqs[j].deviceCode);
    } else if UserCodeTaken(dbs[j], reqs[j].userCode) {
      var c :| c in dbs[j].enrollments && dbs[j].enrollments[c].userCode == reqs[j].userCode;
      var i := StartHappened(dbs, reqs, lib, j, c);
    }
  }

  // ----- approved, claimed, taken ------------------------------------------------------------------

  lemma ApprovedExactly(dbs: seq<DB>, reqs: seq<Request>, lib: Library, i: nat, j: nat)
    requires IsRun(dbs, reqs, lib) && i < j < |dbs| && Starts(dbs, reqs, i)
    ensures reqs[i].deviceCode in dbs[j].enrollments
    ensures dbs[j].enrollments[reqs[i].deviceCode].approved <==> exists k :: i < k < j && Approves(reqs, lib, i, k)
  {
    var c := reqs[i].deviceCode;
    StartedRow(dbs, reqs, lib, i, j);
    if dbs[j].enrollments[c].approved {
      var k := ApprovalWasMeant(dbs, reqs, lib, i, j);
    }
    forall k | i < k < j && Approves(reqs, lib, i, k) ensures dbs[j].enrollments[c].approved {
      ApprovalWorks(dbs, reqs, lib, i, k, j);
    }
  }

  lemma ApprovalWasMeant(dbs: seq<DB>, reqs: seq<Request>, lib: Library, i: nat, j: nat) returns (k: nat)
    requires IsRun(dbs, reqs, lib) && i < j < |dbs| && Starts(dbs, reqs, i)
    requires reqs[i].deviceCode in dbs[j].enrollments && dbs[j].enrollments[reqs[i].deviceCode].approved
    ensures i < k < j && Approves(reqs, lib, i, k)
  {
    var c := reqs[i].deviceCode;
    k := ApprovalHappened(dbs, reqs, lib, j, c);
    RunStep(dbs, reqs, lib, i);
    if k <= i {
      RunLater(dbs, reqs, lib, k, i);
    }
    StartedRow(dbs, reqs, lib, i, k);
    hide IsRun, Next, Normalize, Types;
    NormalizesExactly(reqs[k].typed, reqs[i].userCode, lib.upper);
  }

  lemma ApprovalWorks(dbs: seq<DB>, reqs: seq<Request>, lib: Library, i: nat, k: nat, j: nat)
    requires IsRun(dbs, reqs, lib) && i < k < j < |dbs| && Starts(dbs, reqs, i) && Approves(reqs, lib, i, k)
    ensures reqs[i].deviceCode in dbs[j].enrollments && dbs[j].enrollments[reqs[i].deviceCode].approved
  {
    var c := reqs[i].deviceCode;
    StartedRow(dbs, reqs, lib, i, k);
    ApprovalTouchesOneRow(dbs, reqs, lib, k, c);
    RunLater(dbs, reqs, lib, k, j);
    RunLater(dbs, reqs, lib, k + 1, j);
    hide IsRun, Types;
  }

  lemma ClaimedExactly(dbs: seq<DB>, reqs: seq<Request>, lib: Library, j: nat, c: string)
    requires IsRun(dbs, reqs, lib) && j < |dbs| && c in dbs[j].enrollments
    ensures dbs[j].enrollments[c].deviceID.Some? <==> exists k :: 0 <= k < j && GrantedPoll(dbs, reqs, lib, k, c)
  {
    if dbs[j].enrollments[c].deviceID.Some? {
      var k := ClaimWasGranted(dbs, reqs, lib, j, c, dbs[j].enrollments[c].deviceID.value);
      assert GrantedPoll(dbs, reqs, lib, k, c);
    }
    forall k | 0 <= k < j && GrantedPoll(dbs, reqs, lib, k, c) ensures dbs[j].enrollments[c].deviceID.Some? {
      GrantClaims(dbs, reqs, lib, k, j);
    }
  }

  lemma GrantClaims(dbs: seq<DB>, reqs: seq<Request>, lib: Library, k: nat, j: nat)
    requires IsRun(dbs, reqs, lib) && k < j < |dbs| && reqs[k].Poll? && PollReply(dbs[k], reqs[k], lib).Granted?
    ensures reqs[k].code in dbs[j].enrollments && dbs[j].enrollments[reqs[k].code].deviceID.Some?
  {
    RunStep(dbs, reqs, lib, k);
    GrantMeans(dbs[k], reqs[k], lib);
    RunLater(dbs, reqs, lib, k + 1, j);
  }

  /** No poll granted before has the device id or the token hash of poll j. */
  ghost predicate FreshDevice(dbs: seq<DB>, reqs: seq<Request>, lib: Library, j: nat)
    requires j < |reqs| && reqs[j].Poll?
  {
    forall k, c :: 0 <= k < j && GrantedPoll(dbs, reqs, lib, k, c) ==>
      reqs[k].id != reqs[j].id && lib.hash(reqs[k].token) != lib.hash(reqs[j].token)
  }

  lemma FreshExactly(dbs: seq<DB>, reqs: seq<Request>, lib: Library, j: nat)
    requires IsRun(dbs, reqs, lib) && j < |reqs| && reqs[j].Poll?
    ensures FreshDevice(dbs, reqs, lib, j) <==>
            reqs[j].id !in dbs[j].devices && !HashTaken(dbs[j].devices, lib.hash(reqs[j].token))
  {
    var id, hash := reqs[j].id, lib.hash(reqs[j].token);
    forall k, c | 0 <= k < j && GrantedPoll(dbs, reqs, lib, k, c)
      ensures reqs[k].id in dbs[j].devices && dbs[j].devices[reqs[k].id].tokenHash == lib.hash(reqs[k].token)
    {
      GrantKept(dbs, reqs, lib, k, j);
    }
    if id in dbs[j].devices {
      TakenBefore(dbs, reqs, lib, j, id);
      assert !FreshDevice(dbs, reqs, lib, j);
    }
    if HashTaken(dbs[j].devices, hash) {
      var d :| d in dbs[j].devices && dbs[j].devices[d].tokenHash == hash;
      TakenBefore(dbs, reqs, lib, j, d);
      assert !FreshDevice(dbs, reqs, lib, j);
    }
    hide IsRun, GrantedPoll;
    if id !in dbs[j].devices && !HashTaken(dbs[j].devices, hash) {
      forall k, c | 0 <= k < j && GrantedPoll(dbs, reqs, lib, k, c)
        ensures reqs[k].id != id && lib.hash(reqs[k].token) != hash
      {
        assert dbs[j].devices[reqs[k].id].tokenHash == lib.hash(reqs[k].token);
      }
    }
  }

  lemma GrantKept(dbs: seq<DB>, reqs: seq<Request>, lib: Library, k: nat, j: nat)
    requires IsRun(dbs, reqs, lib) && k < j < |dbs| && reqs[k].Poll? && PollReply(dbs[k], reqs[k], lib).Granted?
    ensures reqs[k].id in dbs[j].devices && dbs[j].devices[reqs[k].id].tokenHash == lib.hash(reqs[k].token)
  {
    RunStep(dbs, reqs, lib, k);
    GrantMeans(dbs[k], reqs[k], lib);
    RunLater(dbs, reqs, lib, k + 1, j);
  }

  lemma TakenBefore(dbs: seq<DB>, reqs: seq<Request>, lib: Library, j: nat, d: Uuid)
    requires IsRun(dbs, reqs, lib) && j < |dbs| && d in dbs[j].devices
    ensures exists k, c :: 0 <= k < j && GrantedPoll(dbs, reqs, lib, k, c) && reqs[k].id == d
                           && lib.hash(reqs[k].token) == dbs[j].devices[d].tokenHash
  {
    var k := DeviceWasGranted(dbs, reqs, lib, j, d);
    hide IsRun;
    assert GrantedPoll(dbs, reqs, lib, k, reqs[k].code);
  }

  // ----- the reply to a poll -------------------------------------------------------------------------

  /** The reply to a poll of a started enrollment, by what came before: expired from ten minutes after the
      start on; until then pending before an approval, granted once, if the claim is in time too, its id and
      token are new and the transaction commits, and already claimed after that. A claim that
      fails is a server error. */
  lemma RepliesExactly(dbs: seq<DB>, reqs: seq<Request>, lib: Library, i: nat, j: nat)
    requires IsRun(dbs, reqs, lib) && i < j < |reqs| && Starts(dbs, reqs, i)
    requires reqs[j].Poll? && reqs[j].code == reqs[i].deviceCode
    ensures var reply, r, limit := PollReply(dbs[j], reqs[j], lib), reqs[j], Limit(reqs[i]);
            var approved := exists k :: i < k < j && Approves(reqs, lib, i, k);
            var granted := exists k :: 0 <= k < j && GrantedPoll(dbs, reqs, lib, k, r.code);
            var claims := r.checked <= limit && FreshDevice(dbs, reqs, lib, j) && r.commits;
            (reply == ExpiredToken <==> r.seen > limit)
            && (reply == AuthorizationPending <==> r.seen <= limit && !approved)
            && (reply == AlreadyClaimed <==> r.seen <= limit && granted)
            && (reply.Granted? <==> r.seen <= limit && approved && !granted && claims)
            && (reply == ServerError <==> r.seen <= limit && approved && !granted && !claims)
            && (reply.Granted? ==> reply.id == r.id && reply.token == r.token)
  {
    var c := reqs[j].code;
    StartedRow(dbs, reqs, lib, i, j);
    ApprovedExactly(dbs, reqs, lib, i, j);
    ClaimedExactly(dbs, reqs, lib, j, c);
    FreshExactly(dbs, reqs, lib, j);
    RunOk(dbs, reqs, lib, j);
    hide IsRun, Starts, Approves, FreshDevice, GrantedPoll, KeepsSchema;
    RowReplies(dbs[j], reqs[j], lib, Limit(reqs[i]));
  }

  /** The reply by the row the poll finds. */
  lemma RowReplies(db: DB, r: Request, lib: Library, limit: int)
    requires r.Poll? && r.code in db.enrollments && db.enrollments[r.code].expiresAt * SECOND == limit && OneToOne(db)
    ensures var reply, row := PollReply(db, r, lib), db.enrollments[r.code];
            var claims := r.checked <= limit
                          && (r.id !in db.devices && !HashTaken(db.devices, lib.hash(r.token))) && r.commits;
            (reply == ExpiredToken <==> r.seen > limit)
            && (reply == AuthorizationPending <==> r.seen <= limit && !row.approved)
            && (reply == AlreadyClaimed <==> r.seen <= limit && row.deviceID.Some?)
            && (reply.Granted? <==> r.seen <= limit && row.approved && !row.deviceID.Some? && claims)
            && (reply == ServerError <==> r.seen <= limit && row.approved && !row.deviceID.Some? && !claims)
            && (reply.Granted? ==> reply.id == r.id && reply.token == r.token)
  {
    assert row: db.enrollments[r.code].deviceID.Some? ==> ClaimedBy(db, r.code, db.enrollments[r.code].deviceID.value);
    hide NameFor, DevicesClaimed, ClaimsDiffer;
  }

  // ----- what a device's row says --------------------------------------------------------------------

  /** A granted device has the platform the agent named at the start, was created in the second of the
      claim, and its token is kept as a hash. */
  lemma DeviceRowIs(dbs: seq<DB>, reqs: seq<Request>, lib: Library, i: nat, k: nat, j: nat)
    requires IsRun(dbs, reqs, lib) && i < k < j < |dbs| && Starts(dbs, reqs, i)
    requires GrantedPoll(dbs, reqs, lib, k, reqs[i].deviceCode)
    ensures reqs[k].id in dbs[j].devices
    ensures var row := dbs[j].devices[reqs[k].id];
            row.platform == reqs[i].platform && row.tokenHash == lib.hash(reqs[k].token)
            && row.createdAt * SECOND <= reqs[k].stamped < (row.createdAt + 1) * SECOND
  {
    StartedRow(dbs, reqs, lib, i, k);
    RunStep(dbs, reqs, lib, k);
    GrantMeans(dbs[k], reqs[k], lib);
    RunLater(dbs, reqs, lib, k + 1, j);
    hide IsRun, PollReply, Starts;
    WholeSeconds(reqs[k].stamped);
  }

  lemma WholeSeconds(now: int)
    ensures Unix(now) * SECOND <= now < (Unix(now) + 1) * SECOND
  {
  }

  lemma StepSees(db: DB, r: Request, lib: Library, d: Uuid)
    requires d in db.devices
    ensures d in Next(db, r, lib).devices
    ensures Next(db, r, lib).devices[d].lastSeen
            == if r.Touch? && r.device == d then Unix(r.at) else db.devices[d].lastSeen
  {
    if r.Poll? && PollReply(db, r, lib).Granted? {
      GrantMeans(db, r, lib);
    }
    hide Normalize, Trim, PollReply, Materialized;
  }

  /** Request m is a touch of the device. */
  predicate TouchAt(reqs: seq<Request>, m: nat, d: Uuid) {
    m < |reqs| && reqs[m].Touch? && reqs[m].device == d
  }

  /** When a device was last seen is unchanged while it is not touched... */
  lemma {:induction false} SeenStays(dbs: seq<DB>, reqs: seq<Request>, lib: Library, m: nat, j: nat, d: Uuid)
    requires IsRun(dbs, reqs, lib) && m <= j < |dbs| && d in dbs[m].devices
    requires forall k :: m <= k < j ==> !TouchAt(reqs, k, d)
    ensures d in dbs[j].devices && dbs[j].devices[d].lastSeen == dbs[m].devices[d].lastSeen
    decreases j
  {
    if m < j {
      SeenStays(dbs, reqs, lib, m, j - 1, d);
      RunStep(dbs, reqs, lib, j - 1);
      assert !TouchAt(reqs, j - 1, d);
      hide IsRun, Next;
      StepSees(dbs[j - 1], reqs[j - 1], lib, d);
    }
  }

  /** ... and so it is the second of the last touch, or 0 before the first. */
  lemma LastSeen(dbs: seq<DB>, reqs: seq<Request>, lib: Library, m: nat, j: nat, d: Uuid)
    requires IsRun(dbs, reqs, lib) && m < j < |dbs| && forall k :: m < k < j ==> !TouchAt(reqs, k, d)
    ensures TouchAt(reqs, m, d) && d in dbs[m].devices ==>
              d in dbs[j].devices
              && dbs[j].devices[d].lastSeen * SECOND <= reqs[m].at < (dbs[j].devices[d].lastSeen + 1) * SECOND
    ensures d !in dbs[m].devices && d in dbs[m + 1].devices ==>
              d in dbs[j].devices && dbs[j].devices[d].lastSeen == 0
  {
    RunStep(dbs, reqs, lib, m);
    if d in dbs[m].devices {
      StepSees(dbs[m], reqs[m], lib, d);
      SeenStays(dbs, reqs, lib, m + 1, j, d);
      hide *;
      if TouchAt(reqs, m, d) {
        Touching(reqs, m, d);
        WholeSeconds(reqs[m].at);
      }
    } else if d in dbs[m + 1].devices {
      StepDevices(dbs[m], reqs[m], lib, d);
      GrantMeans(dbs[m], reqs[m], lib);
      SeenStays(dbs, reqs, lib, m + 1, j, d);
    }
  }

  lemma Touching(reqs: seq<Request>, m: nat, d: Uuid)
    requires TouchAt(reqs, m, d)
    ensures reqs[m].Touch? && reqs[m].device == d
  {
  }
}
