/** Whole runs of enrollment requests, each served as one step, on a clock that does not go back. */
module EnrollRuns {
  import opened Wire
  import opened Tables
  import opened Typing
  import opened UserCodes
  import opened Requests

  ghost predicate IsRun(dbs: seq<DB>, reqs: seq<Request>, lib: Library) {
    |dbs| == |reqs| + 1 && dbs[0] == EMPTY
    && (forall i {:trigger reqs[i]} :: 0 <= i < |reqs| ==> Proper(reqs[i]) && dbs[i + 1] == Next(dbs[i], reqs[i], lib))
    && (forall i, j :: 0 <= i < j < |reqs| ==> EndedAt(reqs[i]) <= StartedAt(reqs[j]))
  }

  lemma RunStep(dbs: seq<DB>, reqs: seq<Request>, lib: Library, i: nat)
    requires IsRun(dbs, reqs, lib) && i < |reqs|
    ensures i + 1 < |dbs| && dbs[i + 1] == Next(dbs[i], reqs[i], lib) && Proper(reqs[i])
  {
  }

  // ----- what one request can do to the tables ----------------------------------------------

  /** Rows are never lost; of an enrollment only the approval, the operator's name and the device
      can change, forwards only; of a device only when it was last seen. */
  ghost predicate Later(a: DB, b: DB) {
    (forall c :: c in a.enrollments ==> c in b.enrollments && RowLater(a.enrollments[c], b.enrollments[c]))
    && (forall d :: d in a.devices ==>
          d in b.devices && b.devices[d] == a.devices[d].(lastSeen := b.devices[d].lastSeen))
  }

  ghost predicate RowLater(a: EnrollmentRow, b: EnrollmentRow) {
    (a.approved ==> b.approved && b.proposedName == a.proposedName)
    && (a.deviceID.Some? ==> b.deviceID == a.deviceID)
    && b.userCode == a.userCode && b.expiresAt == a.expiresAt && b.platform == a.platform && b.hostname == a.hostname
  }

  lemma LaterTransitive(a: DB, b: DB, c: DB)
    requires Later(a, b) && Later(b, c)
    ensures Later(a, c)
  {
  }

  /** A poll that is granted: the tables gain exactly the device, and the row its id. */
  lemma GrantMeans(db: DB, r: Request, lib: Library)
    requires r.Poll? && PollReply(db, r, lib).Granted?
    ensures r.code in db.enrollments && r.id !in db.devices && !HashTaken(db.devices, lib.hash(r.token))
    ensures var row := db.enrollments[r.code];
            row.approved && row.deviceID.None? && !After(r.seen, row.expiresAt) && !After(r.checked, row.expiresAt)
            && PollReply(db, r, lib) == Granted(r.id, r.token, NameFor(row, r.id))
            && Next(db, r, lib) == DB(db.devices[r.id := DeviceFor(row, r, lib)],
                                      db.enrollments[r.code := row.(deviceID := Some(r.id))])
  {
  }

  lemma StepLater(db: DB, r: Request, lib: Library)
    ensures Later(db, Next(db, r, lib))
  {
    if r.Poll? && PollReply(db, r, lib).Granted? {
      GrantMeans(db, r, lib);
    }
  }

  lemma StepKeepsSchema(db: DB, r: Request, lib: Library)
    requires KeepsSchema(db)
    ensures KeepsSchema(Next(db, r, lib))
  {
    if r.Poll? && PollReply(db, r, lib).Granted? {
      GrantMeans(db, r, lib);
    }
  }

  /** Only a granted poll changes any claim, and it adds one. */
  lemma StepClaims(db: DB, r: Request, lib: Library, c: string, d: Uuid)
    ensures ClaimedBy(Next(db, r, lib), c, d) <==>
            ClaimedBy(db, c, d) || (r.Poll? && PollReply(db, r, lib).Granted? && c == r.code && d == r.id)
  {
    if r.Poll? && PollReply(db, r, lib).Granted? {
      GrantMeans(db, r, lib);
    }
  }

  lemma StepDevices(db: DB, r: Request, lib: Library, d: Uuid)
    ensures d in Next(db, r, lib).devices <==>
            d in db.devices || (r.Poll? && PollReply(db, r, lib).Granted? && d == r.id)
  {
    if r.Poll? && PollReply(db, r, lib).Granted? {
      GrantMeans(db, r, lib);
    }
  }

  lemma StepKeepsOneToOne(db: DB, r: Request, lib: Library)
    requires OneToOne(db)
    ensures OneToOne(Next(db, r, lib))
  {
    hide Next, PollReply;
    var after := Next(db, r, lib);
    var granted := r.Poll? && PollReply(db, r, lib).Granted?;
    assert Later(db, after) && (granted ==> r.id !in db.devices && db.enrollments[r.code].approved) by {
      if granted {
        GrantMeans(db, r, lib);
      }
      StepLater(db, r, lib);
    }
    assert granted ==> r.code in after.enrollments && after.enrollments[r.code].approved;
    forall c, d {
      StepClaims(db, r, lib, c, d);
    }
    forall d {
      StepDevices(db, r, lib, d);
    }
    assert ClaimsName(after);
    assert ClaimsDiffer(after);
    assert DevicesClaimed(after) by {
      assert granted ==> ClaimedBy(after, r.code, r.id);
    }
  }

  // ----- runs ------------------------------------------------------------------------------------

  lemma {:induction false} RunOk(dbs: seq<DB>, reqs: seq<Request>, lib: Library, i: nat)
    requires IsRun(dbs, reqs, lib) && i < |dbs|
    ensures KeepsSchema(dbs[i]) && OneToOne(dbs[i])
  {
    if i > 0 {
      RunOk(dbs, reqs, lib, i - 1);
      RunStep(dbs, reqs, lib, i - 1);
      hide *;
      StepKeepsSchema(dbs[i - 1], reqs[i - 1], lib);
      StepKeepsOneToOne(dbs[i - 1], reqs[i - 1], lib);
    }
  }

  lemma {:induction false} RunLater(dbs: seq<DB>, reqs: seq<Request>, lib: Library, i: nat, j: nat)
    requires IsRun(dbs, reqs, lib) && i <= j < |dbs|
    ensures Later(dbs[i], dbs[j])
    decreases j
  {
    if i < j {
      RunLater(dbs, reqs, lib, i, j - 1);
      RunStep(dbs, reqs, lib, j - 1);
      StepLater(dbs[j - 1], reqs[j - 1], lib);
      hide *;
      LaterTransitive(dbs[i], dbs[j - 1], dbs[j]);
    }
  }

  /** In every state of every run, the claimed enrollments and the devices are in one-to-one
      correspondence, and no two devices have the same token hash. */
  lemma ClaimsAndDevicesCorrespond(dbs: seq<DB>, reqs: seq<Request>, lib: Library, i: nat)
    requires IsRun(dbs, reqs, lib) && i < |dbs|
    ensures OneToOne(dbs[i]) && HashesUnique(dbs[i].devices)
  {
    RunOk(dbs, reqs, lib, i);
  }

  // ----- tokens -------------------------------------------------------------------------------

  /** Request i is a poll that was granted the device and a token with the hash. */
  ghost predicate GrantedAt(dbs: seq<DB>, reqs: seq<Request>, lib: Library, i: int, id: Uuid, tokenHash: string) {
    0 <= i < |reqs| < |dbs| && reqs[i].Poll? && PollReply(dbs[i], reqs[i], lib).Granted?
    && reqs[i].id == id && lib.hash(reqs[i].token) == tokenHash
  }

  /** The token a granted poll returned authenticates its device, under the name the poll returned,
      in every later state. */
  lemma TokenWorksForEver(dbs: seq<DB>, reqs: seq<Request>, lib: Library, i: nat, j: nat)
    requires IsRun(dbs, reqs, lib) && i < j < |dbs|
    requires reqs[i].Poll? && PollReply(dbs[i], reqs[i], lib).Granted?
    ensures var reply := PollReply(dbs[i], reqs[i], lib);
            Authenticated(dbs[j], lib.hash, reply.token) == Some(reply.id)
            && reply.id in dbs[j].devices && dbs[j].devices[reply.id].name == reply.name
  {
    var reply := PollReply(dbs[i], reqs[i], lib);
    RunStep(dbs, reqs, lib, i);
    GrantMeans(dbs[i], reqs[i], lib);
    RunLater(dbs, reqs, lib, i + 1, j);
    RunOk(dbs, reqs, lib, j);
    hide IsRun, Next, PollReply;
    AuthenticatedIs(dbs[j], lib.hash, reply.token, reply.id);
  }

  lemma {:induction false} DeviceWasGranted(dbs: seq<DB>, reqs: seq<Request>, lib: Library, j: nat, d: Uuid)
    returns (i: nat)
    requires IsRun(dbs, reqs, lib) && j < |dbs| && d in dbs[j].devices
    ensures i < j && GrantedAt(dbs, reqs, lib, i, d, dbs[j].devices[d].tokenHash)
  {
    hide Next;
    RunStep(dbs, reqs, lib, j - 1);
    hide Next;
    if d in dbs[j - 1].devices {
      i := DeviceWasGranted(dbs, reqs, lib, j - 1, d);
      RunLater(dbs, reqs, lib, j - 1, j);
    } else {
      i := j - 1;
      hide IsRun;
      StepDevices(dbs[i], reqs[i], lib, d);
      GrantMeans(dbs[i], reqs[i], lib);
    }
  }

  /** A token authenticates a device exactly when an earlier poll was granted that device and a
      token with the same hash. */
  lemma OnlyGrantedTokensWork(dbs: seq<DB>, reqs: seq<Request>, lib: Library, j: nat, token: string, id: Uuid)
    requires IsRun(dbs, reqs, lib) && j < |dbs|
    ensures Authenticated(dbs[j], lib.hash, token) == Some(id) <==>
            exists i :: i < j && GrantedAt(dbs, reqs, lib, i, id, lib.hash(token))
  {
    RunOk(dbs, reqs, lib, j);
    AuthenticatedIs(dbs[j], lib.hash, token, id);
    if Authenticated(dbs[j], lib.hash, token) == Some(id) {
      var i := DeviceWasGranted(dbs, reqs, lib, j, id);
    }
    forall i | i < j && GrantedAt(dbs, reqs, lib, i, id, lib.hash(token))
      ensures Authenticated(dbs[j], lib.hash, token) == Some(id)
    {
      TokenWorksForEver(dbs, reqs, lib, i, j);
      AuthenticatedIs(dbs[j], lib.hash, reqs[i].token, id);
    }
  }

  // ----- the replies to one device code --------------------------------------------------------

  function Rank(r: Reply): int {
    match r
    case InvalidDeviceCode => 0
    case AuthorizationPending => 1
    case ServerError => 2
    case Granted(_, _, _) => 3
    case AlreadyClaimed => 4
    case ExpiredToken => 5
  }

  lemma RanksRise(a: DB, b: DB, r1: Request, r2: Request, lib: Library)
    requires r1.Poll? && r2.Poll? && r1.code == r2.code && r1.seen <= r2.seen
    requires Later(Next(a, r1, lib), b)
    ensures Rank(PollReply(a, r1, lib)) <= Rank(PollReply(b, r2, lib))
    ensures !(PollReply(a, r1, lib).Granted? && PollReply(b, r2, lib).Granted?)
  {
    if PollReply(a, r1, lib).Granted? {
      GrantMeans(a, r1, lib);
    }
    hide Materialized;
  }

  lemma {:induction false} ClaimWasGranted(dbs: seq<DB>, reqs: seq<Request>, lib: Library, j: nat, c: string, d: Uuid)
    returns (i: nat)
    requires IsRun(dbs, reqs, lib) && j < |dbs| && ClaimedBy(dbs[j], c, d)
    ensures i < j && reqs[i].Poll? && reqs[i].code == c && reqs[i].id == d && PollReply(dbs[i], reqs[i], lib).Granted?
  {
    RunStep(dbs, reqs, lib, j - 1);
    if ClaimedBy(dbs[j - 1], c, d) {
      i := ClaimWasGranted(dbs, reqs, lib, j - 1, c, d);
    } else {
      i := j - 1;
      hide IsRun, Next, PollReply;
      StepClaims(dbs[i], reqs[i], lib, c, d);
    }
  }

  /** Of two polls of one device code, the later is answered no earlier phase. */
  lemma PollsGoForward(dbs: seq<DB>, reqs: seq<Request>, lib: Library, i: nat, j: nat)
    requires IsRun(dbs, reqs, lib) && i < j < |reqs|
    requires reqs[i].Poll? && reqs[j].Poll? && reqs[i].code == reqs[j].code
    ensures Rank(PollReply(dbs[i], reqs[i], lib)) <= Rank(PollReply(dbs[j], reqs[j], lib))
    ensures !(PollReply(dbs[i], reqs[i], lib).Granted? && PollReply(dbs[j], reqs[j], lib).Granted?)
  {
    RunStep(dbs, reqs, lib, i);
    RunStep(dbs, reqs, lib, j);
    RunLater(dbs, reqs, lib, i + 1, j);
    assert EndedAt(reqs[i]) <= StartedAt(reqs[j]);
    hide IsRun, Next, PollReply, Rank;
    RanksRise(dbs[i], dbs[j], reqs[i], reqs[j], lib);
  }

  lemma ClaimedOnlyAfterGrant(dbs: seq<DB>, reqs: seq<Request>, lib: Library, j: nat) returns (i: nat)
    requires IsRun(dbs, reqs, lib) && j < |reqs| && reqs[j].Poll?
    requires PollReply(dbs[j], reqs[j], lib).AlreadyClaimed?
    ensures i < j && reqs[i].Poll? && reqs[i].code == reqs[j].code && PollReply(dbs[i], reqs[i], lib).Granted?
  {
    i := ClaimWasGranted(dbs, reqs, lib, j, reqs[j].code, dbs[j].enrollments[reqs[j].code].deviceID.value);
  }

  /** Where the polls of a device code are. */
  function PollsOf(reqs: seq<Request>, c: string): (at: seq<nat>)
    ensures forall k :: 0 <= k < |at| ==> at[k] < |reqs| && reqs[at[k]].Poll? && reqs[at[k]].code == c
    ensures forall k, l :: 0 <= k < l < |at| ==> at[k] < at[l]
    ensures forall i :: 0 <= i < |reqs| && reqs[i].Poll? && reqs[i].code == c ==> i in at
  {
    if reqs == [] then []
    else
      var n := |reqs| - 1;
      var before := PollsOf(reqs[..n], c);
      if reqs[n].Poll? && reqs[n].code == c then before + [n] else before
  }

  /** The replies to the polls of a device code, in order. */
  function Trace(dbs: seq<DB>, reqs: seq<Request>, lib: Library, c: string): (rs: seq<Reply>)
    requires |dbs| > |reqs|
    ensures |rs| == |PollsOf(reqs, c)|
    ensures forall k :: 0 <= k < |rs| ==> rs[k] == PollReply(dbs[PollsOf(reqs, c)[k]], reqs[PollsOf(reqs, c)[k]], lib)
  {
    var at := PollsOf(reqs, c);
    seq(|at|, k requires 0 <= k < |at| => PollReply(dbs[at[k]], reqs[at[k]], lib))
  }

  ghost predicate LegalTrace(rs: seq<Reply>) {
    (forall k, l :: 0 <= k < l < |rs| ==> Rank(rs[k]) <= Rank(rs[l]))
    && (forall k, l :: 0 <= k < l < |rs| ==> !(rs[k].Granted? && rs[l].Granted?))
    && (forall l :: 0 <= l < |rs| && rs[l].AlreadyClaimed? ==> exists k :: 0 <= k < l && rs[k].Granted?)
  }

  lemma TraceRises(dbs: seq<DB>, reqs: seq<Request>, lib: Library, c: string, k: nat, l: nat)
    requires IsRun(dbs, reqs, lib) && k < l < |Trace(dbs, reqs, lib, c)|
    ensures var rs := Trace(dbs, reqs, lib, c);
            Rank(rs[k]) <= Rank(rs[l]) && !(rs[k].Granted? && rs[l].Granted?)
  {
    var at := PollsOf(reqs, c);
    assert |dbs| > |reqs|;
    hide *;
    PollsGoForward(dbs, reqs, lib, at[k], at[l]);
  }

  lemma TraceClaims(dbs: seq<DB>, reqs: seq<Request>, lib: Library, c: string, l: nat) returns (k: nat)
    requires IsRun(dbs, reqs, lib) && l < |Trace(dbs, reqs, lib, c)| && Trace(dbs, reqs, lib, c)[l].AlreadyClaimed?
    ensures k < l && Trace(dbs, reqs, lib, c)[k].Granted?
  {
    var at := PollsOf(reqs, c);
    assert |dbs| > |reqs|;
    hide *;
    var i := ClaimedOnlyAfterGrant(dbs, reqs, lib, at[l]);
    k :| 0 <= k < |at| && at[k] == i;
  }

  /** Over any run, the replies to the polls of one device code are: invalid code, any number of
      times; pending, any number; failed claims, any number; at most one grant; already claimed,
      only after the grant; then expired, for ever. */
  lemma RepliesGoForward(dbs: seq<DB>, reqs: seq<Request>, lib: Library, c: string)
    requires IsRun(dbs, reqs, lib)
    ensures LegalTrace(Trace(dbs, reqs, lib, c))
  {
    var rs := Trace(dbs, reqs, lib, c);
    hide IsRun, Trace, Rank;
    forall k, l | 0 <= k < l < |rs| {
      TraceRises(dbs, reqs, lib, c, k, l);
    }
    forall l | 0 <= l < |rs| && rs[l].AlreadyClaimed? ensures exists k :: 0 <= k < l && rs[k].Granted? {
      var k := TraceClaims(dbs, reqs, lib, c, l);
    }
  }

  /** Request i started an enrollment. */
  ghost predicate Starts(dbs: seq<DB>, reqs: seq<Request>, i: int) {
    0 <= i < |reqs| && i + 1 < |dbs| && reqs[i].Start?
    && reqs[i].deviceCode !in dbs[i].enrollments && reqs[i].deviceCode in dbs[i + 1].enrollments
  }

  /** A started enrollment is never unknown again, and is answered as expired exactly from ten
      minutes after its start on, rounded down to a second. */
  lemma ExpiresExactly(dbs: seq<DB>, reqs: seq<Request>, lib: Library, i: nat, j: nat)
    requires IsRun(dbs, reqs, lib) && i < j < |reqs| && Starts(dbs, reqs, i)
    requires reqs[j].Poll? && reqs[j].code == reqs[i].deviceCode
    ensures !PollReply(dbs[j], reqs[j], lib).InvalidDeviceCode?
    ensures PollReply(dbs[j], reqs[j], lib).ExpiredToken? <==> reqs[j].seen > Unix(reqs[i].at + 600 * SECOND) * SECOND
  {
    RunStep(dbs, reqs, lib, i);
    RunLater(dbs, reqs, lib, i + 1, j);
    assert dbs[i + 1].enrollments[reqs[i].deviceCode].expiresAt == Unix(reqs[i].at + ENROLL_TTL);
  }

  // ----- approvals -----------------------------------------------------------------------------

  /** Comparing whole seconds is comparing nanoseconds when the stored time is whole. */
  lemma StrictlyBefore(now: int, seconds: int)
    ensures seconds > Unix(now) <==> now < seconds * SECOND
  {
  }

  /** Request i approved the enrollment, strictly before it expired. */
  ghost predicate ApprovedAt(dbs: seq<DB>, reqs: seq<Request>, lib: Library, i: int, c: string) {
    0 <= i < |reqs| < |dbs| && reqs[i].Approve? && c in dbs[i].enrollments
    && var row := dbs[i].enrollments[c];
    !row.approved && Normalize(reqs[i].typed, lib.upper) == row.userCode && reqs[i].at < row.expiresAt * SECOND
  }

  lemma StepApproves(db: DB, r: Request, lib: Library, c: string)
    requires c in Next(db, r, lib).enrollments
    requires Next(db, r, lib).enrollments[c].approved && !(c in db.enrollments && db.enrollments[c].approved)
    ensures r.Approve? && c in db.enrollments && !db.enrollments[c].approved
    ensures Normalize(r.typed, lib.upper) == db.enrollments[c].userCode && r.at < db.enrollments[c].expiresAt * SECOND
    ensures Next(db, r, lib).enrollments[c] == Marked(db.enrollments[c], Trim(r.name))
  {
    hide Normalize, Trim;
    if r.Approve? {
      if c in db.enrollments {
        StrictlyBefore(r.at, db.enrollments[c].expiresAt);
      }
    } else if r.Poll? && PollReply(db, r, lib).Granted? {
      GrantMeans(db, r, lib);
    }
  }

  lemma {:induction false} ApprovalHappened(dbs: seq<DB>, reqs: seq<Request>, lib: Library, j: nat, c: string)
    returns (i: nat)
    requires IsRun(dbs, reqs, lib) && j < |dbs| && c in dbs[j].enrollments && dbs[j].enrollments[c].approved
    ensures i < j && ApprovedAt(dbs, reqs, lib, i, c)
    ensures dbs[j].enrollments[c].proposedName == Some(Trim(reqs[i].name))
    ensures dbs[j].enrollments[c].expiresAt == dbs[i].enrollments[c].expiresAt
    ensures dbs[j].enrollments[c].hostname == dbs[i].enrollments[c].hostname
  {
    hide Next;
    RunStep(dbs, reqs, lib, j - 1);
    hide Next;
    if c in dbs[j - 1].enrollments && dbs[j - 1].enrollments[c].approved {
      i := ApprovalHappened(dbs, reqs, lib, j - 1, c);
      RunLater(dbs, reqs, lib, j - 1, j);
    } else {
      i := j - 1;
      hide IsRun, Next, PollReply, Trim, Normalize;
      StepApproves(dbs[i], reqs[i], lib, c);
    }
  }

  /** A claimed enrollment was approved strictly before its expiry and claimed later, not after it,
      under the name the operator gave, if any. */
  lemma ClaimedWasApprovedInTime(dbs: seq<DB>, reqs: seq<Request>, lib: Library, j: nat, c: string, d: Uuid)
    returns (approval: nat, claim: nat)
    requires IsRun(dbs, reqs, lib) && j < |dbs| && ClaimedBy(dbs[j], c, d)
    ensures approval < claim < j && ApprovedAt(dbs, reqs, lib, approval, c)
    ensures reqs[claim].Poll? && reqs[claim].code == c && reqs[claim].id == d
    ensures PollReply(dbs[claim], reqs[claim], lib).Granted?
    ensures c in dbs[approval].enrollments
            && reqs[claim].checked <= dbs[approval].enrollments[c].expiresAt * SECOND
    ensures d in dbs[j].devices
    ensures var named, host := Trim(reqs[approval].name), dbs[approval].enrollments[c].hostname;
            dbs[j].devices[d].name == if named != "" then named else if host != "" then host else "device-" + d[..8]
  {
    claim := ClaimWasGranted(dbs, reqs, lib, j, c, d);
    GrantMeans(dbs[claim], reqs[claim], lib);
    approval := ApprovalHappened(dbs, reqs, lib, claim, c);
    TokenWorksForEver(dbs, reqs, lib, claim, j);
  }

  lemma {:induction false} RunCodesWellFormed(dbs: seq<DB>, reqs: seq<Request>, lib: Library, i: nat, c: string)
    requires IsRun(dbs, reqs, lib) && i < |dbs| && c in dbs[i].enrollments
    ensures WellFormed(dbs[i].enrollments[c].userCode)
  {
    RunStep(dbs, reqs, lib, i - 1);
    StepLater(dbs[i - 1], reqs[i - 1], lib);
    if c in dbs[i - 1].enrollments {
      RunCodesWellFormed(dbs, reqs, lib, i - 1, c);
    } else if reqs[i - 1].Poll? && PollReply(dbs[i - 1], reqs[i - 1], lib).Granted? {
      GrantMeans(dbs[i - 1], reqs[i - 1], lib);
    }
  }

  /** The row the operator means: pending, in time, and typed as the text, case and padding apart. */
  ghost predicate Meant(row: EnrollmentRow, r: Request, lib: Library)
    requires r.Approve?
  {
    Types(r.typed, row.userCode, lib.upper) && !row.approved && r.at < row.expiresAt * SECOND
  }

  /** An approval marks the row the operator means and no other: at most one row is meant, and if
      none is, nothing changes. */
  lemma ApprovalTouchesOneRow(dbs: seq<DB>, reqs: seq<Request>, lib: Library, i: nat, c: string)
    requires IsRun(dbs, reqs, lib) && i < |reqs| && reqs[i].Approve? && c in dbs[i].enrollments
    ensures dbs[i + 1].devices == dbs[i].devices && dbs[i + 1].enrollments.Keys == dbs[i].enrollments.Keys
    ensures dbs[i + 1].enrollments[c]
            == if Meant(dbs[i].enrollments[c], reqs[i], lib) then Marked(dbs[i].enrollments[c], Trim(reqs[i].name))
               else dbs[i].enrollments[c]
    ensures Meant(dbs[i].enrollments[c], reqs[i], lib) ==>
              forall c2 | c2 in dbs[i].enrollments :: Meant(dbs[i].enrollments[c2], reqs[i], lib) ==> c == c2
  {
    RunStep(dbs, reqs, lib, i);
    RunOk(dbs, reqs, lib, i);
    forall c2 | c2 in dbs[i].enrollments
      ensures Picks(dbs[i].enrollments[c2], Normalize(reqs[i].typed, lib.upper), reqs[i].at)
              <==> Meant(dbs[i].enrollments[c2], reqs[i], lib)
    {
      RunCodesWellFormed(dbs, reqs, lib, i, c2);
      NormalizesExactly(reqs[i].typed, dbs[i].enrollments[c2].userCode, lib.upper);
      StrictlyBefore(reqs[i].at, dbs[i].enrollments[c2].expiresAt);
    }
    MarkedExactly(dbs[i], Normalize(reqs[i].typed, lib.upper), Trim(reqs[i].name), reqs[i].at, c);
  }

  lemma MarkedExactly(db: DB, userCode: string, name: string, now: int, c: string)
    requires KeepsSchema(db) && c in db.enrollments
    ensures var r := Approved(db, userCode, name, now);
            var after := if r.Ok? then r.value else db;
            after.devices == db.devices && after.enrollments.Keys == db.enrollments.Keys
            && after.enrollments[c]
                 == (if Picks(db.enrollments[c], userCode, now) then Marked(db.enrollments[c], name)
                     else db.enrollments[c])
    ensures Picks(db.enrollments[c], userCode, now) ==>
              forall c2 | c2 in db.enrollments :: Picks(db.enrollments[c2], userCode, now) ==> c == c2
  {
    var picked := Picked(db.enrollments, userCode, now);
    assert forall c2 :: c2 in picked <==> c2 in db.enrollments && Picks(db.enrollments[c2], userCode, now);
  }
}
