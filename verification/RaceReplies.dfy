/** Which answer each statement of an interleaved poll gets, said by the steps before it. */
module RaceReplies {
  import opened Tables
  import opened Typing
  import opened UserCodes
  import opened Requests
  import opened EnrollRaces
  import EnrollReplies

  /** Step k is the operator's approval, in time, of the enrollment that step i started. */
  ghost predicate ApprovesStart(acts: seq<Action>, lib: Library, i: nat, k: nat) {
    i < k < |acts| && acts[i].Other? && acts[i].r.Start? && acts[k].Other? && acts[k].r.Approve?
    && Types(acts[k].r.typed, acts[i].r.userCode, lib.upper) && acts[k].r.at < EnrollReplies.Limit(acts[i].r)
  }

  ghost predicate IsApproved(acts: seq<Action>, lib: Library, i: nat, j: nat) {
    exists k :: i < k < j && ApprovesStart(acts, lib, i, k)
  }

  ghost predicate IsClaimed(states: seq<State>, acts: seq<Action>, lib: Library, j: nat, c: string) {
    exists k, d :: 0 <= k < j && ClaimsAt(states, acts, lib, k, c, d)
  }

  // ----- the row of a started enrollment -------------------------------------------------------------

  lemma StartedRow(states: seq<State>, acts: seq<Action>, lib: Library, i: nat, j: nat)
    requires IsRun(states, acts, lib) && i < j < |states| && StartsAt(states, acts, i)
    ensures acts[i].r.deviceCode in states[j].db.enrollments
    ensures var row := states[j].db.enrollments[acts[i].r.deviceCode];
            row.userCode == acts[i].r.userCode && row.expiresAt * SECOND == EnrollReplies.Limit(acts[i].r)
            && row.platform == acts[i].r.platform && row.hostname == acts[i].r.hostname
    ensures WellFormed(acts[i].r.userCode)
  {
    RunStep(states, acts, lib, i);
    PhasesGoForward(states, acts, lib, i + 1, j);
    assert Proper(acts[i].r);
    hide IsRun;
  }

  lemma OnlyStartsStart(s: State, a: Action, lib: Library, c: string)
    requires Enabled(s, a) && Inv(s, lib) && c !in s.db.enrollments && c in Step(s, a, lib).db.enrollments
    ensures a.Other? && a.r.Start? && a.r.deviceCode == c
  {
    if Commits(s, a, lib) {
      assert PollerOk(s.db, s.granted, a.h, s.pollers[a.h], lib);
      CommitMeans(s, a, lib);
    } else {
      OtherSteps(s, a, lib);
      if a.Other? {
        EnrollReplies.OnlyStartsStart(s.db, a.r, lib, c);
      }
    }
  }

  lemma {:induction false} StartHappened(states: seq<State>, acts: seq<Action>, lib: Library, j: nat, c: string)
    returns (i: nat)
    requires IsRun(states, acts, lib) && j < |states| && c in states[j].db.enrollments
    ensures i < j && StartsAt(states, acts, i) && acts[i].r.deviceCode == c
  {
    hide Step, Inv;
    assert j > 0;
    RunStep(states, acts, lib, j - 1);
    RunInv(states, acts, lib, j - 1);
    hide IsRun, Enabled;
    if c in states[j - 1].db.enrollments {
      i := StartHappened(states, acts, lib, j - 1, c);
    } else {
      i := j - 1;
      OnlyStartsStart(states[i], acts[i], lib, c);
    }
  }

  lemma ApprovalMarks(db: DB, r: Request, lib: Library, c: string)
    requires r.Approve? && c in db.enrollments && Picks(db.enrollments[c], Normalize(r.typed, lib.upper), r.at)
    ensures c in Next(db, r, lib).enrollments && Next(db, r, lib).enrollments[c].approved
  {
    hide Normalize, Trim, Picks;
    assert c in Picked(db.enrollments, Normalize(r.typed, lib.upper), r.at);
  }

  lemma ApprovesRow(states: seq<State>, acts: seq<Action>, lib: Library, i: nat, k: nat)
    requires IsRun(states, acts, lib) && i < k < |acts| && StartsAt(states, acts, i) && ApprovesStart(acts, lib, i, k)
    requires acts[i].r.deviceCode in states[k].db.enrollments
    requires !states[k].db.enrollments[acts[i].r.deviceCode].approved
    ensures acts[i].r.deviceCode in states[k + 1].db.enrollments
    ensures states[k + 1].db.enrollments[acts[i].r.deviceCode].approved
  {
    var c := acts[i].r.deviceCode;
    StartedRow(states, acts, lib, i, k);
    RunStep(states, acts, lib, k);
    hide IsRun, Next, Types, Normalize, WellFormed, StartsAt;
    NormalizesExactly(acts[k].r.typed, acts[i].r.userCode, lib.upper);
    EnrollRuns.StrictlyBefore(acts[k].r.at, states[k].db.enrollments[c].expiresAt);
    ApprovalMarks(states[k].db, acts[k].r, lib, c);
  }

  lemma ApprovalWorks(states: seq<State>, acts: seq<Action>, lib: Library, i: nat, k: nat, j: nat)
    requires IsRun(states, acts, lib) && i < k < j < |states| && StartsAt(states, acts, i)
    requires ApprovesStart(acts, lib, i, k)
    ensures acts[i].r.deviceCode in states[j].db.enrollments
    ensures states[j].db.enrollments[acts[i].r.deviceCode].approved
  {
    hide IsRun, ApprovesStart;
    StartedRow(states, acts, lib, i, k);
    if !states[k].db.enrollments[acts[i].r.deviceCode].approved {
      assert k < |acts| by {
        ApprovesInside(acts, lib, i, k);
      }
      ApprovesRow(states, acts, lib, i, k);
      PhasesGoForward(states, acts, lib, k + 1, j);
    } else {
      PhasesGoForward(states, acts, lib, k, j);
    }
  }

  lemma ApprovesInside(acts: seq<Action>, lib: Library, i: nat, k: nat)
    requires ApprovesStart(acts, lib, i, k)
    ensures k < |acts|
  {
  }

  lemma ApprovalWasMeant(states: seq<State>, acts: seq<Action>, lib: Library, i: nat, j: nat)
    requires IsRun(states, acts, lib) && i < j < |states| && StartsAt(states, acts, i)
    requires acts[i].r.deviceCode in states[j].db.enrollments
    requires states[j].db.enrollments[acts[i].r.deviceCode].approved
    ensures IsApproved(acts, lib, i, j)
  {
    var c := acts[i].r.deviceCode;
    var k := ApprovalHappened(states, acts, lib, j, c);
    if k <= i {
      PhasesGoForward(states, acts, lib, k, i);
    }
    StartedRow(states, acts, lib, i, k);
    hide IsRun, Normalize, Types;
    NormalizesExactly(acts[k].r.typed, acts[i].r.userCode, lib.upper);
    assert ApprovesStart(acts, lib, i, k);
  }

  lemma ApprovedExactly(states: seq<State>, acts: seq<Action>, lib: Library, i: nat, j: nat)
    requires IsRun(states, acts, lib) && i < j < |states| && StartsAt(states, acts, i)
    ensures acts[i].r.deviceCode in states[j].db.enrollments
    ensures states[j].db.enrollments[acts[i].r.deviceCode].approved <==> IsApproved(acts, lib, i, j)
  {
    StartedRow(states, acts, lib, i, j);
    hide IsRun, StartsAt, ApprovesStart;
    if states[j].db.enrollments[acts[i].r.deviceCode].approved {
      ApprovalWasMeant(states, acts, lib, i, j);
    }
    if k :| i < k < j && ApprovesStart(acts, lib, i, k) {
      ApprovalWorks(states, acts, lib, i, k, j);
    }
  }

  lemma ClaimKept(states: seq<State>, acts: seq<Action>, lib: Library, k: nat, j: nat, c: string, d: Uuid)
    requires IsRun(states, acts, lib) && k < j < |states| && ClaimsAt(states, acts, lib, k, c, d)
    ensures c in states[j].db.enrollments && states[j].db.enrollments[c].deviceID.Some?
  {
    RunInv(states, acts, lib, k);
    assert PollerOk(states[k].db, states[k].granted, acts[k].h, states[k].pollers[acts[k].h], lib);
    CommitClaims(states[k], acts[k], lib, c, d);
    RunStep(states, acts, lib, k);
    hide Step, Inv, PollerOk;
    var d' := ClaimsStay(states, acts, lib, k + 1, j, c, d);
  }

  lemma ClaimedExactly(states: seq<State>, acts: seq<Action>, lib: Library, j: nat, c: string)
    requires IsRun(states, acts, lib) && j < |states| && c in states[j].db.enrollments
    ensures states[j].db.enrollments[c].deviceID.Some? <==> IsClaimed(states, acts, lib, j, c)
  {
    hide IsRun, ClaimsAt;
    if states[j].db.enrollments[c].deviceID.Some? {
      var k := ClaimHappened(states, acts, lib, j, c, states[j].db.enrollments[c].deviceID.value);
    }
    if k, d :| 0 <= k < j && ClaimsAt(states, acts, lib, k, c, d) {
      ClaimKept(states, acts, lib, k, j, c, d);
    }
  }

  // ----- the answers -----------------------------------------------------------------------------------

  /** A poll's first lookup is answered as unknown exactly if nothing started its device code before. */
  lemma UnknownExactly(states: seq<State>, acts: seq<Action>, lib: Library, j: nat)
    requires IsRun(states, acts, lib) && j < |acts| && acts[j].Look?
    ensures acts[j].h in states[j + 1].pollers
    ensures states[j + 1].pollers[acts[j].h].stage == Answered(InvalidDeviceCode) <==>
            forall i :: 0 <= i < j ==> !(StartsAt(states, acts, i) && acts[i].r.deviceCode == acts[j].code)
  {
    RunStep(states, acts, lib, j);
    if acts[j].code in states[j].db.enrollments {
      var i := StartHappened(states, acts, lib, j, acts[j].code);
    }
    forall i | 0 <= i < j && StartsAt(states, acts, i) && acts[i].r.deviceCode == acts[j].code
      ensures acts[j].code in states[j].db.enrollments
    {
      StartedRow(states, acts, lib, i, j);
    }
    hide IsRun, StartsAt;
  }

  /** However polls interleave, a poll's first lookup of a started enrollment is answered by what came
      before it: expired from ten minutes after the start on; until then pending before an approval, already
      claimed after a claim; only if it is approved and unclaimed does the poll go on. */
  lemma LookExactly(states: seq<State>, acts: seq<Action>, lib: Library, i: nat, j: nat)
    requires IsRun(states, acts, lib) && i < j < |acts| && StartsAt(states, acts, i)
    requires acts[j].Look? && acts[j].code == acts[i].r.deviceCode
    ensures acts[j].h in states[j + 1].pollers
    ensures var stage, inTime := states[j + 1].pollers[acts[j].h].stage, acts[j].seen <= EnrollReplies.Limit(acts[i].r);
            (stage == Answered(ExpiredToken) <==> !inTime)
            && (stage == Answered(AuthorizationPending) <==> inTime && !IsApproved(acts, lib, i, j))
            && (stage == Answered(AlreadyClaimed) <==> inTime && IsClaimed(states, acts, lib, j, acts[j].code))
            && (stage == LookedUp <==>
                  inTime && IsApproved(acts, lib, i, j) && !IsClaimed(states, acts, lib, j, acts[j].code))
  {
    RunStep(states, acts, lib, j);
    StartedRow(states, acts, lib, i, j);
    ApprovedExactly(states, acts, lib, i, j);
    ClaimedExactly(states, acts, lib, j, acts[j].code);
    ClaimsAreApproved(states, acts, lib, j, acts[j].code);
    hide IsRun, StartsAt, IsApproved, IsClaimed;
  }

  lemma ClaimsAreApproved(states: seq<State>, acts: seq<Action>, lib: Library, j: nat, c: string)
    requires IsRun(states, acts, lib) && j < |states| && c in states[j].db.enrollments
    ensures states[j].db.enrollments[c].deviceID.Some? ==> states[j].db.enrollments[c].approved
  {
    RunInv(states, acts, lib, j);
    hide IsRun, PollersOk, DevicesAccounted;
    if states[j].db.enrollments[c].deviceID.Some? {
      assert ClaimedBy(states[j].db, c, states[j].db.enrollments[c].deviceID.value);
    }
  }

  /** The second lookup goes on exactly if the enrollment is approved, unclaimed and in time; else the poll is
      answered with a server error. */
  lemma CheckExactly(states: seq<State>, acts: seq<Action>, lib: Library, i: nat, j: nat)
    requires IsRun(states, acts, lib) && i < j < |acts| && StartsAt(states, acts, i) && acts[j].Check?
    requires acts[j].h in states[j].pollers && states[j].pollers[acts[j].h].code == acts[i].r.deviceCode
    ensures acts[j].h in states[j + 1].pollers
    ensures var stage, c := states[j + 1].pollers[acts[j].h].stage, acts[i].r.deviceCode;
            if IsApproved(acts, lib, i, j) && !IsClaimed(states, acts, lib, j, c)
               && acts[j].checked <= EnrollReplies.Limit(acts[i].r)
            then c in states[j].db.enrollments && stage == Checked(states[j].db.enrollments[c])
            else stage == Answered(ServerError)
  {
    RunStep(states, acts, lib, j);
    StartedRow(states, acts, lib, i, j);
    ApprovedExactly(states, acts, lib, i, j);
    ClaimedExactly(states, acts, lib, j, acts[i].r.deviceCode);
    hide IsRun, StartsAt, IsApproved, IsClaimed;
  }

  ghost predicate CommitsAt(states: seq<State>, acts: seq<Action>, lib: Library, k: int) {
    0 <= k < |acts| < |states| && Commits(states[k], acts[k], lib)
  }

  lemma OnlyCommitsAdd(s: State, a: Action, lib: Library, d: Uuid)
    requires Enabled(s, a) && Inv(s, lib) && d in Step(s, a, lib).db.devices
    ensures if Commits(s, a, lib) && a.id == d then Step(s, a, lib).db.devices[d].tokenHash == lib.hash(a.token)
            else d in s.db.devices && Step(s, a, lib).db.devices[d].tokenHash == s.db.devices[d].tokenHash
  {
    if Commits(s, a, lib) {
      assert PollerOk(s.db, s.granted, a.h, s.pollers[a.h], lib);
      CommitMeans(s, a, lib);
    } else {
      OtherSteps(s, a, lib);
      if a.Other? {
        OthersKeepClaims(s.db, a.r, lib);
      }
    }
  }

  lemma {:induction false} DeviceWasCommitted(states: seq<State>, acts: seq<Action>, lib: Library, j: nat, d: Uuid)
    returns (k: nat)
    requires IsRun(states, acts, lib) && j < |states| && d in states[j].db.devices
    ensures k < j && CommitsAt(states, acts, lib, k) && acts[k].id == d
    ensures lib.hash(acts[k].token) == states[j].db.devices[d].tokenHash
  {
    hide Step, Inv, CommitResult;
    assert j > 0;
    RunStep(states, acts, lib, j - 1);
    RunInv(states, acts, lib, j - 1);
    assert |states| == |acts| + 1;
    hide IsRun, Enabled;
    OnlyCommitsAdd(states[j - 1], acts[j - 1], lib, d);
    if Commits(states[j - 1], acts[j - 1], lib) && acts[j - 1].id == d {
      k := j - 1;
    } else {
      k := DeviceWasCommitted(states, acts, lib, j - 1, d);
    }
  }

  lemma CommittedStays(states: seq<State>, acts: seq<Action>, lib: Library, k: nat, j: nat)
    requires IsRun(states, acts, lib) && k < j < |states| && CommitsAt(states, acts, lib, k)
    ensures acts[k].id in states[j].db.devices
    ensures states[j].db.devices[acts[k].id].tokenHash == lib.hash(acts[k].token)
  {
    RunInv(states, acts, lib, k);
    assert PollerOk(states[k].db, states[k].granted, acts[k].h, states[k].pollers[acts[k].h], lib);
    CommitMeans(states[k], acts[k], lib);
    RunStep(states, acts, lib, k);
    PhasesGoForward(states, acts, lib, k + 1, j);
    hide IsRun, Inv, Step;
  }

  /** No commit before has the device id or the token hash of the commit at step j. */
  ghost predicate FreshCommit(states: seq<State>, acts: seq<Action>, lib: Library, j: nat)
    requires j < |acts| && acts[j].Commit?
  {
    forall k :: 0 <= k < j && CommitsAt(states, acts, lib, k) ==>
      acts[k].id != acts[j].id && lib.hash(acts[k].token) != lib.hash(acts[j].token)
  }

  lemma FreshExactly(states: seq<State>, acts: seq<Action>, lib: Library, j: nat)
    requires IsRun(states, acts, lib) && j < |acts| && acts[j].Commit?
    ensures FreshCommit(states, acts, lib, j) <==>
            acts[j].id !in states[j].db.devices && !HashTaken(states[j].db.devices, lib.hash(acts[j].token))
  {
    var id, hash := acts[j].id, lib.hash(acts[j].token);
    hide CommitsAt;
    forall k | 0 <= k < j && CommitsAt(states, acts, lib, k)
      ensures acts[k].id in states[j].db.devices
              && states[j].db.devices[acts[k].id].tokenHash == lib.hash(acts[k].token)
    {
      CommittedStays(states, acts, lib, k, j);
    }
    if id in states[j].db.devices {
      var k := DeviceWasCommitted(states, acts, lib, j, id);
    }
    if HashTaken(states[j].db.devices, hash) {
      var d :| d in states[j].db.devices && states[j].db.devices[d].tokenHash == hash;
      var k := DeviceWasCommitted(states, acts, lib, j, d);
    }
    hide IsRun;
  }

  /** A commit is granted exactly if its id and its token's hash are new and the transaction commits, also
      if the enrollment has been claimed meanwhile; else the poll is answered with a server error. */
  lemma CommitExactly(states: seq<State>, acts: seq<Action>, lib: Library, j: nat)
    requires IsRun(states, acts, lib) && j < |acts| && acts[j].Commit?
    ensures acts[j].h in states[j].pollers && states[j].pollers[acts[j].h].stage.Checked?
    ensures acts[j].h in states[j + 1].pollers
    ensures var stage, row := states[j + 1].pollers[acts[j].h].stage, states[j].pollers[acts[j].h].stage.row;
            if FreshCommit(states, acts, lib, j) && acts[j].commits
            then stage == Answered(Granted(acts[j].id, acts[j].token, NameFor(row, acts[j].id)))
            else stage == Answered(ServerError)
  {
    RunStep(states, acts, lib, j);
    FreshExactly(states, acts, lib, j);
    hide IsRun, FreshCommit, NameFor;
  }
}
