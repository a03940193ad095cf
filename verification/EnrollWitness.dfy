/** A run in which two overlapping polls of one device code are both granted. */
module EnrollWitness {
  import opened Wire
  import opened Tables
  import opened UserCodes
  import opened Typing
  import opened Requests
  import opened EnrollRaces

  const USER_CODE: string := "0000-0000"
  const DEVICE_CODE: string := "device-code"
  const ID_0: Uuid := "11111111-1111-1111-1111-111111111111"
  const ID_1: Uuid := "22222222-2222-2222-2222-222222222222"

  const PENDING := EnrollmentRow(USER_CODE, 600, false, None, None, "linux", "host")
  const APPROVED := EnrollmentRow(USER_CODE, 600, true, None, Some(""), "linux", "host")

  function TableWith(row: EnrollmentRow): map<string, EnrollmentRow> {
    map[DEVICE_CODE := row]
  }

  function NewDevice(lib: Library, token: string): DeviceRow {
    DeviceRow("host", lib.hash(token), "linux", 0, 0)
  }

  function Row(stage: Stage): Poller {
    Poller(DEVICE_CODE, stage)
  }

  const ACTS := [
    Action.Other(0, Start(0, USER_CODE, DEVICE_CODE, "linux", "host")),
    Action.Other(1, Approve(USER_CODE, "", 1)),
    Look(2, 0, DEVICE_CODE, 2),
    Look(3, 1, DEVICE_CODE, 3),
    Check(4, 0, 4),
    Check(5, 1, 5),
    Commit(6, 0, 6, "token-0", ID_0, true),
    Commit(7, 1, 7, "token-1", ID_1, true)]

  const BEFORE := DB(map[], TableWith(APPROVED))

  function FirstClaim(lib: Library): DB {
    DB(map[ID_0 := NewDevice(lib, "token-0")], TableWith(APPROVED.(deviceID := Some(ID_0))))
  }

  function SecondClaim(lib: Library): DB {
    DB(map[ID_0 := NewDevice(lib, "token-0"), ID_1 := NewDevice(lib, "token-1")],
       TableWith(APPROVED.(deviceID := Some(ID_1))))
  }

  const GRANTED_0 := Row(Answered(Granted(ID_0, "token-0", "host")))
  const GRANTED_1 := Row(Answered(Granted(ID_1, "token-1", "host")))
  const CHECKED := Row(Checked(APPROVED))

  function States(lib: Library): seq<State> {
    [ INITIAL,
      State(DB(map[], TableWith(PENDING)), map[], map[], {}),
      State(BEFORE, map[], map[], {}),
      State(BEFORE, map[0 := Row(LookedUp)], map[], {}),
      State(BEFORE, map[0 := Row(LookedUp), 1 := Row(LookedUp)], map[], {}),
      State(BEFORE, map[0 := CHECKED, 1 := Row(LookedUp)], map[], {}),
      State(BEFORE, map[0 := CHECKED, 1 := CHECKED], map[], {}),
      State(FirstClaim(lib), map[0 := GRANTED_0, 1 := CHECKED], map[ID_0 := 0], {}),
      State(SecondClaim(lib), map[0 := GRANTED_0, 1 := GRANTED_1], map[ID_0 := 0, ID_1 := 1], {ID_0})]
  }

  lemma Typed(lib: Library)
    ensures Normalize(USER_CODE, lib.upper) == USER_CODE && Trim("") == ""
  {
    assert WellFormed(USER_CODE);
    assert Spells(USER_CODE, USER_CODE, lib.upper);
    assert USER_CODE == "" + USER_CODE + "";
    assert Types(USER_CODE, USER_CODE, lib.upper);
    NormalizesExactly(USER_CODE, USER_CODE, lib.upper);
  }

  lemma Started(lib: Library)
    ensures Enabled(States(lib)[0], ACTS[0]) && Step(States(lib)[0], ACTS[0], lib) == States(lib)[1]
  {
    hide Normalize, Trim;
  }

  lemma ApprovedNext(lib: Library)
    ensures Enabled(States(lib)[1], ACTS[1]) && Step(States(lib)[1], ACTS[1], lib) == States(lib)[2]
  {
    Typed(lib);
    hide Normalize, Trim;
    assert Picked(TableWith(PENDING), USER_CODE, 1) == {DEVICE_CODE};
    assert MarkedRows(TableWith(PENDING), {DEVICE_CODE}, "") == TableWith(APPROVED);
  }

  lemma Looked(lib: Library)
    ensures forall i :: 2 <= i < 6 ==> Enabled(States(lib)[i], ACTS[i])
    ensures forall i :: 2 <= i < 6 ==> Step(States(lib)[i], ACTS[i], lib) == States(lib)[i + 1]
  {
    hide Next, SecondClaim, FirstClaim;
  }

  lemma CommittedBoth(lib: Library)
    requires lib.hash("token-0") != lib.hash("token-1")
    ensures Enabled(States(lib)[6], ACTS[6]) && Step(States(lib)[6], ACTS[6], lib) == States(lib)[7]
    ensures Enabled(States(lib)[7], ACTS[7]) && Step(States(lib)[7], ACTS[7], lib) == States(lib)[8]
  {
    hide FirstLook, Next, SecondLook;
    assert ID_0[0] != ID_1[0];
  }

  lemma Timed(lib: Library)
    ensures |ACTS| == 8 && |States(lib)| == 9 && States(lib)[0] == INITIAL && ClockRuns(ACTS)
    ensures forall i :: 0 <= i < 8 ==> Timely(ACTS[i]) && (ACTS[i].Other? ==> Proper(ACTS[i].r))
  {
    assert WellFormed(USER_CODE);
    hide WellFormed;
  }

  lemma EveryStep(lib: Library, i: nat)
    requires i < 8 && lib.hash("token-0") != lib.hash("token-1")
    ensures Enabled(States(lib)[i], ACTS[i]) && Step(States(lib)[i], ACTS[i], lib) == States(lib)[i + 1]
  {
    hide Step, Enabled, States;
    if i == 0 {
      Started(lib);
    } else if i == 1 {
      ApprovedNext(lib);
    } else if i < 6 {
      Looked(lib);
    } else {
      CommittedBoth(lib);
    }
  }

  /** The service's state at the end of the run. */
  ghost predicate ClaimedTwice(s: State) {
    0 in s.pollers && 1 in s.pollers && s.pollers[0].code == s.pollers[1].code
    && GrantedTo(s.pollers[0]) && GrantedTo(s.pollers[1])
    && s.pollers[0].stage.reply.id != s.pollers[1].stage.reply.id
    && !OneToOne(s.db)
  }

  lemma EndsClaimedTwice(lib: Library)
    ensures ClaimedTwice(States(lib)[8])
  {
    var last := States(lib)[8];
    assert ID_0[0] != ID_1[0];
    assert ID_0 in last.db.devices && forall c :: !ClaimedBy(last.db, c, ID_0);
  }

  /** Two polls that overlap can both be granted: one enrollment then has made two devices, both
      with working tokens, and names only the second. */
  lemma OverlappingPollsClaimTwice(lib: Library) returns (states: seq<State>)
    requires lib.hash("token-0") != lib.hash("token-1")
    ensures IsRun(states, ACTS, lib) && ClaimedTwice(states[|states| - 1])
  {
    states := States(lib);
    hide ClockRuns, ClaimedTwice, Step, Enabled, States;
    Timed(lib);
    EndsClaimedTwice(lib);
    forall i | 0 <= i < |ACTS| ensures Enabled(states[i], ACTS[i]) && states[i + 1] == Step(states[i], ACTS[i], lib) {
      EveryStep(lib, i);
    }
  }
}
