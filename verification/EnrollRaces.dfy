/** Polls interleaved statement by statement: a poll looks its enrollment up, looks it up again to
    check it, and commits its claim, and other requests run in between. */
module EnrollRaces {
  import opened Wire
  import opened Tables
  import opened Typing
  import opened Requests
  import EnrollRuns

  /** How far a poll has got; a claim is kept with the row it was checked on. */
  datatype Stage =
    | LookedUp
    | Checked(row: EnrollmentRow)
    | Answered(reply: Reply)

  datatype Poller = Poller(code: string, stage: Stage)

  datatype State = State(
    db: DB,
    pollers: map<nat, Poller>,
    granted: map<Uuid, nat>,
    overwritten: set<Uuid>)

  /** A step reaches the tables at the moment `at`; the clock it works with was read before or after. */
  datatype Action =
    | Look(at: int, h: nat, code: string, seen: int)
    | Check(at: int, h: nat, checked: int)
    | Commit(at: int, h: nat, stamped: int, token: string, id: Uuid, commits: bool)
    | Other(at: int, r: Request)

  const INITIAL := State(EMPTY, map[], map[], {})

  predicate InFlight(p: Poller) {
    !p.stage.Answered?
  }

  ghost predicate Enabled(s: State, a: Action) {
    match a
    case Look(_, h, _, _) => h !in s.pollers
    case Check(_, h, _) => h in s.pollers && s.pollers[h].stage.LookedUp?
    case Commit(_, h, _, _, _, _) => h in s.pollers && s.pollers[h].stage.Checked?
    case Other(_, r) => !r.Poll?
  }

  /** The handler's first lookup and the checks on what it found. */
  function FirstLook(db: DB, code: string, seen: int): Stage {
    if code !in db.enrollments then Answered(InvalidDeviceCode)
    else
      var row := db.enrollments[code];
      if After(seen, row.expiresAt) then Answered(ExpiredToken)
      else if !row.approved then Answered(AuthorizationPending)
      else if row.deviceID.Some? then Answered(AlreadyClaimed)
      else LookedUp
  }

  /** The store's own lookup and checks. */
  function SecondLook(db: DB, code: string, checked: int): Stage {
    var row := Claimable(db, code, checked);
    if row.Ok? then Checked(row.value) else Answered(ServerError)
  }

  /** The device the id of the enrollment named before a commit replaces it. */
  function Replaced(db: DB, code: string): set<Uuid> {
    if code in db.enrollments && db.enrollments[code].deviceID.Some? then {db.enrollments[code].deviceID.value} else {}
  }

  function CommitResult(s: State, a: Action, lib: Library): Result<DB>
    requires a.Commit? && a.h in s.pollers && s.pollers[a.h].stage.Checked?
  {
    var p := s.pollers[a.h];
    var device :=
      DeviceRow(NameFor(p.stage.row, a.id), lib.hash(a.token), p.stage.row.platform, Unix(a.stamped), 0);
    Claimed(s.db, p.code, a.id, device, a.commits)
  }

  function Committed(s: State, a: Action, lib: Library): State
    requires a.Commit? && a.h in s.pollers && s.pollers[a.h].stage.Checked?
  {
    var p := s.pollers[a.h];
    var r := CommitResult(s, a, lib);
    if r.Err? then s.(pollers := s.pollers[a.h := Poller(p.code, Answered(ServerError))])
    else
      State(r.value,
            s.pollers[a.h := Poller(p.code, Answered(Granted(a.id, a.token, NameFor(p.stage.row, a.id))))],
            s.granted[a.id := a.h],
            s.overwritten + Replaced(s.db, p.code))
  }

  function Step(s: State, a: Action, lib: Library): State
    requires Enabled(s, a)
  {
    match a
    case Look(_, h, code, seen) => s.(pollers := s.pollers[h := Poller(code, FirstLook(s.db, code, seen))])
    case Check(_, h, checked) =>
      var p := s.pollers[h];
      s.(pollers := s.pollers[h := Poller(p.code, SecondLook(s.db, p.code, checked))])
    case Commit(_, _, _, _, _, _) => Committed(s, a, lib)
    case Other(_, r) => s.(db := Next(s.db, r, lib))
  }

  /** The clock is read after a lookup and before any other statement, however long before: other
      steps may come in between. */
  predicate Timely(a: Action) {
    match a
    case Look(at, _, _, seen) => at <= seen
    case Check(at, _, checked) => at <= checked
    case Commit(at, _, stamped, _, _, _) => stamped <= at
    case Other(at, r) => StartedAt(r) <= at
  }

  ghost predicate ClockRuns(acts: seq<Action>) {
    forall i, j :: 0 <= i < j < |acts| ==> acts[i].at <= acts[j].at
  }

  /** Any interleaving of any polls with the other requests, on a clock that does not go back. */
  ghost predicate IsRun(states: seq<State>, acts: seq<Action>, lib: Library) {
    |states| == |acts| + 1 && states[0] == INITIAL && ClockRuns(acts)
    && forall i {:trigger acts[i]} :: 0 <= i < |acts| ==>
         Enabled(states[i], acts[i]) && states[i + 1] == Step(states[i], acts[i], lib)
         && Timely(acts[i]) && (acts[i].Other? ==> Proper(acts[i].r))
  }

  lemma RunStep(states: seq<State>, acts: seq<Action>, lib: Library, i: nat)
    requires IsRun(states, acts, lib) && i < |acts|
    ensures i + 1 < |states| && Enabled(states[i], acts[i]) && states[i + 1] == Step(states[i], acts[i], lib)
  {
  }

  // ----- what one step does to the tables ------------------------------------------------------

  ghost predicate Commits(s: State, a: Action, lib: Library) {
    Enabled(s, a) && a.Commit? && CommitResult(s, a, lib).Ok?
  }

  lemma CommitMeans(s: State, a: Action, lib: Library)
    requires Commits(s, a, lib) && s.pollers[a.h].code in s.db.enrollments
    ensures a.id !in s.db.devices && !HashTaken(s.db.devices, lib.hash(a.token))
    ensures var p := s.pollers[a.h];
            var row := p.stage.row;
            var device := DeviceRow(NameFor(row, a.id), lib.hash(a.token), row.platform, Unix(a.stamped), 0);
            Step(s, a, lib)
            == State(DB(s.db.devices[a.id := device],
                        s.db.enrollments[p.code := s.db.enrollments[p.code].(deviceID := Some(a.id))]),
                     s.pollers[a.h := Poller(p.code, Answered(Granted(a.id, a.token, device.name)))],
                     s.granted[a.id := a.h],
                     s.overwritten + Replaced(s.db, p.code))
  {
  }

  /** What requests other than a commit leave as it was. */
  lemma OtherSteps(s: State, a: Action, lib: Library)
    requires Enabled(s, a) && !Commits(s, a, lib)
    ensures Step(s, a, lib).granted == s.granted && Step(s, a, lib).overwritten == s.overwritten
    ensures a.Other? ==> Step(s, a, lib).pollers == s.pollers
    ensures !a.Other? ==>
              Step(s, a, lib).db == s.db
              && exists p :: Step(s, a, lib).pollers == s.pollers[a.h := p] && !GrantedTo(p)
                             && (p.stage.Checked? ==> a.Check? && p.code == s.pollers[a.h].code && FromTable(s.db, p))
  {
    if a.Look? {
      var p := Poller(a.code, FirstLook(s.db, a.code, a.seen));
      assert Step(s, a, lib).pollers == s.pollers[a.h := p] && !GrantedTo(p);
    } else if a.Check? {
      var p := Poller(s.pollers[a.h].code, SecondLook(s.db, s.pollers[a.h].code, a.checked));
      assert Step(s, a, lib).pollers == s.pollers[a.h := p] && !GrantedTo(p);
    } else if a.Commit? {
      var p := Poller(s.pollers[a.h].code, Answered(ServerError));
      assert Step(s, a, lib).pollers == s.pollers[a.h := p] && !GrantedTo(p);
    }
  }

  predicate GrantedTo(p: Poller) {
    p.stage.Answered? && p.stage.reply.Granted?
  }

  /** A poll holds the row it checked: approved, unclaimed. */
  predicate FromTable(db: DB, p: Poller)
    requires p.stage.Checked?
  {
    p.code in db.enrollments && db.enrollments[p.code] == p.stage.row
    && p.stage.row.approved && p.stage.row.deviceID.None?
  }

  /** Requests that are not polls neither claim nor unclaim, and lose nothing. */
  lemma OthersKeepClaims(db: DB, r: Request, lib: Library)
    requires !r.Poll?
    ensures var after := Next(db, r, lib);
            after.devices.Keys == db.devices.Keys
            && (forall d :: d in db.devices ==>
                  after.devices[d].tokenHash == db.devices[d].tokenHash && after.devices[d].name == db.devices[d].name)
            && (forall c, d :: ClaimedBy(after, c, d) <==> ClaimedBy(db, c, d))
            && (forall c :: c in db.enrollments ==> c in after.enrollments)
            && (forall c :: c in db.enrollments && db.enrollments[c].approved ==> after.enrollments[c].approved)
  {
    hide Normalize, Trim;
  }

  // ----- what holds in every state ----------------------------------------------------------------

  /** A poll about to commit has a row; a granted poll's device and token are in the table. */
  ghost predicate PollerOk(db: DB, granted: map<Uuid, nat>, h: nat, p: Poller, lib: Library) {
    (p.stage.Checked? ==> p.code in db.enrollments && db.enrollments[p.code].approved)
    && (GrantedTo(p) ==>
          var r := p.stage.reply;
          r.id in db.devices && db.devices[r.id].tokenHash == lib.hash(r.token) && db.devices[r.id].name == r.name
          && r.id in granted && granted[r.id] == h)
  }

  ghost predicate PollersOk(s: State, lib: Library) {
    forall h :: h in s.pollers ==> PollerOk(s.db, s.granted, h, s.pollers[h], lib)
  }

  /** Every device is named by an enrollment or has been overwritten, and never both. */
  ghost predicate DevicesAccounted(s: State) {
    (forall d :: d in s.db.devices ==> d in s.overwritten || exists c :: ClaimedBy(s.db, c, d))
    && (forall d :: d in s.overwritten ==> d in s.db.devices && forall c :: !ClaimedBy(s.db, c, d))
  }

  ghost predicate Inv(s: State, lib: Library) {
    HashesUnique(s.db.devices) && ClaimsName(s.db) && ClaimsDiffer(s.db) && s.granted.Keys == s.db.devices.Keys
    && PollersOk(s, lib) && DevicesAccounted(s)
  }

  /** What a commit does to the claims. */
  lemma CommitClaims(s: State, a: Action, lib: Library, c: string, d: Uuid)
    requires Commits(s, a, lib) && s.pollers[a.h].code in s.db.enrollments
    ensures ClaimedBy(Step(s, a, lib).db, c, d)
            <==> (if c == s.pollers[a.h].code then d == a.id else ClaimedBy(s.db, c, d))
    ensures s.db.enrollments[s.pollers[a.h].code].approved && ClaimedBy(Step(s, a, lib).db, c, d) ==>
              c in s.db.enrollments && (c == s.pollers[a.h].code || ClaimedBy(s.db, c, d))
              && Step(s, a, lib).db.enrollments[c].approved == s.db.enrollments[c].approved
    ensures d in Replaced(s.db, s.pollers[a.h].code) <==> ClaimedBy(s.db, s.pollers[a.h].code, d)
  {
    CommitMeans(s, a, lib);
  }

  lemma CommitKeepsInv(s: State, a: Action, lib: Library)
    requires Commits(s, a, lib) && Inv(s, lib)
    ensures Inv(Step(s, a, lib), lib)
  {
    assert PollerOk(s.db, s.granted, a.h, s.pollers[a.h], lib);
    hide Step, Commits, ClaimsName, ClaimsDiffer, PollersOk, PollerOk, DevicesAccounted;
    CommitKeepsClaims(s, a, lib);
    CommitKeepsPollers(s, a, lib);
    CommitKeepsAccount(s, a, lib);
    CommitKeepsDevices(s, a, lib);
  }

  lemma CommitKeepsClaims(s: State, a: Action, lib: Library)
    requires Commits(s, a, lib) && s.pollers[a.h].code in s.db.enrollments
    requires s.db.enrollments[s.pollers[a.h].code].approved && ClaimsName(s.db) && ClaimsDiffer(s.db)
    ensures ClaimsName(Step(s, a, lib).db) && ClaimsDiffer(Step(s, a, lib).db)
  {
    CommitMeans(s, a, lib);
    hide Step, Commits, ClaimedBy;
    forall c, d {
      CommitClaims(s, a, lib, c, d);
    }
  }

  lemma CommitKeepsPollers(s: State, a: Action, lib: Library)
    requires Commits(s, a, lib) && s.pollers[a.h].code in s.db.enrollments && PollersOk(s, lib)
    requires s.granted.Keys == s.db.devices.Keys
    ensures PollersOk(Step(s, a, lib), lib)
  {
    CommitMeans(s, a, lib);
    hide Step, Commits;
  }

  lemma CommitKeepsAccount(s: State, a: Action, lib: Library)
    requires Commits(s, a, lib) && s.pollers[a.h].code in s.db.enrollments
    requires s.db.enrollments[s.pollers[a.h].code].approved
    requires ClaimsName(s.db) && ClaimsDiffer(s.db) && DevicesAccounted(s)
    ensures DevicesAccounted(Step(s, a, lib))
  {
    CommitMeans(s, a, lib);
    hide Step, Commits, Replaced, ClaimedBy;
    forall c, d {
      CommitClaims(s, a, lib, c, d);
    }
    assert ClaimedBy(Step(s, a, lib).db, s.pollers[a.h].code, a.id);
  }

  lemma CommitKeepsDevices(s: State, a: Action, lib: Library)
    requires Commits(s, a, lib) && s.pollers[a.h].code in s.db.enrollments
    requires HashesUnique(s.db.devices) && s.granted.Keys == s.db.devices.Keys
    ensures HashesUnique(Step(s, a, lib).db.devices)
    ensures Step(s, a, lib).granted.Keys == Step(s, a, lib).db.devices.Keys
  {
    CommitMeans(s, a, lib);
    hide Step, Commits;
  }

  lemma OtherKeepsInv(s: State, a: Action, lib: Library)
    requires Enabled(s, a) && !Commits(s, a, lib) && Inv(s, lib)
    ensures Inv(Step(s, a, lib), lib)
  {
    hide SecondLook, FirstLook, Next;
    var s' := Step(s, a, lib);
    OtherSteps(s, a, lib);
    if a.Other? {
      OthersKeepClaims(s.db, a.r, lib);
      assert s'.db == Next(s.db, a.r, lib);
      hide Next, Step;
      assert PollersOk(s', lib);
      assert DevicesAccounted(s');
    }
  }

  lemma {:induction false} RunInv(states: seq<State>, acts: seq<Action>, lib: Library, i: nat)
    requires IsRun(states, acts, lib) && i < |states|
    ensures Inv(states[i], lib)
  {
    if i > 0 {
      RunInv(states, acts, lib, i - 1);
      RunStep(states, acts, lib, i - 1);
      hide *;
      if Commits(states[i - 1], acts[i - 1], lib) {
        CommitKeepsInv(states[i - 1], acts[i - 1], lib);
      } else {
        OtherKeepsInv(states[i - 1], acts[i - 1], lib);
      }
    }
  }

  // ----- what survives overlapping polls -----------------------------------------------------------

  lemma {:induction false} RunAnswered(states: seq<State>, acts: seq<Action>, lib: Library, i: nat, j: nat, h: nat)
    requires IsRun(states, acts, lib) && i <= j < |states| && h in states[i].pollers
    requires states[i].pollers[h].stage.Answered?
    ensures h in states[j].pollers && states[j].pollers[h] == states[i].pollers[h]
    decreases j
  {
    if i < j {
      RunAnswered(states, acts, lib, i, j - 1, h);
      RunStep(states, acts, lib, j - 1);
    }
  }

  /** However polls interleave, the token of every granted one authenticates its device from then
      on, under the name it was told. */
  lemma EveryGrantedTokenWorks(states: seq<State>, acts: seq<Action>, lib: Library, i: nat, j: nat, h: nat)
    requires IsRun(states, acts, lib) && i <= j < |states|
    requires h in states[i].pollers && GrantedTo(states[i].pollers[h])
    ensures var r := states[i].pollers[h].stage.reply;
            Authenticated(states[j].db, lib.hash, r.token) == Some(r.id)
            && r.id in states[j].db.devices && states[j].db.devices[r.id].name == r.name
  {
    var r := states[i].pollers[h].stage.reply;
    RunAnswered(states, acts, lib, i, j, h);
    RunInv(states, acts, lib, j);
    assert PollerOk(states[j].db, states[j].granted, h, states[j].pollers[h], lib);
  }

  /** However polls interleave, an enrollment's device id, once set, names an existing device and
      is never unset. */
  lemma {:induction false} ClaimsStay(states: seq<State>, acts: seq<Action>, lib: Library, i: nat, j: nat,
                                      c: string, d: Uuid)
    returns (d': Uuid)
    requires IsRun(states, acts, lib) && i <= j < |states| && ClaimedBy(states[i].db, c, d)
    ensures ClaimedBy(states[j].db, c, d') && d' in states[j].db.devices
    decreases j
  {
    RunInv(states, acts, lib, j);
    if i == j {
      d' := d;
    } else {
      var before := ClaimsStay(states, acts, lib, i, j - 1, c, d);
      RunStep(states, acts, lib, j - 1);
      RunInv(states, acts, lib, j - 1);
      d' := ClaimStaysThroughStep(states[j - 1], acts[j - 1], lib, c, before);
    }
  }

  lemma ClaimStaysThroughStep(s: State, a: Action, lib: Library, c: string, d: Uuid) returns (d': Uuid)
    requires Enabled(s, a) && Inv(s, lib) && ClaimedBy(s.db, c, d)
    ensures ClaimedBy(Step(s, a, lib).db, c, d')
  {
    d' := d;
    if Commits(s, a, lib) {
      d' := if c == s.pollers[a.h].code then a.id else d;
      CommitClaims(s, a, lib, c, d');
    } else {
      OtherSteps(s, a, lib);
      if a.Other? {
        OthersKeepClaims(s.db, a.r, lib);
      }
    }
  }

  // ----- when claims and devices correspond -----------------------------------------------------------

  /** In every state that can be reached, claims and devices correspond one-to-one exactly when no
      device has been overwritten. */
  lemma OneToOneUnlessOverwritten(states: seq<State>, acts: seq<Action>, lib: Library, i: nat)
    requires IsRun(states, acts, lib) && i < |states|
    ensures OneToOne(states[i].db) <==> states[i].overwritten == {}
  {
    RunInv(states, acts, lib, i);
    OneToOneMeans(states[i], lib);
  }

  lemma OneToOneMeans(s: State, lib: Library)
    requires Inv(s, lib)
    ensures OneToOne(s.db) <==> s.overwritten == {}
  {
  }

  /** A commit keeps the correspondence exactly when the enrollment is still unclaimed when it commits. */
  lemma CommitKeepsOneToOneIff(s: State, a: Action, lib: Library)
    requires Inv(s, lib) && OneToOne(s.db) && Commits(s, a, lib)
    ensures s.pollers[a.h].code in s.db.enrollments
    ensures OneToOne(Step(s, a, lib).db) <==> s.db.enrollments[s.pollers[a.h].code].deviceID.None?
  {
    assert PollerOk(s.db, s.granted, a.h, s.pollers[a.h], lib);
    CommitKeepsInv(s, a, lib);
    CommitMeans(s, a, lib);
    OneToOneMeans(s, lib);
    OneToOneMeans(Step(s, a, lib), lib);
  }

  /** Poll h of the code is in flight. */
  predicate InFlightOn(s: State, h: nat, code: string) {
    h in s.pollers && s.pollers[h].code == code && InFlight(s.pollers[h])
  }

  /** No two polls of the device code are in flight. */
  ghost predicate AloneOn(s: State, code: string) {
    forall h1, h2 :: InFlightOn(s, h1, code) && InFlightOn(s, h2, code) ==> h1 == h2
  }

  /** No two polls of one device code are in flight. */
  ghost predicate Alone(s: State) {
    forall code :: AloneOn(s, code)
  }

  /** The enrollment a poll is about to claim is still unclaimed. */
  ghost predicate StillUnclaimed(s: State) {
    forall h :: h in s.pollers && s.pollers[h].stage.Checked? ==> FreeRow(s.db, s.pollers[h].code)
  }

  predicate FreeRow(db: DB, code: string) {
    code in db.enrollments && db.enrollments[code].deviceID.None?
  }

  lemma AloneMeans(s: State, h1: nat, h2: nat)
    requires Alone(s) && h1 in s.pollers && h2 in s.pollers && InFlight(s.pollers[h1]) && InFlight(s.pollers[h2])
    requires s.pollers[h1].code == s.pollers[h2].code
    ensures h1 == h2
  {
    assert AloneOn(s, s.pollers[h1].code);
    assert InFlightOn(s, h1, s.pollers[h1].code) && InFlightOn(s, h2, s.pollers[h1].code);
  }

  lemma AloneStep(s: State, a: Action, lib: Library)
    requires Enabled(s, a) && Inv(s, lib) && Alone(s) && StillUnclaimed(s)
    ensures StillUnclaimed(Step(s, a, lib)) && Step(s, a, lib).overwritten == s.overwritten
  {
    if Commits(s, a, lib) {
      CommitMeans(s, a, lib);
      forall h | h in s.pollers && s.pollers[h].stage.Checked? && h != a.h
        ensures s.pollers[h].code != s.pollers[a.h].code
      {
        if s.pollers[h].code == s.pollers[a.h].code {
          AloneMeans(s, h, a.h);
        }
      }
    } else {
      OtherSteps(s, a, lib);
      if a.Other? {
        OthersKeepFree(s.db, a.r, lib);
      }
    }
  }

  lemma OthersKeepFree(db: DB, r: Request, lib: Library)
    requires !r.Poll?
    ensures forall c :: FreeRow(db, c) ==> FreeRow(Next(db, r, lib), c)
  {
    hide Normalize, Trim;
  }

  lemma {:induction false} RunAlone(states: seq<State>, acts: seq<Action>, lib: Library, i: nat)
    requires IsRun(states, acts, lib) && i < |states| && forall k :: 0 <= k < i ==> Alone(states[k])
    ensures StillUnclaimed(states[i]) && states[i].overwritten == {}
  {
    if i > 0 {
      RunAlone(states, acts, lib, i - 1);
      RunStep(states, acts, lib, i - 1);
      RunInv(states, acts, lib, i - 1);
      assert Alone(states[i - 1]);
      hide *;
      AloneStep(states[i - 1], acts[i - 1], lib);
    }
  }

  /** When polls of one device code never overlap, claims and devices correspond one-to-one. */
  lemma AlonePollsClaimOnce(states: seq<State>, acts: seq<Action>, lib: Library, i: nat)
    requires IsRun(states, acts, lib) && i < |states| && forall k :: 0 <= k < i ==> Alone(states[k])
    ensures OneToOne(states[i].db)
  {
    RunAlone(states, acts, lib, i);
    OneToOneUnlessOverwritten(states, acts, lib, i);
  }

  /** When polls of one device code never overlap, rows only go forward just as when requests are
      served one at a time: in particular a device id, once set, does not change. */
  lemma {:induction false} AloneRowsGoForward(states: seq<State>, acts: seq<Action>, lib: Library, i: nat, j: nat)
    requires IsRun(states, acts, lib) && i <= j < |states| && forall k :: 0 <= k < j ==> Alone(states[k])
    ensures EnrollRuns.Later(states[i].db, states[j].db)
    decreases j
  {
    if i < j {
      AloneRowsGoForward(states, acts, lib, i, j - 1);
      RunStep(states, acts, lib, j - 1);
      RunAlone(states, acts, lib, j - 1);
      hide *;
      AloneStepLater(states[j - 1], acts[j - 1], lib);
      EnrollRuns.LaterTransitive(states[i].db, states[j - 1].db, states[j].db);
    }
  }

  lemma AloneStepLater(s: State, a: Action, lib: Library)
    requires Enabled(s, a) && StillUnclaimed(s)
    ensures EnrollRuns.Later(s.db, Step(s, a, lib).db)
  {
    if Commits(s, a, lib) {
      assert FreeRow(s.db, s.pollers[a.h].code);
      CommitMeans(s, a, lib);
    } else {
      OtherSteps(s, a, lib);
      if a.Other? {
        EnrollRuns.StepLater(s.db, a.r, lib);
      }
    }
  }

  // ----- approvals and claims -------------------------------------------------------------------------

  /** Whatever overlaps: nothing is lost, an approval stays with its name, and a claimed enrollment
      stays claimed. */
  ghost predicate Forward(a: DB, b: DB) {
    (forall c :: c in a.enrollments ==> c in b.enrollments && RowForward(a.enrollments[c], b.enrollments[c]))
    && (forall d :: d in a.devices ==>
          d in b.devices && b.devices[d] == a.devices[d].(lastSeen := b.devices[d].lastSeen))
  }

  ghost predicate RowForward(a: EnrollmentRow, b: EnrollmentRow) {
    (a.approved ==> b.approved && b.proposedName == a.proposedName)
    && (a.deviceID.Some? ==> b.deviceID.Some?)
    && b == a.(approved := b.approved, proposedName := b.proposedName, deviceID := b.deviceID)
  }

  lemma StepForward(s: State, a: Action, lib: Library)
    requires Enabled(s, a) && Inv(s, lib)
    ensures Forward(s.db, Step(s, a, lib).db)
  {
    if Commits(s, a, lib) {
      assert PollerOk(s.db, s.granted, a.h, s.pollers[a.h], lib);
      CommitMeans(s, a, lib);
    } else {
      OtherSteps(s, a, lib);
      if a.Other? {
        EnrollRuns.StepLater(s.db, a.r, lib);
      }
    }
  }

  /** However polls interleave, phases only move forward. */
  lemma {:induction false} PhasesGoForward(states: seq<State>, acts: seq<Action>, lib: Library, i: nat, j: nat)
    requires IsRun(states, acts, lib) && i <= j < |states|
    ensures Forward(states[i].db, states[j].db)
    decreases j
  {
    hide Enabled, Inv, Proper, Step, Timely;
    if i < j {
      PhasesGoForward(states, acts, lib, i, j - 1);
      RunStep(states, acts, lib, j - 1);
      RunInv(states, acts, lib, j - 1);
      hide IsRun, Enabled, Step, Inv;
      StepForward(states[j - 1], acts[j - 1], lib);
    }
  }

  /** The step approves the enrollment, strictly before it expires. */
  ghost predicate Approves(s: State, a: Action, lib: Library, c: string) {
    a.Other? && a.r.Approve? && c in s.db.enrollments
    && var row := s.db.enrollments[c];
    !row.approved && Normalize(a.r.typed, lib.upper) == row.userCode && a.r.at < row.expiresAt * SECOND
  }

  ghost predicate ApprovedAt(states: seq<State>, acts: seq<Action>, lib: Library, i: int, c: string) {
    0 <= i < |acts| < |states| && Approves(states[i], acts[i], lib, c)
  }

  lemma OnlyApprovalsApprove(s: State, a: Action, lib: Library, c: string)
    requires Enabled(s, a) && Inv(s, lib) && c in Step(s, a, lib).db.enrollments
    requires Step(s, a, lib).db.enrollments[c].approved && !(c in s.db.enrollments && s.db.enrollments[c].approved)
    ensures Approves(s, a, lib, c)
  {
    if Commits(s, a, lib) {
      assert PollerOk(s.db, s.granted, a.h, s.pollers[a.h], lib);
      CommitMeans(s, a, lib);
    } else {
      OtherSteps(s, a, lib);
      if a.Other? {
        EnrollRuns.StepApproves(s.db, a.r, lib, c);
      }
    }
  }

  lemma {:induction false} ApprovalHappened(states: seq<State>, acts: seq<Action>, lib: Library, j: nat, c: string)
    returns (i: nat)
    requires IsRun(states, acts, lib) && j < |states|
    requires c in states[j].db.enrollments && states[j].db.enrollments[c].approved
    ensures i < j && ApprovedAt(states, acts, lib, i, c)
  {
    hide Step;
    assert j > 0;
    RunStep(states, acts, lib, j - 1);
    RunInv(states, acts, lib, j - 1);
    hide IsRun, Step, Inv, Enabled, Approves;
    if c in states[j - 1].db.enrollments && states[j - 1].db.enrollments[c].approved {
      i := ApprovalHappened(states, acts, lib, j - 1, c);
    } else {
      i := j - 1;
      OnlyApprovalsApprove(states[i], acts[i], lib, c);
    }
  }

  /** Step k is the commit of a poll of the code that links the enrollment to the device. */
  ghost predicate ClaimsAt(states: seq<State>, acts: seq<Action>, lib: Library, k: int, c: string, d: Uuid) {
    0 <= k < |acts| < |states| && Commits(states[k], acts[k], lib) && acts[k].id == d
    && states[k].pollers[acts[k].h].code == c
  }

  lemma OnlyCommitsClaim(s: State, a: Action, lib: Library, c: string, d: Uuid)
    requires Enabled(s, a) && Inv(s, lib) && ClaimedBy(Step(s, a, lib).db, c, d) && !ClaimedBy(s.db, c, d)
    ensures Commits(s, a, lib) && a.id == d && s.pollers[a.h].code == c
    ensures c in s.db.enrollments && s.db.enrollments[c].approved
  {
    if Commits(s, a, lib) {
      assert PollerOk(s.db, s.granted, a.h, s.pollers[a.h], lib);
      CommitClaims(s, a, lib, c, d);
    } else {
      OtherSteps(s, a, lib);
      if a.Other? {
        OthersKeepClaims(s.db, a.r, lib);
      }
    }
  }

  lemma {:induction false} ClaimHappened(states: seq<State>, acts: seq<Action>, lib: Library, j: nat,
                                         c: string, d: Uuid)
    returns (k: nat)
    requires IsRun(states, acts, lib) && j < |states| && ClaimedBy(states[j].db, c, d)
    ensures k < j && ClaimsAt(states, acts, lib, k, c, d)
    ensures c in states[k].db.enrollments && states[k].db.enrollments[c].approved
  {
    assert j > 0;
    RunStep(states, acts, lib, j - 1);
    RunInv(states, acts, lib, j - 1);
    hide IsRun, Step, Inv, Enabled;
    if ClaimedBy(states[j - 1].db, c, d) {
      k := ClaimHappened(states, acts, lib, j - 1, c, d);
    } else {
      k := j - 1;
      OnlyCommitsClaim(states[k], acts[k], lib, c, d);
    }
  }

  /** Step n is the second lookup of poll h, of this code, and it passed. */
  ghost predicate ChecksAt(states: seq<State>, acts: seq<Action>, n: int, h: nat, code: string) {
    0 <= n < |acts| < |states| && acts[n].Check? && acts[n].h == h && h in states[n].pollers
    && states[n].pollers[h].code == code && SecondLook(states[n].db, code, acts[n].checked).Checked?
  }

  lemma OnlyChecksCheck(s: State, a: Action, lib: Library, h: nat)
    requires Enabled(s, a) && h in Step(s, a, lib).pollers && Step(s, a, lib).pollers[h].stage.Checked?
    ensures (h in s.pollers && s.pollers[h] == Step(s, a, lib).pollers[h])
            || (a.Check? && a.h == h && h in s.pollers && s.pollers[h].code == Step(s, a, lib).pollers[h].code
                && SecondLook(s.db, s.pollers[h].code, a.checked).Checked?)
  {
    hide SecondLook, Next;
  }

  lemma {:induction false} CheckHappened(states: seq<State>, acts: seq<Action>, lib: Library, k: nat, h: nat)
    returns (n: nat)
    requires IsRun(states, acts, lib) && k < |states| && h in states[k].pollers && states[k].pollers[h].stage.Checked?
    ensures n < k && ChecksAt(states, acts, n, h, states[k].pollers[h].code)
  {
    hide Step;
    assert k > 0;
    RunStep(states, acts, lib, k - 1);
    hide IsRun, Step, Enabled, SecondLook;
    OnlyChecksCheck(states[k - 1], acts[k - 1], lib, h);
    if h in states[k - 1].pollers && states[k - 1].pollers[h] == states[k].pollers[h] {
      n := CheckHappened(states, acts, lib, k - 1, h);
    } else {
      n := k - 1;
    }
  }

  /** However polls interleave, a claimed enrollment was approved strictly before its expiry, then
      found claimable by one of its own polls, which read a time not after the expiry, and then claimed by
      that poll's commit. */
  lemma ClaimedWasApprovedInTime(states: seq<State>, acts: seq<Action>, lib: Library, j: nat, c: string, d: Uuid)
    returns (approval: nat, check: nat, claim: nat)
    requires IsRun(states, acts, lib) && j < |states| && ClaimedBy(states[j].db, c, d)
    ensures approval < check < claim < j && ApprovedAt(states, acts, lib, approval, c)
    ensures ClaimsAt(states, acts, lib, claim, c, d) && ChecksAt(states, acts, check, acts[claim].h, c)
    ensures states[j].db.enrollments[c].expiresAt == states[approval].db.enrollments[c].expiresAt
    ensures acts[check].checked <= states[approval].db.enrollments[c].expiresAt * SECOND
    ensures acts[approval].at <= acts[check].at <= acts[claim].at
  {
    claim := ClaimHappened(states, acts, lib, j, c, d);
    check := CheckHappened(states, acts, lib, claim, acts[claim].h);
    approval := ApprovalHappened(states, acts, lib, check, c);
    PhasesGoForward(states, acts, lib, approval, check);
    PhasesGoForward(states, acts, lib, check, j);
    assert ClockRuns(acts);
    hide IsRun, ClaimsAt, Approves;
  }

  // ----- expiry ---------------------------------------------------------------------------------------

  /** Step i starts an enrollment. */
  ghost predicate StartsAt(states: seq<State>, acts: seq<Action>, i: int) {
    0 <= i < |acts| && i + 1 < |states| && acts[i].Other? && acts[i].r.Start?
    && acts[i].r.deviceCode !in states[i].db.enrollments && acts[i].r.deviceCode in states[i + 1].db.enrollments
  }

  /** However polls interleave, a started enrollment is never unknown again, and a poll's first lookup
      is answered as expired exactly if it reads a time more than ten minutes after the start, rounded
      down to a second. */
  lemma ExpiresExactly(states: seq<State>, acts: seq<Action>, lib: Library, i: nat, j: nat)
    requires IsRun(states, acts, lib) && i < j < |acts| && StartsAt(states, acts, i)
    requires acts[j].Look? && acts[j].code == acts[i].r.deviceCode
    ensures acts[j].h in states[j + 1].pollers && states[j + 1].pollers[acts[j].h].code == acts[j].code
    ensures states[j + 1].pollers[acts[j].h].stage != Answered(InvalidDeviceCode)
    ensures states[j + 1].pollers[acts[j].h].stage == Answered(ExpiredToken)
            <==> acts[j].seen > Unix(acts[i].r.at + 600 * SECOND) * SECOND
  {
    RunStep(states, acts, lib, i);
    RunStep(states, acts, lib, j);
    PhasesGoForward(states, acts, lib, i + 1, j);
    hide IsRun;
    assert states[i + 1].db.enrollments[acts[i].r.deviceCode].expiresAt == Unix(acts[i].r.at + ENROLL_TTL);
  }
}
