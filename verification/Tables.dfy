/** The two tables of the store as values, and what each statement does to them. Times are
    nanoseconds on one clock; the tables keep whole seconds. */
module Tables {
  import opened Wire

  const SECOND := 1_000_000_000
  const ENROLL_TTL := 600 * SECOND

  /** A reading as whole seconds, rounded down. */
  function Unix(now: int): int {
    now / SECOND
  }

  /** A reading is later than a stored time. */
  predicate After(now: int, seconds: int) {
    now > seconds * SECOND
  }

  type Uuid = s: string | |s| == 36 witness seq(36, _ => '0')

  datatype DeviceRow = DeviceRow(name: string, tokenHash: string, platform: string, createdAt: int, lastSeen: int)

  datatype EnrollmentRow = EnrollmentRow(
    userCode: string,
    expiresAt: int,
    approved: bool,
    deviceID: Option<Uuid>,
    proposedName: Option<string>,
    platform: string,
    hostname: string)

  /** Devices by id, enrollments by device code: the primary keys. */
  datatype DB = DB(devices: map<Uuid, DeviceRow>, enrollments: map<string, EnrollmentRow>)

  datatype StoreError = NotFound | NotApproved | ClaimedBefore | Expired | ConstraintFailed | TransactionFailed

  datatype Result<+T> = Ok(value: T) | Err(error: StoreError)

  const EMPTY := DB(map[], map[])

  // ----- the UNIQUE columns -----------------------------------------------------------------

  ghost predicate UserCodesUnique(enrollments: map<string, EnrollmentRow>) {
    forall c1, c2 :: c1 in enrollments && c2 in enrollments && enrollments[c1].userCode == enrollments[c2].userCode ==>
      c1 == c2
  }

  ghost predicate HashesUnique(devices: map<Uuid, DeviceRow>) {
    forall d1, d2 :: d1 in devices && d2 in devices && devices[d1].tokenHash == devices[d2].tokenHash ==> d1 == d2
  }

  ghost predicate KeepsSchema(db: DB) {
    UserCodesUnique(db.enrollments) && HashesUnique(db.devices)
  }

  predicate UserCodeTaken(db: DB, userCode: string) {
    exists c :: c in db.enrollments && db.enrollments[c].userCode == userCode
  }

  predicate HashTaken(devices: map<Uuid, DeviceRow>, tokenHash: string) {
    exists d :: d in devices && devices[d].tokenHash == tokenHash
  }

  // ----- claims ---------------------------------------------------------------------------------

  predicate ClaimedBy(db: DB, c: string, d: Uuid) {
    c in db.enrollments && db.enrollments[c].deviceID == Some(d)
  }

  /** A claimed enrollment was approved, and its device exists. */
  ghost predicate ClaimsName(db: DB) {
    forall c, d :: ClaimedBy(db, c, d) ==> db.enrollments[c].approved && d in db.devices
  }

  ghost predicate ClaimsDiffer(db: DB) {
    forall c1, c2, d :: ClaimedBy(db, c1, d) && ClaimedBy(db, c2, d) ==> c1 == c2
  }

  ghost predicate DevicesClaimed(db: DB) {
    forall d :: d in db.devices ==> exists c :: ClaimedBy(db, c, d)
  }

  /** `deviceID` is one-to-one from the claimed enrollments onto the devices. */
  ghost predicate OneToOne(db: DB) {
    ClaimsName(db) && ClaimsDiffer(db) && DevicesClaimed(db)
  }

  // ----- statements ---------------------------------------------------------------------------

  function Created(db: DB, deviceCode: string, userCode: string, expires: int, platform: string, hostname: string)
    : Result<DB>
  {
    if deviceCode in db.enrollments || UserCodeTaken(db, userCode) then Err(ConstraintFailed)
    else
      var row := EnrollmentRow(userCode, Unix(expires), false, None, None, platform, hostname);
      Ok(db.(enrollments := db.enrollments[deviceCode := row]))
  }

  /** The rows the approval's WHERE picks. */
  predicate Picks(row: EnrollmentRow, userCode: string, now: int) {
    row.userCode == userCode && !row.approved && row.expiresAt > Unix(now)
  }

  function Marked(row: EnrollmentRow, name: string): EnrollmentRow {
    row.(approved := true, proposedName := Some(name))
  }

  /** The rows the approval changes. */
  function Picked(enrollments: map<string, EnrollmentRow>, userCode: string, now: int): set<string> {
    set c | c in enrollments && Picks(enrollments[c], userCode, now)
  }

  lemma SomePicked(enrollments: map<string, EnrollmentRow>, userCode: string, now: int)
    ensures Picked(enrollments, userCode, now) != {}
            <==> exists c :: c in enrollments && Picks(enrollments[c], userCode, now)
  {
    var picked := Picked(enrollments, userCode, now);
    if picked != {} {
      var c :| c in picked;
    }
    assert forall c :: c in picked <==> c in enrollments && Picks(enrollments[c], userCode, now);
  }

  function MarkedRows(enrollments: map<string, EnrollmentRow>, picked: set<string>, name: string)
    : map<string, EnrollmentRow>
  {
    map c | c in enrollments :: if c in picked then Marked(enrollments[c], name) else enrollments[c]
  }

  function Approved(db: DB, userCode: string, name: string, now: int): Result<DB> {
    var picked := Picked(db.enrollments, userCode, now);
    if picked == {} then Err(NotFound)
    else Ok(db.(enrollments := MarkedRows(db.enrollments, picked, name)))
  }

  /** The checks before the transaction. */
  function Claimable(db: DB, deviceCode: string, now: int): Result<EnrollmentRow> {
    if deviceCode !in db.enrollments then Err(NotFound)
    else
      var row := db.enrollments[deviceCode];
      if !row.approved then Err(NotApproved)
      else if row.deviceID.Some? then Err(ClaimedBefore)
      else if After(now, row.expiresAt) then Err(Expired)
      else Ok(row)
  }

  /** The operator's name for the device, else its host name, else one made of its id. */
  function NameFor(row: EnrollmentRow, id: Uuid): string {
    var proposed := if row.proposedName.Some? then row.proposedName.value else "";
    if proposed != "" then proposed
    else if row.hostname != "" then row.hostname
    else "device-" + id[..8]
  }

  function Inserted(db: DB, id: Uuid, row: DeviceRow): Result<DB> {
    if id in db.devices || HashTaken(db.devices, row.tokenHash) then Err(ConstraintFailed)
    else Ok(db.(devices := db.devices[id := row]))
  }

  /** The claim's UPDATE asks for no more than the device code. */
  function Linked(db: DB, deviceCode: string, id: Uuid): DB {
    if deviceCode !in db.enrollments then db
    else db.(enrollments := db.enrollments[deviceCode := db.enrollments[deviceCode].(deviceID := Some(id))])
  }

  /** The transaction: both statements or neither. */
  function Claimed(db: DB, deviceCode: string, id: Uuid, row: DeviceRow, commits: bool): Result<DB> {
    var inserted := Inserted(db, id, row);
    if inserted.Err? then inserted
    else if !commits then Err(TransactionFailed)
    else Ok(Linked(inserted.value, deviceCode, id))
  }

  function Touched(db: DB, id: Uuid, now: int): DB {
    if id !in db.devices then db
    else db.(devices := db.devices[id := db.devices[id].(lastSeen := Unix(now))])
  }

  /** The device a token authenticates. */
  ghost function Authenticated(db: DB, hash: string -> string, token: string): Option<Uuid> {
    if HashTaken(db.devices, hash(token)) then
      var d :| d in db.devices && db.devices[d].tokenHash == hash(token); Some(d)
    else None
  }

  lemma AuthenticatedIs(db: DB, hash: string -> string, token: string, id: Uuid)
    requires KeepsSchema(db)
    ensures Authenticated(db, hash, token) == Some(id) <==> id in db.devices && db.devices[id].tokenHash == hash(token)
  {
  }
}
