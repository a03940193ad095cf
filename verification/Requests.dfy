/** The enrollment requests as atomic steps on the tables, with the replies they get. */
module Requests {
  import opened Tables
  import opened Typing
  import opened UserCodes

  const POLL_INTERVAL := 2

  datatype Reply =
    | InvalidDeviceCode
    | ExpiredToken
    | AuthorizationPending
    | AlreadyClaimed
    | Granted(id: Uuid, token: string, name: string)
    | ServerError

  datatype StartReply = StartReply(deviceCode: string, userCode: string, expiresIn: int, interval: int)

  /** A request with everything the handler draws or reads while serving it: clock readings in
      the order they are made, random values, and whether the transaction gets to commit. */
  datatype Request =
    | Start(at: int, userCode: string, deviceCode: string, platform: string, hostname: string)
    | Poll(code: string, seen: int, checked: int, stamped: int, token: string, id: Uuid, commits: bool)
    | Approve(typed: string, name: string, at: int)
    | Touch(device: Uuid, at: int)

  /** The token hash, and Unicode's upper case outside ASCII. */
  datatype Library = Library(hash: string -> string, upper: char -> char)

  function StartedAt(r: Request): int {
    if r.Poll? then r.seen else r.at
  }

  function EndedAt(r: Request): int {
    if r.Poll? then r.stamped else r.at
  }

  /** The clock does not go back while the request is served; user codes are drawn as codes are. */
  ghost predicate Proper(r: Request) {
    (r.Poll? ==> r.seen <= r.checked <= r.stamped) && (r.Start? ==> WellFormed(r.userCode))
  }

  function DeviceFor(row: EnrollmentRow, r: Request, lib: Library): DeviceRow
    requires r.Poll?
  {
    DeviceRow(NameFor(row, r.id), lib.hash(r.token), row.platform, Unix(r.stamped), 0)
  }

  /** The claim a poll makes once its first checks have passed. */
  function Materialized(db: DB, r: Request, lib: Library): Result<DB>
    requires r.Poll?
  {
    var row := Claimable(db, r.code, r.checked);
    if row.Err? then Err(row.error)
    else Claimed(db, r.code, r.id, DeviceFor(row.value, r, lib), r.commits)
  }

  function PollReply(db: DB, r: Request, lib: Library): Reply
    requires r.Poll?
  {
    if r.code !in db.enrollments then InvalidDeviceCode
    else
      var row := db.enrollments[r.code];
      if After(r.seen, row.expiresAt) then ExpiredToken
      else if !row.approved then AuthorizationPending
      else if row.deviceID.Some? then AlreadyClaimed
      else if Materialized(db, r, lib).Err? then ServerError
      else Granted(r.id, r.token, NameFor(row, r.id))
  }

  /** The tables after a request. */
  function Next(db: DB, r: Request, lib: Library): DB {
    match r
    case Start(at, userCode, deviceCode, platform, hostname) =>
      var made := Created(db, deviceCode, userCode, at + ENROLL_TTL, platform, hostname);
      if made.Ok? then made.value else db
    case Poll(_, _, _, _, _, _, _) =>
      if PollReply(db, r, lib).Granted? then Materialized(db, r, lib).value else db
    case Approve(typed, name, at) =>
      var approved := Approved(db, Normalize(typed, lib.upper), Trim(name), at);
      if approved.Ok? then approved.value else db
    case Touch(device, at) => Touched(db, device, at)
  }
}
