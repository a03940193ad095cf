/** The store as the source's object: two tables that its statements change in place. */
module StoreObjects {
  import opened Wire
  import opened Tables

  datatype Device = Device(id: Uuid, name: string, platform: string, createdAt: int, lastSeen: int)

  lemma MarkedKeepsSchema(db: DB, userCode: string, name: string, now: int)
    requires KeepsSchema(db)
    ensures Approved(db, userCode, name, now).Ok? ==> KeepsSchema(Approved(db, userCode, name, now).value)
  {
  }

  lemma NoneMarked(enrollments: map<string, EnrollmentRow>, name: string)
    ensures MarkedRows(enrollments, {}, name) == enrollments
  {
  }

  class Store {
    var devices: map<Uuid, DeviceRow>
    var enrollments: map<string, EnrollmentRow>

    constructor ()
      ensures Contents() == EMPTY && Valid()
    {
      devices := map[];
      enrollments := map[];
    }

    ghost function Contents(): DB
      reads this
    {
      DB(devices, enrollments)
    }

    ghost predicate Valid()
      reads this
    {
      KeepsSchema(Contents())
    }

    method CreateEnrollment(deviceCode: string, userCode: string, expires: int, platform: string, hostname: string)
      returns (err: Option<StoreError>)
      requires Valid()
      modifies this`enrollments
      ensures Valid()
      ensures var r := Created(old(Contents()), deviceCode, userCode, expires, platform, hostname);
              if r.Ok? then err == None && Contents() == r.value
              else err == Some(r.error) && Contents() == old(Contents())
    {
      if deviceCode in enrollments || exists c :: c in enrollments && enrollments[c].userCode == userCode {
        return Some(ConstraintFailed);
      }
      var row := EnrollmentRow(userCode, Unix(expires), false, None, None, platform, hostname);
      enrollments := enrollments[deviceCode := row];
      return None;
    }

    /** Approves the pending, unexpired enrollment with the user code. */
    method ApproveEnrollment(userCode: string, name: string, now: int) returns (err: Option<StoreError>)
      requires Valid()
      modifies this`enrollments
      ensures Valid()
      ensures var r := Approved(old(Contents()), userCode, name, now);
              if r.Ok? then err == None && Contents() == r.value
              else err == Some(r.error) && Contents() == old(Contents())
    {
      MarkedKeepsSchema(Contents(), userCode, name, now);
      NoneMarked(enrollments, name);
      hide Picked, MarkedRows, KeepsSchema;
      var picked := Picked(enrollments, userCode, now);
      enrollments := MarkedRows(enrollments, picked, name);
      if picked == {} {
        return Some(NotFound);
      }
      return None;
    }

    /** Makes the device of an approved enrollment. A failed statement or commit leaves both
        tables as they were. */
    method MaterializeDevice(deviceCode: string, tokenHash: string, checked: int, id: Uuid, stamped: int, commits: bool)
      returns (r: Result<Device>)
      requires Valid()
      modifies this
      ensures Valid()
      ensures var row := Claimable(old(Contents()), deviceCode, checked);
              if row.Err? then r == Err(row.error) && Contents() == old(Contents())
              else
                var name := NameFor(row.value, id);
                var device := DeviceRow(name, tokenHash, row.value.platform, Unix(stamped), 0);
                var after := Claimed(old(Contents()), deviceCode, id, device, commits);
                if after.Err? then r == Err(after.error) && Contents() == old(Contents())
                else Contents() == after.value && r == Ok(Device(id, name, row.value.platform, Unix(stamped), 0))
    {
      if deviceCode !in enrollments {
        return Err(NotFound);
      }
      var e := enrollments[deviceCode];
      if !e.approved {
        return Err(NotApproved);
      }
      if e.deviceID.Some? {
        return Err(ClaimedBefore);
      }
      if After(checked, e.expiresAt) {
        return Err(Expired);
      }
      var name := if e.proposedName.Some? then e.proposedName.value else "";
      if name == "" {
        name := e.hostname;
      }
      if name == "" {
        name := "device-" + id[..8];
      }
      var now := Unix(stamped);
      var savedDevices, savedEnrollments := devices, enrollments;
      if id in devices || exists d :: d in devices && devices[d].tokenHash == tokenHash {
        return Err(ConstraintFailed);
      }
      devices := devices[id := DeviceRow(name, tokenHash, e.platform, now, 0)];
      if deviceCode in enrollments {
        enrollments := enrollments[deviceCode := enrollments[deviceCode].(deviceID := Some(id))];
      }
      if !commits {
        devices, enrollments := savedDevices, savedEnrollments;
        return Err(TransactionFailed);
      }
      return Ok(Device(id, name, e.platform, now, 0));
    }

    method AuthenticateDevice(token: string, hash: string -> string) returns (r: Result<Device>)
      requires Valid()
      ensures var found := Authenticated(Contents(), hash, token);
              if found.None? then r == Err(NotFound)
              else
                found.value in devices && devices[found.value].tokenHash == hash(token)
                && r == Ok(var row := devices[found.value];
                           Device(found.value, row.name, row.platform, row.createdAt, row.lastSeen))
    {
      var h := hash(token);
      if d :| d in devices && devices[d].tokenHash == h {
        AuthenticatedIs(Contents(), hash, token, d);
        var row := devices[d];
        return Ok(Device(d, row.name, row.platform, row.createdAt, row.lastSeen));
      }
      return Err(NotFound);
    }

    method TouchDevice(id: Uuid, now: int)
      requires Valid()
      modifies this`devices
      ensures Valid() && Contents() == Touched(old(Contents()), id, now)
    {
      if id in devices {
        devices := devices[id := devices[id].(lastSeen := Unix(now))];
      }
    }
  }
}
