/** The enrollment handlers over the store object. */
module EnrollServer {
  import opened Wire
  import opened Tables
  import opened Typing
  import opened Requests
  import opened StoreObjects

  class Server {
    const store: Store
    const lib: Library

    constructor (store: Store, lib: Library)
      ensures this.store == store && this.lib == lib
    {
      this.store := store;
      this.lib := lib;
    }

    method HandleStart(r: Request) returns (reply: Option<StartReply>)
      requires r.Start? && store.Valid()
      modifies store
      ensures store.Valid() && store.Contents() == Next(old(store.Contents()), r, lib)
      ensures reply.Some? ==>
                reply == Some(StartReply(r.deviceCode, r.userCode, 600, 2))
                && r.deviceCode !in old(store.enrollments) && r.deviceCode in store.enrollments
      ensures reply == None ==> store.Contents() == old(store.Contents())
    {
      var err := store.CreateEnrollment(r.deviceCode, r.userCode, r.at + ENROLL_TTL, r.platform, r.hostname);
      if err.Some? {
        return None;
      }
      return Some(StartReply(r.deviceCode, r.userCode, ENROLL_TTL / SECOND, POLL_INTERVAL));
    }

    method HandlePoll(r: Request) returns (reply: Reply)
      requires r.Poll? && store.Valid()
      modifies store
      ensures store.Valid() && store.Contents() == Next(old(store.Contents()), r, lib)
      ensures reply == PollReply(old(store.Contents()), r, lib)
    {
      if r.code !in store.enrollments {
        return InvalidDeviceCode;
      }
      var e := store.enrollments[r.code];
      if After(r.seen, e.expiresAt) {
        return ExpiredToken;
      }
      if !e.approved {
        return AuthorizationPending;
      }
      if e.deviceID.Some? {
        return AlreadyClaimed;
      }
      var made := store.MaterializeDevice(r.code, lib.hash(r.token), r.checked, r.id, r.stamped, r.commits);
      if made.Err? {
        return ServerError;
      }
      return Granted(made.value.id, r.token, made.value.name);
    }

    /** True: approved. False: no pending enrollment in time has the code. */
    method HandleApprove(r: Request) returns (approved: bool)
      requires r.Approve? && store.Valid()
      modifies store
      ensures store.Valid() && store.Contents() == Next(old(store.Contents()), r, lib)
      ensures approved <==> exists c ::
                c in old(store.enrollments)
                && Picks(old(store.enrollments)[c], Normalize(r.typed, lib.upper), r.at)
    {
      SomePicked(store.enrollments, Normalize(r.typed, lib.upper), r.at);
      var err := store.ApproveEnrollment(Normalize(r.typed, lib.upper), Trim(r.name), r.at);
      return err.None?;
    }
  }
}
