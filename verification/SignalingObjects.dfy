/** The presence table and the session broker as the objects of the source: maps of pointers
    to mutable connections and sessions, whose methods run here without interference. Their
    locked regions and pushes are the functions of `Regions`, of which the steps of `Machine`
    are made as well. */
module SignalingObjects {
  import opened Wire
  import opened Regions
  import Operations

  /** A cancellable context. */
  class Context {
    var cancelled: bool

    constructor ()
      ensures !cancelled
    {
      cancelled := false;
    }

    method Cancel()
      modifies this
      ensures cancelled
    {
      cancelled := true;
    }
  }

  /** What a channel of capacity CAPACITY can hold. */
  type Pending = s: seq<Envelope> | |s| <= CAPACITY

  /** An outbound queue. */
  class Queue {
    var items: Pending

    constructor ()
      ensures items == []
    {
      items := [];
    }

    /** A push with a default: never blocks. */
    method TryPush(env: Envelope) returns (ok: bool)
      modifies this
      ensures items == Offer(old(items), env)
      ensures ok <==> |old(items)| < 32
      ensures items == if ok then old(items) + [env] else old(items)
    {
      ok := |items| < CAPACITY;
      if ok {
        items := items + [env];
      }
    }

    /** The writer takes the oldest envelope out. */
    method Take() returns (env: Envelope)
      requires items != []
      modifies this
      ensures old(items) == [env] + items
    {
      env := items[0];
      items := items[1..];
    }
  }

  class DeviceConn {
    const out: Queue
    const cancel: Context
    var lastHB: int

    constructor (out: Queue, cancel: Context, now: int)
      ensures this.out == out && this.cancel == cancel && lastHB == now
    {
      this.out := out;
      this.cancel := cancel;
      lastHB := now;
    }
  }

  class Presence {
    var conns: map<string, DeviceConn>

    /** Each connection has its own queue and its own context. */
    ghost predicate Valid()
      reads this
    {
      (forall d1, d2 :: d1 in conns && d2 in conns && d1 != d2 ==>
            conns[d1] != conns[d2] && conns[d1].out != conns[d2].out && conns[d1].cancel != conns[d2].cancel)
    }

    constructor ()
      ensures Valid() && conns == map[]
    {
      conns := map[];
    }

    /** Replaces the device's connection, if any, and kicks the replaced one. */
    method Register(deviceID: string, dc: DeviceConn)
      requires Valid()
      requires forall d :: d in conns ==> conns[d] != dc && conns[d].out != dc.out && conns[d].cancel != dc.cancel
      modifies this`conns
      modifies if deviceID in conns then {conns[deviceID].cancel} else {}
      ensures Valid() && conns == Registered(old(conns), deviceID, dc)
      ensures deviceID in old(conns) ==> old(conns)[deviceID].cancel.cancelled
      ensures dc.cancel.cancelled == old(dc.cancel.cancelled)
    {
      if deviceID in conns {
        var prev := conns[deviceID];
        prev.cancel.Cancel();
      }
      conns := conns[deviceID := dc];
    }

    /** Takes the connection out only if it is the one in the table. */
    method Unregister(deviceID: string, dc: DeviceConn)
      requires Valid()
      modifies this`conns
      ensures Valid() && conns == Unregistered(old(conns), deviceID, dc)
      ensures forall d :: d in old(conns) && old(conns)[d] != dc ==> d in conns && conns[d] == old(conns)[d]
    {
      if deviceID in conns && conns[deviceID] == dc {
        conns := conns - {deviceID};
      }
    }

    predicate IsOnline(deviceID: string)
      reads this
    {
      deviceID in conns
    }

    method Heartbeat(deviceID: string, now: int)
      modifies if deviceID in conns then {conns[deviceID]} else {}
      ensures deviceID in conns ==> conns[deviceID].lastHB == now
    {
      if deviceID in conns {
        var c := conns[deviceID];
        c.lastHB := now;
      }
    }

    /** The queue of the device's connection, if there is one. */
    ghost function OutOf(deviceID: string): set<Queue>
      reads this
    {
      if deviceID in conns then {conns[deviceID].out} else {}
    }

    /** Pushes without blocking: an error if the device is offline or its queue is full. */
    method Send(deviceID: string, env: Envelope) returns (err: Option<string>)
      requires Valid()
      modifies OutOf(deviceID)
      ensures Valid()
      ensures deviceID !in conns ==> err == Some("device offline")
      ensures deviceID in conns ==>
                var q := conns[deviceID].out;
                q.items == Offer(old(q.items), env)
                && err == (if HasRoom(old(q.items)) then None else Some("device outbound queue full"))
    {
      if deviceID !in conns {
        return Some(DEVICE_OFFLINE);
      }
      var c := conns[deviceID];
      var ok := c.out.TryPush(env);
      err := if ok then None else Some(QUEUE_FULL);
    }
  }

  class Session {
    const id: string
    const deviceID: string
    const browserOut: Queue
    const cancel: Context
    var closed: bool

    constructor (id: string, deviceID: string, browserOut: Queue, cancel: Context)
      ensures this.id == id && this.deviceID == deviceID && this.browserOut == browserOut && this.cancel == cancel
      ensures !closed
    {
      this.id := id;
      this.deviceID := deviceID;
      this.browserOut := browserOut;
      this.cancel := cancel;
      closed := false;
    }
  }

  datatype Opened = Opened(session: Session) | Refused(err: string)

  /** A queue after it has been offered the end of each of these sessions in turn. */
  function Notified(queue: seq<Envelope>, ids: seq<string>, reason: string): seq<Envelope> {
    if ids == [] then queue
    else Offer(Notified(queue, ids[..|ids| - 1], reason), Envelope(SessionEnd, ids[|ids| - 1], reason))
  }

  /** The first k ids. */
  function Taken(ids: seq<string>, k: nat): set<string>
    requires k <= |ids|
  {
    set id | id in ids[..k]
  }

  /** What a teardown changes of a session. */
  datatype View = View(closed: bool, cancelled: bool, queue: seq<Envelope>)

  /** A session after its teardown: closed, cancelled, and its browser offered one session.end. */
  function EndedView(v: View, id: string, reason: string): View {
    View(true, true, Offer(v.queue, Envelope(SessionEnd, id, reason)))
  }

  /** The sessions after the first k of them have been torn down. */
  function EndedUpTo(before: seq<View>, ids: seq<string>, k: nat, reason: string): (r: seq<View>)
    requires k <= |ids| == |before|
    ensures |r| == |before|
    ensures forall i :: 0 <= i < |r| ==> r[i] == if i < k then EndedView(before[i], ids[i], reason) else before[i]
  {
    seq(|before|, i requires 0 <= i < |before| =>
      if i < k then EndedView(before[i], ids[i], reason) else before[i])
  }

  /** The values the loop of closeByDevice starts from. */
  lemma NoneYet(all: map<string, Session>, before: seq<View>, queue: seq<Envelope>, ids: seq<string>, reason: string)
    requires |ids| == |before|
    ensures all == all - Taken(ids, 0) && before == EndedUpTo(before, ids, 0, reason)
    ensures queue == Notified(queue, ids[..0], reason)
  {
  }

  /** One turn more of the loop of closeByDevice, on values. */
  lemma OneMore(all: map<string, Session>, picked: seq<Session>, before: seq<View>, queue: seq<Envelope>,
                ids: seq<string>, k: nat, reason: string)
    requires k < |ids| == |picked| == |before|
    requires forall i :: 0 <= i < |ids| ==> ids[i] in all && all[ids[i]] == picked[i]
    requires forall i, j :: 0 <= i < j < |ids| ==> ids[i] != ids[j]
    ensures ids[k] in all - Taken(ids, k) && (all - Taken(ids, k))[ids[k]] == picked[k]
    ensures Removed(all - Taken(ids, k), ids[k]) == all - Taken(ids, k + 1)
    ensures EndedUpTo(before, ids, k, reason)[k] == before[k]
    ensures EndedUpTo(before, ids, k + 1, reason)
            == EndedUpTo(before, ids, k, reason)[k := EndedView(before[k], ids[k], reason)]
    ensures Notified(queue, ids[..k + 1], reason)
            == Offer(Notified(queue, ids[..k], reason), EndEnvelope(ids[k], reason))
  {
    assert ids[..k + 1][..k] == ids[..k];
    assert ids[..k + 1] == ids[..k] + [ids[k]];
    assert Taken(ids, k + 1) == Taken(ids, k) + {ids[k]};
  }

  ghost predicate Lists<T(!new)>(xs: seq<T>, s: set<T>) {
    (forall x :: x in xs <==> x in s) && (forall i, j :: 0 <= i < j < |xs| ==> xs[i] != xs[j])
  }

  /** No two sessions share a queue or a context. */
  ghost predicate Separate(sessions: map<string, Session>) {
    forall id1, id2 :: id1 in sessions && id2 in sessions && id1 != id2 ==>
      sessions[id1] != sessions[id2] && sessions[id1].browserOut != sessions[id2].browserOut
      && sessions[id1].cancel != sessions[id2].cancel
  }

  /** No session uses a queue or a context of a device connection. */
  ghost predicate AwayFrom(sessions: map<string, Session>, conns: map<string, DeviceConn>) {
    forall id, d :: id in sessions && d in conns ==>
      conns[d].out != sessions[id].browserOut && conns[d].cancel != sessions[id].cancel
  }

  class Broker {
    var sessions: map<string, Session>
    const presence: Presence

    constructor (presence: Presence)
      requires presence.Valid()
      ensures Valid() && this.presence == presence && sessions == map[]
    {
      this.presence := presence;
      sessions := map[];
    }

    /** Keys are ids; no session in the table is closed; every session has its own queue and
        context, apart from those of the device connections. */
    ghost predicate Valid()
      reads this, presence, sessions.Values
    {
      presence.Valid() && Separate(sessions) && AwayFrom(sessions, presence.conns)
      && (forall id :: id in sessions ==> sessions[id].id == id && !sessions[id].closed)
    }

    /** Every session in the table has its device online. */
    ghost predicate AllOnline()
      reads this, presence, sessions.Values
    {
      forall id :: id in sessions ==> sessions[id].deviceID in presence.conns
    }

    /** What the operations of a session work on. */
    ghost function SceneOf(deviceID: string, out: Queue, cancel: Context): Operations.Scene<Session>
      reads this, presence, out, cancel, presence.OutOf(deviceID)
    {
      Operations.Scene(
        sessions, if deviceID in presence.conns then Some(presence.conns[deviceID].out.items) else None,
        out.items, cancel.cancelled)
    }

    /** The locked region of close: marks the session and takes it out of the table. */
    method MarkAndDelete(id: string) returns (s: Session?)
      requires Valid()
      modifies this`sessions
      modifies if id in sessions then {sessions[id]} else {}
      ensures Valid() && sessions == Removed(old(sessions), id)
      ensures s == (if id in old(sessions) then old(sessions)[id] else null)
      ensures s != null ==> s.closed
    {
      if id !in sessions || sessions[id].closed {
        return null;
      }
      s := sessions[id];
      s.closed := true;
      sessions := sessions - {id};
    }

    /** What the winner of a close does outside the lock: both sides are offered session.end,
        then the browser's context is cancelled. */
    method EndBoth(s: Session, reason: string)
      requires presence.Valid() && Apart(s.browserOut, s.cancel)
      modifies s.browserOut, s.cancel, presence.OutOf(s.deviceID)
      ensures s.cancel.cancelled
      ensures s.browserOut.items == Offer(old(s.browserOut.items), EndEnvelope(s.id, reason))
      ensures s.deviceID in presence.conns ==>
                var q := presence.conns[s.deviceID].out;
                q.items == Offer(old(q.items), EndEnvelope(s.id, reason))
    {
      var end := EndEnvelope(s.id, reason);
      var _ := presence.Send(s.deviceID, end);
      var _ := s.browserOut.TryPush(end);
      s.cancel.Cancel();
    }

    /** Tears a session down: out of the table, marked, both sides offered session.end, cancelled.
        Any later call for the id, and any call for an unknown id, does nothing. */
    method Close(id: string, reason: string)
      requires Valid()
      modifies this`sessions
      modifies if id in sessions then {sessions[id]} else {}
      modifies if id in sessions then {sessions[id].browserOut} + presence.OutOf(sessions[id].deviceID) else {}
      modifies if id in sessions then {sessions[id].cancel} else {}
      ensures Valid() && sessions == Removed(old(sessions), id)
      ensures id in old(sessions) ==>
                var s := old(sessions)[id];
                s.closed && s.cancel.cancelled
                && s.browserOut.items == Offer(old(s.browserOut.items), Envelope(SessionEnd, id, reason))
                && (s.deviceID in presence.conns ==>
                      var q := presence.conns[s.deviceID].out;
                      q.items == Offer(old(q.items), Envelope(SessionEnd, id, reason)))
                && SceneOf(s.deviceID, s.browserOut, s.cancel)
                     == Operations.Closed(old(SceneOf(s.deviceID, s.browserOut, s.cancel)), id, reason)
    {
      var s := MarkAndDelete(id);
      if s != null {
        EndBoth(s, reason);
      }
    }

    /** The locked region of open. */
    method InsertSession(s: Session)
      requires Valid() && s.id !in sessions && !s.closed && Apart(s.browserOut, s.cancel)
      requires Unshared(s.browserOut, s.cancel)
      modifies this`sessions
      ensures Valid() && sessions == Inserted(old(sessions), s.id, s)
    {
      sessions := sessions[s.id := s];
    }

    /** No device connection uses the queue or the context. */
    ghost predicate Apart(out: Queue, cancel: Context)
      reads presence
    {
      forall d :: d in presence.conns ==> presence.conns[d].out != out && presence.conns[d].cancel != cancel
    }

    /** No session in the table uses the queue or the context. */
    ghost predicate Unshared(out: Queue, cancel: Context)
      reads this
    {
      forall id :: id in sessions ==> sessions[id].browserOut != out && sessions[id].cancel != cancel
    }

    /** The second half of open: the request is pushed, or the session is closed again. */
    method RequestOrClose(s: Session, kind: string) returns (err: Option<string>)
      requires Valid() && s.id in sessions && sessions[s.id] == s
      modifies this`sessions, s, s.browserOut, s.cancel, presence.OutOf(s.deviceID)
      ensures Valid()
      ensures err.None? ==>
                s.deviceID in presence.conns && HasRoom(old(presence.conns[s.deviceID].out.items))
                && sessions == old(sessions)
                && presence.conns[s.deviceID].out.items
                     == old(presence.conns[s.deviceID].out.items) + [Envelope(SessionRequest, s.id, kind)]
                && s.browserOut.items == old(s.browserOut.items) && s.cancel.cancelled == old(s.cancel.cancelled)
      ensures err.Some? ==>
                sessions == Removed(old(sessions), s.id) && s.cancel.cancelled
                && s.browserOut.items
                     == Offer(old(s.browserOut.items), Envelope(SessionEnd, s.id, "device unreachable"))
                && if s.deviceID !in presence.conns then err == Some("device offline")
                   else
                     err == Some("device outbound queue full")
                     && !HasRoom(old(presence.conns[s.deviceID].out.items))
                     && presence.conns[s.deviceID].out.items == old(presence.conns[s.deviceID].out.items)
    {
      err := presence.Send(s.deviceID, RequestEnvelope(s.id, kind));
      if err.Some? {
        Close(s.id, DEVICE_UNREACHABLE);
      }
    }

    /** Opens a session with a freshly drawn id. Offline device: nothing happens. Room on the
        device's queue: the session is in the table and the request on the queue. Full queue: the
        session is in the table no more, the browser has been offered its end and is cancelled. */
    method Open(deviceID: string, kind: string, browserOut: Queue, cancel: Context, freshId: string)
      returns (r: Opened)
      requires Valid() && freshId != "" && freshId !in sessions
      requires Apart(browserOut, cancel) && Unshared(browserOut, cancel)
      modifies this`sessions, browserOut, cancel, presence.OutOf(deviceID)
      ensures Valid() && (old(AllOnline()) ==> AllOnline())
      ensures var v := old(SceneOf(deviceID, browserOut, cancel));
              if r.Opened?
              then Operations.OpenError(v).None?
                   && SceneOf(deviceID, browserOut, cancel) == Operations.Opened(v, freshId, kind, r.session)
              else Operations.OpenError(v) == Some(r.err)
                   && SceneOf(deviceID, browserOut, cancel) == Operations.NotOpened(v, freshId)
      ensures r.Opened? ==>
                deviceID in presence.conns && HasRoom(old(presence.conns[deviceID].out.items))
                && fresh(r.session) && sessions == Inserted(old(sessions), freshId, r.session)
                && r.session.id == freshId && r.session.deviceID == deviceID
                && r.session.browserOut == browserOut && r.session.cancel == cancel
                && presence.conns[deviceID].out.items
                     == old(presence.conns[deviceID].out.items) + [Envelope(SessionRequest, freshId, kind)]
                && browserOut.items == old(browserOut.items) && cancel.cancelled == old(cancel.cancelled)
      ensures r.Refused? ==>
                sessions == old(sessions)
                && (deviceID in presence.conns ==>
                      presence.conns[deviceID].out.items == old(presence.conns[deviceID].out.items))
      ensures deviceID !in presence.conns ==>
                r == Refused("device offline")
                && browserOut.items == old(browserOut.items) && cancel.cancelled == old(cancel.cancelled)
      ensures deviceID in presence.conns && !HasRoom(old(presence.conns[deviceID].out.items)) ==>
                r == Refused("device outbound queue full") && cancel.cancelled
                && browserOut.items
                     == Offer(old(browserOut.items), Envelope(SessionEnd, freshId, "device unreachable"))
    {
      hide Valid, Unshared, Separate, AwayFrom, Offer, HasRoom;
      var online := presence.IsOnline(deviceID);
      if !online {
        return Refused(DEVICE_OFFLINE);
      }
      var s := new Session(freshId, deviceID, browserOut, cancel);
      InsertSession(s);
      var err := RequestOrClose(s, kind);
      if err.Some? {
        return Refused(err.value);
      }
      return Opened(s);
    }

    method Get(id: string) returns (s: Session?)
      ensures s == if id in sessions then sessions[id] else null
    {
      if id in sessions {
        s := sessions[id];
      } else {
        s := null;
      }
    }

    /** Forwards a browser's envelope to its session's device, under the session's id. */
    method FromBrowser(sessionID: string, env: Envelope) returns (err: Option<string>)
      requires Valid()
      modifies if sessionID in sessions then presence.OutOf(sessions[sessionID].deviceID) else {}
      ensures sessionID !in sessions ==> err == Some("unknown session")
      ensures sessionID in sessions && sessions[sessionID].deviceID !in presence.conns ==>
                err == Some("device offline")
      ensures sessionID in sessions && sessions[sessionID].deviceID in presence.conns ==>
                var q := presence.conns[sessions[sessionID].deviceID].out;
                q.items == Offer(old(q.items), env.(sid := sessionID))
                && err == (if HasRoom(old(q.items)) then None else Some("device outbound queue full"))
      ensures sessionID in sessions ==>
                var s := sessions[sessionID];
                SceneOf(s.deviceID, s.browserOut, s.cancel)
                  == Operations.Forwarded(old(SceneOf(s.deviceID, s.browserOut, s.cancel)), sessionID, env)
    {
      var s := Get(sessionID);
      if s == null {
        return Some(UNKNOWN_SESSION);
      }
      err := presence.Send(s.deviceID, env.(sid := sessionID));
    }

    /** The session an envelope from a device is for. */
    ghost predicate Addressed(deviceID: string, env: Envelope)
      reads this
    {
      env.sid != "" && env.sid in sessions && sessions[env.sid].deviceID == deviceID
    }

    /** Forwards a device's envelope to its session's browser; a session.end also closes it.
        Envelopes without an id, of an unknown session or of another device's go nowhere. */
    method FromDevice(deviceID: string, env: Envelope)
      requires Valid()
      modifies if Addressed(deviceID, env) && env.kind.SessionEnd? then {this} else {}
      modifies if Addressed(deviceID, env) && env.kind.SessionEnd? then {sessions[env.sid]} else {}
      modifies if Addressed(deviceID, env) then {sessions[env.sid].browserOut} else {}
      modifies if Addressed(deviceID, env) && env.kind.SessionEnd? then {sessions[env.sid].cancel} else {}
      modifies if Addressed(deviceID, env) && env.kind.SessionEnd? then presence.OutOf(deviceID) else {}
      ensures Valid()
      ensures old(Addressed(deviceID, env)) && !env.kind.SessionEnd? ==>
                var q := sessions[env.sid].browserOut; q.items == Offer(old(q.items), env)
      ensures old(Addressed(deviceID, env)) && env.kind.SessionEnd? ==>
                var s := old(sessions)[env.sid];
                sessions == Removed(old(sessions), env.sid) && s.closed && s.cancel.cancelled
                && s.browserOut.items
                     == Offer(Offer(old(s.browserOut.items), env),
                              Envelope(SessionEnd, env.sid, "device ended session"))
                && (deviceID in presence.conns ==>
                      var q := presence.conns[deviceID].out;
                      q.items == Offer(old(q.items), Envelope(SessionEnd, env.sid, "device ended session")))
      ensures old(Addressed(deviceID, env)) ==>
                var s := old(sessions)[env.sid];
                SceneOf(deviceID, s.browserOut, s.cancel)
                  == Operations.Relayed(old(SceneOf(deviceID, s.browserOut, s.cancel)), env)
    {
      if env.sid == "" {
        return;
      }
      var s := Get(env.sid);
      if s == null || s.deviceID != deviceID {
        return;
      }
      var _ := s.browserOut.TryPush(env);
      if env.kind.SessionEnd? {
        Close(s.id, DEVICE_ENDED);
      }
    }

    /** The ids of the device's sessions. */
    ghost function IdsOf(deviceID: string): set<string>
      reads this
    {
      Collected(sessions, (s: Session) => s.deviceID, deviceID)
    }

    ghost function SessionsOf(deviceID: string): set<Session>
      reads this
    {
      set id | id in IdsOf(deviceID) :: sessions[id]
    }

    /** The locked region of closeByDevice: collects the ids, in no particular order. */
    method CollectIds(deviceID: string) returns (ids: seq<string>)
      ensures Lists(ids, IdsOf(deviceID))
    {
      ids := [];
      var left := sessions.Keys;
      while left != {}
        invariant left <= sessions.Keys
        invariant Lists(ids, IdsOf(deviceID) - left)
        decreases |left|
      {
        var id :| id in left;
        left := left - {id};
        if sessions[id].deviceID == deviceID {
          ids := ids + [id];
        }
      }
    }

    ghost function ViewOf(s: Session): View
      reads s, s.browserOut, s.cancel
    {
      View(s.closed, s.cancel.cancelled, s.browserOut.items)
    }

    /** What a teardown may change of each of these sessions. */
    ghost function Views(picked: seq<Session>): (r: seq<View>)
      reads Parts(set s | s in picked)
      ensures |r| == |picked| && forall i :: 0 <= i < |r| ==> r[i] == ViewOf(picked[i])
    {
      if picked == [] then [] else Views(picked[..|picked| - 1]) + [ViewOf(picked[|picked| - 1])]
    }

    /** The objects that tearing these sessions down may change, device queues apart. */
    ghost function Parts(some: set<Session>): set<object> {
      some + (set s | s in some :: s.browserOut) + (set s | s in some :: s.cancel)
    }

    /** Different sessions of the device, with these ids, that share no part with each other. */
    ghost predicate Different(ids: seq<string>, picked: seq<Session>, deviceID: string)
    {
      |picked| == |ids|
      && (forall i :: 0 <= i < |ids| ==> picked[i].id == ids[i] && picked[i].deviceID == deviceID)
      && (forall i, j :: 0 <= i < j < |ids| ==>
            ids[i] != ids[j] && picked[i] != picked[j]
            && picked[i].browserOut != picked[j].browserOut && picked[i].cancel != picked[j].cancel)
    }

    /** One turn of the loop of closeByDevice: the other sessions it was to end are as before. */
    method CloseNth(ids: seq<string>, k: nat, reason: string, ghost deviceID: string, ghost picked: seq<Session>)
      requires Valid() && Different(ids, picked, deviceID) && k < |ids|
      requires ids[k] in sessions && sessions[ids[k]] == picked[k]
      requires forall i :: 0 <= i < |picked| ==> Apart(picked[i].browserOut, picked[i].cancel)
      modifies this`sessions, picked[k], picked[k].browserOut, picked[k].cancel, presence.OutOf(deviceID)
      ensures Valid() && sessions == Removed(old(sessions), ids[k])
      ensures Views(picked) == old(Views(picked))[k := EndedView(old(Views(picked))[k], ids[k], reason)]
      ensures deviceID in presence.conns ==>
                var q := presence.conns[deviceID].out;
                q.items == Offer(old(q.items), EndEnvelope(ids[k], reason))
    {
      hide Views;
      Close(ids[k], reason);
    }

    /** What the loop of closeByDevice needs of the ids collected and of the sessions they name. */
    ghost predicate Listed(ids: seq<string>, picked: seq<Session>, parts: set<object>, deviceID: string)
      reads this, presence
    {
      |picked| == |ids| && Different(ids, picked, deviceID)
      && (forall i :: 0 <= i < |ids| ==> ids[i] in sessions && sessions[ids[i]] == picked[i])
      && (forall i :: 0 <= i < |picked| ==> Apart(picked[i].browserOut, picked[i].cancel))
      && (forall i :: 0 <= i < |picked| ==>
            picked[i] in parts && picked[i].browserOut in parts && picked[i].cancel in parts)
    }

    lemma ListedMeans(ids: seq<string>, picked: seq<Session>, parts: set<object>, deviceID: string)
      requires Listed(ids, picked, parts, deviceID)
      ensures |picked| == |ids| && Different(ids, picked, deviceID)
      ensures forall i, j :: 0 <= i < j < |ids| ==> ids[i] != ids[j]
      ensures forall i :: 0 <= i < |ids| ==> ids[i] in sessions && sessions[ids[i]] == picked[i]
      ensures forall i :: 0 <= i < |ids| ==> picked[i].deviceID == deviceID
      ensures forall i :: 0 <= i < |picked| ==> Apart(picked[i].browserOut, picked[i].cancel)
      ensures forall i :: 0 <= i < |picked| ==>
                picked[i] in parts && picked[i].browserOut in parts && picked[i].cancel in parts
    {
    }

    /** The sessions with the collected ids are as the loop needs them. */
    lemma CollectedAreListed(ids: seq<string>, deviceID: string) returns (picked: seq<Session>)
      requires Valid() && Lists(ids, IdsOf(deviceID))
      ensures Listed(ids, picked, Parts(SessionsOf(deviceID)), deviceID)
      ensures Taken(ids, |ids|) == IdsOf(deviceID)
      ensures forall id :: id in IdsOf(deviceID) ==> exists i :: 0 <= i < |ids| && ids[i] == id
    {
      assert forall i :: 0 <= i < |ids| ==> ids[i] in IdsOf(deviceID);
      ghost var all := sessions;
      picked := seq(|ids|, i requires 0 <= i < |ids| && ids[i] in all => all[ids[i]]);
      forall i | 0 <= i < |ids| ensures picked[i] in SessionsOf(deviceID) {
      }
    }

    /** The loop of closeByDevice, outside the lock. */
    method CloseListed(ids: seq<string>, reason: string, ghost deviceID: string, ghost picked: seq<Session>,
                       ghost parts: set<object>)
      requires Valid() && Listed(ids, picked, parts, deviceID)
      requires this !in parts && presence !in parts
      modifies this`sessions, parts, presence.OutOf(deviceID)
      ensures Valid() && sessions == old(sessions) - Taken(ids, |ids|)
      ensures Views(picked) == EndedUpTo(old(Views(picked)), ids, |ids|, reason)
      ensures deviceID in presence.conns ==>
                presence.conns[deviceID].out.items
                  == Notified(old(presence.conns[deviceID].out.items), ids, reason)
    {
      hide *;
      ListedMeans(ids, picked, parts, deviceID);
      ghost var before := Views(picked);
      ghost var queue := if deviceID in presence.conns then presence.conns[deviceID].out.items else [];
      var k := 0;
      NoneYet(sessions, before, queue, ids, reason);
      while k < |ids|
        invariant 0 <= k <= |ids| && Valid()
        invariant sessions == old(sessions) - Taken(ids, k)
        invariant Views(picked) == EndedUpTo(before, ids, k, reason)
        invariant deviceID in presence.conns ==>
                    presence.conns[deviceID].out.items == Notified(queue, ids[..k], reason)
      {
        OneMore(old(sessions), picked, before, queue, ids, k, reason);
        CloseNth(ids, k, reason, deviceID, picked);
        k := k + 1;
      }
      assert ids[..k] == ids;
    }

    /** Ends every session of the device, and no other. */
    method CloseByDevice(deviceID: string, reason: string)
      requires Valid()
      modifies this`sessions, Parts(SessionsOf(deviceID)), presence.OutOf(deviceID)
      ensures Valid() && sessions == old(sessions) - old(IdsOf(deviceID))
      ensures forall id :: id in old(IdsOf(deviceID)) ==>
                ViewOf(old(sessions)[id]) == EndedView(old(ViewOf(sessions[id])), id, reason)
      ensures deviceID in presence.conns ==>
                exists ids ::
                  Lists(ids, old(IdsOf(deviceID)))
                  && presence.conns[deviceID].out.items
                       == Notified(old(presence.conns[deviceID].out.items), ids, reason)
    {
      hide EndedView, SessionsOf, Apart;
      var ids := CollectIds(deviceID);
      ghost var picked := CollectedAreListed(ids, deviceID);
      CloseListed(ids, reason, deviceID, picked, Parts(SessionsOf(deviceID)));
      forall id | id in old(IdsOf(deviceID))
        ensures ViewOf(old(sessions)[id]) == EndedView(old(ViewOf(sessions[id])), id, reason)
      {
        var i :| 0 <= i < |ids| && ids[i] == id;
        assert picked[i] == old(sessions)[id];
      }
    }

    /** A connection's exit: closeByDevice, then unregister. Run without interference, it keeps
        every session's device online. */
    method DeviceExit(deviceID: string, dc: DeviceConn)
      requires Valid()
      modifies this`sessions, presence`conns, Parts(SessionsOf(deviceID)), presence.OutOf(deviceID)
      ensures Valid() && sessions == old(sessions) - old(IdsOf(deviceID))
      ensures forall id :: id in old(IdsOf(deviceID)) ==>
                ViewOf(old(sessions)[id]) == EndedView(old(ViewOf(sessions[id])), id, "device disconnected")
      ensures presence.conns == Unregistered(old(presence.conns), deviceID, dc)
      ensures old(AllOnline()) ==> AllOnline()
    {
      CloseByDevice(deviceID, DEVICE_DISCONNECTED);
      presence.Unregister(deviceID, dc);
    }
  }
}
