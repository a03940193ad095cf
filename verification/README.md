# Signaling service: sessions, presence, enrollment

This project models the signaling service's core in Dafny and proves what it keeps, and says
exactly where it keeps less than one might hope.

Check it with `dafny verify dfyconfig.toml`.

## What is modelled

**Sessions and presence, interleaved.** `Machine` is a step machine with any number of browser
handlers and device handlers. Every region under one of the two locks and every channel push is one
step; a handler's place in its code is its program counter, and any other handler may step in
between. `open` is five places (online check, insert, lookup of the connection, push, and `close` if
that fails), `close` is five (mark and delete, lookup, push to the device, push to the browser,
cancel), `closeByDevice` collects ids in one step and closes them one by one, `fromBrowser` and
`fromDevice` look up and then push. Writers take envelopes out, fail, or see their context cancelled
at any moment. The state carries histories (what was received, pushed, taken out, dropped, removed,
by whom and at which step). No step depends on them, except that an id drawn for a new session is
one that was never used. A session object is named by the number of the browser handler that
allocated it, a connection by the number of its handler.

| places of the machine | source |
|---|---|
| `Start`, `Reject`, `SayReady`, `Loop`, `Leaving` | internal/signaling/sessions.go:157-232 |
| `CheckOnline`, `Insert`, `RequestLookup`, `RequestPush` | internal/signaling/sessions.go:45-66 |
| `FwdGet`, `FwdLookup`, `FwdPush` | internal/signaling/sessions.go:75-82, internal/signaling/presence.go:69-82 |
| `RelayGet`, `RelayPush` | internal/signaling/sessions.go:85-101 |
| `Mark`, `Lookup`, `PushDevice`, `PushBrowser`, `Cancel` | internal/signaling/sessions.go:104-124 |
| `CollectIds`, `EndNext` | internal/signaling/sessions.go:127-139 |
| `Join`, `SayHello`, `Serve`, `SayPong`, `Part`, `Parted` | internal/signaling/presence.go:110-169 |
| `WriterTakes`, `WriterExits` | internal/signaling/sessions.go:163-176, internal/signaling/presence.go:126-139 |

`Control`, `Queues` and `Departures` hold the inductive invariants, `Runs` lifts them to runs, and
`SessionTheorems`, `DeviceTheorems`, `RoutingTheorems`, `OrderTheorems`, `RemovalTheorems`,
`OpeningTheorems`, `CauseTheorems`, `ServingTheorems` and `Progress` are the results; `Witnesses` and
`Replacements` are runs that show what is not promised.
`SignalingObjects` has the source's objects (`Presence`, `Broker`, `Session`, queues, contexts) with
the methods of the source. Machine and objects are made of the same regions, the functions of
`Regions`. `Operations` says what `open`, `close`, `fromBrowser` and `fromDevice` do when no other
handler comes between their regions: the methods of `Broker` are proved to do that, and `Simulation` and
`Turns` prove that a thread of the machine that takes the steps of such an operation, or of a whole turn
of its read loop, alone does the same, session pointers being numbered.

**Enrollment.** `Tables` has the two tables, their constraints and their statements as values;
`StoreObjects` and `EnrollServer` are the store and the handlers as objects; `Requests` and
`EnrollRuns` are whole runs of requests served one at a time; `EnrollRaces` interleaves polls
statement by statement; `EnrollReplies` and `RaceReplies` say every reply by the requests before it;
`AgentEnroll` is the agent's poll loop, and with `EnrollTogether` the results that span both ends;
`UserCodes` and `Typing` are the code the operator types. Time is one clock in
nanoseconds that does not go back; the tables keep whole seconds, as the source does. In `EnrollRaces`
a statement happens at a moment of its own, and the clock it works with was read any time before it
or, for a lookup, after it.

**The pump.** `Pump` is the loop that copies what a terminal yields out of one reused buffer onto a
data channel that keeps the arrays it is given.

## Assumptions

- A session id drawn by `open` was never inserted before (`randomToken(16)`); ids and tokens of
  enrollment need no such assumption, since the tables' constraints are part of the model.
- The token hash is any function. Upper case outside ASCII is any function that leaves white space alone.
- A handler's context may be cancelled from outside at any step, and a read may fail at any step.

## What the service does not promise

Each of these has a run that shows it and the exact condition under which it does hold.

- A session can outlive its device (`Witnesses.SessionOutlivesItsDevice`): `closeByDevice` runs
  before the deferred `unregister`. `DeviceTheorems.OfflineSession` says for which sessions this can
  happen, `DeviceTheorems.ExitStrandsExactlyTheLateOnes` when an exit leaves one, and
  `DeviceTheorems.SessionsHaveDevices` that larger steps would rule it out.
- A broker-made `session.end` can be queued before the `session.request`
  (`Witnesses.EndBeforeRequest`). It is exactly if the closer is past the device when the request is
  pushed, and never while the session is still in the table (`OrderTheorems.EndAgainstRequest`).
- A session opened through the replacement of a connection need not survive the exit of the replaced
  one (`Replacements.ReplacedConnectionEndsSession`), because sessions belong to a device and not to a
  connection. An exit ends exactly the sessions that are open on its device at its collection step
  (`DeviceTheorems.ExitEndsExactlyTheCollected`).
- `hello` need not be a queue's first envelope (`Replacements.RequestBeforeHello`). It is exactly if
  no other thread that has looked the connection up comes to its push before the hello
  (`OrderTheorems.HelloFirstIff`), so it is whenever nobody looks the connection up between its
  registering and its hello (`OrderTheorems.HelloFirstIfUnseen`).
- Two overlapping polls of one device code can both be granted
  (`EnrollWitness.OverlappingPollsClaimTwice`): the claim's UPDATE does not ask whether the
  enrollment is still unclaimed. The comment on `MaterializeDevice` (internal/signaling/db.go:133-135)
  says a second call returns an error; that holds of calls that do not overlap.
  `EnrollRaces.CommitKeepsOneToOneIff` is the exact condition, and agents that each poll their own
  code in the loop of the source meet it (`EnrollTogether.AgentsClaimOnce`).

On `slow_down` the agent adds one second, not the five of section 3.5 of RFC 8628; the service never
sends it (`AgentEnroll.RepliesReadBack`).

## Model

| member | source | states |
|---|---|---|
| SessionTheorems.RunRefinesAtomicMap | internal/signaling/sessions.go:55-113 | every interleaved run of the lock-level broker is, step by step, a run of an atomic map from open ids to devices that starts empty, with the insert and the mark-and-delete as the points where operations take effect; keys are session ids and nothing in the table is closed |
| SessionTheorems.OpenedAndClosedOnce | internal/signaling/sessions.go:104-113 | no id is inserted twice, for one device or two, or removed twice in a run, however the closers race |
| SessionTheorems.ClosedStaysOut | internal/signaling/sessions.go:107-113 | an id once removed is out of the table in every later state |
| SessionTheorems.RemovedByItsCloser | internal/signaling/sessions.go:104-113 | a removed session was removed at one step, by the one thread recorded as its closer |
| SessionTheorems.TornDownOnce | internal/signaling/sessions.go:104-124 | one closer tears a removed session down and no other thread works on it; cancel has run exactly once when it is through and not before; at most one broker-made end has been pushed to each side, and only after the removal |
| SessionTheorems.EndsOnce | internal/signaling/sessions.go:115-120 | over all queues of all connections a session has at most one broker-made end, and at most one on its browser's queue |
| SessionTheorems.EntriesAreHeld | internal/signaling/sessions.go:45-66 | every table entry belongs to a browser handler that has inserted it and not passed its close, and to no other entry |
| SessionTheorems.NothingLeaks | internal/signaling/sessions.go:199-204 | once all browser handlers have passed their close the table is empty |
| SessionTheorems.FailedOpenLeavesNothing | internal/signaling/sessions.go:59-64 | after an open that returned an error, or after the handler's close, the handler has no session in the table, then or ever |
| CauseTheorems.ClosedBecause | internal/signaling/sessions.go:54-139 | a removed session was removed for a cause its closer had met: its own browser's request failed, or that browser's read failed or it sent session.end; or a connection of its device relayed a session.end for it, or was leaving; every broker-made end carries the reason of that cause: "device unreachable", "browser closed", "device ended session" or "device disconnected" |
| CauseTheorems.CauseCloses | internal/signaling/sessions.go:59-124 | whenever a thread meets one of these causes it closes the session: once it is past marking it, the id is out of the table for ever |
| OpeningTheorems.RequestAsksForIt | internal/signaling/sessions.go:59-61 | a session.request on a connection's queue is the envelope with that session's id and the very kind that its browser's session.open asked for, and the session is one of the device asked for |
| OpeningTheorems.SessionWasAskedFor | internal/signaling/sessions.go:178-199 | every session ever made goes back to a session.open of its browser for its device |
| OpeningTheorems.RejectionTells | internal/signaling/sessions.go:184-203 | an end without a session on a browser's queue names what went wrong: no session.open first, bad open data, device offline at the check or at the request, or a full queue |
| OpeningTheorems.RefusalIsTold | internal/signaling/sessions.go:184-203 | every browser that is refused is told so, with that reason, before its handler leaves |
| ServingTheorems.ReadyIsTold | internal/signaling/sessions.go:205-208 | every browser whose session has been requested is told session.ready with its id, as its handler's next step |
| ServingTheorems.NothingBeforeJoining | internal/signaling/presence.go:117-139 | before a connection has registered nothing is read from it, and its writer takes nothing out and does not stop |
| ServingTheorems.HelloIsSaid | internal/signaling/presence.go:141-142 | every connection is sent hello before anything it sends is read |
| ServingTheorems.PingsAnswered | internal/signaling/presence.go:161-164 | at every state a connection has been pushed as many pongs as it has sent pings, less the one in its handler's hands |
| ServingTheorems.LeftBecause | internal/signaling/presence.go:145-153 | a device's handler leaves only when its read has failed, a browser's only when its read has failed, it has sent session.end or it was refused |
| ServingTheorems.LeaversReadNoMore | internal/signaling/sessions.go:213-232 | and then it reads nothing more |
| ServingTheorems.WhoHasLeftIsCancelled | internal/signaling/sessions.go:157-181 | the context of every handler that has returned and of every writer that has stopped is cancelled |
| ServingTheorems.StoppedWritersTakeNothing | internal/signaling/sessions.go:163-176 | a writer that failed to write or saw its context cancelled takes nothing more from its queue |
| DeviceTheorems.OneUncancelledConnection | internal/signaling/presence.go:35-50 | of a device's registered connections at most one is uncancelled, and it is the one in the table; the table holds only registered connections |
| DeviceTheorems.OnlyItsOwnConnectionLeaves | internal/signaling/presence.go:44-50 | a device goes offline exactly when the connection in the table unregisters; a stale handler's unregister never takes its replacement out |
| DeviceTheorems.CloseByDeviceEndsAll | internal/signaling/sessions.go:127-139 | when closeByDevice has returned, every session of the device present at its collection step is gone and never comes back, under any concurrent opens and closes |
| DeviceTheorems.ClosesOwnSessionsOnly | internal/signaling/sessions.go:104-139 | a connection removes only sessions of its own device, a browser handler only its own |
| DeviceTheorems.OfflineSession | internal/signaling/presence.go:117-152 | a session in the table with no device online is still inside open, or was inserted after the collection step of the connection that left last |
| DeviceTheorems.ExitStrandsExactlyTheLateOnes | internal/signaling/presence.go:144-152 | an exit that takes its device offline leaves no session of it if and only if every session then open was already there at its collection step |
| DeviceTheorems.ExitEndsOnlyTheCollected | internal/signaling/sessions.go:127-139 | whatever a closeByDevice removes was open on its device at its collection step |
| DeviceTheorems.ExitEndsExactlyTheCollected | internal/signaling/sessions.go:127-139 | if nobody else removes it, a session of the device is gone when closeByDevice has returned if and only if it was open at the collection step, whichever connection it was opened through |
| DeviceTheorems.SessionsHaveDevices | internal/signaling/sessions.go:45-66 | in every run in which each session is inserted while its device is online and none between a connection's collection and its unregister, every session in the table that is not inside open has its device online |
| RoutingTheorems.RoutingIsolation | internal/signaling/sessions.go:75-120 | every envelope ever put on a browser's queue has that browser's id (or none, for a rejection) and is its handler's ready, its own close's end or an offer, answer, candidate or end from a connection of its own device, unchanged; every session envelope on a connection's queue has the id of a session of that device, whatever id the browser wrote, and is its request, its end, or an answer, candidate or end of its browser |
| RoutingTheorems.QueuesConserve | internal/signaling/sessions.go:160-176 | enqueued is dequeued followed by pending, and at most 32 are pending, on every queue at every state |
| RoutingTheorems.WritersKeepOrder | internal/signaling/sessions.go:75-101 | what a writer takes out from one read loop is an in-order, duplicate-free subsequence of what that loop received, in both directions |
| RoutingTheorems.EveryEnvelopeSettled | internal/signaling/sessions.go:85-97 | everything received is, except for the one in hand, either one item of one queue or lost for a stated reason: ignored, exactly if it is none of answer, candidate and end from a browser, or none of offer, answer, candidate and end with an id from a device; session not in the table at the lookup, device offline, or exactly 32 pending on the very queue it was for; in the last two cases its session had been found open for that very device and browser |
| RoutingTheorems.DecidedWhen | internal/signaling/presence.go:69-82 | a dropped envelope's session had been found, and at the step recorded the queue of that session at the other end had exactly 32 pending; an offline one's session had been found, and at the step recorded its device was missing |
| RoutingTheorems.LookupsAgree | internal/signaling/sessions.go:68-92 | whatever is pushed on after a lookup, however late, the atomic map had the envelope's id at the lookup, on the device of the connection and as the session of the browser handler at its two ends |
| RoutingTheorems.AfterRemoval | internal/signaling/sessions.go:89-120 | after an opened session leaves the table its browser is only pushed the one end, the one ready, and one envelope for each relay that had looked the session up before |
| RoutingTheorems.RequestComesFirst | internal/signaling/sessions.go:59-82 | a session is requested at most once over all connections, and the request was enqueued before anything its browser had forwarded, so one connection's writer takes it out first |
| OrderTheorems.ItemPushed | internal/signaling/sessions.go:75-120 | every item of every queue was pushed, as it is, by the step it records |
| OrderTheorems.EndAgainstRequest | internal/signaling/sessions.go:55-64 | a device is told of a session's broker-made end before its request if and only if the session was removed and its closer past the device when the request was pushed; never while the session is in the table |
| OrderTheorems.HelloFirstIff | internal/signaling/presence.go:117-142 | hello is a queue's first envelope if and only if no other handler that holds the looked-up connection takes its push step before it |
| OrderTheorems.HelloFirstIfUnseen | internal/signaling/presence.go:117-142 | if no handler holds the connection while it is registered and has not said hello, hello is first |
| RemovalTheorems.SideTold | internal/signaling/sessions.go:115-120 | when the closer is past a side, that side's queue has the broker-made end, pushed at the one step that deals with the side; or none of its queues has, and at that step the device was offline or exactly 32 were pending |
| RemovalTheorems.OneAtATime | internal/signaling/sessions.go:206-232 | over all queues, a read loop looks an envelope up only after its earlier ones have been pushed |
| RemovalTheorems.DeviceAfterRemoval | internal/signaling/sessions.go:75-120 | after a session is removed, all connections of its device together are pushed at most one end and one more envelope with its id: the request, or one forward of its browser that had found it before |
| Progress.StepsOnlyWaitWhereTheSourceWaits | internal/signaling/sessions.go:157-232 | in every run a thread's next step is possible exactly when what the source waits for is there, so no lookup dangles and nothing else blocks |
| Witnesses.SessionOutlivesItsDevice | internal/signaling/presence.go:118-152 | a run in which an opened session is in the table and its device is offline |
| Witnesses.EndBeforeRequest | internal/signaling/sessions.go:55-64 | a run in which a session's end is queued to the device before its request |
| Replacements.ReplacedConnectionEndsSession | internal/signaling/sessions.go:127-139 | a run in which a replaced connection's exit removes a session requested on its replacement, which stays online and uncancelled |
| Replacements.RequestBeforeHello | internal/signaling/presence.go:117-142 | a run in which a session's request is on a connection's queue before its hello |
| Control.StepKeepsControl | internal/signaling/sessions.go:45-139 | every step of every thread keeps the control invariant: table, objects, program counters, teardown stages and presence agree |
| Queues.StepKeepsQueues | internal/signaling/sessions.go:75-124 | every step keeps the queue invariant: origins, order, fates and the once-only ends and requests |
| Departures.StepKeepsDepartures | internal/signaling/sessions.go:127-139 | every step keeps what is known of leaving connections, collected ids and sessions that came too late |
| Runs.RunInv | internal/signaling/sessions.go:145-233 | all three invariants hold at every state of every run |
| Simulation.InsertSimulated | internal/signaling/sessions.go:55-57 | numbering the pointers of a table, the machine's insertion is the objects' insertion |
| Simulation.DeleteSimulated | internal/signaling/sessions.go:112-112 | the same of the deletion made by close |
| Simulation.RegisterSimulated | internal/signaling/presence.go:35-42 | the same of register |
| Simulation.UnregisterSimulated | internal/signaling/presence.go:44-50 | the same of unregister, which compares pointers |
| Simulation.CollectSimulated | internal/signaling/sessions.go:128-135 | the machine collects the ids the objects collect |
| Simulation.OpenSimulated | internal/signaling/sessions.go:45-66 | an open whose steps no other thread comes between leaves in the machine what Broker.Open leaves, in all three cases, with its error |
| Simulation.CloseSimulated | internal/signaling/sessions.go:104-124 | a close whose steps no other thread comes between leaves in the machine what Broker.Close leaves, whoever calls it |
| Turns.FromBrowserSimulated | internal/signaling/sessions.go:75-82 | a fromBrowser whose steps no other thread comes between leaves in the machine what Broker.FromBrowser leaves |
| Turns.FromDeviceSimulated | internal/signaling/sessions.go:85-101 | likewise for fromDevice and Broker.FromDevice, with the close for "device ended session" that follows a session.end, after which the connection reads on |
| Turns.BrowserTurn | internal/signaling/sessions.go:213-232 | a turn of the browser's loop, alone: an answer, candidate or end goes to the device; after an end or a failed read the session is closed for "browser closed" and the handler leaves; anything else does nothing |
| Turns.EndsNextAlone | internal/signaling/sessions.go:136-138 | one id of closeByDevice, alone: the session is closed for "device disconnected", if it is still there, and the connection goes on with the others |
| Turns.RelayGetsNothing | internal/signaling/sessions.go:89-91 | a connection's envelope for an unknown session or another device's changes no session's scene |
| Simulation.PushSimulated | internal/signaling/sessions.go:93-97 | every push of the machine is the objects' non-blocking push on one queue and leaves the other queues alone |
| SignalingObjects.Queue.TryPush | internal/signaling/sessions.go:93-97 | a push with a default: appended exactly if fewer than 32 are pending |
| SignalingObjects.Queue.Take | internal/signaling/sessions.go:169-169 | the writer takes the oldest envelope and leaves the rest |
| SignalingObjects.Presence.Register | internal/signaling/presence.go:35-42 | the device's entry is replaced, the replaced connection is cancelled, no other is |
| SignalingObjects.Presence.Unregister | internal/signaling/presence.go:44-50 | only the connection in the table takes itself out; every other entry stays |
| SignalingObjects.Presence.Heartbeat | internal/signaling/presence.go:59-65 | the time is set on the device's connection, if there is one, and on no other |
| SignalingObjects.Presence.Send | internal/signaling/presence.go:69-82 | offline and full queue give their errors and change nothing; otherwise the envelope is appended |
| SignalingObjects.Broker.MarkAndDelete | internal/signaling/sessions.go:105-113 | the locked region of close: the session is marked and out of the table, or nothing happens |
| SignalingObjects.Broker.Close | internal/signaling/sessions.go:104-124 | out of the table, marked, each side offered the end once, cancelled; unknown id: nothing changes |
| SignalingObjects.Broker.Open | internal/signaling/sessions.go:45-66 | device offline: nothing happens; room: session in the table and request queued; full: no session left, browser offered the end and cancelled; every session keeps an online device |
| SignalingObjects.Broker.Get | internal/signaling/sessions.go:68-72 | the session with the id or none |
| SignalingObjects.Broker.FromBrowser | internal/signaling/sessions.go:75-82 | forwarded under the session's own id to its own device, with the error of each failure |
| SignalingObjects.Broker.FromDevice | internal/signaling/sessions.go:85-101 | forwarded only to a session of the same device; a session.end is forwarded and then tears the session down |
| SignalingObjects.Broker.CollectIds | internal/signaling/sessions.go:128-135 | exactly the ids of the device's sessions, each once |
| SignalingObjects.Broker.CloseNth | internal/signaling/sessions.go:136-138 | one turn of the loop ends its session and leaves the others it was to end as they were |
| SignalingObjects.Broker.CloseListed | internal/signaling/sessions.go:136-138 | the loop ends every listed session, and the device's queue is offered their ends in that order |
| SignalingObjects.Broker.CloseByDevice | internal/signaling/sessions.go:127-139 | all sessions of the device and no others are gone, each closed, cancelled and offered its end once |
| SignalingObjects.Broker.DeviceExit | internal/signaling/presence.go:147-152 | closeByDevice then unregister keeps every remaining session's device online |
| Tables.AuthenticatedIs | internal/signaling/db.go:194-207 | with the UNIQUE constraint a token finds a device exactly if the device's row has its hash |
| StoreObjects.Store.CreateEnrollment | internal/signaling/db.go:73-80 | the row is added, with the expiry in whole seconds, unless a key is taken, and the constraints stay |
| StoreObjects.Store.ApproveEnrollment | internal/signaling/db.go:116-131 | marks the pending unexpired row with the code, or reports that there is none and changes nothing |
| StoreObjects.Store.MaterializeDevice | internal/signaling/db.go:136-182 | each refusal in the source's order; both rows change or neither does, also when the commit fails |
| StoreObjects.Store.AuthenticateDevice | internal/signaling/db.go:194-207 | the device with the token's hash, or not found |
| StoreObjects.Store.TouchDevice | internal/signaling/db.go:209-213 | only the last-seen time of an existing device changes |
| EnrollServer.Server.HandleStart | internal/signaling/enroll.go:20-52 | the enrollment is stored under a new device code and the reply names 600 seconds and interval 2, or nothing changes |
| EnrollServer.Server.HandlePoll | internal/signaling/enroll.go:55-99 | the handler over the store gives the reply and the new tables of one poll step |
| EnrollServer.Server.HandleApprove | internal/signaling/enroll.go:105-132 | success exactly if some pending unexpired enrollment has the normalised code |
| EnrollReplies.RepliesExactly | internal/signaling/enroll.go:65-98 | the reply to a poll of a started enrollment, said by the earlier requests only: expired after the ten minutes; before that pending exactly until an approval in time was typed, granted exactly once and only if the claim is in time, its id and token hash are new and it commits, already claimed after that, and a server error for a failed claim |
| EnrollReplies.UnknownExactly | internal/signaling/enroll.go:65-69 | a poll is answered as unknown if and only if no earlier request started its device code |
| EnrollReplies.StartsExactly | internal/signaling/db.go:73-80 | a start is stored if and only if no earlier stored one has its device code or its user code |
| EnrollReplies.StartedRow | internal/signaling/enroll.go:28-36 | a started row holds its user code, the expiry, the agent's platform and host name, and keeps them |
| EnrollReplies.DeviceRowIs | internal/signaling/db.go:151-172 | a granted device has the platform its agent named at the start, the second of its claim and the hash of its token |
| EnrollReplies.LastSeen | internal/signaling/db.go:209-213 | a device was last seen in the second of its last touch, or never if there is none |
| EnrollRuns.RepliesGoForward | internal/signaling/enroll.go:65-98 | over any run the sequence of replies to the polls of one device code is: invalid any number of times, pending, failed claims, at most one grant, already claimed only after the grant, then expired for ever |
| EnrollRuns.ExpiresExactly | internal/signaling/enroll.go:29-77 | a started enrollment is never unknown again and is answered as expired if and only if the poll comes later than ten minutes after the start, rounded down to a second |
| EnrollRuns.RunLater | internal/signaling/db.go:116-182 | rows are never lost, an enrollment's phase only moves forward, and nothing rewrites a device's name or hash |
| EnrollRuns.ClaimsAndDevicesCorrespond | internal/signaling/db.go:161-181 | in every state claimed enrollments and devices are one-to-one and token hashes are distinct |
| EnrollRuns.TokenWorksForEver | internal/signaling/db.go:194-207 | the token of a granted poll authenticates the returned id, under the returned name, in every later state, for any hash |
| EnrollRuns.OnlyGrantedTokensWork | internal/signaling/db.go:194-207 | a token authenticates a device if and only if an earlier poll was granted that device and a token of the same hash |
| EnrollRuns.ClaimedWasApprovedInTime | internal/signaling/db.go:116-158 | a claimed enrollment was approved strictly before expiry and claimed after that and not after expiry; the device has the operator's name, else the host name, else one made of its id |
| EnrollRuns.ApprovalTouchesOneRow | internal/signaling/enroll.go:119-122 | an approval marks exactly the pending, unexpired row whose code was typed, up to case and padding, and at most one row is meant |
| EnrollRaces.EveryGrantedTokenWorks | internal/signaling/db.go:136-207 | with polls interleaved statement by statement, every granted token works for ever after |
| EnrollRaces.ClaimsStay | internal/signaling/db.go:173-178 | with polls interleaved, a device id once set names an existing device and is never unset |
| EnrollRaces.OneToOneUnlessOverwritten | internal/signaling/db.go:161-181 | with polls interleaved, claims and devices are one-to-one if and only if no commit has overwritten a device id |
| EnrollRaces.CommitKeepsOneToOneIff | internal/signaling/db.go:174-175 | a commit keeps the correspondence if and only if the enrollment is still unclaimed when it commits |
| EnrollRaces.AlonePollsClaimOnce | internal/signaling/db.go:136-182 | if polls of one device code never overlap, claims and devices are one-to-one |
| EnrollRaces.AloneRowsGoForward | internal/signaling/db.go:116-182 | if polls of one device code never overlap, rows only go forward and a device id once set does not change, whatever else interleaves |
| EnrollRaces.PhasesGoForward | internal/signaling/db.go:116-182 | with polls interleaved in any way, nothing is lost, an approval stays with its name, and claimed stays claimed |
| EnrollRaces.ClaimedWasApprovedInTime | internal/signaling/db.go:116-175 | with polls interleaved in any way, a claimed enrollment was approved strictly before its expiry, then found claimable by one of its own polls at a time not after the expiry, and then claimed by that poll's commit |
| EnrollRaces.ExpiresExactly | internal/signaling/enroll.go:29-77 | with polls interleaved in any way, a started enrollment is never unknown again and a poll is answered as expired if and only if it reads a time more than ten minutes after the start, rounded down to a second |
| RaceReplies.LookExactly | internal/signaling/enroll.go:65-85 | with polls interleaved in any way, what a poll's first lookup is answered, said by the earlier steps only: expired, pending, already claimed, or on to the claim |
| RaceReplies.UnknownExactly | internal/signaling/enroll.go:65-69 | and unknown if and only if nothing started its device code before |
| RaceReplies.CheckExactly | internal/signaling/db.go:136-149 | the second lookup goes on if and only if the enrollment is approved, unclaimed and in time; else a server error |
| RaceReplies.CommitExactly | internal/signaling/db.go:151-182 | a commit is granted if and only if its id and token hash are new and the transaction commits, whether or not the enrollment has been claimed meanwhile |
| EnrollWitness.OverlappingPollsClaimTwice | internal/signaling/db.go:137-175 | a run in which two overlapping polls are both granted and the correspondence is lost |
| AgentEnroll.Enroll | internal/agent/enroll.go:51-90 | the loop ends; each poll is sent exactly when its timer fires, the grown interval after the last answer, in no cancelled round and never after the deadline; it goes on exactly on pending and slow_down, and returns what the last poll, the cancellation or the clock decided |
| AgentEnroll.OneOutcome | internal/agent/enroll.go:51-90 | what the loop meets (timers, answers, cancellations) determines all its polls and its one result |
| AgentEnroll.RepliesReadBack | internal/agent/enroll.go:97-135 | a written grant is read as that grant, pending as pending, every other reply of the service as a failure with its own message, none as slow_down |
| AgentEnroll.FailuresDiffer | internal/agent/enroll.go:121-135 | different failing replies of the service read back as different failures |
| AgentEnroll.OutcomeTells | internal/agent/enroll.go:66-89 | what the loop returns, by the last response: the grant, "enrollment expired before approval", "enrollment was already claimed by another agent" or the other failures; only after pending or slow_down is it cancelled or timed out |
| AgentEnroll.SentExactly | internal/agent/enroll.go:51-65 | each poll is sent after the last answer by the service's interval (2 if below 1) and one second for each slow_down so far, and the timer's delay; never after expires_in seconds from the start |
| AgentEnroll.PollsAreFew | internal/agent/enroll.go:51-90 | n polls with s slow-downs before the last satisfy n * i + s (s + 1) / 2 <= expires_in, with i the interval after its lower-bound fix-up |
| AgentEnroll.PollsDoNotOverlap | internal/agent/enroll.go:57-90 | one agent's poll is answered at least a second before its next is sent |
| EnrollTogether.AgentIsAlone | internal/agent/enroll.go:57-90 | polls served between an agent's sending and its having the answer never overlap at the service |
| EnrollTogether.AgentsClaimOnce | internal/agent/enroll.go:57-90 | if each device code is polled by one agent's loop, claims and devices are one-to-one however the agents interleave |
| AgentEnroll.GivesUpOnlyWhenExpired | internal/agent/enroll.go:55-65 | after the agent's deadline the service answers expired, whatever happened to the enrollment: the deadline is never before the stored expiry |
| EnrollTogether.GivesUpOnlyWhenExpired | internal/agent/enroll.go:55-65 | the same with polls interleaved statement by statement |
| AgentEnroll.EnrolledGrantWorks | internal/agent/enroll.go:66-74 | the grant the agent reads from the service authenticates it, under its name, in every later state |
| UserCodes.RandomUserCode | internal/signaling/random.go:13-27 | the nine characters are the eight symbols of the low five bits, with a dash in the middle |
| UserCodes.UndrawnDraws | internal/signaling/random.go:13-27 | every well-formed code and every choice of the discarded bits comes from some bytes |
| UserCodes.DrawnUndraws | internal/signaling/random.go:13-27 | what is drawn is well formed, and the code with the discarded bits gives back the bytes |
| UserCodes.EveryCodeEquallyLikely | internal/signaling/random.go:13-27 | exactly 8 ^ 8 byte strings give any one well-formed code |
| Typing.NormalizesExactly | internal/signaling/enroll.go:119-119 | normalising gives a code if and only if what was typed is that code up to case, padded with white space |
| Typing.SymbolSpellings | internal/signaling/enroll.go:119-119 | in ASCII a symbol is spelt by itself and its small letter only; outside ASCII by what has it as its upper case |
| Pump.Pty.Read | internal/agent/session.go:214-214 | a read fills a prefix of the buffer with the next bytes and leaves all the rest in the terminal |
| Pump.AgentSession.SendCopy | internal/agent/session.go:215-223 | the chunk sent is a fresh copy of the read bytes, and earlier chunks are untouched |
| Pump.AgentSession.Turn | internal/agent/session.go:213-231 | one turn sends what it read, bytes that come with a read error included, and is the last one on the first refused send or failed read |
| Pump.AgentSession.PumpPTYToDC | internal/agent/session.go:211-233 | the chunks kept by the channel, each of 1 to 4096 bytes, still hold at the end exactly what was read up to the first refused send, in order; without one, everything up to the first read error; and all the terminal held was sent, or was lost with the refused send, or is still there |
| Pump.AgentSession.Close | internal/agent/session.go:263-274 | only the first close has an effect and its reason stays |

## Left out

- WebSocket, HTTP, JSON, SQLite and WebRTC internals: envelopes are a kind, an id and undecoded data, the tables are maps with their constraints, channels are bounded sequences.
- Frames that are not JSON, which both read loops skip, and requests that are not JSON or use another method, which the handlers refuse.
- The text of `hello` and `pong` (device id and time) and the payload of `session.ready`, beyond the id the envelope carries.
- Delivery of the final `session.end`: it is queued and then the writer is cancelled, so it may never be written.
- Liveness: handlers wait for their writers and push some envelopes without watching their context; only safety, loop termination and single steps are stated.
- Database errors other than a violated constraint and a failed transaction.
- Freeing of the agent's terminal and peer connection: it depends on library callbacks; `Pump.AgentSession.Close` keeps only the first reason and the closing of the terminal.
- SignalingObjects.Broker.CloseByDevice: the order in which a map is walked is arbitrary, so the device's queue is described for some order of the ids.
- Pump.AgentSession.PumpPTYToDC: a read loop without end is not modelled, since the terminal's script is finite; the pump is taken to be its channel's only sender, as it is in the source.
- AgentEnroll.Enroll: durations are unbounded integers, while the source's overflow after 292 years; the start request and the saving of the configuration file are not modelled.
- Typing.NormalizesExactly: text is a sequence of Unicode scalar values; invalid UTF-8 is not modelled.
- `handleEnrollLookup`, the device listing, `bearerToken`, admin and origin checks, `Run`'s backoff, the agent's session registry, configuration paths, browser pages, logging and command lines.
- Randomness quality and hashing strength.
