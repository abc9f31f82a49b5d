# quietquic: a verified model of the endpoint core

quietquic is a QUIC endpoint that answers nobody who does not hold a shared key. This project models the
stateful parts of its own code and proves what they keep over whole runs:

* the **admission filter**: header parsing, the keyed selector, the freshness window, the replay guards
  (`Admission`, `Replay`);
* the **rate limiter**: token buckets and an LRU list threaded through a hash map (`RateLimitSpec`,
  `RateLimit`, `RateLimitRuns`, `RateLimitService`);
* the **endpoint** as a step machine: silence gate, connection-ID ledger, generation-tagged handles, queues and
  deadlines (`EndpointSpec`, `Endpoint`, and the `Endpoint…` modules about runs);
* **stream bookkeeping and parking**: what a stream call does at once, what waits, and who is answered what
  (`ConnSpec`, `StreamSpec`, `ConnState`, `ConnFacts`, `ParkSpec`, `Parked`, `ParkFacts`, `ReplyRuns`, `StreamRuns`,
  `BoundedReads`, `FinRuns`);
* the **server driver**: which connections are offered to the application, and where events and commands go
  (`DriverSpec`, `Driver`, `DriverRuns`, `DriverReplies`, `DriverWakes`);
* **Initial packet protection**: header masking in place, nonces, key pairing and the whole round trip of
  sections 5.2, 5.3 and 5.4.1 of RFC 9001 (`InitialKeys`, `InitialPackets`).

`Base` and `ByteCodec` hold shared vocabulary. Check everything with `dafny verify dfyconfig.toml`.

## How it is built

Each mutable object of the program is a class (`RateLimiter`, `ReplayGuard`, `Endpoint`, `ConnState`, `Parked`,
`Driver`) whose methods are proved to take the step that a function on values describes. Invariants and run
theorems are then lemmas about those functions.

The QUIC library is the environment. In the endpoint every call into it is answered by an argument of the step,
so a step is a function and a run is any sequence of calls and answers. What the answers must respect is
`EndpointWorld.ServiceOk` and `EndpointWorld.FeedOk`: a minted connection ID was never minted before; `accept` takes
a free slab slot; a slot is freed only by a handled `Drained` event, which only a drained connection sends; the
servicing pass visits each live connection once. Nothing else is assumed: the library may mint at any call, fail an
accept after minting, report events in any number, and reuse slots at once. In the stream layer the library decides
how arrivals are cut into chunks and how many bytes of a write it takes.

Instants and bucket contents are real numbers. The clocks, the rate limiter's verdict and the order in which a hash
map is walked are arguments.

## Results worth reading first

* `EndpointRuns.RunInv`, `EndpointLedger.BypassIffOwned`: the connection-ID ledger and the slab, in every state of
  every run, through failed accepts and the early return of the feed.
* `EndpointAttribution.StepAttribution`, `EndpointStray.StrayRunMisfiles`: a finding, see below.
* `EndpointSilence.RunSilent` and `EndpointIsolation.NonInterference`: silence, and rejected traffic leaves no trace.
* `DriverRuns.AcceptDelivery`, `DriverReplies.LossResolves`, `DriverReplies.RunNames`: end to end, from datagram to the
  connection that the application is handed.
* `Replay.PruningIsExact`: when a guard that forgets is as good as one that does not, whatever the clock does.
* `RateLimitRuns.LruIsMostRecent`, `RateLimitRuns.SourceRateBound`: linked list against recency, and a rate bound
  that eviction cannot defeat.
* `RateLimitService.FreshAdmitsBurst`, `RateLimitService.IdleAdmitsWorth`: what the limiter must let through.
* `EndpointEvents.PassRaisesWhatIsDue`, `EndpointRouting.CallsMade`, `EndpointDirty.WorkNeverSleeps`: what a pass raises, what
  a datagram asks of the library, and when the caller may sleep.
* `StreamRuns.ReadToEndExact`, `BoundedReads.BoundedReadsExact`, `StreamRuns.WriteAllExact`, `FinRuns.WaitGetsTheFact`.
* `InitialKeys.FirstByteBits`, `InitialPackets.InitialRoundTrip`.

## A finding

When a datagram on an active ID makes the library report a new connection, `feed` returns early
(proto/src/endpoint.rs:617-619) and skips the sweep at line 652. IDs minted on the way stay pending. The backstop at
line 856 comes too late if some connection handles an endpoint event in the same pass: the drain at line 735 then
attributes the orphans to that connection. The ledger stays well-formed (`EndpointRuns.RunInv` holds through this
path), but an ID for which nobody was connected routes past the pre-filter until that connection is lost.
`EndpointAttribution.StepAttribution` shows that a step keeps the attribution exact if and only if it is not of this
family (`Misfiles`), and `EndpointStray.StrayRunMisfiles` gives a run of two datagrams, from the start of a server with
one client, that ends so. It needs a library that mints an ID inside `handle` and then reports a new connection. The
source says only that some `Response`s mint inside `handle` (proto/src/endpoint.rs:636-639); whether a new connection
ever comes with one is up to the library and outside this model. The comment that calls the sweep the choke point for
every minting call (proto/src/endpoint.rs:643-651) holds for all paths but this one.

The comment above `on_lost` (src/server.rs:390-406) says that a connection handle is the library's slab index and is
reused. In the code a handle carries a generation (proto/src/endpoint.rs:701-711) and is never reused; the model
follows the code.

## Model

| member | source | states |
|---|---|---|
| `Admission.PeekIsLongHeader` | proto/src/transport.rs:22-39 | the parser returns an ID exactly for datagrams laid out as a long header of section 17.2 of RFC 9000 with an ID of 1 to 20 bytes, and returns that ID |
| `Admission.ParseAssemble` | proto/src/selector.rs:34-48 | an ID parses to given parts exactly when it is their concatenation, 8 + 4 + 8 bytes; no other length parses |
| `Admission.Le32RoundTrip` | proto/src/selector.rs:25-32 | the minute written least significant byte first is read back unchanged |
| `Admission.Le32Value` | proto/src/selector.rs:14-32 | the four bytes of a minute have it as place value, least significant first |
| `Admission.FromLe32RoundTrip` | proto/src/selector.rs:34-48 | four bytes read as a minute are written back unchanged |
| `Admission.SelectorHashes` | proto/src/selector.rs:14-23 | the selector is the first eight bytes of the keyed hash of 33 bytes: the context string, the nonce, and the minute by place value |
| `Admission.SelectorInputsDiffer` | proto/src/selector.rs:14-23 | under one key two dials hash the same bytes only if nonce and minute agree |
| `Admission.BuildDcid` | proto/src/selector.rs:25-32 | the array filled slice by slice is the assembled dial: nonce, minute, recomputed selector |
| `Admission.DiffZero` | proto/src/selector.rs:50-58 | the accumulated difference of two byte strings is zero exactly when they are equal |
| `Admission.SelectorMatchesExactly` | proto/src/selector.rs:50-58 | the constant-time comparison accepts the recomputed selector and nothing else |
| `Admission.FreshIsDistance` | proto/src/freshness.rs:16-20 | saturating arithmetic at both ends of the range never changes the verdict: fresh means within the window |
| `Admission.BuildClients` | proto/src/endpoint.rs:120-145 | entries are accepted if and only if no name is blank and no name or key occurs twice; otherwise the first fault is the one reported |
| `Replay.ReplayGuard.CheckAndRecord` | proto/src/replay.rs:27-31 | verdict and new contents: expired pairs are gone, the pair is recorded, and it was new exactly if it was not among the retained ones |
| `Replay.GuardHolds` | proto/src/replay.rs:27-31 | in any order of minutes, the guard holds exactly the pairs that a fresh attempt recorded and no later fresh attempt made it forget |
| `Replay.PruningIsExact` | proto/src/endpoint.rs:559-569 | for every log, whatever the clock does: freshness check plus pruning guard gives all the verdicts of a guard that never forgets if and only if no pair is recorded, forgotten by a later fresh attempt, and tried again while fresh |
| `Replay.OnceIsExact` | proto/src/endpoint.rs:559-569 | under the same condition, and only under it, no pair is admitted twice |
| `Replay.PruningRefinesUnbounded` | proto/src/endpoint.rs:559-569 | if the minute never goes back the condition holds, so forgetting changes no verdict |
| `Replay.AdmittedOnce` | proto/src/endpoint.rs:559-569 | if the minute never goes back, no two attempts with the same nonce and minute both pass |
| `Replay.RetentionIsExact` | proto/src/replay.rs:27-31 | whatever the clock does, nothing retained is older than the window before the latest fresh attempt, and all of it is within the window around it if and only if no surviving attempt lies ahead |
| `Replay.RetainedInWindow` | proto/src/replay.rs:27-31 | if the minute never goes back, everything retained is within the window around the latest fresh attempt |
| `Replay.ClockBackAdmitsTwice` | proto/src/replay.rs:27-31 | logs exist that violate the condition: with a minute that goes back a concrete one admits a pair twice |
| `Replay.ExactAdmission` | proto/src/endpoint.rs:551-579 | the pre-filter returns client i if and only if the datagram is a long header carrying a dial of client i within the window that guard i does not know, and no earlier key yields the same selector |
| `RateLimit.TryTake` | proto/src/ratelimit.rs:52-71 | the statement-by-statement refill and take computes the bucket step, clocks that go back included |
| `RateLimit.ChainUnique` | proto/src/ratelimit.rs:106-122 | head, tail and the links of the table determine one order: a table cannot be read as two chains |
| `RateLimit.RateLimiter.Detach` | proto/src/ratelimit.rs:211-237 | unlinking an entry removes exactly that source from the order, wherever it stands, and leaves every bucket |
| `RateLimit.RateLimiter.AttachNewest` | proto/src/ratelimit.rs:239-252 | linking an entry appends exactly that source to the order |
| `RateLimit.RateLimiter.TouchSource` | proto/src/ratelimit.rs:184-209 | a hit moves the source to the end; a miss on a full table evicts the front and inserts a full bucket; the links stay one chain over exactly the keys of the table |
| `RateLimit.RateLimiter.Check` | proto/src/ratelimit.rs:163-179 | the linked table refines the order-and-map limiter, in result and in state; no lookup ever misses |
| `RateLimitRuns.LastAtIsLast` | proto/src/ratelimit.rs:163-209 | the recency used below is the true position of the last use |
| `RateLimitSpec.CheckKeepsTracked` | proto/src/ratelimit.rs:163-209 | the order lists each tracked source once, and never more than max(1, max_tracked) of them |
| `RateLimitRuns.LruIsMostRecent` | proto/src/ratelimit.rs:163-252 | after any run of checks the tracked sources are the max(1, max_tracked) most recent distinct sources that passed the global bucket, in recency order |
| `RateLimitRuns.GlobalRateBound` | proto/src/ratelimit.rs:52-71 | over any block of checks, instants in any order, admissions are at most the global capacity plus the refill of the growth of the bucket clock |
| `RateLimitRuns.SourceRateBound` | proto/src/ratelimit.rs:163-209 | over any window in which fewer than max(1, max_tracked) other sources are touched, one source gets at most capacity plus refill times the length of the window, from any starting state: it cannot be evicted and given a fresh bucket |
| `RateLimitService.FreshAdmitsBurst` | proto/src/ratelimit.rs:41-71 | a fresh limiter admits a whole burst, instants in any order: up to the global capacity of calls, up to the source capacity from each source, from up to max(1, max_tracked) sources |
| `RateLimitService.DefaultsAdmitDial` | proto/src/ratelimit.rs:78-136 | with the documented defaults the first 32 packets of a source pass |
| `RateLimitService.IdleAdmitsWorth` | proto/src/ratelimit.rs:52-71 | after an idle time a bucket is worth min(capacity, tokens + refill x idle time), and of calls from a tracked source at one instant the n-th passes exactly if both buckets are worth n |
| `Endpoint.Endpoint.GenerateCid` | proto/src/crypto.rs:54-68 | a generated ID routes at once and is pending |
| `Endpoint.Endpoint.DrainPendingCids` | proto/src/endpoint.rs:878-887 | all pending IDs, and nothing else, are appended to the list of the connection |
| `Endpoint.Endpoint.SweepOrphanCids` | proto/src/endpoint.rs:911-921 | pending IDs stop routing, attributed ones are untouched |
| `Endpoint.Endpoint.PruneConnectionCids` | proto/src/endpoint.rs:926-933 | the IDs of one connection stop routing, all others are untouched, an unknown handle changes nothing |
| `EndpointLedger.ServiceSettles` | proto/src/endpoint.rs:717-859 | a servicing pass that starts with orphans pending ends settled: nothing pending, issued IDs the disjoint union of the lists of live connections |
| `EndpointLedger.FeedKeepsLedger` | proto/src/endpoint.rs:582-654 | feeding keeps the ledger through every event, failed accepts included; only the early return leaves IDs pending, exactly those minted by the call |
| `EndpointLedger.BypassIffOwned` | proto/src/endpoint.rs:536-545 | between calls a datagram bypasses the pre-filter if and only if a live connection owns its ID, and only one does |
| `EndpointRouting.ShortHeaderRoutes` | proto/src/endpoint.rs:941-948 | a short-header datagram of nine bytes or more bypasses the pre-filter if and only if a live connection lists the eight bytes behind its first |
| `EndpointRouting.LongHeaderRoutes` | proto/src/endpoint.rs:941-948 | a long-header datagram does if and only if a live connection lists the ID its length byte delimits |
| `EndpointRouting.OnlyTheseRoute` | proto/src/endpoint.rs:941-948 | no other datagram does: not an empty or shorter one, nor a long header without an ID |
| `EndpointRouting.LiveIsNeverRejected` | proto/src/endpoint.rs:399-434 | a datagram of a live connection is handed to the library whatever limiter, guards and clock say, and leaves the guards alone |
| `EndpointRouting.CallsMade` | proto/src/endpoint.rs:399-434 | a datagram that is not rejected is handed over once, unchanged, under the configuration of the client it was admitted as; only an admitted one is accepted; a rejected one asks nothing of the library |
| `EndpointRouting.FeedSends` | proto/src/endpoint.rs:582-697 | a nonempty response is queued for the sender and a nonempty accept buffer for the peer it names, by a server only, and nothing else |
| `EndpointRouting.FeedOutcome` | proto/src/endpoint.rs:610-697 | the outcome names the connection just accepted, or the live connection in the slot the library routed to, or nobody |
| `EndpointAttribution.StepAttribution` | proto/src/endpoint.rs:610-653 | one call keeps every listed ID with the connection it was minted for if and only if the call is not of the failing family; no live connection ever loses an ID |
| `EndpointAttribution.RunAttribution` | proto/src/endpoint.rs:717-933 | over every run without such a call an ID routes past the pre-filter if and only if it was minted for a connection that is live |
| `EndpointStray.StrayRunMisfiles` | proto/src/endpoint.rs:617-619 | the failing family is reached: a server with one client, from its start, accepts a dial and is then handed a stray datagram, within the contract; afterwards an ID minted for no connection routes past the pre-filter |
| `Endpoint.Endpoint.Allocate` | proto/src/endpoint.rs:701-711 | the handle carries the slot and the next generation, and the slot now leads to it |
| `EndpointRuns.NoSlotReused` | proto/src/endpoint.rs:701-711 | in every run, whenever a call creates a connection its slot is in no live handle, so the assertion against reuse never fires |
| `EndpointHandles.ServicedSlab` | proto/src/endpoint.rs:803-848 | a pass frees a slot only together with reaping the connection in it, so slot table and connections stay mutually inverse |
| `EndpointHandles.ServiceConnections` | proto/src/endpoint.rs:803-848 | a pass leaves exactly the connections that reported no loss and are not drained |
| `EndpointQueues.LossIsReported` | proto/src/endpoint.rs:803-848 | every connection a pass reaps is reported with the last reason its event queue gave, or as closed by us if it is drained without one |
| `EndpointHandles.FeedConnections` | proto/src/endpoint.rs:582-697 | a datagram creates at most one connection, with the next generation and the admitted client's ID, and changes no other |
| `EndpointRuns.RunInv` | proto/src/endpoint.rs:399-933 | in every state of every run: settled ledger, mutually inverse handle tables, and a history in which every issued handle is live or lost for good |
| `EndpointRuns.HandlesDistinct` | proto/src/endpoint.rs:701-711 | no two handles issued in a run are equal, although slots are reused without limit |
| `EndpointRuns.HandleFinality` | proto/src/endpoint.rs:511-513 | a handle that is not live after having been issued never is again; it has exactly one ConnectionLost, and no later event names it |
| `EndpointSilence.RunSilent` | proto/src/endpoint.rs:399-448 | at most as many handles are issued as datagrams were admitted; before the first admission nothing is queued, sent, connected, issued or reported |
| `EndpointSilence.RejectedRunEmitsNothing` | proto/src/endpoint.rs:399-448 | if every datagram of a run is rejected, no poll ever yields a datagram |
| `EndpointSilence.RunIdentified` | proto/src/endpoint.rs:665-679 | the client ID of every live connection belongs to one entry only: the one as which its datagram was admitted |
| `EndpointSilence.RunAdmitsOnce` | proto/src/endpoint.rs:559-569 | over a whole run with a non-decreasing minute each client, nonce and minute is admitted at most once |
| `EndpointIsolation.RejectionTouchesOnlyGuards` | proto/src/endpoint.rs:399-434 | a rejected datagram answers Dropped and changes nothing but the replay guards |
| `EndpointIsolation.NonInterference` | proto/src/endpoint.rs:399-571 | deleting all rejected datagrams from a run changes no answer of any other call, no call made to the library, and no state but expired guard entries |
| `EndpointTime.DrainedMeansFlushed` | proto/src/endpoint.rs:442-490 | when a poll for a datagram yields none, no connection is dirty, the queue is empty, and the deadline is the least one of the live connections |
| `EndpointTime.DirtyNeverSleeps` | proto/src/endpoint.rs:481-490 | over every run with a non-decreasing clock, while a connection is dirty the reported deadline exists and is not later than any later call |
| `EndpointDirty.WorkDirties` | proto/src/conn.rs:224-389 | a connection is dirty after a call exactly if it was, or the call is a nonempty write, a read of at least a byte not on a finished half, a first finish, or a reset or stop with a valid code |
| `EndpointDirty.CallDirties` | proto/src/conn.rs:224-389 | the same of the calls that the methods of the connection compute |
| `EndpointDirty.WorkNeverSleeps` | proto/src/endpoint.rs:481-490 | over every run with a non-decreasing clock, from such a call on a live connection until the next servicing pass the reported deadline exists and is not later than any later call |
| `EndpointTime.StepLastService` | proto/src/endpoint.rs:717-721 | a call that runs a servicing pass (a datagram not rejected, a timeout, a poll on an empty queue) stamps its instant; any other keeps the stamp and the live connections |
| `EndpointQueues.RunKeepsOrder` | proto/src/endpoint.rs:442-448 | over every run what was sent followed by what waits only grows at its end: no queued datagram is lost, repeated or overtaken |
| `EndpointRouting.PassSends` | proto/src/endpoint.rs:809-832 | a pass queues, behind what is queued, the datagrams that each connection yields before its first empty one, connection by connection |
| `Endpoint.EventsFor` | proto/src/endpoint.rs:757-784 | the events of one connection in their order: connected, opened, readable, writable, acknowledged, stopped |
| `EndpointEvents.PassRaisesWhatIsDue` | proto/src/endpoint.rs:749-830 | each live connection raises exactly what its event queue calls for, in order: Connected once, opened, readable and writable as often as reported, and about a finish the first fact reported, unless one was settled before |
| `EndpointEvents.PassRecordsFirstFact` | proto/src/conn.rs:432-475 | that first fact is the one recorded, unless a terminal one was there |
| `Endpoint.DrainDatagrams` | proto/src/endpoint.rs:809-821 | the transmit loop takes datagrams until there is none or an empty one |
| `Endpoint.Endpoint.AdmitIncoming` | proto/src/endpoint.rs:657-697 | the statements of admit take the admit step, failure included |
| `Endpoint.Endpoint.FeedDatagram` | proto/src/endpoint.rs:582-654 | the statements of feed take the feed step, early return included |
| `Endpoint.Endpoint.ServiceConnections` | proto/src/endpoint.rs:717-868 | the four phases and the deadline refresh take the pass step: route, poll, reap, sweep |
| `Endpoint.Endpoint.ReapConnection` | proto/src/endpoint.rs:834-848 | a reaped connection leaves all tables and queues one ConnectionLost; a second loss of it changes nothing |
| `Endpoint.Endpoint.RunPrefilter` | proto/src/endpoint.rs:551-579 | the guarded statements compute the pre-filter and touch only the selected guard |
| `Endpoint.Endpoint.ReceiveDatagram` | proto/src/endpoint.rs:399-434 | limiter, pre-filter, feed and pass in that order; the limiter is charged only for datagrams no live connection owns |
| `Endpoint.Endpoint.TakeTransmit` | proto/src/endpoint.rs:442-448 | services only when the queue is empty, then yields the oldest datagram |
| `Endpoint.Endpoint.TakeEvent` | proto/src/endpoint.rs:455-457 | events come out in the order in which they were queued |
| `Endpoint.Endpoint.HandleTimeout` | proto/src/endpoint.rs:493-500 | takes the timeout step |
| `Endpoint.Endpoint.DoStreamWork` | proto/src/endpoint.rs:511-513 | a live handle reaches its connection; any other reaches nothing and changes nothing |
| `Endpoint.Endpoint.Deadline` | proto/src/endpoint.rs:481-490 | the last service instant while anything is dirty, the cached deadline otherwise |
| `Endpoint.StartServer` | proto/src/endpoint.rs:250-285 | a server starts if and only if its clients can be told apart, empty and with one fresh guard per client |
| `Endpoint.StartClient` | proto/src/endpoint.rs:324-386 | a client dials the ID built from key, nonce and minute, and owns the one connection with the IDs minted for it |
| `EndpointWorld.StepIsStepOf` | proto/src/endpoint.rs:399-500 | the step used in run theorems is the step the class is proved to take |
| `EndpointClient.ServerReady` | proto/src/endpoint.rs:250-285 | a freshly started server satisfies every invariant of runs |
| `EndpointClient.ClientStarts` | proto/src/endpoint.rs:324-386 | a freshly dialled client satisfies every invariant of runs, has asked the library for that dial only, and reports the deadline that came with it |
| `EndpointClient.ClientFeedQueuesNothing` | proto/src/endpoint.rs:582-654 | no endpoint-level response ever leaves a client |
| `EndpointClient.ClientKeepsOneConnection` | proto/src/endpoint.rs:582-654 | in every run a client has the one connection it dialled, until that is lost, and none after |
| `ConnState.ConnState.Read` | proto/src/conn.rs:224-306 | for every way the library cuts arrivals into chunks: the bytes returned are the next ones in order, FIN is reported once data is exhausted and remembered, a reset consumes the half |
| `ConnState.ConnState.Write` | proto/src/conn.rs:318-333 | what the library takes is a prefix of the offer and is appended to what it had |
| `ConnState.ConnState.Record` | proto/src/conn.rs:467-475 | a terminal fact is never overwritten and is news once |
| `ConnState.ConnState.Finish` | proto/src/conn.rs:336-355 | a second finish changes nothing; a stopped stream records the stop |
| `ConnState.ConnState.Reset` | proto/src/conn.rs:365-374 | an invalid code changes nothing; otherwise both facts about the stream are released |
| `ConnState.ConnState.Stop` | proto/src/conn.rs:381-389 | an invalid code changes nothing; otherwise the receive fact is released |
| `ConnState.ConnState.AcceptBi` | proto/src/conn.rs:203-208 | streams opened by the peer come out in order, each once |
| `ConnState.ConnState.ServiceEvents` | proto/src/conn.rs:432-465 | the event loop computes the progress record and the facts |
| `ConnFacts.FinishRecords` | proto/src/conn.rs:336-355 | what a finish answers and records on an open, a stopped, a finished and a settled half |
| `ConnFacts.InvalidCodesAreRefused` | proto/src/conn.rs:365-389 | a code is refused, with nothing changed, exactly if it has more than 62 bits |
| `ConnFacts.ResetForgets` | proto/src/conn.rs:365-374 | a valid reset releases what was remembered of the stream and of no other |
| `ConnFacts.StopForgets` | proto/src/conn.rs:381-389 | a valid stop gives up the receive half and touches no send fact |
| `ConnFacts.AcceptsInOrder` | proto/src/conn.rs:203-208 | over every run what accepts took and then what waits is everything reported opened, in its order |
| `StreamSpec.CallIsWork` | proto/src/conn.rs:187-419 | every stream call leaves the bookkeeping as the work step does on which the results about deadlines and send facts rest |
| `Parked.PumpToEnd` | src/conn.rs:804-875 | the read loop ends, and whatever chunks it saw, its net effect is one function of what had arrived |
| `Parked.PumpUpTo` | src/conn.rs:804-875 | one read, answered by data, end or error |
| `Parked.PumpWrite` | src/conn.rs:774-794 | the write loop ends, and whatever pieces were taken, its net effect is one function of the credit |
| `Parked.Parked.ApplyCmd` | src/conn.rs:573-667 | every command answers at once or parks its reply, as the command step says |
| `Parked.Parked.StreamOpened` | src/conn.rs:676-693 | parked accepts are served in order while streams last |
| `Parked.Parked.Readable` | src/conn.rs:696-703 | a parked read is resumed where it stopped |
| `Parked.Parked.Writable` | src/conn.rs:706-713 | a parked write is resumed where it stopped |
| `Parked.Parked.StoppedByPeer` | src/conn.rs:725-728 | finish waiters get the stop, then a parked write is resumed |
| `Parked.Parked.AnswerFinWaiters` | src/conn.rs:716-722 | all waiters of the stream get the answer and none is left |
| `Parked.Parked.FailEverything` | src/conn.rs:734-749 | in whatever order the maps are walked, every parked operation fails once and none is left |
| `ParkFacts.LossTellsClosed` | src/conn.rs:734-749 | whatever is parked is told that the connection is closed, and no earlier answer changes |
| `ParkFacts.AcceptsServedInOrder` | src/conn.rs:676-693 | the i-th parked accept gets the i-th available stream, as long as both last |
| `ParkFacts.ResetReleases` | src/conn.rs:616-623 | a successful reset tells every finish waiter and the blocked write that the stream is closed and keeps none; a failed one touches nothing |
| `ParkFacts.StopReleases` | src/conn.rs:624-630 | a successful stop ends a parked read as closed; a failed one touches nothing |
| `ParkFacts.AckTellsDone` | src/conn.rs:716-722 | an acknowledgement tells every waiter that the finish is done and keeps none |
| `ParkFacts.StopByPeerTells` | src/conn.rs:725-728 | a stop tells every waiter so with its code, and ends a parked write on a stopped half |
| `ParkFacts.OpenTells` | src/conn.rs:575-577 | opening answers with the next stream, or why there is none |
| `ParkFacts.AcceptTells` | src/conn.rs:578-587 | accepting answers with the stream that waited longest, or waits behind the others |
| `ParkFacts.FinishTells` | src/conn.rs:598-600 | finishing answers done, stopped or closed, by the state of the half |
| `ParkFacts.ReleaseForgets` | src/conn.rs:631-633 | releasing forgets the send fact of that stream and nothing else |
| `ReplyRuns.HappenKept` | src/conn.rs:573-769 | every command and every event keeps each reply parked in exactly one slot or answered exactly once |
| `ReplyRuns.FailAllAnswers` | src/conn.rs:734-749 | after failing everything nothing is parked and every reply ever issued has its one answer |
| `ReplyRuns.RunKeepsReplies` | src/conn.rs:573-769 | over every run: each reply is in one slot or answered once, and a loss at any point answers all of them |
| `StreamRuns.ReadToEndExact` | src/conn.rs:804-875 | for every chunking and interleaving, replies not being reused: the only answers are Ok with the whole stream up to FIN, not longer than the limit, and "too long" when more than the limit has arrived, with exactly limit + 1 bytes taken; until then no byte is lost |
| `StreamRuns.ReadToEndStarts` | src/conn.rs:634-643 | issuing the command with a fresh reply enters that life with what is already buffered |
| `StreamRuns.WakeReadState` | src/conn.rs:696-703 | a wake-up after FIN ends the read |
| `BoundedReads.BoundedReadsExact` | src/conn.rs:804-875 | for every chunking and interleaving, one bounded read at a time: the answers one after the other and then what is buffered are what has arrived; each has at most as many bytes as asked for, and none only at the end of the stream |
| `StreamRuns.WriteAllExact` | src/conn.rs:774-794 | for every arrival of credit and interleaving, replies not being reused: the core gets the data once and in order, and the only answer is Ok, given when it has all of it |
| `StreamRuns.WriteAllStarts` | src/conn.rs:588-597 | issuing the command with a fresh reply enters that life |
| `StreamRuns.WakeWriteState` | src/conn.rs:706-713 | a wake-up uses all the credit there is, and ends the write exactly if that covers the rest |
| `FinRuns.BatchReports` | proto/src/conn.rs:432-475 | a batch of events moves a fact forward and reports it exactly when this batch made it terminal; an acknowledgement after a stop does nothing |
| `FinRuns.StickyFacts` | proto/src/conn.rs:336-475 | between releases, over every run: a fact goes from none to queued to terminal or straight to terminal, a terminal one never changes, and it is reported at most once and correctly |
| `FinRuns.WaitStarts` | src/conn.rs:601-615 | a wait issued once the finish is queued or decided is parked for the fact or answered with it |
| `FinRuns.WaitGetsTheFact` | src/conn.rs:716-757 | over every run without a release, replies not being reused: the wait is never lost, it is answered with nothing but the terminal fact, and once that is dispatched it has been answered |
| `Driver.Driver.Surface` | src/server.rs:367-388 | a new, live connection is offered once with its table; a dead or known one changes nothing |
| `Driver.Driver.OnLost` | src/server.rs:407-422 | everything retained about the handle goes: table failed, handle forgotten, offer withdrawn, reason noticed |
| `Driver.Driver.OnEvent` | src/server.rs:316-359 | events reach the table of their connection when it is surfaced and live; acknowledgements also when it is not |
| `Driver.Driver.OnCommand` | src/server.rs:429-434 | a command reaches a surfaced, live connection; any other is dropped with its reply |
| `Driver.Driver.Deliver` | src/server.rs:258-265 | the application takes the oldest offer |
| `DriverWakes.ReadableEndsRead` | src/server.rs:326-332 | a dispatched StreamReadable after FIN answers a read to the end, with the whole stream or as too long |
| `DriverWakes.ReadableAnswersBounded` | src/server.rs:326-332 | a dispatched StreamReadable answers a bounded read with the first bytes there are |
| `DriverWakes.WritableEndsWrite` | src/server.rs:333-339 | a dispatched StreamWritable with credit for the rest answers a parked write, and the library has all of it |
| `DriverWakes.OpenedServesAccept` | src/server.rs:319-325 | a dispatched StreamOpened serves the accept that has waited longest |
| `DriverWakes.AckedTellsWaiters` | src/server.rs:340-344 | a dispatched acknowledgement tells every waiter, even for a connection that is no longer there |
| `DriverWakes.StoppedTellsWaiters` | src/server.rs:345-355 | a dispatched stop tells every waiter, with its code |
| `DriverWakes.EventLeavesOthers` | src/server.rs:316-359 | an event leaves the parked operations of other connections alone |
| `DriverWakes.CommandReaches` | src/server.rs:429-434 | a write with credit and a first finish are carried out on a surfaced, live connection |
| `DriverWakes.CommandIsClosed` | src/server.rs:424-434 | a command for a connection that is gone or not surfaced is told that it is closed |
| `DriverWakes.LostTellsClosed` | src/server.rs:407-422 | the dispatch of a loss tells everything parked that the connection is closed and keeps earlier answers |
| `DriverRuns.FirstIsLeast` | src/server.rs:367-388 | the order used below is the index of the first Connected of a connection |
| `DriverRuns.StepKeepsDead` | proto/src/endpoint.rs:511-513 | whatever the endpoint does, a dead handle stays dead |
| `DriverRuns.AcceptDelivery` | src/server.rs:316-422 | in every run over the endpoint: tables and surfaced handles agree, nobody is offered twice, offers and deliveries come in the order of the first Connected, only a dispatched loss withdraws an offer, and nothing whose loss was dispatched is left to deliver |
| `DriverReplies.RunConserves` | src/server.rs:407-434 | over every run each reply is with the one connection it was asked of, held or answered once, or was given once by the driver |
| `DriverReplies.LossResolves` | src/server.rs:407-434 | once the loss of a connection is dispatched nothing of it is parked and every command ever sent to it, before or after, has its one answer |
| `DriverReplies.LossIsNoticed` | src/server.rs:407-422 | once the loss of an offered connection is dispatched its handles see a reason, and it is one with which that loss was reported |
| `DriverReplies.RunNames` | src/server.rs:367-388 | every connection delivered to the application bears the client ID of the entry as which its first datagram was admitted |
| `InitialKeys.ApplyMask` | proto/src/initial_keys.rs:257-287 | masking in place computes the masking function, in either direction |
| `InitialKeys.DecryptHeader` | proto/src/initial_keys.rs:291-293 | decrypting is masking of a packet that still carries the mask |
| `InitialKeys.EncryptHeader` | proto/src/initial_keys.rs:295-297 | encrypting is masking of a plain packet |
| `InitialKeys.HeaderRoundTrip` | proto/src/initial_keys.rs:257-297 | for every mask, every sampled packet and every packet-number offset from 1: unmasking undoes masking and masking undoes unmasking |
| `InitialKeys.HeaderFrame` | proto/src/initial_keys.rs:257-287 | masking touches only the packet number and the low four bits of the first byte, five in a short header |
| `InitialKeys.FirstByteBits` | proto/src/initial_keys.rs:257-287 | bit by bit: the first byte has a bit turned over exactly if the first mask byte has it set and it is one of the low four (long header) or five (short); the mask is that of the 16 bytes from four behind the packet-number offset |
| `InitialKeys.NumberBytes` | proto/src/initial_keys.rs:257-287 | as many packet-number bytes as the low two bits of the plain first byte say are xored with the mask from its second byte on |
| `InitialKeys.FormFlipLosesABit` | proto/src/initial_keys.rs:257-287 | with the packet number at offset 0, a mask that turns a short header into a long one and has bit 4 set alone among the low five is not undone |
| `InitialKeys.NoRoundTripAtZero` | proto/src/initial_keys.rs:257-287 | such a mask and packet exist, so at offset 0 the round trip fails |
| `InitialPackets.Nonce` | proto/src/initial_keys.rs:185-192 | the loop computes the IV with the packet number, in network order, mixed into its last eight bytes |
| `InitialPackets.NonceIs` | proto/src/initial_keys.rs:185-192 | the last eight bytes are xored with bytes that have the packet number as place value, most significant first |
| `InitialPackets.NoncesDistinct` | proto/src/initial_keys.rs:185-192 | under one key two packet numbers of 64 bits have the same nonce only if they are equal |
| `InitialPackets.LabelInfoInjective` | proto/src/initial_keys.rs:79-88 | two label structures are equal only if label and length (modulo 2^16) are, so no two keys are expanded from one input |
| `InitialPackets.KeysComeFrom` | proto/src/initial_keys.rs:107-166 | a client seals with what is expanded under the bytes of "client in", a server under those of "server in", key, IV and header key under theirs, as appendix A.1 of RFC 9001 spells them; each opens with the other's |
| `InitialPackets.KeysPair` | proto/src/initial_keys.rs:131-166 | what one side seals with the other opens with, both ways |
| `InitialPackets.EncryptInPlace` | proto/src/initial_keys.rs:196-206 | in place, the header stays and text plus room becomes sealed text plus tag |
| `InitialPackets.Decrypt` | proto/src/initial_keys.rs:208-222 | opening uses the nonce that sealing the same packet number uses |
| `InitialPackets.InitialRoundTrip` | proto/src/initial_keys.rs:131-297 | for every key, ID, side, packet number, header and text: what one side seals and masks the other unmasks and opens to the same header and text |
| `InitialPackets.HeaderIsAuthenticated` | proto/src/initial_keys.rs:196-222 | with a cipher that authenticates, a payload does not open behind a changed header or as another packet number |

## Left out

- The inside of the QUIC library, of TLS, and of the MAC, HKDF, AEAD and mask primitives: they are the contract above, or
  uninterpreted functions (a keyed hash of 32 bytes; opening inverts sealing; a mask of at least five bytes). No claim
  is made about what they hide.
- Sockets, the event loops of `Driver::run` and `Driver::pump`, and all of src/client.rs: I/O plumbing. That `pump`
  comes to rest depends on what the library emits.
- Configuration parsing, file sources, TLS identity and certificate checks, and the mapping of error types: thin code
  around the parts modelled.
- Rounding of floating-point buckets: bucket contents are real numbers.
- Shared ownership and locking of the connection-ID sets: the endpoint is their only user.
- Timing: that the selector comparison takes constant time, and that hits in the LRU list do.
- The token bucket is a record in its owner rather than an object of its own; `RateLimit.TryTake` returns the new one.
- The endpoint's table holds one connection's bookkeeping as a value, and the driver's table holds the parked
  operations as a value; `ConnState` and `Parked` show how those are updated in place. Aliasing between two tables is
  thereby not expressible, as it is not in the program, which owns them.
- The caller's read buffer is a returned sequence, and opening a payload returns the plain text instead of shortening a
  buffer.
- The order in which a hash map is walked is an argument, so results hold for every order.
- A reply that is dropped rather than sent counts as the answer `Closed`, which is what its waiter sees; this includes an
  operation that is overwritten by a second one on the same stream half.
- Cancelled waits of the application: a reply nobody waits for any more still counts as given.
- `close` goes to the connection directly and does not mark it dirty, so no claim is made that it shortens the
  deadline.
- The generation counter: the contract of `FeedOk` excludes the accept that would exhaust 64 bits, where the program
  stops. Connection IDs chosen by a peer that equal a minted one are excluded by the same freshness contract.
- `send_fins` and `finished_reads` are not bounded: their size depends on what the caller releases.
- In runs of the driver the streams seen by an event or a command are whatever the library has at that moment, and
  the bookkeeping they change is tied to the endpoint's only through later calls; liveness, events, names and replies are
  tied exactly.
- InitialKeys.HeaderRoundTrip: is stated for packet-number offsets from 1. At offset 0, which no QUIC header has, it
  fails, as `InitialKeys.NoRoundTripAtZero` shows.
- Replay.PruningRefinesUnbounded: is the special case of a minute that does not go back; the code does not enforce that,
  and `Replay.PruningIsExact` is the statement without it.
- InitialPackets.Decrypt: says nothing about payloads that were not sealed under the same key, nonce and header; that
  they fail to open is the cipher's own promise.
- StreamRuns.ReadToEndExact: concerns one read on a half that is neither reset nor stopped meanwhile; a second
  operation on the same half is excluded.
- StreamRuns.WriteAllExact: concerns one write on a half that is neither reset, finished nor stopped meanwhile.
- Reconstruction of a truncated packet number: the receiver is given the full number.
