# bordercontrol: a verified model

`bordercontrol` accepts TLS connections from feeders, authenticates them, and proxies their BEAST or MLAT
traffic to a feed-in container or a multiplexer. This project models the parts of it where several
goroutines share state, and proves what they keep in every run.

## What is modelled

* **Incoming connections** (`Tracker`, `RateLimit`). The allocator of connection numbers over an unsigned
  word of M values, the evictor that compacts the slice of tracked connections in place, and the limiter
  per source address. A check counts under one lock and appends under another, so `RateLimit` runs checks
  and evictions as interleaved steps, with K the largest number of checks for one source that are between
  the two at once.
* **Statistics registry** (`Registry`, `RegistryHeap`, `RegistryRecords`, `RegistrySections`, `DisturbedSections`,
  `RegistryViews`, `ByteConservation`). `Registry` gives every operation as a function of the registry's value and
  relates it to a flat map from (key, protocol, number) to connection. `RegistryHeap` holds the maps as the program
  does, as references shared between copies of structs, and proves each lock section and each operation equal to
  its function. `RegistryRecords` states field by field what each of these functions writes and leaves alone, and
  over runs whose label and which connections the replies report.
  `RegistrySections` lets the two lock sections of an operation interleave with everything else;
  `DisturbedSections` covers the interleavings in which a feeder is deleted between the two.
  `RegistryViews` has the loops that only read: gauges, evictor scan, NATS replies.
  `ByteConservation` sums the byte counters over runs.
* **Sessions** (`Sessions` and the modules that prove properties of it: `SessionNumbers`, `SessionLimit`,
  `SessionStreams`, `SessionTotals`, `SessionRecords`, `SessionLifecycle`, `Revocation`, `RevocationReached`). One
  machine for all sessions of the process, with the number counter, the registry, the set of valid keys and the clock. A
  registry operation is one step of it. `SessionSections` runs the same machine with the two lock sections of
  an operation apart, and proves that undisturbed runs of it are runs of the session machine;
  `DisturbedSessions` proves the same of every run up to a panic, and which runs do harm; `SectionedPanic` proves
  the converse, and that the panic is reached. `Admission` puts the limiter per source address in front of the
  sessions. `ProtocolProxy` is the forwarding loop as it is written, with its buffer, byte count, timer and time
  stamp behind a pointer; it is proved to extend whatever run of the session machine led to the creation of its
  goroutine, from any later reading at which the goroutine starts. `FeederDb` is the snapshot of valid feeders and
  its searches.
* **Feed-in containers** (`Rendezvous`, `FeedInContainers`, `StartRequests`, `RollingReplacement`, `CheckerCalls`).
  Clients and the one worker that starts containers, over two unbuffered channels without correlation ids; the
  find-or-create of a container; both together; the checker that replaces out-of-date containers one at a time,
  as a whole pass and call by call.

`Common` has clock readings, protocols and 64-bit counters; `MapSum` has sums over maps and cardinalities.

Reads, writes, deadlines, dialling, Docker's answers, feeder lists, clock readings and scheduling are inputs:
the theorems hold for all of them. A read that fails delivers no bytes, a read or write that succeeds does so by
its deadline, and a read that exceeds its deadline returns after it. The clock does not go back. 64-bit
counters wrap around. The width of the connection number is a parameter M; theorems that rely on numbers being
unique say so by a bound of M-1 on the counter's total advance since start-up, and `SessionTotals` needs none.

## What the proofs show about the code

* The limit of 3 connections per source in 10 seconds, and the limit of 1 connection per feeder and protocol,
  hold in every run exactly if checks (admissions) never overlap; with K overlapping the reachable
  maximum is 2 + K (respectively K).
* A registration whose feeder's entry is missing at its second lock section, because the feeder's last connection
  was unregistered in between, does harm: `RegisterConnection` panics on a nil map, and `RegisterFeeder` leaves an
  entry without protocols, on which later registrations panic. A run does harm if and only if this happens; a
  feeder that was deleted and created again in between is found, and all is well. A feeder that is torn down for
  BEAST while it connects for MLAT reaches the panic from start-up (`SectionedPanic.BeastAndMlatCanPanic`). Until
  something panics no run loses a connection or a byte, and the sessions keep their invariants at every lock
  section (`DisturbedSessions.InvariantsUntilPanic`).
* A feeder's label and code are kept in its registry entry, which goes with its last connection. If that
  happens between a session's authentication and its registration, the registration creates a blank entry: the
  feeder is connected, and all replies on it carry an empty label and code. The label is the one last authenticated
  if and only if that was since the entry was created (`SessionRecords.LabelIsTheLastAuthenticated`); whole
  operations are enough to lose it, from start-up (`SessionRecords.BeastAndMlatCanLoseTheLabel`).
* The protocol-less entry is the only kind the evictor ever removes: the comment at `stats.go:501` says inactive
  feeders are evicted, but the guard on line 510 is false for every entry that whole operations produce.
* A start request whose client gives up leaves the worker blocked on its response for ever, and it then neither
  accepts another request nor exits on cancellation, so `Stop` would wait for it without end. The comment
  "order matters!" at `containers.go:217` has no effect on a Go `select`; the model lets it pick either case.
* `startFeederContainers` reports failure although the feeder's container runs afterwards in exactly these cases:
  it ran already and no client was had; it ran already and the listing failed, when creating it again fails on its
  name; or there was none, the listing failed, and it was created and started all the same, with the listing's
  error reported.
* `startFeederContainers` asks Docker to remove containers automatically (`create.go:215`), so a container whose
  start fails is normally gone; only if one is left behind, because the start request did not get that far, do all
  later starts for the feeder fail until it is kicked.
* The forwarding loops can still serve a key that left the list of valid feeders for the validity interval and
  three seconds (the read and the write deadline), plus what the loop lets pass between its own steps; that bound
  is reached. In a loop's first iteration the comparison is the admission, so starting and dialling the container
  and the first write, which are not the loop's own, count as passed too.
* The first chunk of a session has no such bound: it is written without a deadline, after the container was
  started and dialled, however long ago the key was looked up.
* The first chunk of a session and whatever its loops have not yet reported when they end never reach the
  byte counters; apart from that the counters are exact.
* A failed poll of the feeder list stores an empty list, so all keys are invalid until the next one succeeds.

## Model

| member | source | states |
|---|---|---|
| Tracker.CandidateIsCyclic | bordercontrol/lib/feedproxy/feedproxy_connections.go:99-105 | incrementing, with 0 skipped after a wrap-around, runs cyclically through 1 .. M-1 from any starting value |
| Tracker.SearchIsBounded | bordercontrol/lib/feedproxy/feedproxy_connections.go:99-120 | while some nonzero number is untracked, fewer than M-1 and at most as many candidates as there are tracked numbers are rejected |
| Tracker.FewTrackedLeaveOneFree | bordercontrol/lib/feedproxy/feedproxy_connections.go:99-120 | with fewer than M-1 tracked numbers some nonzero number is untracked |
| Tracker.SearchEndsIffSomeFree | bordercontrol/lib/feedproxy/feedproxy_connections.go:99-120 | the allocator's loop ends if and only if some nonzero number is untracked |
| Tracker.CandidatesDistinct | bordercontrol/lib/feedproxy/feedproxy_connections.go:99-105 | numbers less than M-1 increments apart differ, tracked or not |
| Tracker.IncomingConnectionTracker.GetNum | bordercontrol/lib/feedproxy/feedproxy_connections.go:91-123 | finds the cyclically first nonzero untracked number after the previous one, within one iteration more than there are tracked numbers; with none untracked it never ends, however long it is followed |
| Tracker.IncomingConnectionTracker.Evict | bordercontrol/lib/feedproxy/feedproxy_connections.go:125-146 | in-place compaction leaves the order-preserving filter of the original slice, and an entry is left exactly if its own reading was at most 10 seconds past its connection |
| Tracker.KeptIff | bordercontrol/lib/feedproxy/feedproxy_connections.go:134-143 | an entry survives eviction if and only if its own reading is at most 10 seconds past its connection |
| Tracker.KeptPositions | bordercontrol/lib/feedproxy/feedproxy_connections.go:125-146 | entry for entry, what is kept are the entries at the positions whose reading is at most 10 seconds past the connection, in their order |
| Tracker.KeptRetains | bordercontrol/lib/feedproxy/feedproxy_connections.go:134-143 | entries that cannot have expired at any reading all survive, in order |
| Tracker.KeptSorted | bordercontrol/lib/feedproxy/feedproxy_connections.go:134-143 | eviction keeps the slice sorted by time |
| Tracker.IncomingConnectionTracker.CountFrom | bordercontrol/lib/feedproxy/feedproxy_connections.go:154-161 | counts the tracked connections from one source |
| Tracker.IncomingConnectionTracker.Append | bordercontrol/lib/feedproxy/feedproxy_connections.go:169-175 | appends to the slice, moving to a larger backing array when full |
| Tracker.IncomingConnectionTracker.Check | bordercontrol/lib/feedproxy/feedproxy_connections.go:148-179 | without interference, accepts and tracks exactly if fewer than 3 connections of the source are tracked |
| RateLimit.SlidingWindowLimit | bordercontrol/lib/feedproxy/feedproxy_connections.go:125-179 | in every run with at most K overlapping checks per source, tracked plus passed entries and the connections accepted in any closed 10-second window are at most 2 + K, whatever the evictor does |
| RateLimit.TrackedStaysSorted | bordercontrol/lib/feedproxy/feedproxy_connections.go:125-176 | checks and evictions keep the slice sorted by time in every run |
| RateLimit.AcceptedWasChecked | bordercontrol/lib/feedproxy/feedproxy_connections.go:148-176 | every accepted entry has the source and number of a check in the run and the reading of that check's second section |
| RateLimit.PassesIff | bordercontrol/lib/feedproxy/feedproxy_connections.go:154-169 | in every run a check passes if and only if fewer than 3 connections of its source are tracked at its first section |
| RateLimit.QuietSourceIsLetIn | bordercontrol/lib/feedproxy/feedproxy_connections.go:125-169 | in every run, after an eviction whose readings are all over 10 seconds past what is tracked of a source, with none of its checks under way, its next check passes, whatever other sources do in between |
| RateLimit.BoundIsReached | bordercontrol/lib/feedproxy/feedproxy_connections.go:148-179 | for every K some run accepts exactly 2 + K connections at once |
| RateLimit.ConfiguredLimitIffSerialised | bordercontrol/lib/feedproxy/feedproxy_connections.go:148-179 | the configured limit of 3 holds in all runs if and only if checks for one source never overlap |
| Registry.GoodPreserved | bordercontrol/lib/stats/stats.go:172-430 | every operation keeps: each feeder has exactly BEAST and MLAT, cached counts equal the number of connections, status is set iff there is one; and none panics |
| Registry.GoodAlways | bordercontrol/lib/stats/stats.go:172-430 | the same over every sequence of operations |
| Registry.FlatRefinement | bordercontrol/lib/stats/stats.go:161-430 | each operation is insert, remove, add-bytes or nothing on a flat map, and succeeds exactly when the flat map says so |
| Registry.FailureChangesNothing | bordercontrol/lib/stats/stats.go:178-189 | an operation that returns an error leaves the flat map as it was |
| Registry.EvictIsIdentity | bordercontrol/lib/stats/stats.go:502-522 | in every state whole operations produce, an evictor pass changes nothing |
| Registry.DeletedOnlyByLastUnregister | bordercontrol/lib/stats/stats.go:422-427 | a feeder entry disappears if and only if its last connection is unregistered |
| RegistryHeap.Stats.RegisterFeeder | bordercontrol/lib/stats/stats.go:263-288 | on the shared maps, equals the whole operation on the registry's value |
| RegistryHeap.Stats.RegisterConnection | bordercontrol/lib/stats/stats.go:301-349 | on the shared maps, equals the whole operation on the registry's value, errors and the panic on an entry without protocols included |
| RegistryHeap.Stats.UnregisterConnection | bordercontrol/lib/stats/stats.go:352-430 | on the shared maps, equals the whole operation on the registry's value, deletion of the feeder included |
| RegistryHeap.Stats.IncrementByteCounters | bordercontrol/lib/stats/stats.go:172-223 | writing through the aliased innermost map updates exactly one connection, the global totals and the feeder's time |
| RegistryHeap.Stats.InitFeederStats | bordercontrol/lib/stats/stats.go:226-247 | creates an entry with both protocols if there is none, sharing no map with another feeder |
| RegistryHeap.Stats.RegisterFeederMain | bordercontrol/lib/stats/stats.go:273-285 | the second lock section on any registry: a missing entry is written back without protocols |
| RegistryHeap.Stats.RegisterConnectionMain | bordercontrol/lib/stats/stats.go:325-346 | the second lock section on any registry: panics exactly where a map is missing, and otherwise changes one connection and its cached fields |
| RegistryHeap.Stats.UnregisterConnectionMain | bordercontrol/lib/stats/stats.go:394-427 | the second lock section on any registry, missing maps reading as empty |
| RegistryHeap.Stats.CountConnections | bordercontrol/lib/stats/stats.go:162-169 | reads the cached count, with zero for what is missing |
| RegistryRecords.ConnectionIsRecorded | bordercontrol/lib/stats/stats.go:316-346 | on any registry, a registration that does not panic writes exactly this source, destination and time, zero counters, the most recent connection, the count and the feeder's time, and leaves the label, the other protocol and the other feeders alone |
| RegistryRecords.RegistrationIsRecorded | bordercontrol/lib/stats/stats.go:301-349 | after the whole operation the flat map holds the connection with this source, destination, time and zero counters, and every other connection unchanged |
| RegistryRecords.BytesAreRecorded | bordercontrol/lib/stats/stats.go:191-220 | adding bytes changes two counters of one connection, two totals and the feeder's time, the counters by exactly these amounts modulo 2^64, and nothing else |
| RegistryRecords.RemovalIsRecorded | bordercontrol/lib/stats/stats.go:394-427 | a removal takes out that connection alone, counts again, and leaves label, code, most recent connection, the other protocol and the other feeders alone |
| RegistryRecords.FeederIsRecorded | bordercontrol/lib/stats/stats.go:273-285 | on any registry the main section leaves exactly this label, code and time in the feeder's entry, its connections and all other entries unchanged |
| RegistryRecords.RegisteredFeeder | bordercontrol/lib/stats/stats.go:263-288 | the same of the whole operation, in which a new entry has both protocols, empty |
| RegistryRecords.OutcomeIs | bordercontrol/lib/stats/stats.go:172-402 | which error each operation returns on a good registry, and exactly when |
| RegistryRecords.EvictedIff | bordercontrol/lib/stats/stats.go:502-522 | the evictor removes exactly the entries without protocols over 60 seconds old, and changes nothing else |
| RegistryRecords.LabelIsTheLastRegistered | bordercontrol/lib/stats/stats.go:226-288 | over every run, an entry's label and code are those of the last registration of its feeder since the entry was created, and empty without one |
| RegistryRecords.RepliesCarryTheLabel | bordercontrol/lib/stats/stats_nats.go:145-391 | over every run, each reply on a feeder carries exactly that label and code |
| RegistryRecords.NonzeroAlways | bordercontrol/lib/stats/stats.go:316-323 | every run that registers connections at nonzero readings keeps all connection times nonzero |
| RegistryRecords.ConnectedIffMetricsSentInRuns | bordercontrol/lib/stats/stats_nats.go:353-435 | over every such run from start-up, "connected" is answered and metrics are sent exactly when a connection of that feeder and protocol is registered |
| ByteConservation.BytesAreConserved | bordercontrol/lib/stats/stats.go:191-220 | over any sequence of operations each global total equals the sum over live connections plus the sum over retired ones, modulo 2^64 |
| ByteConservation.BytesAreConservedFromStart | bordercontrol/lib/stats/stats.go:404-427 | the same from start-up, so deleting connections and feeder entries loses no byte |
| RegistrySections.SectionsRefineOperations | bordercontrol/lib/stats/stats.go:263-430 | in every interleaving of lock sections in which no feeder is deleted between the two sections of an operation on it, the registry is that of the whole operations in the order of their main sections, plus empty entries for pending feeders, and every operation returns what it returns there |
| RegistrySections.UndisturbedRunsAreAtomic | bordercontrol/lib/stats/stats.go:263-430 | such a run keeps the registry invariant and, with nothing pending, ends exactly where the whole operations end |
| RegistrySections.FinishHarmsIffFeederGone | bordercontrol/lib/stats/stats.go:313-346 | on a good registry, a second section panics or breaks the invariant if and only if it is a registration whose feeder's entry is missing at that section |
| RegistrySections.DeletionBetweenSectionsPanics | bordercontrol/lib/stats/stats.go:313-330 | from every registry where a feeder has one connection there is an interleaving in which registering another one panics |
| DisturbedSections.StepPartly | bordercontrol/lib/stats/stats.go:263-430 | whatever was deleted before, each lock section keeps every entry good or without protocols and acts on the flat map as its whole operation does, and it panics exactly if it registers a connection whose feeder's entry is missing or without protocols |
| DisturbedSections.NoConnectionIsLost | bordercontrol/lib/stats/stats.go:263-430 | in every interleaving, until something panics, the registered connections are those of the operations in the order of their main sections: no deletion of a feeder loses a connection |
| DisturbedSections.NoByteIsLost | bordercontrol/lib/stats/stats.go:191-430 | in such interleavings each global total still equals the live connections plus the retired ones, modulo 2^64 |
| DisturbedSections.HarmlessIffFeedersFound | bordercontrol/lib/stats/stats.go:263-346 | an interleaving never panics and keeps the registry invariant at every point if and only if the second section of every registration finds its feeder's entry |
| RegistryViews.CachedCount | bordercontrol/lib/stats/stats.go:333-339 | the cached count and status of a feeder and protocol agree with the flat map |
| RegistryViews.ConnectionsGauge | bordercontrol/lib/stats/stats_prom.go:48-73 | the gauge is the number of connections of that protocol in the flat map |
| RegistryViews.FeedersActiveGauge | bordercontrol/lib/stats/stats_prom.go:82-111 | the gauge is the number of distinct feeders with a connection of that protocol |
| RegistryViews.EvictorPass | bordercontrol/lib/stats/stats.go:502-522 | collecting and then deleting removes exactly the entries without protocols over 60 seconds old |
| RegistryViews.FindNewest | bordercontrol/lib/stats/stats_nats.go:362-371 | in any iteration order, finds a connection with the latest nonzero time |
| RegistryViews.AllFeedersMetrics | bordercontrol/lib/stats/stats_nats.go:145-190 | the reply holds for each feeder what the single-feeder handler may answer, and nothing for the others |
| RegistryViews.FeederMetrics | bordercontrol/lib/stats/stats_nats.go:232-296 | the reply holds the newest connection of each protocol, and is sent iff there is one |
| RegistryViews.FeederProtocolMetrics | bordercontrol/lib/stats/stats_nats.go:346-391 | the reply holds the newest connection of one protocol, and is sent iff there is one |
| RegistryViews.FeederConnected | bordercontrol/lib/stats/stats_nats.go:408-436 | answers iff the cached status is set |
| RegistryViews.NewestIsUniqueIff | bordercontrol/lib/stats/stats_nats.go:158-166 | the result is the same for every iteration order if and only if connections tied at the latest nonzero time carry the same counters |
| RegistryViews.RepliesAgreeIff | bordercontrol/lib/stats/stats_nats.go:145-371 | the all-feeders, single-feeder and per-protocol replies on a feeder agree for all iteration orders if and only if such ties agree for both protocols |
| RegistryViews.ConnectedIffMetricsSent | bordercontrol/lib/stats/stats_nats.go:353-435 | "connected" is answered exactly when per-protocol metrics are sent, exactly when the flat map holds a connection (over runs: RegistryRecords.ConnectedIffMetricsSentInRuns) |
| SessionNumbers.NumbersDistinct | bordercontrol/lib/feedproxy/feedproxy_connections.go:91-123 | while the counter has advanced at most M-1 in all, no two sessions have the same number, tracked or not |
| SessionNumbers.RegistryMirrorsSessions | bordercontrol/lib/feedproxy/feedproxy_connections.go:636-711 | in every state reached by whole registry operations the registered connections are exactly those of the running sessions (at every lock section: SessionSections.InvariantsAtEverySection) |
| SessionNumbers.RegisterNeverOverwrites | bordercontrol/lib/feedproxy/feedproxy_connections.go:636-650 | registering a session never overwrites a registered connection |
| SessionNumbers.CountersAlwaysFound | bordercontrol/lib/feedproxy/feedproxy_connections.go:428-436 | a running session's byte counters are always found |
| SessionNumbers.CountIsLive | bordercontrol/lib/feedproxy/feedproxy_connections.go:539-552 | the count consulted for admission is the number of running sessions of the feeder and protocol |
| SessionNumbers.ConnectionLimit | bordercontrol/lib/feedproxy/feedproxy_connections.go:539-650 | with at most K sessions between check and registration, running plus pending sessions never exceed the limit by more than K - 1 |
| SessionLimit.LimitIsReached | bordercontrol/lib/feedproxy/feedproxy_connections.go:539-650 | for every K some run registers K sessions of one feeder and protocol at once |
| SessionLimit.ConfiguredLimitIffSerialised | bordercontrol/lib/feedproxy/feedproxy_connections.go:539-650 | the configured limit of 1 holds in all runs if and only if admissions never overlap |
| Admission.BothSidesRun | bordercontrol/lib/feedproxy/feedproxy_connections.go:125-179 | with the check in front of every session, the limiter's part of a run is a run of the limiter and the sessions' part a run of the sessions, so all that is proved of either holds of both together |
| Admission.EverySessionWasLetPass | bordercontrol/lib/feedproxy/feedproxy_connections.go:504-530 | in every run a session past its look-up has its own accepted entry of its own source address, no younger than the look-up |
| Admission.SessionsPerSource | bordercontrol/lib/feedproxy/feedproxy_connections.go:148-179 | with at most L overlapping checks, at most (n + 1)(2 + L) sessions of one source are looked up in any closed 10-second window, among those that took at most n windows from their check to the look-up |
| SessionStreams.StreamsAreFaithful | bordercontrol/lib/feedproxy/feedproxy_connections.go:389-444 | at every step, in both directions, what was delivered is a prefix of the first chunk and the chunks read, in order, short by at most one chunk being written or lost to a failed write |
| SessionStreams.BytesAccountedFor | bordercontrol/lib/feedproxy/feedproxy_connections.go:389-436 | at every step of a running session, delivered bytes = first chunk + registry counter + unreported count, modulo 2^64 and exactly below 2^64; the registry never over-reports |
| SessionStreams.ExitUnderReports | bordercontrol/lib/feedproxy/feedproxy_connections.go:629-711 | on exit the registry under-reports by exactly the first chunk and the residual counts, and is exact iff both are empty |
| SessionTotals.TotalsAreDeliveries | bordercontrol/lib/stats/stats.go:207-215 | in every reachable state each global byte total is the sum, over all sessions there ever were, of the bytes delivered less first chunks and unreported counts, modulo 2^64 |
| SessionRecords.RunningIsRecorded | bordercontrol/lib/feedproxy/feedproxy_connections.go:636-650 | in every run the registry holds for each running session the endpoints and the time with which that session registered |
| SessionRecords.LabelIsTheLastAuthenticated | bordercontrol/lib/feedproxy/feedproxy_connections.go:287-300 | in every run an entry's label and code are those of the last authentication of its feeder since the entry was created, and empty without one |
| SessionRecords.LastSessionCanLoseTheLabel | bordercontrol/lib/feedproxy/feedproxy_connections.go:645-707 | from every reachable state where one session of a feeder runs and another is about to be registered, some continuation has the other running with an empty label and code |
| SessionRecords.BeastAndMlatCanLoseTheLabel | bordercontrol/lib/feedproxy/feedproxy_connections.go:645-707 | some run from start-up authenticates two sessions with any given label and ends with one running without it |
| SessionSections.SectionedRunsAreRuns | bordercontrol/lib/stats/stats.go:263-430 | a run of the sessions with the lock sections of each registry operation apart, in which no feeder is deleted between two sections of an action on it, is a run with whole operations, up to empty entries for pending feeders; no move of it panics |
| SessionSections.InvariantsAtEverySection | bordercontrol/lib/feedproxy/feedproxy_connections.go:539-711 | in such runs, at every lock section: the registry mirrors the sessions, each is registered and unregistered once, bytes balance, streams are faithful and the connection limit is kept |
| SessionSections.PanicsIffFeederMissing | bordercontrol/lib/stats/stats.go:313-330 | in any run, a second section panics if and only if it registers a connection and finds its feeder's entry missing, or there without its protocol |
| DisturbedSessions.RunsUntilPanicAreRuns | bordercontrol/lib/stats/stats.go:263-430 | every run of the lock sections in which nothing panics, feeders deleted in between or not, is a run with whole operations, up to registry entries that hold no connection |
| DisturbedSessions.InvariantsUntilPanic | bordercontrol/lib/feedproxy/feedproxy_connections.go:539-711 | so at every lock section of every run, until something panics: the registered connections are those of the running sessions, each session is registered and unregistered once, bytes balance, streams are faithful and the connection limit is kept |
| DisturbedSessions.HarmlessIffFeedersFound | bordercontrol/lib/stats/stats.go:263-346 | a run of the sessions never panics and keeps the registry invariant at every lock section if and only if the second section of every registration finds its feeder's entry |
| SectionedPanic.RunsAreSectionedRuns | bordercontrol/lib/stats/stats.go:263-430 | conversely every run with whole operations is an undisturbed run of lock sections |
| SectionedPanic.LastSessionCanPanic | bordercontrol/lib/feedproxy/feedproxy_connections.go:645-707 | from every reachable state where one session of a feeder runs and another is about to be registered, some continuation panics |
| SectionedPanic.BeastAndMlatCanPanic | bordercontrol/lib/feedproxy/feedproxy_connections.go:645-707 | some run from start-up, with one feeder connecting for BEAST and for MLAT, reaches that panic |
| SessionLifecycle.RegisteredAndUnregisteredOnce | bordercontrol/lib/feedproxy/feedproxy_connections.go:645-711 | in every state reached by whole registry operations a session was registered exactly if it runs or has finished, and unregistered exactly once if it has finished, only after both loops ended (at every lock section: SessionSections.InvariantsAtEverySection) |
| SessionLifecycle.NoIterationAfterCancel | bordercontrol/lib/feedproxy/feedproxy_connections.go:392-399 | once cancelled, a session stays cancelled, no loop starts another iteration, and the loops take at most the steps left in the iterations under way |
| SessionLifecycle.LoopNeverStuck | bordercontrol/lib/feedproxy/feedproxy_connections.go:392-444 | a loop that has not ended can take its next step at once or at its deadline, with no help from either peer |
| SessionLifecycle.ShutdownCompletes | bordercontrol/lib/feedproxy/feedproxy_connections.go:698-711 | from every reachable state a cancelled running session can finish in at most twenty-one steps of its own, with no help from its peers, waiting only for deadlines |
| Revocation.ForwardedSoonAfterCheck | bordercontrol/lib/feedproxy/feedproxy_connections.go:331-426 | a forwarding loop writes a chunk no later than the validity interval and the read and write deadlines (1 + 2 seconds) after the last recorded authentication, plus the delays between comparing, starting the iteration, reading and writing; from the second iteration on the comparison is the one that ended the iteration before |
| Revocation.RevocationBound | bordercontrol/lib/feedproxy/feedproxy_connections.go:331-443 | the forwarding loops write nothing for a key later than the validity interval and three seconds after it left the valid set, plus the delay of recording a look-up, what passed between the comparison and the iteration's start (for a first iteration: since the admission), and the loop's own delays |
| Revocation.FirstChunkWasLookedUp | bordercontrol/lib/feedproxy/feedproxy_connections.go:505-634 | the first chunk is written only for a key that was valid when the session's look-up found it, before the admission |
| RevocationReached.RevocationBoundIsReached | bordercontrol/lib/feedproxy/feedproxy_connections.go:331-443 | for every validity interval and every choice of those delays some run writes a chunk exactly at that bound |
| RevocationReached.FirstChunkIsUnbounded | bordercontrol/lib/feedproxy/feedproxy_connections.go:554-634 | the first chunk has no such bound: for every later time and every chunk some run writes it then for a key that left the valid set at start-up |
| Revocation.LastAuthNeverGoesBack | bordercontrol/lib/feedproxy/feedproxy_connections.go:336-350 | the authentication time shared by both loops is monotone in every run |
| ProtocolProxy.Config.FeederStillValid | bordercontrol/lib/feedproxy/feedproxy_connections.go:331-352 | fails iff the interval has passed and the key is not listed; moves the shared time stamp iff the interval has passed and it is |
| ProtocolProxy.Config.UpdateStats | bordercontrol/lib/feedproxy/feedproxy_connections.go:428-436 | reports at most once a second, to the counter of its direction, and restarts the count only after a successful report |
| ProtocolProxy.Config.Forward | bordercontrol/lib/feedproxy/feedproxy_connections.go:400-426 | delivers exactly the bytes read, never older content of the buffer, keeps both deadlines and names the error of each failing call |
| ProtocolProxy.Config.Iterate | bordercontrol/lib/feedproxy/feedproxy_connections.go:392-444 | one pass through the loop extends a run of the session machine, and ends exactly as the turn, the timer, the last authentication and the registry say |
| ProtocolProxy.GoesOnIff | bordercontrol/lib/feedproxy/feedproxy_connections.go:392-444 | the loop goes on if and only if it is not cancelled, nothing failed but a read at its deadline, a report that is due finds its counter, and the key is listed if the interval has passed; each error is returned exactly for its own cause |
| ProtocolProxy.SilenceIsNoReason | bordercontrol/lib/feedproxy/feedproxy_connections.go:405-411 | a registered and listed feeder that sends nothing keeps its connection for any number of iterations |
| ProtocolProxy.StopIsDetermined | bordercontrol/lib/feedproxy/feedproxy_connections.go:392-444 | where the loop stops, and why, is determined by the environment's answers, and it never stops if and only if no iteration has a cause |
| ProtocolProxy.Config.Run | bordercontrol/lib/feedproxy/feedproxy_connections.go:354-445 | the whole loop, on the real registry and with every step at a clock reading, extends every run of the session machine that led to the creation of its goroutine, from any later reading at which it starts, delivers the chunks in order, and stops at the first iteration that has a cause, for that cause, or uses all answers if none has |
| ProtocolProxy.Config.ReachableAccounts | bordercontrol/lib/feedproxy/feedproxy_connections.go:389-436 | where the loop extended a run from start-up, the registry's counter and the byte count it returns account for every byte delivered after the first chunk |
| FeederDb.ValidFeeders.IsValidApiKey | bordercontrol/lib/feedproxy/feedproxy_metadata.go:38-47 | true iff the key is listed |
| FeederDb.ValidFeeders.GetFeederInfo | bordercontrol/lib/feedproxy/feedproxy_metadata.go:51-72 | fills in the client from the first entry with its key, or fails and leaves it alone iff the key is not listed |
| FeederDb.ListedIffFirst | bordercontrol/lib/feedproxy/feedproxy_metadata.go:38-72 | the two searches agree: a key is valid iff it has a first entry |
| Rendezvous.OnlyTheOwnerWaits | bordercontrol/lib/containers/create.go:59-76 | in every reachable state at most one client awaits a response, and it is the one whose request the worker holds |
| Rendezvous.ResponsesReachTheirAskers | bordercontrol/lib/containers/containers.go:215-228 | every response ever delivered answers the receiver's own request, and a successful one names the receiver's own container |
| Rendezvous.ClientsGetWhatWasCompleted | bordercontrol/lib/containers/containers.go:215-228 | in every run an answered client has exactly the response the worker completed between accepting its request and delivering to it, and no other was completed in between |
| Rendezvous.ClientsEndAsTheyLeft | bordercontrol/lib/containers/create.go:59-76 | in every run a client is answered exactly if a response was delivered to it, and fails with the error of the way it gave up |
| Rendezvous.CancelledAndExited | bordercontrol/lib/containers/containers.go:215-223 | in every run the worker is gone exactly if it left by the cancelled context, and the context is cancelled exactly if somebody did so |
| StartRequests.BothSidesRun | bordercontrol/lib/containers/containers.go:215-228 | with the worker's start as the completion, clients and channels run as they do on their own, and so do the containers |
| StartRequests.AnsweredWithItsStart | bordercontrol/lib/containers/create.go:59-247 | in every run of clients, worker, checker and containers, a client's response is what starting its own container gave, and without an error the feeder's container ran then |
| Rendezvous.WorkerReturns | bordercontrol/lib/containers/containers.go:223-227 | while the client waits, the worker's own at most two steps answer it, with the response completed for it, and bring the worker back |
| Rendezvous.StuckForEver | bordercontrol/lib/containers/containers.go:215-228 | once a request is abandoned, no later step of any run accepts a request, delivers a response or lets the worker exit |
| Rendezvous.RecoversIffNotAbandoned | bordercontrol/lib/containers/containers.go:215-228 | a busy worker can ever serve or exit again if and only if the request's client is still waiting |
| Rendezvous.OneTimeoutSuffices | bordercontrol/lib/containers/create.go:68-76 | a single response timeout stops the worker for good |
| FeedInContainers.Docker.CheckFeederContainers | bordercontrol/lib/containers/check.go:32-101 | the loop with its early break is the checker's function of the containers and Docker's answers |
| FeedInContainers.Docker.StartFeederContainers | bordercontrol/lib/containers/create.go:121-247 | the find-or-create is the start function of the containers and Docker's answers, error for error |
| RollingReplacement.CheckPass | bordercontrol/lib/containers/check.go:66-100 | a pass removes exactly one container, always an out-of-date one, and sleeps 30 seconds iff it can remove one; otherwise it changes nothing and sleeps 300, or 1 after an error |
| RollingReplacement.StepCount | bordercontrol/lib/containers/check.go:66-100 | no step raises the number of out-of-date containers, and an unhindered pass lowers it by one |
| RollingReplacement.Converges | bordercontrol/lib/containers/check.go:66-100 | in every run between rebuilds n out-of-date containers are gone after at most n unhindered passes |
| CheckerCalls.ConvergesCallByCall | bordercontrol/lib/containers/check.go:59-100 | the same with starts, kicks and exits between the listing and each removal of a pass |
| CheckerCalls.TriesRemoveOutOfDate | bordercontrol/lib/containers/check.go:66-88 | each try of a pass removes at most one container, one that was listed as running and is out of date |
| CheckerCalls.CurrentOnesStay | bordercontrol/lib/containers/check.go:59-100 | in every run, call by call, whatever is refused, a container of the current image stays until its feeder is kicked or it ends by itself |
| RollingReplacement.AllReplaced | bordercontrol/lib/containers/check.go:90-98 | then every running container is current and the next pass sleeps 300 seconds |
| RollingReplacement.PassesNeeded | bordercontrol/lib/containers/check.go:66-100 | passes alone need exactly n rounds |
| RollingReplacement.RunChecker | bordercontrol/lib/containers/containers.go:231-270 | the checker's loop sleeps 30 seconds after exactly the first n unhindered passes and 300 after all later ones |
| RollingReplacement.StartSucceedsIff | bordercontrol/lib/containers/create.go:145-247 | exactly when a start succeeds, and that the feeder's container then runs, with its id reported iff it was created |
| RollingReplacement.StartFailsWith | bordercontrol/lib/containers/create.go:121-247 | exactly when a start fails with which error, what it reports then, and that a failure before creation changes nothing |
| RollingReplacement.StartTwice | bordercontrol/lib/containers/create.go:148-172 | starting a started container changes nothing and reports an empty id |
| RollingReplacement.RunsAfterStartIff | bordercontrol/lib/containers/create.go:145-247 | exactly when the feeder's container runs after a start, whatever the start reported |
| RollingReplacement.FailureReportedThoughRunningIff | bordercontrol/lib/containers/create.go:145-247 | exactly when a start reports failure although the container runs: it ran already and Docker was not reached or the listing failed, or there was none and it was created and started after a failed listing |
| RollingReplacement.FailureReportedThoughRunning | bordercontrol/lib/containers/create.go:145-247 | which error is reported in each of these cases, that a container which ran already is left alone, and that a created one is reported with its id |
| RollingReplacement.ListErrorHidesSuccess | bordercontrol/lib/containers/create.go:158-161 | an input of the last case: the listing fails, the container is created and started, and the listing's error is reported |
| RollingReplacement.LeftoverBlocksStarts | bordercontrol/lib/containers/create.go:152-230 | a container that exists but does not run makes every later start for its feeder fail in every run without a kick |
| RollingReplacement.RefusedStartLeaves | bordercontrol/lib/containers/create.go:214-243 | what a start refused after creation leaves, depending on whether Docker's automatic removal got to it, and that a kick clears it |
| RollingReplacement.KickRemoves | bordercontrol/lib/containers/kick.go:45-93 | a kick removes the feeder's container, running or not, and no other |
| RollingReplacement.RefusedStartBlocksIffLeftBehind | bordercontrol/lib/containers/create.go:214-243 | after such a start all later starts for the feeder fail in every run without a kick if and only if the container was left behind |

## Left out

- TLS, SNI, certificate reload, DNS look-ups, keepalive: calls into libraries; their failures are the model's free choices.
- The ATC client, NATS transport and message marshalling, the HTTP page and API, Prometheus vectors of floats: only the selection logic and the integer gauges are modelled.
- Docker itself: a list of containers with unique names, of which one that does not run is not listed as running; its name filter is taken as exact, and the order of its list is arbitrary. That a feeder has at most one container is a rule of this model of Docker, not a result about the program.
- Starting a container: its three Docker calls are one step (the calls of a checker's pass are separate in `CheckerCalls`).
- Image builds and rebuild requests: the replacement theorems start from any state a rebuild may have left.
- Closing the channels in `Stop`, start-up order, flags and signals: the rendezvous ends at cancellation.
- `KickFeeder`'s error cases and the second try of `GetFeeders`: each is a single call whose outcome the model already chooses freely (a kick removes one container or nothing, a poll succeeds or fails).
- Session start-up: the second search of the feeder list during authentication, and starting and dialling the feed-in container, only decide whether the session goes on.
- Sessions: the machines are on values, so they do not show updates in place; `ProtocolProxy` and `RegistryHeap` do, each without interference.
- Scheduling: no bound is put on how long a goroutine waits to run; the revocation bounds count that time as named delays, and `Admission.SessionsPerSource` counts sessions whose handshake and scheduling together took at most n windows (the handshake itself is given one).
- Partial writes: a failed write delivers nothing in the model, as the code counts nothing for it.
- `readFromClient`: the code goes on after a first read that fails for another reason than its deadline; in the model such a session has an empty first chunk.
- Source addresses: IPv6 addresses do not parse in the code and so share one bucket, here the value `NoIP`.
- ProtocolProxy.Config.Run: stated for one loop alone with the environment's answers as a finite list; the interplay of two loops is in `Sessions`.
- Tracker.IncomingConnectionTracker.Append: the capacity a full slice grows to is the model's own choice.
