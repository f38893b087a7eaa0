# Montray, verified

Montray watches services on a server and shows their incidents in a desktop client. On
the server, collectors turn observations into items, a tracker turns items into
incidents with deltas, the core publishes each change on a board and hands it to
messengers, and a webserver streams it to its subscribers. On the client, supervisors
and sockets feed one reducer, which owns the state that the window shows and the snoozes
that outlive a restart.

This project models these parts in Dafny and proves what they promise over whole runs.
`dafny verify dfyconfig.toml` checks all of it.

Goroutines, tasks and timers are state machines: every atomic step is an action, a run
is any sequence of enabled actions, and the theorems hold in every state of every run.
Objects that change in place are classes whose methods are proved against functions or
against the steps of a machine. Clocks, file operations, sockets and processes are
parameters, actions or arbitrary choices, so every order and every failure is covered.

| file | what it models |
|---|---|
| `Items`, `Sequences` | item severities, the order of keys, substring search |
| `TrackerSpec`, `Tracker` | the item states tracker: what a feed means, and the tracker on its shared objects |
| `SystemdRules`, `SystemdRecovery`, `SystemdRuns` | the systemd collector: rules, recovery windows, and its runs with timers |
| `SystemdCollector`, `SystemdAgreement` | the collector's loop on its four maps, and collector and tracker together |
| `Publication`, `Webserver` | core, board, messengers and subscribers as one machine; the webserver's registry and fan-out |
| `Domain`, `Reducer`, `History` | the client's events and what they mean, the reducer object, and incident lists as a function of the history |
| `Snapshots`, `Namespaces` | the view for the window, and what server ids guarantee about keys |
| `Supervisor` | the tunnel supervisor and the connection loop as generators of events |
| `Persistence`, `Runtime` | the state file and the event loop with failing writes |
| `Gate`, `Streams` | the readiness gate, the probe matcher and the bounded writers |
| `Migration`, `Shell` | the configuration migration with rollback, and shell quoting |
| `EndToEnd` | tracker, publication and reducer joined: from an observation on the server to the client's list |

Three behaviours that a reader might not expect, kept as the code has them:

* A tail buffer marks output as truncated not only after a loss. A single chunk of
  exactly 1024 bytes is marked although nothing was lost. `Streams.RetainTail` states
  when the mark is set, in both directions, and `Streams.MarkedButComplete` exhibits the
  case.
* A notification for a known server always reports a change, even where its total equals
  the list already held. `Domain.ChangedIsExact` states this beside the exact condition
  for the ten other events, `Domain.NotificationChangesIff` says when such a report is
  true, and `Domain.ReportedWithoutChange` gives one that is not.
* A migration succeeds without one of its files where the destination already has a
  directory in that file's place. `Migration.Destination.MigrateSalmonConfig` states for
  every source file exactly when it is in the destination afterwards, and
  `Migration.FileMayStayAway` exhibits one that is not.

## Model

| member | source | states |
|---|---|---|
| Items.LessTotal | statestracker/item_states_tracker.go:110-112 | the key order that sorts published lists is total, so a sorted list is determined by its contents |
| TrackerSpec.EachIsFeed | statestracker/item_states_tracker.go:36-74 | whatever order the map of new items is iterated in, state and deltas after the loop are those of the whole feed at once |
| TrackerSpec.DeltaReplay | statestracker/item_states_tracker.go:36-95 | Added, Removed and Updated replay the previous Total into the new one |
| TrackerSpec.DeltasDisjoint | statestracker/item_states_tracker.go:46-68 | no key is announced twice; only unknown incidents begin, only known ones end or are amended, and an ended one is announced as it was |
| TrackerSpec.SilentIffUnchanged | statestracker/item_states_tracker.go:76-79 | there is no notification exactly when Total did not change |
| TrackerSpec.TrackerMatchesHistory | statestracker/item_states_tracker.go:31-74 | after any sequence of feeds a key is not OK exactly if its last observation was, with that observation's item and the start time of its last transition from OK |
| TrackerSpec.EveryKeyCounted | statestracker/item_states_tracker.go:86-94 | `NumItemsOK` plus the length of Total counts every key ever observed |
| TrackerSpec.ListingLists | statestracker/item_states_tracker.go:99-115 | the published listing holds exactly the map's records, strictly sorted by key |
| TrackerSpec.ListingUnique | statestracker/item_states_tracker.go:99-115 | a map has one sorted listing only, so iteration order cannot show |
| Tracker.SortByKey | statestracker/item_states_tracker.go:110-112 | the sort permutes the objects into strictly ascending keys |
| Tracker.ItemsMapToSortedSlice | statestracker/item_states_tracker.go:99-115 | the slice lists the map's values in key order in objects that are all new |
| Tracker.ItemStatesTracker.ObserveOK | statestracker/item_states_tracker.go:37-51 | an OK item is recorded once, and its incident leaves the tracker and is handed over |
| Tracker.ItemStatesTracker.Open | statestracker/item_states_tracker.go:53-62 | a new incident gets a new object with the one clock reading taken for it |
| Tracker.ItemStatesTracker.Refresh | statestracker/item_states_tracker.go:63-68 | a known incident is amended in place exactly if the item differs, keeping its start time |
| Tracker.ItemStatesTracker.ObserveAll | statestracker/item_states_tracker.go:32-74 | the loop over the new items leaves the tracker at the feed's state and collects exactly its deltas; exactly the openings read the clock, in order |
| Tracker.ItemStatesTracker.FeedItems | statestracker/item_states_tracker.go:31-97 | the notification reports the new state and the deltas of this call in objects that the tracker does not share, and no object published before is changed; the clock is read for each opening and then for the notification's time |
| Tracker.RunFeeds | statestracker/item_states_tracker.go:31-115 | over a whole run, every notification still reports at the end what its own call saw, although the tracker mutated its items since; the calls are chained by a chronicle of their observations |
| Tracker.ChronicleIsReplay | statestracker/item_states_tracker.go:31-74 | a run on the objects ends in the state of the observation history, so the theorems about histories hold of it |
| Tracker.RunFromStart | statestracker/item_states_tracker.go:22-97 | after any run of a new tracker its objects are exactly the keys whose last observation was not OK, each with that observation and the start time of its opening; both maps together count every key ever observed; and its notifications still report exactly the calls that changed an incident |
| SystemdRules.JudgeIsFirstMatch | backend/collectors/systemd/systemd_collector.go:412-456 | severity and policy are those of the first condition that matches, and an error without a policy if none does |
| SystemdRules.ItemIsFirstRule | backend/collectors/systemd/systemd_collector.go:412-456 | a unit yields an item exactly if some rule applies, judged by the first such rule |
| SystemdRecovery.ObservePublishesSeverity | backend/collectors/systemd/systemd_collector.go:292-341 | what is published for a key is its severity after the observation; silence means that the severity stayed |
| SystemdRecovery.ObserveAgrees | backend/collectors/systemd/systemd_collector.go:292-383 | each branch keeps the key's entries in the four maps in agreement with the log of observations |
| SystemdRecovery.NoEarlyRecovery | backend/collectors/systemd/systemd_collector.go:306-316 | an observation ends an incident at once only if the condition that opened it had no policy |
| SystemdRecovery.OpenSinceUnique | backend/collectors/systemd/systemd_collector.go:164-171 | the log determines since when an incident is open |
| SystemdRecovery.ResolveJustified | backend/collectors/systemd/systemd_collector.go:208-225 | a resolution after the full window is justified by the log and leaves the key clear |
| SystemdRuns.StepKeeps | backend/collectors/systemd/systemd_collector.go:200-395 | every step of loop, timers and timer messages keeps maps, timers and log in agreement |
| SystemdRuns.DelayedRecoveryIsSafe | backend/collectors/systemd/systemd_collector.go:208-225 | in every run, an OK item that ends an incident opened under a policy comes from the timer branch, after an uninterrupted window of that policy that lasted at least `After` |
| SystemdRuns.ResolvedWindowWasUninterrupted | backend/collectors/systemd/systemd_collector.go:343-383 | every observation between the arming of a timer and the resolution it publishes was OK and in the opening policy's states, so cancelled and superseded timers never publish |
| SystemdRuns.PendingExactly | backend/collectors/systemd/systemd_collector.go:318-383 | a resolution is pending exactly for open incidents whose last deferred state counts towards recovery, and that state is the last one observed |
| SystemdRuns.NoLostRecovery | backend/collectors/systemd/systemd_collector.go:369-383 | until teardown every pending resolution still has its timer, its callback or its message on the way |
| SystemdAgreement.TrackerShowsIncidents | backend/collectors/systemd/systemd_collector.go:167-198 | once all sent updates are consumed, the tracker lists this collector's keys with exactly the severities in `incidentStates` |
| SystemdCollector.Collector.CancelPendingResolution | backend/collectors/systemd/systemd_collector.go:193-198 | the pending entry and its timer go, and nothing else |
| SystemdCollector.Collector.HandleUnhealthy | backend/collectors/systemd/systemd_collector.go:292-304 | the incident keeps the policy it was opened with and takes the new severity; any window ends |
| SystemdCollector.Collector.HandleHealthy | backend/collectors/systemd/systemd_collector.go:306-316 | the key is clear in all four maps |
| SystemdCollector.Collector.HandleDeferred | backend/collectors/systemd/systemd_collector.go:318-383 | under a policy, the new state is published at the old severity once, and a window starts, goes on or is cancelled |
| SystemdCollector.Collector.HandleReading | backend/collectors/systemd/systemd_collector.go:286-383 | one unit takes the machine's step on the collector's own maps |
| SystemdCollector.Collector.HandleUpdate | backend/collectors/systemd/systemd_collector.go:249-384 | a provider update, in any iteration order and with named units added on the first one, is the machine's steps over its units |
| SystemdCollector.Collector.HandleReady | backend/collectors/systemd/systemd_collector.go:208-225 | the timer branch publishes only for the current generation and clears the key |
| SystemdCollector.EachIsSteps | backend/collectors/systemd/systemd_collector.go:277-384 | handling an update at once equals the machine's steps one by one |
| Publication.StepKeeps | backend/core/core.go:125-217 | every step of core, messengers, fan-out and connections, with writes failing at any point, keeps the protocol's invariant |
| Publication.NothingMissed | backend/core/core.go:161-171 | in every interleaving before shutdown, a fanned-out notification is in a subscriber's queue history, or about to be offered, or no newer than the subscriber's snapshot |
| Publication.DrainedClientShowsBoard | backend/messengers/webserver/websockets.go:108-153 | with the core waiting and the queues drained, the last total sent to a subscribed client is the total on the board |
| Publication.SentAreConsecutive | backend/messengers/webserver/websockets.go:114-145 | after the snapshot a connection sends consecutive versions from its registration on; the redundant ones are exactly those up to the snapshot |
| Publication.OlderTotalMayFollow | backend/core/core.go:161-168 | the redundancy is real: a run in which an older total follows the snapshot |
| Publication.StreamsHaveNoGaps | backend/messengers/webserver/webserver.go:147-168 | at every moment, also during shutdown, a queue received a contiguous run of what was fanned out, and all of it while subscribed |
| Publication.RegistryIsConsistent | backend/messengers/webserver/webserver.go:209-266 | both registries hold the same ids, the next id is unused, and an admitted connection is cancelled exactly once, as soon as its removal is complete |
| Publication.ClosedForGood | backend/messengers/webserver/webserver.go:268-281 | a webserver that closed has no subscription and never gets another one |
| Publication.HandedKept | backend/messengers/webserver/webserver.go:147-168 | a webserver neither loses nor reorders what the core handed to it |
| Webserver.SendNotificationToSubscriber | backend/messengers/webserver/webserver.go:175-184 | the send succeeds exactly if the queue has room, and never blocks or drops anything else |
| Webserver.Webserver.Subscribe | backend/messengers/webserver/webserver.go:209-233 | on the objects, admission is the machine's step: refused exactly when closing, otherwise the next id with an empty channel of its own |
| Webserver.Webserver.Unsubscribe | backend/messengers/webserver/webserver.go:242-266 | on the objects, a call is the machine's removal and, only if this call removed, the cancellation |
| Webserver.Webserver.FanOut | backend/messengers/webserver/webserver.go:148-168 | on the objects, a notification's fan-out is the machine's steps from snapshot to end, over every subscription of the snapshot in some order |
| Webserver.Webserver.Offer | backend/messengers/webserver/webserver.go:155-167 | on the objects, the loop body is the machine's skip, offer or drop, also for a subscription that was cancelled or removed since the snapshot |
| Webserver.FanOutOutcome | backend/messengers/webserver/webserver.go:155-167 | whatever the order, each subscriber with room gets the notification at its queue's end; each without is removed and cancelled once, its queue untouched |
| Webserver.Webserver.CloseWebsocketConnections | backend/messengers/webserver/webserver.go:268-281 | on the objects, shutdown is the machine's steps from closing admission to nothing left to close |
| Domain.ChangedIsExact | cmd/montray-ui/src/domain/reducer.rs:28-352 | an event reports a change exactly if the state differs, notifications for known servers always; no report means the state is as before |
| Domain.NotificationChangesIff | cmd/montray-ui/src/domain/reducer.rs:70-80 | a notification for a known server leaves the state as it was exactly if the list already held is its prefixed total |
| Domain.ReportedWithoutChange | cmd/montray-ui/src/domain/reducer.rs:70-80 | a reported change that is none |
| Reducer.MarkStale | cmd/montray-ui/src/domain/reducer.rs:207-215 | every incident is stale afterwards, and a change is reported exactly if one was fresh |
| Reducer.NotificationEffects | cmd/montray-ui/src/domain/reducer.rs:51-69 | the effects are the announcements of exactly the opened and then the closed incidents that are not snoozed, each list in its order |
| Reducer.Reducer.Connect | cmd/montray-ui/src/domain/reducer.rs:161-191 | the object takes the specified step and reports the specified outcome |
| Reducer.Reducer.Disconnect | cmd/montray-ui/src/domain/reducer.rs:195-255 | likewise, including the empty error that removes the connection's card |
| Reducer.Reducer.FailTunnel | cmd/montray-ui/src/domain/reducer.rs:279-340 | likewise, including the removal of the derivative connection failure |
| Reducer.Reducer.Forget | cmd/montray-ui/src/domain/reducer.rs:120-133 | likewise, over all servers' lists in any order |
| Reducer.Reducer.Reduce | cmd/montray-ui/src/domain/reducer.rs:28-156 | for each of the eleven events the object's state and transition are the specified ones |
| History.ListIsHistory | cmd/montray-ui/src/domain/reducer.rs:43-81 | for every history a server's list is its last notification's total, prefixed, each item stale exactly if it came so or the server dropped out since, without the items dismissed while stale |
| History.NothingFreshens | cmd/montray-ui/src/domain/reducer.rs:161-352 | no event but a notification adds an incident or makes one fresh |
| Snapshots.OverallIsWorst | cmd/montray-ui/src/domain/model.rs:198-225 | the overall state is the highest-ranked contribution of any incident, and `Ok` without one |
| Snapshots.Partition | cmd/montray-ui/src/domain/model.rs:152-165 | active and snoozed incidents together are the displayed ones, each as often as displayed |
| Snapshots.Classified | cmd/montray-ui/src/domain/model.rs:154-165 | an incident is snoozed exactly if its key's deadline is in the future, and is shown with that deadline |
| Snapshots.Snapshot | cmd/montray-ui/src/domain/model.rs:144-192 | the loops compute the projection: internal failures by key, servers in configuration order, unknown while a server is uninitialized and nothing alerts |
| Namespaces.Validate | cmd/montray-ui/src/config.rs:120-131 | the id checks accept exactly non-empty lists of distinct, valid, unreserved ids |
| Namespaces.KeysNameTheirSource | cmd/montray-ui/src/domain/reducer.rs:365-369 | in every reachable state the text of a key before its first dot is the server whose list holds it, or `internal` for the client's own |
| Namespaces.SourcesShareNoKey | cmd/montray-ui/src/config.rs:188-205 | two servers never share a key, and none shares one with the client |
| Namespaces.ForgetTouchesItsServer | cmd/montray-ui/src/domain/reducer.rs:120-133 | dismissing a key changes the list of the server it names at most, and no internal incident |
| Namespaces.InternalErrorIsOurs | cmd/montray-ui/src/domain/model.rs:198-215 | `InternalError` is contributed by exactly the failures that the client generated |
| Namespaces.DisplayedHolds | cmd/montray-ui/src/domain/model.rs:145-150 | the display holds every incident of the state and nothing else |
| Namespaces.AlertingIsInternal | cmd/montray-ui/src/domain/model.rs:166-175 | the window is in the internal-error state exactly while the client has an unsnoozed failure of its own and no server reports an unsnoozed problem |
| Supervisor.EmissionsAreWords | cmd/montray-ui/src/network/tunnel.rs:117-292 | every run of supervisor and connection loop emits a word of a three-state automaton |
| Supervisor.WordsAreEmitted | cmd/montray-ui/src/network/tunnel.rs:117-292 | every word of that automaton is emitted by some run |
| Supervisor.ReducerFollows | cmd/montray-ui/src/domain/reducer.rs:161-340 | along a word, the reducer's cards and status follow the automaton's state |
| Supervisor.RootCauseIsExclusive | cmd/montray-ui/src/network/tunnel.rs:178-278 | however much of a supervisor's emissions has arrived and whatever else happened, a server never shows both failures, and none while connected |
| Persistence.ReplaceSnoozes | cmd/montray-ui/src/persistence.rs:100-120 | it fails exactly if a deadline has no text; otherwise the file holds exactly the new snoozes, surviving entries keep unknown fields, and the rest is as before |
| Persistence.ReplacedDecodes | cmd/montray-ui/src/persistence.rs:85-97 | decoding what was reconciled gives the same snoozes |
| Persistence.Store.UpdateSnoozes | cmd/montray-ui/src/persistence.rs:47-55 | the transaction succeeds exactly if the file can be read and written and every deadline formats; then the file decodes to the new snoozes with others' preferences intact, and otherwise is untouched |
| Persistence.Store.UpdatePreferences | cmd/montray-ui/src/app.rs:313-335 | another writer's transaction succeeds exactly if the file can be read, is not malformed and can be written; then it replaces the preferences and nothing else, and otherwise the file is untouched |
| Runtime.ExpiryBacksOff | cmd/montray-ui/src/runtime.rs:186-193 | after a failed expiry write the next expiry attempt is at least ten seconds later unless a write succeeded in between |
| Runtime.ProposalIsSole | cmd/montray-ui/src/domain/reducer.rs:82-154 | a proposed write is its event's only effect and is its action applied to the live snoozes |
| Runtime.Runtime.constructor | cmd/montray-ui/src/app.rs:118-174 | the loop starts from what the state file decodes to |
| Runtime.Runtime.Persist | cmd/montray-ui/src/runtime.rs:410-462 | a due proposal is attempted once and committed exactly if it was written; expiry waits for its deadline |
| Runtime.Runtime.Handle | cmd/montray-ui/src/runtime.rs:388-468 | a turn applies the event, attempts its proposal if due, and publishes whenever the state changed |
| Runtime.RunLoop | cmd/montray-ui/src/runtime.rs:353-469 | for every sequence of events, write failures and other writers, live state, attempted writes and preferences are the fold of the inputs; live snoozes equal the decoded file, the last snapshot came from the current state, and the rest of the state is that of the history |
| Runtime.TurnsFollowHistory | cmd/montray-ui/src/runtime.rs:403-465 | in the fold of the inputs the live snoozes are those that exactly the persisted actions make of the initial ones, and the rest of the state is that of the history |
| Runtime.PreferencesAreTheLast | cmd/montray-ui/src/persistence.rs:46-55 | over a whole run the preferences are those of the last writer whose transaction went through: writing snoozes undoes nobody's preferences |
| Gate.GatesCloseOnce | wsclient/tunnel.go:233-262 | in every interleaving the current gate is closed exactly while ready, every superseded gate is closed, and none twice |
| Gate.NoWaiterIsStuck | wsclient/tunnel.go:135-153 | a waiter can go on exactly if its gate was superseded or the tunnel is ready |
| Gate.ReadyComesFromCurrent | wsclient/tunnel.go:233-251 | `ready` is set only by a callback of the current generation, never by a late one of an older process, not after cancellation, and after its event was queued |
| Gate.ReadyIsQueuedFirst | wsclient/tunnel.go:239-247 | a waiter is admitted only after its generation's event was queued, and until cancellation each generation is announced once at most |
| Gate.TunnelSupervisor.MarkReady | wsclient/tunnel.go:233-251 | on the objects, a call is the machine's steps of locking, queueing or dropping, and finishing: only the first signal of the current generation announces and opens; after cancellation the event may still be queued but the gate stays shut; the channel is never closed twice |
| Gate.TunnelSupervisor.SetUnready | wsclient/tunnel.go:254-262 | on the objects, a call is the machine's step: the old gate is left closed and a new one is open |
| Streams.BoundarySearch | cmd/montray-ui/src/network/tunnel.rs:546-558 | keeping one byte less than the probe's length finds every occurrence that crosses a chunk boundary |
| Streams.ProbeMatcher.Push | cmd/montray-ui/src/network/tunnel.rs:542-560 | it fires on the chunk that completes the first occurrence in the whole stream |
| Streams.MatchAll | cmd/montray-ui/src/network/tunnel.rs:532-561 | for every nonempty probe and every split into chunks, exactly the completing chunk fires |
| Streams.CompletesOnce | cmd/montray-ui/src/network/tunnel.rs:541-544 | at most one chunk completes the probe, and one does exactly if the stream contains it |
| Streams.TailBuffer.Push | cmd/montray-ui/src/network/tunnel.rs:574-590 | the buffer holds the last bytes of the whole stream |
| Streams.RetainTail | cmd/montray-ui/src/network/tunnel.rs:571-590 | for every split the last 1024 bytes are kept; the mark is set exactly if more came or one chunk was that long |
| Streams.MarkedButComplete | cmd/montray-ui/src/network/tunnel.rs:575-579 | a stream that lost nothing and is marked all the same |
| Streams.FirstLineWriter.Write | backend/collectors/exec/exec_collector.go:40-57 | the writer holds the cut first line of the whole stream |
| Streams.RetainFirstLine | backend/collectors/exec/exec_collector.go:34-57 | for every split the first 200 bytes of the first line are kept, marked exactly if it is longer |
| Migration.EntryIsUnique | cmd/montray-ui/src/setup.rs:415-425 | a path names one entry of the source |
| Migration.Destination.CopyDirectory | cmd/montray-ui/src/setup.rs:408-451 | nothing existing is replaced, everything new is journaled, and success means that everything below has arrived; if every operation works it fails only at a link or at a file in a directory's place |
| Migration.Destination.RollbackCreatedFiles | cmd/montray-ui/src/setup.rs:455-474 | files that were there stay, and unless it reports otherwise the files are as before the migration |
| Migration.Destination.InstallFile | cmd/montray-ui/src/setup.rs:820-850 | the contents appear as a whole at a free path and are journaled, or nothing changes |
| Migration.Destination.MigrateSalmonConfig | cmd/montray-ui/src/setup.rs:370-402 | whichever operations fail: on failure the files are as before unless the rollback reports that it could not remove one; if all operations work it fails exactly at a link or a file in a directory's place; on success a source file is a file of the destination if and only if it was one already or no directory was in its place, complete unless it was there, and nothing else was added but the configuration |
| Migration.FileMayStayAway | cmd/montray-ui/src/setup.rs:434-442 | a successful migration after which a source file has no destination file |
| Shell.CommandLineReads | cmd/montray-ui/src/setup.rs:784-793 | a line of printed arguments lexes as exactly these arguments if none holds a NUL, and not at all otherwise |
| Shell.QuotingRoundTrips | internal/setup/shell.go:7-14 | a printed argument lexes as one word whose quote removal is the argument |
| EndToEnd.ListIsBoard | backend/messengers/webserver/websockets.go:108-153 | once core, webserver and connection are drained and the client received what the connection sent, its list for that server is the total on the board, prefixed |
| EndToEnd.BoardIsTracker | backend/core/core.go:132-171 | the board holds the listing of the tracker's incidents, however many silent calls came after its last notification |
| EndToEnd.WindowShowsObservations | cmd/montray-ui/src/domain/reducer.rs:70-76 | from observation to window: with the way drained and the server not dropped out since, the client lists a key exactly if its last observation on the server was not OK, with that state and those details |

## Left out

- Sockets, TLS, bearer tokens, DBus, process spawning, signals and logging: foreign or plumbing; they appear as actions and failures.
- The window, the tray and its pixels, window geometry, CLI parsing and version texts: presentation.
- The legacy Go combiner and legacy UI: superseded by the Rust reducer.
- Go-side order of tunnel and socket events after a tunnel failure: it rests on a settle delay, so exclusivity is stated for the Rust supervisor only.
- JSON and YAML decoding: a file or a message is the value it decodes to, with a function for the text of a start time; RFC 3339 is a codec that parses back what it formatted.
- Wrap-around of the collector's 64-bit generation counter: generations are unbounded.
- The texts of durations and state lists in deferred details: two functions of the configuration.
- `validateConfig` of the systemd collector: no theorem needs its checks.
- Tracker: OK items are kept as values, since no object of theirs is ever published or amended.
- Heartbeats of the webserver and desktop notification queues: they carry no incident state.
- EndToEnd: that the socket delivers what the connection wrote is a premise (`Receives`), since transport is not modelled.
- Publication: totals are identified by version, and their immutability is `Tracker.RunFeeds`.
- The Go twins of the probe matcher and the tail buffer (wsclient/tunnel.go): the same algorithms as the Rust ones.
- Domain: the keys of an `Expire` action are a set, because they are only logged.
- Gate: the methods of `TunnelSupervisor` are uninterrupted calls; the interleavings are in the machine beside them.
- Other addresses and tunnel checks of `validate` in the client's configuration: only ids matter for keys.
- Migration.Destination.MigrateSalmonConfig: the rewritten text of the configuration is a parameter, and directories that were created stay.
- Shell: reserved words and assignments, which matter for the first word of a command only.
- Desktop-entry `Exec` escaping: its round trip depends on unspecified escapes.
