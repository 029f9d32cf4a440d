# Verified model of the Agent-Remote node

This project models the stateful core of the Agent-Remote node in Dafny and proves what its
protocols keep. `dafny verify dfyconfig.toml` checks all of it.

The centre is the ego-browser broker (`internal/egobrowser/broker.go`): a mutex over bindings, tool
sessions, capabilities, one-time permits, active requests, a bounded replay cache and a persisted
sequence counter, together with the lease lifecycle of each binding and a relay that is opened
outside the mutex.

- `BrokerCore` gives the lock-protected state as a value and every critical section as an event. A
  process crash with restart is an event too. Pointer identity of a binding object is the pair of its
  ID and the number of the snapshot that allocated it (`Ref`).
- `BrokerInvariant` states the invariant and proves that every event keeps it. `BrokerRuns`,
  `BrokerLease` and `BrokerClose` prove properties of whole runs from it. `BrokerSnapshot` says exactly
  what a list of bindings, a renewal and a clearing change, and `BrokerReplies` what callers are told.
- `BrokerObject` is the broker as a class: its methods have the source's loops over the maps, and each
  is proved to take exactly one step of `BrokerCore` (`Next`), so the theorems about runs hold for any
  sequence of calls.
- `RelayExchange` is one relay session: its pending and abandoned maps, its results and its close.
- `RelayWorld` puts everything together: one thread per accepted request takes its turn, obtains a
  relay, registers, writes its frame, marks the request sent and awaits its result, while revocations,
  expiries and relay failures detach and close sessions. A step is one critical section of the broker
  mutex, of a relay mutex or of a session's mutex, one write, or one load of an epoch or a flag.
- `RelayFence` proves the revocation fence of that world, `SendOrder` the order of sends and that no
  wakeup is lost, and `RelayClose` what a returned call leaves behind. `RelayEpochs` holds what critical
  sections do to the epochs. `Witnesses` and `OrderWitness` build runs from the start of the broker that
  show where properties begin.

Beside it stand smaller cores: the task ledger (`LedgerModel`), configuration import
(`ConfigImport`), the device-control context and manifests (`DeviceControl`), the attachment gateway
(`Attachments`), deployment streaming (`DeploymentStream`), the duplicate-key JSON walker
(`JsonWalk`), the skill tree encoding (`SkillTree`), length-prefixed framing (`Framing`), the
bandwidth limiter (`Bandwidth`) and the namespace firewall (`Firewall`).

Clock readings, random tokens, digests, write and sync failures, crashes and the answers of peers are
parameters or parts of an event. Time is an integer number of nanoseconds. A rename is one atomic
step that survives a process crash.

Several properties a reader might expect are false of the code. For each of these the code is
modelled as it is, a lemma shows the case, and what does hold, and when, is proved:

- A binding that a snapshot drops loses its terminal mark (`DroppedMarkIsForgotten`). A step keeps the mark
  if and only if the ID stays listed (`MarkKeptExactly`), and an ID that comes back counts as retired if
  and only if it comes back in a newer generation (`RelistedExactly`).
- A failure does not always fix the grace deadline. It does if and only if none was set, or that very
  one (`FailsExactly`); one that a renewal answer left behind is kept (`LeftoverDeadlineIsKept`), and one
  that cannot be read lets the next failure end the generation at any time (`UnreadableDeadlineEnds`).
  Whatever deadline the first failure enters grace under, it never moves (`GraceRun`).
- A forward can install a relay after a revocation has marked the binding (`InstallCanFollowTheMark`). It
  can if and only if a thread is past its second look at the epoch when the call marks the generation
  (`InstallFollowsMarkExactly`), and then only that one thread (`InstallAfterMark`). From the detach on
  none can (`RevocationFence`).
- Closing the broker can leave a permit behind (`PermitCanSurviveClose`). It leaves a permit if and only
  if that was issued between its two critical sections and no step since has taken it
  (`LeftByCloseExactly`); none is issued after them (`NothingIssuedAfterClose`).
- Entering grace does not close the relay (`GraceKeepsRelay`). A failed renewal hands the relay over for
  closing if and only if it ends the generation (`FailureClosesExactly`).
- Frames of one binding can go out in the wrong order on one session (`FramesCanOvertake`): entering grace
  drops a request that a thread goes on to write. Of two frames out of order one is of a request that is no
  longer registered (`OutOfOrderFrames`), and a look lets a request overtake a lower unwritten one if and
  only if that one is no longer registered (`OvertakenExactly`). Registered requests are written in
  order (`WritesOrdered`), and marks are always in order (`SendsOrdered`).
- The attachment byte budget can be exceeded (`BudgetCanBeExceeded`): exactly when an upload is
  stored after the total has met the budget (`SessionBytes`, `OverrunExactly`). The size test
  without the guard on the budget's sign keeps it (`WithinBudget`).
- The documentation of a cleanup receipt says that it is persisted before it is returned. The receipt
  returned is the last one on disk exactly when its own last write succeeded (`Attachments.Cleanup`).

## Model

| member | source | states |
|---|---|---|
| BrokerInvariant.ApplyKeeps | internal/egobrowser/broker.go:270-1487 | Every critical section, and a crash with restart, keeps the invariant: permits are exactly the unsubmitted active requests under the same identities; every active request has a present, non-terminal, active and healthy binding of its own generation; no binding has more requests than configured; counter and file agree; the capability maps are inverse; an open broker serves only registered sessions |
| BrokerInvariant.NextKeeps | internal/egobrowser/broker.go:1469-1487 | The same with any amount of replay-cache pruning inside the step |
| BrokerInvariant.SnapshotKeeps | internal/egobrowser/broker.go:446-515 | A snapshot, accepted or refused, keeps the invariant |
| BrokerInvariant.MergeKeepsAuthority | internal/egobrowser/broker.go:465-501 | A binding whose materials a snapshot did not clear still carries the same authority for the same tool session |
| BrokerInvariant.ReplaceKeeps | internal/egobrowser/broker.go:1299-1319 | Once a binding's materials are cleared its state may be replaced by any well-formed one |
| BrokerInvariant.IssueKeeps | internal/egobrowser/broker.go:549-673 | Issuing keeps the invariant on every outcome, a number drawn and then lost included |
| BrokerInvariant.ConsumeKeeps | internal/egobrowser/broker.go:738-773 | Consuming keeps the invariant on every outcome, expiry included |
| BrokerInvariant.UnregisterKeeps | internal/egobrowser/broker.go:418-443 | Removing a tool session leaves only requests of sessions that are still registered |
| BrokerInvariant.IssuesExactly | internal/egobrowser/broker.go:549-673 | A permit is granted if and only if the capability is the session's, its only binding is live with a free slot and time left, and neither the counter nor the environment fails |
| BrokerInvariant.IssuedUnderAuthority | internal/egobrowser/broker.go:549-673 | A granted permit names a live binding of the caller's session and outlives neither twenty seconds, the lease nor the absolute lifetime |
| BrokerInvariant.AcceptsExactly | internal/egobrowser/broker.go:738-773 | A submission is accepted if and only if it names an unsubmitted registered request with its identities, a payload in bounds and time left; the replay cache decides nothing |
| BrokerInvariant.ConsumedUnderAuthority | internal/egobrowser/broker.go:738-773 | An accepted permit is spent while its binding is present, healthy, not terminal and in the permit's generation |
| BrokerInvariant.FreshInv | internal/egobrowser/broker.go:270-300 | A new broker satisfies the invariant whatever number its file holds |
| BrokerRuns.RunInv | internal/egobrowser/broker.go:270-1487 | The invariant holds at every state of every run |
| BrokerRuns.IssuedIncreasing | internal/egobrowser/broker.go:1287-1297 | Numbers issued are strictly increasing over the whole run, through persistence failures and restarts |
| BrokerRuns.SequenceMonotone | internal/egobrowser/broker.go:2771-2849 | The counter never goes back, across the file and restarts |
| BrokerRuns.SpentForever | internal/egobrowser/broker.go:738-773 | A spent number stays spent for the rest of the run |
| BrokerRuns.AcceptedOnce | internal/egobrowser/broker.go:738-773 | No number is accepted twice, whatever the replay cache has forgotten by age or by its cap |
| BrokerRuns.PermitOrigin | internal/egobrowser/broker.go:611-673 | Every permit goes back to one issue of this run and has been in the registry ever since |
| BrokerRuns.AuthorityNeverLapsed | internal/egobrowser/broker.go:738-794 | At every moment between issue and acceptance the binding was live in the permit's own generation |
| BrokerRuns.ClearedForever | internal/egobrowser/broker.go:1384-1420 | "Passed the turn, so every lower registered request is sent" is stable under every step |
| BrokerRuns.GoneForever | internal/egobrowser/broker.go:1335-1377 | A request that left the registry never comes back |
| BrokerRuns.SentForever | internal/egobrowser/broker.go:1422-1435 | A sent mark is never taken back |
| BrokerRuns.NoLaterLowerSend | internal/egobrowser/broker.go:1384-1435 | After a request passed its turn no lower request of its binding is marked sent |
| BrokerRuns.SentOnlyByMark | internal/egobrowser/broker.go:1422-1435 | No critical section but the marking one sets a send mark |
| BrokerRuns.QuietKeepsRequests | internal/egobrowser/broker.go:1379-1382 | A critical section that does not close the `changed` channel leaves every request as it was |
| BrokerClose.NothingIssuedAfterClose | internal/egobrowser/broker.go:985-1008 | After the second critical section of closing no permit is issued and no session comes back, whatever interleaved |
| BrokerClose.TakesExactly | internal/egobrowser/broker.go:738-794 | A registered permit is gone after a step if and only if the step spends it, finds it expired, releases its request, clears its binding or ends the process |
| BrokerClose.HeldExactly | internal/egobrowser/broker.go:611-773 | A permit is registered if and only if it was issued in this run and no step since has taken it |
| BrokerClose.PermitsLeftByClose | internal/egobrowser/broker.go:985-1008 | A permit left after closing was issued between its two critical sections |
| BrokerClose.LeftByCloseExactly | internal/egobrowser/broker.go:985-1008 | A permit is left after closing if and only if it was issued between the two critical sections and no step since has taken it |
| BrokerRuns.BlockedExactly | internal/egobrowser/broker.go:1399-1409 | A submitted request waits if and only if a lower request of its binding is registered and unsent |
| BrokerRuns.SomeoneCanSend | internal/egobrowser/broker.go:1384-1420 | Among the unsent requests of a binding there is always one that only its own submission can delay |
| BrokerLease.LeaseBinding | internal/egobrowser/broker.go:1196-1285 | A lease step never changes a binding's object or generation and never takes a terminal mark back |
| BrokerLease.RetiredWhileListed | internal/egobrowser/broker.go:465-501 | Nothing revives a terminal generation while its ID stays listed |
| BrokerLease.NoPermitAfterRetirement | internal/egobrowser/broker.go:601-603 | While the ID stays listed, permits are issued only for newer generations |
| BrokerLease.RevokeRetires | internal/egobrowser/broker.go:776-794 | Revoking retires the current generation, for either spelling of it |
| BrokerLease.MarkKeptExactly | internal/egobrowser/broker.go:465-501 | A step keeps a terminal generation retired if and only if the ID stays listed |
| BrokerLease.RelistedExactly | internal/egobrowser/broker.go:446-503 | An ID that comes back counts as retired if and only if it comes back in a newer generation |
| BrokerLease.DroppedMarkIsForgotten | internal/egobrowser/broker.go:465-501 | A retired ID that any list drops comes back without its mark in the retired generation, with its authority when listed as live |
| BrokerLease.FailsExactly | internal/egobrowser/broker.go:1225-1259 | A failure ends the generation if and only if grace is over, and otherwise fixes the deadline at now plus the grace period if and only if none was set, or that very one |
| BrokerLease.FirstFailure | internal/egobrowser/broker.go:1245-1252 | The deadline a failure enters grace under: now plus the grace period, or the one already set |
| BrokerLease.UnreadableDeadlineEnds | internal/egobrowser/broker.go:1234-1244 | With an unreadable deadline left behind, the second failure ends the generation at any clock reading |
| BrokerLease.GraceStep | internal/egobrowser/broker.go:1225-1285 | A step ends grace exactly when it is a failure at or after the deadline, an expiry or a revocation |
| BrokerLease.GraceRun | internal/egobrowser/broker.go:1147-1285 | Over any run of failures the deadline the first enters grace under never moves, and the generation is terminal from the first failure at or after it on and not before; any deadline, readable or not |
| BrokerLease.NoPermitInGrace | internal/egobrowser/broker.go:601-603 | No permit is issued for a binding in grace or past it |
| BrokerLease.LeftoverDeadlineIsKept | internal/egobrowser/broker.go:1245-1259 | A deadline that is already set, readable or not, is kept by the next failure |
| RelayEpochs.StepGuards | internal/egobrowser/broker.go:1299-1319 | No step moves an epoch back, and a step that takes an object's authority away advances its epoch |
| RelayFence.WorldRunInv | internal/egobrowser/broker.go:2111-2181 | Under every interleaving a validated thread whose captured epoch is current still has its authority, and one thread at most holds a relay mutex |
| RelayFence.OverUntilSuperseded | internal/egobrowser/broker.go:1264-1285 | An ended generation of an object stays ended until a newer one is installed |
| RelayFence.SealedStep | internal/egobrowser/broker.go:2111-2181 | No step gives an ended object without a relay a relay |
| RelayFence.Fence | internal/egobrowser/broker.go:1322-1333 | After a detach that follows the end of a generation the object has no relay until a newer generation is installed |
| RelayEpochs.EndedIsOver | internal/egobrowser/broker.go:776-794 | A revocation or an expiry that takes effect, and a renewal failure after the grace deadline, end the generation of the attached object |
| RelayEpochs.HandsOverExactly | internal/egobrowser/broker.go:440-515 | Which relays a critical section hands over for closing, exactly: those of the objects whose epoch it moves on, but for a failed renewal that stays in grace; and it moves on exactly the epochs of the attached bindings it clears |
| RelayFence.OwesExactly | internal/egobrowser/broker.go:776-808 | A call comes to owe the detach of an object if and only if its critical section moves the epoch of that object on and is not a failed renewal that stays in grace |
| RelayFence.RevocationFence | internal/egobrowser/broker.go:776-794 | Once any call has detached an object whose generation was revoked, expired or failed late, there is no relay until a newer generation, whatever forwards were opening meanwhile |
| RelayFence.RevocationDetaches | internal/egobrowser/broker.go:776-794 | A call that ends a generation owes a detach until it is done, and once it is there is no relay until a newer generation |
| RelayFence.ExpiryFence | internal/egobrowser/broker.go:1264-1285 | Expiring an attached active binding owes such a detach, with the same fence after it |
| RelayFence.RevokeFence | internal/egobrowser/broker.go:776-794 | Revoking an attached binding, by its generation or by none, owes such a detach, with the same fence after it |
| RelayFence.ObtainsUnderAuthority | internal/egobrowser/broker.go:2111-2181 | Whenever a thread takes over a relay, takes the mutex to open one or looks again before installing one, its generation has its authority and nothing has cleared the materials of the object since the thread captured the epoch |
| Witnesses.InstallCanFollowTheMark | internal/egobrowser/broker.go:2166-2180 | A run from the start of the broker in which a relay is installed between the mark and the detach |
| Witnesses.PermitCanSurviveClose | internal/egobrowser/broker.go:985-1008 | A run in which a permit issued between the critical sections of closing is left behind |
| SendOrder.OrderRun | internal/egobrowser/broker.go:2183-2262 | In every run each thread forwards an accepted request of its binding, stays ahead of all lower registered requests once past its turn, and only a thread's own mark marks its request |
| SendOrder.TurnBeforeSend | internal/egobrowser/broker.go:2232-2258 | A thread past its turn got there by its own look at the turn, when no lower request was registered and unsent |
| SendOrder.SendsOrdered | internal/egobrowser/broker.go:2183-2262 | In every interleaving the requests of one binding are marked sent in strictly increasing order |
| SendOrder.MarkAwaits | internal/egobrowser/broker.go:2258-2262 | A mark is never refused: a thread that has written its frame goes on to await its result on its own channel, and its request, if still registered, is marked sent |
| SendOrder.WritesOrdered | internal/egobrowser/broker.go:2250-2257 | In every interleaving the frames of one binding's registered requests are written in strictly increasing order, each once |
| SendOrder.OutOfOrderFrames | internal/egobrowser/broker.go:2250-2257 | Of two frames of one binding out of order, one is of a request no longer registered when written |
| SendOrder.OvertakenExactly | internal/egobrowser/broker.go:1384-1420 | Where a lower unwritten request is the only one in the way, a look lets a higher one overtake it if and only if it is no longer registered |
| OrderWitness.FramesCanOvertake | internal/egobrowser/broker.go:2232-2254 | A run from the start of the broker in which frame 2 is written before frame 1 on one open session, after grace dropped request 1 |
| SendOrder.SleepersAreBlocked | internal/egobrowser/broker.go:1379-1417 | No wakeup is lost: a thread asleep on the open `changed` channel is blocked by a lower registered unsent request |
| SendOrder.LookIs | internal/egobrowser/broker.go:1384-1420 | A look prunes and decides by what is left, and a thread that slept looks only because its channel was closed |
| SendOrder.CanLook | internal/egobrowser/broker.go:1384-1420 | A thread that waits for its turn and was woken can look at any time, whatever the registry holds |
| SendOrder.CanMark | internal/egobrowser/broker.go:1422-1435 | A thread that has written its frame can mark its request at any time |
| SendOrder.VanishedNeverSent | internal/egobrowser/broker.go:1384-1420 | A request that leaves the registry while its thread waits for its turn is never written to a relay |
| RelayClose.SessionsRun | internal/egobrowser/broker.go:2111-2181 | In every run every session keeps its accounting and every relay and closer has a session |
| RelayClose.ReturnSettles | internal/egobrowser/broker.go:1322-1333 | Once a closing call returns nothing is pending on its session or ever registered with it, and every exchange has its result, has a response on its way or was given up |
| RelayClose.RevocationSettles | internal/egobrowser/broker.go:776-794 | The whole of a revocation: once the call that detached the relay returns, no relay until a newer generation, and the detached session settled as above |
| RelayClose.ResultForGood | internal/egobrowser/broker.go:2000-2027 | A result delivered to an exchange is its result for the rest of the run |
| RelayClose.NoWriteAfterReturn | internal/egobrowser/broker.go:2029-2043 | After a closing call has returned no frame is written to its session |
| RelayClose.OpenSessionsAreHeld | internal/egobrowser/broker.go:1322-1333 | In every run each open session is an object's relay or some call still has to close it |
| RelayClose.FailDetaches | internal/egobrowser/broker.go:2102-2109 | A failing relay is detached only from the object that still has it and handed to its closer; every other relay stays |
| RelayClose.DetachedForGood | internal/egobrowser/broker.go:1322-1333 | In every run a session that was detached from an object is never the relay of that object again |
| RelayClose.ReceivesItsOwn | internal/egobrowser/broker.go:2262-2268 | What a thread receives answers its own request, by number and binding, or reports the close |
| RelayClose.PendsOnItsOwn | internal/egobrowser/broker.go:1973-2004 | A thread that registers is pending under its own number on its own channel, and one that gives up leaves nothing pending on it |
| RelayClose.ReceivedOrigin | internal/egobrowser/broker.go:2006-2064 | What a thread receives was decided at exactly one step of the run: the valid delivery of that very frame while its own request was pending on its channel, or the sweep of a call that closed its session |
| RelayFence.InstallAfterMark | internal/egobrowser/broker.go:2166-2180 | An install between the mark and a newer generation is by the one thread that was past its second look at the mark |
| RelayFence.InstallFollowsMarkExactly | internal/egobrowser/broker.go:2111-2181 | Some continuation of the run installs a relay after the mark if and only if a thread is past its second look at the mark |
| RelayFence.GraceKeepsRelay | internal/egobrowser/broker.go:1245-1259 | Entering grace clears the materials and advances the epoch but leaves the relay |
| RelayFence.FailureClosesExactly | internal/egobrowser/broker.go:1225-1259 | A failed renewal hands the relay over for closing if and only if it ends the generation |
| RelayExchange.StepKeeps | internal/egobrowser/broker.go:1973-2064 | Every step keeps pending and abandoned disjoint and accounts for every channel: waiting, in flight, sent or given up |
| RelayExchange.RunValid | internal/egobrowser/broker.go:1973-2064 | The same at every state of every run |
| RelayExchange.OneResult | internal/egobrowser/broker.go:2000-2027 | A channel is sent to at most once, so its one buffer slot suffices |
| RelayExchange.ResultForItsOwner | internal/egobrowser/broker.go:2000-2027 | What arrives on a channel answers the request registered with it or reports the close |
| RelayExchange.DecidedExactly | internal/egobrowser/broker.go:2006-2064 | A valid response to a pending request becomes the result of its channel, a sweep fails whoever is pending, and no other step gives, changes or takes back a result |
| RelayExchange.ResultOrigin | internal/egobrowser/broker.go:2006-2064 | In every run a sent result goes back to exactly one step: a response to the valid delivery of that frame while its request was pending on the channel, a failure to the sweep |
| RelayExchange.PendingExactly | internal/egobrowser/broker.go:1973-2064 | What is pending after a step and on which channel, exactly: what was registered, until it is given up on its own channel, validly answered or swept |
| RelayExchange.AbandonedExactly | internal/egobrowser/broker.go:1991-2013 | Given-up requests are remembered if and only if there was room, until their late response is dropped or the session is swept |
| RelayExchange.SentExactly | internal/egobrowser/broker.go:2025-2062 | Results go out by one send each and by nothing else |
| RelayExchange.RegistersExactly | internal/egobrowser/broker.go:1973-1989 | Each registration makes a channel of its own, owned by its request; only it does, and only flagging and sweeping change the phase |
| RelayExchange.EmptyAfterClose | internal/egobrowser/broker.go:2045-2064 | After a close both maps are empty and nothing is registered, for ever |
| RelayExchange.NobodyStranded | internal/egobrowser/broker.go:2045-2064 | Once a close's results are out every request, those that raced with it included, has its result or had given up |
| RelayExchange.CloseCanFinish | internal/egobrowser/broker.go:2045-2064 | From every session whose closed flag is set, the closing thread and a registration under way alone can bring it to a swept session with every result out |
| RelayExchange.FlagThenSweep | internal/egobrowser/broker.go:2050-2059 | In every run a session is swept only after its closed flag was set |
| BrokerSnapshot.OfferExactly | internal/egobrowser/broker.go:1489-1529 | An entry is valid if and only if its contract is, its spellings of the generation agree on a positive one and its fields are in range; it is stored as it is, under that generation |
| BrokerSnapshot.ListedExactly | internal/egobrowser/broker.go:446-463 | A list is read if and only if every entry is valid and no ID is listed twice, and then has each entry under its own ID and nothing else |
| BrokerSnapshot.SnapshotExactly | internal/egobrowser/broker.go:463-515 | What a snapshot does, exactly, to bindings, permits, requests, epochs and the rest of the state |
| BrokerSnapshot.ClearsExactly | internal/egobrowser/broker.go:1299-1319 | Every lease, session and snapshot section wipes the permits, requests and epoch of exactly the bindings it clears and leaves those of every other binding untouched |
| BrokerSnapshot.RenewsExactly | internal/egobrowser/broker.go:1196-1210 | Committing a renewal prolongs the binding that asked under the guards of the source, and changes nothing else |
| BrokerSnapshot.EndsExactly | internal/egobrowser/broker.go:1225-1285 | What a revocation, an expiry and a failed renewal make of a binding, field by field: ended, in grace under its deadline or a fresh one, or as it was |
| BrokerSnapshot.WakesExactly | internal/egobrowser/broker.go:1299-1382 | A critical section wakes the waiting threads if and only if it changes the registered requests, clears a binding or marks a request |
| BrokerSnapshot.TimesOrigin | internal/egobrowser/broker.go:1196-1210 | In every run the lease and the absolute lifetime of a binding are those of the last snapshot entry stored or renewal answer committed for it |
| BrokerReplies.PruneExactly | internal/egobrowser/broker.go:1361-1377 | Pruning drops exactly the requests not submitted in time, with their permits |
| BrokerReplies.IssuedExactly | internal/egobrowser/broker.go:600-673 | A permit is for the one binding of the session in its present generation, carries the next number, which is on disk, and expires at the earliest of its three bounds; it and its request are all that is added |
| BrokerReplies.IssueRefuses | internal/egobrowser/broker.go:549-673 | Every refusal has the reason that comes first among those that hold, and registers nothing |
| BrokerReplies.SubmissionExactly | internal/egobrowser/broker.go:738-773 | What a submission is told and what becomes of permit, request and cache, for every submission |
| BrokerReplies.PrunedExactly | internal/egobrowser/broker.go:1469-1487 | Pruning the replay cache leaves only entries younger than ten minutes, unchanged, at most 4096, and drops a younger one only for that many that are no older |
| BrokerReplies.SpentReplays | internal/egobrowser/broker.go:1469-1487 | A spent number answers a replay as long as the window and the cap keep it |
| BrokerReplies.ReplayOrigin | internal/egobrowser/broker.go:738-773 | In every run a number the replay cache holds was accepted, at the time the cache has for it |
| BrokerReplies.TurnExactly | internal/egobrowser/broker.go:1384-1420 | What a look at the turn says of every request; one that was registered at an earlier look and is gone is refused |
| BrokerReplies.MarkExactly | internal/egobrowser/broker.go:1422-1435 | Marking marks exactly a submitted request of the binding |
| BrokerReplies.AuthorizesExactly | internal/egobrowser/broker.go:351-386 | A peer is recorded exactly for the own capability of the session, and never a second one |
| BrokerObject.Broker.constructor | internal/egobrowser/broker.go:270-300 | A broker starts from the number in its file with empty maps |
| BrokerObject.Broker.PruneConsumed | internal/egobrowser/broker.go:1469-1487 | What is left of the replay cache is inside the window, as much of it as the cap admits, and nothing kept is older than anything dropped for the cap |
| BrokerObject.Broker.OldestOf | internal/egobrowser/broker.go:1476-1485 | The entry found is an oldest one |
| BrokerObject.Broker.PruneExpiredPermits | internal/egobrowser/broker.go:1361-1377 | Exactly the expired permits go, with their unsubmitted requests |
| BrokerObject.Broker.ClearBindingMaterials | internal/egobrowser/broker.go:1299-1319 | Exactly the binding's permits and requests go and its epoch moves on by one |
| BrokerObject.Broker.ActiveRequestCount | internal/egobrowser/broker.go:1351-1359 | The number of the binding's active requests |
| BrokerObject.Broker.BindingForSession | internal/egobrowser/broker.go:1056-1071 | The session's binding, if and only if it has exactly one |
| BrokerObject.Broker.IssuePermit | internal/egobrowser/broker.go:549-673 | Takes exactly the issue step and keeps the invariant |
| BrokerObject.Broker.ConsumePermit | internal/egobrowser/broker.go:738-773 | Takes exactly the consume step after pruning the replay cache, and keeps the invariant; a spent number is told it is a replay as long as the window and the cap keep it, and an accepted one is recorded at its time |
| BrokerObject.Broker.ReleaseRequest | internal/egobrowser/broker.go:1335-1349 | Removes one request with its permit |
| BrokerObject.Broker.TryTurn | internal/egobrowser/broker.go:1384-1420 | One pass of the waiting loop: prunes, then passes, waits or refuses |
| BrokerObject.Broker.MarkRequestSent | internal/egobrowser/broker.go:1422-1435 | Marks a submitted request of the binding sent and nothing else |
| BrokerObject.Broker.RevokeBinding | internal/egobrowser/broker.go:776-794 | Takes exactly the revoke step and keeps the invariant |
| BrokerObject.Broker.ExpireBinding | internal/egobrowser/broker.go:1264-1285 | Takes exactly the expire step and keeps the invariant |
| BrokerObject.Broker.MarkRenewalFailure | internal/egobrowser/broker.go:1225-1259 | Takes exactly the failure step, with its second clearing on the expiry path |
| BrokerObject.Broker.CommitRenewal | internal/egobrowser/broker.go:1196-1210 | Commits if and only if the asking generation is still attached, active and not terminal; then the binding has the three times of the answer and is healthy, and every other field and binding is as it was |
| BrokerObject.Broker.SetBindings | internal/egobrowser/broker.go:446-515 | Accepts a list if and only if every entry is valid and none listed twice. The attached IDs are then the listed ones, each with its entry unless that is older or of a terminal generation; exactly the bindings dropped or drifted lose permits, requests and epoch; nothing else changes. A refused list changes nothing |
| BrokerObject.Broker.ReadOffers | internal/egobrowser/broker.go:446-463 | The list is refused exactly when an entry is invalid or an ID is listed twice |
| BrokerObject.Broker.MergeListed | internal/egobrowser/broker.go:465-501 | The pass gives every listed ID its entry, keeping object and state where the entry is older or terminal, and clears each attached binding as often as it drifted |
| BrokerObject.Broker.RegisterToolSession | internal/egobrowser/broker.go:315-347 | The session holds the returned capability; a new one is the first unused token; a closed broker refuses |
| BrokerObject.Broker.VerifyToolSessionPeer | internal/egobrowser/broker.go:388-415 | Succeeds if and only if the broker is open, the capability is the session's and the recorded peer is this one and not root |
| BrokerObject.Broker.AuthorizeToolSessionPeer | internal/egobrowser/broker.go:351-384 | A session without a peer gets this one exactly when the socket is prepared; one with a peer is only verified, so a recorded peer never changes |
| BrokerObject.Broker.UnregisterToolSession | internal/egobrowser/broker.go:418-443 | Removes the session exactly when it holds the expected capability, with the materials of its bindings |
| BrokerObject.Broker.ReloadAll | internal/egobrowser/broker.go:797-808 | Takes exactly the reload step |
| BrokerObject.Broker.ReloadToolSession | internal/egobrowser/broker.go:1073-1086 | Takes exactly the reload step of one session |
| BrokerObject.Broker.Close | internal/egobrowser/broker.go:985-1008 | When nothing interleaves, closing leaves no permit, request or capability |
| LedgerModel.Disk.Publish | internal/ledger/publish.go:10-46 | The file after any failing call, with the reported rename and error |
| LedgerModel.Ledger.constructor | internal/ledger/ledger.go:35-51 | An opened ledger's memory is the file's content |
| LedgerModel.Ledger.Get | internal/ledger/ledger.go:54-73 | A reader of a healthy ledger gets what is on disk; a poisoned one refuses |
| LedgerModel.Ledger.SaveEntry | internal/ledger/ledger.go:76-80 | Atomic on memory and file, acknowledged exactly when healthy and published; keeps memory equal to file |
| LedgerModel.Ledger.Swap | internal/ledger/ledger.go:83-111 | Atomic on memory and file, acknowledged exactly when also the stored record is the expected one; keeps memory equal to file |
| LedgerModel.SaveIsAtomic | internal/ledger/ledger.go:138-166 | One key changes in memory and file alike, or neither does, or the file alone changes and the ledger is poisoned |
| LedgerModel.SwapsExactly | internal/ledger/ledger.go:83-111 | A swap is acknowledged if and only if the ledger is healthy, the stored record is the expected one and publication completes; a conflict is exactly a mismatch and changes nothing |
| LedgerModel.RunSound | internal/ledger/ledger.go:35-166 | While unpoisoned, memory equals file, at every state of every run with crashes |
| LedgerModel.CrashIsAllOrNothing | internal/ledger/publish.go:10-46 | A crash after any number of a publication's calls reopens to the whole old map or, from the rename on, the whole new one |
| LedgerModel.AcknowledgedSurvives | internal/ledger/ledger.go:138-166 | An acknowledged record survives every later fault and crash until an operation on the same task |
| LedgerModel.OneSwapWins | internal/ledger/ledger.go:83-111 | Of two swaps expecting the same record at most one is acknowledged |
| LedgerModel.PoisonLasts | internal/ledger/ledger.go:54-111 | A poisoned ledger refuses every operation and changes nothing until it is reopened |
| ConfigImport.ModeForFences | internal/runtimehelper/config_import_linux.go:100-116 | The mode is legacy exactly for a legacy request on an unfenced account; any other mode leaves a fence, and no fence is replaced |
| ConfigImport.Importer.ImportAccountConfig | internal/runtimehelper/config_import_linux.go:16-98 | Changes no earlier receipt or fence, keeps every task written at most once, answers success only with a durable receipt and one batch written without an error, failure only with one written with an error, and pending only for a task that has its receipt |
| ConfigImport.FirstImport | internal/runtimehelper/config_import_linux.go:49-97 | A task without a receipt is settled if and only if nothing stands in its way: imported if its batch was written without an error, failed if not; the batch is then the one addition |
| ConfigImport.ImportExtends | internal/runtimehelper/config_import_linux.go:49-97 | An import changes no earlier receipt or fence, writes at most the batch of its own task, in the mode the request and the fence call for, and settles a receipt only as that batch ended |
| ConfigImport.WrittenAtMostOnce | internal/runtimehelper/config_import_linux.go:49-97 | Over every run with crashes and retries a task's batch is written at most once |
| ConfigImport.SuccessIsDurable | internal/runtimehelper/config_import_linux.go:49-97 | At a first import or a retry, success is answered only with a durable "succeeded" receipt for this input and a batch written exactly once without an error, failure only with a "failed" one and a batch written with an error |
| ConfigImport.ReceiptTellsOutcome | internal/runtimehelper/config_import_linux.go:86-97 | In every run a receipt says "succeeded" only if the one batch of its task was written without an error and "failed" only if with one |
| ConfigImport.ReceiptsStay | internal/skillmanager/account_import_linux.go:86-99 | A receipt that a later import finds is never changed again |
| ConfigImport.AnsweredByReceipt | internal/runtimehelper/config_import_linux.go:57-66 | With a receipt the answer is its outcome for ever, "pending" for an unfinished one, and nothing is written |
| ConfigImport.NoLegacyAfterFence | internal/skillmanager/account_import_linux.go:35-58 | After a fence nothing is written for the account in legacy mode and the fence keeps its epoch |
| DeviceControl.ContextFile.UpdateContext | internal/runtimehelper/engine.go:434-491 | Accepted if and only if it decodes, belongs to the session, is written and may follow the stored context; what is stored afterwards may follow what was |
| DeviceControl.ContextFile.ClearContext | internal/runtimehelper/engine.go:493-543 | Succeeds if and only if it is well formed, for the managed session and the stored context, and removes what it names; says exactly whether there was something to remove, and leaves anything else unchanged |
| DeviceControl.UpdatesExactly | internal/runtimehelper/engine.go:434-491 | An update is accepted if and only if it decodes, belongs to the session, is written and may follow what is stored; the counters are carried over |
| DeviceControl.DecodesExactly | internal/devicecontrol/activation.go:178-220 | A payload decodes if and only if it is of protocol 1 with canonical identifiers, a macOS device, a mode with its capabilities, a live generation and a lease within the next 330 seconds |
| DeviceControl.CapabilitiesFollowMode | internal/devicecontrol/activation.go:223-238 | Full trust goes with its mode and nothing else, and every list of the second version has the required capabilities |
| DeviceControl.LoadsExactly | internal/runtimehelper/engine.go:588-606 | A stored context is read back if and only if its generation is live, it has drawn a number and it binds a macOS device with the capabilities of its mode |
| DeviceControl.StepFollows | internal/runtimehelper/engine.go:434-543 | Every step leaves a loadable file and a context that may follow the stored one |
| DeviceControl.TraceFollows | internal/runtimehelper/engine.go:434-491 | Between clears generation and lease never decrease, the binding is fixed and counters unreset within a generation, and capabilities change at most once, from none |
| DeviceControl.ClearFences | internal/runtimehelper/engine.go:493-543 | A successful clear leaves only newer generations, unchanged |
| DeviceControl.ClearsExactly | internal/runtimehelper/engine.go:493-543 | When a clear succeeds and whether it removes the file, if and only if |
| DeviceControl.TerminalClearRemoves | internal/devicecontrol/activation.go:25-28 | An inclusive clear at the reserved generation removes whatever was stored |
| DeviceControl.ManifestRoot.ActivateGeneration | internal/devicecontrol/activation.go:248-292 | Accepted if and only if nothing newer or different of the same generation is stored; no manifest is lost or replaced by an older one, and a refusal changes nothing |
| DeviceControl.ManifestRoot.DeactivateGeneration | internal/devicecontrol/activation.go:295-317 | Succeeds if and only if no manifest of another tool is stored and the one it names can be removed; leaves only newer generations of the session, touches no other, and reports exactly whether one was removed |
| DeviceControl.ManifestMonotone | internal/devicecontrol/activation.go:248-292 | Between deactivations manifests only move to newer generations, and within one are identical |
| DeviceControl.DeactivationFences | internal/devicecontrol/activation.go:295-317 | Deactivation leaves only newer generations, touches no other session, and at the reserved generation removes any valid manifest |
| DeviceControl.ActivatesLiveExactly | internal/devicecontrol/activation.go:248-292 | A session without a manifest can be activated in exactly the live generations |
| Attachments.ReceiveUpload | internal/claudeattachments/transfer.go:317-345 | A body is kept if and only if its file is new, fully received, fully written, closed and matches its checksum; otherwise the file is removed when it can be |
| Attachments.Cleanup | internal/claudeattachments/transfer.go:347-371 | Status and count for every combination of failures; the receipt validates; it is the last one on disk exactly when its own last write worked |
| Attachments.Serve | internal/claudeattachments/transfer.go:184-315 | Nothing happens without a complete lease within bounds and its offer; past the offer every stream ends with exactly one cleanup, after everything stored, whose receipt validates and counts every stored batch |
| Attachments.Round | internal/claudeattachments/transfer.go:228-314 | One frame keeps the session sound, never takes anything back from the log, the batches or the total, and a requested cleanup touches neither files nor log before it |
| Attachments.SessionSound | internal/claudeattachments/transfer.go:127-144 | For every stream, stored batches are distinct and within the entry limit, each answered upload was stored just before and is in the tree with its own bytes, and each size passed its test |
| Attachments.StoresExactly | internal/claudeattachments/transfer.go:127-144 | A round stores a body if and only if the opening was answered and the frame is a well-formed upload of this very session, device and lease for a new batch within its bounds, whose whole body with its checksum went into a new file |
| Attachments.ActsOnOwnFrames | internal/claudeattachments/transfer.go:119-152 | For every stream, each answer, each stored body and a requested cleanup was called for by a frame of this very session, device and lease |
| Attachments.SessionBytes | internal/claudeattachments/transfer.go:134-136 | A session exceeds its byte budget if and only if it stores an upload after meeting it, and by at most one full batch for each further entry of the lease |
| Attachments.OverrunExactly | internal/claudeattachments/transfer.go:134-136 | For every admitted sequence of sizes: over budget if and only if the sum met it before a later size |
| Attachments.BudgetCanBeExceeded | internal/claudeattachments/transfer.go:134-136 | A session over a lease of one byte stores two |
| Attachments.TestsAgreeExactly | internal/claudeattachments/transfer.go:134-136 | The test and the one without the sign guard agree on every size exactly while budget is left |
| Attachments.WithinBudget | internal/claudeattachments/transfer.go:134-136 | Without the sign guard the budget holds on every sequence |
| DeploymentStream.JudgesExactly | internal/runtimehelper/deployment_preparation_client.go:67-85 | What one frame is answered, against what is still owed: an object exactly when it is listed more often than served, an end with the receipt exactly when it validates |
| DeploymentStream.CountRemaining | internal/runtimehelper/deployment_preparation_client.go:61-66 | The listed file digests with their multiplicity |
| DeploymentStream.StreamObjects | internal/runtimehelper/deployment_preparation_client.go:59-97 | Against any peer it ends within one frame more than there are file entries, serves only listed files and none more often than listed, returns a receipt if and only if the conversation completes with a valid one, and otherwise says what went wrong first |
| JsonWalk.Decoder.WalkValue | internal/egobrowser/json.go:46-93 | The recursive walk accepts and consumes exactly what its specification does |
| JsonWalk.WalkAccepts | internal/egobrowser/json.go:46-93 | Every value with distinct names is accepted and exactly its tokens are consumed |
| JsonWalk.WalkBuilds | internal/egobrowser/json.go:46-93 | Whatever is consumed flattens a value with distinct names |
| JsonWalk.RejectDuplicateKeys | internal/egobrowser/json.go:31-44 | Accepts if and only if the stream flattens a single JSON value in which every object at every depth has distinct names (section 4 of RFC 8259) |
| SkillTree.DigestTree | internal/egobrowserartifact/artifact.go:212-264 | The bytes fed to the hash are the encoding of the regular files in walk order; refused exactly for other entries or no files |
| SkillTree.Digest.WriteTreeField | internal/egobrowserartifact/artifact.go:266-269 | A field and a NUL are appended |
| SkillTree.FeedSkillFiles | internal/managedskills/managedskills.go:99-138 | The walk of the second producer feeds the same encoding and collects exactly the files it fed; refused exactly for other entries or no files |
| SkillTree.VerifiedSkillFiles | internal/managedskills/managedskills.go:99-150 | The files are returned if and only if the tree can be walked and meets its pinned document and digests |
| SkillTree.OnlyThePinnedTree | internal/managedskills/managedskills.go:139-148 | When only one tree's bytes have the pinned digest, only that tree is ever installed |
| SkillTree.RoundTrip | internal/egobrowserartifact/artifact.go:238-269 | Decoding inverts encoding for every list with NUL-free paths, contents with NULs included |
| SkillTree.UniquelyDecodable | internal/egobrowserartifact/artifact.go:238-269 | Two lists have the same bytes if and only if they are equal |
| SkillTree.SameTree | internal/managedskills/managedskills.go:120-125 | The two producers feed the same bytes exactly for the same files in the same order |
| Framing.WriteAll | internal/egobrowser/framing.go:41-53 | Under any positive partial writes all data goes out exactly once; otherwise a prefix and an error |
| Framing.WriteFrame | internal/egobrowser/framing.go:29-39 | Header and body go out exactly once, or a prefix and an error; oversize writes nothing |
| Framing.ReadFrame | internal/egobrowser/framing.go:13-27 | Reads exactly one frame and leaves the rest |
| Framing.HeaderLength | internal/egobrowser/framing.go:13-39 | The length read back from a header is the one written |
| Framing.ParseExact | internal/egobrowser/framing.go:13-27 | A body and remainder are read if and only if the input is that body's frame followed by the remainder |
| Framing.StreamRoundTrip | internal/egobrowser/framing.go:13-53 | Any concatenation of frames reads back in order with the remainder untouched |
| Framing.CutIsTruncated | internal/egobrowser/framing.go:13-27 | A frame cut anywhere is reported as truncated |
| Bandwidth.Transfer | internal/portforward/tunnel.go:478-496 | The duration is the exact transfer time less a fraction of a nanosecond |
| Bandwidth.Limiter.Wait | internal/portforward/tunnel.go:478-513 | Starts at the later of now and the next free time and books the transfer time at the rate; a call that is not limited books nothing |
| Bandwidth.WindowBound | internal/portforward/tunnel.go:478-513 | Bytes starting in a window are at most rate times its length, the last write, and one nanosecond per further call |
| Bandwidth.AnyWindowBound | internal/portforward/tunnel.go:478-513 | The bound for every window of every run |
| Firewall.ParseAllowlist | internal/runtimehelper/engine.go:2585-2602 | Accepted if and only if there are at most 64 entries, all IPv4 CIDRs; the result is their networks in order |
| Firewall.NetworkIsBlock | internal/runtimehelper/engine.go:2595-2600 | Clearing host bits keeps the set of addresses, which is a block from the base on (section 3.1 of RFC 4632) |
| Firewall.NamespaceRules | internal/runtimehelper/engine.go:1992-2013 | The rule list in the order it is added |
| Firewall.RulesImplementPolicy | internal/runtimehelper/engine.go:1992-2013 | For every allowlist and packet, first match gives the policy: a new non-loopback packet is accepted if and only if it is IPv4 and allowlisted or not to an internal address, and is otherwise rejected |
| Firewall.DeniedIsInternal | internal/runtimehelper/engine.go:1999-1999 | The denied networks are exactly the internal addresses, given by their leading numbers: this network, private, shared, loopback, link-local and multicast |
| Firewall.Admits | internal/runtimehelper/engine.go:1992-2013 | The same from the configured entries, host bits as written |

## Left out

- Cryptography, hashing, base64 and randomness: digests and tokens are values compared for equality.
- HTTP clients and the validators of control-plane answers, among them the checks a renewal answer passes before it is committed.
- Unix sockets, peer credentials, ACLs, systemd, Docker, tmux, network namespaces and the invocation of nft.
- Account migration, finalization, takeover and reclamation.
- Command-line entry points, installers, configuration defaults, metrics, capability probes and platform stubs.
- Origin canonicalisation.
- Power loss: only process crashes are modelled; the broker's sequence file has no directory sync.
- Permit request metadata, scope and allowlist checks, and the lease renewal decided before the issuing critical section, which would add single-branch refusals.
- CancelRequest and the channel that reports a finished forward; both expiry paths drop an entry without closing that channel, so nothing is claimed about it.
- SendOrder.WritesOrdered: states the order for requests that are registered when they are written, because the unrestricted order is false of the code (`FramesCanOvertake`).
- BrokerObject.Broker.Close: states the outcome when no other call interleaves with its two critical sections; the runs of `BrokerCore` have them as separate events.
- Binding-state objects are values in a map with `Ref` identity, not heap objects.
- The bytes of relay frames, cancellation frames and the decoding of responses: a response is valid or not.
- A crash in `RelayWorld`: it ends the process and with it every thread and relay, so its runs are those of one process.
- Ledger listing order, the JSON text of the ledger and the permission checks on its path.
- Text parsing of CIDR strings and IPv4-mapped IPv6 addresses: `Firewall` starts from the parsed entry.
- Clearing a context whose session specification is missing, which answers without touching a file.
- Activation manifests that cannot be read: a stored manifest is one that was activated.
- A file that changes while its tree is being hashed, and file modes and ownership.
- A broker that is switched off, which refuses every call.
- The decoder's own syntax errors are one `Bad` token, which the walk refuses wherever it meets it.
- Attachment frame syntax: canonical UUIDs, leaf names, kinds and checksum text are one flag of a frame, and bytes of one line are not modelled.
- Bandwidth.Transfer: exact division rounded down; floating-point rounding, overflow of the duration and the byte counters of the writer are not modelled.
- The order in which a map's entries are visited: loops over maps pick any remaining entry.
