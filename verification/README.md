# Pairling companion daemon: a verified model

This project models the stateful cores of the Pairling companion daemon in Dafny and proves
what they promise. Database tables are maps, files are byte sequences, a `BEGIN IMMEDIATE`
block is one atomic change, and every file-system effect is one atomic change of its own, so a
process can die between any two of them. SHA-256, HMAC, base64 and token hashing are arbitrary
functions; nothing is assumed about them unless a lemma says so in its `requires`.

Check everything with `dafny verify dfyconfig.toml`.

## What is modelled

**PairDrop uploads** (`UploadModel` … `UploadCalls`). `UploadModel` holds the durable state of a
vault (session rows with their chunk rows, file rows, partial files, object slots, free space)
and the decisions of each transaction. `UploadMachine` runs any number of processes over it,
interleaved at every effect: chunk writes with torn writes, completion split into load, check,
claim, publish and commit, stale recovery from a listing of any age, cancellation, the sweep of partials and lock files,
inline uploads, deletion (which also frees the create key), purge, and a crash of any process anywhere. Processes share lock files
by inode, and completers and the sweeper unlink them. `UploadInvariant` and `UploadSteps` carry
the invariant through all 35 kinds of step; `UploadCapacity` does the same for free space;
`UploadTheorems` states what follows for every run. `UploadStore` is the imperative store, a
class whose methods are proved equal to the specification functions, and `UploadCalls` shows
those functions to be runs of the machine and states what a sender can rely on.

**Purge** (`Purge`): the quarantine-based deletion with every fault of every effect, every crash
point and any number of retries, before, between and after the two effects of the delete. **Paging** (`Pages`): the keyset listing, on fixed and on
changing tables.

**Managed provider sessions**. `DriverEvents`: the deduplicated event log and the lifecycle
derived from it. `ProtocolModel`, `ProtocolTheorems`, `ProtocolReplays`, `ProtocolPages`,
`ProtocolStore`: the protocol store with its digest chain, ownership epochs, leases,
confirmations and action graph, over every sequence of requests at any clock readings;
`ProtocolRuns` holds the runs from empty tables and the conditions under which they go that way.
`Forks`: reservations, registration of the child, and restart reconciliation.

**Devices** (`Devices`, `DeviceTheorems`, `DeviceHalves`, `DeviceStore`): pending, active, expired
and superseded devices, one live device per relay identity. Device ids are random in the code;
the theorems over runs of devices assume that a new id is neither in the registry nor referred
to by it (`DeviceTheorems.FreshRun`, `DeviceHalves.FreshHalf`). **Bridge** (`Bridge`): keeping exactly one local
MCP credential through failed writes and crashes.

**Encodings**. `TextLines`, `Canonical`, `ClaimResult`: the line-based authenticated encodings.
`Bytes`, `Cbor`, `CborTheorems`: the CBOR reader (section 3 of RFC 8949) against an independent
encoder with every head width. `Der`: the octet-string reader (section 8.1.3 of X.690).

**Key locks** (`KeyLocks`): the reference-counted lock table under every interleaving.

Code that changes things step by step is a class or a method with loops; it is proved equal to a
function on values, and the theorems are about runs of those functions.

## Where the code does not do what one would expect

Each of these is a lemma, with the exact condition where there is one.

- Free space does not always cover what open uploads may still send: an overdue upload's space
  can be granted again by a transaction whose expiry is then rolled back by a crash
  (`UploadTheorems.OverdueUploadsDoNotCount`). Counting uploads as the next transaction will,
  conservation holds over every run (`UploadTheorems.CapacityIsConserved`). Counting the table as
  it stands, only the grant of an inline upload can break the bound, and it keeps it exactly if
  there is room for its bytes beside the table, overdue uploads included
  (`UploadTheorems.PlainBoundBreaksAtGrants`); so the bound holds throughout a run exactly if every
  grant had that room (`UploadTheorems.PlainBoundOverRuns`), and in any state where nothing is
  overdue (`UploadTheorems.CapacityWhileNothingIsOverdue`).
- A recovery whose listing is stale unlinks the partial file before its compare-and-swap finds
  that the upload has been resumed. On any disk it does so exactly when the partial would not pass
  the checks of a completion, be it damaged or merely unfinished
  (`UploadCalls.StaleRecoveryDropsBytes`); `UploadCalls.StaleRecoveryHappens` plays it through
  from a claim whose partial was removed from outside. With only the store at work it cannot
  happen (`UploadSteps.RestartKeeps`).
- Cutting a batch of driver events in two can change `closed_at` and driver availability, exactly
  when the session was closed at the cut and open at the end
  (`DriverEvents.SplitAgreesOnClosing`, `DriverEvents.ClosingTimeDependsOnTheCut`).
- Completing an applied action again replaces its result: only the state is final. Over any run
  the result stands exactly if no accepted completion brings another digest
  (`ProtocolRuns.ResultsStand`); a run from empty tables replaces one
  (`ProtocolRuns.ResultIsReplaced`).
- Confirmations, unlike leases, can be issued after the terminal event: whether one is issued
  does not depend on what the session's row says (`ProtocolRuns.ConfirmingIgnoresSessions`,
  `ProtocolRuns.ConfirmedAfterTheEnd`).
- Two leases on one scope are both live once the clock has been set back
  (`ProtocolRuns.BothLiveIfTheClockRunsBack`); two are live at one instant only if one of them was
  issued after it (`ProtocolTheorems.OneHolderPerScope`).
- Registering a fork overwrites the reservation's cursor with the provider's, so a repeated
  prepare with the original proof is then refused, exactly if the cursors differ
  (`Forks.RegistrationReplacesTheCursor`, `Forks.PrepareIsRefusedAfterwards`).
- Creating a device and rolling one back look rows up before their transaction begins. Two
  creates of one relay identity that overlap leave two live devices although the clock strictly
  increases (`DeviceHalves.CreatesRace`), and so does a rollback that a create overtakes
  (`DeviceHalves.RollbackRaces`). A create keeps uniqueness exactly if it saw every present holder
  (`DeviceHalves.CreateUnique`), a rollback exactly if it hands on or nobody holds what it gives
  back (`DeviceHalves.RollbackUnique`); if nobody changes the registry between the halves, no
  interleaving shows two (`DeviceHalves.UniqueIfUndisturbed`). The one caller of `create_device`
  in the repository passes no relay identity.
- For the same reason a device revoked by hand can come back to life: a create that saw it live
  overwrites the revocation, and rolling that create back undoes it
  (`DeviceHalves.RevocationIsUndone`). Unless some create had seen the device before, the
  revocation stands over any interleaving (`DeviceHalves.RevocationStands`).
- With calls that read the same clock value, seven calls end with two live devices of one relay
  identity (`DeviceTheorems.EqualTimesBreakUniqueness`); with a strictly increasing clock that
  never happens.
- Rolling a device back right after creating it restores the registry exactly when the identity
  did not also have another unrevoked row beside its active one
  (`DeviceTheorems.RollbackUndoesCreate`).

## Model

| member | source | states |
|---|---|---|
| `UploadTheorems.ChunksTileThePartial` | mac/companiond/pairdrop_store.py:1678-1826 | After any run with crashes, an open upload's chunk rows tile [0, verified) without gap or overlap, each row's digest is that of the partial's bytes there, and the partial begins with the acknowledged bytes |
| `UploadTheorems.AcknowledgedStay` | mac/companiond/pairdrop_store.py:1678-1826 | No step of any process shortens or alters the bytes acknowledged for an upload |
| `UploadTheorems.CommittedMatches` | mac/companiond/pairdrop_store.py:2081-2193 | In every reachable state a committed upload has a file row of the declared length and digest, and until that file is deleted its object holds exactly the acknowledged bytes |
| `UploadTheorems.OneFilePerUpload` | mac/companiond/pairdrop_store.py:1898-2193 | Over a whole run, deleted and purged files included, at most one file row is ever made for an upload |
| `UploadTheorems.EveryStepMoves` | mac/companiond/pairdrop_store.py:1828-2371 | Every step of every process moves a row only along the upload state graph: declarations never change, only open uploads are claimed, only a claim commits, `expired` and `failed_terminal` may still become `cancelled`, and a create key goes only with the death of its upload or the deletion of its file |
| `UploadTheorems.TerminalStaysOverRuns` | mac/companiond/pairdrop_store.py:2195-2241 | Over any run a terminal or forgotten upload never becomes live again, and `committed` and `cancelled` never change while the row exists |
| `UploadTheorems.ClaimIsFinal` | mac/companiond/pairdrop_store.py:2014-2051 | Once claimed, an upload stays completing or committed under the same file id over any run, whatever cancels, sweeps, crashes or recoveries come: of complete and cancel at most one wins |
| `UploadTheorems.CancelIsFinal` | mac/companiond/pairdrop_store.py:2195-2241 | A cancel by the sender either comes too late and changes nothing, exactly when the upload is claimed or committed, or the upload stays cancelled over any later run |
| `UploadTheorems.OneLockWhileLive` | mac/companiond/pairdrop_store.py:617-683 | Although lock files are unlinked under their users, all users of a live upload have opened one inode and at most one of them holds it, in every reachable state |
| `UploadTheorems.RetryCompletes` | mac/companiond/pairdrop_store.py:1898-2012 | From any reachable state in which a claim was abandoned, one undisturbed retry by the sender ends committed under the claimed file id, with the declared size and digest |
| `UploadCalls.StaleRecoveryDropsBytes` | mac/companiond/pairdrop_store.py:3297-3382 | On any disk, recovering an upload that is open again loses its partial, with the verified offset left standing, exactly when the partial does not pass the checks of a completion |
| `UploadCalls.StaleRecoveryHappens` | mac/companiond/pairdrop_store.py:3297-3382 | Four calls on one concrete disk: a claim without a partial is thrown back, the sender acknowledges a byte, a second recovery from the old listing removes it, and the next write is told to restart |
| `UploadSteps.RestartKeeps` | mac/companiond/pairdrop_store.py:3297-3382 | While only the store touches partials, stale recovery never restarts any upload in a reachable state |
| `UploadTheorems.RunKeepsKeys` | mac/companiond/pairdrop_store.py:1470-1589 | Over any run at most one upload of a source holds a create key, so the unique index is never violated |
| `UploadTheorems.CreateReplays` | mac/companiond/pairdrop_store.py:1470-2341 | After a create, at any point of any later run, repeating the request answers that upload if and only if it is alive, or committed with its file undeleted; otherwise, unless another upload took the key, it makes a new one if there is room |
| `UploadTheorems.CapacityIsConserved` | mac/companiond/pairdrop_store.py:1848-1877 | With the reserve free at the start, every run keeps the reserve free at all times, and free space plus truncatable overhang covers the reserve, all bytes unfinished uploads may still send and the rest of an inline upload |
| `UploadTheorems.CapacityWhileNothingIsOverdue` | mac/companiond/pairdrop_store.py:1848-1877 | In every reachable state without an overdue open upload, the plain sums over the table satisfy the same bound |
| `UploadTheorems.PlainBoundBreaksAtGrants` | mac/companiond/pairdrop_store.py:1370-1468 | From any reachable state in which the plain sums satisfy the bound, any step of any process leaves it satisfied if and only if it does not grant an inline upload, or there is room for the bytes beside the reserve and all unfinished uploads of the table: the capacity test taken without the expiry |
| `UploadTheorems.PlainBoundOverRuns` | mac/companiond/pairdrop_store.py:1370-1468 | From a vault with the reserve free, the plain bound holds at every point of a run if and only if every inline upload granted in it had that room |
| `UploadTheorems.OverdueUploadsDoNotCount` | mac/companiond/pairdrop_store.py:1370-1468 | A concrete run after which free space does not cover the bytes of an overdue upload that is still marked open |
| `UploadCapacity.CapacityMeaning` | mac/companiond/pairdrop_store.py:1828-1877 | The invariant carried by the steps is the same as the vault's own count after its next expiry |
| `UploadCapacity.OverhangWithinRemaining` | mac/companiond/pairdrop_store.py:1782-1806 | A torn write never leaves more behind the verified offset than the upload may still send |
| `UploadCapacity.RunCap` | mac/companiond/pairdrop_store.py:1370-1589 | Capacity and the machine invariant survive every interleaving of every action, crashes included |
| `UploadCapacity.StepFits` | mac/companiond/pairdrop_store.py:1370-1589 | Counting uploads as of the transaction's time or any earlier one, a covered state stays covered by every step, but for a granted inline upload, which must be covered as of that time |
| `UploadSteps.StepKeeps` | mac/companiond/pairdrop_store.py:1678-2241 | Whatever one step any process takes, or wherever it dies, the whole invariant survives |
| `UploadSteps.RunKeeps` | mac/companiond/pairdrop_store.py:1678-2241 | The invariant holds after any sequence of steps |
| `UploadSteps.JudgedLate` | mac/companiond/pairdrop_store.py:1722-1782 | A write that passes the early checks on an undamaged partial is never told to restart, trims exactly the overhang, and is accepted only at the verified offset, under a new key, within the declared size |
| `UploadSteps.SweepPartialKeeps` | mac/companiond/pairdrop_store.py:3384-3468 | Sweeping a partial by age and by its snapshot of active uploads breaks nothing, even for uploads created after the snapshot |
| `UploadSteps.SweepUnlinkKeeps` | mac/companiond/pairdrop_store.py:3470-3505 | Unlinking an old lock file under its lock breaks nothing, even for operations waiting on it |
| `UploadInvariant.TilesAppend` | mac/companiond/pairdrop_store.py:1782-1806 | Recording a chunk at the verified offset extends the tiling by exactly that chunk |
| `UploadInvariant.Exclusive` | mac/companiond/pairdrop_store.py:617-651 | Two processes inside the lock of one live upload are the same process |
| `UploadStore.Vault.WriteUploadChunk` | mac/companiond/pairdrop_store.py:1678-1826 | The method's rows, partial, free space and verdict are exactly those of the specification of a chunk write, in every refusal, replay, restart and success |
| `UploadStore.Vault.JudgeChunk` | mac/companiond/pairdrop_store.py:1758-1782 | Accepts exactly the next bytes in order under a new key within size and capacity, replays exactly a recorded or already verified chunk whose bytes are in the partial, and refuses the rest with the specified reason |
| `UploadStore.Vault.ReservedUploadBytes` | mac/companiond/pairdrop_store.py:1848-1862 | The loop's total is the sum of the remaining bytes of all unfinished uploads |
| `UploadStore.Vault.RequireReservedCapacity` | mac/companiond/pairdrop_store.py:1864-1877 | Accepts exactly when free space, counted as at least zero, covers reserved, additional and reserve bytes |
| `UploadStore.Vault.CompleteUpload` | mac/companiond/pairdrop_store.py:1898-2012 | Rows, object, partial and answer of a whole completion are those of the specification, resumed claims and all failures included |
| `UploadStore.Vault.Commit` | mac/companiond/pairdrop_store.py:2081-2193 | Inserts the file row and retires the upload, or refuses and changes nothing |
| `UploadStore.Vault.CreateUpload` | mac/companiond/pairdrop_store.py:1470-1589 | Answers a reused upload, a new one or an error as specified, and changes the table only as that answer says |
| `UploadStore.Vault.CancelUpload` | mac/companiond/pairdrop_store.py:2195-2241 | Succeeds exactly for the sender of an upload that is neither claimed nor committed, which is then cancelled without chunks and otherwise as declared; no other row changes, and a refusal changes nothing |
| `UploadStore.Vault.RecoverStaleCompletions` | mac/companiond/pairdrop_store.py:3297-3382 | The loop over a listing leaves the disk and the three counts of the specification, whatever state each listed upload is in by then |
| `UploadStore.Vault.SweepPartials` | mac/companiond/pairdrop_store.py:3436-3468 | Removes exactly the old partials of inactive uploads, counts them, and turns their bytes into free space |
| `UploadStore.Vault.CleanupPartials` | mac/companiond/pairdrop_store.py:3384-3468 | Recovers the listed claims, then expires overdue uploads, then removes exactly the old partials of those left inactive and frees their bytes; files and objects are as the recovery left them |
| `UploadCalls.WriteRefines` | mac/companiond/pairdrop_store.py:1646-1826 | A whole write call is an undisturbed run of the machine: same final disk, and the invariant holds after it |
| `UploadCalls.CompleteRefines` | mac/companiond/pairdrop_store.py:1898-2012 | A whole completion, from opening the lock file to releasing it, is an undisturbed run of the machine: same final disk, and the invariant holds after it |
| `UploadCalls.RecoverRefines` | mac/companiond/pairdrop_store.py:3297-3382 | Recovering an upload of a listing, however old, is an undisturbed run of the machine from lock to release: same final disk, and the invariant holds after it |
| `UploadCalls.ReplayIsSafe` | mac/companiond/pairdrop_store.py:1755-1776 | In any reachable state, resending a recorded chunk is answered as a replay at the current offset and leaves exactly the acknowledged bytes in the partial |
| `UploadCalls.NextChunkIsAccepted` | mac/companiond/pairdrop_store.py:1777-1806 | The next bytes in order are appended and acknowledged exactly when capacity allows; otherwise the rows do not change |
| `UploadCalls.CompletesExactly` | mac/companiond/pairdrop_store.py:1898-2193 | Completion succeeds exactly when all declared bytes were acknowledged with the declared digest and the upload is unexpired, claimed or committed, and then the file holds exactly those bytes |
| `UploadCalls.PublishedIsNeverReset` | mac/companiond/pairdrop_store.py:3297-3382 | On any disk, recovery neither resets an upload whose object is in its slot nor touches a partial |
| `UploadCalls.RecoveryFinishes` | mac/companiond/pairdrop_store.py:3297-3382 | In every reachable state, recovering a claimed upload commits it under its claimed file id with the acknowledged bytes |
| `UploadCalls.OthersOnlyExpire` | mac/companiond/pairdrop_store.py:3297-3382 | Completing or recovering one upload changes no other row beyond expiry and no other partial |
| `Purge.AttemptSafe` | mac/companiond/pairdrop_store.py:2372-2594 | At every durable state of one attempt, under any faults and any name, the bytes the file held are in at most one of slot and quarantine, all there as long as the row is, and the row goes only if it was deleted and rightly named |
| `Purge.TriesAreSafe` | mac/companiond/pairdrop_store.py:2310-2594 | The same over any mix of failed, mistaken and killed purges with the two effects of a delete: the bytes go only with an unlink after the file was deleted, or with the row, and the row only if the file was deleted |
| `Purge.RetryFinishes` | mac/companiond/pairdrop_store.py:2310-2594 | From wherever earlier attempts left off, the object still there or already unlinked by the delete, one fault-free exact retry leaves neither row, slot, quarantine entry nor recovery record; a file not deleted is refused |
| `Purge.SuccessMeansGone` | mac/companiond/pairdrop_store.py:2575-2594 | Success under any faults means that nothing of the file is left and that the right deleted file was named |
| `Purge.OthersUntouched` | mac/companiond/pairdrop_store.py:2409-2413 | A live file, or one of another name, is refused without any effect |
| `Purge.FailureRestores` | mac/companiond/pairdrop_store.py:2484-2568 | A failed purge leaves row, slot and quarantine as they were unless it reports that recovery or cleanup is needed; no other outcomes exist |
| `Purge.NeverAmbiguous` | mac/companiond/pairdrop_store.py:2310-2425 | After any attempts and deletes the purge never finds bytes in both places |
| `Purge.PurgeStore.PurgeDeletedFile` | mac/companiond/pairdrop_store.py:2372-2594 | The method passes through exactly the specified durable states and gives the specified answer under any faults |
| `Purge.PurgeStore.DeleteFile` | mac/companiond/pairdrop_store.py:2310-2371 | Marks a known row and then unlinks its object, the two steps of the runs above, and says whether it was marked already; an unknown id changes nothing |
| `Pages.PagesAreTheListing` | mac/companiond/pairdrop_store.py:2243-2296 | On a fixed table, following cursors with any page size yields exactly the unpaged listing |
| `Pages.NoFileTwice` | mac/companiond/pairdrop_store.py:2254-2296 | With any inserts and deletes between pages no file is returned twice |
| `Pages.NoFileMissed` | mac/companiond/pairdrop_store.py:2254-2296 | A complete walk returns every file that was there on each of its pages |
| `Pages.PageSplits` | mac/companiond/pairdrop_store.py:2282-2296 | A page with a successor is full, leads to a cursor that will be accepted, and leaves exactly the files below its last one |
| `Pages.DownIsUnique` | mac/companiond/pairdrop_store.py:2243-2252 | The ordering fixes the listing: a strictly descending list is determined by its members |
| `DriverEvents.AppendKeepsGapless` | mac/companiond/managed_provider_sessions.py:1998-2091 | Every append keeps the log numbered from 1 without gap and free of repeated (binding, generation, cursor), only extends it, and counts what it inserted |
| `DriverEvents.SplitAgrees` | mac/companiond/managed_provider_sessions.py:1998-2091 | Feeding events in one append or cut anywhere in two gives the same log, lifecycle, turn state, reason, cursor and time |
| `DriverEvents.SplitAgreesOnClosing` | mac/companiond/managed_provider_sessions.py:2072-2090 | Closing time and availability agree exactly under the stated condition on the cut |
| `DriverEvents.ClosingTimeDependsOnTheCut` | mac/companiond/managed_provider_sessions.py:2072-2090 | Two concrete events for which the cut changes the closing time |
| `DriverEvents.ReplayInsertsNothing` | mac/companiond/managed_provider_sessions.py:2044-2062 | Sending any of the same events again inserts nothing and changes nothing |
| `DriverEvents.ClosedAtStays` | mac/companiond/managed_provider_sessions.py:2063-2074 | A closing time is never cleared and time never runs back, although the session may leave `closed` |
| `DriverEvents.RowsAlwaysFit` | mac/companiond/managed_provider_sessions.py:1998-2091 | After any appends to a new session, from any binding and generation, a blocked session says why, one at work gives no reason, a closed one has its closing time and no driver, and the log is gapless |
| `DriverEvents.SessionRow.AppendDriverEvents` | mac/companiond/managed_provider_sessions.py:1998-2091 | The method's row and log after the loop and its count are those of the specification |
| `ProtocolTheorems.EventsFormAChain` | mac/companiond/managed_provider_sessions.py:3608-3917 | In every reachable state a session's events have sequences 0..n, each names the digest, state and version of the one before, one stream, and nothing follows a terminal event |
| `ProtocolTheorems.RunSound` | mac/companiond/managed_provider_sessions.py:2658-3356 | Chains, action order, lease turns and one-to-one consumption survive any requests at any clock readings |
| `ProtocolTheorems.RunOnwards` | mac/companiond/managed_provider_sessions.py:2124-2170 | Over any run, generation refreshes included, logs only grow, the ownership epoch never falls and an ended log stays as it is |
| `ProtocolTheorems.OneHolderPerScope` | mac/companiond/managed_provider_sessions.py:2972-3099 | Whatever the clock does, two leases of one scope are live at one instant only if one of them was issued after it |
| `ProtocolTheorems.OneHolderNow` | mac/companiond/managed_provider_sessions.py:2972-3099 | With a monotone clock there is at most one live lease per session and scope from the last request on |
| `ProtocolRuns.BothLiveIfTheClockRunsBack` | mac/companiond/managed_provider_sessions.py:3060-3094 | A run from empty tables whose clock is set back at the end, after which two leases of one scope are live at the time of its last request |
| `ProtocolTheorems.NoLeaseAfterTheEnd` | mac/companiond/managed_provider_sessions.py:3901-3906 | After a session's terminal event none of its leases is live, then or after any later requests |
| `ProtocolTheorems.ActionsClimb` | mac/companiond/managed_provider_sessions.py:80-93 | Over any run an action keeps its ten identity fields and its state only moves along the transition graph |
| `ProtocolTheorems.ActionsAreInOrder` | mac/companiond/managed_provider_sessions.py:2810-2953 | Applied, in progress and unknown actions were dispatched first; completion is dated exactly in applied and rejected |
| `ProtocolRuns.ResultsStand` | mac/companiond/managed_provider_sessions.py:2880-2953 | Over any run an action has its result before and after every request if and only if no accepted completion, alone or with an event, brings another digest for it; a finished state stays in either case |
| `ProtocolRuns.ResultIsReplaced` | mac/companiond/managed_provider_sessions.py:2912-2944 | A run from empty tables in which an applied action answers one result and, after one more completion, another |
| `ProtocolTheorems.ConfirmationsAreOneToOne` | mac/companiond/managed_provider_sessions.py:3290-3356 | Consumed confirmations and the actions they authorized correspond one to one and agree on all identity fields |
| `ProtocolTheorems.ConsumedOnce` | mac/companiond/managed_provider_sessions.py:3290-3356 | Who consumed a confirmation never changes |
| `ProtocolRuns.ConfirmingIgnoresSessions` | mac/companiond/managed_provider_sessions.py:3153-3288 | A confirmation under a new id is issued if and only if its times, negotiation and snapshot allow it and its session has a row, whatever that row says, while every lease of an ended session is refused |
| `ProtocolRuns.ConfirmedAfterTheEnd` | mac/companiond/managed_provider_sessions.py:3153-3288 | A run from empty tables that ends a session and then issues an unrevoked confirmation about it |
| `ProtocolReplays.LostRepliesAreRepaired` | mac/companiond/managed_provider_sessions.py:2658-3917 | Any accepted action, lease, confirmation or event request, sent again, is answered as a replay and changes nothing |
| `ProtocolReplays.EventsReplayForever` | mac/companiond/managed_provider_sessions.py:3710-3724 | An accepted event is answered as a replay after any later requests, the end of its session included |
| `ProtocolReplays.DispatchedOnce` | mac/companiond/managed_provider_sessions.py:2810-2878 | Once an action has left `reserved`, no later request ever dispatches it to another provider operation or cursor |
| `ProtocolReplays.GrantIsLive` | mac/companiond/managed_provider_sessions.py:3070-3099 | A granted lease is live from the grant exactly until its expiry, and no other lease changes |
| `ProtocolReplays.RevokingEnds` | mac/companiond/managed_provider_sessions.py:3126-3151 | Revoking works exactly for the holder of a known lease, touches no other lease, and that lease is never live again over any later requests |
| `ProtocolPages.FollowReadsInOrder` | mac/companiond/managed_provider_sessions.py:3919-3968 | While the log grows, the pages read so far are the first events of the generation, in order and once each |
| `ProtocolPages.FollowCatchesUp` | mac/companiond/managed_provider_sessions.py:3919-3968 | A reader that asks often enough has read every event of the generation |
| `ProtocolPages.ReadingARun` | mac/companiond/managed_provider_sessions.py:3919-3968 | However the calls of a reader are mixed with the requests of others, no page is refused and the pages are, in order and each once, the first events of the generation |
| `ProtocolStore.Store.AppendProtocolEvent` | mac/companiond/managed_provider_sessions.py:3608-3917 | An accepted event is one more in a log that had not ended, other sessions are untouched, actions move only by a completion, a terminal event leaves no lease of the session unrevoked, and after any later requests the event is replayed; a refusal or replay changes nothing, and the store stays one that its request history leads to |
| `ProtocolStore.Store.ReserveProtocolAction` | mac/companiond/managed_provider_sessions.py:2658-2799 | Accepts exactly if negotiation, snapshot and session allow it and the id is free or bound to the same request; a new action is reserved, undispatched, and no other row changes, and the store stays one that its request history leads to |
| `ProtocolStore.Store.MarkDispatchStarted` | mac/companiond/managed_provider_sessions.py:2810-2878 | Once accepted the action is dispatched under this operation and cursor, after any later requests no other dispatch of it is accepted, and no other row changes, and the store stays one that its request history leads to |
| `ProtocolStore.Store.CompleteProtocolAction` | mac/companiond/managed_provider_sessions.py:2880-2953 | Accepts exactly the edges of the state graph into a result; then the action has that state and result under its old identity, and no other row changes, and the store stays one that its request history leads to |
| `ProtocolStore.Store.IssueProtocolLease` | mac/companiond/managed_provider_sessions.py:2972-3099 | A new lease is live from now exactly to its expiry, within its negotiation and under the present epoch of a session that has not ended, and is the only one that holds its scope now; a refusal or replay changes nothing, and the store stays one that its request history leads to |
| `ProtocolStore.Store.RevokeProtocolLease` | mac/companiond/managed_provider_sessions.py:3126-3151 | Works exactly for the principal of a known lease, which is then live at no instant; no other lease changes, and the store stays one that its request history leads to |
| `ProtocolStore.Store.IssueProtocolConfirmation` | mac/companiond/managed_provider_sessions.py:3153-3288 | An accepted confirmation is bound to the snapshot and negotiation that cover it and outlives neither; a new one is unconsumed and unrevoked, its session has a row, and no other confirmation changes, and the store stays one that its request history leads to |
| `ProtocolStore.Store.ConsumeProtocolConfirmation` | mac/companiond/managed_provider_sessions.py:3290-3356 | An accepted one is consumed by exactly this reserved action of the same identity and principal, in time, and after any later requests is refused to every other action; no second confirmation names the action and no other row changes, and the store stays one that its request history leads to |
| `ProtocolStore.Store.ActiveNegotiation` | mac/companiond/managed_provider_sessions.py:2316-2339 | Finds no error exactly for a known negotiation of this principal that is neither revoked nor run out |
| `ProtocolStore.Store.ValidIsSound` | mac/companiond/managed_provider_sessions.py:2658-3917 | Whatever the store's methods were called with, at any clock readings, event chains, action order, lease turns and one-to-one consumption hold in its tables |
| `ProtocolStore.Store.RefreshCapabilityGeneration` | mac/companiond/managed_provider_sessions.py:2124-2170 | Moves a session to another generation as one step of the request machine, only from the generation expected |
| `Forks.OneReservationPerAction` | mac/companiond/managed_provider_sessions.py:1503-1607 | In every reachable state a parent and client action have one reservation |
| `Forks.ExactlyOneChild` | mac/companiond/managed_provider_sessions.py:1668-1893 | A registered reservation owns exactly the one session that names it; prepared and sealed ones own none |
| `Forks.SettledForksStay` | mac/companiond/managed_provider_sessions.py:1642-1666 | Over any run a reservation settles at most once; a registered one keeps its child and a sealed one never gets one |
| `Forks.RegisteringReplays` | mac/companiond/managed_provider_sessions.py:1668-1893 | Registering again with the same proof after any later steps answers the same child and changes nothing |
| `Forks.PreparingReplays` | mac/companiond/managed_provider_sessions.py:1503-1607 | Preparing again answers the same reservation exactly while the proof still matches it |
| `Forks.RegistrationReplacesTheCursor` | mac/companiond/managed_provider_sessions.py:1503-1893 | In any reachable state, after an accepted registration the original prepare is answered as before if and only if the provider reported the cursor of the reservation |
| `Forks.PrepareIsRefusedAfterwards` | mac/companiond/managed_provider_sessions.py:1503-1893 | A run from empty: a parent is launched, forked and its child registered, and the same prepare is then refused |
| `Forks.ReconcileSettles` | mac/companiond/managed_provider_sessions.py:4904-4939 | Reconciliation leaves none of its reservations prepared and disturbs no settled one |
| `Forks.Manager.PrepareFork` | mac/companiond/managed_provider_sessions.py:1503-1607 | Token and tables are those of the specification, or an error and no change |
| `Forks.Manager.RegisterForkChild` | mac/companiond/managed_provider_sessions.py:1668-1893 | Child and tables are those of the specification, or an error and no change |
| `Forks.Manager.RegisterForkResult` | mac/companiond/managed_provider_sessions.py:4438-4494 | A report is registered as specified, and any failure after the reservation is found seals it |
| `Forks.Manager.ReconcilePreparedForks` | mac/companiond/managed_provider_sessions.py:4904-4939 | The loop leaves exactly the specified tables for any recovery answers |
| `DeviceTheorems.OneLiveDevicePerIdentity` | mac/companiond/pairling_devices.py:944-1081 | With a strictly increasing clock and ids never used before, no run of whole calls (creates, pending creates, activations, prunes, revocations and rollbacks) ever shows two live devices of one relay identity |
| `DeviceTheorems.StepInv` | mac/companiond/pairling_devices.py:944-1727 | Each whole call keeps uniqueness, the supersession dates and the pairing of claims with devices |
| `DeviceTheorems.EqualTimesBreakUniqueness` | mac/companiond/pairling_devices.py:1755-1835 | A concrete run, its clock never running back, that ends with two live devices of one identity |
| `DeviceHalves.UniqueIfUndisturbed` | mac/companiond/pairling_devices.py:944-1835 | With creates and rollbacks split into their reads and their transaction and interleaved with everything else, no interleaving shows two live devices of one identity as long as nobody changes the registry between the halves of a call |
| `DeviceHalves.CreateUnique` | mac/companiond/pairling_devices.py:988-1047 | The transaction of a create keeps one live device per identity if and only if every present holder of its identity was seen by its lookup |
| `DeviceHalves.RollbackUnique` | mac/companiond/pairling_devices.py:1755-1835 | The transaction of a rollback keeps one live device per identity if and only if it hands on to a successor or nobody else is live, or restored, under the identity of a device it restores |
| `DeviceHalves.CreatesRace` | mac/companiond/pairling_devices.py:988-1047 | Two creates of one identity whose lookups both precede both transactions, with a strictly increasing clock, end with two live devices |
| `DeviceHalves.RollbackRaces` | mac/companiond/pairling_devices.py:1755-1835 | After three undisturbed creates, the last between the halves of a rollback of the second, the rollback makes the first live beside the third |
| `DeviceHalves.RevocationStands` | mac/companiond/pairling_devices.py:988-1047 | Over any interleaving a device revoked by hand is never live again if no create that has yet to write had seen it live |
| `DeviceHalves.BarredUnlessSeen` | mac/companiond/pairling_devices.py:988-1047 | The transaction of a create leaves a revocation by hand as it is if and only if its lookup had not seen the device live |
| `DeviceHalves.RevocationIsUndone` | mac/companiond/pairling_devices.py:988-1835 | A run in which a revocation falls between the halves of a create, is overwritten, and is undone by an undisturbed rollback |
| `DeviceTheorems.DeadClaimsAreRefused` | mac/companiond/pairling_devices.py:1426-1727 | An expired or superseded claim is refused and nothing changes, whatever proof comes with it |
| `DeviceTheorems.DeadForever` | mac/companiond/pairling_devices.py:1280-1362 | Over any run a device that expired or lost its race is never active again under its id |
| `DeviceTheorems.RevokedForGood` | mac/companiond/pairling_devices.py:2118-2132 | Over any later run a device revoked by hand is never live again; no rollback brings it back |
| `DeviceTheorems.PruneIsExact` | mac/companiond/pairling_devices.py:1280-1362 | Pruning leaves no overdue claim pending, turns exactly those and their devices into expired tombstones it keeps, and leaves active and unexpired ones as they were |
| `DeviceTheorems.RollbackUndoesCreate` | mac/companiond/pairling_devices.py:1755-1835 | Rolling back right after a create restores the registry exactly if and only if the identity was not contended |
| `DeviceStore.DeviceRegistry.CreateDevice` | mac/companiond/pairling_devices.py:944-1081 | With nobody between its lookup and its transaction it inserts the device and supersedes exactly the live holders of its identity |
| `DeviceStore.DeviceRegistry.SaveDevice` | mac/companiond/pairling_devices.py:1000-1047 | The transaction of a create, after any other calls: supersedes exactly the holders seen that are still there, one by one, and inserts the device |
| `DeviceStore.DeviceRegistry.CreatePendingDevice` | mac/companiond/pairling_devices.py:1083-1228 | Accepts exactly a pairing and a device id that are both new; then device and claim are pending and a second claim of that pairing is refused whoever sends it; the holders of every identity are as before, and a refusal changes nothing |
| `DeviceStore.DeviceRegistry.ActivatePendingClaim` | mac/companiond/pairling_devices.py:1426-1727 | Refuses, replays, loses to the newest newer holder or wins as specified |
| `DeviceStore.DeviceRegistry.PrunePendingClaims` | mac/companiond/pairling_devices.py:1280-1362 | The loops expire exactly the overdue claims with their devices and then forget exactly what was retained long enough |
| `DeviceStore.DeviceRegistry.RevokeDevice` | mac/companiond/pairling_devices.py:2118-2132 | Dates the revocation once and reports whether it did |
| `DeviceStore.DeviceRegistry.FindSuccessor` | mac/companiond/pairling_devices.py:1777-1797 | Finds the live superseding row, else a newest other unrevoked row of the identity, exactly if there is one |
| `DeviceStore.DeviceRegistry.RollbackCreatedDevice` | mac/companiond/pairling_devices.py:1755-1835 | With nobody between its lookup and its transaction it removes the row and its claims and hands its predecessors to a successor or restores them |
| `DeviceStore.DeviceRegistry.ReleaseDevice` | mac/companiond/pairling_devices.py:1798-1826 | The transaction of a rollback, after any other calls: removes the row and its claims and hands on or restores as its lookups decided |
| `Bridge.EnsureConverges` | mac/companiond/local_mcp_bridge.py:140-300 | Every successful ensure, from any registry and file, leaves exactly one usable bridge row, the one the file's credential authenticates as |
| `Bridge.ConvergesAfterCrashes` | mac/companiond/local_mcp_bridge.py:140-300 | After any failed and killed attempts, an ensure without faults succeeds and converges |
| `Bridge.EnsureTwice` | mac/companiond/local_mcp_bridge.py:184-225 | Before the lease in the row of the device ends, or without one, a second ensure returns the same device and token and neither adds nor retires a row |
| `Bridge.StaysConverged` | mac/companiond/pairling_devices.py:1877-2018 | With the rows and the file as they are, a converged state is converged at another time if and only if the lease of its device lasts until then |
| `Bridge.WorkingCredentialIsKept` | mac/companiond/local_mcp_bridge.py:184-225 | A credential that proves its row and still works is kept whatever other bridge rows there are |
| `Bridge.FailedWriteIsUndone` | mac/companiond/local_mcp_bridge.py:274-298 | If the file could not be replaced, the new row is revoked again and nothing else changed |
| `Bridge.EnsureUnique` | mac/companiond/local_mcp_bridge.py:140-300 | Wherever an ensure stops, token hashes are still unique, so the next one can start from there |
| `Bridge.LocalBridge.EnsureDevice` | mac/companiond/local_mcp_bridge.py:140-300 | The method passes through exactly the specified states and answers as specified under any faults |
| `Bridge.LocalBridge.CanonicalizeLegacyDevice` | mac/companiond/pairling_devices.py:2158-2318 | Tags the row a credential proves and revokes exactly the other usable bridge rows |
| `Bridge.LocalBridge.RevokeDuplicates` | mac/companiond/pairling_devices.py:2289-2317 | The loop revokes every usable bridge-shaped row but one and touches no other |
| `Bridge.LocalBridge.RetirePreviousBridges` | mac/companiond/local_mcp_bridge.py:244-274 | Retires the other bridge rows step by step, up to the step that fails |
| `Bridge.LocalBridge.AuthenticateToken` | mac/companiond/pairling_devices.py:1877-2018 | Finds the row of a token and judges revocation, state, lease and scopes as specified |
| `Canonical.RequestsDecodeUniquely` | mac/companiond/pairling_pairing.py:138-215 | Two requests that encode have equal canonical texts exactly when they are the same request, up to digest collisions of the ticket fields |
| `ClaimResult.ResponsesDecodeUniquely` | mac/companiond/pairling_pairing.py:285-406 | Two responses that encode have equal canonical texts exactly when they are the same, scalars, optionals, lists, routes and numbers included, up to digest collisions; `expires_at` counts as the number it is rounded to |
| `Canonical.ActivationsDecodeUniquely` | mac/companiond/pairling_devices.py:679-721 | Two activation results that encode have equal canonical texts exactly when they are the same up to hex case and the order of superseded ids |
| `TextLines.JoinInjective` | mac/companiond/pairling_pairing.py:110-136 | Newline-free lines can be read back from their joined text |
| `TextLines.PeelOptional` | mac/companiond/pairling_pairing.py:122-126 | An optional announces whether it is there, so what follows cannot be confused with it |
| `TextLines.DecimalInjective` | mac/companiond/pairling_pairing.py:253-257 | Decimal integers determine their number, sign included |
| `Canonical.EntriesInjective` | mac/companiond/pairling_pairing.py:174-190 | Key and value lines of a map determine its keys and values |
| `Canonical.PairClaimRequestCanonical` | mac/companiond/pairling_pairing.py:138-215 | The line-appending method gives the specified text or error |
| `Canonical.PairActivationResultCanonical` | mac/companiond/pairling_devices.py:686-721 | The method gives the specified text or error, sorting the superseded ids |
| `ClaimResult.PairClaimResultCanonical` | mac/companiond/pairling_pairing.py:285-406 | The method with its loops over scopes, hosts and routes gives the specified text or error |
| `ClaimResult.SortedAndUnique` | mac/companiond/pairling_pairing.py:310-316 | A list equals its sorted set, and so passes, exactly when it ascends strictly |
| `TextLines.SortedDetermined` | mac/companiond/pairling_pairing.py:310-316 | A strictly ascending list of texts is determined by its members |
| `CborTheorems.RoundTrip` | mac/companiond/app_attest_validator.py:366-420 | Every value over 64-bit integers, bytes, text, arrays and maps with distinct scalar keys reads back as itself, with any bytes behind it |
| `CborTheorems.AcceptsExactlyEncodings` | mac/companiond/app_attest_validator.py:371-376 | A whole parse succeeds exactly on the encodings, in any head widths, of items whose map keys are scalars |
| `CborTheorems.ReadsTheMeaning` | mac/companiond/app_attest_validator.py:377-400 | The value read is the meaning of whichever item the bytes encode, and reading fails exactly if there is none |
| `CborTheorems.SuffixIsIgnored` | mac/companiond/app_attest_validator.py:377-420 | Appending bytes changes neither what a successful parse yields nor where it stops |
| `CborTheorems.ItemsNeedBytes` | mac/companiond/app_attest_validator.py:391-398 | No announced count makes the reader run past the bytes: n items consume at least n bytes |
| `CborTheorems.EncodingRead` | mac/companiond/app_attest_validator.py:377-420 | Whatever was read was the encoding of a well-formed item, and its meaning is the value |
| `Cbor.Read` | mac/companiond/app_attest_validator.py:377-400 | A successful read consumes at least one byte and stays inside the data, which is why reading terminates |
| `Cbor.CborReader.ReadValue` | mac/companiond/app_attest_validator.py:377-400 | The recursive, position-advancing reader gives the specified value and position, and never leaves the data |
| `Cbor.CborReader.ReadWhole` | mac/companiond/app_attest_validator.py:371-376 | The whole parse is the specified one, trailing bytes refused |
| `Cbor.CborReader.TakeLength` | mac/companiond/app_attest_validator.py:401-412 | Reads the argument of a head as specified in all five widths |
| `Der.DecodesExactlyWrappings` | mac/companiond/app_attest_validator.py:303-322 | An octet string is decoded exactly from its three kinds of wrapping, in every length form, and from nothing else |
| `Der.DecodeInvertsWrap` | mac/companiond/app_attest_validator.py:303-322 | Decoding inverts all three wrappings in any length form |
| `Der.TlvReads` | mac/companiond/app_attest_validator.py:330-340 | Reading an element undoes writing it, for every length form, and ignores what follows |
| `Der.LengthRead` | mac/companiond/app_attest_validator.py:342-354 | A length that could be read is the short or long form of its number |
| `Der.DecodeDerSequenceOctetString` | mac/companiond/app_attest_validator.py:303-322 | The method with its three readers gives the specified result |
| `Der.DerReader.TakeTlv` | mac/companiond/app_attest_validator.py:330-340 | The position-advancing reader gives the specified value and position |
| `KeyLocks.CountsAreUsers` | mac/companiond/live_activity_publisher.py:226-243 | In every interleaving the count of a key is the number of threads using it, and an idle key has no entry |
| `KeyLocks.OneInsidePerKey` | mac/companiond/live_activity_publisher.py:226-243 | All users of a key were handed one lock object, so at most one of them is inside |
| `KeyLocks.KeysDoNotShareLocks` | mac/companiond/live_activity_publisher.py:226-243 | Users of different keys have different lock objects |
| `KeyLocks.WaitersGoOn` | mac/companiond/live_activity_publisher.py:226-243 | A waiting thread can enter exactly when no user of its own key is inside |
| `KeyLocks.KeyLockTable.BeforeAcquire` | mac/companiond/live_activity_publisher.py:228-230 | The first guarded block counts the thread in and hands out the key's lock |
| `KeyLocks.KeyLockTable.AfterRelease` | mac/companiond/live_activity_publisher.py:235-243 | The second guarded block counts the thread out and drops the entry with the last one |
| `ByteStrings.ToFromBytes` | mac/companiond/app_attest_validator.py:401-412 | A big-endian number of k bytes determines those bytes |

## Left out

- UploadStore.Vault.CleanupPartials: does not sweep lock files; that is a step of the upload machine (`UploadSteps.SweepUnlinkKeeps`).
- UploadStore.Vault.RecoverStaleCompletions: the listing by age, and its limit of 100 rows, are given.
- UploadStore.Vault.CompleteUpload: a partial that changes while it is hashed, and an object that appears between the last check and the rename, are not modelled.
- UploadTheorems.CancelIsFinal: cancellation is one step, taken while no write transaction is open, as the database's write lock makes it wait.
- UploadTheorems.RetryCompletes: a retry disturbed by other processes may be refused instead; what they do is covered by the invariant.
- UploadTheorems.CapacityIsConserved: assumes no other writer on the volume; the clock is read when the transaction begins, although create and inline uploads read it just before.
- DeviceStore.DeviceRegistry.CreateDevice: one undisturbed call; the interleaved halves are `DeviceHalves`.
- DeviceTheorems.RevokedForGood: is about whole calls; interleaved halves are `DeviceHalves.RevocationStands`.
- DeviceHalves.RollbackRaces: the lookups of one rollback are one read, although each is a query of its own.
- ProtocolStore.Store.IssueProtocolLease: the query for a holder of the scope is an existence test on the table, as the code leaves the search to the database.
- DeviceStore.DeviceRegistry.PrunePendingClaims: the list of relay secrets to clean up that pruning returns is not part of the result.
- Bridge.EnsureTwice: the proof secret is compared only through the row; a row without one takes it from the file.
- Forks.Manager.ReconcilePreparedForks: the list of prepared reservations is given; the limit of 1000 per restart is not modelled.
- KeyLocks.KeyLockTable.BeforeAcquire: a thread interrupted between counting in and its `try` block would stay counted; threads here always go on.
- Canonical.PairClaimRequestCanonical: works on texts; UTF-8 encoding, base64 syntax and the JSON types of the fields are outside. `expires_at` is a real number here: a large integer that rounds to the same float as another, and the rounding to its shortest decimal, are outside too.
- Canonical.PairActivationResultCanonical: lower-cases ASCII letters only, where the code lower-cases any letter of the two digest fields.
- Cbor.CborReader.ReadValue: Python's recursion limit on deeply nested input is not modelled.
- Inline uploads, deletion of a file and refreshing a generation have no method of their own: they are steps of the machines on values.
- File descriptors, symbolic-link checks, permissions and sync calls: only the order of effects they impose is kept.
- SQLite itself: transactions are atomic and roll back on failure; schema creation and migration are not part of this model.
- Audit lines, upload progress events and event summaries: they feed no decision modelled here.
- Attachment handles (deleting a file also revokes them), downloads, send staging and the legacy vault migration: not part of this model.
- Protocol snapshots, recoveries and authority keys beyond what confirmations and leases check: not part of this model.
- Provider drivers, launch profiles, redaction and payload bounding: events arrive normalized.
- Relay pair secrets, sealed tokens, attestation chains and signatures: cryptography is outside.
- Pair records, their pruning and the claim attempts counter of `pairling_pairing.py`: not part of this model.
- Status summaries, push payloads, turn-state text and command-line tools: they would add only easy members.
