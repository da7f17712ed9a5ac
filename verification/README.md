# Ariava bridge: a verified model

A Dafny model of the parts of the Ariava bridge that must stay correct across crashes, retries, redelivery and
several processes, with proofs of what they promise. Each area has one module with its state and its steps as total
functions, one with the results over whole runs, and one `...Program` module with the imperative code in its own
control flow - classes, loops, early exits - proved against those functions. Where single steps have much to say, a
`...Calls` module states what each does to the state before and after it.

| modules | what they model |
|---|---|
| `RuntimeLock`, `RuntimeLockProgram` | the multi-process runtime lock with its chain of takeover mutex files: any number of processes, one filesystem call per step, any interleaving, crash or failing call |
| `LinkKeyring`, `LinkKeyringValidity`, `LinkKeyringSession`, `LinkKeyringRuns`, `LinkKeyringCalls`, `LinkKeyringProgram` | the keyring of link pins and staged activations, in the memory of any number of keyring objects and in their file, with operations that succeed or throw |
| `CommandAuthority` | refreshing the command authority from versioned recipient snapshots |
| `CommandJournal`, `CommandWorkflow`, `CommandWorkflowRuns`, `CommandWorkflowProgram` | the durable command journal, dispatch, results, receipts and their outbox, with redelivery, stop, crash and restart between any two effects |
| `PinRetention` | merging retention references before retiring pins are pruned |
| `PiReducer`, `PiReducerRuns`, `PiReducerCalls`, `PiReducerProgram` | the Pi extension's reducer of session, agent and input events, its quiet timer and its asynchronous pushes |
| `Registry`, `RegistryRuns`, `RegistryCalls`, `RegistryProgram` | the Agent Adapter registry: owner leases, command queues, staged terminal Events, retry timers and producer orders |
| `Unicode`, `FieldEncoding`, `BindingBytes`, `BindingVectors` | UTF-8 and UTF-16, the length-prefixed field encoding, and every AAD, transcript and envelope binding over it, with the fields of the frozen vectors |
| `Base64Url`, `RequestSigning`, `ProducerOrder`, `JsonBytes`, `ReceiptPadding`, `SerializedBlocks`, `CodecVectors` | canonical base64url, canonical queries and targets, the 128-bit producer order, the JSON byte accountant, the padded command receipt, the bracket matcher; known answers of the codecs |
| `LocalSpool`, `LocalSpoolRuns`, `LocalSpoolCalls`, `LocalSpoolProgram` | the encrypted spool over its file and key store, and the quarantine of pending Events |

`dafny verify dfyconfig.toml` checks everything.

## What the model assumes

- Filesystem: an exclusive create is atomic, a read of one file is a snapshot, a write by rename installs the old or the
  new contents. A call may fail before or after its effect. The process inspector is sound: it calls only ended processes
  dead, and it may fail to recognise one. A process stops holding the main lock at the removal of its file, not when its
  handle is marked released.
- Equality of JSON texts is equality of the values they stand for; canonical timestamps are compared as numbers, and the
  clock of one workflow does not go back.
- Cryptography is ideal: a sealed box opens only under the key and associated data it was sealed with, a key verifier or a
  digest is one-to-one. `Command.sealed` stands for the rest of an encrypted envelope, and the randomness of a receipt body
  for everything that encrypting it anew would change.
- Whatever another part of the system decides is a parameter of the step that uses it: whether a call works, what a driver
  answers, what the store knows, which events are for the followed session. The results hold for every choice.
- Command ids of the registry are fresh, as the journal claims each at most once.

## What the proofs found

Eight promises do not hold without a condition. The code is modelled as it is; a lemma gives a run or an input where the
promise fails, and the results beside it say exactly when it holds.

- `updatePersisted` (apps/bridge/src/e2e/link-keyring.ts:320-338) leaves the rejected pins or staged entries in memory when
  `validateState` throws. The four mutators that persist memory without validating it can then store an invalid keyring,
  which no longer loads: `LinkKeyringRuns.RejectedStageIsStoredByRevoke`; exactly when, for one operation and for runs:
  `StoresValidIff`, `FileStaysValidIff`; exactly when memory is invalid: `MemoryValidIff`, `TaintedIff`.
- A terminal result is kept for 30 days from its own `updatedAt`
  (apps/bridge/src/state-store/command-transitions.ts:212-218), which a driver chooses. When that ends before the command
  expires, a redelivery is claimed and released again and a second, different receipt is submitted:
  `CommandWorkflowRuns.StaleResultIsReleasedTwice`; exactly when: `ClaimableAgainIff`. The at-most-once results over whole
  runs are therefore stated for a command whose own results outlive it, and `KeptEntryReleasedOnce` and
  `ReleasedAfterStarted` for all.
- Between two snapshots of one version other keyring operations may change the active set, and the second snapshot then has
  to name the changed set: `CommandAuthority.RevokedVersionNamesTwoSets`; exactly when: `SameVersionNamesActiveSet`.
- `loseOwnership` (apps/bridge/src/agent-adapter/registry.ts:281-300) says that it clears poll waiters but keeps them, so a
  poll of a lost owner can be given the next owner's command: `RegistryRuns.LostPollReceivesCommand`; exactly when:
  `HandedToOwnerIff`.
- Losing a session also deletes its accepted source (apps/bridge/src/state-store/session-transitions.ts:87,
  apps/bridge/src/state-store/spool-transactions.ts:128), so a session that is registered again can have an Event accepted
  of a lower order: `RegistryRuns.LostSourceIsForgotten`; exactly when: `OrderMayFallIff`; as long as it is not lost:
  `OrdersRise`, `AcceptedThenRepeated`.
- The Pi reducer suppresses a repeated text only once its first publication is confirmed, so a text can be published twice:
  `PiReducerRuns.UnconfirmedIsPublishedTwice`, `ScheduledIsPublishedTwice`; exactly when: `NewPublicationIff`. A pending
  alert whose push fails is tried again exactly when the active leaf has not moved: `RetriedIff`, `PendingIsNotForgotten`.
- The spool's memory equals its file unless a write installs its target, reports a failure, and the file then cannot be
  read back: `LocalSpoolRuns.FirstPayloadIsLost`; exactly when: `DivergesIff`, `SyncedIff`, `QuarantineSyncedIff`. The next
  write that returns undoes what was installed: `InstalledThenUndone`.
- `buildCanonicalRequest` (packages/protocol/src/request-signing.ts:221-241) joins fields with newlines that it does not
  look for, so two requests can have one signed text: exactly when, with the other request:
  `RequestSigning.SignedTextNamesOneIff`.

## Model

| member | source | states |
|---|---|---|
| `RuntimeLock.MutualExclusion` | apps/bridge/src/runtime-lock.ts:83-130 | Over every interleaving, I/O failure and crash, at most one live process has acquired the main lock and not yet removed it, and the main file is then exactly its record |
| `RuntimeLock.AssertOwnedNeverFails` | apps/bridge/src/runtime-lock.ts:230-236 | A live holder finds its own record in the main file, so assertOwned inside release passes unless its read fails |
| `RuntimeLock.TakeoverChain` | apps/bridge/src/runtime-lock.ts:253-270 | Of two existing mutex generations the older belongs to an ended process |
| `RuntimeLock.OneLiveMutexFile` | apps/bridge/src/runtime-lock.ts:253-270 | Two live processes never own mutex files of different generations |
| `RuntimeLock.OneCritical` | apps/bridge/src/runtime-lock.ts:101-126 | At most one process is between acquiring the takeover mutex and cleaning it up |
| `RuntimeLock.ChainBelow` | apps/bridge/src/runtime-lock.ts:253-284 | Below an existing generation every generation exists and belongs to an ended process |
| `RuntimeLock.DeadFilesAreFrozen` | apps/bridge/src/runtime-lock.ts:272-284 | The mutex file of an ended process is never removed or rewritten in the rest of any run |
| `RuntimeLock.RemovalIsExact` | apps/bridge/src/runtime-lock.ts:286-316 | No ABA: a step that removes the main file removes exactly the record its process validated, its own or that of an ended process |
| `RuntimeLock.CreatedLockIsNotStranded` | apps/bridge/src/runtime-lock.ts:113-126 | Once the exclusive create of the main file succeeded, no later check of that call fails because of what others do, and it returns holding the lock |
| `RuntimeLock.SoloFinishes` | apps/bridge/src/runtime-lock.ts:83-130 | From any reachable program point an undisturbed acquisition or release ends, with the files and handles that its verdict there says |
| `RuntimeLock.SoloAcquire` | apps/bridge/src/runtime-lock.ts:83-130 | An undisturbed acquireRuntimeLock returns, and acquires with the main file its record if and only if no live process has the main lock or a mutex; else nothing changes, and its mutex file is gone |
| `RuntimeLock.SoloRelease` | apps/bridge/src/runtime-lock.ts:238-250 | An undisturbed release returns, and has removed the main file and spent the handle if and only if the file was the handle's and no live process had a mutex; else nothing changes, and its mutex file is gone |
| `RuntimeLock.TokensAreOld` | apps/bridge/src/runtime-lock.ts:329-340 | In every run no record is made with a token that a file or handle has |
| `RuntimeLock.GivesUpIff` | apps/bridge/src/runtime-lock.ts:92-126 | In any world and whatever others do, a call gives up exactly at a step that does not find the file, record or ended owner it needs, or whose file operation fails and that looks no further |
| `RuntimeLock.FailedRemovalIs` | apps/bridge/src/runtime-lock.ts:243-249 | A removal that reports an error keeps the handle releasable, and may have removed the file |
| `RuntimeLock.RunKeeps` | apps/bridge/src/runtime-lock.ts:83-293 | The invariant behind these results holds after every run |
| `RuntimeLockProgram.RuntimeLockHost.AcquireTakeoverMutex` | apps/bridge/src/runtime-lock.ts:253-270 | The loop over generations, under interference at every filesystem call, ends with the own mutex file or throws; without interference it terminates |
| `RuntimeLockProgram.RuntimeLockHost.CreateOrFindOwned` | apps/bridge/src/runtime-lock.ts:256-262 | The exclusive create of one generation and the read of what it created |
| `RuntimeLockProgram.RuntimeLockHost.PassStaleAncestor` | apps/bridge/src/runtime-lock.ts:262-268 | An existing generation is passed only when its owner has ended and its file is still the one read |
| `RuntimeLockProgram.RuntimeLockHost.TakeOverMain` | apps/bridge/src/runtime-lock.ts:105-121 | Inside the mutex the main file is replaced, or the call goes to cleanup without a handle |
| `RuntimeLockProgram.RuntimeLockHost.CleanupTakeoverMutex` | apps/bridge/src/runtime-lock.ts:272-276 | Cleanup removes the own generation and never loses a created handle |
| `RuntimeLockProgram.RuntimeLockHost.AcquireFast` | apps/bridge/src/runtime-lock.ts:86-100 | The attempt without the mutex decides the call or leaves it to the takeover |
| `RuntimeLockProgram.RuntimeLockHost.AcquireRuntimeLock` | apps/bridge/src/runtime-lock.ts:83-130 | A returned handle is for the record this call created, which is then the main file; a call that throws changes no handle |
| `RuntimeLockProgram.RuntimeLockHost.Release` | apps/bridge/src/runtime-lock.ts:238-250 | A release that reports success has given up the lock; one that throws leaves the handle, or has removed the file all the same; undisturbed it succeeds exactly when the file is the handle's and the mutex free, and the file is then gone |
| `LinkKeyringValidity.RevokeWatchValidIff` | apps/bridge/src/e2e/link-keyring.ts:233-241 | revokeWatch, which never validates, stores a valid keyring exactly when it started from one |
| `LinkKeyringValidity.RevokeHostKeyValidIff` | apps/bridge/src/e2e/link-keyring.ts:145-151 | The same for revokeCompromisedEncryptionKey |
| `LinkKeyringValidity.ReconciledValidIff` | apps/bridge/src/e2e/link-keyring.ts:275-289 | The same for the pins that reconcileRecipients stores; statuses only move on |
| `LinkKeyringValidity.PruneKeepsValid` | apps/bridge/src/e2e/link-keyring.ts:126-144 | pruneRetiring keeps a valid keyring valid |
| `LinkKeyringValidity.PruneRemovesExactly` | apps/bridge/src/e2e/link-keyring.ts:126-144 | Pruning keeps exactly the active pins and those that some category of references still asks for |
| `LinkKeyringValidity.RetainUntilIsLatest` | apps/bridge/src/e2e/link-keyring.ts:569 | maxTimestamp is the latest of the times that are given |
| `LinkKeyringValidity.RevokeGenerationKeepsValid` | apps/bridge/src/e2e/link-keyring.ts:242-255 | revokeWatchGeneration leaves a valid keyring with statuses only moved on |
| `LinkKeyringValidity.ActivateAcceptsIff` | apps/bridge/src/e2e/link-keyring.ts:156-180 | persistActive accepts a new pin exactly when it is newer than its Watch has, no binding sequence goes back, and no other staged activation is left behind |
| `LinkKeyringValidity.ActivateAgain` | apps/bridge/src/e2e/link-keyring.ts:156-180 | Activating a stored pin again changes nothing |
| `LinkKeyringValidity.StagedActivationIsAccepted` | apps/bridge/src/e2e/link-keyring.ts:156-188 | A staged activation is accepted if and only if no binding sequence is below a stored one; it leaves staging, retires the previous active pin and is the only active pin of its Watch |
| `LinkKeyringValidity.StageAcceptsIff` | apps/bridge/src/e2e/link-keyring.ts:181-188 | stageActivation accepts exactly what is ahead of every stored pin of a Watch with nothing staged |
| `LinkKeyringValidity.IdentityPruneKeepsValid` | apps/bridge/src/e2e/link-keyring.ts:88-93 | Dropping Host identities that no pin and no staged activation refers to leaves the keyring as valid as it was |
| `LinkKeyringRuns.StoresValidIff` | apps/bridge/src/e2e/link-keyring.ts:126-255 | An operation leaves a valid file valid exactly when it does not store, unvalidated, a memory whose staged activations do not fit each other or the pins that stay; the four unvalidated mutators with their guards, the others always |
| `LinkKeyringRuns.FileStaysValidIff` | apps/bridge/src/e2e/link-keyring.ts:126-255 | Throughout any run of any number of keyring objects the file is valid if and only if no operation of the run stores such a memory |
| `LinkKeyringRuns.PinsStayValid` | apps/bridge/src/e2e/link-keyring.ts:126-255 | In every such run all pins in memory and on disk are valid, whatever was rejected |
| `LinkKeyringRuns.MemoryValidIff` | apps/bridge/src/e2e/link-keyring.ts:320-338 | After an operation memory is valid exactly when the file was read and the change not rejected, or nothing was read and memory was valid or is pruned into shape |
| `LinkKeyringRuns.TaintedIff` | apps/bridge/src/e2e/link-keyring.ts:320-338 | Over runs: an object has an invalid memory exactly when the last change it read the file for was rejected, with nothing read or pruned into shape since |
| `LinkKeyringRuns.PrunedFitsIff` | apps/bridge/src/e2e/link-keyring.ts:126-144 | Pruning leaves a valid keyring exactly when every staged activation fits the pins that are retained |
| `LinkKeyringRuns.RejectedStageIsStoredByRevoke` | apps/bridge/src/e2e/link-keyring.ts:320-338 | A run in which the condition fails: an activation that validateState rejects stays in memory, and revokeWatch then stores it |
| `LinkKeyringRuns.StoredPinsFormAChain` | apps/bridge/src/e2e/link-keyring.ts:156-180 | From an empty keyring, in every run of any number of keyring objects, the stored pins of a Watch have distinct (generation, epoch) pairs, and a newer one has no smaller binding sequence |
| `LinkKeyringRuns.StoredPinsMoveOn` | apps/bridge/src/e2e/link-keyring.ts:126-255 | One more operation, under the mutation lock or of an object nobody has overtaken, keeps every stored pin with a status that only moves active, retiring, revoked; only pruning drops one, and only an unretained one |
| `LinkKeyringRuns.LoneObjectIsInSync` | apps/bridge/src/e2e/link-keyring.ts:290-338 | An object that alone uses its file is never overtaken |
| `LinkKeyringRuns.RunIsChained` | apps/bridge/src/e2e/link-keyring.ts:156-255 | The file and the memory of every object are chained after every run of operations that succeed or throw |
| `LinkKeyringProgram.Latest` | apps/bridge/src/e2e/link-keyring.ts:527-529 | The reduce over latestPin finds a newest pin |
| `LinkKeyringProgram.CheckWatch` | apps/bridge/src/e2e/link-keyring.ts:437-448 | The per-Watch checks pass exactly when the active pin is the newest and the staged one is newer still |
| `LinkKeyringProgram.CheckPins` | apps/bridge/src/e2e/link-keyring.ts:418-421 | The loop over pins passes exactly valid pins with distinct tuples |
| `LinkKeyringProgram.CheckPending` | apps/bridge/src/e2e/link-keyring.ts:422-432 | The loop over staged activations passes exactly those that are valid, apart from each other and not stored |
| `LinkKeyringProgram.GroupByWatch` | apps/bridge/src/e2e/link-keyring.ts:433-436 | The pins of each Watch are gathered in order |
| `LinkKeyringProgram.ValidateState` | apps/bridge/src/e2e/link-keyring.ts:416-449 | validateState passes exactly the valid keyrings |
| `LinkKeyringProgram.LocalLinkKeyring.UpdatePersisted` | apps/bridge/src/e2e/link-keyring.ts:320-338 | Reload, change, validate, store; a throw leaves memory changed but not the file |
| `LinkKeyringProgram.LocalLinkKeyring.PersistActive` | apps/bridge/src/e2e/link-keyring.ts:156-180 | Memory, file and outcome are those of the specified activation |
| `LinkKeyringProgram.LocalLinkKeyring.StageActivation` | apps/bridge/src/e2e/link-keyring.ts:181-188 | Memory, file and outcome are those of the specified staging |
| `LinkKeyringProgram.LocalLinkKeyring.RevokeWatchGeneration` | apps/bridge/src/e2e/link-keyring.ts:242-255 | Memory, file and outcome are those of the specified revocation |
| `LinkKeyringProgram.LocalLinkKeyring.RevokeWatchPins` | apps/bridge/src/e2e/link-keyring.ts:233-241 | Memory and file after revokeWatch |
| `LinkKeyringProgram.LocalLinkKeyring.RevokeCompromisedEncryptionKey` | apps/bridge/src/e2e/link-keyring.ts:145-151 | Memory and file, and the number of pins it revokes |
| `LinkKeyringProgram.LocalLinkKeyring.PruneRetiring` | apps/bridge/src/e2e/link-keyring.ts:126-144 | Memory and file, and exactly the removed pins |
| `LinkKeyringProgram.LocalLinkKeyring.ReconcileRecipients` | apps/bridge/src/e2e/link-keyring.ts:193-232 | Memory, file and outcome of a reconcile, with its refresh from a file that others changed |
| `LinkKeyringCalls.ThrowingStoresNothing` | apps/bridge/src/e2e/link-keyring.ts:126-338 | No operation that throws changes the file |
| `LinkKeyringCalls.AcceptedIsStored` | apps/bridge/src/e2e/link-keyring.ts:320-338 | When an activation, a staging or the revocation of a generation is accepted; memory and file are then the changed keyring |
| `LinkKeyringCalls.ActivationIs` | apps/bridge/src/e2e/link-keyring.ts:156-180 | An accepted new pin is stored last and every active pin of its Watch retires, now or at its activation if that is later; nothing else changes but that its staged entry is gone |
| `LinkKeyringCalls.StagingIs` | apps/bridge/src/e2e/link-keyring.ts:181-188 | An accepted staging adds the activation last, or finds that very one |
| `LinkKeyringCalls.GenerationRevocationIs` | apps/bridge/src/e2e/link-keyring.ts:242-255 | In memory and file exactly the pins of that Watch and generation are revoked, without retirement time and at their places, and exactly its staged activations dropped |
| `LinkKeyringCalls.RevokedGenerationIsOff` | apps/bridge/src/e2e/link-keyring.ts:242-255 | In every run, directly after an accepted revocation no pin of that generation on file is active or retiring |
| `LinkKeyringCalls.WatchRevocationIs` | apps/bridge/src/e2e/link-keyring.ts:233-241 | Exactly the Watch's pins are revoked, and memory is stored if that changes anything |
| `LinkKeyringCalls.KeyRevocationIs` | apps/bridge/src/e2e/link-keyring.ts:145-151 | Exactly the pins of the Host key are revoked, and keep their retirement time |
| `LinkKeyringCalls.ReconcileIs` | apps/bridge/src/e2e/link-keyring.ts:275-289 | A reconcile that returns has revoked exactly the pins that are neither listed nor retiring behind a newer recipient |
| `LinkKeyringCalls.ReconcileReturnsIff` | apps/bridge/src/e2e/link-keyring.ts:193-232 | When reconcileRecipients returns, in terms of the recipients that memory and file can vouch for and the pins they do not know |
| `LinkKeyringCalls.PruningIs` | apps/bridge/src/e2e/link-keyring.ts:126-144 | Exactly the pins that are active or still asked for are kept, in order, and stored if any is gone |
| `CommandAuthority.RefreshReturnsIff` | apps/bridge/src/daemon/command-workflow.ts:66-86 | When a refresh returns, and that only then its version is accepted |
| `CommandAuthority.ReconciledAgrees` | apps/bridge/src/e2e/link-keyring.ts:275-289 | After the pins are reconciled the active keys are the snapshot's, and every retiring pin has a strictly newer active successor |
| `CommandAuthority.ReconcileOutcome` | apps/bridge/src/e2e/link-keyring.ts:193-232 | The same of reconcileRecipients in every reachable state in which it does not throw |
| `CommandAuthority.RefreshKeeps` | apps/bridge/src/daemon/command-workflow.ts:66-86 | One refresh never lowers the version, and keeps the recipient set that a version stands for |
| `CommandAuthority.VersionFixesSet` | apps/bridge/src/daemon/command-workflow.ts:66-86 | While the accepted version has not risen, the active set is the same |
| `CommandAuthority.OneVersionOneRecipientSet` | apps/bridge/src/daemon/command-workflow.ts:66-86 | In any run of refreshes the version never falls and one version never names two recipient sets |
| `CommandAuthority.SameVersionNamesActiveSet` | apps/bridge/src/daemon/command-workflow.ts:75-83 | With other keyring operations and refreshes in between, two accepted snapshots of one version name the same set exactly when what ran between left the active set alone |
| `CommandAuthority.RevokedVersionNamesTwoSets` | apps/bridge/src/daemon/command-workflow.ts:75-83 | A run in which it was not left alone: one version is accepted for a Watch and, once it is revoked, for nobody |
| `CommandWorkflow.NextKeeps` | apps/bridge/src/daemon/command-workflow.ts:108-194 | Every step of the pass, its router, recovery, drains, pruning, stop and crash keeps the workflow invariant |
| `CommandWorkflowRuns.RunKeeps` | apps/bridge/src/daemon/command-workflow.ts:108-194 | So does every run in which the results of the command in question outlive it |
| `CommandWorkflowRuns.KeptEntryReleasedOnce` | apps/bridge/src/state-store/command-transitions.ts:50-83 | Whatever drivers return, a command is released at most once while its journal entry is kept |
| `CommandWorkflowRuns.ReleasedAfterStarted` | apps/bridge/src/command-router.ts:31-51 | In every run each release comes after its own durable dispatch_started record |
| `CommandWorkflowRuns.PassLeavesNothingActive` | apps/bridge/src/daemon/command-workflow.ts:162-191 | Until a process ends, an execution is active only while the pass works on it: whatever throws, its outcome is recorded or unknown |
| `CommandWorkflowRuns.ThrowingMakesUnknown` | apps/bridge/src/state-store/command-transitions.ts:97-105 | A router that throws, or a lost owner, makes an active execution's outcome unknown and changes nothing else |
| `CommandWorkflowRuns.OrphansBecomeUnknown` | apps/bridge/src/state-store/command-transitions.ts:85-95 | Stopping, and recovery at startup, make the outcome of exactly the active executions unknown |
| `CommandWorkflowRuns.PrunedExactly` | apps/bridge/src/state-store/command-transitions.ts:148-158 | Pruning keeps an execution for 30 days after its result, or five minutes past the end of its command, unchanged |
| `CommandWorkflowRuns.AtMostOnceDispatch` | apps/bridge/src/command-router.ts:31-51 | Over every run a command whose own results outlive it is released at most once |
| `CommandWorkflowRuns.NonceFixesCommand` | apps/bridge/src/state-store/command-transitions.ts:50-75 | In every run two kept entries of a Watch never share a nonce |
| `CommandWorkflowRuns.StoppedRecordsNothing` | apps/bridge/src/daemon/command-workflow.ts:169-197 | Stopping ends every execution, and in every continuation up to the next start the pass records no result |
| `CommandWorkflowRuns.ReceiptIsFixed` | apps/bridge/src/e2e/command-receipt-recovery.ts:79-112 | All submissions of a receipt are the same body, and one that says executed is of a released command, for a command whose own results outlive it |
| `CommandWorkflowRuns.UnknownIsNeverAnswered` | apps/bridge/src/state-store/command-transitions.ts:97-105 | With outcome_unknown there is no receipt body of that command, before or in any continuation, if the results it had before outlive it |
| `CommandWorkflowRuns.AcknowledgedWasSubmitted` | apps/bridge/src/e2e/command-receipt-recovery.ts:100-109 | An acknowledged receipt's exact body has been submitted, if no two delivered commands share an id |
| `CommandWorkflowRuns.ClaimableAgainIff` | apps/bridge/src/state-store/command-transitions.ts:148-158 | A kept result can be pruned while its command can still be claimed exactly when its retention ends before the command expires |
| `CommandWorkflowRuns.StaleResultIsReleasedTwice` | apps/bridge/src/state-store/command-transitions.ts:212-218 | For every such result there is a run that releases the command twice and submits two different receipts |
| `CommandWorkflowProgram.ReachableEntry` | apps/bridge/src/state-store/command-transitions.ts:119-134 | A kept receipt body is its own entry's |
| `CommandWorkflowProgram.CommandDaemon.Drain` | apps/bridge/src/e2e/command-receipt-recovery.ts:79-112 | The drain loop only submits stored bodies; undisturbed it submits and acknowledges every pending receipt |
| `CommandWorkflowProgram.CommandDaemon.DrainOne` | apps/bridge/src/e2e/command-receipt-recovery.ts:91-109 | One pending receipt: undeliverable when revoked, skipped when unavailable or not sent, else acknowledged after its submission |
| `CommandWorkflowProgram.CommandDaemon.RecoverBlockedReceipts` | apps/bridge/src/e2e/command-receipt-recovery.ts:46-69 | The recovery loop never writes over an entry that moved on; undisturbed it builds every blocked receipt |
| `CommandWorkflowProgram.CommandDaemon.RecoverStartup` | apps/bridge/src/daemon/command-workflow.ts:108-114 | Undisturbed startup recovery leaves only settled executions, with every receipt that could be told submitted |
| `CommandWorkflowProgram.CalmStartup` | apps/bridge/src/daemon/command-workflow.ts:108-114 | Orphans recovered, blocked receipts built and the outbox drained leave nothing active, blocked or pending |
| `CommandWorkflowProgram.CommandDaemon.Handle` | apps/bridge/src/command-router.ts:31-51 | The router journals before it releases; a throw leaves the point that was reached |
| `CommandWorkflowProgram.CommandDaemon.Record` | apps/bridge/src/daemon/command-workflow.ts:172-191 | After a result: authority, receipt or blocked receipt, drain and prune; undisturbed, the receipt is submitted |
| `CommandWorkflowProgram.LedgerFate` | apps/bridge/src/state-store/command-transitions.ts:50-83 | Claiming answers duplicate, conflict or claimed as what is known of ids, pins and nonces says |
| `CommandWorkflowProgram.CommandDaemon.HandleOne` | apps/bridge/src/daemon/command-workflow.ts:153-191 | One pulled command is released at most once; undisturbed it is skipped if it is expired or known with this pin, the pass throws if its id is known with another body or pin or its nonce is used, and otherwise it is released, answered and known from then on |
| `CommandWorkflowProgram.CommandDaemon.PullAndDispatch` | apps/bridge/src/daemon/command-workflow.ts:150-194 | Commands are released in pull order whatever happens meanwhile; undisturbed, the pass throws at the first conflict, up to there exactly the unexpired new commands are handled, and exactly they are released and their receipts submitted |
| `PinRetention.Merge` | apps/bridge/src/daemon/command-workflow.ts:200-215 | The merge asks for exactly what some input asks for, until the latest of their times |
| `PinRetention.MergeInput` | apps/bridge/src/daemon/command-workflow.ts:202-213 | One input merged category by category |
| `PinRetention.MergeValues` | apps/bridge/src/daemon/command-workflow.ts:207-211 | One category merged key by key |
| `PinRetention.RetainedIff` | apps/bridge/src/e2e/link-keyring.ts:126-144 | pruneRetiring keeps a pin exactly when a category asks for it long enough |
| `PinRetention.MergedReferencesRetain` | apps/bridge/src/daemon/command-workflow.ts:94-101 | Pruning with merged references keeps a pin exactly when one of the inputs asked for it long enough |
| `PiReducer.NextKeeps` | extensions/pi/src/index.ts:210-636 | Every handler, timer and completion keeps the reducer invariant |
| `PiReducer.RunKeeps` | extensions/pi/src/index.ts:210-636 | So does every run |
| `PiReducerCalls.SettledAlertsIff` | extensions/pi/src/index.ts:577-627 | agent_settled makes an alert exactly when none is pending, the current run's own agent_end had an assistant's message and was not aborted, nothing was emitted, and it is an error or the text is not confirmed |
| `PiReducerCalls.SettledIs` | extensions/pi/src/index.ts:577-627 | What agent_settled leaves of the run: over, settled if its agent_end was consumed, and an aborted one as if emitted |
| `PiReducerCalls.SettledWithoutAlertStaysSilent` | extensions/pi/src/index.ts:577-627 | In every run, a run that settles without an alert never has a pending alert, push or publication |
| `PiReducerCalls.AbortedStaysSilent` | extensions/pi/src/index.ts:599-613 | In particular one that was aborted |
| `PiReducerCalls.InputIs` | extensions/pi/src/index.ts:536-550 | An input counts, reports the published alert it follows, and unless it steers abandons run and alert |
| `PiReducerCalls.AgentStartIs` | extensions/pi/src/index.ts:473-483 | agent_start begins the next run on the reported leaf and cancels the last alert |
| `PiReducerCalls.AgentEndIs` | extensions/pi/src/index.ts:563-575 | agent_end ends the running run and keeps what it says |
| `PiReducerCalls.TreeSwitchIs` | extensions/pi/src/index.ts:461-471 | Leaving the branch moves the leaf and drops run, alert and report |
| `PiReducerCalls.SessionsAre` | extensions/pi/src/index.ts:485-534 | A session begins with nothing of the last but the confirmed texts, and ends without them |
| `PiReducerCalls.FireIs` | extensions/pi/src/index.ts:332-352 | A timer starts the push of the pending alert, drops it for new work, or counts it as emitted where publication is off |
| `PiReducerCalls.PushSucceedsIs` | extensions/pi/src/index.ts:255-288 | What the completion of a push confirms, reports and settles |
| `PiReducerCalls.FailedPushIsScheduled` | extensions/pi/src/index.ts:289-305 | A failed push that still counts for its pending alert is scheduled again |
| `PiReducerCalls.HandledIs` | extensions/pi/src/index.ts:121-136 | An answered report is over if accepted, and can be made again if not |
| `PiReducerRuns.OnePublicationPerRun` | extensions/pi/src/index.ts:473-483 | Each run generation of each reducer state has at most one successful push |
| `PiReducerRuns.PendingIsCurrent` | extensions/pi/src/index.ts:354-392 | A pending alert is for the newest run, which has settled, with the current flow revision and no run active; a scheduled timer is for it |
| `PiReducerRuns.NoTimerWithoutAlert` | extensions/pi/src/index.ts:308-330 | Without a pending alert no timer is scheduled |
| `PiReducerRuns.PushStartsCurrent` | extensions/pi/src/index.ts:210-255 | A push starts only when the timer of the current alert fires with no new work, and its run has no other push |
| `PiReducerRuns.LateCompletionDecidesNothing` | extensions/pi/src/index.ts:255-305 | The completion of a push whose alert is no longer pending changes no alert, timer or flag |
| `PiReducerRuns.RetriedIff` | extensions/pi/src/index.ts:289-301 | A failed push is tried again exactly when its alert is still pending and the active leaf has not moved |
| `PiReducerRuns.SettledByPushIff` | extensions/pi/src/index.ts:256-288 | A successful push settles its pending alert exactly when the leaf has not moved and no input came since |
| `PiReducerRuns.PendingIsNotForgotten` | extensions/pi/src/index.ts:321-372 | A pending alert has its timer, its push, its publication, or a failed push that found another leaf |
| `PiReducerRuns.HandledAfterInput` | extensions/pi/src/index.ts:108-137 | The bridge is told that an alert is handled only after an input that followed its push |
| `PiReducerRuns.ConfirmedTextIsNotMadeAnew` | extensions/pi/src/index.ts:264 | Once a publication of a text is confirmed, no new alert with that text is made until the session shuts down |
| `PiReducerRuns.NewPublicationIff` | extensions/pi/src/index.ts:621-626 | From any reachable state an alert with a text can be made and published anew before a shutdown, and even two of them, if and only if no publication of the text is confirmed |
| `PiReducerRuns.UnconfirmedIsPublishedTwice` | extensions/pi/src/index.ts:621-626 | From any state with an unconfirmed push of a text, the text can be published a second time |
| `PiReducerRuns.ScheduledIsPublishedTwice` | extensions/pi/src/index.ts:321-345 | The same from any state with a scheduled alert of an unconfirmed text |
| `PiReducerProgram.PiExtension.ClearQuietTimer` | extensions/pi/src/index.ts:308-312 | Clears the own timer |
| `PiReducerProgram.PiExtension.InvalidatePendingTerminal` | extensions/pi/src/index.ts:315-319 | Drops the pending alert and its timer |
| `PiReducerProgram.PiExtension.SchedulePendingTerminal` | extensions/pi/src/index.ts:321-330 | Schedules the timer with what it captures |
| `PiReducerProgram.PiExtension.BeginNewLowLevelRun` | extensions/pi/src/index.ts:473-483 | A new generation with nothing left of the old run |
| `PiReducerProgram.PiExtension.ClearBranchSensitiveState` | extensions/pi/src/index.ts:461-471 | Leaving the branch |
| `PiReducerProgram.PiExtension.SessionStarts` | extensions/pi/src/index.ts:485-507 | The specified step of session_start |
| `PiReducerProgram.PiExtension.SessionShutsDown` | extensions/pi/src/index.ts:509-534 | The specified step of session_shutdown |
| `PiReducerProgram.PiExtension.OnInputEvent` | extensions/pi/src/index.ts:536-550 | The specified step of input |
| `PiReducerProgram.PiExtension.OnAgentStart` | extensions/pi/src/index.ts:552-559 | The specified step of agent_start |
| `PiReducerProgram.PiExtension.OnAgentEndEvent` | extensions/pi/src/index.ts:563-575 | The specified step of agent_end |
| `PiReducerProgram.PiExtension.OnAgentSettled` | extensions/pi/src/index.ts:577-627 | The specified step of agent_settled |
| `PiReducerProgram.PiExtension.OnSessionTree` | extensions/pi/src/index.ts:629-647 | The specified step of session_tree |
| `PiReducerProgram.PiExtension.EmitTerminalAlert` | extensions/pi/src/index.ts:210-255 | The specified push or settlement |
| `PiReducerProgram.PiExtension.QuietTimerFires` | extensions/pi/src/index.ts:332-352 | The specified step of the quiet timer |
| `PiReducerProgram.PiExtension.PushCompletes` | extensions/pi/src/index.ts:255-288 | The specified step of a push that succeeds |
| `PiReducerProgram.PiExtension.PushThrows` | extensions/pi/src/index.ts:289-305 | The specified step of a push that fails |
| `PiReducerProgram.PiExtension.HandleAnswered` | extensions/pi/src/index.ts:121-136 | The specified step of an answered report |
| `Registry.NextKeeps` | apps/bridge/src/agent-adapter/registry.ts:160-754 | Every call, timer, disposal and restart keeps the registry invariant, given fresh command ids |
| `RegistryRuns.CommandsStayInOrder` | apps/bridge/src/agent-adapter/registry.ts:589-617 | In every run the commands enqueued for a session since it was last lost are, in order, those handed over since and then its queue |
| `RegistryRuns.EarlierIsHandedFirst` | apps/bridge/src/agent-adapter/registry.ts:589-617 | Of two commands enqueued in one ownership, the earlier is handed over first |
| `RegistryRuns.LongestWaitIsAnswered` | apps/bridge/src/agent-adapter/registry.ts:595-598 | With polls waiting, an enqueued command goes to the one that has waited longest |
| `RegistryCalls.RegistrationIs` | apps/bridge/src/agent-adapter/registry.ts:160-223 | Who owns the session after a registration: refused ones change nothing, the live owner keeps its lease, any other gets a new one |
| `RegistryCalls.HeartbeatIs` | apps/bridge/src/agent-adapter/registry.ts:345-368 | A heartbeat renews the owner, and cancels its staged Event exactly when the context changed |
| `RegistryCalls.LeaseLasts` | apps/bridge/src/agent-adapter/registry.ts:303-314 | A lease authorises up to six seconds after the last registration or heartbeat, and the check after that ends it |
| `RegistryCalls.EnqueueIs` | apps/bridge/src/agent-adapter/registry.ts:589-601 | A command for a registered session is bound to it, and in flight or last in its queue |
| `RegistryCalls.PollIs` | apps/bridge/src/agent-adapter/registry.ts:603-617 | A poll of the live owner takes the head of the queue or waits behind earlier polls; after disposal it gets nothing, and a stale one only drops an expired owner |
| `RegistryCalls.ResolveIs` | apps/bridge/src/agent-adapter/registry.ts:640-655 | A result of a command bound to the session that sends it ends it, and lets the staged Event go if nothing else is in its way |
| `RegistryCalls.AbandonIs` | apps/bridge/src/agent-adapter/registry.ts:657-664 | An abandoned command ends in the same way, but for its place in a queue |
| `RegistryCalls.RetryIs` | apps/bridge/src/agent-adapter/registry.ts:693-703 | A retry timer commits the staged Event of a session without work, or is armed again |
| `RegistryCalls.UnarmedRetryIs` | apps/bridge/src/agent-adapter/registry.ts:698-701 | A timer that is not armed, or fires after disposal, does nothing more |
| `RegistryCalls.PushIsRefused` | apps/bridge/src/agent-adapter/registry.ts:384-497 | A push is refused exactly for an unknown session, a request that does not fit, or an outdated source |
| `RegistryCalls.PushIs` | apps/bridge/src/agent-adapter/registry.ts:449-541 | Any other push that repeats no source is answered with the Event id for its content, which is staged behind work or committed at once, and its source accepted unless staged already |
| `RegistryCalls.RepeatIs` | apps/bridge/src/agent-adapter/registry.ts:472-493 | A push that repeats the accepted source is refused for other content, and stages or commits the accepted Event again exactly where the store has it reserved with its tuple |
| `RegistryCalls.DisposedIsQuiet` | apps/bridge/src/agent-adapter/registry.ts:329-343 | In every run from disposal to the next start no command is handed over, and without pushes, which are not refused then, nothing is staged or committed |
| `RegistryRuns.StagedHasTimer` | apps/bridge/src/agent-adapter/registry.ts:684-703 | A staged terminal Event is of a live session, and with no queued or in-flight command in its way its retry timer is armed |
| `RegistryRuns.CommittedWithoutWork` | apps/bridge/src/agent-adapter/registry.ts:670-691 | A terminal Event is committed only for a live session with nothing queued or in flight |
| `RegistryRuns.StagedStaysUnless` | apps/bridge/src/agent-adapter/registry.ts:670-722 | A staged Event goes only by its commit, a newer push, a cancellation, its owner's loss, or disposal |
| `RegistryRuns.LostLeaseNeverAuthorises` | apps/bridge/src/agent-adapter/registry.ts:303-314 | A lost lease authorises no instance for any session in the rest of any run |
| `RegistryRuns.LeaseNamesOneOwner` | apps/bridge/src/agent-adapter/registry.ts:213-220 | A lease authorises only the instance and session it was granted for |
| `RegistryRuns.TurnoverIsClean` | apps/bridge/src/agent-adapter/registry.ts:281-300 | A session changes its lease only by losing it, and then queue, in-flight set, staged Event, timer and bindings are gone |
| `RegistryRuns.LossIsClean` | apps/bridge/src/agent-adapter/registry.ts:281-300 | A loss leaves nothing of the owner's work and orphans every in-flight command |
| `RegistryRuns.WorkHasAnOwner` | apps/bridge/src/agent-adapter/registry.ts:589-609 | Only a registered session has queued or in-flight commands |
| `RegistryRuns.InFlightIsBound` | apps/bridge/src/agent-adapter/registry.ts:743-754 | An in-flight command is bound to the one session it was enqueued for |
| `RegistryRuns.HandedToOwnerIff` | apps/bridge/src/agent-adapter/registry.ts:595-598 | A command goes to a poll of the current owner exactly when the poll's lease has not been lost |
| `RegistryRuns.LostPollReceivesCommand` | apps/bridge/src/agent-adapter/registry.ts:281-300 | A run in which it has: the unanswered poll of an unregistered owner is given the next owner's first command |
| `RegistryRuns.CheckpointRises` | apps/bridge/src/agent-adapter/registry.ts:470-497 | In one step a checkpoint goes exactly with its session's ownership, and else stays or gives way to one of a higher order |
| `RegistryRuns.LosesIff` | apps/bridge/src/agent-adapter/registry.ts:281-314 | A lease is lost in exactly the steps that unregister the session or find it expired, and in a restart |
| `RegistryRuns.OrdersRise` | apps/bridge/src/agent-adapter/registry.ts:470-497 | In every run that does not lose the session, restarts included, its accepted order never falls |
| `RegistryRuns.CheckpointTells` | apps/bridge/src/state-store/session-transitions.ts:76-89 | In every run the checkpoint is that of the last accepted source, and is there exactly unless the session was lost since |
| `RegistryRuns.OrderMayFallIff` | apps/bridge/src/agent-adapter/registry.ts:494-497 | In every run a registered session can have a source accepted of an order not above the last accepted one if and only if it was lost since |
| `RegistryRuns.LostSourceIsForgotten` | apps/bridge/src/agent-adapter/registry.ts:281-300 | A run in which it was, for all lower orders: both Events are accepted and committed |
| `RegistryRuns.RepeatIff` | apps/bridge/src/agent-adapter/registry.ts:475-493 | Repeating the last accepted request never changes the checkpoint, and is answered with the same Event exactly when the content, the store's evidence and the commit agree |
| `RegistryRuns.AcceptedThenRepeated` | apps/bridge/src/agent-adapter/registry.ts:475-541 | Until the session is lost or a newer source accepted, restarts included, a repetition is answered with the Event the request was accepted as, exactly when the store's evidence of it agrees and the commit it may retry works |
| `RegistryProgram.AgentAdapterRegistry.ScheduleTerminalRetry` | apps/bridge/src/agent-adapter/registry.ts:693-703 | Arms at most one timer |
| `RegistryProgram.AgentAdapterRegistry.PromotePendingTerminal` | apps/bridge/src/agent-adapter/registry.ts:559-566 | Commits, or arms the retry timer where the durable write fails |
| `RegistryProgram.AgentAdapterRegistry.FlushDelayedTerminalEvent` | apps/bridge/src/agent-adapter/registry.ts:670-682 | The specified attempt to commit a staged Event |
| `RegistryProgram.AgentAdapterRegistry.OrphanCommands` | apps/bridge/src/agent-adapter/registry.ts:290-296 | The loop orphans and unbinds exactly the session's commands |
| `RegistryProgram.AgentAdapterRegistry.LoseOwner` | apps/bridge/src/agent-adapter/registry.ts:281-300 | The specified loss |
| `RegistryProgram.AgentAdapterRegistry.RegisterSession` | apps/bridge/src/agent-adapter/registry.ts:160-223 | The specified registration: refusal, expiry, renewal or a fresh lease |
| `RegistryProgram.AgentAdapterRegistry.AssertCurrentOwner` | apps/bridge/src/agent-adapter/registry.ts:303-314 | Passes exactly the current unexpired lease, and revokes an expired one |
| `RegistryProgram.AgentAdapterRegistry.HeartbeatSession` | apps/bridge/src/agent-adapter/registry.ts:345-368 | The specified renewal |
| `RegistryProgram.AgentAdapterRegistry.ListSessions` | apps/bridge/src/agent-adapter/registry.ts:370-377 | Exactly the unexpired owners stay, the leases of the others are lost |
| `RegistryProgram.AgentAdapterRegistry.EnqueueCommand` | apps/bridge/src/agent-adapter/registry.ts:589-601 | The specified hand-over or queueing |
| `RegistryProgram.AgentAdapterRegistry.PollCommand` | apps/bridge/src/agent-adapter/registry.ts:603-617 | The head of the queue for the current owner, else a waiter |
| `RegistryProgram.AgentAdapterRegistry.RemoveCommandWaiter` | apps/bridge/src/agent-adapter/registry.ts:756-759 | Removes one waiter and keeps the order of the others |
| `RegistryProgram.AgentAdapterRegistry.ClearCommandInFlight` | apps/bridge/src/agent-adapter/registry.ts:751-754 | The specified end of a command, with the flush it allows |
| `RegistryProgram.AgentAdapterRegistry.ResolveCommand` | apps/bridge/src/agent-adapter/registry.ts:640-655 | The specified step of a submitted result |
| `RegistryProgram.AgentAdapterRegistry.AbandonCommand` | apps/bridge/src/agent-adapter/registry.ts:657-664 | The specified step of an abandoned command |
| `RegistryProgram.AgentAdapterRegistry.PushEvent` | apps/bridge/src/agent-adapter/registry.ts:384-541 | The specified answer and state of pushEvent and pushEventSource |
| `RegistryProgram.AgentAdapterRegistry.DisposeRegistry` | apps/bridge/src/agent-adapter/registry.ts:329-343 | The specified disposal |
| `Unicode.Utf8RoundTrip` | packages/protocol/src/encryption.ts:383-389 | Strict UTF-8 decoding undoes TextEncoder on well-formed strings |
| `Unicode.WellFormedIff` | packages/protocol/src/encryption.ts:364-374 | isWellFormedUnicode accepts exactly the UTF-16 of some text |
| `Unicode.IsWellFormedUnicode` | packages/protocol/src/encryption.ts:364-374 | The loop computes that predicate |
| `FieldEncoding.EncodedRoundTrip` | packages/protocol/src/encryption.ts:385-395 | A parser undoes the length-prefixed encoding on every list of well-formed strings |
| `FieldEncoding.EncodedInjective` | packages/protocol/src/encryption.ts:385-395 | Equal encodings are of equal lists |
| `FieldEncoding.EncodeLengthPrefixedFields` | packages/protocol/src/encryption.ts:385-395 | The buffer filled chunk by chunk is that encoding |
| `FieldEncoding.DecimalInjective` | packages/protocol/src/encryption.ts:388 | Different lengths have different digits |
| `BindingBytes.FieldsReadBack` | packages/protocol/src/encryption.ts:540-655 | The fields of any AAD, transcript or envelope binding determine the builder and all its inputs, absent optional ones included |
| `BindingBytes.BytesDetermineBinding` | packages/protocol/src/encryption.ts:784-806 | Two builder calls with equal bytes are the same builder on equal inputs |
| `BindingVectors.LinkVectors` | packages/protocol/test/encryption.test.ts:90-96 | The link transcript and the safety code input have the fields of the frozen vectors, in their order |
| `BindingVectors.SessionContentVector` | packages/protocol/test/encryption.test.ts:102-106 | The Session AAD has the fields of the frozen vector, in its order |
| `BindingVectors.WrapVectors` | packages/protocol/test/encryption.test.ts:112-118 | The key wrap AAD of each direction has the fields of the frozen vector, under the domain of its payload kind |
| `BindingVectors.CommandEnvelopeVector` | packages/protocol/test/command-e2e.test.ts:189 | The bytes that a command digest is of have the fields of the frozen vector, in its order |
| `BindingVectors.ReceiptEnvelopeVector` | packages/protocol/test/command-e2e.test.ts:320 | The bytes that a receipt digest is of have the fields of the frozen vector, in its order |
| `Base64Url.DecodeOfEncode` | packages/protocol/src/request-signing.ts:98-122 | Decoding undoes encoding, except of no bytes, which the decoder rejects |
| `Base64Url.DecodeAcceptsIff` | packages/protocol/src/request-signing.ts:104-122 | Accepted are exactly texts of the alphabet of a possible length whose left-over bits are zero |
| `Base64Url.SizedAcceptsIff` | packages/protocol/src/request-signing.ts:104-122 | With an expected number of bytes, exactly those with four letters to three bytes of it |
| `Base64Url.DecodeInjective` | packages/protocol/src/request-signing.ts:120 | Each byte string has one accepted spelling |
| `Base64Url.Base64UrlEncode` | packages/protocol/src/request-signing.ts:98-102 | btoa with the two replacements and the padding removed is that encoding |
| `RequestSigning.OrderDoesNotMatter` | packages/protocol/src/request-signing.ts:178-209 | The canonical query, or its rejection, does not depend on the order of the pairs |
| `RequestSigning.CanonicalIsFixed` | packages/protocol/src/request-signing.ts:178-209 | A canonical query parsed and canonicalized again stays as it is |
| `RequestSigning.TextParses` | packages/protocol/src/request-signing.ts:254-269 | parseQuery reads back the pairs that were written |
| `RequestSigning.CanonicalizeQuery` | packages/protocol/src/request-signing.ts:178-209 | The loop with the seen names computes the canonical query |
| `RequestSigning.PathIff` | packages/protocol/src/request-signing.ts:149-178 | The accepted paths are the root and exactly what restricted segments joined by slashes give, up to the bounds |
| `RequestSigning.TargetIff` | packages/protocol/src/request-signing.ts:211-219 | A target is built of every accepted path and query: its own bound never rejects one |
| `RequestSigning.SignedIsSent` | apps/bridge/src/relay-client.ts:107-116 | A built target splits at ? into the path and query it was built from, both canonical: what is signed is what is sent |
| `RequestSigning.SignedTextInjective` | packages/protocol/src/request-signing.ts:221-241 | The text of a request with no newline in its fields is of no other request |
| `RequestSigning.SignedTextNamesOneIff` | packages/protocol/src/request-signing.ts:221-241 | A signed text is of one request alone if and only if none of the fields that the builder does not check has a newline |
| `ProducerOrder.OrderRoundTrip` | packages/protocol/src/agent-adapter.ts:217-233 | Orders and their 32 hexadecimal characters determine each other |
| `ProducerOrder.NextOrderIs` | packages/protocol/src/agent-adapter.ts:239-244 | The successor is one more, and is missing exactly at 2^128 - 1 |
| `ProducerOrder.AllocatedCountsUp` | extensions/pi/src/adapter.ts:241-249 | A client's orders rise by one until they are exhausted |
| `ProducerOrder.LaterClientIsAboveIff` | extensions/pi/src/adapter.ts:393-398 | A later client begins above the first 2^80 orders of an earlier one, whatever their random bits, if and only if the clock moved on by two milliseconds |
| `ProducerOrder.AgentAdapterClient.AllocateProducerEventOrder` | extensions/pi/src/adapter.ts:241-249 | The allocation and the updated map; nothing changes when orders are exhausted |
| `JsonBytes.SizeIsLength` | packages/protocol/src/agent-adapter.ts:285-331 | The accounted size of a plain value is the UTF-8 length of its serialization |
| `JsonBytes.Accountant.Walk` | packages/protocol/src/agent-adapter.ts:292-329 | The walk with early exit accounts exactly, or has found a value that is not plain or too long |
| `JsonBytes.JsonBytesWithin` | packages/protocol/src/agent-adapter.ts:285-331 | True exactly of a plain value whose real serialized length is within the bound |
| `ReceiptPadding.BuiltIff` | packages/protocol/src/encryption.ts:458-466 | Exactly the consistent receipts can be built, all as 128 bytes |
| `ReceiptPadding.ValidatedIff` | packages/protocol/src/encryption.ts:468-479 | With any JSON parser that reads back what was written, the validator accepts exactly the builder's bytes, as the receipt they were built from |
| `ReceiptPadding.BuildProtectedCommandReceiptBytes` | packages/protocol/src/encryption.ts:458-466 | The buffer of spaces with the text over them is what is specified |
| `ReceiptPadding.ValidateProtectedCommandReceiptBytes` | packages/protocol/src/encryption.ts:468-479 | The loop back over the spaces and the comparison with the rebuilt bytes give the specified answer |
| `SerializedBlocks.BlockEndIff` | extensions/pi/src/events.ts:204-233 | From an opener the matcher finds exactly the end of the one block of the bracket grammar that stands there, and the end of the text if none does |
| `SerializedBlocks.FindSerializedBlockEnd` | extensions/pi/src/events.ts:204-233 | The loop with its stack and quote computes that end |
| `LocalSpool.OpensOnlyAsSealed` | apps/bridge/src/e2e/local-spool.ts:406-409 | A sealed box opens under other metadata exactly when it is the same metadata |
| `LocalSpool.ArchiveDecodesIff` | apps/bridge/src/state-store.ts:828-836 | The exact raw bytes decode back from a dead letter exactly when there are any |
| `LocalSpool.AddedIff` | apps/bridge/src/e2e/local-spool.ts:259-267 | Additions are taken exactly when their ids are free |
| `LocalSpoolRuns.RunKeeps` | apps/bridge/src/e2e/local-spool.ts:210-350 | Over every run of operations and restarts, in memory and in the file ids are unique, and both are of one key |
| `LocalSpoolRuns.OutcomeIs` | apps/bridge/src/e2e/local-spool.ts:210-295 | The spool is a map: an operation that returns changes the map as it says, and one that throws leaves it alone |
| `LocalSpoolRuns.WritesIff` | apps/bridge/src/e2e/local-spool.ts:210-295 | An operation comes to its write exactly when it has the key and its ids are free, or for the recovery when something does not open |
| `LocalSpoolRuns.OpensIff` | apps/bridge/src/e2e/local-spool.ts:244-252 | An item opens exactly when it is stored, the key is there and the spool holds something for its id, and gives that |
| `LocalSpoolRuns.SyncedIff` | apps/bridge/src/e2e/local-spool.ts:329-350 | From any state, exactly when memory is what the file says after an operation |
| `LocalSpoolRuns.DivergesIff` | apps/bridge/src/e2e/local-spool.ts:329-350 | Memory and file fall apart exactly where a write of other items installs its target, reports a failure, and the file cannot be read back |
| `LocalSpoolRuns.InstalledThenUndone` | apps/bridge/src/e2e/local-spool.ts:329-350 | The failed operation is then in the file and not in memory: a new process finds it, and the next write that returns undoes it and makes both agree |
| `LocalSpoolRuns.ReturnedWriteSyncs` | apps/bridge/src/e2e/local-spool.ts:329-350 | From any state, a write that returns leaves memory and file with what the operation says |
| `LocalSpoolRuns.FirstPayloadIsLost` | apps/bridge/src/e2e/local-spool.ts:210-234 | A run in which they fall apart: a first payload that the file holds and memory does not |
| `LocalSpoolRuns.QuarantineIff` | apps/bridge/src/state-store.ts:805-849 | A quarantine is done exactly when it can be and its one write is; source and proven inflight are then one dead letter with their exact bytes and everything else is untouched, otherwise memory is as it was |
| `LocalSpoolRuns.QuarantineSyncedIff` | apps/bridge/src/state-store.ts:805-849 | From memory that is the file: when a quarantine is done, and when it leaves the two apart |
| `LocalSpoolCalls.KeyIsThere` | apps/bridge/src/e2e/local-spool.ts:312-328 | In every run of a spool that began without a file, an operation has its key exactly when the key store answers, and it is the key of all operations before |
| `LocalSpoolCalls.LostKeyIsFinal` | apps/bridge/src/e2e/local-spool.ts:312-328 | In every run of a spool with a file and no key, no new key is made, memory and file stay, and nothing returns but reopening or an id that is there |
| `LocalSpoolCalls.PersistedIff` | apps/bridge/src/e2e/local-spool.ts:226-271 | Items count as persisted exactly from a returning enqueue or replacement that wrote some, or from the file |
| `LocalSpoolCalls.EnqueuedAgainIff` | apps/bridge/src/e2e/local-spool.ts:213-223 | What was enqueued is taken again exactly for the same session, kind and Event id; an empty Event id is stored as none and conflicts with itself |
| `LocalSpoolProgram.LocalEncryptedSpool.LoadVerifiedKey` | apps/bridge/src/e2e/local-spool.ts:312-328 | A key exactly when the store has the spool's key or may create one |
| `LocalSpoolProgram.LocalEncryptedSpool.Persist` | apps/bridge/src/e2e/local-spool.ts:329-350 | The file after the write, and success exactly when it works or the re-read file is the target |
| `LocalSpoolProgram.LocalEncryptedSpool.EnqueueItem` | apps/bridge/src/e2e/local-spool.ts:210-234 | Memory, file and outcome of the specified addition, or what the id holds |
| `LocalSpoolProgram.LocalEncryptedSpool.ReplaceItems` | apps/bridge/src/e2e/local-spool.ts:253-271 | Memory, file and outcome of the specified replacement in one write |
| `LocalSpoolProgram.LocalEncryptedSpool.SealAll` | apps/bridge/src/e2e/local-spool.ts:259-267 | The loop that seals the additions, stopping at a taken id |
| `LocalSpoolProgram.LocalEncryptedSpool.OpenStored` | apps/bridge/src/e2e/local-spool.ts:244-252 | The specified opening of a stored item |
| `LocalSpoolProgram.LocalEncryptedSpool.DropUnreadable` | apps/bridge/src/e2e/local-spool.ts:274-295 | Memory, file and outcome of the specified recovery, and the number of items dropped |
| `LocalSpoolProgram.PendingEvents.QuarantinePendingEventRaw` | apps/bridge/src/state-store.ts:805-849 | Memory, file and outcome of the specified quarantine |

## Left out

- CommandWorkflowRuns.AtMostOnceDispatch: over whole runs only for a command whose own results are retained at least until it expires, because otherwise it is false, as shown above
- CommandWorkflowRuns.ReceiptIsFixed: under the same condition, for the same reason
- CommandWorkflowRuns.UnknownIsNeverAnswered: under the same condition on the results before the outcome became unknown, for the same reason
- LinkKeyringRuns.StoredPinsMoveOn: an operation that takes no mutation lock, of an object that another has overtaken, may drop the other's changes
- LinkKeyringProgram.LocalLinkKeyring.PruneRetiring: the pruning of Host identities after it is not part of a run; the keys are fixed, and IdentityPruneKeepsValid says that it would change nothing
- RegistryRuns.CheckpointRises: the store is assumed to find the staged Event of a lost session, whose reservation it keeps among its latest 200; else it leaves the checkpoint
- LocalSpoolRuns.RunKeeps: a file that does not load, or holds items of another host, is not modelled
- LocalSpoolCalls.KeyIsThere: a key store that loses its key in the middle of a run is not modelled; LostKeyIsFinal is about a key that is missing from the start
- CommandWorkflowProgram.CommandDaemon.Drain: the order of the drain by claim time and command id is not modelled, any order is allowed
- CommandWorkflowProgram.CommandDaemon.PullAndDispatch: begins at the pull; the refresh, recovery and drain before it are those of RecoverStartup
- RegistryProgram.AgentAdapterRegistry.RegisterSession: collisions, the session size and context checks, and the terminal Event restored from the store are parameters or left out
- RegistryProgram.AgentAdapterRegistry.PushEvent: parsing and context checks are one parameter, and the store's reservations and tuples another; Event contents other than their fingerprint are not modelled
- PiReducerRuns.OnePublicationPerRun: counts pushes that succeed; a push that reports a failure may have been received, and is made idempotent by the producer order
- BindingBytes.BytesDetermineBinding: the builders' bounds on lengths and formats, which only admit fewer inputs, are not modelled; an absent suite of a link transcript is the default suite
- RequestSigning.CanonicalizeQuery: the sort is the insertion sort Sorted, and the kind of error is not modelled, only that there is one
- SerializedBlocks.BlockEndIff: texts are characters rather than UTF-16 code units; no bracket or quote lies outside the basic plane
- JsonBytes.JsonBytesWithin: values are plain trees, so getters, prototypes and symbols are `Other`
- LocalSpool.OpensOnlyAsSealed: for metadata without an empty Event id, which the spool never writes
- LocalSpoolProgram.PendingEvents.QuarantinePendingEventRaw: zeroing of buffers is not modelled
- Keyring writes are assumed to succeed, and each keyring operation is one step, also those that take no mutation lock.
- Retry delays of terminal Events, result waiters and the timers of polls, and the resident sizes of all limits that only reject input.
- ReceiptPadding.ValidatedIff: the decoder's skipping of a byte order mark is not modelled; bytes that begin with one are refused all the same
- Notification previews, the table of epoch operations and the exact-key guards of records.
- Cryptographic primitives, Keychain, secure file helpers, the process inspector and the cross-process mutation lock, beyond what is assumed of them above.
- Schema migration, reset, upload actions, the HTTP server and client, the command line, profiles, onboarding, logging and simulation.
- Redaction and text classification by regular expressions, which have no specification but themselves.
