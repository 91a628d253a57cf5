# Verified model of the Grok companion broker

A Dafny model of the parts of the broker where a crash, a race or a lost answer decides the outcome, with
proofs over every run.  `dafny verify dfyconfig.toml` checks the whole project.

| modules | what they model |
|---|---|
| `ProvisioningRecord`, `ProvisioningTable`, `ProvisioningSystem`, `ProvisioningSafety`, `ProvisioningTruth`, `ProvisioningFencing`, `ProvisioningProgress`, `ProvisioningRecovery` | the crash-safe provisioning of one worktree: the durable journal, its hosts and controllers, the Git effect, the program of a call, and recovery |
| `Mailbox`, `MailboxOrder`, `MailboxCrash`, `MailboxRepair`, `MailboxStore` | the records of the ordered mailbox, the operations on them, recovery of operations torn between two writes and of any records at all, and the same operations in place |
| `MailboxTable`, `MailboxSystem`, `MailboxSteps`, `MailboxSafety`, `MailboxRuns`, `MailboxTheorems`, `MailboxDrain`, `MailboxCancel` | senders, pump, transport, cancellation and crashes around these records, and what every run guarantees |
| `AcpClient` | the JSON-RPC 2.0 client: what one stdout batch settles (sections 4.1 and 5 of the JSON-RPC 2.0 Specification) |
| `PidfdSignal` | the race-free signal through a process descriptor, on a kernel that kills, reaps and reuses PIDs |
| `CycleFinder` | the depth-first search for import cycles |
| `Sorting`, `Inventory`, `PublicFindings` | stable sorting, the worktree inventory difference check, and the public form of source findings |
| `Duration` | durations and arguments of the test-temp cleanup |
| `Lifecycle` | the provider lifecycle of one dispatch and its acceptor |
| `Texts` | UTF-8 and UTF-16 lengths of a text (section 3 of RFC 3629) |
| `Decimals` | natural numbers as decimal texts |
| `Wrappers` | `Option` |

How to read it.  A run is a sequence of steps chosen by an adversary; a step that is not enabled does
nothing.  Digests are the values they digest, so equal digests mean equal values.  A function that returns
an `Option` models an operation that may throw: `None` leaves the state as it was.  Text is a sequence of
characters.

## Where the code and its documents differ

The model follows the code.

- Section 7 of the repository's specification names a state `launch-authorized`; the code stores launch
  materials beside a journal that stays `ready`
  (plugins/grok/scripts/lib/worker-mutation-write-admission.mjs:211-460).
- The same section promises recovery.  A job whose host died while its journal said `provisioning` is refused
  by every later call, and so is a plan that already holds an intent
  (plugins/grok/scripts/lib/worker-provisioner.mjs:560-566): `DeathWhileProvisioningStrands`,
  `DeathAfterIntentStrands`.  A plan, fresh or reissued, whose bound path is already taken is refused at the
  parent directory, even if it holds the exact worktree (lines 251-286): `TakenPlanIsRefused`.
  `RecoverableExactlyWhenReadyIsReachable` says exactly which records can be recovered.
- The inventory check means three different fields but only tests that each is expected
  (scripts/live-worker-provisioner-probe.mjs:106-109): `RepeatedRootIsAccepted` and
  `DistinctAdditionIsExact`.
- Public findings are canonical only without collisions, and a finding without a function key collides with
  one whose key is empty (scripts/check-source-structure.mjs:72): `FindingsAreCanonicalIffNoCollision` and
  `AbsentAndEmptyKeyCollide`.
- A prompt already announced when the attempt is cancelled may still go out; its message then is unknown, as
  an ambiguous turn should be (plugins/grok/scripts/lib/worker-mailbox.mjs:697-719): `CancelledPromptGoesOut`,
  `SendsAfterCancellationExactlyWhenAnnounced`.
- A public message can keep a spelling of a root that can be completed across the inserted `<root>`
  (scripts/check-source-structure.mjs:49): `SpellingSurvivesIffCompletable`.

## Model

| member | source | states |
|---|---|---|
| ProvisioningRecord.CommitKeepsConsistent | plugins/grok/scripts/lib/worker-mutation-write-runtime-contract.mjs:105-338 | every accepted durable request, from any caller with any view of the world, keeps the record consistent: fields fit the state, evidence fits the intent, archives are chained, the fence is one more than their number; the binding never changes |
| ProvisioningRecord.PlanReissueKeepsChain | plugins/grok/scripts/lib/worker-mutation-write-provisioning.mjs:370-614 | planning a reissue archives the replaced attempt with its journal, intent, cleanup and absence proof, and keeps the archives one linked chain |
| ProvisioningRecord.AncestorsChain | plugins/grok/scripts/lib/worker-execution-binding.mjs:998-1073 | replacing journals is transitive: what an earlier journal descends from, a later one descends from as well |
| ProvisioningRecord.Job.PrepareIntent | plugins/grok/scripts/lib/worker-mutation-write-provisioning.mjs:75-220 | in-place update of a consistent record equals its specification and keeps it consistent, refusals leave every field alone: a fresh plan gets a pending intent with fence 1; any other record is refused unchanged |
| ProvisioningRecord.Job.ActivateAttempt | plugins/grok/scripts/lib/worker-mutation-write-provisioning.mjs:616-790 | in-place update of a consistent record equals its specification and keeps it consistent, refusals leave every field alone: a planned or reissue-planned attempt names its controller process and holder and enters `provisioning` |
| ProvisioningRecord.Job.RegisterController | plugins/grok/scripts/lib/recursion-guard.mjs:1301-1422 | in-place update of a consistent record equals its specification and keeps it consistent, refusals leave every field alone: the pending intent of the attempt becomes registered together with its guard |
| ProvisioningRecord.Job.RecordOfficialReceipt | plugins/grok/scripts/lib/worker-mutation-write-provisioning.mjs:792-951 | in-place update of a consistent record equals its specification and keeps it consistent, refusals leave every field alone: only a response for the bound path and commit, by the registered attempt, becomes the one receipt |
| ProvisioningRecord.Job.PromoteReady | plugins/grok/scripts/lib/worker-mutation-write-provisioning.mjs:953-1154 | in-place update of a consistent record equals its specification and keeps it consistent, refusals leave every field alone: `ready` needs the receipt, the proof that the controller is gone and the verified worktree |
| ProvisioningRecord.Job.RetainCleanupPending | plugins/grok/scripts/lib/worker-mutation-write-recovery.mjs:66-249 | in-place update of a consistent record equals its specification and keeps it consistent, refusals leave every field alone: an ambiguous effect is kept as `cleanup_pending` once the controller is proven gone |
| ProvisioningRecord.Job.RecordNoChild | plugins/grok/scripts/lib/worker-mutation-write-recovery.mjs:605-832 | in-place update of a consistent record equals its specification and keeps it consistent, refusals leave every field alone: an attempt without a usable child fails, before its activation or with its process proven gone |
| ProvisioningRecord.Job.AdoptEffect | plugins/grok/scripts/lib/worker-mutation-write-recovery.mjs:301-542 | in-place update of a consistent record equals its specification and keeps it consistent, refusals leave every field alone: an exact effect of unknown official response is adopted with host evidence and no invented receipt |
| ProvisioningRecord.Job.PrepareReissue | plugins/grok/scripts/lib/worker-mutation-write-provisioning.mjs:370-614 | in-place update of a consistent record equals its specification and keeps it consistent, refusals leave every field alone: an absent effect of a settled attempt is reissued under a fresh attempt and the next fence, at most twice |
| ProvisioningRecord.Job.ReauthorizeReissue | plugins/grok/scripts/lib/worker-mutation-write-provisioning.mjs:222-368 | in-place update of a consistent record equals its specification and keeps it consistent, refusals leave every field alone: a crashed reissue plan keeps attempt and fence and takes a fresh holder and spawn intent |
| ProvisioningRecord.Job.AuthorizeProviderLaunch | plugins/grok/scripts/lib/worker-mutation-write-admission.mjs:211-460 | in-place update of a consistent record equals its specification and keeps it consistent, refusals leave every field alone: only a separate request on a ready job creates launch materials |
| ProvisioningTable.CommitFollowsTheTable | plugins/grok/scripts/lib/worker-mutation-write-runtime-contract.mjs:79-338 | an independent reference of the whole durable protocol, written by field and in literal values: each of the eleven requests is accepted if and only if its row fits (state, stored identities, exact response, exact clean worktree or exact absence, dead controller, unused identities), and then every field of the record is what the table says |
| ProvisioningTable.ContinuesTheEarlier | plugins/grok/scripts/lib/worker-mutation-write-provisioning.mjs:408-440 | an intent continues all archives exactly if it reuses no attempt, holder or spawn identity of an attempt that was replaced |
| ProvisioningSafety.ExecKeepsInv | scripts/live-worker-provisioner-probe.mjs:794-914 | the invariant over durable record, hidden effect, guard and live or dead controllers and hosts survives every step, crashes and lost answers included |
| ProvisioningSafety.RunKeepsInv | scripts/live-worker-provisioner-probe.mjs:794-914 | the same over every run |
| ProvisioningSafety.AtMostOneEffect | scripts/live-worker-provisioner-probe.mjs:794-818 | counted over the steps of every run: official creates change the bound path at most once more often than an outsider removed what was there, so at most once if nobody did; at most three create requests go out |
| ProvisioningSafety.CreateOnlyAfterAbsence | scripts/live-worker-provisioner-probe.mjs:604-626 | when a create request goes out every other activated controller is dead, every earlier attempt is archived with the proof that no tree, registration or backlink existed and its controller was gone, the same absence holds again, and no earlier effect is unaccounted for |
| ProvisioningSafety.ReadyIsJustified | scripts/live-worker-provisioner-probe.mjs:840-883 | every reachable `ready` has, unless an outsider touched it, the clean checkout of the base commit at the bound path, one registration, one backlink and the admitted parent fingerprint; exactly one of receipt and adoption, whose contents are given in full, the receipt saying `created`; the proof that its controller and guard are gone; and no live controller |
| ProvisioningSafety.OnlyLaunchRequestsLaunch | plugins/grok/scripts/lib/worker-mutation-write-admission.mjs:211-460 | no run without a launch request creates launch materials |
| ProvisioningSafety.FailedAttemptWasNeverAsked | plugins/grok/scripts/lib/worker-mutation-write-recovery.mjs:605-832 | a failed job sent no create request in its last attempt |
| ProvisioningSafety.RunKeepsBinding | plugins/grok/scripts/lib/worker-execution-binding.mjs:474-538 | the binding is constant over every run |
| ProvisioningSafety.OnlyVerifiedEffectsBecomeReady | plugins/grok/scripts/lib/worker-provisioner.mjs:500-556 | whatever step makes a job ready, the world at that moment is the clean checkout of the base commit at the bound path with one registration, one backlink and the admitted parent fingerprint; never a dirty, foreign, mismatched, occupied or absent effect |
| ProvisioningSafety.OnlyAcceptedRequestsChangeTheRecord | scripts/live-worker-provisioner-probe.mjs:733-752 | crashes, controllers and outsiders never write the record; only an accepted request of a live host with a current view does |
| ProvisioningSafety.AttemptsAreChained | scripts/live-worker-provisioner-probe.mjs:864-891 | in every run archive k has fence k+1, names its predecessor and a `cleanup_pending` journal that the present journal descends from, is proven cleaned up and absent, and shares no attempt, holder or spawn identity with another |
| ProvisioningTruth.NoReceiptIsInvented | plugins/grok/scripts/lib/worker-mutation-write-provisioning.mjs:792-951 | over every run a receipt is the very answer that the asked controller of the current attempt gave |
| ProvisioningTruth.SendsSucceedExactly | plugins/grok/scripts/lib/worker-provisioner.mjs:453-1057 | in every run a request changes the record if and only if its host lives, its row of the protocol table fits what the host last saw, and what it presents is so: controllers called gone are dead and no guard is left, an activated one is the own, living, unasked child of the host, a response is the answer of its controller, and an attempt settled without a child was never asked, and the caller stands where its program makes that request |
| ProvisioningTruth.SendChangesOnly | plugins/grok/scripts/lib/worker-provisioner.mjs:453-1057 | the whole system after an accepted request: the record, what its host remembers and does next, at most the mark of the activated controller, and nothing else |
| ProvisioningTruth.GuardsExactly | plugins/grok/scripts/lib/recursion-guard.mjs:1301-1422 | in every run a guard is placed if and only if none stands and the record is still the pending attempt of the host |
| ProvisioningTruth.AsksExactly | plugins/grok/scripts/lib/worker-provisioner.mjs:905-977 | in every run a create request goes out if and only if the controller lives and the record is still the registered attempt of the host, and for a reissued attempt nothing is at the bound path |
| ProvisioningTruth.OutsidersActFreely | scripts/live-worker-provisioner-probe.mjs:794-818 | what the results allow for: an asked controller may land any effect or answer anything without one, any may die at any time, and anybody may change the world |
| ProvisioningTruth.LivingControllersAreGuarded | plugins/grok/scripts/lib/recursion-guard.mjs:1301-1422 | in every run a guard belongs to the current provisioning attempt, and its registered controller is guarded for as long as it lives |
| ProvisioningTruth.FailedSpawnIsSettled | plugins/grok/scripts/lib/worker-mutation-write-recovery.mjs:605-832 | in every run a plan whose controller cannot be created is settled as failed |
| ProvisioningTruth.UnusedChildIsSettled | plugins/grok/scripts/lib/worker-mutation-write-recovery.mjs:605-832 | in every run a plan whose controller was created but never activated is settled as failed once it is killed |
| ProvisioningTruth.PassesTheGateExactly | plugins/grok/scripts/lib/worker-provisioner.mjs:251-286 | a call passes the parent directory if and only if nothing occupies the path and it holds no attempt yet |
| ProvisioningFencing.OperationAndFenceOverRuns | plugins/grok/scripts/lib/worker-mutation-write-runtime-contract.mjs:79-103 | over every run the operation is constant, archives are only added and the fence counts them; an unchanged fence means the same attempt, a fence left behind is the one of the archived attempt |
| ProvisioningFencing.FencedOutForever | plugins/grok/scripts/lib/worker-execution-binding.mjs:957-960 | a host whose view of the journal fell behind is never accepted again, however the run goes on |
| ProvisioningSafety.ReadyReplayChangesNothing | scripts/live-worker-provisioner-probe.mjs:1290-1314 | from a reachable ready state no run of hosts, stale ones included, changes record, world or create count, and later hosts start no controller |
| ProvisioningProgress.ProductiveAdvances | plugins/grok/scripts/lib/worker-provisioner.mjs:588-1029 | each step of the program of a call, and the creation it waits for, lowers the measure by one and stays on course |
| ProvisioningProgress.AroundKeepsCourse | plugins/grok/scripts/lib/worker-provisioner.mjs:588-626 | whatever other hosts, stale ones included, and other controllers do around it, a call that holds the coordinator lease stays on course and no farther from `ready` |
| ProvisioningProgress.EveryRunRecovers | plugins/grok/scripts/lib/worker-provisioner.mjs:588-1057 | in every run in which one call follows its program and its controller creates, whatever happens around it: steps taken plus steps remaining are constant until the job is ready |
| ProvisioningProgress.NextStepIsProductive | plugins/grok/scripts/lib/worker-provisioner.mjs:588-1029 | until the job is ready the program, or the controller it waits for, always has a next step |
| ProvisioningRecovery.EveryCallRecovers | plugins/grok/scripts/lib/worker-provisioner.mjs:453-1057 | a call on a recoverable job makes it ready in every such run once it and its controller have taken fourteen steps |
| ProvisioningRecovery.RecoveryReachesReady | plugins/grok/scripts/lib/worker-provisioner.mjs:453-1057 | such a run exists, of at most fifteen steps with the start of the call |
| ProvisioningRecovery.UnrecoverableIsDoomed | plugins/grok/scripts/lib/worker-provisioner.mjs:548-575 | with every host and controller dead, what is not recoverable is blocked, stranded or obstructed |
| ProvisioningRecovery.RecoverableExactlyWhenReadyIsReachable | plugins/grok/scripts/lib/worker-provisioner.mjs:496-626 | with every host and controller dead, `ready` is reachable without outside help if and only if the record and the world are recoverable, a condition checkable on both |
| ProvisioningRecovery.DeathWhileProvisioningStrands | plugins/grok/scripts/lib/worker-provisioner.mjs:560-566 | an undisturbed job whose host dies while its journal says `provisioning` is not recoverable |
| ProvisioningRecovery.DeathAfterIntentStrands | plugins/grok/scripts/lib/worker-provisioner.mjs:560-566 | neither is a plan whose host dies right after preparing its intent |
| ProvisioningRecovery.StrandedNeverReady | plugins/grok/scripts/lib/worker-provisioner.mjs:560-566 | no run leads such a job to `ready` |
| ProvisioningRecovery.TakenPlanIsRefused | plugins/grok/scripts/lib/worker-provisioner.mjs:251-286 | a fresh plan over an existing worktree, even the exact one, never becomes ready |
| MailboxOrder.SentKeepsValid | plugins/grok/scripts/lib/worker-mailbox-state.mjs:822-931 | acceptance keeps numbering, queue order, distinct keys, counters and limits |
| MailboxOrder.DeliverKeepsValid | plugins/grok/scripts/lib/worker-mailbox-state.mjs:1235-1279 | a delivery extends the chain by exactly the turn of the active message |
| MailboxOrder.LoseKeepsValid | plugins/grok/scripts/lib/worker-mailbox-state.mjs:1281-1375 | an ambiguous turn ends the queue: everything behind it is refused and the mailbox shuts |
| MailboxOrder.RejectedKeepsValid | plugins/grok/scripts/lib/worker-mailbox-state.mjs:1377-1399 | turning waiting messages down one by one keeps the order at every point |
| MailboxOrder.InterruptCloses | plugins/grok/scripts/lib/worker-mailbox-state.mjs:1557-1588 | settlement after a loss always ends in `closed` |
| MailboxOrder.ChainNamesEveryTurn | plugins/grok/scripts/lib/worker-mailbox-state.mjs:589-658 | two message lists that end in the same chain have the same primary turn and the same completed turns |
| MailboxCrash.RecoverIsIdle | plugins/grok/scripts/lib/worker-mailbox-state.mjs:983-1162 | recovery changes nothing in complete records |
| MailboxCrash.LaggingIsRepaired | plugins/grok/scripts/lib/worker-mailbox-state.mjs:983-1162 | recovery rebuilds the aggregate from the messages alone, however far it lags |
| MailboxCrash.MessageFirst | plugins/grok/scripts/lib/worker-mailbox-state.mjs:977-982 | a crash between the message write and the aggregate write is recovered to the full effect |
| MailboxCrash.LoseIsFinished | plugins/grok/scripts/lib/worker-mailbox-state.mjs:1281-1363 | a loss interrupted after any number of its writes is recovered to the full loss |
| MailboxCrash.ApplyKeepsValid | plugins/grok/scripts/lib/worker-mailbox-state.mjs:822-1588 | every operation keeps the records in order |
| MailboxCrash.CrashIsRecovered | plugins/grok/scripts/lib/worker-mailbox-state.mjs:977-1162 | a crash between any two writes of any operation leaves records that recovery accepts and turns into the full effect, or one step of it for an operation of several steps |
| MailboxRepair.RefusesExactlyDefects | plugins/grok/scripts/lib/worker-mailbox-state.mjs:983-1103 | recovery refuses any records, whoever wrote them, if and only if they have one of the listed defects: too many or too long, a gap, counters that lead or disagree, two messages in hand, a missing one, a turn after an unknown one or before the primary one, a link that does not extend the chain, or an aggregate chain that is no prefix |
| MailboxRepair.RecoverRepairs | plugins/grok/scripts/lib/worker-mailbox-state.mjs:1104-1162 | otherwise every field afterwards is given: exact counters, the last turn and end of the chain, the only message in hand, what an unknown delivery closes and blocks, and each status |
| MailboxRepair.BrokenLinkIs | plugins/grok/scripts/lib/worker-mailbox-state.mjs:1062-1088 | a link is broken exactly if it does not extend the turn before it with the number, text and outcome of its message |
| MailboxSafety.ApplyMoves | plugins/grok/scripts/lib/worker-mailbox-state.mjs:29-44 | messages move only along accepted, claimed, inflight and an outcome; outcomes are final and announced prompts stay on record |
| MailboxSafety.FinishesMoves | plugins/grok/scripts/lib/worker-mailbox-state.mjs:983-1162 | recovery of torn operations moves messages along the same edges |
| MailboxSafety.DoKeepsTied | plugins/grok/scripts/lib/worker-mailbox.mjs:473-907 | every step of senders, pump, transport and recovery keeps wire, pump and record in agreement |
| MailboxRuns.ExecKeepsInv | plugins/grok/scripts/lib/worker-mailbox.mjs:473-907 | the invariant survives every step, operations torn between two writes included |
| MailboxRuns.RunKeepsInv | plugins/grok/scripts/lib/worker-mailbox.mjs:473-907 | the same over every run |
| Texts.Utf8BytesCountsTheEncoding | plugins/grok/scripts/lib/worker-mailbox-state.mjs:182-184 | the byte count is the length of the UTF-8 encoding |
| Texts.DecodeUndoesEncode | plugins/grok/scripts/lib/worker-mailbox-state.mjs:182-184 | decoding UTF-8 gives the text back |
| Texts.EncodeUndoesDecode | plugins/grok/scripts/lib/worker-mailbox-state.mjs:182-184 | no other bytes decode to it: every text has exactly one encoding, in shortest form and without surrogates |
| Texts.Utf8BytesAddUp | plugins/grok/scripts/lib/worker-mailbox-state.mjs:182-184 | the count is additive, and one character counts 1, 2, 3 or 4 by the ranges below 0x80, 0x800 and 0x10000 |
| Texts.CodeUnitsAddUp | plugins/grok/scripts/lib/worker-mailbox.mjs:125-143 | a length in code units is additive, and only characters outside the basic plane count 2 |
| MailboxTheorems.DispatchedAtMostOnceInOrder | WORKER_BROKER_PLAN.md:460-461 | over every run prompts go out in message order, each message at most once, under rising ids, with the recorded prompt |
| MailboxTheorems.AcknowledgedIsClean | WORKER_BROKER_PLAN.md:462 | an answer counts if and only if no line of its batch offends and exactly one line, a successful prompt response, has the exact id |
| MailboxTheorems.DeliveredWasAcknowledged | WORKER_BROKER_PLAN.md:462 | over every run a delivered message went out and was acknowledged by such a batch, and its turn names its own content |
| MailboxTheorems.SendDecides | plugins/grok/scripts/lib/worker-mailbox-state.mjs:822-931 | a send is accepted exactly when its key and text are well formed, the mailbox open, the key new, fewer than 32 messages accepted and the UTF-8 encoding of all contents together at most 262144 bytes long; the record afterwards is given in full |
| MailboxTheorems.SendAnswers | plugins/grok/scripts/lib/worker-mailbox-state.mjs:822-968 | each answer of a send, receipt, replay, conflict, refusal by message or byte limit, unavailable and malformed, is given if and only if its own condition on the records holds |
| MailboxTheorems.SendGetsNextNumberOrNothing | WORKER_BROKER_PLAN.md:460 | from every reachable state a send either gets the next contiguous number and waits at the end, or adds no message; which of the two is an if-and-only-if |
| MailboxTheorems.LimitsHold | WORKER_BROKER_PLAN.md:465 | in every reachable state at most 32 messages were ever accepted, the UTF-8 encoding of all their contents is at most 262144 bytes long, and both counters are exact |
| MailboxTheorems.NothingBeforeOpen | plugins/grok/scripts/lib/worker-mailbox-state.mjs:660-778 | over every run in which nobody opens the mailbox nothing is accepted and nothing sent |
| MailboxTable.ApplyFollowsTheTable | plugins/grok/scripts/lib/worker-mailbox-state.mjs:822-1588 | an independent reference of all operations on the records, written by field and in literal values: each of the ten operations is possible if and only if its row fits, and then lifecycle, counters, chain, pointers, reason and every status are what the table says |
| MailboxSteps.StepsFollowTheTable | plugins/grok/scripts/lib/worker-mailbox.mjs:473-907 | in every run each step of sender, pump, transport and recovery leaves exactly the system given for it, field by field: which operation on the records it is, where the pump stands, the next id, what went out and what proves a delivery |
| MailboxSteps.NothingActive | plugins/grok/scripts/lib/worker-mailbox-state.mjs:1164-1194 | with nothing active the message whose turn it is waits, and if none waits all are done, so exactly one of a claim and a close is possible |
| MailboxTable.ActiveIsPointed | plugins/grok/scripts/lib/worker-mailbox-state.mjs:1002-1032 | an active message is the one whose turn it is, the aggregate points to it, and everything behind it waits |
| MailboxTheorems.OutcomesAreFinal | WORKER_BROKER_PLAN.md:461 | over every run accepted messages are never lost or changed, an announced one never waits again, an outcome stays |
| MailboxTheorems.ClosedIsSettled | WORKER_BROKER_PLAN.md:461 | in every shut reachable state each message has exactly one outcome and keeps no body, at most one is unknown, what follows it is refused and never went out |
| MailboxTheorems.NothingAfterClose | WORKER_BROKER_PLAN.md:460 | from the moment the mailbox shuts no run accepts, settles or links anything |
| MailboxTheorems.NothingAfterUnknown | WORKER_BROKER_PLAN.md:461 | after the first unknown delivery no run changes a message or sends a prompt for a later one |
| MailboxTheorems.ReplayIsForever | plugins/grok/scripts/lib/worker-mailbox.mjs:270-327 | however a run goes on, a known key gets its first answer again for the same owner and text and a conflict otherwise; refused requests keep number 0 |
| MailboxTheorems.RecoveryCloses | plugins/grok/scripts/lib/worker-mailbox-state.mjs:1552-1588 | from every reachable state recovery closes: inflight becomes unknown, waiting becomes refused, outcomes stay, nothing is sent |
| MailboxDrain.EveryRunDrains | WORKER_BROKER_PLAN.md:460 | in every run without cancellation, pump death or failed prompt, with any prompts, failed compositions, clean successful answers and any sends in between, dying senders included: pump steps taken, three for each skipped message and steps needed are constant until the mailbox closes on the empty scan; then every message without an earlier outcome is delivered, or refused if no prompt could be composed for it |
| MailboxDrain.EnoughStepsDrain | WORKER_BROKER_PLAN.md:460 | as many pump steps as were needed at the start, never more than 161, suffice, however many messages are accepted meanwhile; without a failed composition all are delivered |
| MailboxDrain.PumpIsNeverStuck | plugins/grok/scripts/lib/worker-mailbox.mjs:529-906 | the pump always has a next step |
| MailboxCancel.AfterCancellation | plugins/grok/scripts/lib/worker-mailbox.mjs:519-541 | after a cancellation a run sends at most the one prompt that was announced before it |
| MailboxCancel.SendsAfterCancellationExactlyWhenAnnounced | plugins/grok/scripts/lib/worker-mailbox.mjs:626-719 | from a cancellation on some run sends something if and only if a prompt was announced and not yet dispatched |
| MailboxCancel.CancelledPromptGoesOut | plugins/grok/scripts/lib/worker-mailbox.mjs:293-319 | the race: a sender settles the announced message as unknown and closes, and the prompt still goes out |
| MailboxCancel.RaceIsReached | plugins/grok/scripts/lib/worker-mailbox.mjs:529-719 | a run from the start reaches that race |
| MailboxStore.Sidecar.CheckCounts | plugins/grok/scripts/lib/worker-mailbox-state.mjs:1002-1032 | the loop decides contiguity, prefix counters and limits exactly, and returns the total |
| MailboxStore.Sidecar.CheckActive | plugins/grok/scripts/lib/worker-mailbox-state.mjs:1025-1028 | the loop decides exactly whether at most one message is active, and returns it |
| MailboxStore.Sidecar.CheckUnknown | plugins/grok/scripts/lib/worker-mailbox-state.mjs:1034-1042 | the loop decides exactly whether an unknown turn ends all turns, and returns it |
| MailboxStore.Sidecar.CheckTurns | plugins/grok/scripts/lib/worker-mailbox-state.mjs:1044-1103 | the loop decides exactly whether the turns form one chain that the aggregate is a prefix of, and returns its end |
| MailboxStore.Sidecar.RecoverConsistency | plugins/grok/scripts/lib/worker-mailbox-state.mjs:983-1162 | in-place recovery equals the recovery function, with or without the repair that an unknown turn demands, or refuses and changes nothing |
| MailboxStore.Sidecar.Accept | plugins/grok/scripts/lib/worker-mailbox-state.mjs:822-968 | the in-place send returns the specified outcome and leaves the specified records |
| MailboxStore.Sidecar.ClaimNext | plugins/grok/scripts/lib/worker-mailbox-state.mjs:1164-1194 | claims exactly the first waiting message, or nothing |
| MailboxStore.Sidecar.MarkInflight | plugins/grok/scripts/lib/worker-mailbox-state.mjs:1199-1233 | the body leaves the record before the id is used |
| MailboxStore.Sidecar.SettleDelivered | plugins/grok/scripts/lib/worker-mailbox-state.mjs:1235-1279 | delivers exactly an active inflight message |
| MailboxStore.Sidecar.SettleUnknown | plugins/grok/scripts/lib/worker-mailbox-state.mjs:1281-1375 | after the recovery that skips this repair, settles the active message as unknown and blocks all that wait, or leaves the recovered records |
| MailboxStore.Sidecar.SettleRejected | plugins/grok/scripts/lib/worker-mailbox-state.mjs:1377-1399 | turns down one waiting message and releases the pump |
| MailboxStore.Sidecar.TryCloseMailbox | plugins/grok/scripts/lib/worker-mailbox-state.mjs:1405-1454 | closes exactly when no message is unfinished |
| MailboxStore.Sidecar.RecordPrimaryTurn | plugins/grok/scripts/lib/worker-mailbox-state.mjs:1456-1501 | the primary turn starts the chain once |
| MailboxStore.Sidecar.SettleInterrupted | plugins/grok/scripts/lib/worker-mailbox-state.mjs:1557-1588 | equals the interruption function and always ends closed |
| MailboxStore.SkippingLosesAlike | plugins/grok/scripts/lib/worker-mailbox-state.mjs:1289-1301 | the skipped repair makes no difference to a settlement |
| MailboxStore.PerformedKeepsRecovery | plugins/grok/scripts/lib/worker-mailbox-state.mjs:983-1162 | whatever operation ran, the records stay complete for the next one |
| AcpClient.ResolvesExactlyOnCleanAnswer | tests/acp-client.test.mjs:71-111 | a pending request resolves with a result if and only if every line of the whole batch is one of the forms that may pass and one line is, member by member, the clean response to its exact numeric id with that result |
| AcpClient.StaysPendingExactlyWhenUnanswered | plugins/grok/scripts/lib/acp-client.mjs:502-603 | a request stays pending if and only if every line passes and none responds to it, and is rejected if and only if some line does not pass or some response to it is not clean |
| AcpClient.OffendsUnlessItPasses | plugins/grok/scripts/lib/acp-client.mjs:411-520 | a line closes the transport exactly if it is no server request, no valid notification, not the first response to a pending request and no response to a foreign text id |
| AcpClient.PublishesInOrder | plugins/grok/scripts/lib/acp-client.mjs:394-408 | what a batch publishes is the subsequence of its notifications: a rising list of exactly their line numbers gives the published frames one by one |
| AcpClient.PublishesPartByPart | plugins/grok/scripts/lib/acp-client.mjs:394-408 | a batch cut anywhere publishes what its first part does and then what its second part does, which is nothing after a line that is no JSON |
| AcpClient.PublishesExactly | plugins/grok/scripts/lib/acp-client.mjs:465-486 | a frame is published if and only if it is a valid notification among the lines read |
| AcpClient.PoisonAnywhereRejects | tests/acp-client.test.mjs:71-97 | a duplicate, wrong-typed or unmatched response anywhere in the batch rejects everything pending |
| AcpClient.CollidingTextRejects | plugins/grok/scripts/lib/acp-client.mjs:411-603 | a text id that reads as a pending number answers nothing and rejects everything pending |
| AcpClient.StopReasonsAreExact | tests/acp-client.test.mjs:37-69 | exactly ten texts are stop reasons and exactly six of them successes |
| AcpClient.Scan | plugins/grok/scripts/lib/acp-client.mjs:388-603 | one pass over the lines finds the held answers, the rejected requests, any offence and the published notifications |
| AcpClient.ReadBatch | plugins/grok/scripts/lib/acp-client.mjs:388-635 | the pass settles exactly what the batch function says |
| AcpClient.Client.ReserveRequestId | plugins/grok/scripts/lib/acp-client.mjs:215-226 | ids are fresh and rising, no byte is written |
| AcpClient.Client.DispatchReserved | plugins/grok/scripts/lib/acp-client.mjs:231-275 | a reserved id is sent at most once, only with an allowed method, and nothing is written otherwise |
| AcpClient.Client.Notify | plugins/grok/scripts/lib/acp-client.mjs:345-370 | a notification outside the allowlist writes nothing |
| AcpClient.Client.Receive | plugins/grok/scripts/lib/acp-client.mjs:388-635 | one batch settles and closes exactly as specified, and appends its notifications to what was published, each once and in the order of the lines |
| AcpClient.Client.TimeOut | plugins/grok/scripts/lib/acp-client.mjs:251-256 | a timed-out request is rejected alone |
| AcpClient.Client.Close | plugins/grok/scripts/lib/acp-client.mjs:622-635 | closing rejects everything pending |
| PidfdSignal.ParserSurvivesAnyName | scripts/lib/test-temp-pidfd-signal.py:14-23 | for every command name, brackets, blanks and newlines included, the parser yields the asked pid and the true start time, or nothing for a dead state |
| PidfdSignal.IdentityIsInjective | scripts/lib/test-temp-pidfd-signal.py:23 | an identity text names one pid and one start time |
| PidfdSignal.StatTellsIdentity | scripts/lib/test-temp-pidfd-signal.py:8-23 | on every kernel state the parser reads the identity of the process that owns the pid, or nothing for a zombie |
| PidfdSignal.ComparedIsPinned | scripts/lib/test-temp-pidfd-signal.py:46-55 | once compared, the opened instance still is the one that owns the pid, or the send fails |
| PidfdSignal.SucceedsExactlyWhenReached | scripts/lib/test-temp-pidfd-signal.py:26-57 | exit 0 if and only if the pinned instance was the expected one and could be signalled |
| PidfdSignal.SignalReachesOnlyTheExpected | scripts/lib/test-temp-pidfd-signal.py:26-57 | under every interleaving of fork, exit, reap and pid reuse, exit 0 means one signal to the expected instance, anything else means no signal |
| PidfdSignal.Machine.Signal | scripts/lib/test-temp-pidfd-signal.py:26-57 | the call sequence on the changing kernel equals the specified run |
| PidfdSignal.ReadsAfterLastBracket | scripts/lib/test-temp-pidfd-signal.py:14-23 | on any text only the words after the last closing bracket count: the state is none of Z, X and x and the twentieth word is digits, or there is no identity |
| PidfdSignal.ExitsAreExact | scripts/lib/test-temp-pidfd-signal.py:26-57 | every exit by its cause: 4 for bad arguments, an open that fails for its own reason, or a send that does so on the expected instance; 3 for no owner at the open, no file, another identity, a zombie, or an instance reaped before the send; an exception for a PID too large, a name that does not decode, or an attribute that is no signal |
| PidfdSignal.BeforeColonIs | scripts/lib/test-temp-pidfd-signal.py:32 | the PID text is what stands before the first colon |
| PidfdSignal.SomethingIsShown | scripts/lib/test-temp-pidfd-signal.py:8-23 | a stat file shows exactly one of nothing, an unreadable name and an owner |
| PidfdSignal.PidIsReused | scripts/lib/test-temp-pidfd-signal.py:42-55 | a PID can be handed on between two calls: its owner exits, is reaped, and another process gets it |
| PidfdSignal.ReuseIsNoticed | scripts/lib/test-temp-pidfd-signal.py:42-57 | a PID handed on after the open leads to exit 3 and no signal, even if the new owner has the same PID and start time |
| PidfdSignal.ChangeIsSeen | scripts/lib/test-temp-pidfd-signal.py:8-12 | a process may rename itself and change its fields at any time, and the next reader of its file sees exactly that line |
| PidfdSignal.SpaceIsBlank | scripts/lib/test-temp-pidfd-signal.py:17 | words are separated by exactly the listed blanks |
| PidfdSignal.ProcessesExist | scripts/lib/test-temp-pidfd-signal.py:8-23 | an empty kernel is well formed, and processes with any PID, start time and a bracketed name may be forked into it |
| Decimals.DecimalIsRead | scripts/lib/test-temp-pidfd-signal.py:20-23 | a printed number is read back |
| Decimals.ReadIsDecimal | scripts/lib/test-temp-pidfd-signal.py:20-23 | digits without a leading zero are printed back |
| CycleFinder.VisitCycles | tests/companion-boundaries.test.mjs:39-58 | every reported list is a closed walk of real edges with distinct interior nodes; every closed walk of the graph, not only the first found, has an edge that ends a reported one; and nothing is reported if and only if the graph has no cycle |
| CycleFinder.Finder.Visit | tests/companion-boundaries.test.mjs:44-54 | `visiting` is exactly the stack, no node is entered twice, and the unseen nodes decrease |
| CycleFinder.BackEdgeClosesCycle | tests/companion-boundaries.test.mjs:45-47 | the stack from the first occurrence plus the node is a simple cycle |
| CycleFinder.EveryClosedWalkIsReported | tests/companion-boundaries.test.mjs:44-53 | if every finished node comes after each dependency whose edge does not end a reported cycle, no closed walk avoids all those edges |
| CycleFinder.ClosedWalksStayOnKeys | tests/companion-boundaries.test.mjs:51 | a cycle never leaves the keys of the graph |
| Sorting.SortedEqualIffSameMultiset | scripts/live-worker-provisioner-probe.mjs:114-119 | under a total order sorted lists are equal exactly when the multisets are |
| Sorting.SortIsStable | scripts/check-source-structure.mjs:67-75 | elements that tie keep their order |
| Sorting.CanonicalIffNoTies | scripts/check-source-structure.mjs:67-75 | sorting forgets the input order if and only if no two different elements tie |
| Sorting.ProjectedCanonicalIffNoTies | scripts/check-source-structure.mjs:67-75 | the same when the sorted elements are projections |
| Inventory.ParserUndoesPrinter | scripts/live-worker-provisioner-probe.mjs:82-88 | printing records with any blank-line runs between them and parsing gives the same records |
| Inventory.RecordsAreParsed | scripts/live-worker-provisioner-probe.mjs:82-88 | every parsed record has only nonempty newline-free fields |
| Inventory.JoinIsInjective | scripts/live-worker-provisioner-probe.mjs:114-116 | joining with newlines loses nothing on parsed records |
| Inventory.NormalizedTellsRecords | scripts/live-worker-provisioner-probe.mjs:114-119 | equal multisets of joined records mean equal multisets of records |
| Inventory.AcceptsExactlyOneAddition | scripts/live-worker-provisioner-probe.mjs:90-124 | accepted if and only if the root was free and the records after are, as a multiset, those before plus one of three expected fields that registers it |
| Inventory.DistinctAdditionIsExact | scripts/live-worker-provisioner-probe.mjs:101-109 | such a record is root, base and `detached` if and only if no field repeats |
| Inventory.RepeatedRootIsAccepted | scripts/live-worker-provisioner-probe.mjs:106-109 | the check does not ask for that: three times the root line passes |
| PublicFindings.SplitJoins | scripts/check-source-structure.mjs:27-29 | splitting and joining with the target restores the text |
| PublicFindings.SplitRemoves | scripts/check-source-structure.mjs:27-29 | no piece holds the target |
| PublicFindings.SpellingSurvivesIffCompletable | scripts/check-source-structure.mjs:41-52 | for every absolute root: some message keeps a spelling of it if and only if the root can be completed across an inserted `<root>`, from before it or from within it |
| PublicFindings.NoSpellingSurvives | scripts/check-source-structure.mjs:41-52 | no spelling of a root that cannot be completed survives in any message |
| PublicFindings.BracketsComplete | scripts/check-source-structure.mjs:41-52 | a root without angle brackets cannot be completed |
| PublicFindings.AngleBracketsCanSurvive | scripts/check-source-structure.mjs:49 | the root `/<root>` is left in the message `//<root>` |
| PublicFindings.BracketsAlone | scripts/check-source-structure.mjs:49 | `/<root>` can be completed and `/a<b` cannot |
| PublicFindings.ComputePublicMessage | scripts/check-source-structure.mjs:41-52 | the loop over the distinct spellings computes the message function |
| PublicFindings.ReplacesLeftToRight | scripts/check-source-structure.mjs:27-29 | the first occurrence is replaced whole, what precedes it stays, the rest is treated alike, and a text without an occurrence stays |
| PublicFindings.PublicFindingShows | scripts/check-source-structure.mjs:54-65 | a public finding has the code, function key and portable files of its finding and its message without any spelling of a root that cannot be completed; a message that mentions no root is unchanged |
| PublicFindings.PublicListIsSorted | scripts/check-source-structure.mjs:67-75 | the public list holds each public finding as often as it came, in the order of the comparator |
| PublicFindings.ComparatorIsLexicographic | scripts/check-source-structure.mjs:68-74 | code, file, message, function key, cycle: the first that differs decides |
| PublicFindings.FindingsAreCanonicalIffNoCollision | scripts/check-source-structure.mjs:67-79 | any reordering gives the same public list if and only if no two different projections compare equal in all five texts |
| PublicFindings.ComparatorIsPreorder | scripts/check-source-structure.mjs:68-74 | the comparator is a total preorder |
| PublicFindings.CyclesAreCanonical | scripts/check-source-structure.mjs:60-62 | the public files of a cycle do not depend on their order |
| PublicFindings.AbsentAndEmptyKeyCollide | scripts/check-source-structure.mjs:72 | an absent and an empty function key collide |
| Duration.ParseIsExact | scripts/cleanup-test-temp.mjs:24 | a text parses to digits and a unit exactly when it is their concatenation |
| Duration.DurationIsExact | scripts/cleanup-test-temp.mjs:23-30 | despite two roundings a duration is accepted exactly when the true product is a safe integer, and is that product |
| Duration.ExactRounds | scripts/cleanup-test-temp.mjs:27 | exact arithmetic is one of the roundings that the results allow |
| Duration.UnitsAreMultiples | scripts/cleanup-test-temp.mjs:26 | 1000 milliseconds, 60 seconds, 60 minutes and 24 hours |
| Duration.OneArgument | scripts/cleanup-test-temp.mjs:36-51 | what each single argument does, and that any other is refused |
| Duration.InlineIsSpelledOut | scripts/cleanup-test-temp.mjs:40-47 | a duration in the same argument means the same as one in the next |
| Duration.ParseCleanupArgs | scripts/cleanup-test-temp.mjs:32-52 | the index loop computes the recursive reading of the arguments |
| Duration.ArgumentsAccumulate | scripts/cleanup-test-temp.mjs:36-51 | an accepted prefix acts as defaults for the rest, and help ends the reading |
| Lifecycle.AcceptsExactlyTwoHistories | scripts/test-natural-codex.mjs:82-134 | over every run the record is accepted if and only if its history is one provider and nothing else, or one authorized rotation to a second whose repair of a nonempty first answer succeeded; a history with an unsettled launch is never accepted |
| Lifecycle.HistoryGrowsExactly | plugins/grok/scripts/lib/worker-mutation-dispatch-transition.mjs:499-870 | what each transition adds to the history, transition by transition and no more |
| Lifecycle.EffectsAreRecorded | plugins/grok/scripts/lib/worker-mutation-dispatch-transition.mjs:499-870 | every transition leaves exactly the record given for it, field by field (an unsettled provider: its process with no birth identity, the next generation, the failed dispatch and both registered intents), and exactly the owner and the running providers given for it |
| Lifecycle.LaunchesAreOwned | plugins/grok/scripts/lib/worker-mutation-dispatch-transition.mjs:499-709 | every process the record names was launched by it |
| Lifecycle.RecordedUnsettledIsFinal | plugins/grok/scripts/lib/worker-mutation-dispatch-transition.mjs:826-870 | after the step that records a provider without a birth identity no run starts another or is accepted |
| Lifecycle.UnsettledIsFinal | plugins/grok/scripts/lib/worker-mutation-dispatch-contract.mjs:691-698 | once a provider was recorded without a birth identity, no run starts another, authorizes a rotation, records a second such one or is accepted |
| Lifecycle.OneProviderAtATime | plugins/grok/scripts/lib/worker-mutation-dispatch-transition.mjs:1023-1180 | at any time at most one registered provider runs and at most one was recorded without a birth identity and may run, at most two generations start, and after the authorization only the second is registered |
| Lifecycle.AcceptedAgrees | scripts/test-natural-codex.mjs:92-134 | the two proofs exclude each other, and generation, rotation count, spawn intent and process agree |
| Lifecycle.ExecKeepsTold | plugins/grok/scripts/lib/worker-mutation-dispatch-transition.mjs:499-709 | every transition keeps the record a faithful account of what happened |
| Lifecycle.ToldContract | plugins/grok/scripts/lib/worker-mutation-dispatch-contract.mjs:200-460 | no transition writes a record that the durable contract refuses |
| Lifecycle.RepairIsAcceptedUnlessEmpty | scripts/test-natural-codex.mjs:110-134 | a completed repair is accepted exactly if the first answer was not empty |

## Left out

Provisioning:

- Timestamps, leases and lease expiry, and the reclaim operation, which no caller in the code uses.
- Journal edges that are declared but never taken (`cleaned`, cancellation while provisioning).
- An exact replay of an already applied request, which the code answers with the stored result, counts as a refusal that changes nothing.
- The coordinator lease is not part of the steps: the safety results hold without it, and the progress results say which steps it keeps others from.
- Content of the parent directory other than the bound path.
- Context manifests, credentials, controller homes, file contents of the worktree: facts about them are part of what a host observes.
- An executable attestation is a pair of identity and release.
- Admission of jobs, idempotency witnesses and ownership of a job by a principal.
- Removal of worktrees by the owner.

Mailbox and transport:

- The open-mailbox index, the final report selection, the outcome events on the job, and the checks that worker and provider identity have not drifted.
- A text is a sequence of Unicode characters: lone surrogates, which JavaScript counts as three bytes each, are not part of it.
- Composition of a prompt from a message body: the pump may send any nonempty text, which the record and the chain then name.
- One attempt of one worker; the digests that bind it are one number.
- Rejection reasons other than a failed composition have the same effect and share one step.
- Structured output, permission replies, redaction of stderr, the frame size limit, and the splitting of the stream into lines.
- Other requests pending beside a mailbox prompt: the pump waits for one prompt at a time.

Smaller cores:

- The signal helper: Python's `isdigit` accepts further Unicode digits, which the kernel never prints.
- The cycle finder works on any node type; reading imports from files is left out.
- `localeCompare`, path resolution and JSON text are parameters with the laws the proofs name; fragments and cycles of the result as a whole are sorted like the findings.
- Rounding of doubles is any monotone function exact up to 2^53 (section 4.3 of IEEE 754-2019).
- A bootstrap that registers while another launch is recorded as unsettled: it may run, but never counts as started.
- The lifecycle of controller and worker processes, recovery cleanup fences and timestamps; a provider that starts without a spawn intent, as older dispatches allow; a crash between the guard file and the job record.
