# CloudRING: a verified model of its protocols, engines and parsers

This project models, in Dafny, the parts of CloudRING whose correctness depends on more than
one function or on more than one machine, and proves what they promise.

- **Applying the OpenBao contract** (`OpenBaoWorld`, `OpenBaoClient`, `ApplyContract`,
  `ApplyOrders`, `ApplyEvidence`, `ApplyChecks`, `ApplyAccount`, `ApplyEngine`, `Supervisor`). The
  executor is an object that works step by
  step against a remote world: the OpenBao store, its tokens and the Kubernetes Lease. Between
  any two calls arbitrary other activity happens: late deliveries of requests whose reply was
  lost, foreign writers, expiries, renewals by the executor's own thread. Every reply is
  arbitrary among the ones that are consistent with the world. `Promise` and
  `SupervisedPromise` say what a finished run owes its caller. `Obeyed` says, whoever else is
  writing, what every request to create or remove must have been shown first; `Backed` says what
  every gate that is reported as passed must have been shown; and `Verdict` says how a run on a
  connection that loses nothing must end, down to the flags, the failed gate and the number of
  gates passed.
- **Distributed protocols** (`LeaseProtocol`, `SessionProtocol`, `BootstrapProtocol`) as state
  machines over their steps, with any number of participants and with messages that are late or
  lost. Theorems are about every legal sequence of steps.
- **Destroying a development installation** (`Cluster`, `DevDestroy`): an API server with
  foreign actors, DELETE requests with preconditions that may be accepted late, a journal on
  disk and a log of everything sent and seen.
- **The delivery roadmap** (`DependencyGraph`, `DeliveryStatus`): cycle detection and the
  transition rule, and what every approved run of transitions keeps.
- **Parsers and in-place algorithms** (`StrictJson`, `HclSyntax`, `HclLexer`, `HclParser`,
  `HclConfig`, `Utf16Text`, `TagWalk`, `Dedup`).

`Options` holds the one option type that all modules share.

Nothing in this project has been executed; everything it claims is a statement that the
verifier proves. `dafny verify dfyconfig.toml` checks all of it.

## What became a parameter or an assumption

- Replies of OpenBao, Kubernetes and Git, clocks, randomness and the choice of a thread
  schedule are nondeterministic. A connection marked `cooperative` answers every request and has
  no foreign activity, and a `quiet` API server is the same for destruction; only the statements
  about how a run must end (`Verdict`, `SupervisedVerdict`, `Clearable`) use them.
- Another writer to the OpenBao store is recorded by `foreign`. Statements about the store are
  made for runs during which nobody else wrote, which is what the Lease is there to ensure:
  `LeaseProtocol.WritesAreTheHolders` shows that no other executor is that writer, since an
  executor writes and removes only while its guard runs (`Inv` in the contracts of
  `Executor.Create` and `Executor.Remove`). What is asked for is checked first in any case
  (`Obeyed`), and that is stated for every run.
- A token's policy is fixed when it is minted; fresh tokens and identities are distinct; a
  session token stands for its hash, so hashing is taken to be injective.
- The Lease is only written by executors of this protocol and is not deleted and created anew.
  Its resourceVersion is its position in the history of its versions.
- The literal field comparisons of the `exact...` checks are comparisons of an abstract body plus
  the identity fields that the engine compares (uuid, accessor, version, modification time).
- `strconv.Unquote`, `unicode.IsPrint`, the reading of tag metadata and `git rev-parse` are
  function parameters. The sort of `sort.Slice` is any rearrangement in order.
- No two objects of an installation's plan differ in their kind alone, which is how the journal
  finds its entries: `SlotsDistinct(server.plan)`.
- Object identities of Git are compared after lower-casing, as the code does.

## Where the code and its own descriptions differ

- `MutationPerformed` is reported false at two exits although a secret mount may have been
  created earlier in the run (`internal/openbaoapply/engine.go:129` and `:271`). `Told`, which
  `ApplyEngine.Execute` ensures, says exactly when: a run that created something reports it if
  and only if it did not end with the secret mount as its only creation at one of the gates
  `management-token-revoke` and `exclusive-lease-lost`. A run ends at the first only if the
  management token's last revocation was tried and not proved, and at the second only if its guard
  has lost the Lease. In the other direction, the contract of `BlockAfterManagement` says that a
  secret mount that is still owned goes unreported if and only if the revocation was not proved,
  and that of `EnsureAuthMount` that a Lease lost before the auth mount always ends the run there.
  `ApplyEngine.SecretMountUnreported` is an instance.
- A secret mount that a run created is never removed. Such a run therefore does not end rolled
  back but asks for manual intervention; `Verdict` says exactly when.
- The check for an unterminated string looks at the token before it
  (`internal/platformmanifest/openbao_hcl.go:114`), so a lone quote behind a string is accepted.
  `HclLexer.ScanExactly` gives the exact set of accepted texts, `HclLexer.WellFormedExactly` says
  which of them are well formed, and `HclLexer.LoneQuoteIsRead` is an instance.
- Inputs are sorted without their kind but compared with it
  (`internal/sourcecheck/git.go:1352-1375`), so a key can be kept twice.
  `Dedup.DeduplicatesExactly` says exactly when that can happen and `Dedup.KeptTwice` gives an
  instance.
- The Namespace entry that is deleted last is a copy made before its UID is recovered
  (`pkg/devinstall/destroy.go:219-235`), so its DELETE may carry another UID than the one just
  saved. `DevDestroy.Engine.Destroy` ensures that every DELETE carries the UID the journal held
  at the start whenever it held one, and that every DELETE of anything but a Namespace also carries
  the UID held on disk when the destroying phase was saved. A Namespace without a UID at the start
  is thus the one exception, `DevDestroy.UidPinnedExactly` shows that such an entry pins nothing,
  and `DevDestroy.NamespaceReplaced` is an instance.

## Model

| member | source | states |
|---|---|---|
| `OpenBaoWorld.StepEvolves` | internal/openbaoapply/engine.go:79-427 | whatever one outside event does, dead tokens stay dead, the Lease history only grows, the store changes only by other writers or by requests in flight, a lone removal in flight acts at most once, and a stopped guard writes no further Lease version |
| `OpenBaoWorld.EvolvesTransitive` | internal/openbaoapply/engine.go:79-427 | the same over any span of outside activity |
| `OpenBaoWorld.ReachesEvolves` | internal/openbaoapply/engine.go:79-427 | whatever any sequence of outside events leads to keeps all of that |
| `OpenBaoWorld.RemovalReadBack` | internal/openbaoapply/engine.go:842-846 | a removal whose reply may be lost has taken effect exactly once, and is no longer in flight, as soon as the path is read back absent |
| `OpenBaoWorld.WithoutCreated` | internal/openbaoapply/engine.go:823-885 | removing an object that the run created, with everything mounted below it, leaves the original store plus what else was created |
| `ApplyContract.PreStateIsAllOrNothing` | internal/openbaoapply/engine.go:484-511 | the pre-state rule admits a store if and only if nothing of the contract is there (save an exact secret mount) or all of it is there and exact; without the secret mount only the first is possible |
| `ApplyContract.OutcomeWhenGranted` | internal/openbaoapply/engine.go:237-411 | if every part is there or will not be refused, the run must end applied with all fifteen gates passed, and report a mutation exactly if it found nothing installed |
| `ApplyContract.OutcomeOfMountRefusal` | internal/openbaoapply/engine.go:237-323 | a refused mount stops the run at its own gate with nothing changed, unless the secret mount was created before, which is then kept and reported |
| `ApplyContract.OutcomeOfLateRefusal` | internal/openbaoapply/engine.go:268-411 | a refusal below the auth mount stops the run at its own gate with everything undone but a created secret mount |
| `ApplyContract.ExactMeansDesired` | internal/openbaoapply/engine.go:892-1084 | what reads back as exact holds what the plan asks the server to store |
| `ApplyContract.CompleteMeansDesired` | internal/openbaoapply/engine.go:484-511 | a completed contract has every part with the contents the plan asks for, and no role but its own |
| `ApplyContract.MountsFoundTogether` | internal/openbaoapply/engine.go:484-511 | a pre-state that passes and has the auth mount has the secret mount, policy, role and seed too, whoever else wrote |
| `ApplyOrders.OrderlyPut` | internal/openbaoapply/engine.go:237-411 | one more proper creation keeps every request since the start proper and in its phase |
| `ApplyOrders.OrderlyRemove` | internal/openbaoapply/engine.go:823-885 | and so does one more proper removal |
| `ApplyOrders.OrderlyBooked` | internal/openbaoapply/engine.go:237-411 | what was proper stays so when a creation goes on record, because mounts are on record before anything below them is written |
| `ApplyOrders.TrailingFurther` | internal/openbaoapply/engine.go:823-885 | removals that follow the trail of a rollback, newest first, in two parts follow the whole of it |
| `ApplyEvidence.CapturedExactly` | internal/openbaoapply/engine.go:484-511 | a pre-state that passes has shown each part it found to be exact, so that the gates of those parts have their evidence |
| `ApplyEvidence.EvidenceGrows` | internal/openbaoapply/engine.go:79-427 | what a gate rests on is not lost by anything shown later |
| `ApplyEvidence.DenialsComplete` | internal/openbaoapply/engine.go:784-813 | three forbidden logins behind the granted one are the whole record of logins that an authorization proof leaves |
| `ApplyEvidence.CreationStops` | internal/openbaoapply/engine.go:237-411 | the gates of a refused, unclear or drifted creation and of a changed readback belong to the number of gates passed by then |
| `ApplyEvidence.PreStateStops` | internal/openbaoapply/engine.go:484-511 | the gates of the pre-state rule stop a run after six gates |
| `ApplyChecks.CapturePreState` | internal/openbaoapply/engine.go:429-467 | a captured pre-state is what its reads showed and, as long as nobody else wrote, the snapshot of the store |
| `ApplyChecks.MountPrestateStillAbsent` | internal/openbaoapply/engine.go:626-651 | success means that nothing of the contract but an exact secret mount was shown, whoever else wrote, and that this was so if nobody did |
| `ApplyChecks.AuthMountStillOwned` | internal/openbaoapply/engine.go:653-669 | success means that both mounts, the configuration and the roles were shown to be exact and that each mount this run created was shown with the uuid and accessor on record, whoever else wrote |
| `ApplyChecks.KvMountStillOwned` | internal/openbaoapply/engine.go:671-677 | success means that a secret mount created by this run is exact on the server and carries the uuid and accessor read back then, whoever else wrote to it |
| `ApplyChecks.PrewriteReadback` | internal/openbaoapply/engine.go:887-890 | before a write below the mounts the Lease is held, the mounts are still owned and the path still reads as captured |
| `ApplyChecks.RoleRemovable` | internal/openbaoapply/engine.go:833-841 | a role may be removed only if it was shown to be exact |
| `ApplyChecks.PolicyRemovable` | internal/openbaoapply/engine.go:848-857 | a policy may be removed only if it was shown to be exact, with the version and modification time on record |
| `ApplyChecks.MountRemovable` | internal/openbaoapply/engine.go:864-877 | the auth mount may be removed only if it was shown to be exact, with the uuid and accessor on record, with no configuration or an exact one, and with no roles |
| `ApplyChecks.RevokeAndProve` | internal/openbaoapply/engine.go:692-704 | a token proven revoked is dead and was denied |
| `ApplyChecks.ProbeWorkload` | internal/openbaoapply/engine.go:759-783 | a clear gate means that the login was exact, that the workload read exactly its seed, and that its capabilities, its denied neighbour and its denied metadata were confirmed; on a cooperative server with an exact seed the gate is clear |
| `ApplyAccount.InvEvolves` | internal/openbaoapply/engine.go:79-427 | the executor's whole account of store, tokens and Lease survives any outside activity |
| `ApplyAccount.InvSent` | internal/openbaoapply/engine.go:237-411 | a checked write keeps the account, whatever its reply: what was acknowledged is booked, what was lost is marked uncertain, what was refused changed nothing |
| `ApplyAccount.InvRemoved` | internal/openbaoapply/engine.go:823-885 | a checked removal keeps the account: read back absent it has taken exactly what the run created, otherwise the outcome is marked uncertain |
| `ApplyAccount.OwnedRemoved` | internal/openbaoapply/engine.go:823-885 | what is left after the removal of a role or a policy is still exact and still the run's own |
| `ApplyAccount.ReleaseClears` | internal/openbaoapply/lease.go:104-132 | a release that won its compare-and-swap and is read back at that version leaves the Lease clear, whatever was still in flight |
| `ApplyAccount.OwnedBooked` | internal/openbaoapply/engine.go:237-411 | booking a created object keeps the record of identities in step with what was created |
| `ApplyEngine.Executor.AcquireLease` | internal/openbaoapply/lease.go:39-67 | success means that the Lease was shown with an empty holder and then written, that the guard runs and no update in flight can win against it while it is not lost; a failure without an attempt leaves no trace; a cooperative server grants it if and only if the holder is empty |
| `ApplyEngine.Executor.Release` | internal/openbaoapply/lease.go:104-132 | success means that the Lease was written and shown again with an empty holder, in an own version, and that no update in flight can still win |
| `ApplyEngine.Executor.Abandon` | internal/openbaoapply/lease.go:140-149 | stopping the guard without a release keeps the rest of the account: tokens, store and bookkeeping |
| `ApplyEngine.Executor.Create` | internal/openbaoapply/engine.go:237-411 | a write is sent only for a part of the contract, with the contents the plan asks for and after the reads that guard it; its readback is truthful |
| `ApplyEngine.Executor.Remove` | internal/openbaoapply/engine.go:823-885 | a removal is sent only for what the latest reads showed to be exact and this run's own; success means that it was read back absent |
| `ApplyEngine.Executor.EnsureKvMount` | internal/openbaoapply/engine.go:237-265 | the run goes on with an exact secret mount, booked if created and shown, or has ended keeping the promise, telling of what it created and, on a cooperative server, at exactly the gate of the refusal; nothing is asked for if the Lease was lost before |
| `ApplyEngine.Executor.EnsureAuthMount` | internal/openbaoapply/engine.go:268-323 | the same for mount and configuration; a Lease lost before the auth mount always ends the run, and leaves a created secret mount unreported |
| `ApplyEngine.Executor.EnsurePolicy` | internal/openbaoapply/engine.go:326-354 | the same for the policy, which must be at its first version if created |
| `ApplyEngine.Executor.EnsureRole` | internal/openbaoapply/engine.go:357-380 | the same for the role |
| `ApplyEngine.Executor.EnsureSeed` | internal/openbaoapply/engine.go:383-410 | the same for the seed, whose metadata must agree with the reply to its write; after it the contract is complete |
| `ApplyEngine.Executor.VerifyWorkloadAuthorization` | internal/openbaoapply/engine.go:732-813 | a clear gate means that exactly four logins were made since, one of the workload that was granted and three of strangers that were all forbidden, each with an issued token, that the workload was shown to read exactly its seed and nothing else, and that its token was denied in the end; if cleanup is reported safe, every token obtained is dead |
| `ApplyEngine.Executor.DenyNegativeIdentities` | internal/openbaoapply/engine.go:784-806 | a clear gate means that each of the three strangers was issued a token and had its login forbidden, and that nobody else logged in; a stranger that is let in closes the gate even if its token is proved dead |
| `ApplyEngine.Executor.Rollback` | internal/openbaoapply/engine.go:823-885 | whoever else wrote, every removal asked for is of an object that was shown to be exact and the one this run created: by uuid and accessor for the auth mount, with no roles left below it, by version and modification time for the policy; they follow the order role, policy, mount, and none is asked for once the Lease is lost; success means that nothing created remains except the secret mount, and every removal was read back; on a cooperative server it succeeds unless the seed was created |
| `ApplyEngine.Executor.MayRollBack` | internal/openbaoapply/engine.go:823-833 | a rollback starts only if the Lease is held, the seed was not created and a created secret mount was shown to be exact and the same; on a cooperative server exactly if the seed was not created |
| `ApplyEngine.Executor.ReleaseBlocked` | internal/openbaoapply/engine.go:99-104 | ending before the management token keeps the promise |
| `ApplyEngine.Executor.BlockAfterManagement` | internal/openbaoapply/engine.go:122-138 | ending with the management token revoked, or not provably so, keeps the promise; a created secret mount that is still owned goes unreported if and only if the revocation was not proved |
| `ApplyEngine.Executor.RevokeManagement` | internal/openbaoapply/engine.go:119-121 | a proven revocation leaves the management token dead, and the record says whether the last one was proved; on a cooperative server it is |
| `ApplyEngine.Executor.HoldForManualInspection` | internal/openbaoapply/engine.go:180-189 | an ambiguous write ends in manual intervention and is reported as a mutation |
| `ApplyEngine.Executor.FailAfterMutationWithCleanup` | internal/openbaoapply/engine.go:190-232 | ending after a write is rolled back only if everything was undone and read back, all tokens are dead and the Lease is released; on a cooperative server the report is determined; nothing is asked for if the Lease was lost before |
| `ApplyEngine.Execute` | internal/openbaoapply/engine.go:79-427 | for every sequence of replies: applied, rolled back and blocked leave no token alive and no Lease held; rolled back and blocked leave the store exactly as it was, with nothing in flight; applied leaves the contract complete and everything else untouched; a run on a completed contract sends no write and no removal; every creation asked for had the contents the plan asks for and followed its checks, every removal was of an object shown to be exact and this run's own, whoever else wrote, and none was asked for without a reported rollback; the gates reported as passed are a prefix of the fifteen, each with its evidence, and the failed gate belongs to their number; applied is reported if and only if no gate failed, and then the workload was let in exactly once and all three strangers were turned away; nobody logs in before twelve gates are passed; what was created is reported if and only if the run did not end, with the secret mount as its only creation, at the gate of a revocation that was not proved or of a lost Lease, and each of these gates is named only when that is so; no mutation is reported unless a write was sent; and on a connection that loses nothing the status, both flags, the failed gate and the number of gates passed are those that `Verdict` computes from the start, whatever the start is, and nothing that was in the store is lost |
| `ApplyEngine.Finished` | internal/openbaoapply/engine.go:237-427 | a run that was refused nothing is to end applied, reporting a mutation exactly if it created something |
| `ApplyEngine.ExecuteAgain` | internal/openbaoapply/engine.go:237-411 | whatever the replies are, a run after an applied run sends no write and no removal and leaves the store as it is; a run after a blocked or rolled back one starts from the original store and keeps the promise |
| `ApplyEngine.SettledAgain` | internal/openbaoapply/engine.go:79-427 | a run that did not end for manual inspection leaves a world in which a later run may start if and only if nothing is in flight, as is the case after an applied run and whenever nobody else wrote |
| `ApplyEngine.CreateSecretMount` | internal/openbaoapply/engine.go:79-265 | on a well-prepared empty installation with nothing in its way a run creates the secret mount |
| `ApplyEngine.LoseLease` | internal/openbaoapply/engine.go:268-272 | from any such state, losing the Lease ends the run with a report that does not tell of the secret mount |
| `ApplyEngine.SecretMountUnreported` | internal/openbaoapply/engine.go:268-272 | an instance of it |
| `Supervisor.CleanupTemporaryPolicy` | internal/openbaoapply/supervisor.go:224-236 | a removal is asked for only if the policy was shown to be exact, with the modification time of its first readback, whoever else wrote; success means that it was shown absent, that exactly it is gone from the store, and that no removal is left in flight |
| `Supervisor.RevokeAccessorAndProve` | internal/openbaoapply/http_clients.go:478-495 | success means that the token behind the accessor is dead; a cooperative server always lets it succeed |
| `Supervisor.CleanupSupervisorAuthority` | internal/openbaoapply/supervisor.go:238-243 | success means that policy, wrapping token and child token are all gone; the same holds for what is asked for |
| `Supervisor.ClearPasses` | internal/openbaoapply/supervisor.go:142-210 | a clear Lease and dead tokens stay so through the cleanup |
| `Supervisor.WriteDelegation` | internal/openbaoapply/supervisor.go:142-210 | a delegation that goes on added exactly the temporary policy to the store; a rejected and absent policy ends blocked with the store untouched; an unclear one ends with manual intervention, and is removed only if it is the one read back |
| `Supervisor.ExecuteSupervised` | internal/openbaoapply/supervisor.go:142-210 | unless manual intervention is asked for, wrapping and child tokens are dead, the Lease is clear, and the temporary policy is gone; rolled back or blocked leaves the whole store as it was; nothing is in flight if nobody else wrote; blocked if and only if the policy never existed (manual intervention aside); every request is the creation of the delegation where nothing was shown, its removal as its own, or a proper one of the apply run; the report of a run that came to its apply run has both flags set and is that run's report with the cleanup gate appended and blocked turned into rolled back if the cleanup was proved, and manual intervention at the cleanup gate otherwise; before that it is blocked if and only if it reports no mutation, at a gate that belongs to the gates passed; applied means that the workload was let in once and all strangers were turned away; and on a connection that loses nothing the whole report is the one `SupervisedVerdict` computes from the start |
| `Supervisor.RefusalsIgnorePolicy` | internal/openbaoapply/supervisor.go:142-210 | the temporary policy makes no difference to what the run it was created for is to do |
| `Supervisor.VerdictIgnoresIdentity` | internal/openbaoapply/supervisor.go:142-210 | nor does its modification time, as long as it is exact |
| `Supervisor.SupervisedClean` | internal/openbaoapply/supervisor.go:198-209 | an apply run that ended without manual inspection, followed by a proved cleanup, keeps the whole promise |
| `LeaseProtocol.NextInv` | internal/openbaoapply/lease.go:39-155 | every step of every participant keeps the invariant that ties holders, guards and messages in flight to the current version |
| `LeaseProtocol.RunInv` | internal/openbaoapply/lease.go:39-155 | so does every run |
| `LeaseProtocol.MutualExclusion` | internal/openbaoapply/lease.go:39-155 | in every reachable state at most one executor is between acquire and release or abandon, and the Lease names it |
| `LeaseProtocol.AcquiredExactly` | internal/openbaoapply/lease.go:39-67 | an executor comes to be in charge if and only if its acquire was committed and answered, and then its guard is at the latest version |
| `LeaseProtocol.LostExactly` | internal/openbaoapply/lease.go:73-102 | a guard is lost if and only if a renewal failed or was refused |
| `LeaseProtocol.CanAcquire` | internal/openbaoapply/lease.go:39-67 | from every state the invariant admits in which the holder is empty, a new executor has a run after which it is in charge and the Lease names it |
| `LeaseProtocol.CanRenewForLong` | internal/openbaoapply/lease.go:73-102 | an executor in charge can renew any number of times, and its guard is not lost and at the latest version after each |
| `LeaseProtocol.CanRelease` | internal/openbaoapply/lease.go:104-132 | and from there it has a run that ends released, with an empty holder |
| `LeaseProtocol.WholeTerm` | internal/openbaoapply/lease.go:39-155 | after every run that leaves the Lease free, the next executor can acquire, renew as often as it likes and release, which leaves it free again |
| `LeaseProtocol.WritesAreTheHolders` | internal/openbaoapply/lease.go:39-155 | from any moment at which an executor is in charge to any later one at which it still is, every write sent to the store by any executor is its own |
| `LeaseProtocol.PastForGood` | internal/openbaoapply/lease.go:104-149 | time in charge ends once and does not come back |
| `LeaseProtocol.ReleaseSwapsLatest` | internal/openbaoapply/lease.go:104-132 | a release of a guard that is not lost is sent against the latest committed version and is never refused |
| `LeaseProtocol.NoTakeover` | internal/openbaoapply/lease.go:39-67 | after a holder vanishes without release nobody is ever in charge again |
| `SessionProtocol.NextInv` | pkg/controlplane/state.go:108-196 | every step keeps the invariant on revisions, saves in flight, logins and logouts |
| `SessionProtocol.RunInv` | pkg/controlplane/state.go:108-196 | so does every run |
| `SessionProtocol.LogoutIsFinal` | pkg/controlplane/state.go:172-196 | once a logout reported success its token is not accepted in any later state of any run |
| `SessionProtocol.RevocationHitsItsOwnSession` | pkg/controlplane/state.go:172-196 | a revoked revision replaces the very session it revokes, so a delayed logout never hits a newer login |
| `SessionProtocol.LoginCommitsOnce` | pkg/controlplane/state.go:108-152 | a login commits its token at most once, and succeeds only if it was committed |
| `SessionProtocol.CanLogin` | pkg/controlplane/state.go:108-152 | after every run, a login with a fresh token that nobody disturbs succeeds, its token is accepted and stays the latest revision, also if the reply to its save is lost |
| `SessionProtocol.CanRetry` | pkg/controlplane/state.go:108-152 | a login whose save was refused because another came first, with an attempt left and within the lifetime of its session, still succeeds if nobody disturbs it |
| `SessionProtocol.AnsweredLoginSucceeds` | pkg/controlplane/state.go:108-152 | a login whose committed save was answered never fails |
| `SessionProtocol.AtMostThreeSaves` | pkg/controlplane/state.go:108-152 | no login sends more than three saves, on any run |
| `SessionProtocol.CanLogout` | pkg/controlplane/state.go:172-196 | after every run, a logout of an accepted session that nobody disturbs succeeds, also if the reply to its save is lost, and the token is not accepted any more |
| `SessionProtocol.AcceptedExactly` | pkg/controlplane/state.go:154-170 | a session is accepted if and only if it is the latest revision, not revoked, and younger than 30 times 60 seconds |
| `BootstrapProtocol.RunInv` | pkg/controlplane/state.go:62-98 | every run keeps the record and what the finished servers returned consistent |
| `BootstrapProtocol.RecordIsPermanent` | pkg/controlplane/state.go:62-88 | the installation record never changes once it exists |
| `BootstrapProtocol.Agreement` | pkg/controlplane/state.go:62-98 | all bootstraps that succeed return the stored record, which is sound and carries their identity and token; one with another identity or token never succeeds |
| `BootstrapProtocol.CanCreate` | pkg/controlplane/state.go:62-88 | without a record an undisturbed bootstrap succeeds and stores its own, also if the reply to its save is lost |
| `BootstrapProtocol.CanJoin` | pkg/controlplane/state.go:62-98 | with a record an undisturbed bootstrap succeeds if and only if the record is sound and carries its identity and token |
| `BootstrapProtocol.CanLoseRace` | pkg/controlplane/state.go:62-98 | one whose save was refused because another record came first succeeds if and only if that record is sound and carries its identity and token |
| `Cluster.Server.Process` | pkg/devinstall/api.go:165-175 | a DELETE is accepted if and only if UID and resourceVersion match, and only for a marked object of the plan |
| `Cluster.Server.Delete` | pkg/devinstall/api.go:165-189 | every request, also one accepted late, keeps the server's invariant that only marked versions of planned objects are ever accepted; on a quiet server a matching request removes exactly its target |
| `DevDestroy.LogAppend` | pkg/devinstall/destroy.go:159-202 | the log stays in order: identity, phase and everything listed so far on disk before each DELETE, the UID the journal held at the start in it, and each object in its turn: newest first, the Namespace after all of these were seen absent and after a listing since when nothing was deleted, a PriorityClass after the Namespace |
| `DevDestroy.HonestAppend` | pkg/devinstall/destroy.go:159-202 | and shows exactly the requests the server received since the start, behind those of earlier runs |
| `DevDestroy.StockedListing` | pkg/devinstall/destroy.go:99-137 | once all of a listing is covered, everything ever listed is in the journal |
| `DevDestroy.StockedLater` | pkg/devinstall/destroy.go:99-137 | and stays there |
| `DevDestroy.Engine.SendDelete` | pkg/devinstall/destroy.go:159-202 | a request is logged with the journal on disk; success means that the object was seen absent |
| `DevDestroy.Engine.DeleteOwned` | pkg/devinstall/destroy.go:159-202 | deletes only what carries the marks and the UID held at the start, if one was held; records the UID first, changes no other entry, and succeeds only on absence |
| `DevDestroy.Engine.RecordVolume` | pkg/devinstall/destroy.go:22-60 | a volume is journalled with its claim and handle, on disk, within the limit of four, and with the one backend that was found under its handle |
| `DevDestroy.Engine.RecordInventory` | pkg/devinstall/destroy.go:99-137 | every listed object is journalled on disk, none twice, within the limit of 256, and every listed bound claim has its volume recorded as it was seen; nothing is forgotten |
| `DevDestroy.Engine.Inventory` | pkg/devinstall/destroy.go:264-272 | success means that the namespace was listed, that nothing was deleted since, and that all of the listing is in the journal on disk |
| `DevDestroy.Engine.ValidateRecordedVolumes` | pkg/devinstall/destroy.go:139-157 | accepts if and only if every volume is well formed and belongs to a recorded claim and no volume is recorded twice |
| `DevDestroy.Engine.DeleteFirst` | pkg/devinstall/destroy.go:278-290 | success means that everything but Namespace and PriorityClasses was seen absent, each deleted only after all newer ones; on a quiet server it succeeds for a journal whose names are all its own |
| `DevDestroy.Engine.DeleteNamespace` | pkg/devinstall/destroy.go:291-304 | the Namespace is deleted only after a second listing, everything of which is on disk, and only when everything that goes first was seen absent; on a quiet server exactly it disappears |
| `DevDestroy.Engine.TakeStock` | pkg/devinstall/destroy.go:243-274 | success means that the namespace was listed and recorded, or that it was seen absent or is not in the journal, and then that there is no disk or the claim of the disk is recorded |
| `DevDestroy.Engine.NothingLeft` | pkg/devinstall/destroy.go:206-341 | the first group, the Namespace and the PriorityClasses together are everything in the journal |
| `DevDestroy.Engine.RecoverIdentities` | pkg/devinstall/destroy.go:206-341 | recovers missing UIDs without changing a known one, and saves them |
| `DevDestroy.Engine.WaitStorageAbsent` | pkg/devinstall/destroy.go:343-410 | success means that every recorded volume and backend was seen absent, that the cluster was listed without a volume of the namespace, that no backend was found under the name of any recorded claim, and that nothing was sent meanwhile |
| `DevDestroy.Engine.LookForLateBackends` | pkg/devinstall/destroy.go:386-407 | absence means that the backends of the name derived from each recorded claim were listed and there were none |
| `DevDestroy.Engine.VerifyGone` | pkg/devinstall/destroy.go:306-332 | success means that objects, derived objects and volumes were all seen absent with no DELETE after, that the storage was seen gone, and that everything ever listed is in the journal |
| `DevDestroy.Engine.Destroy` | pkg/devinstall/destroy.go:206-341 | on every run, also one resumed with requests of earlier runs in flight, and under any foreign activity: only marked planned objects are accepted for deletion; each target, the destroying phase and every item listed so far, with the volumes of its bound claims, were on disk before the DELETE; each DELETE carries the UID the journal held at the start if it held one and, unless it is of a Namespace, the UID held on disk when the destroying phase was saved; no DELETE was sent before that, and before that the namespace was listed, or was missing with its storage accounted for; objects go newest first, the Namespace after the rest and after a listing since when nothing was deleted, a PriorityClass after the Namespace; nothing the journal held is forgotten, in memory or on disk; zero residue means that everything journalled, at the start or since, and everything listed was seen absent after the last DELETE, with no volume of the namespace and no late backend of a claim, and that no request is in flight if none was at the start; and on a quiet server every clearable installation is destroyed with zero residue |
| `DevDestroy.KeptEverything` | pkg/devinstall/destroy.go:206-341 | a journal that keeps another answers for everything the other answers for |
| `DevDestroy.DestroyAgain` | pkg/devinstall/destroy.go:206-341 | a failed destruction resumed from its disk journal, over the same server, forgets nothing: zero residue covers all that the first run was given |
| `DevDestroy.AnchorSteady` | pkg/devinstall/destroy.go:206-341 | a log in order for the saved entries, with each Namespace as copied at the start, pins every DELETE but a Namespace's to the saved UIDs |
| `DevDestroy.UidPinnedExactly` | pkg/devinstall/destroy.go:159-202 | the ownership check admits objects of only one UID if and only if the entry it is given holds a UID |
| `DevDestroy.NamespaceReplaced` | pkg/devinstall/destroy.go:219-235 | an instance of the exception: a Namespace without a UID at the start is replaced after its UID was saved, and its DELETE carries the other UID |
| `DependencyGraph.OrderedMeansAcyclic` | internal/roadmapprogram/validator.go:637-666 | a graph whose goals all have a place in a topological order has no cycle |
| `DependencyGraph.DependencyCycles` | internal/roadmapprogram/validator.go:637-666 | blockers are reported if and only if the graph of known goals has a cycle, for every order of visiting; each names a goal on a cycle; without one the finishing order is topological |
| `DeliveryStatus.UnmetAmong` | internal/roadmapprogram/validator.go:339-372 | lists exactly the undelivered dependencies, so it is empty if and only if every dependency is delivered |
| `DeliveryStatus.ApprovedExactly` | internal/roadmapprogram/validator.go:704-717 | a transition is approved if and only if the goal exists, the target is known, the pair is one of the six moves or no move at all, and a delivery has nothing undelivered before it; and exactly which error is given otherwise |
| `DeliveryStatus.ValidateStatuses` | internal/roadmapprogram/validator.go:587-601 | no blocker if and only if the delivered goals are closed under dependency; each blocker is a genuine violation |
| `DeliveryStatus.StepKeeps` | internal/roadmapprogram/validator.go:339-372 | an approved transition keeps that closure, loses no delivered goal and leaves the graph alone |
| `DeliveryStatus.RunKeepsDelivered` | internal/roadmapprogram/validator.go:704-717 | so does every approved run; delivered is never left |
| `DeliveryStatus.ClosedUnderPaths` | internal/roadmapprogram/validator.go:587-601 | delivered goals are closed under transitive dependency |
| `DeliveryStatus.DeliveriesAreTopological` | internal/roadmapprogram/validator.go:339-372 | whenever a goal is delivered, everything it transitively depends on was delivered before |
| `DeliveryStatus.NeverDelivered` | internal/roadmapprogram/validator.go:339-372 | a goal on a cycle, with an unknown dependency or with an unrecognised status is never delivered unless it already was |
| `DeliveryStatus.CyclesArePending` | internal/roadmapprogram/validator.go:637-666 | where delivered goals are closed under dependency, an undelivered goal lies on a cycle if and only if the undelivered goals alone have one |
| `DeliveryStatus.DecideDeliverable` | internal/roadmapprogram/validator.go:339-372 | any roadmap whose delivered goals are closed under dependency can be delivered completely by approved transitions if and only if no other goal lies on a cycle, has an unknown dependency or has an unrecognised status, which the cycle detector on the undelivered goals decides |
| `StrictJson.InspectExactly` | internal/strictjson/strictjson.go:97-144 | inspection accepts a tree if and only if no object at any depth repeats a key and nesting is within the limit |
| `StrictJson.LooserLimit` | internal/openbaoapply/parse.go:293-340 | what is within the stricter limit is within the laxer one |
| `StrictJson.InspectObject` | internal/strictjson/strictjson.go:97-144 | consumes exactly the members of the object and the closing brace, and finds the first fault |
| `StrictJson.InspectArray` | internal/strictjson/strictjson.go:97-144 | consumes exactly the items of the array and the closing bracket |
| `StrictJson.InspectValue` | internal/strictjson/strictjson.go:97-144 | consumes exactly one tree |
| `StrictJson.Validate` | internal/strictjson/strictjson.go:43-64 | accepts a stream if and only if it is one tree, without repeated keys, nested at most 64 deep, and nothing follows |
| `StrictJson.InspectFields` | internal/openbaoapply/parse.go:280-291 | the same with 32; acceptance implies that of the 64-deep check |
| `StrictJson.DecodeExactly` | internal/roadmapprogram/state.go:240-292 | decoding accepts exactly the trees without repeated keys |
| `StrictJson.DecodeLosesNothing` | internal/roadmapprogram/state.go:240-292 | the decoded object has exactly the members' keys, each with its own decoded value |
| `StrictJson.DecodeStrictJson` | internal/roadmapprogram/state.go:221-238 | accepts a stream if and only if it is one such tree and nothing follows |
| `HclSyntax.PrintUnique` | internal/platformmanifest/openbao_hcl.go:144-395 | no two syntax trees print the same tokens, whatever follows them |
| `HclSyntax.Ahead` | internal/platformmanifest/openbao_hcl.go:144-395 | a reader that has consumed printed entries has read the first entries of the whole, and stands at the next |
| `HclLexer.Lex` | internal/platformmanifest/openbao_hcl.go:71-142 | the loop computes the token function that the next rows characterise |
| `HclLexer.ScanExactly` | internal/platformmanifest/openbao_hcl.go:71-142 | a text is read as these tokens if and only if it spells them out between blanks and comments, possibly with a dangling quote behind a string at its very end |
| `HclLexer.SpelledOneWay` | internal/platformmanifest/openbao_hcl.go:71-142 | a text is spelled in one way only: pieces, tokens and dangling end are determined |
| `HclLexer.WellFormedExactly` | internal/platformmanifest/openbao_hcl.go:71-142 | an accepted text is well formed if and only if it does not end in a dangling quote |
| `HclLexer.LoneQuoteIsRead` | internal/platformmanifest/openbao_hcl.go:112-117 | an instance of the dangling quote |
| `HclParser.Parser.ListenerBlock` | internal/platformmanifest/openbao_hcl.go:144-182 | reads a block if and only if its tree sets each of the six attributes exactly once and nothing else, in any order |
| `HclParser.Parser.StorageBlock` | internal/platformmanifest/openbao_hcl.go:184-214 | reads a block if and only if its path is set at most once and all else are retry-join blocks, kept in order |
| `HclParser.Parser.RetryJoinBlock` | internal/platformmanifest/openbao_hcl.go:216-248 | reads a block if and only if it sets only its five attributes, each at most once |
| `HclParser.Parser.ServiceRegistryBlock` | internal/platformmanifest/openbao_hcl.go:250-256 | reads exactly the empty labelled block |
| `HclParser.Parser.AuditBlock` | internal/platformmanifest/openbao_hcl.go:258-290 | reads a block if and only if description and options occur exactly once each |
| `HclParser.Parser.AuditOptionsBlock` | internal/platformmanifest/openbao_hcl.go:292-325 | reads a block if and only if the three options occur exactly once each |
| `HclParser.ParseTokens` | internal/platformmanifest/openbao_hcl.go:22-69 | terminates on every token sequence; the result is exactly what the one tree printed by the tokens means, and there is none if no tree prints them |
| `HclConfig.ParseOpenBaoHcl` | internal/platformmanifest/openbao_hcl.go:22-69 | the same from text |
| `HclConfig.Rendered` | internal/platformmanifest/openbao_hcl.go:22-69 | the rendering of any configuration, with any number of blocks of each kind, means that configuration |
| `HclConfig.PrintThenParse` | internal/platformmanifest/openbao_hcl.go:22-142 | any text that spells out the rendering, whatever its spacing, comments and quoting, is read as that configuration and as no other |
| `HclConfig.RoundTrip` | internal/platformmanifest/openbao_hcl.go:22-142 | there is such a text for every configuration, given any quoting that unquoting undoes |
| `HclConfig.EscapingQuotes` | internal/platformmanifest/openbao_hcl.go:98-117 | escaping quotes and backslashes is such a quoting |
| `HclConfig.EscapedRoundTrip` | internal/platformmanifest/openbao_hcl.go:22-142 | so with it every configuration is written and read back |
| `Utf16Text.EncodeThenDecode` | internal/sourcecheck/nontext.go:53-91 | decoding the UTF-16 encoding of any scalar sequence returns it |
| `Utf16Text.DecodeThenEncode` | internal/sourcecheck/nontext.go:118-132 | properly paired units are the encoding of what they decode to |
| `Utf16Text.ValidUtf16Units` | internal/sourcecheck/nontext.go:118-132 | accepts exactly the encodings of sequences of Unicode scalar values |
| `Utf16Text.Utf8Exactly` | internal/sourcecheck/nontext.go:53-56 | bytes are read as a text if and only if they are its UTF-8 encoding |
| `Utf16Text.AlternatingNulByteOrder` | internal/sourcecheck/nontext.go:93-116 | decides by the number of zero bytes on either side, at least three fifths of the pairs rounded up |
| `Utf16Text.AsciiOrder` | internal/sourcecheck/nontext.go:93-116 | unmarked ASCII text of two or more characters is always given the right byte order |
| `Utf16Text.PlausibleText` | internal/sourcecheck/nontext.go:134-150 | accepts exactly the non-empty texts without zero, replacement or unprintable characters |
| `Utf16Text.DecodeText` | internal/sourcecheck/nontext.go:53-91 | returns a text if and only if the bytes say it: its UTF-8 encoding without a zero byte, or the UTF-16 encoding of a plausible text in the byte order they show |
| `Utf16Text.SaysOneText` | internal/sourcecheck/nontext.go:53-91 | bytes say at most one text |
| `Utf16Text.MarkedRoundTrip` | internal/sourcecheck/nontext.go:53-91 | plausible text behind a byte order mark is read back, in either byte order |
| `Utf16Text.UnmarkedRoundTrip` | internal/sourcecheck/nontext.go:53-116 | so is unmarked plausible ASCII text of two or more characters |
| `TagWalk.LeadsOneWay` | internal/sourcecheck/git.go:887-930 | from an object there is one chain of tags and one commit |
| `TagWalk.LeadsDistinct` | internal/sourcecheck/git.go:887-930 | a chain that leads to a commit meets no tag twice, so the cycle check refuses no good chain |
| `TagWalk.Publisher.Inspect` | internal/sourcecheck/git.go:854-885 | the cache never changes what a lookup says |
| `TagWalk.Publisher.Walk` | internal/sourcecheck/git.go:887-930 | terminates; returns a commit exactly when at most 64 tags lead to it with every declared type matching (if no call fails), and hands on those tags in order |
| `TagWalk.CollectExactly` | internal/sourcecheck/git.go:806-830 | collecting a chain adds each of its tags exactly once and loses nothing |
| `TagWalk.Publisher.ResolvePublishedHead` | internal/sourcecheck/git.go:806-852 | the same from a revision |
| `TagWalk.Publisher.CollectPush` | internal/sourcecheck/git.go:694-711 | over all heads of a push every distinct tag on any chain is collected exactly once; it fails only if some head publishes no commit (if no call fails) |
| `Dedup.UniqueStrings` | internal/sourcecheck/git.go:1341-1350 | keeps, in place, a strictly increasing list of exactly the values there were |
| `Dedup.OneIncreasingList` | internal/sourcecheck/git.go:1341-1350 | there is only one such list |
| `Dedup.KeepRuns` | internal/sourcecheck/git.go:1365-1374 | keeps, in place, the first element of every run of equal keys |
| `Dedup.RunsKeepKeys` | internal/sourcecheck/git.go:1365-1374 | which keeps exactly the set of keys |
| `Dedup.DeduplicateInputs` | internal/sourcecheck/git.go:1352-1375 | for every order the sort may choose, exactly the set of keys is kept, and every kept input was an input |
| `Dedup.NoRepeatsExactly` | internal/sourcecheck/git.go:1365-1374 | no key is kept twice if and only if equal keys stand together |
| `Dedup.DeduplicatesExactly` | internal/sourcecheck/git.go:1352-1375 | no order of the sort keeps a key twice if and only if no two inputs with one key share path, variant, state and digest with an input of another kind |
| `Dedup.KeptTwice` | internal/sourcecheck/git.go:1352-1375 | an instance in which a key is kept twice: a path that is a file, a link of the same content and a file again in three pushed commits |

## Left out

- HTTP, TLS, JSON encoding and status decoding of the clients: only the classes of replies are modelled.
- The literal field comparisons of mounts, configurations, policies, roles and seeds: abstract bodies plus the identity fields.
- ApplyEngine.Execute: for a run whose replies were lost the failed gate is determined only by the stage reached (`StopsAt`); which reply was lost is not part of the report.
- Kubernetes access reviews, bearer claims and service-account checks: each is an arbitrary yes or no.
- Supervisor.ExecuteSupervised: assumes that the temporary policy's random name differs from the contract's policy.
- Cluster.Server.Delete: a request accepted by the server marks its target or removes it; finalizers are not followed, because absence is always observed afterwards.
- DevDestroy.Engine.Destroy: complete destruction is claimed for a quiet server whose storage is already reclaimed, because storage is reclaimed by others; classification of inventory objects is an arbitrary refusal, and the objects the Namespace takes with it are observed but not modelled as deletions of this client.
- TagWalk.Publisher.CollectPush: only the heads and their tags; the commits between base and head, the remote exclusions and their errors are not part of this model.
- Utf16Text.DecodeText: which characters print is a parameter.
- Dedup.DeduplicatesExactly: assumes that no field in front of the digest contains a NUL byte, as in everything Git prints.
- HclConfig.Rendered: a number of a listener must fit a 64-bit integer, as it always does in the source's own type; negative numbers cannot be written in this syntax.
- StrictJson.Validate: starts at the decoder's tokens of a syntactically valid document; byte-level JSON syntax belongs to the standard library.
- The other verifiers of platform manifests, the content rules, the command line, certificates, downloads and the file system: fixed comparisons, library behaviour or input and output.
