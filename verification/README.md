# Verified model of consent, erasure, audit and session merging

This project models, in Dafny, the parts of the repository that hold state machines, hash chains, crash and restart
behaviour or tight counting, and proves what they keep. `dafny verify dfyconfig.toml` checks all of it.

**Consent kernel and revocation cascade** (`remembrance-consent`). `Kernel` is the pure gate and `ConsentPolicy` what
it decides, told by the facts alone; `Tokens` issues and validates tokens with an ideal signature; `ConsentStore` is
the set of committed tables with the invariant every write keeps; `ConsentService` holds the endpoints as methods of
one object; `ConsentRuns` breaks the transactions into micro-steps (grant rows share-locked one at a time by
`authorize`, locked exclusively by `revoke` and `verify_authority`, checked without a lock by `create_grant` and
`acknowledge`) and proves safety over every interleaving; `ConsentProgress` shows that the runs can do what the service
promises. `CascadeStore`, `CascadeWorker` and `CascadeRuns` do the same for the cascade: one worker with storage
outages and retries, then any number of runs that can stop between deleting an object and committing its row.
`CascadeCompletion` says over whole runs what COMPLETE leaves behind and what became of the objects; `CascadeProgress`
ties the runs back to the worker.

**Erasure and sharing** (`remembrance`). `ErasureLedger` is the hash-chained ledger, `Erasure` the registry check,
`erase` and `reapply`, and `ErasureRuns` every run of them with crashes, restores of any backup, and the web
application writing in between. `CareStore` and `Succession` cover nominations, transfers, erasure requests, archiving
and family access, which share the memorial rows. `ConsentHistory`, `ConsentTables` and `ConsentRecords` cover the
reviewed-sharing history, its verification and the tables it must agree with. In both services every method is at most
one step of a machine, and the results hold after every sequence of steps. `CareHistory` and `SharingHistory` tell them
event by event. `MediaNames` says which file names an erasure may unlink.

**Audit chains** (`remembrance-consent`). `AuditChain` is the single-pass verifier, `AuditTable` the append of one
caller, `AuditAppend` concurrent appenders with stale heads; `AuditFaults` says what each error means, `AuditProgress`
that an undisturbed appender gets through.

**Session merge** (`app.py`, with a second form in `SaintData.java`). `Ranking` is the theory of "the newest n",
`SessionMerge` one import, `SessionImports` several; `SessionIdentity` says by the passages' own fields what is new and
what stays.

**Small algorithms.** `RateLimit` (the GCRA limiter), `Csv` (the hand-written reader), `Batching` (upload requests).

`Wrappers`, `Collections` and `Digests` hold what several components share; `Digests.SameDigestSamePast` is the one
argument by which a known digest fixes a hash chain's past.

Hashes are parameters. Only the lemmas that say `Injective` (or ask for it in a `requires`) use that equal hashes mean
equal contents; nothing else is assumed of them.

Three statements of the design do not hold of the code as it stands, and are proved in the form that does:

- A cascade is said to be COMPLETE only when nothing is left in scope. The final check is four separate SELECTs, so a
  row that arrives after its table was counted survives. `CascadeCompletion.CompleteLeavesExactlyArrivals` proves that
  what is left is exactly the grant's rows that a step after their own table's count inserted and no later step undid,
  `CascadeCompletion.NoArrivalsNothingLeft` that nothing is left when nothing is inserted after the first count, and
  `CascadeRuns.ArrivalSurvivesCompletion` is a run where a row is left.
- Re-importing the same export is said to add nothing. In a full session an old copy of a passage can absorb its newer
  copy and then be trimmed; the repeat adds the newer copy. `SessionImports.RepeatCanStillChange` gives such a session
  and import for every cap, `SessionImports.RepeatIsNoOpExactlyWhen` the exact condition, and `RepeatWithoutDropsIsNoOp`
  and `RepeatWithDatedKeysIsNoOp` the cases a caller can rely on.
- The CSV reader loses a last row that has no line end when that row is one empty cell
  (`Csv.UnendedRowSurvivesExactlyWhen`).

## Model

| member | source | states |
|---|---|---|
| Kernel.DecideRequest | remembrance-consent/app/consent/kernel.py:216-252 | the gate as the loop over grants that stops at the first passing one computes the decision whose meaning `ConsentPolicy` states by the facts |
| ConsentPolicy.EndorsedExactlyWhen | remembrance-consent/app/consent/kernel.py:91-107 | the quorum is met exactly when, with no number set, every named beneficiary has acknowledged, and with number n, n of the named have |
| ConsentPolicy.UseDecidedByTheFacts | remembrance-consent/app/consent/kernel.py:181-252 | a use is allowed exactly when some grant meets all six conditions on its own columns, the first such grant being named; otherwise the reason is the condition that no grant gets past |
| ConsentPolicy.RightDecidedByTheFacts | remembrance-consent/app/consent/kernel.py:233-240 | a right is granted exactly to administrators, successors and grantors with a verified grant, whose first one is named |
| ConsentPolicy.GateReasons | remembrance-consent/app/consent/kernel.py:216-231 | each reason of the gates is given exactly when its condition is the first to fail; the declared purpose and the relation to the profile are reported as they are |
| Kernel.UseDecision | remembrance-consent/app/consent/kernel.py:200-252 | past the gates a use is allowed exactly when some grant passes every check; it names the first such grant, else the denial is the furthest stage any grant reached |
| Kernel.AllowedExactlyWhen | remembrance-consent/app/consent/kernel.py:216-252 | every allow, for use and rights actions alike, by conditions alone, in both directions |
| Kernel.RevokingNeverAllows | remembrance-consent/app/consent/kernel.py:200-213 | revoking a grant never turns a denial into an allow and leaves rights-action decisions unchanged |
| Kernel.AcknowledgingNeverDenies | remembrance-consent/app/consent/kernel.py:100-125 | a named acknowledgment never turns an allow into a denial |
| Tokens.IssuedTokenAcceptedExactlyWhen | remembrance-consent/app/consent/tokens.py:122-312 | an issued token validates exactly inside its time window with skew, for its own action, profile and stored row, and unrevoked |
| Tokens.AcceptedExactlyWhen | remembrance-consent/app/consent/tokens.py:249-312 | any credential is accepted exactly when it is of the right kind, signed under a known key by this issuer for this audience, and its claims are short-lived, in time, for this action and profile, and listed unrevoked |
| Tokens.FailuresExactly | remembrance-consent/app/consent/tokens.py:249-312 | each failure is reported exactly when its own check is the first to fail |
| Tokens.IssuedClaims | remembrance-consent/app/consent/tokens.py:122-165 | an issued token runs from the second of its issue for ttl seconds, with the disclosure flag for everything synthesized |
| Tokens.FreshTokenIsAccepted | remembrance-consent/app/consent/tokens.py:122-165 | a token is accepted from the moment it is issued until its lifetime is over |
| ConsentStore.LiveTokenIsStillAllowed | remembrance-consent/app/consent/tokens.py:249-312 | in a sound database an unrevoked use token's grant is unrevoked, verified, in scope and has its quorum, and the gate would allow it again |
| ConsentStore.DeceasedMeaning | remembrance-consent/app/consent/kernel.py:175-178 | the deceased-actor test is true exactly of the accounts that hold pre-need consent on a profile with a recorded death |
| ConsentStore.CreateReasons | remembrance-consent/app/consent/router.py:141-189 | a refused creation is told the first of its reasons, each by the rows; none applies exactly when the rows permit it |
| ConsentStore.VerifyReasons | remembrance-consent/app/consent/router.py:237-250 | a refused verification is told the first of its reasons |
| ConsentStore.RequireReasons | remembrance-consent/app/consent/router.py:126-138 | whoever no allowed role ties to a grant is told that there is none; the dead are refused |
| ConsentStore.AcknowledgeReasons | remembrance-consent/app/consent/router.py:265-275 | a beneficiary is refused exactly for a revoked grant or a second acknowledgment |
| ConsentStore.LoadedInOrder | remembrance-consent/app/consent/kernel.py:255-272 | a profile's grants are loaded in the order of the table |
| ConsentStore.LoadedFacts | remembrance-consent/app/consent/kernel.py:255-276 | what is loaded of a profile is its death, the successors designated for it and its own grants |
| ConsentStore.CreateKeepsSound | remembrance-consent/app/consent/router.py:141-234 | inserting a grant keeps every token justified, one account behind all pre-need consent, and a pre-need grant on every living profile |
| ConsentStore.VerifyKeepsSound | remembrance-consent/app/consent/router.py:237-262 | verifying an authority keeps every token justified and only ever adds to what grants hold |
| ConsentStore.AcknowledgeKeepsSound | remembrance-consent/app/consent/router.py:265-312 | acknowledging keeps every token justified and only ever adds to what grants hold |
| ConsentStore.RevokeKeepsSound | remembrance-consent/app/consent/router.py:315-369 | revoking is sound when the marked tokens include every live token under the grant |
| ConsentStore.IssueKeepsSound | remembrance-consent/app/consent/kernel.py:369-398 | adding a justified token keeps the database sound |
| ConsentService.Service.CreateGrant | remembrance-consent/app/consent/router.py:141-234 | succeeds exactly when the rows permit it: estate consent after the death and not by the dead, pre-need consent before it and by one account; first failing check as the error, exactly the inserted profile and grant otherwise |
| ConsentService.Service.AnotherHoldsPreNeed | remembrance-consent/app/consent/router.py:141-234 | the conflict query is true exactly when another account holds pre-need consent on the profile |
| ConsentService.Service.VerifyAuthority | remembrance-consent/app/consent/router.py:237-262 | succeeds exactly for another human administrator's unrevoked, unverified grant; first failing check as the error, exactly the verified grant otherwise |
| ConsentService.Service.Acknowledge | remembrance-consent/app/consent/router.py:265-312 | only a living named beneficiary can acknowledge, once, an unrevoked grant, and only that grant changes |
| ConsentService.Service.Revoke | remembrance-consent/app/consent/router.py:315-369 | revokes exactly the tokens under the grant and reports how many were live, every other token being as it was; repeating it changes nothing and reports zero |
| ConsentService.Service.Authorize | remembrance-consent/app/consent/kernel.py:347-398 | the token row stored is the decision's own, and an allowed use is justified by the tables it commits to |
| ConsentService.AllowedNowIsEarned | remembrance-consent/app/consent/kernel.py:216-252 | deciding on the tables as they stand justifies the token that is issued |
| ConsentRuns.AllowedIsEarned | remembrance-consent/app/consent/kernel.py:255-276 | what an authorization read under its share locks, row by row, still justifies its token when it commits |
| ConsentRuns.StepKeepsInv | remembrance-consent/app/consent/kernel.py:347-398 | every micro-step of every transaction, and every abort, keeps the tables sound and the locks exclusive |
| ConsentRuns.RunKeepsInv | remembrance-consent/app/consent/router.py:141-369 | so does every run |
| ConsentRuns.NoLiveUseTokenUnderRevokedGrant | remembrance-consent/app/consent/router.py:314-369 | in no reachable state is a use token live under a revoked grant, whichever of authorize and revoke took the lock first |
| ConsentRuns.AcceptedUseTokenIsStillAllowed | remembrance-consent/app/consent/tokens.py:249-312 | whenever validate accepts a use token, the death is recorded, the grant it names meets all six conditions on its own columns for that person, acknowledgments included, and the current facts still allow that person that action |
| ConsentProgress.FreeAuthorizeFinishes | remembrance-consent/app/consent/kernel.py:347-398 | from every reachable state, unless another transaction holds one of the profile's grants exclusively, an authorization can be taken to its commit: it issues a token exactly when the tables allow it, changes nothing else, and the token is accepted at once |
| ConsentProgress.OnlyTokensOfRevokedGrants | remembrance-consent/app/consent/router.py:314-369 | over every run a token is revoked only if it names a grant and that grant is revoked |
| CascadeWorker.Cascade.Claim | remembrance-consent/app/consent/cascade.py:144-176 | unknown and unrevoked grants are refused, complete requests are left alone, anything else becomes PROCESSING with one more attempt and no failure mark |
| CascadeWorker.Cascade.CancelDeliveries | remembrance-consent/app/consent/cascade.py:178-199 | every due delivery in scope is cancelled once, in id order, each with its event |
| CascadeWorker.Cascade.DeleteOne | remembrance-consent/app/consent/cascade.py:201-228 | one artifact's transaction: the object first, then the tombstone and its event, or nothing at all when storage fails |
| CascadeWorker.Cascade.DeleteArtifacts | remembrance-consent/app/consent/cascade.py:201-228 | a prefix of the live artifacts, in id order, is deleted with its objects; it is all of them unless an object's deletion failed |
| CascadeWorker.Cascade.Finish | remembrance-consent/app/consent/cascade.py:230-253 | COMPLETE and the completion event exactly when no token, delivery or artifact of the grant is live by the tables' columns, otherwise no change |
| CascadeWorker.Cascade.RecordFailure | remembrance-consent/app/consent/cascade.py:255-260 | marks an open request failed and never touches a complete one |
| CascadeWorker.Cascade.Run | remembrance-consent/app/consent/cascade.py:275-299 | a run fails exactly when the object of a live artifact of the grant cannot be deleted, and keeps its progress then; otherwise, column by column, the grant's tokens, deliveries and artifacts (audio made from its models included) are undone, every other row and object is as it was, and the report and trail are complete |
| CascadeStore.NothingLeftMeaning | remembrance-consent/app/consent/cascade.py:95-132 | the final check is passed exactly when no token, delivery or artifact of the grant, or audio made from its models, is live by the tables' columns |
| CascadeWorker.BlockedMeaning | remembrance-consent/app/consent/cascade.py:95-112 | what blocks a run is exactly a broken key of a live artifact of the grant or of audio made from its models |
| CascadeWorker.Cascade.Retry | remembrance-consent/app/consent/cascade.py:275-299 | under successive outages remaining work never grows, and one unblocked delivery of the job completes the request |
| CascadeStore.TombstoneScope | remembrance-consent/app/consent/cascade.py:95-132 | tombstoning an artifact removes exactly it from every grant's remaining work, through the model links too |
| CascadeRuns.StepKeepsInv | remembrance-consent/app/consent/cascade.py:144-260 | every statement of every run, and every other writer, keeps deletions counted once, locks exclusive and counts honest |
| CascadeRuns.DeletedExactlyOnce | remembrance-consent/app/consent/cascade.py:201-228 | over every run an artifact has one deletion event when tombstoned and none before, its row has no key left, and no object a deletion event names exists |
| CascadeCompletion.TombstonedObjectIsGone | remembrance-consent/app/consent/cascade.py:201-228 | a row that had key k at any moment of a run and is tombstoned at its end: object k is gone, the row's own deletion event names k, and no row points at it |
| CascadeRuns.CompleteOnlyInFinish | remembrance-consent/app/consent/cascade.py:230-253 | a request turns COMPLETE only in the finish step of a run that counted all four tables, none of whose counted rows is left |
| CascadeCompletion.LifeStory | remembrance-consent/app/consent/cascade.py:113-228 | a row is alive exactly when some step inserted it and no later revoke, cancellation, settlement or tombstone undid it |
| CascadeCompletion.OnlyRevokedGrantsAreUndone | remembrance-consent/app/consent/cascade.py:144-228 | over every run a token is revoked, a delivery cancelled or an artifact deleted only if it belongs, by the tables' columns, to a revoked grant |
| CascadeCompletion.ScopeIsSettled | remembrance-consent/app/consent/cascade.py:95-132 | whether a row belongs to a grant, by the tables' columns, never changes once it is inserted |
| CascadeCompletion.CountedIsTheTable | remembrance-consent/app/consent/cascade.py:113-132 | the count a run holds of a table is every id the table had at the step that counted it, and nothing of the grant was left in it then |
| CascadeCompletion.CompleteLeavesExactlyArrivals | remembrance-consent/app/consent/cascade.py:113-132 | under a request that turned COMPLETE, exactly those rows of the grant, audio made from its models included, are live that a step after their table's count inserted and no later step undid |
| CascadeCompletion.NoArrivalsNothingLeft | remembrance-consent/app/consent/cascade.py:230-253 | without insertions after the run's first count, COMPLETE means that nothing of the grant is live by the tables' columns |
| CascadeProgress.FreeRunCanFinish | remembrance-consent/app/consent/cascade.py:275-299 | from every reachable state, unless another run holds a row of the grant, a new run can be taken to COMPLETE and leaves the rows, objects, report and audit trail that the worker's `Run` promises |
| CascadeRuns.CompleteStays | remembrance-consent/app/consent/cascade.py:144-176 | COMPLETE is absorbing |
| CascadeRuns.ArrivalSurvivesCompletion | remembrance-consent/app/consent/cascade.py:113-132 | a run in which a model inserted after the last count is left under a COMPLETE request |
| ErasureLedger.Read | remembrance/erasure.py:129-167 | the file is accepted exactly when it has no partial last line and its lines form a valid chain; an error names the first line at fault |
| ErasureLedger.Ledger.Append | remembrance/erasure.py:172-183 | appends the decision to the file and keeps the chain valid |
| ErasureLedger.AppendKeepsValid | remembrance/erasure.py:172-183 | appending a decision about a new memorial keeps the ledger valid |
| ErasureLedger.HeadFixesLedger | remembrance/erasure.py:129-143 | valid ledgers of equal length with the same last hash are equal |
| Erasure.AppendingContradictsNothing | remembrance/erasure.py:213-221 | extending the ledger never makes a registry row contradict it |
| Erasure.ReappliedContradictsNothing | remembrance/erasure.py:224-250 | recording an entry of the ledger keeps the registry and the ledger in agreement |
| Erasure.RegistryFixesLedger | remembrance/erasure.py:213-221 | two valid ledgers that a registry agrees with are the same up to the latest erasure it records |
| Erasure.AfterErasureMeaning | remembrance/erasure.py:231-250 | an erasure removes the record and every row of one memorial, registers it, and touches nothing of another |
| Erasure.ErasureRecords | remembrance/erasure.py:231-250 | an erasure records one event with the ledger's own decision and the rows each table lost, and a registry row that repeats the decision |
| MediaNames.SafeExactlyWhenInDirectory | remembrance/erasure.py:236-238 | the file names that are let through are exactly those that lead, from whatever directory, to the file of that name in it |
| Erasure.ReappliedAllIsClean | remembrance/erasure.py:277-298 | after a full run every ledgered memorial is recorded and nothing of it is left |
| Erasure.SecondRunChangesNothing | remembrance/erasure.py:277-298 | a second run changes nothing and a check then reports nothing |
| Erasure.RetryUsesTheSameDecision | remembrance/erasure.py:253-269 | erasing again after a crash uses the recorded decision, so the ledger does not grow |
| Erasure.OutcomesExactly | remembrance/erasure.py:253-269 | each outcome of an erasure exactly when its own check is the first to fail, success exactly when the registry agrees, the memorial exists, its owner is the one named and its files are safe |
| Erasure.OutstandingMeaning | remembrance/erasure.py:277-298 | a check lists exactly the ledgered memorials that are still there or not registered |
| Erasure.ReapplyMeaning | remembrance/erasure.py:277-298 | reapplying an entry erases a memorial that is back, in an event marked as such, and only registers one that is gone |
| Erasure.Server.DeleteRows | remembrance/erasure.py:24-25 | deleting the tables in their listed order breaks no foreign key at any point and counts each table's rows |
| Erasure.Server.Apply | remembrance/erasure.py:231-250 | all or nothing: refused on an unsafe file name, else the memorial's rows and exactly its files go |
| Erasure.Server.Erase | remembrance/erasure.py:253-269 | each outcome by the columns it depends on, with its effect on ledger, database and files; a refusal after the append still leaves the decision |
| Erasure.Server.Reapply | remembrance/erasure.py:277-298 | a check reports exactly the outstanding memorials and changes nothing; a real run acts on that many and leaves a clean database without their files |
| ErasureRuns.StepKeepsInv | remembrance/erasure.py:213-298 | every step of erase, reapply, backup, restore, upload and the web application keeps ledger, registries and files consistent |
| ErasureRuns.TrueLedgerIsNeverRefused | remembrance/erasure.py:213-221 | over every run the ledger verifies and no registry, live or in a backup, contradicts it |
| ErasureRuns.CompletedReapplyLeavesNothing | remembrance/erasure.py:277-298 | whenever a reapply completes, no ledgered memorial, row or listed file exists |
| ErasureRuns.CleanStays | remembrance/erasure.py:277-298 | and that stays so until a restore or a new erasure |
| ErasureRuns.CommittedEraseLeavesNothing | remembrance/erasure.py:231-269 | a committed erasure leaves no record, row or listed file of its memorial, after any earlier crashes |
| ErasureRuns.EveryEraseNamedTheOwner | remembrance/erasure.py:253-269 | after any run an erasure can be begun exactly for the memorial's owner of that moment, with an agreeing registry and safe files |
| ErasureRuns.EveryDecisionWasTheOwners | remembrance/erasure.py:172-183 | over every run each decision in the ledger was made by an erasure that named the owner of that moment, and records who made it, on what evidence and when |
| ErasureRuns.ReapplyAlwaysFinishes | remembrance/erasure.py:277-298 | from every reachable idle state a reapply can run to its end, and its small steps amount to the specification of one call |
| ErasureRuns.EraseAlwaysFinishes | remembrance/erasure.py:253-269 | from every reachable idle state an erasure for the owner can run to its end, and its small steps amount to the specification of one call |
| Succession.Care.Nominate | remembrance/succession.py:32-46 | exactly who can be nominated by whom, the error otherwise, and the whole new state: one new nomination and the memorial's successor field |
| Succession.Care.Respond | remembrance/succession.py:49-73 | exactly when an answer counts, the error otherwise, and the whole new state: the signed declaration, or the closed nomination and the emptied successor field |
| Succession.Care.Cancel | remembrance/succession.py:76-90 | exactly when a nomination is cancelled, the whole new state, and that none is active then |
| Succession.Care.Transfer | remembrance/succession.py:93-118 | exactly when care moves and the whole new state, not while an erasure request is pending; the checks for the owner and the declaration never fail |
| Succession.Care.RequestErasure | remembrance/erasure.py:48-62 | exactly when a request is recorded, the memorial archived with it, one pending request at a time; nothing else changes |
| Succession.Care.WithdrawErasure | remembrance/erasure.py:65-76 | closes a pending request of the owner and changes nothing else; a closed one is left alone |
| Succession.Care.DeclineErasure | remembrance/erasure.py:79-92 | closes a pending request by the operator and changes nothing else; repeating it changes nothing |
| Succession.Care.SetArchived | remembrance/app.py:675-693 | a pending erasure request keeps the memorial archived |
| Succession.Care.SetAccess | remembrance/app.py:653-671 | family access is given by the owner, to existing accounts only, and nothing else changes |
| CareStore.TransferKeepsSound | remembrance/succession.py:93-118 | a transfer keeps every invariant and leaves no active nomination on the memorial |
| CareStore.TransferMovesRoles | remembrance/succession.py:109-112 | the nominee becomes the owner, the former owner an outsider even after giving themselves family access, and nobody else's role on any memorial changes |
| Succession.RunKeepsSound | remembrance/succession.py:19-118 | every sequence of the service's calls keeps every invariant |
| Succession.CareIsConsistent | remembrance/succession.py:19-118 | after every run: at most one active nomination, made by the current owner; a pending request means archived and still owned; every owner and every nomination is what the recorded activity leads to |
| Succession.EveryTransferWasAccepted | remembrance/succession.py:93-118 | after every run: a recorded transfer took the memorial from its owner of that moment to an account that owner had nominated and that had accepted, neither having withdrawn |
| CareHistory.EveryTransferWasAgreed | remembrance/succession.py:32-118 | behind every recorded transfer stand, record by record, what made the former owner the owner, that owner's nomination of the new one and the nominee's later acceptance, nothing having undone any of them |
| CareHistory.SignatureIsTheNominees | remembrance/succession.py:49-73 | the declaration kept with a nomination is the one the nominee gave, of the permitted form |
| CareHistory.TransferWritesTheSignature | remembrance/succession.py:109-110 | a transfer writes the signed authority and name, the new owner and no successor, and no other column or memorial |
| CareHistory.DemoIsReadOnly | remembrance/succession.py:19-23 | no call changes an example memorial or its family access |
| CareHistory.CallExtendsTheRun | remembrance/succession.py:19-118 | every call of the service is a step of a run |
| ConsentHistory.VerifyHistory | remembrance/consent.py:204-228 | accepted exactly when every memorial's events chain by sequence and hash and every checkpointed head is there; the heads returned are the last events |
| ConsentHistory.CheckpointFixesHistory | remembrance/consent.py:204-228 | two histories accepted against one checkpoint hold the same events up to each checkpointed one |
| ConsentHistory.OwnCheckpointStaysAccepted | remembrance/consent.py:204-228 | the heads an accepted history returns are satisfied by every accepted continuation |
| ConsentRecords.Consent.RecordGrant | remembrance/consent.py:94-113 | exactly when a grant is recorded, the error otherwise, and the whole new state, with the grant as the one current one the history shows |
| ConsentRecords.Consent.VerifyGrant | remembrance/consent.py:125-133 | only a pending grant is verified; its status and one event are all that changes |
| ConsentRecords.Consent.RevokeGrant | remembrance/consent.py:136-153 | exactly when a grant is revoked and the whole new state; no current grant is left and repeating it changes nothing |
| ConsentRecords.Consent.ConfirmDeath | remembrance/consent.py:156-175 | exactly when a death is confirmed, the error otherwise, and the whole new state |
| ConsentRecords.Consent.ClearDeath | remembrance/consent.py:178-186 | clears a confirmation that exists; that and one event are all that changes |
| ConsentRecords.Consent.Authorize | remembrance/consent.py:189-201 | allowed exactly when the memorial's own history permits it, and recorded as such in the same transaction |
| ConsentRecords.OneCurrentGrant | remembrance/migrations/002_consent.sql:15-15 | after every run at most one grant of a memorial is in force, and the history verifies |
| ConsentRecords.RunKeepsSound | remembrance/consent.py:94-201 | after every run tables and history agree for every memorial, and every history is valid and justified |
| ConsentRecords.EveryAuthorizationWasPermitted | remembrance/consent.py:189-201 | after every run every authorization on record names the grant that its earlier history shows verified, unrevoked and released |
| ConsentRecords.RevokedIsNeverUsedAgain | remembrance/consent.py:136-153 | once a grant is revoked it stays revoked and no later event authorizes a use under it, whatever is called |
| ConsentRecords.GrantsAreProper | remembrance/consent.py:94-113 | every grant on record has one of the offered audiences and release times, the one scope and policy version |
| SharingHistory.AnswersExactly | remembrance/consent.py:29-52 | each answer of the gate exactly when its own condition is the first to fail |
| SharingHistory.PermittedExactlyWhenEntitled | remembrance/consent.py:189-201 | a history permits a use exactly when it records the grant, later its verification, no replacement or revocation since, an offered audience, and its release: at once, or by a confirmed death not cleared since |
| SharingHistory.EveryAuthorizationWasEarned | remembrance/consent.py:189-201 | behind every authorization on record stand exactly those events |
| SharingHistory.CallExtendsTheRun | remembrance/consent.py:94-201 | every call of the service is a step of a run |
| AuditChain.VerifyChain | remembrance-consent/app/consent/audit.py:334-386 | the one pass over interleaved chains reports exactly the errors each event has against its own chain, and summaries of every chain |
| AuditChain.AcceptedExactlyWhen | remembrance-consent/app/consent/audit.py:16-22 | no error exactly when each profile's projection satisfies I1 to I4 and its anchor of length at least 1 |
| AuditFaults.ErrorsExactly | remembrance-consent/app/consent/audit.py:334-386 | a report holds an error for an event exactly when that event has that fault against the events before it, under its profile and id, and a missing anchor exactly for a profile with too few events |
| AuditChain.AnchorFixesHistory | remembrance-consent/app/consent/audit.py:284-289 | two logs accepted against one anchor agree on every hashed column of the events below it |
| AuditChain.ReportedAnchorsAreOwn | remembrance-consent/app/consent/audit.py:321-322 | the anchors a report hands out are the lengths and heads of the log's chains |
| AuditChain.OwnAnchorsStayAccepted | remembrance-consent/app/consent/audit.py:321-322 | those anchors accept every accepted log that extends the chains |
| AuditChain.EditsAreEachReportedOnce | remembrance-consent/app/consent/audit.py:334-340 | editing type, actor, grant or payload of k events gives exactly k errors, all HASH_MISMATCH, one for each edited event |
| AuditTable.Table.ReadHead | remembrance-consent/app/consent/audit.py:159-164 | the head read is the event with the greatest id of the profile |
| AuditTable.Table.AppendEvent | remembrance-consent/app/consent/audit.py:137-188 | appends one event built on the head with a time not before it; whatever anchors accepted the table still do |
| AuditAppend.FreeKeyIsTheTail | remembrance-consent/app/consent/audit.py:149-153 | an insert that the unique key lets through extends the current last event, however stale its head was |
| AuditAppend.RunKeepsInv | remembrance-consent/app/consent/audit.py:137-188 | every run of reads, inserts, commits and aborts keeps every transaction's view of every chain valid and unforked |
| AuditAppend.AppendersCannotFork | remembrance-consent/app/consent/audit.py:149-170 | for every interleaving and every clock, each profile's committed events are one path from genesis with non-decreasing times, and the table verifies |
| AuditAppend.AnchorsOfARunStayAccepted | remembrance-consent/app/consent/audit.py:321-386 | anchors taken at any moment of a run are honoured at every later one |
| AuditProgress.FreeAppendFinishes | remembrance-consent/app/consent/audit.py:137-188 | from every reachable state, unless another transaction holds uncommitted rows of the profile, an append can be taken to its commit and the chain is longer by its event |
| Ranking.TopOfTop | app.py:219-224 | keeping the newest of one part before adding the rest loses nothing |
| SessionMerge.NotAlreadyPresent | app.py:203-216 | the counting loop keeps item i exactly when earlier copies already used up what the session holds |
| SessionMerge.AddedIsDifference | app.py:203-216 | as multisets of keys, what is added is what came minus what was there |
| SessionMerge.NewestIsSortedPrefix | app.py:219-224 | the first `count` of any listing sorted by date, undated last, file order among equals, are the passages fewer than `count` outrank |
| SessionMerge.MergeSnapshot | app.py:227-263 | the merge as run computes the outcome whose meaning `SessionIdentity` states by the passages' fields, early return included |
| SessionIdentity.AddsTheExcess | app.py:193-216 | of every passage, told apart by source, kind, lower-case text and detail (usage rows by date too), the import adds as many copies as it brings beyond those the session has |
| SessionIdentity.NewPassageFindsItsPlace | app.py:227-243 | a passage that differs from every one in the session in some such field ends up in it, unless the session is full and none of the source's passages in it is older |
| SessionIdentity.RoomyMergeHoldsTheMost | app.py:227-243 | when everything fits, each passage is there as often as the session had it or the import brought it, whichever is more |
| SessionIdentity.NothingElseGetsIn | app.py:231-247 | every passage of the result was in the session or was brought, under the import's source and otherwise unchanged |
| SessionIdentity.KeptExactlyWhen | app.py:219-243 | exactly those of the source's passages stay that have fewer ahead of them, by date and then file order, than there are places |
| SessionIdentity.ResultInOrder | app.py:233-247 | the result lists the kept passages of the session and then the new ones, each in its old order |
| SessionIdentity.ReportedNumbers | app.py:232-263 | the numbers reported for added, skipped and dropped passages |
| SessionIdentity.WatchesAndCategories | app.py:248-263 | watch times are there as often as had or brought, whichever is more, and the categories are those of both |
| SessionMerge.MergeConserves | app.py:227-263 | existing + incoming = result + skipped + dropped, never above the cap, other sources' passages untouched and in order |
| SessionMerge.MergeKeepsSourcesCounted | app.py:253-260 | each source's entry counts its passages, with one entry for each source |
| SessionMerge.NothingNewExactlyWhen | app.py:247-251 | the existing session itself is returned exactly when watches and categories are known and nothing new finds room |
| SessionImports.RepeatIsNoOpExactlyWhen | app.py:203-207 | a repeated import returns the session itself exactly when nothing it misses is new enough to find room |
| SessionImports.RepeatWithoutDropsIsNoOp | app.py:203-207 | it does when the first import dropped nothing |
| SessionImports.RepeatWithDatedKeysIsNoOp | app.py:190-200 | it does whenever keys fix dates, as for dated-identity sources |
| SessionImports.DatedIdentityFixesDate | app.py:190-200 | keys of a dated-identity source fix dates |
| SessionImports.RepeatCanStillChange | app.py:227-263 | for every cap from 1 on and any passages of other sources: a full session and an import with distinct keys whose repeat changes the session |
| SessionImports.ImportIsTop | app.py:237-247 | one import leaves the source with the newest of its old and new passages that fit |
| SessionImports.ImportsAreTop | app.py:237-247 | a sequence of imports leaves the newest of all of them together |
| SessionImports.OrderDoesNotMatter | app.py:237-243 | the order and grouping of the parts of an export do not matter |
| RateLimit.Parameters | remembrance-consent/app/ratelimit.py:37-41 | rate times interval is a minute, and the tolerance is burst - 1 intervals |
| RateLimit.InMemoryGCRA.HitKey | remembrance-consent/app/ratelimit.py:56-66 | the pruned map decides every hit as an unpruned one would over the whole history |
| RateLimit.PruningIsInvisible | remembrance-consent/app/ratelimit.py:64-65 | no hit at or after the moment of pruning can tell the maps apart |
| RateLimit.WindowBound | remembrance-consent/app/ratelimit.py:3-10 | n hits allowed in a window of length W satisfy (n - 1) * T <= W + tolerance |
| RateLimit.AllowedExactlyWhenRoom | remembrance-consent/app/ratelimit.py:56-66 | a hit is allowed exactly when it keeps that bound in every window ending at it, so nothing is refused without need |
| RateLimit.FreshKeyGetsTheBurst | remembrance-consent/app/ratelimit.py:3-10 | a key never seen gets exactly burst hits at one moment |
| RateLimit.RetryAfterIsExact | remembrance-consent/app/ratelimit.py:58-62 | after any history of hits, a refused key is allowed again exactly from now + retry_after on, whatever other keys do |
| Csv.ParseCsv | android/src/local/thesaint/app/SaintData.java:596-623 | the index loop computes what the character-by-character reader specifies |
| Csv.RoundTrip | android/src/local/thesaint/app/SaintData.java:596-623 | every table of non-empty rows, cells written plain, quoted or partly so, rows ended by LF or CRLF, is read back unchanged |
| Csv.UnendedRowSurvivesExactlyWhen | android/src/local/thesaint/app/SaintData.java:621-622 | a last row without a line end is read back exactly when it is not one empty cell |
| Batching.Parts | web/app.js:332-340 | the loop computes the greedy split with right byte totals, keeping all files in order within the limits |
| Batching.WithinCap | web/app.js:328-340 | when no file exceeds the cap, no request does |
| Batching.GreedyIsOptimal | web/app.js:328-340 | no contiguous split within the limits uses fewer requests |

## Left out

- SHA-256, Ed25519, JWT encoding and canonical JSON: a hash is a function parameter, a signature is ideal, and payload checks (depth, size, floats, NUL) are not modelled.
- Unicode rules of purpose and e-mail normalisation, regular expressions for ids and operator names, trimming of names: callers pass the normalised value.
- The order in which PyJWT checks claims: any failing claim refuses the token.
- HTTP, FastAPI, Flask, Celery, Redis, S3 and the file system: only "delete is idempotent", "a transaction is atomic" and "a crash may happen here" are kept; Redis's rate-limit script is not modelled.
- `sweep_stale_revocations`: dispatching a request again is one more run, which `CascadeRuns` already allows at any time.
- `record_purpose_violation` and the audit events of the consent service's other endpoints: they add a row to a chain that `AuditAppend` covers.
- Uniqueness of REVOCATION_CASCADE_COMPLETED and token-freeness of revoked grants for rights actions: the code does not guarantee them, so neither is claimed.
- `ConsentRuns` reads a grant together with its beneficiaries and acknowledgments in one step, and lets deaths and successors be recorded without the actor checks of those endpoints: more runs than the program has.
- Torn ledger writes beyond refusing a partial last line, `create_ledger`, `preview` and `checked_ledger`: the repair is manual and the rest are reads or path checks.
- `erased_at` and other clock readings that no property depends on.
- Files of uploads that were never committed: an interrupted upload can leave a file no row lists, and nothing deletes it.
- The deletion of nominations and erasure requests when a memorial is erased: `Erasure` deletes the rows, `Succession` covers memorials that exist.
- The deletion of `consent_grants` and `consent_controls` when a memorial is erased, while its `consent_events` stay: the agreement of tables and history in `ConsentRecords` is about memorials that exist.
- The transfer's audit rows and the erasure's events in `consent_events`: `Succession` records them in its own log; in `ConsentRecords` they are the events of other modules that a run may add at any point.
- RateLimit.WindowBound: times are real numbers, so rounding of floating-point times is not modelled.
- SessionMerge.MergeSnapshot: the derived fields (term index, map) are not modelled beyond "a finished map is kept exactly when the session itself is returned".
- SessionImports.OrderDoesNotMatter: about passages with distinct keys and distinct dates, the case the design promises; ties between equal dates follow file order and can depend on the order of imports.
- The Java `mergeSnapshot` is not written out a second time: it runs the same steps on the same keys, with a comparator that `SessionMerge.NewestIsSortedPrefix` covers.
- Embedding, clustering and scoring, export adapters, templates, images and the user interface.
