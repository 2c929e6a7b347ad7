# dark-factory: protocols of a managed-agents platform, in Dafny

dark-factory runs agents for many users: it pre-forks pods, seals secrets, issues short-lived run
tokens, drives tool loops with human approval, queues runs, chains its audit log, proxies MCP tools,
caches environment snapshots, saves work when a session dies and resumes it, and reconciles sessions
on Kubernetes. Each of these is a small protocol over shared state. This project models them and
proves what holds over whole runs and under every interleaving.

Each component has a module that follows the source: data, the operations (a class with `modifies`
where the source updates in place, functions where it only computes) and their specification
functions. Where the property is about runs, a second module makes each critical section, Redis
command, store operation, SQL transaction or API call one step of a transition system, lets every
step be interleaved with every other and lets remote calls fail, and proves invariants of all runs.

- `WarmPool`, `WarmPoolRuns`, `WarmPoolPlaces`: the warm pod pool.
- `Secrets`, `SecretsRuns`: envelope encryption with rotation, refining a plain map.
- `RunToken`, `RunTokenRuns`: minting, renewing, validating and revoking run tokens. The token form
  is the compact serialization of section 7.1 of RFC 7515; expiry follows section 4.1.4 of RFC 7519.
- `Harness`, `HarnessLife`, `HarnessPauses`, `HarnessCounts`, `HarnessOverlap`,
  `HarnessTranscript`: the agent loop across Run and any number of Resumes, one after the other or
  overlapping.
- `Orchestrator`, `OrchestratorRuns`, `OrchestratorIdem`, `OrchestratorDelivery`,
  `OrchestratorOrder`, `OrchestratorAlone`, `OrchestratorLive`: sharded streams, idempotency claims and workers.
- `AuditChain`, `AuditTamper`: the hash chain, from the trigger that builds it to the walk that checks
  it, and exactly which changes the walk notices.
- `McpProxy`, `McpCache`: tool names, tool filtering, calls, and the racing connection cache.
- `CacheKey`, `Snapshots`, `SnapshotRuns`: content addresses, scrubbing, building, evicting.
- `BlobStore`, `StopHook`, `SessionResume`, `SessionLife`: session end and resume.
- `Operator`, `OperatorRuns`: the session phase machine.
- `Text`, `Enumeration`, `Wrappers`: cutting and searching strings, decimals, options and results.

AES-GCM, HMAC, SHA-256, base64, JSON and the policy engine are parameters: functions with round-trip
or injectivity laws as hypotheses. Statements about a hash are of the form "this holds, or two
preimages found in the logs collide". Clocks, random values, fork ids, runner output and replies of
remote calls are inputs of the step that uses them. In strings a character stands for a byte, or for
a rune where the source ranges over runes.

## Where code and comments differ

The model follows the code.

- Replenish says it respects the per-key cap. It counts before it forks, so overlapping calls each
  fill up to the cap: `CapKeptIffOneRefill`.
- KEKVersion is described as the version used to wrap new keys. It is used to unwrap old ones too:
  `KekVersionIsFixed`.
- Revocation is meant to last for the rest of a token's validity. Revoking an older token of the
  same id shortens it (`OlderRevocationRevives`, `OlderRevocationRun`), and a renewal that passed its
  check before the revocation gets a token that outlives it (`RenewalEscapesIff`, `RenewalEscapeRun`).
- Resume saves its state with status awaiting_approval and an empty pending tool, so a second
  approval looks up the tool named "": `GrantsKeptIff`. Failed saves are ignored, so an approval can
  be spent twice: exactly when no save arrived in between (`RunsAgainIffNoSave`, `OncePerPauseIff`,
  and `OverlapRunsOnceIff` for Resumes that overlap).
- The loop is said to enforce maxSteps. A Resume starts from the step in the checkpoint, so steps
  whose saves were lost are taken again and the limit is passed (`LostSavesPassTheLimit`); no step is
  lost exactly if between any two redeeming Resumes a save arrived or nothing was completed
  (`NoStepLostIff`). Overlapping Resumes of one pause pass it with every save arriving
  (`OverlapPassesTheLimit`).
- Un-acked entries are said to be left for redelivery. Workers only read never-delivered entries, so
  a failed run is not retried: `FailedIsNeverRetried`.
- An idempotent replay is said to return the original run. If the claimer's append failed there is
  no such run: `ClaimWithoutRun`; there is one exactly if that append took effect:
  `ReturnedRunExistsIff`.
- The audit migration says any tampering is detected. An entry before the last can be replaced
  unnoticed exactly if one of its texts holds the separator (`ReplaceableIff`), the last one by
  anything with a recomputed hash (`LastReplacedIff`), the newest entries can be cut off
  (`PrefixVerified`), and `occurred_at` is in no hash at all; and inserts that do not see their
  predecessor break the chain with no tampering (`BuiltVerifiesIffSerial`).
- Tool namespacing is called collision-safe. Two servers share a tool name exactly if one is the
  other with "_" added or starts with the other and "__": `NamesCollideIff`.
- The cache key is said to cover all inputs. It ignores the order of the setup steps and the border
  between builder version and patch level: `KeyIgnores`.
- The hook is said to save work per repository. Repositories after the one that hit the grace limit
  are not listed (`Reached`), origins that look alike once sanitized overwrite each other's diff
  (`DiffRecoveredIff`, `LookAlikeLost`), and Resume keeps one diff only (`ResumeRecovers`).
- The lifetime cap of a session is called hard. It is not looked at before the session is Running, and
  it counts from the last provisioning: `CapBindsIff`, `NeverRunningNeverTerminated`,
  `StartIsLastProvisioning`.

## Model

| member | source | states |
|---|---|---|
| `WarmPool.Pool.constructor` | internal/warmpool/pool.go:40-48 | a new pool holds its limits and no pods |
| `WarmPool.Pool.Size` | internal/warmpool/pool.go:126-130 | the length of a key's queue, zero for an unknown key |
| `WarmPool.Pool.TakeOldest` | internal/warmpool/pool.go:57-65 | the locked part of Acquire removes exactly the head of the key's queue, or reports that there is none |
| `WarmPool.Pool.Add` | internal/warmpool/pool.go:90-92 | the locked part of a refill appends one entry with its fork time and touches no other queue |
| `WarmPool.Pool.Replenish` | internal/warmpool/pool.go:74-96 | alone and without a failed fork the queue ends as long as it was or as the smaller of target and cap, whichever is more; the pods are appended in fork order, and a failed fork stops it short of both |
| `WarmPool.Pool.Sweep` | internal/warmpool/pool.go:99-115 | the locked part of ScaleDown filters every queue and reports the dropped ids of every key visited once, in whatever key order |
| `WarmPool.Pool.SweepQueue` | internal/warmpool/pool.go:105-112 | the inner loop splits a queue into kept entries and dropped ids, both in order |
| `WarmPoolRuns.CapStep` | internal/warmpool/pool.go:56-123 | every step keeps: queue length plus what in-flight refills may still add is at most c caps |
| `WarmPoolRuns.CapacityBound` | internal/warmpool/pool.go:56-123 | in every interleaving with at most c refills of a key in flight its queue never exceeds c times the cap |
| `WarmPoolRuns.CapacityReached` | internal/warmpool/pool.go:76-96 | the bound is tight: for every c and cap some run with at most c refills in flight reaches it exactly |
| `WarmPoolRuns.CapKeptIffOneRefill` | internal/warmpool/pool.go:74-96 | every interleaving with at most c refills in flight keeps the cap if and only if c is at most 1 or the cap is 0 |
| `WarmPoolRuns.RefillAddsMissing` | internal/warmpool/pool.go:74-96 | in every interleaving a refill that returns without a failed fork added exactly what was missing, when it counted, from the smaller of target and cap |
| `WarmPoolPlaces.KeptAre` | internal/warmpool/pool.go:106-112 | a sweep keeps an entry exactly if it is younger than the idle limit |
| `WarmPoolPlaces.SweepSplits` | internal/warmpool/pool.go:103-114 | a sweep partitions the ids of a queue into kept and dropped |
| `WarmPoolPlaces.VictimsFrom` | internal/warmpool/pool.go:104-114 | an id is reported exactly if some visited queue dropped it |
| `WarmPoolPlaces.VictimsDistinct` | internal/warmpool/pool.go:104-114 | no id is reported twice when no pod is in two queues |
| `WarmPoolPlaces.OnePlace` | internal/warmpool/pool.go:56-123 | in every state of every interleaving each forked pod is in exactly one place: held by one call, pooled under its own key, handed to one session, or picked for destruction once |
| `WarmPoolPlaces.QueuesOrdered` | internal/warmpool/pool.go:56-123 | under a nondecreasing clock every queue stays sorted by fork time in every interleaving |
| `WarmPoolPlaces.AcquireTakesOldest` | internal/warmpool/pool.go:57-63 | Acquire hands out a pod than which none pooled for the key is older, and removes that one only |
| `WarmPoolPlaces.SweepRemovesPrefix` | internal/warmpool/pool.go:103-114 | on a sorted queue a sweep removes a prefix and reports it in order |
| `Secrets.OpenUndoesSeal` | internal/secrets/manager.go:60-89 | opening a sealed text with its key and additional data gives the text back, through the nonce prefix |
| `Secrets.DekAadInjective` | internal/secrets/manager.go:116-117 | the additional data of a wrapped key determines organisation and version |
| `Secrets.DekAadLayout` | internal/secrets/manager.go:116-117 | it is the organisation and then the version in four bytes |
| `Secrets.VersionBytesValue` | internal/secrets/manager.go:328-332 | the four big-endian bytes of a version read back as the version |
| `Secrets.WrapUnwraps` | internal/secrets/manager.go:97-118 | a data key that was wrapped and stored is found and unwrapped again |
| `Secrets.Manager.CurrentVersion` | internal/secrets/manager.go:124-129 | the largest key version of an organisation, 0 if it has none |
| `Secrets.Manager.Put` | internal/secrets/manager.go:158-190 | Put alone is the Put transaction on the tables, all or nothing |
| `Secrets.Manager.Get` | internal/secrets/manager.go:193-226 | the plaintext exactly for the owner of a row that decrypts, if the access can be logged, else the first error; the audit table gains exactly the row for a refusal or a success, and none for a row that does not decrypt |
| `Secrets.Manager.Delete` | internal/secrets/manager.go:229-240 | Delete removes the row only for its own organisation and user, then logs |
| `Secrets.Manager.RotateOrgDEK` | internal/secrets/manager.go:244-326 | a rotation alone is the rotation transaction: a new version and every row of the organisation re-encrypted, or nothing |
| `Secrets.Manager.ResealAll` | internal/secrets/manager.go:290-319 | the batch loop re-encrypts all rows of the organisation, in whatever order, or fails |
| `SecretsRuns.PutWorksIff` | internal/secrets/manager.go:158-190 | a Put succeeds exactly if its id is new and it saw a key version, whatever rotated since, or can make the first one; its row is sealed under that version |
| `SecretsRuns.RotationKeepsPlaintexts` | internal/secrets/manager.go:244-326 | a rotation fails on no readable row, moves each row of the organisation to the new version, and changes no plaintext and no other organisation's row |
| `SecretsRuns.Refines` | internal/secrets/manager.go:97-326 | each step of the encrypted store is the matching step of a plain map from id to organisation, user and plaintext |
| `SecretsRuns.RefinesPlainMap` | internal/secrets/manager.go:97-326 | so is every run of Put, Get, Delete and rotation, with rotations committing between a Put's key read and its insert |
| `SecretsRuns.ReadableIsPlain` | internal/secrets/manager.go:193-209 | a Get is admitted exactly if the plain map holds the id for that organisation and user |
| `SecretsRuns.GetAnswers` | internal/secrets/manager.go:193-226 | told by the plain map: Get gives the plaintext exactly to the owner, NotFound exactly if the organisation has no such id, WrongTenant exactly if it is another user's, with one audit row that says which; and no answer if that row cannot be written |
| `SecretsRuns.GetAlone` | internal/secrets/manager.go:193-226 | Get alone is its two steps in a row, with the same answer and the same tables |
| `SecretsRuns.FinishInv` | internal/secrets/manager.go:209-225 | a Get that read its row opens it whatever committed since, and keeps the invariant |
| `SecretsRuns.GetReturnsWhatItRead` | internal/secrets/manager.go:193-226 | over any run an admitted Get returns the plaintext the map held when it read its row, despite later rotations and deletions |
| `SecretsRuns.KekVersionIsFixed` | internal/secrets/manager.go:97-118 | a wrapped key is readable under another KEK version exactly if both versions derive the same key |
| `RunToken.UnixStrict` | internal/runtoken/service.go:113-130 | an earlier Unix second is an earlier instant |
| `RunToken.DecodeUndoesEncode` | internal/runtoken/service.go:191-220 | decoding an encoded token gives its claims |
| `RunToken.DecodeAccepts` | internal/runtoken/service.go:200-220 | a text is accepted exactly if it is two dot-free parts and their signature, and the second part holds claims |
| `RunToken.IssueBounds` | internal/runtoken/service.go:113-130 | a token is issued exactly if the deadline is ahead; it carries request and id and expires 15 minutes from now or at the deadline, whichever is sooner |
| `RunToken.MintsIff` | internal/sessionstore/checker.go:37-64 | a session hands out tokens exactly while it exists, is not Terminated and has its lifetime and its TTL ahead |
| `RunToken.Revocations.Revoke` | internal/runtoken/revocations.go:18-20 | an entry ends at now plus its lifetime, replacing any earlier entry |
| `RunToken.Revocations.Contains` | internal/runtoken/revocations.go:23-29 | an id is revoked exactly while its entry has not ended |
| `RunToken.Service.constructor` | internal/runtoken/service.go:73-81 | a service over a codec and a revocation store, if any |
| `RunToken.Service.Validate` | internal/runtoken/service.go:156-174 | signature, then expiry in whole seconds, then revocation where there is a store and it answers, with the first error that applies |
| `RunToken.ValidateAnswers` | internal/runtoken/service.go:156-174 | the claims come back exactly for a token that decodes, has not expired and is not on record in the store, if there is one; and which error it is otherwise |
| `RunToken.Service.Revoke` | internal/runtoken/service.go:177-187 | an expired token changes nothing; a live one is entered for its remaining whole seconds, unless the store fails |
| `RunTokenRuns.NewToken` | internal/runtoken/service.go:98-152 | a step that issues a token does so in a live session, with the identity of the mint behind its id |
| `RunTokenRuns.TokensKeepIdentity` | internal/runtoken/service.go:98-152 | over every run each token keeps run, session, agent, user, organisation, grants and servers of the one mint of its id, through any chain of renewals |
| `RunTokenRuns.NoTokenOutlivesSession` | internal/runtoken/service.go:98-174 | a token that Validate accepts, whatever its store holds, belongs to a session that was alive less than 15 minutes ago and whose then deadline is ahead |
| `RunTokenRuns.DeadlineIsHard` | internal/sessionstore/checker.go:37-64 | with a fixed deadline, the smaller of creation plus lifetime and TTL, Validate accepts no token of the session at or after it, whatever its store holds |
| `RunTokenRuns.EntryOutlivesExpiry` | internal/runtoken/service.go:177-187 | a revocation entry ends at or after the token's expiry second, and less than a second later |
| `RunTokenRuns.CoveredNeverValid` | internal/runtoken/service.go:156-187 | while an entry covers an id to some second, no token of it that expires by then validates |
| `RunTokenRuns.RevokeCovers` | internal/runtoken/service.go:177-187 | revoking a token covers its id to its expiry |
| `RunTokenRuns.RenewIsBoth` | internal/runtoken/service.go:134-152 | Renew is its check and its issue in a row |
| `RunTokenRuns.StaysCovered` | internal/runtoken/service.go:156-187 | in every run, whatever renewals are under way, the id stays covered unless an older token of it is revoked |
| `RunTokenRuns.RevokedForGood` | internal/runtoken/service.go:134-187 | once the newest token of an id is revoked with no renewal of it under way, no token of the id validates and none is issued, in every run without revocation of an older token |
| `RunTokenRuns.RefusedForGood` | internal/runtoken/service.go:134-187 | so from then on Validate refuses every token of the id |
| `RunTokenRuns.RevokedIsRefused` | internal/runtoken/service.go:156-187 | after a revocation Validate refuses the token at every later instant while the entry is let be, and answers for other ids as before |
| `RunTokenRuns.RenewalEscapesIff` | internal/runtoken/service.go:134-152 | a token issued by a renewal under way can validate later if and only if it expires after the revoked one |
| `RunTokenRuns.RenewalEscapeRun` | internal/runtoken/service.go:134-152 | a run in which it does |
| `RunTokenRuns.OlderRevocationRun` | internal/runtoken/service.go:177-187 | a run in which revoking the older of two tokens revives the newer |
| `RunTokenRuns.OlderRevocationRevives` | internal/runtoken/revocations.go:18-20 | the proviso is exact: a sibling can validate again if and only if it expires later than the token revoked last |
| `Harness.Granted` | internal/harness/harness.go:216-223 | the search loop decides membership |
| `Harness.BuildSpecs` | internal/harness/harness.go:203-214 | one spec per grant entry whose tool exists, in grant order: a tool is shown exactly if it is granted |
| `Harness.SpecsInOrder` | internal/harness/harness.go:203-214 | a list of grants shows what its parts show, in order |
| `Harness.Loop.constructor` | internal/harness/harness.go:95-101 | a harness over tools, step limit and an empty checkpoint store |
| `Harness.Loop.Respond` | internal/harness/harness.go:123-155 | the switch on the answer: end, refusal, pause or execution, each with its save |
| `Harness.Loop.Run` | internal/harness/harness.go:105-157 | the loop, with every branch and save, is the loop function; it ends because the step count meets the limit |
| `Harness.Loop.Resume` | internal/harness/harness.go:160-185 | what it saves, the state and the error it returns: no checkpoint, nothing pending, declined, or executed, cleared, saved and run on |
| `HarnessCounts.TurnInv` | internal/harness/harness.go:108-156 | one pass of the loop keeps steps and messages conserved, whether its save arrives or not, and stays within the step limit |
| `HarnessCounts.LifeInv` | internal/harness/harness.go:105-201 | so do one Run and any Resumes, whichever saves arrive |
| `HarnessLife.GrantsAndApprovals` | internal/harness/harness.go:105-201 | over a life, whichever saves arrive, every executed tool was granted at the first Run, and one that needs approval runs only in an approved Resume with the name and input of the pause its checkpoint held |
| `HarnessCounts.AccurateAgainIff` | internal/harness/harness.go:160-185 | from a pending checkpoint that counts every step, an approved Resume that leaves the run pending leaves such a checkpoint if and only if a save of it arrived or it completed nothing |
| `HarnessCounts.NoStepLostIff` | internal/harness/harness.go:105-201 | over any life every redeeming Resume starts with every step counted if and only if between any two of them a save arrived or nothing was completed |
| `HarnessCounts.NoMessageLostIff` | internal/harness/harness.go:105-201 | over any life no message is lost if and only if between any approved Resume with a tool to execute and any later approved Resume some save arrived |
| `HarnessCounts.BoundedAndCounted` | internal/harness/harness.go:105-201 | over any life, whichever saves arrive: completions stay within the limit but for the steps lost, saved transcripts only extend, and the checkpoint's messages are counted by completions, executions and approvals exactly if nothing is unsaved or lost |
| `HarnessCounts.ReliableLosesNothing` | internal/harness/harness.go:105-201 | a store that takes every save leaves nothing unsaved or lost |
| `HarnessCounts.LostSavesPassTheLimit` | internal/harness/harness.go:109-120 | an instance: with two steps allowed and lost saves, two approvals complete three times |
| `HarnessPauses.ResumeGrows` | internal/harness/harness.go:160-185 | a Resume executes the pause its checkpoint holds first, exactly if it is approved and finds the tool, and no other pause |
| `HarnessPauses.RunsAgainIffNoSave` | internal/harness/harness.go:160-185 | from any world that holds a pause, a second approved Resume runs it again if and only if no save of the first reached the store |
| `HarnessPauses.OncePerPauseIff` | internal/harness/harness.go:105-201 | over any life each pause runs at most once if and only if between any approved Resume with a tool to execute and any later approved Resume some save arrived |
| `HarnessPauses.ReliableRunsOnce` | internal/harness/harness.go:105-201 | so with a store that takes every save each pause runs at most once |
| `HarnessPauses.LostSaveRunsTwice` | internal/harness/harness.go:177-184 | an instance: the save after an approved execution is lost and the approval executes again |
| `HarnessPauses.GrantsKeptIff` | internal/harness/harness.go:160-185 | a harness with an approval tool keeps to its grants in every life, whichever saves arrive, if and only if no tool has the empty name |
| `HarnessOverlap.OverlapKeepsGrants` | internal/harness/harness.go:105-201 | grants and approvals hold however Runs and Resumes of a run interleave |
| `HarnessOverlap.OverlapKeepsLimit` | internal/harness/harness.go:105-185 | in every interleaving in which between any two approved loads of a tool a save arrived, completions stay within the limit |
| `HarnessOverlap.OverlapPassesTheLimit` | internal/harness/harness.go:160-185 | two overlapping approvals of one pause pass the limit although every save arrives |
| `HarnessOverlap.OverlapRunsOnceIff` | internal/harness/harness.go:160-185 | in every interleaving, once every approved Resume has executed, each pause ran at most once if and only if between any two approved loads of a tool a save arrived |
| `HarnessTranscript.TurnTold` | internal/harness/harness.go:108-156 | one pass appends the answer of the model and, right behind it, the output of the tool it asked for |
| `HarnessTranscript.RunTold` | internal/harness/harness.go:105-157 | the state a fresh Run returns holds every answer and every tool output, in order |
| `HarnessTranscript.ResumeTold` | internal/harness/harness.go:160-201 | a Resume appends the approval, the output of the approved tool and then what the loop appends |
| `HarnessTranscript.LifeTold` | internal/harness/harness.go:105-201 | over any life, whichever saves arrive, the checkpoint's transcript is what the run began with and then its answers, approvals and outputs in order; all of them if nothing is unsaved or lost |
| `HarnessTranscript.TurnEnds` | internal/harness/harness.go:108-156 | a pass goes on exactly after a granted tool that needs no approval, and its save holds the state it goes on with |
| `HarnessTranscript.RunEnds` | internal/harness/harness.go:105-157 | why a Run returns and what its state then says: the final text is the last answer exactly without error and without a pause |
| `HarnessTranscript.DeclinedIsFinal` | internal/harness/harness.go:168-175 | a declined Resume executes nothing, adds no message and, once saved, is final |
| `Orchestrator.HashUser` | internal/orchestrator/orchestrator.go:69-71 | the hash loop is 32-bit FNV-1a |
| `Orchestrator.FnvValues` | internal/orchestrator/orchestrator.go:69-71 | published values of 32-bit FNV-1a |
| `Orchestrator.ShardFor` | internal/orchestrator/orchestrator.go:69-73 | a shard below the count, fixed by user and the low 32 bits of the count |
| `Orchestrator.ShardValues` | internal/orchestrator/orchestrator.go:69-73 | instances: the shard of a user for two shard counts |
| `Orchestrator.StreamNamesDiffer` | internal/orchestrator/orchestrator.go:75-77 | different shard and priority have different stream names |
| `Orchestrator.Broker.constructor` | internal/orchestrator/orchestrator.go:55-67 | a nonpositive shard count becomes 8 |
| `Orchestrator.Broker.Enqueue` | internal/orchestrator/orchestrator.go:81-115 | alone: budget, then claim or the claimer's run id, then an append of the request, with its enqueue time filled in, to the user's stream |
| `Orchestrator.EnqueuedIsFound` | internal/orchestrator/orchestrator.go:81-115 | a request that went through is the last entry of its user's stream and decodes to itself, with a time if it had none; nothing else changed |
| `Orchestrator.Broker.WorkerTurn` | internal/orchestrator/orchestrator.go:138-177 | one worker turn delivers, for each stream that the read returned, its next entry, hands a decodable one to the handler, acks an undecodable or well handled one, and touches no other stream |
| `OrchestratorAlone.EnqueueAlone` | internal/orchestrator/orchestrator.go:81-115 | the undisturbed Enqueue is a run of the interleaved steps |
| `OrchestratorAlone.TurnAlone` | internal/orchestrator/orchestrator.go:138-177 | the undisturbed worker turn is a run of the interleaved steps |
| `OrchestratorIdem.EntriesWithinClaims` | internal/orchestrator/orchestrator.go:81-115 | over every interleaving a key has at most as many entries as claims, and one claim more than expiries |
| `OrchestratorIdem.OneRunPerKey` | internal/orchestrator/orchestrator.go:88-115 | within one window at most one entry per key is appended and every Enqueue that returns without error returns the claimer's run id |
| `OrchestratorIdem.ReturnedRunExistsIff` | internal/orchestrator/orchestrator.go:88-114 | in every interleaving within a window, a returned run id is that of an entry with the key if and only if the claimer's append took effect |
| `OrchestratorIdem.ClaimerReturned` | internal/orchestrator/orchestrator.go:88-114 | which it did whenever the claimer's own Enqueue returned without error |
| `OrchestratorIdem.ClaimWithoutRun` | internal/orchestrator/orchestrator.go:88-114 | an instance: the append fails, and a replay returns a run that no stream holds |
| `OrchestratorDelivery.AtMostOnce` | internal/orchestrator/orchestrator.go:122-178 | over every run with any workers each entry is exactly one of undelivered, pending or acked, reaches a handler at most once, and is acked only if undecodable or handled without error |
| `OrchestratorDelivery.FailedIsNeverRetried` | internal/orchestrator/orchestrator.go:132-173 | an entry whose handler failed stays pending forever: never acked, never handled again |
| `OrchestratorOrder.OfOn` | internal/orchestrator/orchestrator.go:69-77 | one stream carries all of a user's requests at a priority |
| `OrchestratorOrder.CarriesStep` | internal/orchestrator/orchestrator.go:103-114 | every step keeps: a stream decodes to the requests enqueued to it, in order |
| `OrchestratorOrder.UserOrder` | internal/orchestrator/orchestrator.go:69-178 | with one worker on a shard, in every state of every run the handler calls for a user and priority are a prefix of that user's enqueues at that priority |
| `OrchestratorAlone.TwoWorkersReorder` | internal/orchestrator/orchestrator.go:122-178 | with two workers on the shard some run handles a user's second run before the first |
| `OrchestratorLive.OrderAcrossRestarts` | internal/orchestrator/orchestrator.go:122-178 | with at most one live worker at a time, stopped and replaced at will, the handler calls for a user and priority are a subsequence of that user's enqueues |
| `OrchestratorLive.OrderIffOneWorker` | internal/orchestrator/orchestrator.go:69-178 | every run with at most c live workers at a time keeps each user's order if and only if c is at most 1 |
| `AuditChain.InsertKeeps` | internal/db/migrations/006_audit_chain.up.sql:7-19 | a row chained to its predecessor keeps the log verified and ids ascending |
| `AuditChain.PreimageExample` | internal/auditlog/store.go:100-104 | the order of the hashed columns, by an instance |
| `AuditChain.Store.Insert` | internal/db/migrations/006_audit_chain.up.sql:7-19 | the trigger links the new row to the last one and hashes it |
| `AuditChain.Store.VerifyChain` | internal/auditlog/store.go:109-133 | the walk returns the full length of a verified log, or stops at the first row that fails |
| `AuditChain.Store.Tamper` | internal/auditlog/store.go:138-154 | rewrites the decision of the row with that id and nothing else |
| `AuditChain.SerialVerifies` | internal/db/migrations/006_audit_chain.up.sql:7-19 | every log built by serialized inserts verifies with its full length |
| `AuditChain.BuiltVerifiesIffSerial` | internal/db/migrations/006_audit_chain.up.sql:7-19 | a built log verifies exactly if every insert saw its immediate predecessor, not an earlier nor a later row; or preimages collide |
| `AuditTamper.LegibleBody` | internal/auditlog/store.go:100-104 | the hashed text tells the entry if one of two entries has no separator in its texts |
| `AuditTamper.HeadDeterminesLog` | internal/auditlog/store.go:100-133 | a verified log with texts free of the separator is the only verified log with its last hash, or preimages collide |
| `AuditTamper.HeadDeterminesLogIff` | internal/auditlog/store.go:100-133 | the last hash determines a verified log if and only if its texts are free of the separator, up to collisions |
| `AuditTamper.EditChangesBody` | internal/auditlog/store.go:100-104 | changing one hashed text changes the preimage, whatever the texts hold |
| `AuditTamper.EditDetected` | internal/auditlog/store.go:109-154 | changing one text or hash of one row makes the walk stop exactly there, or preimages collide |
| `AuditTamper.IdEditDetected` | internal/auditlog/store.go:100-133 | changing the id of a row makes the walk stop in its old or its new place, whichever comes first, or preimages collide |
| `AuditTamper.DeletionDetectedUnlessLast` | internal/auditlog/store.go:109-133 | deleting a row makes the walk stop at the gap, unless it was the last row, which goes unnoticed |
| `AuditChain.PrefixVerified` | internal/auditlog/store.go:109-133 | cutting rows off the end leaves a verified log |
| `AuditTamper.ReplacedIff` | internal/auditlog/store.go:109-133 | a replaced row goes unnoticed exactly if it is chained to the row before and, unless last, has the hash the next row commits to |
| `AuditTamper.LastReplacedIff` | internal/auditlog/store.go:109-133 | the last row can be replaced by exactly the rows with a recomputed hash |
| `AuditTamper.ReplaceableIff` | internal/auditlog/store.go:100-133 | a row before the last can be replaced by another unnoticed if and only if one of its five texts holds the separator, or preimages collide |
| `McpProxy.SplitUndoesNamespaceIff` | internal/mcpproxy/proxy.go:193-205 | splitting undoes naming exactly for a nonempty server without "__" and trailing "_", and a nonempty tool |
| `McpProxy.NamesNeverCollide` | internal/mcpproxy/proxy.go:193-205 | so names of splittable servers determine server and tool |
| `McpProxy.NamesCollideIff` | internal/mcpproxy/proxy.go:193-195 | two servers have tools with one name if and only if one server is the other with "_" added or starts with the other and "__" |
| `McpProxy.SplitFindsTheTool` | internal/mcpproxy/proxy.go:141-145 | for any server, a name that splits to it splits to the tool it was built from |
| `McpProxy.MatchesAny` | internal/mcpproxy/proxy.go:207-222 | the loop decides whether some glob is "*", equals the name, or is a prefix ending in '*' |
| `McpProxy.ExposedTools` | internal/mcpproxy/proxy.go:117-136 | the loop lists, in order, the tools that pass globs and policy |
| `McpProxy.ExposedAre` | internal/mcpproxy/proxy.go:107-137 | a tool is shown exactly if it is listed and globs and policy admit it, with its description and schema |
| `McpProxy.ExposedInOrder` | internal/mcpproxy/proxy.go:117-136 | what a list exposes is what its parts expose, in order |
| `McpProxy.MatchMeans` | internal/mcpproxy/proxy.go:207-222 | a name passes exactly if the list holds it, or a beginning of it and then a star |
| `McpProxy.ScopesDiffer` | internal/mcpproxy/proxy.go:117-136 | tools of one server have different scopes |
| `McpProxy.ScopesCollideIff` | internal/mcpproxy/proxy.go:117-136 | tools of two servers can share a scope exactly if one server name starts with the other and ":" |
| `McpProxy.Call` | internal/mcpproxy/proxy.go:141-183 | a request leaves exactly if the name splits to this server and a tool that the caller's session lists and policy admits; the answer returns exactly if it is JSON within the cap |
| `McpCache.Cache.constructor` | internal/mcpproxy/proxy.go:61-69 | no connections |
| `McpCache.Cache.Lookup` | internal/mcpproxy/proxy.go:82-88 | the cached session of the key, if any |
| `McpCache.Cache.Install` | internal/mcpproxy/proxy.go:94-101 | a racing session is closed in favour of the cached one, otherwise it is cached |
| `McpCache.Cache.CloseAll` | internal/mcpproxy/proxy.go:72-79 | every cached session is closed once and the cache is empty |
| `McpCache.OnePlace` | internal/mcpproxy/proxy.go:72-102 | in every interleaving each dialled session is exactly one of held, cached for its own organisation, user and server, or closed, and is closed at most once |
| `CacheKey.SortedUnique` | internal/environments/snapshot.go:31-39 | a collection of strings has one sorted arrangement, so neither sort nor map order matters |
| `CacheKey.CollectPins` | internal/environments/snapshot.go:35-38 | the range over the pins gives every pin once, in any order |
| `CacheKey.CacheKey` | internal/environments/snapshot.go:30-55 | the key is the hash of a preimage told without step order or map order |
| `CacheKey.KeyExample` | internal/environments/snapshot.go:30-55 | the layout of the hashed bytes, by an instance |
| `CacheKey.PinsInjective` | internal/environments/snapshot.go:35-39 | with '@'-free SHAs the pins determine the map |
| `CacheKey.SamePreimageIff` | internal/environments/snapshot.go:30-55 | two requests free of the separators have equal preimages exactly if digests, step multisets, pin maps and builder version plus patch level are equal |
| `CacheKey.SameKeyIff` | internal/environments/snapshot.go:30-55 | so their keys are equal exactly then, unless their preimages collide |
| `CacheKey.KeyIgnores` | internal/environments/snapshot.go:30-55 | any permutation of the steps, and any shift of text between version and patch level, keeps the key |
| `Text.IndexOf` | internal/environments/snapshot.go:82-89 | the search loop finds the first occurrence, or reports none |
| `Snapshots.DefaultScrubber` | internal/environments/snapshot.go:68-89 | passes exactly if no pattern occurs anywhere, else reports the first pattern that does |
| `Snapshots.Builder.constructor` | internal/environments/snapshot.go:131-136 | nothing stored, nothing touched |
| `Snapshots.Builder.NoteBuild` | internal/environments/snapshot.go:180-187 | touches one key |
| `Snapshots.Builder.Build` | internal/environments/snapshot.go:147-172 | a stored key is served and touched; otherwise only a clean runner output is stored, touched and returned, and a failure changes nothing |
| `Snapshots.Builder.Rebuild` | internal/environments/snapshot.go:175-178 | never served from the cache; on failure the old snapshot is gone and its touch stays |
| `Snapshots.Builder.Expire` | internal/environments/snapshot.go:202-210 | the first loop, in any key order, drops exactly what reached ttl |
| `Snapshots.Builder.Cap` | internal/environments/snapshot.go:212-216 | the second loop drops a prefix of the sorted live entries until the cap holds, and panics with everything dropped exactly if the cap is negative |
| `Snapshots.Builder.Evict` | internal/environments/snapshot.go:191-218 | survivors are younger than ttl, as many as the cap allows, none dropped by the cap was touched later than one kept, snapshots go with touches, and the count is right; it panics exactly for a negative cap |
| `SnapshotRuns.OnlyScrubbedOutputs` | internal/environments/snapshot.go:147-178 | in every interleaving each stored or returned snapshot is the runner's output for a request with that key and passed the scrubber |
| `SnapshotRuns.OnlyCleanOutputs` | internal/environments/snapshot.go:68-172 | with the default scrubber no pattern occurs in a stored snapshot |
| `SnapshotRuns.AfterEvict` | internal/environments/snapshot.go:191-218 | when an Evict ends, in any interleaving, what it leaves is as above, and at most maxEntries snapshots are stored besides those put and not yet touched |
| `BlobStore.ParseUndoesRefIff` | internal/adapters/adapters.go:69-95 | parsing undoes printing a reference exactly if bucket and key hold no space and the bucket no '/' |
| `BlobStore.WordIs` | internal/adapters/adapters.go:85-95 | what scanning a reference finds behind leading space, up to the next space |
| `BlobStore.S3.Upload` | internal/adapters/adapters.go:69-82 | stores under bucket and key and returns the reference; or fails, with nothing stored or with its reply lost |
| `BlobStore.S3.Fetch` | internal/adapters/adapters.go:85-114 | parses the reference and returns the object's body put together from its chunks, if the store answers |
| `BlobStore.ConcatInOrder` | internal/adapters/adapters.go:100-114 | a body is put together in the order its chunks arrive |
| `BlobStore.CutLoop` | internal/adapters/adapters.go:90-95 | the loop cuts at the first '/', or leaves the bucket empty |
| `StopHook.ErrorsIs` | internal/stophook/hook.go:15-27 | finds the target exactly if it is in the chain of wrapped errors |
| `StopHook.ChainIs` | internal/stophook/hook.go:15-27 | the chain holds an error exactly if unwrapping so and so often leads to it |
| `StopHook.Sanitize` | internal/stophook/hook.go:155-165 | every rune outside letters, digits, '-' and '.' becomes '-' |
| `StopHook.BlobKeyIff` | internal/stophook/hook.go:121-130 | two blob keys are equal exactly for one session and origins equal once sanitized, whatever the session ids |
| `StopHook.Reached` | internal/stophook/hook.go:109-138 | how many repositories the hook gets to: all, or up to the first that hits the grace limit |
| `StopHook.GetsTo` | internal/stophook/hook.go:109-138 | the hook gets to a repository exactly if no push before it failed with a deadline in its error or with the grace period over |
| `StopHook.ManifestSays` | internal/stophook/hook.go:109-138 | what was pushed carries its head and its pull request, what was not is uncommitted and refers to its blob |
| `StopHook.Hook.constructor` | internal/stophook/hook.go:88-93 | a hook over a blob store and no manifests; a zero grace becomes 120 seconds |
| `StopHook.Hook.PushOne` | internal/stophook/hook.go:110-137 | one repository is pushed, or its diff uploaded and referred to |
| `StopHook.Hook.PushAll` | internal/stophook/hook.go:109-138 | the loop lists the reached repositories in order and uploads exactly the diffs of failed pushes, or fails at the first failed upload |
| `StopHook.Hook.Run` | internal/stophook/hook.go:98-140 | succeeds exactly if uploads and save do; then the manifest lists the repositories in order, all unless the last listed hit the grace limit, each pushed or uncommitted, and is saved |
| `StopHook.Hook.Emit` | internal/stophook/hook.go:142-153 | the manifest is saved if there is a persister, and returned unless saving fails |
| `SessionResume.ResolveBranches` | internal/resume/resume.go:123-141 | warnings and open PRs of every pushed branch, in order |
| `SessionResume.BranchWarnings` | internal/resume/resume.go:123-141 | which warnings come from which branches |
| `SessionResume.PrsAreOpen` | internal/resume/resume.go:123-141 | the open pull requests are exactly those of pushed branches that exist or are merged |
| `SessionResume.WarningsInOrder` | internal/resume/resume.go:123-141 | warnings come in the order of the branches, one at most for each |
| `SessionResume.PrsInOrder` | internal/resume/resume.go:123-141 | so do pull requests |
| `SessionResume.RecoverDiffs` | internal/resume/resume.go:160-172 | one warning per uncommitted entry with a reference, and the last diff that could be fetched |
| `SessionResume.DiffWarnings` | internal/resume/resume.go:160-172 | which warnings come from which uncommitted entries |
| `SessionResume.LastDiffMeans` | internal/resume/resume.go:160-172 | the diff is the one of the last entry whose reference fetches anything |
| `SessionResume.Resumer.Resume` | internal/resume/resume.go:99-174 | the plan in full, or the first error that applies; a zero tail length becomes 20 |
| `SessionLife.FetchesLastSame` | internal/stophook/hook.go:109-138 | a repository's reference fetches the diff of the last uncommitted repository that looks like it |
| `SessionLife.DiffRecoveredIff` | internal/stophook/hook.go:109-165 | so it fetches its own diff exactly if that one has the same diff; always when no origins look alike |
| `SessionLife.LookAlikeLost` | internal/stophook/hook.go:155-165 | with origins a/b and a:b the first diff is lost |
| `SessionLife.ResumeRecovers` | internal/resume/resume.go:160-172 | from any manifest of the hook Resume makes one warning per uncommitted repository, in order, and recovers the diff of the last |
| `SessionLife.EndAndResume` | internal/resume/resume.go:99-174 | a session that ended and is resumed from what the hook left: the manifest comes back, with the warnings, pull requests and diff that belong to it |
| `Operator.Controller.UpdateStatus` | internal/operator/reconciler.go:170-179 | the status is written, not written, or written with the reply lost |
| `Operator.Controller.Provision` | internal/operator/reconciler.go:78-88 | creates the pod unless it exists, then Provisioning with pod name and start |
| `Operator.Controller.AwaitPod` | internal/operator/reconciler.go:90-108 | recreates a lost pod, moves to Running on a ready one, else waits |
| `Operator.Controller.WatchIdle` | internal/operator/reconciler.go:112-141 | moves to Idle past the lifetime or after the idle timeout, else requeues for what remains |
| `Operator.Controller.Finish` | internal/operator/reconciler.go:153-168 | deletes the pod if there is one, then Terminated |
| `Operator.Controller.Reconcile` | internal/operator/reconciler.go:52-76 | one step of the phase machine, whichever API call fails |
| `Operator.SanitizeLabel` | internal/operator/reconciler.go:227-249 | the result is label-safe, safe values come back unchanged, and other values keep length and allowed inner characters |
| `OperatorRuns.PodsAndTimes` | internal/operator/reconciler.go:52-168 | in every run a session has at most one pod and none once Terminated, and from Running on its start and last activity are set |
| `OperatorRuns.ForwardStep` | internal/operator/reconciler.go:52-168 | every step leaves a session's phase or moves it to the next, and from Running on keeps its start |
| `OperatorRuns.PhasesInOrder` | internal/operator/reconciler.go:52-168 | over any stretch of a run phases never go back nor further than one per Reconcile |
| `OperatorRuns.LifetimeRank` | internal/operator/reconciler.go:112-168 | past its lifetime a Running session moves at least one phase with each Reconcile that reports no error |
| `OperatorRuns.ThreeReconcilesTerminate` | internal/operator/reconciler.go:112-168 | so three of them terminate it, whatever activity, failures and pod losses come between, and its pod is gone |
| `OperatorRuns.CapBindsIff` | internal/operator/reconciler.go:90-168 | past its lifetime a session is moved on by a Reconcile without error if and only if it is not Terminated and not Provisioning without a ready pod |
| `OperatorRuns.NeverRunningNeverTerminated` | internal/operator/reconciler.go:90-108 | a session whose pod never becomes ready is never Terminated, however late |
| `OperatorRuns.StartIsLastProvisioning` | internal/operator/reconciler.go:78-96 | the start on record is the time of the last Reconcile that provisioned the session |
| `OperatorRuns.FailsIff` | internal/operator/reconciler.go:52-179 | a Reconcile reports an error exactly if a call that it made failed or its reply was lost |
| `OperatorRuns.PodsAfter` | internal/operator/reconciler.go:78-168 | which pod a Reconcile creates or deletes, whichever calls fail |
| `OperatorRuns.StatusAfter` | internal/operator/reconciler.go:78-168 | the status after a Reconcile without error, and when it wants to be called again |
| `OperatorRuns.UpdateReaches` | internal/operator/reconciler.go:170-179 | a status whose update failed is as it was; one whose reply was lost is as without the loss |
| `OperatorRuns.LeavesBe` | internal/operator/reconciler.go:52-76 | a session that is gone, Terminated or in no known phase is left alone |
| `OperatorRuns.GoesIdleIff` | internal/operator/reconciler.go:112-141 | a Running session is moved to Idle exactly if its lifetime is over or its activity lies the timeout back; otherwise it is looked at again when the timeout runs out |
| `OperatorRuns.KeptActiveStaysRunning` | internal/operator/reconciler.go:112-141 | over any run, a session with activity reported within the timeout before each Reconcile, and its lifetime not over, stays Running |
| `OperatorRuns.IdleEnds` | internal/operator/reconciler.go:143-168 | once Idle a session is Terminated after two Reconciles without error |

## Left out

- RunTokenRuns.RevokedForGood: Mint, and the second half of a renewal, read the session, the clock and
  the store in one step.
- RunToken.Service.Revoke: a service without a revocation store, on which the code fails.
- HTTP handlers, command-line programs, Kubernetes, AWS, Redis and SQL clients, tracing: plumbing.
- The policy engine, rate limiting, agent specification validation, the registry, the grants ledger
  and the budget tracker: outside the protocols above, and easier.
- Payload scanning of the git facade and host extraction of the tool gateway: string heuristics.
- Which of two streams a blocking read serves first: a worker may get an entry from either or both.
- Redis streams beyond append, delivery of never-delivered entries and ack.
- Conflicting writes to one session by overlapping Reconciles, stale informer caches and pod grace
  periods: one Reconcile reads current state and deleting a pod removes it. Its pod specification and
  environment (`sessionPod`, `harnessEnv`) are not modelled but for the pod's name.
- Orchestrator.ShardFor: a shard count whose low 32 bits are zero, on which the code divides by zero.
- BlobStore.S3.Fetch: a read error in the middle of a body ends the loop as its end does, so the
  chunks may be a prefix of the object; `SessionLife` speaks of bodies that arrive whole.
- Operator.SanitizeLabel: the code does not limit the length to 63, so neither does the property.
- SecretsRuns.RefinesPlainMap: for one KEK version throughout; `KekVersionIsFixed` tells why.
- OrchestratorOrder.UserOrder: the prefix is for one worker ever on the shard; across restarts there is
  a subsequence (`OrderAcrossRestarts`), and with two workers at a time neither (`OrderIffOneWorker`).
- McpProxy.Call: the call may go to another session than the one that listed the tools, of the same
  organisation, user and server (`McpCache.OnePlace`); their tool lists are taken to be the same.
