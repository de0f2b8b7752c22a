# Verified model of the facet and siglet token services

Facet is a set of data-plane services. A *provider* hands out short-lived tokens together with single-use
refresh tokens; a *consumer* keeps such a pair per flow and refreshes it before it expires; both may run as
several replicas. This project models the parts where several parties change state at once, or where a loop
or recursion carries a real invariant, and proves what they keep over every run.

Every module has one file of the same name.

- **Token rotation.** `RenewableTokenStore` has the provider's two stores, `TokenManager` issuing, renewing,
  revoking and validating, `TokenClient` the consumer's stores and `get_token`. `ProviderProtocol` lets any
  number of renewals interleave step by step, `RotationProtocol` adds any number of refreshing consumers with
  no lock at all and answers that may be lost, and `LockedRotation` adds the lock. `RefreshSteps` and the end
  of `ProviderProtocol` show that the methods, undisturbed, are runs of those steps, whatever their outcome.
- **Locks.** `MemoryLocks` and `PostgresLocks` are the two lock managers, the second refining the first on
  live locks; `LockTransactions` takes the SQL statements of concurrent transactions one by one;
  `LockGuards` releases locks some time after their guards are dropped.
- **Vault.** `Backoff` with the machine's arithmetic, `VaultRenewal` the renewal loop, `VaultTokenCache` the
  per-context token cache under a reader-writer lock, `TransitKeys` the listing of key versions, the cache of
  public keys and the `kid` of a token. `Decimal` prints and parses numbers.
- **Claims and wire forms.** `Json` unwraps JSON in JSON, `ClaimMapping` validates, merges and evaluates claim
  mappings, `Signaling` is the handler that issues and receives tokens, `Handover` proves that what one side
  issues is what the other stores, `S3Paths` reads and writes the two S3 addressing styles.
- `TokenTypes` and `Wrappers` hold shared records, `Arithmetic` shared ranges.

Classes stand for the objects whose fields the source updates in place. Their methods are proved against
functions on values (`Saved`, `Acquired`, `Apply`, ...), and the lemmas are about those functions; what each of
them comes to is also said without it, in the fields, clock readings and answers themselves. A protocol
is a `datatype` of states, an `Enabled` predicate and a `Step` function over actions; `IsRun` says that a
sequence of states is a run from the initial one. A theorem about runs holds after any number of steps of any
number of parties.

What is not computed here is a parameter: hashing, signing, verifying, the calendar's range and the expression
engine are functions of a configuration; clock readings, random values, answers of servers and outcomes of
random draws are arguments or parts of actions. Hashing is not taken to be injective: that random refresh
tokens are new is said of their hashes.

## Findings

These are places where a promise of the source or its documentation holds only under a condition. Each is a
lemma that says when.

- The lock is said to prevent concurrent refreshes (`crates/facet-core/src/token/client/mod.rs:37`), but it is
  reentrant per owner and `siglet/src/handler/token/mod.rs:81` passes the token's identifier as owner.
  `MemoryLocks.SecondAcquireSucceedsIff`: a second caller gets the lock exactly when it is the same owner or
  the lease has run out. So `LockedRotation` assumes different owners, and `RotationProtocol` shows what
  holds without any exclusion: the two sides still agree.
- `RenewableTokenStore.SharedFlowSplitsStores` and `RemoveAgreesExactly`: when two live entries share a flow id,
  removing the flow leaves one of them in memory and none in the table.
- `PostgresLocks.UnlockAnswersAlikeIff`: `unlock` of the two lock managers differs exactly for a lock that has
  expired, that memory still holds and that a lock call has swept from the table; `UnlockOfExpiredDiffers` is
  such a run. `PostgresLocks.SkippedSweepAgreesIff`: skipping the sweep shows exactly when the requested lock's
  own row has expired.
- `LockGuards.UnlockKeepsInvIff`: an unlock that runs late is harmless unless the same owner has locked again
  since and that lock is live or held more than once; `StaleUnlockReleasesLaterLock` is such a case. An unlock
  within its own lease is always harmless (`UnlockWithinLeaseIsHarmless`).
- `RotationProtocol.SidesAgree`: one lost answer leaves the consumer with a spent refresh token while the flow
  lives on at the provider, and every later refresh is refused (`RefusedAfterLoss`) until the token is saved
  anew or deleted (`LostUntilSaved`).
- `Backoff.WaitVanishesIff`: the factor is truncated to 32 bits, so a configuration made with the public
  constructor can wait for nothing instead of very long, for example doubling with a cap of 32 from the 32nd
  failure on (`Backoff.DoublingThirtyTwoTimes`). Every caller in the repository uses the default configuration,
  which is sound.
- `TransitKeys.SignatureVerifiesIff`: the `kid` is chosen before signing, so a token does not verify exactly when
  the key was rotated in between; `RotatedWhileSigning` is such a run. `TransitKeys.KidsRightIff`: numbering
  listed keys from one gives every `kid` the key of the version it names exactly when no old version has been
  trimmed; after trimming version 1 of three the `kid` of version 2 resolves to the key of version 3
  (`TrimmedKidIsAnothers`).
- Ending a flow is not idempotent: `Signaling.SigletDataFlowHandler.CleanupTokens` returns an error exactly when
  neither store has the token.

## Model

| member | source | states |
|---|---|---|
| `RenewableTokenStore.MemoryRenewableTokenStore.Save` | crates/facet-core/src/token/manager/mem.rs:56-64 | the new contents of all three maps: the entry added under its hash, id and flow |
| `RenewableTokenStore.MemoryRenewableTokenStore.FindByRenewal` | crates/facet-core/src/token/manager/mem.rs:66-73 | over indexed maps: the stored entry whose hash it is, or not found exactly when no stored entry has that hash |
| `RenewableTokenStore.MemoryRenewableTokenStore.FindById` | crates/facet-core/src/token/manager/mem.rs:75-82 | over indexed maps: the stored entry with that id, or not found exactly when no stored entry has it |
| `RenewableTokenStore.MemoryRenewableTokenStore.FindByFlowId` | crates/facet-core/src/token/manager/mem.rs:84-91 | over aligned maps: the stored entry of that flow, or not found exactly when no stored entry is of it |
| `RenewableTokenStore.MemoryRenewableTokenStore.RemoveByFlowId` | crates/facet-core/src/token/manager/mem.rs:93-103 | the flow's entry is gone from all three maps and nothing else is; an unknown flow is an error that changes nothing |
| `RenewableTokenStore.MemoryRenewableTokenStore.Update` | crates/facet-core/src/token/manager/mem.rs:105-122 | the entry under the old hash leaves all three maps before the new one enters them; an unknown hash changes nothing |
| `RenewableTokenStore.PostgresRenewableTokenStore.Save` | crates/facet-postgres/src/renewable_token_store.rs:127-159 | the row of that id is inserted or overwritten |
| `RenewableTokenStore.PostgresRenewableTokenStore.FindByRenewal` | crates/facet-postgres/src/renewable_token_store.rs:161-187 | some row with that hash, not found exactly when there is none |
| `RenewableTokenStore.PostgresRenewableTokenStore.FindById` | crates/facet-postgres/src/renewable_token_store.rs:189-215 | selecting by the id column finds the row under that primary key, and so agrees with the in-memory lookup by id |
| `RenewableTokenStore.PostgresRenewableTokenStore.FindByFlowId` | crates/facet-postgres/src/renewable_token_store.rs:256-282 | some row with that flow id, not found exactly when there is none |
| `RenewableTokenStore.PostgresRenewableTokenStore.Update` | crates/facet-postgres/src/renewable_token_store.rs:217-254 | the rows with the old hash become the new entry; none is not found, a second row with the new id a unique violation |
| `RenewableTokenStore.RowsUpdatedIs` | crates/facet-postgres/src/renewable_token_store.rs:217-254 | an update succeeds if and only if exactly one row has the old hash and no other row has the new id; the new entry then stands for that row and all other rows are as they were |
| `RenewableTokenStore.PostgresRenewableTokenStore.RemoveByFlowId` | crates/facet-postgres/src/renewable_token_store.rs:284-300 | every row of the flow is deleted; none is not found |
| `RenewableTokenStore.IndexedPreserved` | crates/facet-core/src/token/manager/mem.rs:56-122 | every operation, whatever the flow ids, keeps that the hash and id maps hold the same entries and every flow-indexed entry is among them |
| `RenewableTokenStore.AlignedPreserved` | crates/facet-core/src/token/manager/mem.rs:56-122 | with fresh keys and one live entry per flow, every operation keeps that all three maps index the same entries |
| `RenewableTokenStore.StepRefinesIndexed` | crates/facet-postgres/src/renewable_token_store.rs:127-254 | operations that do not go by flow do the same to maps and table and answer alike even when flows are shared |
| `RenewableTokenStore.StepRefines` | crates/facet-postgres/src/renewable_token_store.rs:127-300 | under distinct live flow ids whatever the table may do in one operation is what the maps do, answer included |
| `RenewableTokenStore.StoresAgreeOnRuns` | crates/facet-postgres/src/renewable_token_store.rs:127-300 | over whole runs the two stores hold the same entries after every operation and have given the same answers |
| `RenewableTokenStore.RemoveAgreesExactly` | crates/facet-core/src/token/manager/mem.rs:93-103 | removing a flow does the same to maps and table if and only if the flow index names the flow's one row, or there is none |
| `RenewableTokenStore.SharedFlowSplitsStores` | crates/facet-core/src/token/manager/mem.rs:93-103 | two entries that share a flow: after removing it one still validates in memory, none in the table |
| `TokenManager.ValidateCustomClaims` | crates/facet-core/src/token/manager/mod.rs:236-246 | accepts exactly the claims without any of the seven reserved names |
| `TokenManager.NewEntryIs` | crates/facet-core/src/token/manager/mod.rs:265-342 | what issuing saves, or when it fails: the token was signed for the audience and subject with every custom claim besides its id and expires a token lifetime from now; the entry has the expiry of the refresh token |
| `TokenManager.BoundAcceptedIff` | crates/facet-core/src/token/manager/mod.rs:354-368 | a bound token is accepted if and only if it verifies for the entry's audience, is of its subject and has a `token` claim that is the entry's token |
| `TokenManager.NextEntryIs` | crates/facet-core/src/token/manager/mod.rs:370-390 | the entry that replaces another has a new id, hash, expiry and signed token, and is for the very same grant |
| `TokenManager.NextEntryIff` | crates/facet-core/src/token/manager/mod.rs:354-379 | there is one if and only if the bound token is accepted and signing and dating succeed |
| `TokenManager.JwtTokenManager.GeneratePair` | crates/facet-core/src/token/manager/mod.rs:296-342 | succeeds exactly when the claims are allowed, signing succeeds and the expiry is a timestamp; then the token carries every claim given, one entry is saved and its pair returned, otherwise the store is unchanged |
| `TokenManager.JwtTokenManager.Renew` | crates/facet-core/src/token/manager/mod.rs:344-396 | the new store and answer in every case: unknown refresh token, refused bound token, failed signing or expiry leave the store alone; success replaces the entry |
| `TokenManager.JwtTokenManager.RevokeToken` | crates/facet-core/src/token/manager/mod.rs:398-400 | removes the flow's entry, or reports that there is none |
| `TokenManager.JwtTokenManager.ValidateToken` | crates/facet-core/src/token/manager/mod.rs:402-414 | a verified token is accepted, with the claims it was verified with, if and only if its `jti` is a string and the id of a live entry |
| `ProviderProtocol.StepInv` | crates/facet-core/src/token/manager/mod.rs:296-400 | every step of every interleaving keeps the invariant: aligned maps, fresh pending entries, a log in which each renewal replaced the newest entry and each hash was spent once |
| `ProviderProtocol.RunInv` | crates/facet-core/src/token/manager/mod.rs:296-400 | the invariant holds at every point of every run |
| `ProviderProtocol.CommitReplaces` | crates/facet-core/src/token/manager/mod.rs:384-390 | an update that succeeds replaces the very entry the call looked up, still the newest of its flow |
| `ProviderProtocol.RefreshTokenUsedOnce` | crates/facet-core/src/token/manager/mod.rs:344-396 | in any interleaving two successful renewals never used the same refresh token |
| `ProviderProtocol.RevokedStaysRevoked` | crates/facet-core/src/token/manager/mod.rs:344-400 | a flow that is not live stays so until it is issued again, whatever renewals are already under way |
| `ProviderProtocol.ChainIsLinear` | crates/facet-core/src/token/manager/mod.rs:344-396 | the renewals of a flow form one chain from an issued entry, each replacing its predecessor by that one's hash and keeping the grant |
| `ProviderProtocol.LiveEntriesKeepGrant` | crates/facet-core/src/token/manager/mod.rs:296-396 | at any point of any run a live entry is the newest of such a chain, for the subject, audience, claims, context and flow given at issue |
| `ProviderProtocol.ValidatesExactlyNewest` | crates/facet-core/src/token/manager/mod.rs:402-414 | a verified token is accepted if and only if its `jti` is that of the newest entry of an unrevoked flow |
| `ProviderProtocol.IssuedTokenValidatesIffNewest` | crates/facet-core/src/token/manager/mod.rs:296-414 | over any run, of all tokens ever handed out exactly the newest of each unrevoked flow validates |
| `ProviderProtocol.ValidatedClaimsAreIssued` | crates/facet-core/src/token/manager/mod.rs:265-414 | over any run, validating a token that was handed out yields, besides its id, exactly the claims of its entry, and its subject, audience, issuer and expiry, when verification gives back what was signed |
| `ProviderProtocol.IssuedAtRequest` | crates/facet-core/src/token/manager/mod.rs:296-342 | the entry that issuing adds is for the subject, claims, audience, context and flow asked for, dated at the time of asking, and has no reserved claim |
| `ProviderProtocol.RevokeIsOneStep` | crates/facet-core/src/token/manager/mod.rs:398-400 | revoking a flow takes away exactly that flow's entry |
| `ProviderProtocol.GeneratePairIsOneStep` | crates/facet-core/src/token/manager/mod.rs:296-342 | the protocol's issuing step leaves the store that the method ensures |
| `ProviderProtocol.RenewIsThreeSteps` | crates/facet-core/src/token/manager/mod.rs:344-396 | find, mint and update in a row leave the store that `Renew` ensures, in every case |
| `TokenClient.MemoryTokenStore.GetToken` | crates/facet-core/src/token/client/mem.rs:79-113 | the stored token or not found; what can be looked up does not change |
| `TokenClient.MemoryTokenStore.SaveToken` | crates/facet-core/src/token/client/mem.rs:115-132 | the token is what is looked up from now on; every other key is unchanged |
| `TokenClient.MemoryTokenStore.UpdateToken` | crates/facet-core/src/token/client/mem.rs:134-157 | only the four refreshed fields change, endpoint and parties stay; a missing token is an error and stays missing |
| `TokenClient.MemoryTokenStore.RemoveToken` | crates/facet-core/src/token/client/mem.rs:159-166 | the token is gone, an error exactly when it was not there; every other key is unchanged |
| `TokenClient.VaultTokenStore.GetToken` | crates/facet-core/src/token/client/vault.rs:82-107 | what `SaveToken` or `UpdateToken` last made of that context and identifier, which are restored from the key because the record does not hold them; not found without a record |
| `TokenClient.VaultTokenStore.SaveToken` | crates/facet-core/src/token/client/vault.rs:109-127 | as for the in-memory store, so no two identifiers share a path |
| `TokenClient.VaultTokenStore.UpdateToken` | crates/facet-core/src/token/client/vault.rs:129-164 | the read-modify-write changes only the four refreshed fields, as in memory |
| `TokenClient.OAuth2TokenClient.RefreshToken` | crates/facet-core/src/token/client/oauth.rs:49-108 | the bound token is issued by and for the participant to the counterparty and names the token to renew; the answer's refresh token, or without one the present one, is kept, and the expiry counts from the answer |
| `TokenClient.TokenClientApi.GetToken` | crates/facet-core/src/token/client/mod.rs:51-109 | every outcome of `get_token` undisturbed, in the stored expiry and the clock readings: handed out as stored while not due, refused by the lock, found not due on the second read, or refreshed with the stored refresh token and stored; the lock is released wherever it was taken |
| `TokenClient.TokenClientApi.RefreshLocked` | crates/facet-core/src/token/client/mod.rs:77-106 | the second check and refresh: the stored token afterwards is unchanged or the refreshed one that is returned |
| `TokenClient.TokenClientApi.SaveToken` | crates/facet-core/src/token/client/mod.rs:111-121 | stored under the lock or refused with nothing changed |
| `TokenClient.TokenClientApi.DeleteToken` | crates/facet-core/src/token/client/mod.rs:123-137 | deleted under the lock, refused with nothing changed, or an error when there was nothing |
| `RotationProtocol.StepInv` | crates/facet-core/src/token/client/mod.rs:51-109 | every step of any number of unlocked refreshers and renewals keeps the link between stored tokens, calls, renewals under way and the provider |
| `RotationProtocol.ProviderPart` | crates/facet-core/src/token/manager/mod.rs:344-396 | what a step does to the provider is a step of the provider protocol |
| `RotationProtocol.CommitLink` | crates/facet-core/src/token/manager/mod.rs:384-396 | a successful update makes its answer the only one under way for the flow and every other call's refresh token dead |
| `RotationProtocol.WriteBackLink` | crates/facet-core/src/token/client/mod.rs:96-100 | writing the answer back makes stored and live token the same again |
| `RotationProtocol.SidesAgree` | crates/facet-core/src/token/client/mod.rs:51-109 | at any point of any run without lock the provider's live entry is the stored pair with no answer under way, or exactly one answer under way and then not the stored pair, if and only if the flow has lost no answer since its token was saved; a flow that has holds a spent refresh token |
| `RotationProtocol.LoseLink` | crates/facet-core/src/token/client/mod.rs:84-100 | losing the answer under way keeps everything the invariant says of other flows and leaves this one without any answer |
| `RotationProtocol.RefusedAfterLoss` | crates/facet-core/src/token/manager/mod.rs:344-396 | in every run, once a flow has lost an answer, each request and each update of its refreshes fails and the provider's store stays as it is |
| `RotationProtocol.LostUntilSaved` | siglet/src/handler/signaling/mod.rs:394-422 | only saving the flow's token anew or deleting it ends that |
| `RotationProtocol.HandedOutWhileFreshIff` | crates/facet-core/src/token/client/mod.rs:57-95 | a look at the stored token hands it out if and only if it is earlier than the margin before its expiry, on the first look and under the lock alike; otherwise the call goes on to the lock and to the refresh |
| `RotationProtocol.ReturnedWasFreshOrRefreshed` | crates/facet-core/src/token/client/mod.rs:57-104 | in every run a token that a call has returned was read while that held, or was the answer to its refresh |
| `RotationProtocol.ReturnedTokenWasCurrent` | crates/facet-core/src/token/client/mod.rs:51-109 | every token handed out was at some moment the newest of its flow at the provider |
| `LockedRotation.LockedRefinesUnlocked` | crates/facet-core/src/token/client/mod.rs:70-106 | each step with the lock is a step without it, or changes neither tokens nor provider |
| `LockedRotation.StepInv` | crates/facet-core/src/token/client/mod.rs:70-106 | every step keeps: guards and records match, callers hold what is stored, stored tokens fit their grants, bound tokens pass |
| `LockedRotation.MutualExclusion` | crates/facet-core/src/token/client/mod.rs:70-106 | in every run at most one call per identifier is between acquiring the lock and having written back |
| `LockedRotation.PresentsLive` | crates/facet-core/src/token/client/mod.rs:86-95 | whoever asks for a refresh of a live flow presents its live refresh token if and only if the flow has lost no answer |
| `LockedRotation.NeverRefusedAsStale` | crates/facet-core/src/token/manager/mod.rs:344-396 | in every run, while a flow is live and has lost no answer, its refresh token is found, its bound token passes and its update replaces the entry; when it has lost one, request and update fail |
| `RefreshSteps.BoundIsHonest` | crates/facet-core/src/token/client/oauth.rs:57-69 | the bound token the client makes passes the provider's check for an entry of the same grant exactly when it names that entry's token |
| `RefreshSteps.GetTokenIsItsSteps` | crates/facet-core/src/token/client/mod.rs:77-109 | seven protocol steps in a row hand out the new token and leave stores that `GetToken` and `Renew` ensure |
| `RefreshSteps.FirstLookIsOneStep` | crates/facet-core/src/token/client/mod.rs:57-68 | a missing or a fresh token is one step that ends the call as `GetToken` ensures and changes nothing |
| `RefreshSteps.LockRefusalIsTwoSteps` | crates/facet-core/src/token/client/mod.rs:70-75 | a refusal by the lock is two steps that end in an error and change nothing |
| `RefreshSteps.FreshOnRereadIsThreeSteps` | crates/facet-core/src/token/client/mod.rs:77-104 | a token found fresh under the lock is three steps that hand it out and change nothing |
| `RefreshSteps.FailedRequestIsSteps` | crates/facet-core/src/token/client/oauth.rs:71-90 | a request that fails, or whose refresh token the provider does not know, is four steps that end in an error and change nothing |
| `RefreshSteps.RefusedRenewalIsSteps` | crates/facet-core/src/token/manager/mod.rs:347-380 | a renewal refused for its bound token, its signature or its expiry is five steps that end in an error and change neither store |
| `RefreshSteps.CommitStep` | crates/facet-core/src/token/client/oauth.rs:92-106 | the answer under way is what the client makes of the server's response |
| `MemoryLocks.MemoryLockManager.Lock` | crates/facet-core/src/lock/mem.rs:126-152 | succeeds if and only if there is no record, it is the owner's or it has expired; then the record is the owner's from now, counting one more than a live one, otherwise nothing changes and the holder is named |
| `MemoryLocks.MemoryLockManager.Unlock` | crates/facet-core/src/lock/mem.rs:103-121 | one less, removed at the last; a refusal naming the holder for another owner, not found without a record |
| `MemoryLocks.MemoryLockManager.LockCount` | crates/facet-core/src/lock/mem.rs:154-165 | the count of a live record of that owner, otherwise zero |
| `MemoryLocks.MemoryLockManager.ReleaseLocks` | crates/facet-core/src/lock/mem.rs:167-173 | exactly the owner's records go |
| `MemoryLocks.SecondAcquireSucceedsIff` | siglet/src/handler/token/mod.rs:76-82 | a lock just acquired is acquired again if and only if by the same owner or after the lease has run out |
| `MemoryLocks.ReleaseUndoesAcquire` | crates/facet-core/src/lock/mem.rs:103-152 | releasing what was just acquired restores everything but the lease of a lock already held |
| `MemoryLocks.ReleasesSucceedMin` | crates/facet-core/src/lock/mem.rs:103-152 | of m unlocks after n locks exactly min(n, m) succeed and n - m remain |
| `PostgresLocks.PostgresLockManager.LockInternal` | crates/facet-postgres/src/lock.rs:201-286 | with anything committing before each attempt and between its queries: at most min(retries, 5) + 1 transactions; what success and each refusal say of the table; alone it is one transaction |
| `PostgresLocks.LockTransactionIs` | crates/facet-postgres/src/lock.rs:213-286 | undisturbed: which requests succeed, are refused or overflow the column, the row afterwards, and that all other rows stay but for the expired ones a sweep removes |
| `PostgresLocks.PostgresLockManager.Unlock` | crates/facet-postgres/src/lock.rs:291-341 | the table after decrement and delete; unchanged with a refusal naming the holder for another owner's row, else not found |
| `PostgresLocks.PostgresLockManager.LockCount` | crates/facet-postgres/src/lock.rs:351-367 | the answer of the in-memory manager on the same records: the count of the owner's live one, otherwise zero |
| `PostgresLocks.PostgresLockManager.ReleaseLocks` | crates/facet-postgres/src/lock.rs:369-377 | exactly the owner's rows go |
| `PostgresLocks.StepAlike` | crates/facet-postgres/src/lock.rs:201-377 | every operation keeps the live locks of both managers equal and is answered alike, unlock on live locks |
| `PostgresLocks.ManagersLookAlike` | crates/facet-postgres/src/lock.rs:201-377 | over any run of up to 2^31 - 1 operations with every lock call sweeping, both managers hold the same live locks and answer alike |
| `PostgresLocks.UnlockAnswersAlikeIff` | crates/facet-postgres/src/lock.rs:291-341 | after any run `unlock` is answered alike if and only if the table still has the row memory has; where it has not, the lock has expired |
| `PostgresLocks.UnlockOfExpiredDiffers` | crates/facet-postgres/src/lock.rs:213-221 | a run in which it has not: an expired and swept lock is not found in the table but released in memory |
| `PostgresLocks.SkippedSweepAgreesIff` | crates/facet-postgres/src/lock.rs:213-225 | skipping the sweep changes answer or own row if and only if the lock's own row has expired |
| `LockTransactions.CommittedCount` | crates/facet-postgres/src/lock.rs:201-341 | every interleaving of SQL statements is serializable in commit order; the committed count is locks minus unlocks, and at least one while the row exists |
| `LockTransactions.EffectIsTransaction` | crates/facet-postgres/src/lock.rs:201-341 | the serial semantics is what the manager's undisturbed transactions do to the row |
| `LockTransactions.OneWriter` | crates/facet-postgres/src/lock.rs:228-252 | at most one uncommitted transaction has changed the row |
| `LockTransactions.DecrementFindsRowIff` | crates/facet-postgres/src/lock.rs:296-320 | an unlock finds its row if and only if the committed row is its owner's |
| `LockTransactions.CommittedPerOwner` | crates/facet-postgres/src/lock.rs:201-341 | in every interleaving and for every owner, locks committed less unlocks committed are its acquisitions in the committed row |
| `LockTransactions.ExactlyMinCommit` | crates/facet-postgres/src/lock.rs:291-341 | of m unlock transactions run to completion in any interleaving while the owner holds the lock n times exactly min(n, m) commit, and n - min(n, m) remain |
| `LockTransactions.UnlocksNeverExceedLocks` | crates/facet-postgres/src/lock.rs:291-341 | in no interleaving does any owner, or do all of them, commit more unlocks than locks |
| `LockGuards.UnlockKeepsInvIff` | crates/facet-core/src/lock/mod.rs:131-154 | running a dropped guard's unlock keeps what records and guards stand for if and only if it takes nothing from a later live lock of the same owner |
| `LockGuards.InvariantHoldsIff` | crates/facet-core/src/lock/mod.rs:131-154 | over a whole run it is kept all the way if and only if every unlock was harmless in that sense |
| `LockGuards.UnlockWithinLeaseIsHarmless` | crates/facet-core/src/lock/mod.rs:131-154 | an unlock within the lease of its own lock is harmless and succeeds |
| `LockGuards.CountIsGuardsOutstanding` | crates/facet-core/src/lock/mem.rs:103-152 | as long as unlocks are harmless a record's count is at least one and is the number of its guards in scope or waiting for their unlock |
| `LockGuards.NoAcquireWhileGuarded` | crates/facet-core/src/lock/mem.rs:126-152 | as long as unlocks are harmless nobody else acquires while a guard is unreleased, unless more than the timeout has passed since the holder's last acquisition |
| `LockGuards.StaleUnlockReleasesLaterLock` | crates/facet-core/src/lock/mod.rs:131-154 | an unlock delayed past its lease takes away the lock the same owner has acquired since |
| `Backoff.FactorIsPowIff` | crates/facet-core/src/util/backoff.rs:55-69 | the machine factor is the promised power if and only if that is at least one and below 2^32 |
| `Backoff.IntervalIsExactIff` | crates/facet-core/src/util/backoff.rs:55-69 | the interval is base times that power if and only if moreover the product is a duration |
| `Backoff.IntervalBounds` | crates/facet-core/src/util/backoff.rs:55-69 | for sound configurations waits never shrink as failures grow and lie between the base and the capped maximum |
| `Backoff.DefaultTotalWait` | crates/facet-core/src/util/backoff.rs:24-33 | by default n failures wait base times 2^n - 1, from the fifth on 31 + 32 (n - 5) |
| `Backoff.WaitVanishesIff` | crates/facet-core/src/util/backoff.rs:55-69 | there is no wait if and only if the power is a multiple of 2^32 but not of 2^64 |
| `Backoff.DoublingThirtyTwoTimes` | crates/facet-core/src/util/backoff.rs:36-69 | doubling with a cap of 32 waits for nothing from the 32nd failure on, whatever the base |
| `VaultRenewal.VaultClientState.constructor` | crates/facet-hashicorp-vault/src/state.rs:18-58 | a fresh state: never renewed, no error, no failures |
| `VaultRenewal.TokenRenewer.RecordRenewalError` | crates/facet-hashicorp-vault/src/renewal.rs:220-229 | one more failure, this error on record, nothing else changed |
| `VaultRenewal.TokenRenewer.UpdateStateOnSuccess` | crates/facet-hashicorp-vault/src/renewal.rs:231-236 | renewed now, no failures, no error, nothing else changed |
| `VaultRenewal.TokenRenewer.HandleTokenExpiration` | crates/facet-hashicorp-vault/src/renewal.rs:238-256 | a new token never renewed, or one more failure |
| `VaultRenewal.TokenRenewer.RenewalLoop` | crates/facet-hashicorp-vault/src/renewal.rs:118-180 | stops with the first prefix of events that reaches the maximum, at a failing trigger or a shutdown and nowhere else; the count never exceeds a positive maximum; each wait asked for is that of the state then |
| `VaultRenewal.TokenIsLastObtained` | crates/facet-hashicorp-vault/src/renewal.rs:238-250 | over every event sequence token, lease and creation are those of the last successful re-authentication, or the initial ones when there was none |
| `VaultRenewal.RenewedAtLastRenewal` | crates/facet-hashicorp-vault/src/renewal.rs:231-250 | and it was last renewed at the last renewal since, or never |
| `VaultRenewal.FailuresSince` | crates/facet-hashicorp-vault/src/renewal.rs:220-254 | since the last success the count is the number of attempts, whatever kind of failure each was |
| `VaultRenewal.ErrorIsLast` | crates/facet-hashicorp-vault/src/renewal.rs:220-254 | the error on record is that of the last attempt, none if it succeeded |
| `VaultRenewal.CountIsTrailingFailures` | crates/facet-hashicorp-vault/src/renewal.rs:118-254 | from a fresh state the count is the length of the trailing run of failures, and an error is recorded if and only if it is positive, the last one reported |
| `VaultRenewal.HealthyIff` | crates/facet-hashicorp-vault/src/state.rs:86-93 | a client that started fresh is healthy if and only if that run is shorter than the threshold |
| `VaultRenewal.TrailingRunExists` | crates/facet-hashicorp-vault/src/renewal.rs:118-254 | that run starts right after a success, or at the start, and has as many failures as counted |
| `VaultRenewal.RenewedAfterCreated` | crates/facet-hashicorp-vault/src/state.rs:49-59 | under a clock that never goes back a token was never renewed before it was created |
| `VaultRenewal.WaitUntilGivingUp` | crates/facet-hashicorp-vault/src/renewal.rs:258-270 | when every attempt after a success fails, the waits add up to the total of the backoff powers |
| `VaultRenewal.DefaultWaitUntilGivingUp` | crates/facet-hashicorp-vault/src/renewal.rs:258-270 | which by default is 31 base intervals and 32 for each failure after the fifth |
| `VaultTokenCache.ExchangingTokenProvider.TokenFor` | crates/facet-hashicorp-vault/src/provider.rs:309-354 | undisturbed: a cached token that is good at either check, or an acquired one that is then cached for the whole seconds x with x <= percentage of its lease < x + 1, for one second if that is less, or an error that is counted without wrapping |
| `VaultTokenCache.AnswersAreOwnAndFresh` | crates/facet-hashicorp-vault/src/provider.rs:309-354 | in every interleaving a token handed out was acquired for the caller's own context, and from the cache only before it expired |
| `VaultTokenCache.LeasesDecide` | crates/facet-hashicorp-vault/src/provider.rs:329-359 | in every run each acquired token is cached for just that part of its lease |
| `VaultTokenCache.CallIsItsSteps` | crates/facet-hashicorp-vault/src/provider.rs:309-354 | a call that misses and meets nobody is a look, the lock and a completion, and leaves the cache that `TokenFor` leaves |
| `VaultTokenCache.StretchIsLong` | crates/facet-hashicorp-vault/src/provider.rs:309-359 | a stretch of acquisitions of one key takes at least the cached validity for each but the last |
| `VaultTokenCache.AcquisitionsPerWindow` | crates/facet-hashicorp-vault/src/provider.rs:309-359 | in every interleaving a window w has at most w / v + 1 acquisitions of a key whose leases have parts of at least v seconds |
| `TransitKeys.ParseVersions` | crates/facet-hashicorp-vault/src/client.rs:353-358 | every version as often as some map key parses to it, and nothing else |
| `TransitKeys.Sort` | crates/facet-hashicorp-vault/src/client.rs:359-360 | sorted, and a permutation |
| `TransitKeys.GetKeyMetadata` | crates/facet-hashicorp-vault/src/client.rs:353-383 | the listed keys belong to the sorted parsed versions, or the first conversion that failed |
| `TransitKeys.ListedFailsWithFirst` | crates/facet-hashicorp-vault/src/client.rs:362-375 | listing succeeds if and only if every key held for a version converts, and else fails with the error of the first that does not |
| `TransitKeys.KidNamesVersion` | crates/facet-core/src/jwt/resolver.rs:84-96 | the version of a `kid` can be read off it |
| `TransitKeys.NumberedIff` | crates/facet-core/src/jwt/resolver.rs:84-96 | increasing versions are numbered by their positions if and only if the last is as large as they are many |
| `TransitKeys.KidResolvesToPosition` | crates/facet-core/src/jwt/resolver.rs:70-103 | after loading any listing the `kid` of position i resolves to the key of the i-th smallest version Vault holds |
| `TransitKeys.KidsRightIff` | crates/facet-core/src/jwt/resolver.rs:70-103 | after loading, every `kid` of a held version resolves to that version's key if and only if no version has been trimmed |
| `TransitKeys.TrimmedKidIsAnothers` | crates/facet-core/src/jwt/resolver.rs:84-96 | with versions 2 and 3 left the `kid` of version 2 resolves to the key of version 3 |
| `TransitKeys.CompleteIsNumbered` | crates/facet-hashicorp-vault/src/client.rs:353-383 | pigeonhole: distinct versions from one, as many as the latest, are numbered by their positions |
| `TransitKeys.ListingNamesVersions` | crates/facet-hashicorp-vault/src/client.rs:353-383 | the i-th listed key of a complete map is that of version i + 1 |
| `TransitKeys.ListingIsVersions` | crates/facet-core/src/jwt/resolver.rs:70-103 | what loading gets for such a key is its public keys in version order |
| `TransitKeys.KidResolvesToNamedVersion` | crates/facet-core/src/jwt/resolver.rs:175-203 | over any run of rotations, listings by the client, later entries into the cache and signings, the `kid` of a token resolves, then and ever after, to the key of the version it names, whether cached or listed anew |
| `TransitKeys.SignatureVerifiesIff` | crates/facet-core/src/jwt/generator.rs:48-81 | a token's signature verifies with that key if and only if the key was not rotated between choosing the `kid` and signing |
| `TransitKeys.RotatedWhileSigning` | crates/facet-core/src/jwt/generator.rs:48-81 | a run in which it was: version 1 is named and version 2 signs |
| `Decimal.ParsePrintI64` | siglet/src/handler/signaling/mod.rs:452-460 | parsing what was printed gives it back on all of i64 |
| `Decimal.PrintedInBaseTen` | siglet/src/handler/signaling/mod.rs:94-144 | the text printed is decimal |
| `Decimal.ParsePrintUsize` | crates/facet-hashicorp-vault/src/client.rs:353-358 | parsing what was printed gives it back on all of usize |
| `Json.UnwrapIsPlain` | siglet/src/claim_mapper/projection.rs:30-38 | an unwrapped value is never a string that is itself JSON |
| `Json.UnwrapChangesIff` | siglet/src/claim_mapper/projection.rs:30-38 | unwrapping changes a value if and only if it is a string that is JSON |
| `Json.UnwrapIdempotent` | siglet/src/claim_mapper/projection.rs:30-38 | unwrapping twice is unwrapping once |
| `Json.ParseQuote` | siglet/src/claim_mapper/projection.rs:30-38 | writing any string as JSON and reading it gives it back (section 7 of RFC 8259) |
| `Json.ReadCodeUnit` | siglet/src/claim_mapper/projection.rs:30-38 | an escape of four hexadecimal digits reads as its code point (section 7 of RFC 8259) |
| `Json.ReadSurrogates` | siglet/src/claim_mapper/projection.rs:30-38 | two escapes that are a surrogate pair read as one character |
| `Json.LoneSurrogate` | siglet/src/claim_mapper/projection.rs:30-38 | a surrogate without its other half is refused |
| `Json.UnwrapQuotes` | siglet/src/claim_mapper/projection.rs:30-38 | unwrapping undoes any number of nested encodings of a string |
| `Json.UnwrapQuotedValue` | siglet/src/claim_mapper/projection.rs:30-38 | and of any other value |
| `ClaimMapping.ValidateClaimMappings` | siglet/src/config/mod.rs:849-870 | the complaints of all mappings are appended in order; none is if and only if targets are distinct, not blank and not reserved and sources are not blank and compile |
| `ClaimMapping.NoComplaintIff` | siglet/src/config/mod.rs:849-870 | the same exact condition with each requirement and the seven reserved names written out |
| `ClaimMapping.ComplaintsAreProblems` | siglet/src/config/mod.rs:849-870 | every problem of every mapping is complained of, and every complaint names a problem its mapping has |
| `ClaimMapping.MergeClaimMappings` | siglet/src/claim_mapper/mod.rs:149-162 | the in-place loop computes the fold that the merging lemmas are about |
| `ClaimMapping.MergedShape` | siglet/src/claim_mapper/mod.rs:140-162 | the merged list is the root's order with endpoint mappings in place, then the endpoint's new targets in its order |
| `ClaimMapping.MergedKeepsRoot` | siglet/src/claim_mapper/mod.rs:140-162 | root targets keep their places, and their mappings where the endpoint has none |
| `ClaimMapping.MergedHasEndpoint` | siglet/src/claim_mapper/mod.rs:140-162 | every endpoint mapping is in the merged list, and what follows the root is endpoint mappings to new targets |
| `ClaimMapping.MergedNewInOrder` | siglet/src/claim_mapper/mod.rs:140-162 | which keep the endpoint's order |
| `ClaimMapping.MergedValid` | siglet/src/claim_mapper/mod.rs:149-162 | merging valid lists gives a valid list |
| `ClaimMapping.MergedChooses` | siglet/src/claim_mapper/mod.rs:149-162 | for every target the endpoint's mapping is chosen where there is one, else the root's, else none |
| `ClaimMapping.CelClaimMapper.ProgramFor` | siglet/src/claim_mapper/cel_mapper.rs:51-67 | the bounded cache never shows: the answer is what compiling gives |
| `ClaimMapping.CelClaimMapper.MapClaims` | siglet/src/claim_mapper/cel_mapper.rs:92-167 | in terms of compiling, executing and converting alone: on success every required mapping has done all three and its target has exactly that value, an optional one is absent exactly when it fails to compile or execute or is null, and nothing else is bound; on failure the error is that of the first mapping that offends, and names it and its cause |
| `ClaimMapping.FailsWithFirst` | siglet/src/claim_mapper/cel_mapper.rs:92-167 | evaluation fails exactly when a mapping offends, with the error of the first; an optional mapping offends only by failing to convert |
| `ClaimMapping.ClaimsAre` | siglet/src/claim_mapper/cel_mapper.rs:92-167 | with distinct targets the claims are exactly what each mapping yields for its target |
| `ClaimMapping.MergedClaimsAreAllowed` | crates/facet-core/src/token/manager/mod.rs:236-246 | valid lists, merged and evaluated, never give a claim the manager refuses, and give each target what the chosen mapping yields |
| `Signaling.EncodedFlowResolvesAlike` | siglet/src/handler/signaling/mod.rs:83-91 | however often metadata values have been JSON-encoded, the endpoint is the same |
| `Signaling.ComparedAs` | siglet/src/handler/signaling/mod.rs:83-91 | what each kind of metadata value is compared as, however often it has been encoded |
| `Signaling.EndpointIs` | siglet/src/handler/signaling/mod.rs:184-221 | the endpoint is that of the first mapping whose key the flow has with its value, or the transfer type's own without mappings; the errors otherwise |
| `Signaling.TransferTypeIs` | siglet/src/handler/signaling/mod.rs:146-175 | a flow gets the stored transfer type of its profile, and the configured one if and only if its context has nothing stored |
| `Signaling.FirstMatch` | siglet/src/handler/signaling/mod.rs:200-206 | the mapping taken matches and none before it does |
| `Signaling.WrittenProperties` | siglet/src/handler/signaling/mod.rs:94-144 | every property of a data address, among them the bearer type, the relative expiry and in one style for whom it is refreshed |
| `Signaling.ReadableIff` | siglet/src/handler/signaling/mod.rs:438-504 | a data address is read if and only if it has the four properties and the expiry is a number that makes a timestamp |
| `Signaling.FlowClaimsAre` | siglet/src/handler/signaling/mod.rs:249-260 | the four claims of a provider's flow and their values, none for a client's |
| `Signaling.ReadsWhatWasWritten` | siglet/src/handler/signaling/mod.rs:94-144 | in either style the reader gets back token, refresh token and endpoint, and the expiry moved by the difference of the clocks, unless that is no timestamp |
| `Signaling.SigletDataFlowHandler.GenerateToken` | siglet/src/handler/signaling/mod.rs:239-277 | flow claims overridden by mapped ones go into one saved entry, or the store is unchanged |
| `Signaling.SigletDataFlowHandler.HandleFlow` | siglet/src/handler/signaling/mod.rs:325-368 | the store is unchanged and there is no data address, or exactly one entry is saved and the data address is the one issued with it; a flow of the other token source resolves nothing further |
| `Signaling.SigletDataFlowHandler.OnStarted` | siglet/src/handler/signaling/mod.rs:394-422 | exactly the flow's token is stored, or nothing and an error; without a data address nothing happens |
| `Signaling.SigletDataFlowHandler.CleanupTokens` | siglet/src/handler/signaling/mod.rs:279-293 | revokes the live entry, else removes the stored token, else an error; never both |
| `Handover.StoredIsIssued` | siglet/src/handler/signaling/mod.rs:325-504 | the consumer stores the token and refresh token of the very entry the provider saved, with the resolved endpoint, exactly when the shifted expiry is a timestamp |
| `Handover.HandoverIsGrant` | siglet/src/handler/signaling/mod.rs:325-422 | issuing and storing together are the rotation protocol's first step for the flow |
| `Handover.IssuedClaims` | siglet/src/handler/signaling/mod.rs:239-277 | an issued token's claim is what its chosen mapping yields, else the flow's own; with valid mappings a token pair is refused only when signing or dating it fails for just those claims |
| `Handover.IssuedTokenSays` | siglet/src/handler/signaling/mod.rs:239-277 | the token itself verifies as from the issuer, to the counterparty, for the participant, expiring a lifetime from issue, and carries each claim that its chosen mapping yields or that is the flow's own |
| `S3Paths.PathStyleReadsBack` | crates/facet-proxy/src/s3/mod.rs:182-194 | the upstream reads the same bucket and key from the path if and only if the bucket is not empty and has no slash, for any key |
| `S3Paths.ReadStyle` | crates/facet-proxy/src/s3/mod.rs:162-213 | a request is read in virtual-hosted style if and only if its host is something followed by a dot and the proxy domain, else in path style |
| `S3Paths.PathStyleIs` | crates/facet-proxy/src/s3/mod.rs:182-194 | bucket and key of every path; only slashes are no request |
| `S3Paths.ForwardedInPathStyle` | crates/facet-proxy/src/s3/mod.rs:162-194 | parse, build and parse again is parse, for every path-style request; for a virtual-hosted one exactly when its bucket has no slash |
| `S3Paths.VirtualHostedReadsBack` | crates/facet-proxy/src/s3/mod.rs:253-271 | the upstream host and path read back if and only if the bucket is not empty and has no colon and the key does not start with a slash |

## Left out

- HTTP, SQL drivers, tokio tasks, file watching and Vault calls: their outcomes are arguments or actions.
- Cryptography, JWT encoding and the CEL engine: functions of a configuration, with no assumption but the stated ones.
- `TokenManager.JwtTokenManager.GeneratePair`: one clock reading per call, where the source reads the clock once for the token's expiry and once for the refresh token's; `TokenManager.JwtTokenManager.Renew` likewise.
- `renew` does not look at the stored expiry of a refresh token in the source, so nothing is claimed about it; nor is the stored expiry said to be the token's `exp`, which is computed from another duration.
- `RefreshSteps.GetTokenIsItsSteps`: the lock itself is left to `LockedRotation`; entering the critical section is a step that is always possible.
- Errors carry no message text where the source formats one; signing and expiry failures of `generate_pair` are one refusal in `Signaling`.
- `RotationProtocol.SidesAgree`: a token is saved or deleted only while no call is refreshing it.
- `RotationProtocol.SidesAgree`: one participant context, and the provider's flow id is the consumer's identifier; other contexts have stores of their own.
- `LockedRotation.NeverRefusedAsStale`: assumes concurrent calls use different owners, no guarded lease runs out before its unlock, and bound tokens verify as signed; the lock is the in-memory one.
- `LockTransactions.CommittedCount`: row locks are held to commit; no row expires and `release_locks` does not run meanwhile; one identifier.
- `LockGuards.NoAcquireWhileGuarded`: `release_locks` does not run.
- `PostgresLocks.ManagersLookAlike`: every lock call sweeps, no two calls overlap; counts are below 2^31 where the column would overflow. Overlap is in `LockTransactions`, and in `LockInternal` through arbitrary tables left by others.
- `RenewableTokenStore.StoresAgreeOnRuns`: the operations of the Postgres store are atomic, one at a time.
- `TokenClient.MemoryTokenStore.GetToken`: `lastAccessed` is updated, but removing tokens by it is not modelled.
- `TokenClient.VaultTokenStore.GetToken`: Vault answers; removing a secret and trimming the configured subpath are not modelled.
- `Backoff.IntervalBounds`: no jitter; base durations are whole nanoseconds, while the percentage of the lease they come from is floating point in the source.
- `VaultTokenCache.AcquisitionsPerWindow`: the renewal percentage is a rational; the exchange takes no longer than the write lock is held.
- `TransitKeys.KidResolvesToNamedVersion`: versions are never trimmed, which `KidsRightIff` shows to be needed; a failing Vault call adds no step; the format of a key is the parameter `convert`.
- `TransitKeys.Sort`: stands for the library's unstable sort, which on numbers is any sort.
- `Json.ParseQuote`: the grammar is that of string literals; how other JSON texts are read is a parameter, and characters are code points.
- `Signaling.ReadsWhatWasWritten`: whole seconds within i64, as far as the source's subtraction does not overflow.
- The data plane SDK's flow and data address are not part of this model beyond the fields used; the projection of a flow for expressions is the parameter `project`.
- `S3Paths.VirtualHostedReadsBack`: port parsing, request signing and header handling are not modelled.
- Authorization rules, signing-key and transfer-type stores, management handlers, DID documents, configuration loading and start-up: lookups and straight-line decisions over one map.
