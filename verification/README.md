# Token states, stores, sessions and events: a verified model

better-token keeps login credentials as token states in a shared store. This project models its four cores in
Dafny and proves what they promise over all inputs and all interleavings.

- **The token-state protocol** (`Tokens`, `AtomicStore`, `ManagerSteps`, `Protocol`, `ProtocolSafety`, `Faults`). Any
  number of Managers, each with its own settings, share one store. Every Manager operation is the sequence of store
  calls it makes; a program point keeps the locals that are live, and calls of different operations interleave freely.
  A call may also fail without effect. Invariants over all runs give conservation of claims, the order of statuses,
  what the owner of a claim may rely on, and what an operation does about a call that failed.
- **One Manager over the memory store** (`MemoryStore`, `Issued`, `Manager`, `Lineage`). The memory store is a class
  that keeps a ghost reference store which never evicts; every method is proved to do to the reference store exactly
  what the store contract says. On top of it the Manager's methods are proved to leave exactly the store they
  should, with states that say what the caller gave (`Issued`), and a login followed by any number of rotations to
  leave one unbroken chain.
- **The two together** (`Alone`). Every operation of the protocol, run alone, does what the Manager's method does, or
  what is stated for it where the Manager has none; every reply brings it closer to its end.
- **Redis and the database** (`RedisKeys`, `RedisTokens`, `RedisCalls`, `RedisSessions`, `Database`, `DatabaseCalls`,
  with `Clients`). A call is a read followed by one atomic script or conditional UPDATE, with anything in between;
  `RedisCalls` and `DatabaseCalls` say what a call does in terms of what its caller asked for.
- **Session values** (`SessionClone`, `SessionCycles`, `SessionNumbers`, `NumberGrammar`): the memoised copy on real
  heap objects, the cycle check, and the exact integer reader.
- **The asynchronous event bus** (`EventBus`, `EventBusProgress`): publishers, editors, closers and workers, one
  primitive operation a step, and what is left of a call when nothing is in its way.

## Assumptions

- The store of the protocol implements `AtomicStore` (core/store.go:28-45): each call takes effect at one instant or
  fails without effect. Manager and store share one clock that never goes back; the clock may move between the
  store's reading and the Manager's.
- The digest behind a storage key is a parameter. Nothing is assumed of it in the protocol; the sequential Manager
  and the lineage need it to be non-empty and free of collisions (`Manager.Safe`).
- Fresh tokens are stated as counts: "issued once" means the key was saved once so far.
- JSON encoding and decoding are an exact pair, so a serialized state is its value. A Lua script and an SQL statement
  are atomic. Redis keys vanish some time after their deadline; markers do not vanish before their token.
- Go strings are byte strings in `RedisKeys`; elsewhere text is compared whole. White space is Unicode's.
- The grammar of numbers is section 6 of RFC 8259, the encoding of subjects section 5 of RFC 4648.

## Where the code and its contract part

- A Redis swap can be refused although the stored state reads as the expected one all the time (core/store.go:33-35
  asks for a refusal only when the state differs). `RedisTokens.SpuriousRefusalIff` gives the exact condition: what
  the call reads is in the form of an older release (a marker, or a state lacking kind, status or login type), and the
  state can be saved, so that another call may write it in the present form before the script runs.
- A Redis swap or consumption can be granted for a state that has expired since its call read the clock.
  `RedisTokens.LateSwapIff` and `LateConsumptionIff` give the exact condition over every continuation: the state has an
  expiry, and either its key outlives it (its life is measured at the read and runs from the script,
  `RedisTokens.LifeWithinMillisecond`) or it is stored in the present form and can be saved, so that another call may
  write the same bytes anew before the script compares them.
- A consumption in the database is judged by the clock of its SELECT as well (storage/database/store.go:244-268).
  `Database.LateConsumptionIff`: with the row left alone it can consume an expired row exactly when the row has an
  expiry; where the row lock is dropped always, since another call can save the same state with a lifetime.
- A consumption that selects an expired row deletes by token alone (storage/database/store.go:246-248).
  `DatabaseCalls.DeletesLiveIff`: with the row left alone it deletes what has expired; where the row lock is dropped it
  can always delete a live row, saved in between.
- A Redis lookup reads the newer index of a subject first and the older one second, so a save in between moves a token
  past both. `RedisTokens.LookupCanMissIff`: a live token can be missed exactly when it is in the older index only and
  its state can be saved. DeleteTokenStates and the logouts look up in this way and leave what the lookup missed.
- Reading and deleting a Redis session each take two steps, and a migration between them moves the session past both.
  `RedisSessions.ReadCanMissIff` and `DeletionCanMissIff`: it can happen to a call exactly when, before the call, the
  session still lies under the key of the older layout. What a deletion does achieve beside other calls is
  `DeletedUnlessMigrated`, `DeletedUnlessWritten` and `DataIsDeleted`.
- core/refresh.go:199-204: the claim deletes the old access token, even when a reusable refresh token names itself as
  that; `Manager.ClaimSurvives` and `Manager.Manager.Refresh` state the failure that follows.
- `Database.SelectsAsContractedIff`: lookups compare the stored columns with the normalized subject, so a state saved
  for a subject that is not normalized is found by nobody. Managers save normalized subjects only.
- `RedisKeys.LegacyKeysCollideIff`: exactly which subjects share a key of the older layout.

## Model

| member | source | states |
|---|---|---|
| Tokens.EffectiveExpiresAt | core/state_lifetime.go:13-29 | a saved state is past its deadline exactly when its own expiry or now plus a positive ttl is |
| Tokens.TrimmedText | core/manager.go:522-530 | trimming removes white space at the two ends only, and all of it |
| Tokens.TrimIdempotent | core/manager.go:539-546 | a trimmed token keeps its storage key |
| Tokens.MarkedAsSaid | core/token_state.go:142-154 | a consumed or revoked mark changes the status and the one time stamp that goes with it, and nothing else |
| Tokens.NormalMeans | core/token_state.go:100-131 | normalizing makes up for what a state lacks, keeps the rest, and leaves it as active as it was |
| Tokens.SubjectsAreTexts | core/login_subject.go:13-26 | two subjects are one exactly when their texts are, white space aside and a blank type meaning "login" |
| Tokens.KeysAreTexts | core/manager.go:513-537 | where the digest tells two trimmed tokens apart so do their storage keys, and only a blank token has none |
| AtomicStore.SavedLives | core/state_lifetime.go:13-29 | a saved state is visible up to the earlier of the end of its lifetime and its own expiry, exclusive |
| AtomicStore.DeleteAllMeans | core/store.go:47-58 | a deletion by subject takes exactly that subject's states of the kinds named, or of all kinds if none is |
| Protocol.StatusOrder | core/refresh.go:337-371 | no store call of any operation makes a state active but a save and the claim's owner giving it back; revoked stays revoked; kinds never change |
| Protocol.HoldMoves | core/refresh.go:173-194 | a claim is taken up only by winning it and laid down by a granted finalize or restore |
| Protocol.RunKeepsInv | core/refresh.go:140-277 | every reachable world keeps the invariant: sound points, derived keys only, and for every key claims, holders and active states within what was issued |
| ProtocolSafety.RefreshConservation | core/refresh.go:173-194 | rotating claims, reusable claims in flight and an active stored refresh never exceed the issues of the key |
| ProtocolSafety.NonceConservation | core/nonce.go:68-141 | accepted nonces and an active stored one never exceed the nonces generated under the key |
| ProtocolSafety.ClaimExcludes | core/refresh.go:173-194 | the claim on a token issued once is a lock: one holder, not active while held, nothing after a rotating claim |
| ProtocolSafety.AtMostOnce | core/refresh.go:316-335 | a refresh token issued once is rotated by one call at most, and a nonce generated once is accepted by one, and then neither is active |
| ProtocolSafety.NoRevival | core/manager.go:480-494 | in every run a key not saved turns active only if it was consumed, and by the very step in which a holder of its claim is granted the swap that gives it back |
| ProtocolSafety.DeadIsFinal | core/refresh.go:337-371 | in every continuation a deleted key stays absent and a revoked one revoked or absent until saved again |
| ProtocolSafety.FinalizeGrantedIff | core/refresh.go:223-260 | finalize and restore match exactly when the claimed token is still live and neither deleted nor revoked |
| ProtocolSafety.RestoreAfterRefusalRefused | core/refresh.go:180-194 | after a refused finalize the restore is refused too, whatever happened in between |
| ProtocolSafety.UndoneAccessStaysAbsent | core/refresh.go:252-260 | the next access token the caller gave to a refresh that could not finish stays absent from the store until its key is saved again |
| ProtocolSafety.LoserTouchesOnlyItsToken | core/refresh.go:166-178 | before it has won the claim a refresh changes no other token and no session, and losing ends it in failure |
| ProtocolSafety.PlaintextNeverStored | core/manager.go:513-546 | over every run stored tokens and the tokens they name are storage keys, while finished calls return the caller's trimmed plaintext |
| Faults.FailedCallFails | core/refresh.go:252-260 | in every run an operation one of whose store calls failed ends in failure |
| Faults.ClaimIsOfferedBack | core/refresh.go:180-194 | in every run a refresh that claimed a reusable token and fails, for whatever reason, has called the swap that gives it back as it was found |
| Faults.AccessIsTakenBack | core/refresh.go:98-102 | in every run a login or refresh that cannot store its refresh state goes on to delete the very access token it was given, and answers both tokens if it can |
| Faults.AnsweredIsStored | core/refresh.go:251-276 | in every run the refresh token answered is stored at that moment, under its key, with the state answered |
| Faults.StatesLiveTheirTime | core/online.go:145-154 | in every run every stored state lives exactly to its own expiry, however late the store served the call that stored it |
| Alone.EveryReplyHelps | core/manager.go:57-130 | every reply, whatever else happens, brings a call closer to its end in one well-founded order, so that no operation runs for ever |
| Alone.EveryOperationEnds | core/refresh.go:140-277 | every operation can be carried out on every store |
| MemoryStore.InverseAfterSave | storage/memory/store.go:344-373 | the subject index stays the exact inverse of the token map, without empty sets, when a token comes in |
| MemoryStore.InverseAfterRemoval | storage/memory/store.go:364-373 | the same when a token goes |
| MemoryStore.AgreeingStoresShowTheSame | storage/memory/store.go:375-394 | lazy eviction is invisible at every later instant |
| MemoryStore.Store.SaveTokenState | storage/memory/store.go:60-62 | does to the reference store what Save does, and fails exactly for states that cannot be saved |
| MemoryStore.Store.CompareAndSwapTokenState | storage/memory/store.go:64-112 | granted exactly when the visible state is the expected one, and then replaces it; never inserts |
| MemoryStore.Store.GetTokenState | storage/memory/store.go:114-144 | answers as the reference store, which it leaves alone |
| MemoryStore.Store.ConsumeTokenState | storage/memory/store.go:157-180 | consumes and answers as the reference store |
| MemoryStore.Store.FindTokenStates | storage/memory/store.go:193-224 | through the index and while evicting, lists what a full scan of the reference store lists, each state once |
| MemoryStore.Store.DeleteTokenStates | storage/memory/store.go:226-246 | deletes what a full scan selects and nothing else |
| MemoryStore.Store.EnsureSession | storage/memory/store.go:275-298 | creates a missing or expired session, keeps the data of a live one, sets the lifetime |
| Manager.CascadeStep | core/online.go:51-93 | logging out one access token after others takes along what logging them all out does |
| Manager.ExclusiveLogin | core/manager.go:80-130 | after a login that is not concurrent the subject of the login ID and type given has exactly the new access state and at most the refresh to keep, and no other subject loses a token |
| Manager.RefreshIsGrantedIff | core/refresh.go:140-178 | exactly when a refresh may claim its token, and which of the refusals it meets |
| Manager.RefreshedIsPassedOn | core/refresh.go:195-277 | what a refresh leaves and answers: an access state for the owner of the refresh token with device and metadata as given or inherited, the old access gone, the refresh token reused or spent in a new one that names its predecessor |
| Manager.LoginIssuesTogether | core/refresh.go:91-102 | a login leaves an access and a refresh token that name one another and one owner |
| Manager.RefreshIssuesTogether | core/refresh.go:233-255 | and so does every refresh, rotating or not |
| Manager.LogoutTakesRefresh | core/manager.go:303-321 | logging out the access token of such a pair takes the refresh token along |
| Manager.RefreshTakesAccess | core/refresh.go:199-209 | and using the refresh token of such a pair ends the access token |
| Issued.AccessIsIssued | core/manager.go:94-114 | the access state issued says whose it is by the trimmed login ID and the type given, carries device and metadata, and lives for the timeout |
| Issued.RefreshIsIssued | core/refresh.go:115-137 | the refresh state issued names the access state and takes its owner, device and metadata |
| Issued.RotatedIsIssued | core/refresh.go:235-239 | a rotated one also names its predecessor and the time of use |
| Issued.ReactivatedIsReused | core/refresh.go:240-250 | a reused one keeps owner, expiry and predecessor, and names the new access state and the time of use |
| Manager.ClaimSurvives | core/refresh.go:173-260 | after what a reusable refresh does between claim and finalize its claim still matches, if and only if the claim has not deleted it |
| Manager.RestoreGivesBack | core/refresh.go:180-194 | the deferred restore gives a reusable token back after a failed login, and does nothing after a failed finish |
| Manager.Manager.ConsumeNonce | core/nonce.go:106-141 | accepted exactly when stored, active and a nonce; then marked consumed and nothing else, and returned under its plaintext; a refusal changes nothing |
| Manager.Manager.LogoutByDevice | core/online.go:51-93 | the store is the old one minus the subject's visible access states on the device minus exactly the refresh states linked to them |
| Manager.Manager.Logout | core/manager.go:250-270 | the store is the old one minus the token minus exactly the refresh states linked to it; a refusal changes nothing |
| Manager.Manager.RevokeRefreshForAccessToken | core/manager.go:303-321 | deletes exactly the visible refresh states of the subject issued with the access token |
| Manager.Manager.RevokeRefreshExcept | core/manager.go:327-346 | deletes the subject's refresh states but the one to keep |
| Manager.Manager.LoginState | core/manager.go:57-130 | refused without effect, or the subject's access and refresh states replaced as configured, an access state stored for what was given and a session ensured with the login's lifetime |
| Manager.Manager.Login | core/manager.go:38-55 | the same for a login by a user, whose nonce is spent first; what is answered is what is stored, under the plaintext token |
| Manager.Manager.LoginWithRefresh | core/refresh.go:78-113 | refused without effect, or access and refresh state issued together, each as the caller gave it, returned in plaintext, and the session ensured |
| Manager.Manager.Refresh | core/refresh.go:140-277 | for every input and store: refused without effect for exactly the reasons of its checks; or the refresh passed on as stated above, and the session ensured; a login that fails after the claim gives a reusable refresh back as it was; one that names itself as its access token fails and leaves no new access token |
| Alone.LoginAlone | core/manager.go:46-55 | the store calls of a login, served one after the other, amount to the method's outcome |
| Alone.LoginWithRefreshAlone | core/refresh.go:77-113 | the same for a login with a refresh token |
| Alone.RefreshAlone | core/refresh.go:140-277 | the same for a refresh, with its claim, its restore and its undoing |
| Alone.LogoutAlone | core/manager.go:250-270 | the same for a logout and the refresh tokens it takes along |
| Alone.LogoutByDeviceAlone | core/online.go:51-93 | the same for a logout by device, token by token |
| Alone.ConsumeNonceAlone | core/nonce.go:105-141 | the same for the consumption of a nonce |
| Alone.GenerateNonceAlone | core/nonce.go:67-103 | one nonce state is stored for subject, purpose and metadata, active for the nonce timeout, and its plaintext answered |
| Alone.GetTokenStateAlone | core/manager.go:132-197 | answers the active state in plaintext, or says why not; with auto-renewal an access state is touched, its expiry moved and the session's lifetime set |
| Alone.RenewAlone | core/manager.go:204-233 | sets the expiry asked for, touches the state, changes nothing else in it, and gives the session that lifetime |
| Alone.MarkOnlineAlone | core/online.go:96-118 | records the presence given, keeping an earlier time of leaving, and refuses any but access states |
| Alone.MarkOfflineAlone | core/online.go:121-143 | records the time of leaving and nothing else |
| Alone.RevokeRefreshTokenAlone | core/refresh.go:337-371 | marks a refresh state revoked, whatever its status, for the rest of its life; refuses others without effect |
| Alone.LogoutByLoginIDAlone | core/manager.go:272-300 | takes exactly the subject's access states, its refresh states where logouts revoke them, and the session if asked to |
| Alone.RevokeRefreshByLoginIDAlone | core/refresh.go:373-392 | takes exactly the subject's refresh states |
| Alone.ListTokenStatesAlone | core/online.go:26-49 | lists exactly the subject's visible access states, each once |
| Alone.SaveSessionAlone | core/manager.go:365-379 | puts the data under the normalized subject, to live for the login timeout |
| Alone.DeleteSessionAlone | core/manager.go:381-388 | removes the session of that subject only |
| Lineage.RotationIsGranted | core/refresh.go:140-178 | the head of a chain, in time and with new tokens, is never refused |
| Lineage.RotationExtendsChain | core/refresh.go:195-277 | a rotation consumes the head, replaces its access token and links the new head to it |
| Lineage.ChainIsFollowed | core/refresh.go:233-236 | RotatedFrom leads from any link through all earlier ones to the first issue |
| Lineage.RotationLineage | core/refresh.go:77-277 | for any n, after n rotations one access token and one active refresh are stored, all earlier refreshes consumed, and RotatedFrom visits them all |
| RedisKeys.RoundTrip | storage/redis/store.go:365-367 | unpadded base64url decodes to what was encoded, for all byte strings, and contains no colon |
| RedisKeys.EncodedIsInjective | storage/redis/store.go:381-389 | different subjects never share a v2 key |
| RedisKeys.KeysAreDistinct | storage/redis/store.go:368-389 | token, marker, index and session keys are the same text only if they are the same key; legacy keys only within a family with the same joined text |
| RedisKeys.LegacyKeysCollideIff | storage/redis/store.go:368-371 | two subjects share a legacy key if and only if one type continues the other across the separator |
| RedisKeys.LegacyKeysCollide | storage/redis/store.go:296-300 | two subjects that the legacy layout confuses and the v2 layout does not |
| RedisTokens.LifeWithinMillisecond | storage/redis/store.go:393-407 | a key lives to the deadline of the contract, up to a millisecond and the delay between the measuring and the script |
| RedisTokens.IndexStaysComplete | storage/redis/store.go:336-364 | in every interleaving of saves, consumptions, deletions, pruning lookups and vanishing keys each stored token stays in its owner's indexes (that they do what they are for is `RedisCalls`) |
| RedisCalls.SaveTakesEffect | storage/redis/store.go:98-144 | in every execution a save or swap whose script finds the token as it was read stores what its caller gave, normalized and unmarked, for the life asked for, and moves it from the old owner's indexes to the new one's; otherwise it does nothing |
| RedisCalls.SwapGoesOnIff | storage/redis/store.go:108-122 | a swap is refused at its read exactly when it does not find there what it expects, unexpired |
| RedisCalls.ConsumptionTakesEffect | storage/redis/store.go:199-229 | in every execution a consumption marks what its read found, keeps its life and its place in the indexes, and clears the marker; or it does nothing |
| RedisCalls.ConsumptionGoesOnIff | storage/redis/store.go:199-214 | a consumption has a script to run exactly when its read finds an active state of the kind |
| RedisCalls.DeletionTakesEffect | storage/redis/store.go:353-364 | in every execution a deletion whose script finds the token as it was read removes state, marker and both index entries and shows everybody else the rest; otherwise it does nothing |
| RedisCalls.DeletionGoesOnIff | storage/redis/store.go:231-239 | a deletion has a script to run exactly when the token is there |
| RedisCalls.LookupDisturbsNothing | storage/redis/store.go:262-310 | in every execution what a lookup cleans up is missing or expired: no live state goes or leaves an index |
| RedisCalls.ShownAsMarked | storage/redis/store.go:156-171 | a reader sees the stored state in the present form, and an active one under a marker as consumed |
| RedisCalls.IndexesAreSeparate | storage/redis/store.go:365-389 | subjects have indexes of their own; the older ones are shared only where a login type contains a colon |
| RedisTokens.SwapLinearizes | storage/redis/store.go:98-144 | in every execution a granted swap found the expected state at its script, unexpired when the call read the clock, changes that state only and never inserts; one refused for a snapshot in the present form found another state |
| RedisTokens.SpuriousRefusalIff | storage/redis/store.go:98-144 | from every reachable world a swap of what is stored can be refused although it is there all the time, if and only if the call reads the form of an older release and the state can be saved |
| RedisTokens.SpuriousRefusal | storage/redis/store.go:156-171 | the case an upgrade meets: an active state under a marker |
| RedisTokens.LateSwapIff | storage/redis/store.go:98-144 | some continuation grants a swap begun now for a state expired since, if and only if the state has an expiry and its key outlives it or the same bytes can be written anew; the same with the key alive all the time, if it is alive now |
| RedisTokens.LateConsumptionIff | storage/redis/store.go:199-229 | the same for consumptions |
| RedisTokens.LateSwap | storage/redis/store.go:98-144 | a state whose key does not outlive it, for which a swap is granted late all the same |
| RedisTokens.ConsumeLinearizes | storage/redis/store.go:199-229 | a successful consumption found the state active and changed only it; a failed one changed nothing |
| RedisTokens.ConsumersBounded | storage/redis/store.go:347-352 | each active write of a token has at most one successful consumption |
| RedisTokens.Store.SaveTokenState | storage/redis/store.go:76-144 | alone: granted exactly when the state can be saved and, for a swap, the expected one is there, unexpired; then that one state changes |
| RedisTokens.Store.GetTokenState | storage/redis/store.go:173-186 | alone: answers the unexpired state and removes an expired one |
| RedisTokens.Store.ConsumeTokenState | storage/redis/store.go:188-229 | alone: answers the state as it was, and consumes it exactly if it is active and of the kind |
| RedisTokens.Store.DeleteTokenState | storage/redis/store.go:231-247 | alone: the token is gone, with its marker, and every other one shown as before |
| RedisTokens.Store.DeleteTokenStates | storage/redis/store.go:312-334 | alone: exactly the subject's live states of the kinds are gone |
| RedisTokens.Store.FindTokenStates | storage/redis/store.go:249-310 | with nothing beside it, each live state of subject and kind exactly once, however the two indexes overlap, collide or lag, and no live state is disturbed |
| RedisTokens.LookupMissesOnlyMoved | storage/redis/store.go:249-310 | in every execution a lookup passes by a token that is its subject's at both its steps if and only if that was moved from the older index to the newer in between |
| RedisTokens.LookupCanMissIff | storage/redis/store.go:249-310 | from every reachable world a live token can be missed if and only if it is in the older index only and its state can be saved |
| RedisSessions.ExecutionKeepsInv | storage/redis/session.go:71-95 | from legacy data only, in every interleaving a v2 session means no legacy value owned by its subject |
| RedisSessions.WriteTakesEffect | storage/redis/session.go:23-69 | ensuring keeps the data there is and sets the lifetime, saving replaces it, a write that lost the comparison does nothing |
| RedisSessions.SaveTakesEffect | storage/redis/session.go:23-69 | in every execution a save leaves the subject with what its caller gave, for the life asked for, and takes its old value away; or, if the shared key changed since its read, does nothing |
| RedisSessions.EnsureTakesEffect | storage/redis/session.go:23-69 | the same for an ensuring call, which keeps the session there is, wherever it lies |
| RedisSessions.DeleteTakesEffect | storage/redis/session.go:121-151 | in every execution the first half of a deletion removes what it read under the subject's own key, if that is still there, and nothing else |
| RedisSessions.DeleteLegacyTakesEffect | storage/redis/session.go:121-151 | and the second half the subject's own value under the shared key |
| RedisSessions.SubjectsAreSeparate | storage/redis/session.go:89-95 | in every execution no step taken for one subject changes what another sees, even under a shared legacy key |
| RedisSessions.MigratedDataStaysGone | storage/redis/session.go:71-74 | migrated data never comes back, when the v2 key expires or otherwise |
| RedisSessions.ReadIsCurrentUnlessMigrated | storage/redis/session.go:97-119 | a read returns the session of one of its two steps, and misses one there at both if and only if it was migrated in between |
| RedisSessions.ReadCanMissIff | storage/redis/session.go:97-119 | from every reachable world a read can miss a session that is there, unchanged, all the time, if and only if it lies under the shared legacy key |
| RedisSessions.DeletedUnlessMigrated | storage/redis/session.go:121-151 | in every execution a deletion leaves nothing of its subject under the shared key, and nothing at all if and only if the subject's own key is empty when it ends |
| RedisSessions.DeletedUnlessWritten | storage/redis/session.go:121-151 | in every execution a deletion beside which no write for its subject runs leaves no session |
| RedisSessions.DataIsDeleted | storage/redis/session.go:121-151 | with nothing under the shared key at its beginning, and no save beside it, a deletion leaves no data, only at most an empty session ensured anew |
| RedisSessions.DeletionCanMissIff | storage/redis/session.go:121-151 | from every reachable world a deletion can leave the session it found, with no save beside it, if and only if that lies under the shared legacy key |
| RedisSessions.OldDataCanBeMissed | storage/redis/session.go:71-74 | the case an upgrade meets: data of the older layout, missed by a read and left by a deletion |
| RedisSessions.Store.WriteSession | storage/redis/session.go:23-69 | alone, ensures or saves exactly that, for one subject only, and fails exactly for the empty subject |
| RedisSessions.Store.GetSession | storage/redis/session.go:97-119 | alone, answers a value if and only if one of the subject's two keys holds it as the subject's own; there is never more than one, so the order of the reads does not matter |
| RedisSessions.Store.DeleteSession | storage/redis/session.go:121-151 | alone, leaves the subject without a session and everybody else untouched |
| Database.ExecutionKeepsInv | storage/database/store.go:134-170 | in every interleaving the columns agree with the serialized state and no row outlives its state |
| Database.SwapIsExact | storage/database/store.go:146-171 | SELECT and UPDATE together are the contract's swap: granted exactly when it matches, refused only when it did not, never inserting |
| DatabaseCalls.SwapTakesEffect | storage/database/store.go:114-171 | in every execution a swap past its SELECT is granted exactly when it matches at its UPDATE, and then puts the new state, normalized, with the deadline of a save at the time of the call, in place of the expected one |
| DatabaseCalls.BegunSwap | storage/database/store.go:146-160 | it is refused at its SELECT exactly when the state there is not the expected one |
| DatabaseCalls.SaveIsExact | storage/database/store.go:172-176 | a save is the contract's Save, over whatever row is there |
| DatabaseCalls.DeleteIsExact | storage/database/store.go:301-306 | a deletion is the contract's Delete |
| Database.ConsumeIsExact | storage/database/store.go:258-268 | the UPDATE hits exactly when the row is unchanged and in time by the clock of the SELECT, and then is the contract's Consume at that time |
| DatabaseCalls.SelectAnswers | storage/database/store.go:228-256 | what the SELECT of a consumption decides: consumed next, answered as it is, missing, or expired |
| DatabaseCalls.ConsumptionTakesEffect | storage/database/store.go:257-293 | in every execution the UPDATE marks what the SELECT found, for the rest of its life, and answers it as it was; or it changes nothing and reads again |
| DatabaseCalls.LosersAnswer | storage/database/store.go:274-292 | one that lost answers what is stored by then, an error if that could be consumed again, or nothing |
| DatabaseCalls.DeletesLiveIff | storage/database/store.go:244-249 | from every reachable world a consumption that selects an expired row can delete a live one if and only if the row is not left alone |
| Database.LateConsumptionIff | storage/database/store.go:219-268 | from every reachable world a consumption can come too late for the row it selects: with the row left alone if and only if the row has an expiry, else always |
| Database.ActiveAnswerMeansHit | storage/database/store.go:270-293 | a caller is shown an active state of the wanted kind exactly by the transaction whose UPDATE hit |
| Database.WinnersBounded | storage/database/store.go:219-299 | each active write of a row is consumed at most once |
| Database.SelectsAsContractedIff | storage/database/store.go:308-330 | a row is selected as contracted for every subject and kinds if and only if it was saved with a normalized subject |
| Database.Store.GetTokenState | storage/database/store.go:179-206 | answers as the reference store, and deletes only what has expired |
| Database.Store.FindTokenStates | storage/database/store.go:308-341 | when states are saved with normalized subjects, lists each visible one once; deletes only what has expired |
| Database.Store.DeleteTokenStates | storage/database/store.go:343-353 | deletes what the contract's deletion by subject deletes, when states are saved with normalized subjects |
| SessionClone.CloneValue | core/session.go:104-151 | terminates on every finite container graph, cyclic or shared, with new objects only, each node filled once and answered from the memo after, partly filled ones included |
| SessionClone.Clone | core/session.go:82-96 | the copy is made of new objects, complete, one for each container; the source is not written |
| SessionClone.WalkCopied | core/session.go:82-84 | every way through the source is a way through the copy |
| SessionClone.WalkFromSource | core/session.go:82-84 | every way through the copy comes from the source |
| SessionClone.ClonePreservesSharing | core/session.go:98-102 | two ways meet in the copy exactly when they meet in the source |
| SessionCycles.Checker.Check | core/session.go:352-426 | reports exactly what the search can meet on its path, whatever the order of map entries, terminates, and leaves the path as it found it |
| SessionCycles.Checker.CheckSession | core/session.go:294-312 | an error if and only if a cycle is reachable from the session |
| SessionCycles.HitIsCycle | core/session.go:367-371 | what is reported is a cycle of the source and not an artefact of copying sessions |
| SessionCycles.LongWalkHits | core/session.go:375-378 | a walk longer than the lexicographic measure runs into the path |
| SessionCycles.FoundIffCycle | core/session.go:350-351 | the search finds something if and only if a walk along visible edges repeats |
| SessionNumbers.DenotesOne | core/session.go:179-181 | a number text denotes one integer at most |
| SessionNumbers.IsNumberExact | core/session.go:189-191 | a text passes the validity check exactly when the grammar can produce it |
| SessionNumbers.SplitText | core/session.go:192-206 | splitting recovers the parts a number text was written from |
| NumberGrammar.NumbersAreScanned | core/session.go:189-191 | the validity check agrees, on every text, with a scanner that reads the grammar one character at a time |
| NumberGrammar.DenotesValue | core/session.go:179-181 | a number text denotes an integer exactly if its real value, digits before and after the point times a power of ten, is that integer |
| NumberGrammar.ReadsAsValue | core/session.go:179-242 | what `GetInt64` must return, in terms of that value: it, if it is an integer of 64 bits, and 0 otherwise |
| SessionNumbers.ReadExponent | core/session.go:196-203 | the exponent is read exactly, or does not fit an int64 |
| SessionNumbers.ReadScaled | core/session.go:212-241 | digits times a power of ten: the exact value if it is an int64, else 0, with no int64 overflow on the way |
| SessionNumbers.GetInt64 | core/session.go:181-242 | for every number text the exact value when it is an integer in range and 0 otherwise; other text as ParseInt reads it, or 0 |
| EventBus.RunKeepsInv | core/async_event.go:82-163 | in every interleaving the counter is publishers between Add and send or Done, plus queued jobs, plus jobs held; jobs are received in order, by one worker each |
| EventBus.NothingPanics | core/async_event.go:134-156 | no send meets a closed queue, the queue is closed at most once, no Done takes the counter below zero |
| EventBus.AcceptedAsPublished | core/async_event.go:82-105 | in every run what a call gets accepted is the event it was entered with, together with the listeners registered at that moment |
| EventBus.ListenersAreRegistered | core/async_event.go:73-80 | in every run the listeners are those registered since the last clear, in order, and the bus is closed exactly if a Close has written |
| EventBus.FlushedMeansDispatched | core/async_event.go:119-132 | when a flush may return every accepted job has had each of its listeners called once with its event, in order |
| EventBus.ClosedMeansDispatched | core/async_event.go:134-178 | after a Close returned nil no job is accepted any more and all accepted ones have been dispatched exactly once |
| EventBusProgress.FlushCanReturn | core/async_event.go:119-163 | from every reachable state of a bus with a worker and room for a job the counter can reach zero by finishing what has been started |
| EventBusProgress.WorkAlone | core/async_event.go:158-178 | a worker can always finish its job: the calls that remain, in order, with the job's event |
| EventBusProgress.PublishAlone | core/async_event.go:82-99 | with room in the queue a publication is accepted with its event and the listeners of the moment, and leaves nothing else |
| EventBusProgress.GiveUpAlone | core/async_event.go:100-104 | one that is given up leaves everything as it was |
| EventBusProgress.PublishToClosed | core/async_event.go:84-92 | and so does one that finds the bus closed |
| EventBusProgress.EditAlone | core/async_event.go:73-111 | registering adds at the end, clearing takes all away |
| EventBusProgress.CloseAlone | core/async_event.go:134-156 | a Close with everything dispatched closes the bus and, once, its queue |
| EventBusProgress.CloseGivenUp | core/async_event.go:145-150 | one that is given up has closed the bus but not the queue |
| EventBusProgress.WorkersEnd | core/async_event.go:158-163 | once a Close has closed the queue every worker can end |

## Left out

- TokenState: a value here; that `Clone` separates a caller's state from the stored one is not modelled.
- Updates without `AtomicStore`: they promise no atomicity.
- Calls whose outcome is unknown, context cancellation, the clean-up timeout and the limits of 32 attempts: a call takes effect or fails without effect.
- Events, plugins, permissions, token and random generation, audit: plumbing around the cores.
- Manager.Manager.LogoutByDevice: one reading of the clock a call; the protocol modules let it move at every step.
- MarkOnline, MarkOffline, Renew, auto-renew, LogoutByLoginID and the revocations have no method in `Manager`; what they do is stated in `Alone`.
- RedisTokens.SwapLinearizes: the exact half asks for a snapshot in the present form, and expiry is judged at the read; `SpuriousRefusalIff` and `LateSwapIff` give the exact conditions.
- Markers of an older release that expire before their token.
- RedisTokens.Store.DeleteTokenStates: the call alone; beside others it is a lookup followed by the modelled deletions.
- Database.ExecutionKeepsInv: starts from an empty table; rows written before the kind and status columns existed are not modelled, nor is the session table.
- SessionClone.Clone: structures and pointers are copied as they are, as the code does, so they are leaves; reflection and the zero-length slices that share one address are not modelled.
- SessionCycles.Checker.Check: the containers of each nested copy are numbered instead of allocated; that copies are new and isomorphic is `SessionClone`. Values reached through unexported embedded fields are not modelled.
- SessionNumbers.GetInt64: the branches for floats and other integer types.
- Session locking, and reading sessions back from JSON.
- EventBus.NothingPanics: listeners that end their goroutine and error handlers that panic; reuse of the wait group by a flush racing with publishing.
