/** What the states that a login and a refresh issue say, in terms of what the caller gave: whose they are, what they
    carry, which access and which refresh token go together, and how long they live. */
module Issued {
  import opened Tokens
  import opened ManagerSteps
  import S = AtomicStore

  /** A time limit that is not positive sets none. */
  predicate LivesFor(state: TokenState, timeout: int, now: int) {
    state.expiresAt == if timeout > 0 then Some(now + timeout) else None
  }

  /** The state belongs to the login ID, without white space around it, under the login type, "login" if that is
      blank. */
  predicate BelongsTo(state: TokenState, loginID: string, loginType: string) {
    && state.loginID == TrimSpace(loginID)
    && (TrimSpace(loginType) != "" ==> state.loginType == TrimSpace(loginType))
    && (TrimSpace(loginType) == "" ==> state.loginType == "login")
  }

  /** A new active state of the kind under the key, carrying device and metadata and nothing else. */
  predicate IsNew(state: TokenState, key: TokenValue, kind: Kind, device: string, metadata: string, now: int) {
    && state.token == key && state.kind == kind && state.status == Active
    && state.device == device && state.metadata == metadata
    && state.createdAt == now && state.lastActiveAt == now && state.nonce.None? && state.online.None?
  }

  predicate IsAccessFor(cfg: Config, state: TokenState, key: TokenValue, loginID: string, loginType: string,
                        device: string, metadata: string, now: int)
  {
    && IsNew(state, key, Access, device, metadata, now) && BelongsTo(state, loginID, loginType)
    && LivesFor(state, cfg.timeout, now) && state.refresh.None?
  }

  /** A new refresh state for the owner, device and metadata of the access state it names. */
  predicate IsRefreshFor(cfg: Config, state: TokenState, key: TokenValue, access: TokenState, from: TokenValue,
                         lastUsedAt: Option<int>, now: int)
  {
    && IsNew(state, key, Kind.Refresh, access.device, access.metadata, now)
    && state.loginID == access.loginID && state.loginType == access.loginType
    && LivesFor(state, cfg.refresh.timeout, now) && state.refresh.Some?
    && var info := state.refresh.value;
    && info.accessToken == access.token && info.rotatedFrom == from && info.rotatedTo == ""
    && info.lastUsedAt == lastUsedAt && info.revokedAt.None?
  }

  /** A refresh state that has been used again: for the same owner, as long as before and from the same predecessor,
      it now names another access token, with the device and metadata of that. */
  predicate IsReused(was: TokenState, state: TokenState, access: TokenState, now: int) {
    && state.token == was.token && state.kind == was.kind && state.status == Active
    && state.loginID == was.loginID && state.loginType == was.loginType
    && state.createdAt == was.createdAt && state.expiresAt == was.expiresAt && state.lastActiveAt == now
    && state.device == access.device && state.metadata == access.metadata
    && state.nonce == was.nonce && state.online == was.online && state.refresh.Some?
    && var info := state.refresh.value;
    && info.accessToken == access.token && info.lastUsedAt == Some(now)
    && (was.refresh.Some? ==>
          && info.rotatedFrom == was.refresh.value.rotatedFrom && info.rotatedTo == was.refresh.value.rotatedTo
          && info.revokedAt == was.refresh.value.revokedAt)
    && (was.refresh.None? ==> info.rotatedFrom == "" && info.rotatedTo == "" && info.revokedAt.None?)
  }

  lemma AccessIsIssued(digest: Digest, cfg: Config, l: LoginInput, now: int)
    ensures IsAccessFor(cfg, AccessState(digest, cfg, l, now), StoreKey(digest, l.token), l.loginID, l.loginType,
                        l.device, l.metadata, now)
    ensures AccessState(digest, cfg, l, now).IsNormal()
  {
    TrimIdempotent(l.loginID);
    hide TrimSpace, StoreKey;
  }

  lemma RefreshIsIssued(digest: Digest, cfg: Config, token: TokenValue, access: TokenState, now: int)
    ensures IsRefreshFor(cfg, NewRefreshState(digest, cfg, token, access, now), StoreKey(digest, token), access, "",
                         None, now)
  {
    hide StoreKey;
  }

  lemma RotatedIsIssued(digest: Digest, cfg: Config, c: Claim, access: TokenState, now: int)
    ensures IsRefreshFor(cfg, RotatedState(digest, cfg, c, access, now), StoreKey(digest, c.input.nextRefresh), access,
                         StoreKey(digest, c.input.refreshToken), Some(now), now)
  {
    hide StoreKey;
  }

  lemma ReactivatedIsReused(c: Claim, access: TokenState, now: int)
    requires c.original.status == Active
    ensures IsReused(c.original, ReactivatedState(c, access, now), access, now)
  {
  }

  /** A state that is not expired, saved for the time it has left, lives exactly to its expiry. */
  lemma SavedForItsTime(state: TokenState, now: int)
    requires !state.IsExpired(now)
    ensures S.EntryFor(state, RemainingTTL(now, state), now) == S.Entry(state.Normalize(), state.expiresAt)
  {
  }

  // ----- what a refresh passes on

  /** What the caller asks for, or else what the refresh token carries. */
  function DeviceFor(was: TokenState, input: RefreshInput): string {
    if TrimSpace(input.device) != "" then TrimSpace(input.device) else was.device
  }

  function MetadataFor(was: TokenState, input: RefreshInput): string {
    if input.metadata != "" then input.metadata else was.metadata
  }

  predicate StoredForItsTime(tokens: map<TokenValue, S.Entry>, key: TokenValue) {
    key in tokens && tokens[key].deadline == tokens[key].state.expiresAt
  }

  /** The caller gets back what is stored, under the plaintext it gave. */
  predicate Answered(tokens: map<TokenValue, S.Entry>, key: TokenValue, answer: TokenState, plain: TokenValue) {
    StoredForItsTime(tokens, key) && answer == tokens[key].state.(token := TrimSpace(plain))
  }

  /** A login has stored and answered an access state for what it was given. */
  predicate LoggedInAs(digest: Digest, cfg: Config, l: LoginInput, after: map<TokenValue, S.Entry>, answer: TokenState,
                       now: int)
  {
    var key := StoreKey(digest, l.token);
    && Answered(after, key, answer, l.token)
    && IsAccessFor(cfg, after[key].state, key, l.loginID, l.loginType, l.device, l.metadata, now)
  }

  /** A refresh has passed on: the new access state is stored for the owner of the refresh token; the old access
      token is gone where refreshes revoke it; the refresh token lives on as itself, or as spent in another. */
  predicate PassedOn(digest: Digest, cfg: Config, before: map<TokenValue, S.Entry>, input: RefreshInput, now: int,
                     after: map<TokenValue, S.Entry>, r: Result)
  {
    var key, a := StoreKey(digest, input.refreshToken), StoreKey(digest, input.nextAccess);
    && r.Pair? && key in before && Answered(after, a, r.access, input.nextAccess)
    && var was, access := before[key].state, after[a].state;
    && IsAccessFor(cfg, access, a, was.loginID, was.loginType, DeviceFor(was, input), MetadataFor(was, input), now)
    && (cfg.refresh.revokeAccess && was.refresh.Some? && was.refresh.value.accessToken != "" ==>
          was.refresh.value.accessToken !in after)
    && if cfg.refresh.rotate then
         var next := StoreKey(digest, input.nextRefresh);
         && Answered(after, next, r.refresh, input.nextRefresh) && next != key
         && IsRefreshFor(cfg, after[next].state, next, access, key, Some(now), now)
         && (key in after ==> IsConsumed(was, after[key].state, now))
       else
         && Answered(after, key, r.refresh, input.refreshToken)
         && IsReused(was, after[key].state, access, now)
  }
}
