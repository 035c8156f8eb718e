/** A Manager over the in-memory store, one call at a time, each reading the clock once. What a call does to the
    store is stated on the reference store the memory store is proved equal to. */
module Manager {
  import opened Tokens
  import opened ManagerSteps
  import opened Issued
  import S = AtomicStore
  import M = MemoryStore

  type TokenMap = map<TokenValue, S.Entry>

  // ----- what a logout takes along

  /** The visible access states of the subject on the device. */
  function Named(tokens: TokenMap, subject: LoginSubject, device: string, now: int): set<TokenValue> {
    set k | k in tokens && S.IsLive(tokens, k, now) && S.Selected(tokens[k], subject, {Access})
            && TrimSpace(tokens[k].state.device) == device
  }

  predicate IsLinked(state: TokenState, accesses: set<TokenValue>) {
    state.refresh.Some? && state.refresh.value.accessToken in accesses && state.refresh.value.accessToken != ""
  }

  /** The visible refresh states of the subject issued together with one of the access tokens. */
  function Linked(tokens: TokenMap, subject: LoginSubject, accesses: set<TokenValue>, now: int): set<TokenValue> {
    set k | k in tokens && S.IsLive(tokens, k, now) && S.Selected(tokens[k], subject, {Kind.Refresh})
            && IsLinked(tokens[k].state, accesses)
  }

  function Cascade(cfg: Config, tokens: TokenMap, subject: LoginSubject, accesses: set<TokenValue>, now: int)
    : set<TokenValue>
  {
    if cfg.refresh.revokeOnLogout then Linked(tokens, subject, accesses, now) else {}
  }

  /** Logging out one more access token after others is logging all of them out. */
  lemma CascadeStep(cfg: Config, tokens: TokenMap, subject: LoginSubject, done: set<TokenValue>, t: TokenValue,
                    now: int)
    ensures var left := tokens - done - Cascade(cfg, tokens, subject, done, now);
            left - {t} - Cascade(cfg, left - {t}, subject, {t}, now)
            == tokens - (done + {t}) - Cascade(cfg, tokens, subject, done + {t}, now)
  {
    hide S.Selected, S.Entry.IsExpired;
    var left := tokens - done - Cascade(cfg, tokens, subject, done, now);
    var a := left - {t} - Cascade(cfg, left - {t}, subject, {t}, now);
    var b := tokens - (done + {t}) - Cascade(cfg, tokens, subject, done + {t}, now);
    forall k ensures k in a <==> k in b {}
  }

  function LinkedTokens(states: seq<TokenState>, access: TokenValue): set<TokenValue> {
    set s | s in states && IsLinked(s, {access}) :: s.token
  }

  lemma ListedLinks(tokens: TokenMap, subject: LoginSubject, access: TokenValue, now: int, states: seq<TokenState>)
    requires S.Lists(tokens, subject, {Kind.Refresh}, now, states)
    requires forall k :: k in tokens ==> tokens[k].state.token == k
    ensures LinkedTokens(states, access) == Linked(tokens, subject, {access}, now)
  {
    hide S.Selected, S.Entry.IsExpired;
  }

  function OnDeviceTokens(states: seq<TokenState>, device: string): set<TokenValue> {
    set s | s in states && TrimSpace(s.device) == device :: s.token
  }

  lemma ListedOnDevice(tokens: TokenMap, subject: LoginSubject, device: string, now: int, states: seq<TokenState>)
    requires S.Lists(tokens, subject, {Access}, now, states)
    requires forall k :: k in tokens ==> tokens[k].state.token == k
    ensures OnDeviceTokens(states, device) == Named(tokens, subject, device, now)
  {
    hide S.Selected, S.Entry.IsExpired, TrimSpace;
  }

  lemma LinkedPrefix(states: seq<TokenState>, i: nat, access: TokenValue)
    requires i < |states|
    ensures LinkedTokens(states[..i + 1], access) ==
            LinkedTokens(states[..i], access) + if IsLinked(states[i], {access}) then {states[i].token} else {}
  {
    hide IsLinked;
    assert states[..i + 1] == states[..i] + [states[i]];
  }

  lemma OnDevicePrefix(states: seq<TokenState>, i: nat, device: string)
    requires i < |states|
    ensures OnDeviceTokens(states[..i + 1], device) ==
            OnDeviceTokens(states[..i], device)
            + if TrimSpace(states[i].device) == device then {states[i].token} else {}
  {
    hide TrimSpace;
    assert states[..i + 1] == states[..i] + [states[i]];
  }

  lemma StoredUnderOwnToken(store: M.Store)
    requires store.Valid()
    ensures forall k :: k in store.model.tokens ==>
              store.model.tokens[k].state.token == k
              && store.model.tokens[k].state.Normalize() == store.model.tokens[k].state
  {
  }

  // ----- what a login and a refresh leave

  /** What a login keeps of the store: everything, or with exclusive logins all but the subject's access states
      and, where logins revoke them, its refresh states except the one to keep. */
  function Kept(cfg: Config, tokens: TokenMap, subject: LoginSubject, keep: TokenValue, now: int): TokenMap {
    if cfg.concurrent then tokens
    else
      var rest := WithoutKind(tokens, subject, Access);
      if !cfg.refresh.revokeOnLogout then rest
      else if keep == "" then WithoutKind(rest, subject, Kind.Refresh)
      else rest - OthersOf(rest, subject, keep, now)
  }

  function WithoutKind(tokens: TokenMap, subject: LoginSubject, kind: Kind): TokenMap {
    map k | k in tokens && !S.Selected(tokens[k], subject, {kind}) :: tokens[k]
  }

  function OthersOf(tokens: TokenMap, subject: LoginSubject, keep: TokenValue, now: int): set<TokenValue> {
    set k | k in tokens && k != keep && S.IsLive(tokens, k, now) && S.Selected(tokens[k], subject, {Kind.Refresh})
  }

  function LoggedIn(digest: Digest, cfg: Config, tokens: TokenMap, l: LoginInput, keep: TokenValue, now: int)
    : TokenMap
  {
    var access := AccessState(digest, cfg, l, now);
    Kept(cfg, tokens, access.Subject(), keep, now)
      [access.token := S.EntryFor(access, if cfg.timeout > 0 then cfg.timeout else 0, now)]
  }

  /** What a login does to the sessions: its subject has one, with the data it had, living as long as the login. */
  function Accompanied(cfg: Config, sessions: map<LoginSubject, S.SessionEntry>, loginID: string, loginType: string,
                       now: int): map<LoginSubject, S.SessionEntry>
  {
    var subject := LoginSubject(loginID, loginType);
    S.ApplySessions(sessions, now, S.EnsureSession(subject, if cfg.timeout > 0 then cfg.timeout else 0))
  }

  lemma AccessSubject(digest: Digest, cfg: Config, l: LoginInput, now: int)
    ensures var subject := AccessState(digest, cfg, l, now).Subject();
            && subject == LoginSubject(l.loginID, l.loginType).Normalize() && subject.Normalize() == subject
            && Accompanied(cfg, map[], subject.loginID, subject.loginType, now)
               == Accompanied(cfg, map[], l.loginID, l.loginType, now)
  {
    NormalizeTwice(LoginSubject(l.loginID, l.loginType));
    TrimIdempotent(l.loginID);
  }

  /** After an exclusive login the new access state is the only one the subject has, and no refresh state but the
      one to keep is left where logins revoke them. Nobody else loses anything but the key itself. */
  lemma ExclusiveLogin(digest: Digest, cfg: Config, tokens: TokenMap, l: LoginInput, keep: TokenValue, now: int)
    requires !cfg.concurrent
    ensures var after, key := LoggedIn(digest, cfg, tokens, l, keep, now), StoreKey(digest, l.token);
            var subject := LoginSubject(l.loginID, l.loginType);
            && (forall k :: k in after && S.IsLive(after, k, now) && S.Selected(after[k], subject, {Access})
                            <==> k == key)
            && (cfg.refresh.revokeOnLogout ==>
                  forall k :: && k in after && S.IsLive(after, k, now)
                              && S.Selected(after[k], subject, {Kind.Refresh})
                              ==> k == keep && k in tokens && after[k] == tokens[k])
            && (forall k :: k in tokens && k != key
                            && tokens[k].state.Subject().Normalize() != subject.Normalize()
                            ==> k in after && after[k] == tokens[k])
  {
    AccessSubject(digest, cfg, l, now);
    AccessIsIssued(digest, cfg, l, now);
    hide TrimSpace, StoreKey, LoginSubject.Normalize;
    var access := AccessState(digest, cfg, l, now);
    assert access.Normalize() == access;
  }

  /** A digest that is never empty and never collides on the tokens it is given. */
  ghost predicate Safe(digest: Digest) {
    && (forall t :: digest(t) != "")
    && (forall t, u :: digest(t) == digest(u) ==> t == u)
  }

  lemma CanSaveAccess(digest: Digest, cfg: Config, l: LoginInput, now: int)
    requires Safe(digest) && TrimSpace(l.loginID) != "" && TrimSpace(l.token) != ""
    ensures S.CanSave(AccessState(digest, cfg, l, now))
    ensures !AccessState(digest, cfg, l, now).Subject().Normalize().IsZero()
  {
    hide TrimSpace;
    TrimIdempotent(l.loginID);
    TrimIdempotent(l.token);
    NormalizeTwice(LoginSubject(TrimSpace(l.loginID), l.loginType));
  }

  function NonceError(digest: Digest, tokens: TokenMap, nonce: TokenValue, now: int): Option<Error> {
    var key := StoreKey(digest, nonce);
    if TrimSpace(nonce) == "" then Some(EmptyNonce)
    else NonceRefusal(if S.IsLive(tokens, key, now) then S.Found(tokens[key].state) else S.NotFound, now)
  }

  /** The key's state turned consumed. */
  function Spent(tokens: TokenMap, k: TokenValue, now: int): TokenMap
    requires k in tokens
  {
    tokens[k := tokens[k].(state := tokens[k].state.MarkConsumed(now))]
  }

  lemma NonceOutcome(digest: Digest, tokens: TokenMap, nonce: TokenValue, now: int)
    ensures var key := StoreKey(digest, nonce);
            && (TrimSpace(nonce) != "" ==>
                  (NonceError(digest, tokens, nonce, now).None? <==> S.Consumable(tokens, key, Some(Kind.Nonce), now)))
            && (S.IsLive(tokens, key, now) ==> !tokens[key].state.Normalize().IsExpired(now))
  {
    hide TrimSpace;
  }

  function LoginRefusal(digest: Digest, cfg: Config, tokens: TokenMap, l: LoginInput, enforceNonce: bool, now: int)
    : Option<Error>
  {
    if TrimSpace(l.loginID) == "" then Some(EmptyLoginID)
    else if TrimSpace(l.token) == "" then Some(EmptyToken)
    else if enforceNonce && cfg.requireNonce then NonceError(digest, tokens, l.nonce, now)
    else None
  }

  function AfterNonce(digest: Digest, cfg: Config, tokens: TokenMap, l: LoginInput, enforceNonce: bool, now: int)
    : TokenMap
  {
    var key := StoreKey(digest, l.nonce);
    if enforceNonce && cfg.requireNonce && key in tokens then Spent(tokens, key, now) else tokens
  }

  function OthersIn(states: seq<TokenState>, keep: TokenValue): set<TokenValue> {
    set s | s in states && s.token != keep :: s.token
  }

  lemma OthersPrefix(states: seq<TokenState>, i: nat, keep: TokenValue)
    requires i < |states|
    ensures OthersIn(states[..i + 1], keep) ==
            OthersIn(states[..i], keep) + if states[i].token != keep then {states[i].token} else {}
  {
    assert states[..i + 1] == states[..i] + [states[i]];
  }

  lemma ListedOthers(tokens: TokenMap, subject: LoginSubject, keep: TokenValue, now: int, states: seq<TokenState>)
    requires S.Lists(tokens, subject, {Kind.Refresh}, now, states)
    requires forall k :: k in tokens ==> tokens[k].state.token == k
    ensures OthersIn(states, keep) == OthersOf(tokens, subject, keep, now) && OthersIn([], keep) == {}
  {
    hide S.Selected, S.Entry.IsExpired;
  }

  /** Why a call on an active token is refused. */
  function UseError(digest: Digest, tokens: TokenMap, token: TokenValue, now: int): Option<Error> {
    var key := StoreKey(digest, token);
    if TrimSpace(token) == "" then Some(EmptyToken)
    else if !S.IsLive(tokens, key, now) then Some(TokenNotFound)
    else if tokens[key].state.Normalize().status != Active then Some(TokenInvalid)
    else None
  }

  /** Why a refresh is refused before it claims its token. */
  function RefreshRefusal(digest: Digest, cfg: Config, tokens: TokenMap, input: RefreshInput, now: int): Option<Error> {
    var trimmed, key := Trimmed(input), StoreKey(digest, input.refreshToken);
    var start := BeginRefresh(cfg, trimmed);
    if start.Finished? && start.result.Failure? then Some(start.result.error)
    else if !S.IsLive(tokens, key, now) then Some(RefreshTokenNotFound)
    else
      var state := tokens[key].state;
      if CheckRefresh(state, now).Some? then CheckRefresh(state, now)
      else ValidateNext(digest, cfg, state, trimmed)
  }

  /** The refresh token in the caller's hands and the tokens to come are real and different. */
  predicate IsUsable(cfg: Config, input: RefreshInput) {
    var refresh, access := TrimSpace(input.refreshToken), TrimSpace(input.nextAccess);
    var next := TrimSpace(input.nextRefresh);
    refresh != "" && access != "" && access != refresh && (cfg.refresh.rotate ==> next !in {"", refresh, access})
  }

  /** Exactly when a refresh is granted its claim: the tokens are usable, the stored refresh state is visible and
      active, and no new token takes the key of the access token to be replaced. */
  lemma RefreshIsGrantedIff(digest: Digest, cfg: Config, tokens: TokenMap, input: RefreshInput, now: int)
    ensures var refusal, key := RefreshRefusal(digest, cfg, tokens, input, now), StoreKey(digest, input.refreshToken);
            && (refusal.None? <==>
                  && IsUsable(cfg, input) && key in tokens && !tokens[key].IsExpired(now)
                  && var state := tokens[key].state;
                  && state.kind == Kind.Refresh && state.status == Active
                  && (state.refresh.Some? && cfg.refresh.rotate ==>
                        state.refresh.value.accessToken != StoreKey(digest, input.nextRefresh))
                  && (state.refresh.Some? && cfg.refresh.revokeAccess && state.refresh.value.accessToken != "" ==>
                        state.refresh.value.accessToken != StoreKey(digest, input.nextAccess)))
            && (refusal == Some(EmptyRefreshToken) <==> TrimSpace(input.refreshToken) == "")
            && (refusal == Some(EmptyToken) <==>
                  TrimSpace(input.refreshToken) != "" && TrimSpace(input.nextAccess) == "")
            && (refusal == Some(RefreshTokenNotFound) <==>
                  IsUsable(cfg, input) && (key !in tokens || tokens[key].IsExpired(now)))
            && (refusal == Some(UnsupportedKind) ==> tokens[key].state.kind != Kind.Refresh)
            && (refusal == Some(RefreshTokenRevoked) ==> tokens[key].state.status != Active)
  {
    TrimIdempotent(input.refreshToken);
    TrimIdempotent(input.nextAccess);
    TrimIdempotent(input.nextRefresh);
    hide TrimSpace;
  }

  /** The login a refresh performs for the owner of its token. */
  function NextLogin(state: TokenState, input: RefreshInput): LoginInput {
    LoginInput(state.loginID, input.nextAccess, state.loginType,
               if input.device != "" then input.device else state.device,
               if input.metadata != "" then input.metadata else state.metadata, "")
  }

  function OldAccess(state: TokenState): TokenValue {
    if state.refresh.Some? then state.refresh.value.accessToken else ""
  }

  /** The claim: the refresh consumed, and the access issued with it gone. */
  function Claimed(cfg: Config, tokens: TokenMap, key: TokenValue, now: int): TokenMap
    requires key in tokens
  {
    var old', spent := OldAccess(tokens[key].state), Spent(tokens, key, now);
    if cfg.refresh.revokeAccess && old' != "" then spent - {old'} else spent
  }

  /** The store between the claim and the new refresh state, with the new access state in. */
  function Replaced(digest: Digest, cfg: Config, tokens: TokenMap, input: RefreshInput, now: int): TokenMap
    requires StoreKey(digest, input.refreshToken) in tokens
  {
    var key := StoreKey(digest, input.refreshToken);
    var state := tokens[key].state;
    LoggedIn(digest, cfg, Claimed(cfg, tokens, key, now), NextLogin(state, Trimmed(input)),
             if cfg.refresh.rotate then "" else state.token, now)
  }

  /** The refresh state a successful refresh leaves its caller with. */
  function NextRefresh(digest: Digest, cfg: Config, state: TokenState, input: RefreshInput, now: int): TokenState {
    var trimmed := Trimmed(input);
    var claim := Claim(trimmed, state, state.MarkConsumed(now));
    var access := AccessState(digest, cfg, NextLogin(state, trimmed), now);
    if cfg.refresh.rotate then RotatedState(digest, cfg, claim, access, now) else ReactivatedState(claim, access, now)
  }

  function Refreshed(digest: Digest, cfg: Config, tokens: TokenMap, input: RefreshInput, now: int): TokenMap
    requires StoreKey(digest, input.refreshToken) in tokens
  {
    var next := NextRefresh(digest, cfg, tokens[StoreKey(digest, input.refreshToken)].state, input, now);
    Replaced(digest, cfg, tokens, input, now)[next.token := S.EntryFor(next, RemainingTTL(now, next), now)]
  }

  lemma TrimmedKey(digest: Digest, token: TokenValue)
    ensures StoreKey(digest, TrimSpace(token)) == StoreKey(digest, token)
    ensures TrimSpace(TrimSpace(token)) == TrimSpace(token)
  {
    hide TrimSpace;
    TrimIdempotent(token);
  }

  /** The claim does not delete the claimed token itself. */
  predicate OutlivesClaim(cfg: Config, state: TokenState, key: TokenValue) {
    !(cfg.refresh.revokeAccess && OldAccess(state) == key)
  }

  /** After a login that failed: a rotating refresh token is spent, a reusable one is as it was before the claim, unless
      the claim deleted it or nobody could have saved it. */
  function GivenBack(cfg: Config, tokens: TokenMap, key: TokenValue, now: int): TokenMap
    requires key in tokens
  {
    var state, claimed := tokens[key].state, Claimed(cfg, tokens, key, now);
    if !cfg.refresh.rotate && OutlivesClaim(cfg, state, key) && state.loginID != ""
    then claimed[key := S.EntryFor(state, RemainingTTL(now, state), now)] else claimed
  }

  /** The claimed token of a reusable refresh is still there, as it was claimed, when the refresh finishes, if and
      only if the claim has not deleted it. */
  lemma ClaimSurvives(digest: Digest, cfg: Config, tokens: TokenMap, input: RefreshInput, now: int)
    requires Safe(digest) && RefreshRefusal(digest, cfg, tokens, input, now).None? && !cfg.refresh.rotate
    requires tokens[StoreKey(digest, input.refreshToken)].state.token == StoreKey(digest, input.refreshToken)
    ensures var key, after := StoreKey(digest, input.refreshToken), Replaced(digest, cfg, tokens, input, now);
            S.Matches(after, tokens[key].state.MarkConsumed(now), now) <==> OutlivesClaim(cfg, tokens[key].state, key)
  {
    hide TrimSpace, LoginSubject.Normalize;
    TrimmedKey(digest, input.refreshToken);
    TrimmedKey(digest, input.nextAccess);
  }

  // ----- how the calls end

  /** An accepted nonce is consumed, and nothing else changes. */
  ghost predicate ConsumedNonce(digest: Digest, before: S.Store, nonce: TokenValue, now: int, after: S.Store,
                                r: Result)
  {
    var refusal, key := NonceError(digest, before.tokens, nonce, now), StoreKey(digest, nonce);
    if refusal.Some? then r == Failure(refusal.value) && after == before
    else
      && S.Consumable(before.tokens, key, Some(Kind.Nonce), now)
      && after == before.(tokens := Spent(before.tokens, key, now))
      && IsConsumed(before.tokens[key].state, after.tokens[key].state, now)
      && r == Token(after.tokens[key].state.(token := TrimSpace(nonce)))
  }

  /** A login issues an access state for what it was given, or changes nothing. */
  ghost predicate LoggedInOutcome(digest: Digest, cfg: Config, before: S.Store, l: LoginInput, now: int,
                                  after: S.Store, r: Result)
  {
    var refusal := LoginRefusal(digest, cfg, before.tokens, l, true, now);
    if refusal.Some? then r == Failure(refusal.value) && after == before
    else
      && r.Token? && LoggedInAs(digest, cfg, l, after.tokens, r.state, now)
      && after.tokens == LoggedIn(digest, cfg, AfterNonce(digest, cfg, before.tokens, l, true, now), l, "", now)
      && after.sessions == Accompanied(cfg, before.sessions, l.loginID, l.loginType, now)
  }

  ghost predicate LoggedInWithRefresh(digest: Digest, cfg: Config, before: S.Store, l: LoginInput,
                                      refreshToken: TokenValue, now: int, after: S.Store, r: Result)
  {
    var a, key := StoreKey(digest, l.token), StoreKey(digest, refreshToken);
    var refusal := LoginRefusal(digest, cfg, before.tokens, l, true, now);
    if TrimSpace(refreshToken) == "" then r == Failure(EmptyRefreshToken) && after == before
    else if a == key then r == Failure(NextRefreshTokenReuse) && after == before
    else if refusal.Some? then r == Failure(refusal.value) && after == before
    else
      && r.Pair? && LoggedInAs(digest, cfg, l, after.tokens, r.access, now)
      && Answered(after.tokens, key, r.refresh, refreshToken)
      && IsRefreshFor(cfg, after.tokens[key].state, key, after.tokens[a].state, "", None, now)
      && after.tokens ==
           LoggedIn(digest, cfg, AfterNonce(digest, cfg, before.tokens, l, true, now), l, "", now)
             [key := after.tokens[key]]
      && after.sessions == Accompanied(cfg, before.sessions, l.loginID, l.loginType, now)
  }

  /** A refresh is refused before it has changed anything, or replaces the access state and passes the refresh token
      on: to a new one when rotating, else to itself. It can still fail after the claim. For a state that names nobody
      the login fails, and a reusable refresh token is given back as it was. A reusable one that names itself as its
      access token is deleted by its own claim, and the new access token is taken back. */
  ghost predicate RefreshOutcome(digest: Digest, cfg: Config, before: S.Store, input: RefreshInput, now: int,
                                 after: S.Store, r: Result)
  {
    var key, refusal := StoreKey(digest, input.refreshToken), RefreshRefusal(digest, cfg, before.tokens, input, now);
    if refusal.Some? then r == Failure(refusal.value) && after == before
    else
      var was := before.tokens[key].state;
      if TrimSpace(was.loginID) == "" then
        r == Failure(EmptyLoginID) && after == before.(tokens := GivenBack(cfg, before.tokens, key, now))
      else
        && after.sessions == Accompanied(cfg, before.sessions, was.loginID, was.loginType, now)
        && if cfg.refresh.rotate || OutlivesClaim(cfg, was, key) then
             && PassedOn(digest, cfg, before.tokens, input, now, after.tokens, r)
             && after.tokens == Refreshed(digest, cfg, before.tokens, input, now)
           else
             && r == Failure(TokenInvalid)
             && after.tokens ==
                  Replaced(digest, cfg, before.tokens, input, now) - {StoreKey(digest, input.nextAccess)}
  }

  ghost predicate LoggedOut(digest: Digest, cfg: Config, before: S.Store, token: TokenValue, now: int, after: S.Store,
                            r: Result)
  {
    var key, refusal := StoreKey(digest, token), UseError(digest, before.tokens, token, now);
    if refusal.Some? then r == Failure(refusal.value) && after == before
    else
      && r == Success && key in before.tokens
      && after == before.(tokens := before.tokens - {key}
           - Cascade(cfg, before.tokens - {key}, before.tokens[key].state.Subject(), {key}, now))
  }

  ghost predicate LoggedOutByDevice(cfg: Config, before: S.Store, loginID: string, loginType: string, device: string,
                                    now: int, after: S.Store, r: Result)
  {
    var subject := LoginSubject(loginID, loginType);
    var named := Named(before.tokens, subject, TrimSpace(device), now);
    if TrimSpace(loginID) == "" then r == Failure(EmptyLoginID) && after == before
    else if TrimSpace(device) == "" then r == Failure(EmptyDevice) && after == before
    else
      && r == Success
      && after == before.(tokens := before.tokens - named - Cascade(cfg, before.tokens, subject, named, now))
  }

  /** The store function of a login puts there what the login is asked for. */
  lemma LoginIsAnswered(digest: Digest, cfg: Config, tokens: TokenMap, l: LoginInput, keep: TokenValue, now: int)
    ensures var access := AccessState(digest, cfg, l, now);
            LoggedInAs(digest, cfg, l, LoggedIn(digest, cfg, tokens, l, keep, now), WithPlaintext(access, l.token), now)
  {
    AccessIsIssued(digest, cfg, l, now);
    hide TrimSpace, StoreKey, Kept, BelongsTo;
    var access := AccessState(digest, cfg, l, now);
    assert S.EntryFor(access, if cfg.timeout > 0 then cfg.timeout else 0, now) == S.Entry(access, access.expiresAt);
  }

  lemma IssueIsAnswered(digest: Digest, cfg: Config, token: TokenValue, access: TokenState, now: int, tokens: TokenMap)
    requires access.loginType != ""
    ensures var refresh, key := NewRefreshState(digest, cfg, TrimSpace(token), access, now), StoreKey(digest, token);
            var after := tokens[key := S.EntryFor(refresh, RemainingTTL(now, refresh), now)];
            && refresh.token == key && Answered(after, key, WithPlaintext(refresh, TrimSpace(token)), token)
            && IsRefreshFor(cfg, after[key].state, key, access, "", None, now)
  {
    TrimmedKey(digest, token);
    RefreshIsIssued(digest, cfg, TrimSpace(token), access, now);
    hide TrimSpace, StoreKey, IsNew;
    var refresh := NewRefreshState(digest, cfg, TrimSpace(token), access, now);
    SavedForItsTime(refresh, now);
  }

  lemma SameNamed(tokens: TokenMap, s: LoginSubject, t: LoginSubject, device: string, now: int)
    requires s.Normalize() == t.Normalize()
    ensures Named(tokens, s, device, now) == Named(tokens, t, device, now)
  {
    hide LoginSubject.Normalize;
  }

  lemma SubjectIsMeant(loginID: string, loginType: string)
    ensures SubjectOf(loginID, loginType).Normalize() == LoginSubject(loginID, loginType).Normalize()
  {
    TrimIdempotent(loginID);
    NormalizeTwice(LoginSubject(loginID, loginType));
  }

  /** The tokens a granted refresh deals with are all different. */
  lemma RefreshKeysDiffer(digest: Digest, cfg: Config, tokens: TokenMap, input: RefreshInput, now: int)
    requires Safe(digest) && RefreshRefusal(digest, cfg, tokens, input, now).None?
    ensures var key, a := StoreKey(digest, input.refreshToken), StoreKey(digest, input.nextAccess);
            var next := StoreKey(digest, input.nextRefresh);
            && key in tokens && a != key && tokens[key].state.kind == Kind.Refresh && tokens[key].state.status == Active
            && !tokens[key].state.IsExpired(now)
            && (cfg.refresh.rotate ==> next != key && next != a)
            && (cfg.refresh.revokeAccess && OldAccess(tokens[key].state) != "" ==> OldAccess(tokens[key].state) != a)
            && (cfg.refresh.rotate && OldAccess(tokens[key].state) != "" ==> OldAccess(tokens[key].state) != next)
  {
    TrimmedKey(digest, input.refreshToken);
    TrimmedKey(digest, input.nextAccess);
    TrimmedKey(digest, input.nextRefresh);
    hide TrimSpace;
  }

  /** The store between claim and finish: the new access state is there, and nothing else came or changed but the
      claimed token. */
  lemma ReplacedIsAnswered(digest: Digest, cfg: Config, tokens: TokenMap, input: RefreshInput, now: int)
    requires Safe(digest) && RefreshRefusal(digest, cfg, tokens, input, now).None?
    requires StoreKey(digest, input.refreshToken) in tokens
    ensures var key, a := StoreKey(digest, input.refreshToken), StoreKey(digest, input.nextAccess);
            var was, after := tokens[key].state, Replaced(digest, cfg, tokens, input, now);
            var access := AccessState(digest, cfg, NextLogin(was, Trimmed(input)), now);
            && Answered(after, a, access.(token := TrimSpace(input.nextAccess)), input.nextAccess)
            && after[a].state == access && access.IsNormal()
            && IsAccessFor(cfg, access, a, was.loginID, was.loginType, DeviceFor(was, input), MetadataFor(was, input),
                           now)
            && (key in after ==> IsConsumed(was, after[key].state, now))
            && (cfg.refresh.revokeAccess && OldAccess(was) != "" ==> OldAccess(was) !in after)
  {
    RefreshKeysDiffer(digest, cfg, tokens, input, now);
    TrimmedKey(digest, input.nextAccess);
    var key := StoreKey(digest, input.refreshToken);
    var l := NextLogin(tokens[key].state, Trimmed(input));
    LoginIsAnswered(digest, cfg, Claimed(cfg, tokens, key, now), l, if cfg.refresh.rotate then "" else
                    tokens[key].state.token, now);
    AccessIsIssued(digest, cfg, l, now);
    MarkedAsSaid(tokens[key].state, now);
    hide TrimSpace, StoreKey, RefreshRefusal, LoginSubject.Normalize, IsAccessFor, IsConsumed, AccessState,
         TokenState.MarkConsumed;
  }

  /** Putting the refresh state in completes what a refresh passes on. */
  lemma IssuedBeside(digest: Digest, cfg: Config, tokens: TokenMap, input: RefreshInput, now: int, middle: TokenMap,
                     access: TokenState, next: TokenState)
    requires var key, a := StoreKey(digest, input.refreshToken), StoreKey(digest, input.nextAccess);
             && key in tokens && next.token != a && (cfg.refresh.rotate ==> next.token != key)
             && next.token == StoreKey(digest, if cfg.refresh.rotate then input.nextRefresh else input.refreshToken)
             && var was := tokens[key].state;
             && Answered(middle, a, access.(token := TrimSpace(input.nextAccess)), input.nextAccess)
             && middle[a].state == access
             && IsAccessFor(cfg, access, a, was.loginID, was.loginType, DeviceFor(was, input),
                            MetadataFor(was, input), now)
             && (key in middle ==> IsConsumed(was, middle[key].state, now))
             && (cfg.refresh.revokeAccess && OldAccess(was) != "" ==>
                   OldAccess(was) !in middle && OldAccess(was) != next.token)
             && if cfg.refresh.rotate then IsRefreshFor(cfg, next, next.token, access, key, Some(now), now)
                else IsReused(was, next, access, now)
    ensures PassedOn(digest, cfg, tokens, input, now, middle[next.token := S.Entry(next, next.expiresAt)],
                     Pair(access.(token := TrimSpace(input.nextAccess)),
                          next.(token := TrimSpace(if cfg.refresh.rotate then input.nextRefresh
                                                   else input.refreshToken))))
  {
    hide TrimSpace, StoreKey, IsAccessFor, IsConsumed, IsReused, IsRefreshFor, DeviceFor, MetadataFor;
  }

  /** The store function and the answer of a refresh that finishes pass on what a caller expects. */
  lemma RefreshedIsPassedOn(digest: Digest, cfg: Config, tokens: TokenMap, input: RefreshInput, now: int)
    requires Safe(digest) && RefreshRefusal(digest, cfg, tokens, input, now).None?
    requires var key := StoreKey(digest, input.refreshToken);
             && key in tokens && tokens[key].state.token == key && tokens[key].state.IsNormal()
             && (cfg.refresh.rotate || OutlivesClaim(cfg, tokens[key].state, key))
    ensures var was := tokens[StoreKey(digest, input.refreshToken)].state;
            var access := AccessState(digest, cfg, NextLogin(was, Trimmed(input)), now);
            var next := NextRefresh(digest, cfg, was, input, now);
            PassedOn(digest, cfg, tokens, input, now, Refreshed(digest, cfg, tokens, input, now),
                     Pair(access.(token := TrimSpace(input.nextAccess)),
                          next.(token := TrimSpace(if cfg.refresh.rotate then input.nextRefresh
                                                   else input.refreshToken))))
  {
    hide TrimSpace, StoreKey, RefreshRefusal, IsAccessFor, IsConsumed, IsReused, IsRefreshFor, AccessState, Replaced,
         NextRefresh, Trimmed, DeviceFor, MetadataFor, PassedOn, S.EntryFor, RemainingTTL, Answered, NextLogin;
    RefreshKeysDiffer(digest, cfg, tokens, input, now);
    ReplacedIsAnswered(digest, cfg, tokens, input, now);
    NextIsIssued(digest, cfg, tokens, input, now);
    var was := tokens[StoreKey(digest, input.refreshToken)].state;
    IssuedBeside(digest, cfg, tokens, input, now, Replaced(digest, cfg, tokens, input, now),
                 AccessState(digest, cfg, NextLogin(was, Trimmed(input)), now),
                 NextRefresh(digest, cfg, was, input, now));
  }

  lemma NextIsIssued(digest: Digest, cfg: Config, tokens: TokenMap, input: RefreshInput, now: int)
    requires Safe(digest) && RefreshRefusal(digest, cfg, tokens, input, now).None?
    requires var key := StoreKey(digest, input.refreshToken);
             key in tokens && tokens[key].state.token == key && tokens[key].state.IsNormal()
    ensures var key := StoreKey(digest, input.refreshToken);
            var was, next := tokens[key].state, NextRefresh(digest, cfg, tokens[key].state, input, now);
            var access := AccessState(digest, cfg, NextLogin(was, Trimmed(input)), now);
            && S.EntryFor(next, RemainingTTL(now, next), now) == S.Entry(next, next.expiresAt)
            && (if cfg.refresh.rotate then
                  && next.token == StoreKey(digest, input.nextRefresh)
                  && IsRefreshFor(cfg, next, next.token, access, key, Some(now), now)
                else next.token == key && IsReused(was, next, access, now))
  {
    RefreshKeysDiffer(digest, cfg, tokens, input, now);
    TrimmedKey(digest, input.refreshToken);
    TrimmedKey(digest, input.nextRefresh);
    var key := StoreKey(digest, input.refreshToken);
    var was, trimmed := tokens[key].state, Trimmed(input);
    var claim := Claim(trimmed, was, was.MarkConsumed(now));
    var access := AccessState(digest, cfg, NextLogin(was, trimmed), now);
    AccessIsIssued(digest, cfg, NextLogin(was, trimmed), now);
    RotatedIsIssued(digest, cfg, claim, access, now);
    ReactivatedIsReused(claim, access, now);
    SavedForItsTime(NextRefresh(digest, cfg, was, input, now), now);
    hide TrimSpace, StoreKey, RefreshRefusal, AccessState;
  }

  // ----- tokens that go together

  /** The refresh state under k names the access state under a, and both are one subject's. */
  predicate GoTogether(tokens: TokenMap, a: TokenValue, k: TokenValue) {
    && a in tokens && tokens[a].state.kind == Access && tokens[a].state.status == Active && a != ""
    && k in tokens && tokens[k].state.kind == Kind.Refresh && tokens[k].state.status == Active && k != a
    && tokens[k].state.refresh.Some? && tokens[k].state.refresh.value.accessToken == a
    && tokens[k].state.Subject().Normalize() == tokens[a].state.Subject().Normalize()
  }

  lemma OwnersAgree(access: TokenState, owner: TokenState)
    requires BelongsTo(access, owner.loginID, owner.loginType)
    ensures access.Subject().Normalize() == owner.Subject().Normalize()
  {
    TrimIdempotent(owner.loginID);
    TrimIdempotent(owner.loginType);
    DefaultIsTrimmed();
    hide TrimSpace;
  }

  /** A login and every refresh, rotating or not, leave an access and a refresh token that go together. */
  lemma LoginIssuesTogether(digest: Digest, cfg: Config, before: S.Store, l: LoginInput, refreshToken: TokenValue,
                            now: int, after: S.Store, r: Result)
    requires Safe(digest) && LoggedInWithRefresh(digest, cfg, before, l, refreshToken, now, after, r) && r.Pair?
    ensures GoTogether(after.tokens, StoreKey(digest, l.token), StoreKey(digest, refreshToken))
  {
    hide LoggedIn, AfterNonce, TrimSpace, LoginSubject.Normalize, Accompanied;
    KeyIsSet(digest, l.token);
  }

  lemma RefreshIssuesTogether(digest: Digest, cfg: Config, tokens: TokenMap, input: RefreshInput, now: int,
                              after: TokenMap, r: Result)
    requires Safe(digest) && RefreshRefusal(digest, cfg, tokens, input, now).None?
    requires PassedOn(digest, cfg, tokens, input, now, after, r)
    ensures GoTogether(after, StoreKey(digest, input.nextAccess),
                       StoreKey(digest, if cfg.refresh.rotate then input.nextRefresh else input.refreshToken))
  {
    RefreshKeysDiffer(digest, cfg, tokens, input, now);
    RefusalFacts(digest, cfg, tokens, input, now);
    KeyIsSet(digest, input.nextAccess);
    var was := tokens[StoreKey(digest, input.refreshToken)].state;
    OwnersAgree(after[StoreKey(digest, input.nextAccess)].state, was);
    hide TrimSpace, LoginSubject.Normalize, RefreshRefusal;
  }

  /** Tokens that go together leave together: logging out the access token takes the refresh token along. */
  lemma LogoutTakesRefresh(digest: Digest, cfg: Config, before: S.Store, token: TokenValue, k: TokenValue, now: int,
                           after: S.Store)
    requires cfg.refresh.revokeOnLogout && GoTogether(before.tokens, StoreKey(digest, token), k)
    requires S.IsLive(before.tokens, k, now) && LoggedOut(digest, cfg, before, token, now, after, Success)
    ensures StoreKey(digest, token) !in after.tokens && k !in after.tokens
  {
    hide TrimSpace, LoginSubject.Normalize, StoreKey;
  }

  /** And using the refresh token again ends the access token. */
  lemma RefreshTakesAccess(digest: Digest, cfg: Config, tokens: TokenMap, input: RefreshInput, a: TokenValue, now: int,
                           after: TokenMap, r: Result)
    requires cfg.refresh.revokeAccess && GoTogether(tokens, a, StoreKey(digest, input.refreshToken))
    requires PassedOn(digest, cfg, tokens, input, now, after, r)
    ensures a !in after
  {
    hide TrimSpace, LoginSubject.Normalize, StoreKey;
  }

  class Manager {
    const store: M.Store
    const cfg: Config
    const digest: Digest

    constructor (store: M.Store, cfg: Config, digest: Digest)
      ensures this.store == store && this.cfg == cfg && this.digest == digest
    {
      this.store, this.cfg, this.digest := store, cfg, digest;
    }

    /** Accepts a nonce that is stored, of the kind and active, at most once; a refusal changes nothing. */
    method ConsumeNonce(nonce: TokenValue, now: int) returns (r: Result)
      requires store.Valid() && store.clock <= now
      modifies store
      ensures store.Valid() && store.clock <= now
      ensures ConsumedNonce(digest, old(store.model), nonce, now, store.model, r)
    {
      hide TrimSpace, M.Store.Valid;
      NonceOutcome(digest, store.model.tokens, nonce, now);
      StoredUnderOwnToken(store);
      if TrimSpace(nonce) == "" {
        return Failure(EmptyNonce);
      }
      var found := store.ConsumeTokenState(StoreKey(digest, nonce), Some(Kind.Nonce), now);
      if found.None? {
        return Failure(NonceNotFound);
      }
      var state := found.value.Normalize();
      if state.kind != Kind.Nonce {
        return Failure(UnsupportedKind);
      }
      if state.status == Consumed {
        return Failure(NonceReplayed);
      }
      if state.status != Active {
        return Failure(TokenInvalid);
      }
      MarkedAsSaid(state, now);
      return Token(WithPlaintext(state.MarkConsumed(now), nonce));
    }

    /** The part of a login that touches access states, refresh states and the session. */
    method ReplaceAccess(l: LoginInput, keep: TokenValue, now: int) returns (r: Result)
      requires Safe(digest) && store.Valid() && store.clock <= now
      requires TrimSpace(l.loginID) != "" && TrimSpace(l.token) != ""
      modifies store
      ensures store.Valid() && store.clock <= now
      ensures r == Token(AccessState(digest, cfg, l, now))
      ensures store.model.tokens == LoggedIn(digest, cfg, old(store.model.tokens), l, keep, now)
      ensures store.model.sessions == Accompanied(cfg, old(store.model.sessions), l.loginID, l.loginType, now)
    {
      hide TrimSpace, M.Store.Valid, S.Selected, OthersOf, LoginSubject.Normalize, S.EntryFor;
      var access := AccessState(digest, cfg, l, now);
      CanSaveAccess(digest, cfg, l, now);
      AccessSubject(digest, cfg, l, now);
      if !cfg.concurrent {
        store.DeleteTokenStates(access.Subject(), {Access}, now);
        RevokeRefreshExcept(access.Subject(), keep, now);
      }
      var ttl := if cfg.timeout > 0 then cfg.timeout else 0;
      var err := store.SaveTokenState(access, ttl, now);
      err := store.EnsureSession(access.Subject(), ttl, now);
      return Token(access);
    }

    /** Deletes the subject's refresh states, or all visible ones but the one to keep. */
    method RevokeRefreshExcept(subject: LoginSubject, keep: TokenValue, now: int)
      requires store.Valid() && store.clock <= now
      modifies store
      ensures store.Valid() && store.clock <= now && store.model.sessions == old(store.model.sessions)
      ensures store.model.tokens ==
              if !cfg.refresh.revokeOnLogout then old(store.model.tokens)
              else if keep == "" then WithoutKind(old(store.model.tokens), subject, Kind.Refresh)
              else old(store.model.tokens) - OthersOf(old(store.model.tokens), subject, keep, now)
    {
      hide S.Selected, S.Entry.IsExpired, M.Store.Valid, S.Lists, OthersIn, OthersOf;
      if !cfg.refresh.revokeOnLogout {
        return;
      }
      if keep == "" {
        store.DeleteTokenStates(subject, {Kind.Refresh}, now);
        return;
      }
      ghost var before := store.model;
      StoredUnderOwnToken(store);
      var states := store.FindTokenStates(subject, {Kind.Refresh}, now);
      ListedOthers(before.tokens, subject, keep, now, states);
      for i := 0 to |states|
        invariant store.Valid() && store.clock == now && store.model.sessions == before.sessions
        invariant store.model.tokens == before.tokens - OthersIn(states[..i], keep)
      {
        OthersPrefix(states, i, keep);
        if states[i].token != keep {
          store.DeleteTokenState(states[i].token, now);
        }
      }
      assert states[..|states|] == states;
    }

    /** The login shared by every operation that issues an access token; the nonce is asked for only of users. */
    method LoginState(l: LoginInput, keep: TokenValue, enforceNonce: bool, now: int) returns (r: Result)
      requires Safe(digest) && store.Valid() && store.clock <= now
      modifies store
      ensures store.Valid() && store.clock <= now
      ensures r.Token? || r.Failure?
      ensures r.Token? <==> LoginRefusal(digest, cfg, old(store.model.tokens), l, enforceNonce, now).None?
      ensures r.Failure? ==>
                && LoginRefusal(digest, cfg, old(store.model.tokens), l, enforceNonce, now) == Some(r.error)
                && store.model == old(store.model)
      ensures r.Token? ==>
                && TrimSpace(l.loginID) != ""
                && r.state == AccessState(digest, cfg, l, now)
                && store.model.tokens ==
                     LoggedIn(digest, cfg, AfterNonce(digest, cfg, old(store.model.tokens), l, enforceNonce, now), l,
                              keep, now)
                && store.model.sessions == Accompanied(cfg, old(store.model.sessions), l.loginID, l.loginType, now)
    {
      hide TrimSpace, M.Store.Valid, S.Selected, WithoutKind, OthersOf, LoginSubject.Normalize;
      if TrimSpace(l.loginID) == "" {
        return Failure(EmptyLoginID);
      }
      if TrimSpace(l.token) == "" {
        return Failure(EmptyToken);
      }
      if enforceNonce && cfg.requireNonce {
        var accepted := ConsumeNonce(l.nonce, now);
        if accepted.Failure? {
          return accepted;
        }
      }
      r := ReplaceAccess(l, keep, now);
    }

    /** Deletes the refresh states issued together with the access state. */
    method RevokeRefreshForAccessToken(state: TokenState, now: int)
      requires store.Valid() && store.clock <= now
      modifies store
      ensures store.Valid() && store.clock <= now && store.model.sessions == old(store.model.sessions)
      ensures store.model.tokens ==
              old(store.model.tokens) - Cascade(cfg, old(store.model.tokens), state.Subject(), {state.token}, now)
    {
      hide S.Selected, S.Entry.IsExpired, M.Store.Valid, LinkedTokens, S.Lists;
      if !cfg.refresh.revokeOnLogout || state.token == "" {
        return;
      }
      ghost var before := store.model;
      StoredUnderOwnToken(store);
      var states := store.FindTokenStates(state.Subject(), {Kind.Refresh}, now);
      ListedLinks(before.tokens, state.Subject(), state.token, now, states);
      NothingLinked(state.token);
      for i := 0 to |states|
        invariant store.Valid() && store.clock == now && store.model.sessions == before.sessions
        invariant store.model.tokens == before.tokens - LinkedTokens(states[..i], state.token)
      {
        LinkedPrefix(states, i, state.token);
        if states[i].refresh.Some? && states[i].refresh.value.accessToken == state.token {
          store.DeleteTokenState(states[i].token, now);
        }
      }
      assert states[..|states|] == states;
    }

    /** Deletes the subject's access states on the device with all that is linked to them, and nothing else. */
    method LogoutByDevice(loginID: string, loginType: string, device: string, now: int) returns (r: Result)
      requires store.Valid() && store.clock <= now
      modifies store
      ensures store.Valid() && store.clock <= now
      ensures LoggedOutByDevice(cfg, old(store.model), loginID, loginType, device, now, store.model, r)
    {
      hide S.Selected, S.Entry.IsExpired, M.Store.Valid, TrimSpace, SubjectOf, OnDeviceTokens, Named, Cascade;
      var device' := TrimSpace(device);
      if TrimSpace(loginID) == "" {
        return Failure(EmptyLoginID);
      }
      if device' == "" {
        return Failure(EmptyDevice);
      }
      var subject := SubjectOf(loginID, loginType);
      ghost var before := store.model.tokens;
      SubjectIsMeant(loginID, loginType);
      SameNamed(before, subject, LoginSubject(loginID, loginType), device', now);
      StoredUnderOwnToken(store);
      var states := store.FindTokenStates(subject, {Access}, now);
      ListedOnDevice(before, subject, device', now, states);
      NothingOnDevice(cfg, before, subject, device', now);
      for i := 0 to |states|
        invariant store.Valid() && store.clock <= now && store.model.sessions == old(store.model.sessions)
        invariant var done := OnDeviceTokens(states[..i], device');
                  store.model.tokens == before - done - Cascade(cfg, before, subject, done, now)
      {
        OnDevicePrefix(states, i, device');
        var t := states[i].token;
        ghost var done := OnDeviceTokens(states[..i], device');
        assert done + {} == done;
        if TrimSpace(states[i].device) == device' {
          CascadeStep(cfg, before, subject, done, t, now);
          ListedSubject(before, subject, now, states, i);
          store.DeleteTokenState(t, now);
          assert store.model.tokens == before - done - Cascade(cfg, before, subject, done, now) - {t};
          SameCascade(cfg, store.model.tokens, states[i].Subject(), subject, {t}, now);
          RevokeRefreshForAccessToken(states[i], now);
          assert store.model.tokens == before - (done + {t}) - Cascade(cfg, before, subject, done + {t}, now);
        }
      }
      assert states[..|states|] == states;
      SameCascade(cfg, before, subject, LoginSubject(loginID, loginType), OnDeviceTokens(states, device'), now);
      return Success;
    }

    /** The state of an active token, as it is stored. */
    method LoadActive(token: TokenValue, now: int) returns (r: Result)
      requires store.Valid() && store.clock <= now
      modifies store
      ensures store.Valid() && store.clock <= now && store.model == old(store.model)
      ensures var refusal, key := UseError(digest, old(store.model.tokens), token, now), StoreKey(digest, token);
              r == if refusal.Some? then Failure(refusal.value) else Token(old(store.model.tokens)[key].state)
    {
      hide TrimSpace, M.Store.Valid;
      if TrimSpace(token) == "" {
        return Failure(EmptyToken);
      }
      StoredUnderOwnToken(store);
      TrimmedKey(digest, token);
      var found := store.GetTokenState(StoreKey(digest, TrimSpace(token)), now);
      if found.None? {
        return Failure(TokenNotFound);
      }
      var state := found.value.Normalize();
      if state.status != Active {
        return Failure(TokenInvalid);
      }
      return Token(state);
    }

    /** Deletes the token with the refresh states linked to it, and nothing else. */
    method Logout(token: TokenValue, now: int) returns (r: Result)
      requires store.Valid() && store.clock <= now
      modifies store
      ensures store.Valid() && store.clock <= now
      ensures LoggedOut(digest, cfg, old(store.model), token, now, store.model, r)
    {
      hide TrimSpace, M.Store.Valid, Cascade, UseError, StoreKey;
      StoredUnderOwnToken(store);
      var loaded := LoadActive(token, now);
      if loaded.Failure? {
        return loaded;
      }
      UsedIsStored(digest, store.model.tokens, token, now);
      store.DeleteTokenState(loaded.state.token, now);
      RevokeRefreshForAccessToken(loaded.state, now);
      return Success;
    }

    method Login(l: LoginInput, now: int) returns (r: Result)
      requires Safe(digest) && store.Valid() && store.clock <= now
      modifies store
      ensures store.Valid() && store.clock <= now
      ensures LoggedInOutcome(digest, cfg, old(store.model), l, now, store.model, r)
    {
      hide TrimSpace, M.Store.Valid, LoggedIn, AfterNonce, LoginRefusal, Accompanied, LoggedInAs;
      LoginIsAnswered(digest, cfg, AfterNonce(digest, cfg, store.model.tokens, l, true, now), l, "", now);
      r := LoginState(l, "", true, now);
      if r.Token? {
        r := Token(WithPlaintext(r.state, l.token));
      }
    }

    method LoginWithRefresh(l: LoginInput, refreshToken: TokenValue, now: int) returns (r: Result)
      requires Safe(digest) && store.Valid() && store.clock <= now
      modifies store
      ensures store.Valid() && store.clock <= now
      ensures LoggedInWithRefresh(digest, cfg, old(store.model), l, refreshToken, now, store.model, r)
    {
      hide TrimSpace, M.Store.Valid, LoggedIn, AfterNonce, S.EntryFor, Accompanied;
      var trimmed := TrimSpace(refreshToken);
      TrimmedKey(digest, refreshToken);
      if trimmed == "" {
        return Failure(EmptyRefreshToken);
      }
      if StoreKey(digest, l.token) == StoreKey(digest, trimmed) {
        return Failure(NextRefreshTokenReuse);
      }
      var login := LoginState(l, "", true, now);
      if login.Failure? {
        return login;
      }
      var refresh := NewRefreshState(digest, cfg, trimmed, login.state, now);
      CanSaveRefresh(digest, cfg, l, trimmed, now);
      ghost var middle := store.model.tokens;
      LoginIsAnswered(digest, cfg, AfterNonce(digest, cfg, old(store.model.tokens), l, true, now), l, "", now);
      AccessIsIssued(digest, cfg, l, now);
      IssueIsAnswered(digest, cfg, refreshToken, login.state, now, middle);
      var err := store.SaveTokenState(refresh, RemainingTTL(now, refresh), now);
      assert store.model.tokens[StoreKey(digest, l.token)] == middle[StoreKey(digest, l.token)];
      return Pair(WithPlaintext(login.state, l.token), WithPlaintext(refresh, trimmed));
    }

    /** After the claim: the login, and the refresh state passed on; an access token that cannot be finished is
        taken back. */
    method FinishRefresh(input: RefreshInput, original: TokenState, now: int) returns (r: Result)
      requires Safe(digest) && store.Valid() && store.clock <= now
      requires TrimSpace(input.nextAccess) != "" && (cfg.refresh.rotate ==> TrimSpace(input.nextRefresh) != "")
      requires original.token != ""
      modifies store
      ensures store.Valid() && store.clock <= now
      ensures var l := NextLogin(original, Trimmed(input));
              var access, next := AccessState(digest, cfg, l, now), NextRefresh(digest, cfg, original, input, now);
              var keep := if cfg.refresh.rotate then "" else original.token;
              var replaced := LoggedIn(digest, cfg, old(store.model.tokens), l, keep, now);
              TrimSpace(original.loginID) != "" ==>
                && store.model.sessions ==
                     Accompanied(cfg, old(store.model.sessions), original.loginID, original.loginType, now)
                && if cfg.refresh.rotate || S.Matches(replaced, original.MarkConsumed(now), now) then
                     && store.model.tokens == replaced[next.token := S.EntryFor(next, RemainingTTL(now, next), now)]
                     && r == Pair(access.(token := TrimSpace(input.nextAccess)),
                                  next.(token := TrimSpace(if cfg.refresh.rotate then input.nextRefresh
                                                           else input.refreshToken)))
                   else store.model.tokens == replaced - {access.token} && r == Failure(TokenInvalid)
      ensures TrimSpace(original.loginID) == "" ==> r == Failure(EmptyLoginID) && store.model == old(store.model)
    {
      hide TrimSpace, M.Store.Valid, LoggedIn, S.EntryFor, StoreKey, S.Entry.IsExpired, Accompanied;
      var trimmed := Trimmed(input);
      TrimmedKey(digest, input.nextAccess);
      TrimmedKey(digest, input.nextRefresh);
      TrimmedKey(digest, input.refreshToken);
      var l := NextLogin(original, trimmed);
      var login := LoginState(l, if cfg.refresh.rotate then "" else original.token, false, now);
      if login.Failure? {
        return login;
      }
      var next := NextRefresh(digest, cfg, original, input, now);
      CanSaveNext(digest, cfg, original, input, now);
      if cfg.refresh.rotate {
        var err := store.SaveTokenState(next, RemainingTTL(now, next), now);
      } else {
        var updated, err :=
          store.CompareAndSwapTokenState(original.MarkConsumed(now), next, RemainingTTL(now, next), now);
        if err.Some? || !updated {
          store.DeleteTokenState(login.state.token, now);
          return Failure(TokenInvalid);
        }
      }
      return Pair(WithPlaintext(login.state, trimmed.nextAccess),
                  WithPlaintext(next, if cfg.refresh.rotate then trimmed.nextRefresh else trimmed.refreshToken));
    }

    /** The checks before the claim, which change nothing. */
    method LoadUsable(input: RefreshInput, now: int) returns (r: Result)
      requires store.Valid() && store.clock <= now
      modifies store
      ensures store.Valid() && store.clock <= now && store.model == old(store.model)
      ensures var before, key := old(store.model.tokens), StoreKey(digest, input.refreshToken);
              var refusal := RefreshRefusal(digest, cfg, before, input, now);
              if refusal.Some? then r == Failure(refusal.value) else key in before && r == Token(before[key].state)
    {
      hide TrimSpace, M.Store.Valid, StoreKey;
      var trimmed := Trimmed(input);
      var start := BeginRefresh(cfg, trimmed);
      if start.Finished? {
        return start.result;
      }
      StoredUnderOwnToken(store);
      TrimmedKey(digest, input.refreshToken);
      var loaded := store.GetTokenState(StoreKey(digest, trimmed.refreshToken), now);
      if loaded.None? {
        return Failure(RefreshTokenNotFound);
      }
      var refusal := CheckRefresh(loaded.value, now);
      if refusal.None? {
        refusal := ValidateNext(digest, cfg, loaded.value, trimmed);
      }
      return if refusal.Some? then Failure(refusal.value) else Token(loaded.value);
    }

    /** Consumes the refresh token, and deletes the access token issued with it. */
    method ClaimRefresh(input: RefreshInput, now: int) returns (original: TokenState, expected: TokenState)
      requires store.Valid() && store.clock <= now
      requires RefreshRefusal(digest, cfg, store.model.tokens, input, now).None?
      modifies store
      ensures store.Valid() && store.clock <= now
      ensures var before, key := old(store.model.tokens), StoreKey(digest, input.refreshToken);
              && key in before && original == before[key].state && expected == original.MarkConsumed(now)
              && store.model.tokens == Claimed(cfg, before, key, now)
              && store.model.sessions == old(store.model.sessions)
    {
      hide TrimSpace, M.Store.Valid, StoreKey;
      StoredUnderOwnToken(store);
      var claimed := store.ConsumeTokenState(StoreKey(digest, input.refreshToken), Some(Kind.Refresh), now);
      original := claimed.value;
      expected := original.MarkConsumed(now);
      if cfg.refresh.revokeAccess && OldAccess(original) != "" {
        store.DeleteTokenState(OldAccess(original), now);
      }
    }

    method Refresh(input: RefreshInput, now: int) returns (r: Result)
      requires Safe(digest) && store.Valid() && store.clock <= now
      modifies store
      ensures store.Valid() && store.clock <= now
      ensures RefreshOutcome(digest, cfg, old(store.model), input, now, store.model, r)
    {
      hide TrimSpace, M.Store.Valid, LoggedIn, S.EntryFor, StoreKey, RefreshRefusal, Claimed, S.Entry.IsExpired;
      hide Accompanied, S.Matches, OutlivesClaim, PassedOn, AccessState, NextRefresh;
      ghost var before := store.model.tokens;
      StoredUnderOwnToken(store);
      var usable := LoadUsable(input, now);
      if usable.Failure? {
        return usable;
      }
      RefusalFacts(digest, cfg, before, input, now);
      var original, expected := ClaimRefresh(input, now);
      if !cfg.refresh.rotate {
        ClaimSurvives(digest, cfg, before, input, now);
      }
      AccessIsIssued(digest, cfg, NextLogin(original, Trimmed(input)), now);
      TrimmedKey(digest, input.nextAccess);
      r := FinishRefresh(input, original, now);
      if r.Pair? {
        RefreshedIsPassedOn(digest, cfg, before, input, now);
      }
      if r.Failure? && !cfg.refresh.rotate {
        var access := AccessState(digest, cfg, NextLogin(original, Trimmed(input)), now);
        RestoreGivesBack(digest, cfg, before, input, now, access.token);
        var restored, err := store.CompareAndSwapTokenState(expected, original, RemainingTTL(now, original), now);
      }
    }
  }

  lemma ClaimMatches(digest: Digest, cfg: Config, tokens: TokenMap, input: RefreshInput, now: int)
    requires Safe(digest) && RefreshRefusal(digest, cfg, tokens, input, now).None?
    requires tokens[StoreKey(digest, input.refreshToken)].state.token == StoreKey(digest, input.refreshToken)
    ensures var key := StoreKey(digest, input.refreshToken);
            S.Matches(Claimed(cfg, tokens, key, now), tokens[key].state.MarkConsumed(now), now)
            <==> OutlivesClaim(cfg, tokens[key].state, key)
  {
    KeyIsSet(digest, input.refreshToken);
    hide TrimSpace, StoreKey;
  }

  /** The deferred restore does what a failed login asks for, and nothing after a failed finish. */
  lemma RestoreGivesBack(digest: Digest, cfg: Config, tokens: TokenMap, input: RefreshInput, now: int,
                         access: TokenValue)
    requires Safe(digest) && RefreshRefusal(digest, cfg, tokens, input, now).None? && !cfg.refresh.rotate
    requires tokens[StoreKey(digest, input.refreshToken)].state.token == StoreKey(digest, input.refreshToken)
    ensures var key := StoreKey(digest, input.refreshToken);
            var state := tokens[key].state;
            var restore := S.Swap(state.MarkConsumed(now), state, RemainingTTL(now, state));
            && S.ApplyTokens(Claimed(cfg, tokens, key, now), now, restore) == GivenBack(cfg, tokens, key, now)
            && (!OutlivesClaim(cfg, state, key) ==>
                  var left := Replaced(digest, cfg, tokens, input, now) - {access};
                  S.ApplyTokens(left, now, restore) == left)
  {
    ClaimMatches(digest, cfg, tokens, input, now);
    ClaimSurvives(digest, cfg, tokens, input, now);
    ClaimedCanBeSaved(digest, cfg, tokens, input, now);
    hide TrimSpace, StoreKey, Replaced, Claimed, RemainingTTL, OutlivesClaim, S.CanSave, S.Entry.IsExpired, S.EntryFor;
    hide RefreshRefusal;
  }

  lemma ClaimedCanBeSaved(digest: Digest, cfg: Config, tokens: TokenMap, input: RefreshInput, now: int)
    requires Safe(digest) && RefreshRefusal(digest, cfg, tokens, input, now).None?
    requires tokens[StoreKey(digest, input.refreshToken)].state.token == StoreKey(digest, input.refreshToken)
    ensures var state := tokens[StoreKey(digest, input.refreshToken)].state; S.CanSave(state) <==> state.loginID != ""
  {
    RefusalFacts(digest, cfg, tokens, input, now);
    hide TrimSpace, StoreKey;
  }

  lemma RefusalFacts(digest: Digest, cfg: Config, tokens: TokenMap, input: RefreshInput, now: int)
    requires Safe(digest) && RefreshRefusal(digest, cfg, tokens, input, now).None?
    ensures TrimSpace(input.nextAccess) != "" && (cfg.refresh.rotate ==> TrimSpace(input.nextRefresh) != "")
    ensures StoreKey(digest, input.refreshToken) in tokens && StoreKey(digest, input.refreshToken) != ""
  {
    hide TrimSpace, StoreKey;
    KeyIsSet(digest, input.refreshToken);
  }

  lemma UsedIsStored(digest: Digest, tokens: TokenMap, token: TokenValue, now: int)
    ensures UseError(digest, tokens, token, now).None? ==> StoreKey(digest, token) in tokens
  {
    hide TrimSpace;
  }

  lemma KeyIsSet(digest: Digest, token: TokenValue)
    requires Safe(digest)
    ensures TrimSpace(token) != "" <==> StoreKey(digest, token) != ""
  {
    hide TrimSpace;
  }

  lemma BlankText()
    ensures TrimSpace("") == ""
  {
  }

  lemma CanSaveRefresh(digest: Digest, cfg: Config, l: LoginInput, refreshToken: TokenValue, now: int)
    requires Safe(digest) && TrimSpace(l.loginID) != "" && TrimSpace(refreshToken) != ""
    ensures S.CanSave(NewRefreshState(digest, cfg, refreshToken, AccessState(digest, cfg, l, now), now))
  {
    hide TrimSpace, StoreKey;
    TrimIdempotent(l.loginID);
    KeyIsSet(digest, refreshToken);
  }

  lemma CanSaveNext(digest: Digest, cfg: Config, state: TokenState, input: RefreshInput, now: int)
    requires Safe(digest) && TrimSpace(state.loginID) != "" && state.token != ""
    requires cfg.refresh.rotate ==> TrimSpace(input.nextRefresh) != ""
    ensures S.CanSave(NextRefresh(digest, cfg, state, input, now))
    ensures !cfg.refresh.rotate ==> NextRefresh(digest, cfg, state, input, now).token == state.token
  {
    hide TrimSpace, StoreKey, S.CanSave;
    BlankText();
    var trimmed := Trimmed(input);
    if cfg.refresh.rotate {
      TrimmedKey(digest, input.nextRefresh);
      CanSaveRefresh(digest, cfg, NextLogin(state, trimmed), trimmed.nextRefresh, now);
      var access := AccessState(digest, cfg, NextLogin(state, trimmed), now);
      SameSaving(NewRefreshState(digest, cfg, trimmed.nextRefresh, access, now),
                 NextRefresh(digest, cfg, state, input, now));
    } else {
      NamedCanBeSaved(NextRefresh(digest, cfg, state, input, now));
    }
  }

  lemma SameSaving(s: TokenState, t: TokenState)
    requires S.CanSave(s) && t.token == s.token && t.loginID == s.loginID && t.kind == s.kind
    ensures S.CanSave(t)
  {
  }

  lemma NamedCanBeSaved(s: TokenState)
    requires s.token != "" && s.loginID != ""
    ensures S.CanSave(s)
  {
  }

  lemma NothingLinked(access: TokenValue)
    ensures LinkedTokens([], access) == {}
  {
  }

  lemma NothingOnDevice(cfg: Config, tokens: TokenMap, subject: LoginSubject, device: string, now: int)
    ensures OnDeviceTokens([], device) == {}
    ensures tokens - {} - Cascade(cfg, tokens, subject, {}, now) == tokens
  {
  }

  lemma ListedSubject(tokens: TokenMap, subject: LoginSubject, now: int, states: seq<TokenState>, i: nat)
    requires S.Lists(tokens, subject, {Access}, now, states) && i < |states|
    ensures states[i].Subject().Normalize() == subject.Normalize()
  {
  }

  lemma SameCascade(cfg: Config, tokens: TokenMap, s: LoginSubject, t: LoginSubject, accesses: set<TokenValue>,
                    now: int)
    requires s.Normalize() == t.Normalize()
    ensures Cascade(cfg, tokens, s, accesses, now) == Cascade(cfg, tokens, t, accesses, now)
  {
    hide LoginSubject.Normalize;
  }
}
