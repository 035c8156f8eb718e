/** Every Manager operation as the sequence of store calls it makes. A program point holds the
    locals that are live there; Pending is the call made at the point, and Resume is the code
    from one reply to the next call, with the clock readings it makes taken at one instant. */
module ManagerSteps {
  import opened Tokens
  import S = AtomicStore

  datatype RefreshConfig = RefreshConfig(timeout: int, rotate: bool, revokeAccess: bool, revokeOnLogout: bool)

  datatype Config = Config(
    timeout: int, activeTimeout: int, autoRenew: bool, concurrent: bool, requireNonce: bool,
    refresh: RefreshConfig, nonceTimeout: int)

  datatype Error =
    | EmptyLoginID | EmptyToken | EmptyRefreshToken | EmptyNonce | EmptyDevice | EmptySessionID
    | TokenNotFound | TokenInvalid | UnsupportedKind
    | RefreshTokenNotFound | RefreshTokenRevoked | RefreshTokenExpired
    | NextRefreshTokenRequired | NextRefreshTokenReuse | NextAccessTokenReuse
    | NonceNotFound | NonceReplayed | NonceExpired
    | StoreError

  datatype Result =
    | Failure(error: Error)
    | Success
    | Token(state: TokenState)
    | Pair(access: TokenState, refresh: TokenState)
    | Plain(token: TokenValue)
    | Listing(states: seq<TokenState>)

  datatype LoginInput = LoginInput(
    loginID: string, token: TokenValue, loginType: string, device: string, metadata: string, nonce: TokenValue)

  datatype RefreshInput = RefreshInput(
    refreshToken: TokenValue, nextAccess: TokenValue, nextRefresh: TokenValue, device: string, metadata: string)

  datatype Operation =
    | Login(login: LoginInput)
    | LoginWithRefresh(login: LoginInput, refreshToken: TokenValue)
    | GetTokenState(token: TokenValue)
    | Renew(token: TokenValue, ttl: int)
    | Logout(token: TokenValue)
    | LogoutByLoginID(loginID: string, loginType: string, deleteSession: bool)
    | LogoutByDevice(loginID: string, loginType: string, device: string)
    | ListTokenStates(loginID: string, loginType: string)
    | MarkOnline(token: TokenValue, info: OnlineInfo)
    | MarkOffline(token: TokenValue)
    | Refresh(input: RefreshInput)
    | RevokeRefreshToken(token: TokenValue)
    | RevokeRefreshByLoginID(loginID: string, loginType: string)
    | GenerateNonce(nonce: TokenValue, subject: LoginSubject, purpose: string, metadata: string)
    | ConsumeNonce(nonce: TokenValue)
    | SaveSession(subject: LoginSubject, data: map<string, string>)
    | DeleteSession(loginID: string, loginType: string)

  /** A refresh token that this call has consumed: the snapshot the store returned and the
      value the call believes is stored now. */
  datatype Claim = Claim(input: RefreshInput, original: TokenState, expected: TokenState) {
    function Key(): TokenValue { original.token }
  }

  /** What follows the shared login code. */
  datatype Then =
    | ReturnAccess(plain: TokenValue)
    | IssueRefresh(plain: TokenValue, refreshPlain: TokenValue)
    | FinishRefresh(claim: Claim)

  /** A login that has read its clock: the access state it will save, and the refresh key it keeps. */
  datatype LoginPlan = LoginPlan(access: TokenState, ttl: int, keep: TokenValue, next: Then)

  /** What follows the shared read-and-check of an active token. */
  datatype Use = Read | Extend(ttl: int) | End | Online(info: OnlineInfo) | Offline

  datatype Point =
    | Finished(result: Result)
    // login
    | TakingNonce(login: LoginInput, follow: Then)
    | ReplacingAccess(plan: LoginPlan)
    | ReplacingRefresh(plan: LoginPlan)
    | ReplacingOthers(plan: LoginPlan, others: seq<TokenValue>)
    | SavingAccess(plan: LoginPlan)
    | SyncingSession(plan: LoginPlan)
    | SavingRefresh(access: TokenState, refresh: TokenState, ttl: int, plain: TokenValue, refreshPlain: TokenValue)
    | UndoingLogin(key: TokenValue)
    // one active token
    | Loading(token: TokenValue, use: Use)
    | DroppingExpired(key: TokenValue, error: Error)
    | Updating(expected: TokenState, next: TokenState, ttl: int, sync: bool, result: Result)
    | SyncingLifetime(subject: LoginSubject, ttl: int, result: Result)
    // logout
    | Ending(todo: seq<TokenState>)
    | FindingLinked(todo: seq<TokenState>)
    | DroppingLinked(todo: seq<TokenState>, linked: seq<TokenValue>)
    | FindingDevice(subject: LoginSubject, device: string)
    | Sweeping(requests: seq<S.Request>)
    // refresh
    | LoadingRefresh(input: RefreshInput)
    | Claiming(input: RefreshInput)
    | DroppingOldAccess(claim: Claim)
    | Rotating(claim: Claim, access: TokenState, refresh: TokenState, ttl: int)
    | Finalizing(claim: Claim, access: TokenState, refresh: TokenState, ttl: int)
    | UndoingRefresh(claim: Claim, key: TokenValue, error: Error)
    | Restoring(claim: Claim, ttl: int, error: Error)
    | LoadingForRevoke(token: TokenValue)
    // nonce, listing
    | SavingNonce(state: TokenState, ttl: int, plain: TokenValue)
    | ConsumingNonce(plain: TokenValue)
    | ListingAccess(subject: LoginSubject)

  // ----- state construction

  function AccessState(digest: Digest, cfg: Config, l: LoginInput, now: int): TokenState {
    var subject := LoginSubject(TrimSpace(l.loginID), l.loginType).Normalize();
    TokenState(StoreKey(digest, l.token), Access, subject.loginID, subject.loginType, l.device, now, now,
               if cfg.timeout > 0 then Some(now + cfg.timeout) else None, Active, l.metadata, None, None, None)
  }

  function NewRefreshState(digest: Digest, cfg: Config, token: TokenValue, access: TokenState, now: int): TokenState {
    TokenState(StoreKey(digest, token), Kind.Refresh, access.loginID, access.loginType, access.device, now, now,
               if cfg.refresh.timeout > 0 then Some(now + cfg.refresh.timeout) else None, Active, access.metadata,
               Some(RefreshInfo(access.token, "", "", None, None)), None, None)
  }

  function RotatedState(digest: Digest, cfg: Config, c: Claim, access: TokenState, now: int): TokenState {
    var s := NewRefreshState(digest, cfg, c.input.nextRefresh, access, now);
    s.(refresh := Some(s.refresh.value.(rotatedFrom := StoreKey(digest, c.input.refreshToken),
                                        lastUsedAt := Some(now))))
  }

  function ReactivatedState(c: Claim, access: TokenState, now: int): TokenState {
    var info := if c.original.refresh.Some? then c.original.refresh.value else RefreshInfo("", "", "", None, None);
    c.original.(refresh := Some(info.(accessToken := access.token, lastUsedAt := Some(now))),
                device := access.device, metadata := access.metadata).Touch(now)
  }

  function NonceState(digest: Digest, cfg: Config, nonce: TokenValue, subject: LoginSubject, purpose: string,
                      metadata: string, now: int): TokenState {
    TokenState(StoreKey(digest, nonce), Kind.Nonce, subject.loginID, subject.loginType, "", now, now,
               Some(now + cfg.nonceTimeout), Active, metadata, None, Some(NonceInfo(purpose, None)), None)
  }

  // ----- login

  function StartLogin(digest: Digest, cfg: Config, l: LoginInput, keep: TokenValue, next: Then, now: int): Point {
    var plan := LoginPlan(AccessState(digest, cfg, l, now), if cfg.timeout > 0 then cfg.timeout else 0, keep, next);
    if cfg.concurrent then SavingAccess(plan) else ReplacingAccess(plan)
  }

  /** The entry checks of a login, with the nonce demanded only of a login the user asked for. */
  function CheckedLogin(digest: Digest, cfg: Config, l: LoginInput, keep: TokenValue, next: Then,
                        enforceNonce: bool, now: int): Point {
    if TrimSpace(l.loginID) == "" then LoginFailed(cfg, next, EmptyLoginID, now)
    else if TrimSpace(l.token) == "" then LoginFailed(cfg, next, EmptyToken, now)
    else if enforceNonce && cfg.requireNonce then
      if TrimSpace(l.nonce) == "" then LoginFailed(cfg, next, EmptyNonce, now) else TakingNonce(l, next)
    else StartLogin(digest, cfg, l, keep, next, now)
  }

  function LoginFailed(cfg: Config, next: Then, error: Error, now: int): Point {
    match next
    case FinishRefresh(claim) => FailRefresh(cfg, claim, error, now)
    case _ => Finished(Failure(error))
  }

  function AfterReplacing(plan: LoginPlan, todo: seq<TokenValue>): Point {
    if todo == [] then SavingAccess(plan) else ReplacingOthers(plan, todo)
  }

  function LoginDone(digest: Digest, cfg: Config, plan: LoginPlan, now: int): Point {
    match plan.next
    case ReturnAccess(plain) => Finished(Token(WithPlaintext(plan.access, plain)))
    case IssueRefresh(plain, refreshPlain) =>
      var refresh := NewRefreshState(digest, cfg, refreshPlain, plan.access, now);
      SavingRefresh(plan.access, refresh, RemainingTTL(now, refresh), plain, refreshPlain)
    case FinishRefresh(claim) =>
      if cfg.refresh.rotate then
        var next := RotatedState(digest, cfg, claim, plan.access, now);
        Rotating(claim, plan.access, next, RemainingTTL(now, next))
      else
        var next := ReactivatedState(claim, plan.access, now);
        Finalizing(claim, plan.access, next, RemainingTTL(now, next))
  }

  // ----- refresh

  function ValidateNext(digest: Digest, cfg: Config, state: TokenState, input: RefreshInput): Option<Error> {
    if state.refresh.None? then None
    else if cfg.refresh.rotate && StoreKey(digest, input.nextRefresh) == state.refresh.value.accessToken then
      Some(NextRefreshTokenReuse)
    else if !cfg.refresh.revokeAccess || state.refresh.value.accessToken == "" then None
    else if StoreKey(digest, input.nextAccess) == state.refresh.value.accessToken then Some(NextAccessTokenReuse)
    else None
  }

  /** Leaving a refresh after the claim: a reusable token is given back, a rotating one is spent. */
  function FailRefresh(cfg: Config, claim: Claim, error: Error, now: int): Point {
    if cfg.refresh.rotate then Finished(Failure(error))
    else Restoring(claim, RemainingTTL(now, claim.original), error)
  }

  function CheckRefresh(state: TokenState, now: int): Option<Error> {
    if state.kind != Kind.Refresh then Some(UnsupportedKind)
    else if state.status != Active then Some(RefreshTokenRevoked)
    else if state.IsExpired(now) then Some(RefreshTokenExpired)
    else None
  }

  predicate WinsClaim(reply: S.Reply, now: int) {
    reply.Found? && CheckRefresh(reply.state.Normalize(), now).None?
  }

  function AfterClaim(digest: Digest, cfg: Config, input: RefreshInput, state: TokenState, now: int): Point {
    var claim := Claim(input, state, state.MarkConsumed(now));
    var invalid := ValidateNext(digest, cfg, state, input);
    if invalid.Some? then FailRefresh(cfg, claim, invalid.value, now)
    else if cfg.refresh.revokeAccess && state.refresh.Some? && state.refresh.value.accessToken != "" then
      DroppingOldAccess(claim)
    else ReplaceAccess(digest, cfg, claim, now)
  }

  function ReplaceAccess(digest: Digest, cfg: Config, claim: Claim, now: int): Point {
    var previous := claim.original;
    var device := if claim.input.device != "" then claim.input.device else previous.device;
    var metadata := if claim.input.metadata != "" then claim.input.metadata else previous.metadata;
    var keep := if cfg.refresh.rotate then "" else previous.token;
    var l := LoginInput(previous.loginID, claim.input.nextAccess, previous.loginType, device, metadata, "");
    CheckedLogin(digest, cfg, l, keep, FinishRefresh(claim), false, now)
  }

  // ----- one active token

  function AfterLoad(digest: Digest, cfg: Config, token: TokenValue, use: Use, reply: S.Reply, now: int): Point {
    match reply
    case Failed => Finished(Failure(StoreError))
    case Found(stored) =>
      var state := stored.Normalize();
      if state.status != Active then Finished(Failure(TokenInvalid))
      else if state.IsExpired(now) then DroppingExpired(StoreKey(digest, token), TokenNotFound)
      else UseToken(cfg, token, use, state, now)
    case _ => Finished(Failure(TokenNotFound))
  }

  function UseToken(cfg: Config, token: TokenValue, use: Use, state: TokenState, now: int): Point {
    match use
    case Read =>
      if cfg.autoRenew && state.kind == Access then
        var touched := state.Touch(now);
        var next := if cfg.activeTimeout > 0 then touched.(expiresAt := Some(now + cfg.activeTimeout)) else touched;
        Updating(state, next, RemainingTTL(now, next), true, Token(WithPlaintext(next, token)))
      else Finished(Token(WithPlaintext(state, token)))
    case Extend(ttl) =>
      var next := state.Touch(now).(expiresAt := if ttl > 0 then Some(now + ttl) else None);
      Updating(state, next, ttl, true, Success)
    case End => Ending([state])
    case Online(info) =>
      if state.kind != Access then Finished(Failure(UnsupportedKind))
      else
        var next := state.MarkOnline(now, info);
        Updating(state, next, RemainingTTL(now, next), false, Success)
    case Offline =>
      if state.kind != Access then Finished(Failure(UnsupportedKind))
      else
        var next := state.MarkOffline(now);
        Updating(state, next, RemainingTTL(now, next), false, Success)
  }

  // ----- logout

  function EndNext(todo: seq<TokenState>): Point {
    if todo == [] then Finished(Success) else Ending(todo)
  }

  function AfterLinked(todo: seq<TokenState>, linked: seq<TokenValue>): Point
    requires todo != []
  {
    if linked == [] then EndNext(todo[1..]) else DroppingLinked(todo, linked)
  }

  /** The keys of the refresh states that were issued together with the given access key. */
  function LinkedKeys(states: seq<TokenState>, access: TokenValue): seq<TokenValue> {
    if states == [] then []
    else (if states[0].refresh.Some? && states[0].refresh.value.accessToken == access then [states[0].token] else [])
         + LinkedKeys(states[1..], access)
  }

  function OtherKeys(states: seq<TokenState>, keep: TokenValue): seq<TokenValue> {
    if states == [] then []
    else (if states[0].token != keep then [states[0].token] else []) + OtherKeys(states[1..], keep)
  }

  function OnDevice(states: seq<TokenState>, device: string): seq<TokenState> {
    if states == [] then []
    else (if TrimSpace(states[0].device) == device then [states[0]] else []) + OnDevice(states[1..], device)
  }

  function Unexpired(states: seq<TokenState>, now: int): seq<TokenState> {
    if states == [] then []
    else (if states[0].IsExpired(now) then [] else [states[0]]) + Unexpired(states[1..], now)
  }

  function SubjectOf(loginID: string, loginType: string): LoginSubject {
    LoginSubject(TrimSpace(loginID), loginType).Normalize()
  }

  // ----- nonce

  function NonceRefusal(reply: S.Reply, now: int): Option<Error> {
    match reply
    case Failed => Some(StoreError)
    case Found(stored) =>
      var state := stored.Normalize();
      if state.kind != Kind.Nonce then Some(UnsupportedKind)
      else if state.status == Consumed then Some(NonceReplayed)
      else if state.status != Active then Some(TokenInvalid)
      else if state.IsExpired(now) then Some(NonceExpired)
      else None
    case _ => Some(NonceNotFound)
  }

  // ----- the operations

  function Begin(digest: Digest, cfg: Config, op: Operation, now: int): Point {
    match op
    case Login(l) => CheckedLogin(digest, cfg, l, "", ReturnAccess(l.token), true, now)
    case LoginWithRefresh(l, refreshToken) =>
      if TrimSpace(refreshToken) == "" then Finished(Failure(EmptyRefreshToken))
      else if StoreKey(digest, l.token) == StoreKey(digest, refreshToken) then Finished(Failure(NextRefreshTokenReuse))
      else CheckedLogin(digest, cfg, l, "", IssueRefresh(l.token, TrimSpace(refreshToken)), true, now)
    case GetTokenState(token) => BeginLoad(token, Read)
    case Renew(token, ttl) => BeginLoad(token, Extend(ttl))
    case Logout(token) => BeginLoad(token, End)
    case MarkOnline(token, info) => BeginLoad(token, Online(info))
    case MarkOffline(token) => BeginLoad(token, Offline)
    case LogoutByLoginID(loginID, loginType, deleteSession) =>
      if TrimSpace(loginID) == "" then Finished(Failure(EmptyLoginID))
      else
        var subject := SubjectOf(loginID, loginType);
        Sweeping([S.DeleteAll(subject, {Access})]
                 + (if cfg.refresh.revokeOnLogout then [S.DeleteAll(subject, {Kind.Refresh})] else [])
                 + (if deleteSession then [S.DeleteSession(subject)] else []))
    case LogoutByDevice(loginID, loginType, device) =>
      if TrimSpace(loginID) == "" then Finished(Failure(EmptyLoginID))
      else if TrimSpace(device) == "" then Finished(Failure(EmptyDevice))
      else FindingDevice(SubjectOf(loginID, loginType), TrimSpace(device))
    case ListTokenStates(loginID, loginType) =>
      if TrimSpace(loginID) == "" then Finished(Failure(EmptyLoginID))
      else ListingAccess(SubjectOf(loginID, loginType))
    case Refresh(input) => BeginRefresh(cfg, Trimmed(input))
    case RevokeRefreshToken(token) =>
      if TrimSpace(token) == "" then Finished(Failure(EmptyRefreshToken)) else LoadingForRevoke(TrimSpace(token))
    case RevokeRefreshByLoginID(loginID, loginType) =>
      if TrimSpace(loginID) == "" then Finished(Failure(EmptyLoginID))
      else Sweeping([S.DeleteAll(SubjectOf(loginID, loginType), {Kind.Refresh})])
    case GenerateNonce(nonce, subject, purpose, metadata) =>
      if nonce == "" then Finished(Failure(EmptyNonce))
      else SavingNonce(NonceState(digest, cfg, nonce, subject, purpose, metadata, now), cfg.nonceTimeout, nonce)
    case ConsumeNonce(nonce) =>
      if TrimSpace(nonce) == "" then Finished(Failure(EmptyNonce)) else ConsumingNonce(TrimSpace(nonce))
    case SaveSession(subject, data) =>
      if subject.Normalize().IsZero() then Finished(Failure(EmptySessionID))
      else Sweeping([S.SaveSession(subject.Normalize(), data, cfg.timeout)])
    case DeleteSession(loginID, loginType) =>
      if TrimSpace(loginID) == "" then Finished(Failure(EmptySessionID))
      else Sweeping([S.DeleteSession(SubjectOf(loginID, loginType))])
  }

  function BeginLoad(token: TokenValue, use: Use): Point {
    if TrimSpace(token) == "" then Finished(Failure(EmptyToken)) else Loading(TrimSpace(token), use)
  }

  function Trimmed(input: RefreshInput): RefreshInput {
    RefreshInput(TrimSpace(input.refreshToken), TrimSpace(input.nextAccess), TrimSpace(input.nextRefresh),
                 TrimSpace(input.device), input.metadata)
  }

  function BeginRefresh(cfg: Config, input: RefreshInput): Point {
    if input.refreshToken == "" then Finished(Failure(EmptyRefreshToken))
    else if input.nextAccess == "" then Finished(Failure(EmptyToken))
    else if cfg.refresh.rotate && input.nextRefresh == "" then Finished(Failure(NextRefreshTokenRequired))
    else if cfg.refresh.rotate && input.nextRefresh == input.refreshToken then Finished(Failure(NextRefreshTokenReuse))
    else if input.nextAccess == input.refreshToken then Finished(Failure(NextAccessTokenReuse))
    else if cfg.refresh.rotate && input.nextAccess == input.nextRefresh then Finished(Failure(NextRefreshTokenReuse))
    else LoadingRefresh(input)
  }

  /** Points hold work that remains, so their queues are not empty. */
  predicate Ready(p: Point) {
    match p
    case Finished(_) => false
    case ReplacingOthers(_, todo) => todo != []
    case Ending(todo) => todo != []
    case FindingLinked(todo) => todo != []
    case DroppingLinked(todo, linked) => todo != [] && linked != []
    case Sweeping(todo) => todo != []
    case _ => true
  }

  function Pending(digest: Digest, cfg: Config, p: Point): S.Request
    requires Ready(p)
  {
    match p
    case TakingNonce(l, _) => S.Consume(StoreKey(digest, l.nonce), Some(Kind.Nonce))
    case ReplacingAccess(plan) => S.DeleteAll(plan.access.Subject(), {Access})
    case ReplacingRefresh(plan) =>
      if plan.keep == "" then S.DeleteAll(plan.access.Subject(), {Kind.Refresh})
      else S.Find(plan.access.Subject(), {Kind.Refresh})
    case ReplacingOthers(_, todo) => S.Delete(todo[0])
    case SavingAccess(plan) => S.Save(plan.access, plan.ttl)
    case SyncingSession(plan) => S.EnsureSession(plan.access.Subject(), plan.ttl)
    case SavingRefresh(_, refresh, ttl, _, _) => S.Save(refresh, ttl)
    case UndoingLogin(key) => S.Delete(key)
    case Loading(token, _) => S.Get(StoreKey(digest, token))
    case DroppingExpired(key, _) => S.Delete(key)
    case Updating(expected, next, ttl, _, _) => S.Swap(expected, next, ttl)
    case SyncingLifetime(subject, ttl, _) => S.EnsureSession(subject, ttl)
    case Ending(todo) => S.Delete(todo[0].token)
    case FindingLinked(todo) => S.Find(todo[0].Subject(), {Kind.Refresh})
    case DroppingLinked(_, linked) => S.Delete(linked[0])
    case FindingDevice(subject, _) => S.Find(subject, {Access})
    case Sweeping(todo) => todo[0]
    case LoadingRefresh(input) => S.Get(StoreKey(digest, input.refreshToken))
    case Claiming(input) => S.Consume(StoreKey(digest, input.refreshToken), Some(Kind.Refresh))
    case DroppingOldAccess(claim) =>
      S.Delete(if claim.original.refresh.Some? then claim.original.refresh.value.accessToken else "")
    case Rotating(_, _, refresh, ttl) => S.Save(refresh, ttl)
    case Finalizing(claim, _, refresh, ttl) => S.Swap(claim.expected, refresh, ttl)
    case UndoingRefresh(_, key, _) => S.Delete(key)
    case Restoring(claim, ttl, _) => S.Swap(claim.expected, claim.original, ttl)
    case LoadingForRevoke(token) => S.Get(StoreKey(digest, token))
    case SavingNonce(state, ttl, _) => S.Save(state, ttl)
    case ConsumingNonce(plain) => S.Consume(StoreKey(digest, plain), Some(Kind.Nonce))
    case ListingAccess(subject) => S.Find(subject, {Access})
  }

  predicate IsLoginPoint(p: Point) {
    p.TakingNonce? || p.ReplacingAccess? || p.ReplacingRefresh? || p.ReplacingOthers? || p.SavingAccess?
    || p.SyncingSession?
  }

  predicate IsRefreshPoint(p: Point) {
    p.LoadingRefresh? || p.Claiming? || p.DroppingOldAccess? || p.Rotating? || p.Finalizing? || p.UndoingRefresh?
    || p.Restoring?
  }

  function ResumeLogin(digest: Digest, cfg: Config, p: Point, reply: S.Reply, now: int): Point
    requires Ready(p) && IsLoginPoint(p)
  {
    match p
    case TakingNonce(l, next) =>
      var refusal := NonceRefusal(reply, now);
      if refusal.Some? then LoginFailed(cfg, next, refusal.value, now)
      else StartLogin(digest, cfg, l, "", next, now)
    case ReplacingAccess(plan) =>
      if reply.Failed? then LoginFailed(cfg, plan.next, StoreError, now)
      else if cfg.refresh.revokeOnLogout then ReplacingRefresh(plan)
      else SavingAccess(plan)
    case ReplacingRefresh(plan) =>
      if reply.Failed? then LoginFailed(cfg, plan.next, StoreError, now)
      else AfterReplacing(plan, if reply.States? then OtherKeys(reply.states, plan.keep) else [])
    case ReplacingOthers(plan, todo) =>
      if reply.Failed? then LoginFailed(cfg, plan.next, StoreError, now) else AfterReplacing(plan, todo[1..])
    case SavingAccess(plan) =>
      if reply.Failed? then LoginFailed(cfg, plan.next, StoreError, now) else SyncingSession(plan)
    case SyncingSession(plan) =>
      if reply.Failed? then LoginFailed(cfg, plan.next, StoreError, now) else LoginDone(digest, cfg, plan, now)
  }

  function ResumeRefresh(digest: Digest, cfg: Config, p: Point, reply: S.Reply, now: int): Point
    requires Ready(p) && IsRefreshPoint(p)
  {
    match p
    case LoadingRefresh(input) =>
      (match reply
       case Failed => Finished(Failure(StoreError))
       case Found(stored) =>
         var state := stored.Normalize();
         var refusal := CheckRefresh(state, now);
         if refusal == Some(RefreshTokenExpired) then
           DroppingExpired(StoreKey(digest, input.refreshToken), RefreshTokenExpired)
         else if refusal.Some? then Finished(Failure(refusal.value))
         else
           var invalid := ValidateNext(digest, cfg, state, input);
           if invalid.Some? then Finished(Failure(invalid.value)) else Claiming(input)
       case _ => Finished(Failure(RefreshTokenNotFound)))
    case Claiming(input) =>
      (match reply
       case Failed => Finished(Failure(StoreError))
       case Found(stored) =>
         var refusal := CheckRefresh(stored.Normalize(), now);
         if refusal.Some? then Finished(Failure(refusal.value))
         else AfterClaim(digest, cfg, input, stored.Normalize(), now)
       case _ => Finished(Failure(RefreshTokenNotFound)))
    case DroppingOldAccess(claim) =>
      if reply.Failed? then FailRefresh(cfg, claim, StoreError, now) else ReplaceAccess(digest, cfg, claim, now)
    case Rotating(claim, access, refresh, _) =>
      if reply.Failed? then UndoingRefresh(claim, access.token, StoreError)
      else Finished(Pair(WithPlaintext(access, claim.input.nextAccess),
                         WithPlaintext(refresh, claim.input.nextRefresh)))
    case Finalizing(claim, access, refresh, _) =>
      if reply.Failed? then UndoingRefresh(claim, access.token, StoreError)
      else if reply != S.Swapped(true) then UndoingRefresh(claim, access.token, TokenInvalid)
      else Finished(Pair(WithPlaintext(access, claim.input.nextAccess),
                         WithPlaintext(refresh, claim.input.refreshToken)))
    case UndoingRefresh(claim, _, error) => FailRefresh(cfg, claim, error, now)
    case Restoring(_, _, error) => Finished(Failure(error))
  }

  function ResumeOther(digest: Digest, cfg: Config, p: Point, reply: S.Reply, now: int): Point
    requires Ready(p) && !IsLoginPoint(p) && !IsRefreshPoint(p)
  {
    match p
    case SavingRefresh(access, refresh, _, plain, refreshPlain) =>
      if reply.Failed? then UndoingLogin(access.token)
      else Finished(Pair(WithPlaintext(access, plain), WithPlaintext(refresh, refreshPlain)))
    case UndoingLogin(_) => Finished(Failure(StoreError))
    case Loading(token, use) => AfterLoad(digest, cfg, token, use, reply, now)
    case DroppingExpired(_, error) => Finished(Failure(error))
    case Updating(_, next, ttl, sync, result) =>
      if reply.Failed? then Finished(Failure(StoreError))
      else if reply != S.Swapped(true) then Finished(Failure(TokenInvalid))
      else if sync then SyncingLifetime(next.Subject(), ttl, result)
      else Finished(result)
    case SyncingLifetime(_, _, result) =>
      if reply.Failed? then Finished(Failure(StoreError)) else Finished(result)
    case Ending(todo) =>
      if reply.Failed? then Finished(Failure(StoreError))
      else if !cfg.refresh.revokeOnLogout || todo[0].token == "" then EndNext(todo[1..])
      else FindingLinked(todo)
    case FindingLinked(todo) =>
      if !reply.States? then Finished(Failure(StoreError))
      else AfterLinked(todo, LinkedKeys(reply.states, todo[0].token))
    case DroppingLinked(todo, linked) =>
      if reply.Failed? then Finished(Failure(StoreError)) else AfterLinked(todo, linked[1..])
    case FindingDevice(_, device) =>
      if !reply.States? then Finished(Failure(StoreError)) else EndNext(OnDevice(reply.states, device))
    case Sweeping(todo) =>
      if reply.Failed? then Finished(Failure(StoreError))
      else if |todo| == 1 then Finished(Success)
      else Sweeping(todo[1..])
    case LoadingForRevoke(_) =>
      (match reply
       case Failed => Finished(Failure(StoreError))
       case Found(stored) =>
         var state := stored.Normalize();
         if state.kind != Kind.Refresh then Finished(Failure(UnsupportedKind))
         else
           var next := state.MarkRevoked(now);
           Updating(state, next, RemainingTTL(now, next), false, Success)
       case _ => Finished(Failure(RefreshTokenNotFound)))
    case SavingNonce(_, _, plain) =>
      if reply.Failed? then Finished(Failure(StoreError)) else Finished(Plain(plain))
    case ConsumingNonce(plain) =>
      var refusal := NonceRefusal(reply, now);
      if refusal.Some? then Finished(Failure(refusal.value))
      else if reply.Found? then Finished(Token(WithPlaintext(reply.state.Normalize().MarkConsumed(now), plain)))
      else Finished(Failure(NonceNotFound))
    case ListingAccess(_) =>
      if !reply.States? then Finished(Failure(StoreError)) else Finished(Listing(Unexpired(reply.states, now)))
  }

  /** The code from a reply to the next call. */
  function Resume(digest: Digest, cfg: Config, p: Point, reply: S.Reply, now: int): Point
    requires Ready(p)
  {
    if IsLoginPoint(p) then ResumeLogin(digest, cfg, p, reply, now)
    else if IsRefreshPoint(p) then ResumeRefresh(digest, cfg, p, reply, now)
    else ResumeOther(digest, cfg, p, reply, now)
  }
}
