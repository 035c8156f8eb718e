/** What the operations do when store calls fail, over every run: a failure is never taken for a success, a claim is
    offered back, an access token without its refresh token is taken back. And what they store lives for its time,
    however late the store comes to serve them. */
module Faults {
  import opened Tokens
  import opened ManagerSteps
  import opened Protocol
  import opened ProtocolSafety
  import S = AtomicStore

  // ----- a client's own moves

  /** A step is the client's own call, or leaves it where it is. */
  lemma ClientMoves(digest: Digest, w: World, w': World, id: nat) returns (called: bool, reply: S.Reply)
    requires Step(digest, w, w') && id in w.clients
    ensures id in w'.clients && w.clock <= w'.clock
    ensures if called then Calls(digest, w, w', id, reply) else w'.clients[id] == w.clients[id]
  {
    if other, cfg, op :| Starts(digest, w, w', other, cfg, op) {
      called, reply := false, S.Failed;
    } else {
      var other, r :| Calls(digest, w, w', other, r);
      called, reply := other == id, r;
    }
  }

  lemma RunMoves(digest: Digest, ws: seq<World>, n: nat, id: nat) returns (called: bool, reply: S.Reply)
    requires Run(digest, ws) && n + 1 < |ws| && id in ws[n].clients
    ensures id in ws[n + 1].clients && ws[n].clock <= ws[n + 1].clock
    ensures if called then Calls(digest, ws[n], ws[n + 1], id, reply) else ws[n + 1].clients[id] == ws[n].clients[id]
  {
    hide Step, Init;
    assert Follows(digest, ws, n);
    called, reply := ClientMoves(digest, ws[n], ws[n + 1], id);
  }

  // ----- a failure is not taken for a success

  /** The operation has failed, or is cleaning up before it says so. */
  predicate Doomed(p: Point) {
    (p.Finished? && p.result.Failure?) || p.UndoingLogin? || p.UndoingRefresh? || p.Restoring? || p.DroppingExpired?
  }

  lemma FailedDooms(digest: Digest, cfg: Config, p: Point, now: int)
    requires Ready(p)
    ensures Doomed(Resume(digest, cfg, p, S.Failed, now))
  {
    hide RemainingTTL, StoreKey;
  }

  lemma DoomStays(digest: Digest, cfg: Config, p: Point, reply: S.Reply, now: int)
    requires Ready(p) && Doomed(p)
    ensures Doomed(Resume(digest, cfg, p, reply, now))
  {
  }

  /** In every run an operation one of whose store calls failed does not end in success. */
  lemma {:induction false} FailedCallFails(digest: Digest, ws: seq<World>, i: nat, j: nat, id: nat)
    requires Run(digest, ws) && i < j < |ws| && Calls(digest, ws[i], ws[i + 1], id, S.Failed)
    ensures id in ws[j].clients && Doomed(ws[j].clients[id].point)
    ensures ws[j].clients[id].point.Finished? ==> ws[j].clients[id].point.result.Failure?
    decreases j
  {
    hide Run, Resume, S.Serves, Record, Doomed;
    if j == i + 1 {
      FailedDooms(digest, ws[i].clients[id].cfg, ws[i].clients[id].point, ws[j].clock);
    } else {
      FailedCallFails(digest, ws, i, j - 1, id);
      var called, reply := RunMoves(digest, ws, j - 1, id);
      if called {
        DoomStays(digest, ws[j - 1].clients[id].cfg, ws[j - 1].clients[id].point, reply, ws[j].clock);
      }
    }
    DoomedFails(ws[j].clients[id].point);
  }

  lemma DoomedFails(p: Point)
    requires Doomed(p)
    ensures p.Finished? ==> p.result.Failure?
  {
  }

  // ----- a claim is offered back

  /** The client's step is the swap that gives the claimed token back as it was. */
  ghost predicate OffersBack(digest: Digest, w: World, w': World, id: nat, claim: Claim) {
    && id in w.clients && Ready(w.clients[id].point)
    && (exists reply :: Calls(digest, w, w', id, reply))
    && var r := Pending(digest, w.clients[id].cfg, w.clients[id].point);
    && r.Swap? && r.expected == claim.expected && r.next == claim.original
  }

  /** The call of a client with a claim, under reusable refresh tokens. */
  lemma ClaimedCall(digest: Digest, cfg: Config, p: Point, reply: S.Reply, now: int)
    requires Ready(p) && PointOk(digest, cfg, p) && ClaimOf(p).Some? && !cfg.refresh.rotate
    ensures var p' := Resume(digest, cfg, p, reply, now);
            && (ClaimOf(p') == ClaimOf(p) || p.Restoring? || (p'.Finished? && p'.result.Pair?))
            && (p'.Finished? && p'.result.Pair? ==> p.Finalizing? && reply == S.Swapped(true))
  {
    if IsLoginPoint(p) {
      ClaimedLogin(digest, cfg, p, reply, now);
    } else {
      ClaimedRefresh(digest, cfg, p, reply, now);
    }
  }

  lemma ClaimedLogin(digest: Digest, cfg: Config, p: Point, reply: S.Reply, now: int)
    requires Ready(p) && IsLoginPoint(p) && ClaimOf(p).Some? && !cfg.refresh.rotate
    ensures var p' := ResumeLogin(digest, cfg, p, reply, now); ClaimOf(p') == ClaimOf(p) && !p'.Finished?
  {
    hide RemainingTTL, OtherKeys, ReactivatedState;
  }

  lemma ClaimedRefresh(digest: Digest, cfg: Config, p: Point, reply: S.Reply, now: int)
    requires IsRefreshPoint(p) && PointOk(digest, cfg, p) && ClaimOf(p).Some? && !cfg.refresh.rotate
    ensures var p' := ResumeRefresh(digest, cfg, p, reply, now);
            && (ClaimOf(p') == ClaimOf(p) || p.Restoring? || (p'.Finished? && p'.result.Pair?))
            && (p'.Finished? && p'.result.Pair? ==> p.Finalizing? && reply == S.Swapped(true))
  {
    hide AccessState, RemainingTTL, ClaimOk, TrimSpace, FreshState;
  }

  /** In every run a refresh of a reusable token that has claimed it and fails, for whatever reason, has offered it
      back: it has called the swap from the claimed state to the one it found. */
  lemma {:induction false} ClaimIsOfferedBack(digest: Digest, ws: seq<World>, i: nat, j: nat, id: nat)
    requires Run(digest, ws) && i <= j < |ws| && id in ws[i].clients && !ws[i].clients[id].cfg.refresh.rotate
    requires ClaimOf(ws[i].clients[id].point).Some?
    ensures id in ws[j].clients && ws[j].clients[id].cfg == ws[i].clients[id].cfg
    ensures var claim, p := ClaimOf(ws[i].clients[id].point), ws[j].clients[id].point;
            || ClaimOf(p) == claim || (p.Finished? && p.result.Pair?)
            || (p.Finished? && exists k :: i <= k < j && OffersBack(digest, ws[k], ws[k + 1], id, claim.value))
    decreases j
  {
    hide Run, Resume, ClaimOf, OffersBack, Inv, S.Serves, Record;
    if j == i {
      return;
    }
    ClaimIsOfferedBack(digest, ws, i, j - 1, id);
    var claim, c := ClaimOf(ws[i].clients[id].point), ws[j - 1].clients[id];
    var called, reply := RunMoves(digest, ws, j - 1, id);
    if called {
      RunKeepsInv(digest, ws, j - 1);
      NotFinished(c.point);
      OfferedByCall(digest, ws[j - 1], ws[j], id, reply, claim);
    }
  }

  lemma NotFinished(p: Point)
    ensures Ready(p) ==> !p.Finished?
  {
  }

  lemma OfferedByCall(digest: Digest, w: World, w': World, id: nat, reply: S.Reply, claim: Option<Claim>)
    requires Inv(digest, w) && Calls(digest, w, w', id, reply) && !w.clients[id].cfg.refresh.rotate
    requires claim.Some? && ClaimOf(w.clients[id].point) == claim
    ensures var p := w'.clients[id].point;
            || ClaimOf(p) == claim || (p.Finished? && p.result.Pair?)
            || (p.Finished? && OffersBack(digest, w, w', id, claim.value))
  {
    var c := w.clients[id];
    ClaimedCall(digest, c.cfg, c.point, reply, w'.clock);
    hide PointOk, S.Serves, Record;
    if c.point.Restoring? {
      assert w'.clients[id].point.Finished?;
    }
  }

  // ----- what is stored lives for its time

  /** Whenever it is stored from now on, the state lives exactly to its own expiry. */
  ghost predicate Timed(state: TokenState, ttl: int, clock: int) {
    forall now :: clock <= now ==> S.EntryFor(state, ttl, now).deadline == state.expiresAt
  }

  lemma RemainingIsTimed(state: TokenState, now: int)
    ensures Timed(state, RemainingTTL(now, state), now)
  {
  }

  lemma IssuedIsTimed(state: TokenState, ttl: int, now: int)
    requires state.expiresAt == if ttl > 0 then Some(now + ttl) else None
    ensures Timed(state, ttl, now)
  {
  }

  ghost predicate PlanKept(digest: Digest, plan: LoginPlan, clock: int) {
    && Timed(plan.access, plan.ttl, clock)
    && (plan.next.IssueRefresh? ==> plan.access.token == StoreKey(digest, plan.next.plain))
  }

  /** What a point is about to store is stored for its time, under the key of the token that will be answered. */
  ghost predicate Kept(digest: Digest, p: Point, clock: int) {
    match p
    case ReplacingAccess(plan) => PlanKept(digest, plan, clock)
    case ReplacingRefresh(plan) => PlanKept(digest, plan, clock)
    case ReplacingOthers(plan, _) => PlanKept(digest, plan, clock)
    case SavingAccess(plan) => PlanKept(digest, plan, clock)
    case SyncingSession(plan) => PlanKept(digest, plan, clock)
    case SavingRefresh(access, refresh, ttl, plain, refreshPlain) =>
      && Timed(refresh, ttl, clock) && access.token == StoreKey(digest, plain)
      && refresh.token == StoreKey(digest, refreshPlain)
    case Rotating(claim, _, refresh, ttl) =>
      Timed(refresh, ttl, clock) && refresh.token == StoreKey(digest, claim.input.nextRefresh)
    case Finalizing(_, _, refresh, ttl) => Timed(refresh, ttl, clock)
    case Restoring(claim, ttl, _) => Timed(claim.original, ttl, clock)
    case Updating(_, next, ttl, _, _) => Timed(next, ttl, clock)
    case SavingNonce(state, ttl, _) => Timed(state, ttl, clock)
    case _ => true
  }

  lemma KeptLonger(digest: Digest, p: Point, clock: int, later: int)
    requires Kept(digest, p, clock) && clock <= later
    ensures Kept(digest, p, later)
  {
    hide S.EntryFor, StoreKey;
  }

  lemma StartIsKept(digest: Digest, cfg: Config, l: LoginInput, keep: TokenValue, next: Then, now: int)
    requires next.IssueRefresh? ==> next.plain == l.token
    ensures Kept(digest, StartLogin(digest, cfg, l, keep, next, now), now)
  {
    AccessIsNamed(digest, cfg, l, now);
    hide AccessState, StoreKey;
    IssuedIsTimed(AccessState(digest, cfg, l, now), if cfg.timeout > 0 then cfg.timeout else 0, now);
    hide Timed;
  }

  lemma AccessIsNamed(digest: Digest, cfg: Config, l: LoginInput, now: int)
    ensures var access := AccessState(digest, cfg, l, now);
            && access.token == StoreKey(digest, l.token)
            && access.expiresAt == if cfg.timeout > 0 then Some(now + cfg.timeout) else None
  {
    hide StoreKey, TrimSpace;
  }

  lemma FailureIsKept(digest: Digest, cfg: Config, next: Then, error: Error, now: int)
    ensures Kept(digest, LoginFailed(cfg, next, error, now), now)
  {
    if next.FinishRefresh? {
      RemainingIsTimed(next.claim.original, now);
    }
    hide Timed, RemainingTTL;
  }

  /** A nonce is taken for a login that then goes on with the same token. */
  predicate TakenFor(p: Point) {
    p.TakingNonce? && p.follow.IssueRefresh? ==> p.follow.plain == p.login.token
  }

  lemma CheckedIsKept(digest: Digest, cfg: Config, l: LoginInput, keep: TokenValue, next: Then, enforceNonce: bool,
                      now: int)
    requires next.IssueRefresh? ==> next.plain == l.token
    ensures var p := CheckedLogin(digest, cfg, l, keep, next, enforceNonce, now); Kept(digest, p, now) && TakenFor(p)
  {
    StartIsKept(digest, cfg, l, keep, next, now);
    FailureIsKept(digest, cfg, next, EmptyLoginID, now);
    FailureIsKept(digest, cfg, next, EmptyToken, now);
    FailureIsKept(digest, cfg, next, EmptyNonce, now);
    hide Timed, StoreKey, TrimSpace, Kept, LoginFailed;
    NoNonceTaken(cfg, next, EmptyLoginID, now);
    NoNonceTaken(cfg, next, EmptyToken, now);
    NoNonceTaken(cfg, next, EmptyNonce, now);
    assert Kept(digest, TakingNonce(l, next), now) by { KeptNonce(digest, l, next, now); }
  }

  lemma KeptNonce(digest: Digest, l: LoginInput, next: Then, now: int)
    ensures Kept(digest, TakingNonce(l, next), now)
  {
  }

  lemma NoNonceTaken(cfg: Config, next: Then, error: Error, now: int)
    ensures !LoginFailed(cfg, next, error, now).TakingNonce?
  {
  }

  lemma BegunIsKept(digest: Digest, cfg: Config, op: Operation, now: int)
    ensures var p := Begin(digest, cfg, op, now); Kept(digest, p, now) && TakenFor(p)
  {
    hide Timed, StoreKey, TrimSpace, CheckedLogin, BeginRefresh, Trimmed, NonceState, Kept, TakenFor;
    match op
    case Login(l) => CheckedIsKept(digest, cfg, l, "", ReturnAccess(l.token), true, now);
    case LoginWithRefresh(l, refreshToken) =>
      CheckedIsKept(digest, cfg, l, "", IssueRefresh(l.token, TrimSpace(refreshToken)), true, now);
      NothingToKeep(digest, Begin(digest, cfg, op, now), now);
    case Refresh(input) => BegunRefreshIsKept(digest, cfg, op, now);
    case GenerateNonce(nonce, subject, purpose, metadata) =>
      NonceIsKept(digest, cfg, nonce, subject, purpose, metadata, now);
      NothingToKeep(digest, Begin(digest, cfg, op, now), now);
    case _ => NothingToKeep(digest, Begin(digest, cfg, op, now), now);
  }

  lemma NothingToKeep(digest: Digest, p: Point, now: int)
    ensures || p.Finished? || p.Loading? || p.Sweeping? || p.FindingDevice? || p.ListingAccess? || p.LoadingForRevoke?
            || p.ConsumingNonce?
            ==> Kept(digest, p, now) && TakenFor(p)
  {
  }

  lemma NonceIsKept(digest: Digest, cfg: Config, nonce: TokenValue, subject: LoginSubject, purpose: string,
                    metadata: string, now: int)
    ensures var p := SavingNonce(NonceState(digest, cfg, nonce, subject, purpose, metadata, now), cfg.nonceTimeout,
                                 nonce);
            Kept(digest, p, now) && TakenFor(p)
  {
    hide StoreKey;
  }

  lemma BegunRefreshIsKept(digest: Digest, cfg: Config, op: Operation, now: int)
    ensures op.Refresh? ==> var p := BeginRefresh(cfg, Trimmed(op.input)); Kept(digest, p, now) && TakenFor(p)
  {
    hide TrimSpace;
  }

  lemma DoneIsKept(digest: Digest, cfg: Config, plan: LoginPlan, now: int)
    requires PlanKept(digest, plan, now)
    ensures Kept(digest, LoginDone(digest, cfg, plan, now), now)
  {
    match plan.next
    case ReturnAccess(_) =>
    case IssueRefresh(_, refreshPlain) =>
      RemainingIsTimed(NewRefreshState(digest, cfg, refreshPlain, plan.access, now), now);
    case FinishRefresh(claim) =>
      RemainingIsTimed(RotatedState(digest, cfg, claim, plan.access, now), now);
      RemainingIsTimed(ReactivatedState(claim, plan.access, now), now);
  }

  lemma ReplacedIsKept(digest: Digest, cfg: Config, claim: Claim, now: int)
    ensures var p := ReplaceAccess(digest, cfg, claim, now); Kept(digest, p, now) && TakenFor(p)
  {
    var previous := claim.original;
    var l := LoginInput(previous.loginID, claim.input.nextAccess, previous.loginType,
                        if claim.input.device != "" then claim.input.device else previous.device,
                        if claim.input.metadata != "" then claim.input.metadata else previous.metadata, "");
    CheckedIsKept(digest, cfg, l, if cfg.refresh.rotate then "" else previous.token, FinishRefresh(claim), false, now);
    hide CheckedLogin, Kept, TakenFor;
  }

  lemma LoginStaysKept(digest: Digest, cfg: Config, p: Point, reply: S.Reply, now: int)
    requires Ready(p) && IsLoginPoint(p) && Kept(digest, p, now) && TakenFor(p)
    ensures var p' := ResumeLogin(digest, cfg, p, reply, now); Kept(digest, p', now) && TakenFor(p')
  {
    hide Timed, TrimSpace, StoreKey, LoginDone, StartLogin, LoginFailed, NonceRefusal, OtherKeys;
    match p
    case TakingNonce(l, next) =>
      StartIsKept(digest, cfg, l, "", next, now);
      FailuresAreKept(digest, cfg, next, NonceRefusal(reply, now), now);
      StartTakesNone(digest, cfg, l, next, now);
    case SyncingSession(plan) =>
      DoneIsKept(digest, cfg, plan, now);
      FailuresAreKept(digest, cfg, plan.next, Some(StoreError), now);
      DoneTakesNone(digest, cfg, plan, now);
    case ReplacingAccess(plan) => FailuresAreKept(digest, cfg, plan.next, Some(StoreError), now);
    case ReplacingRefresh(plan) => FailuresAreKept(digest, cfg, plan.next, Some(StoreError), now);
    case ReplacingOthers(plan, _) => FailuresAreKept(digest, cfg, plan.next, Some(StoreError), now);
    case SavingAccess(plan) => FailuresAreKept(digest, cfg, plan.next, Some(StoreError), now);
  }

  lemma FailuresAreKept(digest: Digest, cfg: Config, next: Then, error: Option<Error>, now: int)
    ensures error.Some? ==> var p := LoginFailed(cfg, next, error.value, now); Kept(digest, p, now) && TakenFor(p)
  {
    if error.Some? {
      FailureIsKept(digest, cfg, next, error.value, now);
      NoNonceTaken(cfg, next, error.value, now);
    }
  }

  lemma StartTakesNone(digest: Digest, cfg: Config, l: LoginInput, next: Then, now: int)
    ensures !StartLogin(digest, cfg, l, "", next, now).TakingNonce?
  {
    hide AccessState;
  }

  lemma DoneTakesNone(digest: Digest, cfg: Config, plan: LoginPlan, now: int)
    ensures !LoginDone(digest, cfg, plan, now).TakingNonce?
  {
  }

  lemma RefreshStaysKept(digest: Digest, cfg: Config, p: Point, reply: S.Reply, now: int)
    requires Ready(p) && IsRefreshPoint(p)
    ensures var p' := ResumeRefresh(digest, cfg, p, reply, now); Kept(digest, p', now) && TakenFor(p')
  {
    hide Timed, TrimSpace, StoreKey, ReplaceAccess, CheckRefresh, ValidateNext, RemainingTTL, TokenState.MarkConsumed;
    if p.Claiming? && WinsClaim(reply, now) {
      var state := reply.state.Normalize();
      var claim := Claim(p.input, state, state.MarkConsumed(now));
      RemainingIsTimed(state, now);
      ReplacedIsKept(digest, cfg, claim, now);
    } else if p.DroppingOldAccess? {
      RemainingIsTimed(p.claim.original, now);
      ReplacedIsKept(digest, cfg, p.claim, now);
    } else if p.UndoingRefresh? {
      RemainingIsTimed(p.claim.original, now);
    }
  }

  lemma UseIsKept(digest: Digest, cfg: Config, token: TokenValue, use: Use, state: TokenState, now: int)
    ensures var p := UseToken(cfg, token, use, state, now); Kept(digest, p, now) && TakenFor(p)
  {
    hide TrimSpace;
  }

  lemma OtherStaysKept(digest: Digest, cfg: Config, p: Point, reply: S.Reply, now: int)
    requires Ready(p) && !IsLoginPoint(p) && !IsRefreshPoint(p)
    ensures var p' := ResumeOther(digest, cfg, p, reply, now); Kept(digest, p', now) && TakenFor(p')
  {
    hide Timed, TrimSpace, StoreKey, UseToken, RemainingTTL, TokenState.MarkRevoked, LinkedKeys, OnDevice, Unexpired;
    if p.Loading? && reply.Found? {
      UseIsKept(digest, cfg, p.token, p.use, reply.state.Normalize(), now);
    } else if p.LoadingForRevoke? && reply.Found? {
      RemainingIsTimed(reply.state.Normalize().MarkRevoked(now), now);
    }
  }

  lemma StaysKept(digest: Digest, cfg: Config, p: Point, reply: S.Reply, now: int)
    requires Ready(p) && Kept(digest, p, now) && TakenFor(p)
    ensures var p' := Resume(digest, cfg, p, reply, now); Kept(digest, p', now) && TakenFor(p')
  {
    hide Kept, TakenFor, ResumeLogin, ResumeRefresh, ResumeOther;
    if IsLoginPoint(p) {
      LoginStaysKept(digest, cfg, p, reply, now);
    } else if IsRefreshPoint(p) {
      RefreshStaysKept(digest, cfg, p, reply, now);
    } else {
      OtherStaysKept(digest, cfg, p, reply, now);
    }
  }

  ghost predicate AllKept(digest: Digest, w: World) {
    forall id :: id in w.clients ==> Kept(digest, w.clients[id].point, w.clock) && TakenFor(w.clients[id].point)
  }

  lemma StepKeepsKept(digest: Digest, w: World, w': World)
    requires AllKept(digest, w) && Step(digest, w, w')
    ensures AllKept(digest, w')
  {
    hide Kept, TakenFor, Resume, Begin, Record, S.Serves;
    assert w.clock <= w'.clock by { var _, _, _ := StepKinds(digest, w, w'); }
    forall id | id in w.clients ensures Kept(digest, w.clients[id].point, w'.clock) {
      KeptLonger(digest, w.clients[id].point, w.clock, w'.clock);
    }
    if id, cfg, op :| Starts(digest, w, w', id, cfg, op) {
      BegunIsKept(digest, cfg, op, w'.clock);
    } else {
      var id, reply :| Calls(digest, w, w', id, reply);
      StaysKept(digest, w.clients[id].cfg, w.clients[id].point, reply, w'.clock);
    }
  }

  lemma {:induction false} RunKeepsKept(digest: Digest, ws: seq<World>, i: nat)
    requires Run(digest, ws) && i < |ws|
    ensures AllKept(digest, ws[i])
  {
    hide Step, AllKept, Kept, TakenFor;
    if i > 0 {
      RunKeepsKept(digest, ws, i - 1);
      assert Follows(digest, ws, i - 1);
      StepKeepsKept(digest, ws[i - 1], ws[i]);
    } else {
      NobodyThere(digest, ws[0]);
    }
  }

  lemma NobodyThere(digest: Digest, w: World)
    requires w.clients == map[]
    ensures AllKept(digest, w)
  {
  }

  /** Every stored state lives exactly to its own expiry. */
  ghost predicate OnTime(store: S.Store) {
    forall k :: k in store.tokens ==> store.tokens[k].deadline == store.tokens[k].state.expiresAt
  }

  lemma RequestKeepsTime(digest: Digest, cfg: Config, p: Point, store: S.Store, clock: int, store': S.Store,
                         reply: S.Reply)
    requires OnTime(store) && Ready(p) && Kept(digest, p, clock)
    requires Fitting(p) && S.Serves(store, clock, Pending(digest, cfg, p), store', reply)
    ensures OnTime(store')
  {
    RequestIsTimed(digest, cfg, p, clock);
    hide Kept, Pending, Fitting, S.Serves, TimedRequest, OnTime;
    TimedKeepsTime(store, clock, Pending(digest, cfg, p), store', reply);
  }

  predicate TimedRequest(r: S.Request, clock: int) {
    && (r.Save? ==> S.EntryFor(r.state, r.ttl, clock).deadline == r.state.expiresAt)
    && (r.Swap? ==> S.EntryFor(r.next, r.ttl, clock).deadline == r.next.expiresAt)
  }

  lemma TimedKeepsTime(store: S.Store, clock: int, r: S.Request, store': S.Store, reply: S.Reply)
    requires OnTime(store) && TimedRequest(r, clock) && S.Serves(store, clock, r, store', reply)
    ensures OnTime(store')
  {
    hide EffectiveExpiresAt, S.CanSave, S.Answers, S.ApplySessions, S.Selected, S.Matches, TokenState.IsActive;
  }

  lemma RequestIsTimed(digest: Digest, cfg: Config, p: Point, clock: int)
    requires Ready(p) && Kept(digest, p, clock) && Fitting(p)
    ensures TimedRequest(Pending(digest, cfg, p), clock)
  {
    hide S.EntryFor, StoreKey;
    if p.Sweeping? {
      assert p.requests[0] in p.requests;
    }
  }

  /** Sweeping deletes, or saves a session. */
  predicate Fitting(p: Point) {
    p.Sweeping? ==> forall r :: r in p.requests ==> r.DeleteAll? || r.DeleteSession? || r.SaveSession?
  }

  lemma PointFits(digest: Digest, cfg: Config, p: Point)
    requires PointOk(digest, cfg, p)
    ensures Fitting(p)
  {
  }

  lemma StepKeepsTime(digest: Digest, w: World, w': World)
    requires Inv(digest, w) && AllKept(digest, w) && OnTime(w.store) && Step(digest, w, w')
    ensures OnTime(w'.store)
  {
    var called, id, reply := StepKinds(digest, w, w');
    hide OnTime, Kept, TakenFor, Record, Resume, S.Serves, PointOk;
    if called {
      PointFits(digest, w.clients[id].cfg, w.clients[id].point);
      RequestKeepsTime(digest, w.clients[id].cfg, w.clients[id].point, w.store, w.clock, w'.store, reply);
    }
  }

  /** In every run, if it was so to begin with, every stored state lives exactly to its own expiry: whatever the
      lifetime given to the store, and however late it was served. */
  lemma {:induction false} StatesLiveTheirTime(digest: Digest, ws: seq<World>, i: nat)
    requires Run(digest, ws) && i < |ws| && OnTime(ws[0].store)
    ensures OnTime(ws[i].store)
  {
    hide Step, AllKept, OnTime, Inv;
    if i > 0 {
      StatesLiveTheirTime(digest, ws, i - 1);
      assert Follows(digest, ws, i - 1);
      RunKeepsKept(digest, ws, i - 1);
      RunKeepsInv(digest, ws, i - 1);
      StepKeepsTime(digest, ws[i - 1], ws[i]);
    }
  }

  // ----- two tokens, or none

  /** The access token that a refresh, or a login with a refresh token, has been given. */
  function GivenAccess(op: Operation): TokenValue
    requires op.Refresh? || op.LoginWithRefresh?
  {
    if op.Refresh? then op.input.nextAccess else op.login.token
  }

  predicate IssuesRefresh(p: Point) {
    p.SavingRefresh? || p.Rotating? || p.Finalizing?
  }

  /** In every run a login or refresh that comes to store its refresh state answers both tokens if it could, and goes
      on to delete the access token it was given if it could not. */
  lemma AccessIsTakenBack(digest: Digest, ws: seq<World>, i: nat, id: nat, reply: S.Reply)
    requires Run(digest, ws) && i + 1 < |ws| && Calls(digest, ws[i], ws[i + 1], id, reply)
    requires IssuesRefresh(ws[i].clients[id].point)
    ensures var c, p := ws[i].clients[id], ws[i + 1].clients[id].point;
            && (c.op.Refresh? || c.op.LoginWithRefresh?)
            && if reply == S.Done || reply == S.Swapped(true) then p.Finished? && p.result.Pair?
               else Ready(p) && Pending(digest, c.cfg, p) == S.Delete(StoreKey(digest, GivenAccess(c.op)))
  {
    RunFits(digest, ws, i);
    RunKeepsKept(digest, ws, i);
    RunKeepsInv(digest, ws, i);
    var w, c := ws[i], ws[i].clients[id];
    assert Fits(digest, c) && Carries(digest, c.point) && Kept(digest, c.point, w.clock);
    hide Run, AllFit, AllKept, Inv;
    TakenBack(digest, c, w, ws[i + 1].store, reply, ws[i + 1].clock);
  }

  lemma TakenBack(digest: Digest, c: Client, w: World, store': S.Store, reply: S.Reply, now: int)
    requires Ready(c.point) && Fits(digest, c) && Carries(digest, c.point) && Kept(digest, c.point, w.clock)
    requires IssuesRefresh(c.point) && S.Serves(w.store, w.clock, Pending(digest, c.cfg, c.point), store', reply)
    ensures var p := Resume(digest, c.cfg, c.point, reply, now);
            && (c.op.Refresh? || c.op.LoginWithRefresh?)
            && if reply == S.Done || reply == S.Swapped(true) then p.Finished? && p.result.Pair?
               else Ready(p) && Pending(digest, c.cfg, p) == S.Delete(StoreKey(digest, GivenAccess(c.op)))
  {
    hide Timed, StoreKey, TrimSpace, S.Apply, S.CanSave, S.Matches;
    if c.op.Refresh? {
      TrimmedKeys(digest, c.op.input.nextAccess);
    }
  }

  /** In every run the refresh token that is answered is stored at that moment, with the state that is answered, under
      its storage key, and lives to its expiry. */
  lemma AnsweredIsStored(digest: Digest, ws: seq<World>, i: nat, id: nat, reply: S.Reply)
    requires Run(digest, ws) && i + 1 < |ws| && Calls(digest, ws[i], ws[i + 1], id, reply)
    requires ws[i + 1].clients[id].point.Finished? && ws[i + 1].clients[id].point.result.Pair?
    ensures var state, tokens := ws[i + 1].clients[id].point.result.refresh, ws[i + 1].store.tokens;
            var key := StoreKey(digest, state.token);
            && key in tokens && tokens[key].state == state.(token := key).Normalize()
            && tokens[key].deadline == state.expiresAt
  {
    RunFits(digest, ws, i);
    RunKeepsKept(digest, ws, i);
    RunKeepsInv(digest, ws, i);
    var w, c := ws[i], ws[i].clients[id];
    assert Fits(digest, c) && Carries(digest, c.point) && Kept(digest, c.point, w.clock);
    assert PointOk(digest, c.cfg, c.point);
    hide Run, AllFit, AllKept, Inv;
    PairIsIssued(digest, c, reply, ws[i + 1].clock);
    StoredAsAnswered(digest, c, w, ws[i + 1].store, reply, ws[i + 1].clock);
  }

  lemma PairIsIssued(digest: Digest, c: Client, reply: S.Reply, now: int)
    requires Ready(c.point) && Fits(digest, c)
    ensures var p, p' := c.point, Resume(digest, c.cfg, c.point, reply, now);
            p'.Finished? && p'.result.Pair? ==>
              IssuesRefresh(p) && !reply.Failed? && (p.Finalizing? ==> reply == S.Swapped(true))
  {
    hide StoreKey, TrimSpace, RemainingTTL, LinkedKeys, OnDevice, Unexpired;
  }

  lemma StoredAsAnswered(digest: Digest, c: Client, w: World, store': S.Store, reply: S.Reply, now: int)
    requires Ready(c.point) && Fits(digest, c) && Kept(digest, c.point, w.clock) && PointOk(digest, c.cfg, c.point)
    requires S.Serves(w.store, w.clock, Pending(digest, c.cfg, c.point), store', reply)
    requires var p := Resume(digest, c.cfg, c.point, reply, now); p.Finished? && p.result.Pair?
    requires IssuesRefresh(c.point) && !reply.Failed? && (c.point.Finalizing? ==> reply == S.Swapped(true))
    ensures var state := Resume(digest, c.cfg, c.point, reply, now).result.refresh;
            var key := StoreKey(digest, state.token);
            && key in store'.tokens && store'.tokens[key].state == state.(token := key).Normalize()
            && store'.tokens[key].deadline == state.expiresAt
  {
    match c.point
    case SavingRefresh(_, refresh, ttl, _, refreshPlain) =>
      TrimmedKeys(digest, refreshPlain);
      assert S.EntryFor(refresh, ttl, w.clock).deadline == refresh.expiresAt;
      hide StoreKey, TrimSpace, EffectiveExpiresAt;
    case Rotating(claim, _, refresh, ttl) =>
      TrimmedKeys(digest, claim.input.nextRefresh);
      assert S.EntryFor(refresh, ttl, w.clock).deadline == refresh.expiresAt;
      hide StoreKey, TrimSpace, EffectiveExpiresAt;
    case Finalizing(claim, _, refresh, ttl) =>
      TrimmedKeys(digest, claim.input.refreshToken);
      assert S.EntryFor(refresh, ttl, w.clock).deadline == refresh.expiresAt;
      hide StoreKey, TrimSpace, EffectiveExpiresAt;
  }
}
