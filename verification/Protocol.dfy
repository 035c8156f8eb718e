/** Many Managers over one shared store. A run interleaves the store calls of any number of
    operations, each under its own configuration; every call may also fail without effect. */
module Protocol {
  import opened Tokens
  import opened ManagerSteps
  import S = AtomicStore

  datatype Client = Client(cfg: Config, op: Operation, point: Point)

  /** What has happened so far, per key: refresh states saved, refresh tokens claimed by a rotating
      Manager, nonce states saved, nonces accepted, and every save of any kind. */
  datatype History = History(
    refreshIssues: multiset<TokenValue>, rotatingClaims: multiset<TokenValue>,
    nonceIssues: multiset<TokenValue>, nonceWins: multiset<TokenValue>, saves: multiset<TokenValue>)

  datatype World = World(clock: int, store: S.Store, clients: map<nat, Client>, history: History)

  // ----- steps

  function Record(h: History, c: Client, r: S.Request, reply: S.Reply, now: int): History {
    match r
    case Save(state, _) =>
      if reply.Failed? then h
      else
        var h := h.(saves := h.saves + multiset{state.token});
        if state.kind == Kind.Refresh then h.(refreshIssues := h.refreshIssues + multiset{state.token})
        else if state.kind == Kind.Nonce then h.(nonceIssues := h.nonceIssues + multiset{state.token})
        else h
    case Consume(key, _) =>
      if c.point.Claiming? && c.cfg.refresh.rotate && WinsClaim(reply, now) then
        h.(rotatingClaims := h.rotatingClaims + multiset{key})
      else if (c.point.ConsumingNonce? || c.point.TakingNonce?) && NonceRefusal(reply, now).None? then
        h.(nonceWins := h.nonceWins + multiset{key})
      else h
    case _ => h
  }

  /** A new operation enters; its local checks read the clock and touch nothing shared. */
  ghost predicate Starts(digest: Digest, w: World, w': World, id: nat, cfg: Config, op: Operation) {
    && id !in w.clients
    && w.clock <= w'.clock
    && w'.store == w.store
    && w'.history == w.history
    && w'.clients == w.clients[id := Client(cfg, op, Begin(digest, cfg, op, w'.clock))]
  }

  /** One client's store call is served, and the client runs on to its next call. The clock may
      move between the store's reading of it and the client's. */
  ghost predicate Calls(digest: Digest, w: World, w': World, id: nat, reply: S.Reply) {
    && id in w.clients
    && Ready(w.clients[id].point)
    && w.clock <= w'.clock
    && var c := w.clients[id];
    && S.Serves(w.store, w.clock, Pending(digest, c.cfg, c.point), w'.store, reply)
    && w'.history == Record(w.history, c, Pending(digest, c.cfg, c.point), reply, w'.clock)
    && w'.clients == w.clients[id := c.(point := Resume(digest, c.cfg, c.point, reply, w'.clock))]
  }

  ghost predicate Step(digest: Digest, w: World, w': World) {
    || (exists id, cfg, op :: Starts(digest, w, w', id, cfg, op))
    || (exists id, reply :: Calls(digest, w, w', id, reply))
  }

  /** A store may hold earlier states, each accounted for by the history. */
  ghost predicate Init(digest: Digest, w: World) {
    && w.clients == map[]
    && StoreOk(digest, w.store)
    && forall k :: ActiveOf(w.store, k, Kind.Refresh) <= w.history.refreshIssues[k]
                   && ActiveOf(w.store, k, Kind.Nonce) <= w.history.nonceIssues[k]
                   && w.history.rotatingClaims[k] == w.history.nonceWins[k] == 0
                   && w.history.refreshIssues[k] <= w.history.saves[k]
  }

  ghost predicate Run(digest: Digest, ws: seq<World>) {
    && ws != []
    && Init(digest, ws[0])
    && forall i :: 0 <= i < |ws| - 1 ==> Follows(digest, ws, i)
  }

  ghost predicate Follows(digest: Digest, ws: seq<World>, i: nat)
    requires i + 1 < |ws|
  {
    Step(digest, ws[i], ws[i + 1])
  }

  // ----- what is true of stored states and of program points

  ghost predicate IsDerived(digest: Digest, key: TokenValue) {
    exists t :: key == StoreKey(digest, t)
  }

  /** No plaintext: every token a state names is a storage key. Refresh states carry no nonce part. */
  ghost predicate StateOk(digest: Digest, s: TokenState) {
    && IsDerived(digest, s.token)
    && (s.refresh.Some? ==> IsDerived(digest, s.refresh.value.accessToken)
                            && IsDerived(digest, s.refresh.value.rotatedFrom)
                            && s.refresh.value.rotatedTo == "")
    && (s.kind == Kind.Refresh ==> s.nonce.None?)
  }

  ghost predicate StoreOk(digest: Digest, store: S.Store) {
    forall k :: k in store.tokens ==> 
      var s := store.tokens[k].state;
      s.token == k && s.IsNormal() && StateOk(digest, s)
  }

  ghost predicate ReplyOk(digest: Digest, reply: S.Reply) {
    && (reply.Found? ==> StateOk(digest, reply.state))
    && (reply.States? ==> forall s :: s in reply.states ==> StateOk(digest, s))
  }

  ghost predicate ClaimOk(digest: Digest, c: Claim) {
    && StateOk(digest, c.original)
    && c.original.kind == Kind.Refresh && c.original.status == Active
    && c.expected == c.original.(status := Consumed)
    && c.Key() == StoreKey(digest, c.input.refreshToken)
  }

  ghost predicate ThenOk(digest: Digest, t: Then) {
    t.FinishRefresh? ==> ClaimOk(digest, t.claim)
  }

  ghost predicate PlanOk(digest: Digest, plan: LoginPlan) {
    && StateOk(digest, plan.access) && plan.access.kind == Access && plan.access.status == Active
    && ThenOk(digest, plan.next)
  }

  ghost predicate FreshState(digest: Digest, s: TokenState, kind: Kind) {
    StateOk(digest, s) && s.kind == kind && s.status == Active
  }

  /** A conditional update either keeps an active state active or revokes. */
  ghost predicate UpdateOk(digest: Digest, expected: TokenState, next: TokenState) {
    && StateOk(digest, next)
    && expected.token == next.token && expected.kind == next.kind
    && (next.status == Revoked || (expected.status == Active && next.status == Active))
  }

  ghost predicate PointOk(digest: Digest, cfg: Config, p: Point) {
    (p.Finished? || Ready(p)) &&
    match p
    case TakingNonce(_, follow) => !follow.FinishRefresh?
    case ReplacingAccess(plan) => PlanOk(digest, plan)
    case ReplacingRefresh(plan) => PlanOk(digest, plan)
    case ReplacingOthers(plan, _) => PlanOk(digest, plan)
    case SavingAccess(plan) => PlanOk(digest, plan)
    case SyncingSession(plan) => PlanOk(digest, plan)
    case SavingRefresh(access, refresh, _, _, _) => FreshState(digest, refresh, Kind.Refresh)
    case Updating(expected, next, _, _, _) => UpdateOk(digest, expected, next)
    case Sweeping(requests) =>
      forall r :: r in requests ==> r.DeleteAll? || r.DeleteSession? || r.SaveSession?
    case DroppingOldAccess(claim) => ClaimOk(digest, claim)
    case Rotating(claim, access, refresh, _) =>
      ClaimOk(digest, claim) && FreshState(digest, refresh, Kind.Refresh) && cfg.refresh.rotate
    case Finalizing(claim, access, refresh, _) =>
      ClaimOk(digest, claim) && FreshState(digest, refresh, Kind.Refresh) && refresh.token == claim.Key()
      && !cfg.refresh.rotate
    case UndoingRefresh(claim, _, _) => ClaimOk(digest, claim)
    case Restoring(claim, _, _) => ClaimOk(digest, claim) && !cfg.refresh.rotate
    case SavingNonce(state, _, _) => FreshState(digest, state, Kind.Nonce)
    case _ => true
  }

  // ----- claims

  function ClaimOf(p: Point): Option<Claim> {
    match p
    case ReplacingAccess(plan) => ClaimOfPlan(plan)
    case ReplacingRefresh(plan) => ClaimOfPlan(plan)
    case ReplacingOthers(plan, _) => ClaimOfPlan(plan)
    case SavingAccess(plan) => ClaimOfPlan(plan)
    case SyncingSession(plan) => ClaimOfPlan(plan)
    case DroppingOldAccess(claim) => Some(claim)
    case Rotating(claim, _, _, _) => Some(claim)
    case Finalizing(claim, _, _, _) => Some(claim)
    case UndoingRefresh(claim, _, _) => Some(claim)
    case Restoring(claim, _, _) => Some(claim)
    case _ => None
  }

  function ClaimOfPlan(plan: LoginPlan): Option<Claim> {
    if plan.next.FinishRefresh? then Some(plan.next.claim) else None
  }

  /** A reusable refresh between its claim and the call that gives the token back. */
  predicate Holds(c: Client, k: TokenValue) {
    !c.cfg.refresh.rotate && ClaimOf(c.point).Some? && ClaimOf(c.point).value.Key() == k
  }

  function Where(clients: map<nat, Client>, p: Client -> bool): set<nat> {
    set id | id in clients && p(clients[id])
  }

  function Holders(w: World, k: TokenValue): set<nat> {
    Where(w.clients, c => Holds(c, k))
  }

  predicate IsActiveAt(store: S.Store, k: TokenValue) {
    k in store.tokens && store.tokens[k].state.status == Active
  }

  /** 1 if an active state of the kind is stored under k, and 0 otherwise. */
  function ActiveOf(store: S.Store, k: TokenValue, kind: Kind): nat {
    if IsActiveAt(store, k) && store.tokens[k].state.kind == kind then 1 else 0
  }

  // ----- the invariant

  ghost predicate Inv(digest: Digest, w: World) {
    && StoreOk(digest, w.store)
    && (forall id :: id in w.clients ==> PointOk(digest, w.clients[id].cfg, w.clients[id].point))
    && (forall k :: w.history.rotatingClaims[k] + |Holders(w, k)| + ActiveOf(w.store, k, Kind.Refresh)
                    <= w.history.refreshIssues[k])
    && (forall k :: w.history.nonceWins[k] + ActiveOf(w.store, k, Kind.Nonce) <= w.history.nonceIssues[k])
    && (forall k :: w.history.refreshIssues[k] <= w.history.saves[k])
  }

  // ----- program points stay sound

  lemma BeginOk(digest: Digest, cfg: Config, op: Operation, now: int)
    ensures PointOk(digest, cfg, Begin(digest, cfg, op, now))
    ensures ClaimOf(Begin(digest, cfg, op, now)).None?
  {
    hide TrimSpace;
    match op
    case Login(l) => CheckedLoginOk(digest, cfg, l, ReturnAccess(l.token), now);
    case LoginWithRefresh(l, refreshToken) =>
      CheckedLoginOk(digest, cfg, l, IssueRefresh(l.token, TrimSpace(refreshToken)), now);
    case _ =>
  }

  lemma CheckedLoginOk(digest: Digest, cfg: Config, l: LoginInput, next: Then, now: int)
    requires !next.FinishRefresh?
    ensures PointOk(digest, cfg, CheckedLogin(digest, cfg, l, "", next, true, now))
    ensures ClaimOf(CheckedLogin(digest, cfg, l, "", next, true, now)).None?
  {
  }

  lemma StartLoginOk(digest: Digest, cfg: Config, l: LoginInput, keep: TokenValue, next: Then, now: int)
    requires ThenOk(digest, next)
    ensures PlanOk(digest, LoginPlan(AccessState(digest, cfg, l, now), 0, keep, next))
    ensures PointOk(digest, cfg, StartLogin(digest, cfg, l, keep, next, now))
  {
  }

  lemma LoginDoneOk(digest: Digest, cfg: Config, plan: LoginPlan, now: int)
    requires PlanOk(digest, plan)
    ensures PointOk(digest, cfg, LoginDone(digest, cfg, plan, now))
  {
    assert StoreKey(digest, "") == "";
    if plan.next.IssueRefresh? {
      assert FreshState(digest, NewRefreshState(digest, cfg, plan.next.refreshPlain, plan.access, now), Kind.Refresh);
    } else if plan.next.FinishRefresh? {
      assert FreshState(digest, RotatedState(digest, cfg, plan.next.claim, plan.access, now), Kind.Refresh);
      assert FreshState(digest, ReactivatedState(plan.next.claim, plan.access, now), Kind.Refresh);
    }
  }

  lemma FailRefreshOk(digest: Digest, cfg: Config, claim: Claim, error: Error, now: int)
    requires ClaimOk(digest, claim)
    ensures PointOk(digest, cfg, FailRefresh(cfg, claim, error, now))
  {
  }

  lemma ReplaceAccessOk(digest: Digest, cfg: Config, claim: Claim, now: int)
    requires ClaimOk(digest, claim)
    ensures PointOk(digest, cfg, ReplaceAccess(digest, cfg, claim, now))
  {
  }

  lemma AfterClaimOk(digest: Digest, cfg: Config, input: RefreshInput, state: TokenState, now: int)
    requires StateOk(digest, state) && state.kind == Kind.Refresh && state.status == Active
    requires state.token == StoreKey(digest, input.refreshToken)
    ensures PointOk(digest, cfg, AfterClaim(digest, cfg, input, state, now))
  {
    var claim := Claim(input, state, state.MarkConsumed(now));
    assert ClaimOk(digest, claim);
    ReplaceAccessOk(digest, cfg, claim, now);
    var invalid := ValidateNext(digest, cfg, state, input);
    if invalid.Some? {
      FailRefreshOk(digest, cfg, claim, invalid.value, now);
    }
    hide FailRefresh, ReplaceAccess, ValidateNext;
  }

  lemma UseTokenOk(digest: Digest, cfg: Config, token: TokenValue, use: Use, state: TokenState, now: int)
    requires StateOk(digest, state) && state.status == Active
    ensures PointOk(digest, cfg, UseToken(cfg, token, use, state, now))
  {
  }

  lemma ResumeLoginOk(digest: Digest, cfg: Config, p: Point, reply: S.Reply, now: int)
    requires Ready(p) && PointOk(digest, cfg, p) && IsLoginPoint(p)
    ensures PointOk(digest, cfg, ResumeLogin(digest, cfg, p, reply, now))
  {
    match p
    case TakingNonce(l, follow) => StartLoginOk(digest, cfg, l, "", follow, now);
    case SyncingSession(plan) => LoginDoneOk(digest, cfg, plan, now);
    case _ =>
  }

  lemma ResumeRefreshOk(digest: Digest, cfg: Config, p: Point, reply: S.Reply, now: int)
    requires Ready(p) && PointOk(digest, cfg, p) && ReplyOk(digest, reply) && IsRefreshPoint(p)
    requires p.Claiming? && reply.Found? ==> reply.state.token == StoreKey(digest, p.input.refreshToken)
    ensures PointOk(digest, cfg, ResumeRefresh(digest, cfg, p, reply, now))
  {
    hide PointOk, ResumeRefresh;
    if p.LoadingRefresh? {
      ResumeLoadingOk(digest, cfg, p, reply, now);
    } else if p.Claiming? {
      ResumeClaimingOk(digest, cfg, p, reply, now);
    } else {
      ResumeClaimedOk(digest, cfg, p, reply, now);
    }
  }

  lemma ResumeLoadingOk(digest: Digest, cfg: Config, p: Point, reply: S.Reply, now: int)
    requires p.LoadingRefresh?
    ensures PointOk(digest, cfg, ResumeRefresh(digest, cfg, p, reply, now))
  {
    hide CheckRefresh, ValidateNext, StoreKey;
  }

  lemma ResumeClaimingOk(digest: Digest, cfg: Config, p: Point, reply: S.Reply, now: int)
    requires p.Claiming? && ReplyOk(digest, reply)
    requires reply.Found? ==> reply.state.token == StoreKey(digest, p.input.refreshToken)
    ensures PointOk(digest, cfg, ResumeRefresh(digest, cfg, p, reply, now))
  {
    if WinsClaim(reply, now) {
      AfterClaimOk(digest, cfg, p.input, reply.state.Normalize(), now);
    }
    hide AfterClaim, CheckRefresh, StoreKey;
  }

  lemma ResumeClaimedOk(digest: Digest, cfg: Config, p: Point, reply: S.Reply, now: int)
    requires PointOk(digest, cfg, p) && IsRefreshPoint(p) && !p.LoadingRefresh? && !p.Claiming?
    ensures PointOk(digest, cfg, ResumeRefresh(digest, cfg, p, reply, now))
  {
    match p
    case DroppingOldAccess(claim) =>
      FailRefreshOk(digest, cfg, claim, StoreError, now);
      ReplaceAccessOk(digest, cfg, claim, now);
    case UndoingRefresh(claim, _, error) => FailRefreshOk(digest, cfg, claim, error, now);
    case _ =>
  }

  lemma ResumeOtherOk(digest: Digest, cfg: Config, p: Point, reply: S.Reply, now: int)
    requires Ready(p) && PointOk(digest, cfg, p) && ReplyOk(digest, reply) && !IsLoginPoint(p) && !IsRefreshPoint(p)
    ensures PointOk(digest, cfg, ResumeOther(digest, cfg, p, reply, now))
  {
    if p.Loading? && reply.Found? && reply.state.Normalize().status == Active {
      UseTokenOk(digest, cfg, p.token, p.use, reply.state.Normalize(), now);
    }
  }

  /** Resuming from an honest reply leads to a sound program point. */
  lemma ResumeOk(digest: Digest, cfg: Config, p: Point, reply: S.Reply, now: int)
    requires Ready(p) && PointOk(digest, cfg, p) && ReplyOk(digest, reply)
    requires p.Claiming? && reply.Found? ==> reply.state.token == StoreKey(digest, p.input.refreshToken)
    ensures PointOk(digest, cfg, Resume(digest, cfg, p, reply, now))
  {
    hide PointOk, ResumeLogin, ResumeRefresh, ResumeOther;
    if IsLoginPoint(p) {
      ResumeLoginOk(digest, cfg, p, reply, now);
    } else if IsRefreshPoint(p) {
      ResumeRefreshOk(digest, cfg, p, reply, now);
    } else {
      ResumeOtherOk(digest, cfg, p, reply, now);
    }
  }

  // ----- what a call may do to the store

  /** The points whose conditional update gives a claimed refresh token back. */
  predicate Releases(p: Point, k: TokenValue) {
    (p.Finalizing? || p.Restoring?) && p.claim.Key() == k
  }

  ghost predicate RequestOk(digest: Digest, p: Point, r: S.Request) {
    && (p.Claiming? ==> r == S.Consume(StoreKey(digest, p.input.refreshToken), Some(Kind.Refresh)))
    && (p.ConsumingNonce? || p.TakingNonce? ==> r.Consume? && r.wanted == Some(Kind.Nonce))
    && (r.Save? ==> StateOk(digest, r.state) && r.state.status == Active && r.state.kind != NoKind)
    && (r.Swap? ==>
          && StateOk(digest, r.next)
          && r.expected.token == r.next.token && r.expected.kind == r.next.kind
          && (|| r.next.status == Revoked
              || (r.next.status == Active && r.expected.status == Active)
              || (r.next.status == Active && r.expected.status == Consumed && r.next.kind == Kind.Refresh
                  && Releases(p, r.next.token))))
  }

  lemma PendingOk(digest: Digest, cfg: Config, p: Point)
    requires Ready(p) && PointOk(digest, cfg, p)
    ensures RequestOk(digest, p, Pending(digest, cfg, p))
  {
    if p.Sweeping? { assert p.requests[0] in p.requests; }
  }

  lemma ServesOk(digest: Digest, store: S.Store, now: int, p: Point, r: S.Request, store': S.Store, reply: S.Reply)
    requires StoreOk(digest, store) && RequestOk(digest, p, r) && S.Serves(store, now, r, store', reply)
    ensures StoreOk(digest, store') && ReplyOk(digest, reply)
    ensures r.Consume? && reply.Found? ==> reply.state.token == r.key
  {
  }

  /** The status order: a state turns active only by a fresh save or by the claim's owner giving the
      token back, a revoked state stays revoked until it is deleted or saved anew, and
      kinds never change under a conditional update. */
  lemma StatusOrder(digest: Digest, store: S.Store, now: int, p: Point, r: S.Request, store': S.Store,
                    reply: S.Reply, k: TokenValue)
    requires StoreOk(digest, store) && RequestOk(digest, p, r) && S.Serves(store, now, r, store', reply)
    requires !(r.Save? && r.state.token == k)
    ensures IsActiveAt(store', k) && !IsActiveAt(store, k) ==>
              k in store.tokens && store.tokens[k].state.status == Consumed
              && r.Swap? && reply == S.Swapped(true) && Releases(p, k)
    ensures k in store'.tokens ==> k in store.tokens && store'.tokens[k].state.kind == store.tokens[k].state.kind
    ensures k in store'.tokens && store.tokens[k].state.status == Revoked ==> store'.tokens[k].state.status == Revoked
  {
  }

  /** Replacing one client changes a count of clients by that client alone. */
  lemma WhereUpdate(clients: map<nat, Client>, id: nat, c: Client, p: Client -> bool)
    requires id in clients
    ensures |Where(clients[id := c], p)|
            == |Where(clients, p)| - (if p(clients[id]) then 1 else 0) + (if p(c) then 1 else 0)
  {
    var before, after := Where(clients, p), Where(clients[id := c], p);
    assert after == if p(c) then before + {id} else before - {id};
  }

  lemma WhereAdd(clients: map<nat, Client>, id: nat, c: Client, p: Client -> bool)
    requires id !in clients && !p(c)
    ensures Where(clients[id := c], p) == Where(clients, p)
  {
  }

  lemma LoginKeepsClaim(digest: Digest, cfg: Config, p: Point, reply: S.Reply, now: int)
    requires Ready(p) && IsLoginPoint(p) && (p.TakingNonce? ==> !p.follow.FinishRefresh?)
    ensures var p' := ResumeLogin(digest, cfg, p, reply, now);
            ClaimOf(p').None? || ClaimOf(p') == ClaimOf(p)
  {
  }

  lemma OtherHasNoClaim(digest: Digest, cfg: Config, p: Point, reply: S.Reply, now: int)
    requires Ready(p) && !IsLoginPoint(p) && !IsRefreshPoint(p)
    ensures ClaimOf(ResumeOther(digest, cfg, p, reply, now)).None?
  {
  }

  lemma ReplaceAccessClaim(digest: Digest, cfg: Config, claim: Claim, now: int)
    ensures var p := ReplaceAccess(digest, cfg, claim, now); ClaimOf(p).None? || ClaimOf(p) == Some(claim)
  {
  }

  lemma AfterClaimClaim(digest: Digest, cfg: Config, input: RefreshInput, state: TokenState, now: int)
    ensures var p := AfterClaim(digest, cfg, input, state, now);
            ClaimOf(p).None? || ClaimOf(p) == Some(Claim(input, state, state.MarkConsumed(now)))
  {
    ReplaceAccessClaim(digest, cfg, Claim(input, state, state.MarkConsumed(now)), now);
  }

  /** How one call moves the claim its client holds: only winning a claim takes one up, and a
      successful finalize or restore lays it down. */
  lemma HoldMoves(digest: Digest, cfg: Config, p: Point, reply: S.Reply, now: int)
    requires Ready(p) && PointOk(digest, cfg, p)
    ensures var p' := Resume(digest, cfg, p, reply, now);
            && (ClaimOf(p').Some? ==>
                  || ClaimOf(p') == ClaimOf(p)
                  || (p.Claiming? && WinsClaim(reply, now)
                      && ClaimOf(p').value ==
                           Claim(p.input, reply.state.Normalize(), reply.state.Normalize().MarkConsumed(now))))
            && ((p.Finalizing? || p.Restoring?) && reply == S.Swapped(true) ==> ClaimOf(p').None?)
  {
    if IsLoginPoint(p) {
      LoginKeepsClaim(digest, cfg, p, reply, now);
    } else if IsRefreshPoint(p) {
      match p
      case Claiming(input) =>
        if WinsClaim(reply, now) { AfterClaimClaim(digest, cfg, input, reply.state.Normalize(), now); }
      case DroppingOldAccess(claim) => ReplaceAccessClaim(digest, cfg, claim, now);
      case _ =>
    } else {
      OtherHasNoClaim(digest, cfg, p, reply, now);
    }
  }

  // ----- the invariant over every run

  /** What a served call does to the counts kept for one key. */
  lemma RefreshCounts(digest: Digest, store: S.Store, now: int, c: Client, r: S.Request, store': S.Store,
                      reply: S.Reply, now': int, h: History, k: TokenValue)
    requires StoreOk(digest, store) && RequestOk(digest, c.point, r) && S.Serves(store, now, r, store', reply)
    ensures var h' := Record(h, c, r, reply, now');
            var won := c.point.Claiming? && WinsClaim(reply, now') && reply.state.token == k;
            var released := r.Swap? && reply == S.Swapped(true) && Releases(c.point, k);
            && h'.rotatingClaims[k] == h.rotatingClaims[k] + (if won && c.cfg.refresh.rotate then 1 else 0)
            && h'.refreshIssues[k] >= h.refreshIssues[k]
            && (won ==> ActiveOf(store, k, Kind.Refresh) == 1 && ActiveOf(store', k, Kind.Refresh) == 0)
            && ActiveOf(store', k, Kind.Refresh)
               <= ActiveOf(store, k, Kind.Refresh) + (h'.refreshIssues[k] - h.refreshIssues[k])
                  + (if released then 1 else 0)
  {
    if !(r.Save? && r.state.token == k) {
      StatusOrder(digest, store, now, c.point, r, store', reply, k);
    }
  }

  lemma NonceCounts(digest: Digest, store: S.Store, now: int, c: Client, r: S.Request, store': S.Store,
                    reply: S.Reply, now': int, h: History, k: TokenValue)
    requires StoreOk(digest, store) && RequestOk(digest, c.point, r) && S.Serves(store, now, r, store', reply)
    ensures var h' := Record(h, c, r, reply, now');
            (h'.nonceWins[k] - h.nonceWins[k]) + ActiveOf(store', k, Kind.Nonce)
            <= ActiveOf(store, k, Kind.Nonce) + (h'.nonceIssues[k] - h.nonceIssues[k])
  {
    if !(r.Save? && r.state.token == k) {
      StatusOrder(digest, store, now, c.point, r, store', reply, k);
    }
  }

  /** The number of clients holding a claim on k moves by one at most, and for cause. */
  lemma HolderCount(digest: Digest, w: World, w': World, id: nat, reply: S.Reply, k: TokenValue)
    requires Inv(digest, w) && Calls(digest, w, w', id, reply)
    requires ReplyOk(digest, reply)
    ensures var c := w.clients[id];
            var won := c.point.Claiming? && WinsClaim(reply, w'.clock) && reply.state.token == k;
            var released := && (c.point.Finalizing? || c.point.Restoring?)
                            && reply == S.Swapped(true) && Releases(c.point, k);
            |Holders(w', k)| <= |Holders(w, k)| + (if won && !c.cfg.refresh.rotate then 1 else 0)
                                - (if released then 1 else 0)
  {
    var c, c' := w.clients[id], w'.clients[id];
    HoldMoves(digest, c.cfg, c.point, reply, w'.clock);
    WhereUpdate(w.clients, id, c', x => Holds(x, k));
  }

  lemma RefreshBalanceKept(digest: Digest, w: World, w': World, id: nat, reply: S.Reply, k: TokenValue)
    requires Inv(digest, w) && Calls(digest, w, w', id, reply)
    ensures w'.history.rotatingClaims[k] + |Holders(w', k)| + ActiveOf(w'.store, k, Kind.Refresh)
            <= w'.history.refreshIssues[k]
  {
    var c := w.clients[id];
    var r := Pending(digest, c.cfg, c.point);
    PendingOk(digest, c.cfg, c.point);
    ServesOk(digest, w.store, w.clock, c.point, r, w'.store, reply);
    RefreshCounts(digest, w.store, w.clock, c, r, w'.store, reply, w'.clock, w.history, k);
    HolderCount(digest, w, w', id, reply, k);
  }

  lemma NonceBalanceKept(digest: Digest, w: World, w': World, id: nat, reply: S.Reply, k: TokenValue)
    requires Inv(digest, w) && Calls(digest, w, w', id, reply)
    ensures w'.history.nonceWins[k] + ActiveOf(w'.store, k, Kind.Nonce) <= w'.history.nonceIssues[k]
  {
    var c := w.clients[id];
    var r := Pending(digest, c.cfg, c.point);
    PendingOk(digest, c.cfg, c.point);
    NonceCounts(digest, w.store, w.clock, c, r, w'.store, reply, w'.clock, w.history, k);
  }

  lemma CallKeepsInv(digest: Digest, w: World, w': World, id: nat, reply: S.Reply)
    requires Inv(digest, w) && Calls(digest, w, w', id, reply)
    ensures Inv(digest, w')
  {
    var c := w.clients[id];
    var r := Pending(digest, c.cfg, c.point);
    PendingOk(digest, c.cfg, c.point);
    ServesOk(digest, w.store, w.clock, c.point, r, w'.store, reply);
    ResumeOk(digest, c.cfg, c.point, reply, w'.clock);
    forall k ensures w'.history.rotatingClaims[k] + |Holders(w', k)| + ActiveOf(w'.store, k, Kind.Refresh)
                     <= w'.history.refreshIssues[k]
    {
      RefreshBalanceKept(digest, w, w', id, reply, k);
    }
    forall k ensures w'.history.nonceWins[k] + ActiveOf(w'.store, k, Kind.Nonce) <= w'.history.nonceIssues[k] {
      NonceBalanceKept(digest, w, w', id, reply, k);
    }
  }

  lemma StartKeepsInv(digest: Digest, w: World, w': World, id: nat, cfg: Config, op: Operation)
    requires Inv(digest, w) && Starts(digest, w, w', id, cfg, op)
    ensures Inv(digest, w')
  {
    BeginOk(digest, cfg, op, w'.clock);
    forall k ensures Holders(w', k) == Holders(w, k) {
      WhereAdd(w.clients, id, w'.clients[id], c => Holds(c, k));
    }
  }

  /** A step is the start of an operation, which leaves the store alone, or one served call. */
  lemma StepKinds(digest: Digest, w: World, w': World) returns (call: bool, id: nat, reply: S.Reply)
    requires Step(digest, w, w')
    ensures call ==> Calls(digest, w, w', id, reply)
    ensures !call ==> w'.store == w.store && w'.history == w.history && w.clock <= w'.clock
  {
    if i, re :| Calls(digest, w, w', i, re) {
      call, id, reply := true, i, re;
    } else {
      call, id, reply := false, 0, S.Failed;
    }
  }

  lemma StepKeepsInv(digest: Digest, w: World, w': World)
    requires Inv(digest, w) && Step(digest, w, w')
    ensures Inv(digest, w')
  {
    if id, cfg, op :| Starts(digest, w, w', id, cfg, op) {
      StartKeepsInv(digest, w, w', id, cfg, op);
    } else {
      var id, reply :| Calls(digest, w, w', id, reply);
      CallKeepsInv(digest, w, w', id, reply);
    }
  }

  lemma {:induction false} RunKeepsInv(digest: Digest, ws: seq<World>, i: nat)
    requires Run(digest, ws) && i < |ws|
    ensures Inv(digest, ws[i])
  {
    if i == 0 {
      forall k ensures Holders(ws[0], k) == {} {}
    } else {
      RunKeepsInv(digest, ws, i - 1);
      assert Follows(digest, ws, i - 1);
      StepKeepsInv(digest, ws[i - 1], ws[i]);
    }
  }
}
