/** What no interleaving of Manager operations can break. */
module ProtocolSafety {
  import opened Tokens
  import opened ManagerSteps
  import opened Protocol
  import S = AtomicStore

  // ----- conservation

  /** Over every run and for every key: rotating claims, reusable claims in flight and an active
      stored refresh together never exceed the refresh states issued under the key. */
  lemma RefreshConservation(digest: Digest, ws: seq<World>, i: nat, k: TokenValue)
    requires Run(digest, ws) && i < |ws|
    ensures ws[i].history.rotatingClaims[k] + |Holders(ws[i], k)| + ActiveOf(ws[i].store, k, Kind.Refresh)
            <= ws[i].history.refreshIssues[k]
  {
    RunKeepsInv(digest, ws, i);
  }

  /** A nonce is accepted at most as often as it was generated, less one while it is still active. */
  lemma NonceConservation(digest: Digest, ws: seq<World>, i: nat, k: TokenValue)
    requires Run(digest, ws) && i < |ws|
    ensures ws[i].history.nonceWins[k] + ActiveOf(ws[i].store, k, Kind.Nonce) <= ws[i].history.nonceIssues[k]
  {
    RunKeepsInv(digest, ws, i);
  }

  /** The claim on a refresh token issued once is a mutual-exclusion lock: one holder, not active
      while held, and neither held nor active again after a rotating claim. */
  lemma ClaimExcludes(digest: Digest, ws: seq<World>, i: nat, k: TokenValue)
    requires Run(digest, ws) && i < |ws| && ws[i].history.refreshIssues[k] <= 1
    ensures forall a, b :: a in Holders(ws[i], k) && b in Holders(ws[i], k) ==> a == b
    ensures Holders(ws[i], k) != {} ==> ActiveOf(ws[i].store, k, Kind.Refresh) == 0
    ensures ws[i].history.rotatingClaims[k] > 0 ==>
              Holders(ws[i], k) == {} && ActiveOf(ws[i].store, k, Kind.Refresh) == 0
    ensures ws[i].history.rotatingClaims[k] <= 1
  {
    RefreshConservation(digest, ws, i, k);
    AtMostOne(Holders(ws[i], k));
  }

  lemma AtMostOne(s: set<nat>)
    requires |s| <= 1
    ensures forall a, b :: a in s && b in s ==> a == b
  {
    if s != {} {
      var x :| x in s;
      assert |s - {x}| == |s| - 1;
      assert s - {x} == {};
      assert forall a :: a in s ==> a == x || a in s - {x};
    }
  }

  // ----- status order

  /** The facts about a served call that the lemmas below need, with the request as a plain value. */
  lemma CallFacts(digest: Digest, w: World, w': World, id: nat, reply: S.Reply) returns (c: Client, r: S.Request)
    requires Inv(digest, w) && Calls(digest, w, w', id, reply)
    ensures c == w.clients[id] && PointOk(digest, c.cfg, c.point) && Ready(c.point)
    ensures r == Pending(digest, c.cfg, c.point) && RequestOk(digest, c.point, r)
    ensures S.Serves(w.store, w.clock, r, w'.store, reply) && ReplyOk(digest, reply)
    ensures w'.history == Record(w.history, c, r, reply, w'.clock)
    ensures Inv(digest, w') && StoreOk(digest, w.store)
  {
    c := w.clients[id];
    r := Pending(digest, c.cfg, c.point);
    PendingOk(digest, c.cfg, c.point);
    ServesOk(digest, w.store, w.clock, c.point, r, w'.store, reply);
    CallKeepsInv(digest, w, w', id, reply);
  }

  lemma SavesCount(h: History, c: Client, r: S.Request, reply: S.Reply, now: int, k: TokenValue)
    ensures var n := if r.Save? && !reply.Failed? && r.state.token == k then 1 else 0;
            Record(h, c, r, reply, now).saves[k] == h.saves[k] + n
  {
  }

  lemma ReleaserHolds(digest: Digest, c: Client, k: TokenValue)
    requires PointOk(digest, c.cfg, c.point) && Releases(c.point, k)
    ensures Holds(c, k)
  {
  }

  /** The step is a granted swap by a holder of the claim on k, at a point that gives k back. */
  ghost predicate GivesBack(digest: Digest, w: World, w': World, id: nat, k: TokenValue) {
    && id in Holders(w, k) && Releases(w.clients[id].point, k)
    && Calls(digest, w, w', id, S.Swapped(true)) && Pending(digest, w.clients[id].cfg, w.clients[id].point).Swap?
  }

  lemma RevivingCall(digest: Digest, w: World, w': World, id: nat, reply: S.Reply, k: TokenValue)
    requires Inv(digest, w) && Calls(digest, w, w', id, reply) && w'.history.saves[k] == w.history.saves[k]
    requires IsActiveAt(w'.store, k) && !IsActiveAt(w.store, k)
    ensures k in w.store.tokens && w.store.tokens[k].state.status == Consumed
    ensures GivesBack(digest, w, w', id, k)
  {
    var c, r := CallFacts(digest, w, w', id, reply);
    SavesCount(w.history, c, r, reply, w'.clock, k);
    StatusOrderOrFailed(digest, w, w', c, r, reply, k);
    ReleaserHolds(digest, c, k);
  }

  /** The key was consumed, and the step gives it back. */
  ghost predicate GivenBack(digest: Digest, w: World, w': World, k: TokenValue) {
    && k in w.store.tokens && w.store.tokens[k].state.status == Consumed
    && exists id :: GivesBack(digest, w, w', id, k)
  }

  lemma RevivingStep(digest: Digest, w: World, w': World, k: TokenValue)
    requires Inv(digest, w) && Step(digest, w, w') && w'.history.saves[k] == w.history.saves[k]
    requires IsActiveAt(w'.store, k) && !IsActiveAt(w.store, k)
    ensures GivenBack(digest, w, w', k)
  {
    hide GivesBack, Inv;
    var _, id, reply := StepKinds(digest, w, w');
    RevivingCall(digest, w, w', id, reply, k);
  }

  /** In every run a key turns active without being saved only by the step in which a client that consumed it, and
      still holds it, gives it back by a granted swap. */
  lemma NoRevival(digest: Digest, ws: seq<World>, i: nat, k: TokenValue)
    requires Run(digest, ws) && i + 1 < |ws|
    ensures ws[i + 1].history.saves[k] == ws[i].history.saves[k]
            && IsActiveAt(ws[i + 1].store, k) && !IsActiveAt(ws[i].store, k) ==>
              GivenBack(digest, ws[i], ws[i + 1], k)
  {
    hide Inv, Step, Init, GivenBack, IsActiveAt;
    RunKeepsInv(digest, ws, i);
    assert Follows(digest, ws, i);
    if ws[i + 1].history.saves[k] == ws[i].history.saves[k]
       && IsActiveAt(ws[i + 1].store, k) && !IsActiveAt(ws[i].store, k) {
      RevivingStep(digest, ws[i], ws[i + 1], k);
    }
  }

  lemma StatusOrderOrFailed(digest: Digest, w: World, w': World, c: Client, r: S.Request, reply: S.Reply, k: TokenValue)
    requires StoreOk(digest, w.store) && RequestOk(digest, c.point, r)
    requires S.Serves(w.store, w.clock, r, w'.store, reply)
    requires !(r.Save? && !reply.Failed? && r.state.token == k)
    ensures IsActiveAt(w'.store, k) && !IsActiveAt(w.store, k) ==>
              k in w.store.tokens && w.store.tokens[k].state.status == Consumed
              && r.Swap? && reply == S.Swapped(true) && Releases(c.point, k)
    ensures k in w'.store.tokens ==> k in w.store.tokens
    ensures k in w'.store.tokens && w.store.tokens[k].state.status == Revoked ==>
              w'.store.tokens[k].state.status == Revoked
  {
    if r.Save? && r.state.token == k {
    } else {
      StatusOrder(digest, w.store, w.clock, c.point, r, w'.store, reply, k);
    }
  }

  predicate Gone(w: World, k: TokenValue) { k !in w.store.tokens }

  predicate Dead(w: World, k: TokenValue) { Gone(w, k) || w.store.tokens[k].state.status == Revoked }

  /** From w to w' the key was saved again, or what was deleted or revoked stayed so. */
  ghost predicate StaysDead(w: World, w': World, k: TokenValue) {
    && w.history.saves[k] <= w'.history.saves[k]
    && (w'.history.saves[k] == w.history.saves[k] ==>
          (Gone(w, k) ==> Gone(w', k)) && (Dead(w, k) ==> Dead(w', k)))
  }

  lemma DeadStep(digest: Digest, w: World, w': World, k: TokenValue)
    requires Inv(digest, w) && Step(digest, w, w')
    ensures StaysDead(w, w', k)
  {
    var call, id, reply := StepKinds(digest, w, w');
    if call {
      var c, r := CallFacts(digest, w, w', id, reply);
      SavesCount(w.history, c, r, reply, w'.clock, k);
      if w'.history.saves[k] == w.history.saves[k] {
        StatusOrderOrFailed(digest, w, w', c, r, reply, k);
      }
    }
  }

  lemma RunDeadStep(digest: Digest, ws: seq<World>, i: nat, k: TokenValue)
    requires Run(digest, ws) && i + 1 < |ws|
    ensures StaysDead(ws[i], ws[i + 1], k)
  {
    RunKeepsInv(digest, ws, i);
    assert Follows(digest, ws, i);
    DeadStep(digest, ws[i], ws[i + 1], k);
  }

  /** Revocation and deletion are final: until the key is saved again, in any continuation of any
      run, a deleted key stays absent and a revoked one is revoked or absent. */
  lemma {:induction false} DeadIsFinal(digest: Digest, ws: seq<World>, i: nat, j: nat, k: TokenValue)
    requires Run(digest, ws) && i <= j < |ws|
    ensures StaysDead(ws[i], ws[j], k)
  {
    hide Run, StaysDead;
    if i < j {
      DeadIsFinal(digest, ws, i, j - 1, k);
      RunDeadStep(digest, ws, j - 1, k);
      StaysDeadTwice(ws[i], ws[j - 1], ws[j], k);
    } else {
      StaysDeadMeanwhile(ws[i], k);
    }
  }

  lemma StaysDeadMeanwhile(w: World, k: TokenValue)
    ensures StaysDead(w, w, k)
  {
  }

  lemma StaysDeadTwice(w: World, w': World, w'': World, k: TokenValue)
    requires StaysDead(w, w', k) && StaysDead(w', w'', k)
    ensures StaysDead(w, w'', k)
  {
  }

  // ----- a held claim and its snapshot

  /** The client has been told that its finalize no longer matched. */
  predicate Refused(p: Point) {
    (p.UndoingRefresh? || p.Restoring?) && p.error == TokenInvalid
  }

  /** What a held claim knows of the stored token: nothing but deletion or revocation has touched it
      since it was consumed, and after a refused finalize it can never match again. */
  ghost predicate ClaimIntact(w: World, id: nat)
    requires id in w.clients && ClaimOf(w.clients[id].point).Some?
  {
    var claim := ClaimOf(w.clients[id].point).value;
    && (Dead(w, claim.Key()) || w.store.tokens[claim.Key()].state == claim.expected)
    && (Refused(w.clients[id].point) ==> !S.Matches(w.store.tokens, claim.expected, w.clock))
  }

  ghost predicate ClaimsIntact(w: World) {
    forall id, k :: id in Holders(w, k) && w.history.saves[k] <= 1 ==> ClaimIntact(w, id)
  }

  lemma ClaimEstablished(digest: Digest, w: World, w': World, id: nat, reply: S.Reply)
    requires Inv(digest, w) && Calls(digest, w, w', id, reply)
    requires w.clients[id].point.Claiming? && WinsClaim(reply, w'.clock)
    requires ClaimOf(w'.clients[id].point).Some?
    ensures ClaimIntact(w', id)
  {
    var c, r := CallFacts(digest, w, w', id, reply);
    HoldMoves(digest, c.cfg, c.point, reply, w'.clock);
    RefusedOrigin(digest, c.cfg, c.point, reply, w'.clock);
  }

  lemma RefusedOrigin(digest: Digest, cfg: Config, p: Point, reply: S.Reply, now: int)
    requires Ready(p) && PointOk(digest, cfg, p)
    ensures Refused(Resume(digest, cfg, p, reply, now)) ==>
              Refused(p) || (p.Finalizing? && !reply.Failed? && reply != S.Swapped(true))
  {
    if IsLoginPoint(p) {
      LoginNotRefused(digest, cfg, p, reply, now);
    } else if IsRefreshPoint(p) {
      RefreshRefused(digest, cfg, p, reply, now);
    } else {
      OtherHasNoClaim(digest, cfg, p, reply, now);
    }
  }

  lemma LoginNotRefused(digest: Digest, cfg: Config, p: Point, reply: S.Reply, now: int)
    requires Ready(p) && PointOk(digest, cfg, p) && IsLoginPoint(p)
    ensures !Refused(ResumeLogin(digest, cfg, p, reply, now))
  {
  }

  lemma RefreshRefused(digest: Digest, cfg: Config, p: Point, reply: S.Reply, now: int)
    requires Ready(p) && IsRefreshPoint(p)
    ensures Refused(ResumeRefresh(digest, cfg, p, reply, now)) ==>
              Refused(p) || (p.Finalizing? && !reply.Failed? && reply != S.Swapped(true))
  {
  }

  /** One call, seen from a key that some client holds: the entry stays, or is revoked or deleted. */
  lemma HeldEntryStep(digest: Digest, w: World, c: Client, r: S.Request, w': World, reply: S.Reply, k: TokenValue)
    requires StoreOk(digest, w.store) && RequestOk(digest, c.point, r)
    requires S.Serves(w.store, w.clock, r, w'.store, reply)
    requires !(r.Save? && !reply.Failed? && r.state.token == k)
    requires !(Releases(c.point, k) && reply == S.Swapped(true))
    requires !IsActiveAt(w.store, k)
    ensures k in w'.store.tokens ==>
              k in w.store.tokens
              && (w'.store.tokens[k] == w.store.tokens[k] || w'.store.tokens[k].state.status == Revoked)
  {
  }

  lemma HeldFacts(digest: Digest, w: World, a: nat, k: TokenValue)
    requires Inv(digest, w) && ClaimsIntact(w) && a in Holders(w, k) && w.history.saves[k] <= 1
    ensures w.history.saves[k] == 1 && !IsActiveAt(w.store, k)
    ensures Holders(w, k) == {a}
    ensures ClaimOk(digest, ClaimOf(w.clients[a].point).value)
  {
    assert Holders(w, k) != {};
    assert |Holders(w, k)| > 0;
    AtMostOne(Holders(w, k));
    assert ClaimIntact(w, a);
  }

  lemma IntactAfterCall(digest: Digest, w: World, w': World, id: nat, reply: S.Reply, a: nat, k: TokenValue)
    requires Inv(digest, w) && ClaimsIntact(w) && Calls(digest, w, w', id, reply)
    requires a in Holders(w', k) && w'.history.saves[k] <= 1
    ensures ClaimIntact(w', a)
  {
    hide Inv, Resume, Record, StoreOk;
    var c, r := CallFacts(digest, w, w', id, reply);
    SavesCount(w.history, c, r, reply, w'.clock, k);
    HoldMoves(digest, c.cfg, c.point, reply, w'.clock);
    RefusedOrigin(digest, c.cfg, c.point, reply, w'.clock);
    if a == id && c.point.Claiming? {
      ClaimEstablished(digest, w, w', id, reply);
    } else {
      assert a in Holders(w, k);
      HeldFacts(digest, w, a, k);
      if Releases(c.point, k) { ReleaserHolds(digest, c, k); assert id in Holders(w, k); }
      HeldEntryStep(digest, w, c, r, w', reply, k);
      StillUnmatched(digest, w, w', id, c, r, reply, a, k);
    }
  }

  lemma StillUnmatched(digest: Digest, w: World, w': World, id: nat, c: Client, r: S.Request, reply: S.Reply,
                       a: nat, k: TokenValue)
    requires a in Holders(w, k) && a in Holders(w', k) && ClaimIntact(w, a) && w.clock <= w'.clock
    requires ClaimOk(digest, ClaimOf(w.clients[a].point).value)
    requires ClaimOf(w'.clients[a].point) == ClaimOf(w.clients[a].point)
    requires k in w'.store.tokens ==>
               k in w.store.tokens
               && (w'.store.tokens[k] == w.store.tokens[k] || w'.store.tokens[k].state.status == Revoked)
    requires Refused(w'.clients[a].point) ==>
               || Refused(w.clients[a].point)
               || (a == id && c == w.clients[a] && c.point.Finalizing? && !reply.Failed? && reply != S.Swapped(true))
    requires c.point.Finalizing? ==> r == S.Swap(c.point.claim.expected, c.point.refresh, c.point.ttl)
    requires S.Serves(w.store, w.clock, r, w'.store, reply)
    ensures ClaimIntact(w', a)
  {
  }

  lemma IntactAfterStart(digest: Digest, w: World, w': World, id: nat, cfg: Config, op: Operation)
    requires ClaimsIntact(w) && Starts(digest, w, w', id, cfg, op)
    ensures ClaimsIntact(w')
  {
    BeginOk(digest, cfg, op, w'.clock);
    forall a, k | a in Holders(w', k) && w'.history.saves[k] <= 1 ensures ClaimIntact(w', a) {
      assert a in Holders(w, k);
      assert ClaimIntact(w, a);
    }
  }

  lemma IntactStep(digest: Digest, w: World, w': World)
    requires Inv(digest, w) && ClaimsIntact(w) && Step(digest, w, w')
    ensures ClaimsIntact(w')
  {
    if id, cfg, op :| Starts(digest, w, w', id, cfg, op) {
      IntactAfterStart(digest, w, w', id, cfg, op);
    } else {
      var id, reply :| Calls(digest, w, w', id, reply);
      forall a, k | a in Holders(w', k) && w'.history.saves[k] <= 1 ensures ClaimIntact(w', a) {
        IntactAfterCall(digest, w, w', id, reply, a, k);
      }
    }
  }

  lemma FirstIntact(digest: Digest, w: World)
    requires Init(digest, w)
    ensures ClaimsIntact(w)
  {
  }

  lemma {:induction false} RunKeepsClaims(digest: Digest, ws: seq<World>, i: nat)
    requires Run(digest, ws) && i < |ws|
    ensures ClaimsIntact(ws[i])
  {
    hide Inv, Step, Init, ClaimsIntact;
    if i > 0 {
      RunKeepsClaims(digest, ws, i - 1);
      RunKeepsInv(digest, ws, i - 1);
      assert Follows(digest, ws, i - 1);
      IntactStep(digest, ws[i - 1], ws[i]);
    } else {
      FirstIntact(digest, ws[0]);
    }
  }

  lemma HeldClaimFacts(digest: Digest, w: World, id: nat)
    requires Inv(digest, w) && ClaimsIntact(w)
    requires id in w.clients && (w.clients[id].point.Finalizing? || w.clients[id].point.Restoring?)
    requires w.history.saves[w.clients[id].point.claim.Key()] <= 1
    ensures var claim := w.clients[id].point.claim;
            S.Matches(w.store.tokens, claim.expected, w.clock)
            <==> S.IsLive(w.store.tokens, claim.Key(), w.clock) && !Dead(w, claim.Key())
    ensures Refused(w.clients[id].point) ==>
              !S.Matches(w.store.tokens, w.clients[id].point.claim.expected, w.clock)
  {
    assert PointOk(digest, w.clients[id].cfg, w.clients[id].point);
    assert id in Holders(w, w.clients[id].point.claim.Key());
    assert ClaimIntact(w, id);
  }

  /** Finalizing a reusable refresh whose token was saved once is refused exactly when the token was
      deleted, revoked or has expired since it was claimed; so is giving it back. */
  lemma FinalizeGrantedIff(digest: Digest, ws: seq<World>, i: nat, id: nat, w: World)
    requires Run(digest, ws) && i < |ws| && w == ws[i]
    requires id in w.clients && (w.clients[id].point.Finalizing? || w.clients[id].point.Restoring?)
    requires w.history.saves[w.clients[id].point.claim.Key()] <= 1
    ensures var claim := w.clients[id].point.claim;
            S.Matches(w.store.tokens, claim.expected, w.clock)
            <==> S.IsLive(w.store.tokens, claim.Key(), w.clock) && !Dead(w, claim.Key())
  {
    RunKeepsInv(digest, ws, i);
    RunKeepsClaims(digest, ws, i);
    HeldClaimFacts(digest, w, id);
  }

  /** After a refused finalize the restore is refused too, whatever happens in between: the call gives
      up the token and cannot overwrite the revocation that beat it. */
  lemma RestoreAfterRefusalRefused(digest: Digest, ws: seq<World>, i: nat, id: nat, w: World)
    requires Run(digest, ws) && i < |ws| && w == ws[i]
    requires id in w.clients && w.clients[id].point.Restoring? && Refused(w.clients[id].point)
    requires w.history.saves[w.clients[id].point.claim.Key()] <= 1
    ensures !S.Matches(w.store.tokens, w.clients[id].point.claim.expected, w.clock)
  {
    RunKeepsInv(digest, ws, i);
    RunKeepsClaims(digest, ws, i);
    HeldClaimFacts(digest, w, id);
  }

  // ----- whose call it is: plaintext results and losers

  predicate ResultFits(cfg: Config, op: Operation, r: Result) {
    match r
    case Token(s) =>
      || (op.Login? && s.token == TrimSpace(op.login.token))
      || (op.GetTokenState? && s.token == TrimSpace(op.token))
      || (op.ConsumeNonce? && s.token == TrimSpace(op.nonce))
    case Pair(access, refresh) =>
      || (op.LoginWithRefresh? && access.token == TrimSpace(op.login.token)
          && refresh.token == TrimSpace(op.refreshToken))
      || (op.Refresh? && access.token == TrimSpace(op.input.nextAccess)
          && refresh.token == TrimSpace(if cfg.refresh.rotate then op.input.nextRefresh else op.input.refreshToken))
    case Plain(token) => op.GenerateNonce? && token == op.nonce
    case _ => true
  }

  predicate ThenFits(op: Operation, t: Then) {
    match t
    case ReturnAccess(plain) => op.Login? && plain == op.login.token
    case IssueRefresh(plain, refreshPlain) =>
      op.LoginWithRefresh? && plain == op.login.token && refreshPlain == TrimSpace(op.refreshToken)
    case FinishRefresh(claim) => op.Refresh? && claim.input == Trimmed(op.input)
  }

  predicate LoadResultFits(op: Operation, r: Result) {
    r.Success? || (r.Token? && op.GetTokenState? && r.state.token == TrimSpace(op.token))
  }

  /** The point belongs to the operation: it still has the caller's own tokens in hand. */
  predicate Fits(digest: Digest, c: Client) {
    match c.point
    case Finished(result) => ResultFits(c.cfg, c.op, result)
    case TakingNonce(_, follow) => !follow.FinishRefresh? && ThenFits(c.op, follow)
    case ReplacingAccess(plan) => ThenFits(c.op, plan.next)
    case ReplacingRefresh(plan) => ThenFits(c.op, plan.next)
    case ReplacingOthers(plan, _) => ThenFits(c.op, plan.next)
    case SavingAccess(plan) => ThenFits(c.op, plan.next)
    case SyncingSession(plan) => ThenFits(c.op, plan.next)
    case SavingRefresh(_, _, _, plain, refreshPlain) => ThenFits(c.op, IssueRefresh(plain, refreshPlain))
    case UndoingLogin(_) => c.op.LoginWithRefresh?
    case Loading(token, use) =>
      !c.op.Refresh? && (use.Read? ==> c.op.GetTokenState? && token == TrimSpace(c.op.token))
    case DroppingExpired(key, _) => c.op.Refresh? ==> key == StoreKey(digest, c.op.input.refreshToken)
    case Updating(_, _, _, _, result) => !c.op.Refresh? && LoadResultFits(c.op, result)
    case SyncingLifetime(_, _, result) => !c.op.Refresh? && LoadResultFits(c.op, result)
    case LoadingRefresh(input) => c.op.Refresh? && input == Trimmed(c.op.input)
    case Claiming(input) => c.op.Refresh? && input == Trimmed(c.op.input)
    case DroppingOldAccess(claim) => ThenFits(c.op, FinishRefresh(claim))
    case Rotating(claim, _, _, _) => c.cfg.refresh.rotate && ThenFits(c.op, FinishRefresh(claim))
    case Finalizing(claim, _, _, _) => !c.cfg.refresh.rotate && ThenFits(c.op, FinishRefresh(claim))
    case UndoingRefresh(claim, _, _) => ThenFits(c.op, FinishRefresh(claim))
    case Restoring(claim, _, _) => ThenFits(c.op, FinishRefresh(claim))
    case SavingNonce(_, _, plain) => c.op.GenerateNonce? && plain == c.op.nonce
    case ConsumingNonce(plain) => c.op.ConsumeNonce? && plain == TrimSpace(c.op.nonce)
    case _ => !c.op.Refresh?
  }

  predicate PlanCarries(digest: Digest, plan: LoginPlan) {
    plan.next.FinishRefresh? ==> plan.access.token == StoreKey(digest, plan.next.claim.input.nextAccess)
  }

  /** A refresh works on the access token it was given, up to the step that takes it back. */
  predicate Carries(digest: Digest, p: Point) {
    match p
    case TakingNonce(_, follow) => !follow.FinishRefresh?
    case ReplacingAccess(plan) => PlanCarries(digest, plan)
    case ReplacingRefresh(plan) => PlanCarries(digest, plan)
    case ReplacingOthers(plan, _) => PlanCarries(digest, plan)
    case SavingAccess(plan) => PlanCarries(digest, plan)
    case SyncingSession(plan) => PlanCarries(digest, plan)
    case Rotating(claim, access, _, _) => access.token == StoreKey(digest, claim.input.nextAccess)
    case Finalizing(claim, access, _, _) => access.token == StoreKey(digest, claim.input.nextAccess)
    case UndoingRefresh(claim, key, _) => key == StoreKey(digest, claim.input.nextAccess)
    case _ => true
  }

  lemma BeginCarries(digest: Digest, cfg: Config, op: Operation, now: int)
    ensures Carries(digest, Begin(digest, cfg, op, now))
  {
    hide TrimSpace, StoreKey;
  }

  lemma ReplaceAccessCarries(digest: Digest, cfg: Config, claim: Claim, now: int)
    ensures Carries(digest, ReplaceAccess(digest, cfg, claim, now))
  {
    hide TrimSpace, StoreKey;
  }

  lemma ResumeCarries(digest: Digest, cfg: Config, p: Point, reply: S.Reply, now: int)
    requires Ready(p) && Carries(digest, p)
    ensures Carries(digest, Resume(digest, cfg, p, reply, now))
  {
    hide TrimSpace, StoreKey, Carries, ResumeLogin, ResumeRefresh, ResumeOther;
    if IsLoginPoint(p) {
      ResumeLoginCarries(digest, cfg, p, reply, now);
    } else if IsRefreshPoint(p) {
      ResumeRefreshCarries(digest, cfg, p, reply, now);
    } else {
      ResumeOtherCarries(digest, cfg, p, reply, now);
    }
  }

  lemma ResumeLoginCarries(digest: Digest, cfg: Config, p: Point, reply: S.Reply, now: int)
    requires Ready(p) && Carries(digest, p) && IsLoginPoint(p)
    ensures Carries(digest, ResumeLogin(digest, cfg, p, reply, now))
  {
    hide TrimSpace, StoreKey;
  }

  lemma ResumeRefreshCarries(digest: Digest, cfg: Config, p: Point, reply: S.Reply, now: int)
    requires Ready(p) && Carries(digest, p) && IsRefreshPoint(p)
    ensures Carries(digest, ResumeRefresh(digest, cfg, p, reply, now))
  {
    hide TrimSpace, StoreKey, ReplaceAccess;
    if p.Claiming? && WinsClaim(reply, now) {
      var state := reply.state.Normalize();
      ReplaceAccessCarries(digest, cfg, Claim(p.input, state, state.MarkConsumed(now)), now);
    } else if p.DroppingOldAccess? {
      ReplaceAccessCarries(digest, cfg, p.claim, now);
    }
  }

  lemma ResumeOtherCarries(digest: Digest, cfg: Config, p: Point, reply: S.Reply, now: int)
    requires Ready(p) && !IsLoginPoint(p) && !IsRefreshPoint(p)
    ensures Carries(digest, ResumeOther(digest, cfg, p, reply, now))
  {
    hide TrimSpace, StoreKey, LinkedKeys, OnDevice, Unexpired;
  }

  lemma TrimmedKeys(digest: Digest, token: TokenValue)
    ensures TrimSpace(TrimSpace(token)) == TrimSpace(token)
    ensures StoreKey(digest, TrimSpace(token)) == StoreKey(digest, token)
  {
    TrimIdempotent(token);
  }

  lemma BeginFits(digest: Digest, cfg: Config, op: Operation, now: int)
    ensures Fits(digest, Client(cfg, op, Begin(digest, cfg, op, now)))
  {
    hide TrimSpace;
  }

  lemma ResumeLoginFits(digest: Digest, c: Client, reply: S.Reply, now: int)
    requires Ready(c.point) && Fits(digest, c) && IsLoginPoint(c.point)
    ensures Fits(digest, c.(point := ResumeLogin(digest, c.cfg, c.point, reply, now)))
  {
    hide TrimSpace;
  }

  lemma FailRefreshFits(digest: Digest, c: Client, claim: Claim, error: Error, now: int)
    requires ThenFits(c.op, FinishRefresh(claim))
    ensures Fits(digest, c.(point := FailRefresh(c.cfg, claim, error, now)))
  {
    hide TrimSpace;
  }

  lemma ReplaceAccessFits(digest: Digest, c: Client, claim: Claim, now: int)
    requires ThenFits(c.op, FinishRefresh(claim))
    ensures Fits(digest, c.(point := ReplaceAccess(digest, c.cfg, claim, now)))
  {
    hide TrimSpace;
  }

  lemma ResumeUnclaimedFits(digest: Digest, c: Client, reply: S.Reply, now: int)
    requires Fits(digest, c) && (c.point.LoadingRefresh? || c.point.Claiming?)
    ensures Fits(digest, c.(point := ResumeRefresh(digest, c.cfg, c.point, reply, now)))
  {
    hide TrimSpace;
    TrimmedKeys(digest, c.op.input.refreshToken);
    if WinsClaim(reply, now) {
      var state := reply.state.Normalize();
      var claim := Claim(c.point.input, state, state.MarkConsumed(now));
      ReplaceAccessFits(digest, c, claim, now);
    }
  }

  lemma ResumeClaimedFits(digest: Digest, c: Client, reply: S.Reply, now: int)
    requires Ready(c.point) && Fits(digest, c) && IsRefreshPoint(c.point)
    requires !c.point.LoadingRefresh? && !c.point.Claiming?
    ensures Fits(digest, c.(point := ResumeRefresh(digest, c.cfg, c.point, reply, now)))
  {
    hide TrimSpace;
    var input := c.op.input;
    TrimmedKeys(digest, input.refreshToken);
    TrimmedKeys(digest, input.nextAccess);
    TrimmedKeys(digest, input.nextRefresh);
    if c.point.DroppingOldAccess? {
      ReplaceAccessFits(digest, c, c.point.claim, now);
      FailRefreshFits(digest, c, c.point.claim, StoreError, now);
    }
  }

  lemma ResumeFits(digest: Digest, c: Client, reply: S.Reply, now: int)
    requires Ready(c.point) && Fits(digest, c)
    ensures Fits(digest, c.(point := Resume(digest, c.cfg, c.point, reply, now)))
  {
    if IsLoginPoint(c.point) {
      ResumeLoginFits(digest, c, reply, now);
    } else if c.point.LoadingRefresh? || c.point.Claiming? {
      ResumeUnclaimedFits(digest, c, reply, now);
    } else if IsRefreshPoint(c.point) {
      ResumeClaimedFits(digest, c, reply, now);
    } else {
      ResumeOtherFits(digest, c, reply, now);
    }
  }

  lemma ResumeOtherFits(digest: Digest, c: Client, reply: S.Reply, now: int)
    requires Ready(c.point) && Fits(digest, c) && !IsLoginPoint(c.point) && !IsRefreshPoint(c.point)
    ensures Fits(digest, c.(point := ResumeOther(digest, c.cfg, c.point, reply, now)))
  {
    hide Fits, ResumeOther;
    if c.point.Loading? {
      ResumeLoadFits(digest, c, reply, now);
    } else if c.point.SavingRefresh? || c.point.SavingNonce? || c.point.ConsumingNonce? {
      ResumeIssueFits(digest, c, reply, now);
    } else {
      ResumeRestFits(digest, c, reply, now);
    }
  }

  lemma ResumeLoadFits(digest: Digest, c: Client, reply: S.Reply, now: int)
    requires Fits(digest, c) && c.point.Loading?
    ensures Fits(digest, c.(point := ResumeOther(digest, c.cfg, c.point, reply, now)))
  {
    hide TrimSpace, StoreKey;
    if c.op.GetTokenState? {
      TrimmedKeys(digest, c.op.token);
    }
  }

  lemma ResumeIssueFits(digest: Digest, c: Client, reply: S.Reply, now: int)
    requires Fits(digest, c) && (c.point.SavingRefresh? || c.point.SavingNonce? || c.point.ConsumingNonce?)
    ensures Fits(digest, c.(point := ResumeOther(digest, c.cfg, c.point, reply, now)))
  {
    hide TrimSpace, StoreKey;
    match c.op
    case LoginWithRefresh(_, refreshToken) => TrimmedKeys(digest, refreshToken);
    case ConsumeNonce(nonce) => TrimmedKeys(digest, nonce);
    case _ =>
  }

  lemma ResumeRestFits(digest: Digest, c: Client, reply: S.Reply, now: int)
    requires Ready(c.point) && Fits(digest, c) && !IsLoginPoint(c.point) && !IsRefreshPoint(c.point)
    requires !c.point.Loading? && !c.point.SavingRefresh? && !c.point.SavingNonce? && !c.point.ConsumingNonce?
    ensures Fits(digest, c.(point := ResumeOther(digest, c.cfg, c.point, reply, now)))
  {
    hide TrimSpace, StoreKey, LinkedKeys, OnDevice, Unexpired, RemainingTTL;
  }

  ghost predicate AllFit(digest: Digest, w: World) {
    forall id :: id in w.clients ==> Fits(digest, w.clients[id]) && Carries(digest, w.clients[id].point)
  }

  lemma FitStep(digest: Digest, w: World, w': World)
    requires AllFit(digest, w) && Step(digest, w, w')
    ensures AllFit(digest, w')
  {
    hide Fits, Carries;
    if id, cfg, op :| Starts(digest, w, w', id, cfg, op) {
      BeginFits(digest, cfg, op, w'.clock);
      BeginCarries(digest, cfg, op, w'.clock);
    } else {
      var id, reply :| Calls(digest, w, w', id, reply);
      ResumeFits(digest, w.clients[id], reply, w'.clock);
      ResumeCarries(digest, w.clients[id].cfg, w.clients[id].point, reply, w'.clock);
    }
  }

  lemma {:induction false} RunFits(digest: Digest, ws: seq<World>, i: nat)
    requires Run(digest, ws) && i < |ws|
    ensures AllFit(digest, ws[i])
  {
    hide Step, Fits, Carries;
    if i > 0 {
      RunFits(digest, ws, i - 1);
      assert Follows(digest, ws, i - 1);
      FitStep(digest, ws[i - 1], ws[i]);
    }
  }

  /** What a refresh takes back is the access token it was given. */
  lemma UndoesOwnAccess(digest: Digest, c: Client)
    requires Fits(digest, c) && Carries(digest, c.point) && c.point.UndoingRefresh?
    ensures c.op.Refresh? && c.point.key == StoreKey(digest, c.op.input.nextAccess)
  {
    TrimmedKeys(digest, c.op.input.nextAccess);
  }

  /** The new access token of a refresh that could not finish is deleted for good: from the reply to the
      delete on, its key stays absent until it is saved again. */
  lemma UndoneAccessStaysAbsent(digest: Digest, ws: seq<World>, i: nat, j: nat, id: nat)
    requires Run(digest, ws) && i < j < |ws| && id in ws[i].clients && ws[i].clients[id].point.UndoingRefresh?
    requires Calls(digest, ws[i], ws[i + 1], id, S.Done)
    ensures ws[i].clients[id].op.Refresh?
    ensures var key := StoreKey(digest, ws[i].clients[id].op.input.nextAccess);
            ws[j].history.saves[key] == ws[i + 1].history.saves[key] ==> Gone(ws[j], key)
  {
    RunFits(digest, ws, i);
    UndoesOwnAccess(digest, ws[i].clients[id]);
    var key := ws[i].clients[id].point.key;
    hide Fits, Carries, StoreKey;
    if ws[j].history.saves[key] == ws[i + 1].history.saves[key] {
      DeadIsFinal(digest, ws, i + 1, j, key);
    }
  }

  /** Only derived keys are ever stored, while every finished call hands its caller the trimmed
      plaintext it was given. */
  lemma PlaintextNeverStored(digest: Digest, ws: seq<World>, i: nat)
    requires Run(digest, ws) && i < |ws|
    ensures forall k :: k in ws[i].store.tokens ==>
              var s := ws[i].store.tokens[k].state;
              && s.token == k && IsDerived(digest, k)
              && (s.refresh.Some? ==> IsDerived(digest, s.refresh.value.accessToken)
                                      && IsDerived(digest, s.refresh.value.rotatedFrom)
                                      && s.refresh.value.rotatedTo == "")
    ensures forall id :: id in ws[i].clients && ws[i].clients[id].point.Finished? ==>
              ResultFits(ws[i].clients[id].cfg, ws[i].clients[id].op, ws[i].clients[id].point.result)
  {
    RunKeepsInv(digest, ws, i);
    RunFits(digest, ws, i);
    forall id | id in ws[i].clients && ws[i].clients[id].point.Finished?
      ensures ResultFits(ws[i].clients[id].cfg, ws[i].clients[id].op, ws[i].clients[id].point.result)
    {
      assert Fits(digest, ws[i].clients[id]);
    }
  }

  lemma UnclaimedPoint(digest: Digest, c: Client)
    requires Fits(digest, c) && c.op.Refresh? && ClaimOf(c.point).None? && Ready(c.point)
    ensures c.point.LoadingRefresh? || c.point.Claiming? || c.point.DroppingExpired?
    ensures var r := Pending(digest, c.cfg, c.point);
            (r.Get? || r.Consume? || r.Delete?) && r.key == StoreKey(digest, c.op.input.refreshToken)
  {
    TrimmedKeys(digest, c.op.input.refreshToken);
  }

  lemma UnclaimedResume(digest: Digest, cfg: Config, p: Point, reply: S.Reply, now: int)
    requires p.LoadingRefresh? || p.Claiming? || p.DroppingExpired?
    ensures var p' := Resume(digest, cfg, p, reply, now);
            && (ClaimOf(p').None? ==> p'.Claiming? || p'.DroppingExpired? || (p'.Finished? && p'.result.Failure?))
            && (p.Claiming? && !WinsClaim(reply, now) ==> p'.Finished? && p'.result.Failure?)
  {
    if p.Claiming? && WinsClaim(reply, now) {
      AfterClaimPoint(digest, cfg, p.input, reply.state.Normalize(), now);
    }
  }

  lemma AfterClaimPoint(digest: Digest, cfg: Config, input: RefreshInput, state: TokenState, now: int)
    ensures var p := AfterClaim(digest, cfg, input, state, now);
            ClaimOf(p).None? ==> p.Finished? && p.result.Failure?
  {
  }

  /** Every other stored token and every session stays, and losing the claim ends the call in a failure. */
  ghost predicate Confined(digest: Digest, w: World, w': World, id: nat, reply: S.Reply)
    requires id in w.clients && w.clients[id].op.Refresh? && id in w'.clients
  {
    var own := StoreKey(digest, w.clients[id].op.input.refreshToken);
    var p, p' := w.clients[id].point, w'.clients[id].point;
    && w'.store.sessions == w.store.sessions && w'.store.tokens - {own} == w.store.tokens - {own}
    && (ClaimOf(p').None? && !p'.Finished? ==> p'.Claiming? || p'.DroppingExpired?)
    && (ClaimOf(p').None? && p'.Finished? ==> p'.result.Failure?)
    && (p.Claiming? && !WinsClaim(reply, w'.clock) ==> p'.Finished? && p'.result.Failure?)
  }

  lemma UnclaimedCall(digest: Digest, w: World, w': World, id: nat, reply: S.Reply)
    requires AllFit(digest, w) && Calls(digest, w, w', id, reply)
    requires w.clients[id].op.Refresh? && ClaimOf(w.clients[id].point).None?
    ensures Confined(digest, w, w', id, reply)
  {
    hide Resume, Pending, StoreKey;
    var c := w.clients[id];
    UnclaimedPoint(digest, c);
    UnclaimedResume(digest, c.cfg, c.point, reply, w'.clock);
    var r := Pending(digest, c.cfg, c.point);
    assert S.Serves(w.store, w.clock, r, w'.store, reply);
  }

  /** In every run a refresh that has not won the claim changes nothing but its own token. */
  lemma LoserTouchesOnlyItsToken(digest: Digest, ws: seq<World>, i: nat, id: nat, reply: S.Reply)
    requires Run(digest, ws) && i + 1 < |ws|
    ensures Calls(digest, ws[i], ws[i + 1], id, reply)
            && ws[i].clients[id].op.Refresh? && ClaimOf(ws[i].clients[id].point).None? ==>
              Confined(digest, ws[i], ws[i + 1], id, reply)
  {
    hide AllFit, Confined, Init, Follows;
    RunFits(digest, ws, i);
    if Calls(digest, ws[i], ws[i + 1], id, reply)
       && ws[i].clients[id].op.Refresh? && ClaimOf(ws[i].clients[id].point).None? {
      UnclaimedCall(digest, ws[i], ws[i + 1], id, reply);
    }
  }

  // ----- successes are bounded by what was issued

  /** A refresh by a rotating Manager that has spent the token under k: claimed it, or succeeded. */
  predicate Spent(digest: Digest, c: Client, k: TokenValue) {
    && c.op.Refresh? && c.cfg.refresh.rotate && StoreKey(digest, c.op.input.refreshToken) == k
    && (ClaimOf(c.point).Some? || (c.point.Finished? && c.point.result.Pair?))
  }

  predicate Accepted(digest: Digest, c: Client, k: TokenValue) {
    && c.op.ConsumeNonce? && StoreKey(digest, c.op.nonce) == k
    && c.point.Finished? && c.point.result.Token?
  }

  function Spenders(digest: Digest, w: World, k: TokenValue): set<nat> {
    Where(w.clients, c => Spent(digest, c, k))
  }

  function Acceptors(digest: Digest, w: World, k: TokenValue): set<nat> {
    Where(w.clients, c => Accepted(digest, c, k))
  }

  ghost predicate Bounded(digest: Digest, w: World, k: TokenValue) {
    && |Spenders(digest, w, k)| <= w.history.rotatingClaims[k]
    && |Acceptors(digest, w, k)| <= w.history.nonceWins[k]
  }

  lemma BecomesSpent(digest: Digest, c: Client, reply: S.Reply, now: int, k: TokenValue)
    requires Fits(digest, c) && Ready(c.point)
    ensures var c' := c.(point := Resume(digest, c.cfg, c.point, reply, now));
            && (Spent(digest, c', k) && !Spent(digest, c, k) ==>
                  c.point.Claiming? && WinsClaim(reply, now) && StoreKey(digest, c.point.input.refreshToken) == k)
            && (Accepted(digest, c', k) ==>
                  c.point.ConsumingNonce? && NonceRefusal(reply, now).None? && StoreKey(digest, c.point.plain) == k)
  {
    hide TrimSpace;
    if c.op.Refresh? { TrimmedKeys(digest, c.op.input.refreshToken); }
    if c.op.ConsumeNonce? { TrimmedKeys(digest, c.op.nonce); }
  }

  lemma BoundedCall(digest: Digest, w: World, w': World, id: nat, reply: S.Reply, k: TokenValue)
    requires AllFit(digest, w) && Inv(digest, w) && Calls(digest, w, w', id, reply) && Bounded(digest, w, k)
    ensures Bounded(digest, w', k)
  {
    var c, r := CallFacts(digest, w, w', id, reply);
    BecomesSpent(digest, c, reply, w'.clock, k);
    BoundedUpdate(digest, w, w', id, c, r, reply, k);
  }

  lemma BoundedUpdate(digest: Digest, w: World, w': World, id: nat, c: Client, r: S.Request, reply: S.Reply,
                      k: TokenValue)
    requires Bounded(digest, w, k) && RequestOk(digest, c.point, r)
    requires id in w.clients && c == w.clients[id] && id in w'.clients && w'.clients == w.clients[id := w'.clients[id]]
    requires w'.history == Record(w.history, c, r, reply, w'.clock)
    requires c.point.ConsumingNonce? ==> r.Consume? && r.key == StoreKey(digest, c.point.plain)
    requires Spent(digest, w'.clients[id], k) && !Spent(digest, c, k) ==>
               c.point.Claiming? && c.cfg.refresh.rotate && WinsClaim(reply, w'.clock)
               && StoreKey(digest, c.point.input.refreshToken) == k
    requires Accepted(digest, w'.clients[id], k) ==>
               c.point.ConsumingNonce? && NonceRefusal(reply, w'.clock).None? && StoreKey(digest, c.point.plain) == k
    ensures Bounded(digest, w', k)
  {
    WhereUpdate(w.clients, id, w'.clients[id], x => Spent(digest, x, k));
    WhereUpdate(w.clients, id, w'.clients[id], x => Accepted(digest, x, k));
    WinsRecorded(digest, w.history, c, r, reply, w'.clock, k);
  }

  lemma WinsRecorded(digest: Digest, h: History, c: Client, r: S.Request, reply: S.Reply, now: int, k: TokenValue)
    requires RequestOk(digest, c.point, r)
    requires c.point.ConsumingNonce? ==> r.Consume? && r.key == StoreKey(digest, c.point.plain)
    ensures var h' := Record(h, c, r, reply, now);
            && h'.rotatingClaims[k] >= h.rotatingClaims[k]
                 + (if c.point.Claiming? && c.cfg.refresh.rotate && WinsClaim(reply, now)
                       && StoreKey(digest, c.point.input.refreshToken) == k then 1 else 0)
            && h'.nonceWins[k] >= h.nonceWins[k]
                 + (if c.point.ConsumingNonce? && NonceRefusal(reply, now).None? && StoreKey(digest, c.point.plain) == k
                    then 1 else 0)
  {
  }

  lemma BeginNotSpent(digest: Digest, cfg: Config, op: Operation, now: int, k: TokenValue)
    ensures var c := Client(cfg, op, Begin(digest, cfg, op, now)); !Spent(digest, c, k) && !Accepted(digest, c, k)
  {
  }

  lemma BoundedStart(digest: Digest, w: World, w': World, id: nat, cfg: Config, op: Operation, k: TokenValue)
    requires Starts(digest, w, w', id, cfg, op) && Bounded(digest, w, k)
    ensures Bounded(digest, w', k)
  {
    BeginNotSpent(digest, cfg, op, w'.clock, k);
    WhereAdd(w.clients, id, w'.clients[id], c => Spent(digest, c, k));
    WhereAdd(w.clients, id, w'.clients[id], c => Accepted(digest, c, k));
  }

  lemma BoundedInit(digest: Digest, w: World, k: TokenValue)
    requires w.clients == map[]
    ensures Bounded(digest, w, k)
  {
    assert Spenders(digest, w, k) == Acceptors(digest, w, k) == {};
  }

  lemma FirstWorld(digest: Digest, ws: seq<World>)
    requires Run(digest, ws)
    ensures ws != [] && ws[0].clients == map[]
  {
  }

  lemma {:induction false} RunBounded(digest: Digest, ws: seq<World>, i: nat, k: TokenValue)
    requires Run(digest, ws) && i < |ws|
    ensures Bounded(digest, ws[i], k)
  {
    hide Run, Bounded;
    FirstWorld(digest, ws);
    if i == 0 {
      BoundedInit(digest, ws[0], k);
    } else {
      RunBounded(digest, ws, i - 1, k);
      RunStepBounded(digest, ws, i - 1, k);
    }
  }

  lemma RunStepBounded(digest: Digest, ws: seq<World>, i: nat, k: TokenValue)
    requires Run(digest, ws) && i + 1 < |ws| && Bounded(digest, ws[i], k)
    ensures Bounded(digest, ws[i + 1], k)
  {
    hide Inv, AllFit, Step, Bounded, Init;
    RunKeepsInv(digest, ws, i);
    RunFits(digest, ws, i);
    assert Follows(digest, ws, i);
    BoundedStep(digest, ws[i], ws[i + 1], k);
  }

  lemma BoundedStep(digest: Digest, w: World, w': World, k: TokenValue)
    requires AllFit(digest, w) && Inv(digest, w) && Step(digest, w, w') && Bounded(digest, w, k)
    ensures Bounded(digest, w', k)
  {
    if id, cfg, op :| Starts(digest, w, w', id, cfg, op) {
      BoundedStart(digest, w, w', id, cfg, op, k);
    } else {
      var id, reply :| Calls(digest, w, w', id, reply);
      BoundedCall(digest, w, w', id, reply, k);
    }
  }

  /** However calls interleave, a refresh token issued once is rotated by one call at most, a nonce
      generated once is accepted by one call at most, and an accepted nonce is no longer active. */
  lemma AtMostOnce(digest: Digest, ws: seq<World>, i: nat, k: TokenValue)
    requires Run(digest, ws) && i < |ws|
    ensures |Spenders(digest, ws[i], k)| <= ws[i].history.refreshIssues[k]
    ensures |Acceptors(digest, ws[i], k)| <= ws[i].history.nonceIssues[k]
    ensures ws[i].history.refreshIssues[k] <= 1 ==>
              forall a, b :: a in Spenders(digest, ws[i], k) && b in Spenders(digest, ws[i], k) ==> a == b
    ensures ws[i].history.refreshIssues[k] <= 1 && Spenders(digest, ws[i], k) != {} ==>
              Holders(ws[i], k) == {} && ActiveOf(ws[i].store, k, Kind.Refresh) == 0
    ensures ws[i].history.nonceIssues[k] <= 1 ==>
              forall a, b :: a in Acceptors(digest, ws[i], k) && b in Acceptors(digest, ws[i], k) ==> a == b
    ensures ws[i].history.nonceIssues[k] <= 1 && Acceptors(digest, ws[i], k) != {} ==>
              ActiveOf(ws[i].store, k, Kind.Nonce) == 0
  {
    RunBounded(digest, ws, i, k);
    RefreshConservation(digest, ws, i, k);
    NonceConservation(digest, ws, i, k);
    if ws[i].history.refreshIssues[k] <= 1 { AtMostOne(Spenders(digest, ws[i], k)); }
    if ws[i].history.nonceIssues[k] <= 1 { AtMostOne(Acceptors(digest, ws[i], k)); }
    assert Spenders(digest, ws[i], k) != {} ==> |Spenders(digest, ws[i], k)| > 0;
    assert Acceptors(digest, ws[i], k) != {} ==> |Acceptors(digest, ws[i], k)| > 0;
    assert |Holders(ws[i], k)| == 0 ==> Holders(ws[i], k) == {};
  }
}
