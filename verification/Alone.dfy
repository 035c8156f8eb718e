/** The operations of the protocol, each run alone on a store that does not fail: what the sequence of store calls
    amounts to. Where a Manager has a method for the operation, it is what that method does. */
module Alone {
  import opened Tokens
  import opened ManagerSteps
  import opened Issued
  import opened Manager
  import S = AtomicStore

  /** Every state is stored under its own token, in normal form. */
  predicate Sound(s: S.Store) {
    forall k :: k in s.tokens ==> s.tokens[k].state.token == k && s.tokens[k].state.IsNormal()
  }

  /** From the point on, with every call served at once and nothing beside it, the operation comes to its end. */
  ghost predicate RunsTo(digest: Digest, cfg: Config, p: Point, s: S.Store, now: int, after: S.Store, r: Result,
                         steps: nat)
    decreases steps
  {
    if p.Finished? then after == s && r == p.result
    else
      && Ready(p) && steps > 0
      && exists reply ::
           && S.Answers(s, now, Pending(digest, cfg, p), reply)
           && RunsTo(digest, cfg, Resume(digest, cfg, p, reply, now), S.Apply(s, now, Pending(digest, cfg, p)), now,
                     after, r, steps - 1)
  }

  /** The operation, run alone, turns the one store into the other and answers the result. */
  ghost predicate Performs(digest: Digest, cfg: Config, op: Operation, s: S.Store, now: int, after: S.Store, r: Result)
  {
    exists steps: nat :: RunsTo(digest, cfg, Begin(digest, cfg, op, now), s, now, after, r, steps)
  }

  lemma Begun(digest: Digest, cfg: Config, op: Operation, s: S.Store, now: int, after: S.Store, r: Result)
    returns (steps: nat)
    requires Performs(digest, cfg, op, s, now, after, r)
    ensures RunsTo(digest, cfg, Begin(digest, cfg, op, now), s, now, after, r, steps)
  {
    steps :| RunsTo(digest, cfg, Begin(digest, cfg, op, now), s, now, after, r, steps);
  }

  /** The next call is served and answered. */
  lemma OneCall(digest: Digest, cfg: Config, p: Point, s: S.Store, now: int, after: S.Store, r: Result, steps: nat)
    returns (reply: S.Reply)
    requires RunsTo(digest, cfg, p, s, now, after, r, steps) && !p.Finished?
    ensures Ready(p) && steps > 0 && S.Answers(s, now, Pending(digest, cfg, p), reply)
    ensures RunsTo(digest, cfg, Resume(digest, cfg, p, reply, now), S.Apply(s, now, Pending(digest, cfg, p)), now,
                   after, r, steps - 1)
  {
    reply :| && S.Answers(s, now, Pending(digest, cfg, p), reply)
             && RunsTo(digest, cfg, Resume(digest, cfg, p, reply, now), S.Apply(s, now, Pending(digest, cfg, p)), now,
                       after, r, steps - 1);
  }

  // ----- a login

  lemma OneGoes(digest: Digest, cfg: Config, plan: LoginPlan, todo: seq<TokenValue>, s: S.Store, now: int,
                after: S.Store, r: Result, steps: nat)
    requires RunsTo(digest, cfg, AfterReplacing(plan, todo), s, now, after, r, steps) && todo != []
    ensures steps > 0
    ensures RunsTo(digest, cfg, AfterReplacing(plan, todo[1..]), s.(tokens := s.tokens - {todo[0]}), now, after, r,
                   steps - 1)
  {
    var reply := OneCall(digest, cfg, AfterReplacing(plan, todo), s, now, after, r, steps);
    assert reply == S.Done;
    hide RunsTo, AfterReplacing, ResumeRefresh, ResumeOther;
  }

  function Keys(todo: seq<TokenValue>): set<TokenValue> {
    set k | k in todo
  }

  lemma {:induction false} OthersGo(digest: Digest, cfg: Config, plan: LoginPlan, todo: seq<TokenValue>, s: S.Store,
                                    now: int, after: S.Store, r: Result, steps: nat) returns (left: nat)
    requires RunsTo(digest, cfg, AfterReplacing(plan, todo), s, now, after, r, steps)
    ensures RunsTo(digest, cfg, SavingAccess(plan), s.(tokens := s.tokens - Keys(todo)), now, after, r, left)
    decreases |todo|
  {
    hide RunsTo;
    if todo == [] {
      assert s.(tokens := s.tokens - Keys(todo)) == s;
      return steps;
    }
    OneGoes(digest, cfg, plan, todo, s, now, after, r, steps);
    left := OthersGo(digest, cfg, plan, todo[1..], s.(tokens := s.tokens - {todo[0]}), now, after, r, steps - 1);
    assert todo == [todo[0]] + todo[1..];
    assert s.tokens - {todo[0]} - Keys(todo[1..]) == s.tokens - Keys(todo);
  }

  lemma {:induction false} OtherKeysListed(states: seq<TokenState>, keep: TokenValue)
    ensures Keys(OtherKeys(states, keep)) == OthersIn(states, keep)
  {
    if states != [] {
      OtherKeysListed(states[1..], keep);
      assert states == [states[0]] + states[1..];
      var first := if states[0].token != keep then {states[0].token} else {};
      assert OthersIn(states, keep) == first + OthersIn(states[1..], keep);
      var firsts := if states[0].token != keep then [states[0].token] else [];
      assert Keys(firsts + OtherKeys(states[1..], keep)) == first + Keys(OtherKeys(states[1..], keep));
    }
  }

  /** The plan's access state replaces those of the subject where logins are exclusive. */
  lemma ReplacingRuns(digest: Digest, cfg: Config, plan: LoginPlan, s: S.Store, now: int, after: S.Store, r: Result,
                      steps: nat) returns (left: nat)
    requires Sound(s) && !cfg.concurrent && RunsTo(digest, cfg, ReplacingAccess(plan), s, now, after, r, steps)
    ensures var kept := Kept(cfg, s.tokens, plan.access.Subject(), plan.keep, now);
            RunsTo(digest, cfg, SavingAccess(plan), s.(tokens := kept), now, after, r, left)
  {
    hide RunsTo, S.Selected, S.Entry.IsExpired, ResumeRefresh, ResumeOther;
    var subject := plan.access.Subject();
    var reply := OneCall(digest, cfg, ReplacingAccess(plan), s, now, after, r, steps);
    assert reply == S.Done;
    var rest := s.(tokens := WithoutKind(s.tokens, subject, Access));
    if !cfg.refresh.revokeOnLogout {
      return steps - 1;
    }
    left := RevokingRuns(digest, cfg, plan, rest, now, after, r, steps - 1);
  }

  lemma RevokingRuns(digest: Digest, cfg: Config, plan: LoginPlan, s: S.Store, now: int, after: S.Store, r: Result,
                     steps: nat) returns (left: nat)
    requires Sound(s) && RunsTo(digest, cfg, ReplacingRefresh(plan), s, now, after, r, steps)
    ensures var subject := plan.access.Subject();
            var kept := if plan.keep == "" then WithoutKind(s.tokens, subject, Kind.Refresh)
                        else s.tokens - OthersOf(s.tokens, subject, plan.keep, now);
            RunsTo(digest, cfg, SavingAccess(plan), s.(tokens := kept), now, after, r, left)
  {
    hide RunsTo, S.Selected, S.Entry.IsExpired, S.Lists, OthersOf, OtherKeys, ResumeRefresh, ResumeOther;
    var reply := OneCall(digest, cfg, ReplacingRefresh(plan), s, now, after, r, steps);
    if plan.keep == "" {
      return steps - 1;
    }
    ListedOthers(s.tokens, plan.access.Subject(), plan.keep, now, reply.states);
    OtherKeysListed(reply.states, plan.keep);
    left := OthersGo(digest, cfg, plan, OtherKeys(reply.states, plan.keep), s, now, after, r, steps - 1);
  }

  function PlanFor(digest: Digest, cfg: Config, l: LoginInput, keep: TokenValue, next: Then, now: int): LoginPlan {
    LoginPlan(AccessState(digest, cfg, l, now), if cfg.timeout > 0 then cfg.timeout else 0, keep, next)
  }

  lemma SavingRuns(digest: Digest, cfg: Config, plan: LoginPlan, s: S.Store, now: int, after: S.Store, r: Result,
                   steps: nat)
    requires RunsTo(digest, cfg, SavingAccess(plan), s, now, after, r, steps)
    requires S.CanSave(plan.access) && !plan.access.Subject().IsZero()
    ensures steps >= 2
    ensures var tokens := s.tokens[plan.access.token := S.EntryFor(plan.access, plan.ttl, now)];
            var sessions := S.ApplySessions(s.sessions, now, S.EnsureSession(plan.access.Subject(), plan.ttl));
            RunsTo(digest, cfg, LoginDone(digest, cfg, plan, now), S.Store(tokens, sessions), now, after, r, steps - 2)
  {
    hide RunsTo, LoginDone, S.CanSave, S.EntryFor, LoginSubject.IsZero, ResumeRefresh, ResumeOther;
    var reply := OneCall(digest, cfg, SavingAccess(plan), s, now, after, r, steps);
    assert reply == S.Done;
    var saved := s.(tokens := s.tokens[plan.access.token := S.EntryFor(plan.access, plan.ttl, now)]);
    var reply' := OneCall(digest, cfg, SyncingSession(plan), saved, now, after, r, steps - 1);
    assert reply' == S.Done;
  }

  /** A login past its checks. */
  lemma StartedRuns(digest: Digest, cfg: Config, l: LoginInput, keep: TokenValue, next: Then, s: S.Store, now: int,
                    after: S.Store, r: Result, steps: nat) returns (left: nat)
    requires Safe(digest) && Sound(s) && TrimSpace(l.loginID) != "" && TrimSpace(l.token) != ""
    requires RunsTo(digest, cfg, StartLogin(digest, cfg, l, keep, next, now), s, now, after, r, steps)
    ensures var plan := PlanFor(digest, cfg, l, keep, next, now);
            var tokens := LoggedIn(digest, cfg, s.tokens, l, keep, now);
            var sessions := Accompanied(cfg, s.sessions, l.loginID, l.loginType, now);
            RunsTo(digest, cfg, LoginDone(digest, cfg, plan, now), S.Store(tokens, sessions), now, after, r, left)
  {
    hide RunsTo, LoginDone, S.CanSave, S.EntryFor, LoginSubject.IsZero, TrimSpace, AccessState, StoreKey,
         LoginSubject.Normalize, ResumeRefresh, ResumeOther, Sound, Kept, LoggedIn, Accompanied, S.ApplySessions;
    PlanFits(digest, cfg, l, keep, next, s, now);
    var plan := PlanFor(digest, cfg, l, keep, next, now);
    left := steps;
    var kept := s.(tokens := Kept(cfg, s.tokens, plan.access.Subject(), keep, now));
    if !cfg.concurrent {
      left := ReplacingRuns(digest, cfg, plan, s, now, after, r, steps);
    }
    SavingRuns(digest, cfg, plan, kept, now, after, r, left);
    left := left - 2;
  }

  lemma PlanFits(digest: Digest, cfg: Config, l: LoginInput, keep: TokenValue, next: Then, s: S.Store, now: int)
    requires Safe(digest) && TrimSpace(l.loginID) != "" && TrimSpace(l.token) != ""
    ensures var plan := PlanFor(digest, cfg, l, keep, next, now);
            var kept := Kept(cfg, s.tokens, plan.access.Subject(), keep, now);
            && S.CanSave(plan.access) && !plan.access.Subject().IsZero()
            && (cfg.concurrent ==> s.(tokens := kept) == s)
            && kept[plan.access.token := S.EntryFor(plan.access, plan.ttl, now)]
               == LoggedIn(digest, cfg, s.tokens, l, keep, now)
            && S.ApplySessions(s.sessions, now, S.EnsureSession(plan.access.Subject(), plan.ttl))
               == Accompanied(cfg, s.sessions, l.loginID, l.loginType, now)
  {
    CanSaveAccess(digest, cfg, l, now);
    AccessSubject(digest, cfg, l, now);
    hide TrimSpace, AccessState, StoreKey, LoginSubject.Normalize, S.CanSave, LoginSubject.IsZero;
  }

  /** A nonce presented at a login. */
  lemma NonceTaken(digest: Digest, cfg: Config, l: LoginInput, next: Then, s: S.Store, now: int, after: S.Store,
                   r: Result, steps: nat)
    requires RunsTo(digest, cfg, TakingNonce(l, next), s, now, after, r, steps) && TrimSpace(l.nonce) != ""
    ensures var refusal, key := NonceError(digest, s.tokens, l.nonce, now), StoreKey(digest, l.nonce);
            if refusal.Some? then
              steps > 0 && RunsTo(digest, cfg, LoginFailed(cfg, next, refusal.value, now), s, now, after, r, steps - 1)
            else
              && steps > 0 && key in s.tokens
              && RunsTo(digest, cfg, StartLogin(digest, cfg, l, "", next, now),
                        s.(tokens := Spent(s.tokens, key, now)), now, after, r, steps - 1)
  {
    NonceOutcome(digest, s.tokens, l.nonce, now);
    hide RunsTo, StoreKey, TrimSpace, StartLogin, LoginFailed, TokenState.MarkConsumed, S.Entry.IsExpired,
         ResumeRefresh, ResumeOther;
    var reply := OneCall(digest, cfg, TakingNonce(l, next), s, now, after, r, steps);
    assert s.(tokens := s.tokens) == s;
  }

  /** A login a user asked for. */
  lemma CheckedRuns(digest: Digest, cfg: Config, l: LoginInput, next: Then, s: S.Store, now: int, after: S.Store,
                    r: Result, steps: nat) returns (left: nat)
    requires Safe(digest) && Sound(s) && !next.FinishRefresh?
    requires RunsTo(digest, cfg, CheckedLogin(digest, cfg, l, "", next, true, now), s, now, after, r, steps)
    ensures var refusal := LoginRefusal(digest, cfg, s.tokens, l, true, now);
            if refusal.Some? then after == s && r == Failure(refusal.value)
            else
              var plan := PlanFor(digest, cfg, l, "", next, now);
              var tokens := LoggedIn(digest, cfg, AfterNonce(digest, cfg, s.tokens, l, true, now), l, "", now);
              var sessions := Accompanied(cfg, s.sessions, l.loginID, l.loginType, now);
              RunsTo(digest, cfg, LoginDone(digest, cfg, plan, now), S.Store(tokens, sessions), now, after, r, left)
  {
    hide StoreKey, TrimSpace, StartLogin, NonceRefusal, LoggedIn, Accompanied, LoginDone, S.IsLive;
    left := steps;
    if TrimSpace(l.loginID) == "" || TrimSpace(l.token) == "" || (cfg.requireNonce && TrimSpace(l.nonce) == "") {
      return;
    }
    var begun := s;
    if cfg.requireNonce {
      NonceTaken(digest, cfg, l, next, s, now, after, r, steps);
      left := steps - 1;
      if NonceError(digest, s.tokens, l.nonce, now).Some? {
        return;
      }
      begun := s.(tokens := Spent(s.tokens, StoreKey(digest, l.nonce), now));
    }
    left := StartedRuns(digest, cfg, l, "", next, begun, now, after, r, left);
  }

  /** Run alone, a login does what the Manager's does. */
  lemma LoginAlone(digest: Digest, cfg: Config, l: LoginInput, s: S.Store, now: int, after: S.Store, r: Result)
    requires Safe(digest) && Sound(s) && Performs(digest, cfg, Login(l), s, now, after, r)
    ensures LoggedInOutcome(digest, cfg, s, l, now, after, r)
  {
    hide StoreKey, TrimSpace, CheckedLogin, LoginRefusal, LoggedIn, Accompanied, AfterNonce, AccessState, IsAccessFor,
         Performs, ResumeRefresh, ResumeOther;
    var steps := Begun(digest, cfg, Login(l), s, now, after, r);
    var left := CheckedRuns(digest, cfg, l, ReturnAccess(l.token), s, now, after, r, steps);
    LoginIsAnswered(digest, cfg, AfterNonce(digest, cfg, s.tokens, l, true, now), l, "", now);
  }

  lemma IssuingRuns(digest: Digest, cfg: Config, l: LoginInput, token: TokenValue, s: S.Store, now: int,
                    after: S.Store, r: Result, steps: nat)
    requires Safe(digest) && TrimSpace(l.loginID) != "" && TrimSpace(token) != ""
    requires var plan := PlanFor(digest, cfg, l, "", IssueRefresh(l.token, TrimSpace(token)), now);
             RunsTo(digest, cfg, LoginDone(digest, cfg, plan, now), s, now, after, r, steps)
    ensures var access := AccessState(digest, cfg, l, now);
            var refresh := NewRefreshState(digest, cfg, TrimSpace(token), access, now);
            && after == s.(tokens := s.tokens[refresh.token := S.EntryFor(refresh, RemainingTTL(now, refresh), now)])
            && r == Pair(WithPlaintext(access, l.token), WithPlaintext(refresh, TrimSpace(token)))
  {
    TrimmedKey(digest, token);
    CanSaveRefresh(digest, cfg, l, TrimSpace(token), now);
    hide RunsTo, StoreKey, TrimSpace, S.CanSave, S.EntryFor, AccessState, NewRefreshState, ResumeLogin, ResumeRefresh;
    var plan := PlanFor(digest, cfg, l, "", IssueRefresh(l.token, TrimSpace(token)), now);
    var p := LoginDone(digest, cfg, plan, now);
    var reply := OneCall(digest, cfg, p, s, now, after, r, steps);
    assert reply == S.Done;
    EndsHere(digest, cfg, Resume(digest, cfg, p, reply, now), S.Apply(s, now, Pending(digest, cfg, p)), now, after, r,
             steps - 1);
  }

  lemma EndsHere(digest: Digest, cfg: Config, p: Point, s: S.Store, now: int, after: S.Store, r: Result, steps: nat)
    requires p.Finished? && RunsTo(digest, cfg, p, s, now, after, r, steps)
    ensures after == s && r == p.result
  {
  }

  lemma LoginWithRefreshAlone(digest: Digest, cfg: Config, l: LoginInput, refreshToken: TokenValue, s: S.Store,
                              now: int, after: S.Store, r: Result)
    requires Safe(digest) && Sound(s) && Performs(digest, cfg, LoginWithRefresh(l, refreshToken), s, now, after, r)
    ensures LoggedInWithRefresh(digest, cfg, s, l, refreshToken, now, after, r)
  {
    var op := LoginWithRefresh(l, refreshToken);
    var p := Begin(digest, cfg, op, now);
    var steps := Begun(digest, cfg, op, s, now, after, r);
    hide StoreKey, TrimSpace, CheckedLogin, LoggedIn, Accompanied, AfterNonce, AccessState, IsAccessFor, IsRefreshFor,
         LoginRefusal, LoggedInAs, RunsTo;
    if TrimSpace(refreshToken) == "" || StoreKey(digest, l.token) == StoreKey(digest, refreshToken) {
      EndsHere(digest, cfg, p, s, now, after, r, steps);
      return;
    }
    var left := CheckedRuns(digest, cfg, l, IssueRefresh(l.token, TrimSpace(refreshToken)), s, now, after, r, steps);
    if LoginRefusal(digest, cfg, s.tokens, l, true, now).None? {
      hide LoginDone;
      var tokens := LoggedIn(digest, cfg, AfterNonce(digest, cfg, s.tokens, l, true, now), l, "", now);
      var sessions := Accompanied(cfg, s.sessions, l.loginID, l.loginType, now);
      NamedWhenGranted(digest, cfg, s.tokens, l, now);
      IssuingRuns(digest, cfg, l, refreshToken, S.Store(tokens, sessions), now, after, r, left);
      LoginIsAnswered(digest, cfg, AfterNonce(digest, cfg, s.tokens, l, true, now), l, "", now);
      IssuedWithLogin(digest, cfg, l, refreshToken, tokens, now);
    }
  }

  lemma NamedWhenGranted(digest: Digest, cfg: Config, tokens: TokenMap, l: LoginInput, now: int)
    requires LoginRefusal(digest, cfg, tokens, l, true, now).None?
    ensures TrimSpace(l.loginID) != ""
  {
  }

  /** The refresh state beside the access state of a login. */
  lemma IssuedWithLogin(digest: Digest, cfg: Config, l: LoginInput, token: TokenValue, tokens: TokenMap, now: int)
    requires var access := AccessState(digest, cfg, l, now);
             LoggedInAs(digest, cfg, l, tokens, WithPlaintext(access, l.token), now)
    requires StoreKey(digest, l.token) != StoreKey(digest, token)
    ensures var access, key := AccessState(digest, cfg, l, now), StoreKey(digest, token);
            var refresh := NewRefreshState(digest, cfg, TrimSpace(token), access, now);
            var after := tokens[key := S.EntryFor(refresh, RemainingTTL(now, refresh), now)];
            && refresh.token == key && LoggedInAs(digest, cfg, l, after, WithPlaintext(access, l.token), now)
            && Answered(after, key, WithPlaintext(refresh, TrimSpace(token)), token)
            && IsRefreshFor(cfg, after[key].state, key, after[StoreKey(digest, l.token)].state, "", None, now)
  {
    AccessIsIssued(digest, cfg, l, now);
    IssueIsAnswered(digest, cfg, token, AccessState(digest, cfg, l, now), now, tokens);
    hide TrimSpace, StoreKey, BelongsTo, NewRefreshState, S.EntryFor;
  }

  // ----- a refresh

  /** The checks, the claim, and the old access token: nothing happens, or the claim is made. */
  lemma ClaimRuns(digest: Digest, cfg: Config, input: RefreshInput, s: S.Store, now: int, after: S.Store, r: Result,
                  steps: nat) returns (left: nat)
    requires Safe(digest) && Sound(s)
    requires RunsTo(digest, cfg, BeginRefresh(cfg, Trimmed(input)), s, now, after, r, steps)
    ensures var key, refusal := StoreKey(digest, input.refreshToken), RefreshRefusal(digest, cfg, s.tokens, input, now);
            if refusal.Some? then after == s && r == Failure(refusal.value)
            else
              && key in s.tokens
              && var was := s.tokens[key].state;
              RunsTo(digest, cfg, ReplaceAccess(digest, cfg, Claim(Trimmed(input), was, was.MarkConsumed(now)), now),
                     s.(tokens := Claimed(cfg, s.tokens, key, now)), now, after, r, left)
  {
    TrimmedKey(digest, input.refreshToken);
    hide RunsTo, StoreKey, TrimSpace, ReplaceAccess, ValidateNext, TokenState.MarkConsumed, ResumeLogin, ResumeOther;
    var p := BeginRefresh(cfg, Trimmed(input));
    left := steps;
    if p.Finished? {
      EndsHere(digest, cfg, p, s, now, after, r, steps);
      return;
    }
    var key := StoreKey(digest, input.refreshToken);
    var reply := OneCall(digest, cfg, p, s, now, after, r, steps);
    var p' := Resume(digest, cfg, p, reply, now);
    if p'.Finished? {
      EndsHere(digest, cfg, p', s, now, after, r, steps - 1);
      return;
    }
    assert p' == Claiming(Trimmed(input));
    left := WonRuns(digest, cfg, input, s, now, after, r, steps - 1);
  }

  lemma WonRuns(digest: Digest, cfg: Config, input: RefreshInput, s: S.Store, now: int, after: S.Store, r: Result,
                steps: nat) returns (left: nat)
    requires Sound(s) && RefreshRefusal(digest, cfg, s.tokens, input, now).None?
    requires RunsTo(digest, cfg, Claiming(Trimmed(input)), s, now, after, r, steps)
    requires StoreKey(digest, TrimSpace(input.refreshToken)) == StoreKey(digest, input.refreshToken)
    ensures var key := StoreKey(digest, input.refreshToken);
            && key in s.tokens
            && var was := s.tokens[key].state;
            RunsTo(digest, cfg, ReplaceAccess(digest, cfg, Claim(Trimmed(input), was, was.MarkConsumed(now)), now),
                   s.(tokens := Claimed(cfg, s.tokens, key, now)), now, after, r, left)
  {
    hide RunsTo, StoreKey, TrimSpace, ReplaceAccess, ValidateNext, TokenState.MarkConsumed, ResumeLogin, ResumeOther;
    var key := StoreKey(digest, input.refreshToken);
    var was := s.tokens[key].state;
    var reply := OneCall(digest, cfg, Claiming(Trimmed(input)), s, now, after, r, steps);
    assert reply == S.Found(was) && was.Normalize() == was;
    var claim := Claim(Trimmed(input), was, was.MarkConsumed(now));
    var spent := s.(tokens := Spent(s.tokens, key, now));
    left := steps - 1;
    if cfg.refresh.revokeAccess && OldAccess(was) != "" {
      var reply' := OneCall(digest, cfg, DroppingOldAccess(claim), spent, now, after, r, left);
      assert reply' == S.Done;
      left := left - 1;
    }
  }

  /** Leaving a refresh after the claim: what can be given back is. */
  lemma FailingRuns(digest: Digest, cfg: Config, claim: Claim, error: Error, s: S.Store, now: int, after: S.Store,
                    r: Result, steps: nat)
    requires RunsTo(digest, cfg, FailRefresh(cfg, claim, error, now), s, now, after, r, steps)
    ensures r == Failure(error)
    ensures var restore := S.Swap(claim.expected, claim.original, RemainingTTL(now, claim.original));
            after == if cfg.refresh.rotate then s else s.(tokens := S.ApplyTokens(s.tokens, now, restore))
  {
    hide RunsTo, S.Matches, S.CanSave, S.EntryFor, ResumeLogin, ResumeOther;
    var p := FailRefresh(cfg, claim, error, now);
    if cfg.refresh.rotate {
      EndsHere(digest, cfg, p, s, now, after, r, steps);
    } else {
      var reply := OneCall(digest, cfg, p, s, now, after, r, steps);
      EndsHere(digest, cfg, Resume(digest, cfg, p, reply, now), S.Apply(s, now, Pending(digest, cfg, p)), now, after, r,
               steps - 1);
    }
  }

  /** From the end of the login to the end of the refresh. */
  lemma FinishRuns(digest: Digest, cfg: Config, input: RefreshInput, was: TokenState, s: S.Store, now: int,
                   after: S.Store, r: Result, steps: nat)
    requires Safe(digest) && TrimSpace(was.loginID) != "" && was.token != ""
    requires cfg.refresh.rotate ==> TrimSpace(input.nextRefresh) != ""
    requires var claim, l := Claim(Trimmed(input), was, was.MarkConsumed(now)), NextLogin(was, Trimmed(input));
             var keep := if cfg.refresh.rotate then "" else was.token;
             var plan := PlanFor(digest, cfg, l, keep, FinishRefresh(claim), now);
             RunsTo(digest, cfg, LoginDone(digest, cfg, plan, now), s, now, after, r, steps)
    ensures var access := AccessState(digest, cfg, NextLogin(was, Trimmed(input)), now);
            var next := NextRefresh(digest, cfg, was, input, now);
            var put := s.(tokens := s.tokens[next.token := S.EntryFor(next, RemainingTTL(now, next), now)]);
            if cfg.refresh.rotate || S.Matches(s.tokens, was.MarkConsumed(now), now) then
              && after == put
              && r == Pair(access.(token := TrimSpace(input.nextAccess)),
                           next.(token := TrimSpace(if cfg.refresh.rotate then input.nextRefresh
                                                    else input.refreshToken)))
            else
              var restore := S.Swap(was.MarkConsumed(now), was, RemainingTTL(now, was));
              && r == Failure(TokenInvalid)
              && after == s.(tokens := S.ApplyTokens(s.tokens - {access.token}, now, restore))
  {
    CanSaveNext(digest, cfg, was, input, now);
    TrimIdempotent(input.nextAccess);
    TrimIdempotent(input.nextRefresh);
    TrimIdempotent(input.refreshToken);
    hide RunsTo, TrimSpace, StoreKey, S.Matches, S.CanSave, S.EntryFor, AccessState, RotatedState, ReactivatedState,
         TokenState.MarkConsumed, S.ApplyTokens;
    var access, next := AccessState(digest, cfg, NextLogin(was, Trimmed(input)), now),
                        NextRefresh(digest, cfg, was, input, now);
    var claim := Claim(Trimmed(input), was, was.MarkConsumed(now));
    if cfg.refresh.rotate {
      RotatingRuns(digest, cfg, claim, access, next, s, now, after, r, steps);
    } else {
      FinalizingRuns(digest, cfg, claim, access, next, s, now, after, r, steps);
    }
  }

  lemma RotatingRuns(digest: Digest, cfg: Config, claim: Claim, access: TokenState, next: TokenState, s: S.Store,
                     now: int, after: S.Store, r: Result, steps: nat)
    requires RunsTo(digest, cfg, Rotating(claim, access, next, RemainingTTL(now, next)), s, now, after, r, steps)
    requires S.CanSave(next)
    ensures after == s.(tokens := s.tokens[next.token := S.EntryFor(next, RemainingTTL(now, next), now)])
    ensures r == Pair(WithPlaintext(access, claim.input.nextAccess), WithPlaintext(next, claim.input.nextRefresh))
  {
    hide RunsTo, S.CanSave, S.EntryFor, ResumeLogin, ResumeOther;
    var p := Rotating(claim, access, next, RemainingTTL(now, next));
    var reply := OneCall(digest, cfg, p, s, now, after, r, steps);
    assert reply == S.Done;
    EndsHere(digest, cfg, Resume(digest, cfg, p, reply, now), S.Apply(s, now, Pending(digest, cfg, p)), now, after, r,
             steps - 1);
  }

  lemma FinalizingRuns(digest: Digest, cfg: Config, claim: Claim, access: TokenState, next: TokenState, s: S.Store,
                       now: int, after: S.Store, r: Result, steps: nat)
    requires RunsTo(digest, cfg, Finalizing(claim, access, next, RemainingTTL(now, next)), s, now, after, r, steps)
    requires S.CanSave(next) && claim.expected.token == next.token && !cfg.refresh.rotate
    ensures if S.Matches(s.tokens, claim.expected, now) then
              && after == s.(tokens := s.tokens[next.token := S.EntryFor(next, RemainingTTL(now, next), now)])
              && r == Pair(WithPlaintext(access, claim.input.nextAccess), WithPlaintext(next, claim.input.refreshToken))
            else
              var restore := S.Swap(claim.expected, claim.original, RemainingTTL(now, claim.original));
              && r == Failure(TokenInvalid)
              && after == s.(tokens := S.ApplyTokens(s.tokens - {access.token}, now, restore))
  {
    hide RunsTo, S.CanSave, S.EntryFor, S.Matches, ResumeLogin, ResumeOther;
    var p := Finalizing(claim, access, next, RemainingTTL(now, next));
    var reply := OneCall(digest, cfg, p, s, now, after, r, steps);
    assert reply == S.Swapped(S.Matches(s.tokens, claim.expected, now));
    if S.Matches(s.tokens, claim.expected, now) {
      EndsHere(digest, cfg, Resume(digest, cfg, p, reply, now), S.Apply(s, now, Pending(digest, cfg, p)), now, after, r,
               steps - 1);
    } else {
      assert S.Apply(s, now, Pending(digest, cfg, p)) == s;
      UndoingRuns(digest, cfg, claim, access.token, s, now, after, r, steps - 1);
    }
  }

  lemma UndoingRuns(digest: Digest, cfg: Config, claim: Claim, key: TokenValue, s: S.Store, now: int, after: S.Store,
                    r: Result, steps: nat)
    requires RunsTo(digest, cfg, UndoingRefresh(claim, key, TokenInvalid), s, now, after, r, steps)
    requires !cfg.refresh.rotate
    ensures var restore := S.Swap(claim.expected, claim.original, RemainingTTL(now, claim.original));
            r == Failure(TokenInvalid) && after == s.(tokens := S.ApplyTokens(s.tokens - {key}, now, restore))
  {
    hide RunsTo, S.Matches, S.CanSave, S.EntryFor, FailRefresh, ResumeLogin, ResumeOther;
    var p := UndoingRefresh(claim, key, TokenInvalid);
    var reply := OneCall(digest, cfg, p, s, now, after, r, steps);
    FailingRuns(digest, cfg, claim, TokenInvalid, s.(tokens := s.tokens - {key}), now, after, r, steps - 1);
  }

  /** Run alone, a refresh does what the Manager's does. */
  lemma RefreshAlone(digest: Digest, cfg: Config, input: RefreshInput, s: S.Store, now: int, after: S.Store, r: Result)
    requires Safe(digest) && Sound(s) && Performs(digest, cfg, Operation.Refresh(input), s, now, after, r)
    ensures RefreshOutcome(digest, cfg, s, input, now, after, r)
  {
    hide RunsTo, Performs, StoreKey, TrimSpace, RefreshRefusal, Claimed, ReplaceAccess;
    var steps := Begun(digest, cfg, Operation.Refresh(input), s, now, after, r);
    var left := ClaimRuns(digest, cfg, input, s, now, after, r, steps);
    if RefreshRefusal(digest, cfg, s.tokens, input, now).None? {
      ClaimedAlone(digest, cfg, input, s, now, after, r, left);
    }
  }

  lemma ClaimedAlone(digest: Digest, cfg: Config, input: RefreshInput, s: S.Store, now: int, after: S.Store,
                     r: Result, steps: nat)
    requires Safe(digest) && Sound(s) && RefreshRefusal(digest, cfg, s.tokens, input, now).None?
    requires StoreKey(digest, input.refreshToken) in s.tokens
    requires var key := StoreKey(digest, input.refreshToken);
             var was := s.tokens[key].state;
             RunsTo(digest, cfg, ReplaceAccess(digest, cfg, Claim(Trimmed(input), was, was.MarkConsumed(now)), now),
                    s.(tokens := Claimed(cfg, s.tokens, key, now)), now, after, r, steps)
    ensures RefreshOutcome(digest, cfg, s, input, now, after, r)
  {
    var key := StoreKey(digest, input.refreshToken);
    var was := s.tokens[key].state;
    var claim := Claim(Trimmed(input), was, was.MarkConsumed(now));
    hide RunsTo, StoreKey, TrimSpace, RefreshRefusal, Claimed, TokenState.MarkConsumed, RefreshOutcome;
    if TrimSpace(was.loginID) == "" {
      NamelessAlone(digest, cfg, input, s, now, after, r, steps);
    } else {
      RefusalFacts(digest, cfg, s.tokens, input, now);
      TrimIdempotent(input.nextAccess);
      hide LoggedIn, Accompanied, LoginDone, AccessState;
      var keep := if cfg.refresh.rotate then "" else was.token;
      var claimed := s.(tokens := Claimed(cfg, s.tokens, key, now));
      SoundClaim(cfg, s, key, now);
      var left := StartedRuns(digest, cfg, NextLogin(was, Trimmed(input)), keep, FinishRefresh(claim), claimed, now,
                              after, r, steps);
      FinishedAlone(digest, cfg, input, s, now, after, r, left);
    }
  }

  lemma SoundClaim(cfg: Config, s: S.Store, key: TokenValue, now: int)
    requires Sound(s) && key in s.tokens
    ensures Sound(s.(tokens := Claimed(cfg, s.tokens, key, now)))
  {
  }

  lemma NamelessAlone(digest: Digest, cfg: Config, input: RefreshInput, s: S.Store, now: int, after: S.Store,
                      r: Result, steps: nat)
    requires Safe(digest) && Sound(s) && RefreshRefusal(digest, cfg, s.tokens, input, now).None?
    requires StoreKey(digest, input.refreshToken) in s.tokens
    requires var key := StoreKey(digest, input.refreshToken);
             var was := s.tokens[key].state;
             && TrimSpace(was.loginID) == ""
             && RunsTo(digest, cfg, ReplaceAccess(digest, cfg, Claim(Trimmed(input), was, was.MarkConsumed(now)), now),
                       s.(tokens := Claimed(cfg, s.tokens, key, now)), now, after, r, steps)
    ensures RefreshOutcome(digest, cfg, s, input, now, after, r)
  {
    var key := StoreKey(digest, input.refreshToken);
    var was := s.tokens[key].state;
    var claim := Claim(Trimmed(input), was, was.MarkConsumed(now));
    hide RunsTo, StoreKey, TrimSpace, RefreshRefusal, Claimed, TokenState.MarkConsumed, S.ApplyTokens, OutlivesClaim,
         AccessState;
    FailingRuns(digest, cfg, claim, EmptyLoginID, s.(tokens := Claimed(cfg, s.tokens, key, now)), now, after, r, steps);
    if !cfg.refresh.rotate {
      RestoreGivesBack(digest, cfg, s.tokens, input, now, StoreKey(digest, input.nextAccess));
    }
  }

  lemma FinishedAlone(digest: Digest, cfg: Config, input: RefreshInput, s: S.Store, now: int, after: S.Store,
                      r: Result, steps: nat)
    requires Safe(digest) && Sound(s) && RefreshRefusal(digest, cfg, s.tokens, input, now).None?
    requires StoreKey(digest, input.refreshToken) in s.tokens
    requires var key := StoreKey(digest, input.refreshToken);
             var was := s.tokens[key].state;
             var claim, l := Claim(Trimmed(input), was, was.MarkConsumed(now)), NextLogin(was, Trimmed(input));
             var plan := PlanFor(digest, cfg, l, if cfg.refresh.rotate then "" else was.token, FinishRefresh(claim),
                                 now);
             && TrimSpace(was.loginID) != ""
             && RunsTo(digest, cfg, LoginDone(digest, cfg, plan, now),
                       S.Store(Replaced(digest, cfg, s.tokens, input, now),
                               Accompanied(cfg, s.sessions, was.loginID, was.loginType, now)), now, after, r, steps)
    ensures RefreshOutcome(digest, cfg, s, input, now, after, r)
  {
    var key := StoreKey(digest, input.refreshToken);
    var was := s.tokens[key].state;
    RefusalFacts(digest, cfg, s.tokens, input, now);
    TrimmedKey(digest, input.nextAccess);
    AccessIsIssued(digest, cfg, NextLogin(was, Trimmed(input)), now);
    hide RunsTo, StoreKey, TrimSpace, RefreshRefusal, Claimed, TokenState.MarkConsumed, AccessState, NextRefresh,
         Replaced, Accompanied, PassedOn, S.Matches, S.ApplyTokens, OutlivesClaim, S.EntryFor, LoginDone;
    var replaced := S.Store(Replaced(digest, cfg, s.tokens, input, now),
                            Accompanied(cfg, s.sessions, was.loginID, was.loginType, now));
    FinishRuns(digest, cfg, input, was, replaced, now, after, r, steps);
    if !cfg.refresh.rotate {
      ClaimSurvives(digest, cfg, s.tokens, input, now);
      RestoreGivesBack(digest, cfg, s.tokens, input, now, StoreKey(digest, input.nextAccess));
    }
    if cfg.refresh.rotate || OutlivesClaim(cfg, was, key) {
      RefreshedIsPassedOn(digest, cfg, s.tokens, input, now);
    }
  }

  // ----- logging out

  lemma OneLinkedGoes(digest: Digest, cfg: Config, todo: seq<TokenState>, linked: seq<TokenValue>, s: S.Store,
                      now: int, after: S.Store, r: Result, steps: nat)
    requires todo != [] && linked != []
    requires RunsTo(digest, cfg, AfterLinked(todo, linked), s, now, after, r, steps)
    ensures steps > 0
    ensures RunsTo(digest, cfg, AfterLinked(todo, linked[1..]), s.(tokens := s.tokens - {linked[0]}), now, after, r,
                   steps - 1)
  {
    var reply := OneCall(digest, cfg, AfterLinked(todo, linked), s, now, after, r, steps);
    assert reply == S.Done;
    hide RunsTo, AfterLinked, ResumeLogin, ResumeRefresh;
  }

  lemma {:induction false} LinkedGo(digest: Digest, cfg: Config, todo: seq<TokenState>, linked: seq<TokenValue>,
                                    s: S.Store, now: int, after: S.Store, r: Result, steps: nat) returns (left: nat)
    requires todo != [] && RunsTo(digest, cfg, AfterLinked(todo, linked), s, now, after, r, steps)
    ensures RunsTo(digest, cfg, EndNext(todo[1..]), s.(tokens := s.tokens - Keys(linked)), now, after, r, left)
    decreases |linked|
  {
    hide RunsTo;
    if linked == [] {
      assert s.(tokens := s.tokens - Keys(linked)) == s;
      return steps;
    }
    OneLinkedGoes(digest, cfg, todo, linked, s, now, after, r, steps);
    left := LinkedGo(digest, cfg, todo, linked[1..], s.(tokens := s.tokens - {linked[0]}), now, after, r, steps - 1);
    assert linked == [linked[0]] + linked[1..];
    assert s.tokens - {linked[0]} - Keys(linked[1..]) == s.tokens - Keys(linked);
  }

  lemma {:induction false} LinkedKeysListed(states: seq<TokenState>, access: TokenValue)
    requires access != ""
    ensures Keys(LinkedKeys(states, access)) == LinkedTokens(states, access)
  {
    if states != [] {
      LinkedKeysListed(states[1..], access);
      assert states == [states[0]] + states[1..];
      var linked := IsLinked(states[0], {access});
      var first, firsts := if linked then {states[0].token} else {}, if linked then [states[0].token] else [];
      assert LinkedTokens(states, access) == first + LinkedTokens(states[1..], access);
      assert Keys(firsts + LinkedKeys(states[1..], access)) == first + Keys(LinkedKeys(states[1..], access));
    }
  }

  /** One token is logged out with what is linked to it. */
  lemma EndingRuns(digest: Digest, cfg: Config, todo: seq<TokenState>, s: S.Store, now: int, after: S.Store, r: Result,
                   steps: nat) returns (left: nat)
    requires Sound(s) && todo != [] && RunsTo(digest, cfg, Ending(todo), s, now, after, r, steps)
    ensures var t := todo[0].token;
            var gone := Cascade(cfg, s.tokens - {t}, todo[0].Subject(), {t}, now);
            RunsTo(digest, cfg, EndNext(todo[1..]), s.(tokens := s.tokens - {t} - gone), now, after, r, left)
  {
    hide RunsTo, EndNext, S.Lists, LinkedKeys, Linked, LoginSubject.Normalize, ResumeLogin, ResumeRefresh;
    var t := todo[0].token;
    var reply := OneCall(digest, cfg, Ending(todo), s, now, after, r, steps);
    assert reply == S.Done;
    var rest := s.(tokens := s.tokens - {t});
    left := steps - 1;
    if !cfg.refresh.revokeOnLogout || t == "" {
      NothingToCascade(cfg, rest.tokens, todo[0].Subject(), t, now);
      assert rest.(tokens := rest.tokens - {}) == rest;
      return;
    }
    var reply' := OneCall(digest, cfg, FindingLinked(todo), rest, now, after, r, left);
    ListedLinks(rest.tokens, todo[0].Subject(), t, now, reply'.states);
    LinkedKeysListed(reply'.states, t);
    left := LinkedGo(digest, cfg, todo, LinkedKeys(reply'.states, t), rest, now, after, r, left - 1);
  }

  lemma NothingToCascade(cfg: Config, tokens: TokenMap, subject: LoginSubject, t: TokenValue, now: int)
    requires !cfg.refresh.revokeOnLogout || t == ""
    ensures Cascade(cfg, tokens, subject, {t}, now) == {}
  {
  }

  /** The checks that every operation on one active token begins with. */
  lemma LoadingRuns(digest: Digest, cfg: Config, token: TokenValue, use: Use, s: S.Store, now: int, after: S.Store,
                    r: Result, steps: nat)
    requires Sound(s) && RunsTo(digest, cfg, BeginLoad(token, use), s, now, after, r, steps)
    ensures var refusal, key := UseError(digest, s.tokens, token, now), StoreKey(digest, token);
            if refusal.Some? then after == s && r == Failure(refusal.value)
            else
              && key in s.tokens && steps > 0
              && RunsTo(digest, cfg, UseToken(cfg, TrimSpace(token), use, s.tokens[key].state, now), s, now, after, r,
                        steps - 1)
  {
    TrimmedKey(digest, token);
    hide RunsTo, StoreKey, TrimSpace, UseToken, ResumeLogin, ResumeRefresh;
    var p := BeginLoad(token, use);
    if p.Finished? {
      EndsHere(digest, cfg, p, s, now, after, r, steps);
      return;
    }
    var reply := OneCall(digest, cfg, p, s, now, after, r, steps);
    if UseError(digest, s.tokens, token, now).Some? {
      EndsHere(digest, cfg, Resume(digest, cfg, p, reply, now), s, now, after, r, steps - 1);
    }
  }

  lemma LogoutAlone(digest: Digest, cfg: Config, token: TokenValue, s: S.Store, now: int, after: S.Store, r: Result)
    requires Sound(s) && Performs(digest, cfg, Logout(token), s, now, after, r)
    ensures LoggedOut(digest, cfg, s, token, now, after, r)
  {
    hide RunsTo, Performs, StoreKey, TrimSpace, Cascade, ResumeLogin, ResumeRefresh;
    var steps := Begun(digest, cfg, Logout(token), s, now, after, r);
    LoadingRuns(digest, cfg, token, End, s, now, after, r, steps);
    if UseError(digest, s.tokens, token, now).None? {
      var state := s.tokens[StoreKey(digest, token)].state;
      var left := EndingRuns(digest, cfg, [state], s, now, after, r, steps - 1);
      var gone := Cascade(cfg, s.tokens - {state.token}, state.Subject(), {state.token}, now);
      EndsHere(digest, cfg, EndNext([]), s.(tokens := s.tokens - {state.token} - gone), now, after, r, left);
    }
  }

  function TokensOf(states: seq<TokenState>): set<TokenValue> {
    set t | t in states :: t.token
  }

  /** Any number of tokens of one subject, after some of its tokens have gone. */
  lemma {:induction false} AllEnd(digest: Digest, cfg: Config, todo: seq<TokenState>, before: S.Store,
                                  subject: LoginSubject, done: set<TokenValue>, now: int, after: S.Store, r: Result,
                                  steps: nat)
    requires Sound(before)
    requires forall i :: 0 <= i < |todo| ==> todo[i].Subject().Normalize() == subject.Normalize()
    requires RunsTo(digest, cfg, EndNext(todo),
                    before.(tokens := before.tokens - done - Cascade(cfg, before.tokens, subject, done, now)), now,
                    after, r, steps)
    ensures var all := done + TokensOf(todo);
            && r == Success
            && after == before.(tokens := before.tokens - all - Cascade(cfg, before.tokens, subject, all, now))
    decreases |todo|
  {
    hide RunsTo, Cascade, LoginSubject.Normalize;
    var s := before.(tokens := before.tokens - done - Cascade(cfg, before.tokens, subject, done, now));
    if todo == [] {
      EndsHere(digest, cfg, EndNext(todo), s, now, after, r, steps);
      assert done + TokensOf([]) == done;
      return;
    }
    var t := todo[0].token;
    CascadeStep(cfg, before.tokens, subject, done, t, now);
    SameCascade(cfg, s.tokens - {t}, todo[0].Subject(), subject, {t}, now);
    var left := EndingRuns(digest, cfg, todo, s, now, after, r, steps);
    AllEnd(digest, cfg, todo[1..], before, subject, done + {t}, now, after, r, left);
    assert todo == [todo[0]] + todo[1..];
    assert done + {t} + TokensOf(todo[1..]) == done + TokensOf(todo);
  }

  lemma TokensOfMore(first: seq<TokenState>, rest: seq<TokenState>)
    requires |first| <= 1
    ensures TokensOf(first + rest) == (if first == [] then {} else {first[0].token}) + TokensOf(rest)
  {
    if first == [] {
      assert first + rest == rest;
    }
  }

  lemma {:induction false} OnDeviceListed(states: seq<TokenState>, device: string)
    ensures TokensOf(OnDevice(states, device)) == OnDeviceTokens(states, device)
    ensures forall state :: state in OnDevice(states, device) ==> state in states
  {
    hide TrimSpace, TokensOf;
    if states != [] {
      OnDeviceListed(states[1..], device);
      var firsts := if TrimSpace(states[0].device) == device then [states[0]] else [];
      TokensOfMore(firsts, OnDevice(states[1..], device));
      OnDevicePrefixed(states, device);
    } else {
      NothingThere(device);
    }
  }

  lemma OnDevicePrefixed(states: seq<TokenState>, device: string)
    requires states != []
    ensures OnDeviceTokens(states, device) ==
            (if TrimSpace(states[0].device) == device then {states[0].token} else {})
            + OnDeviceTokens(states[1..], device)
  {
    hide TrimSpace;
    assert states == [states[0]] + states[1..];
  }

  lemma NothingThere(device: string)
    ensures TokensOf([]) == OnDeviceTokens([], device)
  {
  }

  lemma LogoutByDeviceAlone(digest: Digest, cfg: Config, loginID: string, loginType: string, device: string, s: S.Store,
                            now: int, after: S.Store, r: Result)
    requires Sound(s) && Performs(digest, cfg, LogoutByDevice(loginID, loginType, device), s, now, after, r)
    ensures LoggedOutByDevice(cfg, s, loginID, loginType, device, now, after, r)
  {
    hide RunsTo, Performs, TrimSpace, Cascade, SubjectOf, S.Lists, OnDevice, EndNext, Named, ResumeLogin, ResumeRefresh;
    var op := LogoutByDevice(loginID, loginType, device);
    var p := Begin(digest, cfg, op, now);
    var steps := Begun(digest, cfg, op, s, now, after, r);
    if TrimSpace(loginID) == "" || TrimSpace(device) == "" {
      EndsHere(digest, cfg, p, s, now, after, r, steps);
      return;
    }
    var subject := SubjectOf(loginID, loginType);
    var reply := OneCall(digest, cfg, p, s, now, after, r, steps);
    SubjectIsMeant(loginID, loginType);
    hide LoginSubject.Normalize;
    FoundEnd(digest, cfg, subject, LoginSubject(loginID, loginType), TrimSpace(device), reply.states, s, now, after, r,
             steps - 1);
  }

  lemma FoundEnd(digest: Digest, cfg: Config, subject: LoginSubject, meant: LoginSubject, device: string,
                 states: seq<TokenState>, s: S.Store, now: int, after: S.Store, r: Result, steps: nat)
    requires Sound(s) && subject.Normalize() == meant.Normalize()
    requires S.Lists(s.tokens, subject, {Access}, now, states)
    requires RunsTo(digest, cfg, EndNext(OnDevice(states, device)), s, now, after, r, steps)
    ensures var named := Named(s.tokens, meant, device, now);
            && r == Success
            && after == s.(tokens := s.tokens - named - Cascade(cfg, s.tokens, meant, named, now))
  {
    hide RunsTo, TrimSpace, Cascade, S.Lists, OnDevice, EndNext, LoginSubject.Normalize, Named, OnDeviceTokens;
    var todo := OnDevice(states, device);
    ListedOnDevice(s.tokens, subject, device, now, states);
    OnDeviceListed(states, device);
    SameNamed(s.tokens, subject, meant, device, now);
    forall i | 0 <= i < |todo| ensures todo[i].Subject().Normalize() == meant.Normalize() {
      assert todo[i] in states;
      var j :| 0 <= j < |states| && states[j] == todo[i];
      ListedSubject(s.tokens, subject, now, states, j);
    }
    NothingOnDevice(cfg, s.tokens, meant, device, now);
    NothingDone(cfg, s, meant, now);
    AllEnd(digest, cfg, todo, s, meant, {}, now, after, r, steps);
    assert {} + TokensOf(todo) == TokensOf(todo);
  }

  lemma NothingDone(cfg: Config, s: S.Store, subject: LoginSubject, now: int)
    ensures s.(tokens := s.tokens - {} - Cascade(cfg, s.tokens, subject, {}, now)) == s
  {
    assert s.tokens - {} - Cascade(cfg, s.tokens, subject, {}, now) == s.tokens;
  }

  // ----- nonces

  lemma ConsumeNonceAlone(digest: Digest, cfg: Config, nonce: TokenValue, s: S.Store, now: int, after: S.Store,
                          r: Result)
    requires Sound(s) && Performs(digest, cfg, ConsumeNonce(nonce), s, now, after, r)
    ensures ConsumedNonce(digest, s, nonce, now, after, r)
  {
    hide RunsTo, Performs, TrimSpace, StoreKey, S.Entry.IsExpired, TokenState.MarkConsumed, IsConsumed, ResumeLogin,
         ResumeRefresh;
    TrimmedKey(digest, nonce);
    NonceOutcome(digest, s.tokens, nonce, now);
    var op := ConsumeNonce(nonce);
    var p := Begin(digest, cfg, op, now);
    var steps := Begun(digest, cfg, op, s, now, after, r);
    var key := StoreKey(digest, nonce);
    if key in s.tokens {
      MarkedAsSaid(s.tokens[key].state, now);
    }
    if p.Finished? {
      EndsHere(digest, cfg, p, s, now, after, r, steps);
      return;
    }
    var reply := OneCall(digest, cfg, p, s, now, after, r, steps);
    assert s.(tokens := s.tokens) == s;
    EndsHere(digest, cfg, Resume(digest, cfg, p, reply, now), S.Apply(s, now, Pending(digest, cfg, p)), now, after, r,
             steps - 1);
  }

  /** A new active nonce for the subject and purpose, "login" being the login type of none. */
  predicate IsNonceFor(cfg: Config, state: TokenState, key: TokenValue, subject: LoginSubject, purpose: string,
                       metadata: string, now: int)
  {
    && IsNew(state.(nonce := None), key, Kind.Nonce, "", metadata, now) && state.refresh.None?
    && state.nonce == Some(NonceInfo(purpose, None)) && state.loginID == subject.loginID
    && state.loginType == (if subject.loginType == "" then "login" else subject.loginType)
    && state.expiresAt == Some(now + cfg.nonceTimeout)
  }

  /** Only what is stored under the key has changed, and what is there now lives to its expiry. */
  predicate OnlyChanged(before: S.Store, after: S.Store, key: TokenValue) {
    StoredForItsTime(after.tokens, key) && after.tokens == before.tokens[key := after.tokens[key]]
  }

  lemma GenerateNonceAlone(digest: Digest, cfg: Config, nonce: TokenValue, subject: LoginSubject, purpose: string,
                           metadata: string, s: S.Store, now: int, after: S.Store, r: Result)
    requires Safe(digest)
    requires Performs(digest, cfg, GenerateNonce(nonce, subject, purpose, metadata), s, now, after, r)
    ensures var key := StoreKey(digest, nonce);
            if nonce == "" then r == Failure(EmptyNonce) && after == s
            else if TrimSpace(nonce) == "" then r == Failure(StoreError) && after == s
            else
              && r == Plain(nonce) && OnlyChanged(s, after, key) && after.sessions == s.sessions
              && IsNonceFor(cfg, after.tokens[key].state, key, subject, purpose, metadata, now)
  {
    hide RunsTo, Performs, TrimSpace, StoreKey, NonceState, IsNonceFor, S.CanSave, S.EntryFor, ResumeLogin,
         ResumeRefresh;
    KeyIsSet(digest, nonce);
    NonceIsIssued(digest, cfg, nonce, subject, purpose, metadata, now);
    var op := GenerateNonce(nonce, subject, purpose, metadata);
    var p := Begin(digest, cfg, op, now);
    var steps := Begun(digest, cfg, op, s, now, after, r);
    if p.Finished? {
      EndsHere(digest, cfg, p, s, now, after, r, steps);
      return;
    }
    var reply := OneCall(digest, cfg, p, s, now, after, r, steps);
    EndsHere(digest, cfg, Resume(digest, cfg, p, reply, now), S.Apply(s, now, Pending(digest, cfg, p)), now, after, r,
             steps - 1);
  }

  lemma NonceIsIssued(digest: Digest, cfg: Config, nonce: TokenValue, subject: LoginSubject, purpose: string,
                      metadata: string, now: int)
    ensures var state, key := NonceState(digest, cfg, nonce, subject, purpose, metadata, now), StoreKey(digest, nonce);
            var e := S.EntryFor(state, cfg.nonceTimeout, now);
            && state.token == key && (S.CanSave(state) <==> key != "") && e.deadline == e.state.expiresAt
            && IsNonceFor(cfg, e.state, key, subject, purpose, metadata, now)
  {
    hide StoreKey;
  }

  // ----- one active token

  /** The session of the state's owner, with the data it had, now ends with the state. */
  predicate SessionFollows(before: map<LoginSubject, S.SessionEntry>, after: map<LoginSubject, S.SessionEntry>,
                           state: TokenState, now: int)
  {
    var key := state.Subject().Normalize();
    && key in after && after == before[key := after[key]] && after[key].deadline == state.expiresAt
    && after[key].data ==
         if key in before && !Passed(before[key].deadline, now) then before[key].data else map[]
  }

  /** A state that can be saved has been replaced by next; another can not be. */
  ghost predicate Updated(before: S.Store, after: S.Store, state: TokenState, next: TokenState, synced: bool, now: int,
                          answer: Result, r: Result)
  {
    if state.loginID == "" && state.kind != Kind.Nonce then r == Failure(StoreError) && after == before
    else
      && OnlyChanged(before, after, state.token) && after.tokens[state.token].state == next
      && if !synced then after.sessions == before.sessions && r == answer
         else if TrimSpace(state.loginID) == "" then after.sessions == before.sessions && r == Failure(StoreError)
         else SessionFollows(before.sessions, after.sessions, next, now) && r == answer
  }

  lemma ZeroSubject(subject: LoginSubject)
    ensures subject.IsZero() <==> TrimSpace(subject.loginID) == ""
    ensures subject.Normalize().IsZero() <==> TrimSpace(subject.loginID) == ""
  {
    TrimIdempotent(subject.loginID);
  }

  lemma UpdatingRuns(digest: Digest, cfg: Config, state: TokenState, next: TokenState, ttl: int, synced: bool,
                     answer: Result, s: S.Store, now: int, after: S.Store, r: Result, steps: nat)
    requires RunsTo(digest, cfg, Updating(state, next, ttl, synced, answer), s, now, after, r, steps)
    requires S.IsLive(s.tokens, state.token, now) && s.tokens[state.token].state == state && state.token != ""
    requires state.IsNormal() && next.IsNormal() && next.token == state.token && next.kind == state.kind
    requires next.loginID == state.loginID && FitsLife(next, ttl, now)
    ensures Updated(s, after, state, next, synced, now, answer, r)
  {
    hide RunsTo, TrimSpace, LoginSubject.Normalize, LoginSubject.IsZero, ResumeLogin, ResumeRefresh, S.EntryFor,
         S.CanSave, SessionFollows;
    SwappedIn(s, state, next, ttl, now);
    var p := Updating(state, next, ttl, synced, answer);
    var reply := OneCall(digest, cfg, p, s, now, after, r, steps);
    var p', s' := Resume(digest, cfg, p, reply, now), S.Apply(s, now, Pending(digest, cfg, p));
    if p'.Finished? {
      EndsHere(digest, cfg, p', s', now, after, r, steps - 1);
    } else {
      SyncingRuns(digest, cfg, next, ttl, answer, s', now, after, r, steps - 1);
    }
  }

  lemma SwappedIn(s: S.Store, state: TokenState, next: TokenState, ttl: int, now: int)
    requires S.IsLive(s.tokens, state.token, now) && s.tokens[state.token].state == state && state.token != ""
    requires state.IsNormal() && next.IsNormal() && next.token == state.token && next.kind == state.kind
    requires next.loginID == state.loginID && FitsLife(next, ttl, now)
    ensures S.Matches(s.tokens, state, now) && S.EntryFor(next, ttl, now) == S.Entry(next, next.expiresAt)
    ensures S.CanSave(next) <==> state.loginID != "" || state.kind == Kind.Nonce
  {
  }

  /** The lifetime given to the store is the one the state speaks of. */
  predicate FitsLife(state: TokenState, ttl: int, now: int) {
    && !state.IsExpired(now)
    && if state.expiresAt.Some? then ttl == state.expiresAt.value - now else ttl <= 0
  }

  lemma SyncingRuns(digest: Digest, cfg: Config, next: TokenState, ttl: int, answer: Result, s: S.Store, now: int,
                    after: S.Store, r: Result, steps: nat)
    requires RunsTo(digest, cfg, SyncingLifetime(next.Subject(), ttl, answer), s, now, after, r, steps)
    requires FitsLife(next, ttl, now)
    ensures after.tokens == s.tokens
    ensures if TrimSpace(next.loginID) == "" then after.sessions == s.sessions && r == Failure(StoreError)
            else SessionFollows(s.sessions, after.sessions, next, now) && r == answer
  {
    ZeroSubject(next.Subject());
    hide RunsTo, TrimSpace, LoginSubject.Normalize, LoginSubject.IsZero, ResumeLogin, ResumeRefresh;
    var p := SyncingLifetime(next.Subject(), ttl, answer);
    var reply := OneCall(digest, cfg, p, s, now, after, r, steps);
    EndsHere(digest, cfg, Resume(digest, cfg, p, reply, now), S.Apply(s, now, Pending(digest, cfg, p)), now, after, r,
             steps - 1);
  }

  /** Reading renews an access token where the settings ask for it: it is touched, and lives on from now. */
  predicate IsRenewed(was: TokenState, state: TokenState, timeout: int, now: int) {
    && state.lastActiveAt == now
    && state.expiresAt == (if timeout > 0 then Some(now + timeout) else was.expiresAt)
    && state.(lastActiveAt := was.lastActiveAt, expiresAt := was.expiresAt) == was
  }

  lemma GetTokenStateAlone(digest: Digest, cfg: Config, token: TokenValue, s: S.Store, now: int, after: S.Store,
                           r: Result)
    requires Safe(digest) && Sound(s) && Performs(digest, cfg, GetTokenState(token), s, now, after, r)
    ensures var refusal, key := UseError(digest, s.tokens, token, now), StoreKey(digest, token);
            if refusal.Some? then after == s && r == Failure(refusal.value)
            else
              && key in s.tokens
              && var state := s.tokens[key].state;
              if cfg.autoRenew && state.kind == Access then
                exists next ::
                  && IsRenewed(state, next, cfg.activeTimeout, now)
                  && Updated(s, after, state, next, true, now, Token(next.(token := TrimSpace(token))), r)
              else after == s && r == Token(state.(token := TrimSpace(token)))
  {
    hide RunsTo, Performs, TrimSpace, StoreKey, ResumeLogin, ResumeRefresh;
    var op := GetTokenState(token);
    var p := Begin(digest, cfg, op, now);
    var steps := Begun(digest, cfg, op, s, now, after, r);
    LoadingRuns(digest, cfg, token, Read, s, now, after, r, steps);
    KeyIsSet(digest, token);
    TrimIdempotent(token);
    if UseError(digest, s.tokens, token, now).Some? {
      return;
    }
    var state := s.tokens[StoreKey(digest, token)].state;
    var p' := UseToken(cfg, TrimSpace(token), Read, state, now);
    if p'.Finished? {
      EndsHere(digest, cfg, p', s, now, after, r, steps - 1);
      return;
    }
    var next := p'.next;
    assert IsRenewed(state, next, cfg.activeTimeout, now);
    hide Updated;
    UpdatingRuns(digest, cfg, state, next, RemainingTTL(now, next), true, Token(WithPlaintext(next, TrimSpace(token))),
                 s, now, after, r, steps - 1);
  }

  /** A lifetime that is not positive sets none. */
  predicate IsExtended(was: TokenState, state: TokenState, ttl: int, now: int) {
    && state.lastActiveAt == now && state.expiresAt == (if ttl > 0 then Some(now + ttl) else None)
    && state.(lastActiveAt := was.lastActiveAt, expiresAt := was.expiresAt) == was
  }

  lemma RenewAlone(digest: Digest, cfg: Config, token: TokenValue, ttl: int, s: S.Store, now: int, after: S.Store,
                   r: Result)
    requires Safe(digest) && Sound(s) && Performs(digest, cfg, Renew(token, ttl), s, now, after, r)
    ensures var refusal, key := UseError(digest, s.tokens, token, now), StoreKey(digest, token);
            if refusal.Some? then after == s && r == Failure(refusal.value)
            else
              && key in s.tokens
              && exists next ::
                   && IsExtended(s.tokens[key].state, next, ttl, now)
                   && Updated(s, after, s.tokens[key].state, next, true, now, Success, r)
  {
    hide RunsTo, Performs, TrimSpace, StoreKey, ResumeLogin, ResumeRefresh;
    var op := Renew(token, ttl);
    var p := Begin(digest, cfg, op, now);
    var steps := Begun(digest, cfg, op, s, now, after, r);
    LoadingRuns(digest, cfg, token, Extend(ttl), s, now, after, r, steps);
    KeyIsSet(digest, token);
    if UseError(digest, s.tokens, token, now).None? {
      var state := s.tokens[StoreKey(digest, token)].state;
      var next := UseToken(cfg, TrimSpace(token), Extend(ttl), state, now).next;
      assert IsExtended(state, next, ttl, now);
      hide Updated;
      UpdatingRuns(digest, cfg, state, next, ttl, true, Success, s, now, after, r, steps - 1);
    }
  }

  /** Online since now, with what the caller reports, and the end of the last connection kept. */
  predicate IsOnline(was: TokenState, state: TokenState, info: OnlineInfo, now: int) {
    && state.online.Some? && state.online.value.onlineAt == Some(now)
    && state.online.value.connectionID == info.connectionID && state.online.value.userAgent == info.userAgent
    && state.online.value.ip == info.ip
    && (info.offlineAt.Some? || was.online.None? ==> state.online.value.offlineAt == info.offlineAt)
    && (info.offlineAt.None? && was.online.Some? ==> state.online.value.offlineAt == was.online.value.offlineAt)
    && state.lastActiveAt == now && state.(online := was.online, lastActiveAt := was.lastActiveAt) == was
  }

  /** Offline since now; how it was online stays on record. */
  predicate IsOffline(was: TokenState, state: TokenState, now: int) {
    && state.online.Some? && state.online.value.offlineAt == Some(now)
    && (was.online.Some? ==> state.online.value.(offlineAt := was.online.value.offlineAt) == was.online.value)
    && (was.online.None? ==> state.online.value.(offlineAt := None) == OnlineInfo(None, None, "", "", ""))
    && state.lastActiveAt == now && state.(online := was.online, lastActiveAt := was.lastActiveAt) == was
  }

  lemma MarkOnlineAlone(digest: Digest, cfg: Config, token: TokenValue, info: OnlineInfo, s: S.Store, now: int,
                        after: S.Store, r: Result)
    requires Safe(digest) && Sound(s) && Performs(digest, cfg, MarkOnline(token, info), s, now, after, r)
    ensures var refusal, key := UseError(digest, s.tokens, token, now), StoreKey(digest, token);
            if refusal.Some? then after == s && r == Failure(refusal.value)
            else
              && key in s.tokens
              && var state := s.tokens[key].state;
              if state.kind != Access then after == s && r == Failure(UnsupportedKind)
              else exists next ::
                     && IsOnline(state, next, info, now)
                     && Updated(s, after, state, next, false, now, Success, r)
  {
    hide RunsTo, Performs, TrimSpace, StoreKey, ResumeLogin, ResumeRefresh;
    var op := MarkOnline(token, info);
    var p := Begin(digest, cfg, op, now);
    var steps := Begun(digest, cfg, op, s, now, after, r);
    LoadingRuns(digest, cfg, token, Online(info), s, now, after, r, steps);
    KeyIsSet(digest, token);
    if UseError(digest, s.tokens, token, now).Some? {
      return;
    }
    var state := s.tokens[StoreKey(digest, token)].state;
    if state.kind != Access {
      EndsHere(digest, cfg, UseToken(cfg, TrimSpace(token), Online(info), state, now), s, now, after, r, steps - 1);
      return;
    }
    var next := UseToken(cfg, TrimSpace(token), Online(info), state, now).next;
    assert IsOnline(state, next, info, now);
    hide Updated;
    UpdatingRuns(digest, cfg, state, next, RemainingTTL(now, next), false, Success, s, now, after, r, steps - 1);
  }

  lemma MarkOfflineAlone(digest: Digest, cfg: Config, token: TokenValue, s: S.Store, now: int, after: S.Store,
                         r: Result)
    requires Safe(digest) && Sound(s) && Performs(digest, cfg, MarkOffline(token), s, now, after, r)
    ensures var refusal, key := UseError(digest, s.tokens, token, now), StoreKey(digest, token);
            if refusal.Some? then after == s && r == Failure(refusal.value)
            else
              && key in s.tokens
              && var state := s.tokens[key].state;
              if state.kind != Access then after == s && r == Failure(UnsupportedKind)
              else exists next ::
                     IsOffline(state, next, now) && Updated(s, after, state, next, false, now, Success, r)
  {
    hide RunsTo, Performs, TrimSpace, StoreKey, ResumeLogin, ResumeRefresh;
    var op := MarkOffline(token);
    var p := Begin(digest, cfg, op, now);
    var steps := Begun(digest, cfg, op, s, now, after, r);
    LoadingRuns(digest, cfg, token, Offline, s, now, after, r, steps);
    KeyIsSet(digest, token);
    if UseError(digest, s.tokens, token, now).Some? {
      return;
    }
    var state := s.tokens[StoreKey(digest, token)].state;
    if state.kind != Access {
      EndsHere(digest, cfg, UseToken(cfg, TrimSpace(token), Offline, state, now), s, now, after, r, steps - 1);
      return;
    }
    var next := UseToken(cfg, TrimSpace(token), Offline, state, now).next;
    assert IsOffline(state, next, now);
    hide Updated;
    UpdatingRuns(digest, cfg, state, next, RemainingTTL(now, next), false, Success, s, now, after, r, steps - 1);
  }

  /** Revoking marks the refresh state, whatever its status, and touches nothing else. */
  lemma RevokeRefreshTokenAlone(digest: Digest, cfg: Config, token: TokenValue, s: S.Store, now: int, after: S.Store,
                                r: Result)
    requires Safe(digest) && Sound(s) && Performs(digest, cfg, RevokeRefreshToken(token), s, now, after, r)
    ensures var key := StoreKey(digest, token);
            if TrimSpace(token) == "" then after == s && r == Failure(EmptyRefreshToken)
            else if !S.IsLive(s.tokens, key, now) then after == s && r == Failure(RefreshTokenNotFound)
            else if s.tokens[key].state.kind != Kind.Refresh then after == s && r == Failure(UnsupportedKind)
            else exists next ::
                   && IsRevoked(s.tokens[key].state, next, now)
                   && Updated(s, after, s.tokens[key].state, next, false, now, Success, r)
  {
    hide RunsTo, Performs, TrimSpace, StoreKey, TokenState.MarkRevoked, ResumeLogin, ResumeRefresh;
    TrimmedKey(digest, token);
    KeyIsSet(digest, token);
    var op := RevokeRefreshToken(token);
    var p := Begin(digest, cfg, op, now);
    var steps := Begun(digest, cfg, op, s, now, after, r);
    if p.Finished? {
      EndsHere(digest, cfg, p, s, now, after, r, steps);
      return;
    }
    var reply := OneCall(digest, cfg, p, s, now, after, r, steps);
    var p' := Resume(digest, cfg, p, reply, now);
    if p'.Finished? {
      EndsHere(digest, cfg, p', s, now, after, r, steps - 1);
      return;
    }
    var state := s.tokens[StoreKey(digest, token)].state;
    MarkedAsSaid(state, now);
    var next := state.MarkRevoked(now);
    hide Updated;
    RevokedAlike(state, next, now);
    UpdatingRuns(digest, cfg, state, next, RemainingTTL(now, next), false, Success, s, now, after, r, steps - 1);
  }

  lemma RevokedAlike(was: TokenState, state: TokenState, now: int)
    requires IsRevoked(was, state, now) && was.IsNormal()
    ensures state.IsNormal() && state.token == was.token && state.kind == was.kind && state.loginID == was.loginID
            && state.loginType == was.loginType && state.expiresAt == was.expiresAt
  {
  }

  // ----- all tokens of a subject, and sessions

  /** Exactly the subject's states of the kind are gone. */
  predicate AreGone(before: TokenMap, after: TokenMap, subject: LoginSubject, kinds: set<Kind>) {
    && (forall k :: k in after ==> k in before && after[k] == before[k])
    && (forall k :: k in before ==>
          (k !in after <==> before[k].state.Subject().Normalize() == subject.Normalize()
                            && before[k].state.kind in kinds))
  }

  lemma LogoutByLoginIDAlone(digest: Digest, cfg: Config, loginID: string, loginType: string, deleteSession: bool,
                             s: S.Store, now: int, after: S.Store, r: Result)
    requires Performs(digest, cfg, LogoutByLoginID(loginID, loginType, deleteSession), s, now, after, r)
    ensures var subject := LoginSubject(loginID, loginType);
            if TrimSpace(loginID) == "" then after == s && r == Failure(EmptyLoginID)
            else
              && r == Success
              && AreGone(s.tokens, after.tokens, subject,
                         if cfg.refresh.revokeOnLogout then {Access, Kind.Refresh} else {Access})
              && after.sessions == if deleteSession then s.sessions - {subject.Normalize()} else s.sessions
  {
    hide RunsTo, Performs, TrimSpace, LoginSubject.Normalize, SubjectOf, ResumeLogin, ResumeRefresh;
    SubjectIsMeant(loginID, loginType);
    var op := LogoutByLoginID(loginID, loginType, deleteSession);
    var p := Begin(digest, cfg, op, now);
    var steps := Begun(digest, cfg, op, s, now, after, r);
    if p.Finished? {
      EndsHere(digest, cfg, p, s, now, after, r, steps);
      return;
    }
    SweepingRuns(digest, cfg, p.requests, s, now, after, r, steps);
    SweptOut(cfg, SubjectOf(loginID, loginType), LoginSubject(loginID, loginType), deleteSession, s, now);
  }

  lemma SweptOut(cfg: Config, subject: LoginSubject, meant: LoginSubject, deleteSession: bool, s: S.Store, now: int)
    requires subject.Normalize() == meant.Normalize()
    ensures var requests := [S.DeleteAll(subject, {Access})]
                            + (if cfg.refresh.revokeOnLogout then [S.DeleteAll(subject, {Kind.Refresh})] else [])
                            + (if deleteSession then [S.DeleteSession(subject)] else []);
            var after := AllApplied(requests, s, now);
            && AreGone(s.tokens, after.tokens, meant,
                       if cfg.refresh.revokeOnLogout then {Access, Kind.Refresh} else {Access})
            && after.sessions == if deleteSession then s.sessions - {meant.Normalize()} else s.sessions
  {
    hide LoginSubject.Normalize, S.Selected, AreGone;
    var access := S.DeleteAll(subject, {Access});
    var refresh := if cfg.refresh.revokeOnLogout then [S.DeleteAll(subject, {Kind.Refresh})] else [];
    var sessions := if deleteSession then [S.DeleteSession(subject)] else [];
    AppliedInTurn([access] + refresh, sessions, s, now);
    AppliedInTurn([access], refresh, s, now);
    GoneInTurn(s.tokens, subject, meant, now);
  }

  lemma GoneInTurn(tokens: TokenMap, subject: LoginSubject, meant: LoginSubject, now: int)
    requires subject.Normalize() == meant.Normalize()
    ensures var first := S.ApplyTokens(tokens, now, S.DeleteAll(subject, {Access}));
            && AreGone(tokens, first, meant, {Access})
            && AreGone(tokens, S.ApplyTokens(first, now, S.DeleteAll(subject, {Kind.Refresh})), meant,
                       {Access, Kind.Refresh})
  {
    hide LoginSubject.Normalize;
  }

  lemma {:induction false} AppliedInTurn(first: seq<S.Request>, rest: seq<S.Request>, s: S.Store, now: int)
    ensures AllApplied(first + rest, s, now) == AllApplied(rest, AllApplied(first, s, now), now)
    decreases |first|
  {
    hide S.Apply;
    if first == [] {
      assert first + rest == rest;
    } else {
      assert (first + rest)[1..] == first[1..] + rest;
      AppliedInTurn(first[1..], rest, S.Apply(s, now, first[0]), now);
    }
  }

  /** A plain sequence of requests has been served. */
  function AllApplied(requests: seq<S.Request>, s: S.Store, now: int): S.Store {
    if requests == [] then s else AllApplied(requests[1..], S.Apply(s, now, requests[0]), now)
  }

  lemma {:induction false} SweepingRuns(digest: Digest, cfg: Config, requests: seq<S.Request>, s: S.Store, now: int,
                                        after: S.Store, r: Result, steps: nat)
    requires requests != [] && RunsTo(digest, cfg, Sweeping(requests), s, now, after, r, steps)
    requires forall q :: q in requests ==>
               q.DeleteAll? || q.DeleteSession? || (q.SaveSession? && !q.subject.IsZero())
    ensures after == AllApplied(requests, s, now) && r == Success
    decreases |requests|
  {
    hide RunsTo, S.Apply, LoginSubject.IsZero, ResumeLogin, ResumeRefresh;
    var p := Sweeping(requests);
    assert requests[0] in requests;
    var reply := OneCall(digest, cfg, p, s, now, after, r, steps);
    assert reply == S.Done;
    if |requests| == 1 {
      EndsHere(digest, cfg, Resume(digest, cfg, p, reply, now), S.Apply(s, now, requests[0]), now, after, r, steps - 1);
      assert requests[1..] == [];
    } else {
      SweepingRuns(digest, cfg, requests[1..], S.Apply(s, now, requests[0]), now, after, r, steps - 1);
    }
  }

  lemma RevokeRefreshByLoginIDAlone(digest: Digest, cfg: Config, loginID: string, loginType: string, s: S.Store,
                                    now: int, after: S.Store, r: Result)
    requires Performs(digest, cfg, RevokeRefreshByLoginID(loginID, loginType), s, now, after, r)
    ensures if TrimSpace(loginID) == "" then after == s && r == Failure(EmptyLoginID)
            else
              && r == Success && after.sessions == s.sessions
              && AreGone(s.tokens, after.tokens, LoginSubject(loginID, loginType), {Kind.Refresh})
  {
    hide RunsTo, Performs, TrimSpace, LoginSubject.Normalize, SubjectOf, ResumeLogin, ResumeRefresh;
    SubjectIsMeant(loginID, loginType);
    var op := RevokeRefreshByLoginID(loginID, loginType);
    var p := Begin(digest, cfg, op, now);
    var steps := Begun(digest, cfg, op, s, now, after, r);
    if p.Finished? {
      EndsHere(digest, cfg, p, s, now, after, r, steps);
    } else {
      SweepingRuns(digest, cfg, p.requests, s, now, after, r, steps);
    }
  }

  /** Lists the subject's visible access states, each once. */
  lemma ListTokenStatesAlone(digest: Digest, cfg: Config, loginID: string, loginType: string, s: S.Store, now: int,
                             after: S.Store, r: Result)
    requires Performs(digest, cfg, ListTokenStates(loginID, loginType), s, now, after, r)
    ensures after == s
    ensures if TrimSpace(loginID) == "" then r == Failure(EmptyLoginID)
            else r.Listing? && S.Lists(s.tokens, LoginSubject(loginID, loginType), {Access}, now, r.states)
  {
    hide RunsTo, Performs, TrimSpace, LoginSubject.Normalize, SubjectOf, ResumeLogin, ResumeRefresh, S.Lists, Unexpired;
    SubjectIsMeant(loginID, loginType);
    var op := ListTokenStates(loginID, loginType);
    var p := Begin(digest, cfg, op, now);
    var steps := Begun(digest, cfg, op, s, now, after, r);
    if p.Finished? {
      EndsHere(digest, cfg, p, s, now, after, r, steps);
      return;
    }
    var reply := OneCall(digest, cfg, p, s, now, after, r, steps);
    ListedFor(s.tokens, SubjectOf(loginID, loginType), LoginSubject(loginID, loginType), reply.states, now);
    EndsHere(digest, cfg, Resume(digest, cfg, p, reply, now), s, now, after, r, steps - 1);
  }

  lemma ListedFor(tokens: TokenMap, subject: LoginSubject, meant: LoginSubject, states: seq<TokenState>, now: int)
    requires S.Lists(tokens, subject, {Access}, now, states) && subject.Normalize() == meant.Normalize()
    ensures S.Lists(tokens, meant, {Access}, now, states) && Unexpired(states, now) == states
  {
    hide LoginSubject.Normalize;
    AllUnexpired(states, now);
  }

  lemma {:induction false} AllUnexpired(states: seq<TokenState>, now: int)
    requires forall i :: 0 <= i < |states| ==> !states[i].IsExpired(now)
    ensures Unexpired(states, now) == states
  {
    if states != [] {
      AllUnexpired(states[1..], now);
    }
  }

  lemma SaveSessionAlone(digest: Digest, cfg: Config, subject: LoginSubject, data: map<string, string>, s: S.Store,
                         now: int, after: S.Store, r: Result)
    requires Performs(digest, cfg, SaveSession(subject, data), s, now, after, r)
    ensures var deadline := if cfg.timeout > 0 then Some(now + cfg.timeout) else None;
            if TrimSpace(subject.loginID) == "" then after == s && r == Failure(EmptySessionID)
            else
              && r == Success
              && after == s.(sessions := s.sessions[subject.Normalize() := S.SessionEntry(data, deadline)])
  {
    hide RunsTo, Performs, TrimSpace, LoginSubject.Normalize, LoginSubject.IsZero, ResumeLogin, ResumeRefresh;
    ZeroSubject(subject);
    NormalizeTwice(subject);
    var op := SaveSession(subject, data);
    var p := Begin(digest, cfg, op, now);
    var steps := Begun(digest, cfg, op, s, now, after, r);
    if p.Finished? {
      EndsHere(digest, cfg, p, s, now, after, r, steps);
    } else {
      SweepingRuns(digest, cfg, p.requests, s, now, after, r, steps);
    }
  }

  lemma DeleteSessionAlone(digest: Digest, cfg: Config, loginID: string, loginType: string, s: S.Store, now: int,
                           after: S.Store, r: Result)
    requires Performs(digest, cfg, DeleteSession(loginID, loginType), s, now, after, r)
    ensures if TrimSpace(loginID) == "" then after == s && r == Failure(EmptySessionID)
            else
              && r == Success
              && after == s.(sessions := s.sessions - {LoginSubject(loginID, loginType).Normalize()})
  {
    hide RunsTo, Performs, TrimSpace, LoginSubject.Normalize, SubjectOf, ResumeLogin, ResumeRefresh;
    SubjectIsMeant(loginID, loginType);
    var op := DeleteSession(loginID, loginType);
    var p := Begin(digest, cfg, op, now);
    var steps := Begun(digest, cfg, op, s, now, after, r);
    if p.Finished? {
      EndsHere(digest, cfg, p, s, now, after, r, steps);
    } else {
      SweepingRuns(digest, cfg, p.requests, s, now, after, r, steps);
    }
  }

  // ----- every operation comes to its end

  /** How far a point is from the end: its stage; then, of the tokens to log out and of the calls for one of them, or
      of the keys to delete or requests to serve, how many remain. */
  function Stage(p: Point): nat {
    match p
    case Finished(_) => 0
    case LoadingRefresh(_) => 20
    case Claiming(_) => 19
    case DroppingOldAccess(_) => 18
    case TakingNonce(_, _) => 17
    case ReplacingAccess(_) => 16
    case ReplacingRefresh(_) => 15
    case ReplacingOthers(_, _) => 14
    case SavingAccess(_) => 13
    case SyncingSession(_) => 12
    case SavingRefresh(_, _, _, _, _) => 11
    case Rotating(_, _, _, _) => 11
    case Finalizing(_, _, _, _) => 11
    case UndoingLogin(_) => 10
    case UndoingRefresh(_, _, _) => 10
    case Restoring(_, _, _) => 9
    case Loading(_, _) => 8
    case LoadingForRevoke(_) => 8
    case FindingDevice(_, _) => 8
    case Updating(_, _, _, _, _) => 7
    case SyncingLifetime(_, _, _) => 6
    case Ending(_) => 5
    case FindingLinked(_) => 5
    case DroppingLinked(_, _) => 5
    case _ => 1
  }

  function Remaining(p: Point): nat {
    match p
    case Ending(todo) => |todo|
    case FindingLinked(todo) => |todo|
    case DroppingLinked(todo, _) => |todo|
    case ReplacingOthers(_, others) => |others|
    case Sweeping(requests) => |requests|
    case _ => 0
  }

  function Phase(p: Point): nat {
    match p
    case Ending(_) => 2
    case FindingLinked(_) => 1
    case _ => 0
  }

  function Dropping(p: Point): nat {
    if p.DroppingLinked? then |p.linked| else 0
  }

  /** The point is closer to the end. */
  predicate Closer(p': Point, p: Point) {
    || Stage(p') < Stage(p)
    || (Stage(p') == Stage(p)
        && (|| Remaining(p') < Remaining(p)
            || (Remaining(p') == Remaining(p)
                && (Phase(p') < Phase(p) || (Phase(p') == Phase(p) && Dropping(p') < Dropping(p))))))
  }

  /** Every reply, whatever the store and the other clients have been doing, brings a call closer to its end: no
      operation goes on for ever, and none is stuck. */
  lemma EveryReplyHelps(digest: Digest, cfg: Config, p: Point, reply: S.Reply, now: int)
    requires Ready(p)
    ensures var p' := Resume(digest, cfg, p, reply, now); Closer(p', p) && (p'.Finished? || Ready(p'))
  {
    hide ResumeLogin, ResumeRefresh, ResumeOther, Closer, Ready;
    if IsLoginPoint(p) {
      LoginReplyHelps(digest, cfg, p, reply, now);
    } else if IsRefreshPoint(p) {
      RefreshReplyHelps(digest, cfg, p, reply, now);
    } else {
      OtherReplyHelps(digest, cfg, p, reply, now);
    }
  }

  lemma LoginReplyHelps(digest: Digest, cfg: Config, p: Point, reply: S.Reply, now: int)
    requires Ready(p) && IsLoginPoint(p)
    ensures var p' := ResumeLogin(digest, cfg, p, reply, now); Closer(p', p) && (p'.Finished? || Ready(p'))
  {
    hide TrimSpace, StoreKey, AccessState;
  }

  lemma RefreshReplyHelps(digest: Digest, cfg: Config, p: Point, reply: S.Reply, now: int)
    requires Ready(p) && IsRefreshPoint(p)
    ensures var p' := ResumeRefresh(digest, cfg, p, reply, now); Closer(p', p) && (p'.Finished? || Ready(p'))
  {
    hide TrimSpace, StoreKey, AccessState, ValidateNext, CheckRefresh;
  }

  lemma OtherReplyHelps(digest: Digest, cfg: Config, p: Point, reply: S.Reply, now: int)
    requires Ready(p) && !IsLoginPoint(p) && !IsRefreshPoint(p)
    ensures var p' := ResumeOther(digest, cfg, p, reply, now); Closer(p', p) && (p'.Finished? || Ready(p'))
  {
    hide TrimSpace, StoreKey, LinkedKeys, OnDevice, Unexpired, RemainingTTL;
  }

  lemma BegunIsReady(digest: Digest, cfg: Config, op: Operation, now: int)
    ensures var p := Begin(digest, cfg, op, now); p.Finished? || Ready(p)
  {
    hide TrimSpace, StoreKey, AccessState;
  }

  /** The part of a listing that concerns some of the keys. */
  ghost predicate ListsAmong(tokens: TokenMap, subject: LoginSubject, kinds: set<Kind>, now: int,
                             keys: set<TokenValue>, states: seq<TokenState>)
  {
    && (forall i :: 0 <= i < |states| ==>
          var k := states[i].token;
          k in keys && S.IsLive(tokens, k, now) && S.Selected(tokens[k], subject, kinds)
          && states[i] == tokens[k].state)
    && (forall k :: k in keys && S.IsLive(tokens, k, now) && S.Selected(tokens[k], subject, kinds) ==>
          tokens[k].state in states)
    && (forall i, j :: 0 <= i < j < |states| ==> states[i].token != states[j].token)
  }

  lemma {:induction false} CanBeListed(s: S.Store, subject: LoginSubject, kinds: set<Kind>, now: int,
                                       keys: set<TokenValue>) returns (states: seq<TokenState>)
    requires Sound(s)
    ensures ListsAmong(s.tokens, subject, kinds, now, keys, states)
    decreases |keys|
  {
    hide S.Selected, S.Entry.IsExpired;
    if keys == {} {
      return [];
    }
    var k :| k in keys;
    var rest := CanBeListed(s, subject, kinds, now, keys - {k});
    states := rest;
    if S.IsLive(s.tokens, k, now) && S.Selected(s.tokens[k], subject, kinds) {
      states := rest + [s.tokens[k].state];
      assert states[|rest|] == s.tokens[k].state;
      assert forall state :: state in rest ==> state in states;
    }
  }

  lemma CanBeAnswered(s: S.Store, now: int, q: S.Request) returns (reply: S.Reply)
    requires Sound(s)
    ensures S.Answers(s, now, q, reply)
  {
    match q
    case Save(state, _) => reply := if S.CanSave(state) then S.Done else S.Failed;
    case Get(key) => reply := if S.IsLive(s.tokens, key, now) then S.Found(s.tokens[key].state) else S.NotFound;
    case Consume(key, _) =>
      reply := if S.IsLive(s.tokens, key, now) then S.Found(s.tokens[key].state) else S.NotFound;
    case Swap(expected, next, _) =>
      reply := if expected.token != next.token || !S.CanSave(next) then S.Failed
               else S.Swapped(S.Matches(s.tokens, expected, now));
    case Find(subject, kinds) =>
      var states := CanBeListed(s, subject, kinds, now, s.tokens.Keys);
      hide S.Selected, S.Entry.IsExpired;
      reply := S.States(states);
    case SaveSession(subject, _, _) => reply := if subject.IsZero() then S.Failed else S.Done;
    case EnsureSession(subject, _) => reply := if subject.IsZero() then S.Failed else S.Done;
    case _ => reply := S.Done;
  }

  lemma StaysSound(s: S.Store, now: int, q: S.Request)
    requires Sound(s)
    ensures Sound(S.Apply(s, now, q))
  {
  }

  /** From any point, run alone, an operation comes to an end. */
  lemma {:induction false} RunEnds(digest: Digest, cfg: Config, p: Point, s: S.Store, now: int)
    returns (after: S.Store, r: Result, steps: nat)
    requires Sound(s) && (p.Finished? || Ready(p))
    ensures RunsTo(digest, cfg, p, s, now, after, r, steps)
    decreases Stage(p), Remaining(p), Phase(p), Dropping(p)
  {
    if p.Finished? {
      return s, p.result, 0;
    }
    hide Pending, Resume, S.Apply, S.Answers, Sound, Stage, Remaining, Phase, Dropping;
    var q := Pending(digest, cfg, p);
    var reply := CanBeAnswered(s, now, q);
    StaysSound(s, now, q);
    EveryReplyHelps(digest, cfg, p, reply, now);
    after, r, steps := RunEnds(digest, cfg, Resume(digest, cfg, p, reply, now), S.Apply(s, now, q), now);
    steps := steps + 1;
  }

  /** Every operation can be performed on every store. */
  lemma EveryOperationEnds(digest: Digest, cfg: Config, op: Operation, s: S.Store, now: int)
    requires Sound(s)
    ensures exists after, r :: Performs(digest, cfg, op, s, now, after, r)
  {
    BegunIsReady(digest, cfg, op, now);
    hide RunsTo, Begin, Ready, Sound;
    var after, r, steps := RunEnds(digest, cfg, Begin(digest, cfg, op, now), s, now);
    assert Performs(digest, cfg, op, s, now, after, r);
  }
}
