/** Rotation under the default settings: what a login with refresh and any number of rotations, one after
    the other, leave in the store. */
module Lineage {
  import opened Tokens
  import opened ManagerSteps
  import opened Manager
  import S = AtomicStore

  /** The settings that matter here are the default ones; the lifetimes are free. */
  predicate Rotating(cfg: Config) {
    cfg.concurrent && !cfg.requireNonce && cfg.refresh.rotate && cfg.refresh.revokeAccess
  }

  /** One link: a stored refresh state of the given access, predecessor and status. */
  predicate IsLink(tokens: TokenMap, k: TokenValue, access: TokenValue, from: TokenValue, status: Status) {
    k in tokens &&
    var state := tokens[k].state;
    && state.token == k && k != "" && state.kind == Kind.Refresh && state.status == status
    && state.refresh.Some? && state.refresh.value.accessToken == access && state.refresh.value.rotatedFrom == from
  }

  predicate LinkOk(tokens: TokenMap, rs: seq<TokenValue>, accesses: seq<TokenValue>, i: nat)
    requires i < |rs| == |accesses|
  {
    IsLink(tokens, rs[i], accesses[i], if i == 0 then "" else rs[i - 1], if i == |rs| - 1 then Active else Consumed)
  }

  predicate Distinct(s: seq<TokenValue>) {
    forall i, j :: 0 <= i < j < |s| ==> s[i] != s[j]
  }

  /** A chain of refresh tokens, oldest first, with the access token issued beside each: every refresh names its
      predecessor, all but the last are consumed and the last is active; of the access tokens only the last is
      stored. */
  ghost predicate Chain(tokens: TokenMap, rs: seq<TokenValue>, accesses: seq<TokenValue>) {
    && |rs| == |accesses| > 0 && Distinct(rs + accesses)
    && (forall i :: 0 <= i < |rs| ==> LinkOk(tokens, rs, accesses, i))
    && (forall i :: 0 <= i < |accesses| - 1 ==> accesses[i] !in tokens)
    && var last := accesses[|accesses| - 1];
       last in tokens && tokens[last].state.kind == Access && tokens[last].state.status == Active
  }

  /** The chain followed from a token back to the first issue. */
  function Ancestors(tokens: TokenMap, k: TokenValue, limit: nat): seq<TokenValue>
    decreases limit
  {
    if limit == 0 || k !in tokens || k == "" then []
    else [k] + Ancestors(tokens, Predecessor(tokens[k].state), limit - 1)
  }

  function Predecessor(state: TokenState): TokenValue {
    if state.refresh.Some? then state.refresh.value.rotatedFrom else ""
  }

  function Reversed(s: seq<TokenValue>): seq<TokenValue> {
    if s == [] then [] else [s[|s| - 1]] + Reversed(s[..|s| - 1])
  }

  /** Following RotatedFrom from any link visits all earlier ones in order and ends at the first, however
      far one is prepared to go. */
  lemma {:induction false} ChainIsFollowed(tokens: TokenMap, rs: seq<TokenValue>, accesses: seq<TokenValue>, n: nat,
                                           limit: nat)
    requires Chain(tokens, rs, accesses) && n < |rs| && n < limit
    ensures Ancestors(tokens, rs[n], limit) == Reversed(rs[..n + 1])
    decreases n
  {
    assert LinkOk(tokens, rs, accesses, n);
    assert rs[..n + 1][..n] == rs[..n];
    if n > 0 {
      ChainIsFollowed(tokens, rs, accesses, n - 1, limit - 1);
    } else {
      assert rs[..0] == [];
    }
  }

  // ----- one rotation

  /** The head of a chain stands for a user, and lives for the configured time from its issue. */
  predicate HeadOk(cfg: Config, tokens: TokenMap, k: TokenValue, at: int) {
    k in tokens &&
    var expiresAt := if cfg.refresh.timeout > 0 then Some(at + cfg.refresh.timeout) else None;
    && TrimSpace(tokens[k].state.loginID) != ""
    && tokens[k].state.expiresAt == expiresAt && tokens[k].deadline == expiresAt
  }

  predicate Unexpired(cfg: Config, issued: int, now: int) {
    issued <= now && (cfg.refresh.timeout > 0 ==> now < issued + cfg.refresh.timeout)
  }

  lemma RotationIsGranted(digest: Digest, cfg: Config, tokens: TokenMap, rs: seq<TokenValue>, accesses: seq<TokenValue>,
                          input: RefreshInput, issued: int, now: int)
    requires Safe(digest) && Rotating(cfg) && Chain(tokens, rs, accesses)
    requires rs[|rs| - 1] == StoreKey(digest, input.refreshToken)
    requires HeadOk(cfg, tokens, rs[|rs| - 1], issued) && Unexpired(cfg, issued, now)
    requires TrimSpace(input.nextAccess) != "" && TrimSpace(input.nextRefresh) != ""
    requires var na, nr := StoreKey(digest, input.nextAccess), StoreKey(digest, input.nextRefresh);
             na != nr && na !in rs + accesses && nr !in rs + accesses
    ensures RefreshRefusal(digest, cfg, tokens, input, now).None?
  {
    hide TrimSpace;
    var k := rs[|rs| - 1];
    KeyIsSet(digest, input.refreshToken);
    TrimmedKey(digest, input.refreshToken);
    TrimmedKey(digest, input.nextAccess);
    TrimmedKey(digest, input.nextRefresh);
    assert LinkOk(tokens, rs, accesses, |rs| - 1);
    assert k in rs + accesses && accesses[|rs| - 1] in rs + accesses;
    assert BeginRefresh(cfg, Trimmed(input)).LoadingRefresh?;
  }

  /** What a rotation writes: the claimed refresh, the new access and the new refresh. */
  ghost predicate Writes(cfg: Config, claimed: S.Entry, was: S.Entry, access: S.Entry, next: S.Entry,
                         k: TokenValue, na: TokenValue, nr: TokenValue, now: int) {
    && claimed.state == was.state.(status := Consumed, nonce := claimed.state.nonce)
    && access.state.token == na && access.state.kind == Access && access.state.status == Active
    && HeadOk(cfg, map[nr := next], nr, now) && IsLink(map[nr := next], nr, na, k, Active)
  }

  lemma RotationWrites(digest: Digest, cfg: Config, tokens: TokenMap, input: RefreshInput, now: int)
    returns (claimed: S.Entry, access: S.Entry, next: S.Entry)
    requires Safe(digest) && Rotating(cfg) && TrimSpace(input.nextRefresh) != ""
    requires var k := StoreKey(digest, input.refreshToken);
             k in tokens && TrimSpace(tokens[k].state.loginID) != "" && OldAccess(tokens[k].state) != ""
    ensures var k, na := StoreKey(digest, input.refreshToken), StoreKey(digest, input.nextAccess);
            var nr := StoreKey(digest, input.nextRefresh);
            && Writes(cfg, claimed, tokens[k], access, next, k, na, nr, now)
            && Refreshed(digest, cfg, tokens, input, now)
               == (tokens[k := claimed] - {OldAccess(tokens[k].state)})[na := access][nr := next]
  {
    hide TrimSpace, StoreKey, LoginSubject.Normalize;
    var k := StoreKey(digest, input.refreshToken);
    var state, trimmed := tokens[k].state, Trimmed(input);
    var l := NextLogin(state, trimmed);
    KeyIsSet(digest, input.nextRefresh);
    TrimmedKey(digest, input.nextAccess);
    TrimmedKey(digest, input.nextRefresh);
    TrimmedKey(digest, input.refreshToken);
    AccessOwner(digest, cfg, l, now);
    claimed := Spent(tokens, k, now)[k];
    access := S.EntryFor(AccessState(digest, cfg, l, now), if cfg.timeout > 0 then cfg.timeout else 0, now);
    var refresh := NextRefresh(digest, cfg, state, input, now);
    next := S.EntryFor(refresh, RemainingTTL(now, refresh), now);
  }

  lemma AccessOwner(digest: Digest, cfg: Config, l: LoginInput, now: int)
    requires TrimSpace(l.loginID) != ""
    ensures var access := AccessState(digest, cfg, l, now);
            TrimSpace(access.loginID) != "" && access.loginType != "" && access.Normalize() == access
  {
    hide TrimSpace, StoreKey;
    TrimIdempotent(l.loginID);
  }

  lemma ChainExtends(cfg: Config, tokens: TokenMap, rs: seq<TokenValue>, accesses: seq<TokenValue>, claimed: S.Entry,
                     access: S.Entry, next: S.Entry, na: TokenValue, nr: TokenValue, now: int)
    requires Chain(tokens, rs, accesses) && na != nr && na !in rs + accesses && nr !in rs + accesses
    requires rs[|rs| - 1] in tokens
    requires Writes(cfg, claimed, tokens[rs[|rs| - 1]], access, next, rs[|rs| - 1], na, nr, now)
    ensures var after := (tokens[rs[|rs| - 1] := claimed] - {accesses[|rs| - 1]})[na := access][nr := next];
            Chain(after, rs + [nr], accesses + [na]) && HeadOk(cfg, after, nr, now)
  {
    hide TrimSpace;
    var n := |rs|;
    var after := (tokens[rs[n - 1] := claimed] - {accesses[n - 1]})[na := access][nr := next];
    var rs', accesses' := rs + [nr], accesses + [na];
    assert LinkOk(tokens, rs, accesses, n - 1);
    DistinctExtends(rs, accesses, nr, na);
    forall i | 0 <= i < n + 1 ensures LinkOk(after, rs', accesses', i) {
      if i < n {
        assert LinkOk(tokens, rs, accesses, i);
        assert rs[i] == (rs + accesses)[i] && accesses[n - 1] == (rs + accesses)[n + n - 1];
        assert i < n - 1 ==> rs[i] != rs[n - 1] by { assert rs[n - 1] == (rs + accesses)[n - 1]; }
      }
    }
    forall i | 0 <= i < n ensures accesses'[i] !in after {
      assert accesses[i] == (rs + accesses)[n + i] && rs[n - 1] == (rs + accesses)[n - 1];
    }
  }

  lemma DistinctExtends(rs: seq<TokenValue>, accesses: seq<TokenValue>, r: TokenValue, a: TokenValue)
    requires |rs| == |accesses| && Distinct(rs + accesses) && a != r && a !in rs + accesses && r !in rs + accesses
    ensures Distinct((rs + [r]) + (accesses + [a]))
  {
    var s, n := (rs + [r]) + (accesses + [a]), |rs|;
    forall i, j | 0 <= i < j < |s| ensures s[i] != s[j] {
      assert s[i] == if i < n then (rs + accesses)[i] else if i == n then r
                     else if i < 2 * n + 1 then (rs + accesses)[i - 1] else a;
      assert s[j] == if j < n then (rs + accesses)[j] else if j == n then r
                     else if j < 2 * n + 1 then (rs + accesses)[j - 1] else a;
    }
  }

  /** A rotation extends the chain by one: its token is consumed, its access token gives way to the new one, and
      the new refresh token names it. */
  lemma RotationExtendsChain(digest: Digest, cfg: Config, tokens: TokenMap, rs: seq<TokenValue>,
                             accesses: seq<TokenValue>, input: RefreshInput, issued: int, now: int)
    requires Safe(digest) && Rotating(cfg) && Chain(tokens, rs, accesses) && "" !in accesses
    requires rs[|rs| - 1] == StoreKey(digest, input.refreshToken) && HeadOk(cfg, tokens, rs[|rs| - 1], issued)
    requires TrimSpace(input.nextRefresh) != ""
    requires var na, nr := StoreKey(digest, input.nextAccess), StoreKey(digest, input.nextRefresh);
             na != nr && na !in rs + accesses && nr !in rs + accesses
    ensures var after := Refreshed(digest, cfg, tokens, input, now);
            var na, nr := StoreKey(digest, input.nextAccess), StoreKey(digest, input.nextRefresh);
            Chain(after, rs + [nr], accesses + [na]) && HeadOk(cfg, after, nr, now)
  {
    hide TrimSpace, StoreKey, Refreshed, Writes;
    assert LinkOk(tokens, rs, accesses, |rs| - 1);
    assert accesses[|rs| - 1] in accesses;
    var claimed, access, next := RotationWrites(digest, cfg, tokens, input, now);
    ChainExtends(cfg, tokens, rs, accesses, claimed, access, next, StoreKey(digest, input.nextAccess),
                 StoreKey(digest, input.nextRefresh), now);
  }

  // ----- any number of rotations

  /** The tokens a caller brings to a login or a rotation, and when. */
  datatype Issue = Issue(access: TokenValue, refresh: TokenValue, device: string, metadata: string, at: int)

  function RefreshKeys(digest: Digest, issues: seq<Issue>): seq<TokenValue> {
    seq(|issues|, i requires 0 <= i < |issues| => StoreKey(digest, issues[i].refresh))
  }

  function AccessKeys(digest: Digest, issues: seq<Issue>): seq<TokenValue> {
    seq(|issues|, i requires 0 <= i < |issues| => StoreKey(digest, issues[i].access))
  }

  /** The tokens are real and all different, and each call comes before the last refresh token expires. */
  ghost predicate WellPlanned(digest: Digest, cfg: Config, issues: seq<Issue>) {
    && issues != []
    && (forall i :: 0 <= i < |issues| ==> TrimSpace(issues[i].access) != "" && TrimSpace(issues[i].refresh) != "")
    && Distinct(RefreshKeys(digest, issues) + AccessKeys(digest, issues))
    && (forall i :: 0 < i < |issues| ==> Unexpired(cfg, issues[i - 1].at, issues[i].at))
  }

  function InputFor(previous: Issue, next: Issue): RefreshInput {
    RefreshInput(previous.refresh, next.access, next.refresh, next.device, next.metadata)
  }

  /** The store after LoginWithRefresh with the first tokens and a Refresh with each of the others in turn,
      as the Manager's methods leave it. */
  function Rotated(digest: Digest, cfg: Config, tokens: TokenMap, l: LoginInput, issues: seq<Issue>): TokenMap
    requires issues != []
    decreases |issues|
  {
    var n, last := |issues| - 1, issues[|issues| - 1];
    if n == 0 then
      var login := l.(token := last.access);
      var refresh := NewRefreshState(digest, cfg, last.refresh, AccessState(digest, cfg, login, last.at), last.at);
      LoggedIn(digest, cfg, tokens, login, "", last.at)
        [refresh.token := S.EntryFor(refresh, RemainingTTL(last.at, refresh), last.at)]
    else
      var before, input := Rotated(digest, cfg, tokens, l, issues[..n]), InputFor(issues[n - 1], last);
      if StoreKey(digest, input.refreshToken) in before then Refreshed(digest, cfg, before, input, last.at) else before
  }

  lemma LoginStartsChain(digest: Digest, cfg: Config, tokens: TokenMap, l: LoginInput, issues: seq<Issue>)
    requires Safe(digest) && Rotating(cfg) && TrimSpace(l.loginID) != "" && WellPlanned(digest, cfg, issues)
    requires |issues| == 1
    ensures Chain(Rotated(digest, cfg, tokens, l, issues), RefreshKeys(digest, issues), AccessKeys(digest, issues))
    ensures HeadOk(cfg, Rotated(digest, cfg, tokens, l, issues), RefreshKeys(digest, issues)[0], issues[0].at)
  {
    hide TrimSpace, StoreKey;
    var first := issues[0];
    AccessOwner(digest, cfg, l.(token := first.access), first.at);
    KeyIsSet(digest, first.refresh);
    KeyIsSet(digest, first.access);
    var rs, accesses := RefreshKeys(digest, issues), AccessKeys(digest, issues);
    assert (rs + accesses)[0] == rs[0] && (rs + accesses)[1] == accesses[0];
    assert LinkOk(Rotated(digest, cfg, tokens, l, issues), rs, accesses, 0);
  }

  lemma PlannedPrefix(digest: Digest, cfg: Config, issues: seq<Issue>)
    requires Safe(digest) && WellPlanned(digest, cfg, issues) && |issues| > 1
    ensures var n := |issues| - 1;
            var rs, accesses := RefreshKeys(digest, issues[..n]), AccessKeys(digest, issues[..n]);
            var na, nr := StoreKey(digest, issues[n].access), StoreKey(digest, issues[n].refresh);
            && WellPlanned(digest, cfg, issues[..n]) && "" !in accesses
            && RefreshKeys(digest, issues) == rs + [nr] && AccessKeys(digest, issues) == accesses + [na]
            && na != nr && na !in rs + accesses && nr !in rs + accesses
  {
    hide TrimSpace, StoreKey, Unexpired;
    var n := |issues| - 1;
    var rs, accesses := RefreshKeys(digest, issues[..n]), AccessKeys(digest, issues[..n]);
    var all := RefreshKeys(digest, issues) + AccessKeys(digest, issues);
    forall i | 0 <= i < n ensures accesses[i] != "" { KeyIsSet(digest, issues[i].access); }
    assert forall i :: 0 <= i < n ==> (rs + accesses)[i] == all[i];
    assert forall i :: n <= i < 2 * n ==> (rs + accesses)[i] == all[i + 1];
    assert all[n] == StoreKey(digest, issues[n].refresh) && all[2 * n + 1] == StoreKey(digest, issues[n].access);
  }

  lemma NextRotation(digest: Digest, cfg: Config, tokens: TokenMap, l: LoginInput, issues: seq<Issue>)
    requires Safe(digest) && Rotating(cfg) && WellPlanned(digest, cfg, issues) && |issues| > 1
    requires var before, prefix := Rotated(digest, cfg, tokens, l, issues[..|issues| - 1]), issues[..|issues| - 1];
             && Chain(before, RefreshKeys(digest, prefix), AccessKeys(digest, prefix))
             && HeadOk(cfg, before, RefreshKeys(digest, prefix)[|prefix| - 1], issues[|issues| - 2].at)
    ensures var n, after := |issues| - 1, Rotated(digest, cfg, tokens, l, issues);
            && Chain(after, RefreshKeys(digest, issues), AccessKeys(digest, issues))
            && HeadOk(cfg, after, RefreshKeys(digest, issues)[n], issues[n].at)
            && RefreshRefusal(digest, cfg, Rotated(digest, cfg, tokens, l, issues[..n]),
                              InputFor(issues[n - 1], issues[n]), issues[n].at).None?
  {
    hide TrimSpace, StoreKey, Chain, HeadOk, Refreshed, RefreshRefusal, Rotating, Safe, Distinct;
    var n := |issues| - 1;
    var before, input := Rotated(digest, cfg, tokens, l, issues[..n]), InputFor(issues[n - 1], issues[n]);
    var rs, accesses := RefreshKeys(digest, issues[..n]), AccessKeys(digest, issues[..n]);
    PlannedPrefix(digest, cfg, issues);
    HeadIsStored(before, rs, accesses);
    RotationIsGranted(digest, cfg, before, rs, accesses, input, issues[n - 1].at, issues[n].at);
    RotationExtendsChain(digest, cfg, before, rs, accesses, input, issues[n - 1].at, issues[n].at);
  }

  /** For any n: after a login with refresh and n rotations in time, every rotation has been granted, and the
      store holds one access token and one active refresh token of the chain; all earlier refresh tokens are
      there, consumed, and following RotatedFrom from the last visits them all in order down to the first. */
  lemma {:induction false} RotationLineage(digest: Digest, cfg: Config, tokens: TokenMap, l: LoginInput,
                                           issues: seq<Issue>)
    requires Safe(digest) && Rotating(cfg) && TrimSpace(l.loginID) != "" && WellPlanned(digest, cfg, issues)
    ensures var after, n := Rotated(digest, cfg, tokens, l, issues), |issues| - 1;
            var rs := RefreshKeys(digest, issues);
            && Chain(after, rs, AccessKeys(digest, issues)) && HeadOk(cfg, after, rs[n], issues[n].at)
            && Ancestors(after, rs[n], |rs| + 1) == Reversed(rs)
    ensures forall i :: 0 < i < |issues| ==>
              RefreshRefusal(digest, cfg, Rotated(digest, cfg, tokens, l, issues[..i]),
                             InputFor(issues[i - 1], issues[i]), issues[i].at).None?
    decreases |issues|
  {
    hide TrimSpace, StoreKey, Chain, HeadOk, Rotated, RefreshRefusal, Rotating, Safe, Ancestors, Reversed, Distinct;
    var n, rs := |issues| - 1, RefreshKeys(digest, issues);
    if n == 0 {
      LoginStartsChain(digest, cfg, tokens, l, issues);
    } else {
      PlannedPrefix(digest, cfg, issues);
      RotationLineage(digest, cfg, tokens, l, issues[..n]);
      NextRotation(digest, cfg, tokens, l, issues);
      forall i | 0 < i < n ensures issues[..n][..i] == issues[..i] {}
    }
    FollowAll(Rotated(digest, cfg, tokens, l, issues), rs, AccessKeys(digest, issues));
  }

  lemma HeadIsStored(tokens: TokenMap, rs: seq<TokenValue>, accesses: seq<TokenValue>)
    requires Chain(tokens, rs, accesses)
    ensures |rs| > 0 && rs[|rs| - 1] in tokens
  {
    assert LinkOk(tokens, rs, accesses, |rs| - 1);
  }

  lemma FollowAll(tokens: TokenMap, rs: seq<TokenValue>, accesses: seq<TokenValue>)
    requires Chain(tokens, rs, accesses)
    ensures |rs| > 0 && Ancestors(tokens, rs[|rs| - 1], |rs| + 1) == Reversed(rs)
  {
    ChainIsFollowed(tokens, rs, accesses, |rs| - 1, |rs| + 1);
    assert rs[..|rs|] == rs;
  }
}
