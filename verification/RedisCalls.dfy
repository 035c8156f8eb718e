/** The calls of the Redis token store from request to script: what a call was asked, what its read found, and what
    its script then does to the server, whatever else happens in between. */
module RedisCalls {
  import opened Tokens
  import S = AtomicStore
  import opened RedisTokens

  /** The client's call begins with step m and goes on to its script, which is step n. */
  predicate CallAt(worlds: seq<World>, actions: seq<Action>, c: nat, m: nat, n: nat)
    requires |worlds| == |actions| + 1
  {
    && m < n < |actions| && c !in worlds[m].pending && c in worlds[m + 1].pending && actions[n] == Run(c)
    && forall k :: m < k < n ==> actions[k] != Run(c)
  }

  lemma {:induction false} StillPending(worlds: seq<World>, actions: seq<Action>, c: nat, m: nat, k: nat)
    requires Execution(worlds, actions) && m < k < |worlds| && c in worlds[m + 1].pending
    requires forall i :: m < i < k ==> actions[i] != Run(c)
    ensures c in worlds[k].pending && worlds[k].pending[c] == worlds[m + 1].pending[c]
    ensures worlds[m].now <= worlds[k].now
    decreases k
  {
    hide AfterReadToSave, AfterReadToConsume, AfterReadToFind, RunScript, Seen;
    if m + 1 < k {
      StillPending(worlds, actions, c, m, k - 1);
    }
  }

  /** What a client is shown: the stored state, in the present form, and consumed where it is active under a marker. */
  lemma ShownAsMarked(s: Server, t: TokenValue)
    requires t in s.cells
    ensures var state, marked := s.cells[t].raw.Normalize(), t in s.markers && s.markers[t] != "";
            && t in Shown(s) && Shown(s)[t].(status := state.status) == state
            && Shown(s)[t].status == (if marked && state.status == Active then Consumed else state.status)
  {
    hide TokenState.Normalize;
  }

  /** A script takes two reads of a token for the same exactly if state and marker are the same. */
  lemma ReadsTellApart(s: Server, s': Server, t: TokenValue)
    ensures Seen(s, t) == Seen(s', t) <==>
              && (t in s.cells <==> t in s'.cells)
              && (t in s.cells && t in s'.cells ==> s.cells[t].raw == s'.cells[t].raw)
              && (if t in s.markers then s.markers[t] else "") == (if t in s'.markers then s'.markers[t] else "")
  {
  }

  /** A subject's own index is its own. The older one may be shared, but not among login types without a colon. */
  lemma IndexesAreSeparate(a: LoginSubject, b: LoginSubject)
    ensures NewIndex(a) == NewIndex(b) <==> a.Normalize() == b.Normalize()
    ensures NewIndex(a) != LegacyIndex(b)
    ensures ':' !in a.Normalize().loginType && ':' !in b.Normalize().loginType && LegacyIndex(a) == LegacyIndex(b) ==>
              a.Normalize() == b.Normalize()
  {
    var m, n := a.Normalize(), b.Normalize();
    hide LoginSubject.Normalize;
    if ':' !in m.loginType && ':' !in n.loginType && LegacyIndex(a) == LegacyIndex(b) {
      PartsAtColon(m.loginType, m.loginID, n.loginType, n.loginID);
    }
  }

  lemma PartsAtColon(p: string, x: string, q: string, y: string)
    requires p + ":" + x == q + ":" + y && ':' !in p && ':' !in q
    ensures p == q && x == y
  {
    var s := p + ":" + x;
    assert s[|p|] == ':' && s[|q|] == ':';
    assert forall k :: 0 <= k < |p| ==> s[k] == p[k];
    assert forall k :: 0 <= k < |q| ==> s[k] == q[k];
    assert s[..|p|] == p && s[|p| + 1..] == x;
    assert s[..|q|] == q && s[|q| + 1..] == y;
  }

  /** Who is listed where: the token has left the two indexes of one owner and is in the new index of another; all
      else is as it was. */
  ghost predicate Moves(s: Server, s': Server, t: TokenValue, from: LoginSubject, to: Option<LoginSubject>) {
    var old' := from.Normalize();
    forall i, u ::
      u in MembersOf(s', i) <==>
        if u != t then u in MembersOf(s, i)
        else (to.Some? && i == V2(to.value.Normalize()))
             || (t in MembersOf(s, i) && i != V2(old') && i != Legacy(old'.loginType + ":" + old'.loginID))
  }

  /** The deadline is the wanted one up to a millisecond and the time from the measuring to the script; what has
      passed when measured is given a millisecond. */
  predicate Fits(given: Option<int>, wanted: Option<int>, measured: int, run: int) {
    && (given.Some? <==> wanted.Some?)
    && (wanted.Some? && measured < wanted.value ==>
          wanted.value - MILLISECOND < given.value - (run - measured) < wanted.value + MILLISECOND)
    && (wanted.Some? && wanted.value <= measured ==> given.value == run + MILLISECOND)
  }

  /** The token is stored, unmarked, with the state that was asked for, for as long as was asked. */
  ghost predicate IsSaved(read: World, s: Server, now: int, state: TokenState, ttl: int, s': Server) {
    var t, owner := state.token, state.Normalize().Subject();
    && t in s'.cells && s'.cells == s.cells[t := s'.cells[t]] && s'.cells[t].raw == state.Normalize()
    && Fits(s'.cells[t].deadline, EffectiveExpiresAt(state.expiresAt, read.now, ttl), read.now, now)
    && s'.markers == s.markers - {t}
    && Moves(s, s', t, if t in read.server.cells then Shown(read.server)[t].Subject() else owner, Some(owner))
  }

  lemma SaveMoves(s: Server, t: TokenValue, next: TokenState, deadline: Option<int>)
    ensures var seen := Seen(s, t);
            var from := if t in s.cells then Shown(s)[t].Subject() else next.Subject();
            Moves(s, SaveScript(s, t, seen, next, deadline), t, from, Some(next.Subject()))
  {
    hide LoginSubject.Normalize, TokenState.Normalize;
  }

  lemma SaveScriptSaves(read: World, s: Server, now: int, expected: Option<TokenState>, state: TokenState, ttl: int)
    requires read.now <= now && Seen(s, state.token) == Seen(read.server, state.token)
    requires AfterReadToSave(Seen(read.server, state.token), expected, state, ttl, read.now).Some?
    ensures var p := AfterReadToSave(Seen(read.server, state.token), expected, state, ttl, read.now).value;
            IsSaved(read, s, now, state, ttl, RunScript(s, p, now))
  {
    var next, key := state.Normalize(), state.token;
    var millis := Millis(read.now, next, ttl);
    assert AfterReadToSave(Seen(read.server, key), expected, state, ttl, read.now).value
           == Saving(key, Seen(read.server, key), expected, next, millis, read.now);
    assert next.token == key && next.expiresAt == state.expiresAt;
    SameShown(read.server, s, key);
    LifeWithinMillisecond(read.now, next, ttl, now);
    SaveMoves(s, key, next, Deadline(now, millis));
    SavePuts(s, key, next, Deadline(now, millis));
    hide LoginSubject.Normalize, TokenState.Normalize, EffectiveExpiresAt, Millis, Moves, Deadline, Shown, SaveScript,
         AfterReadToSave, Seen;
  }

  lemma SameShown(s: Server, s': Server, t: TokenValue)
    requires Seen(s, t) == Seen(s', t)
    ensures t in s.cells <==> t in s'.cells
    ensures t in s.cells ==> t in Shown(s) && t in Shown(s') && Shown(s)[t] == Shown(s')[t]
  {
    hide TokenState.Normalize;
  }

  lemma SavePuts(s: Server, t: TokenValue, next: TokenState, deadline: Option<int>)
    ensures var s' := SaveScript(s, t, Seen(s, t), next, deadline);
            s'.cells == s.cells[t := Cell(next, deadline)] && s'.markers == s.markers - {t}
  {
  }

  /** A save or swap: the script does what was asked if the token is as it was read, and nothing otherwise. A swap gets
      so far only if the read has found what it expects, unexpired. */
  lemma SaveTakesEffect(worlds: seq<World>, actions: seq<Action>, c: nat, m: nat, n: nat, expected: Option<TokenState>,
                        state: TokenState, ttl: int)
    requires Execution(worlds, actions) && CallAt(worlds, actions, c, m, n)
    requires actions[m] == BeginSave(c, expected, state, ttl)
    ensures var read, s, s' := worlds[m], worlds[n].server, worlds[n + 1].server;
            && (expected.Some? ==>
                  && state.token in read.server.cells && Shown(read.server)[state.token] == expected.value
                  && !expected.value.IsExpired(read.now))
            && if Seen(s, state.token) == Seen(read.server, state.token)
               then IsSaved(read, s, worlds[n].now, state, ttl, s') else s' == s
  {
    var read, s := worlds[m], worlds[n].server;
    StillPending(worlds, actions, c, m, n);
    assert worlds[m + 1] == Next(read, actions[m]) && worlds[n + 1] == Next(worlds[n], actions[n]);
    hide Execution, IsSaved, Millis, TokenState.Normalize;
    if Seen(s, state.token) == Seen(read.server, state.token) {
      SaveScriptSaves(read, s, worlds[n].now, expected, state, ttl);
    }
  }

  /** A swap is refused at once exactly if the read does not find what it expects, unexpired. */
  lemma SwapGoesOnIff(w: World, c: nat, expected: TokenState, state: TokenState, ttl: int)
    requires Enabled(w, BeginSave(c, Some(expected), state, ttl))
    ensures var w', t := Next(w, BeginSave(c, Some(expected), state, ttl)), state.token;
            && w'.server == w.server
            && (c in w'.pending <==>
                  t in w.server.cells && Shown(w.server)[t] == expected && !expected.IsExpired(w.now))
  {
    hide Millis, TokenState.Normalize;
  }

  /** A consumption gets to its script exactly if the read finds an active state of the kind; the script marks that
      consumed if the token is as it was read, for the rest of its life, and does nothing otherwise. */
  lemma ConsumptionTakesEffect(worlds: seq<World>, actions: seq<Action>, c: nat, m: nat, n: nat, t: TokenValue,
                               wanted: Option<Kind>)
    requires Execution(worlds, actions) && CallAt(worlds, actions, c, m, n)
    requires actions[m] == BeginConsume(c, t, wanted)
    ensures var read, s, s' := worlds[m], worlds[n].server, worlds[n + 1].server;
            && t in read.server.cells && IsConsumable(read, t, wanted)
            && if Seen(s, t) == Seen(read.server, t) then
                 && t in s.cells && t in s'.cells && s'.cells == s.cells[t := s'.cells[t]]
                 && IsConsumed(Shown(read.server)[t], s'.cells[t].raw, read.now)
                 && s'.cells[t].deadline == s.cells[t].deadline
                 && s'.markers == s.markers - {t} && s'.members == s.members
               else s' == s
  {
    var read := worlds[m];
    StillPending(worlds, actions, c, m, n);
    assert worlds[m + 1] == Next(read, actions[m]) && worlds[n + 1] == Next(worlds[n], actions[n]);
    MarkedAsSaid(Shown(read.server)[t], read.now);
    hide Execution, TokenState.Normalize, IsConsumed, TokenState.MarkConsumed;
  }

  predicate IsConsumable(w: World, t: TokenValue, wanted: Option<Kind>)
    requires t in w.server.cells
  {
    var state := Shown(w.server)[t];
    state.status == Active && !state.IsExpired(w.now) && (wanted.Some? ==> state.kind == wanted.value)
  }

  lemma ConsumptionGoesOnIff(w: World, c: nat, t: TokenValue, wanted: Option<Kind>)
    requires Enabled(w, BeginConsume(c, t, wanted))
    ensures var w' := Next(w, BeginConsume(c, t, wanted));
            && w'.server == w.server
            && (c in w'.pending <==> t in w.server.cells && IsConsumable(w, t, wanted))
  {
  }

  /** A deletion of a token that is there: if the token is as it was read, state and marker are gone and its owner's
      indexes list it no more; otherwise nothing happens. All other tokens are left alone in any case. */
  lemma DeletionTakesEffect(worlds: seq<World>, actions: seq<Action>, c: nat, m: nat, n: nat, t: TokenValue)
    requires Execution(worlds, actions) && CallAt(worlds, actions, c, m, n) && actions[m] == BeginDelete(c, t)
    ensures var read, s, s' := worlds[m].server, worlds[n].server, worlds[n + 1].server;
            && t in read.cells
            && if Seen(s, t) == Seen(read, t) then
                 && t in s.cells && IsDeleted(s, t, s') && Shown(s') == Shown(s) - {t}
               else s' == s
  {
    var read := worlds[m].server;
    StillPending(worlds, actions, c, m, n);
    assert worlds[m + 1] == Next(worlds[m], actions[m]) && worlds[n + 1] == Next(worlds[n], actions[n]);
    hide Execution, Shown;
    DeleteScriptDeletes(worlds[n].server, t);
  }

  ghost predicate IsDeleted(s: Server, t: TokenValue, s': Server)
    requires t in s.cells
  {
    && s'.cells == s.cells - {t} && s'.markers == s.markers - {t}
    && Moves(s, s', t, Owner(s.cells[t].raw), None)
  }

  lemma DeleteScriptDeletes(s: Server, t: TokenValue)
    ensures t in s.cells ==> var s' := DeleteScript(s, t, Seen(s, t));
                             IsDeleted(s, t, s') && Shown(s') == Shown(s) - {t}
  {
    hide LoginSubject.Normalize;
  }

  lemma DeletionGoesOnIff(w: World, c: nat, t: TokenValue)
    requires Enabled(w, BeginDelete(c, t))
    ensures var w' := Next(w, BeginDelete(c, t)); w'.server == w.server && (c in w'.pending <==> t in w.server.cells)
  {
  }

  /** What a lookup cleans up is nobody's loss: a state that is live when the script runs stays as it is, and listed
      where it is. What is missing is taken out of the index, and what has expired is deleted. */
  lemma LookupDisturbsNothing(worlds: seq<World>, actions: seq<Action>, c: nat, m: nat, n: nat, t: TokenValue, i: Index)
    requires Execution(worlds, actions) && CallAt(worlds, actions, c, m, n) && actions[m] == BeginLookup(c, t, i)
    ensures var s, s', now := worlds[n].server, worlds[n + 1].server, worlds[n].now;
            && KeepsLive(s, s', now)
            && (t !in worlds[m].server.cells && t !in s.cells ==> t !in MembersOf(s', i))
            && (t in worlds[m].server.cells && Seen(s, t) == Seen(worlds[m].server, t) ==> t !in s'.cells)
  {
    StillPending(worlds, actions, c, m, n);
    assert worlds[m + 1] == Next(worlds[m], actions[m]) && worlds[n + 1] == Next(worlds[n], actions[n]);
    hide Execution, Shown, RunScript;
    if worlds[m + 1].pending[c].Deleting? {
      ExpiredIsDeleted(worlds[m].server, worlds[n].server, t, worlds[m].now, worlds[n].now);
      DeletedIsGone(worlds[n].server, t, worlds[n].now);
    } else {
      MissingIsPruned(worlds[n].server, t, i);
    }
  }

  /** A lookup has something to clean up exactly if the token is missing or shown as expired. */
  lemma LookupGoesOnIff(w: World, c: nat, t: TokenValue, i: Index)
    requires Enabled(w, BeginLookup(c, t, i))
    ensures var w' := Next(w, BeginLookup(c, t, i));
            && w'.server == w.server
            && (c in w'.pending <==> t in w.server.cells ==> Shown(w.server)[t].IsExpired(w.now))
  {
    hide TokenState.Normalize;
  }

  /** Redis lets a key go when its time has passed, not before, and only the key: a marker or an index may stay. */
  lemma OnlyPassedKeysVanish(w: World, t: TokenValue)
    requires Enabled(w, Vanish(t))
    ensures var w', deadline := Next(w, Vanish(t)), w.server.cells[t].deadline;
            && deadline.Some? && deadline.value <= w.now && Shown(w'.server) == Shown(w.server) - {t}
            && w'.server.markers == w.server.markers && w'.server.members == w.server.members
            && w'.pending == w.pending && w'.now == w.now
  {
    hide TokenState.Normalize;
  }

  /** Whatever is live is as it was, and nothing has come. */
  ghost predicate KeepsLive(s: Server, s': Server, now: int) {
    && (forall u :: u in s.cells && !Shown(s)[u].IsExpired(now) ==>
          && u in s'.cells && s'.cells[u] == s.cells[u] && Seen(s', u) == Seen(s, u)
          && forall j :: u in MembersOf(s', j) <==> u in MembersOf(s, j))
    && (forall u :: u in s'.cells ==> u in s.cells && s'.cells[u] == s.cells[u])
  }

  lemma ExpiredIsDeleted(read: Server, s: Server, t: TokenValue, at: int, now: int)
    requires at <= now && t in read.cells && Shown(read)[t].IsExpired(at)
    ensures KeepsLive(s, DeleteScript(s, t, Seen(read, t)), now)
  {
    hide Shown, Seen, DeleteScript, IsDeleted, KeepsLive, Decode;
    if Seen(s, t) == Seen(read, t) {
      SameShown(read, s, t);
      DeleteScriptDeletes(s, t);
      DeletedKeepsOthers(s, t, DeleteScript(s, t, Seen(s, t)), now);
    } else {
      NothingDeleted(s, t, Seen(read, t), now);
    }
  }

  lemma DeletedKeepsOthers(s: Server, t: TokenValue, s': Server, now: int)
    requires t in s.cells && IsDeleted(s, t, s') && Shown(s)[t].IsExpired(now)
    ensures KeepsLive(s, s', now)
  {
    hide Shown, Owner, MembersOf, LoginSubject.Normalize;
    forall u | u != t ensures Seen(s', u) == Seen(s, u) {}
  }

  lemma NothingDeleted(s: Server, t: TokenValue, seen: Snapshot, now: int)
    requires Seen(s, t) != seen
    ensures KeepsLive(s, DeleteScript(s, t, seen), now)
  {
    hide Shown;
  }

  lemma MissingIsPruned(s: Server, t: TokenValue, i: Index)
    ensures forall now :: KeepsLive(s, PruneScript(s, t, i), now)
    ensures t !in s.cells ==> t !in MembersOf(PruneScript(s, t, i), i)
  {
    hide TokenState.Normalize;
  }
}
