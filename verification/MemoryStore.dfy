/** The in-memory store: a token map, an index from subject to tokens, and lazy eviction. The ghost
    model is the never-evicting reference store; every method keeps the two observably equal. */
module MemoryStore {
  import opened Tokens
  import S = AtomicStore

  datatype StoreError = EmptyToken | EmptyLoginID | TokenInvalid | EmptySessionID

  type Index = map<LoginSubject, set<TokenValue>>

  function WithMember(indexes: Index, subject: LoginSubject, token: TokenValue): Index {
    var key := subject.Normalize();
    indexes[key := (if key in indexes then indexes[key] else {}) + {token}]
  }

  function WithoutMember(indexes: Index, subject: LoginSubject, token: TokenValue): Index {
    var key := subject.Normalize();
    if key !in indexes then indexes
    else if indexes[key] - {token} == {} then indexes - {key}
    else indexes[key := indexes[key] - {token}]
  }

  function IndexKey(e: S.Entry): LoginSubject {
    e.state.Subject().Normalize()
  }

  function Members(tokens: map<TokenValue, S.Entry>, key: LoginSubject): set<TokenValue> {
    set t | t in tokens && IndexKey(tokens[t]) == key
  }

  /** The index is exactly the inverse of the token map, with no empty sets. */
  ghost predicate IsInverse(indexes: Index, tokens: map<TokenValue, S.Entry>) {
    forall key :: && (key in indexes <==> Members(tokens, key) != {})
                  && (key in indexes ==> indexes[key] == Members(tokens, key))
  }

  lemma InverseAfterRemoval(indexes: Index, tokens: map<TokenValue, S.Entry>, t: TokenValue)
    requires IsInverse(indexes, tokens) && t in tokens
    ensures IsInverse(WithoutMember(indexes, tokens[t].state.Subject(), t), tokens - {t})
  {
    var gone, rest := IndexKey(tokens[t]), tokens - {t};
    assert t in Members(tokens, gone);
    assert Members(rest, gone) == Members(tokens, gone) - {t};
    forall key | key != gone ensures Members(rest, key) == Members(tokens, key) {}
  }

  lemma InverseAfterSave(indexes: Index, tokens: map<TokenValue, S.Entry>, t: TokenValue, e: S.Entry)
    requires IsInverse(indexes, tokens) && t !in tokens
    ensures IsInverse(WithMember(indexes, e.state.Subject(), t), tokens[t := e])
  {
    var key := IndexKey(e);
    assert Members(tokens[t := e], key) == Members(tokens, key) + {t};
    forall other | other != key ensures Members(tokens[t := e], other) == Members(tokens, other) {}
  }

  lemma SaveKeepsInverse(indexes: Index, tokens: map<TokenValue, S.Entry>, t: TokenValue, e: S.Entry)
    requires IsInverse(indexes, tokens)
    ensures var cleared := if t in tokens then WithoutMember(indexes, tokens[t].state.Subject(), t) else indexes;
            IsInverse(WithMember(cleared, e.state.Subject(), t), tokens[t := e])
  {
    hide IndexKey;
    var rest := tokens - {t};
    if t in tokens {
      InverseAfterRemoval(indexes, tokens, t);
      InverseAfterSave(WithoutMember(indexes, tokens[t].state.Subject(), t), rest, t, e);
    } else {
      InverseAfterSave(indexes, tokens, t, e);
    }
    assert rest[t := e] == tokens[t := e];
  }

  lemma InverseAfterRewrite(indexes: Index, tokens: map<TokenValue, S.Entry>, t: TokenValue, e: S.Entry)
    requires IsInverse(indexes, tokens) && t in tokens && IndexKey(e) == IndexKey(tokens[t])
    ensures IsInverse(indexes, tokens[t := e])
  {
    forall key ensures Members(tokens[t := e], key) == Members(tokens, key) {}
  }

  /** What is kept is what the reference store has, and only what has expired may be missing. */
  ghost predicate TokensAgree(kept: map<TokenValue, S.Entry>, reference: map<TokenValue, S.Entry>, now: int) {
    && (forall k :: k in reference ==> reference[k].state.token == k && reference[k].state.IsNormal())
    && (forall k :: k in kept ==> k in reference && reference[k] == kept[k])
    && (forall k :: k in reference && !reference[k].IsExpired(now) ==> k in kept)
  }

  ghost predicate SessionsAgree(kept: map<LoginSubject, S.SessionEntry>, reference: map<LoginSubject, S.SessionEntry>,
                                now: int) {
    && (forall k :: k in kept ==> k in reference && reference[k] == kept[k])
    && (forall k :: k in reference && !Passed(reference[k].deadline, now) ==> k in kept)
  }

  /** Eviction is invisible: stores that agree show the same at every later instant. */
  lemma AgreeingStoresShowTheSame(kept: map<TokenValue, S.Entry>, reference: map<TokenValue, S.Entry>, t: int, now: int)
    requires TokensAgree(kept, reference, t) && t <= now
    ensures TokensAgree(kept, reference, now)
    ensures S.Live(kept, now) == S.Live(reference, now)
  {
  }

  lemma AgreeAfterUpdate(kept: map<TokenValue, S.Entry>, reference: map<TokenValue, S.Entry>, now: int, e: S.Entry)
    requires TokensAgree(kept, reference, now) && e.state.IsNormal()
    ensures TokensAgree(kept[e.state.token := e], reference[e.state.token := e], now)
  {
  }

  lemma AgreeAfterDelete(kept: map<TokenValue, S.Entry>, reference: map<TokenValue, S.Entry>, now: int, k: TokenValue)
    requires TokensAgree(kept, reference, now)
    ensures TokensAgree(kept - {k}, reference - {k}, now)
    ensures k in kept && kept[k].IsExpired(now) ==> TokensAgree(kept - {k}, reference, now)
  {
  }

  lemma AgreeOn(kept: map<TokenValue, S.Entry>, reference: map<TokenValue, S.Entry>, now: int, k: TokenValue)
    requires TokensAgree(kept, reference, now)
    ensures S.IsLive(kept, k, now) <==> S.IsLive(reference, k, now)
    ensures k in kept ==> k in reference && reference[k] == kept[k] && kept[k].state.token == k
  {
  }

  function Unselected(tokens: map<TokenValue, S.Entry>, subject: LoginSubject, kinds: set<Kind>)
    : map<TokenValue, S.Entry>
  {
    map k | k in tokens && !S.Selected(tokens[k], subject, kinds) :: tokens[k]
  }

  lemma AgreeAfterFilter(kept: map<TokenValue, S.Entry>, reference: map<TokenValue, S.Entry>, now: int,
                         subject: LoginSubject, kinds: set<Kind>)
    requires TokensAgree(kept, reference, now)
    ensures TokensAgree(Unselected(kept, subject, kinds), Unselected(reference, subject, kinds), now)
  {
  }

  /** A sweep in progress: the map without the visited tokens whose kind is selected. */
  function Remaining(all: map<TokenValue, S.Entry>, done: set<TokenValue>, kinds: set<Kind>)
    : map<TokenValue, S.Entry>
  {
    map k | k in all && !(k in done && S.MatchKind(all[k].state.kind, kinds)) :: all[k]
  }

  lemma SweepStep(all: map<TokenValue, S.Entry>, key: LoginSubject, done: set<TokenValue>, kinds: set<Kind>,
                  t: TokenValue)
    requires t in Members(all, key) && t !in done
    ensures t in Remaining(all, done, kinds) && Remaining(all, done, kinds)[t] == all[t]
    ensures Remaining(all, done + {t}, kinds)
            == if S.MatchKind(all[t].state.kind, kinds) then Remaining(all, done, kinds) - {t}
               else Remaining(all, done, kinds)
  {
  }

  lemma SweepStart(all: map<TokenValue, S.Entry>, kinds: set<Kind>)
    ensures Remaining(all, {}, kinds) == all
  {
  }

  lemma SweepDone(all: map<TokenValue, S.Entry>, subject: LoginSubject, kinds: set<Kind>)
    ensures Remaining(all, Members(all, subject.Normalize()), kinds) == Unselected(all, subject, kinds)
  {
  }

  lemma MembersFromIndex(indexes: Index, tokens: map<TokenValue, S.Entry>, key: LoginSubject)
    requires IsInverse(indexes, tokens)
    ensures (if key in indexes then indexes[key] else {}) == Members(tokens, key)
  {
  }

  lemma ScanStart(tokens: map<TokenValue, S.Entry>, model: map<TokenValue, S.Entry>, key: LoginSubject,
                  kinds: set<Kind>, now: int)
    requires TokensAgree(tokens, model, now)
    ensures Scanned(model, key, kinds, now, Members(tokens, key), [])
  {
  }

  /** A listing in progress: what is outside todo and visible has been listed, once. */
  ghost predicate Scanned(all: map<TokenValue, S.Entry>, key: LoginSubject, kinds: set<Kind>, now: int,
                          todo: set<TokenValue>, result: seq<TokenState>) {
    && (forall t :: t !in todo && S.IsLive(all, t, now) && IndexKey(all[t]) == key
                    && S.MatchKind(all[t].state.kind, kinds) ==>
          all[t].state in result)
    && (forall t :: t in todo ==> t in all && IndexKey(all[t]) == key && all[t].state.token == t)
    && (forall i :: 0 <= i < |result| ==>
          var t := result[i].token;
          t !in todo && S.IsLive(all, t, now) && IndexKey(all[t]) == key && S.MatchKind(all[t].state.kind, kinds)
          && all[t].state == result[i])
    && (forall i, j :: 0 <= i < j < |result| ==> result[i].token != result[j].token)
  }

  lemma ScanStep(all: map<TokenValue, S.Entry>, key: LoginSubject, kinds: set<Kind>, now: int,
                 todo: set<TokenValue>, result: seq<TokenState>, t: TokenValue)
    requires Scanned(all, key, kinds, now, todo + {t}, result) && t !in todo
    ensures var listed := if S.IsLive(all, t, now) && S.MatchKind(all[t].state.kind, kinds)
                          then result + [all[t].state] else result;
            Scanned(all, key, kinds, now, todo, listed)
  {
    if S.IsLive(all, t, now) && S.MatchKind(all[t].state.kind, kinds) {
      var listed := result + [all[t].state];
      assert all[t].state == listed[|result|];
      assert forall s :: s in result ==> s in listed;
    }
  }

  lemma ScanDone(all: map<TokenValue, S.Entry>, subject: LoginSubject, kinds: set<Kind>, now: int,
                 result: seq<TokenState>)
    requires Scanned(all, subject.Normalize(), kinds, now, {}, result)
    ensures S.Lists(all, subject, kinds, now, result)
  {
  }

  class Store {
    var tokens: map<TokenValue, S.Entry>
    var indexes: Index
    var sessions: map<LoginSubject, S.SessionEntry>
    ghost var model: S.Store
    ghost var clock: int

    ghost predicate Valid()
      reads this
    {
      && IsInverse(indexes, tokens)
      && TokensAgree(tokens, model.tokens, clock)
      && SessionsAgree(sessions, model.sessions, clock)
    }

    constructor ()
      ensures Valid() && model == S.Store(map[], map[]) && clock == 0
    {
      tokens, indexes, sessions := map[], map[], map[];
      model, clock := S.Store(map[], map[]), 0;
    }

    /** Time passes: what the store and its model agree on now they agree on later. */
    ghost method Advance(now: int)
      requires Valid() && clock <= now
      modifies `clock
      ensures Valid() && clock == now
    {
      AgreeingStoresShowTheSame(tokens, model.tokens, clock, now);
      clock := now;
    }

    method AddIndexLocked(subject: LoginSubject, token: TokenValue)
      modifies `indexes
      ensures indexes == WithMember(old(indexes), subject, token)
    {
      var key := subject.Normalize();
      if key !in indexes {
        indexes := indexes[key := {}];
      }
      indexes := indexes[key := indexes[key] + {token}];
    }

    method RemoveIndexLocked(subject: LoginSubject, token: TokenValue)
      modifies `indexes
      ensures indexes == WithoutMember(old(indexes), subject, token)
    {
      var key := subject.Normalize();
      if key !in indexes {
        return;
      }
      indexes := indexes[key := indexes[key] - {token}];
      if indexes[key] == {} {
        indexes := indexes - {key};
      }
    }

    method DeleteTokenLocked(token: TokenValue)
      requires IsInverse(indexes, tokens)
      modifies `tokens, `indexes
      ensures IsInverse(indexes, tokens)
      ensures tokens == old(tokens) - {token}
    {
      if token !in tokens {
        return;
      }
      InverseAfterRemoval(indexes, tokens, token);
      RemoveIndexLocked(tokens[token].state.Subject(), token);
      tokens := tokens - {token};
    }

    /** Shared by the unconditional save and the compare-and-swap, which passes its snapshot. */
    method SaveLocked(expected: Option<TokenState>, state: TokenState, ttl: int, now: int)
      returns (err: Option<StoreError>)
      requires Valid() && clock <= now
      requires expected.Some? ==> expected.value.token == state.token
      modifies this
      ensures Valid() && clock == now
      ensures expected.None? ==>
                && model == S.Apply(old(model), now, S.Save(state, ttl))
                && (err.None? <==> S.CanSave(state))
      ensures expected.Some? ==>
                && model == S.Apply(old(model), now, S.Swap(expected.value, state, ttl))
                && (err.None? <==> S.CanSave(state) && S.Matches(old(model).tokens, expected.value, now))
                && (err == Some(TokenInvalid) <==>
                      S.CanSave(state) && !S.Matches(old(model).tokens, expected.value, now))
    {
      Advance(now);
      var clone := state;
      if clone.token == "" {
        return Some(EmptyToken);
      }
      clone := clone.Normalize();
      if clone.loginID == "" && clone.kind != Nonce {
        return Some(EmptyLoginID);
      }
      var expiresAt := EffectiveExpiresAt(clone.expiresAt, now, ttl);
      AgreeOn(tokens, model.tokens, now, clone.token);
      if expected.Some? {
        if clone.token !in tokens || tokens[clone.token].IsExpired(now) || tokens[clone.token].state != expected.value {
          return Some(TokenInvalid);
        }
      }
      PutLocked(S.Entry(clone, expiresAt));
      return None;
    }

    method PutLocked(entry: S.Entry)
      requires Valid() && entry.state.IsNormal()
      modifies `tokens, `indexes, `model
      ensures Valid()
      ensures model == S.Store(old(model).tokens[entry.state.token := entry], old(model).sessions)
    {
      var key := entry.state.token;
      SaveKeepsInverse(indexes, tokens, key, entry);
      AgreeAfterUpdate(tokens, model.tokens, clock, entry);
      if key in tokens {
        RemoveIndexLocked(tokens[key].state.Subject(), key);
      }
      tokens := tokens[key := entry];
      AddIndexLocked(entry.state.Subject(), key);
      model := S.Store(model.tokens[key := entry], model.sessions);
    }

    method SaveTokenState(state: TokenState, ttl: int, now: int) returns (err: Option<StoreError>)
      requires Valid() && clock <= now
      modifies this
      ensures Valid() && clock == now
      ensures model == S.Apply(old(model), now, S.Save(state, ttl))
      ensures err.None? <==> S.CanSave(state)
    {
      err := SaveLocked(None, state, ttl, now);
    }

    method CompareAndSwapTokenState(expected: TokenState, next: TokenState, ttl: int, now: int)
      returns (updated: bool, err: Option<StoreError>)
      requires Valid() && clock <= now
      modifies this
      ensures Valid() && clock == now
      ensures model == S.Apply(old(model), now, S.Swap(expected, next, ttl))
      ensures S.Answers(old(model), now, S.Swap(expected, next, ttl),
                        if err.Some? then S.Failed else S.Swapped(updated))
    {
      if expected.token != next.token {
        Advance(now);
        return false, Some(TokenInvalid);
      }
      err := SaveLocked(Some(expected), next, ttl, now);
      if err == Some(TokenInvalid) {
        return false, None;
      }
      updated := err.None?;
    }

    method GetTokenState(token: TokenValue, now: int) returns (state: Option<TokenState>)
      requires Valid() && clock <= now
      modifies this
      ensures Valid() && clock == now && model == old(model)
      ensures S.Answers(model, now, S.Get(token), if state.Some? then S.Found(state.value) else S.NotFound)
      ensures token in tokens ==> !tokens[token].IsExpired(now)
    {
      Advance(now);
      AgreeOn(tokens, model.tokens, now, token);
      if token !in tokens {
        return None;
      }
      if !tokens[token].IsExpired(now) {
        return Some(tokens[token].state);
      }
      AgreeAfterDelete(tokens, model.tokens, now, token);
      DeleteTokenLocked(token);
      return None;
    }

    /** Returns the state as it was before; wanted filters by kind, None consumes any kind. */
    method ConsumeTokenState(token: TokenValue, wanted: Option<Kind>, now: int) returns (state: Option<TokenState>)
      requires Valid() && clock <= now
      modifies this
      ensures Valid() && clock == now
      ensures model == S.Apply(old(model), now, S.Consume(token, wanted))
      ensures S.Answers(old(model), now, S.Consume(token, wanted),
                        if state.Some? then S.Found(state.value) else S.NotFound)
      ensures token in tokens ==> !tokens[token].IsExpired(now)
    {
      Advance(now);
      AgreeOn(tokens, model.tokens, now, token);
      if token !in tokens {
        return None;
      }
      if tokens[token].IsExpired(now) {
        AgreeAfterDelete(tokens, model.tokens, now, token);
        DeleteTokenLocked(token);
        return None;
      }
      var snapshot := tokens[token].state;
      if snapshot.IsActive(now) && (wanted.None? || snapshot.kind == wanted.value) {
        var entry := tokens[token].(state := snapshot.MarkConsumed(now));
        AgreeAfterUpdate(tokens, model.tokens, now, entry);
        InverseAfterRewrite(indexes, tokens, token, entry);
        tokens := tokens[token := entry];
        model := model.(tokens := model.tokens[token := entry]);
      }
      return Some(snapshot);
    }

    method DeleteTokenState(token: TokenValue, now: int)
      requires Valid() && clock <= now
      modifies this
      ensures Valid() && clock == now
      ensures model == S.Apply(old(model), now, S.Delete(token))
    {
      Advance(now);
      AgreeAfterDelete(tokens, model.tokens, now, token);
      DeleteTokenLocked(token);
      model := model.(tokens := model.tokens - {token});
    }

    /** Walks the subject's index only, evicting what has expired; the answer is nevertheless that of
        a full scan of the reference store, each visible state once. */
    method FindTokenStates(subject: LoginSubject, kinds: set<Kind>, now: int) returns (result: seq<TokenState>)
      requires Valid() && clock <= now
      modifies this
      ensures Valid() && clock == now && model == old(model)
      ensures S.Answers(model, now, S.Find(subject, kinds), S.States(result))
    {
      Advance(now);
      result := ScanLocked(subject.Normalize(), kinds, now);
      ScanDone(model.tokens, subject, kinds, now, result);
    }

    method ScanLocked(key: LoginSubject, kinds: set<Kind>, now: int) returns (result: seq<TokenState>)
      requires Valid() && clock == now
      modifies `tokens, `indexes
      ensures Valid()
      ensures Scanned(model.tokens, key, kinds, now, {}, result)
    {
      hide IndexKey, IsInverse, TokensAgree, SessionsAgree, Scanned;
      result := [];
      var todo := if key in indexes then indexes[key] else {};
      MembersFromIndex(indexes, tokens, key);
      ScanStart(tokens, model.tokens, key, kinds, now);
      while todo != {}
        invariant Valid() && todo <= tokens.Keys
        invariant Scanned(model.tokens, key, kinds, now, todo, result)
        decreases |todo|
      {
        var t :| t in todo;
        assert todo - {t} + {t} == todo;
        todo := todo - {t};
        ScanStep(model.tokens, key, kinds, now, todo, result, t);
        result := VisitLocked(t, kinds, now, result);
      }
    }

    /** One indexed token: evicted if expired, listed if its kind is wanted. */
    method VisitLocked(t: TokenValue, kinds: set<Kind>, now: int, listed: seq<TokenState>)
      returns (result: seq<TokenState>)
      requires Valid() && clock == now && t in tokens
      modifies `tokens, `indexes
      ensures Valid() && tokens.Keys >= old(tokens.Keys) - {t}
      ensures result == if S.IsLive(model.tokens, t, now) && S.MatchKind(model.tokens[t].state.kind, kinds)
                        then listed + [model.tokens[t].state] else listed
    {
      AgreeOn(tokens, model.tokens, now, t);
      result := listed;
      var item := tokens[t];
      if item.IsExpired(now) {
        AgreeAfterDelete(tokens, model.tokens, now, t);
        DeleteTokenLocked(t);
      } else if S.MatchKind(item.state.kind, kinds) {
        result := result + [item.state];
      }
    }

    method DeleteTokenStates(subject: LoginSubject, kinds: set<Kind>, now: int)
      requires Valid() && clock <= now
      modifies this
      ensures Valid() && clock == now
      ensures model == S.Apply(old(model), now, S.DeleteAll(subject, kinds))
    {
      Advance(now);
      ghost var all := tokens;
      SweepLocked(subject.Normalize(), kinds);
      SweepDone(all, subject, kinds);
      AgreeAfterFilter(all, model.tokens, now, subject, kinds);
      model := S.Store(Unselected(model.tokens, subject, kinds), model.sessions);
    }

    method SweepLocked(key: LoginSubject, kinds: set<Kind>)
      requires IsInverse(indexes, tokens)
      modifies `tokens, `indexes
      ensures IsInverse(indexes, tokens)
      ensures tokens == Remaining(old(tokens), Members(old(tokens), key), kinds)
    {
      hide IndexKey, IsInverse;
      var todo := if key in indexes then indexes[key] else {};
      ghost var all, done := tokens, {};
      MembersFromIndex(indexes, tokens, key);
      SweepStart(all, kinds);
      while todo != {}
        invariant IsInverse(indexes, tokens) && tokens == Remaining(all, done, kinds)
        invariant todo + done == Members(all, key) && todo !! done
        decreases |todo|
      {
        var t :| t in todo;
        SweepStep(all, key, done, kinds, t);
        if S.MatchKind(tokens[t].state.kind, kinds) {
          DeleteTokenLocked(t);
        }
        todo, done := todo - {t}, done + {t};
      }
      assert done == Members(all, key);
    }

    method SaveSession(subject: LoginSubject, data: map<string, string>, ttl: int, now: int)
      returns (err: Option<StoreError>)
      requires Valid() && clock <= now
      modifies this
      ensures Valid() && clock == now
      ensures model == S.Apply(old(model), now, S.SaveSession(subject, data, ttl))
      ensures err.Some? <==> subject.Normalize().IsZero()
    {
      Advance(now);
      var key := subject.Normalize();
      TrimIdempotent(subject.loginID);
      if key.IsZero() {
        return Some(EmptySessionID);
      }
      var entry := S.SessionEntry(data, EffectiveExpiresAt(None, now, ttl));
      sessions := sessions[key := entry];
      model := model.(sessions := model.sessions[key := entry]);
      return None;
    }

    /** Creates a missing or expired session, and only moves the deadline of a present one. */
    method EnsureSession(subject: LoginSubject, ttl: int, now: int) returns (err: Option<StoreError>)
      requires Valid() && clock <= now
      modifies this
      ensures Valid() && clock == now
      ensures model == S.Apply(old(model), now, S.EnsureSession(subject, ttl))
      ensures err.Some? <==> subject.Normalize().IsZero()
    {
      Advance(now);
      var key := subject.Normalize();
      if key.IsZero() {
        return Some(EmptySessionID);
      }
      var item := if key in sessions then sessions[key] else S.SessionEntry(map[], None);
      if key !in sessions || Passed(item.deadline, now) {
        item := S.SessionEntry(map[], None);
      }
      item := item.(deadline := None);
      if ttl > 0 {
        item := item.(deadline := Some(now + ttl));
      }
      sessions := sessions[key := item];
      model := model.(sessions := model.sessions[key := item]);
      return None;
    }

    method GetSession(subject: LoginSubject, now: int) returns (data: Option<map<string, string>>)
      requires Valid() && clock <= now
      modifies this
      ensures Valid() && clock == now && model == old(model)
      ensures data == if S.SessionLive(model.sessions, subject.Normalize(), now)
                      then Some(model.sessions[subject.Normalize()].data) else None
    {
      Advance(now);
      var key := subject.Normalize();
      if key !in sessions {
        return None;
      }
      if !Passed(sessions[key].deadline, now) {
        return Some(sessions[key].data);
      }
      sessions := sessions - {key};
      return None;
    }

    method DeleteSession(subject: LoginSubject, now: int)
      requires Valid() && clock <= now
      modifies this
      ensures Valid() && clock == now
      ensures model == S.Apply(old(model), now, S.DeleteSession(subject))
    {
      Advance(now);
      sessions := sessions - {subject.Normalize()};
      model := model.(sessions := model.sessions - {subject.Normalize()});
    }
  }
}
