/** The contract every store must realise, as a reference store that never evicts: an entry
    past its deadline stays in the map and is merely not visible. Each request is one atomic step. */
module AtomicStore {
  import opened Tokens

  /** A stored state with the deadline fixed when it was saved. */
  datatype Entry = Entry(state: TokenState, deadline: Option<int>) {
    predicate IsExpired(now: int) {
      Passed(deadline, now) || state.IsExpired(now)
    }
  }

  datatype SessionEntry = SessionEntry(data: map<string, string>, deadline: Option<int>)

  datatype Store = Store(tokens: map<TokenValue, Entry>, sessions: map<LoginSubject, SessionEntry>)

  datatype Request =
    | Save(state: TokenState, ttl: int)
    | Get(key: TokenValue)
    | Consume(key: TokenValue, wanted: Option<Kind>)
    | Swap(expected: TokenState, next: TokenState, ttl: int)
    | Delete(key: TokenValue)
    | Find(subject: LoginSubject, kinds: set<Kind>)
    | DeleteAll(subject: LoginSubject, kinds: set<Kind>)
    | SaveSession(subject: LoginSubject, data: map<string, string>, ttl: int)
    | EnsureSession(subject: LoginSubject, ttl: int)
    | DeleteSession(subject: LoginSubject)

  datatype Reply =
    | Failed
    | Done
    | NotFound
    | Found(state: TokenState)
    | Swapped(updated: bool)
    | States(states: seq<TokenState>)

  /** An empty filter matches every kind. */
  predicate MatchKind(kind: Kind, kinds: set<Kind>) {
    kinds == {} || kind in kinds
  }

  predicate IsLive(tokens: map<TokenValue, Entry>, key: TokenValue, now: int) {
    key in tokens && !tokens[key].IsExpired(now)
  }

  /** The part of the map a client can still observe at the given instant. */
  function Live(tokens: map<TokenValue, Entry>, now: int): map<TokenValue, Entry> {
    map k | k in tokens && !tokens[k].IsExpired(now) :: tokens[k]
  }

  predicate CanSave(state: TokenState) {
    state.token != "" && (state.loginID != "" || state.Normalize().kind == Nonce)
  }

  function EntryFor(state: TokenState, ttl: int, now: int): Entry {
    Entry(state.Normalize(), EffectiveExpiresAt(state.expiresAt, now, ttl))
  }

  predicate Consumable(tokens: map<TokenValue, Entry>, key: TokenValue, wanted: Option<Kind>, now: int) {
    && IsLive(tokens, key, now)
    && tokens[key].state.IsActive(now)
    && (wanted.Some? ==> tokens[key].state.kind == wanted.value)
  }

  /** A swap is granted only to a caller whose snapshot is still exactly what is stored. */
  predicate Matches(tokens: map<TokenValue, Entry>, expected: TokenState, now: int) {
    IsLive(tokens, expected.token, now) && tokens[expected.token].state == expected
  }

  predicate Selected(e: Entry, subject: LoginSubject, kinds: set<Kind>) {
    e.state.Subject().Normalize() == subject.Normalize() && MatchKind(e.state.kind, kinds)
  }

  function ApplyTokens(tokens: map<TokenValue, Entry>, now: int, r: Request): map<TokenValue, Entry> {
    match r
    case Save(state, ttl) =>
      if CanSave(state) then tokens[state.token := EntryFor(state, ttl, now)] else tokens
    case Consume(key, wanted) =>
      if Consumable(tokens, key, wanted, now)
      then tokens[key := tokens[key].(state := tokens[key].state.MarkConsumed(now))] else tokens
    case Swap(expected, next, ttl) =>
      if expected.token == next.token && CanSave(next) && Matches(tokens, expected, now)
      then tokens[next.token := EntryFor(next, ttl, now)] else tokens
    case Delete(key) => tokens - {key}
    case DeleteAll(subject, kinds) => map k | k in tokens && !Selected(tokens[k], subject, kinds) :: tokens[k]
    case _ => tokens
  }

  /** A state saved with a lifetime is visible up to the earlier of the end of that and its own expiry, exclusive. */
  lemma SavedLives(tokens: map<TokenValue, Entry>, now: int, state: TokenState, ttl: int, t: int)
    requires CanSave(state)
    ensures var after := ApplyTokens(tokens, now, Save(state, ttl));
            && state.token in after && after == tokens[state.token := after[state.token]]
            && (IsLive(after, state.token, t) <==>
                  (ttl > 0 ==> t < now + ttl) && (state.expiresAt.Some? ==> t < state.expiresAt.value))
  {
  }

  /** A deletion by subject takes that subject's states, of the kinds named or of all if none are, and no others. */
  lemma DeleteAllMeans(tokens: map<TokenValue, Entry>, now: int, subject: LoginSubject, kinds: set<Kind>, k: TokenValue)
    requires k in tokens
    ensures var after, state := ApplyTokens(tokens, now, DeleteAll(subject, kinds)), tokens[k].state;
            && (k in after ==> after[k] == tokens[k])
            && (k !in after <==> && LoginSubject(state.loginID, state.loginType).Normalize() == subject.Normalize()
                                 && (kinds == {} || state.kind in kinds))
  {
    hide LoginSubject.Normalize;
  }

  predicate SessionLive(sessions: map<LoginSubject, SessionEntry>, subject: LoginSubject, now: int) {
    subject in sessions && !Passed(sessions[subject].deadline, now)
  }

  function ApplySessions(sessions: map<LoginSubject, SessionEntry>, now: int, r: Request)
    : map<LoginSubject, SessionEntry>
  {
    match r
    case SaveSession(subject, data, ttl) =>
      if subject.IsZero() then sessions
      else sessions[subject.Normalize() := SessionEntry(data, EffectiveExpiresAt(None, now, ttl))]
    case EnsureSession(subject, ttl) =>
      var key := subject.Normalize();
      if key.IsZero() then sessions
      else sessions[key := SessionEntry(if SessionLive(sessions, key, now) then sessions[key].data else map[],
                                        EffectiveExpiresAt(None, now, ttl))]
    case DeleteSession(subject) => sessions - {subject.Normalize()}
    case _ => sessions
  }

  function Apply(store: Store, now: int, r: Request): Store {
    Store(ApplyTokens(store.tokens, now, r), ApplySessions(store.sessions, now, r))
  }

  /** A listing names every visible state of the subject and kinds exactly once, each under its own token,
      in any order. */
  ghost predicate Lists(tokens: map<TokenValue, Entry>, subject: LoginSubject, kinds: set<Kind>, now: int,
                        states: seq<TokenState>) {
    && (forall i :: 0 <= i < |states| ==>
          var k := states[i].token;
          IsLive(tokens, k, now) && Selected(tokens[k], subject, kinds) && states[i] == tokens[k].state)
    && (forall k :: IsLive(tokens, k, now) && Selected(tokens[k], subject, kinds) ==> tokens[k].state in states)
    && (forall i, j :: 0 <= i < j < |states| ==> states[i].token != states[j].token)
  }

  /** The replies a store that works may give to a request served at the given instant. */
  ghost predicate Answers(store: Store, now: int, r: Request, reply: Reply) {
    match r
    case Save(state, ttl) => reply == if CanSave(state) then Done else Failed
    case Get(key) => reply == if IsLive(store.tokens, key, now) then Found(store.tokens[key].state) else NotFound
    case Consume(key, _) =>
      reply == if IsLive(store.tokens, key, now) then Found(store.tokens[key].state) else NotFound
    case Swap(expected, next, ttl) =>
      reply == if expected.token != next.token || !CanSave(next) then Failed
               else Swapped(Matches(store.tokens, expected, now))
    case Delete(_) => reply == Done
    case Find(subject, kinds) => reply.States? && Lists(store.tokens, subject, kinds, now, reply.states)
    case DeleteAll(_, _) => reply == Done
    case SaveSession(subject, _, _) => reply == if subject.IsZero() then Failed else Done
    case EnsureSession(subject, _) => reply == if subject.IsZero() then Failed else Done
    case DeleteSession(_) => reply == Done
  }

  /** One store call: it takes effect and answers, or it fails and changes nothing. */
  ghost predicate Serves(store: Store, now: int, r: Request, store': Store, reply: Reply) {
    || (store' == store && reply == Failed)
    || (store' == Apply(store, now, r) && Answers(store, now, r, reply))
  }
}
