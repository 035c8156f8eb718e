/** The Redis token store. Every mutation reads a snapshot first and then runs one script that compares
    and writes; calls interleave between the two, keys vanish when their time is up, and the subject
    indexes, old and new, are only hints. */
module RedisTokens {
  import opened Clients
  import opened Tokens
  import S = AtomicStore

  const MILLISECOND := 1000000

  /** The life Redis is told to give a key, in milliseconds; zero means forever. */
  function Millis(now: int, state: TokenState, ttl: int): int {
    var deadline := EffectiveExpiresAt(state.expiresAt, now, ttl);
    if deadline.None? then 0
    else
      var left := if deadline.value <= now then MILLISECOND else deadline.value - now;
      if left / MILLISECOND < 1 then 1 else left / MILLISECOND
  }

  function Deadline(now: int, millis: int): Option<int> {
    if millis > 0 then Some(now + millis * MILLISECOND) else None
  }

  /** The life is measured at one moment and runs from a later one, when the script is executed: up to that delay and
      less than a millisecond, the key lives to the deadline of the contract; what is saved expired stays for one. */
  lemma LifeWithinMillisecond(now: int, state: TokenState, ttl: int, later: int)
    requires now <= later
    ensures var wanted := EffectiveExpiresAt(state.expiresAt, now, ttl);
            var given := Deadline(later, Millis(now, state, ttl));
            && (wanted.None? <==> given.None?)
            && (wanted.Some? && now < wanted.value ==>
                  wanted.value - MILLISECOND < given.value - (later - now) < wanted.value + MILLISECOND)
            && (wanted.Some? && wanted.value <= now ==> given.value == later + MILLISECOND)
  {
  }

  /** A stored state as written, and when the key vanishes. */
  datatype Cell = Cell(raw: TokenState, deadline: Option<int>)

  /** The set a subject's tokens are listed in: its own, or the older one it may share with others. */
  datatype Index = V2(subject: LoginSubject) | Legacy(name: string)

  datatype Server = Server(
    cells: map<TokenValue, Cell>, markers: map<TokenValue, string>, members: map<Index, set<TokenValue>>)

  /** What one read returns for a token: the state and the marker an older release left when it was consumed. */
  datatype Snapshot = Snapshot(raw: Option<TokenState>, marker: string)

  function Seen(s: Server, t: TokenValue): Snapshot {
    Snapshot(if t in s.cells then Some(s.cells[t].raw) else None, if t in s.markers then s.markers[t] else "")
  }

  function Decode(seen: Snapshot): Option<TokenState> {
    if seen.raw.None? then None
    else
      var state := seen.raw.value.Normalize();
      Some(if seen.marker != "" && state.status == Active then state.(status := Consumed) else state)
  }

  function Owner(state: TokenState): LoginSubject {
    state.Normalize().Subject()
  }

  function LegacyIndex(subject: LoginSubject): Index {
    var n := subject.Normalize();
    Legacy(n.loginType + ":" + n.loginID)
  }

  function NewIndex(subject: LoginSubject): Index {
    V2(subject.Normalize())
  }

  function MembersOf(s: Server, i: Index): set<TokenValue> {
    if i in s.members then s.members[i] else {}
  }

  function Added(members: map<Index, set<TokenValue>>, i: Index, t: TokenValue): map<Index, set<TokenValue>> {
    members[i := (if i in members then members[i] else {}) + {t}]
  }

  function Removed(members: map<Index, set<TokenValue>>, i: Index, t: TokenValue): map<Index, set<TokenValue>> {
    if i in members then members[i := members[i] - {t}] else members
  }

  // ----- the scripts

  /** The state is replaced if it is still what was read, and the token moves to its owner's new index. */
  function SaveScript(s: Server, t: TokenValue, seen: Snapshot, next: TokenState, deadline: Option<int>): Server {
    if Seen(s, t) != seen then s
    else
      var previous := if Decode(seen).Some? then Decode(seen).value.Subject() else next.Subject();
      var others := Removed(Removed(s.members, NewIndex(previous), t), LegacyIndex(previous), t);
      Server(s.cells[t := Cell(next, deadline)], s.markers - {t}, Added(others, NewIndex(next.Subject()), t))
  }

  function ConsumeScript(s: Server, t: TokenValue, seen: Snapshot, next: TokenState): Server {
    if seen.raw.None? || Seen(s, t) != seen then s
    else s.(cells := s.cells[t := Cell(next, s.cells[t].deadline)], markers := s.markers - {t})
  }

  function DeleteScript(s: Server, t: TokenValue, seen: Snapshot): Server {
    if seen.raw.None? || Seen(s, t) != seen then s
    else
      var owner := Decode(seen).value.Subject();
      Server(s.cells - {t}, s.markers - {t}, Removed(Removed(s.members, NewIndex(owner), t), LegacyIndex(owner), t))
  }

  function PruneScript(s: Server, t: TokenValue, i: Index): Server {
    if t in s.cells then s else s.(members := Removed(s.members, i, t))
  }

  // ----- calls in progress: a read has happened, its script has not run yet

  datatype Pending =
    | Saving(token: TokenValue, seen: Snapshot, expected: Option<TokenState>, next: TokenState, millis: int, at: int)
    | Consuming(token: TokenValue, seen: Snapshot, next: TokenState, at: int)
    | Deleting(token: TokenValue, seen: Snapshot)
    | Pruning(token: TokenValue, index: Index)

  /** What saving goes on to do after its read; None is a refusal. */
  function AfterReadToSave(seen: Snapshot, expected: Option<TokenState>, state: TokenState, ttl: int, now: int)
    : Option<Pending>
  {
    var next, old' := state.Normalize(), Decode(seen);
    if expected.Some? && (old'.None? || old'.value.IsExpired(now) || old'.value != expected.value) then None
    else Some(Saving(state.token, seen, expected, next, Millis(now, next, ttl), now))
  }

  /** None: the state is answered as it is, or as missing. */
  function AfterReadToConsume(t: TokenValue, seen: Snapshot, wanted: Option<Kind>, now: int): Option<Pending> {
    var state := Decode(seen);
    if state.None? || !state.value.IsActive(now) || (wanted.Some? && state.value.kind != wanted.value) then None
    else Some(Consuming(t, seen, state.value.MarkConsumed(now), now))
  }

  /** A lookup cleans up what it finds missing or expired. */
  function AfterReadToFind(t: TokenValue, seen: Snapshot, index: Index, now: int): Option<Pending> {
    var state := Decode(seen);
    if state.None? then Some(Pruning(t, index))
    else if state.value.IsExpired(now) then Some(Deleting(t, seen))
    else None
  }

  function RunScript(s: Server, p: Pending, now: int): Server {
    match p
    case Saving(t, seen, _, next, millis, _) => SaveScript(s, t, seen, next, Deadline(now, millis))
    case Consuming(t, seen, next, _) => ConsumeScript(s, t, seen, next)
    case Deleting(t, seen) => DeleteScript(s, t, seen)
    case Pruning(t, i) => PruneScript(s, t, i)
  }

  datatype World = World(server: Server, now: int, pending: map<nat, Pending>)

  datatype Action =
    | BeginSave(c: nat, expected: Option<TokenState>, state: TokenState, ttl: int)
    | BeginConsume(c: nat, token: TokenValue, wanted: Option<Kind>)
    | BeginDelete(c: nat, token: TokenValue)
    | BeginLookup(c: nat, token: TokenValue, index: Index)
    | Run(c: nat)
    | Vanish(token: TokenValue)
    | Tick(until: int)

  function Remember(w: World, c: nat, p: Option<Pending>): World {
    if p.None? then w else w.(pending := w.pending[c := p.value])
  }

  predicate Enabled(w: World, a: Action) {
    match a
    case BeginSave(c, expected, state, _) =>
      c !in w.pending && S.CanSave(state) && (expected.Some? ==> expected.value.token == state.token)
    case BeginConsume(c, _, _) => c !in w.pending
    case BeginDelete(c, _) => c !in w.pending
    case BeginLookup(c, _, _) => c !in w.pending
    case Run(c) => c in w.pending
    case Vanish(t) => t in w.server.cells && Passed(w.server.cells[t].deadline, w.now)
    case Tick(until) => w.now <= until
  }

  function Next(w: World, a: Action): World
    requires Enabled(w, a)
  {
    match a
    case BeginSave(c, expected, state, ttl) =>
      Remember(w, c, AfterReadToSave(Seen(w.server, state.token), expected, state, ttl, w.now))
    case BeginConsume(c, t, wanted) => Remember(w, c, AfterReadToConsume(t, Seen(w.server, t), wanted, w.now))
    case BeginDelete(c, t) =>
      Remember(w, c, if t in w.server.cells then Some(Deleting(t, Seen(w.server, t))) else None)
    case BeginLookup(c, t, i) => Remember(w, c, AfterReadToFind(t, Seen(w.server, t), i, w.now))
    case Run(c) => World(RunScript(w.server, w.pending[c], w.now), w.now, w.pending - {c})
    case Vanish(t) => w.(server := w.server.(cells := w.server.cells - {t}))
    case Tick(until) => w.(now := until)
  }

  predicate Execution(worlds: seq<World>, actions: seq<Action>) {
    && |worlds| == |actions| + 1
    && forall i :: 0 <= i < |actions| ==> Enabled(worlds[i], actions[i]) && worlds[i + 1] == Next(worlds[i], actions[i])
  }

  // ----- index completeness

  ghost predicate Indexed(s: Server, t: TokenValue, owner: LoginSubject) {
    t in MembersOf(s, NewIndex(owner)) || t in MembersOf(s, LegacyIndex(owner))
  }

  /** Every token present is stored under its own name and listed for its owner, in one index or the other. */
  ghost predicate Complete(s: Server) {
    forall t :: t in s.cells ==> s.cells[t].raw.token == t && Indexed(s, t, Owner(s.cells[t].raw))
  }

  /** A script carries what its read justified. */
  ghost predicate PendingOk(p: Pending) {
    match p
    case Saving(t, seen, expected, next, _, at) =>
      && next.token == t && next.IsNormal() && S.CanSave(next)
      && (expected.Some? ==> Decode(seen) == expected && !expected.value.IsExpired(at))
    case Consuming(t, seen, next, at) =>
      && Decode(seen).Some? && next.token == t && Owner(next) == Owner(seen.raw.value)
      && Decode(seen).value.IsActive(at) && next == Decode(seen).value.MarkConsumed(at)
    case _ => true
  }

  /** The form every script leaves behind: a normalized state, no marker. */
  predicate PresentForm(seen: Snapshot) {
    seen.raw.Some? ==> seen.marker == "" && seen.raw.value.IsNormal()
  }

  /** What changed after a read was changed by a script or has vanished. */
  ghost predicate ChangedByScripts(s: Server, p: Pending) {
    p.Pruning? || Seen(s, p.token) == p.seen || PresentForm(Seen(s, p.token))
  }

  ghost predicate Inv(w: World) {
    && Complete(w.server)
    && forall c :: c in w.pending ==> PendingOk(w.pending[c]) && ChangedByScripts(w.server, w.pending[c])
  }

  /** Other tokens stay listed where they are, whatever is added or removed for this one. */
  lemma OthersStay(s: Server, s': Server, t: TokenValue)
    requires Complete(s) && s'.cells - {t} == s.cells - {t}
    requires forall i :: MembersOf(s, i) - {t} == MembersOf(s', i) - {t}
    requires t in s'.cells ==> s'.cells[t].raw.token == t && Indexed(s', t, Owner(s'.cells[t].raw))
    ensures Complete(s')
  {
    hide NewIndex, LegacyIndex, Owner, MembersOf;
    forall u | u in s'.cells && u != t
      ensures s'.cells[u].raw.token == u && Indexed(s', u, Owner(s'.cells[u].raw))
    {
      assert u in s.cells - {t} && u in s'.cells - {t};
      assert (s.cells - {t})[u] == (s'.cells - {t})[u];
      var owner := Owner(s.cells[u].raw);
      assert u in MembersOf(s, NewIndex(owner)) - {t} || u in MembersOf(s, LegacyIndex(owner)) - {t};
    }
  }

  lemma SaveKeepsComplete(s: Server, p: Pending, now: int)
    requires Complete(s) && PendingOk(p) && p.Saving?
    ensures Complete(RunScript(s, p, now))
  {
    hide NewIndex, LegacyIndex, Complete;
    var s', t := RunScript(s, p, now), p.token;
    if Seen(s, t) == p.seen {
      NormalOwner(p.next);
      assert t in MembersOf(s', NewIndex(p.next.Subject()));
      OthersStay(s, s', t);
    }
  }

  lemma ConsumeKeepsComplete(s: Server, p: Pending, now: int)
    requires Complete(s) && PendingOk(p) && p.Consuming?
    ensures Complete(RunScript(s, p, now))
  {
    hide NewIndex, LegacyIndex, Complete, Owner;
    var s', t := RunScript(s, p, now), p.token;
    if Seen(s, t) == p.seen {
      OwnCell(s, t);
      assert s.members == s'.members && s'.cells[t].raw == p.next && Owner(p.next) == Owner(s.cells[t].raw);
      assert Indexed(s, t, Owner(p.next)) ==> Indexed(s', t, Owner(p.next));
      OthersStay(s, s', t);
    }
  }

  lemma CleanupKeepsComplete(s: Server, p: Pending, now: int)
    requires Complete(s) && (p.Deleting? || p.Pruning?)
    ensures Complete(RunScript(s, p, now))
  {
    hide NewIndex, LegacyIndex, Complete;
    var s' := RunScript(s, p, now);
    if s' != s {
      OthersStay(s, s', p.token);
    }
  }

  lemma VanishKeepsComplete(s: Server, t: TokenValue)
    requires Complete(s)
    ensures Complete(s.(cells := s.cells - {t}))
  {
    OthersStay(s, s.(cells := s.cells - {t}), t);
  }

  lemma NormalOwner(state: TokenState)
    requires state.IsNormal()
    ensures Owner(state) == state.Subject()
  {
  }

  lemma OwnCell(s: Server, t: TokenValue)
    requires Complete(s)
    ensures t in s.cells ==> s.cells[t].raw.token == t && Indexed(s, t, Owner(s.cells[t].raw))
  {
  }

  lemma RunKeepsForm(s: Server, p: Pending, q: Pending, now: int)
    requires PendingOk(p) && ChangedByScripts(s, q)
    ensures ChangedByScripts(RunScript(s, p, now), q)
  {
    hide Owner;
  }

  lemma StepKeepsInv(w: World, a: Action)
    requires Inv(w) && Enabled(w, a)
    ensures Inv(Next(w, a))
  {
    hide Owner, Complete, RunScript, Decode, Seen, ChangedByScripts;
    match a
    case BeginSave(c, expected, state, ttl) => BegunIsOk(w.server, w.now, expected, state, ttl);
    case BeginConsume(c, t, wanted) => ConsumeBegunIsOk(w.server, w.now, t, wanted);
    case BeginDelete(c, t) => DeleteBegunIsOk(w.server, t);
    case BeginLookup(c, t, i) => LookupBegunIsOk(w.server, w.now, t, i);
    case Run(c) =>
      var p := w.pending[c];
      forall d | d in w.pending && d != c ensures ChangedByScripts(RunScript(w.server, p, w.now), w.pending[d]) {
        RunKeepsForm(w.server, p, w.pending[d], w.now);
      }
      if p.Saving? {
        SaveKeepsComplete(w.server, p, w.now);
      } else if p.Consuming? {
        ConsumeKeepsComplete(w.server, p, w.now);
      } else {
        CleanupKeepsComplete(w.server, p, w.now);
      }
    case Vanish(t) =>
      VanishKeepsComplete(w.server, t);
      forall d | d in w.pending ensures ChangedByScripts(w.server.(cells := w.server.cells - {t}), w.pending[d]) {
        VanishKeepsForm(w.server, t, w.pending[d]);
      }
    case _ =>
  }

  lemma VanishKeepsForm(s: Server, t: TokenValue, q: Pending)
    requires ChangedByScripts(s, q)
    ensures ChangedByScripts(s.(cells := s.cells - {t}), q)
  {
  }

  lemma BegunIsOk(s: Server, now: int, expected: Option<TokenState>, state: TokenState, ttl: int)
    requires S.CanSave(state)
    ensures var p := AfterReadToSave(Seen(s, state.token), expected, state, ttl, now);
            p.Some? ==> PendingOk(p.value) && ChangedByScripts(s, p.value)
  {
    hide Owner, Millis;
  }

  lemma ConsumeBegunIsOk(s: Server, now: int, t: TokenValue, wanted: Option<Kind>)
    requires Complete(s)
    ensures var p := AfterReadToConsume(t, Seen(s, t), wanted, now);
            p.Some? ==> PendingOk(p.value) && ChangedByScripts(s, p.value)
  {
    ConsumedKeepsOwner(s, t, now);
  }

  lemma DeleteBegunIsOk(s: Server, t: TokenValue)
    ensures PendingOk(Deleting(t, Seen(s, t))) && ChangedByScripts(s, Deleting(t, Seen(s, t)))
  {
  }

  lemma LookupBegunIsOk(s: Server, now: int, t: TokenValue, i: Index)
    ensures var p := AfterReadToFind(t, Seen(s, t), i, now);
            p.Some? ==> PendingOk(p.value) && ChangedByScripts(s, p.value)
  {
  }

  lemma ConsumedKeepsOwner(s: Server, t: TokenValue, now: int)
    requires Complete(s)
    ensures Decode(Seen(s, t)).Some? ==>
              var state := Decode(Seen(s, t)).value;
              Owner(state.MarkConsumed(now)) == Owner(s.cells[t].raw) && state.token == t
  {
  }

  /** The state stays indexed in every execution: from a server that is complete (one holding only data
      of the older layout, say) no interleaving of saves, consumptions, deletions, lookups that prune,
      and vanishing keys loses a token from its owner's indexes. */
  lemma IndexStaysComplete(worlds: seq<World>, actions: seq<Action>, n: nat)
    requires Execution(worlds, actions) && n < |worlds|
    requires Complete(worlds[0].server) && worlds[0].pending == map[]
    ensures Inv(worlds[n])
  {
    hide Complete, Execution;
    ExecutionKeepsInv(worlds, actions, n);
  }

  lemma {:induction false} ExecutionKeepsInv(worlds: seq<World>, actions: seq<Action>, n: nat)
    requires Execution(worlds, actions) && n < |worlds| && Inv(worlds[0])
    ensures Inv(worlds[n])
  {
    hide Inv, Next, Enabled;
    if n > 0 {
      ExecutionKeepsInv(worlds, actions, n - 1);
      StepKeepsInv(worlds[n - 1], actions[n - 1]);
    }
  }

  // ----- what the two-step calls amount to

  /** What clients can read. */
  function Shown(s: Server): map<TokenValue, TokenState> {
    map t | t in s.cells :: Decode(Seen(s, t)).value
  }

  lemma SwapStep(w: World, c: nat)
    requires Inv(w) && c in w.pending && w.pending[c].Saving? && w.pending[c].expected.Some?
    ensures SwappedAsContracted(w, c, Next(w, Run(c)).server)
  {
    hide Complete, Owner, SaveScript;
    var p := w.pending[c];
    ShownAfterSave(w.server, p.token, p.seen, p.next, Deadline(w.now, p.millis));
  }

  lemma ShownAfterSave(s: Server, t: TokenValue, seen: Snapshot, next: TokenState, deadline: Option<int>)
    requires next.IsNormal()
    ensures Seen(s, t) == seen ==> Shown(SaveScript(s, t, seen, next, deadline)) == Shown(s)[t := next]
    ensures Seen(s, t) != seen ==> SaveScript(s, t, seen, next, deadline) == s
  {
    hide NewIndex, LegacyIndex, Removed, Added;
  }

  lemma ShownAfterConsume(s: Server, t: TokenValue, seen: Snapshot, next: TokenState)
    requires next.IsNormal() && seen.raw.Some?
    ensures Seen(s, t) == seen ==> Shown(ConsumeScript(s, t, seen, next)) == Shown(s)[t := next]
    ensures Seen(s, t) != seen ==> ConsumeScript(s, t, seen, next) == s
  {
  }

  /** Granted, the call replaced the expected state and no other; refused, it changed nothing. For a snapshot
      in the present form, granted means that the stored state was the expected one. */
  ghost predicate SwappedAsContracted(w: World, c: nat, after': Server)
    requires c in w.pending && w.pending[c].Saving? && w.pending[c].expected.Some?
  {
    var p := w.pending[c];
    var before, after, granted := Shown(w.server), Shown(after'), Seen(w.server, p.token) == p.seen;
    && (granted ==> && p.token in before && before[p.token] == p.expected.value && !before[p.token].IsExpired(p.at)
                    && after == before[p.token := p.next])
    && (!granted ==> after' == w.server)
    && (PresentForm(p.seen) ==> (granted <==> p.token in before && before[p.token] == p.expected.value))
  }

  /** In every execution a swap is granted exactly when, at the moment of its script, the stored state is the
      expected one; it replaces that one state and touches no other, and it never creates a token. For a snapshot
      that still has the form of an older release only one half holds: see SpuriousRefusalIff. */
  lemma SwapLinearizes(worlds: seq<World>, actions: seq<Action>, n: nat, c: nat)
    requires Execution(worlds, actions) && n < |actions| && actions[n] == Run(c)
    requires Complete(worlds[0].server) && worlds[0].pending == map[]
    requires c in worlds[n].pending && worlds[n].pending[c].Saving? && worlds[n].pending[c].expected.Some?
    ensures SwappedAsContracted(worlds[n], c, worlds[n + 1].server)
  {
    hide Complete, SwappedAsContracted, Next;
    IndexStaysComplete(worlds, actions, n);
    SwapStep(worlds[n], c);
  }

  /** The token is there in all the worlds, and reads the same. */
  ghost predicate ShownThroughout(worlds: seq<World>, t: TokenValue) {
    forall i :: 0 <= i < |worlds| ==>
      t in worlds[i].server.cells && Decode(Seen(worlds[i].server, t)) == Decode(Seen(worlds[0].server, t))
  }

  /** The client's swap is begun first and carried out last; in between the expected state is there, unexpired, all
      the time, and the swap is refused nevertheless. */
  ghost predicate SpuriouslyRefused(worlds: seq<World>, actions: seq<Action>, c: nat, t: TokenValue, next: TokenState,
                                    ttl: int)
    requires |worlds| == |actions| + 1
  {
    var expected, n := Decode(Seen(worlds[0].server, t)), |actions| - 1;
    && n > 0 && actions[0] == BeginSave(c, expected, next, ttl) && actions[n] == Run(c)
    && c in worlds[1].pending && c in worlds[n].pending && worlds[n].pending[c] == worlds[1].pending[c]
    && ShownThroughout(worlds, t) && expected.Some? && !expected.value.IsExpired(worlds[n].now)
    && !Succeeds(worlds[n], actions[n])
  }

  /** From the world some continuation refuses a swap that begins there although its state is there all the time. */
  ghost predicate SwapCanFail(w: World, t: TokenValue, next: TokenState, ttl: int) {
    exists worlds: seq<World>, actions: seq<Action>, c: nat ::
      && |worlds| == |actions| + 1 && Execution(worlds, actions) && worlds[0] == w && c !in w.pending
      && SpuriouslyRefused(worlds, actions, c, t, next, ttl)
  }

  /** When a swap of what is stored can be refused: exactly when the read meets the form of an older release (a
      marker, or a state lacking kind, status or login type) of a state that can be saved. Another call may then
      write that very state in the present form, and the stored bytes are no longer those that were read. */
  lemma SpuriousRefusalIff(worlds: seq<World>, actions: seq<Action>, m: nat, t: TokenValue, next: TokenState, ttl: int)
    requires Execution(worlds, actions) && m < |worlds|
    requires Complete(worlds[0].server) && worlds[0].pending == map[]
    requires t in worlds[m].server.cells && next.token == t && S.CanSave(next)
    requires !Decode(Seen(worlds[m].server, t)).value.IsExpired(worlds[m].now)
    ensures var w, seen := worlds[m], Seen(worlds[m].server, t);
            SwapCanFail(w, t, next, ttl) <==> !PresentForm(seen) && S.CanSave(Decode(seen).value)
  {
    var w := worlds[m];
    ShownIsRead(w.server, t);
    hide Execution, Inv, Seen, Decode, PresentForm, SpuriouslyRefused, S.CanSave;
    IndexStaysComplete(worlds, actions, m);
    if ws: seq<World>, acts: seq<Action>, c: nat :|
      && |ws| == |acts| + 1 && Execution(ws, acts) && ws[0] == w && c !in w.pending
      && SpuriouslyRefused(ws, acts, c, t, next, ttl)
    {
      RefusalMeansOldForm(ws, acts, c, t, next, ttl);
    }
    var seen := Seen(w.server, t);
    if !PresentForm(seen) && S.CanSave(Decode(seen).value) {
      OldFormIsRefused(w, t, next, ttl);
    }
  }

  lemma OtherTokensStay(s: Server, p: Pending, now: int, t: TokenValue, i: Index)
    requires p.token != t
    ensures var s' := RunScript(s, p, now);
            && Seen(s', t) == Seen(s, t) && (t in MembersOf(s', i) <==> t in MembersOf(s, i))
            && (t in s'.cells <==> t in s.cells) && (t in s.cells ==> s'.cells[t] == s.cells[t])
  {
    hide NewIndex, LegacyIndex, Decode, Deadline;
  }

  lemma OwnSaveShows(s: Server, p: Pending, now: int)
    requires PendingOk(p) && p.Saving?
    ensures var s' := RunScript(s, p, now); s' == s || Decode(Seen(s', p.token)) == Some(p.next)
  {
    hide NewIndex, LegacyIndex, Deadline, S.CanSave;
  }

  lemma OwnConsumeShows(s: Server, p: Pending, now: int)
    requires PendingOk(p) && p.Consuming?
    ensures var s' := RunScript(s, p, now); s' == s || Decode(Seen(s', p.token)) != Decode(Seen(s, p.token))
  {
    hide Owner;
  }

  /** A step that leaves the state as it reads leaves its bytes and its index entries, if nobody could have saved it. */
  lemma Untouched(w: World, a: Action, t: TokenValue, i: Index)
    requires Inv(w) && Enabled(w, a) && t in w.server.cells && t in Next(w, a).server.cells
    requires Decode(Seen(Next(w, a).server, t)) == Decode(Seen(w.server, t))
    requires !S.CanSave(Decode(Seen(w.server, t)).value)
    ensures Seen(Next(w, a).server, t) == Seen(w.server, t)
    ensures t in MembersOf(w.server, i) ==> t in MembersOf(Next(w, a).server, i)
  {
    hide Complete, Decode, SaveScript, ConsumeScript, S.CanSave;
    if a.Run? {
      var p := w.pending[a.c];
      if p.token != t {
        OtherTokensStay(w.server, p, w.now, t, i);
      } else if p.Saving? {
        OwnSaveShows(w.server, p, w.now);
      } else if p.Consuming? {
        OwnConsumeShows(w.server, p, w.now);
      }
    }
  }

  lemma {:induction false} UntouchedThroughout(worlds: seq<World>, actions: seq<Action>, n: nat, t: TokenValue,
                                               i: Index)
    requires Execution(worlds, actions) && n < |worlds| && Inv(worlds[0]) && ShownThroughout(worlds, t)
    requires t in worlds[0].server.cells && !S.CanSave(Decode(Seen(worlds[0].server, t)).value)
    ensures Seen(worlds[n].server, t) == Seen(worlds[0].server, t)
    ensures t in MembersOf(worlds[0].server, i) ==> t in MembersOf(worlds[n].server, i)
  {
    hide Inv, Next, Enabled, Decode, Seen, MembersOf, S.CanSave;
    if n > 0 {
      UntouchedThroughout(worlds, actions, n - 1, t, i);
      ExecutionKeepsInv(worlds, actions, n - 1);
      assert t in worlds[n].server.cells;
      Untouched(worlds[n - 1], actions[n - 1], t, i);
    }
  }

  lemma RefusalMeansOldForm(worlds: seq<World>, actions: seq<Action>, c: nat, t: TokenValue, next: TokenState, ttl: int)
    requires |worlds| == |actions| + 1 && Execution(worlds, actions) && Inv(worlds[0]) && c !in worlds[0].pending
    requires SpuriouslyRefused(worlds, actions, c, t, next, ttl) && next.token == t
    ensures var seen := Seen(worlds[0].server, t);
            !PresentForm(seen) && Decode(seen).Some? && S.CanSave(Decode(seen).value)
  {
    hide Complete, Inv, S.CanSave, PresentForm, Shown;
    var n, seen := |actions| - 1, Seen(worlds[0].server, t);
    assert worlds[1].pending[c].Saving? && worlds[1].pending[c].seen == seen && worlds[1].pending[c].token == t;
    ExecutionKeepsInv(worlds, actions, n);
    assert t in worlds[n].server.cells;
    SwapStep(worlds[n], c);
    ShownIsRead(worlds[n].server, t);
    if !S.CanSave(Decode(seen).value) {
      UntouchedThroughout(worlds, actions, n, t, NewIndex(Owner(seen.raw.value)));
    }
  }

  lemma ShownIsRead(s: Server, t: TokenValue)
    requires t in s.cells
    ensures t in Shown(s) && Decode(Seen(s, t)) == Some(Shown(s)[t])
  {
  }

  /** Saving what is stored: the state reads as before, in the present form, and has moved to the new index. */
  lemma SavedAgain(s: Server, t: TokenValue, deadline: Option<int>)
    requires t in s.cells && Decode(Seen(s, t)).value.token == t
    ensures var seen := Seen(s, t);
            var e := Decode(seen).value;
            var s' := SaveScript(s, t, seen, e, deadline);
            t in s'.cells && Seen(s', t) == Snapshot(Some(e), "") && t !in MembersOf(s', LegacyIndex(e.Subject()))
  {
    var owner := Decode(Seen(s, t)).value.Subject();
    IndexesDiffer(owner);
    hide NewIndex, LegacyIndex, TokenState.Normalize;
  }

  lemma Rewritten(w: World, c: nat, t: TokenValue) returns (worlds: seq<World>, actions: seq<Action>)
    requires Inv(w) && c !in w.pending && t in w.server.cells && S.CanSave(Decode(Seen(w.server, t)).value)
    ensures |worlds| == 3 && worlds[0] == w && Execution(worlds, actions)
    ensures |actions| == 2 && actions == [BeginSave(c, None, Decode(Seen(w.server, t)).value, 0), Run(c)]
    ensures ShownThroughout(worlds, t) && worlds[2].pending == w.pending && worlds[2].now == w.now
    ensures var s, owner := worlds[2].server, Decode(Seen(w.server, t)).value.Subject();
            Seen(s, t) == Snapshot(Decode(Seen(w.server, t)), "") && t !in MembersOf(s, LegacyIndex(owner))
  {
    TokenIsShown(w.server, t);
    ShownIsNormal(w.server, t);
    var e := Decode(Seen(w.server, t)).value;
    var millis := SaveRuns(w, c, t);
    SavedAgain(w.server, t, Deadline(w.now, millis));
    hide Inv, Next, Enabled, Decode, S.CanSave, SaveScript, LegacyIndex, Seen;
    actions := [BeginSave(c, None, e, 0), Run(c)];
    worlds := TwoSteps(w, actions[0], actions[1], t);
  }

  lemma TwoSteps(w: World, a: Action, b: Action, t: TokenValue) returns (worlds: seq<World>)
    requires Enabled(w, a) && Enabled(Next(w, a), b)
    requires var s, s' := w.server, Next(Next(w, a), b).server;
             && t in s.cells && Next(w, a).server == s && t in s'.cells && Decode(Seen(s', t)) == Decode(Seen(s, t))
    ensures |worlds| == 3 && worlds[0] == w && worlds[2] == Next(Next(w, a), b)
    ensures Execution(worlds, [a, b]) && ShownThroughout(worlds, t)
  {
    hide Next, Enabled, Decode, Seen;
    worlds := [w, Next(w, a), Next(Next(w, a), b)];
  }

  lemma SaveRuns(w: World, c: nat, t: TokenValue) returns (millis: int)
    requires c !in w.pending && t in w.server.cells
    requires var e := Decode(Seen(w.server, t)).value; S.CanSave(e) && e.token == t && e.Normalize() == e
    ensures var seen := Seen(w.server, t);
            var e := Decode(seen).value;
            var save := BeginSave(c, None, e, 0);
            && Enabled(w, save) && Next(w, save).server == w.server && Enabled(Next(w, save), Run(c))
            && Next(Next(w, save), Run(c)) ==
                 World(SaveScript(w.server, t, seen, e, Deadline(w.now, millis)), w.now, w.pending)
  {
    var e := Decode(Seen(w.server, t)).value;
    millis := Millis(w.now, e, 0);
    hide Millis, S.CanSave, SaveScript, Seen, Decode, TokenState.Normalize;
    var begun := Next(w, BeginSave(c, None, e, 0));
    assert begun.pending - {c} == w.pending;
  }

  lemma ShownIsNormal(s: Server, t: TokenValue)
    requires t in s.cells
    ensures var e := Decode(Seen(s, t));
            e.Some? && e.value.IsNormal() && e.value.Normalize() == e.value && Decode(Snapshot(e, "")) == e
  {
  }

  lemma IndexesDiffer(owner: LoginSubject)
    ensures NewIndex(owner) != LegacyIndex(owner)
  {
  }

  lemma SwapBegins(w: World, c: nat, t: TokenValue, next: TokenState, ttl: int)
    requires Inv(w) && c !in w.pending && t in w.server.cells && next.token == t && S.CanSave(next)
    requires !Decode(Seen(w.server, t)).value.IsExpired(w.now)
    ensures var seen := Seen(w.server, t);
            var swap := BeginSave(c, Decode(seen), next, ttl);
            var p := Saving(t, seen, Decode(seen), next.Normalize(), Millis(w.now, next.Normalize(), ttl), w.now);
            Enabled(w, swap) && Next(w, swap) == w.(pending := w.pending[c := p])
  {
    hide Indexed, Millis, S.CanSave;
  }

  /** Between the read of a swap and its script another call saves what is stored. */
  lemma SavedBeside(w: World, c: nat, t: TokenValue, next: TokenState, ttl: int)
    returns (worlds: seq<World>, actions: seq<Action>)
    requires Inv(w) && (forall d :: d in w.pending ==> d < c)
    requires t in w.server.cells && next.token == t && S.CanSave(next)
    requires var seen := Seen(w.server, t);
             && !Decode(seen).value.IsExpired(w.now) && !PresentForm(seen) && S.CanSave(Decode(seen).value)
    ensures var swap := BeginSave(c, Decode(Seen(w.server, t)), next, ttl);
            && Enabled(w, swap) && Next(w, swap).server == w.server && c in Next(w, swap).pending
            && |worlds| == 3 && |actions| == 2 && worlds[0] == Next(w, swap)
            && worlds[2].pending == Next(w, swap).pending && worlds[2].now == w.now
    ensures Execution(worlds, actions) && ShownThroughout(worlds, t)
    ensures Enabled(worlds[2], Run(c)) && !Succeeds(worlds[2], Run(c))
    ensures Next(worlds[2], Run(c)).server == worlds[2].server
  {
    ShownIsNormal(w.server, t);
    hide Millis, S.CanSave, Decode, PresentForm, Seen;
    var swap := BeginSave(c, Decode(Seen(w.server, t)), next, ttl);
    SwapBegins(w, c, t, next, ttl);
    StepKeepsInv(w, swap);
    RewrittenDiffers(Seen(w.server, t));
    hide Inv, Enabled, Next, Execution;
    worlds, actions := Rewritten(Next(w, swap), c + 1, t);
    RefusedRun(worlds[2], c);
  }

  lemma OldFormIsRefused(w: World, t: TokenValue, next: TokenState, ttl: int)
    requires Inv(w) && t in w.server.cells && next.token == t && S.CanSave(next)
    requires var seen := Seen(w.server, t);
             && !Decode(seen).value.IsExpired(w.now) && !PresentForm(seen) && S.CanSave(Decode(seen).value)
    ensures SwapCanFail(w, t, next, ttl)
  {
    ShownIsNormal(w.server, t);
    hide Inv, Enabled, Next, Execution, Succeeds, S.CanSave, Decode, PresentForm, Seen;
    var c := FreshClient(w.pending.Keys);
    var ws, acts := SavedBeside(w, c, t, next, ttl);
    var swap := BeginSave(c, Decode(Seen(w.server, t)), next, ttl);
    var worlds, actions := Surrounded(w, swap, ws, acts, Run(c), t);
    assert SpuriouslyRefused(worlds, actions, c, t, next, ttl);
  }

  /** One step more at either end of an execution. */
  lemma Surrounded(w: World, first: Action, worlds: seq<World>, actions: seq<Action>, last: Action, t: TokenValue)
    returns (all: seq<World>, steps: seq<Action>)
    requires Execution(worlds, actions) && Enabled(w, first) && worlds[0] == Next(w, first)
    requires Enabled(worlds[|actions|], last)
    ensures |all| == |worlds| + 2 && |steps| == |actions| + 2 && Execution(all, steps)
    ensures all[0] == w && all[1] == worlds[0] && all[|steps| - 1] == worlds[|actions|]
    ensures steps[0] == first && steps[|steps| - 1] == last
    ensures forall i :: 0 < i <= |worlds| ==> all[i] == worlds[i - 1]
    ensures && ShownThroughout(worlds, t) && worlds[0].server == w.server
            && Next(worlds[|actions|], last).server == worlds[|actions|].server
            ==> ShownThroughout(all, t)
  {
    hide Enabled, Next, Seen, Decode;
    all, steps := [w] + worlds + [Next(worlds[|actions|], last)], [first] + actions + [last];
    forall i | 0 <= i < |steps| ensures Enabled(all[i], steps[i]) && all[i + 1] == Next(all[i], steps[i]) {
      if 0 < i <= |actions| {
        assert all[i] == worlds[i - 1] && all[i + 1] == worlds[i] && steps[i] == actions[i - 1];
      }
    }
    assert forall i :: 0 < i <= |worlds| ==> all[i] == worlds[i - 1];
  }

  lemma RewrittenDiffers(seen: Snapshot)
    requires !PresentForm(seen)
    ensures seen != Snapshot(Decode(seen), "")
  {
  }

  lemma RefusedRun(w: World, c: nat)
    requires c in w.pending && w.pending[c].Saving? && Seen(w.server, w.pending[c].token) != w.pending[c].seen
    ensures Enabled(w, Run(c)) && Next(w, Run(c)).server == w.server && !Succeeds(w, Run(c))
  {
  }

  /** What an upgrade meets: a token consumed under the older layout, by a marker beside its active state. */
  lemma SpuriousRefusal(state: TokenState, next: TokenState, ttl: int)
    requires state.IsNormal() && state.status == Active && S.CanSave(state) && state.expiresAt == None
    requires next.token == state.token && S.CanSave(next)
    ensures var t, index := state.token, map[NewIndex(state.Subject()) := {state.token}];
            SwapCanFail(World(Server(map[t := Cell(state, None)], map[t := "1"], index), 0, map[]), t, next, ttl)
  {
    hide NewIndex, LegacyIndex, SwapCanFail;
    var t, index := state.token, map[NewIndex(state.Subject()) := {state.token}];
    var w := World(Server(map[t := Cell(state, None)], map[t := "1"], index), 0, map[]);
    NormalOwner(state);
    assert t in MembersOf(w.server, NewIndex(Owner(state)));
    assert Seen(w.server, t) == Snapshot(Some(state), "1");
    SpuriousRefusalIff([w], [], 0, t, next, ttl);
  }

  // ----- expiry is judged at the read

  predicate KeyAlive(w: World, t: TokenValue) {
    t in w.server.cells && !Passed(w.server.cells[t].deadline, w.now)
  }

  /** The call begins first and its script comes last and is granted; by then the state it read has expired, but not
      the key. */
  ghost predicate GrantedLate(worlds: seq<World>, actions: seq<Action>, c: nat, t: TokenValue, begin: Action)
    requires |worlds| == |actions| + 1
  {
    var e, n := Decode(Seen(worlds[0].server, t)), |actions| - 1;
    && n > 0 && actions[0] == begin && actions[n] == Run(c)
    && c in worlds[1].pending && c in worlds[n].pending && worlds[n].pending[c] == worlds[1].pending[c]
    && Succeeds(worlds[n], actions[n]) && KeyAlive(worlds[n], t) && e.Some? && e.value.IsExpired(worlds[n].now)
  }

  /** From the world some continuation grants the call late; if asked for, with its key alive all the time. */
  ghost predicate LateGrant(w: World, c: nat, t: TokenValue, begin: Action, alive: bool) {
    exists worlds: seq<World>, actions: seq<Action> ::
      && |worlds| == |actions| + 1 && Execution(worlds, actions) && worlds[0] == w
      && GrantedLate(worlds, actions, c, t, begin)
      && (alive ==> forall i :: 0 <= i < |actions| ==> KeyAlive(worlds[i], t))
  }

  predicate KeyOutlivesState(s: Server, t: TokenValue)
    requires t in s.cells
  {
    var e, deadline := Decode(Seen(s, t)).value, s.cells[t].deadline;
    e.expiresAt.Some? && (deadline.Some? ==> e.expiresAt.value < deadline.value)
  }

  /** The state expires, and the bytes read can be there after that: the key outlives it already, or another call
      can write the same bytes anew. */
  predicate CanBeLate(s: Server, t: TokenValue)
    requires t in s.cells
  {
    var e := Decode(Seen(s, t)).value;
    e.expiresAt.Some? && (KeyOutlivesState(s, t) || (PresentForm(Seen(s, t)) && S.CanSave(e)))
  }

  /** The expiry of the expected state is judged when the call reads the clock, not when its script runs, and the
      script compares bytes. When a swap can therefore be granted for a state that has expired since. */
  lemma LateSwapIff(w: World, c: nat, t: TokenValue, next: TokenState, ttl: int, alive: bool)
    requires Inv(w) && c !in w.pending && t in w.server.cells && next.token == t && S.CanSave(next)
    requires !Decode(Seen(w.server, t)).value.IsExpired(w.now)
    ensures var swap := BeginSave(c, Decode(Seen(w.server, t)), next, ttl);
            LateGrant(w, c, t, swap, alive) <==> CanBeLate(w.server, t) && (alive ==> KeyAlive(w, t))
  {
    hide Inv, Begins, Decode, Seen, S.CanSave, KeyAlive, CanBeLate, LateGrant;
    SwapIsBegun(w, c, t, next, ttl);
    LateIff(w, c, t, BeginSave(c, Decode(Seen(w.server, t)), next, ttl), alive);
  }

  lemma SwapIsBegun(w: World, c: nat, t: TokenValue, next: TokenState, ttl: int)
    requires Inv(w) && c !in w.pending && t in w.server.cells && next.token == t && S.CanSave(next)
    requires !Decode(Seen(w.server, t)).value.IsExpired(w.now)
    ensures Begins(w, c, t, BeginSave(c, Decode(Seen(w.server, t)), next, ttl))
  {
    SwapBegins(w, c, t, next, ttl);
    hide Decode, Enabled, Next, Inv, Seen, S.CanSave, Millis;
  }

  /** Consumptions likewise. */
  lemma LateConsumptionIff(w: World, c: nat, t: TokenValue, wanted: Option<Kind>, alive: bool)
    requires Inv(w) && c !in w.pending && t in w.server.cells
    requires var state := Decode(Seen(w.server, t)).value;
             state.IsActive(w.now) && (wanted.Some? ==> state.kind == wanted.value)
    ensures LateGrant(w, c, t, BeginConsume(c, t, wanted), alive)
            <==> CanBeLate(w.server, t) && (alive ==> KeyAlive(w, t))
  {
    hide Inv, KeyAlive, CanBeLate, LateGrant, TokenState.Normalize;
    LateIff(w, c, t, BeginConsume(c, t, wanted), alive);
  }

  /** The first step is the read of a call that goes on to its script. */
  predicate Begins(w: World, c: nat, t: TokenValue, begin: Action) {
    && c !in w.pending && t in w.server.cells && Enabled(w, begin)
    && var later := Next(w, begin);
    && later.server == w.server && later.now == w.now && later.pending.Keys == w.pending.Keys + {c}
    && !later.pending[c].Pruning? && later.pending[c].token == t && later.pending[c].seen == Seen(w.server, t)
  }

  lemma LateIff(w: World, c: nat, t: TokenValue, begin: Action, alive: bool)
    requires Inv(w) && Begins(w, c, t, begin) && !Decode(Seen(w.server, t)).value.IsExpired(w.now)
    ensures LateGrant(w, c, t, begin, alive) <==> CanBeLate(w.server, t) && (alive ==> KeyAlive(w, t))
  {
    assert t in w.server.cells;
    hide Inv, Begins, LateGrant, CanBeLate, KeyAlive, KeyOutlivesState, Decode, Seen;
    if LateGrant(w, c, t, begin, alive) {
      LateMeansRewritable(w, c, t, begin, alive);
    } else if CanBeLate(w.server, t) {
      if KeyOutlivesState(w.server, t) {
        ExpiresBeside(w, c, t, begin);
      } else {
        RewrittenBeside(w, c, t, begin);
      }
    }
  }

  /** What a stored state can have become since s0: it is untouched; or it has been written in the present form, by
      someone who could save it, or as consumed. */
  ghost predicate Descends(s0: Server, s: Server, t: TokenValue)
    requires t in s0.cells
  {
    t in s.cells ==>
      || (s.cells[t] == s0.cells[t] && Seen(s, t) == Seen(s0, t))
      || (&& PresentForm(Seen(s, t))
          && (|| S.CanSave(s.cells[t].raw)
              || (s.cells[t].raw.status == Consumed && Decode(Seen(s0, t)).value.status == Active)))
  }

  lemma DescendsFromItself(s: Server, t: TokenValue)
    requires t in s.cells
    ensures Descends(s, s, t)
  {
  }

  lemma RunDescends(s0: Server, s: Server, p: Pending, now: int, t: TokenValue)
    requires t in s0.cells && Descends(s0, s, t) && PendingOk(p) && p.token == t
    ensures Descends(s0, RunScript(s, p, now), t)
  {
    hide NewIndex, LegacyIndex, Owner, Deadline;
  }

  lemma StepDescends(s0: Server, w: World, a: Action, t: TokenValue)
    requires t in s0.cells && Descends(s0, w.server, t) && Inv(w) && Enabled(w, a)
    ensures Descends(s0, Next(w, a).server, t)
  {
    hide Complete, RunScript, Decode, PresentForm, S.CanSave;
    if a.Run? {
      var p := w.pending[a.c];
      if p.token == t {
        RunDescends(s0, w.server, p, w.now, t);
      } else {
        OtherTokensStay(w.server, p, w.now, t, V2(LoginSubject("", "")));
      }
    }
  }

  lemma {:induction false} ExecutionDescends(worlds: seq<World>, actions: seq<Action>, n: nat, t: TokenValue)
    requires Execution(worlds, actions) && n < |worlds| && Inv(worlds[0]) && t in worlds[0].server.cells
    ensures Descends(worlds[0].server, worlds[n].server, t)
  {
    hide Inv, Next, Enabled, Descends;
    if n == 0 {
      DescendsFromItself(worlds[0].server, t);
    } else {
      ExecutionDescends(worlds, actions, n - 1, t);
      ExecutionKeepsInv(worlds, actions, n - 1);
      StepDescends(worlds[0].server, worlds[n - 1], actions[n - 1], t);
    }
  }

  lemma LateMeansRewritable(w: World, c: nat, t: TokenValue, begin: Action, alive: bool)
    requires Inv(w) && Begins(w, c, t, begin) && LateGrant(w, c, t, begin, alive)
    ensures CanBeLate(w.server, t) && (alive ==> KeyAlive(w, t))
  {
    hide Inv, Begins, Execution, GrantedLate, CanBeLate, KeyAlive;
    var worlds: seq<World>, actions: seq<Action> :|
      && |worlds| == |actions| + 1 && Execution(worlds, actions) && worlds[0] == w
      && GrantedLate(worlds, actions, c, t, begin)
      && (alive ==> forall i :: 0 <= i < |actions| ==> KeyAlive(worlds[i], t));
    LateRunMeansRewritable(worlds, actions, c, t, begin);
  }

  lemma LateRunMeansRewritable(worlds: seq<World>, actions: seq<Action>, c: nat, t: TokenValue, begin: Action)
    requires |worlds| == |actions| + 1 && Execution(worlds, actions) && Inv(worlds[0])
    requires Begins(worlds[0], c, t, begin) && GrantedLate(worlds, actions, c, t, begin)
    ensures |actions| > 0 && CanBeLate(worlds[0].server, t)
  {
    hide Inv, Next, Enabled;
    var n := |actions| - 1;
    assert worlds[1] == Next(worlds[0], begin);
    assert Seen(worlds[n].server, t) == Seen(worlds[0].server, t);
    hide Execution, S.CanSave;
    ExecutionDescends(worlds, actions, n, t);
  }

  /** What goes on between the read and the script makes the call a late one. */
  lemma LateAround(w: World, c: nat, t: TokenValue, begin: Action, worlds: seq<World>, actions: seq<Action>)
    requires Begins(w, c, t, begin) && Execution(worlds, actions) && worlds[0] == Next(w, begin)
    requires var last := worlds[|actions|];
             && c in last.pending && last.pending[c] == worlds[0].pending[c] && KeyAlive(last, t)
             && Seen(last.server, t) == Seen(w.server, t) && Decode(Seen(w.server, t)).value.IsExpired(last.now)
    ensures LateGrant(w, c, t, begin, false)
    ensures KeyAlive(w, t) && (forall i :: 0 <= i < |worlds| ==> KeyAlive(worlds[i], t)) ==>
              LateGrant(w, c, t, begin, true)
  {
    assert Enabled(worlds[|actions|], Run(c)) && Succeeds(worlds[|actions|], Run(c));
    assert Enabled(w, begin) && Decode(Seen(w.server, t)).Some?;
    hide Enabled, Next, Seen, Decode, Execution, KeyAlive, Succeeds, Begins;
    var all, steps := Surrounded(w, begin, worlds, actions, Run(c), t);
    assert GrantedLate(all, steps, c, t, begin);
  }

  /** Only the clock moves between the read and the script. */
  lemma ExpiresBeside(w: World, c: nat, t: TokenValue, begin: Action)
    requires Begins(w, c, t, begin) && !Decode(Seen(w.server, t)).value.IsExpired(w.now)
    requires KeyOutlivesState(w.server, t)
    ensures LateGrant(w, c, t, begin, false) && LateGrant(w, c, t, begin, true)
  {
    var begun, until := Next(w, begin), Decode(Seen(w.server, t)).value.expiresAt.value;
    var worlds, actions := [begun, begun.(now := until)], [Tick(until)];
    assert Execution(worlds, actions) && KeyAlive(w, t) && KeyAlive(begun, t) && KeyAlive(begun.(now := until), t);
    hide Enabled, Next, Seen, Decode, Execution, KeyAlive;
    LateAround(w, c, t, begin, worlds, actions);
  }

  lemma SaveBegins(w: World, d: nat, next: TokenState)
    requires d !in w.pending && S.CanSave(next) && next.IsNormal()
    ensures var save, seen := BeginSave(d, None, next, 0), Seen(w.server, next.token);
            var p := Saving(next.token, seen, None, next, Millis(w.now, next, 0), w.now);
            Enabled(w, save) && Next(w, save) == w.(pending := w.pending[d := p])
  {
    hide Millis, S.CanSave, Decode, Seen;
  }

  lemma SaveEnds(w: World, d: nat, next: TokenState, millis: int, until: int)
    requires d !in w.pending && w.now <= until
    ensures var p := Saving(next.token, Seen(w.server, next.token), None, next, millis, w.now);
            var begun := w.(pending := w.pending[d := p]);
            && Enabled(begun, Tick(until)) && Next(begun, Tick(until)) == begun.(now := until)
            && Enabled(begun.(now := until), Run(d))
            && var last := Next(begun.(now := until), Run(d));
            && last.pending == w.pending && last.now == until
            && next.token in last.server.cells && Seen(last.server, next.token) == Snapshot(Some(next), "")
            && last.server.cells[next.token].deadline == Deadline(until, millis)
  {
    var seen := Seen(w.server, next.token);
    var p := Saving(next.token, seen, None, next, millis, w.now);
    assert w.pending[d := p] - {d} == w.pending;
    SavedShows(w.server, seen, next, Deadline(until, millis));
    hide Deadline, Seen, SaveScript;
  }

  /** A save that nothing disturbs, its script run at a later time. */
  lemma SavedLater(w: World, d: nat, next: TokenState, until: int) returns (worlds: seq<World>, actions: seq<Action>)
    requires d !in w.pending && S.CanSave(next) && next.IsNormal() && w.now <= until
    ensures |worlds| == 4 && |actions| == 3 && worlds[0] == w && Execution(worlds, actions)
    ensures worlds[3].pending == w.pending && worlds[3].now == until
    ensures forall i :: 0 <= i < 3 ==> worlds[i].server == w.server && worlds[i].now <= until
    ensures var s, t := worlds[3].server, next.token;
            && t in s.cells && Seen(s, t) == Snapshot(Some(next), "")
            && s.cells[t].deadline == Deadline(until, Millis(w.now, next, 0))
  {
    SaveBegins(w, d, next);
    SaveEnds(w, d, next, Millis(w.now, next, 0), until);
    hide Enabled, Next, Millis, S.CanSave, Seen, Deadline;
    actions := [BeginSave(d, None, next, 0), Tick(until), Run(d)];
    var begun := Next(w, actions[0]);
    var later := begun.(now := until);
    worlds := [w, begun, later, Next(later, Run(d))];
  }

  lemma SavedShows(s: Server, seen: Snapshot, next: TokenState, deadline: Option<int>)
    requires Seen(s, next.token) == seen
    ensures var s', t := SaveScript(s, next.token, seen, next, deadline), next.token;
            t in s'.cells && Seen(s', t) == Snapshot(Some(next), "") && s'.cells[t].deadline == deadline
  {
    hide NewIndex, LegacyIndex, Decode;
  }

  /** One execution after another. */
  lemma Joined(worlds: seq<World>, actions: seq<Action>, worlds': seq<World>, actions': seq<Action>)
    returns (all: seq<World>, steps: seq<Action>)
    requires Execution(worlds, actions) && Execution(worlds', actions') && worlds[|actions|] == worlds'[0]
    ensures Execution(all, steps) && |steps| == |actions| + |actions'| && |all| == |steps| + 1
    ensures forall i :: 0 <= i < |worlds| ==> all[i] == worlds[i]
    ensures forall i :: 0 <= i < |worlds'| ==> all[|actions| + i] == worlds'[i]
  {
    hide Enabled, Next;
    all, steps := worlds[..|actions|] + worlds', actions + actions';
    assert all[|actions|] == worlds[|actions|];
    forall i | 0 <= i < |steps| ensures Enabled(all[i], steps[i]) && all[i + 1] == Next(all[i], steps[i]) {
      if i >= |actions| {
        assert all[i] == worlds'[i - |actions|] && all[i + 1] == worlds'[i + 1 - |actions|];
      }
    }
  }

  lemma SavedKeyIsAlive(now: int, state: TokenState, until: int)
    requires state.expiresAt.Some? ==> until <= state.expiresAt.value
    ensures !Passed(Deadline(until, Millis(now, state, 0)), until)
  {
  }

  /** Another call replaces the state by one that does not expire, and puts it back when its time is up. */
  lemma PutBack(w: World, t: TokenValue) returns (worlds: seq<World>, actions: seq<Action>)
    requires t in w.server.cells
    requires var e := Decode(Seen(w.server, t)).value;
             e.token == t && S.CanSave(e) && e.expiresAt.Some? && !e.IsExpired(w.now)
    ensures Execution(worlds, actions) && worlds[0] == w
    ensures var e, last := Decode(Seen(w.server, t)), worlds[|actions|];
            && Seen(last.server, t) == Snapshot(e, "") && last.now == e.value.expiresAt.value
            && last.pending == w.pending && KeyAlive(last, t)
    ensures KeyAlive(w, t) ==> forall i :: 0 <= i < |worlds| ==> KeyAlive(worlds[i], t)
  {
    ShownIsNormal(w.server, t);
    var e := Decode(Seen(w.server, t)).value;
    var forever := e.(expiresAt := None);
    assert S.CanSave(forever);
    SavedKeyIsAlive(w.now, e, e.expiresAt.value);
    assert Deadline(w.now, Millis(w.now, forever, 0)) == None;
    hide Enabled, Next, Execution, Seen, Decode, S.CanSave, Millis, Deadline;
    var d := FreshClient(w.pending.Keys);
    var ws, acts := SavedLater(w, d, forever, w.now);
    var vs, acts' := SavedLater(ws[3], d, e, e.expiresAt.value);
    worlds, actions := Joined(ws, acts, vs, acts');
    assert |worlds| == 7 && worlds[6] == vs[3];
    if KeyAlive(w, t) {
      forall i | 0 <= i < 7 ensures KeyAlive(worlds[i], t) {
        assert i < 3 ==> worlds[i] == ws[i];
        assert i >= 3 ==> worlds[i] == vs[i - 3];
      }
    }
  }

  /** The bytes read are written anew between the read and the script. */
  lemma RewrittenBeside(w: World, c: nat, t: TokenValue, begin: Action)
    requires Inv(w) && Begins(w, c, t, begin) && !Decode(Seen(w.server, t)).value.IsExpired(w.now)
    requires CanBeLate(w.server, t) && !KeyOutlivesState(w.server, t)
    ensures LateGrant(w, c, t, begin, false) && (KeyAlive(w, t) ==> LateGrant(w, c, t, begin, true))
  {
    var e, begun := Decode(Seen(w.server, t)).value, Next(w, begin);
    TokenIsShown(w.server, t);
    assert Seen(w.server, t) == Snapshot(Some(e), "") && c in begun.pending;
    assert KeyAlive(w, t) ==> KeyAlive(begun, t);
    hide Inv, Begins, Enabled, Next, Execution, Seen, Decode, S.CanSave, KeyAlive;
    var worlds, actions := PutBack(begun, t);
    LateAround(w, c, t, begin, worlds, actions);
  }

  /** A state that its key does not outlive, granted late all the same. */
  lemma LateSwap(state: TokenState, next: TokenState, ttl: int)
    requires state.IsNormal() && S.CanSave(state) && state.expiresAt.Some? && state.expiresAt.value > 0
    requires next.token == state.token && S.CanSave(next)
    ensures var t, index := state.token, map[NewIndex(state.Subject()) := {state.token}];
            var w := World(Server(map[t := Cell(state, state.expiresAt)], map[], index), 0, map[]);
            !KeyOutlivesState(w.server, t) && LateGrant(w, 0, t, BeginSave(0, Some(state), next, ttl), true)
  {
    var t, index := state.token, map[NewIndex(state.Subject()) := {state.token}];
    var w := World(Server(map[t := Cell(state, state.expiresAt)], map[], index), 0, map[]);
    assert t in MembersOf(w.server, NewIndex(state.Subject()));
    NormalOwner(state);
    hide NewIndex, LegacyIndex, LateGrant;
    assert Seen(w.server, t) == Snapshot(Some(state), "");
    LateSwapIff(w, 0, t, next, ttl, true);
  }

  lemma ConsumeStep(w: World, c: nat)
    requires Inv(w) && c in w.pending && w.pending[c].Consuming?
    ensures ConsumedAsContracted(w, c, Next(w, Run(c)).server)
  {
    hide Complete, Owner, ConsumeScript;
    var p := w.pending[c];
    ShownAfterConsume(w.server, p.token, p.seen, p.next);
  }

  ghost predicate ConsumedAsContracted(w: World, c: nat, after: Server)
    requires c in w.pending && w.pending[c].Consuming?
  {
    var p, before := w.pending[c], Shown(w.server);
    if Seen(w.server, p.token) == p.seen then
      && p.token in before && before[p.token].IsActive(p.at)
      && Shown(after) == before[p.token := before[p.token].MarkConsumed(p.at)]
    else after == w.server
  }

  /** In every execution a consumption that succeeds found, at the moment of its script, a state that was active
      when the call read the clock, and changed it and nothing else; one that fails changes nothing. */
  lemma ConsumeLinearizes(worlds: seq<World>, actions: seq<Action>, n: nat, c: nat)
    requires Execution(worlds, actions) && n < |actions| && actions[n] == Run(c)
    requires Complete(worlds[0].server) && worlds[0].pending == map[]
    requires c in worlds[n].pending && worlds[n].pending[c].Consuming?
    ensures ConsumedAsContracted(worlds[n], c, worlds[n + 1].server)
  {
    hide Complete, ConsumedAsContracted, Next;
    IndexStaysComplete(worlds, actions, n);
    ConsumeStep(worlds[n], c);
  }

  predicate IsActiveIn(s: Server, t: TokenValue) {
    t in s.cells && Decode(Seen(s, t)).value.status == Active
  }

  predicate Succeeds(w: World, a: Action) {
    && a.Run? && a.c in w.pending && !w.pending[a.c].Pruning?
    && Seen(w.server, w.pending[a.c].token) == w.pending[a.c].seen
  }

  /** Successful consumptions of a token among the first n actions. */
  function Wins(worlds: seq<World>, actions: seq<Action>, t: TokenValue, n: nat): nat
    requires n <= |actions| && |worlds| == |actions| + 1
  {
    if n == 0 then 0
    else
      var w, a := worlds[n - 1], actions[n - 1];
      Wins(worlds, actions, t, n - 1) +
      if Succeeds(w, a) && w.pending[a.c].Consuming? && w.pending[a.c].token == t then 1 else 0
  }

  /** Writes of a token in active status among the first n actions. */
  function Writes(worlds: seq<World>, actions: seq<Action>, t: TokenValue, n: nat): nat
    requires n <= |actions| && |worlds| == |actions| + 1
  {
    if n == 0 then 0
    else
      var w, a := worlds[n - 1], actions[n - 1];
      Writes(worlds, actions, t, n - 1) +
      if Succeeds(w, a) && w.pending[a.c].Saving? && w.pending[a.c].token == t && w.pending[a.c].next.status == Active
      then 1 else 0
  }

  lemma StepConserves(w: World, a: Action, t: TokenValue)
    requires Inv(w) && Enabled(w, a)
    ensures var won := Succeeds(w, a) && w.pending[a.c].Consuming? && w.pending[a.c].token == t;
            var wrote := Succeeds(w, a) && w.pending[a.c].Saving? && w.pending[a.c].token == t
                         && w.pending[a.c].next.status == Active;
            (if won then 1 else 0) + (if IsActiveIn(Next(w, a).server, t) then 1 else 0)
            <= (if wrote then 1 else 0) + if IsActiveIn(w.server, t) then 1 else 0
  {
    hide Complete, Owner;
  }

  /** Each active write of a token has at most one consumer, whatever the interleaving. */
  lemma {:induction false} ConsumersBounded(worlds: seq<World>, actions: seq<Action>, t: TokenValue, n: nat)
    requires Execution(worlds, actions) && n <= |actions|
    requires Complete(worlds[0].server) && worlds[0].pending == map[]
    ensures Wins(worlds, actions, t, n) + (if IsActiveIn(worlds[n].server, t) then 1 else 0)
            <= Writes(worlds, actions, t, n) + if IsActiveIn(worlds[0].server, t) then 1 else 0
  {
    hide Succeeds, Next, Enabled, IsActiveIn, Complete;
    if n > 0 {
      ConsumersBounded(worlds, actions, t, n - 1);
      IndexStaysComplete(worlds, actions, n - 1);
      StepConserves(worlds[n - 1], actions[n - 1], t);
    }
  }

  // ----- looking up all states of a subject

  predicate Wanted(s: Server, t: TokenValue, subject: LoginSubject, kinds: set<Kind>, now: int) {
    t in s.cells &&
    var state := Decode(Seen(s, t)).value;
    !state.IsExpired(now) && state.Subject().Normalize() == subject && S.MatchKind(state.kind, kinds)
  }

  /** Every wanted state is there, nothing else is, and nothing is there twice. */
  ghost predicate ListsOnce(s: Server, subject: LoginSubject, kinds: set<Kind>, now: int, visited: set<TokenValue>,
                            result: seq<TokenState>) {
    && (forall t :: t in visited && Wanted(s, t, subject, kinds, now) ==> Shown(s)[t] in result)
    && (forall i :: 0 <= i < |result| ==>
          var t := result[i].token;
          t in visited && Wanted(s, t, subject, kinds, now) && Shown(s)[t] == result[i])
    && (forall i, j :: 0 <= i < j < |result| ==> result[i].token != result[j].token)
  }

  /** Only what has expired is gone, and no set has grown. */
  ghost predicate Cleaned(s: Server, s': Server, now: int) {
    && (forall t :: t in s'.cells ==> t in s.cells && Seen(s', t) == Seen(s, t))
    && (forall t :: t in s.cells && !Decode(Seen(s, t)).value.IsExpired(now) ==> t in s'.cells)
    && (forall i :: MembersOf(s', i) <= MembersOf(s, i))
  }

  lemma CleanupIsCleaning(s: Server, s': Server, p: Pending, now: int)
    requires Cleaned(s, s', now)
    requires p.Pruning? || (p.Deleting? && Decode(p.seen).Some? && Decode(p.seen).value.IsExpired(now))
    ensures Cleaned(s, RunScript(s', p, now), now)
  {
    hide NewIndex, LegacyIndex, TokenState.Normalize;
  }

  lemma CleaningShows(s: Server, s': Server, t: TokenValue, subject: LoginSubject, kinds: set<Kind>, now: int)
    requires Cleaned(s, s', now)
    ensures Wanted(s, t, subject, kinds, now) ==> t in s'.cells && Shown(s')[t] == Shown(s)[t]
    ensures t in s'.cells ==> t in s.cells && Shown(s')[t] == Shown(s)[t]
  {
  }

  /** A wanted state is in the first index when that is read, or in the second when that is. */
  lemma WantedIsIndexed(s: Server, s': Server, t: TokenValue, subject: LoginSubject, kinds: set<Kind>, now: int)
    requires Complete(s') && Cleaned(s, s', now) && Wanted(s, t, subject, kinds, now)
    ensures t in MembersOf(s, V2(subject)) || t in MembersOf(s', Legacy(subject.loginType + ":" + subject.loginID))
  {
    hide MembersOf, LoginSubject.Normalize;
    CleaningShows(s, s', t, subject, kinds, now);
    OwnerIsShown(s', t);
    var owner := Owner(s'.cells[t].raw);
    assert owner.Normalize() == subject;
    assert Indexed(s', t, owner);
    assert MembersOf(s', V2(subject)) <= MembersOf(s, V2(subject));
  }

  lemma OwnerIsShown(s: Server, t: TokenValue)
    requires t in s.cells
    ensures Owner(s.cells[t].raw) == Shown(s)[t].Subject()
  {
  }

  // ----- a lookup reads the two indexes one after the other

  /** The lookup comes upon the token: in the owner's new index in s, or in the older one later, in s'. */
  predicate ComesUpon(s: Server, s': Server, t: TokenValue, owner: LoginSubject) {
    t in MembersOf(s, NewIndex(owner)) || t in MembersOf(s', LegacyIndex(owner))
  }

  /** In every execution a lookup misses a token that is its subject's at both steps if and only if the token was in
      the older index only, and was moved to the new one in between. */
  lemma LookupMissesOnlyMoved(worlds: seq<World>, actions: seq<Action>, m: nat, n: nat, t: TokenValue,
                              owner: LoginSubject)
    requires Execution(worlds, actions) && m <= n < |worlds|
    requires Complete(worlds[0].server) && worlds[0].pending == map[]
    requires t in worlds[m].server.cells && Owner(worlds[m].server.cells[t].raw).Normalize() == owner.Normalize()
    requires t in worlds[n].server.cells && Owner(worlds[n].server.cells[t].raw).Normalize() == owner.Normalize()
    ensures var s, s' := worlds[m].server, worlds[n].server;
            !ComesUpon(s, s', t, owner) <==>
              && t !in MembersOf(s, NewIndex(owner)) && t in MembersOf(s, LegacyIndex(owner))
              && t in MembersOf(s', NewIndex(owner)) && t !in MembersOf(s', LegacyIndex(owner))
  {
    hide Execution, Owner, LoginSubject.Normalize;
    IndexStaysComplete(worlds, actions, m);
    IndexStaysComplete(worlds, actions, n);
    OwnCell(worlds[m].server, t);
    OwnCell(worlds[n].server, t);
  }

  /** From the world some continuation makes a lookup that begins there miss a token that is there, live and
      unchanged, all the time. */
  ghost predicate LookupCanMiss(w: World, t: TokenValue) {
    exists worlds: seq<World>, actions: seq<Action> ::
      && |worlds| == |actions| + 1 && Execution(worlds, actions) && worlds[0] == w && Missed(worlds, t)
  }

  ghost predicate Missed(worlds: seq<World>, t: TokenValue)
    requires worlds != []
  {
    var last, e := worlds[|worlds| - 1], Decode(Seen(worlds[0].server, t));
    && ShownThroughout(worlds, t) && e.Some? && !e.value.IsExpired(last.now)
    && !ComesUpon(worlds[0].server, last.server, t, e.value.Subject())
  }

  /** The condition a caller could check before the call: a lookup can miss a live token exactly when that is in the
      older index only, of a state that can be saved. */
  lemma LookupCanMissIff(worlds: seq<World>, actions: seq<Action>, m: nat, t: TokenValue)
    requires Execution(worlds, actions) && m < |worlds|
    requires Complete(worlds[0].server) && worlds[0].pending == map[]
    requires t in worlds[m].server.cells && !Decode(Seen(worlds[m].server, t)).value.IsExpired(worlds[m].now)
    ensures var w, e := worlds[m], Decode(Seen(worlds[m].server, t)).value;
            LookupCanMiss(w, t) <==> t !in MembersOf(w.server, NewIndex(e.Subject())) && S.CanSave(e)
  {
    var w := worlds[m];
    ShownIsNormal(w.server, t);
    hide Execution, Inv, Seen, Decode, S.CanSave, NewIndex, LegacyIndex, MembersOf, Missed;
    IndexStaysComplete(worlds, actions, m);
    var e := Decode(Seen(w.server, t)).value;
    if ws: seq<World>, acts: seq<Action> :|
      |ws| == |acts| + 1 && Execution(ws, acts) && ws[0] == w && Missed(ws, t)
    {
      MissMeansOld(ws, acts, t);
    }
    if t !in MembersOf(w.server, NewIndex(e.Subject())) && S.CanSave(e) {
      var c := FreshClient(w.pending.Keys);
      var ws, acts := Rewritten(w, c, t);
      assert Missed(ws, t);
    }
  }

  lemma MissMeansOld(worlds: seq<World>, actions: seq<Action>, t: TokenValue)
    requires |worlds| == |actions| + 1 && Execution(worlds, actions) && Inv(worlds[0]) && Missed(worlds, t)
    ensures var e := Decode(Seen(worlds[0].server, t));
            e.Some? && t !in MembersOf(worlds[0].server, NewIndex(e.value.Subject())) && S.CanSave(e.value)
  {
    var s, n := worlds[0].server, |actions|;
    OwnerIsShown(s, t);
    ShownIsRead(s, t);
    hide Execution, Decode, Seen, S.CanSave, NewIndex, LegacyIndex, MembersOf, Owner;
    var owner := Decode(Seen(s, t)).value.Subject();
    OwnCell(s, t);
    if !S.CanSave(Decode(Seen(s, t)).value) {
      UntouchedThroughout(worlds, actions, n, t, LegacyIndex(owner));
    }
  }

  lemma DeletedIsGone(s: Server, t: TokenValue, now: int)
    ensures t !in RunScript(s, Deleting(t, Seen(s, t)), now).cells
  {
  }

  class Store {
    var server: Server

    /** Saving and swapping: read, compare and write. With nothing beside the call the token is as it was read, so the
        one attempt decides. */
    method SaveTokenState(expected: Option<TokenState>, state: TokenState, ttl: int, now: int) returns (ok: bool)
      requires Complete(server) && (expected.Some? ==> expected.value.token == state.token)
      modifies this
      ensures Complete(server)
      ensures var t, before := state.token, Shown(old(server));
              && (ok <==> && S.CanSave(state)
                          && (expected.Some? ==> t in before && before[t] == expected.value
                                                 && !expected.value.IsExpired(now)))
              && (if ok then Shown(server) == before[t := state.Normalize()] else server == old(server))
    {
      hide Complete, S.CanSave, SaveScript, TokenState.Normalize;
      if state.token == "" {
        SavableOrNot(state);
        return false;
      }
      var next := state.Normalize();
      SavableOrNot(state);
      if next.loginID == "" && next.kind != Nonce {
        return false;
      }
      var seen := Seen(server, state.token);
      var call := AfterReadToSave(seen, expected, state, ttl, now);
      if call.None? {
        return false;
      }
      BegunIsOk(server, now, expected, state, ttl);
      SaveKeepsComplete(server, call.value, now);
      ShownAfterSave(server, state.token, seen, next, Deadline(now, call.value.millis));
      server := RunScript(server, call.value, now);
      return true;
    }

    method GetTokenState(t: TokenValue, now: int) returns (state: Option<TokenState>)
      requires Complete(server)
      modifies this
      ensures Complete(server) && Cleaned(old(server), server, now)
      ensures var before := Shown(old(server));
              state == if t in before && !before[t].IsExpired(now) then Some(before[t]) else None
      ensures state.None? ==> t !in server.cells
    {
      hide Complete, RunScript, TokenState.Normalize;
      var seen := Seen(server, t);
      state := Decode(seen);
      if state.Some? && state.value.IsExpired(now) {
        DeletedIsGone(server, t, now);
        CleanupIsCleaning(server, server, Deleting(t, seen), now);
        CleanupKeepsComplete(server, Deleting(t, seen), now);
        server := RunScript(server, Deleting(t, seen), now);
        return None;
      }
    }

    /** Returns the state as it was before. */
    method ConsumeTokenState(t: TokenValue, wanted: Option<Kind>, now: int) returns (state: Option<TokenState>)
      requires Complete(server)
      modifies this
      ensures Complete(server)
      ensures var before := Shown(old(server));
              if t !in before || before[t].IsExpired(now) then state.None? && server == old(server)
              else
                && state == Some(before[t])
                && if before[t].status == Active && (wanted.Some? ==> before[t].kind == wanted.value)
                   then Shown(server) == before[t := before[t].MarkConsumed(now)]
                   else server == old(server)
    {
      hide Complete, ConsumeScript;
      var seen := Seen(server, t);
      state := Decode(seen);
      if state.None? || state.value.IsExpired(now) {
        return None;
      }
      var call := AfterReadToConsume(t, seen, wanted, now);
      if call.Some? {
        ConsumeBegunIsOk(server, now, t, wanted);
        ConsumeKeepsComplete(server, call.value, now);
        ShownAfterConsume(server, t, seen, call.value.next);
        server := RunScript(server, call.value, now);
      }
    }

    /** The token is gone, and every other one is as it was. */
    method DeleteTokenState(t: TokenValue)
      requires Complete(server)
      modifies this
      ensures Complete(server) && t !in server.cells && server.cells == old(server).cells - {t}
      ensures Shown(server) == Shown(old(server)) - {t}
      ensures t in old(server).cells ==> t !in server.markers
    {
      hide Complete, NewIndex, LegacyIndex, TokenState.Normalize;
      var seen := Seen(server, t);
      if Decode(seen).Some? {
        CleanupKeepsComplete(server, Deleting(t, seen), 0);
        server := RunScript(server, Deleting(t, seen), 0);
      }
    }

    /** Looks the subject's states up and deletes each that is still the subject's and of a kind asked for. */
    method DeleteTokenStates(subject: LoginSubject, kinds: set<Kind>, now: int)
      requires Complete(server)
      modifies this
      ensures Complete(server)
      ensures forall t :: t in server.cells ==>
                t in old(server).cells && Shown(server)[t] == Shown(old(server))[t]
                && !Wanted(old(server), t, subject.Normalize(), kinds, now)
      ensures forall t :: && t in old(server).cells && !Shown(old(server))[t].IsExpired(now)
                          && !Wanted(old(server), t, subject.Normalize(), kinds, now)
                          ==> t in server.cells
    {
      hide Complete, Wanted, ListsOnce, Cleaned, LoginSubject.Normalize, Decode, Seen;
      ghost var start, key := server, subject.Normalize();
      var states := FindTokenStates(subject, kinds, now);
      ghost var cleaned := server;
      for i := 0 to |states|
        invariant Complete(server)
        invariant forall t :: t in server.cells <==> t in cleaned.cells && t !in NamedIn(states[..i])
        invariant forall t :: t in server.cells ==> Shown(server)[t] == Shown(cleaned)[t]
      {
        NamedPrefix(states, i);
        ListedIsThere(start, cleaned, key, kinds, now, states, i);
        var current := Decode(Seen(server, states[i].token));
        CurrentIsShown(server, states[i].token);
        if current.Some? && current.value.Subject().Normalize() == subject.Normalize()
           && S.MatchKind(current.value.kind, kinds) {
          ghost var before := server;
          DeleteTokenState(states[i].token);
          LeftAsShown(before, server, states[i].token);
        }
      }
      assert states[..|states|] == states;
      SweptIsWanted(start, cleaned, key, kinds, now, states);
      forall t | t in server.cells ensures t in start.cells && Shown(server)[t] == Shown(start)[t] {
        CleaningShows(start, cleaned, t, key, kinds, now);
      }
    }

    /** One member of an index: pruned if missing, deleted if expired, listed if it is the subject's and of
        a kind asked for. Membership is only a hint; the stored state says whose it is. */
    method Visit(t: TokenValue, index: Index, subject: LoginSubject, kinds: set<Kind>, now: int,
                 result: seq<TokenState>, ghost start: Server, ghost visited: set<TokenValue>)
      returns (result': seq<TokenState>)
      requires Complete(start) && Complete(server) && Cleaned(start, server, now)
      requires t !in visited && ListsOnce(start, subject, kinds, now, visited, result)
      modifies this
      ensures Complete(server) && Cleaned(start, server, now)
      ensures ListsOnce(start, subject, kinds, now, visited + {t}, result')
    {
      hide Complete, Cleaned, RunScript, ListsOnce;
      var seen := Seen(server, t);
      var state := Decode(seen);
      CleaningShows(start, server, t, subject, kinds, now);
      if state.None? {
        PassedOver(start, subject, kinds, now, visited, result, t);
        CleanupIsCleaning(start, server, Pruning(t, index), now);
        CleanupKeepsComplete(server, Pruning(t, index), now);
        server := RunScript(server, Pruning(t, index), now);
        return result;
      }
      if state.value.IsExpired(now) {
        PassedOver(start, subject, kinds, now, visited, result, t);
        CleanupIsCleaning(start, server, Deleting(t, seen), now);
        CleanupKeepsComplete(server, Deleting(t, seen), now);
        server := RunScript(server, Deleting(t, seen), now);
        return result;
      }
      if state.value.Subject().Normalize() != subject || !S.MatchKind(state.value.kind, kinds) {
        PassedOver(start, subject, kinds, now, visited, result, t);
        return result;
      }
      TokenIsShown(start, t);
      Listed(start, subject, kinds, now, visited, result, t);
      result' := result + [state.value];
    }

    method VisitAll(index: Index, subject: LoginSubject, kinds: set<Kind>, now: int, seen: set<TokenValue>,
                    result: seq<TokenState>, ghost start: Server)
      returns (seen': set<TokenValue>, result': seq<TokenState>)
      requires Complete(start) && Complete(server) && Cleaned(start, server, now)
      requires ListsOnce(start, subject, kinds, now, seen, result)
      modifies this
      ensures Complete(server) && Cleaned(start, server, now)
      ensures seen' == seen + old(MembersOf(server, index)) && ListsOnce(start, subject, kinds, now, seen', result')
    {
      hide Complete, Cleaned, ListsOnce;
      var todo := MembersOf(server, index);
      ghost var all := todo;
      seen', result' := seen, result;
      while todo != {}
        invariant Complete(server) && Cleaned(start, server, now)
        invariant todo <= all && seen' == seen + (all - todo) && ListsOnce(start, subject, kinds, now, seen', result')
        decreases |todo|
      {
        var t :| t in todo;
        todo := todo - {t};
        if t !in seen' {
          result' := Visit(t, index, subject, kinds, now, result', start, seen');
        } else {
          assert seen' + {t} == seen';
        }
        seen' := seen' + {t};
      }
    }

    /** With nothing running beside it a lookup returns each live state of that subject and kind exactly
        once, however the two indexes overlap, collide or lag behind, and disturbs no live state. */
    method FindTokenStates(subject: LoginSubject, kinds: set<Kind>, now: int) returns (result: seq<TokenState>)
      requires Complete(server)
      modifies this
      ensures Complete(server) && Cleaned(old(server), server, now)
      ensures ListsOnce(old(server), subject.Normalize(), kinds, now, old(server).cells.Keys, result)
    {
      var key := subject.Normalize();
      ghost var start := server;
      var seen;
      NormalizeTwice(subject);
      seen, result := VisitAll(NewIndex(key), key, kinds, now, {}, [], start);
      ghost var between := server;
      seen, result := VisitAll(LegacyIndex(key), key, kinds, now, seen, result, start);
      forall t | Wanted(start, t, key, kinds, now) ensures t in seen {
        WantedIsIndexed(start, between, t, key, kinds, now);
      }
    }
  }

  lemma SavableOrNot(state: TokenState)
    ensures S.CanSave(state) <==> state.token != "" && (state.loginID != "" || state.Normalize().kind == Nonce)
    ensures state.Normalize().token == state.token && state.Normalize().loginID == state.loginID
    ensures state.Normalize().IsNormal() && state.Normalize().Normalize() == state.Normalize()
  {
  }

  function NamedIn(states: seq<TokenState>): set<TokenValue> {
    set s | s in states :: s.token
  }

  lemma NamedPrefix(states: seq<TokenState>, i: nat)
    requires i < |states|
    ensures NamedIn(states[..i + 1]) == NamedIn(states[..i]) + {states[i].token}
  {
    assert states[..i + 1] == states[..i] + [states[i]];
  }

  lemma CurrentIsShown(s: Server, t: TokenValue)
    ensures Decode(Seen(s, t)).Some? <==> t in s.cells
    ensures t in s.cells ==> t in Shown(s) && Decode(Seen(s, t)).value == Shown(s)[t]
  {
  }

  lemma LeftAsShown(s: Server, s': Server, t: TokenValue)
    requires Shown(s') == Shown(s) - {t}
    ensures forall u :: u in s'.cells <==> u in s.cells && u != t
    ensures forall u :: u in s'.cells ==> Shown(s')[u] == Shown(s)[u]
  {
    assert Shown(s).Keys == s.cells.Keys && Shown(s').Keys == s'.cells.Keys;
    assert forall u :: u in Shown(s') <==> u in Shown(s) - {t};
  }

  lemma TokenNamed(s: Server, t: TokenValue, states: seq<TokenState>)
    requires Complete(s) && t in s.cells && Shown(s)[t] in states
    ensures t in NamedIn(states)
  {
    TokenIsShown(s, t);
  }

  /** What a lookup lists is there, the subject's and of a kind asked for. */
  lemma ListedIsThere(start: Server, s: Server, key: LoginSubject, kinds: set<Kind>, now: int,
                      states: seq<TokenState>, i: nat)
    requires Cleaned(start, s, now) && ListsOnce(start, key, kinds, now, start.cells.Keys, states) && i < |states|
    ensures var t := states[i].token;
            && t in s.cells && Shown(s)[t].Subject().Normalize() == key && S.MatchKind(Shown(s)[t].kind, kinds)
            && t !in NamedIn(states[..i])
  {
    CleaningShows(start, s, states[i].token, key, kinds, now);
    hide Cleaned, LoginSubject.Normalize;
  }

  lemma SweptIsWanted(start: Server, s: Server, key: LoginSubject, kinds: set<Kind>, now: int, states: seq<TokenState>)
    requires Complete(start) && Cleaned(start, s, now)
    requires ListsOnce(start, key, kinds, now, start.cells.Keys, states)
    ensures forall t :: t in NamedIn(states) <==> Wanted(start, t, key, kinds, now)
    ensures forall t :: t in start.cells && !Shown(start)[t].IsExpired(now) ==> t in s.cells
  {
    forall t | Wanted(start, t, key, kinds, now) ensures t in NamedIn(states) {
      TokenNamed(start, t, states);
    }
  }

  lemma PassedOver(s: Server, subject: LoginSubject, kinds: set<Kind>, now: int, visited: set<TokenValue>,
                   result: seq<TokenState>, t: TokenValue)
    requires ListsOnce(s, subject, kinds, now, visited, result) && !Wanted(s, t, subject, kinds, now)
    ensures ListsOnce(s, subject, kinds, now, visited + {t}, result)
  {
    hide Wanted, Shown;
  }

  lemma Listed(s: Server, subject: LoginSubject, kinds: set<Kind>, now: int, visited: set<TokenValue>,
               result: seq<TokenState>, t: TokenValue)
    requires ListsOnce(s, subject, kinds, now, visited, result) && Wanted(s, t, subject, kinds, now)
    requires t !in visited && Shown(s)[t].token == t
    ensures ListsOnce(s, subject, kinds, now, visited + {t}, result + [Shown(s)[t]])
  {
    var state, more := Shown(s)[t], visited + {t};
    hide Wanted, Shown;
    StillListed(s, subject, kinds, now, visited, result, t, state);
    StillWanted(s, subject, kinds, now, visited, result, t, state);
    StillDistinct(result, visited, t, state);
  }

  lemma StillListed(s: Server, subject: LoginSubject, kinds: set<Kind>, now: int, visited: set<TokenValue>,
                    result: seq<TokenState>, t: TokenValue, state: TokenState)
    requires t in Shown(s) && state == Shown(s)[t]
    requires forall u :: u in visited && Wanted(s, u, subject, kinds, now) ==> Shown(s)[u] in result
    ensures forall u :: u in visited + {t} && Wanted(s, u, subject, kinds, now) ==> Shown(s)[u] in result + [state]
  {
    assert forall u :: Wanted(s, u, subject, kinds, now) ==> u in Shown(s);
    hide Wanted, Shown;
    var all := result + [state];
    assert all[|result|] == state;
    forall u | u in visited + {t} && Wanted(s, u, subject, kinds, now) ensures Shown(s)[u] in all {
      assert u != t ==> Shown(s)[u] in result;
    }
  }

  lemma StillWanted(s: Server, subject: LoginSubject, kinds: set<Kind>, now: int, visited: set<TokenValue>,
                    result: seq<TokenState>, t: TokenValue, state: TokenState)
    requires Wanted(s, t, subject, kinds, now) && state.token == t && state == Shown(s)[t]
    requires forall i :: 0 <= i < |result| ==>
               var u := result[i].token; u in visited && Wanted(s, u, subject, kinds, now) && Shown(s)[u] == result[i]
    ensures var all := result + [state];
            forall i :: 0 <= i < |all| ==>
              var u := all[i].token; u in visited + {t} && Wanted(s, u, subject, kinds, now) && Shown(s)[u] == all[i]
  {
    hide Wanted, Shown;
  }

  lemma StillDistinct(result: seq<TokenState>, visited: set<TokenValue>, t: TokenValue, state: TokenState)
    requires t !in visited && state.token == t
    requires forall i :: 0 <= i < |result| ==> result[i].token in visited
    requires forall i, j :: 0 <= i < j < |result| ==> result[i].token != result[j].token
    ensures var all := result + [state]; forall i, j :: 0 <= i < j < |all| ==> all[i].token != all[j].token
  {
  }

  lemma TokenIsShown(s: Server, t: TokenValue)
    requires Complete(s) && t in s.cells
    ensures Shown(s)[t].token == t
  {
    hide Indexed;
  }
}
