/** The token table of the database store. One SQL statement is one step; a SELECT and the conditional UPDATE
    that follows it are two, with anything in between, since some databases drop the row lock. */
module Database {
  import opened Tokens
  import S = AtomicStore

  /** A row: the serialized state, and the columns copied from it for lookups and conditions. */
  datatype Row = Row(
    stateJSON: TokenState, kind: Kind, loginID: string, loginType: string, status: Status, expiresAt: Option<int>)

  type Table = map<TokenValue, Row>

  function Decode(json: TokenState): TokenState {
    json.Normalize()
  }

  function RowFor(state: TokenState, expiresAt: Option<int>): Row {
    Row(state, state.kind, state.loginID, state.loginType, state.status, expiresAt)
  }

  /** The row is in time for a statement run at the given instant. */
  predicate InTime(row: Row, now: int) {
    !Passed(row.expiresAt, now)
  }

  // ----- the statements

  function Upsert(table: Table, t: TokenValue, row: Row): Table {
    table[t := row]
  }

  predicate SwapHits(table: Table, t: TokenValue, json: TokenState, now: int) {
    t in table && table[t].stateJSON == json && InTime(table[t], now)
  }

  predicate ConsumeHits(table: Table, t: TokenValue, json: TokenState, now: int) {
    && t in table && (table[t].status == Active || table[t].status == NoStatus)
    && table[t].stateJSON == json && InTime(table[t], now)
  }

  function ConsumeUpdate(table: Table, t: TokenValue, json: TokenState, consumed: TokenState, now: int): Table {
    if ConsumeHits(table, t, json, now)
    then table[t := table[t].(status := Consumed, stateJSON := consumed)] else table
  }

  // ----- calls in progress

  datatype Pending =
    /** A compare-and-swap that has selected its row and found the expected state in it. */
    | Swapping(token: TokenValue, json: TokenState, expected: TokenState, record: Row)
    /** A consumption that has selected an active state of the wanted kind. */
    | Consuming(token: TokenValue, json: TokenState, wanted: Option<Kind>, at: int)
    /** A consumption whose UPDATE hit nothing and that has to read again. */
    | Lost(token: TokenValue, wanted: Option<Kind>, at: int)
    /** A consumption that has selected an expired row. */
    | Expiring(token: TokenValue)

  /** How a call ends, if this step ends it. */
  datatype Outcome = Continues | Refused | Swapped | Missing | Snapshot(state: TokenState) | Contended | Finished

  datatype World = World(table: Table, now: int, pending: map<nat, Pending>)

  datatype Action =
    | Save(state: TokenState, ttl: int)
    | BeginSwap(c: nat, expected: TokenState, next: TokenState, ttl: int)
    | BeginConsume(c: nat, token: TokenValue, wanted: Option<Kind>)
    | Continue(c: nat)
    | Delete(token: TokenValue)
    | DeleteExpired(token: TokenValue)
    | Tick(until: int)

  predicate Enabled(w: World, a: Action) {
    match a
    case Save(state, _) => S.CanSave(state)
    case BeginSwap(c, expected, next, _) => c !in w.pending && expected.token == next.token && S.CanSave(next)
    case BeginConsume(c, _, _) => c !in w.pending
    case Continue(c) => c in w.pending
    case Delete(_) => true
    case DeleteExpired(t) => t in w.table && Passed(w.table[t].expiresAt, w.now)
    case Tick(until) => w.now <= until
  }

  predicate Wants(state: TokenState, wanted: Option<Kind>, now: int) {
    state.IsActive(now) && (wanted.Some? ==> state.kind == wanted.value)
  }

  function Select(w: World, c: nat, t: TokenValue, wanted: Option<Kind>): (World, Outcome) {
    if t !in w.table then (w, Missing)
    else if !InTime(w.table[t], w.now) then (w.(pending := w.pending[c := Expiring(t)]), Continues)
    else
      var state := Decode(w.table[t].stateJSON);
      if !Wants(state, wanted, w.now) then (w, Snapshot(state))
      else (w.(pending := w.pending[c := Consuming(t, w.table[t].stateJSON, wanted, w.now)]), Continues)
  }

  function Resume(w: World, c: nat): (World, Outcome)
    requires c in w.pending
  {
    match w.pending[c]
    case Swapping(t, json, _, record) =>
      if SwapHits(w.table, t, json, w.now)
      then (World(w.table[t := record], w.now, w.pending - {c}), Swapped)
      else (w.(pending := w.pending - {c}), Refused)
    case Consuming(t, json, wanted, at) =>
      var snapshot := Decode(json);
      if ConsumeHits(w.table, t, json, at)
      then (World(ConsumeUpdate(w.table, t, json, snapshot.MarkConsumed(at), at), w.now, w.pending - {c}),
            Snapshot(snapshot))
      else (w.(pending := w.pending[c := Lost(t, wanted, at)]), Continues)
    case Lost(t, wanted, at) =>
      var next := w.(pending := w.pending - {c});
      if t !in w.table then (next, Missing)
      else
        var current := Decode(w.table[t].stateJSON);
        (next, if Wants(current, wanted, at) then Contended else Snapshot(current))
    case Expiring(t) => (World(w.table - {t}, w.now, w.pending - {c}), Missing)
  }

  function Perform(w: World, a: Action): (World, Outcome)
    requires Enabled(w, a)
  {
    match a
    case Save(state, ttl) =>
      var next := state.Normalize();
      (w.(table := Upsert(w.table, next.token, RowFor(next, EffectiveExpiresAt(next.expiresAt, w.now, ttl)))), Finished)
    case BeginSwap(c, expected, next, ttl) =>
      var t := next.token;
      if t !in w.table || Decode(w.table[t].stateJSON) != expected then (w, Refused)
      else
        var record := RowFor(next.Normalize(), EffectiveExpiresAt(next.expiresAt, w.now, ttl));
        (w.(pending := w.pending[c := Swapping(t, w.table[t].stateJSON, expected, record)]), Continues)
    case BeginConsume(c, t, wanted) => Select(w, c, t, wanted)
    case Continue(c) => Resume(w, c)
    case Delete(t) => (w.(table := w.table - {t}), Finished)
    case DeleteExpired(t) => (w.(table := w.table - {t}), Finished)
    case Tick(until) => (w.(now := until), Finished)
  }

  predicate Steps(worlds: seq<World>, actions: seq<Action>) {
    && |worlds| == |actions| + 1
    && forall i :: 0 <= i < |actions| ==>
         Enabled(worlds[i], actions[i]) && worlds[i + 1] == Perform(worlds[i], actions[i]).0
  }

  predicate Execution(worlds: seq<World>, actions: seq<Action>) {
    Steps(worlds, actions) && worlds[0].table == map[] && worlds[0].pending == map[]
  }

  // ----- what every step keeps

  /** The columns say what the serialized state says, and the row expires no later than its state. */
  ghost predicate Agrees(t: TokenValue, row: Row) {
    && row.stateJSON.IsNormal() && row.stateJSON.token == t
    && row.kind == row.stateJSON.kind && row.status == row.stateJSON.status
    && row.loginID == row.stateJSON.loginID && row.loginType == row.stateJSON.loginType
    && (row.stateJSON.expiresAt.Some? ==> row.expiresAt.Some? && row.expiresAt.value <= row.stateJSON.expiresAt.value)
  }

  ghost predicate ColumnsAgree(table: Table) {
    forall t :: t in table ==> Agrees(t, table[t])
  }

  ghost predicate PendingOk(p: Pending) {
    match p
    case Swapping(t, json, expected, record) =>
      Agrees(t, record) && json.IsNormal() && json == expected && expected.token == t
    case Consuming(t, json, wanted, at) => json.IsNormal() && Wants(json, wanted, at)
    case _ => true
  }

  ghost predicate Inv(w: World) {
    ColumnsAgree(w.table) && forall c :: c in w.pending ==> PendingOk(w.pending[c])
  }

  lemma NormalDecode(state: TokenState)
    requires state.IsNormal()
    ensures Decode(state) == state
  {
  }

  lemma RowAgrees(state: TokenState, now: int, ttl: int)
    ensures var next := state.Normalize();
            Agrees(next.token, RowFor(next, EffectiveExpiresAt(next.expiresAt, now, ttl)))
  {
  }

  lemma StepKeepsInv(w: World, a: Action)
    requires Inv(w) && Enabled(w, a)
    ensures Inv(Perform(w, a).0)
  {
    hide TokenState.Normalize, EffectiveExpiresAt;
    match a
    case Save(state, ttl) => RowAgrees(state, w.now, ttl); SameName(state);
    case BeginSwap(c, expected, next, ttl) =>
      RowAgrees(next, w.now, ttl);
      SameName(next);
      if next.token in w.table {
        NormalDecode(w.table[next.token].stateJSON);
      }
    case BeginConsume(c, t, wanted) =>
      if t in w.table {
        NormalDecode(w.table[t].stateJSON);
      }
    case Continue(c) =>
      if w.pending[c].Consuming? {
        NormalDecode(w.pending[c].json);
      }
    case _ =>
  }

  lemma SameName(state: TokenState)
    ensures state.Normalize().token == state.token && state.Normalize().expiresAt == state.expiresAt
  {
  }

  lemma {:induction false} ExecutionKeepsInv(worlds: seq<World>, actions: seq<Action>, n: nat)
    requires Execution(worlds, actions) && n < |worlds|
    ensures Inv(worlds[n])
  {
    if n > 0 {
      hide Perform, Enabled;
      ExecutionKeepsInv(worlds, actions, n - 1);
      StepKeepsInv(worlds[n - 1], actions[n - 1]);
    }
  }

  // ----- the contract of an atomic store

  /** The table as the reference store sees it. */
  function Contents(table: Table): map<TokenValue, S.Entry> {
    map t | t in table :: S.Entry(Decode(table[t].stateJSON), table[t].expiresAt)
  }

  lemma InTimeMeansLive(table: Table, t: TokenValue, now: int)
    requires ColumnsAgree(table) && t in table
    ensures InTime(table[t], now) <==> S.IsLive(Contents(table), t, now)
    ensures Contents(table)[t].state == table[t].stateJSON
  {
    assert Agrees(t, table[t]);
    NormalDecode(table[t].stateJSON);
  }

  ghost predicate SwapsAsContracted(w: World, a: Action, w': World)
    requires Enabled(w, a) && (a.BeginSwap? || (a.Continue? && w.pending[a.c].Swapping?))
  {
    var expected := if a.BeginSwap? then a.expected else w.pending[a.c].expected;
    var outcome, matches := Perform(w, a).1, S.Matches(Contents(w.table), expected, w.now);
    && (outcome.Refused? ==> !matches)
    && (outcome.Swapped? ==> matches && a.Continue? && w'.table == w.table[expected.token := w.pending[a.c].record])
    && (!outcome.Swapped? ==> w'.table == w.table)
    && (a.Continue? ==> (outcome.Swapped? <==> matches))
  }

  lemma SwapStep(w: World, a: Action)
    requires Inv(w) && Enabled(w, a)
    requires a.BeginSwap? || (a.Continue? && w.pending[a.c].Swapping?)
    ensures SwapsAsContracted(w, a, Perform(w, a).0)
  {
    hide TokenState.Normalize;
    var expected := if a.BeginSwap? then a.expected else w.pending[a.c].expected;
    if expected.token in w.table {
      InTimeMeansLive(w.table, expected.token, w.now);
    }
  }

  /** In every execution a swap refused by its SELECT did not match at that moment; one that reaches its UPDATE is
      granted exactly if it matches at that moment, and then replaces the one row; it never inserts. */
  lemma SwapIsExact(worlds: seq<World>, actions: seq<Action>, n: nat)
    requires Execution(worlds, actions) && n < |actions|
    requires var w, a := worlds[n], actions[n];
             Enabled(w, a) && (a.BeginSwap? || (a.Continue? && w.pending[a.c].Swapping?))
    ensures SwapsAsContracted(worlds[n], actions[n], worlds[n + 1])
  {
    hide Inv, SwapsAsContracted, Perform;
    ExecutionKeepsInv(worlds, actions, n);
    SwapStep(worlds[n], actions[n]);
  }

  ghost predicate ConsumesAsContracted(w: World, c: nat, w': World)
    requires c in w.pending && w.pending[c].Consuming?
  {
    var p, before, outcome := w.pending[c], Contents(w.table), Perform(w, Continue(c)).1;
    if S.IsLive(before, p.token, p.at) && before[p.token].state == p.json then
      && S.Consumable(before, p.token, p.wanted, p.at)
      && outcome == Snapshot(before[p.token].state)
      && Contents(w'.table) == S.ApplyTokens(before, p.at, S.Consume(p.token, p.wanted))
    else outcome.Continues? && w'.table == w.table
  }

  lemma ConsumeStep(w: World, c: nat)
    requires Inv(w) && c in w.pending && w.pending[c].Consuming?
    ensures ConsumesAsContracted(w, c, Perform(w, Continue(c)).0)
  {
    var p := w.pending[c];
    HitMeansLive(w, c);
    NormalDecode(p.json);
    hide TokenState.Normalize, Contents, S.IsLive, S.Consumable, ConsumeHits, Inv;
    if ConsumeHits(w.table, p.token, p.json, p.at) {
      HitIsConsume(w.table, p.token, p.json, p.at);
    }
  }

  /** The UPDATE of a consumption hits exactly if the state it selected is there, live by the clock of the SELECT. */
  lemma HitMeansLive(w: World, c: nat)
    requires Inv(w) && c in w.pending && w.pending[c].Consuming?
    ensures var p, before := w.pending[c], Contents(w.table);
            && (S.IsLive(before, p.token, p.at) && before[p.token].state == p.json
                <==> ConsumeHits(w.table, p.token, p.json, p.at))
            && (ConsumeHits(w.table, p.token, p.json, p.at) ==> S.Consumable(before, p.token, p.wanted, p.at))
  {
    var p := w.pending[c];
    hide TokenState.Normalize, Contents;
    if p.token in w.table {
      InTimeMeansLive(w.table, p.token, p.at);
      assert Agrees(p.token, w.table[p.token]);
    } else {
      NotStored(w.table, p.token);
    }
  }

  lemma NotStored(table: Table, t: TokenValue)
    requires t !in table
    ensures t !in Contents(table)
  {
  }

  lemma HitIsConsume(table: Table, t: TokenValue, json: TokenState, at: int)
    requires t in table && json.IsNormal() && table[t].stateJSON == json
    ensures t in Contents(table)
    ensures Contents(table[t := table[t].(status := Consumed, stateJSON := json.MarkConsumed(at))])
            == Contents(table)[t := Contents(table)[t].(state := json.MarkConsumed(at))]
  {
    NormalDecode(json.MarkConsumed(at));
    hide TokenState.Normalize, TokenState.MarkConsumed;
  }

  /** In every execution the UPDATE of a consumption hits exactly if the row is unchanged since the SELECT and in
      time; then the step is the contract's Consume and answers the state before it. Otherwise nothing happens. */
  lemma ConsumeIsExact(worlds: seq<World>, actions: seq<Action>, n: nat, c: nat)
    requires Execution(worlds, actions) && n < |actions| && actions[n] == Continue(c)
    requires c in worlds[n].pending && worlds[n].pending[c].Consuming?
    ensures ConsumesAsContracted(worlds[n], c, worlds[n + 1])
  {
    hide Inv, ConsumesAsContracted, Perform;
    ExecutionKeepsInv(worlds, actions, n);
    ConsumeStep(worlds[n], c);
  }

  // ----- a consumption is judged by the clock of its SELECT

  /** The consumption selects first and its UPDATE comes last and hits; by then the row it consumes has expired. */
  ghost predicate ConsumedLate(worlds: seq<World>, actions: seq<Action>, c: nat, t: TokenValue, wanted: Option<Kind>)
    requires |worlds| == |actions| + 1
  {
    var n := |actions| - 1;
    && n > 0 && actions[0] == BeginConsume(c, t, wanted) && actions[n] == Continue(c)
    && c in worlds[1].pending && c in worlds[n].pending && worlds[n].pending[c] == worlds[1].pending[c]
    && Hits(worlds[n], actions[n]) && !S.IsLive(Contents(worlds[n].table), t, worlds[n].now)
  }

  /** From the world some continuation consumes late; if asked for, with the selected row left alone until then. */
  ghost predicate LateConsumption(w: World, c: nat, t: TokenValue, wanted: Option<Kind>, alone: bool) {
    exists worlds: seq<World>, actions: seq<Action> ::
      && |worlds| == |actions| + 1 && Steps(worlds, actions) && worlds[0] == w
      && ConsumedLate(worlds, actions, c, t, wanted)
      && (alone ==> forall i :: 0 <= i < |actions| ==> RowStays(w, worlds[i], t))
  }

  predicate RowStays(w: World, w': World, t: TokenValue) {
    t in w.table && t in w'.table && w'.table[t] == w.table[t]
  }

  /** In every reachable world a consumption that selects an active row can come too late for it: with the row left
      alone exactly when the row expires; and in any case when another call can write the same state for a time. */
  lemma LateConsumptionIff(worlds: seq<World>, actions: seq<Action>, m: nat, c: nat, t: TokenValue,
                           wanted: Option<Kind>, alone: bool)
    requires Execution(worlds, actions) && m < |worlds|
    requires c !in worlds[m].pending && t in worlds[m].table && InTime(worlds[m].table[t], worlds[m].now)
    requires Wants(Decode(worlds[m].table[t].stateJSON), wanted, worlds[m].now)
    ensures var w := worlds[m];
            LateConsumption(w, c, t, wanted, alone) <==> (alone ==> w.table[t].expiresAt.Some?)
  {
    hide Inv, Execution, LateConsumption, Wants, Decode, S.CanSave;
    var w := worlds[m];
    ExecutionKeepsInv(worlds, actions, m);
    ExecutionKeepsSavable(worlds, actions, m);
    if w.table[t].expiresAt.Some? {
      ExpiresBeside(w, c, t, wanted, alone);
    } else if alone {
      LateMeansExpiry(w, c, t, wanted);
    } else {
      SavedBeside(w, c, t, wanted);
    }
  }

  lemma LateMeansExpiry(w: World, c: nat, t: TokenValue, wanted: Option<Kind>)
    requires Inv(w) && t in w.table && w.table[t].expiresAt.None?
    ensures !LateConsumption(w, c, t, wanted, true)
  {
    assert Agrees(t, w.table[t]);
    NormalDecode(w.table[t].stateJSON);
    hide Inv, Agrees, Steps, Hits, TokenState.Normalize;
  }

  /** Only the clock moves between the SELECT and the UPDATE. */
  lemma ExpiresBeside(w: World, c: nat, t: TokenValue, wanted: Option<Kind>, alone: bool)
    requires Inv(w) && c !in w.pending && t in w.table && InTime(w.table[t], w.now) && w.table[t].expiresAt.Some?
    requires Wants(Decode(w.table[t].stateJSON), wanted, w.now)
    ensures LateConsumption(w, c, t, wanted, alone)
  {
    var until := w.table[t].expiresAt.value;
    assert w.now <= until;
    var begun := Selected(w, c, t, wanted);
    HitsLate(begun.(now := until), c);
    hide Inv, Hits, Contents, Wants, Decode, S.IsLive, InTime, LateConsumption;
    LateAround(w, c, t, wanted, [begun], [], until);
  }

  /** Another call saves the same state, to live for the shortest time. */
  lemma SavedBeside(w: World, c: nat, t: TokenValue, wanted: Option<Kind>)
    requires Inv(w) && c !in w.pending && t in w.table && w.table[t].expiresAt.None?
    requires S.CanSave(w.table[t].stateJSON) && Wants(Decode(w.table[t].stateJSON), wanted, w.now)
    ensures LateConsumption(w, c, t, wanted, false)
  {
    var begun := Selected(w, c, t, wanted);
    var saved := SavedAnew(begun, t);
    HitsLate(saved.(now := w.now + 1), c);
    hide Inv, Hits, Contents, Wants, Decode, S.IsLive, S.CanSave, InTime, Perform, Enabled, LateConsumption;
    LateAround(w, c, t, wanted, [begun, saved], [Save(w.table[t].stateJSON, 1)], w.now + 1);
  }

  lemma SavedAnew(w: World, t: TokenValue) returns (saved: World)
    requires Inv(w) && t in w.table && w.table[t].expiresAt.None? && S.CanSave(w.table[t].stateJSON)
    ensures var save := Save(w.table[t].stateJSON, 1); Enabled(w, save) && saved == Perform(w, save).0
    ensures var state := w.table[t].stateJSON; saved == w.(table := w.table[t := RowFor(state, Some(w.now + 1))])
    ensures w.table[t].stateJSON.status == w.table[t].status
  {
    assert Agrees(t, w.table[t]);
    NormalDecode(w.table[t].stateJSON);
    saved := Perform(w, Save(w.table[t].stateJSON, 1)).0;
  }

  /** What goes on between the SELECT and the UPDATE makes the consumption a late one. */
  lemma LateAround(w: World, c: nat, t: TokenValue, wanted: Option<Kind>, worlds: seq<World>, actions: seq<Action>,
                   until: int)
    requires Steps(worlds, actions) && Enabled(w, BeginConsume(c, t, wanted))
    requires worlds[0] == Perform(w, BeginConsume(c, t, wanted)).0 && worlds[|actions|].now <= until
    requires var late := worlds[|actions|].(now := until);
             && c in worlds[0].pending && c in late.pending && late.pending[c] == worlds[0].pending[c]
             && Hits(late, Continue(c)) && !S.IsLive(Contents(late.table), t, until)
    ensures LateConsumption(w, c, t, wanted, false)
    ensures (t in w.table && forall i :: 0 <= i < |worlds| ==> RowStays(w, worlds[i], t)) ==>
              LateConsumption(w, c, t, wanted, true)
  {
    var late := worlds[|actions|].(now := until);
    assert Enabled(worlds[|actions|], Tick(until)) && Perform(worlds[|actions|], Tick(until)).0 == late;
    assert Enabled(late, Continue(c));
    assert t in w.table ==> RowStays(w, w, t);
    assert RowStays(w, worlds[|actions|], t) ==> RowStays(w, late, t);
    hide Perform, Enabled, Hits, Contents, S.IsLive, Steps, RowStays;
    var all, steps := Around(w, BeginConsume(c, t, wanted), worlds, actions, Tick(until), Continue(c));
    assert ConsumedLate(all, steps, c, t, wanted);
    hide ConsumedLate;
    if t in w.table && forall i :: 0 <= i < |worlds| ==> RowStays(w, worlds[i], t) {
      assert forall i :: 0 <= i < |steps| ==> RowStays(w, all[i], t);
    }
  }

  /** One step more before some steps, and two after them. */
  lemma Around(w: World, first: Action, worlds: seq<World>, actions: seq<Action>, next: Action, last: Action)
    returns (all: seq<World>, steps: seq<Action>)
    requires Steps(worlds, actions) && Enabled(w, first) && worlds[0] == Perform(w, first).0
    requires Enabled(worlds[|actions|], next) && Enabled(Perform(worlds[|actions|], next).0, last)
    ensures |all| == |worlds| + 3 && |steps| == |actions| + 3 && Steps(all, steps)
    ensures all[0] == w && all[|worlds| + 1] == Perform(worlds[|actions|], next).0
    ensures steps[0] == first && steps[|steps| - 1] == last
    ensures forall i :: 0 < i <= |worlds| ==> all[i] == worlds[i - 1]
  {
    hide Perform, Enabled;
    var before := Perform(worlds[|actions|], next).0;
    all, steps := [w] + worlds + [before, Perform(before, last).0], [first] + actions + [next, last];
    forall i | 0 <= i < |steps| ensures Enabled(all[i], steps[i]) && all[i + 1] == Perform(all[i], steps[i]).0 {
      if 0 < i <= |actions| {
        assert all[i] == worlds[i - 1] && all[i + 1] == worlds[i] && steps[i] == actions[i - 1];
      }
    }
    assert forall i :: 0 < i <= |worlds| ==> all[i] == worlds[i - 1];
  }

  lemma Selected(w: World, c: nat, t: TokenValue, wanted: Option<Kind>) returns (begun: World)
    requires Inv(w) && c !in w.pending && t in w.table && InTime(w.table[t], w.now)
    requires Wants(Decode(w.table[t].stateJSON), wanted, w.now)
    ensures Enabled(w, BeginConsume(c, t, wanted)) && begun == Perform(w, BeginConsume(c, t, wanted)).0
    ensures begun == w.(pending := w.pending[c := Consuming(t, w.table[t].stateJSON, wanted, w.now)])
    ensures w.table[t].status == Active
  {
    assert Agrees(t, w.table[t]);
    NormalDecode(w.table[t].stateJSON);
    begun := Perform(w, BeginConsume(c, t, wanted)).0;
  }

  lemma HitsLate(late: World, c: nat)
    requires c in late.pending && late.pending[c].Consuming?
    requires var p := late.pending[c];
             && p.token in late.table && late.table[p.token].stateJSON == p.json
             && late.table[p.token].status == Active && InTime(late.table[p.token], p.at)
             && Passed(late.table[p.token].expiresAt, late.now)
    ensures Enabled(late, Continue(c)) && Hits(late, Continue(c))
    ensures !S.IsLive(Contents(late.table), late.pending[c].token, late.now)
  {
    hide TokenState.Normalize;
  }

  /** Only states that can be saved are ever stored. */
  ghost predicate Savable(w: World) {
    && (forall t :: t in w.table ==> S.CanSave(w.table[t].stateJSON))
    && (forall c :: c in w.pending && w.pending[c].Swapping? ==> S.CanSave(w.pending[c].record.stateJSON))
  }

  lemma StepKeepsSavable(w: World, a: Action)
    requires Savable(w) && Enabled(w, a)
    ensures Savable(Perform(w, a).0)
  {
    hide EffectiveExpiresAt, InTime, S.CanSave, TokenState.Normalize, Wants;
    match a
    case Save(state, _) => StaysSavable(state, w.now);
    case BeginSwap(_, _, next, _) => StaysSavable(next, w.now);
    case Continue(c) =>
      if w.pending[c].Consuming? {
        StaysSavable(w.pending[c].json, w.pending[c].at);
      }
    case _ =>
  }

  lemma StaysSavable(state: TokenState, at: int)
    ensures S.CanSave(state) ==> S.CanSave(state.Normalize()) && S.CanSave(Decode(state).MarkConsumed(at))
  {
  }

  lemma {:induction false} ExecutionKeepsSavable(worlds: seq<World>, actions: seq<Action>, n: nat)
    requires Execution(worlds, actions) && n < |worlds|
    ensures Savable(worlds[n])
  {
    hide Perform, Enabled, S.CanSave;
    if n > 0 {
      ExecutionKeepsSavable(worlds, actions, n - 1);
      StepKeepsSavable(worlds[n - 1], actions[n - 1]);
    }
  }

  // ----- one winner

  predicate Hits(w: World, a: Action) {
    && a.Continue? && a.c in w.pending && w.pending[a.c].Consuming?
    && ConsumeHits(w.table, w.pending[a.c].token, w.pending[a.c].json, w.pending[a.c].at)
  }

  /** The token, kind and clock reading of the consumption that takes this step. */
  predicate Consumes(w: World, a: Action, t: TokenValue, wanted: Option<Kind>, at: int) {
    || (a.BeginConsume? && a.token == t && a.wanted == wanted && at == w.now)
    || (a.Continue? && a.c in w.pending &&
        match w.pending[a.c]
        case Consuming(t', _, wanted', at') => t' == t && wanted' == wanted && at' == at
        case Lost(t', wanted', at') => t' == t && wanted' == wanted && at' == at
        case _ => false)
  }

  lemma AnswerStep(w: World, a: Action, t: TokenValue, wanted: Option<Kind>, at: int)
    requires Inv(w) && Enabled(w, a) && Consumes(w, a, t, wanted, at)
    ensures var outcome := Perform(w, a).1;
            (outcome.Snapshot? && Wants(outcome.state, wanted, at)) <==> Hits(w, a)
  {
    if a.Continue? && w.pending[a.c].Consuming? {
      NormalDecode(w.pending[a.c].json);
    }
    hide TokenState.Normalize;
  }

  /** In every execution a caller is shown an active state of the kind it asked for only by the step whose UPDATE
      hit, so it can take the snapshot itself as the grant, even where the database ignores the row lock. */
  lemma ActiveAnswerMeansHit(worlds: seq<World>, actions: seq<Action>, n: nat, t: TokenValue, wanted: Option<Kind>,
                             at: int)
    requires Execution(worlds, actions) && n < |actions| && Consumes(worlds[n], actions[n], t, wanted, at)
    requires Enabled(worlds[n], actions[n])
    ensures var outcome := Perform(worlds[n], actions[n]).1;
            (outcome.Snapshot? && Wants(outcome.state, wanted, at)) <==> Hits(worlds[n], actions[n])
  {
    hide Inv, Perform, Consumes, Hits, Wants;
    ExecutionKeepsInv(worlds, actions, n);
    AnswerStep(worlds[n], actions[n], t, wanted, at);
  }

  predicate IsActiveIn(table: Table, t: TokenValue) {
    t in table && table[t].stateJSON.status == Active
  }

  predicate WinsNow(w: World, a: Action, t: TokenValue) {
    Hits(w, a) && w.pending[a.c].token == t
  }

  predicate WritesActive(w: World, a: Action, t: TokenValue) {
    || (a.Save? && a.state.token == t && a.state.Normalize().status == Active)
    || (a.Continue? && a.c in w.pending && w.pending[a.c].Swapping? && w.pending[a.c].token == t
        && SwapHits(w.table, t, w.pending[a.c].json, w.now) && w.pending[a.c].record.status == Active)
  }

  function Wins(worlds: seq<World>, actions: seq<Action>, t: TokenValue, n: nat): nat
    requires n <= |actions| && |worlds| == |actions| + 1
  {
    if n == 0 then 0
    else Wins(worlds, actions, t, n - 1) + if WinsNow(worlds[n - 1], actions[n - 1], t) then 1 else 0
  }

  function ActiveWrites(worlds: seq<World>, actions: seq<Action>, t: TokenValue, n: nat): nat
    requires n <= |actions| && |worlds| == |actions| + 1
  {
    if n == 0 then 0
    else ActiveWrites(worlds, actions, t, n - 1) + if WritesActive(worlds[n - 1], actions[n - 1], t) then 1 else 0
  }

  lemma StepConserves(w: World, a: Action, t: TokenValue)
    requires Inv(w) && Enabled(w, a)
    ensures (if WinsNow(w, a, t) then 1 else 0) + (if IsActiveIn(Perform(w, a).0.table, t) then 1 else 0)
            <= (if WritesActive(w, a, t) then 1 else 0) + if IsActiveIn(w.table, t) then 1 else 0
  {
    if a.Save? {
      SameName(a.state);
    }
    if a.Continue? && w.pending[a.c].Consuming? {
      NormalDecode(w.pending[a.c].json);
    }
    hide TokenState.Normalize;
  }

  /** Each active write of a row is consumed at most once, in every interleaving. */
  lemma {:induction false} WinnersBounded(worlds: seq<World>, actions: seq<Action>, t: TokenValue, n: nat)
    requires Execution(worlds, actions) && n <= |actions|
    ensures Wins(worlds, actions, t, n) + (if IsActiveIn(worlds[n].table, t) then 1 else 0)
            <= ActiveWrites(worlds, actions, t, n)
  {
    hide Perform, Enabled, WinsNow, WritesActive, IsActiveIn;
    if n > 0 {
      WinnersBounded(worlds, actions, t, n - 1);
      ExecutionKeepsInv(worlds, actions, n - 1);
      StepConserves(worlds[n - 1], actions[n - 1], t);
    } else {
      NothingActive(worlds[0].table, t);
    }
  }

  lemma NothingActive(table: Table, t: TokenValue)
    requires table == map[]
    ensures !IsActiveIn(table, t)
  {
  }

  // ----- lookups by subject

  /** The WHERE clause of the lookups, for a normalized subject. */
  predicate Selects(row: Row, n: LoginSubject, kinds: set<Kind>) {
    row.loginID == n.loginID && row.loginType == n.loginType && S.MatchKind(row.kind, kinds)
  }

  /** The columns are compared as stored, the contract compares normalized subjects: lookups select a row as
      the contract says, for every subject and kinds, if and only if its state was saved with a normalized one. */
  lemma SelectsAsContractedIff(t: TokenValue, row: Row)
    requires Agrees(t, row)
    ensures var owner := row.stateJSON.Subject();
            (forall subject, kinds :: S.Selected(S.Entry(Decode(row.stateJSON), row.expiresAt), subject, kinds)
                                      <==> Selects(row, subject.Normalize(), kinds))
            <==> owner.Normalize() == owner
  {
    var entry := S.Entry(Decode(row.stateJSON), row.expiresAt);
    NormalDecode(row.stateJSON);
    hide LoginSubject.Normalize, TokenState.Normalize;
    var owner := row.stateJSON.Subject();
    assert S.Selected(entry, owner, {});
  }

  /** What the clean-up before a listing leaves: everything but the expired rows of the subject. */
  function Cleaned(table: Table, key: LoginSubject, now: int): Table {
    map t | t in table && !(Selects(table[t], key, {}) && !InTime(table[t], now)) :: table[t]
  }

  function Selection(table: Table, key: LoginSubject, kinds: set<Kind>): set<TokenValue> {
    set t | t in table && Selects(table[t], key, kinds)
  }

  /** What the statement that deletes a subject's states leaves. */
  function Unselected(table: Table, key: LoginSubject, kinds: set<Kind>): Table {
    map t | t in table && !Selects(table[t], key, kinds) :: table[t]
  }

  class Store {
    var table: Table

    method GetTokenState(token: TokenValue, now: int) returns (state: Option<TokenState>)
      requires ColumnsAgree(table)
      modifies this
      ensures ColumnsAgree(table) && S.Live(Contents(table), now) == S.Live(Contents(old(table)), now)
      ensures state == if S.IsLive(Contents(old(table)), token, now)
                       then Some(Contents(old(table))[token].state) else None
    {
      if token !in table {
        return None;
      }
      InTimeMeansLive(table, token, now);
      NormalDecode(table[token].stateJSON);
      if !InTime(table[token], now) {
        table := table - {token};
        return None;
      }
      return Some(Decode(table[token].stateJSON));
    }

    /** When states are saved for normalized subjects, deletes what the contract's DeleteAll does. */
    method DeleteTokenStates(subject: LoginSubject, kinds: set<Kind>, now: int)
      requires ColumnsAgree(table)
      modifies this
      ensures ColumnsAgree(table)
      ensures (forall t :: t in old(table) ==> HasNormalOwner(old(table)[t])) ==>
                Contents(table) == S.ApplyTokens(Contents(old(table)), now, S.DeleteAll(subject, kinds))
    {
      hide ColumnsAgree, HasNormalOwner, Contents, Unselected, LoginSubject.Normalize;
      ghost var start := table;
      table := Unselected(table, subject.Normalize(), kinds);
      UnselectedAgree(start, subject.Normalize(), kinds);
      if forall t :: t in start ==> HasNormalOwner(start[t]) {
        UnselectedAsContracted(start, subject, kinds, now);
      }
    }

    /** Expired rows of the subject go; every other row selected is listed, once. */
    method FindTokenStates(subject: LoginSubject, kinds: set<Kind>, now: int) returns (result: seq<TokenState>)
      requires ColumnsAgree(table)
      modifies this
      ensures ColumnsAgree(table) && S.Live(Contents(table), now) == S.Live(Contents(old(table)), now)
      ensures (forall t :: t in old(table) ==> HasNormalOwner(old(table)[t])) ==>
                S.Lists(Contents(old(table)), subject, kinds, now, result)
    {
      hide LoginSubject.Normalize, TokenState.Normalize, ColumnsAgree, Listed, Selects, InTime;
      var key := subject.Normalize();
      ghost var start := table;
      table := Cleaned(table, key, now);
      ExpiredGo(start, key, now);
      var records := Selection(table, key, kinds);
      result := [];
      ghost var done := {};
      NoneListed(table);
      while records != {}
        invariant table == Cleaned(start, key, now)
        invariant records !! done && records + done == Selection(table, key, kinds) && Listed(table, done, result)
        decreases |records|
      {
        var t :| t in records;
        ListOneMore(table, done, result, t);
        result := result + [Decode(table[t].stateJSON)];
        records, done := records - {t}, done + {t};
      }
      if forall t :: t in start ==> HasNormalOwner(start[t]) {
        AllListed(start, subject, kinds, now, result);
      }
    }
  }

  ghost predicate HasNormalOwner(row: Row) {
    var owner := row.stateJSON.Subject();
    owner.Normalize() == owner
  }

  ghost predicate Listed(table: Table, rows: set<TokenValue>, result: seq<TokenState>) {
    && rows <= table.Keys
    && (forall t :: t in rows ==> table[t].stateJSON in result)
    && (forall i :: 0 <= i < |result| ==> result[i].token in rows && result[i] == table[result[i].token].stateJSON)
    && (forall i, j :: 0 <= i < j < |result| ==> result[i].token != result[j].token)
  }

  lemma NoneListed(table: Table)
    ensures Listed(table, {}, [])
  {
  }

  lemma ListOneMore(table: Table, rows: set<TokenValue>, result: seq<TokenState>, t: TokenValue)
    requires ColumnsAgree(table) && Listed(table, rows, result) && t in table && t !in rows
    ensures Listed(table, rows + {t}, result + [Decode(table[t].stateJSON)])
  {
    assert Agrees(t, table[t]);
    NormalDecode(table[t].stateJSON);
    hide TokenState.Normalize;
    var all := result + [table[t].stateJSON];
    assert all[|result|] == table[t].stateJSON;
    assert forall x :: x in result ==> x in all;
  }

  lemma ExpiredGo(start: Table, key: LoginSubject, now: int)
    requires ColumnsAgree(start)
    ensures ColumnsAgree(Cleaned(start, key, now))
    ensures S.Live(Contents(Cleaned(start, key, now)), now) == S.Live(Contents(start), now)
  {
    hide TokenState.Normalize, LoginSubject.Normalize;
    var table := Cleaned(start, key, now);
    forall t | t in start ensures InTime(start[t], now) <==> S.IsLive(Contents(start), t, now) {
      InTimeMeansLive(start, t, now);
    }
    assert forall t :: t in table ==> Contents(table)[t] == Contents(start)[t];
    assert S.Live(Contents(table), now) == S.Live(Contents(start), now);
  }

  lemma SelectedAsContracted(table: Table, t: TokenValue, subject: LoginSubject, kinds: set<Kind>)
    requires ColumnsAgree(table) && t in table && HasNormalOwner(table[t])
    ensures S.Selected(Contents(table)[t], subject, kinds) <==> Selects(table[t], subject.Normalize(), kinds)
  {
    assert Agrees(t, table[t]);
    SelectsAsContractedIff(t, table[t]);
    hide TokenState.Normalize, LoginSubject.Normalize;
    assert S.Selected(S.Entry(Decode(table[t].stateJSON), table[t].expiresAt), subject, kinds)
           <==> Selects(table[t], subject.Normalize(), kinds);
  }

  lemma UnselectedAgree(table: Table, key: LoginSubject, kinds: set<Kind>)
    requires ColumnsAgree(table)
    ensures ColumnsAgree(Unselected(table, key, kinds))
  {
    hide Agrees, Selects;
  }

  lemma UnselectedAsContracted(table: Table, subject: LoginSubject, kinds: set<Kind>, now: int)
    requires ColumnsAgree(table) && forall t :: t in table ==> HasNormalOwner(table[t])
    ensures Contents(Unselected(table, subject.Normalize(), kinds))
            == S.ApplyTokens(Contents(table), now, S.DeleteAll(subject, kinds))
  {
    hide ColumnsAgree, HasNormalOwner, LoginSubject.Normalize, TokenState.Normalize, Selects, S.Selected;
    forall t | t in table
      ensures S.Selected(Contents(table)[t], subject, kinds) <==> Selects(table[t], subject.Normalize(), kinds)
    {
      SelectedAsContracted(table, t, subject, kinds);
    }
  }

  lemma ListedMeansSelected(start: Table, t: TokenValue, subject: LoginSubject, kinds: set<Kind>, now: int)
    requires ColumnsAgree(start) && forall u :: u in start ==> HasNormalOwner(start[u])
    ensures t in Selection(Cleaned(start, subject.Normalize(), now), subject.Normalize(), kinds)
            <==> S.IsLive(Contents(start), t, now) && S.Selected(Contents(start)[t], subject, kinds)
    ensures t in start <==> t in Contents(start)
    ensures t in start ==> Contents(start)[t].state == start[t].stateJSON
  {
    if t in start {
      InTimeMeansLive(start, t, now);
      assert Agrees(t, start[t]) && HasNormalOwner(start[t]);
      SelectsAsContractedIff(t, start[t]);
      hide TokenState.Normalize, LoginSubject.Normalize;
      assert S.Selected(S.Entry(Decode(start[t].stateJSON), start[t].expiresAt), subject, kinds)
             <==> Selects(start[t], subject.Normalize(), kinds);
    }
  }

  lemma ListedFrom(start: Table, key: LoginSubject, now: int, rows: set<TokenValue>, result: seq<TokenState>)
    requires Listed(Cleaned(start, key, now), rows, result)
    ensures Listed(start, rows, result)
  {
    hide Selects, InTime;
  }

  lemma AllListed(start: Table, subject: LoginSubject, kinds: set<Kind>, now: int, result: seq<TokenState>)
    requires ColumnsAgree(start) && forall t :: t in start ==> HasNormalOwner(start[t])
    requires var table := Cleaned(start, subject.Normalize(), now);
             Listed(table, Selection(table, subject.Normalize(), kinds), result)
    ensures S.Lists(Contents(start), subject, kinds, now, result)
  {
    hide Cleaned, Selection, S.Selected, LoginSubject.Normalize, HasNormalOwner, ColumnsAgree;
    var all, rows := Contents(start), Selection(Cleaned(start, subject.Normalize(), now), subject.Normalize(), kinds);
    ListedFrom(start, subject.Normalize(), now, rows, result);
    forall t | t in start {
      ListedMeansSelected(start, t, subject, kinds, now);
    }
    ListingIsComplete(start, subject, kinds, now, rows, result);
  }

  lemma ListingIsComplete(start: Table, subject: LoginSubject, kinds: set<Kind>, now: int, rows: set<TokenValue>,
                          result: seq<TokenState>)
    requires Listed(start, rows, result)
    requires forall t :: t in start ==>
               && (t in rows <==> S.IsLive(Contents(start), t, now) && S.Selected(Contents(start)[t], subject, kinds))
               && Contents(start)[t].state == start[t].stateJSON
    ensures S.Lists(Contents(start), subject, kinds, now, result)
  {
  }
}
