/** The calls of the database store from request to statement: what each one asked for and what its SELECT found, and
    what its UPDATE or DELETE then does to the contents, whatever else happens in between. */
module DatabaseCalls {
  import opened Tokens
  import S = AtomicStore
  import opened Database

  /** The client's call begins with step m, a SELECT, and its next statement is step n. */
  predicate CallAt(worlds: seq<World>, actions: seq<Action>, c: nat, m: nat, n: nat)
    requires |worlds| == |actions| + 1
  {
    && m < n < |actions| && c !in worlds[m].pending && c in worlds[m + 1].pending && actions[n] == Continue(c)
    && forall k :: m < k < n ==> actions[k] != Continue(c)
  }

  lemma {:induction false} StillPending(worlds: seq<World>, actions: seq<Action>, c: nat, m: nat, k: nat)
    requires Execution(worlds, actions) && m < k < |worlds| && c in worlds[m + 1].pending
    requires forall i :: m < i < k ==> actions[i] != Continue(c)
    ensures c in worlds[k].pending && worlds[k].pending[c] == worlds[m + 1].pending[c]
    ensures worlds[m].now <= worlds[k].now
    decreases k
  {
    hide TokenState.Normalize, EffectiveExpiresAt, ConsumeUpdate, SwapHits, ConsumeHits, InTime, Wants;
    if m + 1 < k {
      StillPending(worlds, actions, c, m, k - 1);
    }
  }

  lemma ContentsAfter(table: Table, t: TokenValue, row: Row)
    ensures Contents(table[t := row]) == Contents(table)[t := S.Entry(Decode(row.stateJSON), row.expiresAt)]
    ensures Contents(table - {t}) == Contents(table) - {t}
  {
    hide TokenState.Normalize;
  }

  /** A save is the contract's Save, and a deletion the contract's Delete, in one statement. */
  lemma SaveIsExact(w: World, state: TokenState, ttl: int)
    requires S.CanSave(state)
    ensures Contents(Perform(w, Save(state, ttl)).0.table)
            == S.ApplyTokens(Contents(w.table), w.now, S.Save(state, ttl))
  {
    NormalMeans(state);
    var next := state.Normalize();
    ContentsAfter(w.table, next.token, RowFor(next, EffectiveExpiresAt(next.expiresAt, w.now, ttl)));
    hide TokenState.Normalize, EffectiveExpiresAt, Contents, S.CanSave;
  }

  lemma DeleteIsExact(w: World, t: TokenValue)
    ensures Contents(Perform(w, Delete(t)).0.table) == S.ApplyTokens(Contents(w.table), w.now, S.Delete(t))
    ensures Enabled(w, DeleteExpired(t)) ==>
              && t in w.table && !S.IsLive(Contents(w.table), t, w.now)
              && Contents(Perform(w, DeleteExpired(t)).0.table) == Contents(w.table) - {t}
  {
    hide TokenState.Normalize;
  }

  /** In every execution a swap that gets past its SELECT is granted exactly if it matches when its UPDATE runs; then
      the new state replaces the expected one, normalized, with the deadline of a save at the time of the call. */
  lemma SwapTakesEffect(worlds: seq<World>, actions: seq<Action>, c: nat, m: nat, n: nat, expected: TokenState,
                        next: TokenState, ttl: int)
    requires Execution(worlds, actions) && CallAt(worlds, actions, c, m, n)
    requires actions[m] == BeginSwap(c, expected, next, ttl)
    ensures var before, after := Contents(worlds[n].table), Contents(worlds[n + 1].table);
            var outcome := Perform(worlds[n], actions[n]).1;
            if S.Matches(before, expected, worlds[n].now) then
              && outcome == Swapped && after == before[expected.token := S.EntryFor(next, ttl, worlds[m].now)]
            else outcome == Refused && worlds[n + 1].table == worlds[n].table
    ensures worlds[n + 1].pending == worlds[n].pending - {c}
  {
    var w := worlds[n];
    var row := RowFor(next.Normalize(), EffectiveExpiresAt(next.expiresAt, worlds[m].now, ttl));
    StillPending(worlds, actions, c, m, n);
    SwapIsExact(worlds, actions, n);
    BegunSwap(worlds[m], c, expected, next, ttl);
    NormalMeans(next);
    ContentsAfter(w.table, expected.token, row);
    assert worlds[m + 1] == Perform(worlds[m], actions[m]).0;
    hide Execution, TokenState.Normalize, EffectiveExpiresAt, Contents, S.Matches;
  }

  /** A swap is refused at once exactly if the state selected is not the expected one. */
  lemma BegunSwap(w: World, c: nat, expected: TokenState, next: TokenState, ttl: int)
    requires Enabled(w, BeginSwap(c, expected, next, ttl))
    ensures var (w', outcome) := Perform(w, BeginSwap(c, expected, next, ttl));
            var t, before := expected.token, Contents(w.table);
            && w'.table == w.table
            && if t in before && before[t].state == expected then
                 && outcome == Continues && c in w'.pending && w'.pending[c].Swapping? && w'.pending[c].token == t
                 && w'.pending[c].expected == expected
                 && w'.pending[c].record == RowFor(next.Normalize(), EffectiveExpiresAt(next.expiresAt, w.now, ttl))
               else outcome == Refused && w' == w
  {
    hide TokenState.Normalize, EffectiveExpiresAt;
  }

  /** What the SELECT of a consumption decides: whether there is something to consume, and if not, what to answer. */
  lemma SelectAnswers(worlds: seq<World>, actions: seq<Action>, m: nat, c: nat, t: TokenValue, wanted: Option<Kind>)
    requires Execution(worlds, actions) && m < |actions| && actions[m] == BeginConsume(c, t, wanted)
    ensures var w, w', outcome := worlds[m], worlds[m + 1], Perform(worlds[m], actions[m]).1;
            var before := Contents(w.table);
            && w'.table == w.table
            && (if S.Consumable(before, t, wanted, w.now) then
                  outcome == Continues && c in w'.pending
                  && w'.pending[c] == Consuming(t, before[t].state, wanted, w.now)
                else if S.IsLive(before, t, w.now) then outcome == Snapshot(before[t].state) && w' == w
                else if t in before then outcome == Continues && c in w'.pending && w'.pending[c] == Expiring(t)
                else outcome == Missing && w' == w)
  {
    var w := worlds[m];
    ExecutionKeepsInv(worlds, actions, m);
    assert Enabled(w, actions[m]);
    hide Execution, TokenState.Normalize;
    if t in w.table {
      InTimeMeansLive(w.table, t, w.now);
      NormalDecode(w.table[t].stateJSON);
      assert Agrees(t, w.table[t]);
    }
  }

  /** In every execution the UPDATE of a consumption marks the state its SELECT found as consumed, for the rest of its
      life, if that is still what is stored, and answers it as it was; otherwise nothing changes and it goes on. */
  lemma ConsumptionTakesEffect(worlds: seq<World>, actions: seq<Action>, c: nat, m: nat, n: nat, t: TokenValue,
                               wanted: Option<Kind>)
    requires Execution(worlds, actions) && CallAt(worlds, actions, c, m, n)
    requires actions[m] == BeginConsume(c, t, wanted)
    requires S.Consumable(Contents(worlds[m].table), t, wanted, worlds[m].now)
    ensures var was, at := Contents(worlds[m].table)[t].state, worlds[m].now;
            var before, after := Contents(worlds[n].table), Contents(worlds[n + 1].table);
            var outcome := Perform(worlds[n], actions[n]).1;
            if S.IsLive(before, t, at) && before[t].state == was then
              && outcome == Snapshot(was) && t in after && after == before[t := after[t]]
              && IsConsumed(was, after[t].state, at) && after[t].deadline == before[t].deadline
              && worlds[n + 1].pending == worlds[n].pending - {c}
            else
              && outcome == Continues && worlds[n + 1].table == worlds[n].table
              && worlds[n + 1].pending == worlds[n].pending[c := Lost(t, wanted, at)]
  {
    SelectAnswers(worlds, actions, m, c, t, wanted);
    StillPending(worlds, actions, c, m, n);
    ConsumeIsExact(worlds, actions, n, c);
    MarkedAsSaid(Contents(worlds[m].table)[t].state, worlds[m].now);
    assert worlds[n + 1] == Perform(worlds[n], actions[n]).0;
    hide Execution, Contents, IsConsumed, TokenState.MarkConsumed, TokenState.Normalize, Perform;
  }

  /** A consumption that lost answers what is stored by then, an error if that could be consumed again, or nothing. */
  lemma LosersAnswer(w: World, c: nat)
    requires c in w.pending && w.pending[c].Lost?
    ensures var p, outcome, before := w.pending[c], Perform(w, Continue(c)).1, Contents(w.table);
            && Perform(w, Continue(c)).0 == w.(pending := w.pending - {c})
            && (outcome.Missing? <==> p.token !in before)
            && (outcome == Contended <==>
                  p.token in before && before[p.token].state.IsActive(p.at)
                  && (p.wanted.Some? ==> before[p.token].state.kind == p.wanted.value))
            && (p.token in before && outcome != Contended ==> outcome == Snapshot(before[p.token].state))
  {
    hide TokenState.Normalize;
  }

  // ----- a consumption that selects an expired row deletes what is there later

  /** The consumption selects an expired row first, and its DELETE comes last; by then the row there is live. */
  ghost predicate DeletedLive(worlds: seq<World>, actions: seq<Action>, c: nat, t: TokenValue, wanted: Option<Kind>)
    requires |worlds| == |actions| + 1
  {
    var n := |actions| - 1;
    && n > 0 && actions[0] == BeginConsume(c, t, wanted) && actions[n] == Continue(c)
    && c in worlds[1].pending && c in worlds[n].pending && worlds[n].pending[c] == worlds[1].pending[c]
    && worlds[1].pending[c].Expiring? && S.IsLive(Contents(worlds[n].table), t, worlds[n].now)
    && t !in worlds[n + 1].table
  }

  ghost predicate CanDeleteLive(w: World, c: nat, t: TokenValue, wanted: Option<Kind>, alone: bool) {
    exists worlds: seq<World>, actions: seq<Action> ::
      && |worlds| == |actions| + 1 && Steps(worlds, actions) && worlds[0] == w
      && DeletedLive(worlds, actions, c, t, wanted)
      && (alone ==> forall i :: 0 <= i < |actions| ==> RowStays(w, worlds[i], t))
  }

  lemma {:induction false} ClockGoesOn(worlds: seq<World>, actions: seq<Action>, k: nat)
    requires Steps(worlds, actions) && k < |worlds|
    ensures worlds[0].now <= worlds[k].now
  {
    hide TokenState.Normalize, EffectiveExpiresAt, ConsumeUpdate, SwapHits, ConsumeHits, InTime, Wants;
    if k > 0 {
      ClockGoesOn(worlds, actions, k - 1);
    }
  }

  /** In every reachable world a consumption of an expired row can delete a live one exactly if the row is not left
      alone until its DELETE runs, as it is where the row lock holds. */
  lemma DeletesLiveIff(worlds: seq<World>, actions: seq<Action>, m: nat, c: nat, t: TokenValue, wanted: Option<Kind>,
                       alone: bool)
    requires Execution(worlds, actions) && m < |worlds|
    requires c !in worlds[m].pending && t in worlds[m].table && !InTime(worlds[m].table[t], worlds[m].now)
    ensures CanDeleteLive(worlds[m], c, t, wanted, alone) <==> !alone
  {
    hide Inv, Execution, CanDeleteLive;
    var w := worlds[m];
    ExecutionKeepsInv(worlds, actions, m);
    ExecutionKeepsSavable(worlds, actions, m);
    if alone {
      LeftAloneIsExpired(w, c, t, wanted);
    } else {
      SavedInTheMeantime(w, c, t, wanted);
    }
  }

  lemma LeftAloneIsExpired(w: World, c: nat, t: TokenValue, wanted: Option<Kind>)
    requires t in w.table && !InTime(w.table[t], w.now)
    ensures !CanDeleteLive(w, c, t, wanted, true)
  {
    hide Steps, TokenState.Normalize;
    forall worlds: seq<World>, actions: seq<Action> |
      && |worlds| == |actions| + 1 && Steps(worlds, actions) && worlds[0] == w
      && DeletedLive(worlds, actions, c, t, wanted)
      ensures exists i :: 0 <= i < |actions| && !RowStays(w, worlds[i], t)
    {
      ClockGoesOn(worlds, actions, |actions| - 1);
      assert !RowStays(w, worlds[|actions| - 1], t);
    }
  }

  lemma SavedInTheMeantime(w: World, c: nat, t: TokenValue, wanted: Option<Kind>)
    requires Inv(w) && Savable(w) && c !in w.pending && t in w.table && !InTime(w.table[t], w.now)
    ensures CanDeleteLive(w, c, t, wanted, false)
  {
    var state := w.table[t].stateJSON.(expiresAt := None);
    var actions := [BeginConsume(c, t, wanted), Save(state, 0), Continue(c)];
    var begun := w.(pending := w.pending[c := Expiring(t)]);
    var saved := begun.(table := begun.table[t := RowFor(state, None)]);
    ExpiredIsSelected(w, c, t, wanted);
    StateIsSaved(begun, t);
    LiveIsDeleted(saved, c, t);
    hide Inv, Savable, Contents, S.IsLive, Perform, Enabled, InTime;
    var worlds := [w, begun, saved, Perform(saved, actions[2]).0];
    assert Steps(worlds, actions) && DeletedLive(worlds, actions, c, t, wanted);
  }

  lemma ExpiredIsSelected(w: World, c: nat, t: TokenValue, wanted: Option<Kind>)
    requires c !in w.pending && t in w.table && !InTime(w.table[t], w.now)
    ensures Enabled(w, BeginConsume(c, t, wanted))
    ensures Perform(w, BeginConsume(c, t, wanted)).0 == w.(pending := w.pending[c := Expiring(t)])
  {
  }

  /** The state stored, saved to live for ever. */
  lemma StateIsSaved(w: World, t: TokenValue)
    requires ColumnsAgree(w.table) && t in w.table && S.CanSave(w.table[t].stateJSON)
    ensures var state := w.table[t].stateJSON.(expiresAt := None);
            var table := w.table[t := RowFor(state, None)];
            && Enabled(w, Save(state, 0)) && Perform(w, Save(state, 0)).0 == w.(table := table)
            && S.IsLive(Contents(table), t, w.now)
  {
    var state := w.table[t].stateJSON.(expiresAt := None);
    assert Agrees(t, w.table[t]);
    assert state.Normalize() == state;
    ContentsAfter(w.table, t, RowFor(state, None));
    hide Contents, TokenState.Normalize;
  }

  /** Its DELETE takes that row and no other, whatever it holds by then, and the answer is that there is none. */
  lemma LiveIsDeleted(w: World, c: nat, t: TokenValue)
    requires c in w.pending && w.pending[c] == Expiring(t)
    ensures Enabled(w, Continue(c)) && t !in Perform(w, Continue(c)).0.table
    ensures var (after, outcome) := Perform(w, Continue(c));
            && Contents(after.table) == Contents(w.table) - {t} && after.pending == w.pending - {c}
            && outcome == Missing
  {
    hide TokenState.Normalize;
  }
}
