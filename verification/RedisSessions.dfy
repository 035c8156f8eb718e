/** Sessions in Redis. Each subject has a key of its own; values written by an older release may still lie
    under a key that several subjects share, and move when their subject is written. A write reads the
    shared key first and then runs one script that compares, writes and cleans up. */
module RedisSessions {
  import opened Clients
  import opened Tokens

  /** A serialized session: whose it is, as written, and what it holds. */
  datatype Raw = Raw(subject: LoginSubject, data: map<string, string>)

  datatype Cell = Cell(raw: Raw, deadline: Option<int>)

  /** v2 is keyed by normalized subject; legacy by the text that subjects may share. */
  datatype Server = Server(v2: map<LoginSubject, Cell>, legacy: map<string, Cell>)

  function LegacyName(n: LoginSubject): string {
    n.loginType + ":" + n.loginID
  }

  function LegacyRaw(s: Server, n: LoginSubject): Option<Raw> {
    if LegacyName(n) in s.legacy then Some(s.legacy[LegacyName(n)].raw) else None
  }

  predicate Owns(n: LoginSubject, raw: Option<Raw>) {
    raw.Some? && raw.value.subject.Normalize() == n
  }

  // ----- the scripts

  function WriteScript(s: Server, n: LoginSubject, seen: Option<Raw>, value: Raw, deadline: Option<int>,
                       removeLegacy: bool, ensure: bool): Server
  {
    if LegacyRaw(s, n) != seen then s
    else
      var kept := if ensure && n in s.v2 then s.v2[n].raw else value;
      Server(s.v2[n := Cell(kept, deadline)], if removeLegacy then s.legacy - {LegacyName(n)} else s.legacy)
  }

  function DeleteScript(s: Server, n: LoginSubject, raw: Raw): Server {
    if n in s.v2 && s.v2[n].raw == raw then s.(v2 := s.v2 - {n}) else s
  }

  function DeleteLegacyScript(s: Server, n: LoginSubject, raw: Raw): Server {
    if LegacyRaw(s, n) == Some(raw) then s.(legacy := s.legacy - {LegacyName(n)}) else s
  }

  // ----- calls in progress

  datatype Pending =
    | Writing(subject: LoginSubject, seen: Option<Raw>, value: Raw, ttl: int, ensure: bool)
    | Deleting(subject: LoginSubject, raw: Raw)
    | DeletingLegacy(subject: LoginSubject, raw: Raw)

  /** What a write goes on to do after reading the shared key: an ensuring one takes its owner's old value along. */
  function AfterRead(s: Server, n: LoginSubject, data: map<string, string>, ttl: int, ensure: bool): Pending {
    var seen := LegacyRaw(s, n);
    Writing(n, seen, if ensure && Owns(n, seen) then seen.value else Raw(n, data), ttl, ensure)
  }

  /** A lifetime counts from the moment the script runs. */
  function RunScript(s: Server, p: Pending, now: int): Server {
    match p
    case Writing(n, seen, value, ttl, ensure) =>
      WriteScript(s, n, seen, value, Deadline(now, ttl), Owns(n, seen), ensure)
    case Deleting(n, raw) => DeleteScript(s, n, raw)
    case DeletingLegacy(n, raw) => DeleteLegacyScript(s, n, raw)
  }

  datatype World = World(server: Server, now: int, pending: map<nat, Pending>)

  datatype Action =
    | BeginSave(c: nat, subject: LoginSubject, data: map<string, string>, ttl: int)
    | BeginEnsure(c: nat, subject: LoginSubject, ttl: int)
    | BeginDelete(c: nat, subject: LoginSubject)
    | BeginDeleteLegacy(c: nat, subject: LoginSubject)
    | Run(c: nat)
    | Vanish(subject: LoginSubject)
    | VanishLegacy(name: string)
    | Tick(until: int)

  /** A positive lifetime is rounded down to milliseconds, but not to none. */
  function Deadline(now: int, ttl: int): Option<int> {
    var millis := ttl / 1000000;
    if ttl <= 0 then None else Some(now + (if millis < 1 then 1 else millis) * 1000000)
  }

  predicate Enabled(w: World, a: Action) {
    match a
    case BeginSave(c, subject, _, _) => c !in w.pending && !subject.Normalize().IsZero()
    case BeginEnsure(c, subject, _) => c !in w.pending && !subject.Normalize().IsZero()
    case BeginDelete(c, subject) => c !in w.pending
    case BeginDeleteLegacy(c, subject) => c !in w.pending
    case Run(c) => c in w.pending
    case Vanish(n) => n in w.server.v2 && Passed(w.server.v2[n].deadline, w.now)
    case VanishLegacy(name) => name in w.server.legacy && Passed(w.server.legacy[name].deadline, w.now)
    case Tick(until) => w.now <= until
  }

  function Next(w: World, a: Action): World
    requires Enabled(w, a)
  {
    match a
    case BeginSave(c, subject, data, ttl) =>
      w.(pending := w.pending[c := AfterRead(w.server, subject.Normalize(), data, ttl, false)])
    case BeginEnsure(c, subject, ttl) =>
      w.(pending := w.pending[c := AfterRead(w.server, subject.Normalize(), map[], ttl, true)])
    case BeginDelete(c, subject) =>
      var n := subject.Normalize();
      if n in w.server.v2 && Owns(n, Some(w.server.v2[n].raw))
      then w.(pending := w.pending[c := Deleting(n, w.server.v2[n].raw)]) else w
    case BeginDeleteLegacy(c, subject) =>
      var n := subject.Normalize();
      if Owns(n, LegacyRaw(w.server, n))
      then w.(pending := w.pending[c := DeletingLegacy(n, LegacyRaw(w.server, n).value)]) else w
    case Run(c) => World(RunScript(w.server, w.pending[c], w.now), w.now, w.pending - {c})
    case Vanish(n) => w.(server := w.server.(v2 := w.server.v2 - {n}))
    case VanishLegacy(name) => w.(server := w.server.(legacy := w.server.legacy - {name}))
    case Tick(until) => w.(now := until)
  }

  predicate Steps(worlds: seq<World>, actions: seq<Action>) {
    && |worlds| == |actions| + 1
    && forall i :: 0 <= i < |actions| ==> Enabled(worlds[i], actions[i]) && worlds[i + 1] == Next(worlds[i], actions[i])
  }

  /** An upgrade: to begin with there is only data of the older layout. */
  predicate Execution(worlds: seq<World>, actions: seq<Action>) {
    Steps(worlds, actions) && worlds[0].server.v2 == map[] && worlds[0].pending == map[]
  }

  // ----- what every step keeps

  /** A value under a subject's own key is its own, and leaves it none under the shared key. */
  ghost predicate Migrated(s: Server) {
    forall n :: n in s.v2 ==> !n.IsZero() && Owns(n, Some(s.v2[n].raw)) && !Owns(n, LegacyRaw(s, n))
  }

  ghost predicate PendingOk(p: Pending) {
    match p
    case Writing(n, seen, value, _, ensure) =>
      !n.IsZero() && Owns(n, Some(value)) && (ensure ==> value == if Owns(n, seen) then seen.value else Raw(n, map[]))
    case Deleting(n, raw) => Owns(n, Some(raw))
    case DeletingLegacy(n, raw) => Owns(n, Some(raw))
  }

  ghost predicate Inv(w: World) {
    Migrated(w.server) && forall c :: c in w.pending ==> PendingOk(w.pending[c])
  }

  lemma ScriptKeepsMigrated(s: Server, p: Pending, now: int)
    requires Migrated(s) && PendingOk(p)
    ensures Migrated(RunScript(s, p, now))
  {
    hide LoginSubject.Normalize, LoginSubject.IsZero, LegacyName, Deadline;
  }

  lemma StepKeepsInv(w: World, a: Action)
    requires Inv(w) && Enabled(w, a)
    ensures Inv(Next(w, a))
  {
    hide LegacyName, TrimSpace, LoginSubject.IsZero, RunScript;
    match a
    case BeginSave(c, subject, data, ttl) => NormalizeTwice(subject);
    case BeginEnsure(c, subject, ttl) => NormalizeTwice(subject);
    case Run(c) => ScriptKeepsMigrated(w.server, w.pending[c], w.now);
    case _ =>
  }

  lemma {:induction false} StepsKeepInv(worlds: seq<World>, actions: seq<Action>, n: nat)
    requires Steps(worlds, actions) && n < |worlds| && Inv(worlds[0])
    ensures Inv(worlds[n])
  {
    hide Next, Enabled, Inv;
    if n > 0 {
      StepsKeepInv(worlds, actions, n - 1);
      StepKeepsInv(worlds[n - 1], actions[n - 1]);
    }
  }

  lemma ExecutionKeepsInv(worlds: seq<World>, actions: seq<Action>, n: nat)
    requires Execution(worlds, actions) && n < |worlds|
    ensures Inv(worlds[n])
  {
    hide Steps;
    StepsKeepInv(worlds, actions, n);
  }

  // ----- what a subject can see

  /** The session of a normalized subject: under its own key, or else its own value under the shared one. */
  function Observed(s: Server, n: LoginSubject): Option<Raw> {
    if n in s.v2 && Owns(n, Some(s.v2[n].raw)) then Some(s.v2[n].raw)
    else if Owns(n, LegacyRaw(s, n)) then LegacyRaw(s, n)
    else None
  }

  /** The value lies under one of the subject's two keys and is its own. */
  predicate Holds(s: Server, n: LoginSubject, raw: Raw) {
    Owns(n, Some(raw)) && ((n in s.v2 && s.v2[n].raw == raw) || LegacyRaw(s, n) == Some(raw))
  }

  lemma ScriptIsSeparate(s: Server, p: Pending, other: LoginSubject, now: int)
    requires Migrated(s) && PendingOk(p) && other != p.subject
    ensures Observed(RunScript(s, p, now), other) == Observed(s, other)
  {
    hide LoginSubject.Normalize, LegacyName;
  }

  /** In every execution no step taken for one subject changes what another can see, even one sharing its old key. */
  lemma SubjectsAreSeparate(worlds: seq<World>, actions: seq<Action>, n: nat, other: LoginSubject)
    requires Execution(worlds, actions) && n < |actions|
    ensures var a := actions[n];
            !a.VanishLegacy? && !(a.Vanish? && a.subject == other)
            && !(a.Run? && a.c in worlds[n].pending && worlds[n].pending[a.c].subject == other) ==>
              Observed(worlds[n + 1].server, other) == Observed(worlds[n].server, other)
  {
    hide LoginSubject.Normalize, LegacyName, RunScript, Migrated;
    ExecutionKeepsInv(worlds, actions, n);
    var w, a := worlds[n], actions[n];
    if a.Run? && a.c in w.pending && w.pending[a.c].subject != other {
      ScriptIsSeparate(w.server, w.pending[a.c], other, w.now);
    }
  }

  /** What a write does when its script runs: an ensuring one keeps what is there, wherever it lies, and
      otherwise creates an empty session; a saving one replaces it; either way the subject's own key now holds
      it, with the new lifetime. A write that finds the shared key changed does nothing, and is tried again. */
  ghost predicate WrittenAsContracted(s: Server, p: Pending, s': Server, now: int)
    requires p.Writing?
  {
    var n := p.subject;
    if LegacyRaw(s, n) != p.seen then s' == s
    else
      && n in s'.v2 && s'.v2[n].deadline == Deadline(now, p.ttl)
      && Observed(s', n) ==
           if p.ensure then (if Observed(s, n).Some? then Observed(s, n) else Some(Raw(n, map[]))) else Some(p.value)
  }

  lemma WriteStep(s: Server, p: Pending, now: int)
    requires Migrated(s) && PendingOk(p) && p.Writing?
    ensures WrittenAsContracted(s, p, RunScript(s, p, now), now)
  {
    hide LoginSubject.Normalize, LegacyName;
  }

  /** In every execution saving and ensuring take effect as contracted at the moment of their script. */
  lemma WriteTakesEffect(worlds: seq<World>, actions: seq<Action>, n: nat, c: nat)
    requires Execution(worlds, actions) && n < |actions| && actions[n] == Run(c)
    requires c in worlds[n].pending && worlds[n].pending[c].Writing?
    ensures WrittenAsContracted(worlds[n].server, worlds[n].pending[c], worlds[n + 1].server, worlds[n].now)
  {
    hide LoginSubject.Normalize, LegacyName, WrittenAsContracted, RunScript;
    ExecutionKeepsInv(worlds, actions, n);
    WriteStep(worlds[n].server, worlds[n].pending[c], worlds[n].now);
  }

  /** What a client is about to do stays until it does it. */
  lemma {:induction false} PendingStays(worlds: seq<World>, actions: seq<Action>, c: nat, i: nat, j: nat)
    requires Steps(worlds, actions) && i <= j < |worlds| && c in worlds[i].pending
    requires forall k :: i <= k < j ==> actions[k] != Run(c)
    ensures c in worlds[j].pending && worlds[j].pending[c] == worlds[i].pending[c]
    decreases j
  {
    hide RunScript, LoginSubject.Normalize, LegacyName;
    if i < j {
      PendingStays(worlds, actions, c, i, j - 1);
    }
  }

  /** The client's call begins with step m, its read, and goes on to its script, which is step n. */
  predicate CallAt(worlds: seq<World>, actions: seq<Action>, c: nat, m: nat, n: nat)
    requires |worlds| == |actions| + 1
  {
    && m < n < |actions| && c in worlds[m + 1].pending && actions[n] == Run(c)
    && forall k :: m < k < n ==> actions[k] != Run(c)
  }

  /** A lifetime is kept up to a millisecond; one that is not positive is none. */
  predicate Fits(deadline: Option<int>, ttl: int, now: int) {
    && (deadline.Some? <==> ttl > 0)
    && (ttl >= 1000000 ==> now + ttl - 1000000 < deadline.value <= now + ttl)
    && (0 < ttl < 1000000 ==> deadline.value == now + 1000000)
  }

  lemma LifeFits(now: int, ttl: int)
    ensures Fits(Deadline(now, ttl), ttl, now)
  {
  }

  /** In every execution a save whose script finds the shared key as its read did leaves the subject, and it alone,
      with what it was given; otherwise nothing changes. */
  lemma SaveTakesEffect(worlds: seq<World>, actions: seq<Action>, c: nat, m: nat, n: nat, subject: LoginSubject,
                        data: map<string, string>, ttl: int)
    requires Execution(worlds, actions) && CallAt(worlds, actions, c, m, n)
    requires actions[m] == BeginSave(c, subject, data, ttl)
    ensures var key, s, s' := subject.Normalize(), worlds[n].server, worlds[n + 1].server;
            if LegacyRaw(s, key) == LegacyRaw(worlds[m].server, key) then
              && key in s'.v2 && s'.v2 == s.v2[key := s'.v2[key]] && s'.v2[key].raw == Raw(key, data)
              && Fits(s'.v2[key].deadline, ttl, worlds[n].now) && LeavesNothingOld(s, s', key)
            else s' == s
  {
    hide LoginSubject.Normalize, LegacyName, RunScript, Deadline;
    PendingStays(worlds, actions, c, m + 1, n);
    LifeFits(worlds[n].now, ttl);
    ExecutionKeepsInv(worlds, actions, n);
    WriteScriptWrites(worlds[n].server, worlds[n].pending[c], worlds[n].now);
  }

  /** The subject's own value under the shared key is gone, and nobody else's. */
  predicate LeavesNothingOld(s: Server, s': Server, n: LoginSubject) {
    s'.legacy == if Owns(n, LegacyRaw(s, n)) then s.legacy - {n.loginType + ":" + n.loginID} else s.legacy
  }

  /** An ensuring call that finds the shared key as its read did leaves the subject with the session it had, wherever
      that lay, or else with an empty one; otherwise nothing changes. */
  lemma EnsureTakesEffect(worlds: seq<World>, actions: seq<Action>, c: nat, m: nat, n: nat, subject: LoginSubject,
                          ttl: int)
    requires Execution(worlds, actions) && CallAt(worlds, actions, c, m, n)
    requires actions[m] == BeginEnsure(c, subject, ttl)
    ensures var key, s, s' := subject.Normalize(), worlds[n].server, worlds[n + 1].server;
            if LegacyRaw(s, key) == LegacyRaw(worlds[m].server, key) then
              && key in s'.v2 && s'.v2 == s.v2[key := s'.v2[key]]
              && Some(s'.v2[key].raw) == (if Observed(s, key).Some? then Observed(s, key) else Some(Raw(key, map[])))
              && Fits(s'.v2[key].deadline, ttl, worlds[n].now) && LeavesNothingOld(s, s', key)
            else s' == s
  {
    hide LoginSubject.Normalize, LegacyName, RunScript, Deadline;
    PendingStays(worlds, actions, c, m + 1, n);
    LifeFits(worlds[n].now, ttl);
    ExecutionKeepsInv(worlds, actions, n);
    WriteScriptWrites(worlds[n].server, worlds[n].pending[c], worlds[n].now);
  }

  lemma WriteScriptWrites(s: Server, p: Pending, now: int)
    requires Migrated(s) && p.Writing?
    ensures var n, s' := p.subject, RunScript(s, p, now);
            if LegacyRaw(s, n) == p.seen then
              && n in s'.v2 && s'.v2 == s.v2[n := s'.v2[n]] && s'.v2[n].deadline == Deadline(now, p.ttl)
              && s'.v2[n].raw == (if p.ensure && n in s.v2 then s.v2[n].raw else p.value)
              && LeavesNothingOld(s, s', n)
            else s' == s
  {
    hide LoginSubject.Normalize, Deadline;
  }

  /** A deletion gets to its first script exactly if its read finds the subject's own session under its key; the script
      removes what was read, if it is still there, and nothing else. */
  lemma DeleteTakesEffect(worlds: seq<World>, actions: seq<Action>, c: nat, m: nat, n: nat, subject: LoginSubject)
    requires Execution(worlds, actions) && CallAt(worlds, actions, c, m, n) && actions[m] == BeginDelete(c, subject)
    ensures var key, read, s := subject.Normalize(), worlds[m].server, worlds[n].server;
            && key in read.v2
            && worlds[n + 1].server ==
                 if key in s.v2 && s.v2[key].raw == read.v2[key].raw then s.(v2 := s.v2 - {key}) else s
  {
    hide LoginSubject.Normalize, LegacyName;
    PendingStays(worlds, actions, c, m + 1, n);
  }

  lemma DeleteGoesOnIff(w: World, c: nat, subject: LoginSubject)
    requires Enabled(w, BeginDelete(c, subject))
    ensures var w', key := Next(w, BeginDelete(c, subject)), subject.Normalize();
            && w'.server == w.server
            && (c in w'.pending <==> key in w.server.v2 && w.server.v2[key].raw.subject.Normalize() == key)
  {
    hide LoginSubject.Normalize, LegacyName;
  }

  /** The same for the shared key, where a value may be somebody else's, and then is left alone. */
  lemma DeleteLegacyTakesEffect(worlds: seq<World>, actions: seq<Action>, c: nat, m: nat, n: nat, subject: LoginSubject)
    requires Execution(worlds, actions) && CallAt(worlds, actions, c, m, n)
    requires actions[m] == BeginDeleteLegacy(c, subject)
    ensures var key, read, s := subject.Normalize(), worlds[m].server, worlds[n].server;
            var name := key.loginType + ":" + key.loginID;
            && name in read.legacy && read.legacy[name].raw.subject.Normalize() == key
            && worlds[n + 1].server ==
                 if name in s.legacy && s.legacy[name].raw == read.legacy[name].raw
                 then s.(legacy := s.legacy - {name}) else s
  {
    hide LoginSubject.Normalize;
    PendingStays(worlds, actions, c, m + 1, n);
  }

  lemma DeleteLegacyGoesOnIff(w: World, c: nat, subject: LoginSubject)
    requires Enabled(w, BeginDeleteLegacy(c, subject))
    ensures var w', key := Next(w, BeginDeleteLegacy(c, subject)), subject.Normalize();
            var name := key.loginType + ":" + key.loginID;
            && w'.server == w.server
            && (c in w'.pending <==> name in w.server.legacy && w.server.legacy[name].raw.subject.Normalize() == key)
  {
    hide LoginSubject.Normalize;
  }

  /** Redis lets a key go when its time has passed, and nothing else with it. */
  lemma OnlyPassedKeysVanish(w: World, a: Action)
    requires Enabled(w, a) && (a.Vanish? || a.VanishLegacy?)
    ensures var s, s' := w.server, Next(w, a).server;
            if a.Vanish? then
              var deadline := s.v2[a.subject].deadline;
              deadline.Some? && deadline.value <= w.now && s' == s.(v2 := s.v2 - {a.subject})
            else
              var deadline := s.legacy[a.name].deadline;
              deadline.Some? && deadline.value <= w.now && s' == s.(legacy := s.legacy - {a.name})
  {
  }

  /** Values under shared keys are never written, only removed. */
  lemma {:induction false} LegacyShrinks(worlds: seq<World>, actions: seq<Action>, m: nat, n: nat)
    requires Steps(worlds, actions) && m <= n < |worlds|
    ensures forall name :: name in worlds[n].server.legacy ==>
              name in worlds[m].server.legacy && worlds[n].server.legacy[name] == worlds[m].server.legacy[name]
    decreases n
  {
    hide LegacyName, LoginSubject.Normalize, Enabled;
    if m < n {
      LegacyShrinks(worlds, actions, m, n - 1);
      LegacyShrinksOnce(worlds[n - 1], actions[n - 1]);
    }
  }

  lemma LegacyShrinksOnce(w: World, a: Action)
    requires Enabled(w, a)
    ensures forall name :: name in Next(w, a).server.legacy ==>
              name in w.server.legacy && Next(w, a).server.legacy[name] == w.server.legacy[name]
  {
    hide LegacyName, LoginSubject.Normalize;
  }

  /** Once a subject has a session under its own key, data of the older layout never comes back for it: not
      when that key expires, not when it is deleted. */
  lemma MigratedDataStaysGone(worlds: seq<World>, actions: seq<Action>, m: nat, n: nat, subject: LoginSubject)
    requires Execution(worlds, actions) && m <= n < |worlds| && subject in worlds[m].server.v2
    ensures !Owns(subject, LegacyRaw(worlds[n].server, subject))
    ensures subject !in worlds[n].server.v2 ==> Observed(worlds[n].server, subject) == None
  {
    hide LegacyName, LoginSubject.Normalize, LoginSubject.IsZero, Steps;
    ExecutionKeepsInv(worlds, actions, m);
    LegacyShrinks(worlds, actions, m, n);
    assert !Owns(subject, LegacyRaw(worlds[m].server, subject));
  }

  // ----- reading takes two steps

  /** The answer of a read that looks under the subject's own key in s, and under the shared one later, in s'. */
  function Answer(s: Server, s': Server, n: LoginSubject): Option<Raw> {
    if n in s.v2 && Owns(n, Some(s.v2[n].raw)) then Some(s.v2[n].raw)
    else if Owns(n, LegacyRaw(s', n)) then LegacyRaw(s', n)
    else None
  }

  /** What a read returns was the session at one of its two steps. It misses a session that is there at both
      if and only if that was migrated in between. */
  lemma ReadIsCurrentUnlessMigrated(worlds: seq<World>, actions: seq<Action>, m: nat, n: nat, subject: LoginSubject)
    requires Execution(worlds, actions) && m <= n < |worlds|
    ensures var s, s' := worlds[m].server, worlds[n].server;
            var answer := Answer(s, s', subject);
            && (answer.Some? ==> answer == Observed(s, subject) || answer == Observed(s', subject))
            && (answer.None? && Observed(s, subject).Some? && Observed(s', subject).Some? <==>
                  Owns(subject, LegacyRaw(s, subject)) && subject in s'.v2)
  {
    hide LegacyName, LoginSubject.Normalize, LoginSubject.IsZero, Execution;
    ExecutionKeepsInv(worlds, actions, m);
    ExecutionKeepsInv(worlds, actions, n);
  }

  /** The subject sees the same session in all the worlds. */
  ghost predicate SeenThroughout(worlds: seq<World>, n: LoginSubject) {
    forall i :: 0 <= i < |worlds| ==> Observed(worlds[i].server, n).Some? &&
                                      Observed(worlds[i].server, n) == Observed(worlds[0].server, n)
  }

  /** From the world some continuation makes a read that begins there answer that a session is missing
      which is there, unchanged, all the time. */
  ghost predicate ReadCanMiss(w: World, n: LoginSubject) {
    exists worlds: seq<World>, actions: seq<Action> ::
      && |worlds| == |actions| + 1 && Steps(worlds, actions) && worlds[0] == w && SeenThroughout(worlds, n)
      && Answer(w.server, worlds[|actions|].server, n) == None
  }

  /** The condition a caller could check before the call: a read can miss its session exactly when the session
      still lies under the shared key (and is somebody's, so that it can be written at all). */
  lemma ReadCanMissIff(worlds: seq<World>, actions: seq<Action>, m: nat, subject: LoginSubject)
    requires Execution(worlds, actions) && m < |worlds|
    ensures var w, n := worlds[m], subject.Normalize();
            ReadCanMiss(w, n) <==> Owns(n, LegacyRaw(w.server, n)) && !n.IsZero()
  {
    hide LegacyName, LoginSubject.Normalize, LoginSubject.IsZero, Steps;
    var w, n := worlds[m], subject.Normalize();
    ExecutionKeepsInv(worlds, actions, m);
    if ReadCanMiss(w, n) {
      var ws: seq<World>, acts: seq<Action> :|
        && |ws| == |acts| + 1 && Steps(ws, acts) && ws[0] == w && SeenThroughout(ws, n)
        && Answer(w.server, ws[|acts|].server, n) == None;
      StepsKeepInv(ws, acts, |acts|);
      assert Observed(ws[|acts|].server, n).Some? && Observed(ws[0].server, n).Some?;
    }
    if Owns(n, LegacyRaw(w.server, n)) && !n.IsZero() {
      var c := FreshClient(w.pending.Keys);
      var ws, acts := Migration(w, c, subject);
      assert Answer(w.server, ws[2].server, n) == None;
    }
  }

  /** An ensuring call moves the session from the shared key to the subject's own, and nothing is lost. */
  lemma Migration(w: World, c: nat, subject: LoginSubject) returns (worlds: seq<World>, actions: seq<Action>)
    requires Inv(w) && c !in w.pending
    requires var n := subject.Normalize(); Owns(n, LegacyRaw(w.server, n)) && !n.IsZero()
    ensures actions == [BeginEnsure(c, subject, 0), Run(c)]
    ensures |worlds| == 3 && worlds[0] == w && Steps(worlds, actions)
    ensures var n, s := subject.Normalize(), worlds[2].server;
            && SeenThroughout(worlds, n) && n in s.v2 && !Owns(n, LegacyRaw(s, n)) && worlds[2].pending == w.pending
  {
    hide LegacyName, LoginSubject.Normalize, LoginSubject.IsZero;
    actions := [BeginEnsure(c, subject, 0), Run(c)];
    var begun := Next(w, actions[0]);
    worlds := [w, begun, Next(begun, actions[1])];
    assert worlds[2].pending == w.pending;
  }

  // ----- deleting takes two steps, each a read and a script

  /** One half of a deletion: its read is step i, and its script step j, or nothing when there was nothing to delete. */
  predicate Half(worlds: seq<World>, actions: seq<Action>, c: nat, begin: Action, i: nat, j: nat)
    requires |worlds| == |actions| + 1
  {
    && i <= j < |actions| && actions[i] == begin && c !in worlds[i].pending
    && if c !in worlds[i + 1].pending then j == i
       else i < j && actions[j] == Run(c) && forall k :: i < k < j ==> actions[k] != Run(c)
  }

  /** A deletion by the client: the subject's own key at steps a and b, then the shared one at d and e. */
  predicate Deletes(worlds: seq<World>, actions: seq<Action>, c: nat, subject: LoginSubject, a: nat, b: nat, d: nat,
                    e: nat)
    requires |worlds| == |actions| + 1
  {
    && Half(worlds, actions, c, BeginDelete(c, subject), a, b) && b < d
    && Half(worlds, actions, c, BeginDeleteLegacy(c, subject), d, e)
  }

  /** The step runs a write for the subject; a saving one if it is not an ensuring one. */
  predicate Writes(w: World, a: Action, n: LoginSubject) {
    a.Run? && a.c in w.pending && w.pending[a.c].Writing? && w.pending[a.c].subject == n
  }

  predicate Saves(w: World, a: Action, n: LoginSubject) {
    Writes(w, a, n) && !w.pending[a.c].ensure
  }

  /** A step that runs no write for the subject leaves its own key alone or empty. Without a save, and with nothing
      under the shared key, it leaves there what it found, or nothing, or an empty session. */
  lemma OwnKeyMoves(w: World, a: Action, n: LoginSubject)
    requires Inv(w) && Enabled(w, a)
    ensures var s, s' := w.server, Next(w, a).server;
            && (!Writes(w, a, n) && n in s'.v2 ==> n in s.v2 && s'.v2[n] == s.v2[n])
            && (!Saves(w, a, n) && !Owns(n, LegacyRaw(s, n)) && n in s'.v2 && s'.v2[n].raw != Raw(n, map[]) ==>
                  n in s.v2 && s'.v2[n].raw == s.v2[n].raw)
  {
    hide LoginSubject.Normalize, LegacyName, Deadline;
  }

  /** When the second half is done the subject has nothing under the shared key, for good. */
  lemma SharedKeyIsCleared(worlds: seq<World>, actions: seq<Action>, c: nat, subject: LoginSubject, d: nat, e: nat)
    requires Steps(worlds, actions) && Half(worlds, actions, c, BeginDeleteLegacy(c, subject), d, e)
    ensures !Owns(subject.Normalize(), LegacyRaw(worlds[e + 1].server, subject.Normalize()))
  {
    hide LoginSubject.Normalize, LegacyName;
    var n := subject.Normalize();
    LegacyShrinks(worlds, actions, d, e);
    if d < e {
      PendingStays(worlds, actions, c, d + 1, e);
    }
  }

  /** In every execution a deletion leaves nothing under the shared key, and so nothing at all exactly when nothing
      is under the subject's own key when it ends. */
  lemma DeletedUnlessMigrated(worlds: seq<World>, actions: seq<Action>, c: nat, subject: LoginSubject,
                              a: nat, b: nat, d: nat, e: nat)
    requires Execution(worlds, actions) && Deletes(worlds, actions, c, subject, a, b, d, e)
    ensures var s, n := worlds[e + 1].server, subject.Normalize();
            !Owns(n, LegacyRaw(s, n)) && (Observed(s, n) == None <==> n !in s.v2)
  {
    hide LoginSubject.Normalize, LoginSubject.IsZero, LegacyName;
    SharedKeyIsCleared(worlds, actions, c, subject, d, e);
    ExecutionKeepsInv(worlds, actions, e + 1);
  }

  lemma {:induction false} OwnKeyShrinks(worlds: seq<World>, actions: seq<Action>, i: nat, j: nat, n: LoginSubject)
    requires Steps(worlds, actions) && Inv(worlds[0]) && i <= j < |worlds|
    requires forall k :: i <= k < j ==> !Writes(worlds[k], actions[k], n)
    ensures n in worlds[j].server.v2 ==> n in worlds[i].server.v2 && worlds[j].server.v2[n] == worlds[i].server.v2[n]
    decreases j
  {
    hide Next, Inv, LoginSubject.Normalize, Writes;
    if i < j {
      OwnKeyShrinks(worlds, actions, i, j - 1, n);
      StepsKeepInv(worlds, actions, j - 1);
      OwnKeyMoves(worlds[j - 1], actions[j - 1], n);
    }
  }

  /** Without a save, and with nothing under the shared key, the subject's own key never holds data it did not hold. */
  lemma {:induction false} OwnDataIsOld(worlds: seq<World>, actions: seq<Action>, i: nat, j: nat, n: LoginSubject)
    requires Steps(worlds, actions) && Inv(worlds[0]) && i <= j < |worlds|
    requires !Owns(n, LegacyRaw(worlds[i].server, n)) && forall k :: i <= k < j ==> !Saves(worlds[k], actions[k], n)
    ensures n in worlds[j].server.v2 && worlds[j].server.v2[n].raw != Raw(n, map[]) ==>
              n in worlds[i].server.v2 && worlds[j].server.v2[n].raw == worlds[i].server.v2[n].raw
    decreases j
  {
    hide Next, Inv, LoginSubject.Normalize, LegacyName, Saves;
    if i < j {
      OwnDataIsOld(worlds, actions, i, j - 1, n);
      StepsKeepInv(worlds, actions, j - 1);
      LegacyShrinks(worlds, actions, i, j - 1);
      OwnKeyMoves(worlds[j - 1], actions[j - 1], n);
    }
  }

  /** The first half removes what its read found under the subject's own key, if that is still there. */
  lemma OwnKeyIsCleared(worlds: seq<World>, actions: seq<Action>, c: nat, subject: LoginSubject, a: nat, b: nat)
    requires Steps(worlds, actions) && Inv(worlds[0]) && Half(worlds, actions, c, BeginDelete(c, subject), a, b)
    ensures var n := subject.Normalize();
            && (n !in worlds[a].server.v2 ==> b == a && worlds[b + 1].server == worlds[b].server)
            && (&& n in worlds[a].server.v2 && n in worlds[b].server.v2
                && worlds[b].server.v2[n].raw == worlds[a].server.v2[n].raw
                ==> n !in worlds[b + 1].server.v2)
            && (n in worlds[b + 1].server.v2 ==>
                  n in worlds[b].server.v2 && worlds[b + 1].server.v2[n] == worlds[b].server.v2[n])
  {
    hide LoginSubject.Normalize, LegacyName, LoginSubject.IsZero;
    StepsKeepInv(worlds, actions, a);
    if a < b {
      PendingStays(worlds, actions, c, a + 1, b);
    }
  }

  /** In every execution a deletion beside which no write for its subject runs leaves nothing. */
  lemma DeletedUnlessWritten(worlds: seq<World>, actions: seq<Action>, c: nat, subject: LoginSubject,
                             a: nat, b: nat, d: nat, e: nat)
    requires Execution(worlds, actions) && Deletes(worlds, actions, c, subject, a, b, d, e)
    requires forall k :: a <= k <= e ==> !Writes(worlds[k], actions[k], subject.Normalize())
    ensures Observed(worlds[e + 1].server, subject.Normalize()) == None
  {
    hide LoginSubject.Normalize, LoginSubject.IsZero, LegacyName, Writes, Next, Inv, Observed;
    var n := subject.Normalize();
    ExecutionKeepsInv(worlds, actions, 0);
    DeletedUnlessMigrated(worlds, actions, c, subject, a, b, d, e);
    OwnKeyShrinks(worlds, actions, a, b, n);
    OwnKeyIsCleared(worlds, actions, c, subject, a, b);
    OwnKeyShrinks(worlds, actions, b + 1, e + 1, n);
  }

  /** Nor does one leave data when, at its beginning, nothing lies under the shared key, whatever ensuring calls run
      beside it: at most they create an empty session anew. */
  lemma DataIsDeleted(worlds: seq<World>, actions: seq<Action>, c: nat, subject: LoginSubject,
                      a: nat, b: nat, d: nat, e: nat)
    requires Steps(worlds, actions) && Inv(worlds[0]) && Deletes(worlds, actions, c, subject, a, b, d, e)
    requires var n := subject.Normalize();
             && !Owns(n, LegacyRaw(worlds[a].server, n))
             && forall k :: a <= k <= e ==> !Saves(worlds[k], actions[k], n)
    ensures var s, n := worlds[e + 1].server, subject.Normalize();
            n in s.v2 ==> s.v2[n].raw == Raw(n, map[])
  {
    hide LoginSubject.Normalize, LoginSubject.IsZero, LegacyName, Saves, Next, Inv;
    var n := subject.Normalize();
    LegacyShrinks(worlds, actions, a, b + 1);
    OwnDataIsOld(worlds, actions, a, b, n);
    OwnKeyIsCleared(worlds, actions, c, subject, a, b);
    OwnDataIsOld(worlds, actions, b + 1, e + 1, n);
  }

  /** From the world some continuation lets a deletion that begins there, with no save for its subject beside it, run
      to its end while the session it found stays, unchanged, all the time. */
  ghost predicate DeletionCanMiss(w: World, subject: LoginSubject) {
    exists worlds: seq<World>, actions: seq<Action>, c: nat, b: nat, d: nat ::
      && |worlds| == |actions| + 1 && Steps(worlds, actions) && worlds[0] == w
      && LeavesSession(worlds, actions, c, subject, b, d)
  }

  ghost predicate LeavesSession(worlds: seq<World>, actions: seq<Action>, c: nat, subject: LoginSubject, b: nat, d: nat)
    requires |worlds| == |actions| + 1
  {
    var n := subject.Normalize();
    && actions != [] && Deletes(worlds, actions, c, subject, 0, b, d, |actions| - 1)
    && (forall k :: 0 <= k < |actions| ==> !Saves(worlds[k], actions[k], n))
    && SeenThroughout(worlds, n)
  }

  /** The condition a caller could check before the call: a deletion can leave the session it found exactly when that
      still lies under the shared key. */
  lemma DeletionCanMissIff(worlds: seq<World>, actions: seq<Action>, m: nat, subject: LoginSubject)
    requires Execution(worlds, actions) && m < |worlds|
    ensures var w, n := worlds[m], subject.Normalize();
            DeletionCanMiss(w, subject) <==> Owns(n, LegacyRaw(w.server, n)) && !n.IsZero()
  {
    hide LegacyName, LoginSubject.Normalize, LoginSubject.IsZero, Steps, Inv;
    var w, n := worlds[m], subject.Normalize();
    ExecutionKeepsInv(worlds, actions, m);
    if ws: seq<World>, acts: seq<Action>, c: nat, b: nat, d: nat :|
      && |ws| == |acts| + 1 && Steps(ws, acts) && ws[0] == w && LeavesSession(ws, acts, c, subject, b, d)
    {
      SessionWasLeft(ws, acts, c, subject, b, d);
    }
    if Owns(n, LegacyRaw(w.server, n)) && !n.IsZero() {
      MigrationMisses(w, subject);
    }
  }

  lemma SessionWasLeft(worlds: seq<World>, actions: seq<Action>, c: nat, subject: LoginSubject, b: nat, d: nat)
    requires |worlds| == |actions| + 1 && Steps(worlds, actions) && Inv(worlds[0])
    requires LeavesSession(worlds, actions, c, subject, b, d)
    ensures var n := subject.Normalize(); Owns(n, LegacyRaw(worlds[0].server, n)) && !n.IsZero()
  {
    hide LegacyName, LoginSubject.Normalize, LoginSubject.IsZero, Steps, Saves;
    var n, e := subject.Normalize(), |actions| - 1;
    SharedKeyIsCleared(worlds, actions, c, subject, d, e);
    StepsKeepInv(worlds, actions, e + 1);
    assert Observed(worlds[e + 1].server, n).Some? && Observed(worlds[b].server, n) == Observed(worlds[0].server, n);
    if !Owns(n, LegacyRaw(worlds[0].server, n)) {
      LegacyShrinks(worlds, actions, 0, b + 1);
      assert Observed(worlds[b + 1].server, n).Some?;
      OwnKeyIsCleared(worlds, actions, c, subject, 0, b);
    }
  }

  lemma MigrationMisses(w: World, subject: LoginSubject)
    requires Inv(w)
    requires var n := subject.Normalize(); Owns(n, LegacyRaw(w.server, n)) && !n.IsZero()
    ensures DeletionCanMiss(w, subject)
  {
    hide LegacyName, LoginSubject.Normalize, LoginSubject.IsZero;
    var c := FreshClient(w.pending.Keys);
    var actions := [BeginDelete(c, subject), BeginEnsure(c + 1, subject, 0), Run(c + 1), BeginDeleteLegacy(c, subject)];
    assert Next(w, actions[0]) == w;
    var ws, acts := Migration(w, c + 1, subject);
    var worlds := [w, w, ws[1], ws[2], ws[2]];
    assert Next(ws[2], actions[3]) == ws[2];
    assert Enabled(ws[0], acts[0]) && ws[1] == Next(ws[0], acts[0]);
    assert Enabled(ws[1], acts[1]) && ws[2] == Next(ws[1], acts[1]);
    assert Steps(worlds, actions);
    assert LeavesSession(worlds, actions, c, subject, 0, 3);
  }

  /** What an upgrade meets: data of the older layout can be missed by a read and left by a deletion. */
  lemma OldDataCanBeMissed(subject: LoginSubject, data: map<string, string>)
    requires subject.Normalize() == subject && !subject.IsZero()
    ensures var w := World(Server(map[], map[LegacyName(subject) := Cell(Raw(subject, data), None)]), 0, map[]);
            ReadCanMiss(w, subject) && DeletionCanMiss(w, subject)
  {
    hide LegacyName, LoginSubject.Normalize, LoginSubject.IsZero, ReadCanMiss, DeletionCanMiss;
    var w := World(Server(map[], map[LegacyName(subject) := Cell(Raw(subject, data), None)]), 0, map[]);
    assert Execution([w], []);
    ReadCanMissIff([w], [], 0, subject);
    DeletionCanMissIff([w], [], 0, subject);
  }

  /** The calls as made, one at a time. */
  class Store {
    var server: Server

    /** Saving and ensuring: read, compare and write. With nothing running beside the call the shared key has not
        changed in between, and the first attempt goes through. */
    method WriteSession(subject: LoginSubject, data: map<string, string>, ttl: int, ensure: bool, now: int)
      returns (ok: bool)
      requires Migrated(server) && (ensure ==> data == map[])
      modifies this
      ensures Migrated(server) && (ok <==> !subject.Normalize().IsZero())
      ensures !ok ==> server == old(server)
      ensures ok ==>
                var n := subject.Normalize();
                && n in server.v2 && server.v2[n].deadline == Deadline(now, ttl)
                && Observed(server, n) ==
                     (if ensure && Observed(old(server), n).Some? then Observed(old(server), n) else Some(Raw(n, data)))
                && forall other :: other != n ==> Observed(server, other) == Observed(old(server), other)
    {
      hide LoginSubject.Normalize, LoginSubject.IsZero, LegacyName, Observed, Migrated, RunScript;
      NormalizeTwice(subject);
      var n := subject.Normalize();
      if n.IsZero() {
        return false;
      }
      var call := AfterRead(server, n, data, ttl, ensure);
      ScriptKeepsMigrated(server, call, now);
      WriteStep(server, call, now);
      forall other | other != n ensures Observed(RunScript(server, call, now), other) == Observed(server, other) {
        ScriptIsSeparate(server, call, other, now);
      }
      server := RunScript(server, call, now);
      return true;
    }

    /** The answer is the one value under the subject's keys that is its own, in whatever order they are read. */
    method GetSession(subject: LoginSubject) returns (session: Option<Raw>)
      ensures Migrated(server) ==> forall raw :: session == Some(raw) <==> Holds(server, subject.Normalize(), raw)
      ensures session == Observed(server, subject.Normalize())
    {
      hide LoginSubject.Normalize, LoginSubject.IsZero, LegacyName;
      var n := subject.Normalize();
      if n in server.v2 && server.v2[n].raw.subject.Normalize() == n {
        return Some(server.v2[n].raw);
      }
      if LegacyName(n) in server.legacy && server.legacy[LegacyName(n)].raw.subject.Normalize() == n {
        return Some(server.legacy[LegacyName(n)].raw);
      }
      return None;
    }

    /** The subject is left without a session, and nobody else is touched. */
    method DeleteSession(subject: LoginSubject)
      requires Migrated(server)
      modifies this
      ensures Migrated(server) && Observed(server, subject.Normalize()) == None
      ensures forall other :: other != subject.Normalize() ==> Observed(server, other) == Observed(old(server), other)
    {
      hide LoginSubject.Normalize, LegacyName;
      var n := subject.Normalize();
      if n in server.v2 && Owns(n, Some(server.v2[n].raw)) {
        server := DeleteScript(server, n, server.v2[n].raw);
      }
      if Owns(n, LegacyRaw(server, n)) {
        var call := DeletingLegacy(n, LegacyRaw(server, n).value);
        forall other | other != n ensures Observed(RunScript(server, call, 0), other) == Observed(server, other) {
          ScriptIsSeparate(server, call, other, 0);
        }
        server := RunScript(server, call, 0);
      }
    }
  }
}
