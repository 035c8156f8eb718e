/** The check that encoding a session does not run in circles: a depth-first search over the values
    an encoder would visit, where every nested session is looked at through a fresh copy of its data. */
module SessionCycles {

  /** What a cycle can pass through: sessions, maps and slices, and other pointers. */
  datatype Ref = Session(id: nat) | Container(id: nat) | Pointer(id: nat)

  /** A value as the check sees it. Leaf is a nil, a scalar, or a type that encodes itself;
      a structure lists the fields the encoder would visit. */
  datatype Value =
    | Leaf
    | Interface(inner: Value)
    | Array(items: seq<Value>)
    | Structure(fields: seq<Value>)
    | To(ref: Ref)

  /** What each reference holds: a session its data map, a pointer its target, a container its elements. */
  type Graph = map<Ref, seq<Value>>

  predicate InGraph(g: Graph, v: Value) {
    match v
    case Leaf => true
    case Interface(inner) => InGraph(g, inner)
    case Array(items) => forall i :: 0 <= i < |items| ==> InGraph(g, items[i])
    case Structure(fields) => forall i :: 0 <= i < |fields| ==> InGraph(g, fields[i])
    case To(ref) => ref in g
  }

  predicate WellFormed(g: Graph) {
    forall r :: r in g ==> (r.Session? ==> |g[r]| == 1) && forall i :: 0 <= i < |g[r]| ==> InGraph(g, g[r][i])
  }

  // ----- cycles of the source graph

  predicate Mentions(v: Value, r: Ref) {
    match v
    case Leaf => false
    case Interface(inner) => Mentions(inner, r)
    case Array(items) => exists i :: 0 <= i < |items| && Mentions(items[i], r)
    case Structure(fields) => exists i :: 0 <= i < |fields| && Mentions(fields[i], r)
    case To(ref) => ref == r
  }

  predicate Edge(g: Graph, a: Ref, b: Ref) {
    a in g && exists i :: 0 <= i < |g[a]| && Mentions(g[a][i], b)
  }

  predicate Walk(g: Graph, refs: seq<Ref>) {
    forall i :: 0 <= i < |refs| - 1 ==> Edge(g, refs[i], refs[i + 1])
  }

  ghost predicate Repeats(refs: seq<Ref>) {
    exists i, j :: 0 <= i < j < |refs| && refs[i] == refs[j]
  }

  /** A walk along visible edges from the reference comes back to where it has been. */
  ghost predicate ReachesCycle(g: Graph, from: Ref) {
    exists refs :: Walk(g, refs) && refs != [] && refs[0] == from && Repeats(refs)
  }

  // ----- the search, as a function of what is on its path

  /** What the search compares the next reference with: everything of the original heap that is on the
      path, and, inside a copy of a session's data, the containers of that copy that are. */
  datatype View = View(copied: bool, base: set<Ref>, local: set<Ref>) {
    predicate OnPath(r: Ref) {
      if r.Container? && copied then r in local else r in base
    }

    /** Sessions are copied afresh each time; the copy stops at pointers, whose target is the original. */
    function Enter(r: Ref): View {
      match r
      case Session(_) => View(true, base + {r}, {})
      case Pointer(_) => View(false, base + {r}, {})
      case Container(_) => if copied then View(true, base, local + {r}) else View(false, base + {r}, {})
    }

    /** Structures are not copied either. */
    function Original(): View {
      View(false, base, {})
    }
  }

  /** The search meets a reference that is on its path within n nested references. */
  ghost predicate Hits(g: Graph, v: Value, view: View, n: nat)
    decreases n, v
  {
    match v
    case Leaf => false
    case Interface(inner) => Hits(g, inner, view, n)
    case Array(items) => HitsAny(g, items, view, n)
    case Structure(fields) => HitsAny(g, fields, view.Original(), n)
    case To(r) => view.OnPath(r) || (n > 0 && r in g && HitsAny(g, g[r], view.Enter(r), n - 1))
  }

  ghost predicate HitsAny(g: Graph, items: seq<Value>, view: View, n: nat)
    decreases n, items
  {
    exists i :: 0 <= i < |items| && Hits(g, items[i], view, n)
  }

  ghost predicate Found(g: Graph, v: Value, view: View) {
    exists n: nat :: Hits(g, v, view, n)
  }

  // ----- termination: what is still off the path

  function Sessions(g: Graph): set<Ref> {
    set r | r in g && r.Session?
  }

  function SessionsLeft(g: Graph, view: View): nat {
    |Sessions(g) - view.base|
  }

  function Room(g: Graph, view: View): nat {
    |g.Keys - view.base| + if view.copied then |g.Keys - view.local| else 0
  }

  lemma {:induction false} SmallerSet(a: set<Ref>, b: set<Ref>)
    requires a <= b
    ensures |a| <= |b| && (a != b ==> |a| < |b|)
    decreases a
  {
    if a != {} {
      var x :| x in a;
      SmallerSet(a - {x}, b - {x});
    }
  }

  /** Going through a reference that is off the path leaves less room, counting sessions first. */
  lemma EnterLeavesLess(g: Graph, view: View, r: Ref)
    requires r in g && !view.OnPath(r)
    ensures SessionsLeft(g, view.Enter(r)) <= SessionsLeft(g, view)
    ensures r.Session? ==> SessionsLeft(g, view.Enter(r)) < SessionsLeft(g, view)
    ensures !r.Session? ==> Room(g, view.Enter(r)) < Room(g, view)
  {
    var next := view.Enter(r);
    SmallerSet(Sessions(g) - next.base, Sessions(g) - view.base);
    SmallerSet(g.Keys - next.base, g.Keys - view.base);
    if r.Session? {
      assert r in Sessions(g) - view.base && r !in Sessions(g) - next.base;
    } else if r.Container? && view.copied {
      assert r in g.Keys - view.local && r !in g.Keys - next.local;
      SmallerSet(g.Keys - next.local, g.Keys - view.local);
    } else {
      assert r in g.Keys - view.base && r !in g.Keys - next.base;
    }
  }

  // ----- the check itself

  /** An entry of the path: the container of a numbered copy, or (copy 0) an original. */
  datatype Key = Key(copy: nat, ref: Ref)

  function Refs(path: set<Key>, copy: nat): set<Ref> {
    set k | k in path && k.copy == copy :: k.ref
  }

  function ViewOf(path: set<Key>, copy: nat): View {
    View(copy != 0, Refs(path, 0), if copy == 0 then {} else Refs(path, copy))
  }

  function KeyOf(r: Ref, copy: nat): Key {
    Key(if r.Container? then copy else 0, r)
  }

  lemma PathShowsView(path: set<Key>, copy: nat, r: Ref)
    ensures KeyOf(r, copy) in path <==> ViewOf(path, copy).OnPath(r)
  {
    var key := KeyOf(r, copy);
    assert key in path <==> r in Refs(path, key.copy);
  }

  lemma PushShowsEnter(path: set<Key>, copy: nat, fresh': nat, r: Ref)
    requires forall k :: k in path ==> k.copy < fresh'
    ensures r.Session? ==> fresh' > 0 ==> ViewOf(path + {KeyOf(r, copy)}, fresh') == ViewOf(path, copy).Enter(r)
    ensures !r.Session? ==> ViewOf(path + {KeyOf(r, copy)}, KeyOf(r, copy).copy) == ViewOf(path, copy).Enter(r)
  {
    var key := KeyOf(r, copy);
    assert Refs(path + {key}, key.copy) == Refs(path, key.copy) + {r};
    assert key.copy != 0 ==> Refs(path + {key}, 0) == Refs(path, 0);
    assert r.Session? && fresh' > 0 ==> Refs(path + {key}, fresh') == {};
  }

  class Checker {
    const g: Graph
    var path: set<Key>
    var copies: nat

    constructor (g: Graph)
      ensures this.g == g && path == {} && copies == 0
    {
      this.g, path, copies := g, {}, 0;
    }

    ghost predicate Valid()
      reads this
    {
      WellFormed(g) && forall k :: k in path ==> k.copy <= copies
    }

    /** Reports an error exactly when the search meets its own path, and leaves the path as it found it. */
    method Check(value: Value, copy: nat) returns (cycle: bool)
      requires Valid() && InGraph(g, value) && copy <= copies
      modifies `path, `copies
      ensures Valid() && path == old(path) && old(copies) <= copies
      ensures cycle <==> Found(g, value, ViewOf(path, copy))
      decreases SessionsLeft(g, ViewOf(path, copy)), Room(g, ViewOf(path, copy)), value, 1
    {
      hide Hits, HitsAny, Found, ViewOf, SessionsLeft, Room;
      var view := ViewOf(path, copy);
      var v := value;
      while v.Interface?
        invariant Valid() && path == old(path) && copies == old(copies)
        invariant (value nonincreases to v) && InGraph(g, v)
        invariant Found(g, v, view) <==> Found(g, value, view)
        decreases v
      {
        FoundAmong(g, v, view);
        v := v.inner;
      }
      FoundAmong(g, v, view);
      match v
      case Leaf =>
        cycle := false;
      case Array(items) =>
        cycle := CheckItems(items, copy, v);
      case Structure(fields) =>
        OriginalView(g, path, copy);
        cycle := CheckItems(fields, 0, v);
      case To(r) =>
        cycle := CheckRef(r, copy);
    }

    /** The elements of a map come in any order. */
    method CheckItems(items: seq<Value>, copy: nat, ghost whole: Value) returns (cycle: bool)
      requires Valid() && copy <= copies
      requires forall i :: 0 <= i < |items| ==> InGraph(g, items[i]) && (whole decreases to items[i])
      modifies `path, `copies
      ensures Valid() && path == old(path) && old(copies) <= copies
      ensures cycle <==> exists n: nat :: HitsAny(g, items, ViewOf(path, copy), n)
      decreases SessionsLeft(g, ViewOf(path, copy)), Room(g, ViewOf(path, copy)), whole, 0
    {
      ghost var view := ViewOf(path, copy);
      hide Hits, ViewOf, SessionsLeft, Room, InGraph, WellFormed;
      var todo := multiset(items);
      while todo != multiset{}
        invariant Valid() && path == old(path) && old(copies) <= copies
        invariant forall x :: x in todo ==> x in items
        invariant forall x :: x in items && x !in todo ==> !Found(g, x, view)
        decreases |todo|
      {
        var x :| x in todo;
        cycle := Check(x, copy);
        if cycle {
          FoundInItems(g, items, x, view);
          return;
        }
        todo := todo - multiset{x};
      }
      NothingInItems(g, items, view);
      cycle := false;
    }

    method CheckRef(r: Ref, copy: nat) returns (cycle: bool)
      requires Valid() && r in g && copy <= copies
      modifies `path, `copies
      ensures Valid() && path == old(path) && old(copies) <= copies
      ensures cycle <==> Found(g, To(r), ViewOf(path, copy))
      decreases SessionsLeft(g, ViewOf(path, copy)), Room(g, ViewOf(path, copy)), To(r), 0
    {
      hide ViewOf, Hits, HitsAny, WellFormed, SessionsLeft, Room, View.OnPath, View.Enter;
      ghost var view := ViewOf(path, copy);
      var key := KeyOf(r, copy);
      ghost var was := path;
      PathShowsView(path, copy, r);
      if key in path {
        FoundOnPath(g, r, view);
        return true;
      }
      EnterLeavesLess(g, view, r);
      PushShowsEnter(path, copy, copies + 1, r);
      HeldInGraph(g, r);
      path := path + {key};
      if r.Session? {
        copies := copies + 1;
        cycle := CheckItems(g[r], copies, Array(g[r]));
      } else {
        cycle := CheckItems(g[r], key.copy, Array(g[r]));
      }
      FoundThrough(g, r, view);
      path := path - {key};
      assert path == was;
    }

    /** MarshalJSON's check: the session's own key seeds the path, and its data is looked at as a copy. */
    method CheckSession(s: Ref) returns (cycle: bool)
      requires Valid() && path == {} && s.Session? && s in g
      modifies `path, `copies
      ensures cycle <==> ReachesCycle(g, s)
    {
      assert Refs(path, 0) == {};
      cycle := CheckRef(s, 0);
      FoundIffCycle(g, s);
    }
  }

  lemma OriginalView(g: Graph, path: set<Key>, copy: nat)
    ensures ViewOf(path, 0) == ViewOf(path, copy).Original()
    ensures SessionsLeft(g, ViewOf(path, 0)) == SessionsLeft(g, ViewOf(path, copy))
    ensures Room(g, ViewOf(path, 0)) <= Room(g, ViewOf(path, copy))
  {
  }

  lemma FoundInItems(g: Graph, items: seq<Value>, x: Value, view: View)
    requires x in items && Found(g, x, view)
    ensures exists n: nat :: HitsAny(g, items, view, n)
  {
    var n: nat :| Hits(g, x, view, n);
    assert HitsAny(g, items, view, n);
  }

  lemma NothingInItems(g: Graph, items: seq<Value>, view: View)
    requires forall x :: x in items ==> !Found(g, x, view)
    ensures !exists n: nat :: HitsAny(g, items, view, n)
  {
    if n: nat :| HitsAny(g, items, view, n) {
      var i :| 0 <= i < |items| && Hits(g, items[i], view, n);
      assert Found(g, items[i], view);
    }
  }

  lemma HeldInGraph(g: Graph, r: Ref)
    requires WellFormed(g) && r in g
    ensures forall i :: 0 <= i < |g[r]| ==> InGraph(g, g[r][i]) && (Array(g[r]) decreases to g[r][i])
  {
  }

  lemma FoundOnPath(g: Graph, r: Ref, view: View)
    requires view.OnPath(r)
    ensures Found(g, To(r), view)
  {
    assert Hits(g, To(r), view, 0);
  }

  lemma FoundAmong(g: Graph, v: Value, view: View)
    ensures v.Leaf? ==> !Found(g, v, view)
    ensures v.Interface? ==> (Found(g, v, view) <==> Found(g, v.inner, view))
    ensures v.Array? ==> (Found(g, v, view) <==> exists n: nat :: HitsAny(g, v.items, view, n))
    ensures v.Structure? ==> (Found(g, v, view) <==> exists n: nat :: HitsAny(g, v.fields, view.Original(), n))
  {
    if n: nat :| v.Interface? && Hits(g, v.inner, view, n) {
      assert Hits(g, v, view, n);
    }
    if n: nat :| Hits(g, v, view, n) {
      assert v.Interface? ==> Hits(g, v.inner, view, n);
      assert v.Array? ==> HitsAny(g, v.items, view, n);
      assert v.Structure? ==> HitsAny(g, v.fields, view.Original(), n);
    }
    if n: nat :| v.Array? && HitsAny(g, v.items, view, n) {
      assert Hits(g, v, view, n);
    }
    if n: nat :| v.Structure? && HitsAny(g, v.fields, view.Original(), n) {
      assert Hits(g, v, view, n);
    }
  }

  lemma FoundThrough(g: Graph, r: Ref, view: View)
    requires r in g && !view.OnPath(r)
    ensures Found(g, To(r), view) <==> exists n: nat :: HitsAny(g, g[r], view.Enter(r), n)
  {
    if n: nat :| Hits(g, To(r), view, n) {
      assert HitsAny(g, g[r], view.Enter(r), n - 1);
    }
    if n: nat :| HitsAny(g, g[r], view.Enter(r), n) {
      assert Hits(g, To(r), view, n + 1);
    }
  }

  // ----- exactness

  /** The walk so far ends at a reference holding v, and covers all that v will be compared with. */
  ghost predicate Covers(g: Graph, refs: seq<Ref>, v: Value, view: View) {
    && Walk(g, refs)
    && (forall r :: Mentions(v, r) ==> refs != [] && Edge(g, refs[|refs| - 1], r))
    && (forall r :: r in view.base || (view.copied && r in view.local) ==> r in refs)
  }

  /** Whatever the search reports is a cycle of the source, not an artefact of copying. */
  lemma {:induction false} HitIsCycle(g: Graph, refs: seq<Ref>, v: Value, view: View, n: nat)
    returns (cycle: seq<Ref>)
    requires WellFormed(g) && InGraph(g, v) && Covers(g, refs, v, view) && refs != [] && Hits(g, v, view, n)
    ensures Walk(g, cycle) && cycle != [] && cycle[0] == refs[0] && Repeats(cycle)
    decreases n, v
  {
    match v
    case Interface(inner) =>
      forall r | Mentions(inner, r) ensures Mentions(v, r) {}
      cycle := HitIsCycle(g, refs, inner, view, n);
    case Array(items) =>
      var i :| 0 <= i < |items| && Hits(g, items[i], view, n);
      forall r | Mentions(items[i], r) ensures Mentions(v, r) {}
      cycle := HitIsCycle(g, refs, items[i], view, n);
    case Structure(fields) =>
      var i :| 0 <= i < |fields| && Hits(g, fields[i], view.Original(), n);
      forall r | Mentions(fields[i], r) ensures Mentions(v, r) {}
      cycle := HitIsCycle(g, refs, fields[i], view.Original(), n);
    case To(r) =>
      assert Mentions(v, r);
      cycle := refs + [r];
      if view.OnPath(r) {
        var i :| 0 <= i < |refs| && refs[i] == r;
        assert cycle[i] == cycle[|refs|];
      } else {
        var next := view.Enter(r);
        var i :| 0 <= i < |g[r]| && Hits(g, g[r][i], next, n - 1);
        forall s | Mentions(g[r][i], s) ensures Edge(g, cycle[|cycle| - 1], s) {}
        cycle := HitIsCycle(g, cycle, g[r][i], next, n - 1);
      }
  }

  function Times(a: nat, k: nat): nat {
    if a == 0 then 0 else k + Times(a - 1, k)
  }

  lemma {:induction false} TimesGrows(a: nat, b: nat, k: nat)
    requires a <= b
    ensures Times(a, k) <= Times(b, k) && (a < b ==> Times(a, k) + k <= Times(b, k))
    decreases b
  {
    if a < b {
      TimesGrows(a, b - 1, k);
    }
  }

  /** Both counts of the lexicographic order in one number. */
  function Measure(g: Graph, view: View): nat {
    Times(SessionsLeft(g, view), 2 * |g.Keys| + 1) + Room(g, view)
  }

  lemma EnterMeasure(g: Graph, view: View, r: Ref)
    requires r in g && !view.OnPath(r)
    ensures Measure(g, view.Enter(r)) < Measure(g, view)
  {
    EnterLeavesLess(g, view, r);
    var next := view.Enter(r);
    TimesGrows(SessionsLeft(g, next), SessionsLeft(g, view), 2 * |g.Keys| + 1);
    SmallerSet(g.Keys - next.base, g.Keys);
    SmallerSet(g.Keys - next.local, g.Keys);
  }

  lemma OriginalMeasure(g: Graph, view: View)
    ensures Measure(g, view.Original()) <= Measure(g, view)
  {
  }

  lemma NextOnWalk(g: Graph, refs: seq<Ref>) returns (i: nat)
    requires WellFormed(g) && Walk(g, refs) && |refs| > 1
    ensures refs[0] in g && i < |g[refs[0]]| && InGraph(g, g[refs[0]][i]) && Mentions(g[refs[0]][i], refs[1])
    ensures Walk(g, refs[1..])
  {
    assert Edge(g, refs[0], refs[1]);
    i :| 0 <= i < |g[refs[0]]| && Mentions(g[refs[0]][i], refs[1]);
    forall k | 0 <= k < |refs[1..]| - 1 ensures Edge(g, refs[1..][k], refs[1..][k + 1]) {
      assert Edge(g, refs[k + 1], refs[k + 2]);
    }
  }

  /** A walk longer than all that can be off the path runs into the path. */
  lemma {:induction false} LongWalkHits(g: Graph, v: Value, view: View, refs: seq<Ref>)
    requires WellFormed(g) && InGraph(g, v) && Walk(g, refs)
    requires |refs| > Measure(g, view) && Mentions(v, refs[0])
    ensures Hits(g, v, view, |refs|)
    decreases |refs|, v
  {
    hide Measure, Walk, WellFormed, View.OnPath, View.Enter;
    match v
    case Interface(inner) => LongWalkHits(g, inner, view, refs);
    case Array(items) =>
      var i :| 0 <= i < |items| && Mentions(items[i], refs[0]);
      LongWalkHits(g, items[i], view, refs);
    case Structure(fields) =>
      var i :| 0 <= i < |fields| && Mentions(fields[i], refs[0]);
      OriginalMeasure(g, view);
      LongWalkHits(g, fields[i], view.Original(), refs);
    case To(r) =>
      if !view.OnPath(r) {
        EnterMeasure(g, view, r);
        var i := NextOnWalk(g, refs);
        LongWalkHits(g, g[r][i], view.Enter(r), refs[1..]);
        assert |refs[1..]| == |refs| - 1;
        assert HitsAny(g, g[r], view.Enter(r), |refs| - 1);
      }
  }

  /** Around the cycle as often as needed. */
  lemma {:induction false} Pump(g: Graph, refs: seq<Ref>, i: nat, j: nat, n: nat) returns (long: seq<Ref>)
    requires Walk(g, refs) && i < j < |refs| && refs[i] == refs[j]
    ensures Walk(g, long) && |long| > n && long[0] == refs[0]
    decreases n - |refs|
  {
    if |refs| > n {
      return refs;
    }
    var round := refs[..j] + refs[i..];
    forall k | 0 <= k < |round| - 1 ensures Edge(g, round[k], round[k + 1]) {
      if k < j {
        assert Edge(g, refs[k], refs[k + 1]);
      } else {
        assert Edge(g, refs[k - j + i], refs[k - j + i + 1]);
      }
    }
    long := Pump(g, round, i, j, n);
  }

  /** The search is exact: it finds something from a reference if and only if a cycle can be reached there. */
  lemma FoundIffCycle(g: Graph, r: Ref)
    requires WellFormed(g) && r in g
    ensures Found(g, To(r), View(false, {}, {})) <==> ReachesCycle(g, r)
  {
    var start := View(false, {}, {});
    if n: nat :| Hits(g, To(r), start, n) {
      assert HitsAny(g, g[r], start.Enter(r), n - 1);
      var i :| 0 <= i < |g[r]| && Hits(g, g[r][i], start.Enter(r), n - 1);
      forall s | Mentions(g[r][i], s) ensures Edge(g, [r][0], s) {}
      var cycle := HitIsCycle(g, [r], g[r][i], start.Enter(r), n - 1);
    }
    if ReachesCycle(g, r) {
      var refs :| Walk(g, refs) && refs != [] && refs[0] == r && Repeats(refs);
      var i, j :| 0 <= i < j < |refs| && refs[i] == refs[j];
      var long := Pump(g, refs, i, j, Measure(g, start));
      LongWalkHits(g, To(r), start, long);
    }
  }
}
