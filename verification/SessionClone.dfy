/** Session.Clone: the memoised deep copy of session data, whose containers may share and contain
    each other. Maps and slices are heap objects; a copy of each is made once and filled in place. */
module SessionClone {
  import opened Tokens

  /** A Go map; its identity is the object. */
  class MapNode {
    var entries: map<string, Value>

    constructor ()
      ensures entries == map[]
    {
      entries := map[];
    }
  }

  /** A Go value as reflection sees it. Types are numbered; a slice is a window on its backing array.
      Leaf stands for everything that is copied as it is: scalars, strings, pointers, structs. */
  datatype Value =
    | Leaf(content: int)
    | Nil(typ: nat)
    | Interface(inner: Value)
    | MapRef(typ: nat, node: MapNode)
    | SliceRef(typ: nat, backing: array<Value>, start: nat, length: nat)
    | ArrayOf(items: seq<Value>)

  /** The identity by which a container is remembered: type, pointer, and for slices the length. */
  datatype Key = MapKey(typ: nat, node: MapNode) | SliceKey(typ: nat, backing: array<Value>, start: nat, length: nat)

  type Memo = map<Key, Value>

  // ----- the source graph

  function Source(k: Key): object {
    if k.MapKey? then k.node else k.backing
  }

  ghost function Sources(nodes: set<Key>): set<object> {
    set k | k in nodes :: Source(k)
  }

  /** The object a reference leads to. */
  function Target(v: Value): set<object> {
    match v
    case MapRef(_, node) => {node}
    case SliceRef(_, backing, _, _) => {backing}
    case _ => {}
  }

  /** Every container mentioned by the value is among the nodes. */
  ghost predicate Within(v: Value, nodes: set<Key>) {
    match v
    case Interface(inner) => Within(inner, nodes)
    case ArrayOf(items) => forall i :: 0 <= i < |items| ==> Within(items[i], nodes)
    case MapRef(typ, node) => MapKey(typ, node) in nodes
    case SliceRef(typ, backing, start, length) => SliceKey(typ, backing, start, length) in nodes
    case _ => true
  }

  ghost predicate ContentsWithin(k: Key, nodes: set<Key>)
    reads Source(k)
  {
    match k
    case MapKey(_, node) => forall x :: x in node.entries ==> Within(node.entries[x], nodes)
    case SliceKey(_, backing, start, length) =>
      start + length <= backing.Length && forall i :: start <= i < start + length ==> Within(backing[i], nodes)
  }

  /** The contents of every node stay among the nodes: a finite container graph. */
  ghost predicate Closed(nodes: set<Key>)
    reads Sources(nodes)
  {
    forall k :: k in nodes ==> ContentsWithin(k, nodes)
  }

  // ----- copies

  /** w is the copy of v, with every reference sent to the one copy the memo has for it. */
  ghost predicate Copies(v: Value, w: Value, memo: Memo) {
    match v
    case Interface(inner) => w.Interface? && Copies(inner, w.inner, memo)
    case ArrayOf(items) =>
      w.ArrayOf? && |w.items| == |items| && forall i :: 0 <= i < |items| ==> Copies(items[i], w.items[i], memo)
    case MapRef(typ, node) => MapKey(typ, node) in memo && w == memo[MapKey(typ, node)]
    case SliceRef(typ, backing, start, length) =>
      SliceKey(typ, backing, start, length) in memo && w == memo[SliceKey(typ, backing, start, length)]
    case _ => w == v
  }

  ghost predicate Extends(memo: Memo, memo': Memo) {
    forall k :: k in memo ==> k in memo' && memo'[k] == memo[k]
  }

  /** A copy has the type and length of its source; a copied slice is the whole of its own array. */
  predicate Shaped(k: Key, w: Value) {
    match k
    case MapKey(typ, _) => w.MapRef? && w.typ == typ
    case SliceKey(typ, _, _, length) =>
      w.SliceRef? && w.typ == typ && w.start == 0 && w.length == length == w.backing.Length
  }

  /** Copies are objects not taken before, so they share none with the source, and none with each other. */
  ghost predicate MemoOk(memo: Memo, nodes: set<Key>, taken: iset<object>) {
    && memo.Keys <= nodes
    && (forall k :: k in nodes ==> Source(k) in taken)
    && (forall k, o :: k in memo && o in Target(memo[k]) ==> o !in taken)
    && (forall k :: k in memo ==> Shaped(k, memo[k]))
    && (forall j, k :: j in memo && k in memo && j != k ==> Target(memo[j]) !! Target(memo[k]))
  }

  /** The copy w of k has been filled: same keys or indices, and a copy at each. */
  ghost predicate Filled(k: Key, w: Value, memo: Memo)
    reads Source(k), Target(w)
  {
    match k
    case MapKey(_, node) =>
      && w.MapRef? && w.node.entries.Keys == node.entries.Keys
      && forall x :: x in node.entries ==> Copies(node.entries[x], w.node.entries[x], memo)
    case SliceKey(_, backing, start, length) =>
      && w.SliceRef? && start + length <= backing.Length && w.backing.Length == length
      && forall i :: 0 <= i < length ==> Copies(backing[start + i], w.backing[i], memo)
  }

  /** Every remembered copy is complete, but for the open ones, which callers are still filling. */
  ghost predicate Complete(memo: Memo, open: set<Key>)
    reads Sources(memo.Keys), set k, o | k in memo && o in Target(memo[k]) :: o
  {
    forall k :: k in memo && k !in open ==> Filled(k, memo[k], memo)
  }

  lemma {:induction false} CopiesExtend(v: Value, w: Value, memo: Memo, memo': Memo)
    requires Copies(v, w, memo) && Extends(memo, memo')
    ensures Copies(v, w, memo')
    decreases v
  {
    match v
    case Interface(inner) => CopiesExtend(inner, w.inner, memo, memo');
    case ArrayOf(items) =>
      forall i | 0 <= i < |items| ensures Copies(items[i], w.items[i], memo') {
        CopiesExtend(items[i], w.items[i], memo, memo');
      }
    case _ =>
  }

  lemma FilledExtend(k: Key, w: Value, memo: Memo, memo': Memo)
    requires Filled(k, w, memo) && Extends(memo, memo')
    ensures Filled(k, w, memo')
  {
    match k
    case MapKey(_, node) =>
      forall x | x in node.entries ensures Copies(node.entries[x], w.node.entries[x], memo') {
        CopiesExtend(node.entries[x], w.node.entries[x], memo, memo');
      }
    case SliceKey(_, backing, start, length) =>
      forall i | 0 <= i < length ensures Copies(backing[start + i], w.backing[i], memo') {
        CopiesExtend(backing[start + i], w.backing[i], memo, memo');
      }
  }

  lemma Closing(memo: Memo, open: set<Key>, key: Key)
    requires Complete(memo, open + {key}) && key in memo && Filled(key, memo[key], memo)
    ensures Complete(memo, open)
  {
  }

  lemma ExtendsTwice(a: Memo, b: Memo, c: Memo)
    requires Extends(a, b) && Extends(b, c)
    ensures Extends(a, c)
  {
  }

  lemma RefCopies(k: Key, before: Memo, memo: Memo)
    requires k in before && Extends(before, memo)
    ensures k in memo && memo[k] == before[k]
    ensures k.MapKey? ==> Copies(MapRef(k.typ, k.node), memo[k], memo)
    ensures k.SliceKey? ==> Copies(SliceRef(k.typ, k.backing, k.start, k.length), memo[k], memo)
  {
  }

  /** An object that is neither taken nor a copy yet. */
  ghost predicate Unused(w: Value, memo: Memo, taken: iset<object>) {
    (forall o :: o in Target(w) ==> o !in taken) && (forall k :: k in memo ==> Target(memo[k]) !! Target(w))
  }

  /** Remembering a new object for a node met for the first time. */
  lemma Opening(memo: Memo, open: set<Key>, nodes: set<Key>, taken: iset<object>, key: Key, w: Value)
    requires MemoOk(memo, nodes, taken) && Complete(memo, open) && key in nodes && key !in memo && Shaped(key, w)
    requires Unused(w, memo, taken)
    ensures MemoOk(memo[key := w], nodes, taken) && Extends(memo, memo[key := w])
    ensures Complete(memo[key := w], open + {key})
  {
    var memo' := memo[key := w];
    forall k | k in memo' && k !in open + {key} ensures Filled(k, memo'[k], memo') {
      FilledExtend(k, memo[k], memo, memo');
    }
  }

  lemma {:induction false} SubsetSize(a: set<Key>, b: set<Key>)
    requires a <= b
    ensures |a| <= |b|
    decreases a
  {
    if a != {} {
      var x :| x in a;
      SubsetSize(a - {x}, b - {x});
    }
  }

  /** A container newly remembered is one fewer that can still be met for the first time. */
  lemma FewerLeft(nodes: set<Key>, memo: Memo, memo': Memo)
    requires Extends(memo, memo')
    ensures |nodes - memo'.Keys| <= |nodes - memo.Keys|
    ensures forall k :: k in nodes && k !in memo && k in memo' ==> |nodes - memo'.Keys| < |nodes - memo.Keys|
  {
    assert memo.Keys <= memo'.Keys;
    SubsetSize(nodes - memo'.Keys, nodes - memo.Keys);
    forall k | k in nodes && k !in memo && k in memo' ensures |nodes - memo'.Keys| < |nodes - memo.Keys| {
      SubsetSize(nodes - memo'.Keys, nodes - memo.Keys - {k});
    }
  }

  /** The places of the copy filled so far. */
  ghost predicate EntriesCopied(node: MapNode, clone: MapNode, memo: Memo)
    reads node, clone
  {
    forall x :: x in clone.entries ==> x in node.entries && Copies(node.entries[x], clone.entries[x], memo)
  }

  ghost predicate ElementsCopied(backing: array<Value>, start: nat, clone: array<Value>, count: nat, memo: Memo)
    requires start + count <= backing.Length && count <= clone.Length
    reads backing, clone
  {
    forall i :: 0 <= i < count ==> Copies(backing[start + i], clone[i], memo)
  }

  lemma NothingCopied(key: Key, clone: MapNode, memo: Memo)
    requires key.MapKey? && clone.entries == map[]
    ensures EntriesCopied(key.node, clone, memo)
  {
  }

  lemma AllCopied(key: Key, clone: MapNode, memo: Memo)
    requires key.MapKey? && EntriesCopied(key.node, clone, memo) && clone.entries.Keys == key.node.entries.Keys
    ensures Filled(key, MapRef(key.typ, clone), memo)
  {
  }

  lemma ElementsStart(backing: array<Value>, start: nat, clone: array<Value>, memo: Memo)
    requires start <= backing.Length
    ensures ElementsCopied(backing, start, clone, 0, memo)
  {
  }

  lemma ElementsDone(key: Key, clone: array<Value>, memo: Memo)
    requires key.SliceKey? && clone.Length == key.length && key.start + key.length <= key.backing.Length
    requires ElementsCopied(key.backing, key.start, clone, key.length, memo)
    ensures Filled(key, SliceRef(key.typ, clone, 0, key.length), memo)
  {
  }

  lemma EntriesExtend(node: MapNode, clone: MapNode, memo: Memo, memo': Memo)
    requires EntriesCopied(node, clone, memo) && Extends(memo, memo')
    ensures EntriesCopied(node, clone, memo')
  {
    forall x | x in clone.entries ensures Copies(node.entries[x], clone.entries[x], memo') {
      CopiesExtend(node.entries[x], clone.entries[x], memo, memo');
    }
  }

  lemma ElementsExtend(backing: array<Value>, start: nat, clone: array<Value>, count: nat, memo: Memo, memo': Memo)
    requires start + count <= backing.Length && count <= clone.Length
    requires ElementsCopied(backing, start, clone, count, memo) && Extends(memo, memo')
    ensures ElementsCopied(backing, start, clone, count, memo')
  {
    forall i | 0 <= i < count ensures Copies(backing[start + i], clone[i], memo') {
      CopiesExtend(backing[start + i], clone[i], memo, memo');
    }
  }

  /** The copy of a value. Containers met before, finished or still being filled by a caller, are
      answered from the memo; the others get a new object, remembered before it is filled. */
  method CloneValue(v: Value, memo: Memo, ghost open: set<Key>, ghost nodes: set<Key>, ghost taken: iset<object>)
    returns (w: Value, memo': Memo)
    requires Closed(nodes) && Within(v, nodes) && MemoOk(memo, nodes, taken) && Complete(memo, open)
    ensures Closed(nodes) && MemoOk(memo', nodes, taken) && Extends(memo, memo') && Copies(v, w, memo')
    ensures Complete(memo', open)
    decreases |nodes - memo.Keys|, 0, v, 1
  {
    match v
    case Interface(inner) =>
      var copy;
      copy, memo' := CloneValue(inner, memo, open, nodes, taken);
      w := Interface(copy);
    case MapRef(typ, node) =>
      var key := MapKey(typ, node);
      if key in memo {
        return memo[key], memo;
      }
      w, memo' := CloneMap(typ, node, memo, open, nodes, taken);
    case SliceRef(typ, backing, start, length) =>
      var key := SliceKey(typ, backing, start, length);
      if key in memo {
        return memo[key], memo;
      }
      w, memo' := CloneSlice(typ, backing, start, length, memo, open, nodes, taken);
    case ArrayOf(items) =>
      w, memo' := CloneArray(v, memo, open, nodes, taken);
    case _ =>
      return v, memo;
  }

  /** Allocating an object disturbs nothing that is already there. */
  method NewMap(ghost memo: Memo, ghost open: set<Key>, ghost nodes: set<Key>, ghost taken: iset<object>)
    returns (clone: MapNode)
    requires Closed(nodes) && MemoOk(memo, nodes, taken) && Complete(memo, open)
    ensures fresh(clone) && clone.entries == map[] && forall t :: Unused(MapRef(t, clone), memo, taken)
    ensures Closed(nodes) && Complete(memo, open)
  {
    clone := new MapNode();
  }

  method NewSlice(length: nat, ghost memo: Memo, ghost open: set<Key>, ghost nodes: set<Key>,
                  ghost taken: iset<object>)
    returns (clone: array<Value>)
    requires Closed(nodes) && MemoOk(memo, nodes, taken) && Complete(memo, open)
    ensures fresh(clone) && clone.Length == length && forall t :: Unused(SliceRef(t, clone, 0, length), memo, taken)
    ensures Closed(nodes) && Complete(memo, open)
  {
    clone := new Value[length](_ => Nil(0));
  }

  method CloneMap(typ: nat, node: MapNode, memo: Memo, ghost open: set<Key>, ghost nodes: set<Key>,
                  ghost taken: iset<object>)
    returns (w: Value, memo': Memo)
    requires Closed(nodes) && MapKey(typ, node) in nodes && MapKey(typ, node) !in memo
    requires MemoOk(memo, nodes, taken) && Complete(memo, open)
    ensures Closed(nodes) && MemoOk(memo', nodes, taken) && Extends(memo, memo') && Copies(MapRef(typ, node), w, memo')
    ensures Complete(memo', open)
    decreases |nodes - memo.Keys|, 0, MapRef(typ, node), 0
  {
    hide Copies, Within, Complete, Closed, MemoOk, Extends, Filled;
    var key := MapKey(typ, node);
    var clone := NewMap(memo, open, nodes, taken);
    w := MapRef(typ, clone);
    Opening(memo, open, nodes, taken, key, w);
    FewerLeft(nodes, memo, memo[key := w]);
    memo' := FillMap(key, clone, memo[key := w], open + {key}, nodes, taken);
    RefCopies(key, memo[key := w], memo');
    ExtendsTwice(memo, memo[key := w], memo');
    Closing(memo', open, key);
  }

  method FillMap(key: Key, clone: MapNode, memo: Memo, ghost open: set<Key>, ghost nodes: set<Key>,
                 ghost taken: iset<object>)
    returns (memo': Memo)
    requires Closed(nodes) && MemoOk(memo, nodes, taken) && Complete(memo, open)
    requires key.MapKey? && key in memo && key in open && memo[key] == MapRef(key.typ, clone) && clone.entries == map[]
    modifies clone
    ensures Closed(nodes) && MemoOk(memo', nodes, taken) && Extends(memo, memo')
    ensures Complete(memo', open)
    ensures Filled(key, memo[key], memo')
    decreases |nodes - memo.Keys|, 2
  {
    hide Copies, Within, Complete, Closed, MemoOk, Extends, Filled, EntriesCopied;
    var node := key.node;
    NothingCopied(key, clone, memo);
    memo' := memo;
    ExtendsSelf(memo);
    var todo := node.entries.Keys;
    while todo != {}
      invariant Closed(nodes) && MemoOk(memo', nodes, taken) && Extends(memo, memo')
      invariant Complete(memo', open)
      invariant todo <= node.entries.Keys && clone.entries.Keys == node.entries.Keys - todo
      invariant EntriesCopied(node, clone, memo')
      decreases |todo|
    {
      var x :| x in todo;
      FewerLeft(nodes, memo, memo');
      OneDone(node.entries.Keys, todo, x);
      ghost var before := memo';
      RefCopies(key, memo, memo');
      memo' := FillEntry(key, clone, x, memo', open, nodes, taken);
      ExtendsTwice(memo, before, memo');
      todo := todo - {x};
    }
    AllCopied(key, clone, memo');
    RefCopies(key, memo, memo');
  }

  lemma OneDone(all: set<string>, todo: set<string>, x: string)
    requires x in todo && todo <= all
    ensures todo - {x} <= all && all - (todo - {x}) == (all - todo) + {x} && |todo - {x}| < |todo|
  {
  }

  method FillEntry(key: Key, clone: MapNode, x: string, memo: Memo, ghost open: set<Key>, ghost nodes: set<Key>,
                   ghost taken: iset<object>)
    returns (memo': Memo)
    requires Closed(nodes) && MemoOk(memo, nodes, taken) && Complete(memo, open)
    requires key.MapKey? && key in memo && key in open && memo[key] == MapRef(key.typ, clone)
    requires EntriesCopied(key.node, clone, memo) && x in key.node.entries
    modifies clone
    ensures Closed(nodes) && MemoOk(memo', nodes, taken) && Extends(memo, memo')
    ensures Complete(memo', open)
    ensures clone.entries.Keys == old(clone.entries.Keys) + {x} && EntriesCopied(key.node, clone, memo')
    decreases |nodes - memo.Keys|, 1
  {
    hide Copies, Complete;
    EntryWithin(key, x, nodes);
    var copy;
    copy, memo' := CloneValue(key.node.entries[x], memo, open, nodes, taken);
    EntriesExtend(key.node, clone, memo, memo');
    SetEntry(key, clone, x, copy, memo', open, nodes, taken);
  }

  /** Filling one place of the copy under construction touches no other copy and no source. */
  method SetEntry(ghost key: Key, clone: MapNode, x: string, copy: Value, ghost memo: Memo, ghost open: set<Key>,
                  ghost nodes: set<Key>, ghost taken: iset<object>)
    requires Closed(nodes) && MemoOk(memo, nodes, taken) && Complete(memo, open)
    requires key in memo && key in open && Target(memo[key]) == {clone}
    modifies clone
    ensures clone.entries == old(clone.entries)[x := copy]
    ensures Closed(nodes) && Complete(memo, open)
  {
    assert forall k :: k in memo && k != key ==> clone !in Target(memo[k]) && Source(k) != clone;
    assert forall k :: k in nodes ==> Source(k) != clone;
    clone.entries := clone.entries[x := copy];
  }

  method CloneSlice(typ: nat, backing: array<Value>, start: nat, length: nat, memo: Memo, ghost open: set<Key>,
                    ghost nodes: set<Key>, ghost taken: iset<object>)
    returns (w: Value, memo': Memo)
    requires Closed(nodes) && MemoOk(memo, nodes, taken) && Complete(memo, open)
    requires SliceKey(typ, backing, start, length) in nodes && SliceKey(typ, backing, start, length) !in memo
    ensures Closed(nodes) && MemoOk(memo', nodes, taken) && Extends(memo, memo')
    ensures Copies(SliceRef(typ, backing, start, length), w, memo')
    ensures Complete(memo', open)
    decreases |nodes - memo.Keys|, 0, SliceRef(typ, backing, start, length), 0
  {
    hide Copies, Within, Complete, Closed, MemoOk, Extends, Filled;
    var key := SliceKey(typ, backing, start, length);
    SliceFits(key, nodes);
    var clone := NewSlice(length, memo, open, nodes, taken);
    w := SliceRef(typ, clone, 0, length);
    Opening(memo, open, nodes, taken, key, w);
    FewerLeft(nodes, memo, memo[key := w]);
    memo' := FillSlice(key, clone, memo[key := w], open + {key}, nodes, taken);
    RefCopies(key, memo[key := w], memo');
    ExtendsTwice(memo, memo[key := w], memo');
    Closing(memo', open, key);
  }

  method FillSlice(key: Key, clone: array<Value>, memo: Memo, ghost open: set<Key>, ghost nodes: set<Key>,
                   ghost taken: iset<object>)
    returns (memo': Memo)
    requires Closed(nodes) && MemoOk(memo, nodes, taken) && Complete(memo, open)
    requires key.SliceKey? && key in memo && key in open && memo[key] == SliceRef(key.typ, clone, 0, key.length)
    requires key.length == clone.Length && key.start + key.length <= key.backing.Length
    modifies clone
    ensures Closed(nodes) && MemoOk(memo', nodes, taken) && Extends(memo, memo')
    ensures Complete(memo', open)
    ensures Filled(key, memo[key], memo')
    decreases |nodes - memo.Keys|, 2
  {
    hide Copies, Within, Complete, Closed, MemoOk, Extends, Filled, ElementsCopied;
    ElementsStart(key.backing, key.start, clone, memo);
    memo' := memo;
    ExtendsSelf(memo);
    var i := 0;
    while i < key.length
      invariant Closed(nodes) && MemoOk(memo', nodes, taken) && Extends(memo, memo')
      invariant Complete(memo', open)
      invariant 0 <= i <= key.length
      invariant ElementsCopied(key.backing, key.start, clone, i, memo')
    {
      FewerLeft(nodes, memo, memo');
      ghost var before := memo';
      RefCopies(key, memo, memo');
      memo' := FillElement(key, clone, i, memo', open, nodes, taken);
      ExtendsTwice(memo, before, memo');
      i := i + 1;
    }
    ElementsDone(key, clone, memo');
    RefCopies(key, memo, memo');
  }

  method FillElement(key: Key, clone: array<Value>, i: nat, memo: Memo, ghost open: set<Key>,
                     ghost nodes: set<Key>, ghost taken: iset<object>)
    returns (memo': Memo)
    requires Closed(nodes) && MemoOk(memo, nodes, taken) && Complete(memo, open)
    requires key.SliceKey? && key in memo && key in open && memo[key] == SliceRef(key.typ, clone, 0, key.length)
    requires i < key.length == clone.Length && key.start + key.length <= key.backing.Length
    requires ElementsCopied(key.backing, key.start, clone, i, memo)
    modifies clone
    ensures Closed(nodes) && MemoOk(memo', nodes, taken) && Extends(memo, memo')
    ensures Complete(memo', open)
    ensures ElementsCopied(key.backing, key.start, clone, i + 1, memo')
    decreases |nodes - memo.Keys|, 1
  {
    hide Copies, Complete;
    ElementWithin(key, i, nodes);
    var copy;
    copy, memo' := CloneValue(key.backing[key.start + i], memo, open, nodes, taken);
    ElementsExtend(key.backing, key.start, clone, i, memo, memo');
    SetElement(key, clone, i, copy, memo', open, nodes, taken);
  }

  method SetElement(ghost key: Key, clone: array<Value>, i: nat, copy: Value, ghost memo: Memo,
                    ghost open: set<Key>, ghost nodes: set<Key>, ghost taken: iset<object>)
    requires Closed(nodes) && MemoOk(memo, nodes, taken) && Complete(memo, open)
    requires key in memo && key in open && Target(memo[key]) == {clone} && i < clone.Length
    modifies clone
    ensures clone[i] == copy && forall j :: 0 <= j < clone.Length && j != i ==> clone[j] == old(clone[j])
    ensures Closed(nodes) && Complete(memo, open)
  {
    assert forall k :: k in memo && k != key ==> clone !in Target(memo[k]) && Source(k) != clone;
    assert forall k :: k in nodes ==> Source(k) != clone;
    clone[i] := copy;
  }

  /** A Go array is a value: its copy is built in place, one element at a time. */
  method CloneArray(v: Value, memo: Memo, ghost open: set<Key>, ghost nodes: set<Key>, ghost taken: iset<object>)
    returns (w: Value, memo': Memo)
    requires v.ArrayOf? && Closed(nodes) && Within(v, nodes) && MemoOk(memo, nodes, taken) && Complete(memo, open)
    ensures Closed(nodes) && MemoOk(memo', nodes, taken) && Extends(memo, memo') && Copies(v, w, memo')
    ensures Complete(memo', open)
    decreases |nodes - memo.Keys|, 0, v, 0
  {
    hide Copies, Within, Complete, Closed, MemoOk, Extends, ItemsCopied;
    var items := [];
    ItemsStart(memo);
    memo' := memo;
    ExtendsSelf(memo);
    var i := 0;
    while i < |v.items|
      invariant Closed(nodes) && MemoOk(memo', nodes, taken) && Extends(memo, memo')
      invariant Complete(memo', open)
      invariant 0 <= i <= |v.items| && ItemsCopied(v.items[..i], items, memo')
    {
      ItemWithin(v, i, nodes);
      FewerLeft(nodes, memo, memo');
      ghost var before := memo';
      var copy;
      copy, memo' := CloneValue(v.items[i], memo', open, nodes, taken);
      ExtendsTwice(memo, before, memo');
      ItemCopied(v.items[..i], items, before, v.items[i], copy, memo');
      assert v.items[..i] + [v.items[i]] == v.items[..i + 1];
      items := items + [copy];
      i := i + 1;
    }
    assert v.items[..i] == v.items;
    w := ArrayOf(items);
    ArrayCopied(v, w, memo');
  }

  lemma ExtendsSelf(memo: Memo)
    ensures Extends(memo, memo)
  {
  }

  ghost predicate ItemsCopied(items: seq<Value>, copies: seq<Value>, memo: Memo) {
    |copies| == |items| && forall i :: 0 <= i < |items| ==> Copies(items[i], copies[i], memo)
  }

  lemma ItemsStart(memo: Memo)
    ensures ItemsCopied([], [], memo)
  {
  }

  lemma ItemCopied(items: seq<Value>, copies: seq<Value>, memo: Memo, item: Value, copy: Value, memo': Memo)
    requires ItemsCopied(items, copies, memo) && Extends(memo, memo') && Copies(item, copy, memo')
    ensures ItemsCopied(items + [item], copies + [copy], memo')
  {
    forall i | 0 <= i < |items| ensures Copies(items[i], copies[i], memo') {
      CopiesExtend(items[i], copies[i], memo, memo');
    }
  }

  lemma ArrayCopied(v: Value, w: Value, memo: Memo)
    requires v.ArrayOf? && w.ArrayOf? && ItemsCopied(v.items, w.items, memo)
    ensures Copies(v, w, memo)
  {
  }

  lemma ItemWithin(v: Value, i: nat, nodes: set<Key>)
    requires v.ArrayOf? && i < |v.items| && Within(v, nodes)
    ensures Within(v.items[i], nodes)
  {
  }

  lemma EntryWithin(k: Key, x: string, nodes: set<Key>)
    requires Closed(nodes) && k in nodes && k.MapKey? && x in k.node.entries
    ensures Within(k.node.entries[x], nodes)
  {
    assert ContentsWithin(k, nodes);
  }

  lemma SliceFits(k: Key, nodes: set<Key>)
    requires Closed(nodes) && k in nodes && k.SliceKey?
    ensures k.start + k.length <= k.backing.Length
  {
    assert ContentsWithin(k, nodes);
  }

  lemma ElementWithin(k: Key, i: nat, nodes: set<Key>)
    requires Closed(nodes) && k in nodes && k.SliceKey? && i < k.length && k.start + k.length <= k.backing.Length
    ensures Within(k.backing[k.start + i], nodes)
  {
    assert ContentsWithin(k, nodes);
  }

  // ----- sessions

  ghost predicate Here(o: object) {
    true
  }

  const DATA_TYPE: nat := 1  // map[string]any

  class Session {
    var subject: LoginSubject
    var data: MapNode?

    constructor (subject: LoginSubject, data: MapNode?)
      ensures this.subject == subject && this.data == data
    {
      this.subject, this.data := subject, data;
    }
  }

  /** A detached copy: every object in it is new, and memo pairs each container reached with its own copy. */
  method Clone(s: Session?, ghost nodes: set<Key>) returns (clone: Session?, ghost memo: Memo)
    requires s != null && s.data != null ==> Closed(nodes) && MapKey(DATA_TYPE, s.data) in nodes
    ensures clone == null <==> s == null
    ensures clone != null ==> fresh(clone) && clone.subject == s.subject && clone.data != null && fresh(clone.data)
    ensures s != null && s.data == null ==> clone.data.entries == map[]
    ensures s != null && s.data != null ==>
              && Detached(memo) && (forall k, o :: k in memo && o in Target(memo[k]) ==> fresh(o))
              && Copies(MapRef(DATA_TYPE, s.data), MapRef(DATA_TYPE, clone.data), memo)
  {
    memo := map[];
    if s == null {
      return null, memo;
    }
    if s.data == null {
      var empty := new MapNode();
      clone := new Session(s.subject, empty);
      return;
    }
    ghost var taken := iset o: object | Here(o);
    var w;
    w, memo := CloneValue(MapRef(DATA_TYPE, s.data), map[], {}, nodes, taken);
    forall k, o | k in memo && o in Target(memo[k]) ensures fresh(o) {
      assert !Here(o) || o !in taken;
    }
    clone := new Session(s.subject, w.node);
  }

  /** Every copy is complete, and copies of different containers are different objects. */
  ghost predicate Detached(memo: Memo)
    reads Sources(memo.Keys), set k, o | k in memo && o in Target(memo[k]) :: o
  {
    && Complete(memo, {})
    && (forall k :: k in memo ==> Shaped(k, memo[k]))
    && (forall j, k :: j in memo && k in memo && j != k ==> Target(memo[j]) !! Target(memo[k]))
  }

  // ----- what a reader of the copy can tell

  datatype Step = Inside | Entry(name: string) | Index(at: nat)

  /** One step from a value to something it holds. */
  function Child(v: Value, step: Step): Option<Value>
    reads Target(v)
  {
    match step
    case Inside => if v.Interface? then Some(v.inner) else None
    case Entry(name) => if v.MapRef? && name in v.node.entries then Some(v.node.entries[name]) else None
    case Index(at) =>
      if v.ArrayOf? && at < |v.items| then Some(v.items[at])
      else if v.SliceRef? && at < v.length && v.start + at < v.backing.Length then Some(v.backing[v.start + at])
      else None
  }

  /** The values met on a way along the steps. */
  ghost predicate Walks(values: seq<Value>, steps: seq<Step>)
    reads set i, o | 0 <= i < |values| && o in Target(values[i]) :: o
  {
    && |values| == |steps| + 1
    && forall i :: 0 <= i < |steps| ==> Child(values[i], steps[i]) == Some(values[i + 1])
  }

  ghost predicate AllCopies(vs: seq<Value>, ws: seq<Value>, memo: Memo) {
    |ws| == |vs| && forall i :: 0 <= i < |vs| ==> Copies(vs[i], ws[i], memo)
  }

  lemma ChildCopied(memo: Memo, v: Value, w: Value, step: Step)
    requires Detached(memo) && Copies(v, w, memo)
    ensures Child(v, step).Some? <==> Child(w, step).Some?
    ensures Child(v, step).Some? ==> Copies(Child(v, step).value, Child(w, step).value, memo)
  {
    match v
    case MapRef(typ, node) => assert Filled(MapKey(typ, node), w, memo);
    case SliceRef(typ, backing, start, length) => assert Filled(SliceKey(typ, backing, start, length), w, memo);
    case _ =>
  }

  /** Every way through the source is a way through the copy, along the same steps. */
  lemma {:induction false} WalkCopied(memo: Memo, vs: seq<Value>, steps: seq<Step>, w: Value) returns (ws: seq<Value>)
    requires Detached(memo) && Walks(vs, steps) && Copies(vs[0], w, memo)
    ensures Walks(ws, steps) && ws[0] == w && AllCopies(vs, ws, memo)
    decreases steps
  {
    if steps == [] {
      return [w];
    }
    assert Child(vs[0], steps[0]) == Some(vs[1]);
    ChildCopied(memo, vs[0], w, steps[0]);
    var rest := WalkCopied(memo, vs[1..], steps[1..], Child(w, steps[0]).value);
    ws := [w] + rest;
  }

  /** And the copy has no other ways. */
  lemma {:induction false} WalkFromSource(memo: Memo, ws: seq<Value>, steps: seq<Step>, v: Value)
    returns (vs: seq<Value>)
    requires Detached(memo) && Walks(ws, steps) && Copies(v, ws[0], memo)
    ensures Walks(vs, steps) && vs[0] == v && AllCopies(vs, ws, memo)
    decreases steps
  {
    if steps == [] {
      return [v];
    }
    assert Child(ws[0], steps[0]) == Some(ws[1]);
    ChildCopied(memo, v, ws[0], steps[0]);
    var rest := WalkFromSource(memo, ws[1..], steps[1..], Child(v, steps[0]).value);
    vs := [v] + rest;
  }

  /** Two values are the same reference: type, pointer and length agree. */
  predicate SameReference(v: Value, w: Value) {
    (v.MapRef? || v.SliceRef?) && v == w
  }

  /** The copy is isomorphic to the source: walking two ways from the two roots meets the same references
      in the copy exactly when it does in the source, and cycles are ways that meet themselves. */
  lemma ClonePreservesSharing(memo: Memo, v: Value, w: Value, vs: seq<Value>, ws: seq<Value>, steps: seq<Step>,
                              vs': seq<Value>, ws': seq<Value>, steps': seq<Step>)
    requires Detached(memo) && Copies(v, w, memo)
    requires Walks(vs, steps) && Walks(ws, steps) && vs[0] == v && ws[0] == w
    requires Walks(vs', steps') && Walks(ws', steps') && vs'[0] == v && ws'[0] == w
    ensures SameReference(vs[|steps|], vs'[|steps'|]) <==> SameReference(ws[|steps|], ws'[|steps'|])
  {
    var us := WalkCopied(memo, vs, steps, w);
    var us' := WalkCopied(memo, vs', steps', w);
    WalksAgree(us, ws, steps);
    WalksAgree(us', ws', steps');
    SameCopy(memo, vs[|steps|], ws[|steps|], vs'[|steps'|], ws'[|steps'|]);
  }

  lemma {:induction false} WalksAgree(vs: seq<Value>, ws: seq<Value>, steps: seq<Step>)
    requires Walks(vs, steps) && Walks(ws, steps) && vs[0] == ws[0]
    ensures vs == ws
    decreases steps
  {
    if steps != [] {
      WalksAgree(vs[1..], ws[1..], steps[1..]);
    }
  }

  lemma SameCopy(memo: Memo, v: Value, w: Value, v': Value, w': Value)
    requires Detached(memo) && Copies(v, w, memo) && Copies(v', w', memo)
    ensures SameReference(v, v') <==> SameReference(w, w')
  {
    if (v.MapRef? || v.SliceRef?) && (v'.MapRef? || v'.SliceRef?) {
      var k, k' := KeyOf(v), KeyOf(v');
      assert Shaped(k, w) && Shaped(k', w');
      if k != k' {
        assert Target(memo[k]) !! Target(memo[k']);
        assert Target(w) != {} && Target(w') != {};
      }
    }
  }

  function KeyOf(v: Value): Key
    requires v.MapRef? || v.SliceRef?
  {
    if v.MapRef? then MapKey(v.typ, v.node) else SliceKey(v.typ, v.backing, v.start, v.length)
  }
}
