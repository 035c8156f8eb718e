/** Numbers for the clients of a store whose calls take several steps. */
module Clients {
  /** There is always a client that has nothing in progress. */
  lemma {:induction false} FreshClient(taken: set<nat>) returns (c: nat)
    ensures forall d :: d in taken ==> d < c
    decreases taken
  {
    if taken == {} {
      return 0;
    }
    var d :| d in taken;
    var rest := FreshClient(taken - {d});
    c := if rest > d then rest else d + 1;
    assert forall e :: e in taken ==> e == d || e in taken - {d};
  }
}
