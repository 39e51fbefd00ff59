/**
 * The contract of a team's spawn-point removal, and one operation that meets it:
 * a removal refused for a point that is absent or is the last one left.
 */
module Spawns {
  import opened Types

  /** A refused removal hands back the set it was given. */
  ghost predicate KeepsOnRefusal(remove: (set<Pos>, Pos) -> (bool, set<Pos>)) {
    forall spawns, pos :: !remove(spawns, pos).0 ==> remove(spawns, pos).1 == spawns
  }

  /** Removal never empties a non-empty set. */
  ghost predicate KeepsNonEmpty(remove: (set<Pos>, Pos) -> (bool, set<Pos>)) {
    forall spawns, pos :: spawns != {} ==> remove(spawns, pos).1 != {}
  }

  /**
   * Removal guarded against taking the last spawn point: it succeeds exactly
   * when the point is present and at least one other point remains.
   */
  function GuardedRemove(spawns: set<Pos>, pos: Pos): (r: (bool, set<Pos>))
    ensures r.0 <==> pos in spawns && |spawns| >= 2
    ensures r.0 ==> pos !in r.1 && r.1 + {pos} == spawns
    ensures !r.0 ==> r.1 == spawns
    ensures spawns != {} ==> r.1 != {}
  {
    if pos in spawns && |spawns| > 1 then
      var rest := spawns - {pos};
      assert |rest| == |spawns| - 1;
      (true, rest)
    else
      (false, spawns)
  }

  /** The guarded removal meets both parts of the removal contract. */
  lemma GuardedRemoveMeetsContract()
    ensures KeepsOnRefusal(GuardedRemove)
    ensures KeepsNonEmpty(GuardedRemove)
  {
  }
}
