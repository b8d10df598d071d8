/** Identifiers that are not in use. */
module FreshIds {
  /** An identifier above all that are in use. */
  lemma {:induction false} UnusedId(ids: set<nat>) returns (id: nat)
    ensures forall used :: used in ids ==> used < id
    decreases |ids|
  {
    if ids == {} {
      id := 0;
    } else {
      var one :| one in ids;
      id := UnusedId(ids - {one});
      id := if one < id then id else one + 1;
      assert forall used :: used in ids ==> used == one || used in ids - {one};
    }
  }
}
