/** src/bimap.rs: a pair of maps whose removals touch one side only. */
module BiMap {
  import opened Basics

  datatype PrimBiMap<L, R> = PrimBiMap(fwd: map<L, R>, rev: map<R, L>) {

    function Insert(left: L, right: R): PrimBiMap<L, R> {
      PrimBiMap(fwd[left := right], rev[right := left])
    }

    function GetByLeft(left: L): Option<R> {
      Lookup(fwd, left)
    }

    function RemoveByLeft(left: L): PrimBiMap<L, R> {
      PrimBiMap(fwd - {left}, rev)
    }

    /** Every forward pair is found again through the reverse map. The converse
        fails as soon as a left key is removed or overwritten. */
    ghost predicate Inverts() {
      forall l | l in fwd :: fwd[l] in rev && rev[fwd[l]] == l
    }
  }

  function Empty<L, R>(): PrimBiMap<L, R> {
    PrimBiMap(map[], map[])
  }

  /** Removals touch one side only: whatever the map, the reverse map still holds the pair whose left is gone,
      so the two maps are no bijection, though the forward map is still inverted. */
  lemma {:induction false} StaleReverse<L, R>(m: PrimBiMap<L, R>, left: L)
    requires m.Inverts() && left in m.fwd
    ensures var n := m.RemoveByLeft(left);
      n.Inverts() && left !in n.fwd && m.fwd[left] in n.rev && n.rev[m.fwd[left]] == left && m.fwd[left] !in n.fwd.Values
  {
    var n := m.RemoveByLeft(left);
    forall l | l in n.fwd ensures n.fwd[l] != m.fwd[left] {
      assert m.rev[m.fwd[l]] == l;
    }
  }

  /** Inserting a right that nobody has keeps the reverse map honest. */
  lemma {:induction false} InsertInverts<L, R>(m: PrimBiMap<L, R>, left: L, right: R)
    requires m.Inverts()
    ensures m.Insert(left, right).Inverts() <==> forall l | l in m.fwd && l != left :: m.fwd[l] != right
  {
    var n := m.Insert(left, right);
    forall l | l in m.fwd && l != left && m.fwd[l] == right ensures !n.Inverts() {
      assert l in n.fwd && n.fwd[l] == right && n.rev[right] == left;
    }
  }
}
