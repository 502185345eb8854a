/** Positions in a circle: ring slots and round-robin turns wrap at most once. */
module Cyclic {

  /** The position after at most one wrap. */
  function Slot(a: nat, n: nat): (s: nat)
    requires n > 0 && a < 2 * n
    ensures s < n
  {
    if a < n then a else a - n
  }

  /** The source writes the same position as a remainder. */
  lemma {:induction false} SlotIsRemainder(a: nat, n: nat)
    requires n > 0 && a < 2 * n
    ensures Slot(a, n) == a % n
  {
    assert a / n * n + a % n == a;
    if a >= n {
      assert a / n == 1;
    }
  }
}
