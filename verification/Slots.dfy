/** The ring's index arithmetic: `pos & (Capacity - 1)` for a power-of-two capacity. */
module Slots {

  function Pow2(k: nat): (c: nat)
    ensures c >= 1
    ensures k >= 1 ==> c >= 2
  {
    if k == 0 then 1 else 2 * Pow2(k - 1)
  }

  /** Bitwise `and` of two naturals, bit by bit. */
  function And(a: nat, b: nat): (r: nat)
    ensures r <= b
    decreases b
  {
    if b == 0 then 0 else (a % 2) * (b % 2) + 2 * And(a / 2, b / 2)
  }

  /** base/MPMCQueue.h line 54: the cell that position `pos` uses. */
  function Slot(pos: nat, k: nat): (i: nat)
    ensures i < Pow2(k)
  {
    And(pos, Pow2(k) - 1)
  }

  /** The mask computes the remainder. */
  lemma {:induction false} MaskIsRemainder(pos: nat, k: nat)
    ensures Slot(pos, k) == pos % Pow2(k)
  {
    if k > 0 {
      var c := Pow2(k - 1);
      MaskIsRemainder(pos / 2, k - 1);
      assert (2 * c - 1) / 2 == c - 1 && (2 * c - 1) % 2 == 1;
      HalveRemainder(pos, c);
    }
  }

  lemma HalveRemainder(pos: nat, c: nat)
    requires c >= 1
    ensures pos % (2 * c) == pos % 2 + 2 * (pos / 2 % c)
  {
    var h := pos / 2;
    var q, r := h / c, h % c;
    assert h == q * c + r;
    assert pos == q * (2 * c) + (pos % 2 + 2 * r);
    RemainderUnique(pos, 2 * c, q, pos % 2 + 2 * r);
  }

  /** Two multiples of `c` that differ, differ by at least `c`. */
  lemma MultiplesApart(a: int, b: int, c: int)
    requires c >= 1 && a > b
    ensures a * c >= b * c + c
  {
    assert a * c == b * c + (a - b) * c;
    var n := a - b;
    assert n * c == c + (n - 1) * c;
  }

  lemma RemainderUnique(x: int, c: int, q: int, r: int)
    requires c >= 1 && x == q * c + r && 0 <= r < c
    ensures x % c == r && x / c == q
  {
    var p := x / c;
    assert x == p * c + x % c;
    if q > p { MultiplesApart(q, p, c); }
    if p > q { MultiplesApart(p, q, c); }
  }

  /** The first lap uses the cells in order. */
  lemma SlotSmall(p: nat, k: nat)
    requires p < Pow2(k)
    ensures Slot(p, k) == p
  {
    MaskIsRemainder(p, k);
    RemainderUnique(p, Pow2(k), 0, p);
  }

  /** Positions one lap apart share a cell; positions less than a lap apart do not. */
  lemma SlotLap(p: nat, q: nat, k: nat)
    ensures q == p + Pow2(k) ==> Slot(q, k) == Slot(p, k)
    ensures p < q < p + Pow2(k) ==> Slot(q, k) != Slot(p, k)
  {
    MaskIsRemainder(p, k);
    MaskIsRemainder(q, k);
    RemainderLap(p, q, Pow2(k));
  }

  lemma RemainderLap(p: nat, q: nat, c: nat)
    requires c >= 1
    ensures q == p + c ==> q % c == p % c
    ensures p < q < p + c ==> q % c != p % c
  {
    var a, b, r := p / c, q / c, p % c;
    assert p == a * c + r;
    if q == p + c {
      assert (a + 1) * c == a * c + c;
      RemainderUnique(q, c, a + 1, r);
    }
    if p < q < p + c && q % c == r {
      assert q == b * c + r;
      if b > a { MultiplesApart(b, a, c); }
      if a > b { MultiplesApart(a, b, c); }
    }
  }

  /** `SlotLap` for all positions at once. */
  lemma SlotLaps(k: nat)
    ensures forall p: nat, q: nat {:trigger Slot(p, k), Slot(q, k)} ::
              q == p + Pow2(k) ==> Slot(q, k) == Slot(p, k)
    ensures forall p: nat, q: nat {:trigger Slot(p, k), Slot(q, k)} ::
              p < q < p + Pow2(k) ==> Slot(q, k) != Slot(p, k)
  {
    forall p: nat, q: nat {
      SlotLap(p, q, k);
    }
  }
}
