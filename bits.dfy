/** Single-bit operations on the 8-bit registers of the ATmega32U4.
    Every register access of the port layer is a read-modify-write of the
    shape `r | (1 << i)` or `r & !(1 << i)`, or a test `r & (1 << i) != 0`. */
module Bits {

  /** A bit position inside an 8-bit register. */
  type Index = i: int | 0 <= i < 8

  /** The one-hot mask `1 << i`, spelled out per position. */
  function Mask(i: Index): bv8 {
    if i == 0 then 0x01 else if i == 1 then 0x02 else if i == 2 then 0x04
    else if i == 3 then 0x08 else if i == 4 then 0x10 else if i == 5 then 0x20
    else if i == 6 then 0x40 else 0x80
  }

  /** The table is the shift it stands for. */
  lemma MaskIsShift(i: Index)
    ensures Mask(i) == (1 as bv8) << i
  {
  }

  /** Whether bit `i` of `r` is set: `r & (1 << i) != 0`. */
  predicate Test(r: bv8, i: Index) {
    r & Mask(i) != 0
  }

  /** Whether bit `i` of `r` is clear: `r & (1 << i) == 0`, which is the
      negation of the test. */
  predicate Unset(r: bv8, i: Index)
    ensures Unset(r, i) == !Test(r, i)
  {
    r & Mask(i) == 0
  }

  /** `r | (1 << i)`: bit `i` becomes 1, every other bit keeps its value. */
  function Set(r: bv8, i: Index): (r': bv8)
    ensures Test(r', i)
    ensures forall j: Index :: j != i ==> Test(r', j) == Test(r, j)
  {
    r | Mask(i)
  }

  /** `r & !(1 << i)`: bit `i` becomes 0, every other bit keeps its value. */
  function Clear(r: bv8, i: Index): (r': bv8)
    ensures !Test(r', i)
    ensures forall j: Index :: j != i ==> Test(r', j) == Test(r, j)
  {
    r & !Mask(i)
  }

  /** Two registers that agree on every bit are the same register value. */
  lemma Extensionality(x: bv8, y: bv8)
    requires forall j: Index :: Test(x, j) == Test(y, j)
    ensures x == y
  {
    assert Test(x, 0) == Test(y, 0) && Test(x, 1) == Test(y, 1);
    assert Test(x, 2) == Test(y, 2) && Test(x, 3) == Test(y, 3);
    assert Test(x, 4) == Test(y, 4) && Test(x, 5) == Test(y, 5);
    assert Test(x, 6) == Test(y, 6) && Test(x, 7) == Test(y, 7);
  }

  /** Setting bit `i` is the only way to change `r` into a value whose bit
      `i` is 1 and whose other bits are those of `r`. */
  lemma SetIsUnique(r: bv8, r': bv8, i: Index)
    ensures r' == Set(r, i) <==>
              Test(r', i) && forall j: Index :: j != i ==> Test(r', j) == Test(r, j)
  {
    if Test(r', i) && forall j: Index :: j != i ==> Test(r', j) == Test(r, j) {
      Extensionality(r', Set(r, i));
    }
  }

  /** Clearing bit `i` is the only way to change `r` into a value whose bit
      `i` is 0 and whose other bits are those of `r`. */
  lemma ClearIsUnique(r: bv8, r': bv8, i: Index)
    ensures r' == Clear(r, i) <==>
              !Test(r', i) && forall j: Index :: j != i ==> Test(r', j) == Test(r, j)
  {
    if !Test(r', i) && forall j: Index :: j != i ==> Test(r', j) == Test(r, j) {
      Extensionality(r', Clear(r, i));
    }
  }
}
