/** The operators that DECL_ENUM_CLASS_BITOPS gives a bit-valued enum class.
    Each casts its operands to the underlying 32-bit integer, applies the
    bitwise operator there and casts the result back, so a flag set is its
    32-bit pattern, here a `bv32`, and the operators are those of `bv32`.
    "s includes f" is written `s | f == s` throughout: every bit of `f` is
    already set in `s`. */
module BitOps {

  /** operator| : the smallest pattern that includes both operands. */
  function Or(lhs: bv32, rhs: bv32): (r: bv32)
    ensures r | lhs == r && r | rhs == r
  {
    lhs | rhs
  }

  /** operator& : the largest pattern included in both operands. */
  function And(lhs: bv32, rhs: bv32): (r: bv32)
    ensures lhs | r == lhs && rhs | r == rhs
  {
    lhs & rhs
  }

  /** operator^ : the bits of exactly one operand, that is, the union less
      the intersection. */
  function Xor(lhs: bv32, rhs: bv32): (r: bv32)
    ensures r & (lhs & rhs) == 0
    ensures r | (lhs & rhs) == lhs | rhs
  {
    lhs ^ rhs
  }

  /** operator~ : the complement, disjoint from the operand and together
      with it covering all 32 bits. */
  function Not(x: bv32): (r: bv32)
    ensures x & r == 0 && x | r == 0xFFFF_FFFF
  {
    !x
  }

  /** Or is the LEAST upper bound: whatever includes both operands includes
      their Or. */
  lemma OrIsLeast(a: bv32, b: bv32, s: bv32)
    requires s | a == s && s | b == s
    ensures s | Or(a, b) == s
  {
  }

  /** And is the GREATEST lower bound: whatever both operands include, their
      And includes. */
  lemma AndIsGreatest(a: bv32, b: bv32, s: bv32)
    requires a | s == a && b | s == b
    ensures And(a, b) | s == And(a, b)
  {
  }

  lemma OrLaws(a: bv32, b: bv32, c: bv32)
    ensures Or(a, b) == Or(b, a)
    ensures Or(Or(a, b), c) == Or(a, Or(b, c))
    ensures Or(a, a) == a
    ensures Or(a, 0) == a
  {
  }

  lemma AndLaws(a: bv32, b: bv32)
    ensures And(a, b) == And(b, a)
    ensures And(a, a) == a
    ensures And(a, 0) == 0
  {
  }

  lemma XorLaws(a: bv32, b: bv32)
    ensures Xor(a, b) == Xor(b, a)
    ensures Xor(a, a) == 0
    ensures Xor(a, 0) == a
    ensures Xor(Xor(a, b), b) == a
  {
  }

  lemma NotInvolutive(a: bv32)
    ensures Not(Not(a)) == a
  {
  }

  lemma DeMorgan(a: bv32, b: bv32)
    ensures Not(Or(a, b)) == And(Not(a), Not(b))
    ensures Not(And(a, b)) == Or(Not(a), Not(b))
  {
  }

  /** A flag added with `|` is then found by `&`: (s | f) & f == f. */
  lemma AddedFlagIsTestable(s: bv32, f: bv32)
    ensures And(Or(s, f), f) == f
  {
  }

  /** A flag cleared with `& ~` is then absent: (s & ~f) & f == 0. */
  lemma ClearedFlagIsAbsent(s: bv32, f: bv32)
    ensures And(And(s, Not(f)), f) == 0
  {
  }
}
