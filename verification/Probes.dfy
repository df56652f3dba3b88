/** States and bit strings on which two transformations can be told apart. */
module Probes {
  import opened Complex
  import opened Qasm

  /** Every bit set but for bit q, which is v. */
  function Ones(n: nat, q: Qubit, v: bool): Basis {
    Put(seq(n, i requires 0 <= i < n => true), q, v)
  }

  lemma OnesAre(n: nat, q: Qubit, v: bool)
    requires q < n
    ensures |Ones(n, q, v)| == n && Bit(Ones(n, q, v), q) == v
    ensures forall p: Qubit :: p < n && p != q ==> Bit(Ones(n, q, v), p)
    ensures forall u :: Put(Ones(n, q, v), q, u) == Ones(n, q, u)
  {
  }

  function Entry(m: Matrix, row: bool, col: bool): Complex {
    if row then if col then m.d else m.c else if col then m.b else m.a
  }

  lemma UnitApplied(m: Matrix, row: bool)
    ensures m.Apply(row, ONE, ZERO) == Entry(m, row, false) && m.Apply(row, ZERO, ONE) == Entry(m, row, true)
  {
  }

  const IDENTITY := Matrix(ONE, ZERO, ZERO, ONE)

  lemma IdentityApplied(bit: bool, x0: Complex, x1: Complex)
    ensures IDENTITY.Apply(bit, x0, x1) == if bit then x1 else x0
  {
  }

  predicate Diagonal(m: Matrix) {
    m.b == ZERO && m.c == ZERO
  }

  /** Where a matrix is not the identity. */
  lemma Differing(m: Matrix) returns (row: bool, col: bool)
    requires m != IDENTITY
    ensures Entry(m, row, col) != Entry(IDENTITY, row, col)
    ensures row != col ==> !Diagonal(m)
  {
    if m.a != ONE {
      row, col := false, false;
    } else if m.d != ONE {
      row, col := true, true;
    } else {
      row, col := m.b == ZERO, m.b != ZERO;
    }
  }

  predicate Placed(ctrls: seq<Qubit>, target: Qubit, n: nat) {
    target < n && target !in ctrls && forall i :: 0 <= i < |ctrls| ==> ctrls[i] < n
  }

  lemma ControlsSet(ctrls: seq<Qubit>, target: Qubit, n: nat, v: bool)
    requires Placed(ctrls, target, n)
    ensures AllSet(Ones(n, target, v), ctrls)
  {
    hide Ones;
    OnesAre(n, target, v);
    forall i | 0 <= i < |ctrls| ensures Bit(Ones(n, target, v), ctrls[i]) {
      assert ctrls[i] in ctrls;
    }
  }
}
