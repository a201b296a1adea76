/** The charge basis of the Cooper pair box and the entries of its tridiagonal Hamiltonian. */
module ChargeBasis {

  /** numpy's `arange(lo, hi)` on integers: lo, lo + 1, ..., hi - 1, empty when hi <= lo. */
  function Arange(lo: int, hi: int): (r: seq<int>)
    ensures |r| == if hi > lo then hi - lo else 0
    ensures forall i :: 0 <= i < |r| ==> r[i] == lo + i
    decreases hi - lo
  {
    if hi <= lo then [] else [lo] + Arange(lo + 1, hi)
  }

  /** numpy's `ones(k)`. */
  function Ones(k: nat): seq<real>
  {
    seq(k, _ => 1.0)
  }

  /** The charge indices -n, ..., n (the `_diag` array): 2n + 1 states, strictly increasing,
      mirror-symmetric around charge 0. */
  function ChargeIndices(n: nat): (r: seq<int>)
    ensures |r| == 2 * n + 1
    ensures r[0] == -(n as int) && r[2 * n] == n
    ensures forall i :: 0 <= i < |r| ==> r[i] == i - n
    ensures forall i, j :: 0 <= i < j < |r| ==> r[i] < r[j]
    ensures forall i :: 0 <= i < |r| ==> r[2 * n - i] == -r[i]
  {
    Arange(-(n as int), n + 1)
  }

  /** The unit off-diagonal couplings (the `_off` array), one per neighbouring pair of
      charge states. */
  function UnitCouplings(n: nat): (r: seq<real>)
    ensures |r| + 1 == |ChargeIndices(n)|
    ensures forall i :: 0 <= i < |r| ==> r[i] == 1.0
  {
    Ones(|ChargeIndices(n)| - 1)
  }

  function Square(x: real): (r: real)
    ensures r >= 0.0
  {
    x * x
  }

  /** 4 * ec * x**2, non-negative for a non-negative charging energy. */
  function ChargingEnergy(ec: real, x: real): (r: real)
    ensures ec >= 0.0 ==> r >= 0.0
  {
    var s := Square(x);
    assert ec >= 0.0 ==> ec * s >= 0.0;
    4.0 * ec * s
  }

  /** Diagonal of the Hamiltonian, `4 * Ec * (diag - ng)**2`: the charging energy of each
      charge state. */
  function HamDiag(ec: real, ng: real, diag: seq<int>): (r: seq<real>)
    ensures |r| == |diag|
    ensures ec >= 0.0 ==> forall i :: 0 <= i < |r| ==> r[i] >= 0.0
  {
    seq(|diag|, i requires 0 <= i < |diag| => ChargingEnergy(ec, diag[i] as real - ng))
  }

  /** Off-diagonal of the Hamiltonian, `-(Ej / 2) * off`: the Josephson tunnelling between
      neighbouring charge states. */
  function HamOff(ej: real, off: seq<real>): (r: seq<real>)
    ensures |r| == |off|
  {
    seq(|off|, i requires 0 <= i < |off| => -(ej / 2.0) * off[i])
  }

  /** The tridiagonal entries handed to the eigensolver for truncation n. */
  lemma HamiltonianEntries(n: nat, ej: real, ec: real, ng: real)
    ensures |HamDiag(ec, ng, ChargeIndices(n))| == 2 * n + 1
    ensures |HamOff(ej, UnitCouplings(n))| == 2 * n
    ensures forall i :: 0 <= i <= 2 * n ==>
      HamDiag(ec, ng, ChargeIndices(n))[i] == 4.0 * ec * Square((i - n) as real - ng)
    ensures forall i :: 0 <= i < 2 * n ==> HamOff(ej, UnitCouplings(n))[i] == -ej / 2.0
  {
  }

  /** Charge conjugation: reversing the charge basis maps the diagonal for ng onto the
      diagonal for -ng. */
  lemma HamDiagMirror(n: nat, ec: real, ng: real, i: nat)
    requires i <= 2 * n
    ensures HamDiag(ec, ng, ChargeIndices(n))[i] == HamDiag(ec, -ng, ChargeIndices(n))[2 * n - i]
  {
  }
}
