/** The Cooper pair box model `Hcpb`: its parameters, the spectrum it keeps in step with
    them, the quantities derived from that spectrum, and the set-up and residual of the
    inverse fit from a target spectrum back to Ej and Ec. Floating-point arithmetic is
    modelled as exact real arithmetic. */
module CooperPairBox {
  import opened Wrappers
  import opened ChargeBasis
  import opened Eigensolver

  /** The ways the source's calls fail. */
  datatype Error =
    | Uninitialized       // the spectrum is `None`: indexing it raises TypeError
    | IndexOutOfRange     // numpy raises IndexError
    | NegativeDimension   // `np.zeros` of a negative size raises ValueError
    | ZeroDivision        // float division by zero in the initial guess

  /** k is a valid Python index into a sequence of length m (negative indices count from
      the end). */
  predicate InRange(m: nat, k: int)
  {
    -(m as int) <= k < m
  }

  /** The position Python's `a[k]` reads in a sequence of length m. */
  function PyIndex(m: nat, k: int): (r: Option<nat>)
    ensures r.Some? <==> InRange(m, k)
    ensures r.Some? ==> r.value < m
    ensures r.Some? && k >= 0 ==> r.value == k
    ensures r.Some? && k < 0 ==> r.value == m + k
  {
    if 0 <= k < m then Some(k) else if -(m as int) <= k < 0 then Some(k + m) else None
  }

  /** `len(a[:n])` for a sequence a of length m. */
  function SliceLen(m: nat, n: int): (r: nat)
    ensures r <= m
    ensures 0 <= n <= m ==> r == n
    ensures n >= m ==> r == m
    ensures n < 0 ==> r as int == if m + n > 0 then m + n else 0
  {
    if n >= 0 then (if n <= m then n else m) else if m + n > 0 then m + n else 0
  }

  function Abs(x: real): real
  {
    if x < 0.0 then -x else x
  }

  /** The sum over the charge basis of u[r] * n[r] * v[r]: the matrix element of the
      (diagonal) charge-number operator between the vectors u and v. */
  function Inner(u: seq<real>, n: seq<int>, v: seq<real>): (r: real)
    requires |u| == |n| == |v|
  {
    if |u| == 0 then 0.0 else u[0] * (n[0] as real) * v[0] + Inner(u[1..], n[1..], v[1..])
  }

  /** The element vanishes when one vector, or the charge weighting, is zero throughout. */
  lemma {:induction false} InnerVanishes(u: seq<real>, n: seq<int>, v: seq<real>)
    requires |u| == |n| == |v|
    ensures (forall k :: 0 <= k < |u| ==> u[k] == 0.0) ==> Inner(u, n, v) == 0.0
    ensures (forall k :: 0 <= k < |v| ==> v[k] == 0.0) ==> Inner(u, n, v) == 0.0
    ensures (forall k :: 0 <= k < |n| ==> n[k] == 0) ==> Inner(u, n, v) == 0.0
  {
    if |u| > 0 {
      InnerVanishes(u[1..], n[1..], v[1..]);
    }
  }

  /** The charge-number operator is symmetric. */
  lemma {:induction false} InnerSymmetric(u: seq<real>, n: seq<int>, v: seq<real>)
    requires |u| == |n| == |v|
    ensures Inner(u, n, v) == Inner(v, n, u)
  {
    if |u| > 0 {
      InnerSymmetric(u[1..], n[1..], v[1..]);
    }
  }

  /** v without the values below the threshold, as `n_to_qutip` keeps entries. */
  function Thresholded(v: real, thresh: Option<real>): (r: real)
    ensures r == v || r == 0.0
    ensures thresh.None? ==> r == v
    ensures thresh.Some? ==> (r == 0.0 <==> v < thresh.value || v == 0.0)
    ensures thresh.Some? ==> r == 0.0 || r >= thresh.value
  {
    if thresh.Some? && v < thresh.value then 0.0 else v
  }

  class Hcpb {
    /** The foreign tridiagonal eigensolver, `linalg.eigh_tridiagonal`. */
    const solve: Solver
    /** Truncation: the charge states are -nlevels, ..., nlevels. */
    var nlevels: nat
    var ej: Option<real>
    var ec: Option<real>
    var ng: Option<real>
    var evals: Option<seq<real>>
    var evecs: Option<seq<seq<real>>>
    var diag: seq<int>
    var off: seq<real>

    /** All three parameters that the Hamiltonian needs are set. */
    predicate ParamsSet()
      reads this
    {
      ej.Some? && ec.Some? && ng.Some?
    }

    /** `_diag` and `_off` are the basis arrays for the current truncation. */
    ghost predicate BasisBuilt()
      reads this
    {
      diag == ChargeIndices(nlevels) && off == UnitCouplings(nlevels)
    }

    /** What the solver returns for the current parameters and basis: on the built basis,
        Size() ascending eigenvalues and a Size()-by-Size() eigenvector matrix. */
    function Diagonalization(): (r: Eigh)
      reads this
      requires ParamsSet()
      ensures BasisBuilt() ==> |r.w| == Size() && Ascending(r.w) && IsSquare(r.v, Size())
    {
      solve(HamDiag(ec.value, ng.value, diag), HamOff(ej.value, off))
    }

    /** The cache is never stale: both parts of the spectrum are absent when a parameter
        is unset, and otherwise both are what the solver gives for the current state. */
    ghost predicate CacheFresh()
      reads this
    {
      if ParamsSet() then
        evals == Some(Diagonalization().w) && evecs == Some(Diagonalization().v)
      else
        evals.None? && evecs.None?
    }

    ghost predicate Valid()
      reads this
    {
      BasisBuilt() && CacheFresh()
    }

    /** The number of eigenstates, 2 * nlevels + 1. */
    function Size(): nat
      reads this
    {
      2 * nlevels + 1
    }

    /** The shape of the cached spectrum: evals and evecs are present together, exactly
        when every parameter is set, and then hold Size() ascending eigenvalues and a
        Size()-by-Size() eigenvector matrix. */
    lemma SpectrumShape()
      requires Valid()
      ensures evals.Some? <==> evecs.Some?
      ensures evals.Some? <==> ParamsSet()
      ensures evals.Some? ==> |evals.value| == Size() && Ascending(evals.value)
      ensures evecs.Some? ==> IsSquare(evecs.value, Size())
    {
      if ParamsSet() {
        assert SolverContract(HamDiag(ec.value, ng.value, diag), HamOff(ej.value, off), Diagonalization());
      }
    }

    /** `__init__`: a model with the given truncation and parameters. The solver is passed
        in because it is foreign code. */
    constructor (solve: Solver, nlevels: nat := 15, ej: Option<real> := None,
                 ec: Option<real> := None, ng: Option<real> := Some(0.5))
      ensures Valid()
      ensures this.solve == solve && this.nlevels == nlevels
      ensures this.ej == ej && this.ec == ec && this.ng == ng
    {
      this.solve := solve;
      new;
      Init(nlevels, ej, ec, ng);
    }

    /** The body of `__init__`, which the `nlevels` setter runs again. */
    method Init(nlevels: nat, ej: Option<real>, ec: Option<real>, ng: Option<real>)
      modifies this
      ensures Valid()
      ensures this.nlevels == nlevels && this.ej == ej && this.ec == ec && this.ng == ng
    {
      this.nlevels := nlevels;
      this.ej := ej;
      this.ec := ec;
      this.ng := ng;
      evals := None;
      evecs := None;
      GenOperators();
      CalcH();
    }

    /** `_gen_operators`: rebuild the basis arrays for the current truncation. */
    method GenOperators()
      modifies this`diag, this`off
      ensures BasisBuilt()
    {
      diag := Arange(-(nlevels as int), nlevels + 1);
      off := Ones(|diag| - 1);
    }

    /** `_calc_H`: clear the spectrum when a parameter is unset, otherwise diagonalize. */
    method CalcH()
      requires BasisBuilt()
      modifies this`evals, this`evecs
      ensures Valid()
      ensures evals.None? <==> !ParamsSet()
    {
      if ej.None? || ec.None? || ng.None? {
        evals := None;
        evecs := None;
      } else {
        DiagonalizeH();
      }
    }

    /** `_diagonalize_H`: solve the tridiagonal eigenproblem for the current state. */
    method DiagonalizeH()
      requires BasisBuilt() && ParamsSet()
      modifies this`evals, this`evecs
      ensures evals == Some(Diagonalization().w) && evecs == Some(Diagonalization().v)
      ensures Valid()
    {
      var hamDiag := HamDiag(ec.value, ng.value, diag);
      var hamOff := HamOff(ej.value, off);
      var r := solve(hamDiag, hamOff);
      evals := Some(r.w);
      evecs := Some(r.v);
    }

    /** The `Ej` setter: only Ej and the spectrum change. */
    method SetEj(value: Option<real>)
      requires Valid()
      modifies this`ej, this`evals, this`evecs
      ensures Valid()
      ensures ej == value && ec == old(ec) && ng == old(ng)
    {
      ej := value;
      CalcH();
    }

    /** The `Ec` setter: only Ec and the spectrum change. */
    method SetEc(value: Option<real>)
      requires Valid()
      modifies this`ec, this`evals, this`evecs
      ensures Valid()
      ensures ec == value && ej == old(ej) && ng == old(ng)
    {
      ec := value;
      CalcH();
    }

    /** The `ng` setter: only ng and the spectrum change. */
    method SetNg(value: Option<real>)
      requires Valid()
      modifies this`ng, this`evals, this`evecs
      ensures Valid()
      ensures ng == value && ej == old(ej) && ec == old(ec)
    {
      ng := value;
      CalcH();
    }

    /** The `nlevels` setter: rebuild the basis for the new truncation, keep the
        parameters, and recompute the spectrum. */
    method SetNLevels(value: nat)
      requires Valid()
      modifies this
      ensures Valid()
      ensures nlevels == value && ej == old(ej) && ec == old(ec) && ng == old(ng)
      ensures diag == ChargeIndices(value) && off == UnitCouplings(value)
    {
      nlevels := value;
      Init(value, ej, ec, ng);
    }

    /** `evalue_k`: the k-th eigenvalue, with Python's negative indexing. */
    function EvalueK(k: int): (r: Result<real, Error>)
      reads this
      ensures r.Ok? <==> evals.Some? && InRange(|evals.value|, k)
      ensures r.Err? ==> r.error == if evals.None? then Uninitialized else IndexOutOfRange
      ensures r.Ok? ==> r.value == evals.value[PyIndex(|evals.value|, k).value]
    {
      match evals
      case None => Err(Uninitialized)
      case Some(w) =>
        match PyIndex(|w|, k)
        case None => Err(IndexOutOfRange)
        case Some(i) => Ok(w[i])
    }

    /** `evec_k`: column k of the eigenvector matrix, with Python's negative indexing. */
    function EvecK(k: int): (r: Result<seq<real>, Error>)
      reads this
      requires Valid()
      ensures r.Ok? <==> evecs.Some? && InRange(|evecs.value|, k)
      ensures r.Err? ==> r.error == if evecs.None? then Uninitialized else IndexOutOfRange
      ensures r.Ok? ==> |r.value| == Size()
      ensures r.Ok? ==> forall row :: 0 <= row < |r.value| ==>
        r.value[row] == evecs.value[row][PyIndex(|evecs.value|, k).value]
    {
      SpectrumShape();
      match evecs
      case None => Err(Uninitialized)
      case Some(v) =>
        match PyIndex(|v|, k)
        case None => Err(IndexOutOfRange)
        case Some(c) =>
          assert IsSquare(v, |v|);
          Ok(seq(|v|, row requires 0 <= row < |v| => v[row][c]))
    }

    /** `fij`: the transition energy |E_i - E_j| between two eigenstates. */
    function Fij(i: int, j: int): (r: Result<real, Error>)
      reads this
      ensures r.Ok? <==> evals.Some? && InRange(|evals.value|, i) && InRange(|evals.value|, j)
      ensures r.Err? ==> r.error == if evals.None? then Uninitialized else IndexOutOfRange
      ensures r.Ok? ==> r.value >= 0.0
    {
      match EvalueK(i)
      case Err(e) => Err(e)
      case Ok(a) =>
        match EvalueK(j)
        case Err(e) => Err(e)
        case Ok(b) => Ok(Abs(a - b))
    }

    /** The transition energy is symmetric, failures included. */
    lemma FijSymmetric(i: int, j: int)
      ensures Fij(i, j) == Fij(j, i)
    {
    }

    /** A state has no transition energy to itself. */
    lemma FijSelf(i: int)
      requires evals.Some? && InRange(|evals.value|, i)
      ensures Fij(i, i) == Ok(0.0)
    {
    }

    /** On the ascending spectrum, the energy from state i up to state j >= i is the
        difference of their eigenvalues. */
    lemma FijOrdered(i: nat, j: nat)
      requires Valid() && evals.Some? && i <= j < Size()
      ensures Fij(i, j) == Ok(evals.value[j] - evals.value[i])
    {
      SpectrumShape();
    }

    /** Transition energies add up along the ladder i <= j <= k. */
    lemma FijAdditive(i: nat, j: nat, k: nat)
      requires Valid() && evals.Some? && i <= j <= k < Size()
      ensures Fij(i, k).Ok? && Fij(i, j).Ok? && Fij(j, k).Ok?
      ensures Fij(i, k).value == Fij(i, j).value + Fij(j, k).value
    {
      FijOrdered(i, k);
      FijOrdered(i, j);
      FijOrdered(j, k);
    }

    /** `anharm`: E12 - E01. */
    function Anharm(): (r: Result<real, Error>)
      reads this
      ensures r.Ok? <==> evals.Some? && |evals.value| >= 3
      ensures r.Err? ==> r.error == if evals.None? then Uninitialized else IndexOutOfRange
      ensures r.Ok? ==> r.value == Fij(1, 2).value - Fij(0, 1).value
    {
      // fij(1, 2) is evaluated first; once it succeeds, fij(0, 1) cannot fail
      match Fij(1, 2)
      case Err(e) => Err(e)
      case Ok(f12) => Ok(f12 - Fij(0, 1).value)
    }

    /** The anharmonicity exists exactly when the model is diagonalized with at least one
        charge state on each side of zero, and it is then the second difference of the
        three lowest eigenvalues. */
    lemma AnharmSecondDifference()
      requires Valid()
      ensures Anharm().Ok? <==> ParamsSet() && nlevels >= 1
      ensures Anharm().Ok? ==>
        Anharm().value == evals.value[2] - 2.0 * evals.value[1] + evals.value[0]
    {
      SpectrumShape();
      if Anharm().Ok? {
        FijOrdered(1, 2);
        FijOrdered(0, 1);
      }
    }

    /** `n_ij`: |<i|n|j>|, the charge-number matrix element between eigenstates i and j. */
    function NIj(i: int, j: int): (r: Result<real, Error>)
      reads this
      requires Valid()
      ensures r.Ok? <==> evecs.Some? && InRange(|evecs.value|, i) && InRange(|evecs.value|, j)
      ensures r.Err? ==> r.error == if evecs.None? then Uninitialized else IndexOutOfRange
      ensures r.Ok? ==> r.value >= 0.0
    {
      match EvecK(i)
      case Err(e) => Err(e)
      case Ok(u) =>
        match EvecK(j)
        case Err(e) => Err(e)
        case Ok(v) => Ok(Abs(Inner(u, ChargeIndices(nlevels), v)))
    }

    /** The number-operator element is symmetric in its two states, failures included. */
    lemma NIjSymmetric(i: int, j: int)
      requires Valid()
      ensures NIj(i, j) == NIj(j, i)
    {
      if NIj(i, j).Ok? {
        InnerSymmetric(EvecK(i).value, ChargeIndices(nlevels), EvecK(j).value);
      }
    }

    /** `h0_to_qutip` without the Qobj wrapper: the diagonal matrix of the first n
        eigenvalues (slice semantics for n) measured from the ground state. */
    function H0Matrix(n: int): (r: Result<seq<seq<real>>, Error>)
      reads this
      requires Valid()
      ensures r.Err? <==> evals.None?
      ensures r.Err? ==> r.error == Uninitialized
      ensures r.Ok? ==> IsSquare(r.value, SliceLen(Size(), n))
      ensures r.Ok? ==> forall a, b :: 0 <= a < |r.value| && 0 <= b < |r.value| && a != b ==>
        r.value[a][b] == 0.0
      ensures r.Ok? && |r.value| > 0 ==> r.value[0][0] == 0.0
      ensures r.Ok? ==> forall a :: 0 <= a < |r.value| ==> r.value[a][a] >= 0.0
      ensures r.Ok? ==> forall a, b :: 0 <= a <= b < |r.value| ==> r.value[a][a] <= r.value[b][b]
    {
      SpectrumShape();
      match evals
      case None => Err(Uninitialized)
      case Some(w) =>
        var k := SliceLen(|w|, n);
        Ok(seq(k, a requires 0 <= a < k =>
          seq(k, b requires 0 <= b < k => if a == b then w[a] - w[0] else 0.0)))
    }

    /** Each diagonal entry of the exported energy matrix is the transition energy from
        the ground state. */
    lemma H0DiagonalIsTransition(n: int, a: nat)
      requires Valid() && H0Matrix(n).Ok? && a < |H0Matrix(n).value|
      ensures Fij(0, a).Ok? && H0Matrix(n).value[a][a] == Fij(0, a).value
    {
      SpectrumShape();
      FijOrdered(0, a);
    }

    /** The entry of the exported number-operator matrix at (i, j). */
    function NEntry(i: nat, j: nat, thresh: Option<real>): (r: real)
      reads this
      requires Valid() && (i == j || NIj(i, j).Ok?)
      ensures i == j ==> r == 0.0
      ensures r >= 0.0
      ensures i != j && thresh.None? ==> r == NIj(i, j).value
      ensures thresh.Some? ==> r == 0.0 || r >= thresh.value
    {
      if i == j then 0.0 else Thresholded(NIj(i, j).value, thresh)
    }

    /** The exported number-operator matrix is symmetric. */
    lemma NEntrySymmetric(i: nat, j: nat, thresh: Option<real>)
      requires Valid() && (i == j || NIj(i, j).Ok?)
      ensures i != j ==> NIj(j, i).Ok?
      ensures NEntry(i, j, thresh) == NEntry(j, i, thresh)
    {
      NIjSymmetric(i, j);
    }

    /** `n_to_qutip` without the Qobj wrapper: the n-by-n number-operator matrix with a
        zero diagonal and, when thresh is given, the elements below it set to zero. It
        fails for a negative n, and for n >= 2 when the spectrum is absent or n exceeds
        the number of eigenstates; n = 0 and n = 1 never read the spectrum. */
    method NMatrix(n: int, thresh: Option<real> := None) returns (r: Result<seq<seq<real>>, Error>)
      requires Valid()
      ensures r.Err? <==> n < 0 || (n >= 2 && (evecs.None? || n > Size()))
      ensures r.Err? ==> r.error == (if n < 0 then NegativeDimension
                                     else if evecs.None? then Uninitialized
                                     else IndexOutOfRange)
      ensures r.Ok? ==> IsSquare(r.value, n)
      ensures r.Ok? ==> forall i, j :: 0 <= i < n && 0 <= j < n ==>
        (i == j || NIj(i, j).Ok?) && r.value[i][j] == NEntry(i, j, thresh)
    {
      SpectrumShape();
      if n < 0 {
        return Err(NegativeDimension);
      }
      var nOp := new real[n, n]((_, _) => 0.0);
      for i := 0 to n
        invariant forall a, b :: 0 <= a < i && 0 <= b < n ==>
          (a == b || NIj(a, b).Ok?) && nOp[a, b] == NEntry(a, b, thresh)
      {
        var e := FillRow(nOp, i, thresh);
        if e.Some? {
          return Err(e.value);
        }
      }
      if n >= 2 {
        assert NIj(0, 1).Ok? && NIj(0, n - 1).Ok?;
      }
      r := Ok(seq(n, a requires 0 <= a < n reads nOp =>
        seq(n, b requires 0 <= b < n reads nOp => nOp[a, b])));
    }

    /** The body of the inner loop of `n_to_qutip`: 0 on the diagonal, otherwise `n_ij`
        with the values below the threshold set to 0. */
    method CellValue(i: nat, j: nat, thresh: Option<real>) returns (r: Result<real, Error>)
      requires Valid()
      ensures r.Ok? <==> i == j || NIj(i, j).Ok?
      ensures r.Ok? ==> r.value == NEntry(i, j, thresh)
      ensures r.Err? ==> i != j && (evecs.None? || i >= |evecs.value| || j >= |evecs.value|)
      ensures r.Err? ==> r.error == if evecs.None? then Uninitialized else IndexOutOfRange
    {
      if i == j {
        return Ok(0.0);
      }
      var val := NIj(i, j);
      if val.Err? {
        return Err(val.error);
      }
      var v := val.value;
      if thresh.Some? && v < thresh.value {
        v := 0.0;
      }
      r := Ok(v);
    }

    /** The inner loop of `n_to_qutip`: fill row i of nOp, stopping at the first
        number-operator element that fails. */
    method FillRow(nOp: array2<real>, i: nat, thresh: Option<real>) returns (e: Option<Error>)
      requires Valid() && nOp.Length0 == nOp.Length1 && i < nOp.Length0
      modifies nOp
      ensures e.None? ==> forall b :: 0 <= b < nOp.Length1 ==>
        (i == b || NIj(i, b).Ok?) && nOp[i, b] == NEntry(i, b, thresh)
      ensures e.Some? ==> nOp.Length0 >= 2 && (evecs.None? || nOp.Length0 > |evecs.value|)
      ensures e.Some? ==> e.value == if evecs.None? then Uninitialized else IndexOutOfRange
      ensures forall a, b :: 0 <= a < nOp.Length0 && 0 <= b < nOp.Length1 && a != i ==>
        nOp[a, b] == old(nOp[a, b])
    {
      for j := 0 to nOp.Length1
        invariant forall b :: 0 <= b < j ==>
          (i == b || NIj(i, b).Ok?) && nOp[i, b] == NEntry(i, b, thresh)
        invariant forall a, b :: 0 <= a < nOp.Length0 && 0 <= b < nOp.Length1 && a != i ==>
          nOp[a, b] == old(nOp[a, b])
      {
        var val := CellValue(i, j, thresh);
        if val.Err? {
          return Some(val.error);
        }
        nOp[i, j] := val.value;
      }
      return None;
    }

    /** The residual `fun` of `params_from_spectrum`: set Ej and Ec to the trial values
        (each through its setter, so the spectrum is recomputed) and return the frequency
        residual and the anharmonicity residual scaled by 10. */
    method Residual(pej: real, pec: real, f01: real, anharm: real) returns (r: Result<seq<real>, Error>)
      requires Valid()
      modifies this`ej, this`ec, this`evals, this`evecs
      ensures Valid()
      ensures ej == Some(pej) && ec == Some(pec) && ng == old(ng)
      ensures r.Ok? <==> ng.Some? && nlevels >= 1
      ensures r.Err? ==> r.error == if ng.None? then Uninitialized else IndexOutOfRange
      ensures r.Ok? ==> r.value == [Fij(0, 1).value - f01, 10.0 * (Anharm().value - anharm)]
    {
      SetEj(Some(pej));
      SetEc(Some(pec));
      SpectrumShape();
      var f := Fij(0, 1);
      if f.Err? {
        return Err(f.error);
      }
      // an odd number of states: once E01 exists, so does E12
      var a := Anharm();
      assert a.Ok?;
      r := Ok([f.value - f01, 10.0 * (a.value - anharm)]);
    }
  }

  /** A box constraint of the fit. */
  datatype Bounds = Bounds(lo: real, hi: real)
  {
    predicate Contains(x: real)
    {
      lo <= x <= hi
    }
  }

  /** What `params_from_spectrum` hands the optimizer: the sign-normalised target
      anharmonicity, the initial guess and the bounds for Ej and Ec. */
  datatype FitStart = FitStart(anharm: real, ej0: real, ec0: real, ejBounds: Bounds, ecBounds: Bounds)

  /** The pre-processing of `params_from_spectrum`. A target anharmonicity of zero makes
      the initial guess divide by zero. */
  function FitSetup(f01: real, anharm: real): (r: Result<FitStart, Error>)
    ensures r.Err? <==> anharm == 0.0
    ensures r.Err? ==> r.error == ZeroDivision
    ensures r.Ok? ==> r.value.anharm == -Abs(anharm) && r.value.anharm < 0.0
    ensures r.Ok? ==> r.value.ec0 == -r.value.anharm && r.value.ec0 > 0.0 && r.value.ej0 >= 0.0
    ensures r.Ok? ==> r.value.ejBounds == Bounds(0.0, 1.5 * r.value.ej0)
    ensures r.Ok? ==> r.value.ecBounds == Bounds(0.0, 1.5 * r.value.ec0)
    ensures r.Ok? ==> r.value.ejBounds.Contains(r.value.ej0) && r.value.ecBounds.Contains(r.value.ec0)
  {
    var a := if anharm > 0.0 then -anharm else anharm;
    if a == 0.0 then Err(ZeroDivision)
    else
      var ej0 := Square(f01 - a) / (8.0 * -a);
      var ec0 := -a;
      Ok(FitStart(a, ej0, ec0, Bounds(0.0, 1.5 * ej0), Bounds(0.0, 1.5 * ec0)))
  }

  /** The weak-anharmonicity (transmon) approximation of the spectrum:
      f01 = sqrt(8 Ej Ec) - Ec and anharm = -Ec. */
  predicate TransmonApprox(ej: real, ec: real, f01: real, anharm: real)
  {
    anharm == -ec && f01 + ec >= 0.0 && Square(f01 + ec) == 8.0 * ej * ec
  }

  /** The initial guess is the exact inverse of the transmon approximation: for a target
      with f01 + |anharm| >= 0 it is the one (Ej, Ec) whose approximate spectrum is the
      normalised target. */
  lemma InitialGuessInvertsTransmon(f01: real, anharm: real, ej: real, ec: real)
    requires anharm != 0.0 && f01 + Abs(anharm) >= 0.0
    ensures FitSetup(f01, anharm).Ok?
    ensures TransmonApprox(FitSetup(f01, anharm).value.ej0, FitSetup(f01, anharm).value.ec0,
                           f01, FitSetup(f01, anharm).value.anharm)
    ensures TransmonApprox(ej, ec, f01, FitSetup(f01, anharm).value.anharm) ==>
      ej == FitSetup(f01, anharm).value.ej0 && ec == FitSetup(f01, anharm).value.ec0
  {
    var s := FitSetup(f01, anharm).value;
    var q := Square(f01 - s.anharm);
    assert s.ej0 * (8.0 * s.ec0) == q;
    if TransmonApprox(ej, ec, f01, s.anharm) {
      assert ec == s.ec0;
      assert ej * (8.0 * s.ec0) == q;
    }
  }
}
