# Cooper pair box (`Hcpb`) in Dafny

This project models the `Hcpb` class of TransmonDesign. The class describes a superconducting charge qubit, the Cooper pair box, in a charge basis truncated to the states `-nlevels, ..., nlevels`. It holds three parameters: the Josephson energy `Ej`, the charging energy `Ec` and the offset charge `ng`. Any of them may be unset (`None`).

The class keeps the spectrum of the tridiagonal Hamiltonian cached. The diagonal entries are `4·Ec·(n − ng)²` and the off-diagonal entries are `−Ej/2`. The spectrum is recomputed whenever a parameter setter runs. From it the class derives:

- transition energies;
- the anharmonicity;
- number-operator matrix elements;
- the two matrices it exports: the energy matrix referenced to the ground state, and the thresholded number-operator matrix.

It also does the set-up for the inverse fit, from a target `(f01, anharm)` back to `(Ej, Ec)`.

Layout:

- `wrappers.dfy` (`Wrappers`): `Option` for Python's `None`, and `Result` for calls that raise.
- `charge_basis.dfy` (`ChargeBasis`): the basis arrays `_diag` and `_off`, and the Hamiltonian entries `ham_diag` and `ham_off`.
- `eigensolver.dfy` (`Eigensolver`): what is assumed of the foreign solver `scipy.linalg.eigh_tridiagonal`. It returns as many eigenvalues as the diagonal has entries, in ascending order, together with a square eigenvector matrix. A `Solver` is any total function with that property. The class receives one at construction and keeps it as a constant. Because a function is deterministic, "the cache is never stale" has an exact meaning: the cached spectrum equals the solver's result for the current parameters. This holds for every change made through the class's own operations; writes through the eigenvector column that `evec_k` returns are not modelled (see "## Left out").
- `cooper_pair_box.dfy` (`CooperPairBox`): the class `Hcpb`, with fields `nlevels`, `ej`, `ec`, `ng`, `evals`, `evecs`, `diag` and `off`. Its object invariant `Valid()` has two parts, `BasisBuilt()` and `CacheFresh()`. The module also models the derived quantities, the two exports, the fit set-up and the residual.

All arithmetic is exact `real` arithmetic. Python exceptions become `Err` values of `Error`:

- `Uninitialized`: the spectrum is `None`.
- `IndexOutOfRange`: numpy raises `IndexError`.
- `NegativeDimension`: `np.zeros` is given a negative size.
- `ZeroDivision`: the initial guess divides by zero.

Behaviour of the model at its edges:

- Eigenstate indices follow Python indexing, so a negative index counts from the end. Only indices outside `[-(2N+1), 2N]` fail.
- The spectrum is absent when any of `Ej`, `Ec`, `ng` is `None`.
- The fit does not reject a non-positive target frequency.
- A truncation of 0 is accepted.
- `n_to_qutip` with `n_transmon` of 0 or 1 never reads the spectrum. It succeeds even when the model is uninitialized.

## Model

| member | source | states |
|---|---|---|
| `ChargeBasis.Arange` | TransmonDesign/cooperpairbox.py:60 | numpy `arange(lo, hi)`: `max(0, hi − lo)` elements, the i-th being `lo + i` |
| `ChargeBasis.ChargeIndices` | TransmonDesign/cooperpairbox.py:60 | `_diag` has `2N+1` entries, `_diag[i] = i − N`, runs from `−N` to `N`, is strictly increasing and is mirror-symmetric about 0 |
| `ChargeBasis.UnitCouplings` | TransmonDesign/cooperpairbox.py:61 | `_off` has one entry fewer than `_diag`, and every entry is 1 |
| `ChargeBasis.ChargingEnergy` | TransmonDesign/cooperpairbox.py:80 | `4·Ec·x²` is non-negative when `Ec ≥ 0` |
| `ChargeBasis.HamDiag` | TransmonDesign/cooperpairbox.py:80 | `ham_diag` has the length of `_diag`, and every entry is `≥ 0` when `Ec ≥ 0` |
| `ChargeBasis.HamOff` | TransmonDesign/cooperpairbox.py:81 | `ham_off` has the length of `_off` |
| `ChargeBasis.HamiltonianEntries` | TransmonDesign/cooperpairbox.py:80-81 | for truncation N the solver gets `2N+1` diagonal entries `4·Ec·(i−N−ng)²` and `2N` off-diagonal entries `−Ej/2` |
| `ChargeBasis.HamDiagMirror` | TransmonDesign/cooperpairbox.py:80 | reversing the charge basis turns the diagonal for `ng` into the diagonal for `−ng` |
| `CooperPairBox.PyIndex` | TransmonDesign/cooperpairbox.py:96 | Python indexing: defined exactly for `−m ≤ k < m`; it reads position `k` for `k ≥ 0` and position `m + k`, counted from the end, for negative `k` |
| `CooperPairBox.SliceLen` | TransmonDesign/cooperpairbox.py:210 | `len(a[:n])`: at most `len(a)`, exactly `n` when `0 ≤ n ≤ len(a)`, and `len(a)+n` clamped at 0 for negative `n` |
| `CooperPairBox.InnerVanishes` | TransmonDesign/cooperpairbox.py:179-180 | the summed product `Σ u[r]·n[r]·v[r]` of `n_ij` (the function `Inner`) is 0 when either vector or the charge weights are all 0 |
| `CooperPairBox.InnerSymmetric` | TransmonDesign/cooperpairbox.py:178-181 | the summed product `Σ u[r]·n[r]·v[r]` is symmetric in `u` and `v` |
| `CooperPairBox.Thresholded` | TransmonDesign/cooperpairbox.py:239-242 | without a threshold the value is kept; with one it becomes 0 exactly when it is below the threshold (or 0), so the result is 0 or `≥ thresh` |
| `CooperPairBox.Hcpb.Diagonalization` | TransmonDesign/cooperpairbox.py:80-82 | the solver's result for `ham_diag`/`ham_off` of the current state; on the built basis it has `2N+1` ascending eigenvalues and a `(2N+1)×(2N+1)` eigenvector matrix |
| `CooperPairBox.Hcpb.SpectrumShape` | TransmonDesign/cooperpairbox.py:69-84 | in every valid state `evals` and `evecs` are both present or both absent; they are absent exactly when `Ej`, `Ec` or `ng` is unset; when present there are `2N+1` ascending eigenvalues and a `(2N+1)×(2N+1)` eigenvector matrix |
| `CooperPairBox.Hcpb.constructor` | TransmonDesign/cooperpairbox.py:31-52 | a new model (defaults: `nlevels = 15`, `Ej = Ec = None`, `ng = 0.5`) holds the given parameters, a basis built for `nlevels` and a fresh spectrum |
| `CooperPairBox.Hcpb.Init` | TransmonDesign/cooperpairbox.py:42-52 | re-running `__init__` stores the parameters, rebuilds the basis and re-establishes the cache invariant |
| `CooperPairBox.Hcpb.GenOperators` | TransmonDesign/cooperpairbox.py:54-61 | rebuilds `_diag` and `_off` for the current truncation and changes nothing else |
| `CooperPairBox.Hcpb.CalcH` | TransmonDesign/cooperpairbox.py:63-73 | changes only the spectrum; afterwards the spectrum is absent exactly when a parameter is unset, and otherwise is the solver's result for the current state |
| `CooperPairBox.Hcpb.DiagonalizeH` | TransmonDesign/cooperpairbox.py:75-84 | stores the solver's eigenvalues and eigenvectors for `ham_diag` and `ham_off`; no other field changes |
| `CooperPairBox.Hcpb.SetEj` | TransmonDesign/cooperpairbox.py:321-325 | sets `Ej` (possibly to `None`), changes nothing but `Ej` and the spectrum, and leaves the cache fresh |
| `CooperPairBox.Hcpb.SetEc` | TransmonDesign/cooperpairbox.py:332-336 | sets `Ec`, changes nothing but `Ec` and the spectrum, and leaves the cache fresh |
| `CooperPairBox.Hcpb.SetNg` | TransmonDesign/cooperpairbox.py:343-347 | sets `ng`, changes nothing but `ng` and the spectrum, and leaves the cache fresh |
| `CooperPairBox.Hcpb.SetNLevels` | TransmonDesign/cooperpairbox.py:307-314 | rebuilds `_diag`/`_off` for the new truncation, keeps `Ej`, `Ec` and `ng`, and recomputes the spectrum |
| `CooperPairBox.Hcpb.EvalueK` | TransmonDesign/cooperpairbox.py:86-96 | the k-th eigenvalue; it fails with `Uninitialized` when there is no spectrum and with `IndexOutOfRange` outside Python's index range |
| `CooperPairBox.Hcpb.EvecK` | TransmonDesign/cooperpairbox.py:98-110 | column k of the eigenvector matrix, of length `2N+1`, with the same failure cases |
| `CooperPairBox.Hcpb.Fij` | TransmonDesign/cooperpairbox.py:141-153 | the transition energy is defined exactly when the spectrum is present and both indices are valid, and then it is `≥ 0` |
| `CooperPairBox.Hcpb.FijSymmetric` | TransmonDesign/cooperpairbox.py:153 | `fij(i, j) = fij(j, i)`, failures included |
| `CooperPairBox.Hcpb.FijSelf` | TransmonDesign/cooperpairbox.py:153 | `fij(i, i) = 0` for every valid index |
| `CooperPairBox.Hcpb.FijOrdered` | TransmonDesign/cooperpairbox.py:153 | for `0 ≤ i ≤ j ≤ 2N`, `fij(i, j) = evals[j] − evals[i]`, because the spectrum is ascending |
| `CooperPairBox.Hcpb.FijAdditive` | TransmonDesign/cooperpairbox.py:153 | transition energies add along the ladder: `fij(i,k) = fij(i,j) + fij(j,k)` for `i ≤ j ≤ k` |
| `CooperPairBox.Hcpb.Anharm` | TransmonDesign/cooperpairbox.py:155-162 | `anharm() = fij(1,2) − fij(0,1)`; it is defined exactly when the spectrum has at least three levels |
| `CooperPairBox.Hcpb.AnharmSecondDifference` | TransmonDesign/cooperpairbox.py:162 | `anharm()` is defined exactly when every parameter is set and `N ≥ 1`, and it equals `E2 − 2·E1 + E0` |
| `CooperPairBox.Hcpb.NIj` | TransmonDesign/cooperpairbox.py:164-181 | `n_ij` is defined exactly when the eigenvectors are present and both indices are valid, and then it is `≥ 0` |
| `CooperPairBox.Hcpb.NIjSymmetric` | TransmonDesign/cooperpairbox.py:178-181 | `n_ij(i, j) = n_ij(j, i)`, failures included |
| `CooperPairBox.Hcpb.H0Matrix` | TransmonDesign/cooperpairbox.py:197-211 | `h0_to_qutip(n)` fails exactly when there is no spectrum; otherwise it is a square diagonal matrix of size `len(evals[:n])` with entry `[0][0] = 0`, and its diagonal entries are non-negative and non-decreasing |
| `CooperPairBox.Hcpb.H0DiagonalIsTransition` | TransmonDesign/cooperpairbox.py:210 | the diagonal entry `[k][k]` of the energy matrix is `fij(0, k)` |
| `CooperPairBox.Hcpb.NEntry` | TransmonDesign/cooperpairbox.py:235-242 | an entry of the exported number operator: zero on the diagonal, non-negative, equal to `n_ij` without a threshold, and 0 or `≥ thresh` with one |
| `CooperPairBox.Hcpb.NEntrySymmetric` | TransmonDesign/cooperpairbox.py:235-242 | the exported number-operator matrix is symmetric: entry `(i, j)` equals entry `(j, i)` |
| `CooperPairBox.Hcpb.CellValue` | TransmonDesign/cooperpairbox.py:235-242 | the body of the inner loop: 0 on the diagonal, otherwise `n_ij` with values below `thresh` set to 0; it succeeds exactly when the entry exists, and otherwise fails only because the spectrum is absent or an index is out of range |
| `CooperPairBox.Hcpb.FillRow` | TransmonDesign/cooperpairbox.py:234-242 | the inner loop fills row i with the entries, leaves the other rows alone, and stops at the first `n_ij` that fails, which happens only for `n ≥ 2` when the spectrum is absent or `n > 2N+1` |
| `CooperPairBox.Hcpb.NMatrix` | TransmonDesign/cooperpairbox.py:213-243 | `n_to_qutip(n, thresh)` (with `thresh` defaulting to none) fails exactly when `n < 0`, or when `n ≥ 2` and the spectrum is absent or `n > 2N+1`; otherwise it returns the `n×n` matrix of exported entries |
| `CooperPairBox.Hcpb.Residual` | TransmonDesign/cooperpairbox.py:276-282 | the residual leaves `Ej`/`Ec` at the trial values with a fresh spectrum and `ng` unchanged; it returns `[fij(0,1) − f01, 10·(anharm() − target)]`, and it fails exactly when `ng` is unset or `N = 0` |
| `CooperPairBox.FitSetup` | TransmonDesign/cooperpairbox.py:273-294 | the target anharmonicity becomes `−|anharm|`; the guess is `Ec0 = −anharm > 0` and `Ej0 ≥ 0`; both bounds are `[0, 1.5·guess]` and contain their guesses; a zero target anharmonicity fails with `ZeroDivision` |
| `CooperPairBox.InitialGuessInvertsTransmon` | TransmonDesign/cooperpairbox.py:286 | the initial guess is the unique `(Ej, Ec)` whose transmon approximation (`f01 = √(8·Ej·Ec) − Ec`, `anharm = −Ec`) gives the normalised target |

## Left out

- The solver's numerics: `eigh_tridiagonal` appears only through its assumed contract (size, ascending order, square eigenvector matrix). Orthonormality and the eigen-equation are not modelled, so nothing here rests on them.
- Diagonal elements of `n_ij`: `n_ij(i, i)` is the mean charge of state i and is not 0 in general. For N = 1, Ej = 0, Ec = 1, ng = 0.25 the eigenstates are charge states and `n_ij(1, 1) = 1`. `n_to_qutip` sets its own diagonal to 0, as `NEntry` states. At ng = 0 the charging diagonal is mirror-symmetric (`HamDiagMirror` with `-ng = ng`), and for non-degenerate levels that makes `n_ij(i, i)` vanish. That consequence needs the eigen-equation, which the solver contract does not describe, so it is not proved.
- Hcpb.EvecK: the model returns column k as a value. In the source, `self.evecs[:, k]` is a numpy view that aliases the cached `evecs`, so a caller writing into it changes the cache without any setter running and can make it stale. That aliasing is not modelled.
- `psi_k`: complex-exponential Fourier synthesis. It is transcendental and complex-valued, and its normalisation is only approximate.
- `phi_ij`: it calls `np.diag` on a scalar, which numpy rejects, so the method has no defined behaviour.
- The `lmfit.minimize` call in `params_from_spectrum`: a foreign least-squares routine. Its convergence, the `verbose` result object and the `**kwargs` pass-through are not modelled. Only the set-up and the residual are modelled.
- The `qt.Qobj` wrapping in `h0_to_qutip` and `n_to_qutip`: a third-party object model. Plain `seq<seq<real>>` matrices are returned instead.
- `SingleQubitLoss.py`: two closed-form formulas over a caller-supplied noise spectrum. The file has no state to verify and is not part of this model.
- Floating-point rounding, and all tolerance-based claims: periodicity in `ng`, charge dispersion and fit accuracy.
- A negative `nlevels`: in the source `np.ones` then raises. The model types `nlevels` as `nat`.
- The property getters (`Ej`, `Ec`, `ng`, `nlevels`): they only return a field, and the fields are readable directly.
- The `np.conj` and `np.real` calls: the solver's eigenvectors and eigenvalues are real, so both calls are the identity here.
- A zero target anharmonicity in `params_from_spectrum`: with Python numbers the division raises `ZeroDivisionError`, which is what is modelled. With numpy scalars the divisor is `8·(−0.0)`, so the guess would be `−inf` with a warning, or `nan` when `f01 = 0`.
