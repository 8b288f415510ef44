# unitCell — a verified model of the unit cell of a 1D crystal

This project models the `unitCell` class of a simulation toolkit for ultrafast dynamics in layered
structures. A unit cell has:

- a c-axis and the a- and b-axes that span its area;
- per-subsystem thermal properties given as numbers or lambda texts;
- a list of atoms at strain-dependent positions, from which mass, density and spring constant are
  derived;
- lazily integrated heat capacity and linear thermal expansion;
- per-simulation-type views of its attributes.

Python's `eval`, the `'{:f}'`/`'{:e}'` number formatting and sympy's `integrate`/`lambdify` are not
modelled. They are the fields of an `Evaluator` value (`Runtime.Evaluator`), and every property
below holds for every evaluator. A few lemmas also assume `ReadsLiterals(ev)`: `eval` reads the
numeric lambda texts the cell generates as Python does.

Modules:

- `Runtime`:
  - the Python values a cell is configured with;
  - the exceptions it raises, as `Result`/`Outcome`;
  - the evaluator.
- `CellInput`: `checkCellArrayInput`. It is specified by the function `Resolve` and implemented by
  the loop `CheckCellArrayInput`.
- `Integration`: the symbolic integration loop of the two integrated-property getters. It is
  specified by `Integrated` and implemented by `IntegrateAll`.
- `Atoms`: the triples `addAtom` stores, the mass sum, and the first-seen dedup of atom IDs.
- `PropertyTable`: the static table of `getPropertyStruct`.
- `UnitCells`: the class `UnitCell`, with:
  - `const` geometry;
  - `seq` fields for the atoms, the spring constants and the property lists;
  - an `Option` field per integrated-property cache.

  `Valid()` is the invariant every method keeps:
  - the callables stay in step with their texts;
  - the subsystem lists have equal length;
  - `area = aAxis*bAxis` and `volume = area*cAxis`;
  - for a non-zero area, `Derived()`: `density = Σm/volume`, `mass = Σm·1Å²/area` and
    `springConst[0] = mass·(soundVel/cAxis)²`.

Two behaviours of the code worth noting:

- The acoustic impedance is `sqrt(springConst[0]*mass/area**2)` in the code. For a negative area
  this is `sqrt(k m)/|area|`, not `sqrt(k m)/area`. The model states the square and the sign, which
  is what the code computes.
- `__init__` assigns `soundVel` through its property setter, which calls `calcSpringConst` and
  divides by the c-axis. So a zero c-axis raises `ZeroDivisionError` before any property list is
  checked (`UnitCells.Construction`).

## Model

| member | source | states |
|---|---|---|
| CellInput.ResolveItem | unitCell.py:242-260 | a kept element's callable is what `eval` makes of its text; a function value raises (function text required); a list or other type raises |
| CellInput.Resolve | unitCell.py:228-262 | a successful resolution gives callable and text lists of equal length, each callable the evaluation of its text, no longer than the input |
| CellInput.CheckCellArrayInput | unitCell.py:228-262 | the traversal loop (non-list wrapped into a one-element list, elements in order, early raise) returns exactly `Resolve` of the wrapped input |
| CellInput.ResolveErrPersists | unitCell.py:240-260 | once an element raises, the rest of the list does not change the exception |
| CellInput.ResolveRaisesAtFirstBadElement | unitCell.py:240-260 | the list raises iff some element raises, and then with the exception of the first such element |
| CellInput.ResolveKeepsInputOrder | unitCell.py:236-262 | entry k of the output comes from the k-th kept element, in increasing input order, with that element's own text; an element is kept iff it is a number or a text that evaluates |
| CellInput.ResolveCompleteIffAllKept | unitCell.py:246-256 | output length equals input length iff no element is dropped |
| CellInput.NumbersAndTextsAreAccepted | unitCell.py:240-260 | an element raises iff it is neither a number nor a text; a text is dropped iff its `eval` raises |
| CellInput.NumberBecomesConstantFunction | unitCell.py:238-256 | a single number v gives one entry with text `'lambda T: {:f}'` of v whose callable is the constant v rounded to six decimals |
| CellInput.TextIsKeptVerbatimOrDropped | unitCell.py:238-253 | a single text is kept verbatim with its evaluation, or leaves both lists empty when `eval` raises |
| Integration.UpToColon | unitCell.py:281 | the result has no colon, is a prefix of the text, and is followed by a colon when shorter |
| Integration.IntegrandIsBetweenColons | unitCell.py:281 | `split(':')[1]` of `label:body` or `label:body:...` is `body` |
| Integration.Integrated | unitCell.py:280-283 | integrated callables and texts have equal length, at most one per source text |
| Integration.IntegratedIsPrefixBeforeFailure | unitCell.py:276-291 | entry k is source text k integrated (`'lambda T : '` + antiderivative); the list stops exactly at the first text whose integration raises; it is complete iff every text integrates |
| Integration.IntegrateAll | unitCell.py:276-291 | the append loop with early exit on the first exception returns exactly `Integrated` |
| Atoms.PlaceAtom | unitCell.py:344-373 | the appended triple keeps the atom and a position that is the evaluation of the stored text (or that text itself when `eval` raises); a text position is stored verbatim; a function value or another type raises before anything is appended |
| Atoms.NumericPositionScalesWithStrain | unitCell.py:363-365 | a numeric position p is stored as `'lambda strain: {:e}*(strain+1)'` of p, and its function is p(rounded)·(strain+1) |
| Atoms.PlaceAtomRaisesIff | unitCell.py:352-373 | addAtom raises iff the position is neither a number nor a text |
| Atoms.TotalMassAppend | unitCell.py:379-381 | appending an atom adds its mass to the summed mass |
| Atoms.TotalMassPositive | unitCell.py:379-381 | with positive atomic masses the sum is non-negative, and zero iff there are no atoms |
| Atoms.FirstIndex | unitCell.py:444-447 | the index of the first occurrence of a value |
| Atoms.DedupSameValuesOnce | unitCell.py:438-449 | the deduplicated IDs contain every ID of the atoms, no other value, and each once |
| Atoms.DedupFirstSeenOrder | unitCell.py:438-449 | the deduplicated IDs appear in the order of their first occurrence |
| PropertyTable.FieldsOf | unitCell.py:211-216 | a field list exists exactly for `heat`, `phonon`, `XRD` and `optical`, and each contains `cAxis` |
| UnitCells.HarmonicSpringConstant | unitCell.py:397-405 | k = m·(v/c)² is zero iff the mass or the sound velocity is, and non-negative for a non-negative mass |
| UnitCells.Construction | unitCell.py:95-123 | a zero c-axis raises ZeroDivisionError; otherwise the first of the four specifications (in `__init__`'s order) whose resolution raises decides the exception; when all four resolve, the length mismatch is raised iff their lengths differ, and success returns exactly the four resolved lists, each in step with its texts and of one length |
| UnitCells.DefaultsGiveOneSubsystem | unitCell.py:108-120 | with no keyword arguments each of the four properties is one entry with text `'lambda T: {:f}'` of 0 whose callable is the constant 0 (rounded), so there is one subsystem |
| UnitCells.MismatchedSubsystemsRejected | unitCell.py:117-123 | two heat capacities against one of every other property raise the length mismatch |
| UnitCells.UnitCell.constructor | unitCell.py:91-126 | given lists that pass the checks (non-zero c-axis, in step with their texts, of one length): axes defaulted (`aAxis` to `cAxis`, `bAxis` to `aAxis`), area and volume, no atoms, zero mass, density and spring constant, the scalar options stored, the lists and their count, no cached integrals; the invariant holds |
| UnitCells.UnitCell.Create | unitCell.py:71-126 | `__init__` raises iff its checks do, with their exception; otherwise a fresh valid cell with the defaulted axes, no atoms, zero mass, density and spring constant, every scalar option (`debWalFac`, `soundVel`, `phononDamping`, `optPenDepth`, `optRefIndex`, `optRefIndexPerStrain`) as given, the resolved texts, their count and empty caches |
| UnitCells.UnitCell.CalcSpringConst | unitCell.py:397-405 | only index 0 of the spring constants changes, to m·(v/c)² |
| UnitCells.UnitCell.SetSoundVel | unitCell.py:417-424 | stores the velocity, recomputes index 0 from it, leaves the rest of the spring constants, the mass and the atoms alone, and keeps the invariant |
| UnitCells.UnitCell.SetHOSpringConstants | unitCell.py:426-436 | the new spring constants are the old harmonic term followed by the given higher orders |
| UnitCells.UnitCell.AddAtom | unitCell.py:344-386 | one triple is appended and the atom count grows by one, or nothing changes on a raise; for a non-zero area mass, density and harmonic spring constant are rederived from all atoms and the higher orders are kept; for a zero area the raw mass sum is stored and the division raises |
| UnitCells.UnitCell.UpdateMassDensitySpring | unitCell.py:379-386 | the summing loop and the three updates: density from the raw sum, mass per square angstrom, then the spring constant from the normalised mass |
| UnitCells.UnitCell.AddMultipleAtoms | unitCell.py:388-395 | nb successive addAtom calls: for nb <= 0 nothing changes; a rejected position raises on the first call with nothing appended; for a non-zero area nb copies of the same triple are appended, mass, density and harmonic spring constant rederived and the higher orders kept; for a zero area one triple is appended, the raw mass sum stored and the division raises, density and spring constants unchanged |
| UnitCells.Impedance | unitCell.py:407-411 | the closed form is a non-negative z with z² = k·m/area² |
| UnitCells.ImpedanceIsUnique | unitCell.py:407-411 | at most one value satisfies that relation, so it determines the square root |
| UnitCells.ImpedanceSquares | unitCell.py:397-411 | \|m·v/c\|/\|area\| squares to m·(v/c)²·m/area² |
| UnitCells.UnitCell.GetAcousticImpedance | unitCell.py:407-411 | a value exists iff the area is non-zero, and then it is the non-negative square root of springConst[0]·mass/area² |
| UnitCells.UnitCell.GetAtomIDs | unitCell.py:438-449 | the loop returns the first-seen dedup of the atom IDs: every ID, each once |
| UnitCells.UnitCell.GetAtomPositions | unitCell.py:451-467 | one value per atom, atom k's position function at the strain; a TypeError iff some stored position is text |
| UnitCells.UnitCell.GetIntHeatCapacity | unitCell.py:264-293 | a cached list is returned unchanged; otherwise the heat capacity texts are integrated once and cached, failure included |
| UnitCells.UnitCell.SetIntHeatCapacity | unitCell.py:295-302 | the cache becomes the resolved specification, or stays as it was when resolution raises |
| UnitCells.UnitCell.GetIntLinThermExp | unitCell.py:304-333 | as for the heat capacity, over the linear thermal expansion texts |
| UnitCells.UnitCell.SetIntLinThermExp | unitCell.py:335-342 | as for the heat capacity setter |
| UnitCells.ReadIntHeatCapacityTwice | unitCell.py:273-274 | two reads with no set between hand out the same list; from an empty cache that is the integration of the texts |
| UnitCells.UnitCell.Attributes | unitCell.py:219 | the attribute names are the fixed ones plus the integrated-property entries exactly when they are cached |
| UnitCells.UnitCell.GetPropertyStruct | unitCell.py:202-226 | `all` gives every attribute; a known type gives the attributes in its field list with their values; any other or missing type raises KeyError |
| UnitCells.OpticalStructIsExact | unitCell.py:215-224 | the optical view has exactly `cAxis`, `optPenDepth`, `optRefIndex`, `optRefIndexPerStrain` |
| UnitCells.IntegratedTextsShownOnceCached | unitCell.py:212-224 | the heat view lists the integrated heat capacity texts iff they are cached; likewise the phonon view for thermal expansion |
| UnitCells.EmptyCellDerived | unitCell.py:97-126 | a cell without atoms satisfies the derived-quantity relations for any non-zero area |

## Left out

- `eval`, the `{:f}`/`{:e}` formatting and sympy `integrate`/`lambdify` are foreign functions. They
  are fields of `Evaluator`. A `lambdify` failure is folded into `integrate` returning None.
- Floating point: every quantity is a `real`. `1*u.angstrom**2` of the `numericalunits` package is
  the constant 1e-20.
- `springConst` starts as `np.array([0])` with an integer dtype, so numpy truncates stored values
  until `setHOspringConstants` stacks floats in. The model stores reals and does not capture that
  truncation.
- `UnitCells.UnitCell.GetAcousticImpedance`: `np.sqrt` yields inf or nan for a zero area. The model
  returns None there and states the result only by its square and sign.
- `__str__` and `visualize` (display and plotting) are not part of this model. Neither are the
  `print` calls that report skipped texts or failed integrations; only the resulting control flow
  is modelled.
- `UnitCells.UnitCell.GetAtomPositions` takes a single real strain. The source's default of 0
  becomes the caller passing 0.0. Broadcasting a tuple of strains through numpy is not modelled.
- `UnitCells.UnitCell.GetPropertyStruct` returns a copy of the attributes. It does not capture that
  `'all'` hands out the live `vars(self)` dictionary, which aliases the object.
- Attribute assignment in Python can add new fields at any time. The model fixes the attribute set
  to the fields the class assigns, and the axes, area and volume are `const`.
- `optRefIndex` and `optRefIndexPerStrain` are kept as the Python values given. Values stored by
  `eval` are modelled as real functions, whatever `eval` actually returned.
- A bool counts as a number, as `isinstance(x, (int, float))` does in Python.
