/**
 * The unit cell: geometry, per-subsystem thermal properties, the atom list
 * and the quantities derived from it, the lazily integrated properties, and
 * the per-type property views.
 */
module UnitCells {
  import opened Runtime
  import opened CellInput
  import opened Integration
  import opened Atoms
  import opened PropertyTable

  /** 1 square angstrom in square metres: the area the cell mass is normalised to. */
  const AngstromSquared: real := 0.00000000000000000001

  function Square(x: real): real {
    x * x
  }

  function Abs(x: real): real {
    if x < 0.0 then -x else x
  }

  /** The spring constant k = m (v / c)^2 of calcSpringConst. */
  function HarmonicSpringConstant(mass: real, soundVel: real, cAxis: real): (k: real)
    requires cAxis != 0.0
    ensures k == 0.0 <==> mass == 0.0 || soundVel == 0.0
    ensures mass >= 0.0 ==> k >= 0.0
  {
    var ratio := soundVel / cAxis;
    assert ratio == 0.0 <==> soundVel == 0.0;
    mass * Square(ratio)
  }

  /** The keyword arguments of the constructor; absent axes default to the c-axis and the a-axis. */
  datatype CellOptions = CellOptions(
    aAxis: Option<real>,
    bAxis: Option<real>,
    debWalFac: real,
    soundVel: real,
    phononDamping: real,
    optPenDepth: real,
    optRefIndex: PyValue,
    optRefIndexPerStrain: PyValue,
    heatCapacity: PyValue,
    thermCond: PyValue,
    linThermExp: PyValue,
    subSystemCoupling: PyValue)

  /** No keyword arguments at all. */
  const Defaults := CellOptions(None, None, 0.0, 0.0, 0.0, 0.0,
                                PyInt(0), PyInt(0), PyInt(0), PyInt(0), PyInt(0), PyInt(0))

  /** The four resolved per-subsystem property lists. */
  datatype Subsystems = Subsystems(
    heatCapacity: Handles,
    thermCond: Handles,
    linThermExp: Handles,
    subSystemCoupling: Handles)

  /**
   * What the checks of __init__ guarantee: a non-zero c-axis, and four lists
   * of one length whose callables are the evaluations of their texts.
   */
  ghost predicate Admissible(ev: Evaluator, cAxis: real, subs: Subsystems) {
    var n := |subs.heatCapacity.fns|;
    cAxis != 0.0 &&
    InSync(ev, subs.heatCapacity) && InSync(ev, subs.thermCond) &&
    InSync(ev, subs.linThermExp) && InSync(ev, subs.subSystemCoupling) &&
    |subs.thermCond.fns| == n && |subs.linThermExp.fns| == n &&
    |subs.subSystemCoupling.fns| == n
  }

  /**
   * The checks of __init__, in its order: the sound-velocity setter divides
   * by the c-axis, then the four specifications are resolved, then their
   * lengths are compared.
   */
  function Construction(ev: Evaluator, cAxis: real, opts: CellOptions): (r: Result<Subsystems>)
    ensures cAxis == 0.0 ==> r == Err(ZeroDivision)
    ensures var hc := Resolve(ev, CellArrayItems(opts.heatCapacity));
      var tc := Resolve(ev, CellArrayItems(opts.thermCond));
      var le := Resolve(ev, CellArrayItems(opts.linThermExp));
      var sc := Resolve(ev, CellArrayItems(opts.subSystemCoupling));
      cAxis != 0.0 ==>
        (hc.Err? ==> r == Err(hc.error)) &&
        (hc.Ok? && tc.Err? ==> r == Err(tc.error)) &&
        (hc.Ok? && tc.Ok? && le.Err? ==> r == Err(le.error)) &&
        (hc.Ok? && tc.Ok? && le.Ok? && sc.Err? ==> r == Err(sc.error)) &&
        (hc.Ok? && tc.Ok? && le.Ok? && sc.Ok? ==>
           (r == Err(SubsystemCountMismatch) <==>
              !(|hc.value.fns| == |tc.value.fns| == |le.value.fns| == |sc.value.fns|)) &&
           (r.Ok? ==> r.value == Subsystems(hc.value, tc.value, le.value, sc.value)))
    ensures r.Ok? ==> Admissible(ev, cAxis, r.value)
  {
    if cAxis == 0.0 then Err(ZeroDivision)
    else
      var hc :- Resolve(ev, CellArrayItems(opts.heatCapacity));
      var tc :- Resolve(ev, CellArrayItems(opts.thermCond));
      var le :- Resolve(ev, CellArrayItems(opts.linThermExp));
      var sc :- Resolve(ev, CellArrayItems(opts.subSystemCoupling));
      if |hc.fns| == |tc.fns| && |hc.fns| == |le.fns| && |hc.fns| == |sc.fns|
      then Ok(Subsystems(hc, tc, le, sc))
      else Err(SubsystemCountMismatch)
  }

  /** Without keyword arguments there is one subsystem, each property the constant 0. */
  lemma DefaultsGiveOneSubsystem(ev: Evaluator, cAxis: real, t: real)
    requires ReadsLiterals(ev) && cAxis != 0.0
    ensures var r := Construction(ev, cAxis, Defaults);
      r.Ok? &&
      r.value.heatCapacity.strs == [ConstText(ev, 0.0)] &&
      r.value.thermCond.strs == [ConstText(ev, 0.0)] &&
      r.value.linThermExp.strs == [ConstText(ev, 0.0)] &&
      r.value.subSystemCoupling.strs == [ConstText(ev, 0.0)] &&
      |r.value.heatCapacity.fns| == 1 && r.value.heatCapacity.fns[0](t) == ev.roundF(0.0) &&
      |r.value.thermCond.fns| == 1 && r.value.thermCond.fns[0](t) == ev.roundF(0.0) &&
      |r.value.linThermExp.fns| == 1 && r.value.linThermExp.fns[0](t) == ev.roundF(0.0) &&
      |r.value.subSystemCoupling.fns| == 1 && r.value.subSystemCoupling.fns[0](t) == ev.roundF(0.0)
  {
    NumberBecomesConstantFunction(ev, PyInt(0), t);
  }

  /** Two heat capacities against one of everything else is rejected. */
  lemma {:induction false} MismatchedSubsystemsRejected(ev: Evaluator, cAxis: real, a: real, b: real)
    requires ReadsLiterals(ev) && cAxis != 0.0
    ensures Construction(ev, cAxis, Defaults.(heatCapacity := PyList([PyFloat(a), PyFloat(b)]))) ==
      Err(SubsystemCountMismatch)
  {
    var items := [PyFloat(a), PyFloat(b)];
    assert items[..1][..0] == [] && items[..1] == [PyFloat(a)];
    assert ev.eval(ConstText(ev, a)).Some? && ev.eval(ConstText(ev, b)).Some?;
    assert Resolve(ev, items[..1]).Ok? && |Resolve(ev, items[..1]).value.fns| == 1;
    assert Resolve(ev, items).Ok? && |Resolve(ev, items).value.fns| == 2;
    NumberBecomesConstantFunction(ev, PyInt(0), 0.0);
  }

  /** Attribute values as getPropertyStruct hands them out. */
  datatype Value =
    | Text(text: string)
    | Real(r: real)
    | Count(n: int)
    | Reals(rs: seq<real>)
    | Texts(texts: seq<string>)
    | Callables(fns: seq<Fn>)
    | AtomList(entries: seq<AtomEntry>)
    | Spec(spec: PyValue)

  /** The attributes every unit cell has from construction on. */
  const BaseAttributes: set<string> :=
    {"ID", "name", "cAxis", "aAxis", "bAxis", "atoms", "numAtoms", "mass", "density",
     "springConst", "debWalFac", "_soundVel", "phononDamping", "optPenDepth",
     "optRefIndex", "optRefIndexPerStrain", "heatCapacity", "heatCapacityStr",
     "thermCond", "thermCondStr", "linThermExp", "linThermExpStr", "subSystemCoupling",
     "subSystemCouplingStr", "numSubSystems", "area", "volume"}

  class UnitCell {
    /** The foreign evaluator the cell's texts are evaluated and integrated with. */
    const ev: Evaluator
    const id: string
    const name: string
    const cAxis: real
    const aAxis: real
    const bAxis: real
    const area: real
    const volume: real

    var atoms: seq<AtomEntry>
    var numAtoms: nat
    /** Total atomic mass normalised to an area of 1 square angstrom. */
    var mass: real
    var density: real
    /** Index 0 the harmonic spring constant, the rest higher orders. */
    var springConst: seq<real>
    var debWalFac: real
    var soundVel: real
    var phononDamping: real
    var optPenDepth: real
    var optRefIndex: PyValue
    var optRefIndexPerStrain: PyValue
    var heatCapacity: seq<Fn>
    var heatCapacityStr: seq<string>
    var thermCond: seq<Fn>
    var thermCondStr: seq<string>
    var linThermExp: seq<Fn>
    var linThermExpStr: seq<string>
    var subSystemCoupling: seq<Fn>
    var subSystemCouplingStr: seq<string>
    var numSubSystems: nat
    /** _intHeatCapacity with intHeatCapacityStr; None until first read or set. */
    var intHeatCapacity: Option<Handles>
    /** _intLinThermExp with intLinThermExpStr; None until first read or set. */
    var intLinThermExp: Option<Handles>

    /** Mass, density and harmonic spring constant agree with the atoms, the geometry and the sound velocity. */
    ghost predicate Derived()
      reads this
    {
      area != 0.0 && volume != 0.0 && cAxis != 0.0 &&
      density == TotalMass(atoms) / volume &&
      mass == TotalMass(atoms) * AngstromSquared / area &&
      |springConst| >= 1 &&
      springConst[0] == HarmonicSpringConstant(mass, soundVel, cAxis)
    }

    ghost predicate Valid()
      reads this
    {
      cAxis != 0.0 && area == aAxis * bAxis && volume == area * cAxis &&
      numAtoms == |atoms| &&
      (forall k :: 0 <= k < |atoms| ==> PositionInSync(ev, atoms[k])) &&
      |springConst| >= 1 &&
      InSync(ev, Handles(heatCapacity, heatCapacityStr)) &&
      InSync(ev, Handles(thermCond, thermCondStr)) &&
      InSync(ev, Handles(linThermExp, linThermExpStr)) &&
      InSync(ev, Handles(subSystemCoupling, subSystemCouplingStr)) &&
      numSubSystems == |heatCapacity| == |thermCond| == |linThermExp| == |subSystemCoupling| &&
      (intHeatCapacity.Some? ==> |intHeatCapacity.value.fns| == |intHeatCapacity.value.strs|) &&
      (intLinThermExp.Some? ==> |intLinThermExp.value.fns| == |intLinThermExp.value.strs|) &&
      (area != 0.0 ==> Derived())
    }

    /** __init__ once its checks (`Construction`) have passed with the lists subs. */
    constructor (ev: Evaluator, id: string, name: string, cAxis: real, opts: CellOptions,
                 subs: Subsystems)
      requires Admissible(ev, cAxis, subs)
      ensures Valid()
      ensures this.ev == ev && this.id == id && this.name == name && this.cAxis == cAxis
      ensures aAxis == opts.aAxis.GetOr(cAxis) && bAxis == opts.bAxis.GetOr(aAxis)
      ensures area == aAxis * bAxis && volume == area * cAxis
      ensures atoms == [] && numAtoms == 0 && mass == 0.0 && density == 0.0 && springConst == [0.0]
      ensures debWalFac == opts.debWalFac && soundVel == opts.soundVel
      ensures phononDamping == opts.phononDamping && optPenDepth == opts.optPenDepth
      ensures optRefIndex == opts.optRefIndex && optRefIndexPerStrain == opts.optRefIndexPerStrain
      ensures Handles(heatCapacity, heatCapacityStr) == subs.heatCapacity
      ensures Handles(thermCond, thermCondStr) == subs.thermCond
      ensures Handles(linThermExp, linThermExpStr) == subs.linThermExp
      ensures Handles(subSystemCoupling, subSystemCouplingStr) == subs.subSystemCoupling
      ensures numSubSystems == |subs.heatCapacity.fns|
      ensures intHeatCapacity == None && intLinThermExp == None
    {
      this.ev := ev;
      this.id := id;
      this.name := name;
      this.cAxis := cAxis;
      var a := opts.aAxis.GetOr(cAxis);
      var b := opts.bAxis.GetOr(a);
      aAxis := a;
      bAxis := b;
      var ar := a * b;
      area := ar;
      volume := ar * cAxis;
      atoms := [];
      numAtoms := 0;
      mass := 0.0;
      density := 0.0;
      springConst := [0.0];
      debWalFac := opts.debWalFac;
      soundVel := opts.soundVel;
      phononDamping := opts.phononDamping;
      optPenDepth := opts.optPenDepth;
      optRefIndex := opts.optRefIndex;
      optRefIndexPerStrain := opts.optRefIndexPerStrain;
      heatCapacity, heatCapacityStr := subs.heatCapacity.fns, subs.heatCapacity.strs;
      thermCond, thermCondStr := subs.thermCond.fns, subs.thermCond.strs;
      linThermExp, linThermExpStr := subs.linThermExp.fns, subs.linThermExp.strs;
      subSystemCoupling, subSystemCouplingStr :=
        subs.subSystemCoupling.fns, subs.subSystemCoupling.strs;
      numSubSystems := |subs.heatCapacity.fns|;
      intHeatCapacity := None;
      intLinThermExp := None;
      EmptyCellDerived(a * b, cAxis, opts.soundVel);
    }

    /** __init__: the checks, then the cell; or the exception the checks raise. */
    static method Create(ev: Evaluator, id: string, name: string, cAxis: real, opts: CellOptions)
      returns (r: Result<UnitCell>)
      ensures r.Err? <==> Construction(ev, cAxis, opts).Err?
      ensures r.Err? ==> r.error == Construction(ev, cAxis, opts).error
      ensures r.Ok? ==>
        var c := r.value; var subs := Construction(ev, cAxis, opts).value;
        fresh(c) && c.Valid() && c.ev == ev && c.id == id && c.name == name &&
        c.cAxis == cAxis && c.aAxis == opts.aAxis.GetOr(cAxis) &&
        c.bAxis == opts.bAxis.GetOr(c.aAxis) &&
        c.atoms == [] && c.mass == 0.0 && c.density == 0.0 && c.springConst == [0.0] &&
        c.debWalFac == opts.debWalFac && c.soundVel == opts.soundVel &&
        c.phononDamping == opts.phononDamping && c.optPenDepth == opts.optPenDepth &&
        c.optRefIndex == opts.optRefIndex && c.optRefIndexPerStrain == opts.optRefIndexPerStrain &&
        c.heatCapacityStr == subs.heatCapacity.strs && c.thermCondStr == subs.thermCond.strs &&
        c.linThermExpStr == subs.linThermExp.strs &&
        c.subSystemCouplingStr == subs.subSystemCoupling.strs &&
        c.numSubSystems == |subs.heatCapacity.fns| &&
        c.intHeatCapacity == None && c.intLinThermExp == None
    {
      if cAxis == 0.0 {
        return Err(ZeroDivision);
      }
      var hc := CheckCellArrayInput(ev, opts.heatCapacity);
      if hc.Err? {
        return Err(hc.error);
      }
      var tc := CheckCellArrayInput(ev, opts.thermCond);
      if tc.Err? {
        return Err(tc.error);
      }
      var le := CheckCellArrayInput(ev, opts.linThermExp);
      if le.Err? {
        return Err(le.error);
      }
      var sc := CheckCellArrayInput(ev, opts.subSystemCoupling);
      if sc.Err? {
        return Err(sc.error);
      }
      var n := |hc.value.fns|;
      if !(n == |tc.value.fns| && n == |le.value.fns| && n == |sc.value.fns|) {
        return Err(SubsystemCountMismatch);
      }
      var subs := Subsystems(hc.value, tc.value, le.value, sc.value);
      var c := new UnitCell(ev, id, name, cAxis, opts, subs);
      r := Ok(c);
    }

    /** calcSpringConst: overwrites the harmonic spring constant only. */
    method CalcSpringConst()
      requires cAxis != 0.0 && |springConst| >= 1
      modifies this`springConst
      ensures springConst == old(springConst)[0 := HarmonicSpringConstant(mass, soundVel, cAxis)]
    {
      springConst := springConst[0 := HarmonicSpringConstant(mass, soundVel, cAxis)];
    }

    /** The soundVel setter: stores the velocity and recomputes the harmonic spring constant. */
    method SetSoundVel(v: real)
      requires Valid()
      modifies this`soundVel, this`springConst
      ensures Valid() && soundVel == v
      ensures springConst == old(springConst)[0 := HarmonicSpringConstant(mass, v, cAxis)]
    {
      soundVel := v;
      CalcSpringConst();
    }

    /** setHOspringConstants: keeps the harmonic term and replaces all higher orders by ho. */
    method SetHOSpringConstants(ho: seq<real>)
      requires Valid()
      modifies this`springConst
      ensures Valid()
      ensures springConst == [old(springConst)[0]] + ho
      ensures |springConst| == 1 + |ho| && springConst[1..] == ho
    {
      springConst := springConst[..1] + ho;
    }

    /**
     * addAtom: appends the triple for the atom, then sums the atomic masses
     * into the density (per volume) and the mass (per square angstrom) and
     * recomputes the harmonic spring constant. With a zero area the division
     * for the density raises after the atom is appended and the raw mass sum
     * is stored.
     */
    method AddAtom(atom: Atom, position: PyValue) returns (res: Outcome)
      requires Valid()
      modifies this`atoms, this`numAtoms, this`mass, this`density, this`springConst
      ensures Valid()
      ensures var placed := PlaceAtom(ev, atom, position);
        placed.Err? ==>
          res == Fail(placed.error) && atoms == old(atoms) && numAtoms == old(numAtoms) &&
          mass == old(mass) && density == old(density) && springConst == old(springConst)
      ensures var placed := PlaceAtom(ev, atom, position);
        placed.Ok? ==> atoms == old(atoms) + [placed.value] && numAtoms == old(numAtoms) + 1
      ensures PlaceAtom(ev, atom, position).Ok? && area != 0.0 ==>
        res == Pass && Derived() && springConst[1..] == old(springConst)[1..]
      ensures PlaceAtom(ev, atom, position).Ok? && area == 0.0 ==>
        res == Fail(ZeroDivision) && mass == TotalMass(atoms) &&
        density == old(density) && springConst == old(springConst)
    {
      var placed := PlaceAtom(ev, atom, position);
      if placed.Err? {
        return Fail(placed.error);
      }
      atoms := atoms + [placed.value];
      numAtoms := numAtoms + 1;
      assert forall k :: 0 <= k < |atoms| ==> PositionInSync(ev, atoms[k]);
      res := UpdateMassDensitySpring();
    }

    /**
     * The recomputation at the end of addAtom: the mass sum, the density from
     * the raw sum, the mass per square angstrom, then the spring constant.
     */
    method UpdateMassDensitySpring() returns (res: Outcome)
      requires cAxis != 0.0 && volume == area * cAxis && numAtoms == |atoms| && |springConst| >= 1
      modifies this`mass, this`density, this`springConst
      ensures area != 0.0 ==>
        res == Pass && Derived() &&
        springConst == old(springConst)[0 := HarmonicSpringConstant(mass, soundVel, cAxis)]
      ensures area == 0.0 ==>
        res == Fail(ZeroDivision) && mass == TotalMass(atoms) &&
        density == old(density) && springConst == old(springConst)
    {
      mass := 0.0;
      var i := 0;
      while i < numAtoms
        invariant 0 <= i <= numAtoms
        invariant mass == TotalMass(atoms[..i])
        modifies this`mass
      {
        assert atoms[..i + 1][..i] == atoms[..i];
        mass := mass + atoms[i].atom.mass;
        i := i + 1;
      }
      assert atoms[..i] == atoms;
      ZeroProduct(area, cAxis);
      if volume == 0.0 {
        return Fail(ZeroDivision);
      }
      density := mass / volume;
      mass := mass * AngstromSquared / area;
      CalcSpringConst();
      res := Pass;
    }

    /** addMultipleAtoms: nb successive addAtom calls with the same arguments. */
    method AddMultipleAtoms(atom: Atom, position: PyValue, nb: int) returns (res: Outcome)
      requires Valid()
      modifies this`atoms, this`numAtoms, this`mass, this`density, this`springConst
      ensures Valid()
      ensures var placed := PlaceAtom(ev, atom, position);
        (nb <= 0 || placed.Err? ==>
           atoms == old(atoms) && numAtoms == old(numAtoms) && mass == old(mass) &&
           density == old(density) && springConst == old(springConst)) &&
        (nb <= 0 ==> res == Pass) &&
        (nb > 0 && placed.Err? ==> res == Fail(placed.error)) &&
        (nb > 0 && placed.Ok? && area != 0.0 ==>
           res == Pass && numAtoms == old(numAtoms) + nb &&
           atoms == old(atoms) + Repeat(placed.value, nb) &&
           Derived() && springConst[1..] == old(springConst)[1..]) &&
        (nb > 0 && placed.Ok? && area == 0.0 ==>
           res == Fail(ZeroDivision) && atoms == old(atoms) + [placed.value] &&
           numAtoms == old(numAtoms) + 1 && mass == TotalMass(atoms) &&
           density == old(density) && springConst == old(springConst))
    {
      ghost var placed := PlaceAtom(ev, atom, position);
      res := Pass;
      var i := 0;
      while i < nb
        invariant Valid()
        invariant 0 <= i && (i == 0 || i <= nb)
        invariant res == Pass
        invariant i == 0 ==>
          atoms == old(atoms) && numAtoms == old(numAtoms) && mass == old(mass) &&
          density == old(density) && springConst == old(springConst)
        invariant i > 0 ==>
          placed.Ok? && area != 0.0 && numAtoms == old(numAtoms) + i &&
          atoms == old(atoms) + Repeat(placed.value, i) &&
          springConst[1..] == old(springConst)[1..]
      {
        res := AddAtom(atom, position);
        if res.Fail? {
          return;
        }
        assert Repeat(placed.value, i + 1) == Repeat(placed.value, i) + [placed.value];
        i := i + 1;
      }
    }

    /**
     * getAcousticImpedance: sqrt(k m) / area. None where numpy yields no
     * finite number (a zero area).
     */
    function GetAcousticImpedance(): (z: Option<real>)
      reads this
      requires Valid()
      ensures z.Some? <==> area != 0.0
      ensures z.Some? ==> IsImpedance(z.value, springConst[0], mass, area)
    {
      if area == 0.0 then None
      else
        Some(Impedance(springConst[0], mass, soundVel, cAxis, area))
    }

    /** getAtomIDs: each atom ID once, in order of first occurrence. */
    method GetAtomIDs() returns (ids: seq<string>)
      requires Valid()
      ensures ids == Dedup(AtomIds(atoms))
      ensures NoDuplicates(ids)
      ensures forall x :: x in ids <==> x in AtomIds(atoms)
    {
      ids := [];
      var i := 0;
      while i < numAtoms
        invariant 0 <= i <= numAtoms == |atoms|
        invariant ids == Dedup(AtomIds(atoms)[..i])
      {
        assert AtomIds(atoms)[..i + 1][..i] == AtomIds(atoms)[..i];
        if atoms[i].atom.id !in ids {
          ids := ids + [atoms[i].atom.id];
        }
        i := i + 1;
      }
      assert AtomIds(atoms)[..i] == AtomIds(atoms);
      DedupSameValuesOnce(AtomIds(atoms));
    }

    /**
     * getAtomPositions: every atom's position at the strain (0 when called
     * without one), in atom order; a TypeError if a stored position is text.
     */
    method GetAtomPositions(strain: real) returns (r: Result<seq<real>>)
      requires Valid()
      ensures r.Ok? <==> forall k :: 0 <= k < |atoms| ==> atoms[k].position.Callable?
      ensures r.Err? ==> r.error == NotCallable
      ensures r.Ok? ==>
        |r.value| == numAtoms &&
        forall k :: 0 <= k < |atoms| ==> r.value[k] == atoms[k].position.fn(strain)
    {
      var res := new real[numAtoms];
      var i := 0;
      while i < |atoms|
        invariant 0 <= i <= |atoms| == res.Length
        invariant forall k :: 0 <= k < i ==>
          atoms[k].position.Callable? && res[k] == atoms[k].position.fn(strain)
      {
        match atoms[i].position {
          case Uncallable(_) =>
            return Err(NotCallable);
          case Callable(f) =>
            res[i] := f(strain);
        }
        i := i + 1;
      }
      r := Ok(res[..]);
    }

    /**
     * The intHeatCapacity getter: integrates the heat capacities on first
     * read, then returns the cached list without integrating again.
     */
    method GetIntHeatCapacity() returns (h: seq<Fn>)
      requires Valid()
      modifies this`intHeatCapacity
      ensures Valid()
      ensures old(intHeatCapacity).Some? ==> intHeatCapacity == old(intHeatCapacity)
      ensures old(intHeatCapacity).None? ==> intHeatCapacity == Some(Integrated(ev, heatCapacityStr))
      ensures intHeatCapacity.Some? && h == intHeatCapacity.value.fns
    {
      if intHeatCapacity.None? {
        var integrated := IntegrateAll(ev, heatCapacityStr);
        intHeatCapacity := Some(integrated);
      }
      h := intHeatCapacity.value.fns;
    }

    /** The intHeatCapacity setter: resolves the specification and replaces the cache. */
    method SetIntHeatCapacity(spec: PyValue) returns (res: Outcome)
      requires Valid()
      modifies this`intHeatCapacity
      ensures Valid()
      ensures var r := Resolve(ev, CellArrayItems(spec));
        (r.Err? ==> res == Fail(r.error) && intHeatCapacity == old(intHeatCapacity)) &&
        (r.Ok? ==> res == Pass && intHeatCapacity == Some(r.value))
    {
      var r := CheckCellArrayInput(ev, spec);
      if r.Err? {
        return Fail(r.error);
      }
      intHeatCapacity := Some(r.value);
      res := Pass;
    }

    /**
     * The intLinThermExp getter: integrates the linear thermal expansions on
     * first read, then returns the cached list without integrating again.
     */
    method GetIntLinThermExp() returns (h: seq<Fn>)
      requires Valid()
      modifies this`intLinThermExp
      ensures Valid()
      ensures old(intLinThermExp).Some? ==> intLinThermExp == old(intLinThermExp)
      ensures old(intLinThermExp).None? ==> intLinThermExp == Some(Integrated(ev, linThermExpStr))
      ensures intLinThermExp.Some? && h == intLinThermExp.value.fns
    {
      if intLinThermExp.None? {
        var integrated := IntegrateAll(ev, linThermExpStr);
        intLinThermExp := Some(integrated);
      }
      h := intLinThermExp.value.fns;
    }

    /** The intLinThermExp setter: resolves the specification and replaces the cache. */
    method SetIntLinThermExp(spec: PyValue) returns (res: Outcome)
      requires Valid()
      modifies this`intLinThermExp
      ensures Valid()
      ensures var r := Resolve(ev, CellArrayItems(spec));
        (r.Err? ==> res == Fail(r.error) && intLinThermExp == old(intLinThermExp)) &&
        (r.Ok? ==> res == Pass && intLinThermExp == Some(r.value))
    {
      var r := CheckCellArrayInput(ev, spec);
      if r.Err? {
        return Fail(r.error);
      }
      intLinThermExp := Some(r.value);
      res := Pass;
    }

    /** The attributes of the cell by name, as `vars` lists them. */
    function Attributes(): (attrs: map<string, Value>)
      reads this
      ensures attrs.Keys == BaseAttributes +
        (if intHeatCapacity.Some? then {"_intHeatCapacity", "intHeatCapacityStr"} else {}) +
        (if intLinThermExp.Some? then {"_intLinThermExp", "intLinThermExpStr"} else {})
    {
      var base := map[
        "ID" := Text(id), "name" := Text(name),
        "cAxis" := Real(cAxis), "aAxis" := Real(aAxis), "bAxis" := Real(bAxis),
        "atoms" := AtomList(atoms), "numAtoms" := Count(numAtoms),
        "mass" := Real(mass), "density" := Real(density), "springConst" := Reals(springConst),
        "debWalFac" := Real(debWalFac), "_soundVel" := Real(soundVel),
        "phononDamping" := Real(phononDamping), "optPenDepth" := Real(optPenDepth),
        "optRefIndex" := Spec(optRefIndex), "optRefIndexPerStrain" := Spec(optRefIndexPerStrain),
        "heatCapacity" := Callables(heatCapacity), "heatCapacityStr" := Texts(heatCapacityStr),
        "thermCond" := Callables(thermCond), "thermCondStr" := Texts(thermCondStr),
        "linThermExp" := Callables(linThermExp), "linThermExpStr" := Texts(linThermExpStr),
        "subSystemCoupling" := Callables(subSystemCoupling),
        "subSystemCouplingStr" := Texts(subSystemCouplingStr),
        "numSubSystems" := Count(numSubSystems), "area" := Real(area), "volume" := Real(volume)];
      var withHeat :=
        if intHeatCapacity.Some?
        then base["_intHeatCapacity" := Callables(intHeatCapacity.value.fns)]
                 ["intHeatCapacityStr" := Texts(intHeatCapacity.value.strs)]
        else base;
      if intLinThermExp.Some?
      then withHeat["_intLinThermExp" := Callables(intLinThermExp.value.fns)]
                   ["intLinThermExpStr" := Texts(intLinThermExp.value.strs)]
      else withHeat
    }

    /**
     * getPropertyStruct: every attribute for 'all', those of the type's
     * table entry otherwise; the KeyError of a missing or unknown type.
     */
    function GetPropertyStruct(types: Option<string>): (s: Result<map<string, Value>>)
      reads this
      ensures s.Ok? <==>
        types.Some? && types.value in {"all", "heat", "phonon", "XRD", "optical"}
      ensures s.Err? ==> s.error == UnknownType
      ensures types == Some("all") ==> s == Ok(Attributes())
      ensures s.Ok? && types != Some("all") ==>
        s.value.Keys == Attributes().Keys * FieldsOf(types.value).value &&
        forall k :: k in s.value ==> s.value[k] == Attributes()[k]
    {
      match types
      case None => Err(UnknownType)
      case Some(t) =>
        if t == "all" then Ok(Attributes())
        else
          match FieldsOf(t)
          case None => Err(UnknownType)
          case Some(fields) =>
            var attrs := Attributes();
            Ok(map k | k in attrs && k in fields :: attrs[k])
    }
  }

  /** n copies of e. */
  function Repeat<T>(e: T, n: nat): (r: seq<T>)
    ensures |r| == n && forall k :: 0 <= k < n ==> r[k] == e
  {
    seq(n, _ => e)
  }

  /** z is sqrt(k m) / a: non-negative, with square k m / a / a. */
  predicate IsImpedance(z: real, k: real, m: real, a: real)
    requires a != 0.0
  {
    z >= 0.0 && z * z == k * m / a / a
  }

  /** sqrt(k m) / a, for k the harmonic spring constant of mass m, sound velocity v and c-axis c. */
  function Impedance(k: real, m: real, v: real, c: real, a: real): (z: real)
    requires c != 0.0 && a != 0.0 && k == HarmonicSpringConstant(m, v, c)
    ensures IsImpedance(z, k, m, a)
  {
    ImpedanceSquares(m, v, c, a);
    Abs(m * (v / c)) / Abs(a)
  }

  /** The relation pins the impedance down: at most one z satisfies it. */
  lemma {:induction false} ImpedanceIsUnique(z1: real, z2: real, k: real, m: real, a: real)
    requires a != 0.0 && IsImpedance(z1, k, m, a) && IsImpedance(z2, k, m, a)
    ensures z1 == z2
  {
    if z1 < z2 {
      SquareGrows(z1, z2);
    } else if z2 < z1 {
      SquareGrows(z2, z1);
    }
  }

  lemma SquareGrows(x: real, y: real)
    requires 0.0 <= x < y
    ensures x * x < y * y
  {
    var d, t := y - x, y + x;
    assert d > 0.0 && t > 0.0;
    assert d * t > 0.0;
    assert d * t == y * y - x * x;
  }

  /**
   * The closed form of the acoustic impedance squares to k m / area^2 when
   * k = m (v / c)^2.
   */
  lemma ImpedanceSquares(m: real, v: real, c: real, a: real)
    requires c != 0.0 && a != 0.0
    ensures var z := Abs(m * (v / c)) / Abs(a);
      z >= 0.0 && z * z == HarmonicSpringConstant(m, v, c) * m / a / a
  {
    var q := m * (v / c);
    var bigQ, bigA := Abs(q), Abs(a);
    var z := bigQ / bigA;
    assert z * bigA == bigQ;
    assert z * z * (bigA * bigA) == bigQ * bigQ by {
      assert z * z * (bigA * bigA) == (z * bigA) * (z * bigA);
    }
    AbsSquare(q);
    AbsSquare(a);
    assert z * z * a * a == q * q;
    assert q * q == HarmonicSpringConstant(m, v, c) * m;
    DivideTwice(q * q, z * z, a);
  }

  lemma AbsSquare(x: real)
    ensures Abs(x) * Abs(x) == x * x
  {
  }

  lemma DivideTwice(x: real, y: real, a: real)
    requires a != 0.0 && y * a * a == x
    ensures x / a / a == y
  {
    assert x / a / a * a == x / a;
    assert x / a == y * a;
  }

  /** With no atoms, zero mass, density and harmonic spring constant agree with any non-zero geometry. */
  lemma EmptyCellDerived(area: real, cAxis: real, soundVel: real)
    requires cAxis != 0.0
    ensures area != 0.0 ==> (area * cAxis != 0.0 &&
      0.0 == TotalMass([]) / (area * cAxis) &&
      0.0 == TotalMass([]) * AngstromSquared / area &&
      0.0 == HarmonicSpringConstant(0.0, soundVel, cAxis))
  {
    ZeroProduct(area, cAxis);
  }

  /** A product with a non-zero factor is zero exactly when the other factor is. */
  lemma ZeroProduct(x: real, y: real)
    requires y != 0.0
    ensures x * y == 0.0 <==> x == 0.0
  {
  }

  /**
   * The getter, read twice with no set in between, hands out the same list:
   * the second read is served from the cache.
   */
  method ReadIntHeatCapacityTwice(c: UnitCell) returns (first: seq<Fn>, second: seq<Fn>)
    requires c.Valid()
    modifies c
    ensures first == second
    ensures old(c.intHeatCapacity).None? ==> first == Integrated(c.ev, c.heatCapacityStr).fns
  {
    first := c.GetIntHeatCapacity();
    second := c.GetIntHeatCapacity();
  }

  /** getPropertyStruct for 'optical' has exactly the four optical attributes. */
  lemma OpticalStructIsExact(c: UnitCell)
    ensures var s := c.GetPropertyStruct(Some("optical"));
      s.Ok? && s.value.Keys == {"cAxis", "optPenDepth", "optRefIndex", "optRefIndexPerStrain"}
  {
    var s := c.GetPropertyStruct(Some("optical"));
    assert OpticalFields <= c.Attributes().Keys;
    assert s.value.Keys == c.Attributes().Keys * OpticalFields;
  }

  /**
   * getPropertyStruct for 'heat' shows the integrated heat capacity texts
   * exactly once they were computed or set; likewise 'phonon' for the
   * integrated linear thermal expansion.
   */
  lemma IntegratedTextsShownOnceCached(c: UnitCell)
    ensures "intHeatCapacityStr" in c.GetPropertyStruct(Some("heat")).value <==>
      c.intHeatCapacity.Some?
    ensures "intLinThermExpStr" in c.GetPropertyStruct(Some("phonon")).value <==>
      c.intLinThermExp.Some?
  {
    assert "intHeatCapacityStr" !in BaseAttributes && "intLinThermExpStr" !in BaseAttributes;
  }
}
