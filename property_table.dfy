/**
 * The static table of getPropertyStruct: which attributes each simulation
 * type ('heat', 'phonon', 'XRD', 'optical') is given.
 */
module PropertyTable {
  import opened Runtime

  const HeatFields: set<string> :=
    {"cAxis", "area", "volume", "optPenDepth", "thermCondStr", "heatCapacityStr",
     "intHeatCapacityStr", "subSystemCouplingStr", "numSubSystems"}

  const PhononFields: set<string> :=
    {"numSubSystems", "intLinThermExpStr", "cAxis", "mass", "springConst", "phononDamping"}

  const XrdFields: set<string> :=
    {"numAtoms", "atoms", "area", "debWalFac", "cAxis"}

  const OpticalFields: set<string> :=
    {"cAxis", "optPenDepth", "optRefIndex", "optRefIndexPerStrain"}

  /** The attribute names kept for a type; None is the KeyError of any other type. */
  function FieldsOf(types: string): (r: Option<set<string>>)
    ensures r.Some? <==> types in {"heat", "phonon", "XRD", "optical"}
    ensures r.Some? ==> "cAxis" in r.value
  {
    if types == "heat" then Some(HeatFields)
    else if types == "phonon" then Some(PhononFields)
    else if types == "XRD" then Some(XrdFields)
    else if types == "optical" then Some(OpticalFields)
    else None
  }
}
