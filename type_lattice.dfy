/** The generic-type lattice the composition operators consult. The library
    delegates these questions to external helpers (a common generic base,
    a common generic subclass, a generic subclass test); here they are an
    oracle handed in by the caller, and no lattice law is assumed of it. */
module TypeLattice {

  /** The name of a product or input type, as a semantic tag. */
  type TypeTag = string

  datatype TypeOracle = TypeOracle(
    /** `isSubtype(a, b)`: values of type `a` may be used where `b` is expected. */
    isSubtype: (TypeTag, TypeTag) -> bool,
    /** The common generic base (widest shared ancestor) of two types. */
    commonBase: (TypeTag, TypeTag) -> TypeTag,
    /** The common generic subclass (narrowest shared descendant) of two types. */
    commonSubclass: (TypeTag, TypeTag) -> TypeTag)
}
