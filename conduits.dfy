/** The composition tree. Every pipeline stage is an immutable value; the two
    composition operators only ever build new composites around existing
    ones, so the tree is finite and acyclic by construction. */
module Conduits {
  import opened TypeLattice

  /** Identity of a serial conduit, as it appears in final-conduit lists and
      in connections. */
  type ConduitId = nat

  /** A directed edge `(from, to)` of the rendered topology. */
  type Connection = (ConduitId, ConduitId)

  /** The concrete chained classes the `>>` dispatchers construct. */
  datatype ChainKind =
    | ChainedTransformer                    // serial transformer >> serial transformer
    | ChainedConcurrentTransformer          // any other transformer >> transformer
    | ChainedProducer                       // serial producer >> serial transformer
    | ChainedConcurrentTransformedProducer  // serial producer >> concurrent transformer
    | ChainedConcurrentProducer             // concurrent producer >> transformer

  datatype Outcome<+R> =
    | Ok(value: R)
    | NotImplemented   // the operand is not handled: the operator protocol tries the other side
    | TypeError        // the operand is rejected outright

  datatype Conduit<!T> =
    | LeafProducer(id: ConduitId, productType: TypeTag, products: seq<T>)
    | LeafTransformer(id: ConduitId, inputType: TypeTag, productType: TypeTag, transform: T -> seq<T>)
    | Passthrough
    | ConcurrentProducer(productType: TypeTag, producers: seq<Conduit<T>>)
    | ConcurrentTransformer(inputType: TypeTag, productType: TypeTag, transformers: seq<Conduit<T>>)
    | Chained(kind: ChainKind, source: Conduit<T>, processor: Conduit<T>)

  // Class membership (what `isinstance` answers for each class).

  predicate IsSerialProducer<T>(c: Conduit<T>)
  {
    c.LeafProducer? || (c.Chained? && c.kind == ChainedProducer)
  }

  predicate IsProducer<T>(c: Conduit<T>)
  {
    || IsSerialProducer(c)
    || c.ConcurrentProducer?
    || (c.Chained? && (c.kind == ChainedConcurrentTransformedProducer || c.kind == ChainedConcurrentProducer))
  }

  predicate IsSerialTransformer<T>(c: Conduit<T>)
  {
    c.LeafTransformer? || (c.Chained? && c.kind == ChainedTransformer)
  }

  predicate IsTransformer<T>(c: Conduit<T>)
  {
    IsSerialTransformer(c) || c.ConcurrentTransformer? || (c.Chained? && c.kind == ChainedConcurrentTransformer)
  }

  /** A serial conduit: a single linear path from its first stage to its final one. */
  predicate IsSerial<T>(c: Conduit<T>)
  {
    IsSerialProducer(c) || IsSerialTransformer(c)
  }

  /** Which operands each chained class is built from. */
  predicate ChainFits<T>(k: ChainKind, s: Conduit<T>, p: Conduit<T>)
  {
    match k
    case ChainedTransformer => IsSerialTransformer(s) && IsSerialTransformer(p)
    case ChainedConcurrentTransformer =>
      IsTransformer(s) && IsTransformer(p) && !(IsSerialTransformer(s) && IsSerialTransformer(p))
    case ChainedProducer => IsSerialProducer(s) && IsSerialTransformer(p)
    case ChainedConcurrentTransformedProducer =>
      IsSerialProducer(s) && IsTransformer(p) && !IsSerialTransformer(p)
    case ChainedConcurrentProducer => IsProducer(s) && !IsSerialProducer(s) && IsTransformer(p)
  }

  /** The shapes the composition operators can build: groups have at least one
      member, producer groups hold producers, transformer groups hold
      transformers and passthroughs, and every chain has operands of the
      classes its kind is built from. */
  predicate WellFormed<T>(c: Conduit<T>)
  {
    match c
    case LeafProducer(_, _, _) => true
    case LeafTransformer(_, _, _, _) => true
    case Passthrough => true
    case ConcurrentProducer(_, ps) =>
      |ps| >= 1 && forall i :: 0 <= i < |ps| ==> WellFormed(ps[i]) && IsProducer(ps[i])
    case ConcurrentTransformer(_, _, ts) =>
      |ts| >= 1 && forall i :: 0 <= i < |ts| ==> WellFormed(ts[i]) && (IsTransformer(ts[i]) || ts[i].Passthrough?)
    case Chained(k, s, p) => WellFormed(s) && WellFormed(p) && ChainFits(k, s, p)
  }

  /** The type of the items a transformer consumes; a chain consumes what its
      source consumes. */
  function InputType<T>(c: Conduit<T>): TypeTag
    requires WellFormed(c) && IsTransformer(c)
  {
    match c
    case LeafTransformer(_, input, _, _) => input
    case ConcurrentTransformer(input, _, _) => input
    case Chained(_, s, _) => InputType(s)
  }

  /** The type of the items a stage emits; a chain emits what its processor emits. */
  function ProductType<T>(c: Conduit<T>): TypeTag
    requires WellFormed(c) && (IsProducer(c) || IsTransformer(c))
  {
    match c
    case LeafProducer(_, product, _) => product
    case LeafTransformer(_, _, product, _) => product
    case ConcurrentProducer(product, _) => product
    case ConcurrentTransformer(_, product, _) => product
    case Chained(_, _, p) => ProductType(p)
  }

  predicate HasPassthroughMember<T>(ms: seq<Conduit<T>>)
  {
    exists i :: 0 <= i < |ms| && ms[i].Passthrough?
  }

  /** Every transformer group that has a passthrough branch consumes a subtype
      of what it emits, so the unmodified upstream items are valid products. */
  predicate PassthroughSound<T>(lattice: TypeOracle, c: Conduit<T>)
  {
    match c
    case ConcurrentTransformer(input, product, ts) =>
      && (HasPassthroughMember(ts) ==> lattice.isSubtype(input, product))
      && forall i :: 0 <= i < |ts| ==> PassthroughSound(lattice, ts[i])
    case ConcurrentProducer(_, ps) => forall i :: 0 <= i < |ps| ==> PassthroughSound(lattice, ps[i])
    case Chained(_, s, p) => PassthroughSound(lattice, s) && PassthroughSound(lattice, p)
    case _ => true
  }
}
