/** Transformers: the per-item expansion of a serial transformer, the
    passthrough check, and the `&` and `>>` dispatch that decides which
    composite a pair of operands becomes. */
module TransformerBase {
  import opened TypeLattice
  import opened Streams
  import opened Conduits

  /** `transform` of one serial transformer. A leaf carries its own; the
      chained serial transformers are implemented outside this model, so
      their expansion is supplied as `chained`. */
  function Transform<T>(chained: (Conduit<T>, T) -> seq<T>, t: Conduit<T>, item: T): seq<T>
  {
    if t.LeafTransformer? then t.transform(item) else chained(t, item)
  }

  /** `SerialTransformer.process`: each input item's expansion, in input order. */
  function Process<T>(chained: (Conduit<T>, T) -> seq<T>, t: Conduit<T>, input: seq<T>): (r: seq<T>)
    requires IsSerialTransformer(t)
    ensures input == [] ==> r == []
    ensures |input| == 1 ==> r == Transform(chained, t, input[0])
  {
    var f := x => Transform(chained, t, x);
    assert |input| == 1 ==> FlatMap(f, input) == f(input[0]) + FlatMap(f, input[1..]) && input[1..] == [];
    FlatMap(f, input)
  }

  /** Processing distributes over concatenated input. */
  lemma {:induction false} ProcessAppend<T>(chained: (Conduit<T>, T) -> seq<T>, t: Conduit<T>, a: seq<T>, b: seq<T>)
    requires IsSerialTransformer(t)
    ensures Process(chained, t, a + b) == Process(chained, t, a) + Process(chained, t, b)
  {
    FlatMapAppend(x => Transform(chained, t, x), a, b);
  }

  /** Every processed item comes from the expansion of some input item. */
  lemma ProcessMembership<T>(chained: (Conduit<T>, T) -> seq<T>, t: Conduit<T>, input: seq<T>, y: T)
    requires IsSerialTransformer(t)
    ensures y in Process(chained, t, input) <==> exists i :: 0 <= i < |input| && y in Transform(chained, t, input[i])
  {
    FlatMapMembership(x => Transform(chained, t, x), input, y);
  }

  /** A transformer doubling each item turns [1, 2] into [1, 1, 2, 2]. */
  lemma ProcessDoubling(chained: (Conduit<int>, int) -> seq<int>)
    ensures Process(chained, LeafTransformer(0, "int", "int", x => [x, x]), [1, 2]) == [1, 1, 2, 2]
  {
    var t := LeafTransformer(0, "int", "int", x => [x, x]);
    ProcessAppend(chained, t, [1], [2]);
    assert [1, 2] == [1] + [2];
  }

  /** `_validate_concurrent_passthrough`: a passthrough is always valid; a
      transformer only when its input type is a subtype of its product type. */
  function ValidateConcurrentPassthrough<T>(lattice: TypeOracle, c: Conduit<T>): (r: Outcome<()>)
    requires c.Passthrough? || (WellFormed(c) && IsTransformer(c))
    ensures r.Ok? || r.TypeError?
    ensures r.TypeError? <==> !c.Passthrough? && !lattice.isSubtype(InputType(c), ProductType(c))
  {
    if c.Passthrough? || lattice.isSubtype(InputType(c), ProductType(c)) then Ok(()) else TypeError
  }

  /** `BaseTransformer.__and__` (`self & other`). */
  function Group<T>(lattice: TypeOracle, self: Conduit<T>, other: Conduit<T>): (r: Outcome<Conduit<T>>)
    requires WellFormed(self) && IsTransformer(self) && WellFormed(other)
    ensures other.Passthrough? ==> (r.TypeError? <==> !lattice.isSubtype(InputType(self), ProductType(self)))
    ensures other.Passthrough? ==> (r.Ok? <==> lattice.isSubtype(InputType(self), ProductType(self)))
    ensures !other.Passthrough? && !IsTransformer(other) ==> r.NotImplemented?
    ensures r.Ok? ==> r.value.ConcurrentTransformer? && r.value.transformers == [self, other]
    ensures r.Ok? && other.Passthrough? ==>
      r.value.inputType == InputType(self) && r.value.productType == ProductType(self)
    ensures IsTransformer(other) ==> (
      && r.Ok?
      && r.value.inputType == lattice.commonSubclass(InputType(self), InputType(other))
      && r.value.productType == lattice.commonBase(ProductType(self), ProductType(other)))
  {
    if other.Passthrough? then
      match ValidateConcurrentPassthrough(lattice, self)
      case Ok(_) => Ok(ConcurrentTransformer(InputType(self), ProductType(self), [self, other]))
      case _ => TypeError
    else if !IsTransformer(other) then
      NotImplemented
    else
      Ok(ConcurrentTransformer(
        lattice.commonSubclass(InputType(self), InputType(other)),
        lattice.commonBase(ProductType(self), ProductType(other)),
        [self, other]))
  }

  /** `BaseTransformer.__rand__` (`other & self`): only a passthrough on the
      left is handled, and it becomes the first branch. */
  function GroupReflected<T>(lattice: TypeOracle, self: Conduit<T>, other: Conduit<T>): (r: Outcome<Conduit<T>>)
    requires WellFormed(self) && IsTransformer(self)
    ensures !other.Passthrough? ==> r.NotImplemented?
    ensures other.Passthrough? ==> (r.TypeError? <==> !lattice.isSubtype(InputType(self), ProductType(self)))
    ensures other.Passthrough? ==> (r.Ok? <==> lattice.isSubtype(InputType(self), ProductType(self)))
    ensures r.Ok? ==> (
      && r.value.ConcurrentTransformer? && r.value.transformers == [other, self]
      && r.value.inputType == InputType(self) && r.value.productType == ProductType(self))
  {
    if other.Passthrough? then
      match ValidateConcurrentPassthrough(lattice, self)
      case Ok(_) => Ok(ConcurrentTransformer(InputType(self), ProductType(self), [other, self]))
      case _ => TypeError
    else
      NotImplemented
  }

  /** `BaseTransformer.__rshift__` (`self >> other`). */
  function BaseThen<T>(self: Conduit<T>, other: Conduit<T>): (r: Outcome<Conduit<T>>)
    requires IsTransformer(self)
    ensures r.Ok? <==> IsTransformer(other)
    ensures r.Ok? ==> (
      && r.value.Chained? && r.value.kind == ChainedConcurrentTransformer
      && r.value.source == self && r.value.processor == other)
    ensures !r.Ok? ==> r.NotImplemented?
  {
    if IsTransformer(other) then Ok(Chained(ChainedConcurrentTransformer, self, other)) else NotImplemented
  }

  /** `SerialTransformer.__rshift__`: two serial transformers chain serially;
      anything else goes to the base class. */
  function SerialThen<T>(self: Conduit<T>, other: Conduit<T>): (r: Outcome<Conduit<T>>)
    requires IsSerialTransformer(self)
    ensures IsSerialTransformer(other) ==> (
      && r.Ok? && r.value.Chained? && r.value.kind == ChainedTransformer
      && r.value.source == self && r.value.processor == other)
    ensures !IsSerialTransformer(other) ==> r == BaseThen(self, other)
  {
    if IsSerialTransformer(other) then Ok(Chained(ChainedTransformer, self, other)) else BaseThen(self, other)
  }

  /** `self >> other` for a transformer `self`, resolved on `self`'s class. */
  function Then<T>(self: Conduit<T>, other: Conduit<T>): (r: Outcome<Conduit<T>>)
    requires IsTransformer(self)
    ensures r.Ok? <==> IsTransformer(other)
    ensures r.Ok? ==> (
      && r.value.Chained? && r.value.source == self && r.value.processor == other
      && (r.value.kind == ChainedTransformer <==> IsSerialTransformer(self) && IsSerialTransformer(other))
      && (r.value.kind == ChainedTransformer || r.value.kind == ChainedConcurrentTransformer))
    ensures !r.Ok? ==> r.NotImplemented?
  {
    if IsSerialTransformer(self) then SerialThen(self, other) else BaseThen(self, other)
  }

  /** `BaseTransformer.__rrshift__` (`other >> self` with a producer on the left). */
  function BaseThenReflected<T>(self: Conduit<T>, other: Conduit<T>): (r: Outcome<Conduit<T>>)
    requires IsTransformer(self)
    ensures r.Ok? <==> IsProducer(other)
    ensures r.Ok? ==> (
      && r.value.Chained? && r.value.source == other && r.value.processor == self
      && r.value.kind == (if IsSerialProducer(other) then ChainedConcurrentTransformedProducer else ChainedConcurrentProducer))
    ensures !r.Ok? ==> r.NotImplemented?
  {
    if IsSerialProducer(other) then
      Ok(Chained(ChainedConcurrentTransformedProducer, other, self))
    else if IsProducer(other) then
      Ok(Chained(ChainedConcurrentProducer, other, self))
    else
      NotImplemented
  }

  /** `SerialTransformer.__rrshift__`: a serial producer and a serial
      transformer chain into a serial producer; anything else goes to the base class. */
  function SerialThenReflected<T>(self: Conduit<T>, other: Conduit<T>): (r: Outcome<Conduit<T>>)
    requires IsSerialTransformer(self)
    ensures IsSerialProducer(other) ==> (
      && r.Ok? && r.value.Chained? && r.value.kind == ChainedProducer
      && r.value.source == other && r.value.processor == self)
    ensures !IsSerialProducer(other) ==> r == BaseThenReflected(self, other)
  {
    if IsSerialProducer(other) then Ok(Chained(ChainedProducer, other, self)) else BaseThenReflected(self, other)
  }

  /** `other >> self` for a transformer `self` and a producer `other`,
      resolved on `self`'s class. */
  function ThenReflected<T>(self: Conduit<T>, other: Conduit<T>): (r: Outcome<Conduit<T>>)
    requires IsTransformer(self)
    ensures r.Ok? <==> IsProducer(other)
    ensures r.Ok? ==> (
      && r.value.Chained? && r.value.source == other && r.value.processor == self
      && (IsSerialProducer(r.value) <==> IsSerialProducer(other) && IsSerialTransformer(self))
      && IsProducer(r.value))
    ensures !r.Ok? ==> r.NotImplemented?
  {
    if IsSerialTransformer(self) then SerialThenReflected(self, other) else BaseThenReflected(self, other)
  }

  /** `SerialTransformer.iter_concurrent_producers`: one producer, the source
      chained with this transformer. */
  function IterConcurrentProducers<T>(self: Conduit<T>, source: Conduit<T>): (r: seq<Conduit<T>>)
    requires IsSerialTransformer(self) && IsSerialProducer(source)
    ensures |r| == 1 && ThenReflected(self, source) == Ok(r[0])
    ensures IsSerialProducer(r[0]) && r[0].source == source && r[0].processor == self
  {
    [ThenReflected(self, source).value]
  }

  // ---------------------------------------------------------------------
  // The composites the operators build keep the tree's invariants

  /** `>>` between transformers builds a well-formed transformer chain with
      the source's input type and the processor's product type, and keeps
      the passthrough typing rule. */
  lemma ThenBuildsChain<T>(lattice: TypeOracle, self: Conduit<T>, other: Conduit<T>)
    requires WellFormed(self) && IsTransformer(self) && WellFormed(other) && IsTransformer(other)
    ensures var r := Then(self, other);
      && r.Ok? && WellFormed(r.value) && IsTransformer(r.value)
      && (IsSerialTransformer(r.value) <==> IsSerialTransformer(self) && IsSerialTransformer(other))
      && InputType(r.value) == InputType(self) && ProductType(r.value) == ProductType(other)
      && (PassthroughSound(lattice, self) && PassthroughSound(lattice, other) ==> PassthroughSound(lattice, r.value))
  {
  }

  /** `>>` from a producer to a transformer builds a well-formed producer
      chain emitting the transformer's product type. */
  lemma ThenReflectedBuildsChain<T>(lattice: TypeOracle, self: Conduit<T>, other: Conduit<T>)
    requires WellFormed(self) && IsTransformer(self) && WellFormed(other) && IsProducer(other)
    ensures var r := ThenReflected(self, other);
      && r.Ok? && WellFormed(r.value) && IsProducer(r.value) && !IsTransformer(r.value)
      && ProductType(r.value) == ProductType(self)
      && (PassthroughSound(lattice, self) && PassthroughSound(lattice, other) ==> PassthroughSound(lattice, r.value))
  {
  }

  /** `&` of transformers (in either order with a passthrough) builds a
      well-formed concurrent transformer that is not a chain and keeps the
      passthrough typing rule. */
  lemma GroupBuildsConcurrentTransformer<T>(lattice: TypeOracle, self: Conduit<T>, other: Conduit<T>)
    requires WellFormed(self) && IsTransformer(self) && WellFormed(other)
    requires PassthroughSound(lattice, self) && PassthroughSound(lattice, other)
    ensures var r := Group(lattice, self, other);
      r.Ok? ==> (
        && WellFormed(r.value) && IsTransformer(r.value) && !IsSerialTransformer(r.value)
        && !r.value.Chained? && PassthroughSound(lattice, r.value))
    ensures var r := GroupReflected(lattice, self, other);
      r.Ok? ==> (
        && WellFormed(r.value) && IsTransformer(r.value) && !IsSerialTransformer(r.value)
        && !r.value.Chained? && PassthroughSound(lattice, r.value))
  {
    var r := Group(lattice, self, other);
    if r.Ok? {
      var ts := r.value.transformers;
      assert ts[0] == self && ts[1] == other;
      if HasPassthroughMember(ts) {
        assert other.Passthrough?;
      }
    }
  }

  /** Every well-formed chain is exactly what `>>` builds from its source and
      processor: the kind of a chain is decided by its operands. */
  lemma WellFormedChainIsBuilt<T>(c: Conduit<T>)
    requires WellFormed(c) && c.Chained?
    ensures IsTransformer(c.source) ==> Then(c.source, c.processor) == Ok(c)
    ensures IsProducer(c.source) ==> ThenReflected(c.processor, c.source) == Ok(c)
    ensures IsTransformer(c.source) != IsProducer(c.source)
  {
  }
}
