/** Producers: what a producer emits when iterated synchronously, how a
    producer group enumerates its serial producers, and the `&` and `>>`
    dispatch on the producer side. */
module ProducerBase {
  import opened TypeLattice
  import opened Streams
  import opened Conduits

  /** What the chained producers answer; their classes are implemented
      outside this model. */
  datatype ChainRuntime<!T> = ChainRuntime(
    /** `produce()` of a chained serial producer. */
    produce: Conduit<T> -> seq<T>,
    /** `iter_concurrent_producers()` of a chained concurrent producer. */
    concurrentProducers: Conduit<T> -> seq<Conduit<T>>)

  /** The terminal pipelines `producer >> consumer` builds. */
  datatype Flow<!T> =
    | ProducerFlow(producer: Conduit<T>, consumer: ConduitId)       // one serial producer
    | ProducerGroupFlow(producer: Conduit<T>, consumer: ConduitId)  // any other producer

  /** The right operand of `producer >> ...`: a consumer, or another conduit. */
  datatype Downstream<!T> = ToConsumer(consumer: ConduitId) | ToConduit(conduit: Conduit<T>)

  /** `produce()` of one serial producer: a leaf emits its own products. */
  function SerialProduce<T>(rt: ChainRuntime<T>, p: Conduit<T>): seq<T>
  {
    if p.LeafProducer? then p.products else rt.produce(p)
  }

  /** `iter_concurrent_producers()`: a serial producer is its own single
      concurrent producer; a group enumerates its members' producers in order. */
  function ConcurrentProducers<T>(rt: ChainRuntime<T>, p: Conduit<T>): (r: seq<Conduit<T>>)
    requires WellFormed(p) && IsProducer(p)
    ensures IsSerialProducer(p) ==> r == [p]
    decreases p
  {
    if IsSerialProducer(p) then [p]
    else match p
      case ConcurrentProducer(_, ps) =>
        Flatten(seq(|ps|, i requires 0 <= i < |ps| => ConcurrentProducers(rt, ps[i])))
      case Chained(_, _, _) => rt.concurrentProducers(p)
  }

  /** `produce()` (and `__iter__`): a serial producer's own products; for
      every other producer, the products of its concurrent producers one
      after the other, in enumeration order (`ConcurrentProducer.produce`). */
  function Produce<T>(rt: ChainRuntime<T>, p: Conduit<T>): seq<T>
    requires WellFormed(p) && IsProducer(p)
  {
    if IsSerialProducer(p) then SerialProduce(rt, p)
    else FlatMap(q => SerialProduce(rt, q), ConcurrentProducers(rt, p))
  }

  /** Default `SerialProducer.aproduce`: re-emits `produce()` item by item. */
  function AProduce<T>(rt: ChainRuntime<T>, p: Conduit<T>): (r: seq<T>)
    requires WellFormed(p) && IsSerialProducer(p)
    ensures r == Produce(rt, p)
  {
    var items := Produce(rt, p);
    ReplayIsIdentity(items);
    Replay(items)
  }

  /** Every producer emits exactly what its concurrent producers emit, one
      producer after another. */
  lemma ProduceIsConcatenation<T>(rt: ChainRuntime<T>, p: Conduit<T>)
    requires WellFormed(p) && IsProducer(p)
    ensures Produce(rt, p) == FlatMap(q => SerialProduce(rt, q), ConcurrentProducers(rt, p))
  {
    if IsSerialProducer(p) {
      var f := q => SerialProduce(rt, q);
      assert FlatMap(f, [p]) == f(p) + FlatMap(f, [p][1..]);
      assert [p][1..] == [];
    }
  }

  /** `BaseProducer.__and__` (`self & other`): a group of the two producers
      emitting their common base type. */
  function ProducerGroup<T>(lattice: TypeOracle, self: Conduit<T>, other: Conduit<T>): (r: Outcome<Conduit<T>>)
    requires WellFormed(self) && IsProducer(self) && WellFormed(other)
    ensures r.Ok? <==> IsProducer(other)
    ensures !r.Ok? ==> r.NotImplemented?
    ensures r.Ok? ==> WellFormed(r.value) && IsProducer(r.value) && !IsSerialProducer(r.value)
    ensures r.Ok? ==> (
      && r.value.ConcurrentProducer? && r.value.producers == [self, other]
      && r.value.productType == lattice.commonBase(ProductType(self), ProductType(other)))
  {
    if IsProducer(other) then
      Ok(ConcurrentProducer(lattice.commonBase(ProductType(self), ProductType(other)), [self, other]))
    else
      NotImplemented
  }

  /** The group `&` builds is a well-formed concurrent producer that keeps the
      passthrough typing rule. */
  lemma ProducerGroupBuildsConcurrentProducer<T>(lattice: TypeOracle, self: Conduit<T>, other: Conduit<T>)
    requires WellFormed(self) && IsProducer(self) && WellFormed(other) && IsProducer(other)
    ensures var r := ProducerGroup(lattice, self, other);
      && r.Ok? && WellFormed(r.value) && IsProducer(r.value) && !IsSerialProducer(r.value) && !r.value.Chained?
      && (PassthroughSound(lattice, self) && PassthroughSound(lattice, other) ==> PassthroughSound(lattice, r.value))
  {
  }

  /** A group of two producers emits everything the first emits, then
      everything the second emits: concatenation, not interleaving. */
  lemma {:induction false} ProduceOfGroup<T>(lattice: TypeOracle, rt: ChainRuntime<T>, self: Conduit<T>, other: Conduit<T>)
    requires WellFormed(self) && IsProducer(self) && WellFormed(other) && IsProducer(other)
    ensures ProducerGroup(lattice, self, other).Ok?
    ensures Produce(rt, ProducerGroup(lattice, self, other).value) == Produce(rt, self) + Produce(rt, other)
  {
    var g := ProducerGroup(lattice, self, other).value;
    ProducerGroupBuildsConcurrentProducer(lattice, self, other);
    var parts := seq(2, i requires 0 <= i < 2 => ConcurrentProducers(rt, g.producers[i]));
    assert ConcurrentProducers(rt, g) == Flatten(parts);
    assert parts == [ConcurrentProducers(rt, self)] + [ConcurrentProducers(rt, other)];
    FlattenAppend([ConcurrentProducers(rt, self)], [ConcurrentProducers(rt, other)]);
    assert Flatten([ConcurrentProducers(rt, other)]) == ConcurrentProducers(rt, other) + Flatten([]);
    assert ConcurrentProducers(rt, g) == ConcurrentProducers(rt, self) + ConcurrentProducers(rt, other);
    var f := q => SerialProduce(rt, q);
    FlatMapAppend(f, ConcurrentProducers(rt, self), ConcurrentProducers(rt, other));
    ProduceIsConcatenation(rt, self);
    ProduceIsConcatenation(rt, other);
  }

  /** `&` nests groups in construction order, but what a nested group emits
      does not depend on how it was bracketed. */
  lemma ProduceOfGroupIsAssociative<T>(lattice: TypeOracle, rt: ChainRuntime<T>,
                                       a: Conduit<T>, b: Conduit<T>, c: Conduit<T>, ab: Conduit<T>, bc: Conduit<T>)
    requires WellFormed(a) && IsProducer(a) && WellFormed(b) && IsProducer(b) && WellFormed(c) && IsProducer(c)
    requires ProducerGroup(lattice, a, b) == Ok(ab) && ProducerGroup(lattice, b, c) == Ok(bc)
    ensures ProducerGroup(lattice, ab, c).Ok? && ProducerGroup(lattice, a, bc).Ok?
    ensures Produce(rt, ProducerGroup(lattice, ab, c).value) == Produce(rt, a) + Produce(rt, b) + Produce(rt, c)
    ensures Produce(rt, ProducerGroup(lattice, a, bc).value) == Produce(rt, a) + Produce(rt, b) + Produce(rt, c)
  {
    var pa, pb, pc := Produce(rt, a), Produce(rt, b), Produce(rt, c);
    assert pa + (pb + pc) == pa + pb + pc;
    ProduceOfGroup(lattice, rt, a, b);
    ProduceOfGroup(lattice, rt, b, c);
    ProduceOfGroup(lattice, rt, ab, c);
    ProduceOfGroup(lattice, rt, a, bc);
  }

  /** Producers emitting [1, 2] and [3, 4], grouped, emit [1, 2, 3, 4]. */
  lemma ProduceOfGroupExample(lattice: TypeOracle, rt: ChainRuntime<int>)
    ensures var g := ProducerGroup(lattice, LeafProducer(1, "int", [1, 2]), LeafProducer(2, "int", [3, 4]));
      g.Ok? && Produce(rt, g.value) == [1, 2, 3, 4]
  {
    ProduceOfGroup(lattice, rt, LeafProducer(1, "int", [1, 2]), LeafProducer(2, "int", [3, 4]));
  }

  /** `BaseProducer.__rshift__` (`self >> consumer`): a group flow. */
  function BaseProducerThen<T>(self: Conduit<T>, other: Downstream<T>): (r: Outcome<Flow<T>>)
    requires IsProducer(self)
    ensures r.Ok? <==> other.ToConsumer?
    ensures r.Ok? ==> r.value == ProducerGroupFlow(self, other.consumer)
    ensures !r.Ok? ==> r.NotImplemented?
  {
    match other
    case ToConsumer(consumer) => Ok(ProducerGroupFlow(self, consumer))
    case ToConduit(_) => NotImplemented
  }

  /** `SerialProducer.__rshift__` (`self >> consumer`): a single-producer flow. */
  function SerialProducerThen<T>(self: Conduit<T>, other: Downstream<T>): (r: Outcome<Flow<T>>)
    requires IsSerialProducer(self)
    ensures r.Ok? <==> other.ToConsumer?
    ensures r.Ok? ==> r.value == ProducerFlow(self, other.consumer)
    ensures !r.Ok? ==> r.NotImplemented?
  {
    match other
    case ToConsumer(consumer) => Ok(ProducerFlow(self, consumer))
    case ToConduit(_) => NotImplemented
  }

  /** `self >> other` for a producer `self`, resolved on `self`'s class: a
      consumer caps the pipeline, with a single-producer flow exactly when
      the producer is serial; any other operand is left to its own `>>`. */
  function ProducerThen<T>(self: Conduit<T>, other: Downstream<T>): (r: Outcome<Flow<T>>)
    requires IsProducer(self)
    ensures r.Ok? <==> other.ToConsumer?
    ensures r.Ok? ==> (
      && r.value.producer == self && r.value.consumer == other.consumer
      && (r.value.ProducerFlow? <==> IsSerialProducer(self)))
    ensures !r.Ok? ==> r.NotImplemented?
  {
    if IsSerialProducer(self) then SerialProducerThen(self, other) else BaseProducerThen(self, other)
  }
}
