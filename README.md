# Conduit composition algebra of the fluxus pipeline library

fluxus builds data-flow pipelines out of *conduits*: producers that emit
item streams, transformers that expand each upstream item into zero or more
downstream items, and passthrough markers that re-expose the upstream
inside a concurrent group. Two operators compose them: `>>` chains a source
into a processor, and `&` groups branches that run side by side. Every
composite is an immutable tree. The library answers topology questions by
walking that tree: final conduits, connections and isolated conduits.

This project models that algebra as pure Dafny over one datatype,
`Conduits.Conduit<T>`. Its constructors are leaf producers, leaf
transformers, the passthrough marker, concurrent producer and transformer
groups, and `Chained(kind, source, processor)`. `ChainKind` names the five
chained classes that `>>` can build. Class membership, which the library
tests with `isinstance`, is given by the predicates `IsSerialProducer`,
`IsProducer`, `IsSerialTransformer` and `IsTransformer`.

- `TypeLattice` holds the generic-type lattice as an oracle. It has a
  subtype test, a common base and a common subclass, and no laws are
  assumed of it.
- `Streams` defines finite streams as sequences, with flattening and
  flat-map.
- `Conduits` defines the tree, its well-formedness, the types of its
  stages, and the passthrough typing rule `PassthroughSound`. That rule
  says a group with a passthrough branch must consume a subtype of what it
  emits.
- `ChainedBase` models `src/fluxus/core/_chained_base_.py`. A chain answers
  every query from its source and processor. `get_connections` is a
  specification function plus the method `GetConnections`. The method
  builds the processor's ingoing list as a local variable and then extends
  it, as the library does.
- `TransformerBase` models `src/fluxus/core/transformer/_transformer_base.py`.
  It covers `process` as a flat-map, the passthrough check, and the `&` and
  `>>` dispatch.
- `ProducerBase` models `src/fluxus/core/producer/_producer_base.py`. It
  covers `produce`, `iter_concurrent_producers`, the default `aproduce`, and
  the `&` and `>>` dispatch. `Produce` stands for both `produce()` and
  `__iter__`, because `__iter__` returns `produce()` unchanged.

Each dunder method is one function returning an `Outcome`: `Ok(value)`,
`NotImplemented` (the operand is declined) or `TypeError`.

Some answers are computed by classes outside the three modelled files. The
functions take those answers as record parameters:

- the chained classes of `src/fluxus/core/_chained_.py`;
- the leaf and group answers to the topology queries;
- the `_has_passthrough` flag;
- `produce`/`transform` of chained serial stages;
- `iter_concurrent_producers` of chained concurrent producers.

The records are `ChainedBase.Topology`, `ProducerBase.ChainRuntime` and
the `chained` argument of `TransformerBase.Process`. The properties of the
chained case are proved for every possible answer.

`WellFormed` is the shape invariant the builders keep. Every `Ok` result of
the dispatch functions is well formed and passthrough-sound when its
operands are (`ThenBuildsChain`, `ThenReflectedBuildsChain`,
`GroupBuildsConcurrentTransformer`, `ProducerGroupBuildsConcurrentProducer`).
Conversely, every well-formed chain is exactly what `>>` builds from its
own operands (`WellFormedChainIsBuilt`). Every query is a pure function, so
calling a query twice gives the same answer by construction.

## Model

| member | source | states |
|---|---|---|
| `ChainedBase.IsChained` | src/fluxus/core/_chained_base_.py:61-67 | `is_chained` is true exactly for chained composites, and false for leaves and groups |
| `ChainedBase.FinalConduitsOfChain` | src/fluxus/core/_chained_base_.py:84-90 | a chain's finals are the source's finals, in order, when the processor has a passthrough (none otherwise), followed by the processor's finals; so an id is final iff it is final in the processor or, with a processor passthrough, in the source |
| `ChainedBase.FinalConduitsWithoutPassthrough` | src/fluxus/core/_chained_base_.py:86-90 | without a passthrough in the processor, a chain's finals are exactly the processor's finals |
| `ChainedBase.FinalConduitsDrawnFromFrontier` | src/fluxus/core/_chained_base_.py:84-90 | the walk yields only finals of the non-chained parts of the tree, each at most as often as those parts report it (finite, no revisits) |
| `ChainedBase.ProcessorIngoing` | src/fluxus/core/_chained_base_.py:106-111 | the processor is fed the source's finals, followed by the caller's ingoing iff the source has a passthrough; otherwise exactly the source's finals |
| `ChainedBase.ConnectionsOfChain` | src/fluxus/core/_chained_base_.py:100-114 | the source's connections, computed with the caller's ingoing, form a prefix; the processor's connections with the processor's ingoing follow |
| `ChainedBase.ProcessorIgnoresIngoingWithoutPassthrough` | src/fluxus/core/_chained_base_.py:106-114 | when the source has no passthrough, the processor's connections do not depend on what the chain is fed |
| `ChainedBase.GetConnections` | src/fluxus/core/_chained_base_.py:92-114 | the method building a local ingoing list returns exactly the connections the specification walk defines |
| `ChainedBase.IsolatedConduits` | src/fluxus/core/_chained_base_.py:116-119 | a chain has no isolated conduits |
| `ChainedBase.ChainedConduitsOfChain` | src/fluxus/core/_chained_base_.py:143-149 | a serial chain lists its source's chained conduits, then its final conduit, which is the processor's; the length grows by one |
| `ChainedBase.ChainedConduitsFlatten` | src/fluxus/core/_chained_base_.py:143-149 | flattening a serial chain gives its first stage's chained conduits, then one entry per chain on the source spine: counting back from the end, the `j`-th is the final conduit of the chain `j` steps down the spine, so the last is the chain's own |
| `TransformerBase.Process` | src/fluxus/core/transformer/_transformer_base.py:218-223 | processing empty input yields nothing; processing one item yields that item's expansion |
| `TransformerBase.ProcessAppend` | src/fluxus/core/transformer/_transformer_base.py:218-223 | `process(a + b) == process(a) + process(b)`: outputs keep the input order |
| `TransformerBase.ProcessMembership` | src/fluxus/core/transformer/_transformer_base.py:222-223 | an item is output iff it is in the expansion of some input item |
| `TransformerBase.ProcessDoubling` | src/fluxus/core/transformer/_transformer_base.py:218-223 | mapping `x` to `[x, x]` over `[1, 2]` gives `[1, 1, 2, 2]` |
| `TransformerBase.ValidateConcurrentPassthrough` | src/fluxus/core/transformer/_transformer_base.py:320-339 | raises `TypeError` exactly when the conduit is not a passthrough and its input type is not a subtype of its product type |
| `TransformerBase.Group` | src/fluxus/core/transformer/_transformer_base.py:91-117 | `T & P` fails with `TypeError` iff T's input is not a subtype of its product, and succeeds iff it is, keeping T's types with P second; `T & U` narrows the input to the common subclass and widens the product to the common base, with members (T, U); other operands are declined |
| `TransformerBase.GroupReflected` | src/fluxus/core/transformer/_transformer_base.py:119-131 | `P & T` fails with `TypeError` iff T's input is not a subtype of its product and succeeds iff it is, keeping T's types with the passthrough first; any other left operand is declined |
| `TransformerBase.BaseThen` | src/fluxus/core/transformer/_transformer_base.py:150-165 | a transformer operand gives a chained concurrent transformer (self, other); anything else is declined |
| `TransformerBase.SerialThen` | src/fluxus/core/transformer/_transformer_base.py:271-289 | serial `>>` serial gives a serial chained transformer; any other operand goes to the base class |
| `TransformerBase.Then` | src/fluxus/core/transformer/_transformer_base.py:283-289 | for transformers, `>>` succeeds iff the operand is a transformer; the chain is serial iff both are serial, and is a concurrent chained transformer otherwise |
| `TransformerBase.BaseThenReflected` | src/fluxus/core/transformer/_transformer_base.py:182-196 | a serial producer gives a chained concurrent transformed producer; any other producer gives a chained concurrent producer; anything else is declined |
| `TransformerBase.SerialThenReflected` | src/fluxus/core/transformer/_transformer_base.py:303-312 | a serial producer and a serial transformer give a serial chained producer; other producers go to the base class |
| `TransformerBase.ThenReflected` | src/fluxus/core/transformer/_transformer_base.py:306-312 | producer `>>` transformer succeeds iff the left operand is a producer; the result is a producer, and serial iff both operands are serial |
| `TransformerBase.IterConcurrentProducers` | src/fluxus/core/transformer/_transformer_base.py:211-216 | a serial transformer yields exactly one producer, `source >> self`, a serial producer |
| `TransformerBase.ThenBuildsChain` | src/fluxus/core/transformer/_transformer_base.py:160-163 | chaining two transformers always succeeds with a well-formed transformer chain; its input type is the source's, its product type the processor's, and the passthrough rule is kept |
| `TransformerBase.ThenReflectedBuildsChain` | src/fluxus/core/transformer/_transformer_base.py:186-194 | producer `>>` transformer always succeeds with a well-formed producer that emits the transformer's product type and keeps the passthrough rule |
| `TransformerBase.GroupBuildsConcurrentTransformer` | src/fluxus/core/transformer/_transformer_base.py:100-117 | every group `&` builds is a well-formed, non-chained concurrent transformer satisfying the passthrough rule |
| `TransformerBase.WellFormedChainIsBuilt` | src/fluxus/core/transformer/_transformer_base.py:271-312 | every well-formed chain is exactly the result of `>>` on its own source and processor, so a chain's kind is decided by its operands |
| `ProducerBase.ConcurrentProducers` | src/fluxus/core/producer/_producer_base.py:144-146 | a serial producer's concurrent producers are exactly itself (what a group lists is an assumption, see Left out) |
| `ProducerBase.AProduce` | src/fluxus/core/producer/_producer_base.py:148-157 | the default asynchronous production yields the same items, in the same order, as `produce()` |
| `ProducerBase.ProduceIsConcatenation` | src/fluxus/core/producer/_producer_base.py:182-189 | every producer emits its concurrent producers' products one producer after another, in enumeration order |
| `ProducerBase.ProducerGroup` | src/fluxus/core/producer/_producer_base.py:99-115 | `P & Q` of producers is a concurrent producer with members (P, Q) and the common base of their product types; a non-producer is declined |
| `ProducerBase.ProducerGroupBuildsConcurrentProducer` | src/fluxus/core/producer/_producer_base.py:99-115 | the producer group is well formed, not serial and not a chain, and keeps the passthrough rule |
| `ProducerBase.ProduceOfGroup` | src/fluxus/core/producer/_producer_base.py:182-189 | a group of two producers emits all of the first's products, then all of the second's (concatenation, not interleaving) |
| `ProducerBase.ProduceOfGroupIsAssociative` | src/fluxus/core/producer/_producer_base.py:182-189 | `(a & b) & c` and `a & (b & c)` emit the same items: those of a, then b, then c |
| `ProducerBase.ProduceOfGroupExample` | src/fluxus/core/producer/_producer_base.py:182-189 | producers emitting `[1, 2]` and `[3, 4]`, grouped, emit `[1, 2, 3, 4]` |
| `ProducerBase.BaseProducerThen` | src/fluxus/core/producer/_producer_base.py:117-127 | a consumer operand gives a group flow of (producer, consumer); anything else is declined |
| `ProducerBase.SerialProducerThen` | src/fluxus/core/producer/_producer_base.py:159-169 | a consumer operand gives a single-producer flow of (producer, consumer); anything else is declined |
| `ProducerBase.ProducerThen` | src/fluxus/core/producer/_producer_base.py:159-169 | `producer >> consumer` gives a single-producer flow exactly for a serial producer and a group flow otherwise; other operands are declined |

## Left out

- The asynchronous paths, because their first-ready interleaving is cooperative concurrency. These are `ConcurrentProducer.aproduce`, `SerialTransformer.aprocess`/`atransform`, `ConcurrentTransformer.aprocess` and `__aiter__`. Only the sync-equivalent order of the default `SerialProducer.aproduce` is kept, as `AProduce`.
- `ConcurrentTransformer.process`, because it wraps its input in a simple producer and chains. `src/fluxus/simple` and `src/fluxus/core/_chained_.py` are not part of this model.
- `to_expression`, because it only hands both operands to the expression renderer, which is not part of this model.
- The real type lattice (`get_common_generic_base`, `get_common_generic_subclass`, `issubclass_generic`). `TypeOracle` stands for it, and no lattice laws are assumed or proved.
- The behaviour of classes outside the three modelled files. It is taken as a parameter and is not defined here:
  - leaf and group answers to `get_final_conduits`, `get_connections`, `get_isolated_conduits` and `chained_conduits`;
  - `_has_passthrough`;
  - `produce`/`transform` of the chained serial classes;
  - `iter_concurrent_producers` of the chained concurrent producers and of concurrent transformers.
- A chain's input and product types are taken to be its source's input type and its processor's product type. The chained classes that define them are not part of this model.
- A producer group's `iter_concurrent_producers` is taken to list its members' producers in member order.
- A serial chain's `final_conduit` is taken to be its processor's. `final_conduit` is only read by the modelled files; the classes that define it are not part of this model.
- Producers other than serial ones are taken to produce through `ConcurrentProducer.produce`.
- The operator protocol: falling back to the other operand's reflected method after `NotImplemented`, the `@overload` stubs, `@inheritdoc` and logging. Each dunder method is modelled on its own.
- Consumer and flow internals beyond which flow class is built. A consumer is represented only by its id.
- Streams are finite sequences. Laziness, infinite producers and exceptions raised by leaf stages are not modelled.
