/** Graph introspection of chained composites: a chain answers every
    topology query by asking its source and its processor, never by storing
    a graph of its own. What a non-chained conduit (a leaf stage or a
    concurrent group) answers is decided by those classes themselves, which
    are not part of this model: their answers, and the `_has_passthrough`
    flag of every conduit, are supplied as a `Topology`. */
module ChainedBase {
  import opened Conduits

  datatype Topology<!T> = Topology(
    /** Whether the conduit contains a passthrough branch. */
    hasPassthrough: Conduit<T> -> bool,
    /** The final conduits of a non-chained conduit. */
    finals: Conduit<T> -> seq<ConduitId>,
    /** The connections of a non-chained conduit, given its ingoing conduits. */
    connections: (Conduit<T>, seq<ConduitId>) -> seq<Connection>,
    /** The isolated conduits of a non-chained conduit. */
    isolated: Conduit<T> -> seq<ConduitId>,
    /** The chained conduits of a non-chained serial conduit. */
    chainedConduits: Conduit<T> -> seq<ConduitId>)

  /** `is_chained`: true exactly for the composites of a source and a processor. */
  function IsChained<T>(c: Conduit<T>): (r: bool)
    ensures r <==> c.Chained?
  {
    match c
    case Chained(_, _, _) => true
    case _ => false
  }

  /** `get_final_conduits`: a chain's processor's finals, preceded by its
      source's finals when the processor re-exposes the upstream through a
      passthrough. */
  function FinalConduits<T>(u: Topology<T>, c: Conduit<T>): seq<ConduitId>
  {
    if c.Chained? then
      (if u.hasPassthrough(c.processor) then FinalConduits(u, c.source) else [])
      + FinalConduits(u, c.processor)
    else
      u.finals(c)
  }

  /** The conduits that feed a chain's processor: the source's finals, and the
      chain's own ingoing conduits when they bypass the source through a
      passthrough. */
  function ProcessorIngoing<T>(u: Topology<T>, source: Conduit<T>, ingoing: seq<ConduitId>): (r: seq<ConduitId>)
    ensures u.hasPassthrough(source) ==> r == FinalConduits(u, source) + ingoing
    ensures !u.hasPassthrough(source) ==> r == FinalConduits(u, source)
    ensures forall x :: x in r <==> x in FinalConduits(u, source) || (u.hasPassthrough(source) && x in ingoing)
  {
    FinalConduits(u, source) + if u.hasPassthrough(source) then ingoing else []
  }

  /** `get_connections`: the source's connections first, then the processor's,
      fed by `ProcessorIngoing`. */
  function Connections<T>(u: Topology<T>, c: Conduit<T>, ingoing: seq<ConduitId>): seq<Connection>
  {
    if c.Chained? then
      Connections(u, c.source, ingoing) + Connections(u, c.processor, ProcessorIngoing(u, c.source, ingoing))
    else
      u.connections(c, ingoing)
  }

  /** `get_connections` as the library runs it: the processor's ingoing list
      is built as a local list from the source's finals and then extended. */
  method GetConnections<T>(u: Topology<T>, c: Conduit<T>, ingoing: seq<ConduitId>) returns (edges: seq<Connection>)
    ensures edges == Connections(u, c, ingoing)
    decreases c
  {
    if !c.Chained? {
      return u.connections(c, ingoing);
    }
    var source, processor := c.source, c.processor;
    edges := GetConnections(u, source, ingoing);
    var processorIngoing := FinalConduits(u, source);
    if u.hasPassthrough(source) {
      processorIngoing := processorIngoing + ingoing;
    }
    var downstream := GetConnections(u, processor, processorIngoing);
    edges := edges + downstream;
  }

  /** `get_isolated_conduits`: a chain is always connected, so it has none. */
  function IsolatedConduits<T>(u: Topology<T>, c: Conduit<T>): (r: seq<ConduitId>)
    ensures c.Chained? ==> r == []
  {
    if c.Chained? then [] else u.isolated(c)
  }

  /** `final_conduit` of a serial conduit: a leaf itself, a chain its processor's. */
  function FinalConduit<T>(c: Conduit<T>): ConduitId
    requires WellFormed(c) && IsSerial(c)
  {
    match c
    case LeafProducer(id, _, _) => id
    case LeafTransformer(id, _, _, _) => id
    case Chained(_, _, p) => FinalConduit(p)
  }

  /** `chained_conduits` of a serial conduit: for a chain, the source's chained
      conduits followed by the chain's own final conduit. */
  function ChainedConduits<T>(u: Topology<T>, c: Conduit<T>): seq<ConduitId>
    requires WellFormed(c) && IsSerial(c)
  {
    if c.Chained? then ChainedConduits(u, c.source) + [FinalConduit(c)] else u.chainedConduits(c)
  }

  // ---------------------------------------------------------------------
  // Properties of the chained case

  /** A chain yields its source's finals, in order, exactly when its
      processor has a passthrough, and then every final of its processor. */
  lemma FinalConduitsOfChain<T>(u: Topology<T>, k: ChainKind, s: Conduit<T>, p: Conduit<T>)
    ensures var r := FinalConduits(u, Chained(k, s, p));
      && (forall x :: x in r <==> x in FinalConduits(u, p) || (u.hasPassthrough(p) && x in FinalConduits(u, s)))
      && |r| == |FinalConduits(u, p)| + (if u.hasPassthrough(p) then |FinalConduits(u, s)| else 0)
      && r[..|r| - |FinalConduits(u, p)|] == (if u.hasPassthrough(p) then FinalConduits(u, s) else [])
      && r[|r| - |FinalConduits(u, p)|..] == FinalConduits(u, p)
  {
  }

  /** Without a passthrough in the processor, the source's finals are hidden. */
  lemma FinalConduitsWithoutPassthrough<T>(u: Topology<T>, k: ChainKind, s: Conduit<T>, p: Conduit<T>)
    requires !u.hasPassthrough(p)
    ensures FinalConduits(u, Chained(k, s, p)) == FinalConduits(u, p)
  {
    assert [] + FinalConduits(u, p) == FinalConduits(u, p);
  }

  /** The final conduits of the maximal non-chained parts of `c`. */
  function FrontierFinals<T>(u: Topology<T>, c: Conduit<T>): multiset<ConduitId>
  {
    if c.Chained? then FrontierFinals(u, c.source) + FrontierFinals(u, c.processor) else multiset(u.finals(c))
  }

  /** The walk yields only finals of non-chained parts of the tree, and each
      no more often than those parts report it: the walk never revisits a part. */
  lemma {:induction false} FinalConduitsDrawnFromFrontier<T>(u: Topology<T>, c: Conduit<T>)
    ensures multiset(FinalConduits(u, c)) <= FrontierFinals(u, c)
  {
    if c.Chained? {
      FinalConduitsDrawnFromFrontier(u, c.source);
      FinalConduitsDrawnFromFrontier(u, c.processor);
      var upstream := if u.hasPassthrough(c.processor) then FinalConduits(u, c.source) else [];
      assert multiset(FinalConduits(u, c)) == multiset(upstream) + multiset(FinalConduits(u, c.processor));
      assert multiset(upstream) <= FrontierFinals(u, c.source);
    }
  }

  /** All of the source's connections, computed with the chain's own ingoing
      conduits, come before every connection of the processor. */
  lemma ConnectionsOfChain<T>(u: Topology<T>, k: ChainKind, s: Conduit<T>, p: Conduit<T>, ingoing: seq<ConduitId>)
    ensures var r := Connections(u, Chained(k, s, p), ingoing);
      var n := |Connections(u, s, ingoing)|;
      && n <= |r|
      && r[..n] == Connections(u, s, ingoing)
      && r[n..] == Connections(u, p, ProcessorIngoing(u, s, ingoing))
  {
  }

  /** Without a passthrough in the source, the chain's ingoing conduits do not
      reach the processor: its connections are the same whatever the chain is fed. */
  lemma ProcessorIgnoresIngoingWithoutPassthrough<T>(u: Topology<T>, k: ChainKind, s: Conduit<T>, p: Conduit<T>,
                                                     ingoing: seq<ConduitId>, other: seq<ConduitId>)
    requires !u.hasPassthrough(s)
    ensures var r := Connections(u, Chained(k, s, p), ingoing);
      var r' := Connections(u, Chained(k, s, p), other);
      r[|Connections(u, s, ingoing)|..] == r'[|Connections(u, s, other)|..]
  {
    ConnectionsOfChain(u, k, s, p, ingoing);
    ConnectionsOfChain(u, k, s, p, other);
  }

  /** A serial chain lists its source's chained conduits and then its own
      final conduit, which is its processor's. */
  lemma ChainedConduitsOfChain<T>(u: Topology<T>, c: Conduit<T>)
    requires WellFormed(c) && IsSerial(c) && c.Chained?
    ensures var r := ChainedConduits(u, c);
      && |r| == |ChainedConduits(u, c.source)| + 1
      && r[..|r| - 1] == ChainedConduits(u, c.source)
      && r[|r| - 1] == FinalConduit(c) == FinalConduit(c.processor)
  {
  }

  /** The first stage of a serial conduit: follow sources down to a non-chained one. */
  function Head<T>(c: Conduit<T>): (h: Conduit<T>)
    requires WellFormed(c) && IsSerial(c)
    ensures WellFormed(h) && IsSerial(h) && !h.Chained?
  {
    if c.Chained? then Head(c.source) else c
  }

  /** The number of chains along the source spine of `c`. */
  function SpineLength<T>(c: Conduit<T>): nat
    requires WellFormed(c) && IsSerial(c)
  {
    if c.Chained? then 1 + SpineLength(c.source) else 0
  }

  /** The chain `j` steps down the source spine of `c` (`c` itself at 0). */
  function SpineAt<T>(c: Conduit<T>, j: nat): (d: Conduit<T>)
    requires WellFormed(c) && IsSerial(c) && j < SpineLength(c)
    ensures WellFormed(d) && IsSerial(d) && d.Chained?
  {
    if j == 0 then c else SpineAt(c.source, j - 1)
  }

  /** Flattening a serial chain lists its first stage's chained conduits and
      then one final conduit per chain on the source spine: counting back
      from the end, the `j`-th is that of the chain `j` steps down the spine. */
  lemma {:induction false} ChainedConduitsFlatten<T>(u: Topology<T>, c: Conduit<T>)
    requires WellFormed(c) && IsSerial(c)
    ensures var r := ChainedConduits(u, c);
      && |r| == |u.chainedConduits(Head(c))| + SpineLength(c)
      && r[..|u.chainedConduits(Head(c))|] == u.chainedConduits(Head(c))
      && (forall j :: 0 <= j < SpineLength(c) ==>
            r[|r| - 1 - j] == FinalConduit(SpineAt(c, j)))
      && (c.Chained? ==> r[|r| - 1] == FinalConduit(c))
  {
    if c.Chained? {
      ChainedConduitsFlatten(u, c.source);
      var prefix := ChainedConduits(u, c.source);
      var h := u.chainedConduits(Head(c));
      var r := prefix + [FinalConduit(c)];
      assert ChainedConduits(u, c) == r;
      assert r[..|h|] == prefix[..|h|];
      forall j | 0 <= j < SpineLength(c)
        ensures r[|r| - 1 - j] == FinalConduit(SpineAt(c, j))
      {
        if j > 0 {
          assert SpineAt(c, j) == SpineAt(c.source, j - 1);
          assert r[|r| - 1 - j] == prefix[|prefix| - 1 - (j - 1)];
        }
      }
    }
  }
}
