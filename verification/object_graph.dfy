/** The object graphs a reference-preserving mapping walks.  A source object
    is a node id; the graph lists, for each source object, the source objects
    its mapped members reference, in member order.  A destination object is a
    heap object whose `children` are the destinations assigned to those
    members. */
module ObjectGraph {

  type NodeId = nat

  type SourceGraph = map<NodeId, seq<NodeId>>

  /** Every member reference leads to an object of the graph. */
  ghost predicate Closed(g: SourceGraph) {
    forall n, i | n in g && 0 <= i < |g[n]| :: g[n][i] in g
  }

  class DestNode {
    var children: seq<DestNode>

    /** The blank destination a source initializer returns. */
    constructor ()
      ensures children == []
    {
      children := [];
    }
  }

  /** Distinct source objects are never given the same destination. */
  ghost predicate Injective(cache: map<NodeId, DestNode>) {
    forall a, b | a in cache && b in cache && a != b :: cache[a] != cache[b]
  }

  /** The destination of `s` holds, member by member, the cached destinations of the members of `s`. */
  ghost predicate Mapped(g: SourceGraph, cache: map<NodeId, DestNode>, s: NodeId)
    requires s in g && s in cache
    reads cache[s]
  {
    && |cache[s].children| == |g[s]|
    && forall i | 0 <= i < |g[s]| :: g[s][i] in cache && cache[s].children[i] == cache[g[s][i]]
  }

  /** The reference cache agrees with the source graph: every cached source
      object that is not still being populated is mapped. */
  ghost predicate Consistent(g: SourceGraph, cache: map<NodeId, DestNode>, pending: set<NodeId>)
    reads cache.Values
  {
    && cache.Keys <= g.Keys
    && pending <= cache.Keys
    && Injective(cache)
    && forall s {:trigger Mapped(g, cache, s)} | s in cache && s !in pending :: Mapped(g, cache, s)
  }

  /** A consistent cache maps each of its settled source objects. */
  lemma SettledIsMapped(g: SourceGraph, cache: map<NodeId, DestNode>, pending: set<NodeId>, s: NodeId)
    requires Consistent(g, cache, pending) && s in cache && s !in pending
    ensures s in g && Mapped(g, cache, s)
  {
  }

  /** The cache only grows: every entry of `before` is still in `after`, unchanged. */
  predicate Extends(before: map<NodeId, DestNode>, after: map<NodeId, DestNode>) {
    forall k | k in before :: k in after && after[k] == before[k]
  }

  lemma ExtendsTransitive(a: map<NodeId, DestNode>, b: map<NodeId, DestNode>, c: map<NodeId, DestNode>)
    requires Extends(a, b) && Extends(b, c)
    ensures Extends(a, c)
  {
  }

  /** The first `n` entries of `dsts` are the cached destinations of the first `n` of `srcs`. */
  predicate MappedPrefix(cache: map<NodeId, DestNode>, srcs: seq<NodeId>, n: nat, dsts: seq<DestNode>) {
    && n <= |srcs| && |dsts| == n
    && forall j | 0 <= j < n :: srcs[j] in cache && dsts[j] == cache[srcs[j]]
  }

  lemma MappedPrefixGrows(before: map<NodeId, DestNode>, after: map<NodeId, DestNode>,
                          srcs: seq<NodeId>, n: nat, dsts: seq<DestNode>)
    requires MappedPrefix(before, srcs, n, dsts) && Extends(before, after)
    requires n < |srcs| && srcs[n] in after
    ensures MappedPrefix(after, srcs, n + 1, dsts + [after[srcs[n]]])
  {
  }

  lemma {:induction false} SubsetCardinality<T>(a: set<T>, b: set<T>)
    requires a <= b
    ensures |a| <= |b|
    decreases a
  {
    if a != {} {
      var x :| x in a;
      SubsetCardinality(a - {x}, b - {x});
    }
  }

  /** The number of source objects still unmapped never grows as the cache grows. */
  lemma UnmappedShrinks(g: SourceGraph, before: map<NodeId, DestNode>, after: map<NodeId, DestNode>)
    requires Extends(before, after)
    ensures |g.Keys - after.Keys| <= |g.Keys - before.Keys|
  {
    SubsetCardinality(g.Keys - after.Keys, g.Keys - before.Keys);
  }

  /** Caching one more source object leaves strictly fewer unmapped. */
  lemma CachingShrinksUnmapped(g: SourceGraph, cache: map<NodeId, DestNode>, s: NodeId, d: DestNode)
    requires s in g && s !in cache
    ensures |g.Keys - cache[s := d].Keys| < |g.Keys - cache.Keys|
  {
    assert g.Keys - cache[s := d].Keys == (g.Keys - cache.Keys) - {s};
  }

  /** A cache that extends `cache` with `s` cached extends `cache`, and keeps `s`'s destination. */
  lemma ExtendsThroughInsert(cache: map<NodeId, DestNode>, s: NodeId, d: DestNode, after: map<NodeId, DestNode>)
    requires s !in cache && Extends(cache[s := d], after)
    ensures Extends(cache, after) && s in after && after[s] == d
  {
    assert s in cache[s := d];
  }

  /** Caching a new blank destination for an uncached source keeps the cache
      consistent, with that source pending. */
  lemma CacheBlank(g: SourceGraph, cache: map<NodeId, DestNode>, pending: set<NodeId>, s: NodeId, d: DestNode)
    requires Consistent(g, cache, pending)
    requires s in g && s !in cache && d !in cache.Values
    ensures Consistent(g, cache[s := d], pending + {s})
  {
    var cache' := cache[s := d];
    forall t | t in cache' && t !in pending + {s}
      ensures Mapped(g, cache', t)
    {
      assert Mapped(g, cache, t);
    }
  }

  /** The generated populate method's member assignments: the destination of
      `source` receives the mapped members and stops being pending; no other
      cached destination changes. */
  method AssignMembers(g: SourceGraph, cache: map<NodeId, DestNode>, source: NodeId, d: DestNode,
                       mapped: seq<DestNode>, ghost pending: set<NodeId>)
    requires source in g && source !in pending && source in cache && cache[source] == d
    requires Consistent(g, cache, pending + {source})
    requires MappedPrefix(cache, g[source], |g[source]|, mapped)
    modifies d
    ensures d.children == mapped
    ensures Consistent(g, cache, pending)
  {
    d.children := mapped;
    forall k | k in cache && k !in pending
      ensures Mapped(g, cache, k)
    {
      if k != source {
        assert cache[k] != d;
      }
    }
  }
}
