/** MapperContext as a standalone class: its own depth counter, limit,
    additional-context dictionary and reference cache.  Its GetOrMapObject
    follows the same register-before-populate rule as MapperContextBase, but
    its IncrementDepth refuses when the limit is ABOVE the current depth, the
    reverse of the base class's test. */
module Context {
  import opened Wrappers
  import opened ObjectGraph
  import opened ContextBase

  /** The lifted C# comparison `MaxDepth > Depth` on an `int?`: false when there is no limit. */
  predicate LimitAbove(depth: int, maxDepth: Option<int>) {
    maxDepth.Some? && maxDepth.value > depth
  }

  /** A limit above `depth` is above no depth from `depth + 1` upward once it is not above `depth`. */
  lemma LimitAboveMonotone(depth: int, deeper: int, maxDepth: Option<int>)
    requires !LimitAbove(depth, maxDepth) && depth <= deeper
    ensures !LimitAbove(deeper, maxDepth)
  {
  }

  class MapperContext {
    var depth: int
    const maxDepth: Option<int>
    /** AdditionalContext. */
    var additionalContext: map<string, object>
    /** _existingRefencedObjects, keyed by source identity. */
    var cache: map<NodeId, DestNode>

    ghost predicate Valid()
      reads this
    {
      depth >= 0
    }

    /** What a successful walk leaves behind: the depth is back and the cache is consistent. */
    ghost predicate Settled(g: SourceGraph, pending: set<NodeId>, depth0: int)
      reads this, cache.Values
    {
      depth == depth0 && Valid() && Consistent(g, cache, pending)
    }

    /** `new MapperContext(maxDepth)`: depth 0, an empty additional context, an empty cache. */
    constructor (maxDepth: Option<int>)
      ensures Valid()
      ensures depth == 0 && this.maxDepth == maxDepth
      ensures additionalContext == map[] && cache == map[]
    {
      depth := 0;
      this.maxDepth := maxDepth;
      additionalContext := map[];
      cache := map[];
    }

    /** `new MapperContext(additionalContext, maxDepth)`: the given dictionary becomes AdditionalContext. */
    constructor WithAdditionalContext(additionalContext: map<string, object>, maxDepth: Option<int>)
      ensures Valid()
      ensures depth == 0 && this.maxDepth == maxDepth
      ensures this.additionalContext == additionalContext && cache == map[]
    {
      depth := 0;
      this.maxDepth := maxDepth;
      this.additionalContext := additionalContext;
      cache := map[];
    }

    /** Throws MaxMapDepthException, leaving the depth alone, exactly when the limit is above the depth. */
    method IncrementDepth() returns (r: Outcome)
      modifies this`depth
      ensures r.Fail? <==> LimitAbove(old(depth), maxDepth)
      ensures r.Fail? ==> r.error == MaxMapDepthExceeded(maxDepth.value) && depth == old(depth)
      ensures r.Pass? ==> depth == old(depth) + 1
    {
      if LimitAbove(depth, maxDepth) {
        return Fail(MaxMapDepthExceeded(maxDepth.value));
      }
      depth := depth + 1;
      r := Pass;
    }

    /** The decrement, under the debug assertion that the depth never becomes negative. */
    method DecrementDepth()
      requires depth >= 1
      modifies this`depth
      ensures depth == old(depth) - 1 && Valid()
    {
      depth := depth - 1;
    }

    /** GetOrMapObject: a hit returns the cached destination untouched; a miss
        caches a new blank destination before populating it.  It fails exactly
        on a miss when the limit is above the starting depth. */
    method GetOrMapObject(g: SourceGraph, source: NodeId, ghost pending: set<NodeId>) returns (r: Result<DestNode, MapError>)
      requires Closed(g) && source in g
      requires Valid() && Consistent(g, cache, pending)
      modifies this
      decreases |g.Keys - cache.Keys|, 1
      ensures Extends(old(cache), cache) && source in cache
      ensures source in old(cache) ==> r == Success(old(cache)[source]) && cache == old(cache) && depth == old(depth)
      ensures source !in old(cache) ==> fresh(cache[source])
      ensures r.Failure? <==> source !in old(cache) && LimitAbove(old(depth), maxDepth)
      ensures r.Success? ==> r.value == cache[source] && Settled(g, pending, old(depth))
    {
      if source in cache {
        return Success(cache[source]);
      }
      r := MapUncached(g, source, pending);
    }

    /** The miss path of GetOrMapObject. */
    method MapUncached(g: SourceGraph, source: NodeId, ghost pending: set<NodeId>) returns (r: Result<DestNode, MapError>)
      requires Closed(g) && source in g && source !in cache
      requires Valid() && Consistent(g, cache, pending)
      modifies this
      decreases |g.Keys - cache.Keys|, 0
      ensures Extends(old(cache), cache) && source in cache && fresh(cache[source])
      ensures r.Failure? <==> LimitAbove(old(depth), maxDepth)
      ensures r.Success? ==> r.value == cache[source] && Settled(g, pending, old(depth))
    {
      var d := CacheNew(g, source, pending);
      var p := Populate(g, source, d, pending);
      ExtendsThroughInsert(old(cache), source, d, cache);
      if p.Fail? {
        return Failure(p.error);
      }
      r := Success(d);
    }

    /** The source initializer's blank destination, added to the cache under `source`. */
    method CacheNew(g: SourceGraph, source: NodeId, ghost pending: set<NodeId>) returns (d: DestNode)
      requires source in g && source !in cache && Consistent(g, cache, pending)
      modifies this`cache
      ensures fresh(d) && cache == old(cache)[source := d]
      ensures Consistent(g, cache, pending + {source})
      ensures |g.Keys - cache.Keys| < |g.Keys - old(cache).Keys|
    {
      d := new DestNode();
      CachingShrinksUnmapped(g, cache, source, d);
      CacheBlank(g, cache, pending, source, d);
      cache := cache[source := d];
    }

    /** The generated populate method: increment the depth, map and assign
        the members, decrement the depth. */
    method Populate(g: SourceGraph, source: NodeId, d: DestNode, ghost pending: set<NodeId>) returns (r: Outcome)
      requires Closed(g) && source in g && source !in pending
      requires source in cache && cache[source] == d
      requires Valid() && Consistent(g, cache, pending + {source})
      modifies this, d
      decreases |g.Keys - cache.Keys|, 3
      ensures Extends(old(cache), cache)
      ensures r.Fail? <==> LimitAbove(old(depth), maxDepth)
      ensures r.Pass? ==> Settled(g, pending, old(depth))
    {
      r := IncrementDepth();
      if r.Fail? {
        return;
      }
      LimitAboveMonotone(old(depth), depth, maxDepth);
      var mapped;
      r, mapped := MapMembers(g, source, pending);
      if r.Fail? {
        return;
      }
      AssignMembers(g, cache, source, d, mapped, pending);
      DecrementDepth();
    }

    /** Each member's source object goes through GetOrMapObject, in order. */
    method MapMembers(g: SourceGraph, source: NodeId, ghost pending: set<NodeId>) returns (r: Outcome, mapped: seq<DestNode>)
      requires Closed(g) && source in g && source !in pending && source in cache
      requires Valid() && Consistent(g, cache, pending + {source})
      modifies this
      decreases |g.Keys - cache.Keys|, 2
      ensures Extends(old(cache), cache)
      ensures r.Fail? ==> LimitAbove(old(depth), maxDepth)
      ensures r.Pass? ==> Settled(g, pending + {source}, old(depth))
      ensures r.Pass? ==> MappedPrefix(cache, g[source], |g[source]|, mapped)
    {
      var children := g[source];
      mapped := [];
      var i := 0;
      while i < |children|
        invariant 0 <= i <= |children|
        invariant depth == old(depth) && Valid()
        invariant Consistent(g, cache, pending + {source})
        invariant Extends(old(cache), cache)
        invariant MappedPrefix(cache, children, i, mapped)
        invariant |g.Keys - cache.Keys| <= |g.Keys - old(cache).Keys|
      {
        ghost var before := cache;
        var c := GetOrMapObject(g, children[i], pending + {source});
        ExtendsTransitive(old(cache), before, cache);
        if c.Failure? {
          return Fail(c.error), mapped;
        }
        UnmappedShrinks(g, before, cache);
        MappedPrefixGrows(before, cache, children, i, mapped);
        mapped := mapped + [c.value];
        i := i + 1;
      }
      r := Pass;
    }
  }

  /** With a limit of 2, the first IncrementDepth of a fresh context already
      refuses, so mapping any uncached source fails at depth 0. */
  method MapWithMaxDepthTwoRefused() returns (r: Result<DestNode, MapError>)
    ensures r.Failure?
  {
    var g: SourceGraph := map[0 := [1], 1 := [0]];
    var ctx := new MapperContext(Some(2));
    r := ctx.GetOrMapObject(g, 0, {});
  }

  /** Without a limit, mapping a parent whose child refers back to it gives a
      child whose parent is the parent's own destination; mapping the same
      source again with the same context returns the identical destination. */
  method MapCircularTwice() returns (first: DestNode, again: DestNode)
    ensures |first.children| == 1 && |first.children[0].children| == 1
    ensures first.children[0].children[0] == first
    ensures again == first
  {
    var g: SourceGraph := map[0 := [1], 1 := [0]];
    var ctx := new MapperContext(None);
    var r := ctx.GetOrMapObject(g, 0, {});
    assert ctx.Settled(g, {}, 0);
    first := r.value;
    SettledIsMapped(g, ctx.cache, {}, 0);
    assert g[0][0] == 1 && 1 in ctx.cache;
    SettledIsMapped(g, ctx.cache, {}, 1);
    assert first == ctx.cache[0];
    var r2 := ctx.GetOrMapObject(g, 0, {});
    assert r2 == Success(first);
    again := r2.value;
  }
}
