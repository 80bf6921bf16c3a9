/** MapperContextBase: the depth counter with its optional limit, and the
    reference cache behind GetOrMapObject.  The generated Populate method a
    mapper passes to GetOrMapObject is modelled by `Populate`: it increments
    the depth, runs the pre-map hook (which records the depth it sees), maps
    each member through GetOrMapObject, assigns the mapped members, and
    decrements the depth. */
module ContextBase {
  import opened Wrappers
  import opened ObjectGraph

  datatype MapError = MaxMapDepthExceeded(maxDepth: int)

  datatype Outcome = Pass | Fail(error: MapError)

  /** The lifted C# comparison `depth >= maxDepth` on an `int?`: false when there is no limit. */
  predicate AtOrOverLimit(depth: int, maxDepth: Option<int>) {
    maxDepth.Some? && depth >= maxDepth.value
  }

  /** Mapping `unmapped` more objects from `depth` stays within the limit. */
  predicate WithinBudget(depth: int, maxDepth: Option<int>, unmapped: nat) {
    maxDepth.None? || depth + unmapped <= maxDepth.value
  }

  /** How many objects the walk meets from `s` by following each object's
      first member while it is not yet cached: every one of them is mapped
      one level deeper than the one before. */
  ghost function UncachedFirstChain(g: SourceGraph, cached: set<NodeId>, s: NodeId): (n: nat)
    requires Closed(g) && s in g
    decreases |g.Keys - cached|
    ensures n == 0 <==> s in cached
  {
    if s in cached then 0
    else
      assert g.Keys - (cached + {s}) == (g.Keys - cached) - {s};
      1 + (if g[s] == [] then 0 else UncachedFirstChain(g, cached + {s}, g[s][0]))
  }

  /** Mapping the uncached `s` from `depth` goes past the limit along the
      chain of first members. */
  ghost predicate ChainPastLimit(g: SourceGraph, cached: set<NodeId>, s: NodeId, depth: int, maxDepth: Option<int>)
    requires Closed(g) && s in g
  {
    maxDepth.Some? && s !in cached && depth + UncachedFirstChain(g, cached, s) > maxDepth.value
  }

  /** Going past the limit along the chain from `s` is either `s` itself
      finding the limit reached, or its first member going past it one level deeper. */
  lemma ChainPastLimitStep(g: SourceGraph, cache: map<NodeId, DestNode>, s: NodeId, d: DestNode, depth: int, maxDepth: Option<int>)
    requires Closed(g) && s in g
    ensures ChainPastLimit(g, cache.Keys, s, depth, maxDepth) ==>
      AtOrOverLimit(depth, maxDepth) || (g[s] != [] && ChainPastLimit(g, cache[s := d].Keys, g[s][0], depth + 1, maxDepth))
  {
    assert cache[s := d].Keys == cache.Keys + {s};
  }

  /** What a pre-map hook saw: the source being mapped and the context depth. */
  datatype HookCall = HookCall(source: NodeId, depth: int)

  /** Every hook call logged at or after `from` saw a depth between `lo` and the limit. */
  predicate HookDepthsWithin(log: seq<HookCall>, from: nat, lo: int, maxDepth: Option<int>) {
    forall j | from <= j < |log| :: lo <= log[j].depth && (maxDepth.Some? ==> log[j].depth <= maxDepth.value)
  }

  /** Every source cached since `before` has a hook call logged at or after `from`. */
  predicate HooksCover(log: seq<HookCall>, from: nat, cache: map<NodeId, DestNode>, before: map<NodeId, DestNode>) {
    forall k | k in cache && k !in before :: exists j | from <= j < |log| :: log[j].source == k
  }

  /** From the cache and hook log `cache0`, `log0` to `cache`, `log`: the
      cache only grew, the log only grew, every hook call logged since saw a
      depth between `lo` and the limit, and every newly cached source had its
      hook called. */
  predicate Grew(cache0: map<NodeId, DestNode>, cache: map<NodeId, DestNode>,
                 log0: seq<HookCall>, log: seq<HookCall>, lo: int, maxDepth: Option<int>) {
    && Extends(cache0, cache)
    && log0 <= log
    && HookDepthsWithin(log, |log0|, lo, maxDepth)
    && HooksCover(log, |log0|, cache, cache0)
  }

  /** The first hook call logged since `log0` is `h`; every later one is deeper. */
  predicate HookedFirst(log0: seq<HookCall>, log: seq<HookCall>, h: HookCall, maxDepth: Option<int>) {
    && |log| > |log0|
    && log[|log0|] == h
    && HookDepthsWithin(log, |log0| + 1, h.depth + 1, maxDepth)
  }

  /** Nothing happened: nothing grew. */
  lemma GrewNothing(cache: map<NodeId, DestNode>, log: seq<HookCall>, lo: int, maxDepth: Option<int>)
    ensures Grew(cache, cache, log, log, lo, maxDepth)
  {
  }

  /** Two walks one after the other at the same depth grow what both grew. */
  lemma GrewTransitive(cache0: map<NodeId, DestNode>, cache1: map<NodeId, DestNode>, cache2: map<NodeId, DestNode>,
                       log0: seq<HookCall>, log1: seq<HookCall>, log2: seq<HookCall>, lo: int, maxDepth: Option<int>)
    requires Grew(cache0, cache1, log0, log1, lo, maxDepth)
    requires Grew(cache1, cache2, log1, log2, lo, maxDepth)
    ensures Grew(cache0, cache2, log0, log2, lo, maxDepth)
  {
    forall k | k in cache2 && k !in cache0
      ensures exists j | |log0| <= j < |log2| :: log2[j].source == k
    {
      if k in cache1 {
        var j :| |log0| <= j < |log1| && log1[j].source == k;
        assert log2[j] == log1[j];
      }
    }
  }

  /** A populate step that logged its hook call `h` and then walked its
      members one level deeper has grown the log from before `h`, with `h` first. */
  lemma GrewThroughHook(cache0: map<NodeId, DestNode>, cache: map<NodeId, DestNode>,
                        log0: seq<HookCall>, h: HookCall, log1: seq<HookCall>, log: seq<HookCall>, maxDepth: Option<int>)
    requires log1 == log0 + [h]
    requires maxDepth.Some? ==> h.depth <= maxDepth.value
    requires Grew(cache0, cache, log1, log, h.depth + 1, maxDepth)
    ensures Grew(cache0, cache, log0, log, h.depth, maxDepth)
    ensures HookedFirst(log0, log, h, maxDepth)
  {
    assert log[|log0|] == log1[|log0|];
    forall k | k in cache && k !in cache0
      ensures exists j | |log0| <= j < |log| :: log[j].source == k
    {
      var j :| |log1| <= j < |log| && log[j].source == k;
    }
  }

  /** A walk that began by caching `s` and then populating it, with `s`'s hook
      call first in the log, grew the cache from before `s` was cached. */
  lemma GrewThroughInsert(cache0: map<NodeId, DestNode>, s: NodeId, d: DestNode, cache: map<NodeId, DestNode>,
                          log0: seq<HookCall>, log: seq<HookCall>, lo: int, h: HookCall, maxDepth: Option<int>)
    requires s !in cache0 && h.source == s
    requires Grew(cache0[s := d], cache, log0, log, lo, maxDepth)
    requires HookedFirst(log0, log, h, maxDepth)
    ensures Grew(cache0, cache, log0, log, lo, maxDepth)
  {
    ExtendsThroughInsert(cache0, s, d, cache);
    forall k | k in cache && k !in cache0
      ensures exists j | |log0| <= j < |log| :: log[j].source == k
    {
      if k == s {
        assert log[|log0|].source == k;
      } else {
        assert k !in cache0[s := d];
      }
    }
  }

  class MapperContextBase {
    var depth: int
    const maxDepth: Option<int>
    /** ExistingRefencedObjects, keyed by source identity. */
    var cache: map<NodeId, DestNode>
    /** The pre-map hook calls made so far, in order. */
    var hookLog: seq<HookCall>

    ghost predicate Valid()
      reads this
    {
      depth >= 0
    }

    /** What a successful walk leaves behind, against the cache, hook log and
        depth it started from: the depth is back, the cache is consistent,
        and cache and log grew with hook calls deeper than `depth0`. */
    ghost predicate WalkDone(g: SourceGraph, pending: set<NodeId>, cache0: map<NodeId, DestNode>, log0: seq<HookCall>, depth0: int)
      reads this, cache.Values
    {
      && depth == depth0 && Valid()
      && Consistent(g, cache, pending)
      && Grew(cache0, cache, log0, hookLog, depth0 + 1, maxDepth)
    }

    constructor (maxDepth: Option<int>)
      ensures Valid()
      ensures depth == 0 && this.maxDepth == maxDepth && cache == map[] && hookLog == []
    {
      depth := 0;
      this.maxDepth := maxDepth;
      cache := map[];
      hookLog := [];
    }

    /** Throws MaxMapDepthException, leaving the depth alone, exactly when the depth has reached the limit. */
    method IncrementDepth() returns (r: Outcome)
      modifies this`depth
      ensures r.Fail? <==> AtOrOverLimit(old(depth), maxDepth)
      ensures r.Fail? ==> r.error == MaxMapDepthExceeded(maxDepth.value) && depth == old(depth)
      ensures r.Pass? ==> depth == old(depth) + 1
      ensures r.Pass? && maxDepth.Some? ==> depth <= maxDepth.value
    {
      if AtOrOverLimit(depth, maxDepth) {
        return Fail(MaxMapDepthExceeded(maxDepth.value));
      }
      depth := depth + 1;
      r := Pass;
    }

    /** The decrement, under the debug assertion that the depth never becomes negative. */
    method DecrementDepth()
      requires depth >= 1
      modifies this`depth
      ensures depth == old(depth) - 1 && Valid()
    {
      depth := depth - 1;
    }

    /** GetOrMapObject: a cached source returns its cached destination without
        running the initializer or the populate method; otherwise a new blank
        destination is cached BEFORE it is populated, so that a reference back
        to `source` met while populating resolves to it. */
    method GetOrMapObject(g: SourceGraph, source: NodeId, ghost pending: set<NodeId>) returns (r: Result<DestNode, MapError>)
      requires Closed(g) && source in g
      requires Valid() && Consistent(g, cache, pending)
      modifies this
      decreases |g.Keys - cache.Keys|, 1
      ensures Extends(old(cache), cache) && source in cache
      ensures source in old(cache) ==> r == Success(old(cache)[source]) && cache == old(cache) && depth == old(depth) && hookLog == old(hookLog)
      ensures source !in old(cache) ==> fresh(cache[source])
      ensures WithinBudget(old(depth), maxDepth, |g.Keys - old(cache).Keys|) ==> r.Success?
      ensures ChainPastLimit(g, old(cache).Keys, source, old(depth), maxDepth) ==> r.Failure?
      ensures r.Failure? ==> maxDepth.Some? && r.error == MaxMapDepthExceeded(maxDepth.value)
      ensures r.Success? ==> r.value == cache[source] && WalkDone(g, pending, old(cache), old(hookLog), old(depth))
      ensures r.Success? && source !in old(cache) ==> HookedFirst(old(hookLog), hookLog, HookCall(source, old(depth) + 1), maxDepth)
    {
      if source in cache {
        GrewNothing(cache, hookLog, depth + 1, maxDepth);
        return Success(cache[source]);
      }
      r := MapUncached(g, source, pending);
    }

    /** The miss path of GetOrMapObject: the initializer's blank destination is
        cached, then populated. */
    method MapUncached(g: SourceGraph, source: NodeId, ghost pending: set<NodeId>) returns (r: Result<DestNode, MapError>)
      requires Closed(g) && source in g && source !in cache
      requires Valid() && Consistent(g, cache, pending)
      modifies this
      decreases |g.Keys - cache.Keys|, 0
      ensures Extends(old(cache), cache) && source in cache && fresh(cache[source])
      ensures WithinBudget(old(depth), maxDepth, |g.Keys - old(cache).Keys|) ==> r.Success?
      ensures ChainPastLimit(g, old(cache).Keys, source, old(depth), maxDepth) ==> r.Failure?
      ensures r.Failure? ==> maxDepth.Some? && r.error == MaxMapDepthExceeded(maxDepth.value)
      ensures r.Success? ==> r.value == cache[source] && WalkDone(g, pending, old(cache), old(hookLog), old(depth))
      ensures r.Success? ==> HookedFirst(old(hookLog), hookLog, HookCall(source, old(depth) + 1), maxDepth)
    {
      var d := CacheNew(g, source, pending);
      ChainPastLimitStep(g, old(cache), source, d, depth, maxDepth);
      var p := Populate(g, source, d, pending);
      ExtendsThroughInsert(old(cache), source, d, cache);
      if p.Fail? {
        return Failure(p.error);
      }
      GrewThroughInsert(old(cache), source, d, cache, old(hookLog), hookLog, old(depth) + 1, HookCall(source, old(depth) + 1), maxDepth);
      r := Success(d);
    }

    /** The source initializer's blank destination, added to the cache under `source`. */
    method CacheNew(g: SourceGraph, source: NodeId, ghost pending: set<NodeId>) returns (d: DestNode)
      requires Closed(g) && source in g && source !in cache && Consistent(g, cache, pending)
      modifies this`cache
      ensures fresh(d) && cache == old(cache)[source := d]
      ensures Consistent(g, cache, pending + {source})
      ensures |g.Keys - cache.Keys| < |g.Keys - old(cache).Keys|
    {
      d := new DestNode();
      CachingShrinksUnmapped(g, cache, source, d);
      CacheBlank(g, cache, pending, source, d);
      cache := cache[source := d];
    }

    /** The generated populate method: increment the depth, run the pre-map
        hook, map and assign the members, decrement the depth. */
    method Populate(g: SourceGraph, source: NodeId, d: DestNode, ghost pending: set<NodeId>) returns (r: Outcome)
      requires Closed(g) && source in g && source !in pending
      requires source in cache && cache[source] == d
      requires Valid() && Consistent(g, cache, pending + {source})
      modifies this, d
      decreases |g.Keys - cache.Keys|, 3
      ensures Extends(old(cache), cache)
      ensures WithinBudget(old(depth) + 1, maxDepth, |g.Keys - old(cache).Keys|) ==> r.Pass?
      ensures AtOrOverLimit(old(depth), maxDepth) ==> r.Fail?
      ensures g[source] != [] && ChainPastLimit(g, old(cache).Keys, g[source][0], old(depth) + 1, maxDepth) ==> r.Fail?
      ensures r.Fail? ==> maxDepth.Some? && r.error == MaxMapDepthExceeded(maxDepth.value)
      ensures r.Pass? ==> WalkDone(g, pending, old(cache), old(hookLog), old(depth))
      ensures r.Pass? ==> HookedFirst(old(hookLog), hookLog, HookCall(source, old(depth) + 1), maxDepth)
    {
      r := IncrementDepth();
      if r.Fail? {
        return;
      }
      var h := HookCall(source, depth);
      PreMapHook(source);
      ghost var log1 := hookLog;
      var mapped;
      r, mapped := MapMembers(g, source, pending);
      if r.Fail? {
        return;
      }
      AssignMembers(g, cache, source, d, mapped, pending);
      GrewThroughHook(old(cache), cache, old(hookLog), h, log1, hookLog, maxDepth);
      DecrementDepth();
    }

    /** The user's pre-map hook, which observes the source and the context depth. */
    method PreMapHook(source: NodeId)
      modifies this`hookLog
      ensures hookLog == old(hookLog) + [HookCall(source, depth)]
    {
      hookLog := hookLog + [HookCall(source, depth)];
    }

    /** The member-by-member part of the generated populate method: each
        member's source object goes through GetOrMapObject, in order. */
    method MapMembers(g: SourceGraph, source: NodeId, ghost pending: set<NodeId>) returns (r: Outcome, mapped: seq<DestNode>)
      requires Closed(g) && source in g && source !in pending && source in cache
      requires Valid() && Consistent(g, cache, pending + {source})
      modifies this
      decreases |g.Keys - cache.Keys|, 2
      ensures Extends(old(cache), cache)
      ensures WithinBudget(old(depth), maxDepth, |g.Keys - old(cache).Keys|) ==> r.Pass?
      ensures g[source] != [] && ChainPastLimit(g, old(cache).Keys, g[source][0], old(depth), maxDepth) ==> r.Fail?
      ensures r.Fail? ==> maxDepth.Some? && r.error == MaxMapDepthExceeded(maxDepth.value)
      ensures r.Pass? ==> WalkDone(g, pending + {source}, old(cache), old(hookLog), old(depth))
      ensures r.Pass? ==> MappedPrefix(cache, g[source], |g[source]|, mapped)
    {
      var children := g[source];
      mapped := [];
      var i := 0;
      GrewNothing(cache, hookLog, depth + 1, maxDepth);
      while i < |children|
        invariant 0 <= i <= |children|
        invariant WalkDone(g, pending + {source}, old(cache), old(hookLog), old(depth))
        invariant MappedPrefix(cache, children, i, mapped)
        invariant |g.Keys - cache.Keys| <= |g.Keys - old(cache).Keys|
        invariant i == 0 ==> cache == old(cache)
        invariant i > 0 ==> !ChainPastLimit(g, old(cache).Keys, children[0], old(depth), maxDepth)
      {
        ghost var before, beforeLog := cache, hookLog;
        var c := GetOrMapObject(g, children[i], pending + {source});
        if c.Failure? {
          ExtendsTransitive(old(cache), before, cache);
          return Fail(c.error), mapped;
        }
        UnmappedShrinks(g, before, cache);
        MappedPrefixGrows(before, cache, children, i, mapped);
        GrewTransitive(old(cache), before, cache, old(hookLog), beforeLog, hookLog, old(depth) + 1, maxDepth);
        mapped := mapped + [c.value];
        i := i + 1;
      }
      r := Pass;
    }
  }

  /** ReferencePreservationTests.CircularReference_NoInfiniteRecursion: a
      parent whose child refers back to it maps to a parent destination whose
      child's parent is that same destination. */
  method MapCircularParentChild() returns (parentDto: DestNode)
    ensures |parentDto.children| == 1
    ensures |parentDto.children[0].children| == 1
    ensures parentDto.children[0].children[0] == parentDto
    ensures parentDto.children[0] != parentDto
  {
    var g: SourceGraph := map[0 := [1], 1 := [0]];
    var ctx := new MapperContextBase(None);
    var r := ctx.GetOrMapObject(g, 0, {});
    assert ctx.WalkDone(g, {}, map[], [], 0);
    parentDto := r.value;
    SettledIsMapped(g, ctx.cache, {}, 0);
    assert g[0][0] == 1 && 1 in ctx.cache;
    SettledIsMapped(g, ctx.cache, {}, 1);
  }

  /** MapDepthTests: with a limit of 2, mapping a parent whose child refers
      back to it succeeds; the parent's pre-map hook sees depth 1 and the
      child's sees depth 2. */
  method MapWithMaxDepthTwo() returns (hooks: seq<HookCall>)
    ensures |hooks| >= 1 && hooks[0] == HookCall(0, 1)
    ensures HookCall(1, 2) in hooks
  {
    var g: SourceGraph := map[0 := [1], 1 := [0]];
    var ctx := new MapperContextBase(Some(2));
    assert g.Keys - ctx.cache.Keys == {0, 1};
    var r := ctx.GetOrMapObject(g, 0, {});
    hooks := ctx.hookLog;
    assert ctx.WalkDone(g, {}, map[], [], 0);
    assert HookedFirst([], hooks, HookCall(0, 1), Some(2));
    SettledIsMapped(g, ctx.cache, {}, 0);
    assert g[0][0] == 1 && 1 in ctx.cache;
    var j :| 0 <= j < |hooks| && hooks[j].source == 1;
    assert j != 0 && 2 <= hooks[j].depth <= 2;
  }

  /** With a limit of 2, mapping a chain of three objects fails with
      MaxMapDepthException: the third object is reached at depth 2. */
  method MapChainPastMaxDepth() returns (r: Result<DestNode, MapError>)
    ensures r == Failure(MaxMapDepthExceeded(2))
  {
    var g: SourceGraph := map[0 := [1], 1 := [2], 2 := []];
    var ctx := new MapperContextBase(Some(2));
    ChainOfThree(g);
    r := ctx.GetOrMapObject(g, 0, {});
  }

  /** The chain 0, 1, 2 with nothing cached is three objects deep. */
  lemma ChainOfThree(g: SourceGraph)
    requires g == map[0 := [1], 1 := [2], 2 := []]
    ensures Closed(g) && UncachedFirstChain(g, {}, 0) == 3
  {
    assert g[0][0] == 1 && g[1][0] == 2;
    assert UncachedFirstChain(g, {} + {0} + {1}, 2) == 1;
    assert UncachedFirstChain(g, {} + {0}, 1) == 2;
  }

  /** NestedMapping.MapOrderToDto_ReferencesPreserved: two orders mapped with
      one shared context give their shared customer one and the same destination. */
  method MapTwiceWithSharedContext() returns (first: DestNode, second: DestNode)
    ensures |first.children| == 1 && |second.children| == 1
    ensures first.children[0] == second.children[0]
  {
    // orders 0 and 2 both reference customer 1
    var g: SourceGraph := map[0 := [1], 1 := [], 2 := [1]];
    var ctx := new MapperContextBase(None);
    var r1 := ctx.GetOrMapObject(g, 0, {});
    assert ctx.WalkDone(g, {}, map[], [], 0);
    SettledIsMapped(g, ctx.cache, {}, 0);
    ghost var cache1, log1 := ctx.cache, ctx.hookLog;
    var r2 := ctx.GetOrMapObject(g, 2, {});
    assert ctx.WalkDone(g, {}, cache1, log1, 0);
    SettledIsMapped(g, ctx.cache, {}, 0);
    SettledIsMapped(g, ctx.cache, {}, 2);
    first, second := r1.value, r2.value;
  }
}
