/**
 * Event delegation: handlers registered on a parent for an event type and a
 * selector (`EventDelegationSystem`), and a per-type lookup cache with hit
 * and miss counters (`DelegationOptimizer`).
 *
 * The handler table is a hash map, so any order of its entries is a valid
 * iteration order; listings are specified up to that order.
 */
module Delegation {
  import opened Wrappers

  /** The key of a delegated handler: (parent id, event type, selector). */
  datatype HandlerKey = HandlerKey(parentId: string, eventType: string, selector: string)

  type HandlerTable = map<HandlerKey, string>

  /** The table after every handler of `parentId` for `eventType` is removed, whatever its selector. */
  function WithoutParentType(m: HandlerTable, parentId: string, eventType: string): (r: HandlerTable)
    ensures forall k :: k in r <==> k in m && !(k.parentId == parentId && k.eventType == eventType)
    ensures forall k :: k in r ==> r[k] == m[k]
  {
    map k | k in m && !(k.parentId == parentId && k.eventType == eventType) :: m[k]
  }

  /** Removing the same parent and type twice is the same as once. */
  lemma WithoutParentTypeIdempotent(m: HandlerTable, parentId: string, eventType: string)
    ensures WithoutParentType(WithoutParentType(m, parentId, eventType), parentId, eventType)
         == WithoutParentType(m, parentId, eventType)
  {
  }

  /** The registered keys of one event type. */
  function KeysOfType(m: HandlerTable, eventType: string): set<HandlerKey> {
    set k | k in m.Keys && k.eventType == eventType
  }

  /** `order` lists each key of `keys` exactly once. */
  ghost predicate Enumerates(order: seq<HandlerKey>, keys: set<HandlerKey>) {
    (forall i, j :: 0 <= i < j < |order| ==> order[i] != order[j])
    && (forall k :: k in order <==> k in keys)
  }

  /** A listing without repeats of a set has as many entries as the set. */
  lemma {:induction false} EnumerationSize(order: seq<HandlerKey>, keys: set<HandlerKey>)
    requires Enumerates(order, keys)
    ensures |order| == |keys|
  {
    if order != [] {
      var last := order[|order| - 1];
      var init := order[..|order| - 1];
      assert forall k :: k in init ==> k != last;
      assert Enumerates(init, keys - {last}) by {
        forall k ensures k in init <==> k in keys - {last} {
          if k in keys - {last} {
            assert k in order;
            var i :| 0 <= i < |order| && order[i] == k;
            assert i < |order| - 1;
            assert init[i] == k;
          }
        }
      }
      EnumerationSize(init, keys - {last});
    } else {
      assert forall k :: k !in keys;
      assert keys == {};
    }
  }

  /** The (selector, type) pairs of the listed keys, in listing order. */
  function SelectorPairs(order: seq<HandlerKey>): (r: seq<(string, string)>)
    ensures |r| == |order|
    ensures forall i :: 0 <= i < |order| ==> r[i] == (order[i].selector, order[i].eventType)
  {
    if order == [] then [] else SelectorPairs(order[..|order| - 1]) + [(order[|order| - 1].selector, order[|order| - 1].eventType)]
  }

  /**
   * The body of `get_delegated_handlers`: one (selector, type) pair per key
   * of that type, in the table's iteration order, here an arbitrary one.
   */
  method ListSelectors(m: HandlerTable, eventType: string) returns (r: seq<(string, string)>)
    ensures exists order :: Enumerates(order, KeysOfType(m, eventType)) && r == SelectorPairs(order)
  {
    var remaining := KeysOfType(m, eventType);
    ghost var order: seq<HandlerKey> := [];
    r := [];
    while remaining != {}
      invariant remaining <= KeysOfType(m, eventType)
      invariant forall i, j :: 0 <= i < j < |order| ==> order[i] != order[j]
      invariant forall k :: k in order <==> k in KeysOfType(m, eventType) && k !in remaining
      invariant r == SelectorPairs(order)
      decreases |remaining|
    {
      var k :| k in remaining;
      order := order + [k];
      r := r + [(k.selector, k.eventType)];
      remaining := remaining - {k};
    }
  }

  /** The listing of `get_delegated_handlers` has one entry per registered key of that type. */
  lemma ListingSize(m: HandlerTable, eventType: string, r: seq<(string, string)>, order: seq<HandlerKey>)
    requires Enumerates(order, KeysOfType(m, eventType)) && r == SelectorPairs(order)
    ensures |r| == |KeysOfType(m, eventType)|
    ensures forall i :: 0 <= i < |r| ==> r[i].1 == eventType
  {
    EnumerationSize(order, KeysOfType(m, eventType));
    forall i | 0 <= i < |r| ensures r[i].1 == eventType {
      assert order[i] in order;
    }
  }

  /**
   * The body of `remove_delegated_handler`: the keys of that parent and type
   * are collected first, then removed one at a time.
   */
  method RemoveParentType(m: HandlerTable, parentId: string, eventType: string) returns (r: HandlerTable)
    ensures r == WithoutParentType(m, parentId, eventType)
  {
    var toRemove := set k | k in m.Keys && k.parentId == parentId && k.eventType == eventType;
    r := m;
    while toRemove != {}
      invariant toRemove <= r.Keys
      invariant forall k :: k in toRemove ==> k.parentId == parentId && k.eventType == eventType
      invariant forall k :: k in r <==> k in m && (k in toRemove || !(k.parentId == parentId && k.eventType == eventType))
      invariant forall k :: k in r ==> r[k] == m[k]
      decreases |toRemove|
    {
      var k :| k in toRemove;
      r := r - {k};
      toRemove := toRemove - {k};
    }
  }

  /** Statistics reported by `EventDelegationSystem::get_stats`. */
  datatype DelegationStats = DelegationStats(totalHandlers: nat, cachedSelectors: nat)

  class EventDelegationSystem {
    var delegatedHandlers: HandlerTable
    /** Each cached selector with its parsed components (the selector itself). */
    var selectorCache: map<string, seq<string>>

    /** `EventDelegationSystem::new`: no handlers, an empty selector cache. */
    constructor ()
      ensures delegatedHandlers == map[] && selectorCache == map[]
    {
      delegatedHandlers := map[];
      selectorCache := map[];
    }

    /** `add_delegated_handler`: inserts or overwrites the key and caches the selector. */
    method AddDelegatedHandler(parentId: string, eventType: string, selector: string, callback: string)
      modifies this
      ensures delegatedHandlers == old(delegatedHandlers)[HandlerKey(parentId, eventType, selector) := callback]
      ensures selectorCache == old(selectorCache)[selector := [selector]]
    {
      delegatedHandlers := delegatedHandlers[HandlerKey(parentId, eventType, selector) := callback];
      selectorCache := selectorCache[selector := [selector]];
    }

    /** `remove_delegated_handler`: drops every handler of that parent and type; the selector cache is kept. */
    method RemoveDelegatedHandler(parentId: string, eventType: string)
      modifies this`delegatedHandlers
      ensures delegatedHandlers == WithoutParentType(old(delegatedHandlers), parentId, eventType)
    {
      delegatedHandlers := RemoveParentType(delegatedHandlers, parentId, eventType);
    }

    /** `get_delegated_handlers`: one (selector, type) pair per registered handler of that type. */
    method GetDelegatedHandlers(eventType: string) returns (r: seq<(string, string)>)
      ensures exists order :: Enumerates(order, KeysOfType(delegatedHandlers, eventType)) && r == SelectorPairs(order)
    {
      r := ListSelectors(delegatedHandlers, eventType);
    }

    /** `clear`: no handlers and no cached selectors. */
    method Clear()
      modifies this
      ensures delegatedHandlers == map[] && selectorCache == map[]
    {
      delegatedHandlers := map[];
      selectorCache := map[];
    }

    /** `get_stats`: the number of registered handlers and of cached selectors. */
    function GetStats(): (s: DelegationStats)
      reads this
      ensures s.totalHandlers == |delegatedHandlers.Keys| && s.cachedSelectors == |selectorCache.Keys|
    {
      DelegationStats(|delegatedHandlers|, |selectorCache|)
    }
  }

  /** `parent:selector`, the handler id `optimize_lookup` stores. */
  function HandlerId(parentId: string, selector: string): string {
    parentId + ":" + selector
  }

  /** The handler ids of `optimize_lookup`, in input order. */
  function HandlerIds(handlers: seq<(string, string, string)>): (r: seq<string>)
    ensures |r| == |handlers|
    ensures forall i :: 0 <= i < |handlers| ==> r[i] == HandlerId(handlers[i].0, handlers[i].1)
  {
    seq(|handlers|, i requires 0 <= i < |handlers| => HandlerId(handlers[i].0, handlers[i].1))
  }

  /** `100 * hits / (hits + misses)`, or 0 without lookups. */
  function HitRate(hits: nat, misses: nat): (r: real)
    ensures 0.0 <= r <= 100.0
    ensures hits + misses > 0 && misses == 0 ==> r == 100.0
    ensures hits == 0 ==> r == 0.0
  {
    if hits + misses > 0 then (hits as real / (hits + misses) as real) * 100.0 else 0.0
  }

  /** One hit and one miss give a hit rate of 50. */
  lemma HalfHitRate()
    ensures HitRate(1, 1) == 50.0
  {
  }

  /** Statistics reported by `DelegationOptimizer::get_stats`. */
  datatype OptimizationStats = OptimizationStats(cacheHits: nat, cacheMisses: nat, hitRate: real, cachedEventTypes: nat)

  class DelegationOptimizer {
    var handlerCache: map<string, seq<string>>
    var cacheHits: nat
    var cacheMisses: nat

    /** `DelegationOptimizer::new`: an empty cache and zero counters. */
    constructor ()
      ensures handlerCache == map[] && cacheHits == 0 && cacheMisses == 0
    {
      handlerCache := map[];
      cacheHits := 0;
      cacheMisses := 0;
    }

    /** `optimize_lookup`: the type's entry becomes the `parent:selector` ids of the handlers, in order. */
    method OptimizeLookup(eventType: string, handlers: seq<(string, string, string)>)
      modifies this`handlerCache
      ensures handlerCache == old(handlerCache)[eventType := HandlerIds(handlers)]
    {
      handlerCache := handlerCache[eventType := HandlerIds(handlers)];
    }

    /** `get_cached_handlers`: the cached list and one more hit, or None and one more miss. */
    method GetCachedHandlers(eventType: string) returns (r: Option<seq<string>>)
      modifies this`cacheHits, this`cacheMisses
      ensures eventType in handlerCache ==> r == Some(handlerCache[eventType]) && cacheHits == old(cacheHits) + 1 && cacheMisses == old(cacheMisses)
      ensures eventType !in handlerCache ==> r == None && cacheMisses == old(cacheMisses) + 1 && cacheHits == old(cacheHits)
    {
      if eventType in handlerCache {
        cacheHits := cacheHits + 1;
        r := Some(handlerCache[eventType]);
      } else {
        cacheMisses := cacheMisses + 1;
        r := None;
      }
    }

    /** `clear_cache`: empties the cache and keeps the counters. */
    method ClearCache()
      modifies this`handlerCache
      ensures handlerCache == map[]
    {
      handlerCache := map[];
    }

    /** `get_stats`: the counters, the hit rate in percent, and the number of cached types. */
    function GetStats(): (s: OptimizationStats)
      reads this
      ensures s.cacheHits == cacheHits && s.cacheMisses == cacheMisses && s.cachedEventTypes == |handlerCache.Keys|
      ensures s.hitRate == HitRate(cacheHits, cacheMisses)
    {
      OptimizationStats(cacheHits, cacheMisses, HitRate(cacheHits, cacheMisses), |handlerCache|)
    }
  }
}
