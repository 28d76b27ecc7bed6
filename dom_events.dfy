/**
 * `DomEventManager`: per-node listener registries, the Element wrapper
 * cache, event propagation along the parent path of the document tree, and
 * searches of the document by id attribute, class and tag.
 *
 * Listeners run no code, so the event's flags keep the values they had when
 * dispatch began; dispatch is observed through the trace of the listeners
 * it runs, one `Step` (node, phase, listener id) each.
 */
module DomEventIntegration {
  import opened Wrappers
  import opened Text
  import opened MapSum
  import opened Dom
  import opened EventTypes
  import opened DomElement

  datatype Step = Step(node: nat, phase: EventPhase, listener: nat)

  /** The listener lists of each node that has a registry. */
  type ListenerMaps = map<nat, map<string, seq<EventListener>>>

  // ---------------------------------------------------------------------
  // Searching the tree
  // ---------------------------------------------------------------------

  predicate HasIdAttribute(n: Node, id: string) {
    n.kind.Element? && "id" in n.kind.attributes && n.kind.attributes["id"] == id
  }

  predicate HasClassToken(n: Node, className: string) {
    n.kind.Element? && "class" in n.kind.attributes && className in SplitWhitespace(n.kind.attributes["class"])
  }

  predicate HasTag(n: Node, tag: string) {
    n.kind.Element? && n.kind.tagName == tag
  }

  /** The nodes of `ns` that satisfy `p`, in order. */
  function Select(ns: seq<Node>, p: Node -> bool): seq<Node> {
    if ns == [] then [] else (if p(ns[0]) then [ns[0]] else []) + Select(ns[1..], p)
  }

  lemma {:induction false} SelectMembers(ns: seq<Node>, p: Node -> bool, m: Node)
    requires m in Select(ns, p)
    ensures m in ns && p(m)
  {
    if ns[0] != m || !p(ns[0]) {
      SelectMembers(ns[1..], p, m);
    }
  }

  lemma {:induction false} SelectAppend(a: seq<Node>, b: seq<Node>, p: Node -> bool)
    ensures Select(a + b, p) == Select(a, p) + Select(b, p)
  {
    if a == [] {
      assert a + b == b;
    } else {
      var h := if p(a[0]) then [a[0]] else [];
      assert (a + b)[0] == a[0];
      assert (a + b)[1..] == a[1..] + b;
      calc {
        Select(a + b, p);
        h + Select(a[1..] + b, p);
        { SelectAppend(a[1..], b, p); }
        h + (Select(a[1..], p) + Select(b, p));
        (h + Select(a[1..], p)) + Select(b, p);
      }
    }
  }

  /** The recursive search of `find_nodes_by_class` and `find_nodes_by_tag`: the node if it matches, then each child's matches. */
  function CollectMatches(n: Node, p: Node -> bool): seq<Node>
    decreases n, 1
  {
    (if p(n) then [n] else []) + ForestCollectMatches(n.children, p)
  }

  function ForestCollectMatches(ns: seq<Node>, p: Node -> bool): seq<Node>
    decreases ns, 0
  {
    if ns == [] then [] else CollectMatches(ns[0], p) + ForestCollectMatches(ns[1..], p)
  }

  /** The recursive search of `find_node_by_id`: the node if it matches, else the first child with a match. */
  function FirstMatch(n: Node, p: Node -> bool): Option<Node>
    decreases n, 1
  {
    if p(n) then Some(n) else ForestFirstMatch(n.children, p)
  }

  function ForestFirstMatch(ns: seq<Node>, p: Node -> bool): Option<Node>
    decreases ns, 0
  {
    if ns == [] then None
    else
      match FirstMatch(ns[0], p)
      case Some(found) => Some(found)
      case None => ForestFirstMatch(ns[1..], p)
  }

  /** The searches return exactly the matching nodes of the subtree, in preorder. */
  lemma {:induction false} CollectMatchesIsPreorderSelect(n: Node, p: Node -> bool)
    ensures CollectMatches(n, p) == Select(Preorder(n), p)
    decreases n, 1
  {
    ForestCollectMatchesIsPreorderSelect(n.children, p);
    SelectAppend([n], ForestPreorder(n.children), p);
    assert Select([n], p) == (if p(n) then [n] else []) + Select([], p);
  }

  lemma {:induction false} ForestCollectMatchesIsPreorderSelect(ns: seq<Node>, p: Node -> bool)
    ensures ForestCollectMatches(ns, p) == Select(ForestPreorder(ns), p)
    decreases ns, 0
  {
    if ns != [] {
      CollectMatchesIsPreorderSelect(ns[0], p);
      ForestCollectMatchesIsPreorderSelect(ns[1..], p);
      SelectAppend(Preorder(ns[0]), ForestPreorder(ns[1..]), p);
    }
  }

  /** `find_node_by_id`'s search returns the first match in preorder. */
  lemma {:induction false} FirstMatchIsFirstCollected(n: Node, p: Node -> bool)
    ensures FirstMatch(n, p) == FirstOf(CollectMatches(n, p))
    decreases n, 1
  {
    ForestFirstMatchIsFirstCollected(n.children, p);
  }

  lemma {:induction false} ForestFirstMatchIsFirstCollected(ns: seq<Node>, p: Node -> bool)
    ensures ForestFirstMatch(ns, p) == FirstOf(ForestCollectMatches(ns, p))
    decreases ns, 0
  {
    if ns != [] {
      FirstMatchIsFirstCollected(ns[0], p);
      ForestFirstMatchIsFirstCollected(ns[1..], p);
    }
  }

  // ---------------------------------------------------------------------
  // The trace of a dispatch
  // ---------------------------------------------------------------------

  /** One step per listener id, in order, all on `node` in `phase`. */
  function StepsOf(node: nat, phase: EventPhase, ids: seq<nat>): seq<Step> {
    if ids == [] then [] else StepsOf(node, phase, ids[..|ids| - 1]) + [Step(node, phase, ids[|ids| - 1])]
  }

  lemma {:induction false} StepsOfShape(node: nat, phase: EventPhase, ids: seq<nat>)
    ensures |StepsOf(node, phase, ids)| == |ids|
    ensures forall i :: 0 <= i < |ids| ==> StepsOf(node, phase, ids)[i] == Step(node, phase, ids[i])
  {
    if ids != [] {
      StepsOfShape(node, phase, ids[..|ids| - 1]);
    }
  }

  /** What `execute_listeners` runs on one node: nothing without a registry, in phase None or once immediately stopped. */
  function NodeSteps(lm: ListenerMaps, node: nat, phase: EventPhase, eventType: string, immediate: bool): seq<Step> {
    if node !in lm || phase == PhaseNone || immediate then []
    else
      var ls := if eventType in lm[node] then lm[node][eventType] else [];
      StepsOf(node, phase, RunIds(ls, phase))
  }

  /** Steps of the nodes of `ns` from last to first (the capture order of a target-first path). */
  function ReversedPathSteps(lm: ListenerMaps, ns: seq<nat>, phase: EventPhase, eventType: string, immediate: bool): seq<Step> {
    if ns == [] then []
    else ReversedPathSteps(lm, ns[1..], phase, eventType, immediate) + NodeSteps(lm, ns[0], phase, eventType, immediate)
  }

  /** Steps of the nodes of `ns` in order. */
  function PathSteps(lm: ListenerMaps, ns: seq<nat>, phase: EventPhase, eventType: string, immediate: bool): seq<Step> {
    if ns == [] then []
    else PathSteps(lm, ns[..|ns| - 1], phase, eventType, immediate) + NodeSteps(lm, ns[|ns| - 1], phase, eventType, immediate)
  }

  /** Steps of the nodes of `ns` in order, passing over `target`. */
  function BubbleSteps(lm: ListenerMaps, ns: seq<nat>, target: nat, eventType: string, immediate: bool): seq<Step> {
    if ns == [] then []
    else
      BubbleSteps(lm, ns[..|ns| - 1], target, eventType, immediate)
      + (if ns[|ns| - 1] == target then [] else NodeSteps(lm, ns[|ns| - 1], Bubbling, eventType, immediate))
  }

  /**
   * The listeners a dispatch runs. A bubbling event whose propagation is not
   * already stopped runs capture listeners from the root down to the target
   * (target included), then every listener at the target, then bubble
   * listeners from the parent up to the root. Any other event runs the
   * target's listeners only.
   */
  function DispatchSteps(lm: ListenerMaps, path: seq<nat>, target: nat, eventType: string,
                         bubbles: bool, stopped: bool, immediate: bool): seq<Step>
  {
    (if bubbles && !stopped then ReversedPathSteps(lm, path, Capturing, eventType, immediate) else [])
    + NodeSteps(lm, target, AtTarget, eventType, immediate)
    + (if bubbles && !stopped then BubbleSteps(lm, path, target, eventType, immediate) else [])
  }

  /** A path from a node up through its parents to a parentless node. */
  ghost predicate IsParentPath(a: Arena, target: nat, path: seq<nat>) {
    |path| > 0 && path[0] == target
    && (forall i :: 0 <= i < |path| ==> path[i] in a)
    && (forall i :: 0 <= i < |path| - 1 ==> a[path[i]].parent == Some(path[i + 1]))
    && a[path[|path| - 1]].parent == None
  }

  /** Along a parent path of a well-formed arena the ids strictly decrease, so the target occurs only first. */
  lemma ParentPathDecreasing(a: Arena, bound: nat, target: nat, path: seq<nat>)
    requires WellFormed(a, bound) && IsParentPath(a, target, path)
    ensures forall i :: 0 < i < |path| ==> path[i] < target
  {
    var i := 1;
    while i < |path|
      invariant 1 <= i <= |path|
      invariant forall j :: 0 < j < i ==> path[j] < target
    {
      assert a[path[i - 1]].parent == Some(path[i]);
      assert path[i] < path[i - 1];
      i := i + 1;
    }
  }

  /** Passing over the target by identity is the same as starting the bubble walk at the parent. */
  lemma {:induction false} BubbleSkipsOnlyTheTarget(lm: ListenerMaps, a: Arena, bound: nat, target: nat, path: seq<nat>,
                                                    eventType: string, immediate: bool)
    requires WellFormed(a, bound) && IsParentPath(a, target, path)
    ensures BubbleSteps(lm, path, target, eventType, immediate) == PathSteps(lm, path[1..], Bubbling, eventType, immediate)
  {
    ParentPathDecreasing(a, bound, target, path);
    BubbleDropsLeadingTarget(lm, path, target, eventType, immediate);
  }

  lemma {:induction false} BubbleDropsLeadingTarget(lm: ListenerMaps, ns: seq<nat>, target: nat, eventType: string, immediate: bool)
    requires |ns| > 0 && ns[0] == target
    requires forall i :: 0 < i < |ns| ==> ns[i] < target
    ensures BubbleSteps(lm, ns, target, eventType, immediate) == PathSteps(lm, ns[1..], Bubbling, eventType, immediate)
  {
    if |ns| > 1 {
      var init := ns[..|ns| - 1];
      var last := NodeSteps(lm, ns[|ns| - 1], Bubbling, eventType, immediate);
      BubbleDropsLeadingTarget(lm, init, target, eventType, immediate);
      assert ns[1..][..|ns| - 2] == init[1..];
      calc {
        BubbleSteps(lm, ns, target, eventType, immediate);
        BubbleSteps(lm, init, target, eventType, immediate) + last;
        PathSteps(lm, init[1..], Bubbling, eventType, immediate) + last;
        PathSteps(lm, ns[1..], Bubbling, eventType, immediate);
      }
    }
  }

  /** A non-bubbling event, or one already stopped, runs only the target's own listeners. */
  lemma OnlyTargetWhenNotPropagating(lm: ListenerMaps, path: seq<nat>, target: nat, eventType: string,
                                     bubbles: bool, stopped: bool, immediate: bool)
    requires !bubbles || stopped
    ensures forall s :: s in DispatchSteps(lm, path, target, eventType, bubbles, stopped, immediate) ==>
      s.node == target && s.phase == AtTarget
  {
    if target in lm && !immediate {
      var ls := if eventType in lm[target] then lm[target][eventType] else [];
      StepsOfShape(target, AtTarget, RunIds(ls, AtTarget));
    }
  }

  /** An event whose immediate propagation is already stopped runs no listener at all. */
  lemma {:induction false} NothingRunsWhenImmediatelyStopped(lm: ListenerMaps, path: seq<nat>, target: nat, eventType: string,
                                                             bubbles: bool, stopped: bool)
    ensures DispatchSteps(lm, path, target, eventType, bubbles, stopped, true) == []
  {
    NoStepsWhenImmediate(lm, path, eventType);
    NoBubbleStepsWhenImmediate(lm, path, target, eventType);
  }

  lemma {:induction false} NoStepsWhenImmediate(lm: ListenerMaps, ns: seq<nat>, eventType: string)
    ensures ReversedPathSteps(lm, ns, Capturing, eventType, true) == []
  {
    if ns != [] {
      NoStepsWhenImmediate(lm, ns[1..], eventType);
    }
  }

  lemma {:induction false} NoBubbleStepsWhenImmediate(lm: ListenerMaps, ns: seq<nat>, target: nat, eventType: string)
    ensures BubbleSteps(lm, ns, target, eventType, true) == []
  {
    if ns != [] {
      NoBubbleStepsWhenImmediate(lm, ns[..|ns| - 1], target, eventType);
    }
  }

  /** Number of listeners of each node in a snapshot of all registries. */
  ghost function PerNodeTotals(lm: ListenerMaps): map<nat, nat> {
    map n | n in lm :: TotalCount(lm[n])
  }

  /** Number of listeners in a snapshot of all registries. */
  ghost function ListenerTotal(lm: ListenerMaps): nat {
    Sum(PerNodeTotals(lm))
  }

  lemma ListenerTotalUpdate(lm: ListenerMaps, node: nat, m: map<string, seq<EventListener>>)
    ensures ListenerTotal(lm[node := m]) + (if node in lm then TotalCount(lm[node]) else 0) == ListenerTotal(lm) + TotalCount(m)
  {
    assert PerNodeTotals(lm[node := m]) == PerNodeTotals(lm)[node := TotalCount(m)];
    SumUpdate(PerNodeTotals(lm), node, TotalCount(m));
  }

  /** The snapshot after a listener is registered on `node` for `eventType` under `id`. */
  function Registered(lm: ListenerMaps, node: nat, eventType: string, callback: string, options: ListenerOptions, id: nat): ListenerMaps {
    lm[node := Appended(if node in lm then lm[node] else map[], eventType, EventListener(callback, options, id))]
  }

  /** Creating an empty registry first does not change what registering leads to. */
  lemma RegisteredOnEmpty(lm: ListenerMaps, lm': ListenerMaps, node: nat, eventType: string, callback: string,
                          options: ListenerOptions, id: nat)
    requires lm' == lm || (node !in lm && lm' == lm[node := map[]])
    ensures Registered(lm', node, eventType, callback, options, id) == Registered(lm, node, eventType, callback, options, id)
  {
  }

  /** Registering a listener adds exactly one to the total, whether or not the node had a registry. */
  lemma RegisteredCountsOne(lm: ListenerMaps, node: nat, eventType: string, callback: string, options: ListenerOptions, id: nat)
    ensures ListenerTotal(Registered(lm, node, eventType, callback, options, id)) == ListenerTotal(lm) + 1
  {
    var before := if node in lm then lm[node] else map[];
    var ls := if eventType in before then before[eventType] else [];
    var after := before[eventType := ls + [EventListener(callback, options, id)]];
    TotalCountUpdate(before, eventType, ls + [EventListener(callback, options, id)]);
    ListenerTotalUpdate(lm, node, after);
    if node !in lm {
      assert Lengths(before) == map[];
      assert Sum(Lengths(before)) == 0;
    }
  }

  /** Any change confined to one node's registry that does not grow it does not grow the total. */
  lemma ShrinkingOneNode(lm: ListenerMaps, node: nat, m: map<string, seq<EventListener>>)
    requires node in lm && TotalCount(m) <= TotalCount(lm[node])
    ensures ListenerTotal(lm[node := m]) <= ListenerTotal(lm)
  {
    ListenerTotalUpdate(lm, node, m);
  }

  /** Statistics reported by `get_stats`. */
  datatype DomEventStats = DomEventStats(totalNodes: nat, totalListeners: nat, cachedElements: nat)

  class DomEventManager {
    var nodeListeners: map<nat, EventListenerRegistry>
    var elementCache: map<nat, Element>
    var document: Document?
    /** The listener lists of every registry, as a value. */
    ghost var listenerMaps: ListenerMaps

    /** Every registry's lists are the ghost model's lists for its node. */
    ghost predicate Mirrored()
      reads this`nodeListeners, this`listenerMaps, nodeListeners.Values
    {
      && nodeListeners.Keys == listenerMaps.Keys
      && (forall n :: n in nodeListeners ==> nodeListeners[n].listeners == listenerMaps[n])
    }

    ghost predicate Valid()
      reads this`nodeListeners, this`listenerMaps, nodeListeners.Values
    {
      && Mirrored()
      && (forall n :: n in nodeListeners ==> nodeListeners[n].Valid())
      && (forall n, m :: n in nodeListeners && m in nodeListeners && n != m ==> nodeListeners[n] != nodeListeners[m])
    }

    /** `DomEventManager::new`: no registries, an empty cache, no document. */
    constructor ()
      ensures Valid()
      ensures nodeListeners == map[] && listenerMaps == map[] && elementCache == map[] && document == null
    {
      nodeListeners := map[];
      listenerMaps := map[];
      elementCache := map[];
      document := null;
    }

    method SetDocument(doc: Document)
      modifies this`document
      ensures document == doc
    {
      document := doc;
    }

    /** `get_stats`: registries, listeners over all registries, cached wrappers. */
    ghost function GetStats(): (s: DomEventStats)
      reads this
      ensures s.totalNodes == |listenerMaps| && s.cachedElements == |elementCache|
      ensures s.totalListeners == ListenerTotal(listenerMaps)
    {
      DomEventStats(|listenerMaps|, ListenerTotal(listenerMaps), |elementCache|)
    }

    /**
     * `get_element`: the cached wrapper for the node's id, or a new wrapper
     * that is cached; the cache grows by at most one.
     */
    method GetElement(node: Node) returns (e: Element)
      modifies this`elementCache
      ensures node.id in old(elementCache) ==> e == old(elementCache)[node.id] && elementCache == old(elementCache)
      ensures node.id !in old(elementCache) ==> fresh(e) && elementCache == old(elementCache)[node.id := e]
      ensures node.id in elementCache && elementCache[node.id] == e
      ensures |elementCache| <= |old(elementCache)| + 1
    {
      if node.id in elementCache {
        e := elementCache[node.id];
      } else {
        e := new Element(node);
        elementCache := elementCache[node.id := e];
      }
    }

    /**
     * `add_event_listener`: creates the node's registry on demand and
     * appends the listener, under that registry's next id, to its list for
     * the type; no other registry changes.
     */
    method AddEventListener(node: nat, eventType: string, listener: EventListener)
      requires Valid()
      modifies this`nodeListeners, this`listenerMaps, if node in nodeListeners then {nodeListeners[node]} else {}
      ensures Valid()
      ensures exists id :: listenerMaps == Registered(old(listenerMaps), node, eventType, listener.callback, listener.options, id)
    {
      ghost var lm := listenerMaps;
      var reg := RegistryFor(node);
      ghost var lm1 := listenerMaps;
      var id := AddTo(node, reg, eventType, listener);
      RegisteredOnEmpty(lm, lm1, node, eventType, listener.callback, listener.options, id);
    }

    /** Appends the listener to the node's existing registry. */
    method AddTo(node: nat, reg: EventListenerRegistry, eventType: string, listener: EventListener) returns (id: nat)
      requires Valid() && node in nodeListeners && reg == nodeListeners[node]
      modifies this`listenerMaps, reg
      ensures Valid()
      ensures listenerMaps == old(listenerMaps)[node := Appended(old(listenerMaps)[node], eventType, EventListener(listener.callback, listener.options, id))]
    {
      id := reg.AddListener(eventType, listener.options, listener.callback);
      listenerMaps := listenerMaps[node := reg.listeners];
      forall n | n in nodeListeners && n != node
        ensures nodeListeners[n].Valid() && nodeListeners[n].listeners == listenerMaps[n]
      {
        assert nodeListeners[n] != reg;
      }
    }

    /** The node's registry, created empty when the node has none yet. */
    method RegistryFor(node: nat) returns (reg: EventListenerRegistry)
      requires Valid()
      modifies this`nodeListeners, this`listenerMaps
      ensures Valid() && node in nodeListeners && reg == nodeListeners[node]
      ensures node in old(nodeListeners) ==> reg == old(nodeListeners[node]) && listenerMaps == old(listenerMaps)
      ensures node !in old(nodeListeners) ==> fresh(reg) && listenerMaps == old(listenerMaps)[node := map[]]
      ensures nodeListeners == old(nodeListeners)[node := reg]
    {
      if node in nodeListeners {
        reg := nodeListeners[node];
      } else {
        reg := new EventListenerRegistry();
        nodeListeners := nodeListeners[node := reg];
        listenerMaps := listenerMaps[node := map[]];
      }
    }

    /**
     * `remove_event_listener`: removes through the node's registry if it
     * has one; no other registry changes.
     */
    method RemoveEventListener(node: nat, eventType: string, listenerId: nat)
      requires Valid()
      modifies this`listenerMaps, if node in nodeListeners then {nodeListeners[node]} else {}
      ensures Valid()
      ensures node !in old(listenerMaps) ==> listenerMaps == old(listenerMaps)
      ensures node in old(listenerMaps) ==>
        listenerMaps == old(listenerMaps)[node := Unregistered(old(listenerMaps)[node], eventType, listenerId)]
    {
      if node in nodeListeners {
        var reg := nodeListeners[node];
        var found := reg.RemoveListener(eventType, listenerId);
        listenerMaps := listenerMaps[node := reg.listeners];
        forall n | n in nodeListeners && n != node
          ensures nodeListeners[n].Valid() && nodeListeners[n].listeners == listenerMaps[n]
        {
          assert nodeListeners[n] != reg;
        }
      }
    }

    /**
     * `calculate_event_path`: the target, then each parent in turn, ending
     * at a node without a parent.
     */
    method CalculateEventPath(doc: Document, target: nat) returns (path: seq<nat>)
      requires doc.Valid() && target in doc.nodes
      ensures IsParentPath(doc.nodes, target, path)
    {
      path := [];
      var current: Option<nat> := Some(target);
      while current.Some?
        invariant current.Some? ==> current.value in doc.nodes
        invariant path == [] ==> current == Some(target)
        invariant path != [] ==> path[0] == target
        invariant forall i :: 0 <= i < |path| ==> path[i] in doc.nodes
        invariant forall i :: 0 <= i < |path| - 1 ==> doc.nodes[path[i]].parent == Some(path[i + 1])
        invariant path != [] ==> doc.nodes[path[|path| - 1]].parent == current
        decreases if current.Some? then current.value + 1 else 0
      {
        var node := current.value;
        path := path + [node];
        current := doc.nodes[node].parent;
      }
    }

    /**
     * `execute_listeners`: the listeners of one node that belong to the
     * event's phase (the capture list, all, the bubble list, or none), in
     * order, stopping as soon as the immediate-stop flag is set.
     */
    method ExecuteListeners(node: nat, event: Event) returns (steps: seq<Step>)
      requires Mirrored()
      ensures steps == NodeSteps(listenerMaps, node, event.phase, event.eventType, event.immediatePropagationStopped)
    {
      steps := [];
      if node !in nodeListeners || event.phase == PhaseNone {
        return;
      }
      var reg := nodeListeners[node];
      var relevant := PhaseListeners(reg, event.phase, event.eventType);
      steps := RunListeners(node, relevant, event);
    }

    /** The registry's list for the phase: capture listeners, all listeners, or bubble listeners. */
    static method PhaseListeners(reg: EventListenerRegistry, phase: EventPhase, eventType: string) returns (relevant: seq<EventListener>)
      requires phase != PhaseNone
      ensures Ids(relevant) == RunIds(reg.GetListeners(eventType), phase)
    {
      RunIdsByPhase(reg.GetListeners(eventType));
      if phase == Capturing {
        relevant := reg.GetCaptureListeners(eventType);
      } else if phase == AtTarget {
        relevant := reg.GetListeners(eventType);
      } else {
        relevant := reg.GetBubbleListeners(eventType);
      }
    }

    /** The listener loop of `execute_listeners`: one step per listener, none once immediately stopped. */
    static method RunListeners(node: nat, relevant: seq<EventListener>, event: Event) returns (steps: seq<Step>)
      ensures steps == if event.immediatePropagationStopped then [] else StepsOf(node, event.phase, Ids(relevant))
    {
      steps := [];
      var i := 0;
      while i < |relevant|
        invariant 0 <= i <= |relevant|
        invariant steps == if event.immediatePropagationStopped then [] else StepsOf(node, event.phase, Ids(relevant)[..i])
      {
        if event.immediatePropagationStopped {
          break;
        }
        assert Ids(relevant)[..i + 1][..i] == Ids(relevant)[..i];
        steps := steps + [Step(node, event.phase, relevant[i].id)];
        i := i + 1;
      }
      assert Ids(relevant)[..|relevant|] == Ids(relevant);
    }

    /** The capture loop of `dispatch_event`: the path from its last node to its first, until propagation is stopped. */
    method CapturePhase(path: seq<nat>, event: Event) returns (steps: seq<Step>)
      requires Mirrored() && event.phase == Capturing
      ensures steps == if event.propagationStopped then []
                       else ReversedPathSteps(listenerMaps, path, Capturing, event.eventType, event.immediatePropagationStopped)
    {
      ghost var lm := listenerMaps;
      steps := [];
      var i := |path|;
      while i > 0
        invariant 0 <= i <= |path|
        invariant steps == if event.propagationStopped then []
                           else ReversedPathSteps(lm, path[i..], Capturing, event.eventType, event.immediatePropagationStopped)
      {
        if event.propagationStopped {
          break;
        }
        i := i - 1;
        var s := ExecuteListeners(path[i], event);
        assert path[i..][1..] == path[i + 1..];
        steps := steps + s;
      }
      assert path[0..] == path;
    }

    /** The bubble loop of `dispatch_event`: the path in order, passing over the target, until propagation is stopped. */
    method BubblePhase(path: seq<nat>, target: nat, event: Event) returns (steps: seq<Step>)
      requires Mirrored() && event.phase == Bubbling
      ensures steps == if event.propagationStopped then []
                       else BubbleSteps(listenerMaps, path, target, event.eventType, event.immediatePropagationStopped)
    {
      ghost var lm := listenerMaps;
      steps := [];
      var i := 0;
      while i < |path|
        invariant 0 <= i <= |path|
        invariant steps == if event.propagationStopped then []
                           else BubbleSteps(lm, path[..i], target, event.eventType, event.immediatePropagationStopped)
      {
        if event.propagationStopped {
          break;
        }
        assert path[..i + 1][..i] == path[..i];
        if path[i] == target {
          i := i + 1;
          continue;
        }
        var s := ExecuteListeners(path[i], event);
        steps := steps + s;
        i := i + 1;
      }
      assert path[..|path|] == path;
    }

    /**
     * The three phases of `dispatch_event` along a computed path. The source
     * takes the event by value; here the event's phase field is left at the
     * last phase run.
     */
    method PropagateAlong(path: seq<nat>, target: nat, event: Event) returns (notPrevented: bool, trace: seq<Step>)
      requires Mirrored()
      modifies event`phase
      ensures notPrevented == !event.defaultPrevented
      ensures trace == DispatchSteps(listenerMaps, path, target, event.eventType, event.bubbles,
                                     event.propagationStopped, event.immediatePropagationStopped)
    {
      ghost var lm := listenerMaps;
      var capture: seq<Step> := [];
      if event.bubbles {
        event.phase := Capturing;
        capture := CapturePhase(path, event);
      }
      event.phase := AtTarget;
      var atTarget := ExecuteListeners(target, event);
      var bubble: seq<Step> := [];
      if event.bubbles && !event.propagationStopped {
        event.phase := Bubbling;
        bubble := BubblePhase(path, target, event);
      }
      trace := capture + atTarget + bubble;
      notPrevented := !event.defaultPrevented;
    }

    /**
     * `dispatch_event`: capture along the path from the root, the target
     * phase, then bubbling towards the root, as `DispatchSteps` describes.
     * Returns whether the default action was not prevented.
     */
    method DispatchEvent(doc: Document, target: nat, event: Event) returns (notPrevented: bool, trace: seq<Step>)
      requires Valid() && doc.Valid() && target in doc.nodes
      modifies this`elementCache, event`phase
      ensures notPrevented == !event.defaultPrevented
      ensures exists path ::
        && IsParentPath(doc.nodes, target, path)
        && trace == DispatchSteps(listenerMaps, path, target, event.eventType, event.bubbles,
                                  event.propagationStopped, event.immediatePropagationStopped)
    {
      var _ := GetElement(Subtree(doc.nodes, doc.nextId, target));
      var path := CalculateEventPath(doc, target);
      notPrevented, trace := PropagateAlong(path, target, event);
    }

    /** `find_node_by_id`: the first element in preorder whose `id` attribute is `id`; None without a document. */
    function FindNodeById(id: string): (r: Option<Node>)
      reads this`document, document
      requires document != null ==> document.Valid()
      ensures document == null ==> r == None
      ensures document != null ==> r == FirstOf(Select(Preorder(document.Root()), n => HasIdAttribute(n, id)))
    {
      if document == null then None
      else
        var p := (n: Node) => HasIdAttribute(n, id);
        FirstMatchIsFirstCollected(document.Root(), p);
        CollectMatchesIsPreorderSelect(document.Root(), p);
        FirstMatch(document.Root(), p)
    }

    /** `find_nodes_by_class`: the elements whose `class` attribute contains the name as a word, in preorder. */
    function FindNodesByClass(className: string): (r: seq<Node>)
      reads this`document, document
      requires document != null ==> document.Valid()
      ensures document == null ==> r == []
      ensures document != null ==> r == Select(Preorder(document.Root()), n => HasClassToken(n, className))
    {
      if document == null then []
      else
        var p := (n: Node) => HasClassToken(n, className);
        CollectMatchesIsPreorderSelect(document.Root(), p);
        CollectMatches(document.Root(), p)
    }

    /** `find_nodes_by_tag`: the elements with that tag, in preorder. */
    function FindNodesByTag(tag: string): (r: seq<Node>)
      reads this`document, document
      requires document != null ==> document.Valid()
      ensures document == null ==> r == []
      ensures document != null ==> r == Select(Preorder(document.Root()), n => HasTag(n, tag))
    {
      if document == null then []
      else
        var p := (n: Node) => HasTag(n, tag);
        CollectMatchesIsPreorderSelect(document.Root(), p);
        CollectMatches(document.Root(), p)
    }

    /**
     * The common body of `simulate_click`, `simulate_keydown` and
     * `simulate_input`: a bubbling, cancelable event of the given type is
     * dispatched at the element found by `find_node_by_id`; without such an
     * element nothing is dispatched and the result is false.
     */
    method SimulateOn(eventType: string, targetId: string) returns (dispatched: bool, trace: seq<Step>)
      requires Valid() && (document != null ==> document.Valid())
      modifies this`elementCache
      ensures dispatched <==> FindNodeById(targetId).Some?
      ensures FindNodeById(targetId).None? ==> trace == []
      ensures FindNodeById(targetId).Some? ==>
        var target := FindNodeById(targetId).value.id;
        exists path ::
          && IsParentPath(document.nodes, target, path)
          && trace == DispatchSteps(listenerMaps, path, target, eventType, true, false, false)
    {
      var found := FindNodeById(targetId);
      if found.None? {
        return false, [];
      }
      var doc := document;
      var p := (n: Node) => HasIdAttribute(n, targetId);
      SelectMembers(Preorder(doc.Root()), p, found.value);
      SubtreeNodesInArena(doc.nodes, doc.nextId, 0, found.value);
      var event := new Event(eventType, true, true);
      dispatched, trace := DispatchEvent(doc, found.value.id, event);
    }

    /** `simulate_click`: dispatches a `click` at the element with that id attribute. */
    method SimulateClick(targetId: string) returns (dispatched: bool, trace: seq<Step>)
      requires Valid() && (document != null ==> document.Valid())
      modifies this`elementCache
      ensures dispatched <==> FindNodeById(targetId).Some?
      ensures FindNodeById(targetId).None? ==> trace == []
      ensures FindNodeById(targetId).Some? ==>
        var target := FindNodeById(targetId).value.id;
        exists path ::
          && IsParentPath(document.nodes, target, path)
          && trace == DispatchSteps(listenerMaps, path, target, "click", true, false, false)
    {
      dispatched, trace := SimulateOn("click", targetId);
    }

    /** `simulate_keydown`: dispatches a `keydown` at the element with that id attribute. */
    method SimulateKeydown(targetId: string, key: string) returns (dispatched: bool, trace: seq<Step>)
      requires Valid() && (document != null ==> document.Valid())
      modifies this`elementCache
      ensures dispatched <==> FindNodeById(targetId).Some?
      ensures FindNodeById(targetId).None? ==> trace == []
      ensures FindNodeById(targetId).Some? ==>
        var target := FindNodeById(targetId).value.id;
        exists path ::
          && IsParentPath(document.nodes, target, path)
          && trace == DispatchSteps(listenerMaps, path, target, "keydown", true, false, false)
    {
      dispatched, trace := SimulateOn("keydown", targetId);
    }

    /** `simulate_input`: dispatches an `input` at the element with that id attribute. */
    method SimulateInput(targetId: string, value: string) returns (dispatched: bool, trace: seq<Step>)
      requires Valid() && (document != null ==> document.Valid())
      modifies this`elementCache
      ensures dispatched <==> FindNodeById(targetId).Some?
      ensures FindNodeById(targetId).None? ==> trace == []
      ensures FindNodeById(targetId).Some? ==>
        var target := FindNodeById(targetId).value.id;
        exists path ::
          && IsParentPath(document.nodes, target, path)
          && trace == DispatchSteps(listenerMaps, path, target, "input", true, false, false)
    {
      dispatched, trace := SimulateOn("input", targetId);
    }
  }
}
