/**
 * The event-driven renderer (renderer_wgpu/src/event_driven_renderer.rs):
 * a dirty flag telling the GPU pipeline to draw again, counters of the
 * events handled and the re-renders requested, and render callbacks
 * registered per event type. DOM events are dispatched through a
 * `DomEventManager`, whose document decides whether a target id is found.
 *
 * A render callback is an opaque closure; here it is a handle, and running
 * it appends its handle to `invoked`, so the model records which callbacks
 * ran and in which order.
 */
module EventDrivenRendering {
  import opened Wrappers
  import LayoutEngine
  import Dom
  import DEI = DomEventIntegration

  /** A registered render callback. */
  datatype RenderCallback = RenderCallback(handle: nat)

  /** `EventStats`. */
  datatype EventStats = EventStats(
    eventsProcessed: nat,
    rerendersTriggered: nat,
    lastEventType: Option<string>,
    lastTargetId: Option<string>)

  /** `EventStats::default()`. */
  const NoEvents := EventStats(0, 0, None, None)

  /** The renderer's observable state. */
  datatype RendererState = RendererState(
    hasLayoutTree: bool,
    hasDocument: bool,
    needsRerender: bool,
    listeners: map<string, seq<RenderCallback>>,
    stats: EventStats,
    invoked: seq<RenderCallback>)

  /** `EventDrivenRenderer::new`: nothing set, a re-render pending, no listeners, zero counters. */
  const InitialState := RendererState(false, false, true, map[], NoEvents, [])

  // ---------------------------------------------------------------------
  // Render listeners
  // ---------------------------------------------------------------------

  /** The callbacks registered for an event type, in registration order. */
  function Registered(ls: map<string, seq<RenderCallback>>, eventType: string): seq<RenderCallback> {
    if eventType in ls then ls[eventType] else []
  }

  /** `get_render_listeners`: how many callbacks the type has, 0 for an unknown type. */
  function ListenerCount(s: RendererState, eventType: string): (n: nat)
    ensures eventType !in s.listeners ==> n == 0
  {
    |Registered(s.listeners, eventType)|
  }

  /** `add_render_listener`: the callback is pushed onto its type's list, created on demand. */
  function AddListenerStep(s: RendererState, eventType: string, cb: RenderCallback): RendererState {
    s.(listeners := s.listeners[eventType := Registered(s.listeners, eventType) + [cb]])
  }

  /** `clear_render_listeners`. */
  function ClearListenersStep(s: RendererState): RendererState {
    s.(listeners := map[])
  }

  /**
   * Adding a listener raises its type's count by one and leaves every other
   * type's callbacks, the flag and the statistics as they were.
   */
  lemma AddRenderListenerCounts(s: RendererState, eventType: string, cb: RenderCallback, other: string)
    ensures ListenerCount(AddListenerStep(s, eventType, cb), eventType) == ListenerCount(s, eventType) + 1
    ensures Registered(AddListenerStep(s, eventType, cb).listeners, eventType)
         == Registered(s.listeners, eventType) + [cb]
    ensures other != eventType ==>
              Registered(AddListenerStep(s, eventType, cb).listeners, other) == Registered(s.listeners, other)
    ensures AddListenerStep(s, eventType, cb).(listeners := s.listeners) == s
  {
  }

  /** After clearing, every type has no callbacks and the number of registered types is 0. */
  lemma ClearRenderListenersEmpties(s: RendererState, eventType: string)
    ensures ListenerCount(ClearListenersStep(s), eventType) == 0
    ensures |ClearListenersStep(s).listeners| == 0
    ensures ClearListenersStep(s).stats == s.stats && ClearListenersStep(s).needsRerender == s.needsRerender
  {
  }

  // ---------------------------------------------------------------------
  // The dirty flag and the counters
  // ---------------------------------------------------------------------

  /** `set_document`. */
  function SetDocumentStep(s: RendererState): RendererState {
    s.(hasDocument := true, needsRerender := true)
  }

  /** `set_layout_tree`. */
  function SetLayoutTreeStep(s: RendererState): RendererState {
    s.(hasLayoutTree := true, needsRerender := true)
  }

  /** `trigger_rerender`. */
  function RerenderStep(s: RendererState): RendererState {
    s.(needsRerender := true, stats := s.stats.(rerendersTriggered := s.stats.rerendersTriggered + 1))
  }

  /** `mark_rendered`. */
  function MarkRenderedStep(s: RendererState): RendererState {
    s.(needsRerender := false)
  }

  /**
   * `handle_dom_event`, given whether the target id is found: the counters
   * each grow by one and the type and target are recorded whether or not the
   * target exists; only for a found target do the type's render callbacks run.
   */
  function HandleEvent(s: RendererState, eventType: string, targetId: string, found: bool): RendererState {
    s.(needsRerender := true,
       stats := EventStats(s.stats.eventsProcessed + 1, s.stats.rerendersTriggered + 1, Some(eventType), Some(targetId)),
       invoked := s.invoked + if found then Registered(s.listeners, eventType) else [])
  }

  /**
   * Setting the document or the layout tree asks for a re-render and counts
   * nothing; only `trigger_rerender` counts a re-render outside event
   * handling; `mark_rendered` clears the flag and touches nothing else.
   */
  lemma FlagTransitions(s: RendererState)
    ensures SetDocumentStep(s).needsRerender && SetDocumentStep(s).stats == s.stats && SetDocumentStep(s).hasDocument
    ensures SetLayoutTreeStep(s).needsRerender && SetLayoutTreeStep(s).stats == s.stats && SetLayoutTreeStep(s).hasLayoutTree
    ensures RerenderStep(s).needsRerender
    ensures RerenderStep(s).stats.rerendersTriggered == s.stats.rerendersTriggered + 1
    ensures RerenderStep(s).stats.eventsProcessed == s.stats.eventsProcessed
    ensures !MarkRenderedStep(s).needsRerender && MarkRenderedStep(s).(needsRerender := s.needsRerender) == s
  {
  }

  /**
   * Handling an event always marks the renderer dirty, bumps both counters
   * by one and records the type and target; the callbacks that run are the
   * type's, in registration order, when the target is found, and none
   * otherwise. Listeners, document and layout tree are unchanged.
   */
  lemma HandleEventEffect(s: RendererState, eventType: string, targetId: string, found: bool)
    ensures HandleEvent(s, eventType, targetId, found).needsRerender
    ensures HandleEvent(s, eventType, targetId, found).stats.eventsProcessed == s.stats.eventsProcessed + 1
    ensures HandleEvent(s, eventType, targetId, found).stats.rerendersTriggered == s.stats.rerendersTriggered + 1
    ensures HandleEvent(s, eventType, targetId, found).stats.lastEventType == Some(eventType)
    ensures HandleEvent(s, eventType, targetId, found).stats.lastTargetId == Some(targetId)
    ensures HandleEvent(s, eventType, targetId, found).invoked
         == s.invoked + (if found then Registered(s.listeners, eventType) else [])
    ensures HandleEvent(s, eventType, targetId, found).listeners == s.listeners
  {
  }

  // ---------------------------------------------------------------------
  // Batches
  // ---------------------------------------------------------------------

  /** An event of a batch: its type and its target id. */
  type EventSpec = (string, string)

  /**
   * `process_event_batch`, given for each event whether its target is found:
   * the events handled in order, and how many of them found their target.
   */
  function Batch(s: RendererState, events: seq<EventSpec>, found: seq<bool>): (RendererState, nat)
    requires |found| == |events|
    decreases |events|
  {
    if events == [] then (s, 0)
    else
      var n := |events| - 1;
      var (t, count) := Batch(s, events[..n], found[..n]);
      (HandleEvent(t, events[n].0, events[n].1, found[n]), count + if found[n] then 1 else 0)
  }

  /** How many flags are set. */
  function CountFound(found: seq<bool>): (n: nat)
    ensures n <= |found|
  {
    if found == [] then 0 else CountFound(found[..|found| - 1]) + (if found[|found| - 1] then 1 else 0)
  }

  /**
   * A batch returns the number of events whose target was found; each
   * counter grows by the batch's length; the flag is set after a non-empty
   * batch; the last event of the batch is the one recorded; listeners stay.
   */
  lemma {:induction false} BatchCounts(s: RendererState, events: seq<EventSpec>, found: seq<bool>)
    requires |found| == |events|
    ensures Batch(s, events, found).1 == CountFound(found) <= |events|
    ensures Batch(s, events, found).0.stats.eventsProcessed == s.stats.eventsProcessed + |events|
    ensures Batch(s, events, found).0.stats.rerendersTriggered == s.stats.rerendersTriggered + |events|
    ensures Batch(s, events, found).0.listeners == s.listeners
    decreases |events|
  {
    if events != [] {
      var n := |events| - 1;
      BatchCounts(s, events[..n], found[..n]);
    }
  }

  /** After a non-empty batch a re-render is pending and its last event is the recorded one. */
  lemma BatchRecordsLast(s: RendererState, events: seq<EventSpec>, found: seq<bool>)
    requires |found| == |events| && events != []
    ensures Batch(s, events, found).0.needsRerender
    ensures Batch(s, events, found).0.stats.lastEventType == Some(events[|events| - 1].0)
    ensures Batch(s, events, found).0.stats.lastTargetId == Some(events[|events| - 1].1)
  {
  }

  /** Handling one more event of a batch extends the batch's prefix by that event. */
  lemma BatchPrefixStep(s: RendererState, events: seq<EventSpec>, found: seq<bool>, i: nat)
    requires |found| == |events| && i < |events|
    ensures Batch(s, events[..i + 1], found[..i + 1])
         == (HandleEvent(Batch(s, events[..i], found[..i]).0, events[i].0, events[i].1, found[i]),
             Batch(s, events[..i], found[..i]).1 + if found[i] then 1 else 0)
  {
    assert events[..i + 1][..i] == events[..i];
    assert found[..i + 1][..i] == found[..i];
  }

  /** With no target found (no document, say) a batch returns 0 and runs no callback. */
  lemma {:induction false} BatchNoneFound(s: RendererState, events: seq<EventSpec>, found: seq<bool>)
    requires |found| == |events|
    requires forall i :: 0 <= i < |found| ==> !found[i]
    ensures Batch(s, events, found).1 == 0
    ensures Batch(s, events, found).0.invoked == s.invoked
    decreases |events|
  {
    if events != [] {
      var n := |events| - 1;
      BatchNoneFound(s, events[..n], found[..n]);
    }
  }

  /** Whether `find_node_by_id` finds each event's target in the manager's document. */
  function FoundFlags(m: DEI.DomEventManager, events: seq<EventSpec>): (r: seq<bool>)
    reads m`document, m.document
    requires m.document != null ==> m.document.Valid()
    ensures |r| == |events|
    ensures forall i :: 0 <= i < |events| ==> r[i] == m.FindNodeById(events[i].1).Some?
    ensures m.document == null ==> forall i :: 0 <= i < |r| ==> !r[i]
    decreases |events|
  {
    if events == [] then []
    else FoundFlags(m, events[..|events| - 1]) + [m.FindNodeById(events[|events| - 1].1).Some?]
  }

  // ---------------------------------------------------------------------
  // The renderer
  // ---------------------------------------------------------------------

  /**
   * The dispatch step of `handle_dom_event`: a bubbling, cancelable event is
   * dispatched at the element with that id attribute, if there is one; the
   * result says whether there was.
   */
  method Dispatch(m: DEI.DomEventManager, eventType: string, targetId: string) returns (dispatched: bool)
    requires m.Valid() && (m.document != null ==> m.document.Valid())
    modifies m`elementCache
    ensures dispatched == old(m.FindNodeById(targetId)).Some?
  {
    var ok, trace := m.SimulateOn(eventType, targetId);
    dispatched := ok;
  }

  /** `RendererStats`. */
  datatype RendererStats = RendererStats(
    hasLayoutTree: bool,
    hasDocument: bool,
    needsRerender: bool,
    renderListeners: nat,
    domEventStats: DEI.DomEventStats,
    eventStats: EventStats)

  /** `EventDrivenRenderer`. */
  class EventDrivenRenderer {
    var layoutTree: Option<LayoutEngine.LayoutBox>
    const domEventManager: DEI.DomEventManager
    var document: Dom.Document?
    var needsRerender: bool
    var renderListeners: map<string, seq<RenderCallback>>
    var eventStats: EventStats
    var invoked: seq<RenderCallback>

    function State(): RendererState
      reads this
    {
      RendererState(layoutTree.Some?, document != null, needsRerender, renderListeners, eventStats, invoked)
    }

    /** The manager is consistent and shares the renderer's document. */
    ghost predicate Valid()
      reads this`document, domEventManager`nodeListeners, domEventManager`listenerMaps, domEventManager`document
      reads domEventManager.nodeListeners.Values, domEventManager.document
    {
      && domEventManager.Valid()
      && domEventManager.document == document
      && (document != null ==> document.Valid())
    }

    /** `EventDrivenRenderer::new`. */
    constructor ()
      ensures Valid() && fresh(domEventManager)
      ensures State() == InitialState
    {
      layoutTree := None;
      domEventManager := new DEI.DomEventManager();
      document := null;
      needsRerender := true;
      renderListeners := map[];
      eventStats := NoEvents;
      invoked := [];
    }

    /** `set_document`: the renderer and its manager both take the document. */
    method SetDocument(doc: Dom.Document)
      requires Valid() && doc.Valid()
      modifies this, domEventManager`document
      ensures Valid() && document == doc
      ensures State() == SetDocumentStep(old(State()))
      ensures layoutTree == old(layoutTree)
    {
      document := doc;
      domEventManager.SetDocument(doc);
      needsRerender := true;
    }

    /** `set_layout_tree`. */
    method SetLayoutTree(tree: LayoutEngine.LayoutBox)
      modifies this
      ensures layoutTree == Some(tree) && document == old(document)
      ensures State() == SetLayoutTreeStep(old(State()))
    {
      layoutTree := Some(tree);
      needsRerender := true;
    }

    /** `add_render_listener`. */
    method AddRenderListener(eventType: string, cb: RenderCallback)
      modifies this
      ensures State() == AddListenerStep(old(State()), eventType, cb)
      ensures layoutTree == old(layoutTree) && document == old(document)
    {
      var existing := if eventType in renderListeners then renderListeners[eventType] else [];
      renderListeners := renderListeners[eventType := existing + [cb]];
    }

    /** `trigger_rerender`. */
    method TriggerRerender()
      modifies this
      ensures State() == RerenderStep(old(State()))
      ensures layoutTree == old(layoutTree) && document == old(document)
    {
      needsRerender := true;
      eventStats := eventStats.(rerendersTriggered := eventStats.rerendersTriggered + 1);
    }

    /**
     * `handle_dom_event`: a bubbling, cancelable event of that type is
     * dispatched at the element `find_node_by_id` finds, and the type's
     * render callbacks run; the result says whether the target was found.
     */
    method HandleDomEvent(eventType: string, targetId: string) returns (found: bool)
      requires Valid()
      modifies this, domEventManager`elementCache
      ensures Valid()
      ensures found == old(domEventManager.FindNodeById(targetId)).Some?
      ensures State() == HandleEvent(old(State()), eventType, targetId, found)
      ensures layoutTree == old(layoutTree) && document == old(document)
    {
      found := Dispatch(domEventManager, eventType, targetId);
      RecordEvent(eventType, targetId, found);
    }

    /**
     * The bookkeeping of `handle_dom_event`. The source updates the counters
     * before dispatching; the dispatch cannot see them, so doing it after the
     * dispatch changes nothing.
     */
    method RecordEvent(eventType: string, targetId: string, found: bool)
      modifies this`invoked, this`needsRerender, this`eventStats
      ensures State() == HandleEvent(old(State()), eventType, targetId, found)
    {
      if found {
        RunCallbacks(if eventType in renderListeners then renderListeners[eventType] else []);
      }
      needsRerender := true;
      eventStats := EventStats(eventStats.eventsProcessed + 1, eventStats.rerendersTriggered + 1, Some(eventType), Some(targetId));
    }

    /** The loop of `handle_dom_event` calling each render callback of the event's type in turn. */
    method RunCallbacks(callbacks: seq<RenderCallback>)
      modifies this`invoked
      ensures invoked == old(invoked) + callbacks
    {
      var i := 0;
      while i < |callbacks|
        invariant 0 <= i <= |callbacks|
        invariant invoked == old(invoked) + callbacks[..i]
      {
        invoked := invoked + [callbacks[i]];
        i := i + 1;
      }
      assert callbacks[..i] == callbacks;
    }

    /** `simulate_click`. */
    method SimulateClick(targetId: string) returns (found: bool)
      requires Valid()
      modifies this, domEventManager`elementCache
      ensures Valid()
      ensures found == old(domEventManager.FindNodeById(targetId)).Some?
      ensures State() == HandleEvent(old(State()), "click", targetId, found)
    {
      found := HandleDomEvent("click", targetId);
    }

    /** `simulate_input`. */
    method SimulateInput(targetId: string) returns (found: bool)
      requires Valid()
      modifies this, domEventManager`elementCache
      ensures Valid()
      ensures found == old(domEventManager.FindNodeById(targetId)).Some?
      ensures State() == HandleEvent(old(State()), "input", targetId, found)
    {
      found := HandleDomEvent("input", targetId);
    }

    /** `simulate_keydown`. */
    method SimulateKeydown(targetId: string) returns (found: bool)
      requires Valid()
      modifies this, domEventManager`elementCache
      ensures Valid()
      ensures found == old(domEventManager.FindNodeById(targetId)).Some?
      ensures State() == HandleEvent(old(State()), "keydown", targetId, found)
    {
      found := HandleDomEvent("keydown", targetId);
    }

    /** `needs_rerender`. */
    function NeedsRerender(): (b: bool)
      reads this
      ensures b == State().needsRerender
    {
      needsRerender
    }

    /** `mark_rendered`. */
    method MarkRendered()
      modifies this
      ensures State() == MarkRenderedStep(old(State()))
      ensures layoutTree == old(layoutTree) && document == old(document)
    {
      needsRerender := false;
    }

    /** `get_layout_tree`. */
    function GetLayoutTree(): (r: Option<LayoutEngine.LayoutBox>)
      reads this
      ensures r.Some? == State().hasLayoutTree
    {
      layoutTree
    }

    /** `get_stats`: the number of listener entries is the number of event types registered. */
    ghost function GetStats(): (r: RendererStats)
      reads this, domEventManager
      ensures r.hasLayoutTree == State().hasLayoutTree && r.hasDocument == State().hasDocument
      ensures r.needsRerender == State().needsRerender && r.eventStats == State().stats
      ensures r.renderListeners == |State().listeners| && r.domEventStats == domEventManager.GetStats()
    {
      RendererStats(layoutTree.Some?, document != null, needsRerender, |renderListeners|,
                    domEventManager.GetStats(), eventStats)
    }

    /** `process_event_batch`: each event handled in turn; the result counts those whose target was found. */
    method ProcessEventBatch(events: seq<EventSpec>) returns (processed: nat)
      requires Valid()
      modifies this, domEventManager`elementCache
      ensures Valid()
      ensures (State(), processed) == Batch(old(State()), events, FoundFlags(domEventManager, events))
      ensures layoutTree == old(layoutTree) && document == old(document)
    {
      ghost var start := State();
      ghost var found := FoundFlags(domEventManager, events);
      processed := 0;
      var i := 0;
      while i < |events|
        invariant 0 <= i <= |events|
        invariant Valid() && layoutTree == old(layoutTree) && document == old(document)
        invariant unchanged(domEventManager`document) && (document != null ==> unchanged(document))
        invariant (State(), processed) == Batch(start, events[..i], found[..i])
      {
        processed := HandleBatchEvent(start, events, found, i, processed);
        i := i + 1;
      }
      assert events[..i] == events && found[..i] == found;
    }

    /** One turn of the loop of `process_event_batch`: the batch's prefix grows by event `i`. */
    method HandleBatchEvent(ghost start: RendererState, events: seq<EventSpec>, ghost found: seq<bool>, i: nat, processed: nat)
      returns (processed': nat)
      requires Valid() && |found| == |events| && i < |events|
      requires found[i] == domEventManager.FindNodeById(events[i].1).Some?
      requires (State(), processed) == Batch(start, events[..i], found[..i])
      modifies this, domEventManager`elementCache
      ensures Valid() && layoutTree == old(layoutTree) && document == old(document)
      ensures (State(), processed') == Batch(start, events[..i + 1], found[..i + 1])
    {
      BatchPrefixStep(start, events, found, i);
      var hit := HandleDomEvent(events[i].0, events[i].1);
      processed' := if hit then processed + 1 else processed;
    }

    /** `clear_render_listeners`. */
    method ClearRenderListeners()
      modifies this
      ensures State() == ClearListenersStep(old(State()))
      ensures layoutTree == old(layoutTree) && document == old(document)
    {
      renderListeners := map[];
    }

    /** `get_render_listeners`. */
    function GetRenderListeners(eventType: string): (n: nat)
      reads this
      ensures n == ListenerCount(State(), eventType)
    {
      if eventType in renderListeners then |renderListeners[eventType]| else 0
    }
  }

  /**
   * A fresh renderer has no layout tree and no document, a re-render
   * pending, no listeners and zero counters; without a document a click
   * finds nothing yet is counted as one event and one re-render.
   */
  method ClickWithoutDocument() returns (r: EventDrivenRenderer, found: bool)
    ensures fresh(r) && r.Valid()
    ensures !found
    ensures r.GetStats().eventStats.eventsProcessed == 1 && r.GetStats().eventStats.rerendersTriggered == 1
    ensures r.GetStats().needsRerender && !r.GetStats().hasDocument && !r.GetStats().hasLayoutTree
  {
    r := new EventDrivenRenderer();
    found := r.SimulateClick("test-button");
  }

  /** One `click` listener counts 1 for `click` and 0 for `input`; after clearing, 0 for `click`. */
  lemma ListenerCountsExample(cb: RenderCallback)
    ensures ListenerCount(AddListenerStep(InitialState, "click", cb), "click") == 1
    ensures ListenerCount(AddListenerStep(InitialState, "click", cb), "input") == 0
    ensures ListenerCount(ClearListenersStep(AddListenerStep(InitialState, "click", cb)), "click") == 0
  {
  }

  /**
   * A batch of three events without a document: none is found, so the
   * batch returns 0 and runs no callback, yet three events and three
   * re-renders are counted and the last event is the one recorded.
   */
  lemma ThreeEventsWithoutDocument(s: RendererState)
    requires s == InitialState
    ensures var (t, n) := Batch(s, [("click", "button1"), ("input", "input1"), ("keydown", "input1")], [false, false, false]);
            && n == 0 && t.invoked == []
            && t.stats == EventStats(3, 3, Some("keydown"), Some("input1"))
            && t.needsRerender
  {
    var events: seq<EventSpec> := [("click", "button1"), ("input", "input1"), ("keydown", "input1")];
    var found := [false, false, false];
    BatchCounts(s, events, found);
    BatchNoneFound(s, events, found);
    BatchRecordsLast(s, events, found);
  }
}
