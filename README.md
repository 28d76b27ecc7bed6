# A verified model of the dubby browser engine core

This project models, in Dafny, the core of the dubby browser engine, which is written in Rust:

- **DOM.** The node tree and its document (`dom/src/lib.rs`). The element wrapper with its attributes and class list (`dom/src/element.rs`).
- **Events.** The event object and its flags (`dom/src/event_types.rs`). Listener registries and DOM-level dispatch (`dom/src/events.rs`, `dom/src/dom_event_integration.rs`). Event delegation (`dom/src/delegation.rs`).
- **HTML.** The tokenizer and the tree builder (`html_parser/src/lib.rs`).
- **CSS.** The tokenizer, the selector parser and matcher, the stylesheet parser, specificity and the cascade engine (`css_parser/src/lib.rs`).
- **Layout.** The computed-style record and the block, flex and grid layout engine (inline boxes stack like blocks) (`layout/src/lib.rs`).
- **Rendering.** The text renderers and the layout dump (`renderer/src/lib.rs`). The event-driven renderer's dirty flag, counters and render listeners (`renderer_wgpu/src/event_driven_renderer.rs`).
- **Networking.** HTTP methods, status codes, requests and responses, and the simulated `XMLHttpRequest` (`networking/src/lib.rs`).
- **JavaScript integration.** The microtask queue (`js_integration/src/microtask_queue.rs`). `AbortController` and its signals and host (`js_integration/src/abort_controller.rs`).

The model follows the source's own form:

- Pure code (tokenizers, selector matching, tree queries, layout arithmetic, formatting) becomes datatypes, functions and lemmas.
- Objects whose methods update fields become classes: the document arena, elements, listener registries, the event manager, the cascade engine, the renderers, the XHR object, the microtask queue, abort signals and the host, and the event-driven renderer.
- Each class method is proved against a specification function, usually a step function over a state value. The lemmas about those specification functions state what the source promises.

Several modules do not model a core file of their own:

- `Wrappers` holds the `Option` and `Result` types.
- `Text` holds ASCII models of the Rust string functions the source calls: `to_lowercase`, `to_uppercase`, `trim`, `split_whitespace`, `split`, `lines` and `to_string` on integers.
- `MapSum` holds sums over maps.

## Model

| member | source | states |
|---|---|---|
| Dom.TextContentIsPreorderText | dom/src/lib.rs:96-109 | The text content of a node is the concatenation of the text nodes of its subtree, taken in preorder. |
| Dom.ForestTextContentIsPreorderText | dom/src/lib.rs:99-107 | The join of the children's text contents is the concatenation of the text nodes of their preorders. |
| Dom.ElementsByTagNameIsPreorderFilter | dom/src/lib.rs:141-162 | `get_elements_by_tag_name` returns the preorder nodes that are elements with the tag, the node itself included, in document order. |
| Dom.ForestElementsByTagNameIsPreorderFilter | dom/src/lib.rs:156-159 | Extending the results child by child gives the matching nodes of the children's preorders, in order. |
| Dom.MatchesInShape | dom/src/lib.rs:145-153 | Every result is an element with the requested tag and is a childless copy, as the `Rc::new(Node { children: empty, .. })` copies are. |
| Dom.ElementByTagNameIsFirst | dom/src/lib.rs:115-136 | `get_element_by_tag_name` returns the first result of `get_elements_by_tag_name`, or None when there is none. |
| Dom.ForestElementByTagNameIsFirst | dom/src/lib.rs:128-133 | The search over the children returns the first match of the first child that has one. |
| Dom.Linked | dom/src/lib.rs:84-90 | Appending a child links it both ways and leaves the other nodes and the key set as they were. |
| Dom.LinkedWellFormed | dom/src/lib.rs:84-90 | Appending a parentless child to a node with a smaller id keeps the arena a well-formed tree. |
| Dom.SubtreeNodesInArena | dom/src/lib.rs:56-65 | Every node reachable from a node through child links belongs to the document. |
| Dom.Document.constructor | dom/src/lib.rs:179-185 | A new document is a lone Document root with id 0, and the counter is at 1. |
| Dom.Document.GetNextId | dom/src/lib.rs:226-230 | `get_next_id` returns the counter and increments it, so ids are handed out once. |
| Dom.Document.CreateNode | dom/src/lib.rs:188-192 | `create_node` creates a node with a fresh id, no parent and no children, and advances the counter. |
| Dom.Document.CreateElement | dom/src/lib.rs:195-200 | `create_element` creates an element with the tag and no attributes. |
| Dom.Document.CreateTextNode | dom/src/lib.rs:203-205 | `create_text_node` creates a text node with the content. |
| Dom.Document.AppendChild | dom/src/lib.rs:84-90 | The child becomes the last child of the parent and gets its parent link; nothing else changes. |
| Dom.Document.DocumentElement | dom/src/lib.rs:211-213 | `document_element` is the first `html` element in preorder. |
| Dom.Document.Body | dom/src/lib.rs:219-221 | `body` is the first `body` element in preorder. |
| DomElement.Without | dom/src/element.rs:91 | `retain` keeps exactly the names that differ from the removed one, so that name is absent afterwards. |
| DomElement.WithoutKeepsNoDuplicates | dom/src/element.rs:90-93 | Removing a class keeps a duplicate-free class list duplicate-free. |
| DomElement.WithoutKeepsTokens | dom/src/element.rs:90-93 | Removing a class keeps a list of whitespace-free names a list of whitespace-free names. |
| DomElement.JoinTokensEmpty | dom/src/element.rs:96-103 | The space-join of the class list is empty exactly when the list is, which decides between removing and writing the `class` attribute. |
| DomElement.Element.constructor | dom/src/element.rs:24-32 | A new element has no attributes, no id, no classes and an empty listener registry, and its class attribute agrees with its class list. |
| DomElement.Element.TagName | dom/src/element.rs:35-40 | `tag_name` is present exactly for element nodes and is their tag. |
| DomElement.Element.GetAttribute | dom/src/element.rs:43-45 | `get_attribute` is present exactly for stored names and returns the stored value. |
| DomElement.Element.SetAttribute | dom/src/element.rs:48-62 | The value is stored. `id` also sets the id field. `class` replaces the class list by the value's whitespace split, so class list and attribute agree afterwards. |
| DomElement.Element.RemoveAttribute | dom/src/element.rs:65-73 | The name is removed. `id` clears the id field and `class` empties the class list. |
| DomElement.Element.HasClass | dom/src/element.rs:76-78 | `has_class` holds exactly when the name occurs in the class list. |
| DomElement.Element.UpdateClassAttribute | dom/src/element.rs:96-103 | The `class` attribute becomes the space-join of the class list, or is removed when the join is empty; for whitespace-free names the attribute then agrees with the list. |
| DomElement.Element.AddClass | dom/src/element.rs:81-87 | The name is appended only when absent; the list stays duplicate-free, and when something was added, the `class` attribute becomes the space-separated join of the list (removed if that join is empty) and every other attribute is kept. |
| DomElement.Element.RemoveClass | dom/src/element.rs:90-93 | Every occurrence of the name is dropped; the `class` attribute becomes the space-separated join of the remaining list, or is removed when that join is empty, and every other attribute is kept. |
| DomElement.Element.SetInnerText | dom/src/element.rs:111-121 | The only child becomes a new text node with id `id + 1000`, so the inner text reads back as the text set (also `set_inner_html`, element.rs:130-133). |
| DomElement.Element.AddEventListener | dom/src/element.rs:137-143 | The listener is appended to its type's list under the registry's next id. |
| DomElement.Element.RemoveEventListener | dom/src/element.rs:146-150 | The registry loses exactly the first listener of that type with that id, as `remove_listener` removes it; the other listeners keep their order, the id counter is kept and the count never grows. |
| DomElement.Element.DispatchEvent | dom/src/element.rs:153-186 | The element's listeners of the event's type that belong to the current phase run in registration order; an immediate stop ends the run after the first; the result is "not prevented". |
| EventTypes.Event.constructor | dom/src/event_types.rs:65-82 | A new event has phase None, every flag false, and the given type, bubbles and cancelable values. |
| EventTypes.Event.PreventDefault | dom/src/event_types.rs:84-88 | Only a cancelable event records `default_prevented`; once set it stays set. |
| EventTypes.Event.StopPropagation | dom/src/event_types.rs:90-92 | The propagation-stopped flag is set. |
| EventTypes.Event.StopImmediatePropagation | dom/src/event_types.rs:94-97 | Both stop flags are set. |
| EventTypes.CaptureBubblePartition | dom/src/event_types.rs:268-280 | The capture listeners and the bubble listeners of a type together are its listeners, as a multiset and in number. |
| EventTypes.CaptureBubbleMembers | dom/src/event_types.rs:268-280 | `get_capture_listeners` holds only listeners of the type with `capture` set, and `get_bubble_listeners` only those without it. |
| EventTypes.RunIdsByPhase | dom/src/element.rs:163-168 | The phase filter of dispatch runs the capture listeners while capturing, the bubble listeners while bubbling, all of them at the target and none in phase None. |
| EventTypes.RunUntilStopped | dom/src/element.rs:162-183 | Without an immediate stop the phase's listeners run in order; with one, only the first of them runs, because the flag is checked after each listener. |
| EventTypes.TotalCountUpdate | dom/src/event_types.rs:286-288 | Replacing one type's list changes `total_listener_count` by the difference of the lengths. |
| EventTypes.WithoutIdAt | dom/src/event_types.rs:251-259 | Removing by id cuts the list at the first listener with that id (`position` then `remove`). |
| EventTypes.WithoutIdAbsent | dom/src/event_types.rs:251-259 | Removing an id that no listener has changes nothing. |
| EventTypes.WithoutIdRemovesAll | dom/src/event_types.rs:251-259 | With ids unique in the list, no listener with the id remains and the list shrinks by exactly one when the id was present. |
| EventTypes.RegistryOkAppend | dom/src/event_types.rs:233-249 | Appending a listener with the counter's id and advancing the counter keeps listener ids unique and below the counter. |
| EventTypes.RegistryOkRemoveAt | dom/src/event_types.rs:251-259 | Removing one listener keeps listener ids unique and below the counter. |
| EventTypes.EventListenerRegistry.constructor | dom/src/event_types.rs:226-231 | A new registry has no listeners and its counter at 1. |
| EventTypes.EventListenerRegistry.AddListener | dom/src/event_types.rs:233-249 | The listener gets the counter as its id and is appended to its type's list; the counter and the total both grow by one. |
| EventTypes.EventListenerRegistry.RemoveListener | dom/src/event_types.rs:251-259 | The result says whether a listener with the id was in the type's list; if so, the first such listener is removed and the others keep their order, and the total drops by one; otherwise nothing changes. |
| EventTypes.EventListenerRegistry.Clear | dom/src/event_types.rs:282-284 | No listeners of any type remain and the total is 0. |
| Events.CaptureWithoutStop | dom/src/events.rs:36-46 | Without an immediate stop, the capture loop runs the capture listeners of every target from the last down to index 1. |
| Events.CaptureRunsAtMostOneWhenImmediate | dom/src/events.rs:36-46 | With the immediate-stop flag already set, a whole capture phase runs at most one listener, because the first one that runs breaks the loop. |
| Events.BubbleRunsAtMostOneWhenImmediate | dom/src/events.rs:56-65 | With the immediate-stop flag already set, a whole bubble phase runs at most one listener. |
| Events.SingleTargetPath | dom/src/events.rs:38-41 | On a one-element path the capture and bubble loops run nothing, since both skip the target. |
| Events.CaptureStep | dom/src/events.rs:38-45 | One turn of the capture loop: the listeners of target `i`, then the rest of the phase unless they stopped it. |
| Events.EventDispatcher.constructor | dom/src/events.rs:17-23 | A new dispatcher has all counters at zero. |
| Events.EventDispatcher.BuildEventPath | dom/src/events.rs:83-109 | The path is the target alone, with or without a document root, because `find_parent_node` never finds a parent. |
| Events.EventDispatcher.FindParentNode | dom/src/events.rs:112-121 | `find_parent_node` always answers None. |
| Events.EventDispatcher.ExecuteListeners | dom/src/events.rs:124-151 | The target's listeners of the type that belong to the current phase run in registration order; the answer is true exactly when one ran with the immediate-stop flag set. |
| Events.EventDispatcher.CaptureAlong | dom/src/events.rs:36-46 | The capture loop runs, from the last path entry down to index 1, what `CaptureFrom` describes. |
| Events.EventDispatcher.BubbleAlong | dom/src/events.rs:56-65 | The bubble loop runs, over the path after its first entry, what `BubbleFrom` describes. |
| Events.EventDispatcher.DispatchEvent | dom/src/events.rs:26-80 | The dispatch is counted and its time added to the total and the maximum. Capture and bubble run nothing on the one-element path. The target's listeners run unless propagation is stopped. The final phase is Bubbling for a bubbling event and AtTarget otherwise. The result is "not prevented". |
| Events.EventDispatcher.RecordTime | dom/src/events.rs:71-73 | The elapsed time is added to the total and the maximum becomes the larger of the two. |
| Events.EventDispatcher.GetStats | dom/src/events.rs:174-185 | `get_stats` reports the counters; the integer average is at most the maximum, which is at most the total, and is 0 before the first dispatch. |
| Events.EventDelegationManager.constructor | dom/src/events.rs:204-208 | A new manager has no handlers. |
| Events.EventDelegationManager.AddDelegatedHandler | dom/src/events.rs:211-220 | The (parent, type, selector) key is inserted or overwritten. |
| Events.EventDelegationManager.RemoveDelegatedHandler | dom/src/events.rs:223-234 | Every handler of that parent and type is dropped; the others stay. |
| Events.EventDelegationManager.ShouldDelegate | dom/src/events.rs:237-241 | `should_delegate` holds exactly when some handler of the type is registered, for any parent and selector. |
| Events.EventDelegationManager.GetDelegatedHandlers | dom/src/events.rs:244-250 | The result has one (selector, type) pair per handler of the type, in some enumeration of the table's keys. |
| Events.ShouldDelegateIffListed | dom/src/events.rs:237-250 | `should_delegate` holds exactly when `get_delegated_handlers` returns something. |
| Events.Pow2Bounds | dom/src/events.rs:263 | `1 << n` for a shift below 32 is a single set bit that fits in a `u32`. |
| Events.ButtonMask | dom/src/events.rs:263 | The click's button mask has bit `max(button, 0)` set, so a negative button gives bit 0. |
| Events.ButtonMasks | dom/src/events.rs:263 | The primary, auxiliary and secondary buttons give the masks 1, 2 and 4. |
| Events.NewMouseEvent | dom/src/event_types.rs:117-131 | A new mouse event has zero coordinates, button -1, no pressed buttons and no modifiers. |
| Events.NewKeyboardEvent | dom/src/event_types.rs:150-163 | A new keyboard event has an empty key and code, zero codes, no modifiers and is not a repeat. |
| Events.NewInputEvent | dom/src/event_types.rs:176-183 | A new input event has no data, an empty input type and is not composing. |
| Events.CreateClickEvent | dom/src/events.rs:258-265 | A click bubbles, is cancelable, sits at (x, y) and carries the button and its mask. |
| Events.CreateMouseoverEvent | dom/src/events.rs:268-273 | A mouseover bubbles, is cancelable, sits at (x, y) and has no button. |
| Events.CreateMouseoutEvent | dom/src/events.rs:276-281 | A mouseout bubbles, is cancelable, sits at (x, y) and has no button. |
| Events.CreateInputEvent | dom/src/events.rs:284-289 | An input event bubbles, is cancelable and carries the data and the input type. |
| Events.CreateFocusEvent | dom/src/events.rs:292-294 | Focus neither bubbles nor can be cancelled. |
| Events.CreateBlurEvent | dom/src/events.rs:297-299 | Blur neither bubbles nor can be cancelled. |
| Events.CreateKeydownEvent | dom/src/events.rs:302-308 | A keydown bubbles, is cancelable and carries the key, the code and the key code. |
| Events.CreateKeyupEvent | dom/src/events.rs:311-317 | A keyup bubbles, is cancelable and carries the key, the code and the key code. |
| Events.CreateCustomEvent | dom/src/events.rs:320-324 | A custom event of any type bubbles, is cancelable and carries the detail. |
| Delegation.WithoutParentType | dom/src/delegation.rs:38-49 | The table after removal holds exactly the keys whose parent or type differs, with their callbacks. |
| Delegation.WithoutParentTypeIdempotent | dom/src/delegation.rs:38-49 | Removing the same parent and type twice leaves what one removal leaves. |
| Delegation.SelectorPairs | dom/src/delegation.rs:156-157 | One (selector, type) pair per listed key, in listing order. |
| Delegation.ListSelectors | dom/src/delegation.rs:153-159 | The listing is the (selector, type) pairs of some enumeration without repeats of the keys of that type. |
| Delegation.ListingSize | dom/src/delegation.rs:153-159 | The listing has one entry per registered key of the type, and every entry names that type. |
| Delegation.RemoveParentType | dom/src/delegation.rs:38-49 | Collecting the matching keys and removing them one by one gives `WithoutParentType`. |
| Delegation.EventDelegationSystem.constructor | dom/src/delegation.rs:15-20 | No handlers and an empty selector cache. |
| Delegation.EventDelegationSystem.AddDelegatedHandler | dom/src/delegation.rs:23-35 | The key is inserted or overwritten with the callback, and the selector is cached as a one-component list. |
| Delegation.EventDelegationSystem.RemoveDelegatedHandler | dom/src/delegation.rs:38-49 | Every handler of that parent and type is gone; the rest of the table and the selector cache stay. |
| Delegation.EventDelegationSystem.GetDelegatedHandlers | dom/src/delegation.rs:153-159 | One (selector, type) pair per handler of the type, in some enumeration of the table's keys. |
| Delegation.EventDelegationSystem.Clear | dom/src/delegation.rs:162-165 | No handlers and no cached selectors remain. |
| Delegation.EventDelegationSystem.GetStats | dom/src/delegation.rs:168-173 | The counts of registered handlers and of cached selectors. |
| Delegation.HandlerIds | dom/src/delegation.rs:203-206 | One `parent:selector` id per handler, in input order. |
| Delegation.HitRate | dom/src/delegation.rs:229-234 | The hit rate lies between 0 and 100; it is 100 when every lookup hit and 0 when none did. |
| Delegation.HalfHitRate | dom/src/delegation.rs:229-234 | One hit and one miss give 50. |
| Delegation.DelegationOptimizer.constructor | dom/src/delegation.rs:193-199 | An empty cache and zero counters. |
| Delegation.DelegationOptimizer.OptimizeLookup | dom/src/delegation.rs:202-209 | The type's entry becomes the handler ids in order; the other entries stay. |
| Delegation.DelegationOptimizer.GetCachedHandlers | dom/src/delegation.rs:212-220 | A cached type gives its list and one more hit; otherwise None and one more miss. |
| Delegation.DelegationOptimizer.ClearCache | dom/src/delegation.rs:223-225 | The cache is emptied and the counters are kept. |
| Delegation.DelegationOptimizer.GetStats | dom/src/delegation.rs:228-242 | The counters, their hit rate in percent and the number of cached types. |
| DomEventIntegration.CollectMatchesIsPreorderSelect | dom/src/dom_event_integration.rs:202-220 | The recursive search of a subtree returns exactly its matching nodes, in preorder. |
| DomEventIntegration.ForestCollectMatchesIsPreorderSelect | dom/src/dom_event_integration.rs:215-217 | Searching the children in turn returns the matching nodes of their preorder, in order. |
| DomEventIntegration.FirstMatchIsFirstCollected | dom/src/dom_event_integration.rs:172-190 | The recursive id search returns the first match in preorder. |
| DomEventIntegration.ForestFirstMatchIsFirstCollected | dom/src/dom_event_integration.rs:183-187 | Searching the children in turn returns the first match among them in preorder. |
| DomEventIntegration.ParentPathDecreasing | dom/src/dom_event_integration.rs:116-128 | Along a parent path of a well-formed tree the ids strictly decrease, so the target appears only at its head. |
| DomEventIntegration.BubbleSkipsOnlyTheTarget | dom/src/dom_event_integration.rs:99-110 | Passing over the target by identity in the bubble loop is the same as starting that loop at the target's parent. |
| DomEventIntegration.OnlyTargetWhenNotPropagating | dom/src/dom_event_integration.rs:84-110 | A non-bubbling event, or one already stopped, runs only the target's own listeners, in the target phase. |
| DomEventIntegration.NothingRunsWhenImmediatelyStopped | dom/src/dom_event_integration.rs:140-143 | An event whose immediate propagation is already stopped runs no listener in any phase. |
| DomEventIntegration.RegisteredCountsOne | dom/src/dom_event_integration.rs:58-62 | Registering a listener raises the total count by exactly one, whether or not the node had a registry. |
| DomEventIntegration.RegisteredOnEmpty | dom/src/dom_event_integration.rs:59 | Creating the node's empty registry first does not change the outcome of registering. |
| DomEventIntegration.ShrinkingOneNode | dom/src/dom_event_integration.rs:65-72 | A change confined to one node's registry that does not grow it does not grow the total count. |
| DomEventIntegration.DomEventManager.constructor | dom/src/dom_event_integration.rs:32-39 | No registries, an empty element cache and no document. |
| DomEventIntegration.DomEventManager.SetDocument | dom/src/dom_event_integration.rs:42-44 | The document is set. |
| DomEventIntegration.DomEventManager.GetStats | dom/src/dom_event_integration.rs:291-301 | The number of registries, the listener count summed over all registries, and the number of cached wrappers. |
| DomEventIntegration.DomEventManager.GetElement | dom/src/dom_event_integration.rs:47-55 | A cached wrapper is returned unchanged; otherwise a new wrapper is cached under the node's id. The cache grows by at most one. |
| DomEventIntegration.DomEventManager.AddEventListener | dom/src/dom_event_integration.rs:58-62 | The node's registry is created on demand. The listener is appended to its list for the type under a new id. No other registry changes. |
| DomEventIntegration.DomEventManager.AddTo | dom/src/dom_event_integration.rs:60 | The listener is appended to the node's existing registry; no other registry changes. |
| DomEventIntegration.DomEventManager.RegistryFor | dom/src/dom_event_integration.rs:59 | The node's registry, created empty when the node has none yet. |
| DomEventIntegration.DomEventManager.RemoveEventListener | dom/src/dom_event_integration.rs:65-72 | A node without a registry is left alone; otherwise the listener is removed through its registry and no other registry changes. |
| DomEventIntegration.DomEventManager.CalculateEventPath | dom/src/dom_event_integration.rs:116-128 | The path is the target, then each parent in turn, ending at a node without a parent. |
| DomEventIntegration.DomEventManager.ExecuteListeners | dom/src/dom_event_integration.rs:131-160 | The node's listeners of the event's phase run in order: the capture list, all of them, the bubble list, or none. The run stops once the immediate-stop flag is set. |
| DomEventIntegration.DomEventManager.CapturePhase | dom/src/dom_event_integration.rs:84-92 | The capture loop runs the path from its last node to its first, unless propagation is stopped. |
| DomEventIntegration.DomEventManager.BubblePhase | dom/src/dom_event_integration.rs:99-110 | The bubble loop runs the path in order, passing over the target, unless propagation is stopped. |
| DomEventIntegration.DomEventManager.PropagateAlong | dom/src/dom_event_integration.rs:83-112 | Along a computed path it runs capture, then the target phase, then bubbling, as `DispatchSteps` describes. It returns whether the default action was not prevented. |
| DomEventIntegration.DomEventManager.DispatchEvent | dom/src/dom_event_integration.rs:75-113 | Along the target's parent path, dispatch runs the listener steps that `DispatchSteps` describes. It returns whether the default action was not prevented. |
| DomEventIntegration.DomEventManager.FindNodeById | dom/src/dom_event_integration.rs:163-190 | The first element in preorder whose `id` attribute matches; None without a document. |
| DomEventIntegration.DomEventManager.FindNodesByClass | dom/src/dom_event_integration.rs:193-220 | The elements whose `class` attribute holds the name as a whitespace-separated word, in preorder; empty without a document. |
| DomEventIntegration.DomEventManager.FindNodesByTag | dom/src/dom_event_integration.rs:223-248 | The elements with that tag, in preorder; empty without a document. |
| DomEventIntegration.DomEventManager.SimulateOn | dom/src/dom_event_integration.rs:251-288 | The answer is true exactly when an element with that id exists. In that case a bubbling, cancelable event of the type is dispatched along the element's parent path; otherwise nothing runs. |
| DomEventIntegration.DomEventManager.SimulateClick | dom/src/dom_event_integration.rs:251-260 | A `click` is dispatched at the element with that id exactly when one exists, and the answer says whether it does. |
| DomEventIntegration.DomEventManager.SimulateKeydown | dom/src/dom_event_integration.rs:263-274 | A `keydown` is dispatched at the element with that id exactly when one exists, and the answer says whether it does. |
| DomEventIntegration.DomEventManager.SimulateInput | dom/src/dom_event_integration.rs:277-288 | An `input` is dispatched at the element with that id exactly when one exists, and the answer says whether it does. |
| CssTokenizer.ParseF32 | css_parser/src/lib.rs:218-219 | The number text parses exactly when it is an optional sign followed by a decimal. |
| CssTokenizer.ParseFloat | css_parser/src/lib.rs:1044 | The text is read exactly when it is an optional sign, a decimal and an optional exponent, the finite forms of `str::parse::<f32>`. |
| CssTokenizer.ParseFloatWithoutExponent | css_parser/src/lib.rs:1044 | Without an `e` or `E`, the text is read exactly as the number tokens' reader reads it. |
| CssTokenizer.ParseFloatHundred | css_parser/src/lib.rs:1044 | `1e2` is 100. |
| CssTokenizer.ParseFloatTenth | css_parser/src/lib.rs:1044 | `1E-1` is 0.1: the exponent letter may be upper case and the exponent negative. |
| CssTokenizer.ParseFloatSigned | css_parser/src/lib.rs:1044 | `-2.5e+3` is -2500. |
| CssTokenizer.ParseFloatIncomplete | css_parser/src/lib.rs:1044 | `1e` and `e2` are not numbers: an exponent needs digits, and so does the part before it. |
| CssTokenizer.ParseNatToString | css_parser/src/lib.rs:218-219 | Reading the digits of a natural number gives that number back. |
| CssTokenizer.SignOrPointAlone | css_parser/src/lib.rs:219-243 | A sign alone, a point alone or empty text is not a number, so `parse_number` falls back to 0. |
| CssTokenizer.RunEnd | css_parser/src/lib.rs:209-216 | A scanning loop stops at the first position whose character is outside the run, or at the end. |
| CssTokenizer.RunEndSkipsRun | css_parser/src/lib.rs:209-216 | Every character a scanning loop passes over belongs to the run. |
| CssTokenizer.RunEndAt | css_parser/src/lib.rs:209-216 | A run that ends at `e` is exactly what the scanning loop passes over. |
| CssTokenizer.CommentCloseIsFirst | css_parser/src/lib.rs:312-320 | No comment closer starts before the place where the comment loop stops. |
| CssTokenizer.StringAt | css_parser/src/lib.rs:176-195 | A string token always moves the cursor past the opening quote and stays inside the input. |
| CssTokenizer.NumberAt | css_parser/src/lib.rs:197-244 | A number token always moves the cursor forward and stays inside the input. |
| CssTokenizer.IdentAt | css_parser/src/lib.rs:246-303 | An identifier token never moves the cursor back or past the end. |
| CssTokenizer.CommentOrSlashAt | css_parser/src/lib.rs:305-331 | A comment or slash token always moves the cursor forward and stays inside the input. |
| CssTokenizer.TokenProgress | css_parser/src/lib.rs:133-162 | The token read at a character is never Eof, takes at least that character, and stays inside the input. |
| CssTokenizer.NextTokenEof | css_parser/src/lib.rs:126-131 | `next_token` returns Eof exactly when only whitespace is left, and then the cursor sits at the end. |
| CssTokenizer.NextTokenAdvances | css_parser/src/lib.rs:126-163 | Any token other than Eof moves the cursor forward, and the cursor never leaves the input, so a loop of `next_token` ends. |
| CssTokenizer.PunctuationStep | css_parser/src/lib.rs:136-153 | A punctuation character is read as its own token and moves the cursor by exactly one. |
| CssTokenizer.IdentifierRun | css_parser/src/lib.rs:246-302 | A plain identifier is exactly the maximal run of letters, digits, `_` and `-`, and it is never empty. |
| CssTokenizer.StringBetweenQuotes | css_parser/src/lib.rs:176-195 | A terminated string yields the text between the quotes, which holds no quote of its kind, and moves past the closing quote. An unterminated one yields the rest of the input and moves to its end. |
| CssTokenizer.CommentBetweenDelimiters | css_parser/src/lib.rs:305-331 | A terminated comment yields the text up to the first closer and moves past the closer. An unterminated one yields the rest of the input and moves to its end. A lone slash yields Whitespace and moves by one. |
| CssTokenizer.RuleTokensSelector | css_parser/src/lib.rs:1089-1094 | `div { color: red; }` starts with `Ident("div")` and `LeftBrace`. |
| CssTokenizer.RuleTokensProperty | css_parser/src/lib.rs:1095-1096 | Next come `Ident("color")` and `Colon`. |
| CssTokenizer.RuleTokensValue | css_parser/src/lib.rs:1097-1098 | Next come `Ident("red")` and `Semicolon`. |
| CssTokenizer.RuleTokensClose | css_parser/src/lib.rs:1099-1100 | It ends with `RightBrace`, then Eof, which stays Eof. |
| CssTokenizer.IdentExample | css_parser/src/lib.rs:246-302 | A run of letters that is not followed by `(` reads as one identifier. |
| CssTokenizer.CssTokenizer.constructor | css_parser/src/lib.rs:79-81 | The cursor starts at 0. |
| CssTokenizer.CssTokenizer.NextToken | css_parser/src/lib.rs:126-163 | The token and the new cursor are those `NextTokenAt` gives for the old cursor. |
| CssTokenizer.CssTokenizer.SkipWhitespace | css_parser/src/lib.rs:165-174 | The cursor moves to the first non-whitespace position. |
| CssTokenizer.CssTokenizer.ParseString | css_parser/src/lib.rs:176-195 | The loop yields the token and the cursor that `StringAt` gives. |
| CssTokenizer.CssTokenizer.SkipRun | css_parser/src/lib.rs:209-216 | The cursor moves to the end of the run. |
| CssTokenizer.CssTokenizer.ParseNumber | css_parser/src/lib.rs:197-244 | The loops yield the token and the cursor that `NumberAt` gives. |
| CssTokenizer.CssTokenizer.SkipTo | css_parser/src/lib.rs:268-274 | The cursor moves to the next occurrence of the character, or to the end. |
| CssTokenizer.CssTokenizer.ParseIdentifier | css_parser/src/lib.rs:246-303 | The loops yield the token and the cursor that `IdentAt` gives. |
| CssTokenizer.CssTokenizer.ParseCommentOrSlash | css_parser/src/lib.rs:305-331 | The loop yields the token and the cursor that `CommentOrSlashAt` gives. |
| CssSelectors.LessIsStrictTotalOrder | css_parser/src/lib.rs:382-388 | The derived order on (a, b, c, d) is irreflexive, transitive and total, and no two specificities are each below the other. |
| CssSelectors.Max | css_parser/src/lib.rs:415-420 | The larger of two specificities is at least both and is one of them. |
| CssSelectors.GroupIsMaximum | css_parser/src/lib.rs:415-420 | A group's specificity is at least that of every member and equals that of one member; an empty group has zero specificity. |
| CssSelectors.SpecificityCountsSimpleSelectors | css_parser/src/lib.rs:395-414 | For a selector without groups, each component of its specificity counts the simple selectors of that weight it is built from. |
| CssSelectors.IdFreeHasNoIdCount | css_parser/src/lib.rs:395-422 | A selector that contains no id selector has a zero id count. |
| CssSelectors.TypesOnlyHasNoClassCount | css_parser/src/lib.rs:395-422 | A selector built only of type, universal and pseudo-element selectors has zero id and class counts. |
| CssSelectors.IdOutranksIdFree | css_parser/src/lib.rs:382-422 | A single id outranks every selector without an id, however many classes and types it holds. |
| CssSelectors.ClassOutranksTypesOnly | css_parser/src/lib.rs:382-422 | A single class outranks every selector built only of types, universals and pseudo-elements. |
| CssSelectors.SpecificityExample | css_parser/src/lib.rs:1113-1121 | An id outranks a class and a class outranks a type. |
| CssSelectors.Ancestors | css_parser/src/lib.rs:878-886 | The ancestors of a node in a well-formed tree are nodes of the tree with smaller ids. |
| CssSelectors.AncestorsFormParentPath | css_parser/src/lib.rs:878-886 | A node followed by its ancestors is its parent path, ending at a node without a parent. |
| CssSelectors.AncestorMatchIffSomeAncestor | css_parser/src/lib.rs:878-886 | `has_matching_ancestor` holds exactly when some ancestor matches. |
| CssSelectors.DescendantMatches | css_parser/src/lib.rs:854-861 | A descendant selector matches exactly when the node matches the subject and some ancestor matches the ancestor part. |
| CssSelectors.ChildMatches | css_parser/src/lib.rs:862-873 | A child selector matches exactly when the node matches the subject and has a parent that matches the parent part. |
| CssSelectors.ChildImpliesDescendant | css_parser/src/lib.rs:854-873 | Whatever a child selector matches, the descendant selector with the same parts matches too. |
| CssSelectors.SimpleSelectorMatches | css_parser/src/lib.rs:831-853 | A class selector matches exactly when the element's `class` attribute holds the name as a whitespace-separated word. Type and id selectors never match a non-element. |
| CssSelectors.UnsupportedNeverMatch | css_parser/src/lib.rs:874 | Sibling, attribute, pseudo-class, pseudo-element and group selectors never match. |
| CssStylesheet.SkipTriviaAsWritten | css_parser/src/lib.rs:550-565 | As written, the skip stops at the first token that is not trivia and steps back one character, never leaving the input. |
| CssStylesheet.SkipTrivia | css_parser/src/lib.rs:550-565 | The corrected skip never moves the cursor back or past the end. |
| CssStylesheet.SkipTriviaPutsBack | css_parser/src/lib.rs:550-565 | After the corrected skip, the next token read is the first token that is neither a comment nor Whitespace. |
| CssStylesheet.StylesheetShape | css_parser/src/lib.rs:479-548 | `parse_stylesheet` yields at most one rule and no source URL. That rule has one type selector and the specificity of a type selector, and all its declarations are non-important keywords. |
| CssStylesheet.DeclarationsAreKeywords | css_parser/src/lib.rs:515-541 | Every declaration the loop of `parse_simple_rule` accepts has a keyword value and is not important. |
| CssStylesheet.ParsedSelectorIsFirstToken | css_parser/src/lib.rs:483-505 | With the token put back whole (the corrected parse), a rule has as its selector the first significant token, which is an identifier. As written, a rule has as its selector the identifier read from the last character of that token. |
| CssStylesheet.SkipTriviaAsWrittenStepsBack | css_parser/src/lib.rs:550-565 | The written skip stops one character before the end of the first significant token, or at the end of the input when only trivia remain. |
| CssStylesheet.SignificantEofAtEnd | css_parser/src/lib.rs:550-565 | When only trivia remain, the skip reaches the end of the input, so no rule is read. |
| CssStylesheet.ExampleDeclarations | css_parser/src/lib.rs:515-541 | The body of `div { color: red; }` reads as the one declaration `color: red`. |
| CssStylesheet.ExampleDeclarationsTail | css_parser/src/lib.rs:517-519 | After `red`, a semicolon and the closing brace end the body with nothing more. |
| CssStylesheet.AsWrittenKeepsLastLetter | css_parser/src/lib.rs:550-565 | As written, `div { color: red; }` is parsed with the selector `v`, since the cursor is put back only onto the last letter of `div`. |
| CssStylesheet.RuleFromLastLetter | css_parser/src/lib.rs:500-548 | Reading the rule from the last letter of `div` gives the selector `v` with the declaration `color: red`. |
| CssStylesheet.RuleFromTokens | css_parser/src/lib.rs:500-548 | An identifier, then `{`, then a declaration loop that succeeds, make a rule with that type selector and those declarations. |
| CssStylesheet.CorrectedKeepsSelector | css_parser/src/lib.rs:550-565 | With the corrected skip, `div { color: red; }` gives the one rule `div` with `color: red`. |
| CssStylesheet.CssParser.constructor | css_parser/src/lib.rs:473-477 | A new tokenizer over the input with its cursor at 0. |
| CssStylesheet.CssParser.ParseStylesheet | css_parser/src/lib.rs:479-498 | The method always succeeds with the stylesheet `StylesheetFrom` describes, read from where the written skip leaves the cursor: one character before the end of the first significant token. |
| CssStylesheet.CssParser.SkipWhitespaceAndComments | css_parser/src/lib.rs:550-565 | The loop moves the cursor to where `SkipTriviaAsWritten` says: past the trivia and the first significant token, then back by one character. |
| CssStylesheet.CssParser.ParseSimpleRule | css_parser/src/lib.rs:500-548 | The method returns the rule or the error that `SimpleRuleAt` gives for the old cursor. |
| CssStylesheet.CssParser.ReadDeclarations | css_parser/src/lib.rs:515-541 | The declaration loop returns what `DeclarationsFrom` gives for the old cursor. |
| CssStylesheet.SelectorOfTextRoundTrip | css_parser/src/lib.rs:1022-1028 | Any selector text becomes a class, id or type selector whose text is the original. |
| CssStylesheet.SelectorTextRoundTrip | css_parser/src/lib.rs:1022-1028 | Class and id selectors, and type selectors whose name does not start with `.` or `#`, come back from their text unchanged. |
| CssStylesheet.ValueClassification | css_parser/src/lib.rs:1042-1054 | A value is a colour exactly when it starts with `#`, the number 0 exactly when it is `0`, and a pixel dimension exactly when it ends in `px` after a finite number: an optional sign, a decimal, and an optional exponent (`e` or `E`, an optional sign, digits). Anything else is a keyword holding the text. |
| CssStylesheet.ValueOfExponent | css_parser/src/lib.rs:1044-1046 | `1e2px` is read as a length of 100 pixels. |
| CssStylesheet.ValueOfPixels | css_parser/src/lib.rs:1044-1046 | The text of a natural number followed by `px` is that many pixels. |
| CssStylesheet.DeclarationOfTextShape | css_parser/src/lib.rs:1033-1062 | A part gives a declaration exactly when it holds a colon. The property then holds no colon, and the declaration is not important. |
| CssStylesheet.DeclarationsOfPartsShape | css_parser/src/lib.rs:1031-1063 | No declaration is important or has a colon in its property, and there are none exactly when no part holds a colon. |
| CssStylesheet.Gather | css_parser/src/lib.rs:1014-1019 | The gathering of lines never moves backwards and stays within the lines. |
| CssStylesheet.GatherTakesThrough | css_parser/src/lib.rs:1014-1019 | The gathering appends the following lines up to and including the first one that holds `}`, or to the end. |
| CssStylesheet.RulesFromShape | css_parser/src/lib.rs:997-1075 | Every rule has one class, id or type selector, zero specificity and at least one declaration, and no declaration is important. |
| CssStylesheet.ParseCssShape | css_parser/src/lib.rs:992-1082 | `parse_css` has no source URL, and every rule has the shape `RulesFromShape` gives. |
| CssStylesheet.RulesFromOpening | css_parser/src/lib.rs:1006-1073 | A line holding `{` yields the rule of its selector and gathered body, and reading continues after the gathered lines. |
| CssStylesheet.OpeningLineSwallowsNext | css_parser/src/lib.rs:1014-1019 | An opening line always gathers at least the next line, even when it already holds `}`. |
| CssStylesheet.OneLineRuleSwallowsNext | css_parser/src/lib.rs:1006-1019 | The lines `a{x:y}` and `b{z:w}` give one rule, `a` with `x: y}b{z`, so the second rule is lost. |
| CssStylesheet.ReadCss | css_parser/src/lib.rs:992-1082 | The line loop returns `ParseCss(input)`. |
| CssStylesheet.ReadLine | css_parser/src/lib.rs:997-1074 | One turn of the line loop consumes at least one line, and the rules it finds followed by those of the rest are the rules from that line on. |
| CssStylesheet.GatherBody | css_parser/src/lib.rs:1014-1019 | The gathering loop returns what `Gather` gives. |
| CssStylesheet.ReadDeclarations | css_parser/src/lib.rs:1031-1063 | The declaration loop returns what `DeclarationsOfText` gives. |
| CssCascade.EffectWithinProperty | css_parser/src/lib.rs:888-971 | A declaration sets only its property's fields, all of them or none. `margin` and `padding` set all four sides to one length. |
| CssCascade.EffectValueKinds | css_parser/src/lib.rs:890-942 | Each property takes effect exactly for its accepted value kinds: a keyword for `display`, a colour for the two colours, a string for `font-family`, a length or keyword for `font-size`, and a length or percentage for `width` and `height`. |
| CssCascade.EffectsOf | css_parser/src/lib.rs:816-820 | One field update per declaration, in order. |
| CssCascade.LastUpdateWins | css_parser/src/lib.rs:816-820 | A field ends with the value of the last update that sets it. |
| CssCascade.UnsetFieldKept | css_parser/src/lib.rs:816-820 | A field that no update sets keeps its starting value, or stays unset. |
| CssCascade.LastDeclarationWins | css_parser/src/lib.rs:816-820 | Applying declarations in order leaves each field with the value of the last declaration that sets it. A field no declaration sets keeps its starting value. |
| CssCascade.OverwriteAppend | css_parser/src/lib.rs:816-820 | Applying two runs of updates in turn is applying their concatenation. |
| CssCascade.InheritOnlyFills | css_parser/src/lib.rs:973-988 | `apply_inheritance` keeps every set field. On a node with a parent it fills exactly the unset ones among color, font family and font size, with `black`, `Arial, sans-serif` and `16px`. A root is left alone. |
| CssCascade.ApplyAllSnoc | css_parser/src/lib.rs:816-820 | Applying one more declaration is one more `apply_declaration` on the result. |
| CssCascade.RuleEntriesMembership | css_parser/src/lib.rs:800-804 | A rule is collected for a node exactly when one of its selectors matches the node. |
| CssCascade.SheetEntriesMembership | css_parser/src/lib.rs:799-805 | From one style sheet, exactly the rules that apply to the node are collected. |
| CssCascade.MatchingEntriesMembership | css_parser/src/lib.rs:798-806 | Across the style sheets, exactly the rules of some sheet that apply to the node are collected. |
| CssCascade.InsertPermutes | css_parser/src/lib.rs:809-813 | Inserting a rule into the sorted list adds exactly that rule. |
| CssCascade.InsertSorted | css_parser/src/lib.rs:809-813 | Inserting into a list sorted by specificity keeps it sorted. |
| CssCascade.InsertStable | css_parser/src/lib.rs:809-813 | Insertion puts the new rule before the rules of equal specificity, so each specificity keeps its original order. |
| CssCascade.SortPermutes | css_parser/src/lib.rs:809-813 | The stable sort by specificity is a permutation of the collected rules. |
| CssCascade.SortSorts | css_parser/src/lib.rs:809-813 | The sort's result is in ascending specificity. |
| CssCascade.SortIsStable | css_parser/src/lib.rs:809-813 | Rules of equal specificity keep their collection order, that is style-sheet then rule order. |
| CssCascade.SortTwo | css_parser/src/lib.rs:809-813 | Two rules are swapped exactly when the second has strictly lower specificity. |
| CssCascade.DeclarationsOfAppend | css_parser/src/lib.rs:816-820 | The declarations of two runs of rules are those of the first, then those of the second. |
| CssCascade.HigherSpecificityWins | css_parser/src/lib.rs:809-820 | When two matching rules both set a field, the field ends as the one with higher specificity sets it. With equal specificity, the later rule decides. |
| CssCascade.SetFieldForgetsStart | css_parser/src/lib.rs:816-820 | Once some update sets a field, its final value does not depend on the starting styles. |
| CssCascade.LastSetterWins | css_parser/src/lib.rs:816-820 | If a later run of declarations sets a field, the earlier run has no influence on it. |
| CssCascade.DeclarationsOfSnoc | css_parser/src/lib.rs:816-820 | The declarations of one more rule come after those of the earlier ones. |
| CssCascade.SubtreeIds | css_parser/src/lib.rs:781-790 | The ids the walk visits include the start node and lie in the tree at or above its id. |
| CssCascade.ChildIds | css_parser/src/lib.rs:787-789 | The ids visited through the children lie in the tree above the parent's id. |
| CssCascade.SubtreeIdsAreExactlyDescendants | css_parser/src/lib.rs:781-790 | The walk visits exactly the node and the nodes it is an ancestor of. |
| CssCascade.FilledOne | css_parser/src/lib.rs:783-784 | Storing a node's styles fills that node. |
| CssCascade.FilledTwice | css_parser/src/lib.rs:781-790 | Filling two sets of nodes in turn fills their union. |
| CssCascade.FilledChild | css_parser/src/lib.rs:787-789 | Filling one more child's subtree extends what the walk has filled. |
| CssCascade.CssCascadeEngine.constructor | css_parser/src/lib.rs:741-746 | No style sheets and an empty URL cache. |
| CssCascade.CssCascadeEngine.AddStylesheet | css_parser/src/lib.rs:748-750 | The sheet is appended, and the total rule count grows by its number of rules. |
| CssCascade.CssCascadeEngine.AddStylesheetFromUrl | css_parser/src/lib.rs:752-765 | A cached URL adds nothing. Otherwise the sheet that `parse_stylesheet` gives as written, tagged with its URL, is cached and appended. The call always succeeds. |
| CssCascade.CssCascadeEngine.GetTotalRules | css_parser/src/lib.rs:768-770 | The sum of the rule counts of all style sheets. |
| CssCascade.CssCascadeEngine.CollectRule | css_parser/src/lib.rs:800-804 | The loop over a rule's selectors appends the rule once per matching selector. |
| CssCascade.CssCascadeEngine.CollectMatching | css_parser/src/lib.rs:796-806 | The nested loops collect what `MatchingRules` describes. |
| CssCascade.CssCascadeEngine.ComputeNodeStyles | css_parser/src/lib.rs:792-826 | The node's styles are what `NodeStyles` gives: the stable sort by specificity, the ordered application of the declarations, then inheritance. |
| CssCascade.CssCascadeEngine.ApplyStylesRecursive | css_parser/src/lib.rs:781-790 | The walk stores every node of the subtree under its id, each with its own styles, and leaves the other entries as they were. |
| CssCascade.CssCascadeEngine.ComputeStyles | css_parser/src/lib.rs:772-779 | The map holds exactly the nodes of the tree, each with `NodeStyles`. |
| LayoutStyles.BoxSidesConstructors | layout/src/lib.rs:228-255 | `BoxSides::new` sets all four sides to its value. `new_vertical_horizontal` gives opposite sides equal values, and the two agree exactly when both values are equal. |
| LayoutStyles.DimensionsExample | layout/src/lib.rs:369-390 | The box at (10, 20) of size 100 by 50 has its right edge at 110 and its bottom at 70. |
| LayoutStyles.DefaultDisplayTable | layout/src/lib.rs:429-441 | Text and the tags span, a, em, strong and code are inline. Every other element and the document are blocks. |
| LayoutStyles.AbsoluteUnitsAgainstStandard | layout/src/lib.rs:629-641 | Checked against the absolute units of CSS Values and Units Level 3: px, in and pc are exact, while pt, cm and mm are off by less than a quarter of a percent. |
| LayoutStyles.ConvertLengthIsLinear | layout/src/lib.rs:629-641 | Each unit converts by a fixed factor, and an unknown unit counts as pixels. |
| LayoutStyles.ParseBoxSides | layout/src/lib.rs:644-651 | A dimension sets all four sides to its converted length; any other value sets them all to zero. |
| LayoutStyles.DisplayDeclarations | layout/src/lib.rs:556-586 | The display changes only through `block`, `inline`, `inline-block` or `none`, and then takes exactly that value. `margin` always resets all four sides. |
| LayoutStyles.ApplyAllAppend | layout/src/lib.rs:549-553 | Applying two runs of declarations in turn is applying their concatenation. |
| LayoutStyles.LastDisplayWins | layout/src/lib.rs:549-567 | The display ends as the last recognised display declaration sets it. |
| LayoutStyles.UnrecognisedDisplayKept | layout/src/lib.rs:558-567 | Without a recognised display declaration, the display stays as it was. |
| LayoutStyles.ApplyAllKeepsTextPropertiesSet | layout/src/lib.rs:593-623 | No declaration unsets color, font size, font family, font weight or text alignment. |
| LayoutStyles.InheritanceChangesNothing | layout/src/lib.rs:654-675 | The defaults already set all five inherited properties, so `apply_inherited_styles` never changes a node's styles. |
| LayoutStyles.ApplyAllNeverFlexOrGrid | layout/src/lib.rs:556-567 | Declarations never produce a flex or grid display from one that is neither. |
| LayoutStyles.ComputedDisplayNeverFlexOrGrid | layout/src/lib.rs:410-426 | `compute_styles` only ever gives block, inline, inline-block or none, so the flex and grid layouts are never chosen from it. |
| LayoutStyles.ApplyRule | layout/src/lib.rs:549-553 | The loop applies the rule's declarations in order. |
| LayoutStyles.AppliedOnceMore | layout/src/lib.rs:414-420 | Applying one more matched rule extends the list of applied declarations by that rule's own. |
| LayoutStyles.ComputeStyles | layout/src/lib.rs:410-426 | The defaults, then each rule once per matching selector in style-sheet order, then the unset text properties from the parent's computed styles, as `StylesFor` describes. |
| LayoutEngine.BoxesNest | layout/src/lib.rs:1410-1436 | All four rectangles share the content's position. The margin box is the content plus the padding, border and margin of each side, and with non-negative sides each rectangle contains the previous one. |
| LayoutEngine.StackAsWritten | layout/src/lib.rs:895-912 | As written, only the children's vertical positions change, to the running sum of their four rectangle heights. |
| LayoutEngine.BareBoxesCoincide | layout/src/lib.rs:1410-1436 | For a box with no padding, border or margin, all four rectangles coincide, so the written advance is four times its height. |
| LayoutEngine.StackAsWrittenCountsFourTimes | layout/src/lib.rs:896-912 | As written, bare children are placed at four times the sum of the earlier children's heights. |
| LayoutEngine.StackAsWrittenLeavesGap | layout/src/lib.rs:906-909 | As written, after a bare child 10 high at the top, the next child starts at 40, leaving a gap of 30. |
| LayoutEngine.Stack | layout/src/lib.rs:895-912 | The corrected stacking keeps one box per child. |
| LayoutEngine.StackTiles | layout/src/lib.rs:895-912 | The first child starts at 0 and each next one starts one margin-box height below the previous one. Nothing but the vertical position changes. |
| LayoutEngine.BlockChildrenContains | layout/src/lib.rs:895-924 | The block's children are the children stacked as written: only each child's content position moves, to the running sum of the four heights of the children before it. Its height never shrinks and covers that sum. A block without children is at least 1.2 times its font size high. |
| LayoutEngine.LayoutBlockChildren | layout/src/lib.rs:895-924 | The stacking loop, advancing by the margin, border, padding and content heights as the source does, yields what `BlockChildren` describes. |
| LayoutEngine.FlexPlace | layout/src/lib.rs:970-1008 | After the first `k` items the loop has placed exactly `k` items. |
| LayoutEngine.Justify | layout/src/lib.rs:1010-1054 | Justification keeps one item per item. |
| LayoutEngine.FlexLine | layout/src/lib.rs:968-1055 | A flex line keeps one item per child. |
| LayoutEngine.AlignKeepsMain | layout/src/lib.rs:986-1003 | `align-items` never moves or resizes an item along the main axis. |
| LayoutEngine.FlexPlaceStable | layout/src/lib.rs:974-1008 | An item's placement is fixed once it is placed; later items do not change it. |
| LayoutEngine.FlexPlaceNoWrap | layout/src/lib.rs:970-1008 | Without wrapping, the running main position is the sum of the main sizes so far and the line never moves on the cross axis. |
| LayoutEngine.PlacedItem | layout/src/lib.rs:974-1008 | Placement keeps each item's main size and stretches its cross size under `stretch`. Without wrapping, an item starts at the sum of the main sizes before it. |
| LayoutEngine.PlacedMainSum | layout/src/lib.rs:1011-1013 | Placement does not change the total main size that justification divides. |
| LayoutEngine.FlexItem | layout/src/lib.rs:968-1055 | Without wrapping, each item keeps its main size and starts at the sum of the earlier sizes plus the justification offset for its index. The cross size is stretched under `stretch`. |
| LayoutEngine.FlexStartPacks | layout/src/lib.rs:1016-1018 | `flex-start` packs the items from 0 without gaps. |
| LayoutEngine.FlexEndsFlush | layout/src/lib.rs:1019-1040 | `flex-end`, and `space-between` with two or more items, end the last item exactly at the available size. `space-between` starts the first item at 0. |
| LayoutEngine.FlexCenterBalanced | layout/src/lib.rs:1025-1030 | `center` leaves equal space before the first item and after the last. |
| LayoutEngine.FarEdgeBounds | layout/src/lib.rs:957-959 | The far edge is at least 0, covers every item's far edge, and is either 0 or the far edge of some item. |
| LayoutEngine.FlexChildrenContains | layout/src/lib.rs:927-965 | The container keeps one box per child, never shrinks, and contains every laid-out child. |
| LayoutEngine.AlignItem | layout/src/lib.rs:986-1003 | The alignment step yields what `Align` gives. |
| LayoutEngine.PlaceItem | layout/src/lib.rs:975-1007 | One turn of the placement loop yields what `FlexStep` gives. |
| LayoutEngine.PlaceItems | layout/src/lib.rs:970-1008 | The placement loop yields what `FlexPlace` gives for all items. |
| LayoutEngine.JustifyItems | layout/src/lib.rs:1010-1054 | The justification loops yield what `Justify` gives. |
| LayoutEngine.LayoutFlexLine | layout/src/lib.rs:968-1146 | `layout_flex_row` and `layout_flex_column` yield what `FlexLine` gives on their axis. |
| LayoutEngine.FarEdgeOf | layout/src/lib.rs:958-959 | The fold yields the far edge over all items. |
| LayoutEngine.LayoutFlexChildren | layout/src/lib.rs:927-965 | The flex container becomes what `FlexChildren` describes. |
| LayoutEngine.SizesWith | layout/src/lib.rs:1210-1244 | One size per track. |
| LayoutEngine.TrackSizesAsWritten | layout/src/lib.rs:1203-1245 | As written, track sizing gives one size per track. |
| LayoutEngine.TrackSizes | layout/src/lib.rs:1203-1245 | Corrected track sizing gives one size per track. |
| LayoutEngine.TrackSizeTable | layout/src/lib.rs:1210-1233 | Fixed tracks keep their size. `auto`, `min-content` and `max-content` are 100, 50 and 200. Every track that is not fractional gets the same size as written and corrected. |
| LayoutEngine.FrTracksProportional | layout/src/lib.rs:1236-1245 | Fractional tracks get sizes proportional to their factors, both as written and in the corrected sizing. |
| LayoutEngine.SizesWithSum | layout/src/lib.rs:1207-1244 | The sizes add up to the fixed total plus the unit times the sum of the factors. |
| LayoutEngine.OnesFillAsWritten | layout/src/lib.rs:1236-1245 | When every fractional track is `1fr`, the tracks and gaps as written fill the available size exactly. |
| LayoutEngine.AsWrittenOverflows | layout/src/lib.rs:1236-1245 | As written, tracks `1fr 2fr` in 300 get 150 and 300, which add up to 450. |
| LayoutEngine.TracksFill | layout/src/lib.rs:1236-1245 | Corrected, with some fractional track and a factor sum of at least 1, the tracks and gaps fill the available size exactly. |
| LayoutEngine.CorrectedAgreesOnOnes | layout/src/lib.rs:1236-1245 | When every fractional track is `1fr`, the corrected sizing agrees with the written one. |
| LayoutEngine.BaseSizes | layout/src/lib.rs:1206-1233 | The first loop yields the placeholder sizes, the fixed total, the count of fractional tracks and the sum of their factors. |
| LayoutEngine.SizeTracks | layout/src/lib.rs:1206-1245 | Both loops yield what `TrackSizesAsWritten` gives: the leftover divided by the number of fr tracks, times each factor. |
| LayoutEngine.CalculateGridTracks | layout/src/lib.rs:1203-1290 | The columns and the rows are sized independently by `TrackSizesAsWritten`. |
| LayoutEngine.CellInGrid | layout/src/lib.rs:1171-1189 | Child `k` of a grid with enough cells sits at a row and column inside the grid. |
| LayoutEngine.GridPlace | layout/src/lib.rs:1171-1189 | Grid placement keeps one box per child. |
| LayoutEngine.TrackStartStep | layout/src/lib.rs:1178-1179 | Each track starts one size and one gap after the previous one. |
| LayoutEngine.TracksApart | layout/src/lib.rs:1178-1179 | With non-negative sizes and gap, a track ends before any later track starts. |
| LayoutEngine.TrackWithinExtent | layout/src/lib.rs:1178-1194 | Every track ends within the total of the sizes and the gaps between them. |
| LayoutEngine.CellOrder | layout/src/lib.rs:1172-1173 | Children are placed in row-major order. |
| LayoutEngine.GridCellsApart | layout/src/lib.rs:1171-1189 | With non-negative sizes and gap, two placed children never overlap. A later one in the same row starts right of the earlier one, and one in a later row starts below it. |
| LayoutEngine.GridChildrenContains | layout/src/lib.rs:1148-1200 | With the tracks sized as written, the grid keeps one box per child and never shrinks. With non-negative track sizes and gap, it contains every child that got a cell. |
| LayoutEngine.SumOf | layout/src/lib.rs:1178-1179 | The loop sums the first `k` sizes. |
| LayoutEngine.CellOfRowColumn | layout/src/lib.rs:1172-1186 | The child placed at a given row and column is the one at index row times columns plus column. |
| LayoutEngine.PlaceRow | layout/src/lib.rs:1173-1188 | One row of the placement loop places the children of that row as `GridPlace` says, and leaves the child index after them. |
| LayoutEngine.PlaceInGrid | layout/src/lib.rs:1171-1189 | The nested loops place the children as `GridPlace` says. |
| LayoutEngine.FillGrid | layout/src/lib.rs:1163-1199 | The grid container becomes what `GridWithTracks` describes. |
| LayoutEngine.LayoutGridChildren | layout/src/lib.rs:1148-1200 | The grid container becomes what `GridChildren` describes, with the tracks sized as written and one `1fr` track per axis by default. |
| LayoutEngine.LayoutChildrenOf | layout/src/lib.rs:880-892 | Flex and grid containers lay out their children their own way, and every other box stacks them as written. |
| LayoutEngine.ChildLayouts | layout/src/lib.rs:898-899 | One layout box per child, in document order. |
| LayoutEngine.LayoutOfShape | layout/src/lib.rs:837-877 | Every box belongs to its node and carries the node's computed styles. A `display: none` element has a zero box with no children. Any other element stacks one box per child as written, each the four heights of the previous ones further down, and keeps its styled or inherited width. It is at least as high as that stack, and its margin box starts at its content's position. |
| LayoutEngine.LayoutDocument | layout/src/lib.rs:828-834 | The root is laid out in the 800 by 600 viewport: its box is the root's, and a displayed root without a styled width is 800 wide with its children stacked as written. |
| LayoutEngine.LayoutElement | layout/src/lib.rs:837-877 | The recursive layout yields what `LayoutOf` gives. |
| HtmlTokenizer.TagNameEnd | html_parser/src/lib.rs:313-324 | The name loop stops at or after its start, and within the input when it starts there. It stops either at the end or on whitespace, `>` or `/`. |
| HtmlTokenizer.TagNameEndSkipsNameChars | html_parser/src/lib.rs:313-324 | No character the name loop steps over is whitespace, `>` or `/`. |
| HtmlTokenizer.AttributeNameEnd | html_parser/src/lib.rs:352-358 | The attribute-name loop stops either at the end or on whitespace, `=`, `>` or `/`. |
| HtmlTokenizer.CommentEnd | html_parser/src/lib.rs:260-268 | The comment loop stops either on a `-->` or where fewer than three characters remain. |
| HtmlTokenizer.CommentEndIsFirst | html_parser/src/lib.rs:260-268 | No `-->` starts before the place where the comment loop stops. |
| HtmlTokenizer.TagNameAt | html_parser/src/lib.rs:310-345 | Reading a tag name never moves the cursor back or past the end. |
| HtmlTokenizer.TagNameShape | html_parser/src/lib.rs:326-344 | A tag name that is read is trimmed, lowercased and non-empty, and reading it consumes characters. The empty-name error also moves the cursor forward unless the input has ended. |
| HtmlTokenizer.QuotedAt | html_parser/src/lib.rs:382-406 | Reading a quoted string never moves the cursor back or past the end. |
| HtmlTokenizer.AttributeAt | html_parser/src/lib.rs:348-379 | Reading an attribute never moves the cursor back or past the end. An attribute that is read consumes characters. |
| HtmlTokenizer.AttributeValueAt | html_parser/src/lib.rs:367-376 | Reading the value never moves the cursor back or past the end. |
| HtmlTokenizer.AttributeWithoutValue | html_parser/src/lib.rs:364-376 | An attribute without a following `=` is its trimmed, lowercased name with the empty value. |
| HtmlTokenizer.AttributesFrom | html_parser/src/lib.rs:140-157 | The attribute loop never moves the cursor back or past the end. |
| HtmlTokenizer.AttributesEndAtClose | html_parser/src/lib.rs:140-157 | A tag reported self-closing ended just after a `/>`. Any other tag that was read ended just after a `>` or at the end of the input. |
| HtmlTokenizer.AttributesKept | html_parser/src/lib.rs:153-154 | An attribute already read stays in the map. A later one with the same name only replaces its value. |
| HtmlTokenizer.StartTagAt | html_parser/src/lib.rs:132-164 | A start tag moves the cursor forward and never past the end, and what it reads is a start tag. |
| HtmlTokenizer.EndTagAt | html_parser/src/lib.rs:167-181 | An end tag moves the cursor forward and never past the end, and what it reads is an end tag. |
| HtmlTokenizer.CommentFrom | html_parser/src/lib.rs:254-275 | A comment always yields a comment token and moves the cursor forward. The cursor ends at most two past the end of the input. |
| HtmlTokenizer.CommentText | html_parser/src/lib.rs:254-275 | A comment's text is everything between `<!--` and the first `-->` after it, and the cursor ends just after that `-->`. |
| HtmlTokenizer.ProcessingInstructionAt | html_parser/src/lib.rs:278-289 | A processing instruction moves the cursor forward and never past the end. |
| HtmlTokenizer.DoctypeFrom | html_parser/src/lib.rs:201-251 | A doctype moves the cursor forward and never past the end. What it reads is a doctype that never forces quirks mode. |
| HtmlTokenizer.DoctypeNameAt | html_parser/src/lib.rs:205-209 | Reading the doctype name never moves the cursor back or past the end. |
| HtmlTokenizer.PublicIdAt | html_parser/src/lib.rs:214-226 | Reading the public identifier never moves the cursor back or past the end. |
| HtmlTokenizer.SystemIdAt | html_parser/src/lib.rs:231-235 | Reading the system identifier never moves the cursor back or past the end. |
| HtmlTokenizer.MarkupAt | html_parser/src/lib.rs:184-198 | A markup declaration moves the cursor forward, at most two past the end, and never past the end when it fails. |
| HtmlTokenizer.TextAt | html_parser/src/lib.rs:292-307 | Reading text never moves the cursor back or past the end. |
| HtmlTokenizer.NextTokenSkipsWhitespace | html_parser/src/lib.rs:104-129 | The next token is the token read after the leading whitespace. |
| HtmlTokenizer.NextTokenProgress | html_parser/src/lib.rs:104-129 | `Eof` comes exactly when only whitespace is left. Any other outcome, token or error, moves the cursor forward, at most two past the end, and an error leaves it within the input. |
| HtmlTokenizer.TextRunsToAngle | html_parser/src/lib.rs:292-307 | Text that does not start with whitespace or `<` is one text token up to the next `<`, with references decoded, and the cursor stops on that `<`. |
| HtmlTokenizer.EmptyTagNameRecovery | html_parser/src/lib.rs:326-335 | On `<>a` the tokenizer reports the recovered empty-name error and leaves the cursor just after the `>`. |
| HtmlTokenizer.ReferenceEnd | html_parser/src/lib.rs:422-431 | The reference-name loop stops either at the end or on a character that is neither alphanumeric nor `#`. |
| HtmlTokenizer.ParseU32 | html_parser/src/lib.rs:464 | A number that is parsed fits in 32 bits. |
| HtmlTokenizer.NamedReferences | html_parser/src/lib.rs:449-457 | The six named references decode to the characters they name. |
| HtmlTokenizer.DecimalLessThan | html_parser/src/lib.rs:459-468 | `#60` decodes to `<`. |
| HtmlTokenizer.UnknownReference | html_parser/src/lib.rs:458-471 | An unknown name that does not start with `#` is written back as `&name;`. |
| HtmlTokenizer.DecimalReference | html_parser/src/lib.rs:459-468 | A decimal reference whose code is a Unicode scalar value decodes to the one character with that code. |
| HtmlTokenizer.ReferenceNext | html_parser/src/lib.rs:422-431 | Decoding resumes after the reference name, and after the `;` that ends it. |
| HtmlTokenizer.DecodedIdentity | html_parser/src/lib.rs:416-446 | Text without `&` is left unchanged. |
| HtmlTokenizer.LoneAmpersand | html_parser/src/lib.rs:433-438 | A `&` followed by neither a name character nor `;` is copied unchanged. |
| HtmlTokenizer.UnterminatedReferenceGainsSemicolon | html_parser/src/lib.rs:416-471 | `AT&T` decodes to `AT&T;`: the unknown reference is written back with a `;` it did not have. |
| HtmlTokenizer.DecodedExample | html_parser/src/lib.rs:416-446 | `a&amp;b` decodes to `a&b`. |
| HtmlTokenizer.Tokenizer.constructor | html_parser/src/lib.rs:81-99 | A new tokenizer holds the decoded characters with the cursor at the start. |
| HtmlTokenizer.Tokenizer.NextToken | html_parser/src/lib.rs:104-129 | The token and the new cursor are what `NextTokenAt` gives. |
| HtmlTokenizer.Tokenizer.ParseStartTag | html_parser/src/lib.rs:132-164 | The token and the new cursor are what `StartTagAt` gives. |
| HtmlTokenizer.Tokenizer.ParseEndTag | html_parser/src/lib.rs:167-181 | The token and the new cursor are what `EndTagAt` gives. |
| HtmlTokenizer.Tokenizer.SkipTo | html_parser/src/lib.rs:173-178 | The cursor moves to the next occurrence of the character and then past it, or to the end when there is none. |
| HtmlTokenizer.Tokenizer.ParseMarkupDeclaration | html_parser/src/lib.rs:184-198 | The token and the new cursor are what `MarkupAt` gives. |
| HtmlTokenizer.Tokenizer.ParseDoctype | html_parser/src/lib.rs:201-251 | The token and the new cursor are what `DoctypeFrom` gives. |
| HtmlTokenizer.Tokenizer.ReadDoctypeName | html_parser/src/lib.rs:205-209 | The name and the new cursor are what `DoctypeNameAt` gives. |
| HtmlTokenizer.Tokenizer.ReadPublicId | html_parser/src/lib.rs:214-226 | The identifier and the new cursor are what `PublicIdAt` gives. |
| HtmlTokenizer.Tokenizer.ParseComment | html_parser/src/lib.rs:254-275 | The token and the new cursor are what `CommentFrom` gives. |
| HtmlTokenizer.Tokenizer.ParseProcessingInstruction | html_parser/src/lib.rs:278-289 | The token and the new cursor are what `ProcessingInstructionAt` gives. |
| HtmlTokenizer.Tokenizer.ParseText | html_parser/src/lib.rs:292-307 | The token and the new cursor are what `TextAt` gives. |
| HtmlTokenizer.Tokenizer.ParseTagName | html_parser/src/lib.rs:310-345 | The name and the new cursor are what `TagNameAt` gives. |
| HtmlTokenizer.Tokenizer.ParseAttribute | html_parser/src/lib.rs:348-379 | The attribute and the new cursor are what `AttributeAt` gives. |
| HtmlTokenizer.Tokenizer.ReadAttributeValue | html_parser/src/lib.rs:367-376 | The value and the new cursor are what `AttributeValueAt` gives. |
| HtmlTokenizer.Tokenizer.ParseQuotedString | html_parser/src/lib.rs:382-406 | The string and the new cursor are what `QuotedAt` gives. |
| HtmlTokenizer.Tokenizer.SkipWhitespace | html_parser/src/lib.rs:409-413 | The cursor moves past the whitespace, as `SkipWs` says. |
| HtmlTokenizer.Tokenizer.DecodeHtmlEntities | html_parser/src/lib.rs:416-446 | The result is what `Decoded` gives. |
| HtmlTokenizer.Tokenizer.ReadReference | html_parser/src/lib.rs:422-431 | The name read after the `&` and the index after it are what `ReferenceEnd` and `ReferenceNext` give. |
| HtmlParsing.ResourcesOf | html_parser/src/lib.rs:632-667 | A tag names at most one resource. It is a stylesheet only for a `link` with an `href` and takes its URL from it. Otherwise it is a script or an image for a `script` or `img` with a `src` and takes its URL from that. The tag's attributes are kept, and other tags name none. |
| HtmlParsing.ResourcesNamed | html_parser/src/lib.rs:634-664 | A `link` names a resource exactly when it has `rel="stylesheet"` and an `href`. A `script` or `img` names one exactly when it has a `src`. |
| HtmlParsing.Initial | html_parser/src/lib.rs:499-510 | The starting state has a Document root and a stack holding only the root, and it is good. |
| HtmlParsing.TopmostOpen | html_parser/src/lib.rs:599-607 | The search from the top finds an element with that name, and no element above it has that name. |
| HtmlParsing.InsertLeafWellFormed | html_parser/src/lib.rs:575-581 | Adding a new parentless node under the next id keeps the tree well formed. |
| HtmlParsing.NewLeafWellFormed | html_parser/src/lib.rs:575-586 | Appending a new node to the top of the stack keeps the tree well formed. |
| HtmlParsing.NewLeafKeepsStack | html_parser/src/lib.rs:575-586 | Appending a new node adds exactly its id, makes it a child of the top element, and keeps the root and the stack valid. |
| HtmlParsing.PushKeepsStack | html_parser/src/lib.rs:588-591 | Pushing an element that is not void and is a child of the top keeps the stack valid. |
| HtmlParsing.StartTagStepGood | html_parser/src/lib.rs:570-594 | A start tag keeps the state good. |
| HtmlParsing.TextStepGood | html_parser/src/lib.rs:613-623 | Text keeps the state good. |
| HtmlParsing.EndTagStepGood | html_parser/src/lib.rs:597-610 | An end tag keeps the state good. |
| HtmlParsing.TokenStepGood | html_parser/src/lib.rs:517-563 | Every token keeps the state good. |
| HtmlParsing.BuildGood | html_parser/src/lib.rs:517-564 | Any sequence of tokens, handled from a good state, ends in a good state. |
| HtmlParsing.TokenStepResources | html_parser/src/lib.rs:632-667 | A token adds the resources its start tag names, at the end, and other tokens add none. |
| HtmlParsing.BuildResources | html_parser/src/lib.rs:517-566 | The resources are collected in document order, one for each start tag that names one. |
| HtmlParsing.StylesheetThenScript | html_parser/src/lib.rs:695-703 | A stylesheet `link` followed by a `script` with a `src` gives a stylesheet and then a script, with their URLs. |
| HtmlParsing.EndTagCloses | html_parser/src/lib.rs:597-610 | An end tag leaves the nodes alone and keeps a non-empty prefix of the stack. When it shortens the stack, the first removed element has that name and none above it does. |
| HtmlParsing.ScansStep | html_parser/src/lib.rs:517-563 | The token scans from a position are the first scan followed by the scans from where it stops, one past it after an error. Only `Eof` ends them, and every other scan moves forward. |
| HtmlParsing.ResumeStep | html_parser/src/lib.rs:517-563 | One pass of the loop: `Eof` ends it with the state built, an error is counted and skips one character, and a token is handled. |
| HtmlParsing.BuildCons | html_parser/src/lib.rs:517-564 | Handling a token followed by more tokens is one step and then the rest. |
| HtmlParsing.OutcomeFails | html_parser/src/lib.rs:555-559 | The loop aborts exactly when the errors so far and those still to come add up to more than 100. |
| HtmlParsing.OutcomeBuilds | html_parser/src/lib.rs:517-566 | When the loop does not abort, it has handled every token, in order. |
| HtmlParsing.HtmlParser.constructor | html_parser/src/lib.rs:499-510 | A new parser has a tokenizer at the start of the input, a new document, only the root open and no resources. |
| HtmlParsing.HtmlParser.Parse | html_parser/src/lib.rs:513-567 | `parse` fails exactly when the tokenizer reports more than 100 errors. Otherwise it returns the document and resources built from every token, in order. |
| HtmlParsing.HtmlParser.ParseStep | html_parser/src/lib.rs:518-563 | One pass of the loop keeps the parser valid and either ends with the outcome or moves the cursor forward towards it. |
| HtmlParsing.HtmlParser.ReadToken | html_parser/src/lib.rs:555-561 | The `next_token` call of the loop, and where the loop resumes after it. |
| HtmlParsing.HtmlParser.HandleToken | html_parser/src/lib.rs:519-553 | The new state is what `TokenStep` gives. |
| HtmlParsing.HtmlParser.HandleStartTag | html_parser/src/lib.rs:570-594 | The new state is what `StartTagStep` gives. |
| HtmlParsing.HtmlParser.HandleEndTag | html_parser/src/lib.rs:597-610 | The new state is what `EndTagStep` gives. |
| HtmlParsing.HtmlParser.HandleText | html_parser/src/lib.rs:613-623 | The new state is what `TextStep` gives. |
| HtmlParsing.HtmlParser.AppendToTop | html_parser/src/lib.rs:575-586 | The new node takes the next id and is appended to the top element. |
| HtmlParsing.HtmlParser.CheckExternalResources | html_parser/src/lib.rs:632-667 | The resources gain what `ResourcesOf` names. |
| Renderer.DistinctInPair | renderer/src/lib.rs:122-123 | An enumeration without repeats that draws only from two keys has at most two entries. |
| Renderer.Words | renderer/src/lib.rs:122-131 | One word per attribute, in the order given: the bare name when the value is empty, otherwise `name="value"`. |
| Renderer.EveryAttributePrinted | renderer/src/lib.rs:119-133 | Every attribute of the element appears as its word. |
| Renderer.OnlyAttributesPrinted | renderer/src/lib.rs:119-133 | Every printed word comes from an attribute of the element. |
| Renderer.AttributeTextLists | renderer/src/lib.rs:119-133 | The attribute text is empty exactly when the element has no attributes. Otherwise it is a space followed by the words joined by spaces. |
| Renderer.TwoEntries | renderer/src/lib.rs:122-123 | A map of two entries is enumerated in one of its two orders. |
| Renderer.TwoAttributes | renderer/src/lib.rs:119-133 | Two attributes come out as both words, in whichever order the map yields them. |
| Renderer.TextOf | renderer/src/lib.rs:146-153 | A node contributes at most one text, and contributes one exactly when it is a text node whose trimmed text is not empty. |
| Renderer.SerializeAppend | renderer/src/lib.rs:82-86 | Writing two runs of lines writes the first and then the second. |
| Renderer.NodeLinesNested | renderer/src/lib.rs:89-153 | A node's lines, at the depth of the tags open around them, close every tag they open, each at the depth where it was opened. |
| Renderer.ForestLinesNested | renderer/src/lib.rs:89-153 | The same holds for a run of sibling nodes. |
| Renderer.TextDumpNested | renderer/src/lib.rs:116-153 | The dump is properly nested. Every line is indented by the number of tags open around it, every close tag closes the innermost open one, and every tag opened is closed. |
| Renderer.QuotedTextsAppend | renderer/src/lib.rs:146-153 | The quoted lines of two runs of lines are those of the first and then those of the second. |
| Renderer.KeptAppend | renderer/src/lib.rs:148-149 | The kept texts of two node lists are those of the first and then those of the second. |
| Renderer.ForestPreorderSnoc | renderer/src/lib.rs:138-140 | The preorder of a node list is the preorder of all but its last node followed by the preorder of the last node. |
| Renderer.NodeLinesQuote | renderer/src/lib.rs:89-153 | The quoted lines of a node's dump are the non-empty trimmed texts of its text nodes, in preorder. |
| Renderer.ForestLinesQuote | renderer/src/lib.rs:89-153 | The same holds for a run of sibling nodes. |
| Renderer.TextDumpQuotes | renderer/src/lib.rs:116-153 | The quoted lines of the dump are exactly the non-empty trimmed texts of the document's text nodes, in preorder. Empty texts are left out and nothing else is quoted. |
| Renderer.TextRenderer.constructor | renderer/src/lib.rs:59-64 | A new text renderer has empty output and indents two spaces per level. |
| Renderer.TextRenderer.WithIndent | renderer/src/lib.rs:67-72 | A renderer made with a custom indent has empty output and that indent. |
| Renderer.TextRenderer.AddIndent | renderer/src/lib.rs:75-79 | The output gains one copy of the indent per level. |
| Renderer.TextRenderer.AddLine | renderer/src/lib.rs:82-86 | The output gains the indent, the content and a newline. |
| Renderer.TextRenderer.StartDocument | renderer/src/lib.rs:108-110 | The output gains the `Document:` header line. |
| Renderer.TextRenderer.EndDocument | renderer/src/lib.rs:112-114 | The output is unchanged. |
| Renderer.TextRenderer.RenderElement | renderer/src/lib.rs:116-144 | An element adds its open tag, its children one level deeper and its close tag, as `NodeLines` lists them. Any other node adds nothing. |
| Renderer.TextRenderer.RenderText | renderer/src/lib.rs:146-153 | A text node adds its trimmed text in quotes unless the text is empty. Any other node adds nothing. |
| Renderer.TextRenderer.RenderNode | renderer/src/lib.rs:89-104 | A node adds the lines that `NodeLines` lists, and a document node adds those of its children at the same depth. |
| Renderer.TextRenderer.RenderChildren | renderer/src/lib.rs:99-101 | A run of nodes adds each node's lines in turn at the same depth. |
| Renderer.TextRenderer.RenderDocument | renderer/src/lib.rs:265-275 | The output gains the header and the lines of the root's children at depth 0, and that output is returned. |
| Renderer.RenderAsText | renderer/src/lib.rs:313-316 | The result is the text dump of the whole document with a two-space indent. |
| Renderer.ExtendAppend | renderer/src/lib.rs:226-229 | Adding two runs of texts adds the first and then the second. |
| Renderer.JoinSnoc | renderer/src/lib.rs:226-229 | Joining texts and then one more is the join, the separator and that text. |
| Renderer.ExtendIsJoin | renderer/src/lib.rs:222-232 | Adding non-empty texts one by one to an empty output joins them with single spaces. The output stays empty only when there are none. |
| Renderer.ElementTextsKept | renderer/src/lib.rs:192-220 | Below an element without inner document nodes, the extraction collects the non-empty trimmed texts of its text nodes in preorder. |
| Renderer.ChildrenTextsKept | renderer/src/lib.rs:194-218 | The same holds for the children of an element. |
| Renderer.ChildTextsKept | renderer/src/lib.rs:195-217 | The same holds for one child of an element. |
| Renderer.NodeTextsKept | renderer/src/lib.rs:281-296 | The same holds for any node without document nodes below it. |
| Renderer.ForestTextsKept | renderer/src/lib.rs:269-287 | The same holds for a run of sibling nodes. |
| Renderer.KeptNonEmpty | renderer/src/lib.rs:148-149 | Every kept text is non-empty. |
| Renderer.TextContentJoinsQuotes | renderer/src/lib.rs:192-232 | Without inner document nodes, the extracted text joins with single spaces exactly the texts the dump quotes. It is empty only when there is no such text. |
| Renderer.NestedDocumentSkipped | renderer/src/lib.rs:202-216 | A document node inside a document node inside an element is skipped, so its texts never reach the extracted text, while the dump keeps them. |
| Renderer.TextContentRenderer.constructor | renderer/src/lib.rs:176-180 | A new text content renderer has empty output. |
| Renderer.TextContentRenderer.StartDocument | renderer/src/lib.rs:184-186 | The output is unchanged. |
| Renderer.TextContentRenderer.EndDocument | renderer/src/lib.rs:188-190 | The output is unchanged. |
| Renderer.TextContentRenderer.RenderText | renderer/src/lib.rs:222-232 | The output gains the trimmed text, after a space unless the output was empty. An empty text or another kind of node adds nothing. |
| Renderer.TextContentRenderer.RenderElement | renderer/src/lib.rs:192-220 | The output gains the texts that `ElementTexts` collects. |
| Renderer.TextContentRenderer.RenderGrandchildren | renderer/src/lib.rs:204-216 | The output gains the texts of a document child's children, skipping deeper document nodes. |
| Renderer.TextContentRenderer.RenderNode | renderer/src/lib.rs:281-296 | The output gains the texts that `NodeTexts` collects. |
| Renderer.TextContentRenderer.RenderChildren | renderer/src/lib.rs:269-287 | The output gains the texts of each node in turn. |
| Renderer.TextContentRenderer.RenderDocument | renderer/src/lib.rs:265-275 | The output gains the texts of the root's children, and that output is returned. |
| Renderer.ExtractTextContent | renderer/src/lib.rs:322-325 | The result is the extracted text of the whole document. |
| LayoutRendering.StyleInfoShape | renderer/src/lib.rs:433-462 | The style list always starts with the display and holds it only there. It never holds the font family or weight. |
| LayoutRendering.StyleInfoValues | renderer/src/lib.rs:445-453 | The style list holds each of width, height and color exactly when that style is set, with its value. |
| LayoutRendering.StyleInfoColors | renderer/src/lib.rs:454-459 | The style list holds the background and the font size exactly when they are set, with their values. |
| LayoutRendering.TextStyleInfoShape | renderer/src/lib.rs:465-482 | The text style list holds no display, width, height or background. It is empty exactly when none of color, font size, font family and font weight is set. |
| LayoutRendering.TextStyleInfoValues | renderer/src/lib.rs:468-473 | The text style list holds the color and the font size exactly when they are set, with their values. |
| LayoutRendering.TextStyleInfoFonts | renderer/src/lib.rs:474-479 | The text style list holds the font family and the font weight exactly when they are set, with their values. |
| LayoutRendering.DimensionsInfoContents | renderer/src/lib.rs:485-512 | The layout list starts with the content rectangle's x, y, width and height. It shows the styled margin exactly when some margin side is positive, and the styled padding exactly when some padding side is. |
| LayoutRendering.Shown | renderer/src/lib.rs:369-372 | The boxes kept are boxes of the list. |
| LayoutRendering.HiddenBoxesOmitted | renderer/src/lib.rs:369-408 | A `display: none` box contributes nothing, whatever lies below it, so a list of boxes renders exactly as its displayed boxes do. |
| LayoutRendering.BoxScanAppend | renderer/src/lib.rs:361-365 | Checking the nesting of two runs of lines checks the first and then continues with the second. |
| LayoutRendering.DetailsNested | renderer/src/lib.rs:398-403 | The style and layout lines open and close no tag and sit one level below the element. |
| LayoutRendering.BoxLinesNested | renderer/src/lib.rs:368-430 | A box's lines, at the depth of the tags open around them, close every tag they open. |
| LayoutRendering.ChildBoxLinesNested | renderer/src/lib.rs:406-427 | The same holds for a run of child boxes. |
| LayoutRendering.LayoutDumpNested | renderer/src/lib.rs:368-430 | The layout dump is properly nested. Every line is indented by the number of tags open around it, every close tag closes the innermost open one, and every tag opened is closed. |
| LayoutRendering.ElementLines | renderer/src/lib.rs:374-422 | A displayed element's dump opens with its tag and attributes. One level deeper follow its style line and its layout line, and it ends with its close tag. A text box renders nothing exactly when its trimmed text is empty. |
| LayoutRendering.LayoutRenderer.constructor | renderer/src/lib.rs:338-343 | A new layout renderer has no output. |
| LayoutRendering.LayoutRenderer.AddLine | renderer/src/lib.rs:361-365 | The output gains one line at the given depth. |
| LayoutRendering.LayoutRenderer.FormatStyleInfo | renderer/src/lib.rs:433-462 | The entries are those of `StyleInfo`, with the display first. |
| LayoutRendering.LayoutRenderer.FormatTextStyleInfo | renderer/src/lib.rs:465-482 | The entries are those of `TextStyleInfo`. They are empty exactly when none of the four text styles is set. |
| LayoutRendering.LayoutRenderer.FormatDimensionsInfo | renderer/src/lib.rs:485-512 | The entries are those of `DimensionsInfo`, starting with x and ending the rectangle with h. |
| LayoutRendering.LayoutRenderer.RenderDetails | renderer/src/lib.rs:394-403 | The output gains the style and layout lines of an element, one level below it. |
| LayoutRendering.LayoutRenderer.RenderLayoutBox | renderer/src/lib.rs:368-430 | The output gains the lines that `BoxLines` lists for the box. |
| LayoutRendering.LayoutRenderer.RenderElementBox | renderer/src/lib.rs:375-411 | The element branch adds the lines that `BoxLines` lists for the box. |
| LayoutRendering.LayoutRenderer.RenderChildBoxes | renderer/src/lib.rs:406-427 | The output gains the lines of each child box in turn, at the same depth. |
| LayoutRendering.LayoutRenderer.GetOutput | renderer/src/lib.rs:515-517 | The output so far. |
| LayoutRendering.RenderLayoutTree | renderer/src/lib.rs:530-534 | The result is the lines that `BoxLines` lists for the tree at depth 0. |
| Networking.MethodFromStrAccepts | networking/src/lib.rs:81-92 | Parsing accepts exactly the strings whose upper-case form is a method name, and then gives that method. Anything else is a parse error that quotes the input. |
| Networking.UpperOfLower | networking/src/lib.rs:82 | Upper-casing a lower-cased string is upper-casing the string. |
| Networking.MethodNameRoundTrip | networking/src/lib.rs:81-92 | Every method's name parses back to that method, in upper or in lower case, and a string parses exactly when its lower-case form does. |
| Networking.FromCodeRoundTrip | networking/src/lib.rs:118-138 | `from_code` keeps the code, and it gives back every status it can produce from that status's code. |
| Networking.StatusClasses | networking/src/lib.rs:118-172 | For a status made from a code, success, client error and server error hold exactly for the 2xx, 4xx and 5xx codes. |
| Networking.RedirectClass | networking/src/lib.rs:118-154 | For a status made from a code, redirect holds exactly for a 3xx code other than 304, and Not Modified is not a redirect. |
| Networking.AtMostOneClass | networking/src/lib.rs:140-172 | No status, made from a code or not, is in two of the four classes. |
| Networking.NewRequest | networking/src/lib.rs:431-442 | A new request has the method and URL given, no headers, no body, a 30-second timeout, redirects followed up to 5 times and no credentials. |
| Networking.SetHeader | networking/src/lib.rs:461-463 | The header is set to the value and every other header is kept. Nothing else in the request changes. |
| Networking.GetHeaderIgnoresCase | networking/src/lib.rs:499-501 | Header lookup ignores the case of the queried name, and finds a value exactly when the lower-cased name is stored. |
| Networking.ParseUsizeOfNatToString | networking/src/lib.rs:507-510 | The decimal form of a `usize` parses back to that number. |
| Networking.FetchOkIsSuccessCode | networking/src/lib.rs:759-761 | A response whose status was made from its code is ok exactly for a 2xx code. |
| Networking.AsciiText | networking/src/lib.rs:595 | Lossy decoding of ASCII bytes gives one character per byte, with the same code. |
| Networking.OpenOnlyFromUnsent | networking/src/lib.rs:540-550 | `open` succeeds exactly from Unsent with a known method, and a request that is not Unsent fails with "Request already opened". A failed call changes nothing. A successful one installs a new request for that method and URL, enters Opened and signals the change. |
| Networking.SetHeaderOnlyWhenOpened | networking/src/lib.rs:552-559 | A header can be set exactly when the request is opened. It is then recorded, and the method and URL stay. A failed call changes nothing. |
| Networking.SendCompletes | networking/src/lib.rs:561-603 | `send` succeeds exactly on an opened request, and a failed call changes nothing. A successful send ends in Done with status 200 and "OK". The response is a success whose text is the body's text, not empty. Its content length equals the body's length and its content type is `text/plain`. The change events come in order, followed by the load event. |
| Networking.AbortThenOpen | networking/src/lib.rs:605-609 | `abort` from any state enters Unsent and marks the request aborted. It can then be opened again with any known method. |
| Networking.GetSession | networking/src/lib.rs:888-898 | Opening a GET, setting a header and sending all succeed, and the request ends in Done with status 200 and a response text. |
| Networking.XMLHttpRequest.constructor | networking/src/lib.rs:523-538 | A new request object is Unsent with status 0, no response and no events. |
| Networking.XMLHttpRequest.TriggerReadyStateChange | networking/src/lib.rs:677-681 | A change event for the current state is recorded, and nothing else changes. |
| Networking.XMLHttpRequest.Open | networking/src/lib.rs:540-550 | The new state and result are what `OpenStep` gives. |
| Networking.XMLHttpRequest.SetRequestHeader | networking/src/lib.rs:552-559 | The new state and result are what `SetRequestHeaderStep` gives. |
| Networking.XMLHttpRequest.Send | networking/src/lib.rs:561-573 | The new state and result are what `SendStep` gives. |
| Networking.XMLHttpRequest.SimulateRequest | networking/src/lib.rs:575-603 | The new state is what `Simulate` gives. |
| Networking.XMLHttpRequest.Abort | networking/src/lib.rs:605-609 | The new state is what `AbortStep` gives. |
| Microtasks.EnqueueAppends | js_integration/src/microtask_queue.rs:143-179 | Enqueueing returns the current next id and advances it, and appends the microtask at the back with that id. It counts the microtask and keeps the maximum depth at least the new length and never lower than before. The queue stays valid. |
| Microtasks.EnqueueIdsIncrease | js_integration/src/microtask_queue.rs:149-151 | Of two tasks enqueued in turn, the later gets the larger id, and they sit at the back in that order. |
| Microtasks.Execute | js_integration/src/microtask_queue.rs:269-284 | A task runs exactly when its callback is callable. |
| Microtasks.CountCallable | js_integration/src/microtask_queue.rs:216-226 | There are never more callable tasks than tasks. |
| Microtasks.CallableIds | js_integration/src/microtask_queue.rs:216-226 | One id per callable task. |
| Microtasks.DrainFinishedRunsCallable | js_integration/src/microtask_queue.rs:203-227 | A tick that drains the queue has run exactly the callable tasks, front to back. It counts them and lists their ids in queue order. |
| Microtasks.DrainStopsLeavingSuffix | js_integration/src/microtask_queue.rs:203-213 | A tick that stops early has dropped the microtask it popped last and leaves the tasks behind it queued, so what remains is a proper suffix. An overflow reports exactly the limit. |
| Microtasks.DrainFinishesUnderLimit | js_integration/src/microtask_queue.rs:203-227 | Without a time limit, a tick drains the queue whenever the tasks before the last one hold fewer callable tasks than the limit. |
| Microtasks.CallableIdsAbove | js_integration/src/microtask_queue.rs:216-226 | When every task's id exceeds a bound, so does every id that runs. |
| Microtasks.CallableIdsIncrease | js_integration/src/microtask_queue.rs:203-227 | The ids of the tasks that run inherit the queue's increasing order. |
| Microtasks.AllCallableRun | js_integration/src/microtask_queue.rs:203-227 | When every task is callable, all of them run, in queue order. |
| Microtasks.ProcessOk | js_integration/src/microtask_queue.rs:194-266 | A tick that succeeds empties the queue and returns the number of callable tasks, which is at most the limit. It adds that number to the processed total, records it as the last tick and counts the batch. It counts starvation exactly when more than 100 tasks ran, and changes no other counter or the next id. |
| Microtasks.DrainCountBounded | js_integration/src/microtask_queue.rs:205-209 | A tick that drains the queue never counts more tasks than the limit. |
| Microtasks.ProcessErr | js_integration/src/microtask_queue.rs:203-213 | A tick that fails leaves a proper suffix of the queue: the popped task is lost and the later ones wait. An overflow reports the limit as its count and counts the overflow and nothing else. A timeout changes no counter. A failing task never makes the tick fail. |
| Microtasks.ProcessRunsInOrder | js_integration/src/microtask_queue.rs:194-266 | With no time limit and fewer callable tasks than the limit ahead of the last one, a tick succeeds and runs the callable tasks in increasing id order. |
| Microtasks.ProcessKeepsValid | js_integration/src/microtask_queue.rs:194-266 | Processing keeps the pending ids increasing and below the next id. |
| Microtasks.Cleared | js_integration/src/microtask_queue.rs:342-350 | Clearing keeps a valid queue valid. |
| Microtasks.MicrotaskQueue.constructor | js_integration/src/microtask_queue.rs:104-113 | A new queue is empty, with next id 1, zeroed metrics and the default limit of 100000 per tick. |
| Microtasks.MicrotaskQueue.WithLimits | js_integration/src/microtask_queue.rs:116-125 | A queue made with limits starts as a new one, with the given limit per tick. |
| Microtasks.MicrotaskQueue.EnqueueMicrotask | js_integration/src/microtask_queue.rs:143-179 | The new state and the id are what `Enqueue` gives. |
| Microtasks.MicrotaskQueue.ProcessMicrotasks | js_integration/src/microtask_queue.rs:194-266 | The new state and the result are what `Process` gives. |
| Microtasks.MicrotaskQueue.QueueDepth | js_integration/src/microtask_queue.rs:287-289 | The number of pending tasks. |
| Microtasks.MicrotaskQueue.IsEmpty | js_integration/src/microtask_queue.rs:292-294 | The queue is empty exactly when its depth is 0. |
| Microtasks.MicrotaskQueue.GetMetrics | js_integration/src/microtask_queue.rs:297-299 | The current metrics. |
| Microtasks.MicrotaskQueue.ResetMetrics | js_integration/src/microtask_queue.rs:302-304 | The metrics are zeroed and nothing else changes. |
| Microtasks.MicrotaskQueue.Clear | js_integration/src/microtask_queue.rs:342-350 | The queue is emptied, and the metrics and the next id stay. |
| Microtasks.FiveTasks | js_integration/src/microtask_queue.rs:409-435 | Five callable tasks enqueued on a new queue get ids 1 to 5 and are all processed in one tick. The processed total and the last tick count are both 5. |
| EventDrivenRendering.ListenerCount | renderer_wgpu/src/event_driven_renderer.rs:195-200 | A type with no entry has no listeners. |
| EventDrivenRendering.AddRenderListenerCounts | renderer_wgpu/src/event_driven_renderer.rs:67-76 | Adding a listener raises its type's count by one and appends the callback to that type's callbacks. Every other type's callbacks, the flag and the statistics stay as they were. |
| EventDrivenRendering.ClearRenderListenersEmpties | renderer_wgpu/src/event_driven_renderer.rs:189-192 | After clearing, every type has no listeners and no type is registered. The flag and the statistics stay. |
| EventDrivenRendering.FlagTransitions | renderer_wgpu/src/event_driven_renderer.rs:52-148 | Setting the document or the layout tree asks for a re-render and counts nothing. `trigger_rerender` asks for one and counts it, without counting an event. `mark_rendered` clears the flag and changes nothing else. |
| EventDrivenRendering.HandleEventEffect | renderer_wgpu/src/event_driven_renderer.rs:86-123 | Handling an event always marks the renderer dirty, bumps both counters by one, and records the type and the target. The callbacks of the type run exactly when the target was found, and the listeners stay. |
| EventDrivenRendering.CountFound | renderer_wgpu/src/event_driven_renderer.rs:179-184 | There are never more found events than events. |
| EventDrivenRendering.BatchCounts | renderer_wgpu/src/event_driven_renderer.rs:178-186 | A batch returns the number of events whose target was found, which is at most the batch's length. Each counter grows by the batch's length, and the listeners stay. |
| EventDrivenRendering.BatchRecordsLast | renderer_wgpu/src/event_driven_renderer.rs:178-186 | After a non-empty batch a re-render is pending, and the batch's last event is the one recorded. |
| EventDrivenRendering.BatchPrefixStep | renderer_wgpu/src/event_driven_renderer.rs:180-184 | Handling one more event extends the batch's prefix by that event, and counts it when its target was found. |
| EventDrivenRendering.BatchNoneFound | renderer_wgpu/src/event_driven_renderer.rs:178-186 | When no target is found, as without a document, a batch returns 0 and runs no callback. |
| EventDrivenRendering.FoundFlags | renderer_wgpu/src/event_driven_renderer.rs:102 | One flag per event, set exactly when `find_node_by_id` finds its target. Without a document none is set. |
| EventDrivenRendering.Dispatch | renderer_wgpu/src/event_driven_renderer.rs:95-104 | The dispatch happens exactly when an element with that id was found. |
| EventDrivenRendering.EventDrivenRenderer.constructor | renderer_wgpu/src/event_driven_renderer.rs:40-49 | A new renderer has no layout tree, no document and no listeners, a re-render pending and zero counters. |
| EventDrivenRendering.EventDrivenRenderer.SetDocument | renderer_wgpu/src/event_driven_renderer.rs:52-57 | The renderer and its event manager both take the document, and a re-render is pending. The layout tree stays. |
| EventDrivenRendering.EventDrivenRenderer.SetLayoutTree | renderer_wgpu/src/event_driven_renderer.rs:60-64 | The renderer takes the layout tree and a re-render is pending. The document stays. |
| EventDrivenRendering.EventDrivenRenderer.AddRenderListener | renderer_wgpu/src/event_driven_renderer.rs:67-76 | The new state is what `AddListenerStep` gives. |
| EventDrivenRendering.EventDrivenRenderer.TriggerRerender | renderer_wgpu/src/event_driven_renderer.rs:79-83 | The new state is what `RerenderStep` gives. |
| EventDrivenRendering.EventDrivenRenderer.HandleDomEvent | renderer_wgpu/src/event_driven_renderer.rs:86-123 | The result says whether `find_node_by_id` found the target, and the new state is what `HandleEvent` gives. |
| EventDrivenRendering.EventDrivenRenderer.RecordEvent | renderer_wgpu/src/event_driven_renderer.rs:89-120 | The bookkeeping of an event yields the state that `HandleEvent` gives. |
| EventDrivenRendering.EventDrivenRenderer.RunCallbacks | renderer_wgpu/src/event_driven_renderer.rs:106-110 | Each callback runs once, in order. |
| EventDrivenRendering.EventDrivenRenderer.SimulateClick | renderer_wgpu/src/event_driven_renderer.rs:126-128 | A `click` event is handled at the target. |
| EventDrivenRendering.EventDrivenRenderer.SimulateInput | renderer_wgpu/src/event_driven_renderer.rs:131-133 | An `input` event is handled at the target. |
| EventDrivenRendering.EventDrivenRenderer.SimulateKeydown | renderer_wgpu/src/event_driven_renderer.rs:136-138 | A `keydown` event is handled at the target. |
| EventDrivenRendering.EventDrivenRenderer.NeedsRerender | renderer_wgpu/src/event_driven_renderer.rs:141-143 | Whether a re-render is pending. |
| EventDrivenRendering.EventDrivenRenderer.MarkRendered | renderer_wgpu/src/event_driven_renderer.rs:146-148 | The new state is what `MarkRenderedStep` gives. |
| EventDrivenRendering.EventDrivenRenderer.GetLayoutTree | renderer_wgpu/src/event_driven_renderer.rs:151-153 | A layout tree is returned exactly when one was set. |
| EventDrivenRendering.EventDrivenRenderer.GetStats | renderer_wgpu/src/event_driven_renderer.rs:156-165 | The statistics report the flags, the counters, the manager's statistics and the number of event types with listeners. |
| EventDrivenRendering.EventDrivenRenderer.ProcessEventBatch | renderer_wgpu/src/event_driven_renderer.rs:178-186 | The new state and the count are what `Batch` gives, for the targets `find_node_by_id` finds. |
| EventDrivenRendering.EventDrivenRenderer.HandleBatchEvent | renderer_wgpu/src/event_driven_renderer.rs:180-184 | One turn of the loop extends the batch's prefix by the next event. |
| EventDrivenRendering.EventDrivenRenderer.ClearRenderListeners | renderer_wgpu/src/event_driven_renderer.rs:189-192 | The new state is what `ClearListenersStep` gives. |
| EventDrivenRendering.EventDrivenRenderer.GetRenderListeners | renderer_wgpu/src/event_driven_renderer.rs:195-200 | The number of listeners of the type. |
| EventDrivenRendering.ClickWithoutDocument | renderer_wgpu/src/event_driven_renderer.rs:229-252 | A new renderer has no layout tree and no document, and a re-render pending. A click without a document finds nothing, yet counts one event and one re-render. |
| EventDrivenRendering.ListenerCountsExample | renderer_wgpu/src/event_driven_renderer.rs:254-269 | One `click` listener counts 1 for `click` and 0 for `input`, and 0 for `click` after clearing. |
| EventDrivenRendering.ThreeEventsWithoutDocument | renderer_wgpu/src/event_driven_renderer.rs:271-287 | A batch of three events without a document returns 0 and runs no callback, yet counts three events and three re-renders and records the last. |
| AbortControl.FirstAbortWins | js_integration/src/abort_controller.rs:76-85 | After an abort the signal is aborted. The first abort records its reason, and every later abort changes nothing, whatever its reason. Listeners are untouched. |
| AbortControl.Retain | js_integration/src/abort_controller.rs:95 | `retain` keeps exactly the listeners for which the test holds, and never more than there were. |
| AbortControl.RemoveListenerAsWrittenKeepsAll | js_integration/src/abort_controller.rs:93-96 | As written, removing a listener leaves the list unchanged, so a registered listener stays registered. |
| AbortControl.RemoveListenerRemoves | js_integration/src/abort_controller.rs:93-96 | Corrected, the removed listener is gone and every other listener stays, in order. Removing an unregistered listener changes nothing. |
| AbortControl.RemoveListenerDiscrepancy | js_integration/src/abort_controller.rs:93-96 | A lone registered listener stays registered as written and is gone once corrected. |
| AbortControl.AbortSignal.constructor | js_integration/src/abort_controller.rs:54-63 | A new signal is not aborted and has no reason and no listeners. |
| AbortControl.AbortSignal.IsAborted | js_integration/src/abort_controller.rs:66-68 | Whether the signal is aborted. |
| AbortControl.AbortSignal.GetReason | js_integration/src/abort_controller.rs:71-73 | The recorded reason, if any. |
| AbortControl.AbortSignal.Abort | js_integration/src/abort_controller.rs:76-85 | The new state is what `AbortSignalStep` gives. |
| AbortControl.AbortSignal.AddEventListener | js_integration/src/abort_controller.rs:88-90 | The listener is appended and nothing else changes. |
| AbortControl.AbortSignal.RemoveEventListener | js_integration/src/abort_controller.rs:93-96 | As written, the address comparison never holds: the listeners are those `RemoveListenerAsWritten` keeps, which is all of them, so the signal is unchanged. |
| AbortControl.NewController | js_integration/src/abort_controller.rs:110-115 | A new controller has a new signal with the same id. |
| AbortControl.AbortControllerAbort | js_integration/src/abort_controller.rs:118-120 | Aborting a controller aborts its signal, as `AbortSignalStep` says. |
| AbortControl.AbortControllerHost.constructor | js_integration/src/abort_controller.rs:139-144 | A new host has no controllers and has issued no id. |
| AbortControl.AbortControllerHost.CreateController | js_integration/src/abort_controller.rs:419-429 | The host issues the next id, which was not in use, and stores a new controller with a new signal under it. The other controllers stay and the host stays valid. |
| AbortControl.AbortControllerHost.GetController | js_integration/src/abort_controller.rs:432-434 | A controller is found exactly when one is stored under the id, and it is that one. |
| AbortControl.AbortControllerHost.RemoveController | js_integration/src/abort_controller.rs:437-439 | The stored controller, if any, is returned and taken out, and nothing else changes. |
| AbortControl.AbortSeenThroughHost | js_integration/src/abort_controller.rs:419-434 | A controller created by the host and then aborted is seen aborted with that reason through the host's copy. Every other stored controller's signal is untouched. |
| AbortControl.RemoveTwice | js_integration/src/abort_controller.rs:437-439 | A removal hands the controller back once. A second removal, and any later lookup, finds nothing. |

## Left out

- HtmlTokenizer.Tokenizer.constructor: takes characters already decoded. `Tokenizer::new` takes bytes, decodes them as UTF-8 and fails with `InvalidUtf8` on a malformed sequence; that decoding and its error are not modelled.
- HtmlParsing.HtmlParser.constructor: takes characters already decoded, so the `InvalidUtf8` error that `HtmlParser::new` passes on from the tokenizer is not modelled.
- Dom.Document.AppendChild: requires a parentless child whose id is larger than the parent's. The source re-parents any node without detaching it from its old parent, which would break the tree invariant the arena keeps.
- Events.ButtonMask: requires `button < 32`. The source computes `1 << button` on a 32-bit integer, which overflows for larger buttons.
- Events.CreateClickEvent: requires `button < 32`, for the same shift.
- Rust `Rc`/`Weak` node links are not modelled. The DOM is an arena keyed by node id, with a parent index and a child sequence per node.
- Unicode is not modelled. Lower- and upper-casing, trimming, `split_whitespace`, `is_alphanumeric` and `is_ascii_digit` use ASCII character classes. Character sequences are Dafny `seq<char>`.
- `HashMap` iteration order is unspecified in the source. It is a parameter of the text and layout renderers, and elsewhere the maps are Dafny `map`s read through explicit key orders.
- Wall-clock time is not modelled. `Instant` and `Duration` values become inputs (the microtask deadline, the dispatch time of `EventDispatcher`), and the durations in the statistics (minimum, maximum, average processing time) are left out.
- Integer widths (`u32`, `u64`, `usize`) are unbounded, except where noted above. The specificity counters do not wrap around at `u32::MAX`.
- CssStylesheet.ValueClassification: the texts `inf`, `infinity` and `nan`, in any case and with an optional sign, are numbers to `str::parse::<f32>`, so `infpx` is a dimension in the source. `real` has no infinity or NaN, so the model reads these values as keywords.
- Layout runs over `real`, not `f32`. Numbers in CSS text are read as exact decimals, and `f32` rounding and formatting are not modelled.
- `LayoutBox` trees are values: the layout engine returns new boxes instead of mutating them in place.
- `LayoutEngine::update_animations`, the easing functions and the animation fields of the layout `ComputedStyles` are left out: they depend on `Instant`.
- `LayoutEngine::compute_layout_with_styles` is not modelled. It is an entry point that converts the cascade's styles before starting `layout_element`; `layout_document` and `layout_element` are modelled.
- LayoutEngine.Extent: an explicitly empty track list gives `-gap`, where the source's `(len - 1) as f32` underflows `usize` (a panic in a debug build). The default `1fr` track lists never reach that case.
- The grid track lists of the layout styles are never set by `apply_declaration` in the source. The model keeps them as inputs of the grid layout.
- `CSSTokenizer::peek_token` is not modelled. It is a copy of `next_token` on a cloned cursor.
- `CSSParser::parse_rule`, `parse_selectors`, `parse_selector`, `parse_simple_selector`, `parse_declarations` and `parse_value` are not modelled. `parse_stylesheet` never calls them; it goes through `parse_simple_rule`.
- `EventDelegationSystem::handle_delegated_event`, with `matches_selector`, `execute_delegated_callback` and the helper stubs, is not modelled: it works over mock element ids rather than the document. It returns true when a handler registered for the stub parent id has the event's type and its selector matches, and false otherwise; that result is not modelled.
- Events.EventDispatcher.DispatchEvent: writes the phase into the caller's `Event` object. The source's `dispatch_event` takes the event by value, so the caller's event is a copy there and never sees those writes.
- Listener callbacks are never run, as in the source. Dispatch produces a trace of (node, phase, listener id). The `once` and `passive` options are stored but have no effect, as in the source.
- Event timestamps and `is_trusted` are left out.
- The event-driven renderer's render callbacks are handles, and running one appends it to a log. Its `println` output is left out. Its counters are updated after the DOM dispatch, where the source updates them before; the dispatch cannot observe them.
- `EventDrivenRenderer::get_dom_event_manager` and `get_dom_event_manager_mut` are accessors, so they have no member. The `dom_event_stats` part of `get_stats` is ghost.
- The `RenderBackend` trait is replaced by one class per backend.
- The layout dump keeps each line as a depth and a structured content. The indentation string and the number formatting of `LayoutRenderer::get_output` are left out.
- In networking, the XHR callbacks are recorded as events, not run. `HttpClient` (`fetch_html`, `send_request`), `validate_url`, the `FetchRequest` builders and `send`, `FetchResponse::json`, `text` and `blob`, and the accessors `status_text`, `headers` and `url` are left out: they are network I/O, foreign crates or plain field reads.
- The `XMLHttpRequest` getters and `set_on*` setters, and `HttpRequest::get`, `post`, `set_timeout`, `set_credentials` and `content_type`, are not modelled. They are plain field reads and writes, or calls of `new` and `get_header` that are modelled.
- In the microtask queue, the tracing flag, its `println` output and `get_telemetry` are left out. A task's JavaScript callback and arguments become one flag: whether it is callable.
- In the abort controller, the broadcast channel and the Boa native functions are left out. JavaScript values are a small datatype, and `get_signal` is a field access.
- HtmlParsing.HtmlParser.Parse: the abort error is `ParseErrorAt(0, "Too many parsing errors")`. The source appends ": " and the display text of the error that crossed the limit of 100, and the model drops that suffix because it does not model the display text of tokenizer errors.

## Findings

| source | as written | input that shows it | evidently intended | confidence | as-written member | corrected member |
|---|---|---|---|---|---|---|
| css_parser/src/lib.rs:550-565 | To put back the token it peeked, `skip_whitespace_and_comments` steps the position back by one character, not to the start of the token. | `div { color: red; }` parses to one rule whose selector is `v`. | Put the cursor back where the token started, so that the selector is `div`. | not executed | CssStylesheet.AsWrittenKeepsLastLetter | CssStylesheet.CorrectedKeepsSelector |
| layout/src/lib.rs:905-909 | `layout_block_children` moves the next child down by the sum of the margin, border, padding and content box heights. Those boxes are nested, so the content is counted up to four times. | A bare child 10 high puts the next child at y = 40, leaving a gap of 30. | Move down by the margin-box height, so that the children tile. | not executed | LayoutEngine.StackAsWrittenLeavesGap | LayoutEngine.StackTiles |
| layout/src/lib.rs:1236-1245 | `calculate_grid_tracks` divides the free space by the number of fr tracks, then multiplies by each track's fr value. | Tracks `1fr 2fr` in 300 get sizes 150 and 300, which sum to 450. | Divide by the sum of the fr values, so that the tracks and gaps fill the available space. | not executed | LayoutEngine.AsWrittenOverflows | LayoutEngine.TracksFill |
| js_integration/src/abort_controller.rs:93-96 | `remove_event_listener` keeps a listener unless `std::ptr::eq(l, &listener)`, which compares a vector slot's address with the address of the by-value argument. That never holds. | Removing the only registered listener leaves it registered. | Remove every registration of that listener, keeping the others in order. | not executed | AbortControl.RemoveListenerDiscrepancy | AbortControl.RemoveListenerRemoves |

The methods that model these four places (the trivia-skipping loop of `CSSParser`, the stacking loop of `layout_block_children`, the sizing loops of `calculate_grid_tracks` and `AbortSignal::remove_event_listener`) follow the code as written, and so do the layout, the style-sheet loading and the signal that use them. The corrected definitions, with their proved properties, stand beside them.
