/**
 * The stand-alone event machinery of the DOM crate: the `EventDispatcher`
 * that drives an event through the capture, target and bubble phases of a
 * path of targets and keeps timing statistics, the `EventDelegationManager`
 * table of delegated handlers, and the `SyntheticEventFactory`.
 *
 * A target is an `Element`. Listener callbacks are never invoked, so the
 * event's flags do not change during a dispatch; what a dispatch does is
 * described by the ids of the listeners it runs, phase by phase.
 */
module Events {
  import opened Wrappers
  import opened EventTypes
  import opened DomElement
  import opened Delegation

  // ---------------------------------------------------------------------
  // Propagation along a path
  // ---------------------------------------------------------------------

  /** Running a target's listeners ends the phase when the immediate-stop flag is set and some listener ran. */
  predicate StopsAfter(ls: seq<EventListener>, phase: EventPhase, immediate: bool) {
    immediate && RunIds(ls, phase) != []
  }

  /**
   * The capture phase over the listener lists of a path (index 0 is the
   * target): targets `i`, `i - 1`, ..., 1, ending after the first target
   * whose run stops propagation.
   */
  function CaptureFrom(lists: seq<seq<EventListener>>, i: nat, immediate: bool): seq<nat>
    decreases i
  {
    if i == 0 || i >= |lists| then []
    else RunUntilStopped(lists[i], Capturing, immediate)
         + (if StopsAfter(lists[i], Capturing, immediate) then [] else CaptureFrom(lists, i - 1, immediate))
  }

  /** The bubble phase: targets `k`, `k + 1`, ... to the end of the path, with the same early end. */
  function BubbleFrom(lists: seq<seq<EventListener>>, k: nat, immediate: bool): seq<nat>
    decreases |lists| - k
  {
    if k >= |lists| then []
    else RunUntilStopped(lists[k], Bubbling, immediate)
         + (if StopsAfter(lists[k], Bubbling, immediate) then [] else BubbleFrom(lists, k + 1, immediate))
  }

  /** Without the immediate-stop flag, capture runs every capture listener of targets `i` down to 1. */
  function AllCapture(lists: seq<seq<EventListener>>, i: nat): seq<nat>
    requires i < |lists|
    decreases i
  {
    if i == 0 then [] else RunIds(lists[i], Capturing) + AllCapture(lists, i - 1)
  }

  lemma {:induction false} CaptureWithoutStop(lists: seq<seq<EventListener>>, i: nat)
    requires i < |lists|
    ensures CaptureFrom(lists, i, false) == AllCapture(lists, i)
    decreases i
  {
    if i > 0 {
      CaptureWithoutStop(lists, i - 1);
    }
  }

  /** Once the immediate-stop flag is set, a whole capture phase runs at most one listener. */
  lemma {:induction false} CaptureRunsAtMostOneWhenImmediate(lists: seq<seq<EventListener>>, i: nat)
    requires i < |lists|
    ensures |CaptureFrom(lists, i, true)| <= 1
    decreases i
  {
    if i > 0 {
      CaptureRunsAtMostOneWhenImmediate(lists, i - 1);
    }
  }

  /** Once the immediate-stop flag is set, a whole bubble phase runs at most one listener. */
  lemma {:induction false} BubbleRunsAtMostOneWhenImmediate(lists: seq<seq<EventListener>>, k: nat)
    ensures |BubbleFrom(lists, k, true)| <= 1
    decreases |lists| - k
  {
    if k < |lists| {
      BubbleRunsAtMostOneWhenImmediate(lists, k + 1);
    }
  }

  /**
   * On the path the dispatcher builds (the target alone) the capture and
   * bubble phases run nothing: both skip the target.
   */
  lemma SingleTargetPath(ls: seq<EventListener>, immediate: bool)
    ensures CaptureFrom([ls], 0, immediate) == []
    ensures BubbleFrom([ls], 1, immediate) == []
  {
  }

  /** One step of the capture loop: the run at target `i`, then the rest of the phase unless it stopped there. */
  lemma CaptureStep(lists: seq<seq<EventListener>>, i: nat, imm: bool, ran: seq<nat>, r: seq<nat>)
    requires 0 < i < |lists| && r == RunUntilStopped(lists[i], Capturing, imm)
    ensures StopsAfter(lists[i], Capturing, imm) ==> ran + CaptureFrom(lists, i, imm) == ran + r
    ensures !StopsAfter(lists[i], Capturing, imm) ==> ran + CaptureFrom(lists, i, imm) == (ran + r) + CaptureFrom(lists, i - 1, imm)
  {
    if StopsAfter(lists[i], Capturing, imm) {
      assert CaptureFrom(lists, i, imm) == r + [];
      assert r + [] == r;
    } else {
      AppendAssoc(ran, r, CaptureFrom(lists, i - 1, imm));
    }
  }

  lemma AppendAssoc(a: seq<nat>, b: seq<nat>, c: seq<nat>)
    ensures a + (b + c) == (a + b) + c
  {
  }

  // ---------------------------------------------------------------------
  // EventDispatcher
  // ---------------------------------------------------------------------

  /** Statistics reported by `EventDispatcher::get_stats`. */
  datatype EventDispatchStats = EventDispatchStats(dispatchCount: nat, totalDispatchTime: nat, maxDispatchTime: nat, avgDispatchTime: nat)

  /** `a <= c * m` with `c > 0` bounds the quotient `a / c` by `m`. */
  lemma DivBound(a: nat, c: nat, m: nat)
    requires c > 0 && a <= c * m
    ensures a / c <= m
  {
    var q := a / c;
    assert c * q + a % c == a;
    if q > m {
      assert c * q >= c * (m + 1) by { MulMono(c, m + 1, q); }
      assert false;
    }
  }

  lemma MulMono(c: nat, x: nat, y: nat)
    requires x <= y
    ensures c * x <= c * y
  {
    assert c * y == c * x + c * (y - x);
  }

  class EventDispatcher {
    var dispatchCount: nat
    var totalDispatchTime: nat
    var maxDispatchTime: nat

    /** The largest recorded time is one of the summands, and no summand exceeds it. */
    ghost predicate Valid()
      reads this
    {
      maxDispatchTime <= totalDispatchTime <= dispatchCount * maxDispatchTime
    }

    /** `EventDispatcher::new`: all counters zero. */
    constructor ()
      ensures Valid()
      ensures dispatchCount == 0 && totalDispatchTime == 0 && maxDispatchTime == 0
    {
      dispatchCount := 0;
      totalDispatchTime := 0;
      maxDispatchTime := 0;
    }

    /**
     * `build_event_path`: the target alone. With a document root the source
     * asks `find_parent_node` for a parent, which always answers None.
     */
    method BuildEventPath(target: Element, hasDocumentRoot: bool) returns (path: seq<Element>)
      ensures path == [target]
    {
      path := [];
      if hasDocumentRoot {
        path := path + [target];
        var parent := FindParentNode(target);
        if parent.Some? {
          path := path + [parent.value];
        }
      } else {
        path := path + [target];
      }
    }

    /** `find_parent_node`: never finds a parent. */
    method FindParentNode(target: Element) returns (parent: Option<Element>)
      ensures parent == None
    {
      parent := None;
    }

    /**
     * `execute_listeners`: runs the target's listeners of the event's type
     * that belong to the current phase, in registration order, and answers
     * true as soon as one has run with the immediate-stop flag set.
     */
    method ExecuteListeners(target: Element, event: Event) returns (stopped: bool, ran: seq<nat>)
      ensures ran == RunUntilStopped(target.eventListeners.GetListeners(event.eventType), event.phase, event.immediatePropagationStopped)
      ensures stopped == StopsAfter(target.eventListeners.GetListeners(event.eventType), event.phase, event.immediatePropagationStopped)
    {
      var ls := target.eventListeners.GetListeners(event.eventType);
      ran := [];
      var i := 0;
      while i < |ls|
        invariant 0 <= i <= |ls|
        invariant !event.immediatePropagationStopped ==> ran == RunIds(ls[..i], event.phase)
        invariant event.immediatePropagationStopped ==> ran == [] && RunIds(ls[..i], event.phase) == []
      {
        RunIdsAppend(ls[..i], [ls[i]], event.phase);
        assert ls[..i + 1] == ls[..i] + [ls[i]];
        if RunsInPhase(event.phase, ls[i]) {
          ran := ran + [ls[i].id];
          if event.immediatePropagationStopped {
            RunIdsAppend(ls[..i + 1], ls[i + 1..], event.phase);
            assert ls == ls[..i + 1] + ls[i + 1..];
            return true, ran;
          }
        }
        i := i + 1;
      }
      assert ls[..|ls|] == ls;
      stopped := false;
    }

    /** The capture loop of `dispatch_event`: from the last target of the path down to index 1. */
    method CaptureAlong(path: seq<Element>, ghost lists: seq<seq<EventListener>>, event: Event) returns (ran: seq<nat>)
      requires |path| > 0 && event.phase == Capturing
      requires |lists| == |path| && forall j :: 0 <= j < |path| ==> lists[j] == path[j].eventListeners.GetListeners(event.eventType)
      ensures ran == CaptureFrom(lists, |path| - 1, event.immediatePropagationStopped)
    {
      var imm := event.immediatePropagationStopped;
      ran := [];
      var i := |path| - 1;
      while i > 0
        invariant 0 <= i < |path|
        invariant CaptureFrom(lists, |path| - 1, imm) == ran + CaptureFrom(lists, i, imm)
        invariant event.phase == Capturing && event.immediatePropagationStopped == imm
      {
        assert lists[i] == path[i].eventListeners.GetListeners(event.eventType);
        var stopped, r := ExecuteListeners(path[i], event);
        CaptureStep(lists, i, imm, ran, r);
        ran := ran + r;
        if stopped {
          return;
        }
        i := i - 1;
      }
    }

    /** The bubble loop of `dispatch_event`: the path after its first target, in order. */
    method BubbleAlong(path: seq<Element>, ghost lists: seq<seq<EventListener>>, event: Event) returns (ran: seq<nat>)
      requires event.phase == Bubbling
      requires |lists| == |path| && forall j :: 0 <= j < |path| ==> lists[j] == path[j].eventListeners.GetListeners(event.eventType)
      ensures ran == BubbleFrom(lists, 1, event.immediatePropagationStopped)
    {
      var imm := event.immediatePropagationStopped;
      ran := [];
      var k := 1;
      while k < |path|
        invariant 1 <= k
        invariant BubbleFrom(lists, 1, imm) == ran + BubbleFrom(lists, k, imm)
        invariant event.phase == Bubbling && event.immediatePropagationStopped == imm
      {
        assert lists[k] == path[k].eventListeners.GetListeners(event.eventType);
        var stopped, r := ExecuteListeners(path[k], event);
        ghost var rest := if stopped then [] else BubbleFrom(lists, k + 1, imm);
        assert BubbleFrom(lists, k, imm) == r + rest;
        AppendAssoc(ran, r, rest);
        ran := ran + r;
        if stopped {
          assert ran + rest == ran;
          return;
        }
        k := k + 1;
      }
    }

    /**
     * `dispatch_event`: counts the dispatch, runs the capture phase, the
     * target phase and (for a bubbling event) the bubble phase unless
     * propagation is stopped, records the elapsed time and answers whether
     * the default action may proceed. The elapsed time is an input.
     *
     * Every phase starts only while propagation is not stopped; since no
     * callback runs, that flag is the one the event arrives with.
     *
     * The source takes the event by value, so the phase it writes stays
     * in its own copy; here the caller's `Event` object is written, and a
     * caller reading its `phase` afterwards sees what the source's caller
     * would not.
     */
    method DispatchEvent(target: Element, event: Event, hasDocumentRoot: bool, elapsed: nat)
      returns (notPrevented: bool, capture: seq<nat>, atTarget: seq<nat>, bubble: seq<nat>)
      requires Valid()
      modifies this, event`phase
      ensures Valid()
      ensures dispatchCount == old(dispatchCount) + 1
      ensures totalDispatchTime == old(totalDispatchTime) + elapsed
      ensures maxDispatchTime == if elapsed > old(maxDispatchTime) then elapsed else old(maxDispatchTime)
      ensures notPrevented == !event.defaultPrevented
      ensures capture == [] && bubble == []
      ensures atTarget == if event.propagationStopped then []
                          else RunUntilStopped(target.eventListeners.GetListeners(event.eventType), AtTarget, event.immediatePropagationStopped)
      ensures event.phase == if event.propagationStopped then old(event.phase)
                             else if event.bubbles then Bubbling else AtTarget
    {
      dispatchCount := dispatchCount + 1;
      var path := BuildEventPath(target, hasDocumentRoot);
      ghost var lists := [target.eventListeners.GetListeners(event.eventType)];
      SingleTargetPath(lists[0], event.immediatePropagationStopped);
      capture, atTarget, bubble := [], [], [];
      if !event.propagationStopped {
        event.phase := Capturing;
        capture := CaptureAlong(path, lists, event);
      }
      if !event.propagationStopped {
        event.phase := AtTarget;
        var _, r := ExecuteListeners(target, event);
        atTarget := r;
      }
      if event.bubbles && !event.propagationStopped {
        event.phase := Bubbling;
        bubble := BubbleAlong(path, lists, event);
      }
      RecordTime(elapsed);
      notPrevented := !event.defaultPrevented;
    }

    /** Adds a dispatch time to the total and the maximum. */
    method RecordTime(elapsed: nat)
      requires maxDispatchTime <= totalDispatchTime <= (dispatchCount - 1) * maxDispatchTime
      requires dispatchCount > 0
      modifies this`totalDispatchTime, this`maxDispatchTime
      ensures Valid()
      ensures totalDispatchTime == old(totalDispatchTime) + elapsed
      ensures maxDispatchTime == if elapsed > old(maxDispatchTime) then elapsed else old(maxDispatchTime)
    {
      var m := if elapsed > maxDispatchTime then elapsed else maxDispatchTime;
      MulMono(dispatchCount - 1, maxDispatchTime, m);
      assert (dispatchCount - 1) * m + m == dispatchCount * m;
      totalDispatchTime := totalDispatchTime + elapsed;
      maxDispatchTime := m;
    }

    /** `get_stats`: the counters and the integer average (0 before the first dispatch). */
    function GetStats(): (s: EventDispatchStats)
      requires Valid()
      reads this
      ensures s.dispatchCount == dispatchCount && s.totalDispatchTime == totalDispatchTime && s.maxDispatchTime == maxDispatchTime
      ensures s.avgDispatchTime <= s.maxDispatchTime <= s.totalDispatchTime
      ensures s.dispatchCount > 0 ==> s.avgDispatchTime * s.dispatchCount <= s.totalDispatchTime
      ensures s.dispatchCount == 0 ==> s.avgDispatchTime == 0
    {
      var avg := if dispatchCount > 0 then totalDispatchTime / dispatchCount else 0;
      if dispatchCount > 0 then
        DivBound(totalDispatchTime, dispatchCount, maxDispatchTime);
        assert avg * dispatchCount <= totalDispatchTime;
        EventDispatchStats(dispatchCount, totalDispatchTime, maxDispatchTime, avg)
      else
        EventDispatchStats(dispatchCount, totalDispatchTime, maxDispatchTime, avg)
    }
  }

  // ---------------------------------------------------------------------
  // EventDelegationManager
  // ---------------------------------------------------------------------

  class EventDelegationManager {
    var delegatedHandlers: HandlerTable

    /** `EventDelegationManager::new`: no handlers. */
    constructor ()
      ensures delegatedHandlers == map[]
    {
      delegatedHandlers := map[];
    }

    /** `add_delegated_handler`: inserts or overwrites the (parent, type, selector) key. */
    method AddDelegatedHandler(parentId: string, eventType: string, selector: string, callback: string)
      modifies this
      ensures delegatedHandlers == old(delegatedHandlers)[HandlerKey(parentId, eventType, selector) := callback]
    {
      delegatedHandlers := delegatedHandlers[HandlerKey(parentId, eventType, selector) := callback];
    }

    /** `remove_delegated_handler`: drops every handler of that parent and type. */
    method RemoveDelegatedHandler(parentId: string, eventType: string)
      modifies this
      ensures delegatedHandlers == WithoutParentType(old(delegatedHandlers), parentId, eventType)
    {
      delegatedHandlers := RemoveParentType(delegatedHandlers, parentId, eventType);
    }

    /** `should_delegate`: some handler of that type is registered, for any parent and selector. */
    function ShouldDelegate(eventType: string): (r: bool)
      reads this
      ensures r <==> exists k :: k in delegatedHandlers && k.eventType == eventType
    {
      assert forall k :: k in delegatedHandlers && k.eventType == eventType ==> k in KeysOfType(delegatedHandlers, eventType);
      KeysOfType(delegatedHandlers, eventType) != {}
    }

    /** `get_delegated_handlers`: one (selector, type) pair per handler of that type, in the table's order. */
    method GetDelegatedHandlers(eventType: string) returns (r: seq<(string, string)>)
      ensures exists order :: Enumerates(order, KeysOfType(delegatedHandlers, eventType)) && r == SelectorPairs(order)
    {
      r := ListSelectors(delegatedHandlers, eventType);
    }
  }

  /** Delegation is wanted exactly when the listing for that type is not empty. */
  lemma ShouldDelegateIffListed(m: EventDelegationManager, eventType: string, r: seq<(string, string)>, order: seq<HandlerKey>)
    requires Enumerates(order, KeysOfType(m.delegatedHandlers, eventType)) && r == SelectorPairs(order)
    ensures m.ShouldDelegate(eventType) <==> r != []
  {
    ListingSize(m.delegatedHandlers, eventType, r, order);
  }

  // ---------------------------------------------------------------------
  // SyntheticEventFactory
  // ---------------------------------------------------------------------

  /** A mouse event: the base event and the pointer state. */
  datatype MouseEvent = MouseEvent(
    base: Event, clientX: real, clientY: real, screenX: real, screenY: real,
    button: int, buttons: nat, ctrlKey: bool, shiftKey: bool, altKey: bool, metaKey: bool)

  datatype KeyboardEvent = KeyboardEvent(
    base: Event, key: string, code: string, keyCode: nat, charCode: nat,
    ctrlKey: bool, shiftKey: bool, altKey: bool, metaKey: bool, repeat: bool)

  datatype InputEvent = InputEvent(base: Event, data: Option<string>, inputType: string, isComposing: bool)

  datatype FocusEvent = FocusEvent(base: Event)

  datatype CustomEvent = CustomEvent(base: Event, detail: Option<string>)

  /** `2^n`. */
  function Pow2(n: nat): (r: nat)
    ensures r >= 1
  {
    if n == 0 then 1 else 2 * Pow2(n - 1)
  }

  /** `1 << n` on `u32` is a single set bit below bit 32 for any shift below 32. */
  lemma {:induction false} Pow2Bounds(n: nat)
    requires n < 32
    ensures 1 <= Pow2(n) <= 0x8000_0000
    ensures Pow2(n) == 1 || Pow2(n) % 2 == 0
  {
    if n > 0 {
      Pow2Bounds(n - 1);
    }
    Pow2Monotone(n, 31);
    Pow2Of31();
  }

  lemma Pow2Of31()
    ensures Pow2(31) == 0x8000_0000
  {
    assert Pow2(8) == 0x100 && Pow2(16) == 0x1_0000 && Pow2(24) == 0x100_0000;
  }

  lemma {:induction false} Pow2Monotone(n: nat, k: nat)
    requires n <= k
    ensures Pow2(n) <= Pow2(k)
    decreases k - n
  {
    if n < k {
      Pow2Monotone(n + 1, k);
    }
  }

  /** The button mask of a click: button 0 (or a negative button) sets bit 0, button `b` sets bit `b`. */
  function ButtonMask(button: int): (r: nat)
    requires button < 32
    ensures 1 <= r <= 0x8000_0000
    ensures button <= 0 ==> r == 1
  {
    Pow2Bounds(if button < 0 then 0 else button);
    Pow2(if button < 0 then 0 else button)
  }

  /** The masks of the primary, auxiliary and secondary buttons are 1, 2 and 4. */
  lemma ButtonMasks()
    ensures ButtonMask(0) == 1 && ButtonMask(1) == 2 && ButtonMask(2) == 4
  {
  }

  /** `MouseEvent::new`: zero coordinates, no button (-1), no pressed buttons, no modifiers. */
  method NewMouseEvent(eventType: string, bubbles: bool, cancelable: bool) returns (e: MouseEvent)
    ensures fresh(e.base)
    ensures e.base.eventType == eventType && e.base.bubbles == bubbles && e.base.cancelable == cancelable
    ensures e.base.phase == PhaseNone && !e.base.defaultPrevented && !e.base.propagationStopped && !e.base.immediatePropagationStopped
    ensures e.clientX == 0.0 && e.clientY == 0.0 && e.screenX == 0.0 && e.screenY == 0.0
    ensures e.button == -1 && e.buttons == 0
    ensures !e.ctrlKey && !e.shiftKey && !e.altKey && !e.metaKey
  {
    var base := new Event(eventType, bubbles, cancelable);
    e := MouseEvent(base, 0.0, 0.0, 0.0, 0.0, -1, 0, false, false, false, false);
  }

  /** `KeyboardEvent::new`: empty key and code, zero codes, no modifiers, not a repeat. */
  method NewKeyboardEvent(eventType: string, bubbles: bool, cancelable: bool) returns (e: KeyboardEvent)
    ensures fresh(e.base)
    ensures e.base.eventType == eventType && e.base.bubbles == bubbles && e.base.cancelable == cancelable
    ensures e.base.phase == PhaseNone && !e.base.defaultPrevented && !e.base.propagationStopped && !e.base.immediatePropagationStopped
    ensures e.key == "" && e.code == "" && e.keyCode == 0 && e.charCode == 0
    ensures !e.ctrlKey && !e.shiftKey && !e.altKey && !e.metaKey && !e.repeat
  {
    var base := new Event(eventType, bubbles, cancelable);
    e := KeyboardEvent(base, "", "", 0, 0, false, false, false, false, false);
  }

  /** `InputEvent::new`: no data, an empty input type, not composing. */
  method NewInputEvent(eventType: string, bubbles: bool, cancelable: bool) returns (e: InputEvent)
    ensures fresh(e.base)
    ensures e.base.eventType == eventType && e.base.bubbles == bubbles && e.base.cancelable == cancelable
    ensures e.base.phase == PhaseNone && !e.base.defaultPrevented && !e.base.propagationStopped && !e.base.immediatePropagationStopped
    ensures e.data == None && e.inputType == "" && !e.isComposing
  {
    var base := new Event(eventType, bubbles, cancelable);
    e := InputEvent(base, None, "", false);
  }

  /** `create_click_event`: a bubbling, cancelable click at (x, y) with the button and its mask. */
  method CreateClickEvent(x: real, y: real, button: int) returns (e: MouseEvent)
    requires button < 32
    ensures fresh(e.base)
    ensures e.base.eventType == "click" && e.base.bubbles && e.base.cancelable
    ensures e.base.phase == PhaseNone && !e.base.defaultPrevented && !e.base.propagationStopped && !e.base.immediatePropagationStopped
    ensures e.clientX == x && e.clientY == y && e.screenX == 0.0 && e.screenY == 0.0
    ensures e.button == button && e.buttons == ButtonMask(button)
    ensures !e.ctrlKey && !e.shiftKey && !e.altKey && !e.metaKey
  {
    e := NewMouseEvent("click", true, true);
    e := e.(clientX := x, clientY := y, button := button, buttons := ButtonMask(button));
  }

  /** `create_mouseover_event`: a bubbling, cancelable mouseover at (x, y), no button. */
  method CreateMouseoverEvent(x: real, y: real) returns (e: MouseEvent)
    ensures fresh(e.base)
    ensures e.base.eventType == "mouseover" && e.base.bubbles && e.base.cancelable
    ensures e.base.phase == PhaseNone && !e.base.defaultPrevented && !e.base.propagationStopped && !e.base.immediatePropagationStopped
    ensures e.clientX == x && e.clientY == y && e.button == -1 && e.buttons == 0
  {
    e := NewMouseEvent("mouseover", true, true);
    e := e.(clientX := x, clientY := y);
  }

  /** `create_mouseout_event`: a bubbling, cancelable mouseout at (x, y), no button. */
  method CreateMouseoutEvent(x: real, y: real) returns (e: MouseEvent)
    ensures fresh(e.base)
    ensures e.base.eventType == "mouseout" && e.base.bubbles && e.base.cancelable
    ensures e.base.phase == PhaseNone && !e.base.defaultPrevented && !e.base.propagationStopped && !e.base.immediatePropagationStopped
    ensures e.clientX == x && e.clientY == y && e.button == -1 && e.buttons == 0
  {
    e := NewMouseEvent("mouseout", true, true);
    e := e.(clientX := x, clientY := y);
  }

  /** `create_input_event`: a bubbling, cancelable input event with the data and the input type. */
  method CreateInputEvent(data: Option<string>, inputType: string) returns (e: InputEvent)
    ensures fresh(e.base)
    ensures e.base.eventType == "input" && e.base.bubbles && e.base.cancelable
    ensures e.base.phase == PhaseNone && !e.base.defaultPrevented && !e.base.propagationStopped && !e.base.immediatePropagationStopped
    ensures e.data == data && e.inputType == inputType && !e.isComposing
  {
    e := NewInputEvent("input", true, true);
    e := e.(data := data, inputType := inputType);
  }

  /** `create_focus_event`: focus neither bubbles nor can be cancelled. */
  method CreateFocusEvent() returns (e: FocusEvent)
    ensures fresh(e.base)
    ensures e.base.eventType == "focus" && !e.base.bubbles && !e.base.cancelable
    ensures e.base.phase == PhaseNone && !e.base.defaultPrevented && !e.base.propagationStopped && !e.base.immediatePropagationStopped
  {
    var base := new Event("focus", false, false);
    e := FocusEvent(base);
  }

  /** `create_blur_event`: blur neither bubbles nor can be cancelled. */
  method CreateBlurEvent() returns (e: FocusEvent)
    ensures fresh(e.base)
    ensures e.base.eventType == "blur" && !e.base.bubbles && !e.base.cancelable
    ensures e.base.phase == PhaseNone && !e.base.defaultPrevented && !e.base.propagationStopped && !e.base.immediatePropagationStopped
  {
    var base := new Event("blur", false, false);
    e := FocusEvent(base);
  }

  /** `create_keydown_event`: a bubbling, cancelable keydown with the key, the code and the key code. */
  method CreateKeydownEvent(key: string, code: string, keyCode: nat) returns (e: KeyboardEvent)
    ensures fresh(e.base)
    ensures e.base.eventType == "keydown" && e.base.bubbles && e.base.cancelable
    ensures e.base.phase == PhaseNone && !e.base.defaultPrevented && !e.base.propagationStopped && !e.base.immediatePropagationStopped
    ensures e.key == key && e.code == code && e.keyCode == keyCode && e.charCode == 0 && !e.repeat
  {
    e := NewKeyboardEvent("keydown", true, true);
    e := e.(key := key, code := code, keyCode := keyCode);
  }

  /** `create_keyup_event`: a bubbling, cancelable keyup with the key, the code and the key code. */
  method CreateKeyupEvent(key: string, code: string, keyCode: nat) returns (e: KeyboardEvent)
    ensures fresh(e.base)
    ensures e.base.eventType == "keyup" && e.base.bubbles && e.base.cancelable
    ensures e.base.phase == PhaseNone && !e.base.defaultPrevented && !e.base.propagationStopped && !e.base.immediatePropagationStopped
    ensures e.key == key && e.code == code && e.keyCode == keyCode && e.charCode == 0 && !e.repeat
  {
    e := NewKeyboardEvent("keyup", true, true);
    e := e.(key := key, code := code, keyCode := keyCode);
  }

  /** `create_custom_event`: a bubbling, cancelable event of any type carrying the detail. */
  method CreateCustomEvent(eventType: string, detail: Option<string>) returns (e: CustomEvent)
    ensures fresh(e.base)
    ensures e.base.eventType == eventType && e.base.bubbles && e.base.cancelable
    ensures e.base.phase == PhaseNone && !e.base.defaultPrevented && !e.base.propagationStopped && !e.base.immediatePropagationStopped
    ensures e.detail == detail
  {
    var base := new Event(eventType, true, true);
    e := CustomEvent(base, detail);
  }
}
