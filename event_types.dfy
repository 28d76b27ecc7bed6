/**
 * Events, event flags and the per-target listener registry.
 *
 * Listener callbacks are JavaScript function references that the engine never
 * invokes, so a listener is kept as its callback text, its options and its id.
 */
module EventTypes {
  import opened MapSum

  datatype EventPhase = PhaseNone | Capturing | AtTarget | Bubbling

  datatype ListenerOptions = ListenerOptions(capture: bool, once: bool, passive: bool)

  /** `EventListenerOptions::default()`: no capture, not once, not passive. */
  const DefaultOptions := ListenerOptions(false, false, false)

  datatype EventListener = EventListener(callback: string, options: ListenerOptions, id: nat)

  /** An event being dispatched: its type, its phase and its flags. */
  class Event {
    var eventType: string
    var phase: EventPhase
    var bubbles: bool
    var cancelable: bool
    var defaultPrevented: bool
    var propagationStopped: bool
    var immediatePropagationStopped: bool

    /** `Event::new`: phase None, every flag false, the given bubbles and cancelable values. */
    constructor (eventType: string, bubbles: bool, cancelable: bool)
      ensures this.eventType == eventType && this.bubbles == bubbles && this.cancelable == cancelable
      ensures phase == PhaseNone
      ensures !defaultPrevented && !propagationStopped && !immediatePropagationStopped
    {
      this.eventType := eventType;
      this.bubbles := bubbles;
      this.cancelable := cancelable;
      phase := PhaseNone;
      defaultPrevented := false;
      propagationStopped := false;
      immediatePropagationStopped := false;
    }

    /** `prevent_default`: only a cancelable event records it. */
    method PreventDefault()
      modifies this`defaultPrevented
      ensures defaultPrevented == (old(defaultPrevented) || cancelable)
    {
      if cancelable {
        defaultPrevented := true;
      }
    }

    method StopPropagation()
      modifies this`propagationStopped
      ensures propagationStopped
    {
      propagationStopped := true;
    }

    /** `stop_immediate_propagation` sets both stop flags. */
    method StopImmediatePropagation()
      modifies this`propagationStopped, this`immediatePropagationStopped
      ensures propagationStopped && immediatePropagationStopped
    {
      propagationStopped := true;
      immediatePropagationStopped := true;
    }
  }

  // ---------------------------------------------------------------------
  // Listener lists
  // ---------------------------------------------------------------------

  function CaptureOnly(ls: seq<EventListener>): seq<EventListener> {
    if ls == [] then []
    else (if ls[0].options.capture then [ls[0]] else []) + CaptureOnly(ls[1..])
  }

  function BubbleOnly(ls: seq<EventListener>): seq<EventListener> {
    if ls == [] then []
    else (if !ls[0].options.capture then [ls[0]] else []) + BubbleOnly(ls[1..])
  }

  /**
   * The capture listeners and the bubble listeners partition a listener list:
   * together they have its listeners, and so its length.
   */
  lemma {:induction false} CaptureBubblePartition(ls: seq<EventListener>)
    ensures multiset(CaptureOnly(ls)) + multiset(BubbleOnly(ls)) == multiset(ls)
    ensures |CaptureOnly(ls)| + |BubbleOnly(ls)| == |ls|
  {
    if ls != [] {
      var t := ls[1..];
      CaptureBubblePartition(t);
      assert ls == [ls[0]] + t;
      assert multiset(ls) == multiset([ls[0]]) + multiset(t);
      if ls[0].options.capture {
        assert CaptureOnly(ls) == [ls[0]] + CaptureOnly(t);
        assert BubbleOnly(ls) == BubbleOnly(t);
        assert multiset(CaptureOnly(ls)) == multiset([ls[0]]) + multiset(CaptureOnly(t));
      } else {
        assert CaptureOnly(ls) == CaptureOnly(t);
        assert BubbleOnly(ls) == [ls[0]] + BubbleOnly(t);
        assert multiset(BubbleOnly(ls)) == multiset([ls[0]]) + multiset(BubbleOnly(t));
      }
    }
    assert |multiset(CaptureOnly(ls)) + multiset(BubbleOnly(ls))| == |multiset(ls)|;
  }

  /** Each side of the partition holds only listeners of the list with its own capture flag. */
  lemma {:induction false} CaptureBubbleMembers(ls: seq<EventListener>)
    ensures forall l :: l in CaptureOnly(ls) ==> l in ls && l.options.capture
    ensures forall l :: l in BubbleOnly(ls) ==> l in ls && !l.options.capture
  {
    if ls != [] {
      CaptureBubbleMembers(ls[1..]);
    }
  }

  /** Which listeners a target runs in each phase: capture ones while capturing, all at the target, the others while bubbling. */
  predicate RunsInPhase(phase: EventPhase, l: EventListener) {
    match phase
    case Capturing => l.options.capture
    case AtTarget => true
    case Bubbling => !l.options.capture
    case PhaseNone => false
  }

  /** Ids of the listeners of `ls` that run in `phase`, in registration order. */
  function RunIds(ls: seq<EventListener>, phase: EventPhase): seq<nat> {
    if ls == [] then []
    else (if RunsInPhase(phase, ls[0]) then [ls[0].id] else []) + RunIds(ls[1..], phase)
  }

  lemma {:induction false} RunIdsAppend(a: seq<EventListener>, b: seq<EventListener>, phase: EventPhase)
    ensures RunIds(a + b, phase) == RunIds(a, phase) + RunIds(b, phase)
  {
    if a == [] {
      assert a + b == b;
    } else {
      assert (a + b)[1..] == a[1..] + b;
      RunIdsAppend(a[1..], b, phase);
    }
  }

  function Ids(ls: seq<EventListener>): (r: seq<nat>)
    ensures |r| == |ls| && forall i :: 0 <= i < |ls| ==> r[i] == ls[i].id
  {
    if ls == [] then [] else [ls[0].id] + Ids(ls[1..])
  }

  /**
   * The per-phase filter written inline by the element and the event dispatcher
   * selects the same listeners as the registry's capture and bubble lists.
   */
  lemma {:induction false} RunIdsByPhase(ls: seq<EventListener>)
    ensures RunIds(ls, Capturing) == Ids(CaptureOnly(ls))
    ensures RunIds(ls, Bubbling) == Ids(BubbleOnly(ls))
    ensures RunIds(ls, AtTarget) == Ids(ls)
    ensures RunIds(ls, PhaseNone) == []
  {
    if ls != [] {
      RunIdsByPhase(ls[1..]);
    }
  }

  /** The first element of a sequence, as a sequence of at most one element. */
  function Take1(s: seq<nat>): (r: seq<nat>)
    ensures |r| <= 1
  {
    if s == [] then [] else [s[0]]
  }

  /**
   * The listeners a target runs in one phase: those of the phase in order,
   * or only the first of them once the immediate-stop flag is set (the flag is
   * checked after each listener runs).
   */
  function RunUntilStopped(ls: seq<EventListener>, phase: EventPhase, immediate: bool): (r: seq<nat>)
    ensures !immediate ==> r == RunIds(ls, phase)
    ensures immediate ==> |r| <= 1 && (r == [] <==> RunIds(ls, phase) == [])
    ensures immediate && r != [] ==> r[0] == RunIds(ls, phase)[0]
  {
    if immediate then Take1(RunIds(ls, phase)) else RunIds(ls, phase)
  }

  /** The number of listeners of each event type. */
  function Lengths(m: map<string, seq<EventListener>>): map<string, nat> {
    map t | t in m :: |m[t]|
  }

  /** `total_listener_count`: the number of listeners over all event types. */
  ghost function TotalCount(m: map<string, seq<EventListener>>): nat {
    Sum(Lengths(m))
  }

  /** Replacing one list changes the total by the difference of the lengths. */
  lemma TotalCountUpdate(m: map<string, seq<EventListener>>, k: string, v: seq<EventListener>)
    ensures TotalCount(m[k := v]) + (if k in m then |m[k]| else 0) == TotalCount(m) + |v|
  {
    assert Lengths(m[k := v]) == Lengths(m)[k := |v|];
    SumUpdate(Lengths(m), k, |v|);
  }

  /** The list without its first listener whose id is `id` (unchanged when there is none). */
  function WithoutId(ls: seq<EventListener>, id: nat): seq<EventListener> {
    if ls == [] then []
    else if ls[0].id == id then ls[1..]
    else [ls[0]] + WithoutId(ls[1..], id)
  }

  /** The registry contents after `add_listener` appends `l` to type `t`'s list. */
  function Appended(m: map<string, seq<EventListener>>, t: string, l: EventListener): map<string, seq<EventListener>> {
    m[t := (if t in m then m[t] else []) + [l]]
  }

  /** The registry contents after `remove_listener(t, id)`. */
  function Unregistered(m: map<string, seq<EventListener>>, t: string, id: nat): map<string, seq<EventListener>> {
    if t in m then m[t := WithoutId(m[t], id)] else m
  }

  /** Removing by id cuts the list at the first listener with that id. */
  lemma {:induction false} WithoutIdAt(ls: seq<EventListener>, id: nat, p: nat)
    requires p < |ls| && ls[p].id == id && forall j :: 0 <= j < p ==> ls[j].id != id
    ensures WithoutId(ls, id) == ls[..p] + ls[p + 1..]
  {
    if p > 0 {
      WithoutIdAt(ls[1..], id, p - 1);
      assert ls[1..][..p - 1] == ls[1..p];
      assert ls[1..][p..] == ls[p + 1..];
      assert [ls[0]] + ls[1..p] == ls[..p];
    }
  }

  /** Removing an id that no listener has changes nothing. */
  lemma {:induction false} WithoutIdAbsent(ls: seq<EventListener>, id: nat)
    requires forall l :: l in ls ==> l.id != id
    ensures WithoutId(ls, id) == ls
  {
    if ls != [] {
      assert ls[0] in ls;
      WithoutIdAbsent(ls[1..], id);
    }
  }

  /** When ids are unique within the list, no listener with that id remains after removal. */
  lemma {:induction false} WithoutIdRemovesAll(ls: seq<EventListener>, id: nat)
    requires forall i, j :: 0 <= i < j < |ls| ==> ls[i].id != ls[j].id
    ensures forall l :: l in WithoutId(ls, id) ==> l.id != id
    ensures |WithoutId(ls, id)| == |ls| - (if exists l :: l in ls && l.id == id then 1 else 0)
  {
    if ls != [] {
      assert forall i, j :: 0 <= i < j < |ls[1..]| ==> ls[1..][i].id != ls[1..][j].id by {
        forall i, j | 0 <= i < j < |ls[1..]| ensures ls[1..][i].id != ls[1..][j].id {
          assert ls[1..][i] == ls[i + 1] && ls[1..][j] == ls[j + 1];
        }
      }
      WithoutIdRemovesAll(ls[1..], id);
      if ls[0].id == id {
        forall l | l in ls[1..] ensures l.id != id {
          var k :| 0 <= k < |ls[1..]| && ls[1..][k] == l;
          assert ls[k + 1] == l;
        }
      } else {
        assert (exists l :: l in ls && l.id == id) == (exists l :: l in ls[1..] && l.id == id) by {
          if exists l :: l in ls && l.id == id {
            var l :| l in ls && l.id == id;
            assert l != ls[0];
            var k :| 0 <= k < |ls| && ls[k] == l;
            assert l in ls[1..] by { assert ls[1..][k - 1] == l; }
          }
        }
      }
    }
  }

  /** The id of the listener at position `i` of the list for `t`. */
  function IdAt(m: map<string, seq<EventListener>>, t: string, i: nat): nat
    requires t in m && i < |m[t]|
  {
    m[t][i].id
  }

  /** Listener ids are positive, below the counter and unique across all event types. */
  ghost predicate RegistryOk(m: map<string, seq<EventListener>>, nextId: nat) {
    (forall t, i: nat :: t in m && i < |m[t]| ==> 0 < IdAt(m, t, i) < nextId)
    && (forall t1, t2, i: nat, j: nat ::
          (t1 in m && t2 in m && i < |m[t1]| && j < |m[t2]| && (t1 != t2 || i != j))
          ==> IdAt(m, t1, i) != IdAt(m, t2, j))
  }

  /** Appending a listener with the counter's id and moving the counter on keeps the ids unique. */
  lemma RegistryOkAppend(m: map<string, seq<EventListener>>, nextId: nat, k: string, l: EventListener)
    requires RegistryOk(m, nextId) && l.id == nextId && nextId > 0
    ensures var ls := if k in m then m[k] else [];
      RegistryOk(m[k := ls + [l]], nextId + 1)
  {
    var ls: seq<EventListener> := if k in m then m[k] else [];
    var m': map<string, seq<EventListener>> := m[k := ls + [l]];
    forall t: string, i: nat | t in m' && i < |m'[t]| ensures 0 < IdAt(m', t, i) < nextId + 1 {
      if t != k || i < |ls| { assert IdAt(m', t, i) == IdAt(m, t, i); }
    }
    forall t1: string, t2: string, i: nat, j: nat | t1 in m' && t2 in m' && i < |m'[t1]| && j < |m'[t2]| && (t1 != t2 || i != j)
      ensures IdAt(m', t1, i) != IdAt(m', t2, j)
    {
      if t1 != k || i < |ls| { assert IdAt(m', t1, i) == IdAt(m, t1, i) < nextId; }
      if t2 != k || j < |ls| { assert IdAt(m', t2, j) == IdAt(m, t2, j) < nextId; }
    }
  }

  /** Removing the listener at position `p` of one list keeps the ids unique. */
  lemma RegistryOkRemoveAt(m: map<string, seq<EventListener>>, nextId: nat, k: string, p: nat)
    requires RegistryOk(m, nextId) && k in m && p < |m[k]|
    ensures RegistryOk(m[k := m[k][..p] + m[k][p + 1..]], nextId)
  {
    var ls := m[k];
    var rest := ls[..p] + ls[p + 1..];
    var m': map<string, seq<EventListener>> := m[k := rest];
    assert forall i :: 0 <= i < |rest| ==> rest[i] == ls[if i < p then i else i + 1];
    forall t: string, i: nat | t in m' && i < |m'[t]| ensures 0 < IdAt(m', t, i) < nextId {
      var i' := if t == k && i >= p then i + 1 else i;
      assert IdAt(m', t, i) == IdAt(m, t, i');
    }
    forall t1: string, t2: string, i: nat, j: nat | t1 in m' && t2 in m' && i < |m'[t1]| && j < |m'[t2]| && (t1 != t2 || i != j)
      ensures IdAt(m', t1, i) != IdAt(m', t2, j)
    {
      var i' := if t1 == k && i >= p then i + 1 else i;
      var j' := if t2 == k && j >= p then j + 1 else j;
      assert IdAt(m', t1, i) == IdAt(m, t1, i');
      assert IdAt(m', t2, j) == IdAt(m, t2, j');
    }
  }

  /**
   * `EventListenerRegistry`: the listeners of one target, by event type, and
   * the counter that gives each listener its id.
   */
  class EventListenerRegistry {
    var listeners: map<string, seq<EventListener>>
    var nextId: nat

    ghost predicate Valid()
      reads this
    {
      nextId > 0 && RegistryOk(listeners, nextId)
    }

    constructor ()
      ensures Valid() && listeners == map[] && nextId == 1
    {
      listeners := map[];
      nextId := 1;
    }

    /** `get_listeners`: the type's list in registration order; empty for an unknown type. */
    function GetListeners(eventType: string): seq<EventListener>
      reads this
    {
      if eventType in listeners then listeners[eventType] else []
    }

    function GetCaptureListeners(eventType: string): seq<EventListener>
      reads this
    {
      CaptureOnly(GetListeners(eventType))
    }

    function GetBubbleListeners(eventType: string): seq<EventListener>
      reads this
    {
      BubbleOnly(GetListeners(eventType))
    }

    ghost function TotalListenerCount(): nat
      reads this
    {
      TotalCount(listeners)
    }

    /**
     * `add_listener`: the listener gets the current counter as its id and is
     * appended to its type's list; the total grows by one.
     */
    method AddListener(eventType: string, options: ListenerOptions, callback: string) returns (id: nat)
      requires Valid()
      modifies this
      ensures Valid()
      ensures id == old(nextId) && nextId == id + 1
      ensures listeners == Appended(old(listeners), eventType, EventListener(callback, options, id))
      ensures TotalListenerCount() == old(TotalListenerCount()) + 1
    {
      id := nextId;
      var l := EventListener(callback, options, id);
      var ls := GetListeners(eventType);
      TotalCountUpdate(listeners, eventType, ls + [l]);
      RegistryOkAppend(listeners, nextId, eventType, l);
      listeners := listeners[eventType := ls + [l]];
      nextId := nextId + 1;
    }

    /**
     * `remove_listener`: removes the listener with that id from that type's
     * list, keeping the order of the rest, and reports whether it was there.
     */
    method RemoveListener(eventType: string, listenerId: nat) returns (found: bool)
      requires Valid()
      modifies this`listeners
      ensures Valid()
      ensures found == exists l :: l in old(GetListeners(eventType)) && l.id == listenerId
      ensures !found ==> listeners == old(listeners)
      ensures found ==> eventType in old(listeners)
      ensures found ==>
        exists p :: 0 <= p < |old(listeners)[eventType]| && old(listeners)[eventType][p].id == listenerId
          && listeners == old(listeners)[eventType := old(listeners)[eventType][..p] + old(listeners)[eventType][p + 1..]]
      ensures listeners == Unregistered(old(listeners), eventType, listenerId)
      ensures TotalListenerCount() == old(TotalListenerCount()) - (if found then 1 else 0)
    {
      found := false;
      if eventType in listeners {
        var ls := listeners[eventType];
        var pos := 0;
        while pos < |ls| && ls[pos].id != listenerId
          invariant 0 <= pos <= |ls|
          invariant forall j :: 0 <= j < pos ==> ls[j].id != listenerId
        {
          pos := pos + 1;
        }
        if pos < |ls| {
          var rest := ls[..pos] + ls[pos + 1..];
          WithoutIdAt(ls, listenerId, pos);
          RegistryOkRemoveAt(listeners, nextId, eventType, pos);
          TotalCountUpdate(listeners, eventType, rest);
          listeners := listeners[eventType := rest];
          found := true;
        } else {
          assert forall l :: l in ls ==> l.id != listenerId;
          WithoutIdAbsent(ls, listenerId);
          assert listeners[eventType := ls] == listeners;
        }
      }
    }

    /** `clear`: no listeners of any type; the counter is kept. */
    method Clear()
      requires Valid()
      modifies this`listeners
      ensures Valid() && listeners == map[] && TotalListenerCount() == 0
    {
      listeners := map[];
      assert Lengths(listeners) == map[];
    }
  }
}
