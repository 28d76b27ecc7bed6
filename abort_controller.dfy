/**
 * The Rust side of `AbortController` and `AbortSignal`
 * (js_integration/src/abort_controller.rs). A signal's `aborted`, `reason`
 * and `listeners` sit behind `Arc<Mutex<…>>`, so every clone of a signal,
 * or of a controller holding it, sees the same state. Here a signal is an
 * object and a controller a value holding a reference to it, so copies
 * share the signal exactly as the clones do.
 */
module AbortControl {
  import opened Wrappers

  /** A JavaScript value used as an abort reason. */
  datatype JsValue = Undefined | JsString(text: string) | JsNumber(number: int) | JsObjectValue(handle: nat)

  /** A JavaScript object registered as a listener; objects are equal when they are the same object. */
  datatype JsObject = JsObject(handle: nat)

  // ---------------------------------------------------------------------
  // Signal state
  // ---------------------------------------------------------------------

  /** The shared state of a signal. */
  datatype SignalState = SignalState(aborted: bool, reason: Option<JsValue>, listeners: seq<JsObject>)

  /** `AbortSignal::new`: not aborted, no reason, no listeners. */
  const FreshSignal := SignalState(false, None, [])

  /** `AbortSignal::abort`: only the first call sets the flag and the reason. */
  function AbortSignalStep(s: SignalState, reason: JsValue): SignalState {
    if s.aborted then s else s.(aborted := true, reason := Some(reason))
  }

  /**
   * After an abort the signal is aborted; the first abort records its
   * reason, and every later abort changes nothing, whatever its reason.
   * Listeners are untouched.
   */
  lemma FirstAbortWins(s: SignalState, r1: JsValue, r2: JsValue)
    ensures AbortSignalStep(s, r1).aborted
    ensures !s.aborted ==> AbortSignalStep(s, r1).reason == Some(r1)
    ensures s.aborted ==> AbortSignalStep(s, r1) == s
    ensures AbortSignalStep(AbortSignalStep(s, r1), r2) == AbortSignalStep(s, r1)
    ensures AbortSignalStep(s, r1).listeners == s.listeners
  {
  }

  /** The listener list after `add_event_listener`. */
  function AddListener(ls: seq<JsObject>, l: JsObject): seq<JsObject> {
    ls + [l]
  }

  /** The listeners `retain` keeps when it keeps those for which `keep` holds. */
  function Retain(ls: seq<JsObject>, keep: JsObject -> bool): (r: seq<JsObject>)
    ensures |r| <= |ls|
    ensures forall x :: x in r <==> x in ls && keep(x)
  {
    if ls == [] then []
    else Retain(ls[..|ls| - 1], keep) + (if keep(ls[|ls| - 1]) then [ls[|ls| - 1]] else [])
  }

  /**
   * `remove_event_listener` as written: `retain` keeps a listener unless
   * `std::ptr::eq(l, &listener)`, which compares the address of a slot of
   * the vector with the address of the by-value argument. The two are
   * never the same place, so the test never holds.
   */
  function RemoveListenerAsWritten(ls: seq<JsObject>, listener: JsObject): seq<JsObject> {
    Retain(ls, l => !false)
  }

  /** `remove_event_listener` as intended: drop every registration of that object. */
  function RemoveListener(ls: seq<JsObject>, listener: JsObject): seq<JsObject> {
    Retain(ls, l => l != listener)
  }

  lemma {:induction false} RetainAll(ls: seq<JsObject>, keep: JsObject -> bool)
    requires forall x :: keep(x)
    ensures Retain(ls, keep) == ls
    decreases |ls|
  {
    if ls != [] {
      RetainAll(ls[..|ls| - 1], keep);
      assert ls[..|ls| - 1] + [ls[|ls| - 1]] == ls;
    }
  }

  /** As written, removing a listener leaves the list unchanged: a registered listener stays registered. */
  lemma RemoveListenerAsWrittenKeepsAll(ls: seq<JsObject>, listener: JsObject)
    ensures RemoveListenerAsWritten(ls, listener) == ls
    ensures listener in ls ==> listener in RemoveListenerAsWritten(ls, listener)
  {
    RetainAll(ls, l => !false);
  }

  /**
   * As intended, the removed listener is gone, every other listener stays,
   * and the others keep their order (removing from `ls + [x]` is removing
   * from `ls` and then adding `x` unless it is the removed one).
   */
  lemma RemoveListenerRemoves(ls: seq<JsObject>, listener: JsObject, x: JsObject)
    ensures listener !in RemoveListener(ls, listener)
    ensures x != listener ==> (x in RemoveListener(ls, listener) <==> x in ls)
    ensures RemoveListener(ls + [x], listener)
         == RemoveListener(ls, listener) + (if x != listener then [x] else [])
    ensures listener !in ls ==> RemoveListener(ls, listener) == ls
  {
    assert (ls + [x])[..|ls + [x]| - 1] == ls;
    if listener !in ls {
      RemoveAbsentKeepsAll(ls, listener);
    }
  }

  lemma {:induction false} RemoveAbsentKeepsAll(ls: seq<JsObject>, listener: JsObject)
    requires listener !in ls
    ensures RemoveListener(ls, listener) == ls
    decreases |ls|
  {
    if ls != [] {
      RemoveAbsentKeepsAll(ls[..|ls| - 1], listener);
      assert ls[..|ls| - 1] + [ls[|ls| - 1]] == ls;
    }
  }

  /** The registered listener of the source's removal example stays registered as written and goes away as intended. */
  lemma RemoveListenerDiscrepancy(l: JsObject)
    ensures RemoveListenerAsWritten([l], l) == [l]
    ensures RemoveListener([l], l) == []
  {
    RemoveListenerAsWrittenKeepsAll([l], l);
    RemoveListenerRemoves([l], l, l);
  }

  // ---------------------------------------------------------------------
  // Signal and controller objects
  // ---------------------------------------------------------------------

  /** `AbortSignal`: an id and the state its clones share. */
  class AbortSignal {
    const id: nat
    var aborted: bool
    var reason: Option<JsValue>
    var listeners: seq<JsObject>

    function State(): SignalState
      reads this
    {
      SignalState(aborted, reason, listeners)
    }

    /** `AbortSignal::new`. */
    constructor (id: nat)
      ensures this.id == id && State() == FreshSignal
    {
      this.id := id;
      aborted := false;
      reason := None;
      listeners := [];
    }

    /** `is_aborted`. */
    function IsAborted(): (b: bool)
      reads this
      ensures b == State().aborted
    {
      aborted
    }

    /** `get_reason`. */
    function GetReason(): (r: Option<JsValue>)
      reads this
      ensures r == State().reason
    {
      reason
    }

    /** `abort`. */
    method Abort(r: JsValue)
      modifies this
      ensures State() == AbortSignalStep(old(State()), r)
    {
      if !aborted {
        aborted := true;
        reason := Some(r);
      }
    }

    /** `add_event_listener`. */
    method AddEventListener(l: JsObject)
      modifies this
      ensures State() == old(State()).(listeners := AddListener(old(listeners), l))
    {
      listeners := listeners + [l];
    }

    /**
     * `remove_event_listener` as written: the address comparison never
     * holds, so every listener stays and the signal is unchanged.
     */
    method RemoveEventListener(l: JsObject)
      modifies this
      ensures State() == old(State()).(listeners := RemoveListenerAsWritten(old(listeners), l))
      ensures State() == old(State())
    {
      RemoveListenerAsWrittenKeepsAll(listeners, l);
      listeners := RemoveListenerAsWritten(listeners, l);
    }
  }

  /** `AbortController`: its id and its signal; copies share the signal. */
  datatype AbortController = AbortController(id: nat, signal: AbortSignal)

  /** `AbortController::new`: a fresh signal with the controller's id. */
  method NewController(id: nat) returns (c: AbortController)
    ensures c.id == id && c.signal.id == id
    ensures fresh(c.signal) && c.signal.State() == FreshSignal
  {
    var s := new AbortSignal(id);
    c := AbortController(id, s);
  }

  /** `AbortController::abort`: delegates to the signal. */
  method AbortControllerAbort(c: AbortController, r: JsValue)
    modifies c.signal
    ensures c.signal.State() == AbortSignalStep(old(c.signal.State()), r)
  {
    c.signal.Abort(r);
  }

  // ---------------------------------------------------------------------
  // The host
  // ---------------------------------------------------------------------

  /** `AbortControllerHost`: the last id issued and the live controllers by id. */
  class AbortControllerHost {
    var nextId: nat
    var controllers: map<nat, AbortController>

    /**
     * Every stored controller sits under its own id, which lies between 1
     * and the last id issued, and shares that id with its signal; no two
     * stored controllers share a signal.
     */
    predicate Valid()
      reads this
    {
      && (forall id :: id in controllers ==> 1 <= id <= nextId && controllers[id].id == id && controllers[id].signal.id == id)
      && (forall i, j :: i in controllers && j in controllers && i != j ==> controllers[i].signal != controllers[j].signal)
    }

    /** `AbortControllerHost::new`. */
    constructor ()
      ensures Valid() && nextId == 0 && controllers == map[]
    {
      nextId := 0;
      controllers := map[];
    }

    /** `create_controller`: the next id, a fresh controller, stored and returned. */
    method CreateController() returns (c: AbortController)
      requires Valid()
      modifies this
      ensures Valid()
      ensures nextId == old(nextId) + 1 && c.id == nextId && c.signal.id == c.id
      ensures old(nextId) + 1 !in old(controllers)
      ensures controllers == old(controllers)[c.id := c]
      ensures fresh(c.signal) && c.signal.State() == FreshSignal
    {
      nextId := nextId + 1;
      var id := nextId;
      c := NewController(id);
      controllers := controllers[id := c];
    }

    /** `get_controller`. */
    function GetController(id: nat): (r: Option<AbortController>)
      reads this
      ensures r.Some? <==> id in controllers
      ensures r.Some? ==> r.value == controllers[id]
    {
      if id in controllers then Some(controllers[id]) else None
    }

    /** `remove_controller`: the stored controller, if any, taken out of the map. */
    method RemoveController(id: nat) returns (r: Option<AbortController>)
      requires Valid()
      modifies this
      ensures Valid()
      ensures r == old(GetController(id))
      ensures controllers == old(controllers) - {id} && nextId == old(nextId)
    {
      r := GetController(id);
      controllers := controllers - {id};
    }
  }

  /**
   * A controller created by the host and then aborted is seen aborted,
   * with that reason, through the host's copy; every other stored
   * controller's signal is untouched. The host issues ids 1, 2, … in turn.
   */
  method AbortSeenThroughHost(host: AbortControllerHost, reason: JsValue) returns (c: AbortController, seen: Option<AbortController>)
    requires host.Valid()
    modifies host
    ensures host.Valid() && c.id == old(host.nextId) + 1
    ensures seen == Some(c) && seen.value.signal.IsAborted() && seen.value.signal.GetReason() == Some(reason)
    ensures forall id :: id in old(host.controllers) ==>
              id in host.controllers && host.controllers[id] == old(host.controllers[id]) && unchanged(host.controllers[id].signal)
  {
    c := host.CreateController();
    AbortControllerAbort(c, reason);
    seen := host.GetController(c.id);
  }

  /** Removing a controller hands it back once; a second removal, and any later lookup, finds nothing. */
  method RemoveTwice(host: AbortControllerHost, id: nat) returns (first: Option<AbortController>, second: Option<AbortController>)
    requires host.Valid()
    modifies host
    ensures host.Valid()
    ensures first == old(host.GetController(id)) && second == None && host.GetController(id) == None
  {
    first := host.RemoveController(id);
    second := host.RemoveController(id);
  }
}
