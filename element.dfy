/**
 * `Element`: an event target wrapping a DOM node, with its own attribute map,
 * `id` field and class list, which the methods below keep in step.
 */
module DomElement {
  import opened Wrappers
  import opened Text
  import opened Dom
  import opened EventTypes

  /** Removes every occurrence of `name` (`Vec::retain`). */
  function Without(cs: seq<string>, name: string): (r: seq<string>)
    ensures name !in r
    ensures forall c :: c in r <==> c in cs && c != name
    ensures |r| <= |cs|
  {
    if cs == [] then []
    else (if cs[0] == name then [] else [cs[0]]) + Without(cs[1..], name)
  }

  predicate NoDuplicates(cs: seq<string>) {
    forall i, j :: 0 <= i < j < |cs| ==> cs[i] != cs[j]
  }

  /** Removing a name keeps the remaining names in their order and introduces no duplicate. */
  lemma {:induction false} WithoutKeepsNoDuplicates(cs: seq<string>, name: string)
    requires NoDuplicates(cs)
    ensures NoDuplicates(Without(cs, name))
  {
    if cs != [] {
      WithoutKeepsNoDuplicates(cs[1..], name);
      var r := Without(cs[1..], name);
      assert cs[0] !in cs[1..];
      assert cs[0] !in r;
    }
  }

  lemma WithoutKeepsTokens(cs: seq<string>, name: string)
    requires AllTokens(cs)
    ensures AllTokens(Without(cs, name))
  {
    var r := Without(cs, name);
    forall i | 0 <= i < |r| ensures IsToken(r[i]) {
      assert r[i] in cs;
    }
  }

  /** The class attribute's value, with an absent attribute read as the empty string. */
  function ClassValue(attributes: map<string, string>): string {
    if "class" in attributes then attributes["class"] else ""
  }

  /** The join of tokens is empty exactly when there are none. */
  lemma JoinTokensEmpty(cs: seq<string>)
    requires AllTokens(cs)
    ensures (Join(cs, " ") == []) == (cs == [])
  {
    if |cs| == 1 {
      assert IsToken(cs[0]);
    } else if |cs| > 1 {
      assert IsToken(cs[0]);
      assert |Join(cs, " ")| >= |cs[0]|;
    }
  }

  class Element {
    /** The wrapped node: its id, kind and children. */
    var nodeId: nat
    var nodeKind: NodeKind
    var children: seq<Node>
    var eventListeners: EventListenerRegistry
    var attributes: map<string, string>
    var id: Option<string>
    var classList: seq<string>

    ghost predicate Valid()
      reads this, eventListeners
    {
      eventListeners.Valid()
    }

    /** The class list is the whitespace split of the `class` attribute (empty when absent). */
    ghost predicate ClassesInSync()
      reads this
    {
      SplitWhitespace(ClassValue(attributes)) == classList
    }

    /** `Element::new`: no attributes, no id, no classes, an empty listener registry. */
    constructor (node: Node)
      ensures Valid() && fresh(eventListeners)
      ensures nodeId == node.id && nodeKind == node.kind && children == node.children
      ensures attributes == map[] && id == None && classList == []
      ensures eventListeners.listeners == map[]
      ensures ClassesInSync()
    {
      nodeId := node.id;
      nodeKind := node.kind;
      children := node.children;
      eventListeners := new EventListenerRegistry();
      attributes := map[];
      id := None;
      classList := [];
    }

    function TagName(): (r: Option<string>)
      reads this
      ensures r.Some? <==> nodeKind.Element?
      ensures r.Some? ==> r.value == nodeKind.tagName
    {
      match nodeKind
      case Element(tag, _) => Some(tag)
      case _ => None
    }

    function GetAttribute(name: string): (r: Option<string>)
      reads this
      ensures r.Some? <==> name in attributes
      ensures r.Some? ==> r.value == attributes[name]
    {
      if name in attributes then Some(attributes[name]) else None
    }

    /**
     * `set_attribute`: stores the value; `id` also sets the id field, and
     * `class` replaces the class list by the value's whitespace split.
     */
    method SetAttribute(name: string, value: string)
      modifies this`attributes, this`id, this`classList
      ensures attributes == old(attributes)[name := value]
      ensures id == (if name == "id" then Some(value) else old(id))
      ensures classList == (if name == "class" then SplitWhitespace(value) else old(classList))
      ensures name == "class" || old(ClassesInSync()) ==> ClassesInSync()
    {
      attributes := attributes[name := value];
      if name == "id" {
        id := Some(value);
      } else if name == "class" {
        classList := SplitWhitespace(value);
      }
    }

    /** `remove_attribute`: `id` clears the id field and `class` empties the class list. */
    method RemoveAttribute(name: string)
      modifies this`attributes, this`id, this`classList
      ensures attributes == old(attributes) - {name}
      ensures id == (if name == "id" then None else old(id))
      ensures classList == (if name == "class" then [] else old(classList))
      ensures name == "class" || old(ClassesInSync()) ==> ClassesInSync()
    {
      attributes := attributes - {name};
      if name == "id" {
        id := None;
      } else if name == "class" {
        classList := [];
      }
    }

    /** `has_class`: membership in the class list. */
    function HasClass(className: string): (r: bool)
      reads this
      ensures r <==> exists i :: 0 <= i < |classList| && classList[i] == className
    {
      className in classList
    }

    /**
     * `update_class_attribute`: the attribute becomes the space-join of the
     * class list, or is removed when that join is empty.
     */
    method UpdateClassAttribute()
      modifies this`attributes
      ensures var v := Join(classList, " ");
        attributes == if v == [] then old(attributes) - {"class"} else old(attributes)["class" := v]
      ensures AllTokens(classList) ==> ClassesInSync()
    {
      var v := Join(classList, " ");
      if v == [] {
        attributes := attributes - {"class"};
      } else {
        attributes := attributes["class" := v];
      }
      if AllTokens(classList) {
        JoinTokensEmpty(classList);
        SplitJoinRoundTrip(classList);
      }
    }

    /** `add_class`: appends the name only when absent, then rewrites the attribute. */
    method AddClass(className: string)
      modifies this`classList, this`attributes
      ensures classList == if className in old(classList) then old(classList) else old(classList) + [className]
      ensures className in classList
      ensures NoDuplicates(old(classList)) ==> NoDuplicates(classList)
      ensures old(ClassesInSync()) && IsToken(className) ==> ClassesInSync()
      ensures className in old(classList) ==> attributes == old(attributes)
      ensures className !in old(classList) ==>
        var v := Join(classList, " ");
        attributes == if v == [] then old(attributes) - {"class"} else old(attributes)["class" := v]
    {
      if className !in classList {
        if ClassesInSync() && IsToken(className) {
          SplitWhitespaceTokens(ClassValue(attributes));
        }
        classList := classList + [className];
        UpdateClassAttribute();
      }
    }

    /** `remove_class`: drops every occurrence of the name, then rewrites the attribute. */
    method RemoveClass(className: string)
      modifies this`classList, this`attributes
      ensures classList == Without(old(classList), className)
      ensures className !in classList
      ensures NoDuplicates(old(classList)) ==> NoDuplicates(classList)
      ensures old(ClassesInSync()) ==> ClassesInSync()
      ensures var v := Join(classList, " ");
        attributes == if v == [] then old(attributes) - {"class"} else old(attributes)["class" := v]
    {
      if ClassesInSync() {
        SplitWhitespaceTokens(ClassValue(attributes));
        WithoutKeepsTokens(classList, className);
      }
      if NoDuplicates(classList) {
        WithoutKeepsNoDuplicates(classList, className);
      }
      classList := Without(classList, className);
      UpdateClassAttribute();
    }

    /** The wrapped node as a value tree. */
    function AsNode(): Node
      reads this
    {
      Node(nodeId, nodeKind, children)
    }

    /** `inner_text` (and the simplified `inner_html`): the node's text content. */
    function InnerText(): string
      reads this
    {
      TextContent(AsNode())
    }

    /**
     * `set_inner_text` (and the simplified `set_inner_html`): the only child is
     * a new text node with id `node.id + 1000`.
     */
    method SetInnerText(text: string)
      modifies this`children
      ensures children == [Node(nodeId + 1000, Text(text), [])]
      ensures !nodeKind.Text? ==> InnerText() == text
    {
      children := [Node(nodeId + 1000, Text(text), [])];
      assert ForestTextContent(children) == text + ForestTextContent([]);
    }

    method AddEventListener(eventType: string, listener: EventListener)
      requires Valid()
      modifies eventListeners
      ensures Valid()
      ensures eventListeners.listeners ==
        old(eventListeners.listeners)[eventType := old(eventListeners.GetListeners(eventType))
          + [EventListener(listener.callback, listener.options, old(eventListeners.nextId))]]
    {
      var _ := eventListeners.AddListener(eventType, listener.options, listener.callback);
    }

    method RemoveEventListener(eventType: string, listenerId: nat)
      requires Valid()
      modifies eventListeners
      ensures Valid()
      ensures eventListeners.listeners == Unregistered(old(eventListeners.listeners), eventType, listenerId)
      ensures eventListeners.nextId == old(eventListeners.nextId)
      ensures eventListeners.TotalListenerCount() <= old(eventListeners.TotalListenerCount())
    {
      var _ := eventListeners.RemoveListener(eventType, listenerId);
    }

    /**
     * `dispatch_event` on the element alone: runs, in registration order, the
     * listeners of the event's type that belong to its current phase; a set
     * immediate-stop flag ends the run after the first one. Returns whether
     * the default action was not prevented, and the ids run.
     */
    method DispatchEvent(event: Event) returns (notPrevented: bool, trace: seq<nat>)
      ensures notPrevented == !event.defaultPrevented
      ensures trace == RunUntilStopped(eventListeners.GetListeners(event.eventType), event.phase, event.immediatePropagationStopped)
    {
      var ls := eventListeners.GetListeners(event.eventType);
      trace := [];
      var i := 0;
      while i < |ls|
        invariant 0 <= i <= |ls|
        invariant !event.immediatePropagationStopped ==> trace == RunIds(ls[..i], event.phase)
        invariant event.immediatePropagationStopped ==> trace == [] && RunIds(ls[..i], event.phase) == []
      {
        RunIdsAppend(ls[..i], [ls[i]], event.phase);
        assert ls[..i + 1] == ls[..i] + [ls[i]];
        if RunsInPhase(event.phase, ls[i]) {
          trace := trace + [ls[i].id];
          if event.immediatePropagationStopped {
            RunIdsAppend(ls[..i + 1], ls[i + 1..], event.phase);
            assert ls == ls[..i + 1] + ls[i + 1..];
            break;
          }
        }
        i := i + 1;
      }
      assert ls[..|ls|] == ls;
      notPrevented := !event.defaultPrevented;
    }
  }
}
