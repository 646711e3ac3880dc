/**
 * The doubly linked list of Go's container/list, as far as the deduper uses it: a ring of
 * elements through a sentinel root, so that linking and unlinking have no special cases.
 */
module LinkedList {
  class Element {
    var next: Element
    var prev: Element
    const value: string

    constructor (value: string)
      ensures this.value == value && next == this && prev == this
    {
      this.value := value;
      next, prev := this, this;
    }
  }

  /** The elements of a ring other than its root, and their values from front to back. */
  ghost predicate Views(root: Element, ring: seq<Element>, elements: set<Element>, contents: seq<string>) {
    && |ring| == |contents| + 1
    && root !in elements && elements == (set e | e in ring) - {root}
    && (forall i :: 0 <= i < |contents| ==> contents[i] == ring[i + 1].value)
  }

  lemma ViewsCut(root: Element, ring: seq<Element>, elements: set<Element>, contents: seq<string>, at: nat)
    requires Views(root, ring, elements, contents) && 1 <= at < |ring|
    requires forall i, j :: 0 <= i < j < |ring| ==> ring[i] != ring[j]
    ensures Views(root, ring[..at] + ring[at + 1..], elements - {ring[at]}, contents[..at - 1] + contents[at..])
  {
    assert ring == ring[..at] + [ring[at]] + ring[at + 1..];
  }

  class List {
    const root: Element
    var len: nat
    /** The root, then the elements from front to back. */
    ghost var ring: seq<Element>
    /** The elements other than the root, and their values from front to back. */
    ghost var elements: set<Element>
    ghost var contents: seq<string>

    ghost predicate Linked()
      reads this, root, elements
      requires Views(root, ring, elements, contents)
    {
      && |ring| == len + 1 && ring[0] == root
      && (forall i, j :: 0 <= i < j < |ring| ==> ring[i] != ring[j])
      && (forall i :: 0 <= i < len ==> ring[i].next == ring[i + 1] && ring[i + 1].prev == ring[i])
      && ring[len].next == root && root.prev == ring[len]
    }

    ghost predicate Valid()
      reads this, root, elements
    {
      Views(root, ring, elements, contents) && Linked()
    }

    constructor ()
      ensures Valid() && fresh(root) && elements == {} && contents == []
    {
      root := new Element("");
      len := 0;
      new;
      ring, elements, contents := [root], {}, [];
    }

    /** Where an element is. */
    ghost function Position(e: Element): (at: nat)
      reads this, root, elements
      requires Valid() && e in elements
      ensures 1 <= at <= len && ring[at] == e && contents[at - 1] == e.value
    {
      var at :| 1 <= at < |ring| && ring[at] == e;
      at
    }

    method Front() returns (e: Element)
      requires Valid() && len > 0
      ensures e in elements && e.value == contents[0] && e == ring[1]
    {
      assert ring[0].next == ring[0 + 1] && ring[1] in ring;
      e := root.next;
    }

    method PushBack(value: string) returns (e: Element)
      requires Valid()
      modifies this, root, elements
      ensures Valid() && fresh(e) && e.value == value && ring == old(ring) + [e]
      ensures elements == old(elements) + {e} && contents == old(contents) + [value]
    {
      e := new Element(value);
      LinkBack(e);
    }

    /** insert(e, root.prev) */
    method LinkBack(e: Element)
      requires Valid() && e !in elements && e != root
      modifies this, root, elements, e
      ensures Valid() && ring == old(ring) + [e]
      ensures elements == old(elements) + {e} && contents == old(contents) + [e.value]
    {
      var at := root.prev;
      e.prev := at;
      e.next := at.next;
      e.prev.next := e;
      e.next.prev := e;
      len := len + 1;
      ring, elements, contents := ring + [e], elements + {e}, contents + [e.value];
    }

    /** remove(e) */
    method Remove(e: Element, ghost at: nat)
      requires Valid() && 1 <= at <= len && ring[at] == e
      modifies this, root, elements
      ensures Valid()
      ensures ring == old(ring[..at] + ring[at + 1..])
      ensures elements == old(elements) - {e} && contents == old(contents[..at - 1] + contents[at..])
    {
      ViewsCut(root, ring, elements, contents, at);
      assert ring[at - 1].next == ring[at - 1 + 1] && e.prev == ring[at - 1];
      assert e.next == if at == len then ring[0] else ring[at + 1];
      e.prev.next := e.next;
      e.next.prev := e.prev;
      len := len - 1;
      ring, elements, contents := ring[..at] + ring[at + 1..], elements - {e}, contents[..at - 1] + contents[at..];
    }

    /** Nothing moves when e is already at the back. */
    method MoveToBack(e: Element)
      requires Valid() && e in elements
      modifies this, root, elements
      ensures Valid() && elements == old(elements)
      ensures exists k :: 0 <= k < |old(contents)| && old(contents)[k] == e.value &&
                          contents == old(contents[..k] + contents[k + 1..]) + [e.value]
    {
      ghost var at := Position(e);
      if root.prev == e {
        assert at == len;
        assert contents == contents[..at - 1] + contents[at..] + [e.value];
        return;
      }
      Remove(e, at);
      LinkBack(e);
      assert old(contents)[at - 1] == e.value;
    }
  }
}
