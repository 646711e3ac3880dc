/**
 * MemoryDeduper (internal/stripe/deduper.go): a bounded LRU of event ids, and the
 * stack-distance law it obeys over its whole call history.
 */
module Deduper {
  import opened LinkedList

  type Id = string

  const DEFAULT_CAPACITY: nat := 4096

  // ----- the specification: what one call does to the recency order -----

  function Without(order: seq<Id>, id: Id): seq<Id> {
    if order == [] then []
    else (if order[0] == id then [] else [order[0]]) + Without(order[1..], id)
  }

  /** Oldest first: a known id moves to the back, a new one is appended and may push out the front. */
  function Touch(capacity: nat, order: seq<Id>, id: Id): seq<Id>
    requires capacity > 0
  {
    if id in order then Without(order, id) + [id]
    else if |order| >= capacity then order[1..] + [id]
    else order + [id]
  }

  function Order(capacity: nat, history: seq<Id>): seq<Id>
    requires capacity > 0
  {
    if history == [] then []
    else Touch(capacity, Order(capacity, history[..|history| - 1]), history[|history| - 1])
  }

  // ----- the law: stack distance over the call history -----

  function Distinct(ids: seq<Id>): set<Id> {
    set id | id in ids
  }

  /** The calls made after the last call with id; the whole history when there was none. */
  function Since(history: seq<Id>, id: Id): seq<Id> {
    if history == [] || history[|history| - 1] == id then []
    else Since(history[..|history| - 1], id) + [history[|history| - 1]]
  }

  /** id was called before, and fewer than capacity distinct other ids since. */
  predicate Recent(capacity: nat, history: seq<Id>, id: Id) {
    id in history && |Distinct(Since(history, id))| < capacity
  }

  // ----- the unbounded recency order, of which every bounded one is the tail -----

  function Recency(history: seq<Id>): seq<Id> {
    if history == [] then []
    else Without(Recency(history[..|history| - 1]), history[|history| - 1]) + [history[|history| - 1]]
  }

  ghost predicate NoRepeats(s: seq<Id>) {
    forall i, j :: 0 <= i < j < |s| ==> s[i] != s[j]
  }

  function Tail(s: seq<Id>, n: nat): seq<Id> {
    if |s| <= n then s else s[|s| - n..]
  }

  lemma {:induction false} WithoutElements(s: seq<Id>, id: Id)
    ensures id !in Without(s, id)
    ensures forall x :: x != id ==> (x in Without(s, id) <==> x in s)
    ensures |Without(s, id)| <= |s|
  {
    if s != [] {
      WithoutElements(s[1..], id);
      assert s == [s[0]] + s[1..];
    }
  }

  lemma {:induction false} WithoutAbsent(s: seq<Id>, id: Id)
    requires id !in s
    ensures Without(s, id) == s
  {
    if s != [] { WithoutAbsent(s[1..], id); }
  }

  /** In a sequence without repeats, removing an id cuts it at its one place. */
  lemma {:induction false} WithoutAt(s: seq<Id>, at: nat)
    requires NoRepeats(s) && at < |s|
    ensures Without(s, s[at]) == s[..at] + s[at + 1..]
  {
    if at == 0 {
      assert s[0] !in s[1..];
      WithoutAbsent(s[1..], s[0]);
    } else {
      WithoutAt(s[1..], at - 1);
      assert s[1..][..at - 1] == s[1..at] && s[1..][at..] == s[at + 1..];
      assert [s[0]] + s[1..at] == s[..at];
    }
  }

  lemma NoRepeatsCons(id: Id, s: seq<Id>)
    requires id !in s && NoRepeats(s)
    ensures NoRepeats([id] + s) && NoRepeats(s + [id])
  {}

  lemma {:induction false} WithoutNoRepeats(s: seq<Id>, id: Id)
    requires NoRepeats(s)
    ensures NoRepeats(Without(s, id))
  {
    if s != [] {
      WithoutNoRepeats(s[1..], id);
      WithoutElements(s[1..], id);
      if s[0] != id {
        assert s[0] !in s[1..];
        NoRepeatsCons(s[0], Without(s[1..], id));
      }
    }
  }

  lemma {:induction false} RecencyNoRepeats(history: seq<Id>)
    ensures NoRepeats(Recency(history))
    ensures forall x :: x in Recency(history) <==> x in history
  {
    if history != [] {
      var before, id := history[..|history| - 1], history[|history| - 1];
      RecencyNoRepeats(before);
      WithoutNoRepeats(Recency(before), id);
      WithoutElements(Recency(before), id);
      NoRepeatsCons(id, Without(Recency(before), id));
      assert history == before + [id];
    }
  }

  /** The bounded order is the most recent `capacity` ids of the unbounded one. */
  lemma {:induction false} OrderIsTail(capacity: nat, history: seq<Id>)
    requires capacity > 0
    ensures Order(capacity, history) == Tail(Recency(history), capacity)
  {
    if history != [] {
      var before, id := history[..|history| - 1], history[|history| - 1];
      OrderIsTail(capacity, before);
      RecencyNoRepeats(before);
      TouchTail(capacity, Recency(before), id);
    }
  }

  lemma MoveInTail(r: seq<Id>, at: nat, cut: nat)
    requires cut <= at < |r|
    ensures r[cut..][..at - cut] == r[cut..at] && r[cut..][at - cut + 1..] == r[at + 1..]
    ensures (r[..at] + r[at + 1..] + [r[at]])[cut..] == r[cut..at] + r[at + 1..] + [r[at]]
  {
    assert r[..at] == r[..cut] + r[cut..at];
  }

  lemma MoveBeforeTail(r: seq<Id>, at: nat, cut: nat)
    requires at < cut < |r|
    ensures (r[..at] + r[at + 1..] + [r[at]])[cut..] == r[cut..][1..] + [r[at]]
  {
    assert r[at + 1..] == r[at + 1..cut + 1] + r[cut + 1..];
  }

  lemma TailSnoc(capacity: nat, r: seq<Id>, id: Id)
    requires capacity > 0
    ensures |Tail(r, capacity)| == if |r| < capacity then |r| else capacity
    ensures Tail(r + [id], capacity) == if |r| < capacity then r + [id] else Tail(r, capacity)[1..] + [id]
  {
    if |r| >= capacity {
      var cut := |r| - capacity;
      assert Tail(r, capacity) == r[cut..];
      assert (r + [id])[cut + 1..] == r[cut + 1..] + [id];
      assert r[cut..][1..] == r[cut + 1..];
    }
  }

  lemma NoRepeatsSuffix(r: seq<Id>, cut: nat)
    requires NoRepeats(r) && cut <= |r|
    ensures NoRepeats(r[cut..])
  {}

  /** id is among the ids the bounded order kept. */
  lemma TouchKept(capacity: nat, r: seq<Id>, at: nat, cut: nat)
    requires capacity > 0 && NoRepeats(r) && cut <= at < |r| && cut == |r| - |Tail(r, capacity)|
    ensures Touch(capacity, r[cut..], r[at]) == Tail(Without(r, r[at]) + [r[at]], capacity)
  {
    var tail, id := r[cut..], r[at];
    var moved := r[..at] + r[at + 1..] + [id];
    NoRepeatsSuffix(r, cut);
    assert tail[at - cut] == id;
    WithoutAt(tail, at - cut);
    MoveInTail(r, at, cut);
    assert Touch(capacity, tail, id) == moved[cut..];
    WithoutAt(r, at);
    assert Tail(moved, capacity) == moved[cut..];
  }

  /** id was called before but has fallen out of the bounded order. */
  lemma TouchForgotten(capacity: nat, r: seq<Id>, at: nat, cut: nat)
    requires capacity > 0 && NoRepeats(r) && at < cut < |r| && cut == |r| - |Tail(r, capacity)|
    ensures Touch(capacity, r[cut..], r[at]) == Tail(Without(r, r[at]) + [r[at]], capacity)
  {
    WithoutAt(r, at);
    assert r[at] !in r[cut..];
    MoveBeforeTail(r, at, cut);
  }

  lemma TouchNew(capacity: nat, r: seq<Id>, id: Id)
    requires capacity > 0 && id !in r
    ensures Touch(capacity, Tail(r, capacity), id) == Tail(Without(r, id) + [id], capacity)
  {
    WithoutAbsent(r, id);
    TailSnoc(capacity, r, id);
  }

  lemma TouchTail(capacity: nat, r: seq<Id>, id: Id)
    requires capacity > 0 && NoRepeats(r)
    ensures Touch(capacity, Tail(r, capacity), id) == Tail(Without(r, id) + [id], capacity)
  {
    if id in r {
      var at :| 0 <= at < |r| && r[at] == id;
      var cut := |r| - |Tail(r, capacity)|;
      assert Tail(r, capacity) == r[cut..];
      if cut <= at { TouchKept(capacity, r, at, cut); } else { TouchForgotten(capacity, r, at, cut); }
    } else {
      TouchNew(capacity, r, id);
    }
  }

  /** What follows id in the recency order is exactly what was called since. */
  lemma {:induction false} AfterIsSince(history: seq<Id>, at: nat)
    requires at < |Recency(history)|
    ensures Distinct(Recency(history)[at + 1..]) == Distinct(Since(history, Recency(history)[at]))
  {
    var before, last := history[..|history| - 1], history[|history| - 1];
    var r := Recency(before);
    var id := Recency(history)[at];
    RecencyNoRepeats(before);
    RecencyNoRepeats(history);
    if id == last {
      assert Recency(history)[|Recency(history)| - 1] == last;
      assert at == |Recency(history)| - 1;
    } else {
      WithoutElements(r, last);
      assert at < |Without(r, last)|;
      assert id in r;
      var k :| 0 <= k < |r| && r[k] == id;
      AfterIsSince(before, k);
      SuffixWithout(r, last, k, at);
      var rest := Recency(history)[at + 1..];
      assert rest == Without(r, last)[at + 1..] + [last];
      DistinctSnoc(Without(r, last)[at + 1..], last);
      DistinctSnoc(Since(before, id), last);
    }
  }

  lemma DistinctSnoc(s: seq<Id>, id: Id)
    ensures Distinct(s + [id]) == Distinct(s) + {id}
  {}

  /** Taking another id out of a sequence takes it out of what follows id. */
  lemma SuffixWithout(r: seq<Id>, last: Id, k: nat, at: nat)
    requires NoRepeats(r) && k < |r| && r[k] != last
    requires at < |Without(r, last)| && Without(r, last)[at] == r[k]
    ensures Distinct(Without(r, last)[at + 1..]) + {last} == Distinct(r[k + 1..]) + {last}
  {
    if last in r {
      var j :| 0 <= j < |r| && r[j] == last;
      SuffixCut(r, j, k, at);
    } else {
      WithoutAbsent(r, last);
    }
  }

  lemma SuffixCut(r: seq<Id>, j: nat, k: nat, at: nat)
    requires NoRepeats(r) && k < |r| && j < |r| && j != k
    requires at < |Without(r, r[j])| && Without(r, r[j])[at] == r[k]
    ensures Distinct(Without(r, r[j])[at + 1..]) + {r[j]} == Distinct(r[k + 1..]) + {r[j]}
  {
    WithoutAt(r, j);
    var w := r[..j] + r[j + 1..];
    assert w[at] == if at < j then r[at] else r[at + 1];
    assert at == if j < k then k - 1 else k;
    if j < k {
      assert w[at + 1..] == r[k + 1..];
    } else {
      SuffixSplit(r, j, k);
    }
  }

  lemma SuffixSplit(r: seq<Id>, j: nat, k: nat)
    requires k < j < |r|
    ensures Distinct((r[..j] + r[j + 1..])[k + 1..]) + {r[j]} == Distinct(r[k + 1..]) + {r[j]}
  {
    var a, b := r[k + 1..j], r[j + 1..];
    assert (r[..j] + r[j + 1..])[k + 1..] == a + b;
    assert r[k + 1..] == a + [r[j]] + b;
    DistinctInsert(a, r[j], b);
  }

  lemma DistinctInsert(a: seq<Id>, id: Id, b: seq<Id>)
    ensures Distinct(a + [id] + b) + {id} == Distinct(a + b) + {id}
  {
    forall x ensures x in a + [id] + b <==> x in a + b || x == id {
      assert a + [id] + b == a + ([id] + b);
    }
  }

  lemma NoRepeatsSize(s: seq<Id>)
    requires NoRepeats(s)
    ensures |Distinct(s)| == |s|
  {
    if s != [] {
      var n := |s| - 1;
      NoRepeatsSize(s[..n]);
      assert s[..n] + [s[n]] == s;
      DistinctSnoc(s[..n], s[n]);
      assert s[n] !in Distinct(s[..n]);
    }
  }

  /** The LRU's answer is the stack-distance law, for every history and capacity. */
  lemma SeenIffRecent(capacity: nat, history: seq<Id>, id: Id)
    requires capacity > 0
    ensures id in Order(capacity, history) <==> Recent(capacity, history, id)
  {
    var r := Recency(history);
    OrderIsTail(capacity, history);
    RecencyNoRepeats(history);
    if id in history {
      var at :| 0 <= at < |r| && r[at] == id;
      AfterIsSince(history, at);
      NoRepeatsSize(r[at + 1..]);
      var tail := Tail(r, capacity);
      if |r| - at <= capacity {
        assert tail[if |r| <= capacity then at else at - (|r| - capacity)] == id;
      } else {
        assert id !in tail;
      }
    }
  }

  lemma OrderSnoc(capacity: nat, history: seq<Id>, id: Id)
    requires capacity > 0
    ensures Order(capacity, history + [id]) == Touch(capacity, Order(capacity, history), id)
  {
    assert history == (history + [id])[..|history|];
  }

  /** The order never holds an id twice and never exceeds its capacity. */
  lemma OrderBounded(capacity: nat, history: seq<Id>)
    requires capacity > 0
    ensures |Order(capacity, history)| <= capacity && NoRepeats(Order(capacity, history))
  {
    OrderIsTail(capacity, history);
    RecencyNoRepeats(history);
  }

  /** A larger deduper sees everything a smaller one sees. */
  lemma LargerSeesMore(capacity: nat, larger: nat, history: seq<Id>, id: Id)
    requires 0 < capacity <= larger && id in Order(capacity, history)
    ensures id in Order(larger, history)
  {
    SeenIffRecent(capacity, history, id);
    SeenIffRecent(larger, history, id);
  }

  /** Moving an id to the back keeps the ids and repeats none. */
  lemma MovedBack(order: seq<Id>, k: nat)
    requires NoRepeats(order) && k < |order|
    ensures var moved := order[..k] + order[k + 1..] + [order[k]];
      && moved == Without(order, order[k]) + [order[k]] && NoRepeats(moved) && |moved| == |order|
      && (forall x :: x in moved <==> x in order)
  {
    WithoutAt(order, k);
    WithoutElements(order, order[k]);
  }

  lemma FrontOnly(order: seq<Id>)
    requires NoRepeats(order) && order != []
    ensures NoRepeats(order[1..]) && order[0] !in order[1..]
    ensures forall x :: x in order <==> x == order[0] || x in order[1..]
  {
    assert order == [order[0]] + order[1..];
  }

  // ----- the implementation -----

  class MemoryDeduper {
    const capacity: nat
    const order: List
    var index: map<Id, Element>
    ghost var history: seq<Id>

    /** List and index hold the same ids, each once, and agree on which element holds which id. */
    ghost predicate Consistent()
      reads this, order, order.root, order.elements
    {
      && capacity > 0 && order.Valid()
      && NoRepeats(order.contents) && |order.contents| <= capacity
      && (forall id :: id in index <==> id in order.contents)
      && (forall id :: id in index ==> index[id] in order.elements && index[id].value == id)
    }

    ghost predicate Valid()
      reads this, order, order.root, order.elements
    {
      Consistent() && order.contents == Order(capacity, history)
    }

    constructor (capacity: int)
      ensures Valid() && history == []
      ensures this.capacity == if capacity <= 0 then 4096 else capacity
      ensures fresh(order) && fresh(order.root) && fresh(order.elements)
    {
      this.capacity := if capacity <= 0 then DEFAULT_CAPACITY else capacity;
      order := new List();
      index := map[];
      history := [];
    }

    method Refresh(id: Id)
      requires Consistent() && id in index
      modifies order, order.root, order.elements
      ensures Consistent() && order.contents == Touch(capacity, old(order.contents), id)
      ensures fresh(order.elements - old(order.elements))
    {
      ghost var before := order.contents;
      order.MoveToBack(index[id]);
      ghost var k :| 0 <= k < |before| && before[k] == id && order.contents == before[..k] + before[k + 1..] + [id];
      MovedBack(before, k);
    }

    method Evict()
      requires Consistent() && order.len > 0
      modifies this`index, order, order.root, order.elements
      ensures Consistent() && order.contents == old(order.contents)[1..]
      ensures fresh(order.elements - old(order.elements))
    {
      FrontOnly(order.contents);
      var front := order.Front();
      index := index - {front.value};
      order.Remove(front, 1);
      assert order.contents == old(order.contents)[1..];
    }

    method Append(id: Id)
      requires Consistent() && id !in index && order.len < capacity
      modifies this`index, order, order.root, order.elements
      ensures Consistent() && order.contents == old(order.contents) + [id]
      ensures fresh(order.elements - old(order.elements))
    {
      var e := order.PushBack(id);
      index := index[id := e];
    }

    method Record(id: Id)
      requires Consistent() && id !in index
      modifies this`index, order, order.root, order.elements
      ensures Consistent() && order.contents == Touch(capacity, old(order.contents), id)
      ensures fresh(order.elements - old(order.elements))
    {
      if order.len >= capacity { Evict(); }
      Append(id);
    }

    /** True exactly for an id called before with fewer than `capacity` distinct others since. */
    method SeenOrRecord(id: Id) returns (seen: bool)
      requires Valid()
      modifies this, order, order.root, order.elements
      ensures Valid() && history == old(history) + [id]
      ensures seen <==> Recent(capacity, old(history), id)
      ensures fresh(order.elements - old(order.elements))
    {
      SeenIffRecent(capacity, history, id);
      OrderSnoc(capacity, history, id);
      seen := id in index;
      if seen { Refresh(id); } else { Record(id); }
      history := history + [id];
    }
  }
}
