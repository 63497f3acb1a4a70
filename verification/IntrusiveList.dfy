/** list.c: doubly linked lists between two sentinels, whose nodes live inside other objects. */
module IntrusiveList {

  class Elem {
    var prev: Elem?
    var next: Elem?

    constructor ()
      ensures prev == null && next == null
    {
      prev, next := null, null;
    }
  }

  /** A chain with a node inserted before index k, and one with the node at index k removed. */
  function Inserted(chain: seq<Elem>, k: nat, elem: Elem): (r: seq<Elem>)
    requires k <= |chain|
    ensures |r| == |chain| + 1
    ensures forall i :: 0 <= i < |r| ==> r[i] == if i < k then chain[i] else if i == k then elem else chain[i - 1]
  {
    chain[..k] + [elem] + chain[k..]
  }

  function Removed(chain: seq<Elem>, k: nat): (r: seq<Elem>)
    requires k < |chain|
    ensures |r| == |chain| - 1
    ensures forall i :: 0 <= i < |r| ==> r[i] == chain[if i < k then i else i + 1]
  {
    chain[..k] + chain[k + 1..]
  }

  /** The middle of a chain after an insertion ... */
  lemma MiddleInserted(chain: seq<Elem>, k: nat, elem: Elem)
    requires 1 <= k < |chain|
    ensures Inserted(chain, k, elem)[1..|chain|] == Inserted(chain[1..|chain| - 1], k - 1, elem)
  {
  }

  /** ... and after a deletion. */
  lemma MiddleRemoved(chain: seq<Elem>, k: nat)
    requires 1 <= k < |chain| - 1
    ensures Removed(chain, k)[1..|chain| - 2] == Removed(chain[1..|chain| - 1], k - 1)
  {
  }

  ghost predicate Distinct(chain: seq<Elem>) {
    forall i, j :: 0 <= i < j < |chain| ==> chain[i] != chain[j]
  }

  lemma InsertedDistinct(chain: seq<Elem>, k: nat, elem: Elem)
    requires k <= |chain| && Distinct(chain) && elem !in chain
    ensures Distinct(Inserted(chain, k, elem))
  {
  }

  lemma RemovedDistinct(chain: seq<Elem>, k: nat)
    requires k < |chain| && Distinct(chain)
    ensures Distinct(Removed(chain, k)) && chain[k] !in Removed(chain, k)
  {
  }

  class List {
    const head: Elem
    const tail: Elem
    /** head, the nodes in order, tail. */
    ghost var chain: seq<Elem>

    /** next and prev of neighbours are inverse to each other, nothing leads out of the chain,
        and nothing occurs twice, so both directions end at the other sentinel. */
    ghost predicate Valid()
      reads this, chain
    {
      && |chain| >= 2 && chain[0] == head && chain[|chain| - 1] == tail
      && Distinct(chain)
      && chain[0].prev == null && chain[|chain| - 1].next == null
      && (forall i {:trigger chain[i].next} :: 0 <= i < |chain| - 1 ==> chain[i].next == chain[i + 1])
      && (forall i {:trigger chain[i].prev} :: 1 <= i < |chain| ==> chain[i].prev == chain[i - 1])
    }

    ghost function Link(i: nat): Elem
      requires i < |chain|
      reads this
    {
      chain[i]
    }

    /** The nodes between the sentinels. */
    ghost function Nodes(): seq<Elem>
      requires |chain| >= 2
      reads this
    {
      chain[1..|chain| - 1]
    }

    constructor ()
      ensures Valid() && Nodes() == [] && fresh(head) && fresh(tail)
    {
      head := new Elem();
      tail := new Elem();
      new;
      head.next := tail;
      tail.prev := head;
      chain := [head, tail];
    }

    /** list.c:14-30, with the list and the index the position `before` belongs to. Only the
        two neighbours and the node itself are written. */
    method InsertBefore(before: Elem, elem: Elem, ghost k: nat)
      requires Valid() && 1 <= k < |chain| && before == chain[k]
      requires elem !in chain
      modifies this`chain, before`prev, Link(k - 1)`next, elem
      ensures Valid() && chain == Inserted(old(chain), k, elem) && Nodes() == Inserted(old(Nodes()), k - 1, elem)
    {
      assert before.prev == chain[k - 1];
      before.prev.next := elem;
      elem.prev := before.prev;
      elem.next := before;
      before.prev := elem;
      MiddleInserted(chain, k, elem);
      InsertedDistinct(chain, k, elem);
      ghost var was := chain;
      chain := Inserted(was, k, elem);
      forall i | 0 <= i < |chain| - 1 ensures chain[i].next == chain[i + 1] {
        assert i < k - 1 ==> was[i].next == was[i + 1];
        assert i > k ==> was[i - 1].next == was[i];
      }
      forall i | 1 <= i < |chain| ensures chain[i].prev == chain[i - 1] {
        assert i < k ==> was[i].prev == was[i - 1];
        assert i > k + 1 ==> was[i - 1].prev == was[i - 2];
      }
    }

    /** list.c:33-36. */
    method Push(elem: Elem)
      requires Valid() && elem !in chain
      modifies this`chain, Link(0)`next, Link(1)`prev, elem
      ensures Valid() && chain == [head, elem] + old(chain)[1..]
      ensures Nodes() == [elem] + old(Nodes())
    {
      assert chain[0].next == chain[1];
      InsertBefore(head.next, elem, 1);
    }

    /** list.c:39-42. */
    method Append(elem: Elem)
      requires Valid() && elem !in chain
      modifies this`chain, Link(|chain| - 1)`prev, Link(|chain| - 2)`next, elem
      ensures Valid() && chain == old(chain)[..|old(chain)| - 1] + [elem, tail]
      ensures Nodes() == old(Nodes()) + [elem]
    {
      InsertBefore(tail, elem, |chain| - 1);
    }

    /** list.c:45-53. The removed node keeps its own links. */
    method Remove(elem: Elem, ghost k: nat)
      requires Valid() && 1 <= k < |chain| - 1 && chain[k] == elem
      modifies this`chain, Link(k - 1)`next, Link(k + 1)`prev
      ensures Valid() && chain == Removed(old(chain), k) && Nodes() == Removed(old(Nodes()), k - 1)
      ensures elem !in chain && unchanged(elem)
    {
      assert elem.prev == chain[k - 1] && elem.next == chain[k + 1];
      elem.prev.next := elem.next;
      elem.next.prev := elem.prev;
      MiddleRemoved(chain, k);
      RemovedDistinct(chain, k);
      ghost var was := chain;
      chain := Removed(was, k);
      forall i | 0 <= i < |chain| - 1 ensures chain[i].next == chain[i + 1] {
        assert i < k - 1 ==> was[i].next == was[i + 1];
        assert i >= k ==> was[i + 1].next == was[i + 2];
      }
      forall i | 1 <= i < |chain| ensures chain[i].prev == chain[i - 1] {
        assert i < k ==> was[i].prev == was[i - 1];
        assert i > k ==> was[i + 1].prev == was[i];
      }
    }

    /** list.c:56-61. */
    method Pop() returns (elem: Elem)
      requires Valid() && Nodes() != []
      modifies this`chain, Link(0)`next, Link(2)`prev
      ensures Valid() && elem == old(chain)[1] && chain == [head] + old(chain)[2..]
      ensures Nodes() == old(Nodes())[1..]
      ensures elem !in chain && unchanged(elem)
    {
      assert chain[0].next == chain[1];
      elem := head.next;
      Remove(elem, 1);
    }

    /** list.c:64-76. */
    method Find(obj: Elem) returns (found: bool)
      requires Valid()
      ensures found <==> obj in Nodes()
    {
      assert chain[0].next == chain[1];
      var elem := head.next;
      ghost var k := 1;
      while elem != tail
        invariant 1 <= k < |chain| && elem == chain[k]
        invariant obj !in chain[1..k]
        decreases |chain| - k
      {
        if elem == obj {
          assert obj == Nodes()[k - 1];
          return true;
        }
        assert chain[k].next == chain[k + 1];
        elem := elem.next;
        k := k + 1;
      }
      return false;
    }

    /** list.c:82-100: the first node the callback accepts. */
    method Traversal(accepts: Elem -> bool) returns (elem: Elem?)
      requires Valid()
      ensures elem == null ==> forall i :: 0 <= i < |Nodes()| ==> !accepts(Nodes()[i])
      ensures elem != null ==>
        exists i :: 0 <= i < |Nodes()| && Nodes()[i] == elem && accepts(elem) && forall j :: 0 <= j < i ==>
          !accepts(Nodes()[j])
    {
      assert chain[0].next == chain[1];
      var e := head.next;
      var empty := IsEmpty();
      if empty {
        return null;
      }
      ghost var k := 1;
      while e != tail
        invariant 1 <= k < |chain| && e == chain[k]
        invariant forall j :: 0 <= j < k - 1 ==> !accepts(Nodes()[j])
        decreases |chain| - k
      {
        assert e == Nodes()[k - 1];
        if accepts(e) {
          return e;
        }
        assert chain[k].next == chain[k + 1];
        e := e.next;
        k := k + 1;
      }
      return null;
    }

    /** list.c:103-113; a list has fewer than 2^32 nodes. */
    method Len() returns (length: nat)
      requires Valid()
      ensures length == |Nodes()|
    {
      assert chain[0].next == chain[1];
      var elem := head.next;
      length := 0;
      while elem != tail
        invariant length < |chain| - 1 && elem == chain[length + 1]
        decreases |chain| - length
      {
        assert chain[length + 1].next == chain[length + 2];
        length := length + 1;
        elem := elem.next;
      }
    }

    /** list.c:116-119. */
    method IsEmpty() returns (empty: bool)
      requires Valid()
      ensures empty <==> Nodes() == []
    {
      assert chain[0].next == chain[1];
      empty := head.next == tail;
    }
  }

  /** Two lists that share no node and no sentinel. */
  ghost predicate Apart(a: List, b: List)
    reads a, b
  {
    a != b && forall x :: x in a.chain ==> x !in b.chain
  }

  /** Lists whose links have not been written are as they were. */
  twostate lemma OthersKept(others: set<List>)
    requires forall o :: o in others ==> old(o.Valid()) && unchanged(o)
    requires forall o, x :: o in others && x in old(o.chain) ==> x.next == old(x.next) && x.prev == old(x.prev)
    ensures forall o :: o in others ==> o.Valid() && o.Nodes() == old(o.Nodes()) && o.chain == old(o.chain)
  {
  }

  /** A node leaves a list at any index; every list apart from it is left alone. */
  method Detach(elem: Elem, from: List, ghost i: nat, ghost others: set<List>)
    requires from.Valid() && i < |from.Nodes()| && elem == from.Nodes()[i]
    requires forall o :: o in others ==> o.Valid() && Apart(o, from)
    modifies from, from.chain
    ensures from.Valid() && from.Nodes() == Removed(old(from.Nodes()), i) && elem !in from.chain
    ensures forall o :: o in others ==> o.Valid() && o.chain == old(o.chain) && Apart(o, from) && elem !in o.chain
  {
    assert from.Link(i) in from.chain && from.Link(i + 1) in from.chain && from.Link(i + 2) in from.chain;
    from.Remove(elem, i + 1);
    assert forall x :: x in from.chain ==> x in old(from.chain);
    OthersKept(others);
  }

  /** A node that is in no list enters one at any index; every list apart from it is left alone. */
  method Attach(elem: Elem, before: Elem, to: List, ghost j: nat, ghost others: set<List>)
    requires to.Valid() && j <= |to.Nodes()| && before == to.chain[j + 1] && elem !in to.chain
    requires forall o :: o in others ==> o.Valid() && Apart(o, to) && elem !in o.chain
    modifies to, to.chain, elem
    ensures to.Valid() && to.Nodes() == Inserted(old(to.Nodes()), j, elem)
    ensures forall o :: o in others ==> o.Valid() && o.chain == old(o.chain) && Apart(o, to)
  {
    assert to.Link(j) in to.chain && to.Link(j + 1) in to.chain;
    to.InsertBefore(before, elem, j + 1);
    assert forall x :: x in to.chain ==> x in old(to.chain) || x == elem;
    OthersKept(others);
  }

  /** A node leaves one list and enters another, at any index of both: both lists are what they
      should be, and every list apart from them is left alone. */
  method Move(elem: Elem, before: Elem, from: List, to: List, ghost i: nat, ghost j: nat, ghost others: set<List>)
    requires from.Valid() && to.Valid() && Apart(from, to)
    requires i < |from.Nodes()| && elem == from.Nodes()[i]
    requires j <= |to.Nodes()| && before == to.chain[j + 1]
    requires forall o :: o in others ==> o.Valid() && Apart(o, from) && Apart(o, to)
    modifies from, to, from.chain, to.chain
    ensures from.Valid() && to.Valid() && Apart(from, to)
    ensures from.Nodes() == Removed(old(from.Nodes()), i) && to.Nodes() == Inserted(old(to.Nodes()), j, elem)
    ensures forall o :: o in others ==> o.Valid() && o.Nodes() == old(o.Nodes()) && Apart(o, from) && Apart(o, to)
  {
    assert Apart(to, from) && elem == from.Link(i + 1) && from.Link(i + 1) in from.chain;
    Detach(elem, from, i, others + {to});
    Attach(elem, before, to, j, others + {from});
  }

  /** Waking the first waiter (sync.c:33-35): off the front of the waiter list and, with
      thread_unblock, on to the front of the ready list (thread.c:139). */
  method WakeFirst(waiters: List, ready: List, others: set<List>)
    requires waiters.Valid() && ready.Valid() && Apart(waiters, ready) && waiters.Nodes() != []
    requires forall o :: o in others ==> o.Valid() && Apart(o, waiters) && Apart(o, ready)
    modifies waiters, ready, waiters.chain, ready.chain
    ensures waiters.Valid() && ready.Valid() && Apart(waiters, ready)
    ensures waiters.Nodes() == old(waiters.Nodes())[1..] &&
      ready.Nodes() == [old(waiters.Nodes())[0]] + old(ready.Nodes())
    ensures forall o :: o in others ==> o.Valid() && o.Nodes() == old(o.Nodes()) && Apart(o, waiters) && Apart(o, ready)
  {
    assert waiters.Link(0) in waiters.chain && waiters.Link(1) in waiters.chain && waiters.Link(2) in waiters.chain;
    var elem := waiters.Pop();
    assert forall x :: x in waiters.chain ==> x in old(waiters.chain);
    assert ready.Link(0) in ready.chain && ready.Link(1) in ready.chain;
    ready.Push(elem);
    assert forall x :: x in ready.chain ==> x in old(ready.chain) || x == elem;
    OthersKept(others);
  }
}
