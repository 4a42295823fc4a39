/** The doubly linked list: nodes relinked through `next` and `prev`, with `head`, `tail` and `length`
    kept in step. Every operation is proved against the sequence of its elements. */
module LinkedList {
  import opened Sequences
  import opened StoreTypes

  // ---------- lists as sequences ----------

  /** The place of the first match, or the length. */
  function FirstMatch<T>(p: T -> bool, xs: seq<T>): (k: nat)
    ensures k <= |xs|
    ensures k < |xs| ==> p(xs[k])
    ensures forall i :: 0 <= i < k ==> !p(xs[i])
  {
    if xs == [] || p(xs[0]) then 0 else 1 + FirstMatch(p, xs[1..])
  }

  function InsertAt<T>(xs: seq<T>, k: nat, x: T): seq<T>
    requires k <= |xs|
  {
    xs[..k] + [x] + xs[k..]
  }

  function RemoveAt<T>(xs: seq<T>, k: nat): seq<T>
    requires k < |xs|
  {
    xs[..k] + xs[k + 1..]
  }

  function Is<T(==)>(x: T): T -> bool { y => y == x }

  /** Taking out the first match, by place and as the store's model does it. */
  lemma {:induction false} SearchIsRemove1<T>(xs: seq<T>, x: T)
    ensures var k := FirstMatch(Is(x), xs);
      Remove1(xs, x) == if k == |xs| then xs else RemoveAt(xs, k)
  {
    if xs != [] && xs[0] != x {
      SearchIsRemove1(xs[1..], x);
      var k := FirstMatch(Is(x), xs[1..]);
      assert [xs[0]] + xs[1..] == xs;
      if k < |xs[1..]| { assert RemoveAt(xs, k + 1) == [xs[0]] + RemoveAt(xs[1..], k); }
    }
  }

  // ---------- ordered insertion ----------

  /** The test of List_insertOrdered: does the new element go in front of the current one? */
  predicate GoesBefore<T>(c: (T, T) -> int, order: int, x: T, current: T) {
    (c(current, x) >= 0 && order == 1) || (c(current, x) < 0 && order == 0)
  }

  /** Where List_insertOrdered puts the new element. */
  function Place<T>(c: (T, T) -> int, order: int, x: T, xs: seq<T>): (k: nat)
    ensures k <= |xs|
  {
    if xs == [] || GoesBefore(c, order, x, xs[0]) then 0
    else if !GoesBefore(c, order, x, xs[|xs| - 1]) then |xs|
    else FirstMatch(y => GoesBefore(c, order, x, y), xs)
  }

  /** A comparator that orders all elements. */
  ghost predicate Orders<T(!new)>(c: (T, T) -> int) {
    && (forall x, y :: c(x, y) < 0 <==> c(y, x) > 0)
    && (forall x, y, z :: c(x, y) <= 0 && c(y, z) <= 0 ==> c(x, z) <= 0)
  }

  /** Ascending for order 1, descending for order 0. */
  predicate InOrder<T>(c: (T, T) -> int, order: int, x: T, y: T) {
    if order == 1 then c(x, y) <= 0 else c(y, x) <= 0
  }

  ghost predicate Sorted<T>(c: (T, T) -> int, order: int, xs: seq<T>) {
    forall i, j :: 0 <= i < j < |xs| ==> InOrder(c, order, xs[i], xs[j])
  }

  /** What an ordered insertion does to a sorted list. */
  lemma {:induction false} PlaceSplits<T(!new)>(c: (T, T) -> int, order: int, x: T, xs: seq<T>)
    requires Orders(c) && Sorted(c, order, xs) && (order == 0 || order == 1)
    ensures var k := Place(c, order, x, xs);
      && (forall i :: 0 <= i < k ==> !GoesBefore(c, order, x, xs[i]))
      && (forall i :: k <= i < |xs| ==> GoesBefore(c, order, x, xs[i]))
  {
    var k := Place(c, order, x, xs);
    if xs != [] {
      var last := |xs| - 1;
      forall i | k <= i < |xs| ensures GoesBefore(c, order, x, xs[i]) {
        if k < i { assert InOrder(c, order, xs[k], xs[i]); }
        Follows(c, order, x, xs[k], xs[i]);
      }
      forall i | 0 <= i < k ensures !GoesBefore(c, order, x, xs[i]) {
        if k == |xs| && i < last {
          assert InOrder(c, order, xs[i], xs[last]);
          if GoesBefore(c, order, x, xs[i]) { Follows(c, order, x, xs[i], xs[last]); }
        }
      }
    }
  }

  lemma {:induction false} Follows<T(!new)>(c: (T, T) -> int, order: int, x: T, y: T, z: T)
    requires Orders(c) && (order == 0 || order == 1) && GoesBefore(c, order, x, y)
    requires y == z || InOrder(c, order, y, z)
    ensures GoesBefore(c, order, x, z)
  {
    assert c(y, x) < 0 <==> c(x, y) > 0;
    assert c(z, x) < 0 <==> c(x, z) > 0;
    assert c(x, y) < 0 <==> c(y, x) > 0;
    assert c(x, z) < 0 <==> c(z, x) > 0;
    if order == 0 && y != z {
      assert c(x, z) <= 0 && c(z, y) <= 0 ==> c(x, y) <= 0;
    }
  }

  lemma {:induction false} PlacedInOrder<T(!new)>(c: (T, T) -> int, order: int, x: T, y: T)
    requires Orders(c) && (order == 0 || order == 1)
    ensures if GoesBefore(c, order, x, y) then InOrder(c, order, x, y) else InOrder(c, order, y, x)
  {
    assert c(x, y) < 0 <==> c(y, x) > 0;
    assert c(y, x) < 0 <==> c(x, y) > 0;
  }

  lemma {:induction false} InsertSorts<T(!new)>(c: (T, T) -> int, order: int, x: T, xs: seq<T>, k: nat)
    requires Orders(c) && Sorted(c, order, xs) && (order == 0 || order == 1) && k <= |xs|
    requires forall i :: 0 <= i < k ==> !GoesBefore(c, order, x, xs[i])
    requires forall i :: k <= i < |xs| ==> GoesBefore(c, order, x, xs[i])
    ensures Sorted(c, order, InsertAt(xs, k, x))
  {
    var ys := InsertAt(xs, k, x);
    forall i, j | 0 <= i < j < |ys| ensures InOrder(c, order, ys[i], ys[j]) {
      if j == k {
        PlacedInOrder(c, order, x, xs[i]);
      } else if i == k {
        PlacedInOrder(c, order, x, xs[j - 1]);
      } else {
        var (m, n) := (if i < k then i else i - 1, if j < k then j else j - 1);
        assert ys[i] == xs[m] && ys[j] == xs[n] && InOrder(c, order, xs[m], xs[n]);
      }
    }
  }

  /** A sorted list stays sorted and gains exactly the new element, in ascending order in front of
      its equals and in descending order behind them. */
  lemma {:induction false} InsertOrderedSorts<T(!new)>(c: (T, T) -> int, order: int, x: T, xs: seq<T>)
    requires Orders(c) && Sorted(c, order, xs) && (order == 0 || order == 1)
    ensures var ys := InsertAt(xs, Place(c, order, x, xs), x);
      Sorted(c, order, ys) && multiset(ys) == multiset(xs) + multiset{x}
    ensures forall i :: 0 <= i < |xs| ==>
      if order == 1 then i < Place(c, order, x, xs) <==> c(xs[i], x) < 0
      else i < Place(c, order, x, xs) <==> c(xs[i], x) >= 0
  {
    PlaceSplits(c, order, x, xs);
    InsertSorts(c, order, x, xs, Place(c, order, x, xs));
    InsertAtAdds(xs, Place(c, order, x, xs), x);
  }

  lemma {:induction false} InsertAtAdds<T>(xs: seq<T>, k: nat, x: T)
    requires k <= |xs|
    ensures multiset(InsertAt(xs, k, x)) == multiset(xs) + multiset{x}
  {
    assert xs == xs[..k] + xs[k..];
  }

  lemma {:induction false} PlaceInside<T>(c: (T, T) -> int, order: int, x: T, xs: seq<T>)
    requires xs != [] && !GoesBefore(c, order, x, xs[0]) && GoesBefore(c, order, x, xs[|xs| - 1])
    ensures var k := Place(c, order, x, xs);
      0 < k < |xs| && GoesBefore(c, order, x, xs[k]) && forall j :: 0 <= j < k ==> !GoesBefore(c, order, x, xs[j])
  {
    var p := y => GoesBefore(c, order, x, y);
    assert p(xs[|xs| - 1]) && !p(xs[0]);
    assert forall j :: 0 <= j < FirstMatch(p, xs) ==> !p(xs[j]);
  }

  // ---------- nodes ----------

  class Node<T> {
    const element: T
    var next: Node?<T>
    var prev: Node?<T>

    constructor (element: T, next: Node?<T>, prev: Node?<T>)
      ensures this.element == element && this.next == next && this.prev == prev
    {
      this.element, this.next, this.prev := element, next, prev;
    }
  }

  function Elements<T>(nodes: seq<Node<T>>): (xs: seq<T>)
    ensures |xs| == |nodes|
  {
    seq(|nodes|, i requires 0 <= i < |nodes| => nodes[i].element)
  }

  ghost predicate Distinct<T>(nodes: seq<Node<T>>) {
    forall i, j :: 0 <= i < j < |nodes| ==> nodes[i] != nodes[j]
  }

  /** The links of node number i. */
  ghost predicate LinkedAt<T>(nodes: seq<Node<T>>, i: nat)
    requires i < |nodes|
    reads nodes[i]
  {
    && nodes[i].next == (if i + 1 < |nodes| then nodes[i + 1] else null)
    && nodes[i].prev == (if i > 0 then nodes[i - 1] else null)
  }

  ghost predicate Linked<T>(nodes: seq<Node<T>>)
    reads nodes
  {
    forall i :: 0 <= i < |nodes| ==> LinkedAt(nodes, i)
  }

  class List<T> {
    var head: Node?<T>
    var tail: Node?<T>
    var length: nat
    ghost var nodes: seq<Node<T>>

    /** Following `next` from the head, or `prev` from the tail, visits the same nodes. */
    ghost predicate Valid()
      reads this, nodes
    {
      && length == |nodes| && Distinct(nodes) && Linked(nodes)
      && head == (if nodes == [] then null else nodes[0])
      && tail == (if nodes == [] then null else nodes[|nodes| - 1])
    }

    ghost function Contents(): seq<T>
      reads this
    {
      Elements(nodes)
    }

    constructor ()
      ensures Valid() && Contents() == [] && fresh(nodes)
    {
      head, tail, length, nodes := null, null, 0, [];
    }

    method InsertHead(x: T)
      requires Valid()
      modifies this, nodes
      ensures Valid() && Contents() == [x] + old(Contents())
      ensures |nodes| == |old(nodes)| + 1 && nodes[1..] == old(nodes) && fresh(nodes[0])
    {
      var node := new Node(x, head, null);
      if length == 0 {
        tail := node;
      } else {
        head.prev := node;
      }
      head := node;
      length := length + 1;
      nodes := [node] + nodes;
      forall i | 0 <= i < |nodes| ensures LinkedAt(nodes, i) {
        if i > 0 { assert nodes[i] == old(nodes)[i - 1] && old(LinkedAt(nodes, i - 1)); }
      }
    }

    method InsertTail(x: T)
      requires Valid()
      modifies this, nodes
      ensures Valid() && Contents() == old(Contents()) + [x]
      ensures |nodes| == |old(nodes)| + 1 && nodes[..|nodes| - 1] == old(nodes) && fresh(nodes[|nodes| - 1])
    {
      var node := new Node(x, null, tail);
      if tail != null {
        tail.next := node;
      } else {
        head := node;
      }
      tail := node;
      length := length + 1;
      nodes := nodes + [node];
      forall i | 0 <= i < |nodes| ensures LinkedAt(nodes, i) {
        if i < |old(nodes)| { assert nodes[i] == old(nodes)[i] && old(LinkedAt(nodes, i)); }
      }
    }

    method ExtractHead() returns (r: Option<T>)
      requires Valid()
      modifies this, nodes
      ensures Valid() && nodes == (if old(nodes) == [] then [] else old(nodes)[1..])
      ensures if old(Contents()) == [] then r == None && Contents() == []
              else r == Some(old(Contents())[0]) && Contents() == old(Contents())[1..]
    {
      if head == null {
        return None;
      }
      r := Some(head.element);
      assert LinkedAt(nodes, 0);
      if length == 1 {
        head, tail := null, null;
      } else {
        head := head.next;
        head.prev := null;
      }
      length := length - 1;
      nodes := nodes[1..];
      forall i | 0 <= i < |nodes| ensures LinkedAt(nodes, i) {
        assert nodes[i] == old(nodes)[i + 1] && old(LinkedAt(nodes, i + 1));
      }
    }

    method ExtractTail() returns (r: Option<T>)
      requires Valid()
      modifies this, nodes
      ensures Valid() && nodes == (if old(nodes) == [] then [] else old(nodes)[..|old(nodes)| - 1])
      ensures if old(Contents()) == [] then r == None && Contents() == []
              else (&& r == Some(old(Contents())[|old(Contents())| - 1])
                    && Contents() == old(Contents())[..|old(Contents())| - 1])
    {
      if tail == null {
        return None;
      }
      r := Some(tail.element);
      assert LinkedAt(nodes, |nodes| - 1);
      if length == 1 {
        head, tail := null, null;
      } else {
        tail := tail.prev;
        tail.next := null;
      }
      length := length - 1;
      nodes := nodes[..|nodes| - 1];
      forall i | 0 <= i < |nodes| ensures LinkedAt(nodes, i) {
        assert nodes[i] == old(nodes)[i] && old(LinkedAt(nodes, i));
      }
    }

    /** Takes node number k out of the middle of the list. */
    method Unlink(node: Node<T>, ghost k: nat)
      requires Valid() && 0 < k < |nodes| - 1 && node == nodes[k]
      modifies this, nodes
      ensures Valid() && nodes == RemoveAt(old(nodes), k)
    {
      assert LinkedAt(nodes, k);
      node.next.prev := node.prev;
      node.prev.next := node.next;
      length := length - 1;
      nodes := RemoveAt(nodes, k);
      forall i | 0 <= i < |nodes| ensures LinkedAt(nodes, i) {
        var o := if i < k then i else i + 1;
        assert nodes[i] == old(nodes)[o] && old(LinkedAt(nodes, o));
      }
    }

    /** List_searchExtract: takes out the first element that the comparator matches. */
    method SearchExtract(matches: T -> bool) returns (r: Option<T>)
      requires Valid()
      modifies this, nodes
      ensures Valid()
      ensures var k := FirstMatch(matches, old(Contents()));
        if k == |old(Contents())| then r == None && Contents() == old(Contents())
        else r == Some(old(Contents())[k]) && Contents() == RemoveAt(old(Contents()), k)
    {
      var node, k := SearchNode(matches);
      if node == null {
        return None;
      }
      if node == head {
        r := ExtractHead();
      } else if node == tail {
        r := ExtractTail();
      } else {
        r := Some(node.element);
        Unlink(node, k);
      }
    }

    /** The node that holds the first match. */
    method SearchNode(matches: T -> bool) returns (node: Node?<T>, ghost k: nat)
      requires Valid()
      ensures k == FirstMatch(matches, Contents()) && node == if k < |nodes| then nodes[k] else null
    {
      ghost var xs := Contents();
      k := FirstMatch(matches, xs);
      var runner := head;
      var found := false;
      node := null;
      ghost var i := 0;
      while runner != null && !found
        invariant 0 <= i <= |nodes| && runner == (if i < |nodes| then nodes[i] else null)
        invariant if found then i > 0 && k == i - 1 && node == nodes[k] else forall j :: 0 <= j < i ==> !matches(xs[j])
        decreases |nodes| - i
      {
        found := matches(runner.element);
        node := runner;
        assert LinkedAt(nodes, i);
        if found { FirstIs(matches, xs, i); }
        runner := runner.next;
        i := i + 1;
      }
      if !found {
        NoneIs(matches, xs);
        node := null;
      }
    }

    /** List_reverse: the recursion below, then head and tail change places. */
    method Reverse()
      requires Valid()
      modifies this, nodes
      ensures Valid() && Contents() == Sequences.Reverse(old(Contents())) && nodes == Sequences.Reverse(old(nodes))
    {
      ghost var n := |nodes|;
      forall i | 0 <= i < n ensures Sequences.Reverse(nodes)[i] == nodes[n - 1 - i]
        && Sequences.Reverse(Contents())[i] == Contents()[n - 1 - i] {
        ReverseAt(nodes, i);
        ReverseAt(Contents(), i);
      }
      assert Elements(Sequences.Reverse(nodes)) == Sequences.Reverse(Contents());
      if length > 1 {
        var newTail := head;
        head := ReverseFrom(head, nodes, 0);
        tail := newTail;
        nodes := Sequences.Reverse(nodes);
        forall i | 0 <= i < n ensures LinkedAt(nodes, i) {
          assert nodes[i] == old(nodes)[n - 1 - i] && old(LinkedAt(nodes, n - 1 - i));
        }
      }
    }

    /** List_insertOrdered; the order is 1 for ascending and 0 for descending. */
    method InsertOrdered(c: (T, T) -> int, x: T, order: int)
      requires Valid() && (order == 0 || order == 1)
      modifies this, nodes
      ensures Valid() && Contents() == InsertAt(old(Contents()), Place(c, order, x, old(Contents())), x)
    {
      ghost var xs := Contents();
      if length == 0 || GoesBefore(c, order, x, head.element) {
        InsertHead(x);
        assert InsertAt(xs, 0, x) == [x] + xs;
      } else if !GoesBefore(c, order, x, tail.element) {
        InsertTail(x);
        assert InsertAt(xs, |xs|, x) == xs + [x];
      } else {
        ghost var k := Place(c, order, x, xs);
        PlaceInside(c, order, x, xs);
        assert forall j :: 0 < j < k ==> xs[j] == nodes[j].element;
        InsertBehind(head, c, x, order, 0, k);
        length := length + 1;
      }
    }

    /** List__insertOrdered: walks on until the next element is one that the new one goes in front of.
        There is one at the latest at the tail, so the walk never runs past it. */
    method InsertBehind(node: Node<T>, c: (T, T) -> int, x: T, order: int, ghost i: nat, ghost k: nat)
      requires Valid() && i < k < |nodes| && node == nodes[i]
      requires GoesBefore(c, order, x, nodes[k].element)
      requires forall j :: i < j < k ==> !GoesBefore(c, order, x, nodes[j].element)
      modifies this`nodes, nodes
      ensures length == old(length) && head == old(head) && tail == old(tail)
      ensures |nodes| == |old(nodes)| + 1 && Distinct(nodes) && Linked(nodes)
      ensures nodes[0] == old(nodes)[0] && nodes[|nodes| - 1] == old(nodes)[|old(nodes)| - 1]
      ensures Elements(nodes) == InsertAt(old(Elements(nodes)), k, x)
      decreases k - i
    {
      assert LinkedAt(nodes, i);
      var current := node.next;
      if GoesBefore(c, order, x, current.element) {
        assert k == i + 1 && LinkedAt(nodes, k);
        var newNode := new Node(x, current, node);
        current.prev := newNode;
        node.next := newNode;
        nodes := InsertAt(nodes, k, newNode);
        forall j | 0 <= j < |nodes| ensures LinkedAt(nodes, j) {
          if j < k { assert nodes[j] == old(nodes)[j] && old(LinkedAt(nodes, j)); }
          else if j > k { assert nodes[j] == old(nodes)[j - 1] && old(LinkedAt(nodes, j - 1)); }
        }
      } else {
        InsertBehind(current, c, x, order, i + 1, k);
      }
    }
  }

  lemma {:induction false} FirstIs<T>(p: T -> bool, xs: seq<T>, i: nat)
    requires i < |xs| && p(xs[i]) && forall j :: 0 <= j < i ==> !p(xs[j])
    ensures FirstMatch(p, xs) == i
  {
    if i > 0 {
      assert xs[1..][i - 1] == xs[i] && !p(xs[0]);
      FirstIs(p, xs[1..], i - 1);
    }
  }

  lemma {:induction false} NoneIs<T>(p: T -> bool, xs: seq<T>)
    requires forall j :: 0 <= j < |xs| ==> !p(xs[j])
    ensures FirstMatch(p, xs) == |xs|
  {
    if xs != [] { NoneIs(p, xs[1..]); }
  }

  /** List__reverse: swaps the links of node number k and of all nodes behind it, and returns the
      last one. */
  method ReverseFrom<T>(node: Node<T>, ghost nodes: seq<Node<T>>, ghost k: nat) returns (last: Node<T>)
    requires k < |nodes| && node == nodes[k] && Distinct(nodes)
    requires forall i :: k <= i < |nodes| ==> LinkedAt(nodes, i)
    modifies nodes[k..]
    ensures last == nodes[|nodes| - 1]
    ensures forall i :: k <= i < |nodes| ==> nodes[i].next == old(nodes[i].prev) && nodes[i].prev == old(nodes[i].next)
    decreases |nodes| - k
  {
    assert LinkedAt(nodes, k);
    assert forall i :: k <= i < |nodes| ==> nodes[i] in nodes[k..] by {
      forall i | k <= i < |nodes| ensures nodes[i] in nodes[k..] { assert nodes[k..][i - k] == nodes[i]; }
    }
    var next, prev := null, null;
    if node.next == null {
      last := node;
      next := node.prev;
    } else {
      assert nodes[k + 1..] == nodes[k..][1..];
      last := ReverseFrom(node.next, nodes, k + 1);
      next := node.prev;
      prev := node.next;
    }
    node.next := next;
    node.prev := prev;
  }
}
