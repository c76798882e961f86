/** Singly linked lists, as the client keeps its scheduler entries, alarms, requests and telemetry
    features: a head pointer, nodes appended at the tail by walking, nodes unlinked in place.
    The ghost field `spine` is the list of node objects, so that a cursor held across a re-entrant
    call can still be located. */
module LinkedLists {

  /** The sequence with the element at position `i` left out. */
  function Without<T>(s: seq<T>, i: nat): (r: seq<T>)
    requires i < |s|
    ensures |r| == |s| - 1
  {
    s[..i] + s[i + 1..]
  }

  lemma TakenOut<T>(s: seq<T>, i: nat)
    requires i < |s|
    ensures multiset(s) == multiset(Without(s, i)) + multiset{s[i]}
  {
    assert s == s[..i] + [s[i]] + s[i + 1..];
  }

  /** The nodes of a list that was only appended to. */
  ghost predicate Grows<T>(before: seq<T>, after: seq<T>) {
    before <= after
  }

  class Node<T> {
    var data: T
    var next: Node?<T>
    ghost var pos: nat  // where the node stands in its list, so that no list visits it twice

    constructor (d: T, ghost i: nat)
      ensures data == d && next == null && pos == i
    {
      data, next, pos := d, null, i;
    }
  }

  class LinkedList<T> {
    var head: Node?<T>
    ghost var spine: seq<Node<T>>
    ghost var items: seq<T>        // what the nodes hold, in order
    ghost var nodes: set<Node<T>>  // the nodes that are or were in the list

    /** The node at position `i`, or null past the end. */
    ghost function NodeAt(i: nat): Node?<T>
      reads this
    {
      if i < |spine| then spine[i] else null
    }

    ghost predicate LinkedAt(i: nat)
      requires i < |spine| == |items|
      reads this, spine[i]
    {
      spine[i].data == items[i] && spine[i].next == NodeAt(i + 1) && spine[i].pos == i
    }

    /** How many nodes in a row, from position `i` on, hold their item and lead to the next node. */
    ghost function Linked(i: nat): nat
      requires |items| == |spine|
      reads this, nodes
      decreases |spine| - i
    {
      if i < |spine| && spine[i] in nodes && LinkedAt(i) then 1 + Linked(i + 1) else 0
    }

    /** A walk from the head reaches every node. */
    ghost predicate Valid()
      reads this, nodes
    {
      |items| == |spine| && head == NodeAt(0) && Linked(0) == |spine|
    }

    lemma {:induction false} Reach(i: nat, k: nat)
      requires |items| == |spine| && Linked(i) >= |spine| - i && i <= k < |spine|
      ensures spine[k] in nodes && LinkedAt(k)
      decreases k - i
    {
      if i < k { Reach(i + 1, k); }
    }

    /** What a walk finds at position `k`. */
    lemma At(k: nat)
      requires Valid() && k < |spine|
      ensures spine[k] in nodes && LinkedAt(k)
    {
      Reach(0, k);
    }

    /** All nodes at once, for the methods of this class. */
    ghost predicate AllLinked()
      reads this, nodes
    {
      && |items| == |spine|
      && (forall i {:trigger spine[i]} | 0 <= i < |spine| :: spine[i] in nodes)
      && (forall i {:trigger spine[i].data} | 0 <= i < |spine| :: spine[i].data == items[i])
      && (forall i {:trigger spine[i].next} | 0 <= i < |spine| :: spine[i].next == NodeAt(i + 1))
      && (forall i {:trigger spine[i].pos} | 0 <= i < |spine| :: spine[i].pos == i)
    }

    lemma AllAt()
      requires Valid()
      ensures AllLinked()
    {
      forall k | 0 <= k < |spine| ensures spine[k] in nodes && LinkedAt(k) {
        At(k);
      }
    }

    lemma {:induction false} Link(i: nat)
      requires AllLinked()
      ensures i <= |spine| ==> Linked(i) == |spine| - i
      decreases |spine| - i
    {
      if i < |spine| { Link(i + 1); }
    }

    /** No node stands at two places. */
    lemma Separate(i: nat)
      requires AllLinked() && i < |spine|
      ensures forall k | 0 <= k < |spine| && k != i :: spine[k] != spine[i]
    {
      assert spine[i].pos == i;
      assert forall k {:trigger spine[k]} | 0 <= k < |spine| :: spine[k].pos == k;
    }

    constructor ()
      ensures Valid() && items == [] && nodes == {}
    {
      head, spine, items, nodes := null, [], [], {};
    }

    /** Overwrites the record in the node at position `i`. */
    method Update(p: Node<T>, ghost i: nat, x: T)
      requires Valid() && i < |spine| && p == spine[i]
      modifies this`items, p
      ensures Valid() && items == old(items)[i := x]
    {
      AllAt();
      Separate(i);
      p.data := x;
      items := items[i := x];
      Link(0);
    }

    /** Records a node that is already linked behind the last one. */
    ghost method Extend(ent: Node<T>, x: T)
      requires |items| == |spine| && head == (if spine == [] then ent else spine[0])
      requires forall i {:trigger spine[i].data} | 0 <= i < |spine| :: spine[i].data == items[i]
      requires forall i {:trigger spine[i]} | 0 <= i < |spine| :: spine[i] in nodes
      requires forall i {:trigger spine[i].next} | 0 <= i < |spine| ::
                 spine[i].next == if i == |spine| - 1 then ent else spine[i + 1]
      requires forall i {:trigger spine[i].pos} | 0 <= i < |spine| :: spine[i].pos == i
      requires ent.data == x && ent.next == null && ent.pos == |spine|
      modifies this
      ensures Valid() && Grows(old(spine), spine) && nodes == old(nodes) + {ent} && items == old(items) + [x]
    {
      spine, items, nodes := spine + [ent], items + [x], nodes + {ent};
      Link(0);
    }

    method Append(x: T)
      requires Valid()
      modifies this, nodes
      ensures Valid()
      ensures Grows(old(spine), spine) && fresh(nodes - old(nodes))
      ensures items == old(items) + [x]
    {
      AllAt();
      var ent := new Node(x, |spine|);
      if head == null {
        head := ent;
      } else {
        var p := head;
        ghost var i := 0;
        while p.next != null
          invariant i < |spine| && p == spine[i]
          decreases |spine| - i
        {
          p := p.next;
          i := i + 1;
        }
        Separate(i);
        p.next := ent;
      }
      Extend(ent, x);
    }

    /** Takes `p` out of the list, given its predecessor `prev` when it is not the head.
        The node itself keeps its fields. */
    method Unlink(prev: Node?<T>, p: Node<T>, ghost i: nat)
      requires Valid()
      requires i < |spine| && p == spine[i]
      requires i > 0 ==> prev == spine[i - 1]
      modifies this, nodes
      ensures Valid() && nodes == old(nodes)
      ensures spine == Without(old(spine), i)
      ensures items == Without(old(items), i)
      ensures p.data == old(p.data) && p.next == old(p.next)
    {
      AllAt();
      assert p.next == NodeAt(i + 1) && p.pos == i;
      if p == head {
        assert spine[0].pos == 0;
        head := p.next;
      } else {
        Separate(i - 1);
        prev.next := p.next;
      }
      Forget(i);
    }

    /** Records that the node at position `i` is linked around. */
    ghost method Forget(i: nat)
      requires i < |spine| == |items|
      requires head == if i == 0 then NodeAt(1) else spine[0]
      requires forall k {:trigger spine[k].data} | 0 <= k < |spine| :: spine[k].data == items[k]
      requires forall k {:trigger spine[k]} | 0 <= k < |spine| :: spine[k] in nodes
      requires forall k {:trigger spine[k].next} | 0 <= k < |spine| ::
                 spine[k].next == NodeAt(if k + 1 == i then i + 1 else k + 1)
      requires forall k {:trigger spine[k].pos} | 0 <= k < |spine| :: spine[k].pos == k
      modifies this`spine, this`items, nodes`pos
      ensures Valid()
      ensures spine == Without(old(spine), i) && items == Without(old(items), i)
    {
      ghost var after := spine[i + 1..];
      forall n | n in after {
        n.pos := n.pos - 1;
      }
      spine, items := Without(spine, i), Without(items, i);
      Link(0);
    }
  }
}
