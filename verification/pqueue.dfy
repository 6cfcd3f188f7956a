/** The intrusive binary heap of rx_proxy/libpqueue/pqueue.c. */
module PriorityQueue {
  import opened Network
  import opened HeapOrder

  class Node {
    var pri: Pri
    const raw: Block
    var pos: nat

    constructor (pri: Pri, raw: Block)
      ensures this.pri == pri && this.raw == raw
    {
      this.pri, this.raw, this.pos := pri, raw, 0;
    }
  }

  /** `out` and `rest` together hold every member of `all` exactly once. */
  ghost predicate IsSplit(all: set<Node>, out: seq<Node>, rest: set<Node>) {
    multiset(out) + multiset(rest) == multiset(all)
  }

  lemma SplitGrows(all: set<Node>, out: seq<Node>, rest: set<Node>, n: Node)
    requires n !in rest && IsSplit(all, out, rest + {n})
    ensures IsSplit(all, out + [n], rest)
  {}

  class PQueue {
    var d: array<Node?>
    var size: nat // slot 0 exists but is not used
    var avail: nat
    const step: nat
    const cmp: (Pri, Pri) -> bool
    ghost var nodes: set<Node> // exactly the queued nodes
    ghost var ps: seq<Pri>     // their priorities, slot by slot

    /** Bounds, back-pointers, membership and priorities, with node `m` standing in for
        slot `i`, the hole of a sift. */
    ghost predicate Holed(i: nat, m: Node)
      reads this, d, nodes, m
    {
      && 1 <= size <= d.Length == avail
      && 1 <= step
      && StrictWeakOrder(cmp)
      && 1 <= i < d.Length && i <= size
      && (i < size <==> m in nodes)
      && (forall j :: 1 <= j < size && j != i ==> d[j] != null && d[j] in nodes && d[j] != m && d[j].pos == j)
      && (forall n :: n in nodes && n != m ==> 1 <= n.pos < size && n.pos != i && d[n.pos] == n)
      && |ps| == size
      && (forall j :: 1 <= j < size ==> ps[j] == (if j == i then m.pri else d[j].pri))
    }

    /** Slot `j`, if live, holds a queued node that points back at it. */
    ghost predicate SlotOk(j: nat)
      reads this, d, nodes
    {
      1 <= j < size ==>
        && j < d.Length && d[j] != null && d[j] in nodes && d[j].pos == j
        && j < |ps| && ps[j] == d[j].pri
    }

    /** A queued node points at the live slot that holds it. */
    ghost predicate NodeOk(n: Node)
      requires n in nodes
      reads this, d, nodes
    {
      1 <= n.pos < size && n.pos < d.Length && d[n.pos] == n
    }

    /** Bounds, back-pointers, membership and priorities. */
    ghost predicate Slots()
      reads this, d, nodes
    {
      && 1 <= size <= d.Length == avail
      && 1 <= step
      && StrictWeakOrder(cmp)
      && |ps| == size
      && (forall j: nat :: SlotOk(j))
      && (forall n {:trigger NodeOk(n)} :: n in nodes ==> NodeOk(n))
    }

    lemma OpenSlots()
      requires Slots()
      ensures forall j :: 1 <= j < size ==> d[j] != null && d[j] in nodes && d[j].pos == j && ps[j] == d[j].pri
      ensures forall n :: n in nodes ==> 1 <= n.pos < size && d[n.pos] == n
    {
      forall j: nat | 1 <= j < size
        ensures d[j] != null && d[j] in nodes && d[j].pos == j && ps[j] == d[j].pri
      {
        assert SlotOk(j);
      }
      forall n | n in nodes
        ensures 1 <= n.pos < size && d[n.pos] == n
      {
        assert NodeOk(n);
      }
    }

    ghost predicate Valid()
      reads this, d, nodes
    {
      Slots() && Ordered(cmp, ps)
    }

    constructor Init(n: nat, cmp: (Pri, Pri) -> bool)
      requires StrictWeakOrder(cmp)
      ensures Valid() && nodes == {} && this.cmp == cmp
      ensures fresh(d) && step == avail == n + 1
    {
      d := new Node?[n + 1](_ => null);
      size := 1;
      avail := n + 1;
      step := n + 1;
      this.cmp := cmp;
      nodes := {};
      ps := [0];
    }

    method Size() returns (n: nat)
      requires Valid()
      ensures n == |nodes|
    {
      n := size - 1;
      OpenSlots();
      assert nodes == FirstNodes(n);
    }

    /** The nodes in the first `k` live slots; there are `k` of them. */
    ghost function FirstNodes(k: nat): (s: set<Node>)
      requires Slots() && k < size
      reads this, d, nodes
      ensures s <= nodes && |s| == k
      ensures forall n :: n in nodes ==> (n in s <==> n.pos <= k)
    {
      OpenSlots();
      if k == 0 then {} else FirstNodes(k - 1) + {d[k]}
    }

    /** One move of a sift: the node in slot `j` moves into the hole `i`. */
    method Shift(i: nat, j: nat, ghost m: Node)
      requires Holed(i, m) && i < size && 1 <= j < size && i != j
      modifies d, nodes`pos, `ps
      ensures Holed(j, m) && ps == Swapped(old(ps), i, j)
      ensures forall k :: 0 <= k < d.Length && k != i ==> d[k] == old(d[k])
    {
      d[i] := d[j];
      d[i].pos := i;
      ps := Swapped(ps, i, j);
    }

    /** The end of a sift: node `m` moves into the hole `i`. */
    method Settle(i: nat, m: Node)
      requires Holed(i, m) && Ordered(cmp, ps)
      modifies d, nodes`pos, m`pos
      ensures Valid() && m.pos == i
      ensures d[i] == m && forall k :: 0 <= k < d.Length && k != i ==> d[k] == old(d[k])
    {
      d[i] := m;
      m.pos := i;
    }

    /** Moves the node in slot `start` towards the root through a moving hole. The ghost
        result is the walk of the hole, read from the root side. Another node at the root
        stays there unless the moving one outranks it. */
    method BubbleUp(start: nat, ghost m: Node) returns (ghost path: seq<nat>)
      requires start < d.Length && d[start] == m && Holed(start, m)
      requires start < size && OrderedAbove(cmp, ps, start)
      modifies d, nodes`pos, `ps
      ensures Valid() && Descent(path, m.pos, start) && |path| - 1 <= Log2(start)
      ensures 1 <= m.pos <= start && d[m.pos] == m
      ensures start > 1 ==> if m.pos == 1 then Outranked(cmp, old(ps[1]), m.pri) else d[1] == old(d[1])
    {
      var i := start;
      var moving := d[i];
      var parent := i / 2;
      path := [start];
      while i > 1 && Outranked(cmp, d[parent].pri, moving.pri)
        invariant parent == i / 2 && 1 <= i < size
        invariant Holed(i, moving) && OrderedAbove(cmp, ps, i)
        invariant Descent(path, i, start)
        invariant if i == 1 then start > 1 ==> Outranked(cmp, old(ps[1]), m.pri)
                  else d[1] == old(d[1]) && ps[1] == old(ps[1])
        decreases i
      {
        BubbleStep(cmp, ps, i);
        Shift(i, parent, moving);
        DescentGrows(path, i, start, parent);
        path := [parent] + path;
        i, parent := parent, parent / 2;
      }
      DescentBound(path, i, start, start);
      Settle(i, moving);
    }

    /** The child of slot `i` that its sibling does not outrank, or 0 for a leaf. */
    method MaxChildOf(i: nat, ghost m: Node) returns (child: nat)
      requires Holed(i, m)
      ensures child == 0 <==> 2 * i >= size
      ensures child != 0 ==> i < child < size && i == child / 2
      ensures child != 0 ==> forall j :: i < j < size && i == j / 2 ==> !Outranked(cmp, ps[child], ps[j])
      ensures child == MaxChild(cmp, ps, i)
    {
      MaxChildLeads(cmp, ps, i);
      child := 2 * i;
      if child >= size {
        return 0;
      }
      if child + 1 < size && Outranked(cmp, d[child].pri, d[child + 1].pri) {
        child := child + 1;
      }
    }

    /** One test of the loop that sinks a node and, if the test succeeds, one move: the
        hole moves to the returned child, and 0 means that it has found its place. */
    method SinkOnce(i: nat, m: Node) returns (child: nat)
      requires Holed(i, m) && OrderedBelow(cmp, ps, i)
      modifies d, nodes`pos, `ps
      ensures if child == 0 then Holed(i, m) && Ordered(cmp, ps) else Holed(child, m) && OrderedBelow(cmp, ps, child)
      ensures child != 0 ==> i < child < size && i == child / 2
    {
      child := MaxChildOf(i, m);
      if child == 0 || !Outranked(cmp, m.pri, d[child].pri) {
        PercolateDone(cmp, ps, i);
        return 0;
      }
      PercolateStep(cmp, ps, i);
      Shift(i, child, m);
    }

    /** Moves the node in slot `start` towards the leaves through a moving hole. The slot
        may be the first dead one, where removing the last element puts it. */
    method PercolateDown(start: nat, ghost m: Node) returns (ghost path: seq<nat>)
      requires start < d.Length && d[start] == m && Holed(start, m)
      requires OrderedBelow(cmp, ps, start)
      modifies d, nodes`pos, m`pos, `ps
      ensures Valid() && Descent(path, start, m.pos)
      ensures m.pos < size || m.pos == start
      ensures start < size ==> (size - 1) / start >= 1 && |path| - 1 <= Log2((size - 1) / start)
      ensures start >= size ==> |path| == 1
    {
      var i := start;
      var moving := d[i];
      path := [start];
      while true
        invariant Holed(i, moving) && OrderedBelow(cmp, ps, i)
        invariant Descent(path, start, i)
        invariant if start < size then start <= i < size else i == start && |path| == 1
        decreases size - i
      {
        var child := SinkOnce(i, moving);
        if child == 0 {
          break;
        }
        DescentGrows(path, start, i, child);
        i, path := child, path + [child];
      }
      DescentWithin(path, start, i, size);
      Settle(i, moving);
    }

    /** Adds a node, growing the array by `step` when it is full. The node on top stays there
        unless the new one outranks it. */
    method Insert(n: Node)
      requires Valid() && n !in nodes
      modifies this, d, nodes`pos, n`pos
      ensures Valid() && nodes == old(nodes) + {n}
      ensures size == old(size) + 1
      ensures if old(size) < old(avail) then d == old(d) && avail == old(avail)
              else fresh(d) && avail == old(size) + step
      ensures old(size) > 1 && !Outranked(cmp, old(ps[1]), n.pri) ==> d[1] == old(d[1])
    {
      OpenSlots();
      if size >= avail {
        Grow();
      }
      var i := Append(n);
      ghost var path := BubbleUp(i, n);
    }

    /** Puts a node into the first dead slot. */
    method Append(n: Node) returns (i: nat)
      requires Valid() && n !in nodes && size < avail
      modifies `size, `nodes, `ps, d
      ensures i == old(size) && size == i + 1 && nodes == old(nodes) + {n} && ps == old(ps) + [n.pri]
      ensures d[i] == n && Holed(i, n) && OrderedAbove(cmp, ps, i)
      ensures i > 1 ==> d[1] == old(d[1])
    {
      OpenSlots();
      i := size;
      size := size + 1;
      d[i] := n;
      nodes, ps := nodes + {n}, ps + [n.pri];
    }

    method Grow()
      requires Valid()
      modifies `d, `avail
      ensures Valid() && fresh(d) && avail == size + step
      ensures d[..size] == old(d[..size])
    {
      OpenSlots();
      var newsize := size + step;
      var tmp := new Node?[newsize](_ => null);
      forall k | 0 <= k < size {
        tmp[k] := d[k];
      }
      d := tmp;
      avail := newsize;
    }

    /** Moves a queued node to its place under a new priority. */
    method ChangePriority(newPri: Pri, n: Node)
      requires Valid() && n in nodes
      modifies d, nodes`pos, n`pri, `ps
      ensures Valid() && n.pri == newPri
    {
      OpenSlots();
      var oldPri := n.pri;
      n.pri := newPri;
      var posn := n.pos;
      ghost var qs := ps;
      ps := ps[posn := newPri];
      if Outranked(cmp, oldPri, newPri) {
        RefillUp(cmp, qs, posn, newPri);
        ghost var path := BubbleUp(posn, n);
      } else {
        RefillDown(cmp, qs, posn, newPri);
        ghost var path := PercolateDown(posn, n);
      }
    }

    /** Drops the last slot. */
    method DropLast(i: nat, ghost n: Node) returns (last: Node)
      requires Valid() && 1 <= i < size && d[i] == n
      modifies `size, `nodes, `ps
      ensures size == old(size) - 1 && nodes == old(nodes) - {n} && ps == Refilled(old(ps), i)
      ensures i <= size < d.Length == avail && last in old(nodes) && last == d[size] && last.pri == old(ps[size - 1])
      ensures i < size <==> last in nodes
      ensures forall j :: 1 <= j < size && j != i ==>
        d[j] != null && d[j] in nodes && d[j] != last && d[j].pos == j && ps[j] == d[j].pri
      ensures forall m :: m in nodes && m != last ==> 1 <= m.pos < size && m.pos != i && d[m.pos] == m
    {
      OpenSlots();
      size := size - 1;
      last := d[size];
      nodes, ps := nodes - {n}, Refilled(ps, i);
    }

    /** Drops the node in slot `i`; the last element takes its slot. */
    method FillFromLast(i: nat, ghost n: Node) returns (last: Node)
      requires Valid() && 1 <= i < size && d[i] == n
      modifies `size, `nodes, `ps, d
      ensures nodes == old(nodes) - {n} && ps == Refilled(old(ps), i)
      ensures last in old(nodes) && last.pri == old(ps[size - 1])
      ensures d[i] == last && Holed(i, last)
    {
      last := DropLast(i, n);
      d[i] := last;
    }

    /** Takes out any queued node, wherever it sits; the last element fills its slot. */
    method Remove(n: Node)
      requires Valid() && n in nodes
      modifies this, d, nodes`pos
      ensures Valid() && nodes == old(nodes) - {n} && d == old(d)
    {
      OpenSlots();
      var posn := n.pos;
      var last := FillFromLast(posn, n);
      if Outranked(cmp, n.pri, last.pri) {
        RefilledUp(cmp, old(ps), posn);
        ghost var path := BubbleUp(posn, last);
      } else {
        RefilledDown(cmp, old(ps), posn);
        ghost var path := PercolateDown(posn, last);
      }
    }

    /** No member of `others` outranks `n`. */
    ghost predicate Leads(n: Node, others: set<Node>)
      reads n, others
    {
      forall m :: m in others ==> !Outranked(cmp, n.pri, m.pri)
    }

    method Pop() returns (head: Node?)
      requires Valid()
      modifies this, d, nodes`pos
      ensures Valid() && d == old(d)
      ensures if head == null then nodes == old(nodes) == {} else head in old(nodes) && nodes == old(nodes) - {head}
      ensures head != null ==> Leads(head, old(nodes)) && old(size) > 1 && head == old(d[1])
    {
      OpenSlots();
      if size == 1 {
        return null;
      }
      RootLeads();
      head := d[1];
      var last := FillFromLast(1, head);
      RefilledDown(cmp, old(ps), 1);
      ghost var path := PercolateDown(1, last);
    }

    method Peek() returns (head: Node?)
      requires Valid()
      ensures if head == null then nodes == {} else size > 1 && head == d[1] && head in nodes && Leads(head, nodes)
    {
      OpenSlots();
      if size == 1 {
        return null;
      }
      head := d[1];
      RootLeads();
    }

    lemma RootLeads()
      requires Valid() && size > 1
      ensures d[1] in nodes && Leads(d[1], nodes)
    {
      OpenSlots();
      forall n | n in nodes
        ensures !Outranked(cmp, d[1].pri, n.pri)
      {
        UnderRoot(n.pos);
        AncestorOutranks(cmp, ps, 1, n.pos);
      }
    }

    /** Pops until the queue is empty, as printing a queue does with its duplicate. */
    method Drain() returns (out: seq<Node>)
      requires Valid()
      modifies this, d, nodes`pos
      ensures Valid() && nodes == {}
      ensures IsSplit(old(nodes), out, {})
      ensures forall i, j :: 0 <= i < j < |out| ==> !Outranked(cmp, out[i].pri, out[j].pri)
    {
      out := [];
      ghost var all, qs: seq<Pri> := nodes, [];
      while true
        invariant Valid() && d == old(d) && nodes <= all
        invariant IsSplit(all, out, nodes)
        invariant |qs| == |out| && forall i :: 0 <= i < |out| ==> qs[i] == out[i].pri
        invariant Sorted(cmp, qs)
        invariant out != [] ==> Leads(out[|out| - 1], nodes)
        decreases nodes
      {
        ghost var before := nodes;
        var e := Pop();
        if e == null {
          break;
        }
        SortedGrows(cmp, qs, e.pri);
        assert nodes + {e} == before;
        SplitGrows(all, out, nodes, e);
        out, qs := out + [e], qs + [e.pri];
      }
    }

    /** The live slots hold nodes; nothing is said of back-pointers or of the comparator. */
    ghost predicate Live()
      reads this, d
    {
      1 <= size <= d.Length && forall j :: 1 <= j < size ==> d[j] != null
    }

    /** The priorities found in the live slots. */
    ghost function Pris(): (qs: seq<Pri>)
      requires Live()
      reads this, d, d[..]
      ensures |qs| == size && forall j :: 1 <= j < size ==> qs[j] == d[j].pri
    {
      seq(size, j requires 0 <= j < size && Live() reads this, d, d[..] => if j == 0 then 0 else d[j].pri)
    }

    /** The recursive validity check of the subtree rooted at `pos`. */
    predicate SubtreeIsValid(pos: nat): (ok: bool)
      requires Live() && pos >= 1
      reads this, d, d[..]
      ensures ok <==> SubtreeOrdered(cmp, Pris(), pos)
      decreases size - pos
    {
      SubtreeSplit(cmp, Pris(), pos);
      var left, right := 2 * pos, 2 * pos + 1;
      && (left < size ==> !Outranked(cmp, d[pos].pri, d[left].pri) && SubtreeIsValid(left))
      && (right < size ==> !Outranked(cmp, d[pos].pri, d[right].pri) && SubtreeIsValid(right))
    }

    /** True exactly when no node in a live slot is outranked by a child of its slot. */
    predicate IsValid(): (ok: bool)
      requires Live()
      reads this, d, d[..]
      ensures ok <==> Ordered(cmp, Pris())
    {
      SubtreeOfRoot(cmp, Pris());
      SubtreeIsValid(1)
    }

    /** Whatever the operations above return passes the check. */
    lemma ValidIsChecked()
      requires Valid()
      ensures Live() && IsValid()
    {
      OpenSlots();
      assert Pris()[1..] == ps[1..];
      assert forall j :: 1 <= j < size ==> Pris()[j] == ps[j];
    }
  }
}
