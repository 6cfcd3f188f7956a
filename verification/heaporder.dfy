/** Heap order over the priorities of a 1-based array heap (slot 0 is not used):
    what one move of a sift does to it. */
module HeapOrder {
  type Pri = p: nat | p < 0x1_0000_0000_0000_0000

  /** A call of the comparator callback: does `curr` outrank `next`? */
  predicate Outranked(cmp: (Pri, Pri) -> bool, next: Pri, curr: Pri) {
    cmp(next, curr)
  }

  ghost predicate StrictWeakOrder(cmp: (Pri, Pri) -> bool) {
    forall a: Pri, b: Pri, c: Pri :: OrderLaws(cmp, a, b, c)
  }

  /** Irreflexive, transitive, and incomparability is transitive. */
  predicate OrderLaws(cmp: (Pri, Pri) -> bool, a: Pri, b: Pri, c: Pri) {
    && !Outranked(cmp, a, a)
    && (Outranked(cmp, a, b) && Outranked(cmp, b, c) ==> Outranked(cmp, a, c))
    && (Outranked(cmp, a, c) ==> Outranked(cmp, a, b) || Outranked(cmp, b, c))
  }

  /** The comparator rx_proxy installs: the smallest sequence number outranks. */
  predicate CmpPri(next: Pri, curr: Pri) {
    next > curr
  }

  lemma CmpPriIsStrictWeakOrder()
    ensures StrictWeakOrder(CmpPri)
  {}

  /** No child outranks its parent. */
  ghost predicate Ordered(cmp: (Pri, Pri) -> bool, ps: seq<Pri>) {
    forall p, c :: 1 <= p < c < |ps| && p == c / 2 ==> !Outranked(cmp, ps[p], ps[c])
  }

  /** Only the edge above slot `i` may be out of order. */
  ghost predicate OrderedAbove(cmp: (Pri, Pri) -> bool, ps: seq<Pri>, i: nat) {
    && (forall p, c :: 1 <= p < c < |ps| && p == c / 2 && c != i ==> !Outranked(cmp, ps[p], ps[c]))
    && (forall g, c :: 1 <= g < c < |ps| && i == c / 2 && g == i / 2 ==> !Outranked(cmp, ps[g], ps[c]))
  }

  /** Only the edges below slot `i` may be out of order. */
  ghost predicate OrderedBelow(cmp: (Pri, Pri) -> bool, ps: seq<Pri>, i: nat) {
    && (forall p, c :: 1 <= p < c < |ps| && p == c / 2 && p != i ==> !Outranked(cmp, ps[p], ps[c]))
    && (forall g, c :: 1 <= g < c < |ps| && i == c / 2 && g == i / 2 ==> !Outranked(cmp, ps[g], ps[c]))
  }

  function Swapped(ps: seq<Pri>, i: nat, j: nat): (qs: seq<Pri>)
    requires i < |ps| && j < |ps|
    ensures |qs| == |ps|
  {
    ps[i := ps[j]][j := ps[i]]
  }

  lemma BubbleStep(cmp: (Pri, Pri) -> bool, ps: seq<Pri>, i: nat)
    requires StrictWeakOrder(cmp) && OrderedAbove(cmp, ps, i)
    requires 2 <= i < |ps| && Outranked(cmp, ps[i / 2], ps[i])
    ensures OrderedAbove(cmp, Swapped(ps, i, i / 2), i / 2)
  {
    var h := i / 2;
    var qs := Swapped(ps, i, h);
    forall p, c | 1 <= p < c < |qs| && p == c / 2 && c != h
      ensures !Outranked(cmp, qs[p], qs[c])
    {
      if p == h {
        assert OrderLaws(cmp, ps[i], ps[h], ps[i]);
        assert OrderLaws(cmp, ps[h], ps[i], ps[c]);
      } else if p == i {
        assert !Outranked(cmp, ps[h], ps[c]);
      } else if p != h {
        assert !Outranked(cmp, ps[p], ps[c]);
      }
    }
    forall g, c | 1 <= g < c < |qs| && h == c / 2 && g == h / 2
      ensures !Outranked(cmp, qs[g], qs[c])
    {
      assert !Outranked(cmp, ps[g], ps[h]);
      assert OrderLaws(cmp, ps[g], ps[h], ps[c]);
    }
  }

  /** The child of `i` that no sibling outranks, or 0 for a leaf. */
  function MaxChild(cmp: (Pri, Pri) -> bool, ps: seq<Pri>, i: nat): nat
    requires i >= 1
  {
    if 2 * i >= |ps| then 0
    else if 2 * i + 1 < |ps| && Outranked(cmp, ps[2 * i], ps[2 * i + 1]) then 2 * i + 1
    else 2 * i
  }

  lemma MaxChildLeads(cmp: (Pri, Pri) -> bool, ps: seq<Pri>, i: nat)
    requires StrictWeakOrder(cmp) && i >= 1
    ensures var m := MaxChild(cmp, ps, i);
      m != 0 ==> forall j :: i < j < |ps| && i == j / 2 ==> !Outranked(cmp, ps[m], ps[j])
  {
    var m := MaxChild(cmp, ps, i);
    if m != 0 {
      forall j | i < j < |ps| && i == j / 2
        ensures !Outranked(cmp, ps[m], ps[j])
      {
        assert j == 2 * i || j == 2 * i + 1;
        assert OrderLaws(cmp, ps[2 * i], ps[m], ps[2 * i]);
        assert OrderLaws(cmp, ps[m], ps[m], ps[m]);
      }
    }
  }

  lemma PercolateStep(cmp: (Pri, Pri) -> bool, ps: seq<Pri>, i: nat)
    requires StrictWeakOrder(cmp) && OrderedBelow(cmp, ps, i)
    requires 1 <= i < |ps|
    requires var m := MaxChild(cmp, ps, i); m != 0 && Outranked(cmp, ps[i], ps[m])
    ensures var m := MaxChild(cmp, ps, i); OrderedBelow(cmp, Swapped(ps, i, m), m)
  {
    var m := MaxChild(cmp, ps, i);
    var qs := Swapped(ps, i, m);
    forall p, c | 1 <= p < c < |qs| && p == c / 2 && p != m
      ensures !Outranked(cmp, qs[p], qs[c])
    {
      if p == i {
        assert c == 2 * i || c == 2 * i + 1;
        assert OrderLaws(cmp, ps[i], ps[m], ps[i]);
        assert OrderLaws(cmp, ps[2 * i], ps[m], ps[2 * i]);
      } else {
        assert !Outranked(cmp, ps[p], ps[c]);
        if c == i {
          assert !Outranked(cmp, ps[p], ps[m]);
        }
      }
    }
    forall g, c | 1 <= g < c < |qs| && m == c / 2 && g == m / 2
      ensures !Outranked(cmp, qs[g], qs[c])
    {
      assert g == i && !Outranked(cmp, ps[m], ps[c]);
    }
  }

  lemma PercolateDone(cmp: (Pri, Pri) -> bool, ps: seq<Pri>, i: nat)
    requires StrictWeakOrder(cmp) && OrderedBelow(cmp, ps, i)
    requires i >= 1
    requires var m := MaxChild(cmp, ps, i); i < |ps| && m != 0 ==> !Outranked(cmp, ps[i], ps[m])
    ensures Ordered(cmp, ps)
  {
    forall p, c | 1 <= p < c < |ps| && p == c / 2
      ensures !Outranked(cmp, ps[p], ps[c])
    {
      if p == i {
        assert c == 2 * i || c == 2 * i + 1;
        assert OrderLaws(cmp, ps[i], ps[MaxChild(cmp, ps, i)], ps[c]);
        assert OrderLaws(cmp, ps[2 * i], ps[MaxChild(cmp, ps, i)], ps[2 * i]);
      }
    }
  }

  /** A slot refilled with something that outranks what it held can only be out of order
      with its parent. */
  lemma RefillUp(cmp: (Pri, Pri) -> bool, ps: seq<Pri>, i: nat, x: Pri)
    requires StrictWeakOrder(cmp) && Ordered(cmp, ps)
    requires 1 <= i < |ps| && Outranked(cmp, ps[i], x)
    ensures OrderedAbove(cmp, ps[i := x], i)
  {
    var qs := ps[i := x];
    forall p, c | 1 <= p < c < |qs| && p == c / 2 && c != i
      ensures !Outranked(cmp, qs[p], qs[c])
    {
      assert OrderLaws(cmp, ps[i], x, ps[c]);
      assert !Outranked(cmp, ps[p], ps[c]);
    }
    RefillKeepsGrandparents(cmp, ps, i);
  }

  /** A slot refilled with anything else can only be out of order with its children. The
      root has no parent, so there the comparison does not matter. */
  lemma RefillDown(cmp: (Pri, Pri) -> bool, ps: seq<Pri>, i: nat, x: Pri)
    requires StrictWeakOrder(cmp) && Ordered(cmp, ps)
    requires 1 <= i < |ps| && (i == 1 || !Outranked(cmp, ps[i], x))
    ensures OrderedBelow(cmp, ps[i := x], i)
  {
    var qs := ps[i := x];
    forall p, c | 1 <= p < c < |qs| && p == c / 2 && p != i
      ensures !Outranked(cmp, qs[p], qs[c])
    {
      assert !Outranked(cmp, ps[p], ps[c]);
      assert OrderLaws(cmp, ps[p], ps[i], x);
    }
    RefillKeepsGrandparents(cmp, ps, i);
  }

  lemma RefillKeepsGrandparents(cmp: (Pri, Pri) -> bool, ps: seq<Pri>, i: nat)
    requires StrictWeakOrder(cmp) && Ordered(cmp, ps)
    ensures forall g, c :: 1 <= g < c < |ps| && i == c / 2 && g == i / 2 ==> !Outranked(cmp, ps[g], ps[c])
  {
    forall g, c | 1 <= g < c < |ps| && i == c / 2 && g == i / 2
      ensures !Outranked(cmp, ps[g], ps[c])
    {
      assert !Outranked(cmp, ps[g], ps[i]) && !Outranked(cmp, ps[i], ps[c]);
      assert OrderLaws(cmp, ps[g], ps[i], ps[c]);
    }
  }

  /** The array once its last element has been moved into slot `i`. */
  function Refilled(ps: seq<Pri>, i: nat): (qs: seq<Pri>)
    requires 1 <= i < |ps|
    ensures |qs| == |ps| - 1
    ensures forall j :: 1 <= j < |qs| ==> qs[j] == if j == i then ps[|ps| - 1] else ps[j]
  {
    var qs := ps[..|ps| - 1];
    if i < |qs| then qs[i := ps[|ps| - 1]] else qs
  }

  lemma RefilledUp(cmp: (Pri, Pri) -> bool, ps: seq<Pri>, i: nat)
    requires StrictWeakOrder(cmp) && Ordered(cmp, ps)
    requires 1 <= i < |ps| && Outranked(cmp, ps[i], ps[|ps| - 1])
    ensures i < |ps| - 1 && OrderedAbove(cmp, Refilled(ps, i), i)
  {
    assert OrderLaws(cmp, ps[i], ps[i], ps[i]);
    RefillUp(cmp, ps[..|ps| - 1], i, ps[|ps| - 1]);
  }

  lemma RefilledDown(cmp: (Pri, Pri) -> bool, ps: seq<Pri>, i: nat)
    requires StrictWeakOrder(cmp) && Ordered(cmp, ps)
    requires 1 <= i < |ps| && (i == 1 || !Outranked(cmp, ps[i], ps[|ps| - 1]))
    ensures OrderedBelow(cmp, Refilled(ps, i), i)
  {
    if i < |ps| - 1 {
      RefillDown(cmp, ps[..|ps| - 1], i, ps[|ps| - 1]);
    }
  }

  /** No later element outranks an earlier one. */
  ghost predicate Sorted(cmp: (Pri, Pri) -> bool, ps: seq<Pri>) {
    forall i, j :: 0 <= i < j < |ps| ==> !Outranked(cmp, ps[i], ps[j])
  }

  lemma SortedGrows(cmp: (Pri, Pri) -> bool, ps: seq<Pri>, x: Pri)
    requires StrictWeakOrder(cmp) && Sorted(cmp, ps)
    requires ps != [] ==> !Outranked(cmp, ps[|ps| - 1], x)
    ensures Sorted(cmp, ps + [x])
  {
    forall i | 0 <= i < |ps|
      ensures !Outranked(cmp, ps[i], x)
    {
      assert i == |ps| - 1 || !Outranked(cmp, ps[i], ps[|ps| - 1]);
      assert OrderLaws(cmp, ps[i], ps[|ps| - 1], x);
    }
  }

  // ---------------------------------------------------------------- ancestors and subtrees

  /** Is slot `a` the slot `s` itself or an ancestor of it? */
  predicate IsUnder(s: nat, a: nat) {
    s == a || (s > a && IsUnder(s / 2, a))
  }

  lemma {:induction false} UnderRoot(s: nat)
    requires s >= 1
    ensures IsUnder(s, 1)
  {
    if s > 1 {
      UnderRoot(s / 2);
    }
  }

  lemma {:induction false} UnderSplit(s: nat, a: nat)
    requires a >= 1
    ensures IsUnder(s, a) <==> s == a || IsUnder(s, 2 * a) || IsUnder(s, 2 * a + 1)
  {
    if s > a {
      UnderSplit(s / 2, a);
    }
  }

  lemma {:induction false} AncestorOutranks(cmp: (Pri, Pri) -> bool, ps: seq<Pri>, a: nat, s: nat)
    requires StrictWeakOrder(cmp) && Ordered(cmp, ps)
    requires 1 <= a && s < |ps| && IsUnder(s, a)
    ensures !Outranked(cmp, ps[a], ps[s])
  {
    assert OrderLaws(cmp, ps[a], ps[a], ps[a]);
    if s > a {
      AncestorOutranks(cmp, ps, a, s / 2);
      assert !Outranked(cmp, ps[s / 2], ps[s]);
      assert OrderLaws(cmp, ps[a], ps[s / 2], ps[s]);
    }
  }

  /** Heap order is the same as: no slot is outranked by any slot below it. */
  lemma OrderedMeansAncestorsOutrank(cmp: (Pri, Pri) -> bool, ps: seq<Pri>)
    requires StrictWeakOrder(cmp)
    ensures Ordered(cmp, ps) <==>
            forall a, s :: 1 <= a < |ps| && 1 <= s < |ps| && IsUnder(s, a) ==> !Outranked(cmp, ps[a], ps[s])
  {
    if Ordered(cmp, ps) {
      forall a, s | 1 <= a < |ps| && 1 <= s < |ps| && IsUnder(s, a)
        ensures !Outranked(cmp, ps[a], ps[s])
      {
        AncestorOutranks(cmp, ps, a, s);
      }
    } else {
      var p, c :| 1 <= p < c < |ps| && p == c / 2 && Outranked(cmp, ps[p], ps[c]);
      assert IsUnder(c, p);
    }
  }

  /** No child outranks its parent anywhere in the subtree rooted at `pos`. */
  ghost predicate SubtreeOrdered(cmp: (Pri, Pri) -> bool, ps: seq<Pri>, pos: nat) {
    forall p, c :: 1 <= p < c < |ps| && p == c / 2 && IsUnder(p, pos) ==> !Outranked(cmp, ps[p], ps[c])
  }

  lemma SubtreeSplit(cmp: (Pri, Pri) -> bool, ps: seq<Pri>, pos: nat)
    requires pos >= 1
    ensures SubtreeOrdered(cmp, ps, pos) <==>
      && (2 * pos < |ps| ==> !Outranked(cmp, ps[pos], ps[2 * pos]) && SubtreeOrdered(cmp, ps, 2 * pos))
      && (2 * pos + 1 < |ps| ==> !Outranked(cmp, ps[pos], ps[2 * pos + 1]) && SubtreeOrdered(cmp, ps, 2 * pos + 1))
  {
    forall p: nat {
      UnderSplit(p, pos);
    }
  }

  lemma SubtreeOfRoot(cmp: (Pri, Pri) -> bool, ps: seq<Pri>)
    ensures SubtreeOrdered(cmp, ps, 1) <==> Ordered(cmp, ps)
  {
    forall p: nat | p >= 1 {
      UnderRoot(p);
    }
  }

  // ---------------------------------------------------------------- logarithmic bounds

  function Pow2(n: nat): (p: nat)
    ensures p >= 1
  {
    if n == 0 then 1 else 2 * Pow2(n - 1)
  }

  /** floor(log2 n) */
  function Log2(n: nat): (l: nat)
    requires n >= 1
    ensures Pow2(l) <= n < Pow2(l + 1)
  {
    if n == 1 then 0 else 1 + Log2(n / 2)
  }

  lemma {:induction false} Log2Bound(m: nat, n: nat)
    requires n >= 1 && Pow2(m) <= n
    ensures m <= Log2(n)
  {
    if m > 0 {
      Log2Bound(m - 1, n / 2);
    }
  }

  /** A walk from slot `a` towards the leaves, each slot followed by one of its children. */
  ghost predicate Descent(path: seq<nat>, a: nat, b: nat) {
    && path != [] && path[0] == a && path[|path| - 1] == b
    && (forall j, k :: 0 <= j < k < |path| && k == j + 1 ==> path[j] == path[k] / 2)
  }

  lemma DescentGrows(path: seq<nat>, a: nat, b: nat, slot: nat)
    requires Descent(path, a, b)
    ensures b == slot / 2 ==> Descent(path + [slot], a, slot)
    ensures slot == a / 2 ==> Descent([slot] + path, slot, b)
  {}

  lemma {:induction false} DescentScaled(path: seq<nat>, a: nat, b: nat)
    requires Descent(path, a, b)
    ensures Pow2(|path| - 1) * a <= b
  {
    var m := |path| - 1;
    if m > 0 {
      DescentScaled(path[1..], path[1], b);
      assert Pow2(m) * a == Pow2(m - 1) * (2 * a);
      MulMonotone(2 * a, path[1], Pow2(m - 1));
    }
  }

  /** Sifts are logarithmic: a walk from slot `a` down to a slot no larger than `n` makes
      at most floor(log2(n / a)) moves. */
  lemma DescentBound(path: seq<nat>, a: nat, b: nat, n: nat)
    requires Descent(path, a, b) && 1 <= a && b <= n
    ensures n / a >= 1 && |path| - 1 <= Log2(n / a) && |path| - 1 <= Log2(n)
  {
    var p := Pow2(|path| - 1);
    DescentScaled(path, a, b);
    Quotient(p, a, n);
    Log2Bound(|path| - 1, n / a);
    MulMonotone(1, a, p);
    Log2Bound(|path| - 1, n);
  }

  /** The bound for a walk that stays in a heap whose first dead slot is `size`. */
  lemma DescentWithin(path: seq<nat>, a: nat, b: nat, size: nat)
    requires Descent(path, a, b) && 1 <= a
    ensures a < size && b < size ==> (size - 1) / a >= 1 && |path| - 1 <= Log2((size - 1) / a)
  {
    if a < size && b < size {
      DescentBound(path, a, b, size - 1);
    }
  }

  lemma MulMonotone(x: nat, y: nat, a: nat)
    requires x <= y
    ensures a * x <= a * y
  {}

  lemma Quotient(p: nat, a: nat, n: nat)
    requires p * a <= n && p >= 1 && a >= 1
    ensures p <= n / a
  {
    var q := n / a;
    assert n < (q + 1) * a;
    if q + 1 <= p {
      MulMonotone(q + 1, p, a);
    }
  }
}
