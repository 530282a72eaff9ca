/** The two iterators of the vectors: a leaf, an offset in it, and the first index of that leaf. */
module Iterators {
  import opened Radix
  import opened Nodes
  import opened Heap
  import opened Vector

  /** `leaf` and `cur` are where an iterator at position `pos` of `sz` points: past the end, just behind the last element. */
  ghost predicate PointsTo<T>(m: Mem<T>, root: Node<T>, sz: nat, leaf: Node<T>, cur: nat, pos: nat)
    requires MemOk(m) && root in m
  {
    && pos <= sz && leaf in m && leaf.s == 0 && pos == leaf.lo + cur
    && if sz == 0 then leaf == root
       else Passes(m, root, leaf, Last(pos, sz)) && Covers(leaf, Last(pos, sz)) && cur <= W
  }

  /** The element whose leaf an iterator at `pos` holds. */
  function Last(pos: nat, sz: nat): nat
    requires sz > 0
  {
    if pos < sz then pos else sz - 1
  }

  /** One node on the path at each level */
  lemma {:induction false} OneNode<T>(m: Mem<T>, r: Node<T>, a: Node<T>, b: Node<T>, i: nat)
    requires MemOk(m) && r in m && Passes(m, r, a, i) && Passes(m, r, b, i) && a.s == b.s
    ensures a == b
    decreases r.s
  {
    PassesCovers(m, r, a, i);
    PassesCovers(m, r, b, i);
    if r != a && r != b {
      KidOk(m, r, Slot(i, r.s));
      OneNode(m, m[r].kids[Slot(i, r.s)], a, b, i);
    }
  }

  /** Comparing the raw pointers, as `operator==` does, compares positions. */
  lemma PointersAreEqual<T>(m: Mem<T>, root: Node<T>, sz: nat, leaf: Node<T>, cur: nat, pos: nat,
                            leaf': Node<T>, cur': nat, pos': nat)
    requires MemOk(m) && root in m && PointsTo(m, root, sz, leaf, cur, pos) && PointsTo(m, root, sz, leaf', cur', pos')
    ensures leaf == leaf' && cur == cur' <==> pos == pos'
  {
    if pos == pos' && sz > 0 {
      OneNode(m, root, leaf, leaf', Last(pos, sz));
    }
  }

  /** The read-only walk to the leaf that the digits of an index lead to; `j` is the index of that place. */
  method LeafFor<T>(g: Glob<T>, root: Node<T>, shift: nat, i: nat, ghost j: nat) returns (leaf: Node<T>)
    requires g.Valid() && root in g.nodes && root.s == shift && Levels(shift, 0) && Covers(root, j) && Find(g.Mem(), root, j).Some?
    requires SameDigits(i, j, shift, 0)
    ensures leaf in g.nodes && leaf.s == 0 && Covers(leaf, j) && Passes(g.Mem(), root, leaf, j)
  {
    ghost var m := g.Mem();
    leaf := root;
    var s := shift;
    while s > 0
      invariant leaf in m && leaf.s == s && Covers(leaf, j) && Passes(m, root, leaf, j) && SameDigits(i, j, s, 0)
    {
      KidThere(m, root, leaf, j);
      KidOk(m, leaf, Slot(j, s));
      PassesKid(m, root, leaf, j);
      ChildCovers(m, leaf, j);
      leaf := leaf.u.kids[Slot(i, s)];
      s := s - BP_BITS;
    }
  }

  /** Whether that walk would meet a missing branch. */
  method LeafThere<T>(g: Glob<T>, root: Node<T>, shift: nat, i: nat) returns (there: bool)
    requires g.Valid() && root in g.nodes && root.s == shift
    ensures there <==> Find(g.Mem(), root, i).Some?
  {
    var node := root;
    var s := shift;
    while s > 0
      invariant node in g.nodes && node.s == s && Find(g.Mem(), node, i) == Find(g.Mem(), root, i)
    {
      KidOk(g.Mem(), node, Slot(i, s));
      var next := node.u.kids[Slot(i, s)];
      if next == null {
        return false;
      }
      node := next;
      s := s - BP_BITS;
    }
    there := true;
  }

  /** The fields of an iterator at position `pos`. */
  ghost predicate IterAt<T>(m: Mem<T>, root: Node<T>, shift: nat, sz: nat, i: nat, leaf: Node<T>, cur: nat, pos: nat)
    requires MemOk(m)
  {
    && HandleOk(m, root, shift, sz) && PointsTo(m, root, sz, leaf, cur, pos)
    && (i == leaf.lo || (pos == sz == i && cur == W))
  }

  /** Behind the capacity the digits start again. */
  function Around(pos: nat, cap: nat): nat {
    if pos < cap then pos else pos - cap
  }

  /** Behind the end nothing stops an iterator: it goes on in its leaf, and looks up the next one by its digits. */
  ghost predicate PastAt<T>(m: Mem<T>, root: Node<T>, shift: nat, sz: nat, i: nat, leaf: Node<T>, cur: nat, pos: nat)
    requires MemOk(m)
  {
    var cap := Span(shift);
    && HandleOk(m, root, shift, sz) && 0 < sz < pos < 2 * cap && cur < W && pos == i + cur
    && leaf in m && leaf.s == 0 && Around(pos, cap) == leaf.lo + cur && Passes(m, root, leaf, Around(pos, cap))
  }

  /** Leaves do not straddle the capacity. */
  lemma LeafBelow<T>(m: Mem<T>, leaf: Node<T>, shift: nat)
    requires MemOk(m) && leaf in m && leaf.s == 0 && leaf.lo < Span(shift)
    ensures leaf.lo + W <= Span(shift) && Span(0) == W
  {
    hide Span;
    assert BodyOk(m, leaf, m[leaf]);
    BlockZero();
    SpanDivides(shift, 0);
    AlignedBelow(leaf.lo, Span(shift), W);
  }

  /** Running over the end inside the last leaf. */
  lemma PassesEnd<T>(m: Mem<T>, root: Node<T>, shift: nat, sz: nat, i: nat, leaf: Node<T>, cur: nat, pos: nat, n: nat)
    requires MemOk(m) && IterAt(m, root, shift, sz, i, leaf, cur, pos) && sz > 0
    requires sz < pos + n && cur + n < W
    ensures i == leaf.lo && PastAt(m, root, shift, sz, i, leaf, cur + n, pos + n)
  {
    hide Find, Span;
    BlockZero();
    PassesCovers(m, root, leaf, Last(pos, sz));
    LeafBelow(m, leaf, shift);
    PassesAnywhere(m, root, leaf, Last(pos, sz), pos + n);
  }

  /** One step behind the end inside a leaf. */
  lemma PastInLeaf<T>(m: Mem<T>, root: Node<T>, shift: nat, sz: nat, i: nat, leaf: Node<T>, cur: nat, pos: nat)
    requires MemOk(m) && PastAt(m, root, shift, sz, i, leaf, cur, pos) && cur + 1 < W
    ensures PastAt(m, root, shift, sz, i, leaf, cur + 1, pos + 1)
  {
    hide Find, Span;
    LeafBelow(m, leaf, shift);
    PassesAnywhere(m, root, leaf, Around(pos, Span(shift)), Around(pos, Span(shift)) + 1);
  }

  /** The next leaf behind the end, up to the capacity: there it is the first one again. */
  lemma PastNextLeaf<T>(m: Mem<T>, root: Node<T>, shift: nat, sz: nat, i: nat, leaf: Node<T>, cur: nat, pos: nat)
    requires MemOk(m) && PastAt(m, root, shift, sz, i, leaf, cur, pos) && cur + 1 == W && pos < Span(shift)
    ensures i + W == pos + 1 <= Span(shift) && i == leaf.lo && i + W != sz
    ensures var j := Around(pos + 1, Span(shift)); Covers(root, j) && SameDigits(i + W, j, shift, 0)
  {
    hide Find, Span;
    LeafBelow(m, leaf, shift);
    if pos + 1 == Span(shift) { WrappedDigits(0, shift, shift, 0); }
    SameBlockDigits(0, 0, shift, 0);
    SameBlockDigits(i + W, i + W, shift, 0);
  }

  lemma PastArrives<T>(m: Mem<T>, root: Node<T>, shift: nat, sz: nat, i: nat, leaf: Node<T>, cur: nat, pos: nat, next: Node<T>)
    requires MemOk(m) && PastAt(m, root, shift, sz, i, leaf, cur, pos) && cur + 1 == W && pos < Span(shift)
    requires next in m && next.s == 0
    requires var j := Around(pos + 1, Span(shift)); Covers(next, j) && Passes(m, root, next, j)
    ensures PastAt(m, root, shift, sz, i + W, next, 0, pos + 1)
  {
    hide Find, Span;
    LeafBelow(m, leaf, shift);
    assert BodyOk(m, leaf, m[leaf]) && BodyOk(m, next, m[next]);
    NextMultipleStart(leaf.lo, W);
    assert 0 % W == 0;
    AlignedApart(next.lo, Around(pos + 1, Span(shift)), W);
  }

  /** Moving inside a leaf, up to just behind its last element when that is the end. */
  lemma MovesInLeaf<T>(m: Mem<T>, root: Node<T>, shift: nat, sz: nat, i: nat, leaf: Node<T>, cur: nat, pos: nat, n: nat)
    requires MemOk(m) && IterAt(m, root, shift, sz, i, leaf, cur, pos) && sz > 0 && n > 0
    requires pos + n <= sz && cur + n <= W && (pos + n < sz ==> cur + n < W)
    ensures i == leaf.lo && IterAt(m, root, shift, sz, i, leaf, cur + n, pos + n)
  {
    BlockZero();
    PassesAnywhere(m, root, leaf, Last(pos, sz), Last(pos + n, sz));
  }

  lemma EndOfLastLeaf<T>(m: Mem<T>, root: Node<T>, shift: nat, sz: nat, i: nat, leaf: Node<T>)
    requires MemOk(m) && IterAt(m, root, shift, sz, i, leaf, W, sz)
    ensures IterAt(m, root, shift, sz, sz, leaf, W, sz)
  {
  }

  /** Landing on the leaf of index `i`, or just behind `i` when it is the last. */
  lemma Lands<T>(m: Mem<T>, root: Node<T>, shift: nat, sz: nat, leaf: Node<T>, i: nat)
    requires MemOk(m) && HandleOk(m, root, shift, sz) && i < sz
    requires leaf in m && leaf.s == 0 && Covers(leaf, i) && Passes(m, root, leaf, i)
    ensures i - i % W == leaf.lo && IterAt(m, root, shift, sz, leaf.lo, leaf, i % W, i)
    ensures i == sz - 1 ==> IterAt(m, root, shift, sz, leaf.lo, leaf, i % W + 1, sz)
  {
    assert BodyOk(m, leaf, m[leaf]);
    LeafOffset(leaf.lo, i);
  }

  /** `i & BP_MASK` */
  method OffsetOf<T>(ghost m: Mem<T>, ghost root: Node<T>, ghost shift: nat, ghost sz: nat, ghost leaf: Node<T>, i: nat)
    returns (off: nat)
    requires MemOk(m) && HandleOk(m, root, shift, sz) && i < sz
    requires leaf in m && leaf.s == 0 && Covers(leaf, i) && Passes(m, root, leaf, i)
    ensures off == i % W && i - off == leaf.lo && IterAt(m, root, shift, sz, leaf.lo, leaf, off, i)
    ensures i == sz - 1 ==> IterAt(m, root, shift, sz, leaf.lo, leaf, off + 1, sz)
  {
    Lands(m, root, shift, sz, leaf, i);
    off := i % W;
  }

  lemma NextLeafStart<T>(m: Mem<T>, root: Node<T>, shift: nat, sz: nat, i: nat, leaf: Node<T>, cur: nat, pos: nat)
    requires MemOk(m) && IterAt(m, root, shift, sz, i, leaf, cur, pos) && pos < sz && cur + 1 == W
    ensures i + W == pos + 1 && (i + W) % W == 0
  {
    assert BodyOk(m, leaf, m[leaf]);
    BlockZero();
    NextMultipleStart(leaf.lo, W);
  }

  /** What an iterator points to. */
  lemma Reads<T>(m: Mem<T>, root: Node<T>, shift: nat, sz: nat, i: nat, leaf: Node<T>, cur: nat, pos: nat)
    requires MemOk(m)
    requires (IterAt(m, root, shift, sz, i, leaf, cur, pos) && pos < sz) || PastAt(m, root, shift, sz, i, leaf, cur, pos)
    ensures leaf in m && m[leaf].Leaves? && |m[leaf].vals| == W && cur < W
    ensures Find(m, root, if pos < sz then pos else Around(pos, Span(shift))) == Some(m[leaf].vals[cur])
    ensures IterAt(m, root, shift, sz, i, leaf, cur, pos) <==> pos < sz
  {
    hide Span;
    var j := if pos < sz then pos else Around(pos, Span(shift));
    BlockZero();
    PassesFind(m, root, leaf, j);
    assert BodyOk(m, leaf, m[leaf]);
    LeafOffset(leaf.lo, j);
  }

  /** Equal digits find the same. */
  lemma {:induction false} FindDigits<T>(m: Mem<T>, r: Node<T>, i: nat, j: nat)
    requires MemOk(m) && r in m && SameDigits(i, j, r.s, 0) && i % W == j % W
    ensures Find(m, r, i) == Find(m, r, j)
    decreases r.s
  {
    assert BodyOk(m, r, m[r]);
    if r.s > 0 {
      KidOk(m, r, Slot(j, r.s));
      var c := m[r].kids[Slot(j, r.s)];
      if c != null { FindDigits(m, c, i, j); }
    }
  }

  class ConstIterator<T> {
    const root: Node<T>
    const shift: nat
    const sz: nat
    var i: nat
    var leaf: Node<T>
    var cur: nat

    ghost predicate At(m: Mem<T>, pos: nat)
      reads this
    {
      MemOk(m) && IterAt(m, root, shift, sz, i, leaf, cur, pos)
    }

    ghost predicate Past(m: Mem<T>, pos: nat)
      reads this
    {
      MemOk(m) && PastAt(m, root, shift, sz, i, leaf, cur, pos)
    }

    /** The next element, or slot, exists. */
    ghost predicate CanStep(m: Mem<T>, pos: nat)
      reads this
    {
      && Past(m, pos)
      && (cur + 1 == W ==> pos < Span(shift) && Find(m, root, Around(pos + 1, Span(shift))).Some?)
    }

    /** `cbegin()` */
    constructor (g: Glob<T>, v: Vec<T>)
      requires v.Valid(g)
      ensures root == v.root && shift == v.shift && sz == v.sz && At(g.Mem(), 0)
    {
      BlockZero();
      var node := v.root;
      if v.sz > 0 {
        SameBlockDigits(0, 0, v.shift, 0);
        node := LeafFor(g, v.root, v.shift, 0, 0);
      }
      root, shift, sz, i, leaf, cur := v.root, v.shift, v.sz, 0, node, 0;
    }

    /** `operator*`; behind the end it reads a slot that holds no element, or an element once more. */
    method Deref(g: Glob<T>, ghost pos: nat) returns (v: T)
      requires g.Valid() && ((At(g.Mem(), pos) && pos < sz) || Past(g.Mem(), pos))
      ensures At(g.Mem(), pos) ==> Find(g.Mem(), root, pos) == Some(v)
      ensures Past(g.Mem(), pos) ==> Find(g.Mem(), root, Around(pos, Span(shift))) == Some(v)
    {
      Reads(g.Mem(), root, shift, sz, i, leaf, cur, pos);
      v := leaf.u.vals[cur];
    }

    /** The walk at the end of `operator+=`. */
    method GoTo(g: Glob<T>, k: nat, plusplus: nat)
      requires g.Valid() && HandleOk(g.Mem(), root, shift, sz) && k < sz
      requires plusplus == 0 || (plusplus == 1 && k == sz - 1)
      modifies this`i, this`leaf, this`cur
      ensures At(old(g.Mem()), k + plusplus)
    {
      ghost var m := g.Mem();
      SameBlockDigits(k, k, shift, 0);
      var node := LeafFor(g, root, shift, k, k);
      var off := OffsetOf(m, root, shift, sz, node, k);
      leaf, cur, i := node, off + plusplus, k - off;
    }

    /** `operator++`, also behind the end */
    method Inc(g: Glob<T>, ghost pos: nat)
      requires g.Valid() && ((At(g.Mem(), pos) && pos < sz) || CanStep(g.Mem(), pos))
      modifies this`i, this`leaf, this`cur
      ensures old(At(g.Mem(), pos)) ==> At(old(g.Mem()), pos + 1)
      ensures old(Past(g.Mem(), pos)) ==> Past(old(g.Mem()), pos + 1)
    {
      hide IterAt, PastAt, HandleOk, Passes, Find, Span;
      ghost var m := g.Mem();
      OneSide(m, root, shift, sz, i, leaf, cur, pos);
      if cur + 1 != W {
        StepInLeaf(m, root, shift, sz, i, leaf, cur, pos);
        cur := cur + 1;
        return;
      }
      StepFromLeaf(m, root, shift, sz, i, leaf, cur, pos);
      if i + W == sz {
        MovesInLeaf(m, root, shift, sz, i, leaf, cur, pos, 1);
        EndOfLastLeaf(m, root, shift, sz, i, leaf);
        cur, i := cur + 1, i + W;
        return;
      }
      var node := LeafFor(g, root, shift, i + W, Around(pos + 1, Span(shift)));
      StepArrives(m, root, shift, sz, i, leaf, cur, pos, node);
      leaf, cur, i := node, 0, i + W;
    }

    /** `operator+=`: behind the end it stops at the end, unless it stays in the last leaf. */
    method Add(g: Glob<T>, n: nat, ghost pos: nat)
      requires g.Valid() && At(g.Mem(), pos)
      modifies this`i, this`leaf, this`cur
      ensures pos + n <= sz ==> At(old(g.Mem()), pos + n)
      ensures pos + n > sz && (sz == 0 || old(cur) + n >= W) ==> At(old(g.Mem()), sz)
      ensures pos + n > sz && sz > 0 && old(cur) + n < W ==> Past(old(g.Mem()), pos + n)
    {
      if sz == 0 || n == 0 {
        return;
      }
      if W - cur > n {
        if pos + n <= sz {
          MovesInLeaf(g.Mem(), root, shift, sz, i, leaf, cur, pos, n);
        } else {
          PassesEnd(g.Mem(), root, shift, sz, i, leaf, cur, pos, n);
        }
        cur := cur + n;
        return;
      }
      var k := i + (W - (W - cur)) + n;
      if k >= sz {
        GoTo(g, sz - 1, 1);
      } else {
        GoTo(g, k, 0);
      }
    }
  }

  /** An iterator stands on one side of the end. */
  lemma OneSide<T>(m: Mem<T>, root: Node<T>, shift: nat, sz: nat, i: nat, leaf: Node<T>, cur: nat, pos: nat)
    requires MemOk(m)
    ensures IterAt(m, root, shift, sz, i, leaf, cur, pos) ==> pos <= sz && HandleOk(m, root, shift, sz)
    ensures PastAt(m, root, shift, sz, i, leaf, cur, pos) ==> pos > sz && HandleOk(m, root, shift, sz)
  {
  }

  lemma StepInLeaf<T>(m: Mem<T>, root: Node<T>, shift: nat, sz: nat, i: nat, leaf: Node<T>, cur: nat, pos: nat)
    requires MemOk(m) && cur + 1 != W
    requires (IterAt(m, root, shift, sz, i, leaf, cur, pos) && pos < sz) || PastAt(m, root, shift, sz, i, leaf, cur, pos)
    ensures pos < sz ==> IterAt(m, root, shift, sz, i, leaf, cur + 1, pos + 1)
    ensures pos > sz ==> PastAt(m, root, shift, sz, i, leaf, cur + 1, pos + 1)
  {
    hide Find, Span;
    if pos < sz {
      BelowWidth(m, root, shift, sz, i, leaf, cur, pos);
      MovesInLeaf(m, root, shift, sz, i, leaf, cur, pos, 1);
    } else {
      PastInLeaf(m, root, shift, sz, i, leaf, cur, pos);
    }
  }

  lemma BelowWidth<T>(m: Mem<T>, root: Node<T>, shift: nat, sz: nat, i: nat, leaf: Node<T>, cur: nat, pos: nat)
    requires MemOk(m) && IterAt(m, root, shift, sz, i, leaf, cur, pos) && pos < sz
    ensures cur < W && i == leaf.lo && cur == pos % W
  {
    BlockZero();
    assert BodyOk(m, leaf, m[leaf]);
    LeafOffset(leaf.lo, pos);
  }

  /** Leaving a leaf: where the digits of the next index lead. */
  lemma StepFromLeaf<T>(m: Mem<T>, root: Node<T>, shift: nat, sz: nat, i: nat, leaf: Node<T>, cur: nat, pos: nat)
    requires MemOk(m) && cur + 1 == W
    requires (IterAt(m, root, shift, sz, i, leaf, cur, pos) && pos < sz) || (PastAt(m, root, shift, sz, i, leaf, cur, pos) && pos < Span(shift))
    ensures i + W == pos + 1 && pos + 1 <= Span(shift) && Levels(shift, 0) && root in m && root.s == shift
    ensures pos + 1 != sz ==>
      var j := Around(pos + 1, Span(shift)); Covers(root, j) && SameDigits(i + W, j, shift, 0) && (pos < sz ==> j == pos + 1 < sz)
    ensures pos < sz && pos + 1 != sz ==> Find(m, root, pos + 1).Some?
  {
    if pos < sz {
      NextLeafStart(m, root, shift, sz, i, leaf, cur, pos);
      SameBlockDigits(i + W, i + W, shift, 0);
    } else {
      PastNextLeaf(m, root, shift, sz, i, leaf, cur, pos);
    }
  }

  lemma StepArrives<T>(m: Mem<T>, root: Node<T>, shift: nat, sz: nat, i: nat, leaf: Node<T>, cur: nat, pos: nat, next: Node<T>)
    requires MemOk(m) && cur + 1 == W && i + W == pos + 1 && pos + 1 != sz
    requires (IterAt(m, root, shift, sz, i, leaf, cur, pos) && pos < sz) || (PastAt(m, root, shift, sz, i, leaf, cur, pos) && pos < Span(shift))
    requires next in m && next.s == 0
    requires var j := Around(pos + 1, Span(shift)); Covers(next, j) && Passes(m, root, next, j)
    ensures pos < sz ==> IterAt(m, root, shift, sz, i + W, next, 0, pos + 1)
    ensures pos > sz ==> PastAt(m, root, shift, sz, i + W, next, 0, pos + 1)
  {
    hide Find, Span;
    if pos < sz {
      NextLeafStart(m, root, shift, sz, i, leaf, cur, pos);
      StepFromLeaf(m, root, shift, sz, i, leaf, cur, pos);
      Lands(m, root, shift, sz, next, pos + 1);
    } else {
      PastArrives(m, root, shift, sz, i, leaf, cur, pos, next);
    }
  }

  // ---- the mutable iterator of a transient: it owns the path it stands on ----

  ghost predicate MutIterAt<T>(m: Mem<T>, root: Node<T>, shift: nat, sz: nat, o: Owner, i: nat, leaf: Node<T>, cur: nat, pos: nat)
    requires MemOk(m)
  {
    && o.kind == Tr && IterAt(m, root, shift, sz, i, leaf, cur, pos)
    && (sz > 0 ==> Holds(m, root, leaf, Last(pos, sz), o))
  }

  lemma SameViewHandle<T>(m: Mem<T>, m': Mem<T>, root: Node<T>, shift: nat, sz: nat)
    requires MemOk(m) && MemOk(m') && HandleOk(m, root, shift, sz) && SameView(m, m')
    ensures HandleOk(m', root, shift, sz) && Contents(m', root, shift, sz) == Contents(m, root, shift, sz)
  {
  }

  /** Path copying by the same owner leaves a mutable iterator where it is. */
  lemma MutIterKept<T>(m: Mem<T>, m': Mem<T>, root: Node<T>, shift: nat, sz: nat, o: Owner, i: nat, leaf: Node<T>, cur: nat, pos: nat)
    requires MemOk(m) && MemOk(m') && MutIterAt(m, root, shift, sz, o, i, leaf, cur, pos) && sz > 0
    requires HandleOk(m', root, shift, sz) && Follows(m, m', root, root, o)
    ensures MutIterAt(m', root, shift, sz, o, i, leaf, cur, pos)
  {
    FollowsHolds(m, m', root, leaf, Last(pos, sz), o);
    HoldsPasses(m', root, leaf, Last(pos, sz), o);
  }

  lemma MutMovesInLeaf<T>(m: Mem<T>, root: Node<T>, shift: nat, sz: nat, o: Owner, i: nat, leaf: Node<T>, cur: nat, pos: nat, n: nat)
    requires MemOk(m) && MutIterAt(m, root, shift, sz, o, i, leaf, cur, pos) && sz > 0 && n > 0
    requires pos + n <= sz && cur + n <= W && (pos + n < sz ==> cur + n < W)
    ensures i == leaf.lo && MutIterAt(m, root, shift, sz, o, i, leaf, cur + n, pos + n)
  {
    MovesInLeaf(m, root, shift, sz, i, leaf, cur, pos, n);
    HoldsAnywhere(m, root, leaf, Last(pos, sz), Last(pos + n, sz), o);
  }

  /** Behind the end, still on a path of its own. */
  ghost predicate MutPastAt<T>(m: Mem<T>, root: Node<T>, shift: nat, sz: nat, o: Owner, i: nat, leaf: Node<T>, cur: nat, pos: nat)
    requires MemOk(m)
  {
    o.kind == Tr && PastAt(m, root, shift, sz, i, leaf, cur, pos) && Holds(m, root, leaf, Around(pos, Span(shift)), o)
  }

  lemma MutPassesEnd<T>(m: Mem<T>, root: Node<T>, shift: nat, sz: nat, o: Owner, i: nat, leaf: Node<T>, cur: nat, pos: nat, n: nat)
    requires MemOk(m) && MutIterAt(m, root, shift, sz, o, i, leaf, cur, pos) && sz > 0
    requires sz < pos + n && cur + n < W
    ensures MutPastAt(m, root, shift, sz, o, i, leaf, cur + n, pos + n)
  {
    hide Find, Span;
    PassesEnd(m, root, shift, sz, i, leaf, cur, pos, n);
    BlockZero();
    HoldsAnywhere(m, root, leaf, Last(pos, sz), Around(pos + n, Span(shift)), o);
  }

  lemma {:induction false} HoldsAnywhere<T>(m: Mem<T>, r: Node<T>, n: Node<T>, i: nat, j: nat, o: Owner)
    requires MemOk(m) && r in m && Holds(m, r, n, i, o) && Covers(r, i) && n in m && Covers(n, j)
    ensures Holds(m, r, n, j, o)
    decreases r.s
  {
    if r != n {
      var k := Slot(i, r.s);
      KidOk(m, r, k);
      ChildCovers(m, r, i);
      HoldsPasses(m, m[r].kids[k], n, i, o);
      PassesAnywhere(m, m[r].kids[k], n, i, j);
      HoldsAnywhere(m, m[r].kids[k], n, i, j, o);
      SpanStep(r.s);
      SlotUnique(r.lo, r.s, k, j);
    }
  }

  lemma MutLands<T>(m: Mem<T>, root: Node<T>, shift: nat, sz: nat, o: Owner, leaf: Node<T>, k: nat, plusplus: nat)
    requires MemOk(m) && HandleOk(m, root, shift, sz) && k < sz && o.kind == Tr
    requires plusplus == 0 || (plusplus == 1 && k == sz - 1)
    requires leaf in m && leaf.s == 0 && Passes(m, root, leaf, k) && Holds(m, root, leaf, k, o)
    ensures k % W <= k && MutIterAt(m, root, shift, sz, o, k - k % W, leaf, k % W + plusplus, k + plusplus)
  {
    PassesCovers(m, root, leaf, k);
    Lands(m, root, shift, sz, leaf, k);
  }

  lemma HoldsRoot<T>(m: Mem<T>, r: Node<T>, n: Node<T>, i: nat, o: Owner)
    requires MemOk(m) && r in m && Holds(m, r, n, i, o)
    ensures !o.NodeCopy(r.id)
  {
  }

  lemma Idle<T>(m: Mem<T>, o: Owner)
    requires MemOk(m)
    ensures Neutral(m, m, o) && OnlyOwn(m, m, o)
  {
    NeutralSelf(m, o);
  }

  lemma OneLeafRoot<T>(m: Mem<T>, root: Node<T>, leaf: Node<T>)
    requires MemOk(m) && root in m && root.s == 0 && Passes(m, root, leaf, 0)
    ensures leaf == root
  {
  }

  class MutIterator<T> {
    const root: Node<T>
    const shift: nat
    const sz: nat
    const owner: Owner
    var i: nat
    var leaf: Node<T>
    var cur: nat

    ghost predicate At(m: Mem<T>, pos: nat)
      reads this
    {
      MemOk(m) && MutIterAt(m, root, shift, sz, owner, i, leaf, cur, pos)
    }

    ghost predicate Past(m: Mem<T>, pos: nat)
      reads this
    {
      MemOk(m) && MutPastAt(m, root, shift, sz, owner, i, leaf, cur, pos)
    }

    /** `begin()` */
    constructor (g: Glob<T>, v: Vec<T>)
      requires v.Valid(g) && v.owner.kind == Tr
      modifies v`root, g`nodes, v.Mine(g)
      ensures v.HasRoot(g) && Grew(g, v.owner.id) && Neutral(old(g.Mem()), g.Mem(), v.owner)
      ensures Follows(old(g.Mem()), g.Mem(), old(v.root), v.root, v.owner)
      ensures SameTrie(old(g.Mem()), old(v.root), g.Mem(), v.root)
      ensures root == v.root && shift == v.shift && sz == v.sz && owner == v.owner && At(g.Mem(), 0)
      ensures root.id == owner.id && OnlyOwn(old(g.Mem()), g.Mem(), owner)
    {
      ghost var m0 := g.Mem();
      BlockZero();
      var node := v.OwnPath(g, 0, 0, 0);
      HoldsRoot(g.Mem(), v.root, node, 0, v.owner);
      SameTrieHandle(m0, old(v.root), g.Mem(), v.root, v.shift, v.sz);
      if v.sz > 0 {
        MutLands(g.Mem(), v.root, v.shift, v.sz, v.owner, node, 0, 0);
      } else {
        HoldsPasses(g.Mem(), v.root, node, 0, v.owner);
        OneLeafRoot(g.Mem(), v.root, node);
      }
      root, shift, sz, owner, i, leaf, cur := v.root, v.shift, v.sz, v.owner, 0, node, 0;
    }

    ghost predicate Ready(g: Glob<T>)
      reads g, g.nodes
    {
      && g.Valid() && owner.id < g.unique_id && owner.kind == Tr && root.id == owner.id
      && HandleOk(g.Mem(), root, shift, sz)
    }

    /** `cur`, `end` and `i` for the leaf of index `k`, or just behind it. */
    method Place(ghost m: Mem<T>, node: Node<T>, k: nat, plusplus: nat)
      requires MemOk(m) && HandleOk(m, root, shift, sz) && k < sz && owner.kind == Tr
      requires plusplus == 0 || (plusplus == 1 && k == sz - 1)
      requires node in m && node.s == 0 && Passes(m, root, node, k) && Holds(m, root, node, k, owner)
      modifies this`i, this`leaf, this`cur
      ensures At(m, k + plusplus)
    {
      MutLands(m, root, shift, sz, owner, node, k, plusplus);
      leaf, cur, i := node, k % W + plusplus, k - k % W;
    }

    /** The walk at the end of `operator++` and `operator+`. */
    method GoTo(g: Glob<T>, k: nat, plusplus: nat)
      requires Ready(g) && k < sz && (plusplus == 0 || (plusplus == 1 && k == sz - 1))
      modifies this`i, this`leaf, this`cur, g`nodes, Owned(g.nodes, owner)
      ensures g.Valid() && Grew(g, owner.id) && Neutral(old(g.Mem()), g.Mem(), owner)
      ensures OnlyOwn(old(g.Mem()), g.Mem(), owner)
      ensures At(g.Mem(), k + plusplus)
    {
      hide Find, KeepsShape, Follows;
      ghost var m0 := g.Mem();
      var node := Walk(g, root, shift, k, 0, owner, k);
      SameViewHandle(m0, g.Mem(), root, shift, sz);
      Place(g.Mem(), node, k, plusplus);
    }

    /** `operator++` */
    method Inc(g: Glob<T>, ghost pos: nat)
      requires Ready(g) && At(g.Mem(), pos) && pos < sz
      modifies this`i, this`leaf, this`cur, g`nodes, Owned(g.nodes, owner)
      ensures g.Valid() && Grew(g, owner.id) && Neutral(old(g.Mem()), g.Mem(), owner)
      ensures OnlyOwn(old(g.Mem()), g.Mem(), owner)
      ensures At(g.Mem(), pos + 1)
    {
      hide OnlyOwn, KeepsShape, SameOutside, HandleOk, Holds, Passes;
      ghost var m := g.Mem();
      LeafOffset(leaf.lo, pos);
      if cur + 1 != W {
        Step(m, pos);
        Idle(m, owner);
        return;
      }
      NextLeafStart(m, root, shift, sz, i, leaf, cur, pos);
      if i + W == sz {
        StepToEnd(m, pos);
        Idle(m, owner);
        return;
      }
      GoTo(g, i + W, 0);
    }

    method Step(ghost m: Mem<T>, ghost pos: nat)
      requires At(m, pos) && pos < sz && cur + 1 < W
      modifies this`cur
      ensures At(m, pos + 1)
    {
      MutMovesInLeaf(m, root, shift, sz, owner, i, leaf, cur, pos, 1);
      cur := cur + 1;
    }

    method StepToEnd(ghost m: Mem<T>, ghost pos: nat)
      requires At(m, pos) && pos < sz && cur + 1 == W && i + W == sz == pos + 1
      modifies this`cur, this`i
      ensures At(m, pos + 1)
    {
      MutMovesInLeaf(m, root, shift, sz, owner, i, leaf, cur, pos, 1);
      EndOfLastLeaf(m, root, shift, sz, i, leaf);
      cur, i := cur + 1, i + W;
    }

    method Shift(ghost m: Mem<T>, n: nat, ghost pos: nat)
      requires At(m, pos) && sz > 0 && n > 0 && W - cur > n
      modifies this`cur
      ensures if pos + n <= sz then At(m, pos + n) else Past(m, pos + n)
    {
      if pos + n <= sz {
        MutMovesInLeaf(m, root, shift, sz, owner, i, leaf, cur, pos, n);
      } else {
        MutPassesEnd(m, root, shift, sz, owner, i, leaf, cur, pos, n);
      }
      cur := cur + n;
    }

    /** `operator+`, on the copy it returns */
    method Add(g: Glob<T>, n: nat, ghost pos: nat)
      requires Ready(g) && At(g.Mem(), pos)
      modifies this`i, this`leaf, this`cur, g`nodes, Owned(g.nodes, owner)
      ensures g.Valid() && Grew(g, owner.id) && Neutral(old(g.Mem()), g.Mem(), owner)
      ensures OnlyOwn(old(g.Mem()), g.Mem(), owner)
      ensures pos + n <= sz ==> At(g.Mem(), pos + n)
      ensures pos + n > sz && (sz == 0 || old(cur) + n >= W) ==> At(g.Mem(), sz)
      ensures pos + n > sz && sz > 0 && old(cur) + n < W ==> Past(g.Mem(), pos + n)
    {
      hide OnlyOwn, KeepsShape, SameOutside, HandleOk, Holds, Passes;
      ghost var m := g.Mem();
      if sz == 0 || n == 0 {
        Idle(m, owner);
        return;
      }
      if W - cur > n {
        Shift(m, n, pos);
        Idle(m, owner);
        return;
      }
      var k := i + (W - (W - cur)) + n;
      if k >= sz {
        GoTo(g, sz - 1, 1);
      } else {
        GoTo(g, k, 0);
      }
    }

    /** `*it`, as a value */
    method Deref(g: Glob<T>, ghost pos: nat) returns (v: T)
      requires Ready(g) && At(g.Mem(), pos) && pos < sz
      ensures Find(g.Mem(), root, pos) == Some(v)
    {
      ghost var m := g.Mem();
      PassesFind(m, root, leaf, pos);
      LeafOffset(leaf.lo, pos);
      assert BodyOk(m, leaf, m[leaf]);
      v := leaf.u.vals[cur];
    }

    /** `*it = val` */
    method Put(g: Glob<T>, val: T, ghost pos: nat)
      requires Ready(g) && At(g.Mem(), pos) && pos < sz
      modifies leaf
      ensures Ready(g) && SetTrie(old(g.Mem()), root, g.Mem(), root, pos, val)
      ensures SameOutside(old(g.Mem()), g.Mem(), pos, pos + 1) && KeepsShape(old(g.Mem()), g.Mem(), owner)
      ensures OnlyOwn(old(g.Mem()), g.Mem(), owner)
      ensures At(g.Mem(), pos) && g.Mem().Keys == old(g.Mem().Keys)
    {
      ghost var m := g.Mem();
      LeafOffset(leaf.lo, pos);
      HoldsPasses(m, root, leaf, pos, owner);
      PutValue(g, leaf, cur, pos, val);
      StoreKeepsShape(m, leaf, leaf.u, owner);
      SetTrieIntro(m, g.Mem(), root, pos, val);
      SetContents(m, root, g.Mem(), root, shift, sz, pos, val);
      MutIterKept(m, g.Mem(), root, shift, sz, owner, i, leaf, cur, pos);
    }
  }

  lemma SetTrieIntro<T>(m: Mem<T>, m': Mem<T>, r: Node<T>, i: nat, val: T)
    requires MemOk(m) && MemOk(m') && r in m && SameOutside(m, m', i, i + 1) && Find(m', r, i) == Some(val)
    ensures SetTrie(m, r, m', r, i, val)
  {
  }

  /** `cbegin() + n` */
  method CBegin<T>(g: Glob<T>, v: Vec<T>, n: nat) returns (it: ConstIterator<T>)
    requires v.Valid(g) && n <= v.sz
    ensures fresh(it) && it.root == v.root && it.shift == v.shift && it.sz == v.sz && it.At(g.Mem(), n)
  {
    it := new ConstIterator(g, v);
    it.Add(g, n, 0);
  }

  /** Stepping on by `++` from wherever the iterator stands. */
  method Forward<T>(g: Glob<T>, it: ConstIterator<T>, n: nat, ghost pos: nat)
    requires g.Valid() && it.At(g.Mem(), pos) && pos + n <= it.sz
    modifies it`i, it`leaf, it`cur
    ensures g.Mem() == old(g.Mem()) && it.At(g.Mem(), pos + n)
  {
    hide IterAt, MemOk;
    ghost var m := g.Mem();
    for k := 0 to n
      invariant g.Mem() == m && g.Valid() && it.At(m, pos + k)
    {
      it.Inc(g, pos + k);
    }
  }

  /** `begin() + n` is n times `++begin()`: the same pointer, up to and including the end. */
  method PlusIsIncrements<T>(g: Glob<T>, v: Vec<T>, n: nat) returns (a: ConstIterator<T>, b: ConstIterator<T>)
    requires v.Valid(g) && n <= v.sz
    ensures a.leaf == b.leaf && a.cur == b.cur && a.At(g.Mem(), n) && b.At(g.Mem(), n)
  {
    hide MemOk, HandleOk, IterAt;
    a := CBegin(g, v, n);
    b := CBegin(g, v, 0);
    Forward(g, b, n, 0);
    TwoAt(g.Mem(), a, b, n);
  }

  lemma TwoAt<T>(m: Mem<T>, a: ConstIterator<T>, b: ConstIterator<T>, n: nat)
    requires a.At(m, n) && b.At(m, n) && a.root == b.root && a.sz == b.sz
    ensures a.leaf == b.leaf && a.cur == b.cur
  {
    PointersAreEqual(m, a.root, a.sz, a.leaf, a.cur, n, b.leaf, b.cur, n);
  }

  /** `for (auto it = cbegin(); it != cend(); ++it)` sees every element once, in order. */
  method Traverse<T>(g: Glob<T>, v: Vec<T>) returns (s: seq<T>)
    requires v.Valid(g)
    ensures s == v.View(g)
  {
    hide MemOk, IterAt;
    var end: ConstIterator<T> := CBegin(g, v, v.sz);
    var it: ConstIterator<T> := CBegin(g, v, 0);
    s := TraverseTo(g, v, it, end);
  }

  lemma AtEnd<T>(m: Mem<T>, it: ConstIterator<T>, end: ConstIterator<T>, pos: nat)
    requires it.At(m, pos) && end.At(m, end.sz) && it.root == end.root && it.sz == end.sz
    ensures it.leaf != end.leaf || it.cur != end.cur <==> pos != end.sz
  {
    PointersAreEqual(m, it.root, it.sz, it.leaf, it.cur, pos, end.leaf, end.cur, end.sz);
  }

  method TraverseTo<T>(g: Glob<T>, v: Vec<T>, it: ConstIterator<T>, end: ConstIterator<T>) returns (s: seq<T>)
    requires v.Valid(g) && it != end && it.At(g.Mem(), 0) && end.At(g.Mem(), v.sz)
    requires it.root == end.root == v.root && it.sz == end.sz == v.sz && it.shift == v.shift
    modifies it`i, it`leaf, it`cur
    ensures v.Valid(g) && s == old(v.View(g))
  {
    hide IterAt, MemOk, HandleOk;
    ghost var m, all := g.Mem(), v.View(g);
    ghost var pos := 0;
    s := [];
    AtEnd(m, it, end, 0);
    while it.leaf != end.leaf || it.cur != end.cur
      invariant pos <= v.sz && it.At(m, pos) && end.At(m, v.sz) && g.Mem() == m && v.Valid(g) && v.View(g) == all
      invariant it.leaf != end.leaf || it.cur != end.cur <==> pos != v.sz
      invariant s == all[..pos]
      decreases v.sz - pos
    {
      var x := it.Deref(g, pos);
      s := s + [x];
      it.Inc(g, pos);
      pos := pos + 1;
      AtEnd(m, it, end, pos);
    }
  }
}
