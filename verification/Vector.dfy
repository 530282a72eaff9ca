/** bp_vector, ps_vector and tr_vector: handles over shared nodes, told apart by when a node must be copied. */
module Vector {
  import opened Radix
  import opened Nodes
  import opened Heap

  /** The nodes that a handle may write in place. */
  ghost function Owned<T>(nodes: set<Node<T>>, o: Owner): set<Node<T>> {
    set n | n in nodes && !o.NodeCopy(n.id)
  }

  /** The universe grew by fresh nodes tagged `id` only. */
  twostate predicate Grew<T>(g: Glob<T>, id: int)
    reads g
  {
    && old(g.nodes) <= g.nodes && fresh(g.nodes - old(g.nodes))
    && forall n | n in g.nodes && n !in old(g.nodes) :: n.id == id
  }

  /** The heap changed only in nodes the writer may write, and in new ones. */
  ghost predicate OnlyOwn<T>(m: Mem<T>, m': Mem<T>, o: Owner) {
    && m.Keys <= m'.Keys
    && forall n | n in m && o.NodeCopy(n.id) :: m'[n] == m[n]
  }

  lemma OnlyOwnTrans<T>(m0: Mem<T>, m1: Mem<T>, m2: Mem<T>, o: Owner)
    requires OnlyOwn(m0, m1, o) && OnlyOwn(m1, m2, o)
    ensures OnlyOwn(m0, m2, o)
  {
  }

  lemma RedirectNeutral<T>(m: Mem<T>, n: Node<T>, k: nat, c: Node<T>, c': Node<T>, o: Owner)
    requires MemOk(m) && n in m && n.s > 0 && k < W && c' !in m && c'.s == c.s && c'.lo == c.lo && o.NodeCopy(c.id) && c'.id == o.id
    requires m[n].Branches? && |m[n].kids| == W && m[n].kids[k] == c
    ensures c in m
    ensures var m2 := m[c' := m[c]][n := Branches(m[n].kids[k := c'])]; MemOk(m2) && Neutral(m, m2, o)
  {
    RedirectView(m, n, k, c, c');
    var m2 := m[c' := m[c]][n := Branches(m[n].kids[k := c'])];
    forall r | r in m ensures Follows(m, m2, r, r, o) {
      FollowsRedirect(m, n, k, c, c', r, o);
    }
  }

  lemma {:induction false} FollowsSelf<T>(m: Mem<T>, r: Node<T>, o: Owner)
    requires MemOk(m) && r in m
    ensures Follows(m, m, r, r, o)
    decreases r.s
  {
    assert BodyOk(m, r, m[r]);
    if r.s > 0 {
      forall j: nat | j < W
        ensures m[r].kids[j] == null || Follows(m, m, m[r].kids[j], m[r].kids[j], o)
      {
        KidOk(m, r, j);
        if m[r].kids[j] != null { FollowsSelf(m, m[r].kids[j], o); }
      }
    }
  }

  lemma NeutralSelf<T>(m: Mem<T>, o: Owner)
    requires MemOk(m)
    ensures Neutral(m, m, o)
  {
    forall r | r in m ensures Follows(m, m, r, r, o) {
      FollowsSelf(m, r, o);
    }
  }

  /** Allocating a node, or writing a leaf, keeps every trie's shape. */
  lemma StoreKeepsShape<T>(m: Mem<T>, n: Node<T>, b: Body<T>, o: Owner)
    requires MemOk(m) && MemOk(m[n := b]) && (n !in m || n.s == 0)
    ensures KeepsShape(m, m[n := b], o)
  {
    forall r | r in m ensures Follows(m, m[n := b], r, r, o) {
      FollowsStore(m, n, b, r, o);
    }
  }

  lemma FreshCopyFollows<T>(m: Mem<T>, c: Node<T>, c': Node<T>, o: Owner)
    requires MemOk(m) && c in m && c' !in m && MemOk(m[c' := m[c]]) && c'.s == c.s && c'.lo == c.lo && o.NodeCopy(c.id) && c'.id == o.id
    ensures Follows(m, m[c' := m[c]], c, c', o)
  {
    var m' := m[c' := m[c]];
    assert BodyOk(m, c, m[c]) && BodyOk(m', c', m'[c']);
    if c.s > 0 {
      forall j: nat | j < W
        ensures m[c].kids[j] == null || Follows(m, m', m[c].kids[j], m[c].kids[j], o)
      {
        KidOk(m, c, j);
        if m[c].kids[j] != null { FollowsStore(m, c', m[c], m[c].kids[j], o); }
      }
    }
  }

  /** `next = new bp_node(*next, id)` */
  method CopyKid<T>(g: Glob<T>, n: Node<T>, s: nat, k: nat, o: Owner, ghost r: Node<T>, ghost i: nat) returns (c: Node<T>)
    requires g.Valid() && o.id < g.unique_id && n in g.nodes && r in g.nodes && n.s == s > 0 && k == Slot(i, s)
    requires n.u.Branches? && |n.u.kids| == W && n.u.kids[k] != null && o.NodeCopy(n.u.kids[k].id)
    requires Passes(g.Mem(), r, n, i)
    modifies g`nodes, n
    ensures g.Valid() && g.nodes == old(g.nodes) + {c} && c !in old(g.nodes) && fresh(c) && c.id == o.id
    ensures n.s >= BP_BITS && c.s == n.s - BP_BITS
    ensures Neutral(old(g.Mem()), g.Mem(), o) && (!o.NodeCopy(n.id) ==> OnlyOwn(old(g.Mem()), g.Mem(), o))
    ensures Passes(g.Mem(), r, c, i)
  {
    ghost var m := g.Mem();
    var next := n.u.kids[k];
    KidOk(m, n, k);
    CopyBodyOk(m, next, next);
    c := g.Alloc(o.id, next.u, next.s, next.lo);
    n.u := Branches(n.u.kids[k := c]);
    RedirectNeutral(m, n, k, next, c, o);
    ghost var m1, b := m[c := m[next]], Branches(m[n].kids[k := c]);
    assert g.Mem() == m1[n := b];
    AllocView(m, c, m[next]);
    StorePasses(m1, n, b, r, n, i);
    PassesKid(g.Mem(), r, n, i);
  }

  /** Walking one level down for writing: copy the child if it is not ours, link the copy, step into it. */
  method Descend<T>(g: Glob<T>, n: Node<T>, s: nat, k: nat, o: Owner, ghost r: Node<T>, ghost i: nat)
    returns (c: Node<T>)
    requires g.Valid() && o.id < g.unique_id && n in g.nodes && r in g.nodes && n.s == s > 0 && k == Slot(i, s)
    requires n.u.Branches? && |n.u.kids| == W && n.u.kids[k] != null
    requires Passes(g.Mem(), r, n, i)
    modifies g`nodes, n
    ensures g.Valid() && Grew(g, o.id) && c in g.nodes && (c in old(Owned(g.nodes, o)) || fresh(c))
    ensures n.s >= BP_BITS && c.s == n.s - BP_BITS
    ensures Neutral(old(g.Mem()), g.Mem(), o) && (!o.NodeCopy(n.id) ==> OnlyOwn(old(g.Mem()), g.Mem(), o))
    ensures Passes(g.Mem(), r, c, i)
  {
    var next := n.u.kids[k];
    KidOk(g.Mem(), n, k);
    if o.NodeCopy(next.id) {
      c := CopyKid(g, n, s, k, o, r, i);
    } else {
      PassesKid(g.Mem(), r, n, i);
      NeutralSelf(g.Mem(), o);
      c := next;
    }
  }

  lemma SameViewFind<T>(m: Mem<T>, m': Mem<T>, r: Node<T>, i: nat)
    requires MemOk(m) && MemOk(m') && SameView(m, m') && r in m && Covers(r, i)
    ensures r in m' && Find(m', r, i) == Find(m, r, i)
  {
  }

  /** The path of `i` from `r` down to `n` consists of nodes that `o` may write. */
  ghost predicate Holds<T>(m: Mem<T>, r: Node<T>, n: Node<T>, i: nat, o: Owner)
    requires MemOk(m) && r in m
    decreases r.s
  {
    && !o.NodeCopy(r.id)
    && assert BodyOk(m, r, m[r]);
       (r == n ||
        (r.s > 0 &&
         var c := m[r].kids[Slot(i, r.s)];
         c != null && Holds(m, c, n, i, o)))
  }

  /** Path copying never replaces a node that is already the writer's own. */
  lemma {:induction false} FollowsHolds<T>(m: Mem<T>, m': Mem<T>, r: Node<T>, n: Node<T>, i: nat, o: Owner)
    requires MemOk(m) && MemOk(m') && r in m && r in m' && Follows(m, m', r, r, o) && Holds(m, r, n, i, o)
    ensures Holds(m', r, n, i, o)
    decreases r.s
  {
    assert BodyOk(m', r, m'[r]);
    if r != n {
      var k := Slot(i, r.s);
      FollowsKid(m, m', r, r, o, k);
      var c := m[r].kids[k];
      assert !o.NodeCopy(c.id);
      FollowsHolds(m, m', c, n, i, o);
    }
  }

  lemma {:induction false} HoldsKid<T>(m: Mem<T>, r: Node<T>, n: Node<T>, i: nat, o: Owner)
    requires MemOk(m) && r in m && n in m && n.s > 0 && Holds(m, r, n, i, o)
    ensures m[n].Branches? && |m[n].kids| == W
    ensures var c := m[n].kids[Slot(i, n.s)]; c != null && !o.NodeCopy(c.id) ==> Holds(m, r, c, i, o)
    decreases r.s
  {
    KidOk(m, n, Slot(i, n.s));
    KidOk(m, r, Slot(i, r.s));
    if r != n {
      HoldsKid(m, m[r].kids[Slot(i, r.s)], n, i, o);
    } else {
      var c := m[n].kids[Slot(i, n.s)];
      if c != null { assert BodyOk(m, c, m[c]); }
    }
  }

  lemma {:induction false} HoldsPasses<T>(m: Mem<T>, r: Node<T>, n: Node<T>, i: nat, o: Owner)
    requires MemOk(m) && r in m && Holds(m, r, n, i, o)
    ensures Passes(m, r, n, i) && n in m && !o.NodeCopy(n.id)
    decreases r.s
  {
    if r != n {
      KidOk(m, r, Slot(i, r.s));
      HoldsPasses(m, m[r].kids[Slot(i, r.s)], n, i, o);
    }
  }

  /** One more level of the path is ours. */
  lemma HoldsDown<T>(m: Mem<T>, m': Mem<T>, r: Node<T>, n: Node<T>, c: Node<T>, i: nat, o: Owner)
    requires MemOk(m) && MemOk(m') && r in m && n in m && n.s > 0 && Neutral(m, m', o) && Holds(m, r, n, i, o)
    requires Passes(m', r, c, i) && c in m' && c.s < n.s && n.s - c.s <= BP_BITS && !o.NodeCopy(c.id)
    ensures r in m' && Holds(m', r, c, i, o)
  {
    FollowsHolds(m, m', r, n, i, o);
    HoldsKid(m', r, n, i, o);
    HoldsPasses(m', r, n, i, o);
    PassesKid(m', r, n, i);
    KidOk(m', n, Slot(i, n.s));
    PassesBoth(m', r, n, c, i);
  }

  /** Of two nodes on one path, the lower one is reached through the upper one. */
  lemma {:induction false} PassesBoth<T>(m: Mem<T>, r: Node<T>, n: Node<T>, c: Node<T>, i: nat)
    requires MemOk(m) && r in m && Passes(m, r, n, i) && Passes(m, r, c, i) && c.s < n.s && n in m && n.s - c.s <= BP_BITS
    ensures n.s > 0 && m[n].Branches? && |m[n].kids| == W && m[n].kids[Slot(i, n.s)] == c
    decreases r.s
  {
    KidOk(m, n, Slot(i, n.s));
    KidOk(m, r, Slot(i, r.s));
    PassesCovers(m, r, n, i);
    if r == n {
      var k := m[r].kids[Slot(i, r.s)];
      if k != c {
        PassesCovers(m, k, c, i);
      }
    } else {
      PassesBoth(m, m[r].kids[Slot(i, r.s)], n, c, i);
    }
  }

  lemma KidThere<T>(m: Mem<T>, r: Node<T>, n: Node<T>, i: nat)
    requires MemOk(m) && r in m && n in m && n.s > 0 && Passes(m, r, n, i) && Find(m, r, i).Some?
    ensures m[n].Branches? && |m[n].kids| == W && m[n].kids[Slot(i, n.s)] != null
  {
    PassesFind(m, r, n, i);
    KidOk(m, n, Slot(i, n.s));
  }

  /** A transient that starts at a node of its own: it owns the whole path, and wrote nothing else. */
  ghost predicate OwnSoFar<T>(m0: Mem<T>, m: Mem<T>, start: Node<T>, n: Node<T>, j: nat, o: Owner)
    requires MemOk(m) && start in m
  {
    o.kind == Tr && o.id == start.id ==> Holds(m, start, n, j, o) && OnlyOwn(m0, m, o)
  }

  lemma OwnOneMore<T>(m0: Mem<T>, m: Mem<T>, m': Mem<T>, start: Node<T>, n: Node<T>, c: Node<T>, j: nat, o: Owner)
    requires MemOk(m) && MemOk(m') && start in m && n in m && n.s > 0 && Neutral(m, m', o) && OwnSoFar(m0, m, start, n, j, o)
    requires Passes(m', start, c, j) && c in m' && c.s < n.s && n.s - c.s <= BP_BITS
    requires o.kind == Tr ==> !o.NodeCopy(c.id)
    requires !o.NodeCopy(n.id) ==> OnlyOwn(m, m', o)
    ensures OwnSoFar(m0, m', start, c, j, o)
  {
    if o.kind == Tr && o.id == start.id {
      HoldsPasses(m, start, n, j, o);
      HoldsDown(m, m', start, n, c, j, o);
      OnlyOwnTrans(m0, m, m', o);
    }
  }

  method WalkStep<T>(g: Glob<T>, start: Node<T>, n: Node<T>, s: nat, i: nat, stop: nat, o: Owner, ghost j: nat, ghost m0: Mem<T>)
    returns (c: Node<T>)
    requires g.Valid() && o.id < g.unique_id && start in g.nodes && n in g.nodes && n.s == s > stop && Levels(s, stop)
    requires Find(g.Mem(), start, j).Some? && i / Span(stop) == j / Span(stop) && Passes(g.Mem(), start, n, j)
    requires OwnSoFar(m0, g.Mem(), start, n, j, o)
    modifies g`nodes, n
    ensures g.Valid() && Grew(g, o.id) && Neutral(old(g.Mem()), g.Mem(), o)
    ensures c in g.nodes && (c in old(Owned(g.nodes, o)) || fresh(c))
    ensures s >= BP_BITS && c.s == s - BP_BITS && Levels(s - BP_BITS, stop) && Passes(g.Mem(), start, c, j)
    ensures OwnSoFar(m0, g.Mem(), start, c, j, o)
  {
    ghost var m := g.Mem();
    LevelDown(s, stop);
    SlotAbove(i, j, s, stop);
    KidThere(m, start, n, j);
    c := Descend(g, n, s, Slot(i, s), o, start, j);
    OwnOneMore(m0, m, g.Mem(), start, n, c, j, o);
  }

  lemma WalkStart<T>(m: Mem<T>, start: Node<T>, j: nat, o: Owner)
    requires MemOk(m) && start in m
    ensures Neutral(m, m, o) && Passes(m, start, start, j) && OwnSoFar(m, m, start, start, j, o)
  {
    NeutralSelf(m, o);
  }

  /** Owning the path from `start`, which is ours, down to shift `stop`; `j` shows that the path exists. */
  method Walk<T>(g: Glob<T>, start: Node<T>, shift: nat, i: nat, stop: nat, o: Owner, ghost j: nat)
    returns (node: Node<T>)
    requires g.Valid() && o.id < g.unique_id && start in g.nodes && start.s == shift && Levels(shift, stop)
    requires Covers(start, j) && Find(g.Mem(), start, j).Some? && i / Span(stop) == j / Span(stop)
    modifies g`nodes, start, Owned(g.nodes, o)
    ensures g.Valid() && Grew(g, o.id) && Neutral(old(g.Mem()), g.Mem(), o)
    ensures node in g.nodes && node.s == stop && Passes(g.Mem(), start, node, j)
    ensures node == start || node in Owned(old(g.nodes), o) || fresh(node)
    ensures OwnSoFar(old(g.Mem()), g.Mem(), start, node, j, o)
  {
    hide Find, Slot, Follows, KeepsShape, OnlyOwn, OwnSoFar, Holds, Passes;
    ghost var m0 := g.Mem();
    node := start;
    var s: nat := shift;
    WalkStart(m0, start, j, o);
    while s > stop
      invariant g.Valid() && o.id < g.unique_id && Grew(g, o.id) && Neutral(m0, g.Mem(), o)
      invariant node in g.nodes && node.s == s && Levels(s, stop) && Passes(g.Mem(), start, node, j)
      invariant node == start || node in Owned(old(g.nodes), o) || fresh(node)
      invariant OwnSoFar(m0, g.Mem(), start, node, j, o)
    {
      ghost var m := g.Mem();
      SameViewFind(m0, m, start, j);
      node := WalkStep(g, start, node, s, i, stop, o, j, m0);
      NeutralTrans(m0, m, g.Mem(), o);
      s := s - BP_BITS;
    }
  }

  /** One element written in a leaf is the only element that changes, in every trie that shares the leaf. */
  lemma LeafView<T>(m: Mem<T>, n: Node<T>, i: nat, val: T)
    requires MemOk(m) && n in m && n.s == 0 && Covers(n, i)
    ensures m[n].Leaves? && |m[n].vals| == W
    ensures BodyOk(m, n, Leaves(m[n].vals[i % W := val]))
    ensures var m' := m[n := Leaves(m[n].vals[i % W := val])];
            && MemOk(m') && SameOutside(m, m', i, i + 1)
            && forall r :: r in m && Passes(m, r, n, i) ==> Find(m', r, i) == Some(val)
  {
    assert BodyOk(m, n, m[n]);
    var b := Leaves(m[n].vals[i % W := val]);
    forall j: nat | Covers(n, j) && !(i <= j < i + 1)
      ensures FindIn(m, n, b, j) == Find(m, n, j)
    {
      LeafOffset(n.lo, i);
      LeafOffset(n.lo, j);
    }
    GraftView(m, n, b, i, i + 1);
    forall r | r in m && Passes(m, r, n, i)
      ensures Find(m[n := b], r, i) == Some(val)
    {
      StoreThrough(m, n, b, r, i);
    }
  }

  method PutValue<T>(g: Glob<T>, leaf: Node<T>, cur: nat, ghost i: nat, val: T)
    requires g.Valid() && leaf in g.nodes && leaf.s == 0 && Covers(leaf, i) && cur == i % W
    modifies leaf
    ensures g.Valid() && SameOutside(old(g.Mem()), g.Mem(), i, i + 1)
    ensures forall r :: r in old(g.Mem()) && old(Passes(g.Mem(), r, leaf, i)) ==> Find(g.Mem(), r, i) == Some(val)
    ensures old(leaf.u.Leaves? && |leaf.u.vals| == W) && leaf.u == Leaves(old(leaf.u.vals)[i % W := val])
    ensures g.Mem() == old(g.Mem())[leaf := leaf.u]
  {
    ghost var m := g.Mem();
    LeafView(m, leaf, i, val);
    leaf.u := Leaves(leaf.u.vals[cur := val]);
    assert g.Mem() == m[leaf := Leaves(m[leaf].vals[i % W := val])];
  }

  /** Linking a fresh child changes what readers see only in the child's range. */
  lemma LinkView<T>(m: Mem<T>, n: Node<T>, k: nat, c: Node<T>, b: int)
    requires MemOk(m) && n in m && n.s > 0 && k < W && ChildOk(m, n, k, c) && b >= n.lo + Span(n.s)
    ensures m[n].Branches? && |m[n].kids| == W
    ensures BodyOk(m, n, Branches(m[n].kids[k := c]))
    ensures var m' := m[n := Branches(m[n].kids[k := c])]; MemOk(m') && SameOutside(m, m', c.lo, b)
  {
    LinkBodyOk(m, n, k, c);
    var body := Branches(m[n].kids[k := c]);
    forall i: nat | Covers(n, i) && !(c.lo <= i < b)
      ensures FindIn(m, n, body, i) == Find(m, n, i)
    {
      KidOk(m, n, Slot(i, n.s));
      SlotOf(n.lo, n.s, i);
    }
    GraftView(m, n, body, c.lo, b);
  }

  /** `n` is a branch whose child slot for `i` starts exactly at `i`; its range ends by `b`. */
  ghost predicate Tip<T>(n: Node<T>, s: nat, i: nat, b: int) {
    && n.s == s >= BP_BITS && Levels(s, 0)
    && n.lo + Slot(i, s) * Pow2(s) == i && Covers(n, i) && b >= n.lo + Span(s)
  }

  lemma TipKid<T>(m: Mem<T>, n: Node<T>, s: nat, i: nat, b: int)
    requires MemOk(m) && n in m && Tip(n, s, i, b)
    ensures i % Span(s - BP_BITS) == 0 && b >= i + Span(s - BP_BITS)
    ensures s > BP_BITS ==> s - BP_BITS >= BP_BITS && Levels(s - BP_BITS, 0)
    ensures i + Slot(i, s - BP_BITS) * Pow2(s - BP_BITS) == i < i + Span(s - BP_BITS)
  {
    KidOk(m, n, Slot(i, s));
    ChildAligned(n.lo, s, Slot(i, s));
    SpanStep(s);
    SubBlockInside(Slot(i, s), s);
    FirstSlot(i, s - BP_BITS);
    if s > BP_BITS {
      LevelDown(s, 0);
      LevelDown(s - BP_BITS, 0);
    }
  }

  /** `next = new bp_node(type, o); node = next` */
  method NewKid<T>(g: Glob<T>, n: Node<T>, s: nat, k: nat, body: Body<T>, o: Owner,
                   ghost r: Node<T>, ghost i: nat, ghost b: int)
    returns (c: Node<T>)
    requires g.Valid() && o.id < g.unique_id && n in g.nodes && r in g.nodes
    requires Tip(n, s, i, b) && k == Slot(i, s) && Passes(g.Mem(), r, n, i)
    requires i % Span(s - BP_BITS) == 0 ==> BodyAt(g.Mem(), s - BP_BITS, i, body)
    modifies g`nodes, n
    ensures g.Valid() && Grew(g, o.id) && fresh(c) && c in g.nodes && c.s == s - BP_BITS && c.lo == i && c.u == body
    ensures SameOutside(old(g.Mem()), g.Mem(), i, b)
    ensures Passes(g.Mem(), r, c, i)
    ensures s > BP_BITS ==> Tip(c, s - BP_BITS, i, b)
  {
    hide Find, Passes, Slot, Pow2;
    ghost var m := g.Mem();
    TipKid(m, n, s, i, b);
    c := g.Alloc(o.id, body, s - BP_BITS, i);
    ghost var m1 := g.Mem();
    AllocView(m, c, body);
    LinkView(m1, n, k, c, b);
    ghost var nb := Branches(m1[n].kids[k := c]);
    n.u := Branches(n.u.kids[k := c]);
    assert g.Mem() == m1[n := nb];
    StorePasses(m1, n, nb, r, n, i);
    PassesKid(g.Mem(), r, n, i);
    SameOutsideTrans(m, m1, g.Mem(), i, b);
  }

  /** Where the search for the insertion depth stops, the next block starts at index `i`. */
  lemma TipHere<T>(m: Mem<T>, r: Node<T>, n: Node<T>, s: nat, i: nat, j: nat)
    requires MemOk(m) && r in m && n in m && r.lo == 0 && Passes(m, r, n, j) && Covers(n, j) && Covers(r, j)
    requires n.s == s >= BP_BITS && Levels(s, 0) && j == i - i % Span(s) && j % Span(s) == 0
    requires i % Span(s - BP_BITS) == 0
    ensures Tip(n, s, i, Span(r.s)) && Passes(m, r, n, i)
  {
    assert BodyOk(m, n, m[n]);
    AlignedApart(n.lo, j, Span(s));
    PassesAnywhere(m, r, n, j, i);
    PassesAnywhere(m, r, n, j, n.lo + Span(s) - 1);
    SlotOf(n.lo, s, i);
    ChildAligned(n.lo, s, Slot(i, s));
    SpanStep(s);
    AlignedApart(n.lo + Slot(i, s) * Pow2(s), i, Pow2(s));
  }

  /** A value-initialised branch array */
  function NoKids<T>(): (b: Body<T>)
    ensures b.Branches? && |b.kids| == W && forall k: nat | k < W :: b.kids[k] == null
  {
    Branches(seq(W, _ => null))
  }

  /** A value-initialised leaf array */
  function ZeroLeaf<T>(zero: T): (b: Body<T>)
    ensures b.Leaves? && |b.vals| == W
  {
    Leaves(seq(W, _ => zero))
  }

  /** Fresh branches down to the one that will hold the leaf. */
  method NewBranches<T>(g: Glob<T>, top: Node<T>, shift: nat, i: nat, o: Owner, ghost r: Node<T>, ghost b: int)
    returns (node: Node<T>)
    requires g.Valid() && o.id < g.unique_id && top in g.nodes && r in g.nodes
    requires Tip(top, shift, i, b) && Passes(g.Mem(), r, top, i)
    modifies g`nodes, top
    ensures g.Valid() && Grew(g, o.id) && SameOutside(old(g.Mem()), g.Mem(), i, b)
    ensures node in g.nodes && (node == top || fresh(node))
    ensures Tip(node, BP_BITS, i, b) && Passes(g.Mem(), r, node, i)
  {
    ghost var m0 := g.Mem();
    node := top;
    var s: nat := shift;
    while s > BP_BITS
      invariant g.Valid() && o.id < g.unique_id && Grew(g, o.id) && SameOutside(m0, g.Mem(), i, b)
      invariant node in g.nodes && (node == top || fresh(node))
      invariant Tip(node, s, i, b) && Passes(g.Mem(), r, node, i)
    {
      ghost var m := g.Mem();
      TipKid(m, node, s, i, b);
      node := NewKid(g, node, s, Slot(i, s), NoKids(), o, r, i, b);
      SameOutsideTrans(m0, m, g.Mem(), i, b);
      s := s - BP_BITS;
    }
  }

  /** Fresh nodes down to a fresh leaf whose first index is `i`. */
  method NewPath<T>(g: Glob<T>, top: Node<T>, shift: nat, i: nat, o: Owner, ghost r: Node<T>, ghost b: int)
    returns (leaf: Node<T>)
    requires g.Valid() && o.id < g.unique_id && top in g.nodes && r in g.nodes
    requires Tip(top, shift, i, b) && Passes(g.Mem(), r, top, i)
    modifies g`nodes, top
    ensures g.Valid() && Grew(g, o.id) && SameOutside(old(g.Mem()), g.Mem(), i, b)
    ensures fresh(leaf) && leaf in g.nodes && leaf.s == 0 && leaf.lo == i && Passes(g.Mem(), r, leaf, i)
  {
    ghost var m0 := g.Mem();
    var node := NewBranches(g, top, shift, i, o, r, b);
    ghost var m := g.Mem();
    TipKid(m, node, BP_BITS, i, b);
    leaf := NewKid(g, node, BP_BITS, Slot(i, BP_BITS), ZeroLeaf(g.zero), o, r, i, b);
    SameOutsideTrans(m0, m, g.Mem(), i, b);
  }

  /** A handle shows `sz` elements through the trie under `root`. */
  ghost predicate HandleOk<T>(m: Mem<T>, root: Node<T>, shift: nat, sz: nat)
    requires MemOk(m)
  {
    && root in m && root.s == shift && root.lo == 0 && Levels(shift, 0)
    && sz <= Span(shift) && (sz == 0 ==> shift == 0)
    && forall i: nat | i < sz :: Find(m, root, i).Some?
  }

  ghost function Contents<T>(m: Mem<T>, root: Node<T>, shift: nat, sz: nat): (c: seq<T>)
    requires MemOk(m) && HandleOk(m, root, shift, sz)
    ensures |c| == sz
  {
    seq(sz, i requires 0 <= i < sz => Find(m, root, i).value)
  }

  /** Neighbours in a leaf are reachable together. */
  lemma {:induction false} SameLeaf<T>(m: Mem<T>, n: Node<T>, i: nat, j: nat)
    requires MemOk(m) && n in m && i / W == j / W && Find(m, n, i).Some?
    ensures Find(m, n, j).Some?
    decreases n.s
  {
    if n.s > 0 {
      KidOk(m, n, Slot(i, n.s));
      BlockZero();
      SlotAbove(i, j, n.s, 0);
      SameLeaf(m, m[n].kids[Slot(i, n.s)], i, j);
    }
  }

  /** The next index of a partly filled leaf already has a place. */
  lemma NextInLeaf<T>(m: Mem<T>, root: Node<T>, shift: nat, sz: nat)
    requires MemOk(m) && HandleOk(m, root, shift, sz) && sz % W != 0
    ensures sz < Span(shift) && Find(m, root, sz).Some?
  {
    BlockZero();
    SpanDivides(shift, 0);
    InnerIndex(sz, Span(shift));
    SameLeaf(m, root, sz - 1, sz);
  }

  lemma PushedContents<T>(m: Mem<T>, r: Node<T>, sh: nat, m': Mem<T>, r': Node<T>, sh': nat, sz: nat, val: T)
    requires MemOk(m) && MemOk(m') && HandleOk(m, r, sh, sz)
    requires r' in m' && r'.s == sh' && r'.lo == 0 && Levels(sh', 0) && sz < Span(sh')
    requires forall j: nat | j < sz :: Find(m', r', j) == Find(m, r, j)
    requires Find(m', r', sz) == Some(val)
    ensures HandleOk(m', r', sh', sz + 1)
    ensures Contents(m', r', sh', sz + 1) == Contents(m, r, sh, sz) + [val]
  {
  }

  /** The trie under `r'` shows what the trie under `r` showed. */
  ghost predicate SameTrie<T>(m: Mem<T>, r: Node<T>, m': Mem<T>, r': Node<T>)
    requires MemOk(m) && MemOk(m')
  {
    && r in m && r' in m' && r'.s == r.s && r'.lo == r.lo
    && forall j: nat :: Covers(r, j) ==> Find(m', r', j) == Find(m, r, j)
  }

  /** The trie under `r'` shows what the trie under `r` showed, except for `val` at index `i`. */
  ghost predicate SetTrie<T>(m: Mem<T>, r: Node<T>, m': Mem<T>, r': Node<T>, i: nat, val: T)
    requires MemOk(m) && MemOk(m')
  {
    && r in m && r' in m' && r'.s == r.s && r'.lo == r.lo
    && forall j: nat :: Covers(r, j) ==> Find(m', r', j) == if j == i then Some(val) else Find(m, r, j)
  }

  lemma SameTrieTrans<T>(m0: Mem<T>, r0: Node<T>, m1: Mem<T>, r1: Node<T>, m2: Mem<T>)
    requires MemOk(m0) && MemOk(m1) && MemOk(m2) && SameTrie(m0, r0, m1, r1) && SameView(m1, m2)
    ensures SameTrie(m0, r0, m2, r1)
  {
  }

  lemma SameTrieHandle<T>(m: Mem<T>, r: Node<T>, m': Mem<T>, r': Node<T>, sh: nat, sz: nat)
    requires MemOk(m) && MemOk(m') && HandleOk(m, r, sh, sz) && SameTrie(m, r, m', r')
    ensures HandleOk(m', r', sh, sz) && Contents(m', r', sh, sz) == Contents(m, r, sh, sz)
  {
  }

  lemma SameTrieSet<T>(m0: Mem<T>, r0: Node<T>, m1: Mem<T>, r1: Node<T>, m2: Mem<T>, i: nat, val: T)
    requires MemOk(m0) && MemOk(m1) && MemOk(m2) && SameTrie(m0, r0, m1, r1) && SameOutside(m1, m2, i, i + 1)
    requires r1 in m2 && Find(m2, r1, i) == Some(val)
    ensures SetTrie(m0, r0, m2, r1, i, val)
  {
  }

  lemma SetContents<T>(m: Mem<T>, r: Node<T>, m': Mem<T>, r': Node<T>, sh: nat, sz: nat, i: nat, val: T)
    requires MemOk(m) && MemOk(m') && HandleOk(m, r, sh, sz) && SetTrie(m, r, m', r', i, val) && i < sz
    ensures HandleOk(m', r', sh, sz)
    ensures Contents(m', r', sh, sz) == Contents(m, r, sh, sz)[i := val]
  {
  }

  lemma SetPushes<T>(m: Mem<T>, r: Node<T>, m': Mem<T>, r': Node<T>, sh: nat, sz: nat, val: T)
    requires MemOk(m) && MemOk(m') && HandleOk(m, r, sh, sz) && SetTrie(m, r, m', r', sz, val) && 0 < sz < Span(sh)
    ensures HandleOk(m', r', sh, sz + 1)
    ensures Contents(m', r', sh, sz + 1) == Contents(m, r, sh, sz) + [val]
  {
    PushedContents(m, r, sh, m', r', sh, sz, val);
  }

  /** What a push of element `sz` adds to the shift: one level if the trie is full. An empty one counts as full here. */
  function Grown(sz: nat, shift: nat): nat {
    if sz == 0 || sz == Span(shift) then BP_BITS else 0
  }

  lemma NotFull(sz: nat, shift: nat, s: nat)
    requires shift >= s && sz % Span(s) != 0
    ensures Grown(sz, shift) == 0
  {
    hide Span;
    if sz == Span(shift) { SpanDivides(shift, s); }
  }

  /** The shift is the least one, from `base` up, with room for n elements. */
  ghost predicate Least(base: nat, n: nat, shift: nat) {
    Levels(shift, base) && n <= Span(shift) && (shift > base ==> shift >= BP_BITS && Span(shift - BP_BITS) < n)
  }

  /** Pushing keeps the shift least; a persistent push onto an empty vector makes it so from one level up. */
  lemma PushedLeast(base: nat, n: nat, shift: nat)
    requires Levels(base, 0) && Least(base, n, shift)
    ensures n > 0 ==> Least(base, n + 1, shift + Grown(n, shift))
    ensures Least(0, 1, 0) && Least(BP_BITS, 1, BP_BITS)
  {
    LevelUp(0);
    LevelsTrans(shift, base, 0);
    LevelUp(shift);
    WidthAtLeastTwo();
    BlockZero();
    SpanMono(0, BP_BITS);
    SpanIsWidthTimes(shift + BP_BITS);
    MulMono(2, W, Span(shift));
    if n > 0 && n == Span(shift) { LevelsTrans(shift + BP_BITS, shift, base); }
  }

  lemma SpanMono(t: nat, s: nat)
    requires t <= s
    ensures Span(t) <= Span(s)
  {
    Pow2Add(t + BP_BITS, s - t);
    MulMono(1, Pow2(s - t), Span(t));
  }

  /** So the number of elements says what the shift is. */
  lemma LeastOnce(base: nat, n: nat, s: nat, t: nat)
    requires Least(base, n, s) && Least(base, n, t)
    ensures s == t
  {
    NoLess(base, n, s, t);
    NoLess(base, n, t, s);
  }

  lemma NoLess(base: nat, n: nat, s: nat, t: nat)
    requires Levels(s, base) && n <= Span(s) && Least(base, n, t)
    ensures t <= s
  {
    var p, q := (s - base) / BP_BITS, (t - base) / BP_BITS;
    assert s - base == p * BP_BITS && t - base == q * BP_BITS;
    if p >= q {
      MulMono(q, p, BP_BITS);
    } else {
      MulMono(p + 1, q, BP_BITS);
      assert (p + 1) * BP_BITS == p * BP_BITS + BP_BITS;
      SpanMono(s, t - BP_BITS);
    }
  }

  class Vec<T> {
    const owner: Owner
    var sz: nat
    var shift: nat
    var root: Node<T>

    ghost predicate Valid(g: Glob<T>)
      reads this, g, g.nodes
    {
      g.Valid() && owner.id < g.unique_id && HandleOk(g.Mem(), root, shift, sz)
    }

    ghost function View(g: Glob<T>): seq<T>
      requires Valid(g)
      reads this, g, g.nodes
    {
      Contents(g.Mem(), root, shift, sz)
    }

    /** The nodes this handle may write in place. */
    ghost function Mine(g: Glob<T>): set<Node<T>>
      reads this, g
    {
      Owned(g.nodes, owner)
    }

    /** An empty vector: one leaf, tagged with the handle's id. */
    constructor Empty(g: Glob<T>, owner: Owner)
      requires g.Valid() && owner.id < g.unique_id
      modifies g`nodes
      ensures this.owner == owner && Valid(g) && View(g) == []
      ensures fresh(root) && g.nodes == old(g.nodes) + {root} && root.id == owner.id && SameView(old(g.Mem()), g.Mem())
      ensures shift == 0 && root.u == ZeroLeaf(g.zero)
    {
      BlockZero();
      var r := g.Alloc(owner.id, ZeroLeaf(g.zero), 0, 0);
      this.owner, this.sz, this.shift, this.root := owner, 0, 0, r;
    }

    /** Copying a handle shares the nodes; the class and the id of the copy are given. */
    constructor Copy(other: Vec<T>, owner: Owner)
      ensures this.owner == owner && sz == other.sz && shift == other.shift && root == other.root
    {
      this.owner, this.sz, this.shift, this.root := owner, other.sz, other.shift, other.root;
    }

    /** `if (node_copy(root->id)) root = new bp_node(*root, id)` */
    method OwnRoot(g: Glob<T>)
      requires g.Valid() && owner.id < g.unique_id && root in g.nodes
      modifies this`root, g`nodes
      ensures g.Valid() && Grew(g, owner.id) && Neutral(old(g.Mem()), g.Mem(), owner)
      ensures SameTrie(old(g.Mem()), old(root), g.Mem(), root)
      ensures Follows(old(g.Mem()), g.Mem(), old(root), root, owner)
      ensures (root in old(Mine(g)) || fresh(root)) && OnlyOwn(old(g.Mem()), g.Mem(), owner)
    {
      ghost var m := g.Mem();
      var r := root;
      if owner.NodeCopy(r.id) {
        CopyBodyOk(m, r, r);
        root := g.Alloc(owner.id, r.u, r.s, r.lo);
        StoreKeepsShape(m, root, m[r], owner);
        FreshCopyFollows(m, r, root, owner);
        forall j: nat | Covers(root, j)
          ensures Find(g.Mem(), root, j) == Find(m, r, j)
        {
          CopyReads(m, r, root, j);
        }
      } else {
        NeutralSelf(m, owner);
      }
    }

    ghost predicate HasRoot(g: Glob<T>)
      reads this, g, g.nodes
    {
      g.Valid() && owner.id < g.unique_id && root in g.nodes && root.s == shift && root.lo == 0 && Levels(shift, 0)
    }

    /** Owning the path down to shift `stop` for the digits of `i`; no reader sees a difference. */
    method OwnPath(g: Glob<T>, i: nat, stop: nat, ghost j: nat) returns (node: Node<T>)
      requires HasRoot(g) && Levels(shift, stop)
      requires Covers(root, j) && Find(g.Mem(), root, j).Some? && i / Span(stop) == j / Span(stop)
      modifies this`root, g`nodes, Mine(g)
      ensures HasRoot(g) && Grew(g, owner.id) && Neutral(old(g.Mem()), g.Mem(), owner)
      ensures Follows(old(g.Mem()), g.Mem(), old(root), root, owner)
      ensures node in g.nodes && node.s == stop && Covers(node, j) && Passes(g.Mem(), root, node, j)
      ensures node in old(Mine(g)) || fresh(node)
      ensures owner.kind == Tr ==> Holds(g.Mem(), root, node, j, owner) && OnlyOwn(old(g.Mem()), g.Mem(), owner)
      ensures SameTrie(old(g.Mem()), old(root), g.Mem(), root)
    {
      ghost var m0 := g.Mem();
      OwnRoot(g);
      ghost var m1 := g.Mem();
      node := Walk(g, root, shift, i, stop, owner, j);
      PassesCovers(g.Mem(), root, node, j);
      NeutralTrans(m0, m1, g.Mem(), owner);
      FollowsTrans(m0, m1, g.Mem(), old(root), root, root, owner);
      SameTrieTrans(m0, old(root), m1, root, g.Mem());
      if owner.kind == Tr { OnlyOwnTrans(m0, m1, g.Mem(), owner); }
    }

    /** The path-copying write behind `bp_vector::mut_set`, `tr_vector::mut_set` and `bp_vector_base::set`. */
    method Write(g: Glob<T>, i: nat, val: T)
      requires HasRoot(g) && Covers(root, i) && Find(g.Mem(), root, i).Some?
      modifies this`root, g`nodes, Mine(g)
      ensures HasRoot(g) && Grew(g, owner.id) && SameOutside(old(g.Mem()), g.Mem(), i, i + 1)
      ensures Follows(old(g.Mem()), g.Mem(), old(root), root, owner)
      ensures SetTrie(old(g.Mem()), old(root), g.Mem(), root, i, val)
    {
      ghost var m0 := g.Mem();
      var leaf := OwnPath(g, i, 0, i);
      ghost var m1 := g.Mem();
      PutValue(g, leaf, i % W, i, val);
      StoreKeepsShape(m1, leaf, leaf.u, owner);
      FollowsTrans(m0, m1, g.Mem(), old(root), root, root, owner);
      SameOutsideTrans(m0, m1, g.Mem(), i, i + 1);
      SameTrieSet(m0, old(root), m1, root, g.Mem(), i, val);
    }

    /** A new root above the old one, one level taller. */
    method Rotate(g: Glob<T>)
      requires HasRoot(g)
      modifies this`root, this`shift, g`nodes
      ensures HasRoot(g) && Grew(g, owner.id) && SameView(old(g.Mem()), g.Mem())
      ensures shift == old(shift) + BP_BITS && fresh(root) && root.u == Branches(NoKids<T>().kids[0 := old(root)])
      ensures forall j: nat :: Covers(old(root), j) ==> Find(g.Mem(), root, j) == old(Find(g.Mem(), root, j))
      ensures Passes(g.Mem(), root, root, sz)
    {
      hide Pow2;
      var none: Body<T> := NoKids();
      var b := Branches(none.kids[0 := root]);
      ghost var m := g.Mem();
      LevelUp(shift);
      WidthAtLeastTwo();
      var old_root := root;
      root := g.Alloc(owner.id, b, shift + BP_BITS, 0);
      shift := shift + BP_BITS;
      forall j: nat | Covers(old_root, j)
        ensures Find(g.Mem(), root, j) == Find(m, old_root, j)
      {
        SlotUnique(0, shift, 0, j);
        assert g.Mem()[root] == b;
      }
    }

    /** A full trie: `depth_ins` is -1, so a new root is put on top. */
    method OpenTop(g: Glob<T>)
      requires Valid(g) && sz % Span(shift) == 0
      modifies this`root, this`shift, g`nodes, Mine(g)
      ensures HasRoot(g) && Grew(g, owner.id) && SameView(old(g.Mem()), g.Mem())
      ensures shift == old(shift) + BP_BITS == old(shift) + Grown(sz, old(shift)) && sz < Span(shift)
      ensures forall j: nat | j < sz :: Find(g.Mem(), root, j) == old(Find(g.Mem(), root, j))
      ensures Tip(root, shift, sz, Span(shift)) && Passes(g.Mem(), root, root, sz) && fresh(root)
      ensures exists r :: root.u == Branches(NoKids<T>().kids[0 := r]) && (r in old(Mine(g)) || fresh(r))
    {
      hide Find, Pow2, Slot;
      ghost var m0 := g.Mem();
      FullTip(sz, shift);
      if sz != 0 { AlignedApart(sz, Span(shift), Span(shift)); }
      OwnRoot(g);
      ghost var m1 := g.Mem();
      Rotate(g);
      SameOutsideTrans(m0, m1, g.Mem(), 0, 0);
    }

    /** The deepest existing node on the path of index `sz`, owned. */
    method OpenBelow(g: Glob<T>, s: nat) returns (node: Node<T>)
      requires Valid(g) && BP_BITS <= s && Levels(s, 0) && Levels(shift, s)
      requires sz % Span(s - BP_BITS) == 0 && sz % Span(s) != 0
      modifies this`root, g`nodes, Mine(g)
      ensures HasRoot(g) && Grew(g, owner.id) && SameView(old(g.Mem()), g.Mem()) && sz < Span(shift)
      ensures forall j: nat | j < sz :: Find(g.Mem(), root, j) == old(Find(g.Mem(), root, j))
      ensures node in g.nodes && Tip(node, s, sz, Span(shift)) && Passes(g.Mem(), root, node, sz)
      ensures node in old(Mine(g)) || fresh(node)
    {
      ghost var j := BlockStart(sz, Span(s));
      SpanDivides(shift, s);
      node := OwnPath(g, sz, s, j);
      TipHere(g.Mem(), root, node, s, sz, j);
    }

    /** Everything `push_back` does before it links new nodes: the branch under which element `sz` will start. */
    method OpenTip(g: Glob<T>) returns (node: Node<T>, s: nat)
      requires Valid(g) && sz % W == 0
      modifies this`root, this`shift, g`nodes, Mine(g)
      ensures HasRoot(g) && Grew(g, owner.id) && SameView(old(g.Mem()), g.Mem())
      ensures shift == old(shift) + Grown(sz, old(shift)) && sz < Span(shift)
      ensures forall j: nat | j < sz :: Find(g.Mem(), root, j) == old(Find(g.Mem(), root, j))
      ensures node in g.nodes && Tip(node, s, sz, Span(shift)) && Passes(g.Mem(), root, node, sz)
      ensures node in old(Mine(g)) || fresh(node)
    {
      var depth_ins, t := DepthToInsert(sz, shift);
      if depth_ins == -1 {
        OpenTop(g);
        node, s := root, shift;
      } else {
        s := shift - depth_ins * BP_BITS;
        assert s == t + BP_BITS by { assert (depth_ins + 1) * BP_BITS == depth_ins * BP_BITS + BP_BITS; }
        LevelUp(t);
        NotFull(sz, shift, s);
        node := OpenBelow(g, s);
      }
    }

    /** The part of `push_back` that links new nodes: a leaf of the handle's own for index `sz`. */
    method GrowLeaf(g: Glob<T>) returns (leaf: Node<T>)
      requires Valid(g) && sz % W == 0
      modifies this`root, this`shift, g`nodes, Mine(g)
      ensures HasRoot(g) && Grew(g, owner.id) && SameOutside(old(g.Mem()), g.Mem(), sz, Span(shift)) && sz < Span(shift)
      ensures shift == old(shift) + Grown(sz, old(shift))
      ensures forall j: nat | j < sz :: Find(g.Mem(), root, j) == old(Find(g.Mem(), root, j))
      ensures leaf in g.nodes && fresh(leaf) && leaf.s == 0 && leaf.lo == sz && Passes(g.Mem(), root, leaf, sz)
    {
      ghost var m0 := g.Mem();
      var node, s := OpenTip(g);
      ghost var m1 := g.Mem();
      leaf := NewPath(g, node, s, sz, owner, root, Span(shift));
      SameOutsideTrans(m0, m1, g.Mem(), sz, Span(shift));
    }

    method AppendNode(g: Glob<T>, val: T)
      requires Valid(g) && sz % W == 0
      modifies this`root, this`shift, this`sz, g`nodes, Mine(g)
      ensures Valid(g) && Grew(g, owner.id) && SameOutside(old(g.Mem()), g.Mem(), old(sz), Span(shift))
      ensures View(g) == old(View(g)) + [val] && shift == old(shift) + Grown(old(sz), old(shift))
    {
      hide Find, Passes;
      ghost var m0 := g.Mem();
      var leaf := GrowLeaf(g);
      ghost var m1 := g.Mem();
      BlockZero();
      PutValue(g, leaf, sz % W, sz, val);
      SameOutsideTrans(m0, m1, g.Mem(), sz, Span(shift));
      PushedContents(m0, old(root), old(shift), g.Mem(), root, shift, sz, val);
      sz := sz + 1;
    }

    method MutSet(g: Glob<T>, i: nat, val: T)
      requires Valid(g) && i < sz
      modifies this`root, g`nodes, Mine(g)
      ensures Valid(g) && Grew(g, owner.id) && SameOutside(old(g.Mem()), g.Mem(), i, i + 1)
      ensures View(g) == old(View(g))[i := val]
      ensures Follows(old(g.Mem()), g.Mem(), old(root), root, owner)
    {
      Write(g, i, val);
      SetContents(old(g.Mem()), old(root), g.Mem(), root, shift, sz, i, val);
    }

    method AppendInLeaf(g: Glob<T>, val: T)
      requires Valid(g) && sz % W != 0
      modifies this`root, this`sz, g`nodes, Mine(g)
      ensures Valid(g) && Grew(g, owner.id) && SameOutside(old(g.Mem()), g.Mem(), old(sz), old(sz) + 1)
      ensures View(g) == old(View(g)) + [val] && Follows(old(g.Mem()), g.Mem(), old(root), root, owner)
    {
      hide Find, Passes;
      ghost var m0 := g.Mem();
      NextInLeaf(m0, root, shift, sz);
      Write(g, sz, val);
      SetPushes(m0, old(root), g.Mem(), root, shift, sz, val);
      sz := sz + 1;
    }

    /** The first element goes into the root leaf, whoever owns it. */
    method AppendFirst(g: Glob<T>, val: T)
      requires Valid(g) && sz == 0
      modifies this`sz, root
      ensures Valid(g) && SameOutside(old(g.Mem()), g.Mem(), 0, 1)
      ensures View(g) == old(View(g)) + [val]
      ensures old(root.u.Leaves? && |root.u.vals| == W) && root.u == Leaves(old(root.u.vals)[0 := val])
    {
      ghost var m0 := g.Mem();
      BlockZero();
      assert Passes(m0, root, root, 0);
      PutValue(g, root, 0, 0, val);
      PushedContents(m0, root, shift, g.Mem(), root, shift, 0, val);
      sz := sz + 1;
    }

    /** `mut_push_back` of bp_vector and tr_vector; the second branch writes the root without looking at its owner. */
    method MutPushBack(g: Glob<T>, val: T)
      requires Valid(g)
      modifies this`root, this`shift, this`sz, g`nodes, Mine(g), if sz == 0 then {root} else {}
      ensures Valid(g) && Grew(g, owner.id) && SameOutside(old(g.Mem()), g.Mem(), old(sz), Span(shift))
      ensures View(g) == old(View(g)) + [val]
      ensures shift == old(shift) + if old(sz) == 0 then 0 else Grown(old(sz), old(shift))
      ensures old(sz) == 0 ==> root == old(root) && old(root.u.Leaves? && |root.u.vals| == W)
      ensures old(sz) == 0 || old(sz) % W != 0 ==>
                shift == old(shift) && SameOutside(old(g.Mem()), g.Mem(), old(sz), old(sz) + 1)
                && (root == old(root) || owner.NodeCopy(old(root).id))
      ensures OnlyOwn(old(g.Mem()), g.Mem(), owner) <==>
              old(sz) != 0 || !owner.NodeCopy(old(root).id) || old(root.u.vals[0]) == val
    {
      if sz % W != 0 {
        AppendInLeaf(g, val);
      } else if sz < W {
        MultipleIsZero(sz);
        BlockZero();
        AppendFirst(g, val);
        assert root in old(g.Mem()) && g.Mem()[root].vals[0] == val;
      } else {
        AppendNode(g, val);
      }
    }

    /** `operator[]` */
    method Get(g: Glob<T>, i: nat) returns (v: T)
      requires Valid(g) && i < sz
      ensures v == View(g)[i]
    {
      var node := root;
      var s := shift;
      while s > 0
        invariant node in g.nodes && node.s == s && Find(g.Mem(), node, i) == Find(g.Mem(), root, i)
      {
        KidOk(g.Mem(), node, Slot(i, s));
        node := node.u.kids[Slot(i, s)];
        s := s - BP_BITS;
      }
      assert BodyOk(g.Mem(), node, g.Mem()[node]);
      v := node.u.vals[i % W];
    }

    /** `at`: out of range is an error, not undefined. */
    method At(g: Glob<T>, i: nat) returns (v: Option<T>)
      requires Valid(g)
      ensures v == if i < sz then Some(View(g)[i]) else None
    {
      if i >= sz {
        return None;
      }
      var x := Get(g, i);
      v := Some(x);
    }

    /** `set`: the result is a new handle; a ps_vector writes fresh nodes only. */
    method Set(g: Glob<T>, i: nat, val: T) returns (ret: Vec<T>)
      requires Valid(g) && i < sz
      modifies g`nodes, Mine(g)
      ensures fresh(ret) && ret.owner == owner && ret.sz == sz && ret.shift == shift
      ensures ret.Valid(g) && ret.View(g) == old(View(g))[i := val]
      ensures Grew(g, owner.id) && SameOutside(old(g.Mem()), g.Mem(), i, i + 1)
    {
      ret := new Vec.Copy(this, owner);
      ret.Write(g, i, val);
      SetContents(old(g.Mem()), root, g.Mem(), ret.root, shift, sz, i, val);
    }

    /** `push_back`: unlike `mut_push_back`, an empty vector grows a level at once. */
    method PushBack(g: Glob<T>, val: T) returns (ret: Vec<T>)
      requires Valid(g)
      modifies g`nodes, Mine(g)
      ensures fresh(ret) && ret.owner == owner
      ensures ret.Valid(g) && ret.View(g) == old(View(g)) + [val] && ret.shift == shift + Grown(sz, shift)
      ensures Grew(g, owner.id) && SameOutside(old(g.Mem()), g.Mem(), sz, Span(ret.shift))
    {
      ret := new Vec.Copy(this, owner);
      if sz % W != 0 {
        ret.AppendInLeaf(g, val);
      } else {
        ret.AppendNode(g, val);
      }
    }

    /** `new_id`: the same nodes, none of which the result may write. */
    method NewId(g: Glob<T>) returns (ret: Vec<T>)
      requires Valid(g)
      modifies g`unique_id
      ensures fresh(ret) && ret.owner == Owner(Tr, old(g.unique_id)) && ret.Mine(g) == {}
      ensures g.unique_id == old(g.unique_id) + 1 && g.Mem() == old(g.Mem())
      ensures ret.sz == sz && ret.shift == shift && ret.root == root
      ensures Valid(g) && ret.Valid(g) && View(g) == old(View(g)) && ret.View(g) == View(g)
    {
      ghost var m := g.Mem();
      var fresh_id := g.GetUniqueId();
      ret := new Vec.Copy(this, Owner(Tr, fresh_id));
    }

    /** `make_persistent`: the same nodes under id 0, none of which a persistent operation writes. */
    method MakePersistent(g: Glob<T>) returns (ret: Vec<T>)
      requires Valid(g) && 0 < g.unique_id
      ensures fresh(ret) && ret.owner == Owner(Ps, 0) && ret.Mine(g) == {}
      ensures ret.sz == sz && ret.shift == shift && ret.root == root
      ensures ret.Valid(g) && ret.View(g) == View(g)
    {
      ret := new Vec.Copy(this, Owner(Ps, 0));
    }
  }
}
