/** Ownership isolation: what a handle that reaches none of a writer's nodes keeps, over every run of the writer. */
module Isolation {
  import opened Radix
  import opened Nodes
  import opened Heap
  import opened Vector

  /** No node reachable from `r` may be written in place by a handle of this kind and id. */
  ghost predicate Avoids<T>(m: Mem<T>, r: Node<T>, o: Owner)
    requires MemOk(m) && r in m
    decreases r.s
  {
    && o.NodeCopy(r.id)
    && assert BodyOk(m, r, m[r]);
       r.s > 0 ==> forall k: nat | k < W :: m[r].kids[k] == null || Avoids(m, m[r].kids[k], o)
  }

  lemma {:induction false} AvoidsKept<T>(m: Mem<T>, m': Mem<T>, r: Node<T>, o: Owner)
    requires MemOk(m) && MemOk(m') && r in m && Avoids(m, r, o) && OnlyOwn(m, m', o)
    ensures r in m' && Avoids(m', r, o)
    decreases r.s
  {
    if r.s > 0 {
      assert m'[r] == m[r];
      forall k: nat | k < W
        ensures m'[r].kids[k] == null || Avoids(m', m'[r].kids[k], o)
      {
        KidOk(m, r, k);
        if m[r].kids[k] != null { AvoidsKept(m, m', m[r].kids[k], o); }
      }
    }
  }

  /** A reader of none of the writer's nodes sees every element as it was. */
  lemma {:induction false} AvoidsFind<T>(m: Mem<T>, m': Mem<T>, r: Node<T>, o: Owner, i: nat)
    requires MemOk(m) && MemOk(m') && r in m && Avoids(m, r, o) && OnlyOwn(m, m', o)
    ensures r in m' && Find(m', r, i) == Find(m, r, i)
    decreases r.s
  {
    assert m'[r] == m[r];
    if r.s > 0 {
      var k := Slot(i, r.s);
      KidOk(m, r, k);
      if m[r].kids[k] != null { AvoidsFind(m, m', m[r].kids[k], o, i); }
    }
  }

  /** What one writer does leaves a trie out of its reach out of the other's reach as well. */
  lemma {:induction false} AvoidsOther<T>(m: Mem<T>, m': Mem<T>, r: Node<T>, o: Owner, w: Owner)
    requires MemOk(m) && MemOk(m') && r in m && Avoids(m, r, o) && Avoids(m, r, w) && OnlyOwn(m, m', o)
    ensures r in m' && Avoids(m', r, w)
    decreases r.s
  {
    if r.s > 0 {
      assert m'[r] == m[r];
      forall k: nat | k < W
        ensures m'[r].kids[k] == null || Avoids(m', m'[r].kids[k], w)
      {
        KidOk(m, r, k);
        if m[r].kids[k] != null { AvoidsOther(m, m', m[r].kids[k], o, w); }
      }
    }
  }

  /** What another writer does to its own trie never brings in the first writer's nodes. */
  lemma {:induction false} FollowsAvoids<T>(m: Mem<T>, m': Mem<T>, r: Node<T>, r': Node<T>, w: Owner, o: Owner)
    requires MemOk(m) && MemOk(m') && r in m && r' in m' && Avoids(m, r, w) && Follows(m, m', r, r', o)
    requires w.kind == Tr && w.id != o.id
    ensures Avoids(m', r', w)
    decreases r.s
  {
    assert BodyOk(m, r, m[r]) && BodyOk(m', r', m'[r']);
    if r.s > 0 {
      forall k: nat | k < W
        ensures m'[r'].kids[k] == null || Avoids(m', m'[r'].kids[k], w)
      {
        FollowsKid(m, m', r, r', o, k);
        if m[r].kids[k] != null { FollowsAvoids(m, m', m[r].kids[k], m'[r'].kids[k], w, o); }
      }
    }
  }

  lemma AvoidsContents<T>(m: Mem<T>, m': Mem<T>, r: Node<T>, shift: nat, sz: nat, o: Owner)
    requires MemOk(m) && MemOk(m') && HandleOk(m, r, shift, sz) && Avoids(m, r, o) && OnlyOwn(m, m', o)
    ensures HandleOk(m', r, shift, sz) && Avoids(m', r, o)
    ensures Contents(m', r, shift, sz) == Contents(m, r, shift, sz)
  {
    AvoidsKept(m, m', r, o);
    forall i: nat | i < sz
      ensures Find(m', r, i) == Find(m, r, i)
    {
      AvoidsFind(m, m', r, o, i);
    }
  }

  /** Everything that the leaves below `r` hold, elements or not. */
  ghost function Slots<T>(m: Mem<T>, r: Node<T>, shift: nat): (s: seq<Option<T>>)
    requires MemOk(m) && r in m
    ensures |s| == Span(shift)
  {
    seq(Span(shift), i requires i >= 0 => Find(m, r, i))
  }

  lemma AvoidsSlots<T>(m: Mem<T>, m': Mem<T>, r: Node<T>, shift: nat, o: Owner)
    requires MemOk(m) && MemOk(m') && r in m && Avoids(m, r, o) && OnlyOwn(m, m', o)
    ensures r in m' && Slots(m', r, shift) == Slots(m, r, shift)
  {
    AvoidsFind(m, m', r, o, 0);
    forall i: nat
      ensures Find(m', r, i) == Find(m, r, i)
    {
      AvoidsFind(m, m', r, o, i);
    }
  }

  lemma AvoidsAll<T>(m: Mem<T>, m': Mem<T>, r: Node<T>, shift: nat, sz: nat, o: Owner)
    requires MemOk(m) && MemOk(m') && HandleOk(m, r, shift, sz) && Avoids(m, r, o) && OnlyOwn(m, m', o)
    ensures HandleOk(m', r, shift, sz) && Avoids(m', r, o)
    ensures Contents(m', r, shift, sz) == Contents(m, r, shift, sz) && Slots(m', r, shift) == Slots(m, r, shift)
  {
    hide Avoids, Find;
    AvoidsContents(m, m', r, shift, sz, o);
    AvoidsSlots(m, m', r, shift, o);
  }

  /** Every writer avoids a trie none of whose nodes carries the writer's id: a new id, or a persistent writer. */
  lemma {:induction false} NobodyOwns<T>(m: Mem<T>, r: Node<T>, o: Owner)
    requires MemOk(m) && r in m && forall n | n in m :: o.NodeCopy(n.id)
    ensures Avoids(m, r, o)
    decreases r.s
  {
    if r.s > 0 {
      forall k: nat | k < W
        ensures m[r].kids[k] == null || Avoids(m, m[r].kids[k], o)
      {
        KidOk(m, r, k);
        if m[r].kids[k] != null { NobodyOwns(m, m[r].kids[k], o); }
      }
    }
  }

  /** Over any sequence of heaps linked by the writer's steps, the reader's contents stay fixed. */
  lemma {:induction false} IsolatedRun<T>(ms: seq<Mem<T>>, r: Node<T>, shift: nat, sz: nat, o: Owner)
    requires |ms| > 0 && forall k | 0 <= k < |ms| :: MemOk(ms[k])
    requires forall k | 0 < k < |ms| :: OnlyOwn(ms[k - 1], ms[k], o)
    requires HandleOk(ms[0], r, shift, sz) && Avoids(ms[0], r, o)
    ensures HandleOk(ms[|ms| - 1], r, shift, sz) && Avoids(ms[|ms| - 1], r, o)
    ensures Contents(ms[|ms| - 1], r, shift, sz) == Contents(ms[0], r, shift, sz)
  {
    if |ms| > 1 {
      var last := |ms| - 1;
      var init := ms[..last];
      forall k | 0 < k < last
        ensures OnlyOwn(init[k - 1], init[k], o)
      {
        assert OnlyOwn(ms[k - 1], ms[k], o);
      }
      IsolatedRun(init, r, shift, sz, o);
      AvoidsContents(ms[last - 1], ms[last], r, shift, sz, o);
    }
  }

  /** A transient has to own its root while it is empty: a push through an empty handle that does not own its root
      overwrites the first element of every vector that shares the root, though they reach none of its nodes. */
  method EmptyPushLeaks<T>(g: Glob<T>, a: Vec<T>, b: Vec<T>, x: T, y: T)
    requires a.Valid(g) && b.Valid(g) && a != b && a.owner.kind == b.owner.kind == Tr
    requires a.View(g) == [x] && b.sz == 0 && a.root == b.root && a.root.id != b.owner.id
    modifies b, g`nodes, a.root, b.Mine(g)
    ensures old(Avoids(g.Mem(), a.root, b.owner))
    ensures a.Valid(g) && a.View(g) == [y]
  {
    b.MutPushBack(g, y);
    assert b.View(g)[0] == y;
  }

  /** Such a pair of handles is two calls away from a new vector. */
  method EmptyTransientShares<T>(g: Glob<T>, x: T) returns (a: Vec<T>, b: Vec<T>)
    requires g.Valid()
    modifies g
    ensures a.Valid(g) && b.Valid(g) && a != b && a.owner.kind == b.owner.kind == Tr
    ensures a.View(g) == [x] && b.sz == 0 && a.root == b.root && a.root.id != b.owner.id
  {
    var id := g.GetUniqueId();
    a := new Vec.Empty(g, Owner(Tr, id));
    b := a.NewId(g);
    assert b.Valid(g) && a.Valid(g) && b.root == a.root;
    a.MutPushBack(g, x);
    assert a.Valid(g) && a.View(g) == [x];
    assert b.Valid(g);
  }

  /** A write at one index keeps every handle readable, whoever shares the written node. */
  lemma OutsideHandleOk<T>(m: Mem<T>, m': Mem<T>, r: Node<T>, shift: nat, sz: nat, i: nat)
    requires MemOk(m) && MemOk(m') && HandleOk(m, r, shift, sz) && SameOutside(m, m', i, i + 1)
    ensures HandleOk(m', r, shift, sz)
  {
    hide Find, MemOk, Span, Levels;
    if i < sz { OutsideFind(m, m', r, i); }
  }

  lemma OutsideFind<T>(m: Mem<T>, m': Mem<T>, r: Node<T>, i: nat)
    requires MemOk(m) && MemOk(m') && r in m && r.lo == 0 && Levels(r.s, 0) && i < Span(r.s) && Find(m, r, i).Some?
    requires SameOutside(m, m', i, i + 1)
    ensures r in m' && Find(m', r, i).Some?
  {
    hide Find, MemOk, Span, Levels;
    var j := Neighbour(i, r.s);
    SameLeaf(m, r, i, j);
    assert Find(m', r, j) == Find(m, r, j);
    SameLeaf(m', r, j, i);
  }

  /** Every leaf holds more than one index. */
  lemma Neighbour(i: nat, shift: nat) returns (j: nat)
    requires i < Span(shift) && Levels(shift, 0)
    ensures j != i && j / W == i / W && j < Span(shift)
  {
    hide Span, Levels;
    WidthAtLeastTwo();
    BlockZero();
    SpanDivides(shift, 0);
    var q := i / W;
    assert i == q * W + i % W;
    j := if i % W == 0 then i + 1 else i - 1;
    DivUnique(j, W, q);
    if j > i { InnerIndex(j, Span(shift)); }
  }

  /** Some node on the path of index i carries the writer's id. */
  ghost predicate OnPath<T>(m: Mem<T>, r: Node<T>, i: nat, o: Owner)
    requires MemOk(m) && r in m
    decreases r.s
  {
    || !o.NodeCopy(r.id)
    || (assert BodyOk(m, r, m[r]);
        r.s > 0 && var c := m[r].kids[Slot(i, r.s)]; c != null && OnPath(m, c, i, o))
  }

  /** From the first own node on, an older reader's path is the writer's path. */
  lemma {:induction false} OnPathSees<T>(m: Mem<T>, m': Mem<T>, r: Node<T>, r': Node<T>, i: nat, o: Owner)
    requires MemOk(m) && MemOk(m') && r in m && r' in m' && Follows(m, m', r, r', o) && OnlyOwn(m, m', o) && OnPath(m, r, i, o)
    ensures r in m' && Find(m', r, i) == Find(m', r', i)
    decreases r.s
  {
    if o.NodeCopy(r.id) {
      var k := Slot(i, r.s);
      FollowsKid(m, m', r, r', o, k);
      KidOk(m', r, k);
      assert m'[r] == m[r];
      OnPathSees(m, m', m[r].kids[k], m'[r'].kids[k], i, o);
    }
  }

  /** A path without own nodes stays as it is. */
  lemma {:induction false} OffPathFind<T>(m: Mem<T>, m': Mem<T>, r: Node<T>, i: nat, o: Owner)
    requires MemOk(m) && MemOk(m') && r in m && OnlyOwn(m, m', o) && !OnPath(m, r, i, o)
    ensures r in m' && Find(m', r, i) == Find(m, r, i)
    decreases r.s
  {
    assert m'[r] == m[r];
    if r.s > 0 {
      KidOk(m, r, Slot(i, r.s));
      var c := m[r].kids[Slot(i, r.s)];
      if c != null { OffPathFind(m, m', c, i, o); }
    }
  }

  /** `new_id` protects the source from its copy, not the copy from the source: the source keeps its id, and the copy
      shows what it writes at i exactly when some node on the path of i carries that id. */
  method CopySeesSource<T>(g: Glob<T>, a: Vec<T>, i: nat, x: T) returns (b: Vec<T>)
    requires a.Valid(g) && a.owner.kind == Tr && i < a.sz
    modifies g`unique_id, a`root, g`nodes, a.Mine(g)
    ensures a.Valid(g) && b.Valid(g) && a != b && b.owner == Owner(Tr, old(g.unique_id)) && b.owner.id != a.owner.id
    ensures a.View(g) == old(a.View(g))[i := x]
    ensures b.View(g) == if old(OnPath(g.Mem(), a.root, i, a.owner)) then old(a.View(g))[i := x] else old(a.View(g))
    ensures b.View(g)[i] == x <==> old(OnPath(g.Mem(), a.root, i, a.owner)) || old(a.View(g))[i] == x
  {
    hide Find, Follows, OnPath;
    b := a.NewId(g);
    ghost var m, r := g.Mem(), a.root;
    a.MutSet(g, i, x);
    CopySees(m, g.Mem(), r, a.root, a.shift, a.sz, i, a.owner);
  }

  lemma CopySees<T>(m: Mem<T>, m': Mem<T>, r: Node<T>, r': Node<T>, shift: nat, sz: nat, i: nat, o: Owner)
    requires MemOk(m) && MemOk(m') && HandleOk(m, r, shift, sz) && HandleOk(m', r', shift, sz) && i < sz
    requires Follows(m, m', r, r', o) && OnlyOwn(m, m', o) && SameOutside(m, m', i, i + 1)
    requires forall j: nat | j < sz && j != i :: Contents(m', r', shift, sz)[j] == Contents(m, r, shift, sz)[j]
    ensures HandleOk(m', r, shift, sz)
    ensures Contents(m', r, shift, sz) == if OnPath(m, r, i, o) then Contents(m', r', shift, sz) else Contents(m, r, shift, sz)
  {
    hide Find, Follows, OnPath;
    OutsideHandleOk(m, m', r, shift, sz, i);
    if OnPath(m, r, i, o) { OnPathSees(m, m', r, r', i, o); } else { OffPathFind(m, m', r, i, o); }
    forall j: nat | j < sz && j != i
      ensures Find(m', r, j) == Find(m, r, j)
    {
      assert Covers(r, j);
    }
  }
}
