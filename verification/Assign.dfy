/** `assign`: copying a range of one trie into another, whole subtrees at a time. */
module Assign {
  import opened Radix
  import opened Nodes
  import opened Heap
  import opened Vector
  import opened Isolation
  import opened Iterators

  /** One call of `assign`: the heap and the two roots it starts from, the writer, and the first index. */
  datatype Job<!T> = Job(m: Mem<T>, mine: Node<T>, other: Node<T>, shift: nat, sz: nat, o: Owner, a: nat)

  ghost predicate JobOk<T>(job: Job<T>) {
    && MemOk(job.m) && HandleOk(job.m, job.mine, job.shift, job.sz) && HandleOk(job.m, job.other, job.shift, job.sz)
    && Avoids(job.m, job.other, job.o) && job.o.kind == Tr && job.sz > 0
  }

  /** Another transient writer that could write neither trie in place cannot write what `r` reaches now. */
  ghost predicate Inherits<T>(m0: Mem<T>, mine: Node<T>, other: Node<T>, o: Owner, m: Mem<T>, r: Node<T>)
    requires MemOk(m0) && mine in m0 && other in m0 && MemOk(m) && r in m
  {
    forall w: Owner | w.kind == Tr && w.id != o.id && Avoids(m0, mine, w) && Avoids(m0, other, w) :: Avoids(m, r, w)
  }

  /** The target, now under root `r` in heap `m`, reads as the other vector on [a, c) and as before elsewhere. */
  ghost predicate Copied<T>(job: Job<T>, m: Mem<T>, r: Node<T>, c: nat)
    requires JobOk(job)
  {
    && MemOk(m) && OnlyOwn(job.m, m, job.o) && r in m && r.s == job.shift && r.lo == 0
    && Inherits(job.m, job.mine, job.other, job.o, m, r)
    && forall j: nat | j < job.sz ::
         Find(m, r, j) == if job.a <= j < c then Find(job.m, job.other, j) else Find(job.m, job.mine, j)
  }

  /** Throughout, both vectors stay well formed and the other one keeps its elements. */
  lemma CopiedOk<T>(job: Job<T>, m: Mem<T>, r: Node<T>, c: nat)
    requires JobOk(job) && Copied(job, m, r, c)
    ensures HandleOk(m, r, job.shift, job.sz) && HandleOk(m, job.other, job.shift, job.sz)
    ensures Avoids(m, job.other, job.o)
    ensures forall j: nat | j < job.sz :: Find(m, job.other, j) == Find(job.m, job.other, j)
  {
    AvoidsContents(job.m, m, job.other, job.shift, job.sz, job.o);
    forall j: nat | j < job.sz
      ensures Find(m, job.other, j) == Find(job.m, job.other, j)
    {
      AvoidsFind(job.m, m, job.other, job.o, j);
    }
  }

  lemma CopiedStart<T>(job: Job<T>)
    requires JobOk(job)
    ensures Copied(job, job.m, job.mine, job.a)
  {
  }

  lemma InheritsFollows<T>(job: Job<T>, m: Mem<T>, r: Node<T>, m': Mem<T>, r': Node<T>)
    requires JobOk(job) && MemOk(m) && MemOk(m') && r in m && r' in m' && Follows(m, m', r, r', job.o)
    requires Inherits(job.m, job.mine, job.other, job.o, m, r)
    ensures Inherits(job.m, job.mine, job.other, job.o, m', r')
  {
    forall w: Owner | w.kind == Tr && w.id != job.o.id && Avoids(job.m, job.mine, w) && Avoids(job.m, job.other, w)
      ensures Avoids(m', r', w)
    {
      FollowsAvoids(m, m', r, r', w, job.o);
    }
  }

  /** Path copying does not show. */
  lemma CopiedKept<T>(job: Job<T>, m: Mem<T>, r: Node<T>, m': Mem<T>, r': Node<T>, c: nat)
    requires JobOk(job) && Copied(job, m, r, c) && MemOk(m') && OnlyOwn(m, m', job.o) && SameTrie(m, r, m', r')
    requires Follows(m, m', r, r', job.o)
    ensures Copied(job, m', r', c)
  {
    InheritsFollows(job, m, r, m', r');
    OnlyOwnTrans(job.m, m, m', job.o);
  }

  /** One more element. */
  lemma CopiedOne<T>(job: Job<T>, m: Mem<T>, r: Node<T>, m': Mem<T>, c: nat, val: T)
    requires JobOk(job) && Copied(job, m, r, c) && job.a <= c < job.sz && MemOk(m') && OnlyOwn(m, m', job.o)
    requires SetTrie(m, r, m', r, c, val) && Find(m, job.other, c) == Some(val) && Follows(m, m', r, r, job.o)
    ensures Copied(job, m', r, c + 1)
  {
    InheritsFollows(job, m, r, m', r);
    CopiedOk(job, m, r, c);
    OnlyOwnTrans(job.m, m, m', job.o);
  }

  /** The other vector's iterators are not disturbed. */
  lemma ConstIterKept<T>(m: Mem<T>, m': Mem<T>, root: Node<T>, shift: nat, sz: nat, o: Owner, i: nat, leaf: Node<T>, cur: nat, pos: nat)
    requires MemOk(m) && MemOk(m') && IterAt(m, root, shift, sz, i, leaf, cur, pos) && sz > 0
    requires Avoids(m, root, o) && OnlyOwn(m, m', o) && HandleOk(m', root, shift, sz)
    ensures IterAt(m', root, shift, sz, i, leaf, cur, pos)
  {
    AvoidsPasses(m, m', root, leaf, Last(pos, sz), o);
  }

  lemma {:induction false} AvoidsPasses<T>(m: Mem<T>, m': Mem<T>, r: Node<T>, n: Node<T>, i: nat, o: Owner)
    requires MemOk(m) && MemOk(m') && r in m && Avoids(m, r, o) && OnlyOwn(m, m', o) && Passes(m, r, n, i)
    ensures Passes(m', r, n, i)
    decreases r.s
  {
    if r != n {
      KidOk(m, r, Slot(i, r.s));
      assert m'[r] == m[r];
      AvoidsPasses(m, m', m[r].kids[Slot(i, r.s)], n, i, o);
    }
  }

  /** Where the copying loop stops: the pointer held by `end`, and the position it stands for. */
  datatype Stop<!T> = Stop(leaf: Node<T>, cur: nat, i: nat, pos: nat)

  /** A copying loop: elements copied up to `c`, reading at `ps`, writing at `pd`. */
  ghost predicate Lined<T>(g: Glob<T>, job: Job<T>, src: ConstIterator<T>, dst: MutIterator<T>, end: Stop<T>,
                           c: nat, ps: nat, pd: nat)
    reads g, g.nodes, src, dst
  {
    && JobOk(job) && g.Valid() && job.o.id < g.unique_id && job.a <= c && end.pos <= job.sz
    && src.root == job.other && src.shift == dst.shift == job.shift && src.sz == dst.sz == job.sz
    && dst.owner == job.o && dst.root.id == job.o.id
    && Copied(job, g.Mem(), dst.root, c)
    && src.At(g.Mem(), ps) && dst.At(g.Mem(), pd)
    && MutIterAt(g.Mem(), dst.root, job.shift, job.sz, job.o, end.i, end.leaf, end.cur, end.pos)
  }

  lemma LinedReady<T>(g: Glob<T>, job: Job<T>, src: ConstIterator<T>, dst: MutIterator<T>, end: Stop<T>,
                      c: nat, ps: nat, pd: nat)
    requires Lined(g, job, src, dst, end, c, ps, pd)
    ensures dst.Ready(g)
    ensures dst.leaf != end.leaf || dst.cur != end.cur <==> pd != end.pos
  {
    CopiedOk(job, g.Mem(), dst.root, c);
    PointersAreEqual(g.Mem(), dst.root, job.sz, dst.leaf, dst.cur, pd, end.leaf, end.cur, end.pos);
  }

  lemma SameViewTrie<T>(m: Mem<T>, m': Mem<T>, r: Node<T>)
    requires MemOk(m) && MemOk(m') && r in m && SameView(m, m')
    ensures SameTrie(m, r, m', r)
  {
  }

  /** After a change that keeps the target's shape, the idle iterators stand where they stood. */
  lemma IdleKept<T>(job: Job<T>, m: Mem<T>, m': Mem<T>, r: Node<T>, c: nat, c': nat,
                    si: nat, sleaf: Node<T>, scur: nat, p: nat, end: Stop<T>)
    requires JobOk(job) && Copied(job, m, r, c) && Copied(job, m', r, c') && OnlyOwn(m, m', job.o) && KeepsShape(m, m', job.o)
    requires IterAt(m, job.other, job.shift, job.sz, si, sleaf, scur, p)
    requires MutIterAt(m, r, job.shift, job.sz, job.o, end.i, end.leaf, end.cur, end.pos)
    ensures IterAt(m', job.other, job.shift, job.sz, si, sleaf, scur, p)
    ensures MutIterAt(m', r, job.shift, job.sz, job.o, end.i, end.leaf, end.cur, end.pos)
  {
    CopiedOk(job, m, r, c);
    CopiedOk(job, m', r, c');
    ConstIterKept(m, m', job.other, job.shift, job.sz, job.o, si, sleaf, scur, p);
    MutIterKept(m, m', r, job.shift, job.sz, job.o, end.i, end.leaf, end.cur, end.pos);
  }

  lemma LinedLeaf<T>(g: Glob<T>, job: Job<T>, src: ConstIterator<T>, dst: MutIterator<T>, end: Stop<T>, c: nat, ps: nat, pd: nat)
    requires Lined(g, job, src, dst, end, c, ps, pd) && pd < end.pos
    ensures g.Valid() && dst.leaf in Owned(g.nodes, job.o)
  {
    HoldsPasses(g.Mem(), dst.root, dst.leaf, pd, job.o);
  }

  /** `*it = *src` */
  method PutOne<T>(g: Glob<T>, src: ConstIterator<T>, dst: MutIterator<T>, end: Stop<T>, ghost p: nat, ghost job: Job<T>)
    requires Lined(g, job, src, dst, end, p, p, p) && p < end.pos
    modifies dst.leaf
    ensures Lined(g, job, src, dst, end, p + 1, p, p) && OnlyOwn(old(g.Mem()), g.Mem(), job.o)
  {
    ghost var m := g.Mem();
    LinedReady(g, job, src, dst, end, p, p, p);
    CopiedOk(job, m, dst.root, p);
    HoldsPasses(m, dst.root, dst.leaf, p, job.o);
    var v := src.Deref(g, p);
    dst.Put(g, v, p);
    CopiedOne(job, m, dst.root, g.Mem(), p, v);
    IdleKept(job, m, g.Mem(), dst.root, p, p + 1, src.i, src.leaf, src.cur, p, end);
  }

  lemma CopiedUnseen<T>(job: Job<T>, m: Mem<T>, m': Mem<T>, r: Node<T>, c: nat)
    requires JobOk(job) && Copied(job, m, r, c) && MemOk(m') && OnlyOwn(m, m', job.o) && Neutral(m, m', job.o)
    ensures Copied(job, m', r, c)
  {
    SameViewTrie(m, m', r);
    CopiedKept(job, m, r, m', r, c);
  }

  /** `++it` */
  method MoveDst<T>(g: Glob<T>, src: ConstIterator<T>, dst: MutIterator<T>, end: Stop<T>, ghost p: nat, ghost job: Job<T>)
    requires Lined(g, job, src, dst, end, p + 1, p, p) && p < end.pos
    modifies dst`i, dst`leaf, dst`cur, g`nodes, Owned(g.nodes, job.o)
    ensures Lined(g, job, src, dst, end, p + 1, p, p + 1) && Grew(g, job.o.id) && OnlyOwn(old(g.Mem()), g.Mem(), job.o)
  {
    hide Copied, MutIterAt, IterAt, OnlyOwn, KeepsShape, SameTrie, JobOk;
    ghost var m := g.Mem();
    LinedReady(g, job, src, dst, end, p + 1, p, p);
    dst.Inc(g, p);
    CopiedUnseen(job, m, g.Mem(), dst.root, p + 1);
    IdleKept(job, m, g.Mem(), dst.root, p + 1, p + 1, src.i, src.leaf, src.cur, p, end);
  }

  /** `++src` */
  method MoveSrc<T>(g: Glob<T>, src: ConstIterator<T>, dst: MutIterator<T>, end: Stop<T>, ghost p: nat, ghost job: Job<T>)
    requires Lined(g, job, src, dst, end, p + 1, p, p + 1) && p < end.pos
    modifies src`i, src`leaf, src`cur
    ensures Lined(g, job, src, dst, end, p + 1, p + 1, p + 1) && g.Mem() == old(g.Mem())
  {
    src.Inc(g, p);
  }

  method CopyOne<T>(g: Glob<T>, src: ConstIterator<T>, dst: MutIterator<T>, end: Stop<T>, ghost p: nat, ghost job: Job<T>)
    requires Lined(g, job, src, dst, end, p, p, p) && p < end.pos
    modifies src`i, src`leaf, src`cur, dst`i, dst`leaf, dst`cur, g`nodes, Owned(g.nodes, job.o)
    ensures Lined(g, job, src, dst, end, p + 1, p + 1, p + 1)
    ensures Grew(g, job.o.id) && OnlyOwn(old(g.Mem()), g.Mem(), job.o)
  {
    hide Lined, OnlyOwn;
    ghost var m0 := g.Mem();
    LinedLeaf(g, job, src, dst, end, p, p, p);
    PutOne(g, src, dst, end, p, job);
    ghost var m1 := g.Mem();
    MoveDst(g, src, dst, end, p, job);
    OnlyOwnTrans(m0, m1, g.Mem(), job.o);
    MoveSrc(g, src, dst, end, p, job);
  }

  /** `t` is the target of the job, `other` its source, and elements are copied up to `c`. */
  ghost predicate Target<T>(g: Glob<T>, t: Vec<T>, other: Vec<T>, job: Job<T>, c: nat)
    reads g, g.nodes, t, other
  {
    && JobOk(job) && g.Valid() && job.o.id < g.unique_id && other.owner.id < g.unique_id && job.a <= c <= job.sz
    && t.owner == job.o && t.shift == other.shift == job.shift && t.sz == other.sz == job.sz && other.root == job.other
    && Copied(job, g.Mem(), t.root, c)
  }

  lemma TargetOk<T>(g: Glob<T>, t: Vec<T>, other: Vec<T>, job: Job<T>, c: nat)
    requires Target(g, t, other, job, c)
    ensures t.Valid(g) && other.Valid(g) && t.owner.kind == Tr && t.sz > 0 && Avoids(g.Mem(), other.root, job.o)
  {
    CopiedOk(job, g.Mem(), t.root, c);
  }

  /** Making and moving a mutable iterator shows to nobody; other positions held in the target stay good. */
  ghost predicate Unseen<T>(m: Mem<T>, m': Mem<T>, r: Node<T>, r': Node<T>, o: Owner)
    requires MemOk(m) && MemOk(m')
  {
    && OnlyOwn(m, m', o) && KeepsShape(m, m', o) && r in m && r' in m' && Follows(m, m', r, r', o)
  }

  lemma UnseenTrans<T>(m0: Mem<T>, m1: Mem<T>, m2: Mem<T>, r0: Node<T>, r: Node<T>, o: Owner)
    requires MemOk(m0) && MemOk(m1) && MemOk(m2) && Unseen(m0, m1, r0, r, o) && OnlyOwn(m1, m2, o) && KeepsShape(m1, m2, o)
    ensures Unseen(m0, m2, r0, r, o)
  {
    OnlyOwnTrans(m0, m1, m2, o);
    KeepsShapeTrans(m0, m1, m2, o);
    FollowsTrans(m0, m1, m2, r0, r, r, o);
  }

  /** `begin() + n`: the same elements, along a path that the handle owns. */
  method BeginAt<T>(g: Glob<T>, v: Vec<T>, n: nat) returns (it: MutIterator<T>)
    requires v.Valid(g) && v.owner.kind == Tr && v.sz > 0 && n <= v.sz
    modifies v`root, g`nodes, v.Mine(g)
    ensures v.Valid(g) && v.View(g) == old(v.View(g)) && Grew(g, v.owner.id)
    ensures Unseen(old(g.Mem()), g.Mem(), old(v.root), v.root, v.owner)
    ensures fresh(it) && it.root == v.root && it.shift == v.shift && it.sz == v.sz && it.owner == v.owner
    ensures it.root.id == it.owner.id && it.At(g.Mem(), n)
  {
    hide OnlyOwn, KeepsShape, Follows, MutIterAt, SameTrie, SameOutside, Contents, Find;
    ghost var m0 := g.Mem();
    it := new MutIterator(g, v);
    ghost var m1 := g.Mem();
    SameTrieHandle(m0, old(v.root), m1, v.root, v.shift, v.sz);
    it.Add(g, n, 0);
    SameViewHandle(m1, g.Mem(), v.root, v.shift, v.sz);
    UnseenTrans(m0, m1, g.Mem(), old(v.root), v.root, v.owner);
  }

  ghost predicate ItOf<T>(it: MutIterator<T>, t: Vec<T>, job: Job<T>)
    reads t
  {
    && it.root == t.root && it.shift == job.shift && it.sz == job.sz && it.owner == job.o && it.root.id == job.o.id
  }

  method Begin0<T>(g: Glob<T>, t: Vec<T>, other: Vec<T>, ghost job: Job<T>, ghost c: nat) returns (it: MutIterator<T>)
    requires Target(g, t, other, job, c) && t != other
    modifies t`root, g`nodes, t.Mine(g)
    ensures Target(g, t, other, job, c) && Grew(g, job.o.id) && Unseen(old(g.Mem()), g.Mem(), old(t.root), t.root, job.o)
    ensures fresh(it) && ItOf(it, t, job) && it.At(g.Mem(), 0)
  {
    hide Copied, OnlyOwn, KeepsShape, Follows, MutIterAt, JobOk, SameTrie, SameOutside, Contents;
    ghost var m0 := g.Mem();
    TargetOk(g, t, other, job, c);
    it := new MutIterator(g, t);
    CopiedKept(job, m0, old(t.root), g.Mem(), t.root, c);
  }

  /** `begin() + n` */
  method Begin<T>(g: Glob<T>, t: Vec<T>, other: Vec<T>, n: nat, ghost job: Job<T>, ghost c: nat) returns (it: MutIterator<T>)
    requires Target(g, t, other, job, c) && n <= job.sz && t != other
    modifies t`root, g`nodes, t.Mine(g)
    ensures Target(g, t, other, job, c) && Grew(g, job.o.id) && Unseen(old(g.Mem()), g.Mem(), old(t.root), t.root, job.o)
    ensures fresh(it) && ItOf(it, t, job) && it.At(g.Mem(), n)
  {
    hide Copied, OnlyOwn, KeepsShape, Follows, MutIterAt, JobOk, SameTrie, SameOutside, Contents;
    ghost var m0 := g.Mem();
    it := Begin0(g, t, other, job, c);
    ghost var m1 := g.Mem();
    TargetOk(g, t, other, job, c);
    it.Add(g, n, 0);
    CopiedUnseen(job, m1, g.Mem(), t.root, c);
    UnseenTrans(m0, m1, g.Mem(), old(t.root), t.root, job.o);
  }

  lemma SrcKept<T>(job: Job<T>, m: Mem<T>, m': Mem<T>, r: Node<T>, r': Node<T>, c: nat,
                   si: nat, sleaf: Node<T>, scur: nat, p: nat)
    requires JobOk(job) && Copied(job, m, r, c) && Copied(job, m', r', c) && OnlyOwn(m, m', job.o)
    requires IterAt(m, job.other, job.shift, job.sz, si, sleaf, scur, p)
    ensures IterAt(m', job.other, job.shift, job.sz, si, sleaf, scur, p)
  {
    CopiedOk(job, m, r, c);
    CopiedOk(job, m', r', c);
    ConstIterKept(m, m', job.other, job.shift, job.sz, job.o, si, sleaf, scur, p);
  }

  lemma SameRoot<T>(m: Mem<T>, m': Mem<T>, r: Node<T>, r': Node<T>, o: Owner)
    requires MemOk(m) && MemOk(m') && Unseen(m, m', r, r', o) && o.kind == Tr && r.id == o.id
    ensures r' == r
  {
  }

  /** `src = other.cbegin() + lo`, `end = begin() + hi` */
  method LineUpEnd<T>(g: Glob<T>, t: Vec<T>, other: Vec<T>, lo: nat, hi: nat, ghost job: Job<T>)
    returns (src: ConstIterator<T>, last: MutIterator<T>)
    requires Target(g, t, other, job, lo) && lo <= hi <= job.sz && t != other
    modifies t`root, g`nodes, t.Mine(g)
    ensures Target(g, t, other, job, lo) && Grew(g, job.o.id) && OnlyOwn(old(g.Mem()), g.Mem(), job.o)
    ensures fresh(src) && src.root == other.root && src.shift == job.shift && src.sz == job.sz && src.At(g.Mem(), lo)
    ensures fresh(last) && ItOf(last, t, job) && last.At(g.Mem(), hi)
  {
    hide Copied, OnlyOwn, KeepsShape, Follows, IterAt, JobOk, Find, Avoids;
    ghost var m0, r0 := g.Mem(), t.root;
    TargetOk(g, t, other, job, lo);
    src := CBegin(g, other, lo);
    last := Begin(g, t, other, hi, job, lo);
    SrcKept(job, m0, g.Mem(), r0, t.root, lo, src.i, src.leaf, src.cur, lo);
  }

  /** The iterators of a copying loop over [lo, hi), made in the order of the source. */
  method LineUp<T>(g: Glob<T>, t: Vec<T>, other: Vec<T>, lo: nat, hi: nat, ghost job: Job<T>)
    returns (src: ConstIterator<T>, dst: MutIterator<T>, end: Stop<T>)
    requires Target(g, t, other, job, lo) && lo <= hi <= job.sz && t != other
    modifies t`root, g`nodes, t.Mine(g)
    ensures Target(g, t, other, job, lo) && Grew(g, job.o.id) && OnlyOwn(old(g.Mem()), g.Mem(), job.o)
    ensures fresh(src) && fresh(dst) && Lined(g, job, src, dst, end, lo, lo, lo) && end.pos == hi && dst.root == t.root
  {
    hide Copied, OnlyOwn, KeepsShape, Follows, IterAt, JobOk, Find, Avoids;
    ghost var m0 := g.Mem();
    var last;
    src, last := LineUpEnd(g, t, other, lo, hi, job);
    ghost var m1 := g.Mem();
    end := Stop(last.leaf, last.cur, last.i, hi);
    dst := Begin(g, t, other, lo, job, lo);
    ghost var m2 := g.Mem();
    TargetOk(g, t, other, job, lo);
    SameRoot(m1, m2, last.root, t.root, job.o);
    IdleKept(job, m1, m2, t.root, lo, lo, src.i, src.leaf, src.cur, lo, end);
    OnlyOwnTrans(m0, m1, m2, job.o);
  }

  lemma LinedTarget<T>(g: Glob<T>, t: Vec<T>, other: Vec<T>, job: Job<T>, src: ConstIterator<T>, dst: MutIterator<T>, end: Stop<T>)
    requires Lined(g, job, src, dst, end, end.pos, end.pos, end.pos) && dst.root == t.root && other.owner.id < g.unique_id
    requires t.owner == job.o && t.shift == other.shift == job.shift && t.sz == other.sz == job.sz && other.root == job.other
    ensures Target(g, t, other, job, end.pos)
  {
  }

  /** `for (; it != end; ++it, ++src) *it = *src` */
  method CopyLoop<T>(g: Glob<T>, src: ConstIterator<T>, dst: MutIterator<T>, end: Stop<T>, ghost lo: nat, ghost job: Job<T>)
    requires Lined(g, job, src, dst, end, lo, lo, lo) && lo <= end.pos
    modifies src`i, src`leaf, src`cur, dst`i, dst`leaf, dst`cur, g`nodes, Owned(g.nodes, job.o)
    ensures Lined(g, job, src, dst, end, end.pos, end.pos, end.pos)
    ensures Grew(g, job.o.id) && OnlyOwn(old(g.Mem()), g.Mem(), job.o)
  {
    hide Lined, OnlyOwn;
    ghost var m0 := g.Mem();
    ghost var p := lo;
    LinedReady(g, job, src, dst, end, p, p, p);
    OnlyOwnSelf(m0, job.o);
    while dst.leaf != end.leaf || dst.cur != end.cur
      invariant p <= end.pos && Lined(g, job, src, dst, end, p, p, p)
      invariant dst.leaf != end.leaf || dst.cur != end.cur <==> p != end.pos
      invariant Grew(g, job.o.id) && OnlyOwn(m0, g.Mem(), job.o)
      decreases end.pos - p
    {
      ghost var m := g.Mem();
      CopyOne(g, src, dst, end, p, job);
      OnlyOwnTrans(m0, m, g.Mem(), job.o);
      p := p + 1;
      LinedReady(g, job, src, dst, end, p, p, p);
    }
  }

  lemma OnlyOwnSelf<T>(m: Mem<T>, o: Owner)
    ensures OnlyOwn(m, m, o)
  {
  }

  /** The elements of [lo, hi), one by one. */
  method CopyElems<T>(g: Glob<T>, t: Vec<T>, other: Vec<T>, lo: nat, hi: nat, ghost job: Job<T>)
    requires Target(g, t, other, job, lo) && lo <= hi <= job.sz && t != other
    modifies t`root, g`nodes, t.Mine(g)
    ensures Target(g, t, other, job, hi) && Grew(g, job.o.id) && OnlyOwn(old(g.Mem()), g.Mem(), job.o)
  {
    hide Lined, OnlyOwn, Copied, JobOk;
    ghost var m0 := g.Mem();
    var src, dst, end := LineUp(g, t, other, lo, hi, job);
    ghost var m := g.Mem();
    CopyLoop(g, src, dst, end, lo, job);
    OnlyOwnTrans(m0, m, g.Mem(), job.o);
    LinedTarget(g, t, other, job, src, dst, end);
  }

  // ---- whole subtrees ----

  /** The branch array of `n` after slots [lo, hi) were taken from `o`. */
  ghost function Spliced<T>(m: Mem<T>, n: Node<T>, o: Node<T>, lo: nat, hi: nat): Body<T>
    requires n in m && o in m && m[n].Branches? && m[o].Branches? && |m[n].kids| == W && |m[o].kids| == W && lo <= hi <= W
  {
    Branches(m[n].kids[..lo] + m[o].kids[lo..hi] + m[n].kids[hi..])
  }

  lemma SplicedAt<T>(m: Mem<T>, n: Node<T>, o: Node<T>, lo: nat, hi: nat)
    requires MemOk(m) && n in m && o in m && n.s == o.s > 0 && n.lo == o.lo && lo <= hi <= W
    ensures m[n].Branches? && m[o].Branches? && |m[n].kids| == W && |m[o].kids| == W
    ensures var b := Spliced(m, n, o, lo, hi);
            BodyOk(m, n, b) && forall k: nat | k < W :: b.kids[k] == if lo <= k < hi then m[o].kids[k] else m[n].kids[k]
  {
    assert BodyOk(m, n, m[n]) && BodyOk(m, o, m[o]);
    var b := Spliced(m, n, o, lo, hi);
    forall k: nat | k < W
      ensures b.kids[k] == if lo <= k < hi then m[o].kids[k] else m[n].kids[k]
      ensures b.kids[k] == null || ChildAt(m, n.s, n.lo, k, b.kids[k])
    {
      KidOk(m, n, k);
      KidOk(m, o, k);
    }
  }

  /** Which indices a range of slots stands for. */
  lemma SlotsCover(start: nat, s: nat, i: nat, lo: nat, hi: nat)
    requires start % Span(s) == 0 && start <= i < start + Span(s) && lo <= hi
    ensures lo <= Slot(i, s) < hi <==> start + lo * Pow2(s) <= i < start + hi * Pow2(s)
  {
    hide Slot, Span, Pow2;
    SlotOf(start, s, i);
    var k, p := Slot(i, s), Pow2(s);
    assert (k + 1) * p == k * p + p;
    if lo <= k { MulMono(lo, k, p); } else { MulMono(k + 1, lo, p); }
    if k < hi { MulMono(k + 1, hi, p); } else { MulMono(hi, k, p); }
  }

  /** After a splice, a reader that passes `n` sees the spliced indices as `o` shows them, the others as before. */
  lemma SpliceReads<T>(m: Mem<T>, n: Node<T>, o: Node<T>, lo: nat, hi: nat, r: Node<T>, i: nat)
    requires MemOk(m) && n in m && o in m && n.s == o.s > 0 && n.lo == o.lo && lo <= hi <= W && r in m && Covers(r, i)
    ensures m[n].Branches? && m[o].Branches? && |m[n].kids| == W && |m[o].kids| == W
    ensures var m' := m[n := Spliced(m, n, o, lo, hi)];
            && MemOk(m')
            && Find(m', r, i) == if Passes(m, r, n, i) && n.lo + lo * Pow2(n.s) <= i < n.lo + hi * Pow2(n.s)
                                 then Find(m, o, i) else Find(m, r, i)
  {
    SplicedAt(m, n, o, lo, hi);
    var b := Spliced(m, n, o, lo, hi);
    StoreOk(m, n, b);
    if Passes(m, r, n, i) {
      StoreThrough(m, n, b, r, i);
      PassesFind(m, r, n, i);
      PassesCovers(m, r, n, i);
      assert BodyOk(m, n, m[n]);
      SlotsCover(n.lo, n.s, i, lo, hi);
    } else {
      StoreElsewhere(m, n, b, r, i);
    }
  }

  lemma {:induction false} BelowKept<T>(m: Mem<T>, n: Node<T>, b: Body<T>, r: Node<T>, w: Owner)
    requires MemOk(m) && MemOk(m[n := b]) && r in m && r.s < n.s && Avoids(m, r, w)
    ensures Avoids(m[n := b], r, w)
    decreases r.s
  {
    if r.s > 0 {
      forall k: nat | k < W
        ensures m[r].kids[k] == null || Avoids(m[n := b], m[r].kids[k], w)
      {
        KidOk(m, r, k);
        if m[r].kids[k] != null { BelowKept(m, n, b, m[r].kids[k], w); }
      }
    }
  }

  /** Kids that a writer avoids, put into a node of a trie that it avoids. */
  lemma {:induction false} StoreAvoids<T>(m: Mem<T>, n: Node<T>, b: Body<T>, r: Node<T>, w: Owner)
    requires MemOk(m) && n in m && n.s > 0 && BodyOk(m, n, b) && MemOk(m[n := b]) && r in m && Avoids(m, r, w)
    requires forall k: nat | k < W :: b.kids[k] == null || (b.kids[k] in m && b.kids[k].s < n.s && Avoids(m, b.kids[k], w))
    ensures Avoids(m[n := b], r, w)
    decreases r.s
  {
    var m' := m[n := b];
    if r.s > 0 {
      forall k: nat | k < W
        ensures m'[r].kids[k] == null || Avoids(m', m'[r].kids[k], w)
      {
        KidOk(m, r, k);
        if r == n {
          if b.kids[k] != null { BelowKept(m, n, b, b.kids[k], w); }
        } else if m[r].kids[k] != null {
          StoreAvoids(m, n, b, m[r].kids[k], w);
        }
      }
    }
  }

  lemma {:induction false} AvoidsPassed<T>(m: Mem<T>, r: Node<T>, n: Node<T>, i: nat, w: Owner)
    requires MemOk(m) && r in m && Avoids(m, r, w) && Passes(m, r, n, i)
    ensures n in m && Avoids(m, n, w)
    decreases r.s
  {
    if r != n {
      KidOk(m, r, Slot(i, r.s));
      AvoidsPassed(m, m[r].kids[Slot(i, r.s)], n, i, w);
    }
  }

  lemma AvoidsKid<T>(m: Mem<T>, n: Node<T>, k: nat, w: Owner)
    requires MemOk(m) && n in m && n.s > 0 && k < W && Avoids(m, n, w)
    ensures m[n].Branches? && |m[n].kids| == W
    ensures m[n].kids[k] == null || (m[n].kids[k] in m && m[n].kids[k].s < n.s && Avoids(m, m[n].kids[k], w))
  {
    KidOk(m, n, k);
  }

  /** A splice brings in none of the nodes that both tries keep clear of. */
  lemma SpliceAvoids<T>(m: Mem<T>, n: Node<T>, o: Node<T>, lo: nat, hi: nat, r: Node<T>, r': Node<T>, i: nat, w: Owner)
    requires MemOk(m) && n in m && o in m && n.s == o.s > 0 && n.lo == o.lo && lo <= hi <= W && r in m && r' in m
    requires Passes(m, r, n, i) && Passes(m, r', o, i) && Avoids(m, r, w) && Avoids(m, r', w)
    ensures m[n].Branches? && m[o].Branches? && |m[n].kids| == W && |m[o].kids| == W
    ensures MemOk(m[n := Spliced(m, n, o, lo, hi)]) && Avoids(m[n := Spliced(m, n, o, lo, hi)], r, w)
  {
    hide Avoids;
    SplicedAt(m, n, o, lo, hi);
    var b := Spliced(m, n, o, lo, hi);
    StoreOk(m, n, b);
    AvoidsPassed(m, r, n, i, w);
    AvoidsPassed(m, r', o, i, w);
    forall k: nat | k < W
      ensures b.kids[k] == null || (b.kids[k] in m && b.kids[k].s < n.s && Avoids(m, b.kids[k], w))
    {
      AvoidsKid(m, n, k, w);
      AvoidsKid(m, o, k, w);
    }
    StoreAvoids(m, n, b, r, w);
  }

  lemma InheritsSplice<T>(job: Job<T>, m: Mem<T>, r: Node<T>, n: Node<T>, o: Node<T>, lo: nat, hi: nat, i: nat)
    requires JobOk(job) && MemOk(m) && OnlyOwn(job.m, m, job.o) && r in m && Inherits(job.m, job.mine, job.other, job.o, m, r)
    requires n in m && o in m && n.s == o.s > 0 && n.lo == o.lo && lo <= hi <= W
    requires job.other in m && Passes(m, r, n, i) && Passes(m, job.other, o, i)
    ensures m[n].Branches? && m[o].Branches? && |m[n].kids| == W && |m[o].kids| == W
    ensures var m' := m[n := Spliced(m, n, o, lo, hi)]; MemOk(m') && Inherits(job.m, job.mine, job.other, job.o, m', r)
  {
    hide Avoids, Passes;
    SplicedAt(m, n, o, lo, hi);
    StoreOk(m, n, Spliced(m, n, o, lo, hi));
    forall w: Owner | w.kind == Tr && w.id != job.o.id && Avoids(job.m, job.mine, w) && Avoids(job.m, job.other, w)
      ensures Avoids(m[n := Spliced(m, n, o, lo, hi)], r, w)
    {
      AvoidsOther(job.m, m, job.other, job.o, w);
      SpliceAvoids(m, n, o, lo, hi, r, job.other, i, w);
    }
  }

  lemma CopiedSpliceAt<T>(job: Job<T>, m: Mem<T>, r: Node<T>, n: Node<T>, o: Node<T>, lo: nat, hi: nat, i: nat, j: nat)
    requires JobOk(job) && lo <= hi <= W && i < job.sz && j < job.sz
    requires Copied(job, m, r, n.lo + lo * Pow2(n.s)) && HandleOk(m, job.other, job.shift, job.sz)
    requires n in m && o in m && n.s == o.s > 0 && n.lo == o.lo && Passes(m, r, n, i) && Passes(m, job.other, o, i)
    requires job.a <= n.lo + lo * Pow2(n.s) <= n.lo + hi * Pow2(n.s)
    requires Find(m, job.other, j) == Find(job.m, job.other, j)
    ensures m[n].Branches? && m[o].Branches? && |m[n].kids| == W && |m[o].kids| == W
    ensures var m' := m[n := Spliced(m, n, o, lo, hi)];
            MemOk(m') && Find(m', r, j) ==
              if job.a <= j < n.lo + hi * Pow2(n.s) then Find(job.m, job.other, j) else Find(job.m, job.mine, j)
  {
    SpliceReads(m, n, o, lo, hi, r, j);
    if n.lo + lo * Pow2(n.s) <= j < n.lo + hi * Pow2(n.s) {
      MulMono(0, lo, Pow2(n.s));
      SpliceHolds(m, r, job.other, n, o, i, j, hi);
    }
  }

  /** One splice extends the copied range by the indices of its slots. */
  lemma CopiedSplice<T>(job: Job<T>, m: Mem<T>, r: Node<T>, n: Node<T>, o: Node<T>, lo: nat, hi: nat, i: nat)
    requires JobOk(job) && lo <= hi <= W && i < job.sz
    requires Copied(job, m, r, n.lo + lo * Pow2(n.s))
    requires n in m && o in m && n.s == o.s > 0 && Passes(m, r, n, i) && Passes(m, job.other, o, i) && !job.o.NodeCopy(n.id)
    requires job.a <= n.lo + lo * Pow2(n.s) && m[n].Branches? && m[o].Branches? && |m[n].kids| == W && |m[o].kids| == W
    ensures n.lo == o.lo && BodyOk(m, n, Spliced(m, n, o, lo, hi))
    ensures Copied(job, m[n := Spliced(m, n, o, lo, hi)], r, n.lo + hi * Pow2(n.s))
  {
    hide Find, Passes, Avoids;
    MulMono(lo, hi, Pow2(n.s));
    CopiedOk(job, m, r, n.lo + lo * Pow2(n.s));
    SamePlace(m, r, job.other, n, o, i);
    SplicedAt(m, n, o, lo, hi);
    StoreOk(m, n, Spliced(m, n, o, lo, hi));
    forall j: nat | j < job.sz
      ensures var m' := m[n := Spliced(m, n, o, lo, hi)];
              MemOk(m') && Find(m', r, j) ==
                if job.a <= j < n.lo + hi * Pow2(n.s) then Find(job.m, job.other, j) else Find(job.m, job.mine, j)
    {
      CopiedSpliceAt(job, m, r, n, o, lo, hi, i, j);
    }
    OnlyOwnTrans(job.m, m, m[n := Spliced(m, n, o, lo, hi)], job.o);
    InheritsSplice(job, m, r, n, o, lo, hi, i);
  }

  lemma SamePlace<T>(m: Mem<T>, r: Node<T>, r': Node<T>, n: Node<T>, o: Node<T>, i: nat)
    requires MemOk(m) && r in m && r' in m && n in m && o in m && Covers(r, i) && Covers(r', i)
    requires Passes(m, r, n, i) && Passes(m, r', o, i) && n.s == o.s
    ensures n.lo == o.lo
  {
    PassesCovers(m, r, n, i);
    PassesCovers(m, r', o, i);
    assert BodyOk(m, n, m[n]) && BodyOk(m, o, m[o]);
    SameBlock(n.lo, o.lo, i, Span(n.s));
  }

  lemma SameBlock(a: nat, b: nat, i: nat, p: nat)
    requires p > 0 && a % p == 0 && b % p == 0 && a <= i < a + p && b <= i < b + p
    ensures a == b
  {
    if a <= b { AlignedApart(a, b, p); } else { AlignedApart(b, a, p); }
  }

  lemma SpliceHolds<T>(m: Mem<T>, r: Node<T>, r': Node<T>, n: Node<T>, o: Node<T>, i: nat, j: nat, hi: nat)
    requires MemOk(m) && r in m && r' in m && n in m && o in m && Covers(r, i) && Covers(r', i) && hi <= W
    requires Passes(m, r, n, i) && Passes(m, r', o, i) && n.s == o.s && n.lo == o.lo && n.lo <= j < n.lo + hi * Pow2(n.s)
    ensures Passes(m, r, n, j) && Find(m, r', j) == Find(m, o, j)
  {
    SpanIsWidthTimes(n.s);
    MulMono(hi, W, Pow2(n.s));
    PassesAnywhere(m, r, n, i, j);
    PassesAnywhere(m, r', o, i, j);
    PassesFind(m, r', o, j);
  }

  /** `get_branch` on a vector that is only read: the node at shift `stop` on the path of `e`. */
  method ConstBranch<T>(g: Glob<T>, root: Node<T>, shift: nat, e: nat, stop: nat, ghost j: nat) returns (node: Node<T>)
    requires g.Valid() && root in g.nodes && root.s == shift && Levels(shift, stop) && Covers(root, j)
    requires Find(g.Mem(), root, j).Some? && SameDigits(e, j, shift, stop)
    ensures node in g.nodes && node.s == stop && Passes(g.Mem(), root, node, j)
  {
    ghost var m := g.Mem();
    node := root;
    var s: nat := shift;
    while s > stop
      invariant node in m && node.s == s && Levels(s, stop) && Passes(m, root, node, j) && SameDigits(e, j, s, stop)
    {
      LevelDown(s, stop);
      KidThere(m, root, node, j);
      KidOk(m, node, Slot(j, s));
      PassesKid(m, root, node, j);
      node := node.u.kids[Slot(e, s)];
      s := s - BP_BITS;
    }
  }

  /** `std::copy(other.get_branch(d, i) + lo, other.get_branch(d, e) + hi, this->get_branch(d, i) + lo)`;
      the depth `d` is given as the shift `s` of its nodes. It copies the indices [c, c'). */
  method CopyBranches<T>(g: Glob<T>, t: Vec<T>, other: Vec<T>, i: nat, e: nat, s: nat, lo: nat, hi: nat,
                         ghost start: nat, ghost c: nat, ghost c': nat, ghost job: Job<T>)
    requires Target(g, t, other, job, c) && t != other && lo <= hi <= W && i < job.sz
    requires BP_BITS <= s && Levels(job.shift, s) && start == i - i % Span(s)
    requires c == start + lo * Pow2(s) && c' == start + hi * Pow2(s) <= job.sz
    requires SameDigits(e, i, job.shift, s)
    modifies t`root, g`nodes, t.Mine(g)
    ensures Target(g, t, other, job, c') && Grew(g, job.o.id) && OnlyOwn(old(g.Mem()), g.Mem(), job.o)
  {
    hide Copied, OnlyOwn, Neutral, Follows, SameTrie, JobOk, Slot;
    TargetOk(g, t, other, job, c);
    SameBlockDigits(i, i, job.shift, s);
    var from := ConstBranch(g, other.root, other.shift, i, s, i);
    var upto := ConstBranch(g, other.root, other.shift, e, s, i);
    OneNode(g.Mem(), other.root, from, upto, i);
    CopySlots(g, t, other, from, upto, i, s, lo, hi, start, c, c', job);
  }

  /** Slots [lo, hi) of one branch array of the other vector, copied into ours at the same place. */
  method CopySlots<T>(g: Glob<T>, t: Vec<T>, other: Vec<T>, from: Node<T>, upto: Node<T>, i: nat, s: nat, lo: nat, hi: nat,
                      ghost start: nat, ghost c: nat, ghost c': nat, ghost job: Job<T>)
    requires Target(g, t, other, job, c) && t != other && lo <= hi <= W && i < job.sz
    requires BP_BITS <= s && Levels(job.shift, s) && start == i - i % Span(s)
    requires c == start + lo * Pow2(s) && c' == start + hi * Pow2(s) <= job.sz
    requires from in g.nodes && from == upto && from.s == s && Passes(g.Mem(), other.root, from, i)
    modifies t`root, g`nodes, t.Mine(g)
    ensures Target(g, t, other, job, c') && Grew(g, job.o.id) && OnlyOwn(old(g.Mem()), g.Mem(), job.o)
  {
    hide Copied, OnlyOwn, Neutral, Follows, SameTrie, JobOk, Slot;
    ghost var m0 := g.Mem();
    TargetOk(g, t, other, job, c);
    var node := OwnBranch(g, t, other, i, s, c, job);
    ghost var m1 := g.Mem();
    ReadPathKept(job, m0, m1, from, i);
    Splice(g, t, other, node, from, upto, s, lo, hi, i, start, c, c', job);
    OnlyOwnTrans(m0, m1, g.Mem(), job.o);
  }

  lemma ReadPathKept<T>(job: Job<T>, m: Mem<T>, m': Mem<T>, n: Node<T>, i: nat)
    requires MemOk(m) && MemOk(m') && job.other in m && Avoids(m, job.other, job.o) && OnlyOwn(m, m', job.o)
    requires Passes(m, job.other, n, i)
    ensures Passes(m', job.other, n, i)
  {
    AvoidsPasses(m, m', job.other, n, i, job.o);
  }

  /** `this->get_branch(d, i)` */
  method OwnBranch<T>(g: Glob<T>, t: Vec<T>, other: Vec<T>, i: nat, s: nat, ghost c: nat, ghost job: Job<T>) returns (node: Node<T>)
    requires Target(g, t, other, job, c) && t != other && i < job.sz && Levels(job.shift, s)
    modifies t`root, g`nodes, t.Mine(g)
    ensures Target(g, t, other, job, c) && Grew(g, job.o.id) && OnlyOwn(old(g.Mem()), g.Mem(), job.o)
    ensures node in g.nodes && node.s == s && !job.o.NodeCopy(node.id) && Passes(g.Mem(), t.root, node, i)
    ensures node.lo == i - i % Span(s)
  {
    hide Copied, OnlyOwn, Neutral, Follows, SameTrie, JobOk;
    ghost var m0 := g.Mem();
    TargetOk(g, t, other, job, c);
    node := t.OwnPath(g, i, s, i);
    CopiedKept(job, m0, old(t.root), g.Mem(), t.root, c);
    HoldsPasses(g.Mem(), t.root, node, i, job.o);
    TargetOk(g, t, other, job, c);
    BlockIs(g.Mem(), t.root, node, i);
  }

  method Splice<T>(g: Glob<T>, t: Vec<T>, other: Vec<T>, node: Node<T>, from: Node<T>, upto: Node<T>, s: nat, lo: nat, hi: nat,
                   ghost i: nat, ghost start: nat, ghost c: nat, ghost c': nat, ghost job: Job<T>)
    requires Target(g, t, other, job, c) && t != other && lo <= hi <= W && i < job.sz
    requires node in g.nodes && from in g.nodes && node.s == s > 0 && from.s == s && from == upto && !job.o.NodeCopy(node.id)
    requires Passes(g.Mem(), t.root, node, i) && Passes(g.Mem(), other.root, from, i)
    requires node.lo == start && c == start + lo * Pow2(s) && c' == start + hi * Pow2(s) <= job.sz
    modifies node
    ensures Target(g, t, other, job, c') && OnlyOwn(old(g.Mem()), g.Mem(), job.o)
  {
    hide Copied, Avoids, Passes, Find, JobOk;
    ghost var m := g.Mem();
    KidOk(m, node, 0);
    KidOk(m, from, 0);
    CopiedSplice(job, m, t.root, node, from, lo, hi, i);
    MulMono(lo, hi, Pow2(s));
    node.u := Branches(node.u.kids[..lo] + from.u.kids[lo..hi] + node.u.kids[hi..]);
    assert g.Mem() == m[node := Spliced(m, node, from, lo, hi)];
  }

  lemma BlockIs<T>(m: Mem<T>, r: Node<T>, n: Node<T>, i: nat)
    requires MemOk(m) && r in m && Passes(m, r, n, i) && Covers(r, i)
    ensures n in m && n.lo == i - i % Span(n.s)
  {
    PassesCovers(m, r, n, i);
    assert BodyOk(m, n, m[n]);
    var j := BlockStart(i, Span(n.s));
    SameBlock(n.lo, j, i, Span(n.s));
  }

  /** `contained_at_shift`: one level below the highest shift at which the paths of `a` and `b` part. */
  method ContainedAtShift<T>(g: Glob<T>, root: Node<T>, shift: nat, a: nat, b: nat) returns (s: nat)
    requires g.Valid() && root in g.nodes && root.s == shift && Levels(shift, 0) && root.lo == 0
    requires Covers(root, a) && Find(g.Mem(), root, a).Some?
    ensures shift == 0 ==> s == 0
    ensures shift > 0 ==> s + BP_BITS <= shift && Levels(shift, s + BP_BITS) && Levels(s, 0) && SameDigits(a, b, shift, s + BP_BITS)
    ensures s == 0 || Slot(a, s + BP_BITS) != Slot(b, s + BP_BITS)
  {
    hide Find, Slot;
    ghost var m := g.Mem();
    if shift > 0 {
      LevelDown(shift, 0);
      LevelUp(shift - BP_BITS);
    }
    var node_a: Node<T> := root;
    var node_b: Node?<T> := root;
    s := shift;
    while s > 0
      invariant Levels(s, 0) && Levels(shift, s) && node_a in m
      invariant if node_a == node_b then node_a.s == s && Passes(m, root, node_a, a) && SameDigits(a, b, shift, s)
                else s + BP_BITS <= shift && Levels(shift, s + BP_BITS) && SameDigits(a, b, shift, s + BP_BITS) &&
                     Slot(a, s + BP_BITS) != Slot(b, s + BP_BITS)
    {
      if node_a != node_b {
        break;
      }
      var parent := node_a;
      KidThere(m, root, parent, a);
      PassesKid(m, root, parent, a);
      KidOk(m, parent, Slot(a, s));
      KidOk(m, parent, Slot(b, s));
      KidsApart(m, parent, Slot(a, s), Slot(b, s));
      LevelDown(s, 0);
      LevelUp(s - BP_BITS);
      LevelsTrans(shift, s, s - BP_BITS);
      if Slot(a, s) == Slot(b, s) { SameDigitsDown(a, b, shift, s); }
      node_a := parent.u.kids[Slot(a, s)];
      node_b := parent.u.kids[Slot(b, s)];
      s := s - BP_BITS;
    }
    if s == 0 && node_a == node_b && shift > 0 {
      SameDigitsLess(a, b, shift, 0, BP_BITS);
      LevelFloor(shift);
    }
  }

  lemma LevelFloor(shift: nat)
    requires shift > 0 && Levels(shift, 0)
    ensures BP_BITS <= shift && Levels(shift, BP_BITS)
  {
    LevelDown(shift, 0);
  }

  /** Two slots of one branch never hold the same node. */
  lemma KidsApart<T>(m: Mem<T>, n: Node<T>, j: nat, k: nat)
    requires MemOk(m) && n in m && n.s > 0 && j < W && k < W
    ensures m[n].Branches? && |m[n].kids| == W
    ensures m[n].kids[j] != null && m[n].kids[j] == m[n].kids[k] ==> j == k
  {
    KidOk(m, n, j);
    KidOk(m, n, k);
    var p := Pow2(n.s);
    if j < k { MulMono(j + 1, k, p); }
    if k < j { MulMono(k + 1, j, p); }
    assert (j + 1) * p == j * p + p && (k + 1) * p == k * p + p;
  }

  // ---- the phases ----

  /** The level `last` at which the copy is shallowest; the block of `a` there ends inside the vector. */
  ghost predicate Plan<T>(job: Job<T>, last: nat) {
    && BP_BITS <= last <= job.shift && Levels(job.shift, last) && Levels(last, 0)
    && job.a < job.sz && job.a - job.a % Pow2(last) + Pow2(last) <= job.sz
  }

  /** Phase 2, one level: the rest of the block of `ai` at shift `s`. */
  method ClimbOne<T>(g: Glob<T>, t: Vec<T>, other: Vec<T>, ai: nat, ar: nat, s: nat, ghost last: nat, ghost job: Job<T>)
    requires Target(g, t, other, job, ai) && t != other && Plan(job, last)
    requires BP_BITS <= s < last && Levels(last, s) && Levels(s, 0)
    requires ai == NextMultiple(job.a, Pow2(s)) && ar == NextMultiple(ai, Span(s)) && ai != ar
    modifies t`root, g`nodes, t.Mine(g)
    ensures Target(g, t, other, job, ar) && Grew(g, job.o.id) && OnlyOwn(old(g.Mem()), g.Mem(), job.o)
  {
    hide Copied, OnlyOwn, JobOk, Slot;
    ClimbStep(job.a, s, ai, ar, last);
    LevelsTrans(job.shift, last, s);
    SameBlockDigits(ar - 1, ai, job.shift, s);
    ghost var start := BlockStart(ai, Span(s));
    CopyBranches(g, t, other, ai, ar - 1, s, Slot(ai, s), W, start, ai, ar, job);
  }

  /** Phase 2: travel upwards, copying branches at the shallowest depth possible. */
  method Climb<T>(g: Glob<T>, t: Vec<T>, other: Vec<T>, ar0: nat, last: nat, ghost job: Job<T>) returns (ar: nat)
    requires Target(g, t, other, job, ar0) && t != other && Plan(job, last) && ar0 == NextMultiple(job.a, W)
    modifies t`root, g`nodes, t.Mine(g)
    ensures Target(g, t, other, job, ar) && Grew(g, job.o.id) && OnlyOwn(old(g.Mem()), g.Mem(), job.o)
    ensures ar == NextMultiple(job.a, Pow2(last))
  {
    hide Copied, OnlyOwn, JobOk, Slot, Target;
    ghost var m0 := g.Mem();
    var interval := W;
    var last_interval := Pow(W, last / BP_BITS);
    PowIsPow2(last);
    BlockZero();
    LevelFloor(last);
    ar := ar0;
    var s: nat := 0;
    OnlyOwnSelf(m0, job.o);
    while interval != last_interval
      invariant interval == Span(s) && s + BP_BITS <= last && Levels(last, s + BP_BITS) && Levels(s, 0)
      invariant ar == NextMultiple(job.a, Span(s)) && Target(g, t, other, job, ar)
      invariant Grew(g, job.o.id) && OnlyOwn(m0, g.Mem(), job.o)
      decreases last - s
    {
      ghost var m := g.Mem();
      ClimbLevel(last, s);
      interval := interval * W;
      var ai := ar;
      ar := NextMultiple(ai, interval);
      s := s + BP_BITS;
      UpSpan(job.a, s);
      if ai != ar {
        ClimbOne(g, t, other, ai, ar, s, last, job);
        OnlyOwnTrans(m0, m, g.Mem(), job.o);
      }
    }
  }

  /** Phase 4, one level. */
  method DescendOne<T>(g: Glob<T>, t: Vec<T>, other: Vec<T>, b: nat, bi: nat, br: nat, s: nat, ghost job: Job<T>)
    requires Target(g, t, other, job, bi) && t != other && job.a <= bi && b <= job.sz
    requires BP_BITS <= s && Levels(job.shift, s) && bi == Down(b, Span(s)) && br == Down(b, Pow2(s)) && bi != br
    modifies t`root, g`nodes, t.Mine(g)
    ensures Target(g, t, other, job, br) && Grew(g, job.o.id) && OnlyOwn(old(g.Mem()), g.Mem(), job.o)
  {
    hide Copied, OnlyOwn, JobOk, Slot;
    DescendStep(b, s, bi, br);
    SameBlockDigits(br - 1, bi, job.shift, s);
    var br_off := if Slot(br, s) == 0 && bi != br then W else Slot(br, s);
    CopyBranches(g, t, other, bi, br - 1, s, Slot(bi, s), br_off, bi, bi, br, job);
  }

  /** Phase 4: travel downwards to the last whole leaf before `b`; nothing is left to do where `b` starts a block. */
  method DescendTo<T>(g: Glob<T>, t: Vec<T>, other: Vec<T>, b: nat, br0: nat, last: nat, ghost c0: nat, ghost job: Job<T>)
    returns (br: nat, ghost c: nat)
    requires Target(g, t, other, job, c0) && t != other && job.a <= br0 && b <= job.sz && br0 == Down(b, Pow2(last))
    requires BP_BITS <= last && Levels(job.shift, last) && Levels(last, 0) && (c0 == br0 || br0 == b)
    modifies t`root, g`nodes, t.Mine(g)
    ensures Target(g, t, other, job, c) && Grew(g, job.o.id) && OnlyOwn(old(g.Mem()), g.Mem(), job.o)
    ensures br == Down(b, W) && c == if c0 == br0 then br else c0
    ensures c0 != br0 ==> br == b
  {
    hide Copied, OnlyOwn, JobOk, Slot, Target;
    ghost var m0 := g.Mem();
    br, c := br0, c0;
    var s: nat := last;
    var interval := Pow(W, last / BP_BITS);
    PowIsPow2(last);
    OnlyOwnSelf(m0, job.o);
    while interval != W
      invariant interval == Pow2(s) && BP_BITS <= s && Levels(job.shift, s) && Levels(s, 0)
      invariant br == Down(b, Pow2(s)) && job.a <= br && Target(g, t, other, job, c)
      invariant if c0 == br0 then c == br else c == c0 && br == b
      invariant Grew(g, job.o.id) && OnlyOwn(m0, g.Mem(), job.o)
      decreases s
    {
      ghost var m := g.Mem();
      DescendLevel(job.shift, s);
      interval := interval / W;
      var bi := br;
      br := Down(b, interval);
      s := s - BP_BITS;
      DescendStep(b, s, bi, br);
      if bi != br {
        DescendOne(g, t, other, b, bi, br, s, job);
        OnlyOwnTrans(m0, m, g.Mem(), job.o);
        c := br;
      }
    }
  }

  lemma ClimbLevel(last: nat, s: nat)
    requires s + BP_BITS <= last && Levels(last, s + BP_BITS) && Levels(s, 0) && Span(s) != Pow2(last)
    ensures Span(s) * W == Span(s + BP_BITS) && Span(s) == Pow2(s + BP_BITS)
    ensures s + BP_BITS < last && s + 2 * BP_BITS <= last && Levels(last, s + 2 * BP_BITS) && Levels(s + BP_BITS, 0)
  {
    SpanIsWidthTimes(s + BP_BITS);
    LevelDown(last, s + BP_BITS);
    NextLevel(last, s + BP_BITS);
    LevelUp(s);
  }

  lemma NextLevel(s: nat, t: nat)
    requires Levels(s, t) && s > t
    ensures t + BP_BITS <= s && Levels(s, t + BP_BITS)
  {
    LevelDown(s, t);
  }

  lemma DescendLevel(shift: nat, s: nat)
    requires s >= BP_BITS && Levels(shift, s) && Levels(s, 0) && Pow2(s) != W
    ensures s >= 2 * BP_BITS && Levels(shift, s - BP_BITS) && Levels(s - BP_BITS, 0)
    ensures Pow2(s) / W == Pow2(s - BP_BITS) && Pow2(s) == Span(s - BP_BITS)
  {
    hide Pow2;
    LevelDown(s, 0);
    if s - BP_BITS == 0 { assert false; }
    LevelDown(s - BP_BITS, 0);
    LevelUp(s - BP_BITS);
    LevelsTrans(shift, s, s - BP_BITS);
    SpanIsWidthTimes(s - BP_BITS);
    DivUnique(Pow2(s), W, Pow2(s - BP_BITS));
  }

  /** `i >> s & BP_MASK`, or BP_WIDTH where that digit is 0 and `i` is the end of the vector */
  function SlotEnd(i: nat, s: nat, sz: nat): (k: nat)
    ensures k <= W
  {
    if Slot(i, s) == 0 && i == sz then W else Slot(i, s)
  }

  /** `get_branch` at both ends: one array exactly if the digits of both lead to one block. */
  method TwoBranches<T>(g: Glob<T>, other: Vec<T>, ar: nat, br: nat, s: nat, ghost j: nat) returns (from: Node<T>, upto: Node<T>)
    requires other.Valid(g) && ar < other.sz && j < other.sz && Levels(other.shift, s) && SameDigits(br, j, other.shift, s)
    ensures from in g.nodes && upto in g.nodes && from.s == s && Passes(g.Mem(), other.root, from, ar)
    ensures from == upto <==> j / Span(s) == ar / Span(s)
  {
    hide Passes, Find, Slot;
    SameBlockDigits(ar, ar, other.shift, s);
    from := ConstBranch(g, other.root, other.shift, ar, s, ar);
    upto := ConstBranch(g, other.root, other.shift, br, s, j);
    OneBlock(g.Mem(), other.root, from, upto, ar, j);
  }

  /** Phase 3: the branches at the shallowest depth, from `ar` up to `br`. Both ends of the copied range are pointers
      taken from `get_branch`; `j` tells which block the digits of `br` lead to. Pointers into two arrays make no range. */
  method Across<T>(g: Glob<T>, t: Vec<T>, other: Vec<T>, ar: nat, br: nat, last: nat,
                   ghost j: nat, ghost c': nat, ghost job: Job<T>) returns (ok: bool)
    requires Target(g, t, other, job, ar) && t != other && ar < job.sz && j < job.sz && SameDigits(br, j, job.shift, last)
    requires BP_BITS <= last && Levels(job.shift, last) && ar % Pow2(last) == 0
    requires j / Span(last) == ar / Span(last) ==> ar <= c' <= job.sz && c' == ar - ar % Span(last) + SlotEnd(br, last, job.sz) * Pow2(last)
    modifies t`root, g`nodes, t.Mine(g)
    ensures ok <==> j / Span(last) == ar / Span(last)
    ensures ok ==> Target(g, t, other, job, c')
    ensures Grew(g, job.o.id) && OnlyOwn(old(g.Mem()), g.Mem(), job.o)
    ensures !ok ==> Target(g, t, other, job, ar)
  {
    hide Copied, OnlyOwn, Neutral, Follows, SameTrie, JobOk, Slot;
    OnlyOwnSelf(g.Mem(), job.o);
    TargetOk(g, t, other, job, ar);
    var ar_off, br_off := SlotEnd(ar, last, t.sz), SlotEnd(br, last, t.sz);
    var from, upto := TwoBranches(g, other, ar, br, last, j);
    ok := from == upto;
    if ok {
      ghost var start := BlockStart(ar, Span(last));
      SlotsInOrder(ar, last, ar_off, br_off, c');
      CopySlots(g, t, other, from, upto, ar, last, ar_off, br_off, start, ar, c', job);
    }
  }

  lemma SlotsInOrder(ar: nat, last: nat, lo: nat, hi: nat, c': nat)
    requires ar % Pow2(last) == 0 && lo == Slot(ar, last) && ar <= c' == ar - ar % Span(last) + hi * Pow2(last)
    ensures lo <= hi && ar == ar - ar % Span(last) + lo * Pow2(last)
  {
    SlotStart(ar, last);
    assert (hi + 1) * Pow2(last) == hi * Pow2(last) + Pow2(last);
    if hi < lo { MulMono(hi + 1, lo, Pow2(last)); }
  }

  /** Two indices are in one block at a shift if and only if their paths meet in one node there. */
  lemma OneBlock<T>(m: Mem<T>, r: Node<T>, a: Node<T>, b: Node<T>, i: nat, j: nat)
    requires MemOk(m) && r in m && a.s == b.s && Covers(r, i) && Covers(r, j) && Passes(m, r, a, i) && Passes(m, r, b, j)
    ensures a == b <==> i / Span(a.s) == j / Span(a.s)
  {
    BlockIs(m, r, a, i);
    BlockIs(m, r, b, j);
    PassesCovers(m, r, b, j);
    var x := BlockStart(i, Span(a.s));
    var y := BlockStart(j, Span(a.s));
    if i / Span(a.s) == j / Span(a.s) {
      assert Covers(b, i) by { SameQuotient(i, j, Span(a.s)); }
      PassesAnywhere(m, r, b, j, i);
      OneNode(m, r, a, b, i);
    }
  }

  lemma SameQuotient(i: nat, j: nat, p: nat)
    requires p > 0 && i / p == j / p
    ensures i - i % p == j - j % p && j - j % p <= i < j - j % p + p
  {
    DivBounds(i, p);
    DivBounds(j, p);
    assert i == i / p * p + i % p && j == j / p * p + j % p;
  }

  // ---- which ranges are copied in full ----

  /** Where `assign` does what its comment says: short ranges, and long ones on a trie with branches,
      unless the end of the range wraps to digit 0 at the top while the start is below the first child's end. */
  predicate Faithful(a: nat, b: nat, shift: nat) {
    b - a < W || (shift > 0 && !(b == Span(shift) && a < Pow2(shift) && shift > BP_BITS))
  }

  /** The highest level at which index `a` has a digit other than 0, the lowest branch level at least. */
  function Part(a: nat, shift: nat): (last: nat)
    ensures last <= shift
  {
    if shift < 2 * BP_BITS || Pow2(shift) <= a then shift else Part(a, shift - BP_BITS)
  }

  /** Where a copy of [a, b) stops: behind a whole full trie the digits start again, and the copy ends with the subtree
      in which the path of `a` leaves the path of 0. */
  function Reach(a: nat, b: nat, shift: nat): nat {
    if b - a < W then b else if shift == 0 then a else if b == Span(shift) then Span(Part(a, shift)) else b
  }

  /** Where the source's behaviour is defined: no leaf array is read as a branch array, and both ends of the shallowest
      copy are in one array. */
  predicate Defined(a: nat, b: nat, shift: nat) {
    b - a < W || (shift > 0 && (b == Span(shift) && Part(a, shift) < shift ==> NextMultiple(a, Pow2(Part(a, shift))) < Span(Part(a, shift))))
  }

  /** Copying a whole full vector: on one leaf undefined, on two levels complete, and on more levels the first W * W
      elements only. */
  lemma FullCopyStops(shift: nat)
    requires Levels(shift, 0)
    ensures Defined(0, Span(shift), shift) <==> shift > 0
    ensures shift > 0 ==> Reach(0, Span(shift), shift) == Span(BP_BITS) == W * W
    ensures Faithful(0, Span(shift), shift) <==> shift == BP_BITS
  {
    hide Span, Pow2, NextMultiple;
    BlockZero();
    SpanIsWidthTimes(shift);
    MulMono(1, Pow2(shift), W);
    if shift > 0 {
      LevelFloor(shift);
      PartZero(shift);
      LevelUp(0);
      SpanIsWidthTimes(BP_BITS);
      SpanStep(BP_BITS);
      WidthAtLeastTwo();
      MulMono(2, W, W);
      UpIs(0, Pow2(BP_BITS));
      assert 0 % Pow2(BP_BITS) == 0;
    }
  }

  lemma {:induction false} PartZero(shift: nat)
    requires shift > 0 && Levels(shift, 0)
    ensures Part(0, shift) == BP_BITS
  {
    LevelFloor(shift);
    if shift >= 2 * BP_BITS {
      LevelDown(shift, 0);
      PartZero(shift - BP_BITS);
    } else {
      LevelDown(shift, 0);
      if shift - BP_BITS > 0 { LevelDown(shift - BP_BITS, 0); }
    }
  }

  /** Faithful ranges are those that are copied to their end. */
  lemma FaithfulReaches(a: nat, b: nat, shift: nat)
    requires a < b <= Span(shift) && Levels(shift, 0)
    ensures Faithful(a, b, shift) ==> Reach(a, b, shift) == b && Defined(a, b, shift)
    ensures a <= Reach(a, b, shift) <= b
  {
    hide Span;
    if W <= b - a && shift > 0 && b == Span(shift) { PartInside(a, shift); }
  }

  lemma {:induction false} PartInside(a: nat, shift: nat)
    requires shift > 0 && Levels(shift, 0) && a < Span(shift)
    ensures a < Span(Part(a, shift)) <= Span(shift) && (Part(a, shift) < shift ==> a < Pow2(shift) && shift > BP_BITS)
    ensures shift <= BP_BITS || Pow2(shift) <= a ==> Part(a, shift) == shift
  {
    hide Span, Pow2;
    LevelFloor(shift);
    if shift >= 2 * BP_BITS && a < Pow2(shift) {
      LevelDown(shift, 0);
      SpanStep(shift);
      PartInside(a, shift - BP_BITS);
      SpanIsWidthTimes(shift);
      MulMono(1, W, Pow2(shift));
    } else {
      LevelDown(shift, 0);
      if shift - BP_BITS > 0 { LevelDown(shift - BP_BITS, 0); }
    }
  }

  /** What `contained_at_shift` establishes about the level of the shallowest copy. */
  ghost predicate Parting(a: nat, b: nat, shift: nat, last: nat) {
    && BP_BITS <= last && Levels(shift, last) && Levels(last, 0) && SameDigits(a, b, shift, last)
    && (last == BP_BITS || Slot(a, last) != Slot(b, last))
  }

  /** The digits of the end wrap exactly when the copy is not faithful. */
  lemma WrapsBelow(a: nat, b: nat, shift: nat, last: nat)
    requires a < b == Span(shift) && W <= b - a && Parting(a, b, shift, last)
    ensures last == shift <==> Faithful(a, b, shift)
  {
    hide Slot, Span, Pow2;
    CapacityDigits(shift, shift);
    TopDigit(a, shift);
    if last < shift { assert Slot(a, shift) == Slot(b, shift); }
  }

  lemma TopDigit(a: nat, shift: nat)
    requires a < Span(shift)
    ensures Slot(a, shift) == 0 <==> a < Pow2(shift)
  {
    BlockAndDigit(a, shift);
    BelowSpan(a, Span(shift));
    BelowSpan(a, Pow2(shift));
  }

  lemma Apart(a: nat, b: nat, p: nat)
    requires p > 0 && a < b && a / p != b / p
    ensures a - a % p + p <= b - b % p
  {
    var x := BlockStart(a, p);
    var y := BlockStart(b, p);
    if y < x { AlignedBelow(y, x, p); }
    AlignedBelow(x, y, p);
  }

  lemma FarApart(a: nat, b: nat, p: nat)
    requires p > 0 && a + p <= b
    ensures a / p != b / p
  {
    var x := BlockStart(a, p);
    var y := BlockStart(b, p);
  }

  /** What phases 2 to 4 need to know: `ar` and `br` in one block at shift `last`, in order. */
  ghost predicate Framed(a: nat, b: nat, shift: nat, last: nat, sz: nat) {
    var p := Pow2(last);
    var ar, br := NextMultiple(a, p), Down(b, p);
    && a - a % p + p <= br && ar <= br
    && (ar != br ==> SameDigits(br, ar, shift, last) && br == ar - ar % Span(last) + SlotEnd(br, last, sz) * p)
  }

  lemma FramedInside(a: nat, b: nat, shift: nat, last: nat, sz: nat)
    requires a < b <= sz && b < Span(shift) && W <= b - a && Parting(a, b, shift, last)
    ensures Framed(a, b, shift, last, sz)
  {
    hide Slot, Span, Pow2, SameDigits, Levels, NextMultiple, Down;
    var p := Pow2(last);
    PartingBlocks(a, b, shift, last);
    Apart(a, b, p);
    UpIs(a, p);
    DownIs(b, p);
    var ar, br := NextMultiple(a, p), Down(b, p);
    if ar != br {
      BlockBetween(a, ar, b, Span(last));
      BlockBetween(a, br, b, Span(last));
      SameBlockDigits(br, ar, shift, last);
      SameQuotient(br, ar, Span(last));
      SlotStart(br, last);
    }
  }

  /** At the parting level both ends are in one block, but not in one child. */
  lemma PartingBlocks(a: nat, b: nat, shift: nat, last: nat)
    requires a < b < Span(shift) && W <= b - a && Parting(a, b, shift, last)
    ensures a / Span(last) == b / Span(last) && a / Pow2(last) != b / Pow2(last)
  {
    hide Slot, Span, Pow2;
    BelowSpan(a, Span(shift));
    BelowSpan(b, Span(shift));
    DigitsBlock(a, b, shift, last);
    BlockAndDigit(a, last);
    BlockAndDigit(b, last);
    if last == BP_BITS { FarApart(a, b, W); }
  }

  lemma BlockBetween(a: nat, x: nat, b: nat, p: nat)
    requires p > 0 && a <= x <= b && a / p == b / p
    ensures x / p == a / p
  {
    DivBounds(a, p);
    DivBounds(b, p);
    DivUnique(x, p, a / p);
  }

  lemma FramedAtEnd(a: nat, b: nat, shift: nat, sz: nat)
    requires a < b == sz == Span(shift) && W <= b - a && Parting(a, b, shift, shift)
    ensures Framed(a, b, shift, shift, sz)
  {
    var p := Pow2(shift);
    SpanIsWidthTimes(shift);
    MultipleIs(W, p);
    UpIs(a, p);
    var x := BlockStart(a, p);
    AlignedBelow(x, b, p);
    var ar := NextMultiple(a, p);
    if ar != b {
      BelowSpan(ar, b);
      DivBounds(ar, b);
      CapacityDigits(shift, shift);
    }
  }

  /** The other case: everything happens inside block 0, and the end of the range is out of sight. */
  lemma Wrapped(a: nat, b: nat, shift: nat, last: nat)
    requires a < b == Span(shift) && Parting(a, b, shift, last) && last < shift
    ensures a < Span(last) && Span(last) < b && a - a % Pow2(last) + Pow2(last) <= Span(last)
    ensures Down(b, Pow2(last)) == b && SameDigits(b, 0, shift, last) && Slot(b, last) == 0
    ensures NextMultiple(a, Pow2(last)) <= Span(last) == W * Pow2(last)
  {
    WrappedDigits(a, shift, shift, last);
    WrappedDigits(0, shift, shift, last);
    SameBlockDigits(0, 0, shift, last);
    BelowSpan(a, Span(shift));
    BelowSpan(0, Span(shift));
    DigitsBlock(a, 0, shift, last);
    BelowSpan(a, Span(last));
    BelowSpan(0, Span(last));
    CapacityDigits(shift, last);
    SpanIsWidthTimes(last);
    WrappedSizes(shift, last);
    MultipleIs(W, Pow2(last));
    UpIs(a, Pow2(last));
    var x := BlockStart(a, Pow2(last));
    AlignedBelow(x, Span(last), Pow2(last));
  }

  lemma WrappedSizes(shift: nat, last: nat)
    requires last < shift && Levels(shift, last)
    ensures Span(last) < Span(shift) && Span(shift) % Pow2(last) == 0
  {
    LevelDown(shift, last);
    var d := shift - last;
    Pow2Add(d, last + BP_BITS);
    assert d + (last + BP_BITS) == shift + BP_BITS;
    MulMono(2, Pow2(d), Span(last));
    Pow2Add(d + BP_BITS, last);
    assert d + BP_BITS + last == shift + BP_BITS;
    MultipleIs(Pow2(d + BP_BITS), Pow2(last));
  }

  // ---- assign ----

  /** `contained_at_shift(a, b) + BP_BITS` */
  method LastShift<T>(g: Glob<T>, t: Vec<T>, a: nat, b: nat) returns (last: nat)
    requires t.Valid(g) && t.shift > 0 && a < t.sz
    ensures Parting(a, b, t.shift, last)
  {
    last := ContainedAtShift(g, t.root, t.shift, a, b);
    LevelUp(last);
    last := last + BP_BITS;
  }

  /** The level found for a range that ends at the capacity. */
  lemma {:induction false} PartingIsPart(a: nat, shift: nat, last: nat)
    requires shift > 0 && a < Span(shift) && Levels(shift, 0) && BP_BITS <= last && Levels(shift, last) && Levels(last, 0)
    requires SameDigits(a, 0, shift, last) && (last == BP_BITS || Slot(a, last) != 0)
    ensures last == Part(a, shift)
  {
    hide Span, Pow2, Slot;
    TopDigit(a, shift);
    CapacityDigits(shift, shift);
    if last < shift {
      PartBelow(shift, last);
      assert SameDigits(a, 0, shift - BP_BITS, last) && Slot(a, shift) == Slot(0, shift);
      PartingIsPart(a, shift - BP_BITS, last);
      assert Part(a, shift) == Part(a, shift - BP_BITS);
    } else {
      assert last == shift;
    }
  }

  lemma PartBelow(shift: nat, last: nat)
    requires Levels(shift, 0) && BP_BITS <= last < shift && Levels(shift, last)
    ensures shift >= 2 * BP_BITS && Levels(shift - BP_BITS, 0) && Levels(shift - BP_BITS, last) && Pow2(shift) == Span(shift - BP_BITS)
  {
    LevelDown(shift, last);
    LevelDown(shift, 0);
  }

  /** Everything the phases need to know about the range, in the faithful case and in the other one. */
  lemma Frame(a: nat, b: nat, shift: nat, last: nat, sz: nat, ar: nat, br: nat)
    requires a < b <= sz <= Span(shift) && W <= b - a && Parting(a, b, shift, last)
    requires ar == NextMultiple(a, Pow2(last)) && br == Down(b, Pow2(last))
    ensures a - a % Pow2(last) + Pow2(last) <= sz && a <= ar && ar % Pow2(last) == 0
    ensures if b == Span(shift) && last != shift then ar <= Span(last) < b && br == b else ar <= br <= b
    ensures ar != br ==> ar < sz
    ensures ar != br ==>
      var j := if b == Span(shift) && last != shift then 0 else ar;
      var end := if b == Span(shift) && last != shift then Span(last) else br;
      && j < sz && SameDigits(br, j, shift, last)
      && (j / Span(last) == ar / Span(last) ==> ar <= end <= sz && end == ar - ar % Span(last) + SlotEnd(br, last, sz) * Pow2(last))
  {
    UpIs(a, Pow2(last));
    if b < Span(shift) {
      FramedInside(a, b, shift, last, sz);
    } else if last == shift {
      FramedAtEnd(a, b, shift, sz);
    } else {
      Wrapped(a, b, shift, last);
      if 0 / Span(last) == ar / Span(last) {
        SameQuotient(0, ar, Span(last));
        SameStart(0, 0, Span(last));
      }
    }
  }

  /** Phases 2 to 4: from the first whole leaf to the last one. */
  method Middle<T>(g: Glob<T>, t: Vec<T>, other: Vec<T>, a: nat, b: nat, ar0: nat, last: nat, ghost job: Job<T>)
    returns (ok: bool, br: nat, ghost c: nat)
    requires Target(g, t, other, job, ar0) && t != other && a == job.a && ar0 == NextMultiple(a, W)
    requires a < b <= job.sz && W <= b - a && Parting(a, b, job.shift, last)
    modifies t`root, g`nodes, t.Mine(g)
    ensures Target(g, t, other, job, c) && Grew(g, job.o.id) && OnlyOwn(old(g.Mem()), g.Mem(), job.o)
    ensures !(b == Span(job.shift) && last != job.shift) ==> ok && c == br
    ensures b == Span(job.shift) && last != job.shift ==>
              c == Span(last) < b && (ok ==> br == b) && (ok <==> NextMultiple(a, Pow2(last)) < Span(last))
    ensures ok ==> br == Down(b, W)
  {
    hide Copied, OnlyOwn, JobOk, Slot, Parting, SameDigits, Pow2, Span, Down, Levels;
    ghost var m0 := g.Mem();
    PartingPlan(job, b, last, t, other, g, ar0);
    var ar := Climb(g, t, other, ar0, last, job);
    ghost var m1 := g.Mem();
    PowIsPow2(last);
    br := Down(b, Pow(W, last / BP_BITS));
    Frame(a, b, job.shift, last, job.sz, ar, br);
    BelowSpan(ar, Span(last));
    BelowSpan(0, Span(last));
    ghost var wraps := b == Span(job.shift) && last != job.shift;
    c := ar;
    if ar != br {
      ghost var end := if wraps then Span(last) else br;
      ok := Across(g, t, other, ar, br, last, if wraps then 0 else ar, end, job);
      OnlyOwnTrans(m0, m1, g.Mem(), job.o);
      if !ok {
        return;
      }
      c := end;
    }
    ok := true;
    ghost var m2 := g.Mem();
    br, c := DescendTo(g, t, other, b, br, last, c, job);
    OnlyOwnTrans(m0, m2, g.Mem(), job.o);
  }

  lemma PartingPlan<T>(job: Job<T>, b: nat, last: nat, t: Vec<T>, other: Vec<T>, g: Glob<T>, c: nat)
    requires Target(g, t, other, job, c) && job.a < b <= job.sz && W <= b - job.a && Parting(job.a, b, job.shift, last)
    ensures Plan(job, last) && job.sz <= Span(job.shift)
    ensures BP_BITS <= last && Levels(job.shift, last) && Levels(last, 0)
  {
    Frame(job.a, b, job.shift, last, job.sz, NextMultiple(job.a, Pow2(last)), Down(b, Pow2(last)));
  }

  /** Phase 1: the rest of the leaf that `a` is in. */
  method CopyHead<T>(g: Glob<T>, t: Vec<T>, other: Vec<T>, a: nat, b: nat, ghost job: Job<T>) returns (ar: nat)
    requires Target(g, t, other, job, a) && t != other && a == job.a && a < b <= job.sz && W <= b - a
    modifies t`root, g`nodes, t.Mine(g)
    ensures Target(g, t, other, job, ar) && Grew(g, job.o.id) && OnlyOwn(old(g.Mem()), g.Mem(), job.o)
    ensures ar == NextMultiple(a, W) <= b
  {
    hide Copied, OnlyOwn, JobOk, Target;
    OnlyOwnSelf(g.Mem(), job.o);
    ar := NextMultiple(a, W);
    UpIs(a, W);
    TargetIs(g, t, other, job, a);
    if ar - a > 0 {
      CopyElems(g, t, other, a, ar, job);
    }
  }

  /** Phase 5: the leaf that `b` is in, up to `b`. */
  method CopyTail<T>(g: Glob<T>, t: Vec<T>, other: Vec<T>, b: nat, br: nat, ghost c0: nat, ghost job: Job<T>) returns (ghost c: nat)
    requires Target(g, t, other, job, c0) && t != other && br <= b <= job.sz && (br < b ==> c0 == br) && c0 <= b
    modifies t`root, g`nodes, t.Mine(g)
    ensures Target(g, t, other, job, c) && Grew(g, job.o.id) && OnlyOwn(old(g.Mem()), g.Mem(), job.o)
    ensures c == if br < b then b else c0
  {
    hide Copied, OnlyOwn, JobOk, Target;
    OnlyOwnSelf(g.Mem(), job.o);
    c := c0;
    if b - br > 0 {
      CopyElems(g, t, other, br, b, job);
      c := b;
    }
  }

  /** Phases 2 to 5. */
  method CopyRest<T>(g: Glob<T>, t: Vec<T>, other: Vec<T>, a: nat, b: nat, ar: nat, ghost job: Job<T>) returns (ok: bool, ghost c: nat)
    requires Target(g, t, other, job, ar) && t != other && a == job.a && a < b <= job.sz && W <= b - a && ar == NextMultiple(a, W)
    requires t.shift > 0
    modifies t`root, g`nodes, t.Mine(g)
    ensures Target(g, t, other, job, c) && Grew(g, job.o.id) && OnlyOwn(old(g.Mem()), g.Mem(), job.o)
    ensures c == Reach(a, b, job.shift) && (ok <==> Defined(a, b, job.shift)) && (Faithful(a, b, job.shift) <==> ok && c == b)
  {
    hide Copied, OnlyOwn, JobOk, Slot, Parting, SameDigits, Target, Pow2, Span, Down, Levels;
    ghost var m0 := g.Mem();
    TargetOk(g, t, other, job, ar);
    TargetIs(g, t, other, job, ar);
    var last := LastShift(g, t, a, b);
    FaithfulIf(a, b, job.shift, last);
    var br;
    ok, br, c := Middle(g, t, other, a, b, ar, last, job);
    DownIs(b, W);
    if !ok {
      return;
    }
    ghost var m1 := g.Mem();
    c := CopyTail(g, t, other, b, br, c, job);
    OnlyOwnTrans(m0, m1, g.Mem(), job.o);
  }

  /** Ranges of BP_WIDTH elements and more: leaf by leaf at the ends, whole subtrees between them. */
  method CopyWide<T>(g: Glob<T>, t: Vec<T>, other: Vec<T>, a: nat, b: nat, ghost job: Job<T>) returns (ok: bool, ghost c: nat)
    requires Target(g, t, other, job, a) && t != other && a == job.a && a < b <= job.sz && W <= b - a
    modifies t`root, g`nodes, t.Mine(g)
    ensures Target(g, t, other, job, c) && Grew(g, job.o.id) && OnlyOwn(old(g.Mem()), g.Mem(), job.o)
    ensures c == Reach(a, b, job.shift) && (ok <==> Defined(a, b, job.shift)) && (Faithful(a, b, job.shift) <==> ok && c == b)
  {
    hide Copied, OnlyOwn, JobOk, Target, Faithful, Defined, Reach, NextMultiple, Span;
    ghost var m0 := g.Mem();
    var ar := CopyHead(g, t, other, a, b, job);
    TargetIs(g, t, other, job, ar);
    if t.shift == 0 {
      // the leaf array would be read as a branch array
      OneLeafWide(a, b);
      return false, ar;
    }
    ghost var m1 := g.Mem();
    ok, c := CopyRest(g, t, other, a, b, ar, job);
    OnlyOwnTrans(m0, m1, g.Mem(), job.o);
  }

  /** A whole leaf */
  lemma OneLeafWide(a: nat, b: nat)
    requires a < b <= Span(0) && W <= b - a
    ensures NextMultiple(a, W) == a && Reach(a, b, 0) == a && !Defined(a, b, 0) && !Faithful(a, b, 0)
  {
    BlockZero();
    UpIs(0, W);
  }

  lemma FaithfulIf(a: nat, b: nat, shift: nat, last: nat)
    requires a < b <= Span(shift) && W <= b - a && shift > 0 && Parting(a, b, shift, last)
    ensures Faithful(a, b, shift) <==> !(b == Span(shift) && last != shift)
    ensures b == Span(shift) ==> last == Part(a, shift)
    ensures b == Span(shift) && last != shift ==> Span(last) < b
  {
    hide Slot;
    if b == Span(shift) {
      WrapsBelow(a, b, shift, last);
      WrappedDigits(a, shift, shift, last);
      CapacityDigits(shift, last);
      LevelsTrans(shift, last, 0);
      PartingIsPart(a, shift, last);
      if last != shift { WrappedSizes(shift, last); }
    }
  }

  lemma TargetIs<T>(g: Glob<T>, t: Vec<T>, other: Vec<T>, job: Job<T>, c: nat)
    requires Target(g, t, other, job, c)
    ensures g.Valid() && t.owner == job.o && t.shift == other.shift == job.shift && t.sz == other.sz == job.sz
    ensures job.sz <= Span(job.shift) && JobOk(job)
  {
  }

  /** Fewer than BP_WIDTH elements: two copying loops, split at the leaf boundary. */
  method CopyNarrow<T>(g: Glob<T>, t: Vec<T>, other: Vec<T>, a: nat, b: nat, ghost job: Job<T>)
    requires Target(g, t, other, job, a) && t != other && a == job.a && a < b <= job.sz
    modifies t`root, g`nodes, t.Mine(g)
    ensures Target(g, t, other, job, b) && Grew(g, job.o.id) && OnlyOwn(old(g.Mem()), g.Mem(), job.o)
  {
    hide Copied, OnlyOwn, JobOk, Target;
    ghost var m0 := g.Mem();
    UpIs(a, W);
    TargetIs(g, t, other, job, a);
    var split := if NextMultiple(a, W) < b then NextMultiple(a, W) else b;
    CopyElems(g, t, other, a, split, job);
    ghost var m1 := g.Mem();
    CopyElems(g, t, other, split, b, job);
    OnlyOwnTrans(m0, m1, g.Mem(), job.o);
  }

  /** What the target shows once [a, c) is copied. */
  lemma CopiedView<T>(job: Job<T>, m: Mem<T>, r: Node<T>, c: nat)
    requires JobOk(job) && Copied(job, m, r, c) && job.a <= c <= job.sz
    ensures HandleOk(m, r, job.shift, job.sz) && HandleOk(m, job.other, job.shift, job.sz)
    ensures var was, src := Contents(job.m, job.mine, job.shift, job.sz), Contents(job.m, job.other, job.shift, job.sz);
            && Contents(m, r, job.shift, job.sz) == was[..job.a] + src[job.a..c] + was[c..]
            && Contents(m, job.other, job.shift, job.sz) == src
  {
    hide Find, Avoids;
    CopiedOk(job, m, r, c);
  }

  /** `assign`: the elements of `other` on [a, b) replace ours. `ok` is false where the source's behaviour is undefined;
      otherwise [a, c) was copied, and nothing else. Both hold with c == b exactly for the faithful ranges. */
  method Assign<T>(g: Glob<T>, t: Vec<T>, other: Vec<T>, a: nat, b: nat) returns (ok: bool, ghost c: nat)
    requires t.Valid(g) && other.Valid(g) && t != other && t.owner.kind == Tr && Avoids(g.Mem(), other.root, t.owner)
    requires t.sz == other.sz && t.shift == other.shift && a < b <= t.sz
    modifies t`root, g`nodes, t.Mine(g)
    ensures t.Valid(g) && other.Valid(g) && Grew(g, t.owner.id) && OnlyOwn(old(g.Mem()), g.Mem(), t.owner)
    ensures a <= c <= b && c == Reach(a, b, t.shift) && (ok <==> Defined(a, b, t.shift))
    ensures Faithful(a, b, t.shift) <==> ok && c == b
    ensures t.View(g) == old(t.View(g))[..a] + old(other.View(g))[a..c] + old(t.View(g))[c..]
    ensures other.View(g) == old(other.View(g)) && Inherits(old(g.Mem()), old(t.root), other.root, t.owner, g.Mem(), t.root)
  {
    hide OnlyOwn, Avoids, Find;
    ghost var job := Job(g.Mem(), t.root, other.root, t.shift, t.sz, t.owner, a);
    CopiedStart(job);
    if b - a < W {
      CopyNarrow(g, t, other, a, b, job);
      ok, c := true, b;
    } else {
      ok, c := CopyWide(g, t, other, a, b, job);
    }
    TargetOk(g, t, other, job, c);
    CopiedView(job, g.Mem(), t.root, c);
  }
}
