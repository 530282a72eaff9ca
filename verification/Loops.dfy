/** A worker's loop over two mutable iterators of its splinter: `for (it = begin() + a; it != begin() + b; ++it) *it = ...` */
module Loops {
  import opened Radix
  import opened Nodes
  import opened Heap
  import opened Vector
  import opened Isolation
  import opened Iterators
  import opened Assign

  /** The elements of [a, c) as wanted, the others as they were. */
  ghost function Partly<T>(s: seq<T>, want: seq<T>, a: nat, c: nat): (r: seq<T>)
    requires |want| == |s|
    ensures |r| == |s|
  {
    seq(|s|, i requires 0 <= i < |s| => if a <= i < c then want[i] else s[i])
  }

  lemma PartlyOne<T>(s: seq<T>, want: seq<T>, a: nat, c: nat)
    requires a <= c < |s| == |want|
    ensures Partly(s, want, a, c)[c] == s[c]
    ensures Partly(s, want, a, c + 1) == Partly(s, want, a, c)[c := want[c]]
  {
  }

  /** The loop: elements written up to `c`, the iterator at `pos`. */
  ghost predicate Running<T>(g: Glob<T>, v: Vec<T>, it: MutIterator<T>, end: Stop<T>, s: seq<T>, want: seq<T>,
                             a: nat, c: nat, pos: nat)
    reads g, g.nodes, v, it
  {
    && v.Valid(g) && |want| == |s| && v.View(g) == Partly(s, want, a, c) && v.sz > 0 && a <= c <= end.pos <= v.sz
    && it.Ready(g) && it.root == v.root && it.shift == v.shift && it.sz == v.sz && it.owner == v.owner
    && it.At(g.Mem(), pos)
    && MutIterAt(g.Mem(), v.root, v.shift, v.sz, v.owner, end.i, end.leaf, end.cur, end.pos)
  }

  lemma RunningEnd<T>(g: Glob<T>, v: Vec<T>, it: MutIterator<T>, end: Stop<T>, s: seq<T>, want: seq<T>, a: nat, c: nat)
    requires Running(g, v, it, end, s, want, a, c, c)
    ensures it.leaf != end.leaf || it.cur != end.cur <==> c != end.pos
    ensures c != end.pos ==> g.Valid() && it.leaf in Owned(g.nodes, v.owner)
  {
    PointersAreEqual(g.Mem(), v.root, v.sz, it.leaf, it.cur, c, end.leaf, end.cur, end.pos);
    if c != end.pos { HoldsPasses(g.Mem(), v.root, it.leaf, c, v.owner); }
  }

  /** `*it`, before it is written */
  method Current<T>(g: Glob<T>, v: Vec<T>, it: MutIterator<T>, end: Stop<T>, ghost s: seq<T>, ghost want: seq<T>, ghost a: nat, ghost c: nat)
    returns (x: T)
    requires Running(g, v, it, end, s, want, a, c, c) && c < end.pos
    ensures c < |s| && x == s[c]
  {
    hide MutIterAt, Find;
    PartlyOne(s, want, a, c);
    x := it.Deref(g, c);
  }

  /** `*it = x` */
  method PutWanted<T>(g: Glob<T>, v: Vec<T>, it: MutIterator<T>, end: Stop<T>, x: T,
                      ghost s: seq<T>, ghost want: seq<T>, ghost a: nat, ghost c: nat)
    requires Running(g, v, it, end, s, want, a, c, c) && c < end.pos && c < |want| && x == want[c]
    modifies it.leaf
    ensures g.Valid() && Running(g, v, it, end, s, want, a, c + 1, c) && g.nodes == old(g.nodes)
    ensures Unseen(old(g.Mem()), g.Mem(), v.root, v.root, v.owner)
  {
    hide OnlyOwn, KeepsShape, Follows, SameOutside, Find;
    ghost var m := g.Mem();
    PartlyOne(s, want, a, c);
    it.Put(g, x, c);
    PutKept(m, g.Mem(), v.root, v.shift, v.sz, v.owner, end, c, x);
  }

  lemma PutKept<T>(m: Mem<T>, m': Mem<T>, r: Node<T>, shift: nat, sz: nat, o: Owner, end: Stop<T>, c: nat, val: T)
    requires MemOk(m) && MemOk(m') && HandleOk(m, r, shift, sz) && c < sz && sz > 0
    requires SetTrie(m, r, m', r, c, val) && KeepsShape(m, m', o) && OnlyOwn(m, m', o)
    requires MutIterAt(m, r, shift, sz, o, end.i, end.leaf, end.cur, end.pos)
    ensures HandleOk(m', r, shift, sz) && Contents(m', r, shift, sz) == Contents(m, r, shift, sz)[c := val]
    ensures MutIterAt(m', r, shift, sz, o, end.i, end.leaf, end.cur, end.pos)
    ensures Unseen(m, m', r, r, o)
  {
    SetContents(m, r, m', r, shift, sz, c, val);
    MutIterKept(m, m', r, shift, sz, o, end.i, end.leaf, end.cur, end.pos);
  }

  lemma MoveKept<T>(m: Mem<T>, m': Mem<T>, r: Node<T>, shift: nat, sz: nat, o: Owner, end: Stop<T>)
    requires MemOk(m) && MemOk(m') && HandleOk(m, r, shift, sz) && sz > 0 && Neutral(m, m', o) && OnlyOwn(m, m', o)
    requires MutIterAt(m, r, shift, sz, o, end.i, end.leaf, end.cur, end.pos)
    ensures HandleOk(m', r, shift, sz) && Contents(m', r, shift, sz) == Contents(m, r, shift, sz)
    ensures MutIterAt(m', r, shift, sz, o, end.i, end.leaf, end.cur, end.pos)
    ensures Unseen(m, m', r, r, o)
  {
    SameViewHandle(m, m', r, shift, sz);
    MutIterKept(m, m', r, shift, sz, o, end.i, end.leaf, end.cur, end.pos);
  }

  /** `++it` */
  method StepOn<T>(g: Glob<T>, v: Vec<T>, it: MutIterator<T>, end: Stop<T>,
                   ghost s: seq<T>, ghost want: seq<T>, ghost a: nat, ghost c: nat)
    requires Running(g, v, it, end, s, want, a, c + 1, c) && c < end.pos
    modifies it`i, it`leaf, it`cur, g`nodes, v.Mine(g)
    ensures g.Valid() && Running(g, v, it, end, s, want, a, c + 1, c + 1) && Grew(g, v.owner.id)
    ensures Unseen(old(g.Mem()), g.Mem(), v.root, v.root, v.owner)
  {
    hide OnlyOwn, KeepsShape, Follows, SameOutside, Find, MutIterAt, Contents;
    ghost var m := g.Mem();
    it.Inc(g, c);
    MoveKept(m, g.Mem(), v.root, v.shift, v.sz, v.owner, end);
  }

  /** `*it = x; ++it` */
  method WriteNext<T>(g: Glob<T>, v: Vec<T>, it: MutIterator<T>, end: Stop<T>, x: T,
                      ghost s: seq<T>, ghost want: seq<T>, ghost a: nat, ghost c: nat)
    requires Running(g, v, it, end, s, want, a, c, c) && c < end.pos && c < |want| && x == want[c]
    modifies it`i, it`leaf, it`cur, g`nodes, v.Mine(g)
    ensures g.Valid() && Running(g, v, it, end, s, want, a, c + 1, c + 1) && Grew(g, v.owner.id)
    ensures Unseen(old(g.Mem()), g.Mem(), v.root, v.root, v.owner)
  {
    hide Running, OnlyOwn, KeepsShape, Follows;
    ghost var m := g.Mem();
    RunningEnd(g, v, it, end, s, want, a, c);
    PutWanted(g, v, it, end, x, s, want, a, c);
    ghost var m1 := g.Mem();
    StepOn(g, v, it, end, s, want, a, c);
    UnseenTrans(m, m1, g.Mem(), v.root, v.root, v.owner);
  }

  lemma RunningStart<T>(g: Glob<T>, v: Vec<T>, it: MutIterator<T>, end: Stop<T>, s: seq<T>, want: seq<T>, a: nat)
    requires Running(g, v, it, end, s, want, a, a, a)
    ensures a <= end.pos && |want| == |s| == v.sz && Unseen(g.Mem(), g.Mem(), v.root, v.root, v.owner)
  {
    Idle(g.Mem(), v.owner);
  }

  /** Both iterators, made in the order of the source. */
  method LineUpLoop<T>(g: Glob<T>, v: Vec<T>, a: nat, b: nat, ghost want: seq<T>) returns (it: MutIterator<T>, end: Stop<T>)
    requires v.Valid(g) && v.owner.kind == Tr && a <= b <= v.sz && v.sz > 0 && |want| == v.sz
    modifies v`root, g`nodes, v.Mine(g)
    ensures g.Valid() && Running(g, v, it, end, old(v.View(g)), want, a, a, a) && end.pos == b && fresh(it) && Grew(g, v.owner.id)
    ensures Unseen(old(g.Mem()), g.Mem(), old(v.root), v.root, v.owner)
  {
    hide OnlyOwn, KeepsShape, Follows, IterAt, Find;
    ghost var m0 := g.Mem();
    var last := BeginAt(g, v, b);
    ghost var m1 := g.Mem();
    end := Stop(last.leaf, last.cur, last.i, b);
    it := BeginAt(g, v, a);
    SameRoot(m1, g.Mem(), last.root, v.root, v.owner);
    MutIterKept(m1, g.Mem(), v.root, v.shift, v.sz, v.owner, end.i, end.leaf, end.cur, end.pos);
    UnseenTrans(m0, m1, g.Mem(), old(v.root), v.root, v.owner);
    assert Partly(old(v.View(g)), want, a, a) == old(v.View(g));
  }

  lemma RunningDone<T>(g: Glob<T>, v: Vec<T>, it: MutIterator<T>, end: Stop<T>, s: seq<T>, want: seq<T>, a: nat, c: nat)
    requires Running(g, v, it, end, s, want, a, c, c)
    ensures v.Valid(g) && |want| == |s| && v.View(g) == Partly(s, want, a, c)
  {
  }

  /** `it = begin() + c; *it = f(*it)` */
  method UpdateAt<T>(g: Glob<T>, v: Vec<T>, c: nat, f: T -> T)
    requires v.Valid(g) && v.owner.kind == Tr && c < v.sz
    modifies v`root, g`nodes, v.Mine(g)
    ensures v.Valid(g) && v.View(g) == old(v.View(g))[c := f(old(v.View(g))[c])]
    ensures Grew(g, v.owner.id) && OnlyOwn(old(g.Mem()), g.Mem(), v.owner)
    ensures Follows(old(g.Mem()), g.Mem(), old(v.root), v.root, v.owner)
  {
    hide OnlyOwn, KeepsShape, Follows, IterAt, Find;
    ghost var m0 := g.Mem();
    var it := BeginAt(g, v, c);
    ghost var m1 := g.Mem();
    HoldsPasses(m1, v.root, it.leaf, c, v.owner);
    var x := it.Deref(g, c);
    it.Put(g, f(x), c);
    PutKept(m1, g.Mem(), v.root, v.shift, v.sz, v.owner, Stop(it.leaf, it.cur, it.i, c), c, f(x));
    UnseenTrans(m0, m1, g.Mem(), old(v.root), v.root, v.owner);
  }
}
