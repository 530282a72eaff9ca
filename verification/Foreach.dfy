/** `foreach`: workers map their shares of a snapshot, the shares are spliced together in any order, and one resolution
    repairs what was written to the source meanwhile. */
module Foreach {
  import opened Radix
  import opened Nodes
  import opened Heap
  import opened Vector
  import opened Isolation
  import opened Iterators
  import opened Assign
  import opened Loops
  import opened Partition
  import opened Reduce
  import opened Resolution

  /** The operator of the loop, whatever operator was passed: `target *= val` */
  function Times(x: real, y: real): real {
    x * y
  }

  /** The elements of [a, b) multiplied, the others as they were. */
  ghost function Scaling(s: seq<real>, a: nat, b: nat, val: real): (r: seq<real>)
    ensures |r| == |s|
  {
    seq(|s|, i requires 0 <= i < |s| => if a <= i < b then Times(s[i], val) else s[i])
  }

  // ---- the worker's loop ----

  lemma ScalingPartly(s: seq<real>, a: nat, b: nat, val: real)
    requires b <= |s|
    ensures Partly(s, Scaling(s, 0, |s|, val), a, b) == Scaling(s, a, b, val)
  {
  }

  /** `*it *= val; ++it` */
  method ScaleNext(g: Glob<real>, v: Vec<real>, it: MutIterator<real>, end: Stop<real>, val: real, ghost s: seq<real>, ghost a: nat, ghost c: nat)
    requires Running(g, v, it, end, s, Scaling(s, 0, |s|, val), a, c, c) && c < end.pos && g.Valid()
    modifies it`i, it`leaf, it`cur, g`nodes, v.Mine(g)
    ensures g.Valid() && Running(g, v, it, end, s, Scaling(s, 0, |s|, val), a, c + 1, c + 1) && Grew(g, v.owner.id)
    ensures Unseen(old(g.Mem()), g.Mem(), v.root, v.root, v.owner)
  {
    hide Running, OnlyOwn, KeepsShape, Follows;
    var x := Current(g, v, it, end, s, Scaling(s, 0, |s|, val), a, c);
    WriteNext(g, v, it, end, Times(x, val), s, Scaling(s, 0, |s|, val), a, c);
  }

  /** `for (it = begin() + a; it != begin() + b; ++it) *it *= val` */
  method ScaleLoop(g: Glob<real>, v: Vec<real>, it: MutIterator<real>, end: Stop<real>, val: real, ghost s: seq<real>, ghost a: nat)
    requires Running(g, v, it, end, s, Scaling(s, 0, |s|, val), a, a, a) && g.Valid()
    modifies it`i, it`leaf, it`cur, g`nodes, v.Mine(g)
    ensures g.Valid() && Running(g, v, it, end, s, Scaling(s, 0, |s|, val), a, end.pos, end.pos) && Grew(g, v.owner.id)
    ensures Unseen(old(g.Mem()), g.Mem(), v.root, v.root, v.owner)
  {
    hide Running, OnlyOwn, KeepsShape, Follows, Scaling;
    ghost var m0, want := g.Mem(), Scaling(s, 0, |s|, val);
    ghost var c := a;
    RunningStart(g, v, it, end, s, want, a);
    RunningEnd(g, v, it, end, s, want, a, c);
    while it.leaf != end.leaf || it.cur != end.cur
      invariant g.Valid() && c <= end.pos && Running(g, v, it, end, s, want, a, c, c) && Grew(g, v.owner.id)
      invariant it.leaf != end.leaf || it.cur != end.cur <==> c != end.pos
      invariant Unseen(m0, g.Mem(), v.root, v.root, v.owner)
      decreases end.pos - c
    {
      ghost var m := g.Mem();
      ScaleNext(g, v, it, end, val, s, a, c);
      UnseenTrans(m0, m, g.Mem(), v.root, v.root, v.owner);
      c := c + 1;
      RunningEnd(g, v, it, end, s, want, a, c);
    }
  }

  /** The worker's loop on its splinter. */
  method ScaleRange(g: Glob<real>, v: Vec<real>, a: nat, b: nat, val: real)
    requires v.Valid(g) && v.owner.kind == Tr && a <= b <= v.sz && v.sz > 0
    modifies v`root, g`nodes, v.Mine(g)
    ensures v.Valid(g) && v.View(g) == Scaling(old(v.View(g)), a, b, val) && Grew(g, v.owner.id)
    ensures OnlyOwn(old(g.Mem()), g.Mem(), v.owner) && Follows(old(g.Mem()), g.Mem(), old(v.root), v.root, v.owner)
  {
    hide Running, OnlyOwn, KeepsShape, Follows, Scaling;
    ghost var m0, s := g.Mem(), v.View(g);
    ghost var want := Scaling(s, 0, |s|, val);
    var it, end := LineUpLoop(g, v, a, b, want);
    ghost var m1 := g.Mem();
    ScaleLoop(g, v, it, end, val, s, a);
    UnseenTrans(m0, m1, g.Mem(), old(v.root), v.root, v.owner);
    RunningDone(g, v, it, end, s, want, a, b);
    ScalingPartly(s, a, b, val);
  }

  function Over(x: real, y: real): real {
    if y == 0.0 then 0.0 else x / y
  }

  /** The two operators: identity, `f` and `inv` */
  datatype Operator = Plus | Mult {
    function Identity(): real {
      match this case Plus => 0.0 case Mult => 1.0
    }

    function F(x: real, y: real): real {
      match this case Plus => x + y case Mult => Times(x, y)
    }

    /** Where `y` can be undone. */
    function Inv(x: real, y: real): real {
      match this case Plus => x - y case Mult => Over(x, y)
    }

    predicate Undoes(y: real) {
      Plus? || y != 0.0
    }

    lemma InvIdentity(x: real, y: real)
      requires Undoes(y)
      ensures Inv(x, y) == Identity() <==> x == y
    {
      if Mult? { OverOne(x, y); }
    }

    lemma FIdentity(x: real)
      ensures F(x, Identity()) == x
    {
    }
  }

  lemma OverOne(x: real, y: real)
    requires y != 0.0
    ensures Over(x, y) == 1.0 <==> x == y
    ensures Times(y, Over(x, y)) == x
  {
    var q := Over(x, y);
    assert q * y == x;
  }

  /** `it = begin() + c; *it = f(*it, diff)` */
  method CombineAt(g: Glob<real>, v: Vec<real>, op: Operator, c: nat, diff: real, ghost w: Owner)
    requires v.Valid(g) && v.owner.kind == w.kind == Tr && w.id != v.owner.id && Avoids(g.Mem(), v.root, w) && c < v.sz
    modifies v`root, g`nodes, v.Mine(g)
    ensures v.Valid(g) && v.View(g) == old(v.View(g))[c := op.F(old(v.View(g))[c], diff)]
    ensures Grew(g, v.owner.id) && OnlyOwn(old(g.Mem()), g.Mem(), v.owner) && Avoids(g.Mem(), v.root, w)
  {
    hide OnlyOwn, Follows, Find, Avoids, Operator.F;
    ghost var m := g.Mem();
    UpdateAt(g, v, c, x => op.F(x, diff));
    FollowsAvoids(m, g.Mem(), old(v.root), v.root, w, v.owner);
  }

  // ---- the protocol ----

  /** A handle that shows `s`, and that neither of two writers can change. */
  ghost predicate Held(m: Mem<real>, v: Vec<real>, s: seq<real>, shift: nat, w1: Owner, w2: Owner)
    requires MemOk(m)
    reads v
  {
    && HandleOk(m, v.root, v.shift, v.sz) && v.shift == shift && Contents(m, v.root, v.shift, v.sz) == s
    && Avoids(m, v.root, w1) && Avoids(m, v.root, w2)
  }

  lemma HeldKept(m: Mem<real>, m': Mem<real>, v: Vec<real>, s: seq<real>, shift: nat, w1: Owner, w2: Owner, o: Owner)
    requires MemOk(m) && MemOk(m') && Held(m, v, s, shift, w1, w2) && OnlyOwn(m, m', o) && (o == w1 || o == w2)
    ensures Held(m', v, s, shift, w1, w2)
  {
    AvoidsContents(m, m', v.root, v.shift, v.sz, o);
    AvoidsOther(m, m', v.root, o, w1);
    AvoidsOther(m, m', v.root, o, w2);
  }

  lemma HeldFresh(m: Mem<real>, v: Vec<real>, s: seq<real>, shift: nat, w1: Owner, w2: Owner, w: Owner)
    requires MemOk(m) && Held(m, v, s, shift, w1, w2) && forall n | n in m :: w.NodeCopy(n.id)
    ensures Held(m, v, s, shift, w, w2)
  {
    NobodyOwns(m, v.root, w);
  }

  /** `splt_vector splt(_used[p], ops)` and the worker's loop: everything but the new handle stays as it was. */
  method MakeSplinter(g: Glob<real>, u: Vec<real>, a: nat, b: nat, val: real,
                      ghost s: seq<real>, ghost shift: nat, ghost w1: Owner, ghost w2: Owner) returns (splt: Vec<real>)
    requires g.Valid() && u.owner.id < g.unique_id && u.sz == |s| > 0 && a <= b <= |s| && Held(g.Mem(), u, s, shift, w1, w2)
    requires w1.kind == w2.kind == Tr && w1.id < g.unique_id && w2.id < g.unique_id
    modifies g`unique_id, g`nodes
    ensures g.Valid() && fresh(splt) && splt.owner.id < g.unique_id && old(g.unique_id) <= g.unique_id && splt.sz == |s|
    ensures old(g.nodes) <= g.nodes && fresh(g.nodes - old(g.nodes)) && Extends(old(g.Mem()), g.Mem())
    ensures Held(g.Mem(), splt, Scaling(s, a, b, val), shift, w1, w2)
  {
    hide Find, MemOk, Avoids, Follows, Scaling, Contents, Extends;
    ghost var m := g.Mem();
    splt := u.NewId(g);
    ScaleRange(g, splt, a, b, val);
    NewWriter(m, g.Mem(), u.root, u.shift, u.sz, splt.owner);
    FollowsAvoids(m, g.Mem(), u.root, splt.root, w1, splt.owner);
    FollowsAvoids(m, g.Mem(), u.root, splt.root, w2, splt.owner);
  }

  /** `assign` accepts the share. */
  predicate ShareOk(p: nat, n: nat, shift: nat) {
    Start(p, n) < End(p, n) && Defined(Start(p, n), End(p, n), shift)
  }

  /** Where `assign` stops copying the share. */
  function Reached(p: nat, n: nat, shift: nat): nat {
    if Start(p, n) < End(p, n) then Reach(Start(p, n), End(p, n), shift) else End(p, n)
  }

  /** The dependent: the joined workers' shares, each mapped from its worker's snapshot as far as `assign` gets, and
      what was there before. */
  ghost function Merged(base: seq<real>, snaps: map<nat, seq<real>>, joined: set<nat>, val: real, shift: nat): (r: seq<real>)
    ensures |r| == |base|
  {
    seq(|base|, i requires 0 <= i < |base| =>
      var p := WorkerAt(i, |base|);
      if p in joined && p in snaps && i < |snaps[p]| && i < Reached(p, |base|, shift) then Times(snaps[p][i], val) else base[i])
  }

  lemma MergedOne(base: seq<real>, snaps: map<nat, seq<real>>, joined: set<nat>, val: real, shift: nat, p: nat)
    requires p in snaps && |snaps[p]| == |base| && p < HWCONC && Start(p, |base|) <= Reached(p, |base|, shift) <= End(p, |base|)
    ensures var a, b, c, was := Start(p, |base|), End(p, |base|), Reached(p, |base|, shift), Merged(base, snaps, joined, val, shift);
            p !in joined ==>
            Merged(base, snaps, joined + {p}, val, shift) == was[..a] + Scaling(snaps[p], a, b, val)[a..c] + was[c..]
  {
    hide Start, End, Chunk, Times, WorkerAt, Reached;
    var a, b, c, was := Start(p, |base|), End(p, |base|), Reached(p, |base|, shift), Merged(base, snaps, joined, val, shift);
    var now := Merged(base, snaps, joined + {p}, val, shift);
    if p !in joined {
      forall i | 0 <= i < |base|
        ensures now[i] == if a <= i < c then Scaling(snaps[p], a, b, val)[i] else was[i]
      {
        InShare(i, |base|, p);
      }
      assert now == was[..a] + Scaling(snaps[p], a, b, val)[a..c] + was[c..];
    }
  }

  lemma ShareInside(p: nat, n: nat, shift: nat)
    requires ShareOk(p, n, shift)
    ensures Start(p, n) < End(p, n) <= n && Defined(Start(p, n), End(p, n), shift)
    ensures Reached(p, n, shift) == Reach(Start(p, n), End(p, n), shift)
  {
  }

  /** `foreach` under way: the source goes on under a new id after every detach, and the dependent is a copy of it. */
  class Mapping {
    const g: Glob<real>
    const dep: Vec<real>
    const op: Operator
    const val: real
    var data: Vec<real>
    var used: map<nat, Vec<real>>
    var splts: map<nat, Vec<real>>
    var joined: set<nat>
    ghost const shift: nat
    ghost var base: seq<real>
    ghost var snaps: map<nat, seq<real>>

    ghost predicate Source()
      reads this, g, g.nodes, data, dep
    {
      && data.Valid(g) && data.sz == |base| > 0 && data.shift == shift && Avoids(g.Mem(), data.root, dep.owner)
      && data.owner.kind == dep.owner.kind == Tr && data.owner.id != dep.owner.id && data != dep
    }

    /** Until the first detach the source may still write into nodes that the dependent shares. */
    ghost predicate Sink()
      reads this, g, g.nodes, data, dep
    {
      && dep.Valid(g) && dep.sz == |base| > 0 && dep.shift == shift
      && (used != map[] ==> Avoids(g.Mem(), dep.root, data.owner))
    }

    /** The snapshots are frozen: neither the source, writing as `w`, nor the dependent can reach them. */
    ghost predicate Copies(m: Mem<real>, w: Owner)
      requires MemOk(m)
      reads this`used, this`snaps, this`base, this`data, set p | p in used :: used[p]
    {
      && snaps.Keys == used.Keys
      && forall p | p in used ::
           && p < HWCONC && used[p] != data && used[p] != dep && used[p].sz == |base|
           && Held(m, used[p], snaps[p], shift, w, dep.owner)
    }

    ghost function Share(p: nat): seq<real>
      reads this`snaps, this`base
      requires p in snaps
    {
      Scaling(snaps[p], Start(p, |base|), End(p, |base|), val)
    }

    /** So are the splinters that wait to be reattached. */
    ghost predicate Splinters(m: Mem<real>, w: Owner)
      requires MemOk(m)
      reads this`used, this`snaps, this`base, this`data, this`splts, this`joined, set p | p in splts :: splts[p]
    {
      && splts.Keys + joined <= used.Keys && splts.Keys !! joined && used.Keys == snaps.Keys
      && forall p | p in splts ::
           && splts[p] != data && splts[p] != dep && splts[p].sz == |base| && ShareOk(p, |base|, shift)
           && Held(m, splts[p], Share(p), shift, w, dep.owner)
    }

    /** Every handle was made under an id already given out. */
    ghost predicate Known()
      reads this, g
    {
      && (forall p | p in used :: used[p].owner.id < g.unique_id)
      && (forall p | p in splts :: splts[p].owner.id < g.unique_id)
    }

    ghost predicate Inv()
      reads this, g, g.nodes, data, dep, set p | p in used :: used[p], set p | p in splts :: splts[p]
    {
      Source() && Sink() && Known() && Copies(g.Mem(), data.owner) && Splinters(g.Mem(), data.owner)
    }

    /** `foreach` up to the first task: the dependent is a copy of the source, which keeps its id. */
    constructor (g: Glob<real>, v: Vec<real>, op: Operator, val: real)
      requires v.Valid(g) && v.owner.kind == Tr && v.sz > 0
      modifies g`unique_id
      ensures Inv() && used == splts == map[] && joined == {} && snaps == map[] && data == v && this.op == op && this.val == val && this.g == g
      ensures dep.View(g) == base == old(v.View(g)) == v.View(g) && shift == v.shift && fresh(dep) && dep.Mine(g) == {}
      ensures g.Mem() == old(g.Mem()) && g.nodes == old(g.nodes)
    {
      var d := v.NewId(g);
      NobodyOwns(g.Mem(), v.root, d.owner);
      this.g, this.dep, this.op, this.val, this.data, this.used, this.splts, this.joined := g, d, op, val, v, map[], map[], {};
      this.shift, this.base, this.snaps := v.shift, v.View(g), map[];
      new;
    }

    /** The nodes that the source or the dependent may write in place. */
    ghost function Writable(): set<Node<real>>
      reads this, data, dep, g
    {
      data.Mine(g) + dep.Mine(g)
    }

    /** What a change by one of the two writers leaves alone. */
    lemma TablesKept(m: Mem<real>, o: Owner)
      requires g.Valid() && MemOk(m) && OnlyOwn(m, g.Mem(), o) && (o == data.owner || o == dep.owner)
      requires Copies(m, data.owner) && Splinters(m, data.owner)
      ensures Copies(g.Mem(), data.owner) && Splinters(g.Mem(), data.owner)
    {
      hide HandleOk, Contents, Avoids, OnlyOwn, MemOk, ShareOk, Scaling, Start, End;
      forall p | p in used
        ensures Held(g.Mem(), used[p], snaps[p], shift, data.owner, dep.owner)
      {
        HeldKept(m, g.Mem(), used[p], snaps[p], shift, data.owner, dep.owner, o);
      }
      forall p | p in splts
        ensures Held(g.Mem(), splts[p], Share(p), shift, data.owner, dep.owner)
      {
        HeldKept(m, g.Mem(), splts[p], Share(p), shift, data.owner, dep.owner, o);
      }
    }

    /** No old node carries a new id. */
    lemma TablesFresh(w: Owner, w': Owner)
      requires g.Valid() && Copies(g.Mem(), w) && Splinters(g.Mem(), w) && forall n | n in g.Mem() :: w'.NodeCopy(n.id)
      ensures Copies(g.Mem(), w') && Splinters(g.Mem(), w')
    {
      hide HandleOk, Contents, Avoids, MemOk, ShareOk, Scaling, Start, End;
      forall p | p in used
        ensures Held(g.Mem(), used[p], snaps[p], shift, w', dep.owner)
      {
        HeldFresh(g.Mem(), used[p], snaps[p], shift, w, dep.owner, w');
      }
      forall p | p in splts
        ensures Held(g.Mem(), splts[p], Share(p), shift, w', dep.owner)
      {
        HeldFresh(g.Mem(), splts[p], Share(p), shift, w, dep.owner, w');
      }
    }

    /** The source is written while the workers are busy. */
    method Write(i: nat, x: real)
      requires Inv() && i < data.sz
      modifies this`base, data`root, g`nodes, data.Mine(g)
      ensures old(g.nodes) <= g.nodes && fresh(g.nodes - old(g.nodes)) && |base| == old(|base|)
      ensures Inv() && data.View(g) == old(data.View(g))[i := x]
      ensures used == map[] ==> base == dep.View(g)
      ensures used != map[] ==> base == old(base) && dep.View(g) == old(dep.View(g))
    {
      hide Avoids, OnlyOwn, Follows, Contents, Held, Find, MemOk, HandleOk;
      ghost var m := g.Mem();
      SetSource(i, x);
      TablesKept(m, data.owner);
      if used == map[] {
        OutsideHandleOk(m, g.Mem(), dep.root, dep.shift, dep.sz, i);
        base := dep.View(g);
      } else {
        AvoidsContents(m, g.Mem(), dep.root, dep.shift, dep.sz, data.owner);
      }
    }

    method SetSource(i: nat, x: real)
      requires Source() && i < data.sz
      modifies data`root, g`nodes, data.Mine(g)
      ensures old(g.nodes) <= g.nodes && fresh(g.nodes - old(g.nodes))
      ensures Source() && data.View(g) == old(data.View(g))[i := x]
      ensures OnlyOwn(old(g.Mem()), g.Mem(), data.owner) && SameOutside(old(g.Mem()), g.Mem(), i, i + 1)
    {
      ghost var m := g.Mem();
      data.MutSet(g, i, x);
      FollowsAvoids(m, g.Mem(), old(data.root), data.root, dep.owner, data.owner);
    }

    /** A new id for the source: nobody's nodes carry it. */
    method NewSource() returns (u: Vec<real>, d: Vec<real>)
      requires Inv()
      modifies g`unique_id
      ensures fresh(u) && fresh(d) && u != d && d.owner == Owner(Tr, old(g.unique_id)) && g.unique_id == old(g.unique_id) + 1 && g.Mem() == old(g.Mem())
      ensures d.Valid(g) && d.View(g) == old(data.View(g)) && d.sz == |base| && d.shift == shift && Avoids(g.Mem(), d.root, dep.owner)
      ensures u.owner.id < g.unique_id && u.sz == |base| && Held(g.Mem(), u, d.View(g), shift, d.owner, dep.owner)
      ensures dep.Valid(g) && dep.View(g) == old(dep.View(g)) && Avoids(g.Mem(), dep.root, d.owner)
      ensures Copies(g.Mem(), d.owner) && Splinters(g.Mem(), d.owner)
      ensures dep.owner.id != d.owner.id && d.Mine(g) == {}
    {
      hide Avoids, OnlyOwn, Follows, Contents, Find, MemOk, HandleOk, ShareOk, Held, Start, End;
      ghost var w := data.owner;
      u := new Vec.Copy(data, data.owner);
      d := data.NewId(g);
      HeldNow(g.Mem(), u, shift, dep.owner, d.owner);
      HandleFresh(g.Mem(), dep.root, dep.shift, dep.sz, d.owner);
      TablesFresh(w, d.owner);
    }

    /** `_used[p] = _data; _data = _data.new_id()` */
    method Detach(p: nat)
      requires Inv() && p < HWCONC && p !in used
      modifies this`data, this`used, this`snaps, g`unique_id
      ensures Inv() && fresh(data) && data.owner == Owner(Tr, old(g.unique_id)) && data.View(g) == old(data.View(g))
      ensures p in used && fresh(used[p]) && used == old(used)[p := used[p]] && snaps == old(snaps)[p := old(data.View(g))]
      ensures g.Mem() == old(g.Mem()) && dep.View(g) == old(dep.View(g)) && data.Mine(g) == {}
    {
      hide Avoids, Contents, Find, MemOk, HandleOk, ShareOk, Held, Scaling, Start, End, Copies, Splinters;
      Apart();
      var u, d := NewSource();
      Install(p, u, d, g.Mem(), d.View(g));
    }

    method Install(p: nat, u: Vec<real>, d: Vec<real>, ghost m: Mem<real>, ghost s: seq<real>)
      requires MemOk(m) && Copies(m, d.owner) && Splinters(m, d.owner)
      requires p < HWCONC && p !in used && u != d && u != dep && d != dep
      requires u.sz == |base| && Held(m, u, s, shift, d.owner, dep.owner)
      requires (forall q | q in used :: used[q] != d) && (forall q | q in splts :: splts[q] != d)
      modifies this`data, this`used, this`snaps
      ensures data == d && used == old(used)[p := u] && snaps == old(snaps)[p := s]
      ensures Copies(m, d.owner) && Splinters(m, d.owner)
    {
      hide MemOk, ShareOk, Held, Scaling;
      snaps := snaps[p := s];
      used := used[p := u];
      data := d;
    }

    /** The rest of the worker's task, up to its `reattach`. */
    method Splint(p: nat)
      requires Inv() && p in used && p !in splts && p !in joined && ShareOk(p, |base|, shift)
      modifies this`splts, g`nodes, g`unique_id
      ensures old(g.nodes) <= g.nodes && fresh(g.nodes - old(g.nodes)) && splts.Keys == old(splts.Keys) + {p}
      ensures Inv() && data.View(g) == old(data.View(g)) && dep.View(g) == old(dep.View(g))
    {
      hide Avoids, Contents, MemOk, HandleOk, Held, Scaling, Start, End, Extends, Find, Copies, Splinters;
      ghost var m := g.Mem();
      CopyIs(p);
      ShareInside(p, data.sz, data.shift);
      var s := MakeSplinter(g, used[p], Start(p, data.sz), End(p, data.sz), val, snaps[p], shift, data.owner, dep.owner);
      AllKept(m);
      Record(p, s, g.Mem());
    }

    method Record(p: nat, s: Vec<real>, ghost m: Mem<real>)
      requires MemOk(m) && p in snaps && Splinters(m, data.owner) && p !in joined && p !in splts
      requires ShareOk(p, |base|, shift) && s != data && s != dep && s.sz == |base| && Held(m, s, Share(p), shift, data.owner, dep.owner)
      modifies this`splts
      ensures splts == old(splts)[p := s] && Splinters(m, data.owner)
    {
      hide MemOk, Held, Scaling;
      splts := splts[p := s];
    }

    lemma SplinterIs(p: nat)
      requires Inv() && p in splts
      ensures p < HWCONC && p in used && p in snaps && |snaps[p]| == |base| && ShareOk(p, dep.sz, dep.shift) && used != map[]
      ensures splts[p] != dep && splts[p].Valid(g) && splts[p].sz == dep.sz && splts[p].shift == dep.shift
      ensures Avoids(g.Mem(), splts[p].root, dep.owner) && Avoids(g.Mem(), splts[p].root, data.owner)
      ensures splts[p].View(g) == Share(p)
    {
    }

    /** The dependent takes over a share. */
    method Absorb(p: nat)
      requires Inv() && p in splts
      modifies dep`root, g`nodes, dep.Mine(g)
      ensures old(g.nodes) <= g.nodes && fresh(g.nodes - old(g.nodes)) && OnlyOwn(old(g.Mem()), g.Mem(), dep.owner)
      ensures dep.Valid(g) && Avoids(g.Mem(), dep.root, data.owner)
      ensures p in snaps && Start(p, |base|) <= Reached(p, |base|, shift) <= End(p, |base|)
      ensures var a, c := Start(p, |base|), Reached(p, |base|, shift);
              dep.View(g) == old(dep.View(g))[..a] + Share(p)[a..c] + old(dep.View(g))[c..]
    {
      hide Avoids, Contents, MemOk, HandleOk, Held, Scaling, Start, End, Find, Copies, Splinters, OnlyOwn, Faithful, Defined, Reach, Reached, ShareOk;
      SplinterIs(p);
      ShareInside(p, dep.sz, dep.shift);
      var ok;
      ghost var c;
      ok, c := Assign.Assign(g, dep, splts[p], Start(p, dep.sz), End(p, dep.sz));
    }

    /** `reattach` by worker p */
    method Join(p: nat)
      requires Inv() && p in splts
      modifies this`splts, this`joined, dep`root, g`nodes, dep.Mine(g)
      ensures old(g.nodes) <= g.nodes && fresh(g.nodes - old(g.nodes))
      ensures splts.Keys == old(splts.Keys) - {p} && joined == old(joined) + {p}
      ensures p in snaps && Start(p, |base|) <= Reached(p, |base|, shift) <= End(p, |base|)
      ensures Inv() && data.View(g) == old(data.View(g))
      ensures var a, c := Start(p, |base|), Reached(p, |base|, shift);
              dep.View(g) == old(dep.View(g))[..a] + Share(p)[a..c] + old(dep.View(g))[c..]
    {
      hide Avoids, Contents, MemOk, HandleOk, Held, Scaling, Start, End, Find, Copies, Splinters, OnlyOwn;
      ghost var m := g.Mem();
      SplinterIs(p);
      Apart();
      Absorb(p);
      AvoidsContents(m, g.Mem(), data.root, data.shift, data.sz, dep.owner);
      TablesKept(m, dep.owner);
      Strike(p, g.Mem());
    }

    method Strike(p: nat, ghost m: Mem<real>)
      requires MemOk(m) && Splinters(m, data.owner) && p in splts
      modifies this`splts, this`joined
      ensures splts == old(splts) - {p} && splts.Keys == old(splts.Keys) - {p} && joined == old(joined) + {p} && Splinters(m, data.owner)
    {
      hide MemOk, Held, Scaling;
      splts := splts - {p};
      joined := joined + {p};
    }

    /** The dependent shows the joined shares. */
    ghost predicate Shown()
      reads this, g, g.nodes, dep
    {
      dep.Valid(g) && dep.View(g) == Merged(base, snaps, joined, val, shift)
    }

    ghost predicate Settled()
      reads this`used, this`splts, this`joined, this`snaps, this`base
    {
      && used.Keys == splts.Keys + joined && snaps.Keys == used.Keys
      && forall p | p in used :: p < HWCONC && ShareOk(p, |base|, shift)
    }

    /** A write to the source, as the dependent sees it: not at all, once there is a snapshot. */
    method Rewrite(i: nat, x: real)
      requires Inv() && Shown() && Settled() && i < data.sz
      modifies this`base, data`root, g`nodes, data.Mine(g)
      ensures old(g.nodes) <= g.nodes && fresh(g.nodes - old(g.nodes)) && |base| == old(|base|)
      ensures Inv() && Shown() && data.View(g) == old(data.View(g))[i := x] && (used == map[] || base == old(base))
    {
      hide Source, Sink, Copies, Splinters, Known, Contents, HandleOk, MemOk, Held;
      Readable();
      Write(i, x);
      Readable();
      if used == map[] {
        assert joined == {};
        assert Merged(base, snaps, joined, val, shift) == base;
      }
    }

    /** `foreach_splt` up to its `reattach` */
    method Map(p: nat)
      requires Inv() && Shown() && p < HWCONC && p !in used && ShareOk(p, |base|, shift)
      modifies this`data, this`used, this`snaps, this`splts, g`nodes, g`unique_id
      ensures old(g.nodes) <= g.nodes && fresh(g.nodes - old(g.nodes)) && fresh(data) && data.Mine(g) <= g.nodes - old(g.nodes)
      ensures Inv() && Shown() && data.View(g) == old(data.View(g))
      ensures used.Keys == old(used.Keys) + {p} && splts.Keys == old(splts.Keys) + {p} && snaps == old(snaps)[p := old(data.View(g))]
    {
      hide Source, Sink, Copies, Splinters, Known, Contents, HandleOk, MemOk, Held, ShareOk;
      Readable();
      ghost var was := Merged(base, snaps, joined, val, shift);
      Detach(p);
      Readable();
      Splint(p);
      Readable();
      assert Merged(base, snaps, joined, val, shift) == was;
    }

    method Merge(p: nat)
      requires Inv() && Shown() && Settled() && p in splts
      modifies this`splts, this`joined, dep`root, g`nodes, dep.Mine(g)
      ensures old(g.nodes) <= g.nodes && fresh(g.nodes - old(g.nodes))
      ensures Inv() && Shown() && data.View(g) == old(data.View(g))
      ensures splts.Keys == old(splts.Keys) - {p} && joined == old(joined) + {p} && Settled()
    {
      hide Source, Sink, Copies, Splinters, Known, Contents, HandleOk, MemOk, Held, ShareOk, Merged, Scaling;
      Readable();
      SplinterIs(p);
      KeyMoves(used.Keys, splts.Keys, joined, p);
      Join(p);
      Readable();
      MergedOne(base, snaps, old(joined), val, shift, p);
    }

    lemma Readable()
      requires Inv()
      ensures data.Valid(g) && data.sz == |base| && data.shift == shift && dep.Valid(g) && dep.sz == |base| > 0
      ensures splts.Keys + joined <= used.Keys && splts.Keys !! joined && data != dep && snaps.Keys == used.Keys
    {
    }

    /** What a step does to the source, the snapshots and the progress of the workers. */
    twostate predicate Stepped(e: Reduce.Step, ok: bool)
      requires old(data.Valid(g)) && data.Valid(g)
      reads this, g, g.nodes, data
    {
      && |base| == old(|base|) && data.View(g) == WriteOne(old(data.View(g)), e)
      && (ok <==> !Spoiled(e, |base|, shift)) && (base == old(base) || (e.SourceSet? && old(used) == map[]))
      && (ok ==> Progress(splts.Keys, joined) == Advance(Progress(old(splts.Keys), old(joined)), e))
      && (ok ==> snaps == SnapOne(old(snaps), old(data.View(g)), e))
    }

    method DoCompute(p: nat) returns (ok: bool)
      requires Inv() && Shown() && Settled() && data.Valid(g)
      modifies this`data, this`used, this`snaps, this`splts, g`nodes, g`unique_id
      ensures old(g.nodes) <= g.nodes && fresh(g.nodes - old(g.nodes)) && fresh(Writable() - old(Writable())) && fresh({data} - {old(data)})
      ensures Inv() && Shown() && Settled() && data.Valid(g) && Stepped(Compute(p), ok)
    {
      hide Inv, Shown, Contents, HandleOk, MemOk, ShareOk;
      Readable();
      if p >= HWCONC || p in used {
        return true;
      }
      ok := ShareOk(p, data.sz, data.shift);
      if !ok {
        return;
      }
      Map(p);
      Readable();
    }

    method DoSet(i: nat, x: real)
      requires Inv() && Shown() && Settled() && data.Valid(g)
      modifies this`base, data`root, g`nodes, data.Mine(g)
      ensures old(g.nodes) <= g.nodes && fresh(g.nodes - old(g.nodes))
      ensures Inv() && Shown() && Settled() && data.Valid(g) && Stepped(SourceSet(i, x), true)
    {
      hide Inv, Shown, Contents, HandleOk, MemOk, ShareOk, Writable, Owned;
      Readable();
      if i >= data.sz {
        return;
      }
      Rewrite(i, x);
      Readable();
    }

    twostate lemma OnlyNewNodes()
      requires old(g.nodes) <= g.nodes && fresh(g.nodes - old(g.nodes)) && data == old(data)
      ensures fresh(Writable() - old(Writable()))
    {
    }

    method DoAttach(p: nat)
      requires Inv() && Shown() && Settled() && data.Valid(g)
      modifies this`splts, this`joined, dep`root, g`nodes, dep.Mine(g)
      ensures old(g.nodes) <= g.nodes && fresh(g.nodes - old(g.nodes))
      ensures Inv() && Shown() && Settled() && data.Valid(g) && Stepped(Attach(p), true)
    {
      hide Inv, Shown, Contents, HandleOk, MemOk, Settled, Writable, Owned, Advance;
      Readable();
      AttachAdvances(splts.Keys, joined, p);
      if p !in splts {
        return;
      }
      Merge(p);
      Readable();
    }

    /** One step of a run. A step that is not due changes nothing; `ok` is false where `assign` would not copy the share. */
    method Do(e: Reduce.Step) returns (ok: bool)
      requires Inv() && Shown() && Settled() && data.Valid(g)
      modifies this`base, this`data, this`used, this`snaps, this`splts, this`joined, data`root, dep`root, g`nodes, g`unique_id, Writable()
      ensures old(g.nodes) <= g.nodes && fresh(g.nodes - old(g.nodes)) && fresh(Writable() - old(Writable())) && fresh({data} - {old(data)})
      ensures Inv() && Shown() && Settled() && data.Valid(g) && Stepped(e, ok)
    {
      hide Inv, Shown, Contents, HandleOk, MemOk, ShareOk, Settled, Stepped;
      ok := true;
      match e {
        case SourceSet(i, x) =>
          DoSet(i, x);
          OnlyNewNodes();
        case Compute(p) =>
          ok := DoCompute(p);
        case Attach(p) =>
          DoAttach(p);
          OnlyNewNodes();
      }
    }

    /** Any number of steps. */
    method Run(steps: seq<Reduce.Step>) returns (ok: bool)
      requires Inv() && Shown() && Settled() && data.Valid(g)
      modifies this`base, this`data, this`used, this`snaps, this`splts, this`joined, data`root, dep`root, g`nodes, g`unique_id, Writable()
      ensures old(g.nodes) <= g.nodes && fresh(g.nodes - old(g.nodes))
      ensures Inv() && Shown() && Settled() && data.Valid(g) && |base| == old(|base|) && fresh(Writable() - old(Writable()))
      ensures ok <==> forall e | e in steps :: !Spoiled(e, |base|, shift)
      ensures ok && old(snaps) == map[] && Quiet(old(data.View(g)), steps) ==> base == old(base)
      ensures ok ==> data.View(g) == Reduce.Written(old(data.View(g)), steps)
      ensures ok ==> Progress(splts.Keys, joined) == Advanced(Progress(old(splts.Keys), old(joined)), steps)
      ensures ok && old(snaps) == map[] ==> snaps == Snapped(old(data.View(g)), steps)
    {
      hide Inv, Shown, Contents, HandleOk, MemOk, ShareOk, WriteOne, Advance, SnapOne, Spoiled;
      ghost var d0, p0, s0, b0 := data.View(g), Progress(splts.Keys, joined), snaps, base;
      ok := true;
      for k := 0 to |steps|
        invariant Inv() && Shown() && Settled() && data.Valid(g) && |base| == old(|base|)
        invariant old(g.nodes) <= g.nodes && fresh(g.nodes - old(g.nodes)) && fresh(Writable() - old(Writable())) && fresh({data} - {old(data)})
        invariant data.View(g) == Reduce.Written(d0, steps[..k])
        invariant Progress(splts.Keys, joined) == Advanced(p0, steps[..k])
        invariant s0 == map[] ==> snaps == Snapped(d0, steps[..k])
        invariant s0 == map[] && Quiet(d0, steps[..k]) ==> base == b0
        invariant forall e | e in steps[..k] :: !Spoiled(e, |base|, shift)
      {
        assert steps[..k + 1][..k] == steps[..k];
        ok := Do(steps[k]);
        if !ok {
          return;
        }
      }
      assert steps[..|steps|] == steps;
    }

    // ---- the resolution ----

    /** Element i of the snapshot of the worker that element i belongs to. */
    ghost function Snap(i: nat): real
      reads this`snaps, this`base
    {
      var p := WorkerAt(i, |base|);
      if p in snaps && i < |snaps[p]| then snaps[p][i] else 0.0
    }

    ghost predicate AllUsed()
      reads this`used
    {
      forall p: nat | p < HWCONC :: p in used
    }

    lemma SnapHere(c: nat, p: nat)
      requires Inv() && c < |base| && p < HWCONC && p in used && Start(p, |base|) <= c < End(p, |base|)
      ensures p in snaps && |snaps[p]| == |base| && Snap(c) == snaps[p][c] && used[p].Valid(g) && used[p].View(g) == snaps[p]
    {
      InShare(c, |base|, p);
    }

    /** `inv(*curr, *trck)`; the worker is the one whose partition holds `c`. */
    method Difference(c: nat, p: nat) returns (ok: bool, diff: real)
      requires Inv() && data.Valid(g) && data.sz == |base| && c < |base| && p < HWCONC && p in used && Start(p, |base|) <= c < End(p, |base|)
      ensures ok <==> op.Undoes(Snap(c))
      ensures ok ==> diff == op.Inv(data.View(g)[c], Snap(c))
    {
      hide Inv, Contents, HandleOk, MemOk, Held, Start, End, Snap;
      SnapHere(c, p);
      var curr := ReadAt(g, data, c);
      var trck := ReadAt(g, used[p], c);
      ok, diff := op.Undoes(trck), op.Inv(curr, trck);
    }

    /** The body of the loop over the contended indices, for the identity map; false where the source would divide by
        zero or look for the worker of an element behind the end. */
    method RepairOne(c: int) returns (ok: bool, changed: bool)
      requires Inv() && AllUsed() && data.Valid(g) && data.sz == |base| && dep.Valid(g) && dep.sz == |base|
      modifies dep`root, g`nodes, dep.Mine(g)
      ensures old(g.nodes) <= g.nodes && fresh(g.nodes - old(g.nodes))
      ensures Inv() && data.Valid(g) && dep.Valid(g) && data.View(g) == old(data.View(g))
      ensures ok <==> c < 0 || c > |base| || (c < |base| && op.Undoes(Snap(c)))
      ensures changed <==> ok && 0 <= c < |base| && data.View(g)[c] != Snap(c)
      ensures dep.View(g) == if ok && 0 <= c < |base|
                             then old(dep.View(g))[c := op.F(old(dep.View(g))[c], op.Inv(data.View(g)[c], Snap(c)))] else old(dep.View(g))
    {
      hide Inv, Contents, HandleOk, MemOk, Held, Snap, Operator.F, Operator.Inv, Operator.Undoes, Operator.Identity;
      ok, changed := true, false;
      if c < 0 || c > dep.sz {
        return;
      }
      var p := WorkerOf(c, data.sz);
      if p == HWCONC {
        ok := false;
        return;
      }
      var diff;
      ok, diff := Difference(c, p);
      if !ok {
        return;
      }
      op.InvIdentity(data.View(g)[c], Snap(c));
      if diff == op.Identity() {
        op.FIdentity(dep.View(g)[c]);
        return;
      }
      Apart();
      Combine(c, diff);
      Readable();
      changed := true;
    }

    /** The index is skipped, or there is a difference to multiply in. */
    ghost predicate Mendable(c: int)
      reads this`snaps, this`base
    {
      c < 0 || c > |base| || (c < |base| && op.Undoes(Snap(c)))
    }

    /** The differences of the indices in `done` are combined in, and the changed ones are marked. */
    ghost predicate Mended(was: seq<real>, cur: seq<real>, done: set<int>, now: seq<real>, marked: set<int>)
      reads this`snaps, this`base
    {
      && |was| == |cur| == |now| == |base|
      && (forall i | 0 <= i < |base| :: now[i] == if i in done then op.F(was[i], op.Inv(cur[i], Snap(i))) else was[i])
      && (forall t :: t in marked <==> t in done && 0 <= t < |base| && cur[t] != Snap(t))
    }

    /** One contended index. */
    method RepairNext(contended: set<int>, todo: set<int>, marked: set<int>, ghost was: seq<real>)
      returns (ok: bool, todo': set<int>, marked': set<int>)
      requires Inv() && AllUsed() && data.Valid(g) && data.sz == |base| && dep.Valid(g) && dep.sz == |base|
      requires {} < todo <= contended && Mended(was, data.View(g), contended - todo, dep.View(g), marked)
      modifies dep`root, g`nodes, dep.Mine(g)
      ensures old(g.nodes) <= g.nodes && fresh(g.nodes - old(g.nodes)) && todo' < todo
      ensures Inv() && data.Valid(g) && dep.Valid(g) && data.View(g) == old(data.View(g)) && dep.sz == |base|
      ensures exists c :: c in todo && todo' == todo - {c} && (ok <==> Mendable(c))
      ensures ok ==> Mended(was, data.View(g), contended - todo', dep.View(g), marked')
    {
      hide Inv, Contents, HandleOk, MemOk, Held, Snap, Operator.F, Operator.Inv, Mended;
      ghost var now := dep.View(g);
      var c, changed;
      c, todo' := Take(todo);
      ok, changed := RepairOne(c);
      Readable();
      MendedNext(was, data.View(g), contended - todo, now, marked, c);
      assert contended - todo' == contended - todo + {c};
      marked' := if changed then marked + {c} else marked;
    }

    /** `resolve_monotonic` for a dependency through the identity map, which adds no index of its own to the contended
        ones: their differences are combined in, and what changed is marked. */
    method Repair(contended: set<int>) returns (ok: bool, marked: set<int>)
      requires Inv() && AllUsed() && data.Valid(g) && data.sz == |base| && dep.Valid(g) && dep.sz == |base|
      modifies dep`root, g`nodes, dep.Mine(g)
      ensures old(g.nodes) <= g.nodes && fresh(g.nodes - old(g.nodes))
      ensures Inv() && data.Valid(g) && dep.Valid(g) && data.View(g) == old(data.View(g)) && dep.sz == |base|
      ensures ok <==> forall c | c in contended :: Mendable(c)
      ensures ok ==> Mended(old(dep.View(g)), data.View(g), contended, dep.View(g), marked)
    {
      hide Inv, Contents, HandleOk, MemOk, Held, Snap, Operator.F, Operator.Inv, Mended, Mendable;
      ghost var was := dep.View(g);
      var todo := contended;
      ok, marked := true, {};
      MendedNone(was, data.View(g));
      assert contended - todo == {};
      while todo != {}
        invariant todo <= contended && old(g.nodes) <= g.nodes && fresh(g.nodes - old(g.nodes))
        invariant Inv() && data.Valid(g) && dep.Valid(g) && data.View(g) == old(data.View(g)) && dep.sz == |base|
        invariant forall c | c in contended && c !in todo :: Mendable(c)
        invariant Mended(was, data.View(g), contended - todo, dep.View(g), marked)
        decreases todo
      {
        Readable();
        ok, todo, marked := RepairNext(contended, todo, marked, was);
        if !ok {
          return;
        }
      }
      assert contended - todo == contended;
    }

    lemma MendedNone(was: seq<real>, cur: seq<real>)
      requires |was| == |cur| == |base|
      ensures Mended(was, cur, {}, was, {})
    {
    }

    lemma MendedNext(was: seq<real>, cur: seq<real>, done: set<int>, now: seq<real>, marked: set<int>, c: int)
      requires Mended(was, cur, done, now, marked) && c !in done
      ensures |was| == |cur| == |now| == |base|
      ensures Mended(was, cur, done + {c},
                     if 0 <= c < |base| then now[c := op.F(now[c], op.Inv(cur[c], Snap(c)))] else now,
                     if 0 <= c < |base| && cur[c] != Snap(c) then marked + {c} else marked)
    {
    }

    /** `*it = f(*it, diff)` */
    method Combine(c: nat, diff: real)
      requires Inv() && c < dep.sz && dep.Valid(g) && data.Valid(g) && AllUsed()
      modifies dep`root, g`nodes, dep.Mine(g)
      ensures old(g.nodes) <= g.nodes && fresh(g.nodes - old(g.nodes))
      ensures Inv() && data.View(g) == old(data.View(g))
      ensures dep.View(g) == old(dep.View(g))[c := op.F(old(dep.View(g))[c], diff)]
    {
      hide Avoids, Contents, MemOk, HandleOk, Held, Copies, Splinters, OnlyOwn, Find, Operator.F;
      ghost var m := g.Mem();
      Readable();
      Apart();
      assert 0 in used;
      CombineAt(g, dep, op, c, diff, data.owner);
      AvoidsContents(m, g.Mem(), data.root, data.shift, data.sz, dep.owner);
      TablesKept(m, dep.owner);
    }

    /** New nodes disturb nobody. */
    lemma AllKept(m: Mem<real>)
      requires g.Valid() && MemOk(m) && Extends(m, g.Mem()) && data.owner.id < g.unique_id && dep.owner.id < g.unique_id
      requires HandleOk(m, data.root, data.shift, data.sz) && Avoids(m, data.root, dep.owner)
      requires HandleOk(m, dep.root, dep.shift, dep.sz) && Avoids(m, dep.root, data.owner)
      requires Copies(m, data.owner) && Splinters(m, data.owner)
      ensures data.Valid(g) && dep.Valid(g) && Avoids(g.Mem(), data.root, dep.owner) && Avoids(g.Mem(), dep.root, data.owner)
      ensures data.View(g) == Contents(m, data.root, data.shift, data.sz) && dep.View(g) == Contents(m, dep.root, dep.shift, dep.sz)
      ensures Copies(g.Mem(), data.owner) && Splinters(g.Mem(), data.owner)
    {
      hide Avoids, Contents, HandleOk, Extends, Copies, Splinters;
      ExtendsOnlyOwn(m, g.Mem(), data.owner);
      ExtendsOnlyOwn(m, g.Mem(), dep.owner);
      AvoidsContents(m, g.Mem(), data.root, data.shift, data.sz, dep.owner);
      AvoidsContents(m, g.Mem(), dep.root, dep.shift, dep.sz, data.owner);
      TablesKept(m, data.owner);
    }

    lemma CopyIs(p: nat)
      requires Inv() && p in used
      ensures p in snaps && |snaps[p]| == used[p].sz == |base| == data.sz
      ensures Held(g.Mem(), used[p], snaps[p], shift, data.owner, dep.owner) && used != map[] && used[p].owner.id < g.unique_id
    {
    }

    lemma Apart()
      requires Inv()
      ensures forall q | q in used :: used[q] != dep && used[q] != data
      ensures forall q | q in splts :: splts[q] != dep && splts[q] != data
    {
    }
  }

  /** A worker computes a share that `assign` does not accept. */
  ghost predicate Spoiled(e: Reduce.Step, n: nat, shift: nat) {
    e.Compute? && e.p < HWCONC && !ShareOk(e.p, n, shift)
  }

  ghost predicate SharesOk(n: nat, shift: nat) {
    forall p: nat | p < HWCONC :: ShareFits(p, n, shift)
  }

  /** A share that is copied in full. */
  predicate ShareFits(p: nat, n: nat, shift: nat) {
    Start(p, n) < End(p, n) && Faithful(Start(p, n), End(p, n), shift)
  }

  lemma FitsReaches(p: nat, n: nat, shift: nat)
    requires ShareFits(p, n, shift) && 0 < n <= Span(shift) && Levels(shift, 0)
    ensures Reached(p, n, shift) == End(p, n) && ShareOk(p, n, shift)
  {
    hide Start, End;
    FaithfulReaches(Start(p, n), End(p, n), shift);
  }

  /** A single worker on a full vector: with one leaf, its share is never copied; with two levels, completely; with
      more, `assign` stops after W * W elements. */
  lemma OneWorkerFull(shift: nat)
    requires HWCONC == 1 && Levels(shift, 0)
    ensures ShareOk(0, Span(shift), shift) <==> shift > 0
    ensures shift > 0 ==> Reached(0, Span(shift), shift) == W * W
    ensures ShareFits(0, Span(shift), shift) <==> shift == BP_BITS
  {
    hide Faithful, Defined, Reach;
    Shape(0, Span(shift));
    FullCopyStops(shift);
  }

  /** Exactly when every share is copied in full: no worker is idle, and a single worker does not meet the range
      that `assign` gets wrong. */
  lemma SharesWhen(n: nat, shift: nat)
    requires 0 < n <= Span(shift) && Levels(shift, 0)
    ensures SharesOk(n, shift) <==> (HWCONC - 1) * Chunk(n) < n && (HWCONC >= 2 || Faithful(0, n, shift))
  {
    hide Faithful, Chunk, Span, Levels;
    AllNonempty(n);
    if HWCONC == 1 {
      Shape(0, n);
      assert ShareFits(0, n, shift) <==> (HWCONC - 1) * Chunk(n) < n && Faithful(0, n, shift);
    } else if (HWCONC - 1) * Chunk(n) < n {
      forall p: nat | p < HWCONC
        ensures ShareFits(p, n, shift)
      {
        ManyWorkers(p, n, shift);
      }
    } else {
      var p: nat :| p < HWCONC && !(Start(p, n) < End(p, n));
      assert !ShareFits(p, n, shift);
    }
  }

  lemma ManyWorkers(p: nat, n: nat, shift: nat)
    requires 2 <= HWCONC && p < HWCONC && 0 < n <= Span(shift) && Levels(shift, 0) && (HWCONC - 1) * Chunk(n) < n
    ensures Faithful(Start(p, n), End(p, n), shift)
  {
    hide Span, Chunk, Pow2, Levels, Start, End;
    BlockZero();
    WidthAtLeastTwo();
    SpanIsWidthTimes(shift);
    MulMono(2, W, Pow2(shift));
    ShareEnds(p, n);
  }

  lemma ShareEnds(p: nat, n: nat)
    requires 2 <= HWCONC && p < HWCONC && 0 < n && (HWCONC - 1) * Chunk(n) < n
    ensures 0 <= Start(p, n) && End(p, n) - Start(p, n) < n
    ensures End(p, n) == n ==> 2 * Start(p, n) >= n
  {
    hide Chunk;
    var c: nat, last: nat := Chunk(n), HWCONC - 1;
    ChunkIs(n);
    MulMono(1, last, c);
    var most, mine := last * c, p * c;
    assert c * HWCONC == most + c && c * p == mine && c * (p + 1) == mine + c;
    if p < last {
      MulMono(p + 1, last, c);
      assert (p + 1) * c == mine + c;
    }
  }

  /** The snapshots, given the source before the step. */
  ghost function SnapOne(snaps: map<nat, seq<real>>, d: seq<real>, e: Reduce.Step): map<nat, seq<real>> {
    if e.Compute? && e.p < HWCONC && e.p !in snaps then snaps[e.p := d] else snaps
  }

  /** What every detach of a run found. */
  ghost function Snapped(d: seq<real>, steps: seq<Reduce.Step>): map<nat, seq<real>> {
    if steps == [] then map[]
    else
      var before := steps[..|steps| - 1];
      SnapOne(Snapped(d, before), Reduce.Written(d, before), steps[|steps| - 1])
  }

  lemma AttachAdvances(out: set<nat>, joined: set<nat>, p: nat)
    ensures Advance(Progress(out, joined), Attach(p)) == if p in out then Progress(out - {p}, joined + {p}) else Progress(out, joined)
  {
  }

  lemma KeyMoves(all: set<nat>, out: set<nat>, joined: set<nat>, p: nat)
    requires all == out + joined && p in out && out !! joined
    ensures all == out - {p} + (joined + {p})
  {
  }

  /** Nothing is written before the first detach. */
  ghost predicate Quiet(d: seq<real>, steps: seq<Reduce.Step>) {
    steps == [] ||
    (var before := steps[..|steps| - 1];
     Quiet(d, before) && (steps[|steps| - 1].SourceSet? ==> Snapped(d, before) != map[]))
  }

  lemma {:induction false} SnappedLength(d: seq<real>, steps: seq<Reduce.Step>)
    ensures |Reduce.Written(d, steps)| == |d|
    ensures forall p | p in Snapped(d, steps) :: |Snapped(d, steps)[p]| == |d|
  {
    if steps != [] { SnappedLength(d, steps[..|steps| - 1]); }
  }

  /** A worker's snapshot is the source as the steps before its first detach left it. */
  lemma {:induction false} SnapIs(d: seq<real>, steps: seq<Reduce.Step>, p: nat, n: nat)
    requires p < HWCONC && n < |steps| && steps[n] == Compute(p) && forall j | 0 <= j < n :: steps[j] != Compute(p)
    ensures p in Snapped(d, steps) && Snapped(d, steps)[p] == Reduce.Written(d, steps[..n])
  {
    var before := steps[..|steps| - 1];
    if n < |before| {
      assert before[n] == steps[n];
      SnapIs(d, before, p, n);
      assert before[..n] == steps[..n];
    } else {
      assert before == steps[..n];
      NotSnapped(d, before, p);
    }
  }

  lemma {:induction false} NotSnapped(d: seq<real>, steps: seq<Reduce.Step>, p: nat)
    requires forall k | 0 <= k < |steps| :: steps[k] != Compute(p)
    ensures p !in Snapped(d, steps)
  {
    if steps != [] {
      var before := steps[..|steps| - 1];
      assert forall k | 0 <= k < |before| :: before[k] == steps[k];
      NotSnapped(d, before, p);
    }
  }

  /** What never gets written is in every snapshot as it is at the end. */
  lemma {:induction false} Untouched(d: seq<real>, steps: seq<Reduce.Step>, i: nat)
    requires i < |d| && forall k | 0 <= k < |steps| && steps[k].SourceSet? :: steps[k].i != i
    ensures |Reduce.Written(d, steps)| == |d| && Reduce.Written(d, steps)[i] == d[i]
    ensures forall p | p in Snapped(d, steps) :: |Snapped(d, steps)[p]| == |d| && Snapped(d, steps)[p][i] == d[i]
  {
    if steps != [] {
      var before := steps[..|steps| - 1];
      assert forall k | 0 <= k < |before| :: before[k] == steps[k];
      Untouched(d, before, i);
    }
  }

  lemma HandleFresh(m: Mem<real>, r: Node<real>, shift: nat, sz: nat, w: Owner)
    requires MemOk(m) && HandleOk(m, r, shift, sz) && forall n | n in m :: w.NodeCopy(n.id)
    ensures Avoids(m, r, w)
  {
    NobodyOwns(m, r, w);
  }

  lemma HeldNow(m: Mem<real>, v: Vec<real>, shift: nat, w2: Owner, w': Owner)
    requires MemOk(m) && HandleOk(m, v.root, v.shift, v.sz) && v.shift == shift
    requires Avoids(m, v.root, w2) && forall n | n in m :: w'.NodeCopy(n.id)
    ensures Held(m, v, Contents(m, v.root, v.shift, v.sz), shift, w', w2)
  {
    NobodyOwns(m, v.root, w');
  }

  /** Element i of the result: the source as worker i / chunk found it, multiplied, as far as its share was copied. */
  ghost predicate FromSnaps(r: seq<real>, base: seq<real>, d: seq<real>, steps: seq<Reduce.Step>, val: real, shift: nat) {
    && |r| == |d| == |base|
    && forall i | 0 <= i < |d| ::
         var p := WorkerAt(i, |d|);
         && p in Snapped(d, steps) && |Snapped(d, steps)[p]| == |d|
         && r[i] == if i < Reached(p, |d|, shift) then Times(Snapped(d, steps)[p][i], val) else base[i]
  }

  lemma MergedAll(base: seq<real>, d: seq<real>, steps: seq<Reduce.Step>, joined: set<nat>, val: real, shift: nat)
    requires |base| == |d| && (forall p: nat | p < HWCONC :: p in joined) && joined <= Snapped(d, steps).Keys
    ensures FromSnaps(Merged(base, Snapped(d, steps), joined, val, shift), base, d, steps, val, shift)
  {
    hide Reached;
    SnappedLength(d, steps);
    forall i | 0 <= i < |d|
      ensures WorkerAt(i, |d|) in joined
    {
      InShare(i, |d|, 0);
    }
  }

  /** `foreach`, its tasks run in any order among themselves and among writes to the source: once every worker has
      reattached, element i is the source as the worker of i found it, multiplied; the order of the merges is not seen.
      Behind the point where `assign` stops, the dependent is as it was before. */
  method ForeachRun(g: Glob<real>, v: Vec<real>, op: Operator, val: real, steps: seq<Reduce.Step>) returns (ok: bool, m: Mapping)
    requires v.Valid(g) && v.owner.kind == Tr && v.sz > 0
    modifies v`root, g`unique_id, g`nodes, v.Mine(g)
    ensures ok <==> forall e | e in steps :: !Spoiled(e, old(v.sz), old(v.shift))
    ensures ok ==> m.Inv() && m.data.Valid(g) && m.data.View(g) == Reduce.Written(old(v.View(g)), steps) && m.dep.Valid(g)
    ensures ok ==> m.g == g && m.op == op && m.snaps == Snapped(old(v.View(g)), steps) && |m.base| == old(v.sz)
    ensures old(g.nodes) <= g.nodes && fresh(m) && fresh(m.dep) && fresh(m.Writable() - old(v.Mine(g)))
    ensures ok ==> (AllAttached(steps) <==> forall p: nat | p < HWCONC :: p in m.joined)
    ensures ok && AllAttached(steps) ==> FromSnaps(m.dep.View(g), m.base, old(v.View(g)), steps, val, old(v.shift))
    ensures ok && Quiet(old(v.View(g)), steps) ==> m.base == old(v.View(g))
  {
    hide Mapping.Source, Mapping.Sink, Mapping.Copies, Mapping.Splinters, Mapping.Known, Contents, HandleOk, MemOk;
    hide Reduce.Written, Advanced, Snapped, FromSnaps, Spoiled, Quiet;
    ghost var d := v.View(g);
    m := new Mapping(g, v, op, val);
    m.Readable();
    assert m.splts.Keys == {} && m.snaps.Keys == {};
    assert Merged(m.base, m.snaps, m.joined, val, m.shift) == m.base;
    ok := m.Run(steps);
    m.Readable();
    if AllAttached(steps) && ok { MergedAll(m.base, d, steps, m.joined, val, m.shift); }
  }

  /** The snapshot value that element i of the result comes from. */
  ghost function SnapAt(d: seq<real>, steps: seq<Reduce.Step>, i: nat): real {
    var p := WorkerAt(i, |d|);
    if p in Snapped(d, steps) && i < |Snapped(d, steps)[p]| then Snapped(d, steps)[p][i] else 0.0
  }

  lemma TimesOver(s: real, c: real, val: real)
    requires s != 0.0
    ensures Times(Times(s, val), Over(c, s)) == Times(c, val)
  {
    var q := Over(c, s);
    assert q * s == c;
    assert s * val * q == q * s * val;
  }

  /** The loop multiplies, but the resolution uses the operator that was passed: what plus adds to a changed element
      is what was missing only when the loop multiplied by one. */
  lemma PlusRepair(s: real, c: real, val: real)
    ensures Times(s, val) + (c - s) == Times(c, val) <==> c == s || val == 1.0
  {
    var d := c - s;
    assert c * val == s * val + d * val;
    if d != 0.0 && d * val == d {
      assert val == d * val / d == 1.0;
    }
  }

  lemma Unrepaired(s: real, c: real, val: real)
    ensures Times(s, val) == Times(c, val) <==> c == s || val == 0.0
  {
    var d := c - s;
    assert c * val == s * val + d * val;
    if d != 0.0 && d * val == 0.0 {
      assert val == d * val / d == 0.0;
    }
  }

  /** An element that was found as `s`, and is `c` in the end, comes out right: it did not change, or it was repaired
      with the operator of the loop, or the factor hides the change. */
  predicate Fine(op: Operator, contended: bool, s: real, c: real, val: real) {
    c == s || if contended then op.Mult? || val == 1.0 else val == 0.0
  }

  /** What the resolution makes of an element. */
  function Patched(op: Operator, contended: bool, was: real, s: real, c: real): real {
    if contended then op.F(was, op.Inv(c, s)) else was
  }

  lemma PatchedFine(op: Operator, contended: bool, s: real, c: real, val: real)
    requires contended ==> op.Undoes(s)
    ensures Patched(op, contended, Times(s, val), s, c) == Times(c, val) <==> Fine(op, contended, s, c, val)
  {
    if !contended {
      Unrepaired(s, c, val);
    } else if op.Mult? {
      TimesOver(s, c, val);
    } else {
      PlusRepair(s, c, val);
    }
  }

  /** Every index that the run writes is contended. */
  ghost predicate Covered(d: seq<real>, steps: seq<Reduce.Step>, contended: set<int>) {
    forall k | 0 <= k < |steps| && steps[k].SourceSet? && steps[k].i < |d| :: steps[k].i in contended
  }

  /** The contended indices can be repaired: none is the one behind the end, and none that is to be divided by is zero. */
  ghost predicate NoZeros(op: Operator, d: seq<real>, steps: seq<Reduce.Step>, contended: set<int>) {
    forall c | c in contended :: c < 0 || c > |d| || (c < |d| && op.Undoes(SnapAt(d, steps, c)))
  }

  /** What a run and its resolution leave. */
  ghost predicate AfterRepair(r: seq<real>, was: seq<real>, op: Operator, d: seq<real>, steps: seq<Reduce.Step>, contended: set<int>) {
    && |r| == |was| == |d| == |Reduce.Written(d, steps)|
    && forall i: nat | i < |d| :: r[i] == Patched(op, i in contended, was[i], SnapAt(d, steps, i), Reduce.Written(d, steps)[i])
  }

  lemma UncontendedSame(d: seq<real>, steps: seq<Reduce.Step>, contended: set<int>, i: nat)
    requires i < |d| && Covered(d, steps, contended) && i !in contended && WorkerAt(i, |d|) in Snapped(d, steps)
    ensures |Reduce.Written(d, steps)| == |d| && SnapAt(d, steps, i) == Reduce.Written(d, steps)[i]
  {
    Untouched(d, steps, i);
  }

  /** Every element comes out right. */
  ghost predicate AllFine(op: Operator, d: seq<real>, steps: seq<Reduce.Step>, contended: set<int>, val: real) {
    && |Reduce.Written(d, steps)| == |d|
    && forall i: nat | i < |d| :: Fine(op, i in contended, SnapAt(d, steps, i), Reduce.Written(d, steps)[i], val)
  }

  /** Every element is its snapshot, multiplied, and, if it is contended, combined with what changed since. */
  ghost predicate Final(r: seq<real>, op: Operator, d: seq<real>, steps: seq<Reduce.Step>, contended: set<int>, val: real) {
    && |r| == |d| == |Reduce.Written(d, steps)|
    && forall i: nat | i < |d| ::
         r[i] == Patched(op, i in contended, Times(SnapAt(d, steps, i), val), SnapAt(d, steps, i), Reduce.Written(d, steps)[i])
  }

  lemma RightAt(r: seq<real>, was: seq<real>, base: seq<real>, op: Operator, d: seq<real>, steps: seq<Reduce.Step>,
                contended: set<int>, val: real, shift: nat, i: nat)
    requires FromSnaps(was, base, d, steps, val, shift) && AfterRepair(r, was, op, d, steps, contended) && NoZeros(op, d, steps, contended)
    requires i < |d| && SharesOk(|d|, shift) && |d| <= Span(shift) && Levels(shift, 0)
    ensures r[i] == Patched(op, i in contended, Times(SnapAt(d, steps, i), val), SnapAt(d, steps, i), Reduce.Written(d, steps)[i])
    ensures r[i] == Times(Reduce.Written(d, steps)[i], val) <==>
            Fine(op, i in contended, SnapAt(d, steps, i), Reduce.Written(d, steps)[i], val)
  {
    hide Times, Fine, Patched, Reduce.Written, Snapped, Reached, ShareFits, Span, Levels, Operator.Undoes, WorkerAt, Start, End;
    var p := WorkerAt(i, |d|);
    InShare(i, |d|, 0);
    InShare(i, |d|, p);
    assert ShareFits(p, |d|, shift);
    FitsReaches(p, |d|, shift);
    assert was[i] == Times(SnapAt(d, steps, i), val);
    PatchedFine(op, i in contended, SnapAt(d, steps, i), Reduce.Written(d, steps)[i], val);
  }

  /** Exactly when the whole result is the map of the final source. */
  lemma MapExact(r: seq<real>, was: seq<real>, base: seq<real>, op: Operator, d: seq<real>, steps: seq<Reduce.Step>,
                 contended: set<int>, val: real, shift: nat)
    requires FromSnaps(was, base, d, steps, val, shift) && AfterRepair(r, was, op, d, steps, contended) && NoZeros(op, d, steps, contended)
    requires SharesOk(|d|, shift) && 0 < |d| <= Span(shift) && Levels(shift, 0)
    ensures Final(r, op, d, steps, contended, val)
    ensures r == Scaling(Reduce.Written(d, steps), 0, |d|, val) <==> AllFine(op, d, steps, contended, val)
  {
    hide Times, Fine, Patched, Reduce.Written, Snapped, Reached, SharesOk, FromSnaps, Span, Levels, NoZeros, SnapAt;
    var want := Scaling(Reduce.Written(d, steps), 0, |d|, val);
    forall i: nat | i < |d|
      ensures r[i] == Patched(op, i in contended, Times(SnapAt(d, steps, i), val), SnapAt(d, steps, i), Reduce.Written(d, steps)[i])
      ensures r[i] == want[i] <==> Fine(op, i in contended, SnapAt(d, steps, i), Reduce.Written(d, steps)[i], val)
    {
      RightAt(r, was, base, op, d, steps, contended, val, shift, i);
    }
    if AllFine(op, d, steps, contended, val) {
      assert r == want;
    } else {
      var i: nat :| i < |d| && !Fine(op, i in contended, SnapAt(d, steps, i), Reduce.Written(d, steps)[i], val);
      assert r[i] != want[i];
    }
  }

  /** With times, a contended set that covers the writes is enough. */
  lemma CoveredFine(d: seq<real>, steps: seq<Reduce.Step>, contended: set<int>, val: real)
    requires Covered(d, steps, contended) && forall p: nat | p < HWCONC :: p in Snapped(d, steps)
    ensures AllFine(Mult, d, steps, contended, val)
  {
    hide Reduce.Written, Snapped, SnapAt;
    SnappedLength(d, steps);
    forall i: nat | i < |d|
      ensures Fine(Mult, i in contended, SnapAt(d, steps, i), Reduce.Written(d, steps)[i], val)
    {
      InShare(i, |d|, 0);
      if i !in contended { UncontendedSame(d, steps, contended, i); }
    }
  }

  /** A `foreach` and its resolution, overlapped by writes to the source. If all shares are copied in full, the result
      is the map of the final source, as if the loop had been run at the end and on its own, exactly when every element
      is fine; with times it is enough that the contended set covers the writes. */
  method ForeachThenResolve(g: Glob<real>, v: Vec<real>, op: Operator, val: real, steps: seq<Reduce.Step>, contended: set<int>)
    returns (ok: bool, done: bool, r: Vec<real>)
    requires v.Valid(g) && v.owner.kind == Tr && v.sz > 0
    modifies v`root, g`unique_id, g`nodes, v.Mine(g)
    ensures ok <==> (forall e | e in steps :: !Spoiled(e, old(v.sz), old(v.shift)))
                    && (AllAttached(steps) ==> NoZeros(op, old(v.View(g)), steps, contended))
    ensures ok ==> (done <==> AllAttached(steps))
    ensures var d := old(v.View(g));
            ok && done && SharesOk(old(v.sz), old(v.shift)) ==>
              && r.Valid(g) && Final(r.View(g), op, d, steps, contended, val)
              && (r.View(g) == Scaling(Reduce.Written(d, steps), 0, |d|, val) <==> AllFine(op, d, steps, contended, val))
              && (op.Mult? && Covered(d, steps, contended) ==> r.View(g) == Scaling(Reduce.Written(d, steps), 0, |d|, val))
  {
    hide Mapping.Inv, Contents, HandleOk, MemOk, Spoiled, Times, Over, Reduce.Written, Advanced, Snapped, FromSnaps, Covered, Mapping.Snap, Scaling, Final;
    ghost var d, shift := v.View(g), v.shift;
    ghost var levels := LevelsOf(g.Mem(), v.root, v.shift, v.sz);
    var m;
    ok, m := ForeachRun(g, v, op, val, steps);
    r, done := m.dep, false;
    if !ok || !(forall p | 0 <= p < HWCONC :: p in m.joined) {
      return;
    }
    done := true;
    m.Readable();
    ghost var was := m.dep.View(g);
    var marked;
    ok, marked := m.Repair(contended);
    SnapsAgree(m, d, steps);
    MendableIs(m, d, steps, contended);
    if ok && SharesOk(|d|, shift) {
      Resolved(m, g, d, steps, contended, was, marked);
      MapExact(m.dep.View(g), was, m.base, op, d, steps, contended, val, shift);
      if op.Mult? && Covered(d, steps, contended) { CoveredFine(d, steps, contended, val); }
    }
  }

  lemma LevelsOf(m: Mem<real>, root: Node<real>, shift: nat, sz: nat) returns (ok: bool)
    requires MemOk(m) && HandleOk(m, root, shift, sz)
    ensures ok && Levels(shift, 0) && sz <= Span(shift)
  {
    ok := true;
  }

  lemma MendableIs(m: Mapping, d: seq<real>, steps: seq<Reduce.Step>, contended: set<int>)
    requires |m.base| == |d| && forall i: nat :: m.Snap(i) == SnapAt(d, steps, i)
    ensures (forall c | c in contended :: m.Mendable(c)) <==> NoZeros(m.op, d, steps, contended)
  {
  }

  lemma Resolved(m: Mapping, g: Glob<real>, d: seq<real>, steps: seq<Reduce.Step>, contended: set<int>, was: seq<real>, marked: set<int>)
    requires m.dep.Valid(g) && m.data.Valid(g) && |m.base| == |d| && m.data.View(g) == Reduce.Written(d, steps)
    requires m.Mended(was, m.data.View(g), contended, m.dep.View(g), marked) && forall i: nat :: m.Snap(i) == SnapAt(d, steps, i)
    ensures AfterRepair(m.dep.View(g), was, m.op, d, steps, contended)
  {
    hide Reduce.Written, SnapAt, Contents, HandleOk, Mapping.Snap;
  }

  lemma SnapsAgree(m: Mapping, d: seq<real>, steps: seq<Reduce.Step>)
    requires m.snaps == Snapped(d, steps) && |m.base| == |d|
    ensures forall i: nat :: m.Snap(i) == SnapAt(d, steps, i)
  {
  }

  /** One element, one worker, and plus: the element is changed from 1 to 2 after the worker has read it. Multiplying
      by 3 and repairing by plus give 4 instead of 6. */
  method PlusRun() returns (ok: bool, done: bool, x: real)
    requires HWCONC == 1
    ensures ok && done && x == 4.0
    ensures Scaling(Reduce.Written([1.0], [Compute(0), SourceSet(0, 2.0), Attach(0)]), 0, 1, 3.0) == [6.0]
  {
    hide Reduce.Written, Snapped, SnapAt, SharesOk, Spoiled, NoZeros, Scaling, Final, AllFine, Covered, AllAttached, HandleOk, MemOk, Contents;
    var g := new Glob(0.0);
    var v := OneOne(g);
    var steps := [Compute(0), SourceSet(0, 2.0), Attach(0)];
    PlusSteps(steps);
    OneShare(v.shift);
    NoneSpoiled(steps, v.shift);
    var r;
    ok, done, r := ForeachThenResolve(g, v, Plus, 3.0, steps, {0});
    PlusValue(r.View(g), steps);
    x := r.Get(g, 0);
  }

  method OneOne(g: Glob<real>) returns (v: Vec<real>)
    requires g.Valid()
    modifies g
    ensures fresh(v) && v.Valid(g) && v.owner.kind == Tr && v.sz == 1 && v.View(g) == [1.0] && fresh(v.Mine(g))
  {
    var id := g.GetUniqueId();
    v := new Vec.Empty(g, Owner(Tr, id));
    v.MutPushBack(g, 1.0);
  }

  lemma NoneSpoiled(steps: seq<Reduce.Step>, shift: nat)
    requires !Spoiled(Compute(0), 1, shift) && steps == [Compute(0), SourceSet(0, 2.0), Attach(0)]
    ensures forall e | e in steps :: !Spoiled(e, 1, shift)
  {
  }

  lemma PlusValue(r: seq<real>, steps: seq<Reduce.Step>)
    requires Final(r, Plus, [1.0], steps, {0}, 3.0)
    requires Reduce.Written([1.0], steps) == [2.0] && SnapAt([1.0], steps, 0) == 1.0
    ensures |r| == 1 && r[0] == 4.0
    ensures Scaling(Reduce.Written([1.0], steps), 0, 1, 3.0) == [6.0]
  {
    hide Reduce.Written, SnapAt;
  }

  lemma OneShare(shift: nat)
    requires HWCONC == 1
    ensures SharesOk(1, shift) && !Spoiled(Compute(0), 1, shift)
  {
    assert Chunk(1) == 1;
    assert Start(0, 1) == 0 && End(0, 1) == 1;
    WidthAtLeastTwo();
  }

  lemma PlusSteps(steps: seq<Reduce.Step>)
    requires HWCONC == 1 && steps == [Compute(0), SourceSet(0, 2.0), Attach(0)]
    ensures Reduce.Written([1.0], steps) == [2.0] && AllAttached(steps) && SnapAt([1.0], steps, 0) == 1.0
    ensures NoZeros(Plus, [1.0], steps, {0})
  {
    var d := [1.0];
    assert Chunk(1) == 1;
    AfterStep(Progress({}, {}), steps, 0);
    AfterStep(Progress({}, {}), steps, 1);
    AfterStep(Progress({}, {}), steps, 2);
    assert steps[..0] == [] && steps[..1] == [Compute(0)] && steps[..3] == steps;
    assert steps[..2][..1] == steps[..1] && steps[..3][..2] == steps[..2];
    assert Reduce.Written(d, steps[..1]) == d && Reduce.Written(d, steps[..2]) == [2.0];
    SnapIs(d, steps, 0, 0);
  }
}
