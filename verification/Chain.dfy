/** The pipeline of stencils on the tries: every run of the transition system, with its vectors, snapshots and splinters
    as handles over shared nodes. */
module Chain {
  import opened Radix
  import opened Nodes
  import opened Heap
  import opened Vector
  import opened Isolation
  import opened Iterators
  import opened Assign
  import opened Loops
  import opened Partition
  import opened Stencil
  import opened StencilTasks
  import Reduce
  import Resolution
  import Pipeline
  import Foreach

  // ---- a worker's task ----

  /** `target = fs[j](target, *(trck + ioffs[j]))` for every j, with the iterators on the snapshot */
  method TermsAt(g: Glob<real>, used: Vec<real>, offs: seq<int>, coefs: seq<real>, t: int, start: real) returns (target: real)
    requires used.Valid(g) && |offs| == |coefs| && Inside(offs, used.sz, t)
    ensures target == start + Linear(offs, coefs, used.View(g), t, |offs|)
  {
    hide HandleOk, Contents;
    target := start;
    for j := 0 to |offs|
      invariant target == start + Linear(offs, coefs, used.View(g), t, j)
    {
      var pos := t + offs[j];
      var x := Reduce.ReadAt(g, used, pos);
      target := target + coefs[j] * x;
    }
  }

  /** The loop of `stencil_splt` under way: the splinter, and the snapshot that its writer cannot reach. */
  ghost predicate Sweeping(g: Glob<real>, splt: Vec<real>, used: Vec<real>, s: seq<real>)
    reads g, g.nodes, used, splt
  {
    && used.Valid(g) && used.View(g) == s && Avoids(g.Mem(), used.root, splt.owner) && splt != used
  }

  /** One element, and on to the next. */
  method SweepNext(g: Glob<real>, splt: Vec<real>, used: Vec<real>, it: MutIterator<real>, end: Stop<real>,
                   offs: seq<int>, coefs: seq<real>, t: nat, ghost s: seq<real>, ghost a: nat)
    requires |offs| == |coefs| && Sweeping(g, splt, used, s) && g.Valid()
    requires Running(g, splt, it, end, s, Swept(s, offs, coefs, a, end.pos), a, t, t) && t < end.pos && StaysAt(offs, |s|, t)
    modifies it`i, it`leaf, it`cur, g`nodes, splt.Mine(g)
    ensures g.Valid() && Running(g, splt, it, end, s, Swept(s, offs, coefs, a, end.pos), a, t + 1, t + 1) && Grew(g, splt.owner.id)
    ensures Unseen(old(g.Mem()), g.Mem(), splt.root, splt.root, splt.owner) && Sweeping(g, splt, used, s)
  {
    hide Running, Follows, KeepsShape, Linear, Inside, Contents, HandleOk, Avoids, MemOk;
    ghost var m, want := g.Mem(), Swept(s, offs, coefs, a, end.pos);
    var x := Current(g, splt, it, end, s, want, a, t);
    Rising(g, splt, it, end, s, want, a, t);
    Matching(g, used);
    var target := TermsAt(g, used, offs, coefs, t, x);
    WriteNext(g, splt, it, end, target, s, want, a, t);
    AvoidsContents(m, g.Mem(), used.root, used.shift, used.sz, splt.owner);
  }

  lemma Rising(g: Glob<real>, v: Vec<real>, it: MutIterator<real>, end: Stop<real>, s: seq<real>, want: seq<real>, a: nat, c: nat)
    requires Running(g, v, it, end, s, want, a, c, c)
    ensures a <= c && |want| == |s|
  {
  }

  lemma Matching(g: Glob<real>, v: Vec<real>)
    requires v.Valid(g)
    ensures |v.View(g)| == v.sz
  {
  }

  /** `for (it = begin() + ap; it != begin() + bp; ++it, ++trck)` */
  method SweepLoop(g: Glob<real>, splt: Vec<real>, used: Vec<real>, it: MutIterator<real>, end: Stop<real>,
                   offs: seq<int>, coefs: seq<real>, ap: nat, ghost s: seq<real>)
    requires |offs| == |coefs| && Sweeping(g, splt, used, s) && g.Valid() && Stays(offs, |s|, ap, end.pos)
    requires Running(g, splt, it, end, s, Swept(s, offs, coefs, ap, end.pos), ap, ap, ap)
    modifies it`i, it`leaf, it`cur, g`nodes, splt.Mine(g)
    ensures g.Valid() && Running(g, splt, it, end, s, Swept(s, offs, coefs, ap, end.pos), ap, end.pos, end.pos) && Grew(g, splt.owner.id)
    ensures Unseen(old(g.Mem()), g.Mem(), splt.root, splt.root, splt.owner) && Sweeping(g, splt, used, s)
  {
    hide Running, OnlyOwn, KeepsShape, Follows, Sweeping, Swept, StaysAt;
    ghost var m0, want := g.Mem(), Swept(s, offs, coefs, ap, end.pos);
    var t := ap;
    RunningStart(g, splt, it, end, s, want, ap);
    RunningEnd(g, splt, it, end, s, want, ap, t);
    while it.leaf != end.leaf || it.cur != end.cur
      invariant g.Valid() && ap <= t <= end.pos && Running(g, splt, it, end, s, want, ap, t, t) && Grew(g, splt.owner.id)
      invariant it.leaf != end.leaf || it.cur != end.cur <==> t != end.pos
      invariant Unseen(m0, g.Mem(), splt.root, splt.root, splt.owner) && Sweeping(g, splt, used, s)
      decreases end.pos - t
    {
      ghost var m := g.Mem();
      SweepNext(g, splt, used, it, end, offs, coefs, t, s, ap);
      UnseenTrans(m0, m, g.Mem(), splt.root, splt.root, splt.owner);
      t := t + 1;
      RunningEnd(g, splt, it, end, s, want, ap, t);
    }
  }

  lemma SweptPartly(s: seq<real>, offs: seq<int>, coefs: seq<real>, ap: nat, bp: nat)
    requires |offs| == |coefs| && bp <= |s|
    ensures Partly(s, Swept(s, offs, coefs, ap, bp), ap, bp) == Swept(s, offs, coefs, ap, bp)
  {
  }

  /** `stencil_splt` on a splinter that still shows its snapshot. */
  method SweepRange(g: Glob<real>, splt: Vec<real>, used: Vec<real>, offs: seq<int>, coefs: seq<real>, ap: nat, bp: nat)
    requires splt.Valid(g) && splt.owner.kind == Tr && splt.sz > 0 && Sweeping(g, splt, used, splt.View(g))
    requires |offs| == |coefs| && Stays(offs, splt.sz, ap, bp) && bp <= splt.sz
    modifies splt`root, g`nodes, splt.Mine(g)
    ensures splt.Valid(g) && splt.View(g) == Swept(old(splt.View(g)), offs, coefs, ap, bp) && Grew(g, splt.owner.id)
    ensures OnlyOwn(old(g.Mem()), g.Mem(), splt.owner) && Follows(old(g.Mem()), g.Mem(), old(splt.root), splt.root, splt.owner)
  {
    hide Running, OnlyOwn, KeepsShape, Follows, Swept, Avoids, Contents, HandleOk, MemOk, StaysAt;
    Matching(g, splt);
    ghost var m0, s := g.Mem(), splt.View(g);
    ghost var want := Swept(s, offs, coefs, ap, bp);
    var it, end := LineUpLoop(g, splt, ap, bp, want);
    ghost var m1 := g.Mem();
    AvoidsContents(m0, m1, used.root, used.shift, used.sz, splt.owner);
    SweepLoop(g, splt, used, it, end, offs, coefs, ap, s);
    UnseenTrans(m0, m1, g.Mem(), old(splt.root), splt.root, splt.owner);
    RunningDone(g, splt, it, end, s, want, ap, bp);
    SweptPartly(s, offs, coefs, ap, bp);
  }

  // ---- handles that keep what they show ----

  /** A handle with the vector it belongs to: 1 .. N for the vectors that are written, 0 for all others. */
  datatype Item = Item(root: Node<real>, view: seq<real>, mine: nat)

  /** The handle shows its contents, and no writer but its own vector's can reach it. */
  ghost predicate ItemOk(m: Mem<real>, x: Item, shift: nat, ws: seq<Owner>)
    requires MemOk(m)
  {
    && HandleOk(m, x.root, shift, |x.view|) && Contents(m, x.root, shift, |x.view|) == x.view
    && forall k | 1 <= k < |ws| && k != x.mine :: Avoids(m, x.root, ws[k])
  }

  /** A write through vector k leaves the other handles as they are. */
  lemma ItemKept(m: Mem<real>, m': Mem<real>, x: Item, shift: nat, ws: seq<Owner>, k: nat)
    requires MemOk(m) && MemOk(m') && ItemOk(m, x, shift, ws) && 1 <= k < |ws| && k != x.mine && OnlyOwn(m, m', ws[k])
    ensures ItemOk(m', x, shift, ws)
  {
    hide Contents, HandleOk, Avoids, OnlyOwn, MemOk;
    RootIn(m, x.root, shift, |x.view|);
    assert Avoids(m, x.root, ws[k]);
    AvoidsContents(m, m', x.root, shift, |x.view|, ws[k]);
    forall j | 1 <= j < |ws| && j != x.mine
      ensures Avoids(m', x.root, ws[j])
    {
      AvoidsOther(m, m', x.root, ws[k], ws[j]);
    }
  }

  lemma RootIn(m: Mem<real>, root: Node<real>, shift: nat, sz: nat)
    requires MemOk(m) && HandleOk(m, root, shift, sz)
    ensures root in m
  {
  }

  /** New nodes disturb nobody. */
  lemma ItemExtends(m: Mem<real>, m': Mem<real>, x: Item, shift: nat, ws: seq<Owner>)
    requires MemOk(m) && MemOk(m') && ItemOk(m, x, shift, ws) && Reduce.Extends(m, m')
    ensures ItemOk(m', x, shift, ws)
  {
    hide Contents, HandleOk, Avoids, OnlyOwn, MemOk, Find;
    RootIn(m, x.root, shift, |x.view|);
    var nobody := Owner(Ps, 0);
    Reduce.ExtendsOnlyOwn(m, m', nobody);
    PersistentAvoids(m, x.root);
    AvoidsContents(m, m', x.root, shift, |x.view|, nobody);
    forall j | 1 <= j < |ws| && j != x.mine
      ensures Avoids(m', x.root, ws[j])
    {
      AvoidsOther(m, m', x.root, nobody, ws[j]);
    }
  }

  lemma PersistentAvoids(m: Mem<real>, r: Node<real>)
    requires MemOk(m) && r in m
    ensures Avoids(m, r, Owner(Ps, 0))
  {
    NobodyOwns(m, r, Owner(Ps, 0));
  }

  /** A vector goes on under a new id. */
  lemma ItemFresh(m: Mem<real>, x: Item, shift: nat, ws: seq<Owner>, k: nat, w: Owner)
    requires MemOk(m) && ItemOk(m, x, shift, ws) && k < |ws| && forall n | n in m :: w.NodeCopy(n.id)
    ensures ItemOk(m, x, shift, ws[k := w])
  {
    NobodyOwns(m, x.root, w);
  }

  /** A snapshot is out of reach of every writer, the vector's own under its new id included. */
  lemma ItemTaken(m: Mem<real>, x: Item, shift: nat, ws: seq<Owner>, k: nat, w: Owner)
    requires MemOk(m) && ItemOk(m, x, shift, ws) && k < |ws| && (x.mine == k || x.mine == 0) && forall n | n in m :: w.NodeCopy(n.id)
    ensures ItemOk(m, x.(mine := 0), shift, ws[k := w])
  {
    NobodyOwns(m, x.root, w);
  }

  /** A handle of the chain, and what it shows. */
  ghost predicate HandleIs(m: Mem<real>, v: Vec<real>, view: seq<real>, mine: nat, shift: nat, ws: seq<Owner>)
    requires MemOk(m)
    reads v
  {
    v.shift == shift && v.sz == |view| && ItemOk(m, Item(v.root, view, mine), shift, ws)
  }

  /** What worker x.1's task for vector x.0 makes of its snapshot. */
  ghost function Splinter(u: seq<real>, offs: seq<int>, coefs: seq<real>, p: nat): (r: seq<real>)
    requires |offs| == |coefs| > 0
    ensures |r| == |u|
  {
    Swept(u, offs, coefs, StencilTasks.First(offs, p, |u|), StencilTasks.Last(offs, p, |u|))
  }

  /** `splt_vector splt(_used[p], ops)` and the worker's loop: everything but the new handle stays as it was. */
  method MakeSplinter(g: Glob<real>, u: Vec<real>, offs: seq<int>, coefs: seq<real>, p: nat,
                      ghost s: seq<real>, ghost shift: nat, ghost ws: seq<Owner>) returns (splt: Vec<real>)
    requires g.Valid() && u.owner.id < g.unique_id && HandleIs(g.Mem(), u, s, 0, shift, ws) && |s| > 0
    requires |offs| == |coefs| > 0 && p < HWCONC && Stays(offs, |s|, StencilTasks.First(offs, p, |s|), StencilTasks.Last(offs, p, |s|))
    requires 0 <= StencilTasks.First(offs, p, |s|) && StencilTasks.Last(offs, p, |s|) <= |s|
    requires forall k | 0 <= k < |ws| :: ws[k].kind == Tr && ws[k].id < g.unique_id
    modifies g`unique_id, g`nodes
    ensures g.Valid() && fresh(splt) && splt.owner.id < g.unique_id && old(g.unique_id) <= g.unique_id
    ensures old(g.nodes) <= g.nodes && fresh(g.nodes - old(g.nodes)) && Reduce.Extends(old(g.Mem()), g.Mem())
    ensures forall x | x in g.nodes - old(g.nodes) :: x.id >= old(g.unique_id)
    ensures HandleIs(g.Mem(), splt, Splinter(s, offs, coefs, p), 0, shift, ws)
  {
    hide Find, MemOk, Avoids, Follows, Swept, Contents, Reduce.Extends, StaysAt, Start, End, FirstValid, LastValid, OnlyOwn, ItemOk;
    ghost var m := g.Mem();
    HandleValid(g, u, s, shift, ws);
    var ap, bp := Narrowest(offs, Start(p, u.sz), End(p, u.sz), u.sz);
    splt := u.NewId(g);
    NobodyOwns(m, u.root, splt.owner);
    SweepRange(g, splt, u, offs, coefs, ap, bp);
    Reduce.NewWriter(m, g.Mem(), u.root, u.shift, u.sz, splt.owner);
    SplinterHeld(m, g.Mem(), u.root, splt.root, s, splt.View(g), shift, ws, splt.owner);
  }

  lemma HandleValid(g: Glob<real>, u: Vec<real>, s: seq<real>, shift: nat, ws: seq<Owner>)
    requires g.Valid() && u.owner.id < g.unique_id && HandleIs(g.Mem(), u, s, 0, shift, ws)
    ensures u.Valid(g) && u.View(g) == s && u.sz == |s| && u.shift == shift
  {
  }

  /** A trie that follows one out of reach is out of reach of all but its own writer. */
  lemma SplinterHeld(m: Mem<real>, m': Mem<real>, r: Node<real>, r': Node<real>, s: seq<real>, view: seq<real>, shift: nat, ws: seq<Owner>, o: Owner)
    requires MemOk(m) && MemOk(m') && ItemOk(m, Item(r, s, 0), shift, ws) && r' in m' && Follows(m, m', r, r', o)
    requires HandleOk(m', r', shift, |view|) && Contents(m', r', shift, |view|) == view
    requires forall k | 0 <= k < |ws| :: ws[k].kind == Tr && ws[k].id != o.id
    ensures ItemOk(m', Item(r', view, 0), shift, ws)
  {
    hide Find, Follows, Avoids, Contents, MemOk;
    forall k | 1 <= k < |ws|
      ensures Avoids(m', r', ws[k])
    {
      FollowsAvoids(m, m', r, r', ws[k], o);
    }
  }

  /** Each vector starts as a copy of the one before. */
  method MakeVectors(g: Glob<real>, v: Vec<real>, steps: nat) returns (ds: seq<Vec<real>>)
    requires v.Valid(g) && v.owner.kind == Tr
    modifies g`unique_id
    ensures |ds| == steps + 1 && ds[0] == v && v.Valid(g) && v.View(g) == old(v.View(g))
    ensures g.Valid() && g.Mem() == old(g.Mem()) && old(g.unique_id) <= g.unique_id
    ensures forall k | 0 <= k < |ds| :: ds[k].root == v.root && ds[k].shift == v.shift && ds[k].sz == v.sz
    ensures forall k | 0 <= k < |ds| :: ds[k].owner.kind == Tr && ds[k].owner.id < g.unique_id
    ensures forall k | 1 <= k < |ds| :: old(g.unique_id) <= ds[k].owner.id && fresh(ds[k])
    ensures forall j, k | 0 <= j < |ds| && 0 <= k < |ds| && j != k :: ds[j] != ds[k] && ds[j].owner.id != ds[k].owner.id
  {
    hide Contents, HandleOk, MemOk;
    ds := [v];
    for k := 0 to steps
      invariant |ds| == k + 1 && ds[0] == v && v.Valid(g) && v.View(g) == old(v.View(g))
      invariant g.Valid() && g.Mem() == old(g.Mem()) && old(g.unique_id) <= g.unique_id
      invariant forall k | 0 <= k < |ds| :: ds[k].root == v.root && ds[k].shift == v.shift && ds[k].sz == v.sz
      invariant forall k | 0 <= k < |ds| :: ds[k].owner.kind == Tr && ds[k].owner.id < g.unique_id
      invariant forall k | 1 <= k < |ds| :: old(g.unique_id) <= ds[k].owner.id && fresh(ds[k])
      invariant forall j, k | 0 <= j < |ds| && 0 <= k < |ds| && j != k :: ds[j] != ds[k] && ds[j].owner.id != ds[k].owner.id
    {
      var d := ds[k].NewId(g);
      ds := ds + [d];
    }
  }

  /** A trie that none of the writers owns a node of */
  lemma CopyOk(m: Mem<real>, root: Node<real>, shift: nat, sz: nat, ws: seq<Owner>, mine: nat)
    requires MemOk(m) && HandleOk(m, root, shift, sz) && forall k, n | 1 <= k < |ws| && n in m :: ws[k].NodeCopy(n.id)
    ensures ItemOk(m, Item(root, Contents(m, root, shift, sz), mine), shift, ws)
  {
    forall k | 1 <= k < |ws|
      ensures Avoids(m, root, ws[k])
    {
      NobodyOwns(m, root, ws[k]);
    }
  }

  ghost function OwnersOf(data: seq<Vec<real>>): (ws: seq<Owner>)
    ensures |ws| == |data| && forall k | 0 <= k < |data| :: ws[k] == data[k].owner
  {
    seq(|data|, k requires 0 <= k < |data| => data[k].owner)
  }

  /** The state in which every vector is a copy of the first. */
  ghost function Copies(d: seq<real>, steps: nat): Pipeline.State {
    Pipeline.State(seq(steps + 1, k => d), map[], {}, seq(steps + 1, k => {}), {}, 0)
  }

  /** A chain of stencils under way. Vector 0 is given; the others are copies of their predecessors until workers
      reattach to them. */
  class Stencils {
    const g: Glob<real>
    const offs: seq<int>
    const coefs: seq<real>
    const steps: nat
    const n: nat
    var data: seq<Vec<real>>
    var used: map<(nat, nat), Vec<real>>
    var splts: map<(nat, nat), Vec<real>>
    var contended: seq<set<int>>
    var resolved: nat
    ghost const shift: nat
    /** The state of the transition system that the handles show. */
    ghost var s: Pipeline.State

    ghost predicate Shape()
      reads this
    {
      && |offs| == |coefs| > 0 && n > 0 && |data| == steps + 1 && Pipeline.Sized(s, n, steps)
      && contended == s.contended && resolved == s.resolved && used.Keys == s.used.Keys
    }

    /** Whoever has a snapshot has its splinter out or has reattached it. */
    ghost predicate Keys()
      reads this`used, this`splts, this`s
    {
      splts.Keys !! s.joined && splts.Keys + s.joined == used.Keys
    }

    /** `steps` calls of `stencil` in a row, before the first task runs. */
    constructor (g: Glob<real>, v: Vec<real>, offs: seq<int>, coefs: seq<real>, steps: nat)
      requires v.Valid(g) && v.owner.kind == Tr && v.sz > 0 && |offs| == |coefs| > 0
      modifies g`unique_id
      ensures Inv() && Keys() && this.g == g && this.offs == offs && this.coefs == coefs && this.steps == steps && n == v.sz && shift == v.shift
      ensures s == Copies(old(v.View(g)), steps) && |data| == steps + 1 && data[0] == v && (forall k | 1 <= k <= steps :: fresh(data[k]))
      ensures g.Mem() == old(g.Mem()) && Writable() <= old(v.Mine(g)) && old(g.nodes) == g.nodes
    {
      hide Contents, HandleOk, Avoids, Find;
      ghost var view := v.View(g);
      var ds := MakeVectors(g, v, steps);
      this.g, this.offs, this.coefs, this.steps, this.n := g, offs, coefs, steps, v.sz;
      this.data, this.used, this.splts, this.contended, this.resolved := ds, map[], map[], seq(steps + 1, k => {}), 0;
      this.shift, this.s := v.shift, Copies(view, steps);
      new;
      forall k | 0 <= k < |data|
        ensures HandleIs(g.Mem(), data[k], s.data[k], k, shift, Tags())
      {
        CopyOk(g.Mem(), v.root, v.shift, v.sz, Tags(), k);
      }
    }

    /** The nodes that some vector may write in place. */
    ghost function Writable(): set<Node<real>>
      reads this`data, g
    {
      set x | x in g.nodes && exists k :: 0 <= k < |data| && !data[k].owner.NodeCopy(x.id)
    }

    ghost function Tags(): seq<Owner>
      reads this`data
    {
      OwnersOf(data)
    }

    /** The vectors write under ids of their own. */
    ghost predicate Writers()
      reads this`data, g`unique_id
    {
      && (forall k | 0 <= k < |data| :: data[k].owner.kind == Tr && data[k].owner.id < g.unique_id)
      && (forall j, k | 0 <= j < |data| && 0 <= k < |data| && j != k :: data[j] != data[k] && data[j].owner.id != data[k].owner.id)
    }

    ghost predicate Datas(m: Mem<real>, ws: seq<Owner>)
      requires MemOk(m)
      reads this`data, this`s, set k | 0 <= k < |data| :: data[k]
    {
      |s.data| == |data| && forall k | 0 <= k < |data| :: HandleIs(m, data[k], s.data[k], k, shift, ws)
    }

    ghost predicate Useds(m: Mem<real>, ws: seq<Owner>)
      requires MemOk(m)
      reads this`data, this`s, this`used, set x | x in used :: used[x]
    {
      && used.Keys == s.used.Keys
      && forall x | x in used :: used[x] !in data && HandleIs(m, used[x], s.used[x], 0, shift, ws)
    }

    ghost predicate Splts(m: Mem<real>, ws: seq<Owner>)
      requires MemOk(m) && |offs| == |coefs| > 0
      reads this`data, this`s, this`splts, set x | x in splts :: splts[x]
    {
      forall x | x in splts ::
        x in s.used && splts[x] !in data && HandleIs(m, splts[x], Splinter(s.used[x], offs, coefs, x.1), 0, shift, ws)
    }

    ghost predicate Known()
      reads this`used, this`splts, g`unique_id
    {
      (forall x | x in used :: used[x].owner.id < g.unique_id) && (forall x | x in splts :: splts[x].owner.id < g.unique_id)
    }

    ghost predicate Inv()
      reads this, g, g.nodes, set k | 0 <= k < |data| :: data[k], set x | x in used :: used[x], set x | x in splts :: splts[x]
    {
      Shape() && g.Valid() && Writers() && Known() && Datas(g.Mem(), Tags()) && Useds(g.Mem(), Tags()) && Splts(g.Mem(), Tags())
    }

    // ---- what a change leaves alone ----

    /** Handles that nobody writes, after a write through vector k. */
    lemma TablesKept(m: Mem<real>, ws: seq<Owner>, k: nat)
      requires g.Valid() && MemOk(m) && |offs| == |coefs| > 0 && 1 <= k < |ws| && OnlyOwn(m, g.Mem(), ws[k])
      requires Useds(m, ws) && Splts(m, ws)
      ensures Useds(g.Mem(), ws) && Splts(g.Mem(), ws)
    {
      hide ItemOk, OnlyOwn, MemOk, Splinter;
      forall x | x in used
        ensures HandleIs(g.Mem(), used[x], s.used[x], 0, shift, ws)
      {
        ItemKept(m, g.Mem(), Item(used[x].root, s.used[x], 0), shift, ws, k);
      }
      forall x | x in splts
        ensures HandleIs(g.Mem(), splts[x], Splinter(s.used[x], offs, coefs, x.1), 0, shift, ws)
      {
        ItemKept(m, g.Mem(), Item(splts[x].root, Splinter(s.used[x], offs, coefs, x.1), 0), shift, ws, k);
      }
    }

    /** All handles, after nodes were added. */
    lemma AllExtend(m: Mem<real>, ws: seq<Owner>)
      requires g.Valid() && MemOk(m) && |offs| == |coefs| > 0 && Reduce.Extends(m, g.Mem())
      requires Datas(m, ws) && Useds(m, ws) && Splts(m, ws)
      ensures Datas(g.Mem(), ws) && Useds(g.Mem(), ws) && Splts(g.Mem(), ws)
    {
      hide ItemOk, Reduce.Extends, MemOk, Splinter;
      forall k | 0 <= k < |data|
        ensures HandleIs(g.Mem(), data[k], s.data[k], k, shift, ws)
      {
        ItemExtends(m, g.Mem(), Item(data[k].root, s.data[k], k), shift, ws);
      }
      forall x | x in used
        ensures HandleIs(g.Mem(), used[x], s.used[x], 0, shift, ws)
      {
        ItemExtends(m, g.Mem(), Item(used[x].root, s.used[x], 0), shift, ws);
      }
      forall x | x in splts
        ensures HandleIs(g.Mem(), splts[x], Splinter(s.used[x], offs, coefs, x.1), 0, shift, ws)
      {
        ItemExtends(m, g.Mem(), Item(splts[x].root, Splinter(s.used[x], offs, coefs, x.1), 0), shift, ws);
      }
    }

    /** All handles, after vector k has got a new id. */
    lemma AllFresh(ws: seq<Owner>, k: nat, w: Owner)
      requires g.Valid() && |offs| == |coefs| > 0 && k < |ws| && forall x | x in g.Mem() :: w.NodeCopy(x.id)
      requires Datas(g.Mem(), ws) && Useds(g.Mem(), ws) && Splts(g.Mem(), ws)
      ensures Datas(g.Mem(), ws[k := w]) && Useds(g.Mem(), ws[k := w]) && Splts(g.Mem(), ws[k := w])
    {
      hide ItemOk, MemOk, Splinter;
      forall j | 0 <= j < |data|
        ensures HandleIs(g.Mem(), data[j], s.data[j], j, shift, ws[k := w])
      {
        ItemFresh(g.Mem(), Item(data[j].root, s.data[j], j), shift, ws, k, w);
      }
      forall x | x in used
        ensures HandleIs(g.Mem(), used[x], s.used[x], 0, shift, ws[k := w])
      {
        ItemFresh(g.Mem(), Item(used[x].root, s.used[x], 0), shift, ws, k, w);
      }
      forall x | x in splts
        ensures HandleIs(g.Mem(), splts[x], Splinter(s.used[x], offs, coefs, x.1), 0, shift, ws[k := w])
      {
        ItemFresh(g.Mem(), Item(splts[x].root, Splinter(s.used[x], offs, coefs, x.1), 0), shift, ws, k, w);
      }
    }

    /** The other vectors, after a write through vector k. */
    lemma DatasKept(m: Mem<real>, ws: seq<Owner>, k: nat)
      requires g.Valid() && MemOk(m) && 1 <= k < |ws| == |data| && OnlyOwn(m, g.Mem(), ws[k]) && |s.data| == |data|
      requires forall j | 0 <= j < |data| && j != k :: HandleIs(m, data[j], s.data[j], j, shift, ws)
      ensures forall j | 0 <= j < |data| && j != k :: HandleIs(g.Mem(), data[j], s.data[j], j, shift, ws)
    {
      hide ItemOk, OnlyOwn, MemOk;
      forall j | 0 <= j < |data| && j != k
        ensures HandleIs(g.Mem(), data[j], s.data[j], j, shift, ws)
      {
        ItemKept(m, g.Mem(), Item(data[j].root, s.data[j], j), shift, ws, k);
      }
    }

    // ---- detach ----

    lemma DataIs(k: nat)
      requires Inv() && k <= steps
      ensures data[k].Valid(g) && data[k].View(g) == s.data[k] && data[k].sz == n && data[k].shift == shift
      ensures ItemOk(g.Mem(), Item(data[k].root, s.data[k], k), shift, Tags()) && |s.data[k]| == n
    {
      assert HandleIs(g.Mem(), data[k], s.data[k], k, shift, Tags());
    }

    lemma Apart()
      requires Inv()
      ensures forall x | x in used :: used[x] !in data
      ensures forall x | x in splts :: splts[x] !in data
      ensures forall j, k | 0 <= j < |data| && 0 <= k < |data| && j != k :: data[j] != data[k]
    {
    }

    /** A snapshot of vector k, and the handle under which the vector goes on. */
    method NewSource(k: nat) returns (u: Vec<real>, d: Vec<real>)
      requires Inv() && k <= steps
      modifies g`unique_id
      ensures fresh(u) && fresh(d) && u != d && d.owner == Owner(Tr, old(g.unique_id)) && g.unique_id == old(g.unique_id) + 1
      ensures g.Valid() && g.Mem() == old(g.Mem()) && u.owner.id < g.unique_id
      ensures HandleIs(g.Mem(), u, s.data[k], 0, shift, Tags()[k := d.owner])
      ensures HandleIs(g.Mem(), d, s.data[k], k, shift, Tags()[k := d.owner])
      ensures Datas(g.Mem(), Tags()[k := d.owner]) && Useds(g.Mem(), Tags()[k := d.owner]) && Splts(g.Mem(), Tags()[k := d.owner])
    {
      hide ItemOk, Splinter, Contents, MemOk, HandleOk;
      DataIs(k);
      u := new Vec.Copy(data[k], data[k].owner);
      d := data[k].NewId(g);
      ItemTaken(g.Mem(), Item(data[k].root, s.data[k], k), shift, Tags(), k, d.owner);
      ItemFresh(g.Mem(), Item(data[k].root, s.data[k], k), shift, Tags(), k, d.owner);
      AllFresh(Tags(), k, d.owner);
    }

    /** Both are put in their places. */
    method Install(k: nat, x: (nat, nat), u: Vec<real>, d: Vec<real>, ghost m: Mem<real>, ghost ws: seq<Owner>)
      requires MemOk(m) && |offs| == |coefs| > 0 && k < |data| && |ws| == |data| && x !in used && x !in s.used
      requires Datas(m, ws) && Useds(m, ws) && Splts(m, ws) && u != d && u !in data && d !in data
      requires HandleIs(m, u, s.data[k], 0, shift, ws) && HandleIs(m, d, s.data[k], k, shift, ws)
      requires (forall y | y in used :: used[y] != d) && (forall y | y in splts :: splts[y] != d)
      modifies this`data, this`used, this`s
      ensures data == old(data)[k := d] && used == old(used)[x := u] && s == old(s).(used := old(s).used[x := old(s).data[k]])
      ensures Datas(m, ws) && Useds(m, ws) && Splts(m, ws)
    {
      hide MemOk, HandleIs, Splinter;
      data := data[k := d];
      used := used[x := u];
      s := s.(used := s.used[x := s.data[k]]);
    }

    ghost function Ker(): (k: Kernel)
      requires |offs| == |coefs| > 0
      ensures KernelOk(k)
    {
      Full(offs, coefs)
    }

    /** `_used[p] = _data; _data = _data.new_id()` on vector k - 1 */
    method Snapshot(k: nat, p: nat)
      requires Inv() && 1 <= k <= steps && p < HWCONC && (k, p) !in used
      modifies this`data, this`used, this`s, g`unique_id
      ensures Inv() && g.Mem() == old(g.Mem()) && g.unique_id == old(g.unique_id) + 1
      ensures |data| == steps + 1 && fresh(data[k - 1]) && data[k - 1].owner.id == old(g.unique_id)
      ensures data == old(data)[k - 1 := data[k - 1]] && used.Keys == old(used.Keys) + {(k, p)}
      ensures s == old(s).(used := old(s).used[(k, p) := old(s).data[k - 1]])
    {
      hide ItemOk, Splinter, Contents, MemOk, HandleOk, HandleIs, Datas, Useds, Splts;
      Apart();
      var u, d := NewSource(k - 1);
      ghost var ws := Tags()[k - 1 := d.owner];
      Install(k - 1, (k, p), u, d, g.Mem(), ws);
      assert Tags() == ws;
    }

    lemma UsedIs(x: (nat, nat))
      requires Inv() && x in used
      ensures x in s.used && |s.used[x]| == n && HandleIs(g.Mem(), used[x], s.used[x], 0, shift, Tags()) && used[x].owner.id < g.unique_id
      ensures x.1 < HWCONC && 1 <= x.0 <= steps
    {
    }

    method Record(x: (nat, nat), splt: Vec<real>, ghost m: Mem<real>, ghost ws: seq<Owner>)
      requires MemOk(m) && |offs| == |coefs| > 0 && Splts(m, ws) && x in s.used && splt !in data
      requires HandleIs(m, splt, Splinter(s.used[x], offs, coefs, x.1), 0, shift, ws)
      modifies this`splts
      ensures splts == old(splts)[x := splt] && Splts(m, ws)
    {
      hide MemOk, HandleIs, Splinter;
      splts := splts[x := splt];
    }

    lemma StaysOn(r: nat, p: nat)
      requires |offs| == |coefs| > 0 && p < HWCONC && Within(Ker(), r) && Wide(n, r)
      ensures Stays(offs, n, StencilTasks.First(offs, p, n), StencilTasks.Last(offs, p, n))
      ensures 0 <= StencilTasks.First(offs, p, n) && StencilTasks.Last(offs, p, n) <= n
    {
      SweptComputes(offs, coefs, seq(n, i => 0.0), p, r);
      NarrowestIsInterior(offs, coefs, r, p, n);
    }

    /** The rest of the worker's task, up to its `reattach`. */
    method Compute(x: (nat, nat), ghost r: nat)
      requires Inv() && x in used && x !in splts && Within(Ker(), r) && Wide(n, r)
      modifies this`splts, g`nodes, g`unique_id
      ensures Inv() && splts.Keys == old(splts.Keys) + {x} && old(g.unique_id) <= g.unique_id
      ensures old(g.nodes) <= g.nodes && fresh(g.nodes - old(g.nodes))
      ensures forall y | y in g.nodes - old(g.nodes) :: y.id >= old(g.unique_id)
    {
      hide ItemOk, Splinter, Contents, MemOk, HandleOk, HandleIs, Datas, Useds, Splts, Stays, Reduce.Extends, StencilTasks.First, StencilTasks.Last;
      ghost var m := g.Mem();
      UsedIs(x);
      StaysOn(r, x.1);
      var splt := MakeSplinter(g, used[x], offs, coefs, x.1, s.used[x], shift, Tags());
      AllExtend(m, Tags());
      Record(x, splt, g.Mem(), Tags());
    }

    // ---- the steps ----

    /** The old handles and the new ones. */
    twostate predicate Handles()
      reads this`data, g
    {
      && |data| == |old(data)| && old(g.nodes) <= g.nodes && fresh(g.nodes - old(g.nodes)) && old(g.unique_id) <= g.unique_id
      && forall k | 0 <= k < |data| :: data[k] == old(data)[k] || (fresh(data[k]) && data[k].owner.id >= old(g.unique_id))
    }

    method DoDetach(k: nat, p: nat, ghost r: nat)
      requires Inv() && Keys() && Within(Ker(), r) && Wide(n, r) && Pipeline.Enabled(Ker(), n, steps, s, Pipeline.Detach(k, p))
      modifies this`data, this`used, this`splts, this`s, g`nodes, g`unique_id
      ensures Inv() && Keys() && Handles() && Pipeline.Step(Ker(), n, steps, old(s), Pipeline.Detach(k, p), s)
    {
      hide Inv, Pipeline.Step, Pipeline.Enabled;
      MayDetach(k, p);
      DetachStep(Ker(), n, steps, s, k, p);
      KeyAdds(splts.Keys, s.joined, used.Keys, (k, p));
      Snapshot(k, p);
      Compute((k, p), r);
    }

    lemma MayDetach(k: nat, p: nat)
      requires Inv() && Keys() && Pipeline.Enabled(Ker(), n, steps, s, Pipeline.Detach(k, p))
      ensures 1 <= k <= steps && p < HWCONC && (k, p) !in used && (k, p) !in splts && (k, p) !in s.used
      ensures |offs| == |coefs| > 0 && k - 1 < |data| == steps + 1 && |s.data| == |data| && Pipeline.Sized(s, n, steps)
    {
    }

    lemma SplinterIs(x: (nat, nat))
      requires Inv() && x in splts && x.0 <= steps && 1 <= x.0
      ensures x in s.used && splts[x] != data[x.0] && splts[x].Valid(g) && splts[x].sz == n && splts[x].shift == shift
      ensures splts[x].View(g) == Splinter(s.used[x], offs, coefs, x.1)
      ensures Avoids(g.Mem(), splts[x].root, data[x.0].owner)
      ensures ItemOk(g.Mem(), Item(splts[x].root, Splinter(s.used[x], offs, coefs, x.1), 0), shift, Tags())
    {
    }

    /** The dependent takes over a share. */
    method Absorb(k: nat, p: nat)
      requires Inv() && (k, p) in splts && 1 <= k <= steps && p < HWCONC && Foreach.ShareFits(p, n, shift)
      modifies data[k], g`nodes, data[k].Mine(g)
      ensures old(g.nodes) <= g.nodes && fresh(g.nodes - old(g.nodes)) && g.Valid() && (k, p) in s.used
      ensures OnlyOwn(old(g.Mem()), g.Mem(), data[k].owner)
      ensures var a, b, d := Start(p, n), End(p, n), s.data[k];
              && a < b <= |d| == |s.used[(k, p)]|
              && HandleIs(g.Mem(), data[k], d[..a] + Splinter(s.used[(k, p)], offs, coefs, p)[a..b] + d[b..], k, shift, Tags())
    {
      hide Contents, HandleOk, Avoids, OnlyOwn, Datas, Useds, Splts, ItemOk, Splinter, MemOk, Inherits, Faithful, Reach, Defined, Start, End;
      ghost var m, old_root := g.Mem(), data[k].root;
      DataIs(k);
      SplinterIs((k, p));
      FitsIs(p, n, shift);
      var ok;
      ghost var c;
      ok, c := Assign.Assign(g, data[k], splts[(k, p)], Start(p, n), End(p, n));
      AbsorbedOk(m, g.Mem(), old_root, splts[(k, p)].root, data[k].root, s.data[k], Splinter(s.used[(k, p)], offs, coefs, p),
                 data[k].View(g), k, shift, Tags());
    }

    /** The dependent takes over the share, and all other handles stay as they are. */
    method Merge(k: nat, p: nat, ghost r: nat)
      requires Inv() && (k, p) in splts && (k, p) in s.used && 1 <= k <= steps && k < |data| == |s.data| && p < HWCONC
      requires |s.used[(k, p)]| == |s.data[k]| == n
      requires Foreach.ShareFits(p, n, shift) && Within(Ker(), r) && Wide(n, r)
      modifies data[k], g`nodes, data[k].Mine(g)
      ensures Handles() && g.Valid() && Useds(g.Mem(), Tags()) && Splts(g.Mem(), Tags())
      ensures forall j | 0 <= j < |data| && j != k :: HandleIs(g.Mem(), data[j], s.data[j], j, shift, Tags())
      ensures HandleIs(g.Mem(), data[k], Pipeline.Spliced(Ker(), s.data[k], s.used[(k, p)], p), k, shift, Tags())
    {
      hide Useds, Splts, Known, ItemOk, Contents, HandleOk, Splinter, OnlyOwn, MemOk, HandleIs;
      ghost var m, ws := g.Mem(), Tags();
      Apart();
      Absorb(k, p);
      TablesKept(m, ws, k);
      DatasKept(m, ws, k);
      SplicedIs(offs, coefs, s.data[k], s.used[(k, p)], p, r);
    }

    /** `reattach` by worker p to vector k */
    method DoReattach(k: nat, p: nat, ghost r: nat)
      requires Inv() && Keys() && Within(Ker(), r) && Wide(n, r) && Foreach.SharesOk(n, shift)
      requires Pipeline.Enabled(Ker(), n, steps, s, Pipeline.Reattach(k, p))
      modifies this`splts, this`s, Vectors(), g`nodes, Writable()
      ensures Inv() && Keys() && Handles() && Pipeline.Step(Ker(), n, steps, old(s), Pipeline.Reattach(k, p), s)
    {
      hide Datas, Useds, Splts, MemOk, HandleIs, Pipeline.Step, Pipeline.Enabled, Pipeline.Sized, Vectors, Writable, Writers, Foreach.ShareFits, Wide, Within, Handles, Known;
      MayReattach(k, p);
      Mine(k);
      KeyMoves(splts.Keys, s.joined, used.Keys, (k, p));
      ReattachStep(Ker(), n, steps, s, k, p);
      Merge(k, p, r);
      Strike(k, p, Pipeline.Spliced(Ker(), s.data[k], s.used[(k, p)], p), g.Mem(), Tags());
    }

    lemma MayReattach(k: nat, p: nat)
      requires Inv() && Keys() && Pipeline.Enabled(Ker(), n, steps, s, Pipeline.Reattach(k, p))
      ensures 1 <= k <= steps && p < HWCONC && (k, p) in used && (k, p) in splts && (k, p) in s.used && (k, p) !in s.joined
      ensures |offs| == |coefs| > 0 && k < |data| == steps + 1 && |s.data| == |data| && Pipeline.Sized(s, n, steps)
      ensures |s.used[(k, p)]| == |s.data[k]| == n
    {
    }

    ghost function Vectors(): set<Vec<real>>
      reads this`data
    {
      set k | 0 <= k < |data| :: data[k]
    }

    /** What vector k may write in place is writable. */
    lemma Mine(k: nat)
      requires k < |data|
      ensures data[k].Mine(g) <= Writable() && data[k] in Vectors()
    {
    }

    method Strike(k: nat, p: nat, ghost now: seq<real>, ghost m: Mem<real>, ghost ws: seq<Owner>)
      requires k < |data| == |s.data| && Shape() && Known() && Pipeline.Sized(s.(data := s.data[k := now], joined := s.joined + {(k, p)}), n, steps)
      requires MemOk(m) && (k, p) in splts && |ws| == |data|
      requires (forall j | 0 <= j < |data| && j != k :: HandleIs(m, data[j], s.data[j], j, shift, ws)) && HandleIs(m, data[k], now, k, shift, ws)
      requires Useds(m, ws) && Splts(m, ws)
      modifies this`splts, this`s
      ensures splts == old(splts) - {(k, p)} && splts.Keys == old(splts.Keys) - {(k, p)}
      ensures s == old(s).(data := old(s).data[k := now], joined := old(s).joined + {(k, p)})
      ensures Shape() && Known() && Datas(m, ws) && Useds(m, ws) && Splts(m, ws)
    {
      hide MemOk, HandleIs, Splinter, Pipeline.Sized;
      splts := splts - {(k, p)};
      s := s.(data := s.data[k := now], joined := s.joined + {(k, p)});
    }

    /** What a correction for map i at source index c is about: the worker of element t. */
    ghost predicate Correcting(i: nat, c: int, t: nat, p: nat)
      requires |offs| == |coefs| > 0
      reads this`s, this`used, this`data
    {
      && Pipeline.Sized(s, n, steps) && |data| == steps + 1 && i < |Ker().offs| && s.resolved < steps && 0 <= c < n && t == c - Ker().offs[i] < n
      && p < HWCONC && Start(p, n) <= t < End(p, n) && (s.resolved + 1, p) in used && (s.resolved + 1, p) in s.used
      && |s.used[(s.resolved + 1, p)]| == n
    }

    lemma MayCorrect(i: nat, c: int)
      requires Inv() && Keys() && Pipeline.Enabled(Ker(), n, steps, s, Pipeline.Correct(i, c))
      ensures |offs| == |coefs| > 0 && resolved == s.resolved < steps && i <= |offs| && 0 <= c < n && 0 <= c - Ker().offs[i] < n
      ensures |data| == steps + 1
      ensures forall p: nat | p < HWCONC && Start(p, n) <= c - Ker().offs[i] < End(p, n) :: Correcting(i, c, c - Ker().offs[i], p)
    {
      hide Overlaps, Start, End;
      forall p: nat | p < HWCONC && Start(p, n) <= c - Ker().offs[i] < End(p, n)
        ensures Correcting(i, c, c - Ker().offs[i], p)
      {
        assert Pipeline.Has(s, s.resolved + 1, p);
      }
    }

    /** `inv(*curr, *trck)` */
    method Gap(k: nat, c: nat, p: nat) returns (diff: real)
      requires Inv() && 1 <= k <= steps && (k, p) in used && c < n
      ensures (k, p) in s.used && |s.used[(k, p)]| == n == |s.data[k - 1]| && diff == s.data[k - 1][c] - s.used[(k, p)][c]
    {
      hide Datas, Useds, Splts, ItemOk, Contents, HandleOk, MemOk;
      DataIs(k - 1);
      UsedIs((k, p));
      HandleValid(g, used[(k, p)], s.used[(k, p)], shift, Tags());
      var curr := Reduce.ReadAt(g, data[k - 1], c);
      var trck := Reduce.ReadAt(g, used[(k, p)], c);
      diff := curr - trck;
    }

    /** `*it = f(*it, diff)` on vector k; all other handles stay as they are. */
    method Amend(k: nat, t: nat, y: real)
      requires Inv() && 1 <= k <= steps && t < n && k < |data| == |s.data| && |s.data[k]| == n
      modifies data[k], g`nodes, data[k].Mine(g)
      ensures Handles() && g.Valid() && Useds(g.Mem(), Tags()) && Splts(g.Mem(), Tags())
      ensures forall j | 0 <= j < |data| && j != k :: HandleIs(g.Mem(), data[j], s.data[j], j, shift, Tags())
      ensures HandleIs(g.Mem(), data[k], s.data[k][t := s.data[k][t] + y], k, shift, Tags())
    {
      hide Datas, Useds, Splts, Known, ItemOk, Contents, HandleOk, OnlyOwn, MemOk, Follows, Avoids;
      ghost var m, ws, r := g.Mem(), Tags(), data[k].root;
      Apart();
      DataIs(k);
      DatasAre();
      UpdateAt(g, data[k], t, x => x + y);
      TablesKept(m, ws, k);
      DatasKept(m, ws, k);
      AmendedOk(m, g.Mem(), r, data[k].root, s.data[k], data[k].View(g), k, shift, ws);
    }

    lemma DatasAre()
      requires Inv()
      ensures forall j | 0 <= j < |data| :: HandleIs(g.Mem(), data[j], s.data[j], j, shift, Tags())
    {
    }

    /** The correction is entered, and the element marked if it changed. */
    method Mark(i: nat, c: nat, t: nat, p: nat, changed: bool, ghost m: Mem<real>, ghost ws: seq<Owner>)
      requires Shape() && Known() && Keys() && MemOk(m) && |ws| == |data| == |s.data| && Correcting(i, c, t, p) && |s.data[resolved + 1]| == n
      requires |s.data[resolved]| == n && (changed <==> s.data[resolved][c] != s.used[(resolved + 1, p)][c])
      requires forall j | 0 <= j < |data| && j != resolved + 1 :: HandleIs(m, data[j], s.data[j], j, shift, ws)
      requires HandleIs(m, data[resolved + 1], Pipeline.Corrected(Ker(), s, n, steps, i, c, p).data[resolved + 1], resolved + 1, shift, ws)
      requires Useds(m, ws) && Splts(m, ws)
      modifies this`contended, this`s
      ensures s == old(Pipeline.Corrected(Ker(), s, n, steps, i, c, p))
      ensures Shape() && Known() && Keys() && Datas(m, ws) && Useds(m, ws) && Splts(m, ws)
    {
      hide MemOk, HandleIs, Splinter, Start, End, Delta;
      var k := resolved + 1;
      if changed {
        contended := contended[k := contended[k] + {t}];
      }
      s := Pipeline.Corrected(Ker(), s, n, steps, i, c, p);
    }

    twostate lemma Unchanged()
      requires data == old(data) && g.nodes == old(g.nodes) && g.unique_id == old(g.unique_id)
      ensures Handles()
    {
    }

    /** The difference is replayed on the element, if there is one. */
    method Replay(i: nat, c: nat, t: nat, p: nat, diff: real)
      requires Inv() && Keys() && Correcting(i, c, t, p) && resolved + 1 <= steps && |data| == |s.data| == steps + 1
      requires |s.data[resolved]| == |s.data[resolved + 1]| == n && diff == s.data[resolved][c] - s.used[(resolved + 1, p)][c]
      modifies this`contended, this`s, data[resolved + 1], g`nodes, data[resolved + 1].Mine(g)
      ensures Inv() && Keys() && Handles() && s == old(Pipeline.Corrected(Ker(), s, n, steps, i, c, p))
    {
      hide Datas, Useds, Splts, MemOk, HandleIs, Writers, Known, Keys, Start, End, Pipeline.Corrected, Pipeline.Sized, Handles;
      AmendIs(Ker(), s, n, steps, i, c, p, diff);
      DatasAre();
      if diff == 0.0 {
        Mark(i, c, t, p, false, g.Mem(), Tags());
        Unchanged();
        return;
      }
      Amend(resolved + 1, t, ([1.0] + coefs)[i] * diff);
      Mark(i, c, t, p, true, g.Mem(), Tags());
    }

    /** One correction by the resolution of vector `resolved` onto the next. */
    method DoCorrect(i: nat, c: int)
      requires Inv() && Keys() && Pipeline.Enabled(Ker(), n, steps, s, Pipeline.Correct(i, c))
      modifies this`contended, this`s, Vectors(), g`nodes, Writable()
      ensures Inv() && Keys() && Handles() && Pipeline.Step(Ker(), n, steps, old(s), Pipeline.Correct(i, c), s)
    {
      hide Inv, Keys, Pipeline.Step, Pipeline.Enabled, Vectors, Writable, Start, End, Pipeline.Corrected;
      MayCorrect(i, c);
      SizesAre();
      Mine(resolved + 1);
      var t := c - ([0] + offs)[i];
      var p := Resolution.WorkerOf(t, n);
      assert Correcting(i, c, t, p);
      CorrectStep(Ker(), n, steps, s, i, c, p);
      var diff := Gap(resolved + 1, c, p);
      Replay(i, c, t, p, diff);
    }

    lemma SizesAre()
      requires Inv()
      ensures |data| == |s.data| == steps + 1 && Pipeline.Sized(s, n, steps) && resolved == s.resolved
      ensures forall k | 0 <= k <= steps :: |s.data[k]| == n
    {
    }

    /** The resolution has nothing left to correct. */
    method DoFinish()
      requires Inv() && Keys() && Pipeline.Enabled(Ker(), n, steps, s, Pipeline.Finish)
      modifies this`resolved, this`s
      ensures Inv() && Keys() && Handles() && Pipeline.Step(Ker(), n, steps, old(s), Pipeline.Finish, s)
    {
      hide HandleIs, MemOk, Overlaps, Splinter;
      resolved := resolved + 1;
      s := s.(fixed := {}, resolved := s.resolved + 1);
    }

    /** Only new nodes and new handles have become writable. */
    twostate lemma OnlyNew()
      requires Handles() && forall x | x in old(g.nodes) :: x.id < old(g.unique_id)
      requires forall k | 0 <= k < |data| :: data[k].owner.kind == Tr
      ensures fresh(Writable() - old(Writable())) && fresh(Vectors() - old(Vectors()))
    {
      forall x | x in Writable() && x !in old(Writable())
        ensures fresh(x)
      {
        var k :| 0 <= k < |data| && !data[k].owner.NodeCopy(x.id);
        assert data[k] == old(data)[k] || data[k].owner.id >= old(g.unique_id);
      }
    }

    lemma Basics()
      requires Inv()
      ensures |offs| == |coefs| > 0 && Pipeline.Sized(s, n, steps) && (forall x | x in g.nodes :: x.id < g.unique_id)
      ensures |data| == steps + 1 && forall k | 0 <= k < |data| :: data[k].owner.kind == Tr
    {
    }

    /** One step of the transition system. */
    method Do(e: Pipeline.Event, ghost s': Pipeline.State, ghost r: nat)
      requires Inv() && Keys() && Within(Ker(), r) && Wide(n, r) && Foreach.SharesOk(n, shift)
      requires Pipeline.Step(Ker(), n, steps, s, e, s')
      modifies this`data, this`used, this`splts, this`contended, this`resolved, this`s, Vectors(), g`nodes, g`unique_id, Writable()
      ensures Inv() && Keys() && s == s' && Handles()
    {
      hide Inv, Keys, Pipeline.Step, Pipeline.Enabled, Vectors, Writable, Foreach.ShareFits, Handles;
      Basics();
      MayStep(Ker(), n, steps, s, e, s');
      ghost var s0 := s;
      match e {
        case Detach(k, p) => DoDetach(k, p, r);
        case Reattach(k, p) => DoReattach(k, p, r);
        case Correct(i, c) => DoCorrect(i, c);
        case Finish => DoFinish();
      }
      StepOnce(Ker(), n, steps, s0, e, s', s);
    }

    /** The handles show the state. */
    lemma Shows()
      requires Inv()
      ensures |data| == steps + 1 == |s.data| && resolved == s.resolved <= steps
      ensures forall k | 0 <= k <= steps :: data[k].Valid(g) && data[k].View(g) == s.data[k]
    {
      forall k | 0 <= k <= steps
        ensures data[k].Valid(g) && data[k].View(g) == s.data[k]
      {
        DataIs(k);
      }
    }

    /** Any run of the transition system. */
    method Run(ghost run: seq<Pipeline.State>, events: seq<Pipeline.Event>, ghost r: nat)
      requires Inv() && Keys() && Within(Ker(), r) && Wide(n, r) && Foreach.SharesOk(n, shift)
      requires Pipeline.IsRun(Ker(), n, steps, run, events) && run[0] == s
      modifies this`data, this`used, this`splts, this`contended, this`resolved, this`s, Vectors(), g`nodes, g`unique_id, Writable()
      ensures Inv() && Keys() && s == run[|run| - 1]
      decreases |events|
    {
      hide Inv, Keys, Pipeline.Step, Vectors, Writable, Foreach.SharesOk, Pipeline.Sized, Handles, Pipeline.IsRun;
      Basics();
      RunSize(Ker(), n, steps, run, events);
      if events != [] {
        RunRest(Ker(), n, steps, run, events);
        Do(events[0], run[1], r);
        Basics();
        OnlyNew();
        Run(run[1..], events[1..], r);
      }
    }
  }

  /** All but the first step of a run */
  lemma RunRest(ker: Kernel, n: nat, steps: nat, run: seq<Pipeline.State>, events: seq<Pipeline.Event>)
    requires KernelOk(ker) && Pipeline.IsRun(ker, n, steps, run, events) && |events| > 0
    ensures |run| == |events| + 1 && Pipeline.Sized(run[0], n, steps) && Pipeline.Step(ker, n, steps, run[0], events[0], run[1])
    ensures Pipeline.IsRun(ker, n, steps, run[1..], events[1..])
  {
    hide Pipeline.Step, Pipeline.Sized;
    forall j | 0 <= j < |events| - 1
      ensures Pipeline.Step(ker, n, steps, run[1..][j], events[1..][j], run[1..][j + 1])
    {
      assert Pipeline.Step(ker, n, steps, run[j + 1], events[j + 1], run[j + 2]);
    }
  }

  lemma MayStep(ker: Kernel, n: nat, steps: nat, s: Pipeline.State, e: Pipeline.Event, s': Pipeline.State)
    requires KernelOk(ker) && Pipeline.Sized(s, n, steps) && Pipeline.Step(ker, n, steps, s, e, s')
    ensures Pipeline.Enabled(ker, n, steps, s, e)
  {
  }

  /** A step has one outcome. */
  lemma StepOnce(ker: Kernel, n: nat, steps: nat, s: Pipeline.State, e: Pipeline.Event, s1: Pipeline.State, s2: Pipeline.State)
    requires KernelOk(ker) && Pipeline.Sized(s, n, steps) && Pipeline.Step(ker, n, steps, s, e, s1) && Pipeline.Step(ker, n, steps, s, e, s2)
    ensures s1 == s2
  {
    hide Start, End, Overlaps, Pipeline.Corrected;
    match e {
      case Correct(i, c) =>
        var p: nat :| p < HWCONC && Start(p, n) <= c - ker.offs[i] < End(p, n) && (s.resolved + 1, p) in s.used
                      && s1 == Pipeline.Corrected(ker, s, n, steps, i, c, p);
        var q: nat :| q < HWCONC && Start(q, n) <= c - ker.offs[i] < End(q, n) && (s.resolved + 1, q) in s.used
                      && s2 == Pipeline.Corrected(ker, s, n, steps, i, c, q);
        Tiles(c - ker.offs[i], n, p);
        Tiles(c - ker.offs[i], n, q);
      case _ =>
    }
  }

  lemma DetachStep(ker: Kernel, n: nat, steps: nat, s: Pipeline.State, k: nat, p: nat)
    requires KernelOk(ker) && Pipeline.Sized(s, n, steps) && Pipeline.Enabled(ker, n, steps, s, Pipeline.Detach(k, p)) && 1 <= k <= |s.data|
    ensures Pipeline.Step(ker, n, steps, s, Pipeline.Detach(k, p), s.(used := s.used[(k, p) := s.data[k - 1]]))
  {
  }

  lemma CorrectStep(ker: Kernel, n: nat, steps: nat, s: Pipeline.State, i: nat, c: int, p: nat)
    requires KernelOk(ker) && Pipeline.Sized(s, n, steps) && Pipeline.Enabled(ker, n, steps, s, Pipeline.Correct(i, c))
    requires s.resolved < steps && i < |ker.offs| && 0 <= c < n && 0 <= c - ker.offs[i] < n && p < HWCONC
    requires Start(p, n) <= c - ker.offs[i] < End(p, n) && (s.resolved + 1, p) in s.used
    ensures Pipeline.Step(ker, n, steps, s, Pipeline.Correct(i, c), Pipeline.Corrected(ker, s, n, steps, i, c, p))
  {
    hide Overlaps, Start, End, Pipeline.Corrected;
  }

  /** What the vector shows after the correction; nothing changes if there is no difference. */
  lemma AmendIs(ker: Kernel, s: Pipeline.State, n: nat, steps: nat, i: nat, c: int, p: nat, diff: real)
    requires KernelOk(ker) && Pipeline.Sized(s, n, steps)
    requires s.resolved < steps && i < |ker.offs| && 0 <= c < n && 0 <= c - ker.offs[i] < n && (s.resolved + 1, p) in s.used
    requires diff == s.data[s.resolved][c] - s.used[(s.resolved + 1, p)][c]
    ensures var k, t := s.resolved + 1, c - ker.offs[i];
            Pipeline.Corrected(ker, s, n, steps, i, c, p).data[k] ==
              if diff == 0.0 then s.data[k] else s.data[k][t := s.data[k][t] + ker.coefs[i] * diff]
  {
    var k, t := s.resolved + 1, c - ker.offs[i];
    assert Delta(ker, s.data[k - 1], s.used[(k, p)], i, c) == ker.coefs[i] * diff;
    if diff == 0.0 {
      assert ker.coefs[i] * diff == 0.0;
      assert s.data[k][t := s.data[k][t] + 0.0] == s.data[k];
    }
  }

  lemma AmendedOk(m: Mem<real>, m': Mem<real>, r: Node<real>, r': Node<real>, view: seq<real>, now: seq<real>, k: nat, shift: nat, ws: seq<Owner>)
    requires MemOk(m) && MemOk(m') && ItemOk(m, Item(r, view, k), shift, ws)
    requires HandleOk(m', r', shift, |now|) && Contents(m', r', shift, |now|) == now
    requires 1 <= k < |ws| && Follows(m, m', r, r', ws[k])
    requires forall j | 0 <= j < |ws| :: ws[j].kind == Tr && (j != k ==> ws[j].id != ws[k].id)
    ensures ItemOk(m', Item(r', now, k), shift, ws)
  {
    hide Contents, Avoids, Follows, Find;
    forall j | 1 <= j < |ws| && j != k
      ensures Avoids(m', r', ws[j])
    {
      FollowsAvoids(m, m', r, r', ws[j], ws[k]);
    }
  }

  lemma ReattachStep(ker: Kernel, n: nat, steps: nat, s: Pipeline.State, k: nat, p: nat)
    requires KernelOk(ker) && Pipeline.Sized(s, n, steps) && Pipeline.Enabled(ker, n, steps, s, Pipeline.Reattach(k, p))
    requires (k, p) in s.used && k < |s.data| && |s.used[(k, p)]| == |s.data[k]|
    ensures var s' := s.(data := s.data[k := Pipeline.Spliced(ker, s.data[k], s.used[(k, p)], p)], joined := s.joined + {(k, p)});
            Pipeline.Step(ker, n, steps, s, Pipeline.Reattach(k, p), s') && Pipeline.Sized(s', n, steps)
  {
  }

  /** Copying a worker's range of its splinter splices in what the stencil makes of its snapshot. */
  lemma SplicedIs(offs: seq<int>, coefs: seq<real>, d: seq<real>, u: seq<real>, p: nat, r: nat)
    requires |offs| == |coefs| > 0 && |u| == |d| && p < HWCONC && Within(Full(offs, coefs), r) && Wide(|d|, r)
    requires Start(p, |d|) <= End(p, |d|)
    ensures d[..Start(p, |d|)] + Splinter(u, offs, coefs, p)[Start(p, |d|)..End(p, |d|)] + d[End(p, |d|)..] ==
            Pipeline.Spliced(Full(offs, coefs), d, u, p)
  {
    hide Start, End, Next, Swept;
    SweptComputes(offs, coefs, u, p, r);
  }

  lemma KeyAdds(out: set<(nat, nat)>, joined: set<(nat, nat)>, all: set<(nat, nat)>, x: (nat, nat))
    requires out !! joined && out + joined == all && x !in all
    ensures out + {x} !! joined && out + {x} + joined == all + {x}
  {
  }

  lemma KeyMoves(out: set<(nat, nat)>, joined: set<(nat, nat)>, all: set<(nat, nat)>, x: (nat, nat))
    requires out !! joined && out + joined == all && x in out
    ensures out - {x} !! joined + {x} && out - {x} + (joined + {x}) == all
  {
  }

  lemma FitsIs(p: nat, n: nat, shift: nat)
    requires Foreach.ShareFits(p, n, shift)
    ensures Start(p, n) < End(p, n) <= n && Faithful(Start(p, n), End(p, n), shift)
  {
  }

  /** After `assign` the target is out of reach of the other writers, as both vectors were before. */
  lemma AbsorbedOk(m: Mem<real>, m': Mem<real>, mine: Node<real>, other: Node<real>, r: Node<real>, view: seq<real>, splt: seq<real>,
                   now: seq<real>, k: nat, shift: nat, ws: seq<Owner>)
    requires MemOk(m) && MemOk(m') && ItemOk(m, Item(mine, view, k), shift, ws) && ItemOk(m, Item(other, splt, 0), shift, ws)
    requires HandleOk(m', r, shift, |now|) && Contents(m', r, shift, |now|) == now
    requires 1 <= k < |ws| && Inherits(m, mine, other, ws[k], m', r)
    requires forall j | 0 <= j < |ws| :: ws[j].kind == Tr && (j != k ==> ws[j].id != ws[k].id)
    ensures ItemOk(m', Item(r, now, k), shift, ws)
  {
    hide Contents, Avoids;
    forall j | 1 <= j < |ws| && j != k
      ensures Avoids(m', r, ws[j])
    {
      assert Avoids(m, mine, ws[j]) && Avoids(m, other, ws[j]);
    }
  }

  /** Pipelined stencils on the tries: whatever the order of the tasks and of the corrections, every resolved vector
      shows as many sweeps over the first one, as long as contended indices are two radii from the ends when a
      resolution ends. */
  method PipelinedOnTries(g: Glob<real>, v: Vec<real>, offs: seq<int>, coefs: seq<real>, steps: nat,
                          events: seq<Pipeline.Event>, ghost run: seq<Pipeline.State>, ghost r: nat) returns (c: Stencils)
    requires v.Valid(g) && v.owner.kind == Tr && v.sz > 0 && |offs| == |coefs| > 0
    requires Within(Full(offs, coefs), r) && Wide(v.sz, r) && Foreach.SharesOk(v.sz, v.shift)
    requires Pipeline.IsRun(Full(offs, coefs), v.sz, steps, run, events) && run[0] == Copies(v.View(g), steps)
    modifies v, g`unique_id, g`nodes, v.Mine(g)
    ensures |c.data| == steps + 1 && c.resolved == run[|run| - 1].resolved <= steps
    ensures forall k | 0 <= k <= steps :: c.data[k].Valid(g) && k < |run[|run| - 1].data| && c.data[k].View(g) == run[|run| - 1].data[k]
    ensures Pipeline.InlandRun(old(v.sz), r, run, events) ==>
              forall k | 0 <= k <= c.resolved :: c.data[k].View(g) == Sweeps(Full(offs, coefs), old(v.View(g)), k)
    ensures steps > 0 && (steps + 1) * r <= old(v.sz) - Start(HWCONC - 1, old(v.sz)) ==>
              forall k | 0 <= k <= c.resolved :: c.data[k].View(g) == Sweeps(Full(offs, coefs), old(v.View(g)), k)
  {
    hide Stencils.Inv, Stencils.Keys, Pipeline.IsRun, Contents, HandleOk, MemOk, Wide, Within, Foreach.SharesOk, Pipeline.Init, Pipeline.InlandRun, Sweeps;
    ghost var d, n, ker := v.View(g), v.sz, Full(offs, coefs);
    CopiesInit(d, steps);
    RunSize(ker, n, steps, run, events);
    c := new Stencils(g, v, offs, coefs, steps);
    c.Run(run, events, r);
    c.Shows();
    if Pipeline.InlandRun(n, r, run, events) {
      Pipeline.Pipelined(ker, n, steps, r, d, run, events);
    }
    if steps > 0 && (steps + 1) * r <= n - Start(HWCONC - 1, n) {
      Pipeline.DeepPipelined(ker, n, steps, r, d, run, events);
    }
  }

  lemma RunSize(ker: Kernel, n: nat, steps: nat, run: seq<Pipeline.State>, events: seq<Pipeline.Event>)
    requires KernelOk(ker) && Pipeline.IsRun(ker, n, steps, run, events)
    ensures |run| == |events| + 1
  {
  }

  lemma CopiesInit(d: seq<real>, steps: nat)
    ensures Pipeline.Init(Copies(d, steps), d, steps)
  {
  }
}
