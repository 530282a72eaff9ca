/** Whole runs of writes through one transient: what they do to it, and what other handles keep. */
module Edits {
  import opened Radix
  import opened Nodes
  import opened Heap
  import opened Vector
  import opened Isolation
  import opened Iterators
  import opened Assign

  /** `mut_set`, `mut_push_back`, writing through the mutable iterator from `begin() + i` on, and `assign` from one of
      several other vectors. */
  datatype Edit<T> = SetAt(i: nat, val: T) | Push(val: T) | Fill(i: nat, vals: seq<T>) | Take(k: nat, a: nat, b: nat)

  ghost function EditOne<T>(s: seq<T>, others: seq<seq<T>>, e: Edit<T>): seq<T> {
    match e
    case SetAt(i, val) => if i < |s| then s[i := val] else s
    case Push(val) => s + [val]
    case Fill(i, vals) => if i + |vals| <= |s| then s[..i] + vals + s[i + |vals|..] else s
    case Take(k, a, b) => if k < |others| && a < b <= |s| == |others[k]| then s[..a] + others[k][a..b] + s[b..] else s
  }

  ghost function Edited<T>(s: seq<T>, others: seq<seq<T>>, edits: seq<Edit<T>>): seq<T> {
    if edits == [] then s else EditOne(Edited(s, others, edits[..|edits| - 1]), others, edits[|edits| - 1])
  }

  /** A transient that owns its root while it is empty. */
  ghost predicate Writer<T>(g: Glob<T>, t: Vec<T>)
    reads g, g.nodes, t
  {
    t.Valid(g) && t.owner.kind == Tr && (t.sz == 0 ==> t.root.id == t.owner.id)
  }

  /** `*it = val; ++it` */
  method PutNext<T>(g: Glob<T>, t: Vec<T>, it: MutIterator<T>, val: T, ghost pos: nat)
    requires t.Valid(g) && it.Ready(g) && it.At(g.Mem(), pos) && pos < it.sz
    requires it.root == t.root && it.shift == t.shift && it.sz == t.sz && it.owner == t.owner
    modifies it`i, it`leaf, it`cur, g`nodes, t.Mine(g)
    ensures t.Valid(g) && it.Ready(g) && it.At(g.Mem(), pos + 1) && Grew(g, t.owner.id)
    ensures t.View(g) == old(t.View(g))[pos := val] && OnlyOwn(old(g.Mem()), g.Mem(), t.owner)
  {
    hide Find, OnlyOwn, KeepsShape, Follows, IterAt;
    ghost var m := g.Mem();
    HoldsPasses(m, t.root, it.leaf, pos, t.owner);
    it.Put(g, val, pos);
    ghost var m1 := g.Mem();
    SetContents(m, t.root, m1, t.root, t.shift, t.sz, pos, val);
    it.Inc(g, pos);
    SameViewHandle(m1, g.Mem(), t.root, t.shift, t.sz);
    OnlyOwnTrans(m, m1, g.Mem(), t.owner);
  }

  lemma FillsOne<T>(s: seq<T>, i: nat, vals: seq<T>, k: nat)
    requires i + |vals| <= |s| && k < |vals|
    ensures (s[..i] + vals[..k] + s[i + k..])[i + k := vals[k]] == s[..i] + vals[..k + 1] + s[i + k + 1..]
  {
  }

  method RunFill<T>(g: Glob<T>, t: Vec<T>, i: nat, vals: seq<T>)
    requires Writer(g, t) && i + |vals| <= t.sz && t.sz > 0
    modifies t`root, g`nodes, t.Mine(g)
    ensures Writer(g, t) && Grew(g, t.owner.id) && OnlyOwn(old(g.Mem()), g.Mem(), t.owner) && t.sz == old(t.sz)
    ensures t.View(g) == old(t.View(g))[..i] + vals + old(t.View(g))[i + |vals|..]
  {
    hide OnlyOwn, MutIterAt, HandleOk, Contents, MemOk, Follows, KeepsShape;
    ghost var m0, s := g.Mem(), t.View(g);
    var it := BeginAt(g, t, i);
    for k := 0 to |vals|
      invariant t.Valid(g) && it.Ready(g) && it.At(g.Mem(), i + k) && t.sz == |s|
      invariant it.root == t.root && it.shift == t.shift && it.sz == t.sz && it.owner == t.owner
      invariant Grew(g, t.owner.id) && OnlyOwn(m0, g.Mem(), t.owner)
      invariant t.View(g) == s[..i] + vals[..k] + s[i + k..]
    {
      ghost var m := g.Mem();
      FillsOne(s, i, vals, k);
      PutNext(g, t, it, vals[k], i + k);
      OnlyOwnTrans(m0, m, g.Mem(), t.owner);
    }
  }

  method RunSet<T>(g: Glob<T>, t: Vec<T>, i: nat, val: T)
    requires Writer(g, t) && i < t.sz
    modifies t`root, g`nodes, t.Mine(g)
    ensures Writer(g, t) && Grew(g, t.owner.id) && OnlyOwn(old(g.Mem()), g.Mem(), t.owner)
    ensures t.View(g) == old(t.View(g))[i := val]
  {
    t.MutSet(g, i, val);
  }

  method RunPush<T>(g: Glob<T>, t: Vec<T>, val: T)
    requires Writer(g, t)
    modifies t`root, t`shift, t`sz, g`nodes, t.Mine(g)
    ensures Writer(g, t) && Grew(g, t.owner.id) && OnlyOwn(old(g.Mem()), g.Mem(), t.owner)
    ensures t.View(g) == old(t.View(g)) + [val] && (old(Least(0, t.sz, t.shift)) ==> Least(0, t.sz, t.shift))
  {
    if Least(0, t.sz, t.shift) { PushedLeast(0, t.sz, t.shift); }
    t.MutPushBack(g, val);
  }

  /** Vectors that the writer only reads keep what they show. */
  ghost predicate Sources<T>(g: Glob<T>, t: Vec<T>, others: seq<Vec<T>>, os: seq<seq<T>>)
    reads g, g.nodes, set k | 0 <= k < |others| :: others[k]
  {
    && |os| == |others| && g.Valid()
    && forall k | 0 <= k < |others| ::
         others[k] != t && others[k].Valid(g) && Avoids(g.Mem(), others[k].root, t.owner) && others[k].View(g) == os[k]
  }

  lemma SourcesKept<T>(m: Mem<T>, g: Glob<T>, t: Vec<T>, others: seq<Vec<T>>, os: seq<seq<T>>)
    requires MemOk(m) && g.Valid() && OnlyOwn(m, g.Mem(), t.owner) && |os| == |others|
    requires forall k | 0 <= k < |others| ::
               others[k] != t && others[k].owner.id < g.unique_id && HandleOk(m, others[k].root, others[k].shift, others[k].sz)
               && Avoids(m, others[k].root, t.owner) && Contents(m, others[k].root, others[k].shift, others[k].sz) == os[k]
    ensures Sources(g, t, others, os)
  {
    hide OnlyOwn, Contents, Avoids, MemOk, Find;
    forall k | 0 <= k < |others|
      ensures others[k].Valid(g) && Avoids(g.Mem(), others[k].root, t.owner) && others[k].View(g) == os[k]
    {
      AvoidsContents(m, g.Mem(), others[k].root, others[k].shift, others[k].sz, t.owner);
    }
  }

  /** One edit; false where `assign` is not called within its bounds or would not copy its range in full. */
  method RunEdit<T>(g: Glob<T>, t: Vec<T>, others: seq<Vec<T>>, e: Edit<T>, ghost os: seq<seq<T>>) returns (ok: bool)
    requires Writer(g, t) && Sources(g, t, others, os)
    modifies t`root, t`shift, t`sz, g`nodes, t.Mine(g)
    ensures Writer(g, t) && Grew(g, t.owner.id) && OnlyOwn(old(g.Mem()), g.Mem(), t.owner) && Sources(g, t, others, os)
    ensures !e.Take? ==> ok
    ensures e.Take? ==>
              (ok <==> (e.k < |others| && e.a < e.b <= t.sz == others[e.k].sz ==>
                        t.shift == others[e.k].shift && Faithful(e.a, e.b, t.shift)))
    ensures ok ==> t.View(g) == EditOne(old(t.View(g)), os, e)
    ensures old(Least(0, t.sz, t.shift)) ==> Least(0, t.sz, t.shift)
  {
    hide OnlyOwn, Avoids, Contents, MemOk, Find, Faithful, Least;
    ghost var m := g.Mem();
    ok := true;
    OnlyOwnSelf(m, t.owner);
    match e {
      case SetAt(i, val) =>
        if i < t.sz { RunSet(g, t, i, val); }
      case Push(val) =>
        RunPush(g, t, val);
      case Fill(i, vals) =>
        if t.sz > 0 && i + |vals| <= t.sz { RunFill(g, t, i, vals); }
      case Take(k, a, b) =>
        if k < |others| && a < b <= t.sz == others[k].sz {
          ok := t.shift == others[k].shift && Faithful(a, b, t.shift);
          if ok {
            var done;
            ghost var c;
            done, c := Assign.Assign(g, t, others[k], a, b);
          }
        }
    }
    SourcesKept(m, g, t, others, os);
  }

  /** Every run of such edits refines the edits of the sequence, and a trie that reaches none of the writer's nodes
      keeps its contents. A shift that is the least one for the size, as it is for a new vector, stays so. */
  method RunEdits<T>(g: Glob<T>, t: Vec<T>, others: seq<Vec<T>>, edits: seq<Edit<T>>, ghost os: seq<seq<T>>,
                     ghost r: Node<T>, ghost shift: nat, ghost sz: nat) returns (ok: bool)
    requires Writer(g, t) && Sources(g, t, others, os)
    requires HandleOk(g.Mem(), r, shift, sz) && Avoids(g.Mem(), r, t.owner)
    modifies t`root, t`shift, t`sz, g`nodes, t.Mine(g)
    ensures Writer(g, t) && Sources(g, t, others, os) && HandleOk(g.Mem(), r, shift, sz) && Avoids(g.Mem(), r, t.owner)
    ensures Contents(g.Mem(), r, shift, sz) == old(Contents(g.Mem(), r, shift, sz))
    ensures (forall e | e in edits :: !e.Take?) ==> ok
    ensures ok ==> t.View(g) == Edited(old(t.View(g)), os, edits)
    ensures old(Least(0, t.sz, t.shift)) ==> Least(0, t.sz, t.shift)
  {
    hide OnlyOwn, Contents, Avoids, MemOk, Find, HandleOk, EditOne, Least;
    ghost var m0, s := g.Mem(), t.View(g);
    OnlyOwnSelf(m0, t.owner);
    AvoidsContents(m0, m0, r, shift, sz, t.owner);
    ok := true;
    for n := 0 to |edits|
      invariant Writer(g, t) && Grew(g, t.owner.id) && OnlyOwn(m0, g.Mem(), t.owner) && Sources(g, t, others, os)
      invariant HandleOk(g.Mem(), r, shift, sz) && Avoids(g.Mem(), r, t.owner) && Contents(g.Mem(), r, shift, sz) == old(Contents(g.Mem(), r, shift, sz))
      invariant t.View(g) == Edited(s, os, edits[..n]) && (old(Least(0, t.sz, t.shift)) ==> Least(0, t.sz, t.shift))
    {
      ghost var m := g.Mem();
      assert edits[..n + 1][..n] == edits[..n];
      ok := RunEdit(g, t, others, edits[n], os);
      OnlyOwnTrans(m0, m, g.Mem(), t.owner);
      AvoidsContents(m, g.Mem(), r, shift, sz, t.owner);
      if !ok {
        return;
      }
    }
    assert edits[..|edits|] == edits;
  }
}
