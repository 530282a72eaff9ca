/** The node heap as a mutable object: allocation, path copying and writes, each with its effect on every reader. */
module Heap {
  import opened Radix
  import opened Nodes

  datatype Kind = Bp | Ps | Tr

  /** Who writes: the vector class and the id of the handle. */
  datatype Owner = Owner(kind: Kind, id: int) {
    /** `node_copy_impl` of the three vector classes: whether a node with that id must be copied before a write */
    predicate NodeCopy(other: int) {
      match kind
      case Bp => false
      case Ps => true
      case Tr => id != other
    }
  }

  /** Every reader of an old node sees what it saw outside [a, b). */
  ghost predicate SameOutside<T>(m: Mem<T>, m': Mem<T>, a: int, b: int)
    requires MemOk(m) && MemOk(m')
  {
    && m.Keys <= m'.Keys
    && forall r, i: nat {:trigger Find(m', r, i)} :: 
         r in m && Covers(r, i) && !(a <= i < b) ==> Find(m', r, i) == Find(m, r, i)
  }

  /** Every reader of an old node sees what it saw. */
  ghost predicate SameView<T>(m: Mem<T>, m': Mem<T>)
    requires MemOk(m) && MemOk(m')
  {
    SameOutside(m, m', 0, 0)
  }

  lemma SameOutsideTrans<T>(m0: Mem<T>, m1: Mem<T>, m2: Mem<T>, a: int, b: int)
    requires MemOk(m0) && MemOk(m1) && MemOk(m2)
    requires SameOutside(m0, m1, a, b) && SameOutside(m1, m2, a, b)
    ensures SameOutside(m0, m2, a, b)
  {
    forall r, i: nat | r in m0 && Covers(r, i) && !(a <= i < b)
      ensures Find(m2, r, i) == Find(m0, r, i)
    {
      assert Find(m1, r, i) == Find(m0, r, i);
    }
  }

  /** A fresh node changes no reader's view. */
  lemma AllocView<T>(m: Mem<T>, n: Node<T>, b: Body<T>)
    requires MemOk(m) && n !in m && BodyOk(m, n, b)
    ensures MemOk(m[n := b]) && SameView(m, m[n := b])
    ensures forall r, x, i: nat {:trigger Passes(m[n := b], r, x, i)} :: r in m && Passes(m, r, x, i) ==> Passes(m[n := b], r, x, i)
  {
    StoreOk(m, n, b);
    var m' := m[n := b];
    forall r, i: nat | r in m && Covers(r, i)
      ensures Find(m', r, i) == Find(m, r, i)
    {
      FreshNotPassed(m, n, r, i);
      StoreElsewhere(m, n, b, r, i);
    }
    forall r, x, i: nat | r in m && Passes(m, r, x, i)
      ensures Passes(m', r, x, i)
    {
      FreshNotPassed(m, n, r, i);
      StorePasses(m, n, b, r, x, i);
    }
  }

  lemma CopyBodyOk<T>(m: Mem<T>, c: Node<T>, c': Node<T>)
    requires MemOk(m) && c in m && c'.s == c.s && c'.lo == c.lo
    ensures BodyOk(m, c', m[c])
  {
    assert BodyOk(m, c, m[c]);
    if c.s > 0 {
      forall j: nat | j < W
        ensures m[c].kids[j] == null || ChildOk(m, c', j, m[c].kids[j])
      {
        assert m[c].kids[j] == null || ChildOk(m, c, j, m[c].kids[j]);
      }
    }
  }

  /** A fresh copy shows what the original shows. */
  lemma CopyReads<T>(m: Mem<T>, c: Node<T>, c': Node<T>, i: nat)
    requires MemOk(m) && c in m && c' !in m && c'.s == c.s && c'.lo == c.lo && MemOk(m[c' := m[c]])
    ensures Find(m[c' := m[c]], c', i) == Find(m, c, i)
  {
    CopyBodyOk(m, c, c');
    StoreHere(m, c', m[c], i);
    assert BodyOk(m, c, m[c]);
  }

  /** A branch array that leads every index to the same element changes no reader's view. */
  lemma GraftView<T>(m: Mem<T>, n: Node<T>, b: Body<T>, a: int, z: int)
    requires MemOk(m) && n in m && BodyOk(m, n, b)
    requires forall i: nat :: Covers(n, i) && !(a <= i < z) ==> FindIn(m, n, b, i) == Find(m, n, i)
    ensures MemOk(m[n := b]) && SameOutside(m, m[n := b], a, z)
  {
    StoreOk(m, n, b);
    var m' := m[n := b];
    forall r, i: nat | r in m && Covers(r, i) && !(a <= i < z)
      ensures Find(m', r, i) == Find(m, r, i)
    {
      if Passes(m, r, n, i) {
        StoreThrough(m, n, b, r, i);
        PassesFind(m, r, n, i);
        PassesCovers(m, r, n, i);
      } else {
        StoreElsewhere(m, n, b, r, i);
      }
    }
  }

  /** Linking a kid at slot k matters only to the indices of that slot. */
  lemma LinkBodyOk<T>(m: Mem<T>, n: Node<T>, k: nat, c: Node<T>)
    requires MemOk(m) && n in m && n.s > 0 && k < W && ChildOk(m, n, k, c)
    ensures m[n].Branches? && |m[n].kids| == W
    ensures BodyOk(m, n, Branches(m[n].kids[k := c]))
  {
    assert BodyOk(m, n, m[n]);
    var kids := m[n].kids[k := c];
    forall j: nat | j < W
      ensures kids[j] == null || ChildOk(m, n, j, kids[j])
    {
      assert m[n].kids[j] == null || ChildOk(m, n, j, m[n].kids[j]);
    }
  }

  lemma RedirectView<T>(m: Mem<T>, n: Node<T>, k: nat, c: Node<T>, c': Node<T>)
    requires MemOk(m) && n in m && n.s > 0 && k < W && c' !in m && c'.s == c.s && c'.lo == c.lo
    requires m[n].Branches? && |m[n].kids| == W && m[n].kids[k] == c
    ensures c in m
    ensures var m2 := m[c' := m[c]][n := Branches(m[n].kids[k := c'])]; MemOk(m2) && SameView(m, m2)
  {
    KidOk(m, n, k);
    CopyBodyOk(m, c, c');
    AllocView(m, c', m[c]);
    var m1 := m[c' := m[c]];
    LinkBodyOk(m1, n, k, c');
    var b := Branches(m1[n].kids[k := c']);
    forall i: nat | Covers(n, i)
      ensures FindIn(m1, n, b, i) == Find(m1, n, i)
    {
      ChildCovers(m, n, i);
      if Slot(i, n.s) == k {
        CopyReads(m, c, c', i);
        assert Find(m1, c, i) == Find(m, c, i);
      }
    }
    GraftView(m1, n, b, 0, 0);
    SameOutsideTrans(m, m1, m1[n := b], 0, 0);
  }

  /** The trie under `n'` in `m'` is the trie under `n` in `m`, some of its nodes replaced by copies made under the owner's id. */
  ghost predicate Follows<T>(m: Mem<T>, m': Mem<T>, n: Node<T>, n': Node<T>, o: Owner)
    requires MemOk(m) && MemOk(m') && n in m && n' in m'
    decreases n.s
  {
    && (n' == n || (n' !in m && o.NodeCopy(n.id) && n'.id == o.id)) && n'.s == n.s && n'.lo == n.lo
    && assert BodyOk(m, n, m[n]) && BodyOk(m', n', m'[n']);
       n.s > 0 ==> forall k: nat | k < W ::
         var c, c' := m[n].kids[k], m'[n'].kids[k];
         if c == null || c' == null then c == c' else Follows(m, m', c, c', o)
  }

  lemma FollowsKid<T>(m: Mem<T>, m': Mem<T>, n: Node<T>, n': Node<T>, o: Owner, k: nat)
    requires MemOk(m) && MemOk(m') && n in m && n' in m' && Follows(m, m', n, n', o) && n.s > 0 && k < W
    ensures n'.s == n.s && m[n].Branches? && |m[n].kids| == W && m'[n'].Branches? && |m'[n'].kids| == W
    ensures var c, c' := m[n].kids[k], m'[n'].kids[k];
            if c == null || c' == null then c == c'
            else c in m && c' in m' && c.s < n.s && Follows(m, m', c, c', o)
  {
    KidOk(m, n, k);
    KidOk(m', n', k);
  }

  lemma {:induction false} FollowsTrans<T>(m0: Mem<T>, m1: Mem<T>, m2: Mem<T>, n0: Node<T>, n1: Node<T>, n2: Node<T>, o: Owner)
    requires MemOk(m0) && MemOk(m1) && MemOk(m2) && n0 in m0 && n1 in m1 && n2 in m2 && m0.Keys <= m1.Keys
    requires Follows(m0, m1, n0, n1, o) && Follows(m1, m2, n1, n2, o)
    ensures Follows(m0, m2, n0, n2, o)
    decreases n0.s
  {
    assert BodyOk(m0, n0, m0[n0]) && BodyOk(m2, n2, m2[n2]);
    if n0.s > 0 {
      forall k: nat | k < W
        ensures var c, c' := m0[n0].kids[k], m2[n2].kids[k];
                if c == null || c' == null then c == c'
                else c in m0 && c' in m2 && c.s < n0.s && Follows(m0, m2, c, c', o)
      {
        FollowsKid(m0, m1, n0, n1, o, k);
        FollowsKid(m1, m2, n1, n2, o, k);
        if m0[n0].kids[k] != null {
          FollowsTrans(m0, m1, m2, m0[n0].kids[k], m1[n1].kids[k], m2[n2].kids[k], o);
        }
        KidOk(m0, n0, k);
        KidOk(m2, n2, k);
      }
    }
  }

  /** Every old trie keeps its nodes, but for copies made under the owner's id. */
  ghost predicate KeepsShape<T>(m: Mem<T>, m': Mem<T>, o: Owner)
    requires MemOk(m) && MemOk(m')
  {
    m.Keys <= m'.Keys && forall r | r in m :: Follows(m, m', r, r, o)
  }

  /** Path copying: invisible to every reader. */
  ghost predicate Neutral<T>(m: Mem<T>, m': Mem<T>, o: Owner)
    requires MemOk(m) && MemOk(m')
  {
    SameView(m, m') && KeepsShape(m, m', o)
  }

  lemma KeepsShapeTrans<T>(m0: Mem<T>, m1: Mem<T>, m2: Mem<T>, o: Owner)
    requires MemOk(m0) && MemOk(m1) && MemOk(m2)
    requires KeepsShape(m0, m1, o) && KeepsShape(m1, m2, o)
    ensures KeepsShape(m0, m2, o)
  {
    forall r | r in m0 ensures Follows(m0, m2, r, r, o) {
      FollowsTrans(m0, m1, m2, r, r, r, o);
    }
  }

  lemma NeutralTrans<T>(m0: Mem<T>, m1: Mem<T>, m2: Mem<T>, o: Owner)
    requires MemOk(m0) && MemOk(m1) && MemOk(m2) && Neutral(m0, m1, o) && Neutral(m1, m2, o)
    ensures Neutral(m0, m2, o)
  {
    SameOutsideTrans(m0, m1, m2, 0, 0);
    KeepsShapeTrans(m0, m1, m2, o);
  }

  /** Nothing but a leaf array, or a node not yet there, differs. */
  lemma {:induction false} FollowsStore<T>(m: Mem<T>, n: Node<T>, b: Body<T>, r: Node<T>, o: Owner)
    requires MemOk(m) && MemOk(m[n := b]) && r in m && (n !in m || n.s == 0)
    ensures Follows(m, m[n := b], r, r, o)
    decreases r.s
  {
    var m' := m[n := b];
    assert BodyOk(m, r, m[r]) && BodyOk(m', r, m'[r]);
    if r.s > 0 {
      forall k: nat | k < W
        ensures m[r].kids[k] == null || Follows(m, m', m[r].kids[k], m[r].kids[k], o)
      {
        KidOk(m, r, k);
        if m[r].kids[k] != null { FollowsStore(m, n, b, m[r].kids[k], o); }
      }
    }
  }

  lemma {:induction false} FollowsRedirect<T>(m: Mem<T>, n: Node<T>, k: nat, c: Node<T>, c': Node<T>, r: Node<T>, o: Owner)
    requires MemOk(m) && n in m && n.s > 0 && k < W && c' !in m && c'.s == c.s && c'.lo == c.lo && o.NodeCopy(c.id) && c'.id == o.id
    requires m[n].Branches? && |m[n].kids| == W && m[n].kids[k] == c && c in m
    requires MemOk(m[c' := m[c]][n := Branches(m[n].kids[k := c'])]) && r in m
    ensures Follows(m, m[c' := m[c]][n := Branches(m[n].kids[k := c'])], r, r, o)
    decreases r.s
  {
    var m' := m[c' := m[c]][n := Branches(m[n].kids[k := c'])];
    assert BodyOk(m, r, m[r]) && BodyOk(m', r, m'[r]);
    if r.s > 0 {
      forall j: nat | j < W
        ensures m[r].kids[j] == null || Follows(m, m', m[r].kids[j], m[r].kids[j], o)
      {
        KidOk(m, r, j);
        if m[r].kids[j] != null { FollowsRedirect(m, n, k, c, c', m[r].kids[j], o); }
      }
      if r == n {
        FollowsCopy(m, m', c, c', o, n, k);
      }
    }
  }

  lemma FollowsCopy<T>(m: Mem<T>, m': Mem<T>, c: Node<T>, c': Node<T>, o: Owner, n: Node<T>, k: nat)
    requires MemOk(m) && MemOk(m') && c in m && c' !in m && c' in m' && c'.s == c.s && c'.lo == c.lo && o.NodeCopy(c.id) && c'.id == o.id
    requires n in m && n.s > 0 && k < W && m[n].Branches? && |m[n].kids| == W && m[n].kids[k] == c
    requires m' == m[c' := m[c]][n := Branches(m[n].kids[k := c'])]
    requires m.Keys <= m'.Keys && Follows(m, m', c, c, o)
    ensures Follows(m, m', c, c', o)
  {
    KidOk(m, n, k);
    assert BodyOk(m, c, m[c]) && BodyOk(m', c', m'[c']);
    if c.s > 0 {
      forall j: nat | j < W
        ensures m[c].kids[j] == null || Follows(m, m', m[c].kids[j], m[c].kids[j], o)
      {
        FollowsKid(m, m', c, c, o, j);
      }
    }
  }

  /** `unique_id`, the value-initialised element, and every node ever allocated. */
  class Glob<T> {
    var unique_id: int
    const zero: T
    ghost var nodes: set<Node<T>>

    ghost function Mem(): Mem<T>
      reads this, nodes
    {
      map n | n in nodes :: n.u
    }

    ghost predicate Valid()
      reads this, nodes
    {
      MemOk(Mem()) && forall n | n in nodes :: n.id < unique_id
    }

    constructor (zero: T)
      ensures Valid() && nodes == {} && this.zero == zero && unique_id == 1
    {
      this.zero, unique_id, nodes := zero, 1, {};
    }

    method GetUniqueId() returns (id: int)
      requires Valid()
      modifies this`unique_id
      ensures Valid() && id == old(unique_id) && unique_id == id + 1 && Mem() == old(Mem())
    {
      id := unique_id;
      unique_id := unique_id + 1;
    }

    method Alloc(id: int, b: Body<T>, ghost s: nat, ghost lo: nat) returns (n: Node<T>)
      requires Valid() && id < unique_id
      requires BodyAt(Mem(), s, lo, b)
      modifies this`nodes
      ensures fresh(n) && nodes == old(nodes) + {n}
      ensures n.id == id && n.u == b && n.s == s && n.lo == lo
      ensures n !in old(Mem()) && Mem() == old(Mem())[n := b]
      ensures Valid() && SameView(old(Mem()), Mem())
    {
      ghost var m := Mem();
      n := new Node(id, b, s, lo);
      nodes := nodes + {n};
      assert BodyOk(m, n, b);
      AllocView(m, n, b);
      assert Mem() == m[n := b];
    }
  }
}
