/** The shared, owner-tagged nodes of the bit-partitioned trie, and what a reader can see through them. */
module Nodes {
  import opened Radix

  /** The tagged union inside a node: a branch array or a leaf array, held by value. */
  datatype Body<T> = Branches(kids: seq<Node?<T>>) | Leaves(vals: seq<T>)

  class Node<T> {
    const id: int
    var u: Body<T>
    /** The shift at which this node's digit is taken (0 for a leaf) and the first index below it. */
    ghost const s: nat
    ghost const lo: nat

    constructor (id: int, u: Body<T>, ghost s: nat, ghost lo: nat)
      ensures this.id == id && this.u == u && this.s == s && this.lo == lo
    {
      this.id, this.u, this.s, this.lo := id, u, s, lo;
    }
  }

  /** A snapshot of the node heap. */
  type Mem<T> = map<Node<T>, Body<T>>

  /** A branch at shift `s` whose range starts at `lo` may hold `c` at slot `k`. */
  ghost predicate ChildAt<T>(m: Mem<T>, s: nat, lo: nat, k: nat, c: Node<T>) {
    c in m && s >= BP_BITS && c.s == s - BP_BITS && c.lo == lo + k * Pow2(s)
  }

  ghost predicate BodyAt<T>(m: Mem<T>, s: nat, lo: nat, b: Body<T>) {
    && lo % Span(s) == 0
    && if s == 0 then b.Leaves? && |b.vals| == W
       else && s >= BP_BITS && b.Branches? && |b.kids| == W
            && forall k: nat :: k < W ==> b.kids[k] == null || ChildAt(m, s, lo, k, b.kids[k])
  }

  ghost predicate ChildOk<T>(m: Mem<T>, n: Node<T>, k: nat, c: Node<T>) {
    ChildAt(m, n.s, n.lo, k, c)
  }

  ghost predicate BodyOk<T>(m: Mem<T>, n: Node<T>, b: Body<T>) {
    BodyAt(m, n.s, n.lo, b)
  }

  /** Every node sits at one position, the same in every trie that reaches it. */
  ghost predicate MemOk<T>(m: Mem<T>) {
    forall n :: n in m ==> BodyOk(m, n, m[n])
  }

  ghost predicate Covers<T>(n: Node<T>, i: nat) {
    n.lo <= i < n.lo + Span(n.s)
  }

  datatype Option<T> = None | Some(value: T)

  /** What the digits of `i` select below `n`: an element, or nothing where a branch is missing. */
  ghost function Find<T>(m: Mem<T>, n: Node<T>, i: nat): Option<T>
    requires MemOk(m) && n in m
    decreases n.s
  {
    assert BodyOk(m, n, m[n]);
    if n.s == 0 then Some(m[n].vals[i % W])
    else
      var c := m[n].kids[Slot(i, n.s)];
      if c == null then None else Find(m, c, i)
  }

  /** What `n` would show if its body were `b`. */
  ghost function FindIn<T>(m: Mem<T>, n: Node<T>, b: Body<T>, i: nat): Option<T>
    requires MemOk(m) && BodyOk(m, n, b)
  {
    if n.s == 0 then Some(b.vals[i % W])
    else
      var c := b.kids[Slot(i, n.s)];
      if c == null then None else assert ChildOk(m, n, Slot(i, n.s), c); Find(m, c, i)
  }

  lemma KidOk<T>(m: Mem<T>, n: Node<T>, k: nat)
    requires MemOk(m) && n in m && n.s > 0 && k < W
    ensures m[n].Branches? && |m[n].kids| == W && n.s >= BP_BITS && n.lo % Span(n.s) == 0
    ensures m[n].kids[k] == null || ChildOk(m, n, k, m[n].kids[k])
  {
    assert BodyOk(m, n, m[n]);
  }

  lemma ChildCovers<T>(m: Mem<T>, n: Node<T>, i: nat)
    requires MemOk(m) && n in m && n.s > 0 && Covers(n, i)
    ensures m[n].Branches? && |m[n].kids| == W
    ensures var c := m[n].kids[Slot(i, n.s)]; c != null ==> c in m && Covers(c, i) && c.s < n.s
  {
    KidOk(m, n, Slot(i, n.s));
    SlotOf(n.lo, n.s, i);
    SpanStep(n.s);
  }

  /** Whether the digits of `i` lead from `r` through `n`. */
  ghost predicate Passes<T>(m: Mem<T>, r: Node<T>, n: Node<T>, i: nat)
    requires MemOk(m) && r in m
    decreases r.s
  {
    assert BodyOk(m, r, m[r]);
    r == n ||
    (r.s > 0 &&
     var c := m[r].kids[Slot(i, r.s)];
     c != null && Passes(m, c, n, i))
  }

  lemma {:induction false} PassesCovers<T>(m: Mem<T>, r: Node<T>, n: Node<T>, i: nat)
    requires MemOk(m) && r in m && Passes(m, r, n, i)
    ensures n in m && (n == r || n.s < r.s)
    ensures Covers(r, i) ==> Covers(n, i)
    decreases r.s
  {
    if r != n {
      KidOk(m, r, Slot(i, r.s));
      if Covers(r, i) { ChildCovers(m, r, i); }
      PassesCovers(m, m[r].kids[Slot(i, r.s)], n, i);
    }
  }

  /** Whether a node lies on the path depends only on its range. */
  lemma {:induction false} PassesAnywhere<T>(m: Mem<T>, r: Node<T>, n: Node<T>, i: nat, j: nat)
    requires MemOk(m) && r in m && Passes(m, r, n, i) && Covers(r, i) && Covers(n, j)
    ensures Covers(r, j) && Passes(m, r, n, j)
    decreases r.s
  {
    if r != n {
      var k := Slot(i, r.s);
      KidOk(m, r, k);
      ChildCovers(m, r, i);
      PassesAnywhere(m, m[r].kids[k], n, i, j);
      SpanStep(r.s);
      SlotUnique(r.lo, r.s, k, j);
    }
  }

  lemma {:induction false} PassesFind<T>(m: Mem<T>, r: Node<T>, n: Node<T>, i: nat)
    requires MemOk(m) && r in m && n in m && Passes(m, r, n, i)
    ensures Find(m, r, i) == Find(m, n, i)
    decreases r.s
  {
    if r != n {
      KidOk(m, r, Slot(i, r.s));
      PassesFind(m, m[r].kids[Slot(i, r.s)], n, i);
    }
  }

  lemma {:induction false} PassesKid<T>(m: Mem<T>, r: Node<T>, n: Node<T>, i: nat)
    requires MemOk(m) && r in m && n in m && n.s > 0 && Passes(m, r, n, i)
    ensures m[n].Branches? && |m[n].kids| == W
    ensures var c := m[n].kids[Slot(i, n.s)]; c != null ==> Passes(m, r, c, i)
    decreases r.s
  {
    KidOk(m, n, Slot(i, n.s));
    if r != n {
      KidOk(m, r, Slot(i, r.s));
      PassesKid(m, m[r].kids[Slot(i, r.s)], n, i);
    } else {
      var c := m[n].kids[Slot(i, n.s)];
      if c != null { assert Passes(m, c, c, i); }
    }
  }

  lemma {:induction false} NotAbove<T>(m: Mem<T>, r: Node<T>, n: Node<T>, i: nat)
    requires MemOk(m) && r in m && r.s < n.s
    ensures !Passes(m, r, n, i)
    decreases r.s
  {
    if r.s > 0 {
      KidOk(m, r, Slot(i, r.s));
      var c := m[r].kids[Slot(i, r.s)];
      if c != null { NotAbove(m, c, n, i); }
    }
  }

  // ---- what allocating or writing one node does to what every reader sees ----

  lemma BodyOkMono<T>(m: Mem<T>, m': Mem<T>, n: Node<T>, b: Body<T>)
    requires m.Keys <= m'.Keys && BodyOk(m, n, b)
    ensures BodyOk(m', n, b)
  {
    if n.s > 0 {
      forall k: nat | k < W
        ensures b.kids[k] == null || ChildOk(m', n, k, b.kids[k])
      {
        assert b.kids[k] == null || ChildOk(m, n, k, b.kids[k]);
      }
    }
  }

  lemma StoreOk<T>(m: Mem<T>, n: Node<T>, b: Body<T>)
    requires MemOk(m) && BodyOk(m, n, b)
    ensures MemOk(m[n := b])
  {
    var m' := m[n := b];
    forall x | x in m' ensures BodyOk(m', x, m'[x]) {
      BodyOkMono(m, m', x, m'[x]);
    }
  }

  /** Readers that do not pass the stored node, new or old, see no change. */
  lemma {:induction false} StoreElsewhere<T>(m: Mem<T>, n: Node<T>, b: Body<T>, r: Node<T>, i: nat)
    requires MemOk(m) && MemOk(m[n := b]) && r in m
    requires !Passes(m, r, n, i)
    ensures Find(m[n := b], r, i) == Find(m, r, i)
    decreases r.s
  {
    if r.s > 0 {
      KidOk(m, r, Slot(i, r.s));
      var c := m[r].kids[Slot(i, r.s)];
      if c != null { StoreElsewhere(m, n, b, c, i); }
    }
  }

  lemma FreshNotPassed<T>(m: Mem<T>, n: Node<T>, r: Node<T>, i: nat)
    requires MemOk(m) && r in m && n !in m
    ensures !Passes(m, r, n, i)
  {
    if Passes(m, r, n, i) { PassesCovers(m, r, n, i); }
  }

  /** The node itself shows what its new body says. */
  lemma StoreHere<T>(m: Mem<T>, n: Node<T>, b: Body<T>, i: nat)
    requires MemOk(m) && BodyOk(m, n, b) && MemOk(m[n := b])
    ensures Find(m[n := b], n, i) == FindIn(m, n, b, i)
  {
    if n.s > 0 {
      var c := b.kids[Slot(i, n.s)];
      if c != null {
        assert ChildOk(m, n, Slot(i, n.s), c);
        NotAbove(m, c, n, i);
        StoreElsewhere(m, n, b, c, i);
      }
    }
  }

  /** A store leaves the path down to the stored node in place, whatever the body. */
  lemma {:induction false} StorePasses<T>(m: Mem<T>, n: Node<T>, b: Body<T>, r: Node<T>, x: Node<T>, i: nat)
    requires MemOk(m) && MemOk(m[n := b]) && r in m
    requires Passes(m, r, x, i) && (x == n || !Passes(m, r, n, i))
    ensures Passes(m[n := b], r, x, i)
    decreases r.s
  {
    if r != x {
      KidOk(m, r, Slot(i, r.s));
      StorePasses(m, n, b, m[r].kids[Slot(i, r.s)], x, i);
    }
  }

  /** Readers that pass the stored node see what it now shows. */
  lemma StoreThrough<T>(m: Mem<T>, n: Node<T>, b: Body<T>, r: Node<T>, i: nat)
    requires MemOk(m) && n in m && BodyOk(m, n, b) && MemOk(m[n := b]) && r in m
    requires Passes(m, r, n, i)
    ensures Passes(m[n := b], r, n, i)
    ensures Find(m[n := b], r, i) == FindIn(m, n, b, i)
  {
    StorePasses(m, n, b, r, n, i);
    PassesFind(m[n := b], r, n, i);
    StoreHere(m, n, b, i);
  }
}
