/** `next_diff_ids`: finding the elements that may differ by comparing owner ids only. */
module DiffScan {
  import opened Radix
  import opened Nodes
  import opened Heap
  import opened Vector

  /** Every node of the trie was made before id `x` was handed out. */
  ghost predicate Older<T>(m: Mem<T>, a: Node<T>, x: int)
    requires MemOk(m) && a in m
    decreases a.s
  {
    && a.id < x
    && assert BodyOk(m, a, m[a]);
       a.s > 0 ==> forall k: nat | k < W :: m[a].kids[k] == null || Older(m, m[a].kids[k], x)
  }

  /** The trie under `b` is the trie under `a`, some of its nodes replaced by copies made under ids from `x` on. */
  ghost predicate Derived<T>(m: Mem<T>, a: Node<T>, b: Node<T>, x: int)
    requires MemOk(m) && a in m && b in m
    decreases a.s
  {
    a == b ||
    (&& a.id < x <= b.id && b.s == a.s && b.lo == a.lo
     && assert BodyOk(m, a, m[a]) && BodyOk(m, b, m[b]);
        a.s > 0 ==> forall k: nat | k < W ::
          var c, d := m[a].kids[k], m[b].kids[k];
          if c == null || d == null then c == d else Derived(m, c, d, x))
  }

  lemma DerivedKid<T>(m: Mem<T>, a: Node<T>, b: Node<T>, x: int, k: nat)
    requires MemOk(m) && a in m && b in m && Derived(m, a, b, x) && a.s > 0 && k < W
    ensures b.s == a.s && m[a].Branches? && |m[a].kids| == W && m[b].Branches? && |m[b].kids| == W
    ensures var c, d := m[a].kids[k], m[b].kids[k];
            if c == null || d == null then c == d
            else c in m && d in m && c.s < a.s && Derived(m, c, d, x)
  {
    KidOk(m, a, k);
    KidOk(m, b, k);
  }

  lemma {:induction false} OlderHeap<T>(m: Mem<T>, a: Node<T>, x: int)
    requires MemOk(m) && a in m && forall n | n in m :: n.id < x
    ensures Older(m, a, x)
    decreases a.s
  {
    if a.s > 0 {
      forall k: nat | k < W
        ensures m[a].kids[k] == null || Older(m, m[a].kids[k], x)
      {
        KidOk(m, a, k);
        if m[a].kids[k] != null { OlderHeap(m, m[a].kids[k], x); }
      }
    }
  }

  /** A write through a handle with a newer id leaves its trie derived from the frozen one. */
  lemma {:induction false} DerivedFollows<T>(m: Mem<T>, m': Mem<T>, a: Node<T>, b: Node<T>, b': Node<T>, x: int, o: Owner)
    requires MemOk(m) && MemOk(m') && a in m && b in m && b' in m' && m.Keys <= m'.Keys
    requires Older(m, a, x) && Derived(m, a, b, x) && Follows(m, m', b, b', o) && x <= o.id
    requires forall n | n in m && n.id < x :: m'[n] == m[n]
    ensures Derived(m', a, b', x) && Older(m', a, x)
    decreases a.s
  {
    assert BodyOk(m, a, m[a]) && BodyOk(m', a, m'[a]) && BodyOk(m', b', m'[b']);
    if a.s > 0 {
      forall k: nat | k < W
        ensures var c, d := m'[a].kids[k], m'[b'].kids[k];
                if c == null || d == null then c == d
                else c in m' && d in m' && c.s < a.s && Derived(m', c, d, x)
        ensures m'[a].kids[k] == null || Older(m', m'[a].kids[k], x)
      {
        DerivedKid(m, a, b, x, k);
        FollowsKid(m, m', b, b', o, k);
        if m[a].kids[k] != null {
          DerivedFollows(m, m', m[a].kids[k], m[b].kids[k], m'[b'].kids[k], x, o);
        }
      }
    }
  }

  /** Equal ids at one position mean the same node. */
  lemma SameIdSameNode<T>(m: Mem<T>, a: Node<T>, b: Node<T>, x: int)
    requires MemOk(m) && a in m && b in m && Derived(m, a, b, x) && a.id == b.id
    ensures a == b
  {
  }

  /** On the path of `i`, the ids differ at every shift from `t` up. */
  ghost predicate Differ<T>(m: Mem<T>, a: Node<T>, b: Node<T>, x: int, i: nat, t: nat)
    requires MemOk(m) && a in m && b in m && Derived(m, a, b, x)
    decreases a.s
  {
    a.s >= t ==>
      && a.id != b.id
      && (a.s > 0 ==>
            (DerivedKid(m, a, b, x, Slot(i, a.s));
             var c, d := m[a].kids[Slot(i, a.s)], m[b].kids[Slot(i, a.s)];
             c == null || Differ(m, c, d, x, i, t)))
  }

  /** A subtree with equal ids on the path of `i` starts at `i`: the scan never enters one in its middle. */
  ghost predicate Entry<T>(m: Mem<T>, a: Node<T>, b: Node<T>, x: int, i: nat)
    requires MemOk(m) && a in m && b in m && Derived(m, a, b, x)
    decreases a.s
  {
    a.lo == i ||
    (&& a.id != b.id
     && (a.s > 0 ==>
           (DerivedKid(m, a, b, x, Slot(i, a.s));
            var c, d := m[a].kids[Slot(i, a.s)], m[b].kids[Slot(i, a.s)];
            c == null || Entry(m, c, d, x, i))))
  }

  lemma PowDivides(s: nat, t: nat)
    requires s >= t
    ensures Pow2(s) % Pow2(t) == 0
  {
    Pow2Add(s - t, t);
    MultipleIs(Pow2(s - t), Pow2(t));
  }

  lemma ModOfMod(i: nat, p: nat, q: nat)
    requires p > 0 && q > 0 && i % p == 0 && p % q == 0
    ensures i % q == 0
  {
    var u, v := i / p, p / q;
    assert i == u * p && p == v * q;
    MulAssoc(u, v, q);
    MultipleIs(u * v, q);
  }

  /** Of two neighbouring aligned blocks, an aligned start above the first is the second or beyond. */
  lemma StartAbove(start: nat, i: nat, p: nat)
    requires p > 0 && start % p == 0 && i % p == 0 && i < start <= i + p
    ensures start == i + p
  {
    NextMultipleStart(i, p);
    AlignedApart(start, i + p, p);
  }

  lemma StartsAt(lo: nat, s: nat, i: nat, t: nat, p: nat, k: nat)
    requires lo % Span(s) == 0 && s >= t && p == Pow2(t) && i % p == 0 && k < W
    requires i < lo + k * Pow2(s) <= i + p
    ensures lo + k * Pow2(s) == i + p
  {
    StartAligned(lo, s, k, t);
    StartAbove(lo + k * Pow2(s), i, p);
  }

  /** The sub-block that holds i + 2^t but not i starts at i + 2^t. */
  lemma NextBlock(lo: nat, s: nat, i: nat, t: nat, p: nat, k: nat)
    requires lo % Span(s) == 0 && s >= t && p == Pow2(t) && i % p == 0 && k < W && Slot(i, s) != k
    requires lo + k * Pow2(s) <= i + p < lo + k * Pow2(s) + Pow2(s)
    ensures lo + k * Pow2(s) == i + p
  {
    StartsAfter(lo, s, k, i);
    StartsAt(lo, s, i, t, p, k);
  }

  lemma StartAligned(lo: nat, s: nat, k: nat, t: nat)
    requires lo % Span(s) == 0 && s >= t
    ensures (lo + k * Pow2(s)) % Pow2(t) == 0
  {
    ChildAligned(lo, s, k);
    PowDivides(s, t);
    ModOfMod(lo + k * Pow2(s), Pow2(s), Pow2(t));
  }

  lemma StartsAfter(lo: nat, s: nat, k: nat, i: nat)
    requires lo % Span(s) == 0 && k < W && Slot(i, s) != k && i < lo + k * Pow2(s) + Pow2(s)
    ensures i < lo + k * Pow2(s)
  {
    if lo + k * Pow2(s) <= i { SlotUnique(lo, s, k, i); assert false; }
  }

  /** After a block of ids that differ all the way up, the next block is again entered at a first index. */
  lemma {:induction false} NextEntry<T>(m: Mem<T>, a: Node<T>, b: Node<T>, x: int, i: nat, t: nat)
    requires MemOk(m) && a in m && b in m && Derived(m, a, b, x) && Differ(m, a, b, x, i, t)
    requires i % Pow2(t) == 0 && Covers(a, i) && Covers(a, i + Pow2(t)) && Levels(a.s, t)
    ensures Entry(m, a, b, x, i + Pow2(t))
    decreases a.s
  {
    var j := i + Pow2(t);
    if a.lo != j && a.s > 0 {
      var k := Slot(j, a.s);
      DerivedKid(m, a, b, x, k);
      DerivedKid(m, a, b, x, Slot(i, a.s));
      KidOk(m, a, k);
      var c, d := m[a].kids[k], m[b].kids[k];
      if c != null {
        if Slot(i, a.s) == k {
          ChildCovers(m, a, j);
          ChildCovers(m, a, i);
          SpanStep(a.s);
          if a.s > t { LevelDown(a.s, t); }
          NextEntry(m, c, d, x, i, t);
        } else {
          SlotOf(a.lo, a.s, j);
          NextBlock(a.lo, a.s, i, t, Pow2(t), k);
        }
      }
    }
  }

  lemma DifferHere<T>(m: Mem<T>, a: Node<T>, b: Node<T>, x: int, i: nat, t: nat)
    requires MemOk(m) && a in m && b in m && Derived(m, a, b, x) && a.s < t + BP_BITS && a.id != b.id
    ensures Differ(m, a, b, x, i, t)
  {
    if a.s > 0 {
      DerivedKid(m, a, b, x, Slot(i, a.s));
      KidOk(m, a, Slot(i, a.s));
    }
  }

  /** Ids that differ at one more level. */
  lemma {:induction false} DifferDown<T>(m: Mem<T>, a: Node<T>, b: Node<T>, x: int, i: nat, n: Node<T>, o: Node<T>)
    requires MemOk(m) && a in m && b in m && Derived(m, a, b, x) && n.s > 0 && Differ(m, a, b, x, i, n.s)
    requires Passes(m, a, n, i) && Passes(m, b, o, i) && n.s == o.s && n in m && o in m
    requires var k := Slot(i, n.s);
             m[n].Branches? && |m[n].kids| == W && m[o].Branches? && |m[o].kids| == W &&
             m[n].kids[k] != null && m[o].kids[k] != null && m[n].kids[k].id != m[o].kids[k].id
    ensures n.s >= BP_BITS && Differ(m, a, b, x, i, n.s - BP_BITS)
    decreases a.s
  {
    PassesCovers(m, a, n, i);
    PassesCovers(m, b, o, i);
    var k := Slot(i, a.s);
    DerivedKid(m, a, b, x, k);
    KidOk(m, a, k);
    KidOk(m, b, k);
    KidOk(m, n, Slot(i, n.s));
    if a == n {
      DifferHere(m, m[a].kids[k], m[b].kids[k], x, i, n.s - BP_BITS);
    } else {
      DifferDown(m, m[a].kids[k], m[b].kids[k], x, i, n, o);
    }
  }

  /** A shared node shows the same elements to both readers. */
  lemma SharedBlock<T>(m: Mem<T>, a: Node<T>, b: Node<T>, n: Node<T>, i: nat)
    requires MemOk(m) && a in m && b in m && n in m && Covers(a, i) && Covers(b, i)
    requires Passes(m, a, n, i) && Passes(m, b, n, i)
    ensures forall j: nat | Covers(n, j) :: Find(m, a, j) == Find(m, b, j)
  {
    forall j: nat | Covers(n, j)
      ensures Find(m, a, j) == Find(m, b, j)
    {
      PassesAnywhere(m, a, n, i, j);
      PassesAnywhere(m, b, n, i, j);
      PassesFind(m, a, n, j);
      PassesFind(m, b, n, j);
    }
  }

  ghost predicate SameOn<T>(m: Mem<T>, a: Node<T>, b: Node<T>, lo: int, hi: int)
    requires MemOk(m) && a in m && b in m
  {
    forall j: nat | lo <= j < hi :: Find(m, a, j) == Find(m, b, j)
  }

  /** On the path of every index of the range some id is shared. */
  ghost predicate Shared<T>(m: Mem<T>, a: Node<T>, b: Node<T>, x: int, lo: int, hi: int)
    requires MemOk(m) && a in m && b in m && Derived(m, a, b, x)
  {
    forall j: nat | lo <= j < hi :: !Differ(m, a, b, x, j, 0)
  }

  /** Paths that meet in a node do not differ all the way down. */
  lemma {:induction false} MeetShares<T>(m: Mem<T>, a: Node<T>, b: Node<T>, x: int, n: Node<T>, i: nat)
    requires MemOk(m) && a in m && b in m && Derived(m, a, b, x) && Passes(m, a, n, i) && Passes(m, b, n, i)
    ensures !Differ(m, a, b, x, i, 0)
    decreases a.s
  {
    PassesCovers(m, a, n, i);
    PassesCovers(m, b, n, i);
    if a.id != b.id {
      var k := Slot(i, a.s);
      DerivedKid(m, a, b, x, k);
      KidOk(m, a, k);
      KidOk(m, b, k);
      MeetShares(m, m[a].kids[k], m[b].kids[k], x, n, i);
    }
  }

  /** Two handles of one size, the second derived from the first. */
  ghost predicate Pair<T>(g: Glob<T>, a: Vec<T>, b: Vec<T>, x: int)
    reads g, g.nodes, a, b
  {
    a.Valid(g) && b.Valid(g) && a.sz == b.sz && a.shift == b.shift && Derived(g.Mem(), a.root, b.root, x)
  }

  /** One level of the descent: both children, and the entry condition for them. */
  lemma PairKid<T>(m: Mem<T>, a: Node<T>, b: Node<T>, x: int, i: nat)
    requires MemOk(m) && a in m && b in m && Derived(m, a, b, x) && a.s > 0 && a.id != b.id
    requires Covers(a, i) && Find(m, a, i).Some? && Entry(m, a, b, x, i)
    ensures a.s >= BP_BITS && b.s == a.s
    ensures m[a].Branches? && |m[a].kids| == W && m[b].Branches? && |m[b].kids| == W
    ensures var c, d := m[a].kids[Slot(i, a.s)], m[b].kids[Slot(i, a.s)];
            && c != null && d != null && c in m && d in m && c.s == a.s - BP_BITS && Covers(c, i)
            && Find(m, c, i).Some? && Derived(m, c, d, x) && Entry(m, c, d, x, i)
            && c.lo % Pow2(a.s) == 0
  {
    var k := Slot(i, a.s);
    DerivedKid(m, a, b, x, k);
    KidOk(m, a, k);
    KidOk(m, b, k);
    ChildCovers(m, a, i);
    ChildAligned(a.lo, a.s, k);
  }

  /** A shared subtree, entered at its first index, may be skipped whole. */
  lemma SkipBlock<T>(m: Mem<T>, a: Node<T>, b: Node<T>, x: int, i: nat, s: nat, n: Node<T>, sz: nat)
    requires MemOk(m) && a in m && b in m && n in m && Derived(m, a, b, x) && Differ(m, a, b, x, i, s)
    requires s >= BP_BITS && n.s == s - BP_BITS && n.lo == i && i % Pow2(s) == 0 && Levels(a.s, s)
    requires Passes(m, a, n, i) && Passes(m, b, n, i) && Covers(a, i) && a.lo == 0 && sz <= Span(a.s)
    ensures SameOn(m, a, b, i, i + Pow2(s)) && Shared(m, a, b, x, i, i + Pow2(s))
    ensures i + Pow2(s) < sz ==> Entry(m, a, b, x, i + Pow2(s))
  {
    SpanStep(s);
    SharedBlock(m, a, b, n, i);
    forall j: nat | i <= j < i + Pow2(s)
      ensures !Differ(m, a, b, x, j, 0)
    {
      PassesAnywhere(m, a, n, i, j);
      PassesAnywhere(m, b, n, i, j);
      MeetShares(m, a, b, x, n, j);
    }
    if i + Pow2(s) < sz {
      NextEntry(m, a, b, x, i, s);
    }
  }

  /** The two nodes that the scan for index `i` stands on, at shift `s`: all ids above them differ. */
  ghost predicate Cursor<T>(m: Mem<T>, a: Node<T>, b: Node<T>, n: Node<T>, o: Node<T>, x: int, i: nat, s: nat)
    requires MemOk(m) && a in m && b in m
  {
    && n in m && o in m && n.s == s && Levels(a.s, s) && Levels(s, 0) && Covers(a, i) && Covers(n, i)
    && Passes(m, a, n, i) && Passes(m, b, o, i) && Find(m, n, i).Some?
    && Derived(m, a, b, x) && Derived(m, n, o, x) && n.id != o.id
    && Entry(m, n, o, x, i) && Differ(m, a, b, x, i, s)
  }

  lemma CursorKids<T>(m: Mem<T>, a: Node<T>, b: Node<T>, n: Node<T>, o: Node<T>, x: int, i: nat, s: nat)
    requires MemOk(m) && a in m && b in m && Cursor(m, a, b, n, o, x, i, s) && s > 0
    ensures s >= BP_BITS && m[n].Branches? && |m[n].kids| == W && m[o].Branches? && |m[o].kids| == W
    ensures m[n].kids[Slot(i, s)] != null && m[o].kids[Slot(i, s)] != null
  {
    PairKid(m, n, o, x, i);
  }

  lemma CursorSkip<T>(m: Mem<T>, a: Node<T>, b: Node<T>, n: Node<T>, o: Node<T>, x: int, i: nat, s: nat, c: Node<T>, sz: nat)
    requires MemOk(m) && a in m && b in m && Cursor(m, a, b, n, o, x, i, s) && s > 0
    requires m[n].Branches? && |m[n].kids| == W && m[o].Branches? && |m[o].kids| == W
    requires m[n].kids[Slot(i, s)] == c && m[o].kids[Slot(i, s)] != null && m[o].kids[Slot(i, s)].id == c.id
    requires a.lo == 0 && sz <= Span(a.s)
    ensures SameOn(m, a, b, i, i + Pow2(s)) && Shared(m, a, b, x, i, i + Pow2(s))
    ensures i + Pow2(s) < sz ==> Entry(m, a, b, x, i + Pow2(s))
  {
    PairKid(m, n, o, x, i);
    PassesKid(m, a, n, i);
    PassesKid(m, b, o, i);
    SkipBlock(m, a, b, x, i, s, c, sz);
  }

  lemma CursorDown<T>(m: Mem<T>, a: Node<T>, b: Node<T>, n: Node<T>, o: Node<T>, x: int, i: nat, s: nat, c: Node<T>, d: Node<T>)
    requires MemOk(m) && a in m && b in m && Cursor(m, a, b, n, o, x, i, s) && s > 0
    requires m[n].Branches? && |m[n].kids| == W && m[o].Branches? && |m[o].kids| == W
    requires m[n].kids[Slot(i, s)] == c && m[o].kids[Slot(i, s)] == d && c.id != d.id
    ensures s >= BP_BITS && Cursor(m, a, b, c, d, x, i, s - BP_BITS)
  {
    PairKid(m, n, o, x, i);
    PassesKid(m, a, n, i);
    PassesKid(m, b, o, i);
    DifferDown(m, a, b, x, i, n, o);
    LevelDown(s, 0);
    LevelUp(s - BP_BITS);
    LevelsTrans(a.s, s, s - BP_BITS);
  }

  /** Walking down both tries side by side until a shared id, which covers `skip` indices, or the leaves. */
  method ScanPath<T>(g: Glob<T>, ra: Node<T>, rb: Node<T>, shift: nat, i: nat, ghost x: int, ghost sz: nat)
    returns (skip: nat)
    requires g.Valid() && ra in g.nodes && rb in g.nodes && Cursor(g.Mem(), ra, rb, ra, rb, x, i, shift)
    requires ra.lo == 0 && sz <= Span(ra.s)
    ensures skip == 0 ==> Differ(g.Mem(), ra, rb, x, i, 0)
    ensures SameOn(g.Mem(), ra, rb, i, i + skip) && Shared(g.Mem(), ra, rb, x, i, i + skip)
    ensures skip > 0 && i + skip < sz ==> Entry(g.Mem(), ra, rb, x, i + skip)
  {
    ghost var m := g.Mem();
    var node_a: Node<T>, node_b: Node<T> := ra, rb;
    var s: nat := shift;
    while s > 0
      invariant Cursor(m, ra, rb, node_a, node_b, x, i, s)
    {
      CursorKids(m, ra, rb, node_a, node_b, x, i, s);
      var next_a, next_b := node_a.u.kids[Slot(i, s)], node_b.u.kids[Slot(i, s)];
      if next_a.id == next_b.id {
        CursorSkip(m, ra, rb, node_a, node_b, x, i, s, next_a, sz);
        return Pow2(s);
      }
      CursorDown(m, ra, rb, node_a, node_b, x, i, s, next_a, next_b);
      node_a, node_b := next_a, next_b;
      s := s - BP_BITS;
    }
    skip := 0;
  }

  lemma PairCursor<T>(m: Mem<T>, a: Node<T>, b: Node<T>, shift: nat, sz: nat, i: nat, x: int)
    requires MemOk(m) && HandleOk(m, a, shift, sz) && b in m && Derived(m, a, b, x) && i < sz
    requires Entry(m, a, b, x, i) && a.id != b.id
    ensures Cursor(m, a, b, a, b, x, i, shift)
  {
    DifferHere(m, a, b, x, i, shift);
  }

  /** `c` is the correct answer of the scan from `i`: the first index whose path carries no shared id, or the size.
      Nothing skipped differs, and the scan may go on at c + 1. */
  ghost predicate NextDiff<T>(m: Mem<T>, a: Node<T>, b: Node<T>, x: int, sz: nat, i: nat, c: nat)
    requires MemOk(m) && a in m && b in m && Derived(m, a, b, x)
  {
    && (if i <= sz then i <= c <= sz else c == sz)
    && SameOn(m, a, b, i, c) && Shared(m, a, b, x, i, c)
    && (c < sz ==> Differ(m, a, b, x, c, 0))
    && (c + 1 < sz ==> Entry(m, a, b, x, c + 1))
  }

  lemma HitEntry<T>(m: Mem<T>, a: Node<T>, b: Node<T>, shift: nat, sz: nat, i: nat, x: int)
    requires MemOk(m) && HandleOk(m, a, shift, sz) && b in m && Derived(m, a, b, x) && i < sz && Differ(m, a, b, x, i, 0)
    ensures NextDiff(m, a, b, x, sz, i, i)
  {
    if i + 1 < sz {
      assert Pow2(0) == 1 && i % 1 == 0;
      NextEntry(m, a, b, x, i, 0);
    }
  }

  lemma NextDiffSkip<T>(m: Mem<T>, a: Node<T>, b: Node<T>, x: int, sz: nat, i: nat, skip: nat, c: nat)
    requires MemOk(m) && a in m && b in m && Derived(m, a, b, x) && i < sz
    requires SameOn(m, a, b, i, i + skip) && Shared(m, a, b, x, i, i + skip) && NextDiff(m, a, b, x, sz, i + skip, c)
    ensures NextDiff(m, a, b, x, sz, i, c)
  {
  }

  /** `next_diff_ids`: the next index from `i` on whose path carries no shared id. */
  method NextDiffIds<T>(g: Glob<T>, a: Vec<T>, b: Vec<T>, i: nat, ghost x: int) returns (c: nat)
    requires Pair(g, a, b, x) && (i < a.sz ==> Entry(g.Mem(), a.root, b.root, x, i))
    ensures NextDiff(g.Mem(), a.root, b.root, x, a.sz, i, c)
    decreases if i < a.sz then a.sz - i else 0
  {
    if i >= a.sz {
      return a.sz;
    }
    if a.root.id == b.root.id {
      SameIdSameNode(g.Mem(), a.root, b.root, x);
      return a.sz;
    }
    ghost var m := g.Mem();
    PairCursor(m, a.root, b.root, a.shift, a.sz, i, x);
    var skip := ScanPath(g, a.root, b.root, a.shift, i, x, a.sz);
    if skip > 0 {
      c := NextDiffIds(g, a, b, i + skip, x);
      NextDiffSkip(m, a.root, b.root, x, a.sz, i, skip, c);
    } else {
      HitEntry(m, a.root, b.root, a.shift, a.sz, i, x);
      c := i;
    }
  }
}
