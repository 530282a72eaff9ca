/** `reduce`: detach, sum, reattach in any order, and a resolution by scanning for differences. */
module Reduce {
  import opened Radix
  import opened Nodes
  import opened Heap
  import opened Vector
  import opened Isolation
  import opened DiffScan
  import opened Iterators
  import opened Partition

  // ---- sums ----

  ghost function Sum(s: seq<real>): real {
    if s == [] then 0.0 else Sum(s[..|s| - 1]) + s[|s| - 1]
  }

  lemma SumNext(s: seq<real>, i: nat)
    requires i < |s|
    ensures Sum(s[..i + 1]) == Sum(s[..i]) + s[i]
  {
    assert s[..i + 1][..i] == s[..i];
  }

  lemma {:induction false} SumSplit(s: seq<real>, i: nat, j: nat)
    requires i <= j <= |s|
    ensures Sum(s[..j]) == Sum(s[..i]) + Sum(s[i..j])
  {
    if i < j {
      SumSplit(s, i, j - 1);
      SumNext(s, j - 1);
      assert s[i..j][..j - i - 1] == s[i..j - 1];
    } else {
      assert s[i..j] == [];
    }
  }

  lemma SumAppend(s: seq<real>, t: seq<real>)
    ensures Sum(s + t) == Sum(s) + Sum(t)
  {
    SumSplit(s + t, |s|, |s + t|);
    assert (s + t)[..|s|] == s && (s + t)[|s|..|s + t|] == t && (s + t)[..|s + t|] == s + t;
  }

  /** `cbegin() + a` stays in the first leaf, but behind the elements. */
  predicate Stray(a: nat, sz: nat) {
    0 < sz < a < W
  }

  /** From the second leaf on, no leaf is missing. */
  ghost predicate Whole(slots: seq<Option<real>>) {
    forall k | W <= k < |slots| :: slots[k].Some?
  }

  ghost function Values(slots: seq<Option<real>>): (v: seq<real>)
    ensures |v| == |slots|
  {
    seq(|slots|, k requires 0 <= k < |slots| => if slots[k].Some? then slots[k].value else 0.0)
  }

  /** What the loop from `cbegin() + a` to `cbegin() + b` adds. A stray one goes through all slots behind `a`, and then
      through all elements. */
  ghost function Share(s: seq<real>, slots: seq<Option<real>>, a: nat, b: nat): real
    requires b <= |s| && W <= |slots|
  {
    if Stray(a, |s|) then Sum(Values(slots)[a..]) + Sum(s) else if a <= b then Sum(s[a..b]) else 0.0
  }

  /** The worker's share of the sum. */
  ghost function PartSum(s: seq<real>, slots: seq<Option<real>>, p: nat): real
    requires W <= |slots|
  {
    Share(s, slots, Start(p, |s|), End(p, |s|))
  }

  /** The shares of the workers in `done`, among the first n. */
  ghost function Joined(s: seq<real>, slots: seq<Option<real>>, done: set<nat>, n: nat): real
    requires W <= |slots|
  {
    if n == 0 then 0.0 else Joined(s, slots, done, n - 1) + (if n - 1 in done then PartSum(s, slots, n - 1) else 0.0)
  }

  lemma {:induction false} JoinedOne(s: seq<real>, slots: seq<Option<real>>, done: set<nat>, n: nat, p: nat)
    requires p !in done && W <= |slots|
    ensures Joined(s, slots, done + {p}, n) == Joined(s, slots, done, n) + (if p < n then PartSum(s, slots, p) else 0.0)
  {
    if n > 0 { JoinedOne(s, slots, done, n - 1, p); }
  }

  lemma {:induction false} JoinedNone(s: seq<real>, slots: seq<Option<real>>, n: nat)
    requires W <= |slots|
    ensures Joined(s, slots, {}, n) == 0.0
  {
    if n > 0 { JoinedNone(s, slots, n - 1); }
  }

  /** What the first n workers add too much: a stray one adds slots that hold no element, and the whole sum once more. */
  ghost function Extra(s: seq<real>, slots: seq<Option<real>>, n: nat): real
    requires W <= |slots|
  {
    if n == 0 then 0.0 else
      Extra(s, slots, n - 1) + if Stray(Start(n - 1, |s|), |s|) then Sum(Values(slots)[Start(n - 1, |s|)..]) + Sum(s) else 0.0
  }

  /** How many of the first n workers are stray. */
  ghost function Strays(sz: nat, n: nat): nat {
    if n == 0 then 0 else Strays(sz, n - 1) + if Stray(Start(n - 1, sz), sz) then 1 else 0
  }

  /** What the slots without elements contribute. */
  ghost function Unused(slots: seq<Option<real>>, sz: nat, n: nat): real
    requires W <= |slots|
  {
    if n == 0 then 0.0 else
      Unused(slots, sz, n - 1) + if Stray(Start(n - 1, sz), sz) then Sum(Values(slots)[Start(n - 1, sz)..]) else 0.0
  }

  /** The same, by the number of stray workers, the frozen contents and the unused slots. */
  ghost function Surplus(s: seq<real>, slots: seq<Option<real>>): real
    requires W <= |slots|
  {
    Strays(|s|, HWCONC) as real * Sum(s) + Unused(slots, |s|, HWCONC)
  }

  lemma OnceMore(c: nat, x: real)
    ensures (c + 1) as real * x == c as real * x + x
  {
  }

  lemma {:induction false} ExtraIs(s: seq<real>, slots: seq<Option<real>>, n: nat)
    requires W <= |slots|
    ensures Extra(s, slots, n) == Strays(|s|, n) as real * Sum(s) + Unused(slots, |s|, n)
  {
    hide Sum, Values, Stray;
    if n > 0 {
      ExtraIs(s, slots, n - 1);
      OnceMore(Strays(|s|, n - 1), Sum(s));
    }
  }

  lemma SurplusIs(s: seq<real>, slots: seq<Option<real>>)
    requires W <= |slots|
    ensures Extra(s, slots, HWCONC) == Surplus(s, slots)
  {
    hide Strays, Unused, Sum, Extra;
    ExtraIs(s, slots, HWCONC);
  }

  /** All shares together are the sum, the partitions tiling the vector, and what stray workers add too much. */
  lemma {:induction false} JoinedAll(s: seq<real>, slots: seq<Option<real>>, done: set<nat>, n: nat)
    requires n <= HWCONC && W <= |slots| && forall p: nat | p < n :: p in done
    ensures Joined(s, slots, done, n) == Sum(s[..if Start(n, |s|) <= |s| then Start(n, |s|) else |s|]) + Extra(s, slots, n)
  {
    var sz := |s|;
    assert Start(0, sz) == 0;
    if n > 0 {
      JoinedAll(s, slots, done, n - 1);
      Shape(n - 1, sz);
      assert Start(n, sz) == Start(n - 1, sz) + Chunk(sz) by { assert Chunk(sz) * n == Chunk(sz) * (n - 1) + Chunk(sz); }
      if Start(n - 1, sz) <= sz {
        SumSplit(s, Start(n - 1, sz), End(n - 1, sz));
      }
    }
  }

  lemma AllShares(s: seq<real>, slots: seq<Option<real>>, done: set<nat>)
    requires W <= |slots| && forall p: nat | p < HWCONC :: p in done
    ensures Joined(s, slots, done, HWCONC) == Sum(s) + Extra(s, slots, HWCONC)
  {
    JoinedAll(s, slots, done, HWCONC);
    ChunkIs(|s|);
    assert s[..|s|] == s;
  }

  /** Equal stretches add equal amounts. */
  lemma {:induction false} SumSame(a: seq<real>, b: seq<real>, i: nat, j: nat)
    requires i <= j <= |a| && |a| == |b| && forall k | i <= k < j :: a[k] == b[k]
    ensures Sum(a[..j]) - Sum(a[..i]) == Sum(b[..j]) - Sum(b[..i])
  {
    SumSplit(a, i, j);
    SumSplit(b, i, j);
    assert a[i..j] == b[i..j];
  }

  // ---- the scan while another vector is written ----

  lemma {:induction false} DerivedKept<T>(m: Mem<T>, m': Mem<T>, a: Node<T>, b: Node<T>, x: int, o: Owner)
    requires MemOk(m) && MemOk(m') && a in m && b in m && Older(m, a, x) && Derived(m, a, b, x)
    requires Avoids(m, a, o) && Avoids(m, b, o) && OnlyOwn(m, m', o)
    ensures a in m' && b in m' && Older(m', a, x) && Derived(m', a, b, x)
    decreases a.s
  {
    assert m'[a] == m[a] && m'[b] == m[b];
    assert BodyOk(m, a, m[a]) && BodyOk(m, b, m[b]);
    if a.s > 0 {
      forall k: nat | k < W
        ensures m'[a].kids[k] == null || Older(m', m'[a].kids[k], x)
        ensures var c, d := m'[a].kids[k], m'[b].kids[k];
                if c == null || d == null then c == d else Derived(m', c, d, x)
      {
        DerivedKid(m, a, b, x, k);
        if m[a].kids[k] != null { DerivedKept(m, m', m[a].kids[k], m[b].kids[k], x, o); }
      }
    }
  }

  lemma {:induction false} EntryKept<T>(m: Mem<T>, m': Mem<T>, a: Node<T>, b: Node<T>, x: int, i: nat, o: Owner)
    requires MemOk(m) && MemOk(m') && a in m && b in m && a in m' && b in m' && Derived(m, a, b, x) && Derived(m', a, b, x)
    requires Avoids(m, a, o) && Avoids(m, b, o) && OnlyOwn(m, m', o) && Entry(m, a, b, x, i)
    ensures Entry(m', a, b, x, i)
    decreases a.s
  {
    assert m'[a] == m[a] && m'[b] == m[b];
    if a.lo != i && a.s > 0 {
      var k := Slot(i, a.s);
      DerivedKid(m, a, b, x, k);
      DerivedKid(m', a, b, x, k);
      if m[a].kids[k] != null { EntryKept(m, m', m[a].kids[k], m[b].kids[k], x, i, o); }
    }
  }

  // ---- one worker: detach, compute ----

  /** Nothing old changed. */
  ghost predicate Extends<T>(m: Mem<T>, m': Mem<T>) {
    m.Keys <= m'.Keys && forall n | n in m :: m'[n] == m[n]
  }

  lemma ExtendsOnlyOwn<T>(m: Mem<T>, m': Mem<T>, o: Owner)
    requires Extends(m, m')
    ensures OnlyOwn(m, m', o)
  {
  }

  /** An iterator at an element, at the end, or behind it. */
  ghost predicate On(it: ConstIterator<real>, m: Mem<real>, pos: nat)
    reads it
  {
    if pos <= it.sz then it.At(m, pos) else it.Past(m, pos)
  }

  /** `cbegin() + n` */
  method ConstAt(g: Glob<real>, v: Vec<real>, n: nat) returns (it: ConstIterator<real>)
    requires v.Valid(g)
    ensures fresh(it) && it.root == v.root && it.shift == v.shift && it.sz == v.sz
    ensures On(it, g.Mem(), if n <= v.sz || Stray(n, v.sz) then n else v.sz)
  {
    it := new ConstIterator(g, v);
    CursorZero(g.Mem(), it.root, it.shift, it.sz, it.i, it.leaf, it.cur);
    it.Add(g, n, 0);
  }

  lemma CursorZero<T>(m: Mem<T>, root: Node<T>, shift: nat, sz: nat, i: nat, leaf: Node<T>, cur: nat)
    requires MemOk(m) && IterAt(m, root, shift, sz, i, leaf, cur, 0)
    ensures cur == 0
  {
  }

  lemma WidthFits(shift: nat)
    ensures W <= Span(shift)
  {
    SpanIsWidthTimes(shift);
    MulMono(1, Pow2(shift), W);
  }

  /** The slots of a vector start with its elements. */
  lemma SlotsAre(m: Mem<real>, root: Node<real>, shift: nat, sz: nat)
    requires MemOk(m) && HandleOk(m, root, shift, sz)
    ensures root in m && W <= |Slots(m, root, shift)| && sz <= |Slots(m, root, shift)|
    ensures forall k | 0 <= k < sz :: Slots(m, root, shift)[k] == Some(Contents(m, root, shift, sz)[k])
  {
    hide Find, Span, MemOk;
    WidthFits(shift);
    forall k | 0 <= k < sz
      ensures Slots(m, root, shift)[k] == Some(Contents(m, root, shift, sz)[k])
    {
      assert Find(m, root, k).Some?;
    }
  }

  /** Where the loop starts and stops. */
  ghost function From(a: nat, b: nat, sz: nat): nat {
    if a <= b || Stray(a, sz) then a else b
  }

  ghost function Until(a: nat, b: nat, sz: nat, cap: nat): nat {
    if Stray(a, sz) then cap + b else b
  }

  /** The value that an iterator at `pos` reads. */
  ghost function Met(s: seq<real>, slots: seq<Option<real>>, pos: nat): real
    requires pos < 2 * |slots|
  {
    if pos < |s| then s[pos] else Values(slots)[Around(pos, |slots|)]
  }

  /** All values that the loop reads, in order. */
  ghost function Road(s: seq<real>, slots: seq<Option<real>>, a: nat, b: nat): (r: seq<real>)
    requires b <= |s| <= |slots|
    ensures |r| == if From(a, b, |s|) <= Until(a, b, |s|, |slots|) then Until(a, b, |s|, |slots|) - From(a, b, |s|) else 0
  {
    var from, last := From(a, b, |s|), Until(a, b, |s|, |slots|);
    seq(if from <= last then last - from else 0, k requires 0 <= k < last - from => if from + k < 2 * |slots| then Met(s, slots, from + k) else 0.0)
  }

  lemma RoadIs(s: seq<real>, slots: seq<Option<real>>, a: nat, b: nat)
    requires b <= |s| <= |slots| && W <= |slots| && (a <= b || b == |s|)
    requires forall k | 0 <= k < |s| :: slots[k] == Some(s[k])
    ensures From(a, b, |s|) <= Until(a, b, |s|, |slots|)
    ensures Sum(Road(s, slots, a, b)) == Share(s, slots, a, b)
  {
    hide Sum;
    if Stray(a, |s|) {
      forall k | 0 <= k < |slots| - a + |s|
        ensures Road(s, slots, a, b)[k] == (Values(slots)[a..] + s)[k]
      {
        RoadStep(s, slots, a, b, k);
        MetStray(s, slots, a, k);
      }
      assert Road(s, slots, a, b) == Values(slots)[a..] + s;
      SumAppend(Values(slots)[a..], s);
    } else if a <= b {
      forall k | 0 <= k < b - a
        ensures Road(s, slots, a, b)[k] == s[a..b][k]
      {
        RoadStep(s, slots, a, b, k);
      }
      assert Road(s, slots, a, b) == s[a..b];
    } else {
      assert Road(s, slots, a, b) == [];
      SumNothing();
    }
  }

  lemma SumNothing()
    ensures Sum([]) == 0.0
  {
  }

  lemma RoadStep(s: seq<real>, slots: seq<Option<real>>, a: nat, b: nat, k: nat)
    requires b <= |s| <= |slots| && From(a, b, |s|) + k < Until(a, b, |s|, |slots|)
    ensures From(a, b, |s|) + k < 2 * |slots| && k < |Road(s, slots, a, b)|
    ensures Road(s, slots, a, b)[k] == Met(s, slots, From(a, b, |s|) + k)
  {
  }

  lemma MetStray(s: seq<real>, slots: seq<Option<real>>, a: nat, k: nat)
    requires |s| < a <= |slots| && k < |slots| - a + |s| && forall j | 0 <= j < |s| :: slots[j] == Some(s[j])
    ensures a + k < 2 * |slots| && Met(s, slots, a + k) == (Values(slots)[a..] + s)[k]
  {
    if a + k >= |slots| { assert slots[a + k - |slots|] == Some(s[a + k - |slots|]); }
  }

  /** Comparing pointers, also behind the end: there the loop ends once it is back at the slot behind the last element. */
  lemma SamePointers<T>(m: Mem<T>, it: ConstIterator<T>, end: ConstIterator<T>, pos: nat, last: nat)
    requires it.At(m, pos) && end.At(m, last) && it.root == end.root && it.sz == end.sz
    ensures it.leaf != end.leaf || it.cur != end.cur <==> pos != last
  {
    PointersAreEqual(m, it.root, it.sz, it.leaf, it.cur, pos, end.leaf, end.cur, last);
  }

  lemma PastPointers<T>(m: Mem<T>, it: ConstIterator<T>, end: ConstIterator<T>, pos: nat)
    requires it.Past(m, pos) && end.At(m, end.sz) && it.root == end.root && it.sz == end.sz < W && it.shift == end.shift
    requires pos <= Span(it.shift) + it.sz
    ensures it.leaf != end.leaf || it.cur != end.cur <==> pos != Span(it.shift) + it.sz
  {
    hide Find, Span;
    BlockZero();
    var j := Around(pos, Span(it.shift));
    LeafStart(m, end.leaf, end.sz - 1);
    if j == end.sz {
      PassesAnywhere(m, it.root, end.leaf, end.sz - 1, end.sz);
      OneNode(m, it.root, it.leaf, end.leaf, end.sz);
    }
  }

  lemma LeafStart<T>(m: Mem<T>, leaf: Node<T>, i: nat)
    requires MemOk(m) && leaf in m && leaf.s == 0 && Covers(leaf, i) && i < W
    ensures leaf.lo == 0
  {
    assert BodyOk(m, leaf, m[leaf]);
    BlockZero();
    if leaf.lo > 0 { AlignedBelow(0, leaf.lo, W); }
  }

  /** The next slot exists. */
  ghost predicate NextThere(m: Mem<real>, root: Node<real>, shift: nat, pos: nat)
    requires MemOk(m) && root in m
  {
    pos + 1 < Span(shift) ==> Find(m, root, pos + 1).Some?
  }

  /** `temp += *it; ++it`; false where the next leaf is missing */
  method SumStep(g: Glob<real>, used: Vec<real>, it: ConstIterator<real>, t: real, ghost pos: nat) returns (ok: bool, temp: real)
    requires used.Valid(g) && it.root == used.root && it.sz == used.sz > 0 && it.shift == used.shift
    requires On(it, g.Mem(), pos) && pos != it.sz && pos < Span(it.shift) + it.sz && (pos > it.sz ==> it.sz < W)
    modifies it`i, it`leaf, it`cur
    ensures g.Mem() == old(g.Mem()) && used.Valid(g) && used.View(g) == old(used.View(g))
    ensures Some(temp - t) == Find(g.Mem(), used.root, if pos < used.sz then pos else Around(pos, Span(used.shift)))
    ensures ok <==> pos < used.sz || NextThere(g.Mem(), used.root, used.shift, pos)
    ensures ok ==> On(it, g.Mem(), pos + 1)
  {
    hide IterAt, PastAt, Span;
    var v := it.Deref(g, pos);
    temp := t + v;
    StepNeeds(g.Mem(), it.root, it.shift, it.sz, it.i, it.leaf, it.cur, pos);
    ok := true;
    if it.cur + 1 == W && it.i + W != it.sz {
      ok := LeafThere(g, it.root, it.shift, it.i + W);
    }
    if ok {
      it.Inc(g, pos);
    }
  }

  /** When the next leaf is needed, and when it is there. */
  lemma StepNeeds<T>(m: Mem<T>, root: Node<T>, shift: nat, sz: nat, i: nat, leaf: Node<T>, cur: nat, pos: nat)
    requires MemOk(m) && (pos > sz ==> sz < W) && pos < Span(shift) + sz
    requires (IterAt(m, root, shift, sz, i, leaf, cur, pos) && pos < sz) || (PastAt(m, root, shift, sz, i, leaf, cur, pos) && pos > sz)
    ensures root in m && root.s == shift
    ensures cur + 1 == W && i + W != sz ==>
              i + W == pos + 1 <= Span(shift) && (Find(m, root, i + W).Some? <==> Find(m, root, Around(pos + 1, Span(shift))).Some?)
    ensures pos < sz && cur + 1 == W && i + W != sz ==> Find(m, root, i + W).Some?
    ensures pos + 1 == Span(shift) && cur + 1 == W && i + W != sz ==> Find(m, root, i + W).Some?
    ensures pos > sz && cur + 1 != W && pos + 1 < Span(shift) ==> Find(m, root, pos + 1).Some?
    ensures pos > sz && cur + 1 == W ==> i + W != sz && pos < Span(shift)
  {
    hide Span;
    if pos > sz && pos >= Span(shift) {
      PastFront(m, root, shift, sz, i, leaf, cur, pos);
    } else if cur + 1 == W {
      StepFromLeaf(m, root, shift, sz, i, leaf, cur, pos);
      var j := Around(pos + 1, Span(shift));
      if pos + 1 != sz {
        BlockZero();
        if pos + 1 == Span(shift) {
          SpanDivides(shift, 0);
        }
        FindDigits(m, root, i + W, j);
      }
    } else if pos > sz {
      PastInLeaf(m, root, shift, sz, i, leaf, cur, pos);
      if pos + 1 < Span(shift) {
        PassesFind(m, root, leaf, pos + 1);
      }
    }
  }

  /** Back at the front, the end is in the first leaf. */
  lemma PastFront<T>(m: Mem<T>, root: Node<T>, shift: nat, sz: nat, i: nat, leaf: Node<T>, cur: nat, pos: nat)
    requires MemOk(m) && PastAt(m, root, shift, sz, i, leaf, cur, pos) && sz < W && Span(shift) <= pos < Span(shift) + sz
    ensures cur + 1 < W
  {
    BlockZero();
    LeafStart(m, leaf, pos - Span(shift));
  }

  /** What the loop has found out about missing leaves at position `pos`. */
  ghost predicate SeenUpTo(slots: seq<Option<real>>, pos: nat) {
    forall k | W <= k < |slots| && k <= pos :: slots[k].Some?
  }

  /** The loop at `pos`. */
  ghost predicate Summing(m: Mem<real>, it: ConstIterator<real>, end: ConstIterator<real>, s: seq<real>, slots: seq<Option<real>>,
                          a: nat, b: nat, pos: nat, sum: real)
    reads it, end
    requires b <= |s| <= |slots|
  {
    && From(a, b, |s|) <= pos <= Until(a, b, |s|, |slots|) && (Stray(a, |s|) ==> pos > |s|) && On(it, m, pos)
    && (it.leaf != end.leaf || it.cur != end.cur <==> pos != Until(a, b, |s|, |slots|))
    && sum == Sum(Road(s, slots, a, b)[..pos - From(a, b, |s|)])
    && (Stray(a, |s|) ==> SeenUpTo(slots, pos))
  }

  lemma SummingAt(m: Mem<real>, it: ConstIterator<real>, end: ConstIterator<real>, a: nat, b: nat, pos: nat)
    requires On(it, m, pos) && end.At(m, b) && it.root == end.root && it.sz == end.sz && it.shift == end.shift
    requires Stray(a, it.sz) ==> b == it.sz < pos
    requires pos <= Until(a, b, it.sz, Span(it.shift)) && b <= it.sz
    ensures it.leaf != end.leaf || it.cur != end.cur <==> pos != Until(a, b, it.sz, Span(it.shift))
  {
    hide IterAt, PastAt, Span;
    if Stray(a, it.sz) { PastPointers(m, it, end, pos); } else { SamePointers(m, it, end, pos, b); }
  }

  /** `for (it = used.cbegin() + a; it != used.cbegin() + b; ++it) temp += *it`; false where a stray walk meets a missing leaf */
  method SumPart(g: Glob<real>, used: Vec<real>, a: nat, b: nat, first: real) returns (ok: bool, temp: real)
    requires used.Valid(g) && 0 < used.sz && b <= used.sz && (a <= b || b == used.sz)
    ensures W <= Span(used.shift)
    ensures ok <==> !Stray(a, used.sz) || Whole(Slots(g.Mem(), used.root, used.shift))
    ensures ok ==> temp == first + Share(used.View(g), Slots(g.Mem(), used.root, used.shift), a, b)
  {
    hide IterAt, PastAt, HandleOk, Contents, MemOk, Span, Sum, Road, Slots;
    SlotsAre(g.Mem(), used.root, used.shift, used.sz);
    ghost var m, s, slots := g.Mem(), used.View(g), Slots(g.Mem(), used.root, used.shift);
    var end: ConstIterator<real> := ConstAt(g, used, b);
    var it: ConstIterator<real> := ConstAt(g, used, a);
    ghost var pos := From(a, b, used.sz);
    temp := first;
    SumStart(m, used, it, end, s, slots, a, b);
    while it.leaf != end.leaf || it.cur != end.cur
      invariant g.Mem() == m && used.Valid(g) && used.View(g) == s && Summing(m, it, end, s, slots, a, b, pos, temp - first)
      decreases Until(a, b, used.sz, |slots|) - pos
      modifies it`i, it`leaf, it`cur
    {
      ghost var t := temp;
      ok, temp := SumStep(g, used, it, temp, pos);
      if !ok {
        MissingLeaf(m, used, slots, pos);
        return;
      }
      SumOne(m, used, it, end, s, slots, a, b, pos, t - first, temp - t);
      pos := pos + 1;
    }
    ok := true;
    SumDone(m, used.root, used.shift, used.sz, s, slots, a, b, temp - first);
  }

  lemma SumStart(m: Mem<real>, used: Vec<real>, it: ConstIterator<real>, end: ConstIterator<real>, s: seq<real>,
                 slots: seq<Option<real>>, a: nat, b: nat)
    requires MemOk(m) && HandleOk(m, used.root, used.shift, used.sz) && |s| == used.sz > 0 && |slots| == Span(used.shift) && b <= |s| <= |slots|
    requires a <= b || b == |s|
    requires it.root == end.root == used.root && it.sz == end.sz == |s| && it.shift == end.shift == used.shift
    requires On(it, m, if a <= |s| || Stray(a, |s|) then a else |s|) && On(end, m, b) && W <= |slots|
    ensures Summing(m, it, end, s, slots, a, b, From(a, b, |s|), 0.0)
  {
    hide IterAt, PastAt, Span, Road, HandleOk;
    SummingAt(m, it, end, a, b, From(a, b, |s|));
    assert Road(s, slots, a, b)[..0] == [];
  }

  lemma MissingLeaf(m: Mem<real>, used: Vec<real>, slots: seq<Option<real>>, pos: nat)
    requires MemOk(m) && HandleOk(m, used.root, used.shift, used.sz) && slots == Slots(m, used.root, used.shift)
    requires 0 < used.sz && !NextThere(m, used.root, used.shift, pos)
    ensures !Whole(slots)
  {
    hide Span;
    if pos + 1 < W {
      DivUnique(pos + 1, W, 0);
      DivUnique(0, W, 0);
      SameLeaf(m, used.root, 0, pos + 1);
    }
    assert slots[pos + 1] == Find(m, used.root, pos + 1);
  }

  lemma SumOne(m: Mem<real>, used: Vec<real>, it: ConstIterator<real>, end: ConstIterator<real>, s: seq<real>,
               slots: seq<Option<real>>, a: nat, b: nat, pos: nat, t: real, v: real)
    requires MemOk(m) && HandleOk(m, used.root, used.shift, used.sz) && |s| == used.sz > 0 && slots == Slots(m, used.root, used.shift)
    requires s == Contents(m, used.root, used.shift, used.sz) && b <= |s| <= |slots| && W <= |slots| && (a <= b || b == |s|)
    requires it.root == end.root == used.root && it.sz == end.sz == |s| && it.shift == end.shift == used.shift
    requires From(a, b, |s|) <= pos < Until(a, b, |s|, |slots|) && (Stray(a, |s|) ==> pos > |s| && SeenUpTo(slots, pos))
    requires On(it, m, pos + 1) && On(end, m, b) && t == Sum(Road(s, slots, a, b)[..pos - From(a, b, |s|)])
    requires Some(v) == Find(m, used.root, if pos < |s| then pos else Around(pos, |slots|))
    requires pos < |s| || NextThere(m, used.root, used.shift, pos)
    ensures Summing(m, it, end, s, slots, a, b, pos + 1, t + v)
  {
    hide IterAt, PastAt, Span, Contents, Road, Sum, SeenUpTo, Find;
    SummingAt(m, it, end, a, b, pos + 1);
    RoadAt(m, used.root, used.shift, used.sz, s, slots, a, b, pos, v);
    SumNext(Road(s, slots, a, b), pos - From(a, b, |s|));
    if Stray(a, |s|) { SeenNext(m, used.root, used.shift, slots, pos); }
  }

  lemma SeenNext(m: Mem<real>, root: Node<real>, shift: nat, slots: seq<Option<real>>, pos: nat)
    requires MemOk(m) && root in m && slots == Slots(m, root, shift) && SeenUpTo(slots, pos) && NextThere(m, root, shift, pos)
    ensures SeenUpTo(slots, pos + 1)
  {
    if pos + 1 < |slots| { assert slots[pos + 1] == Find(m, root, pos + 1); }
  }

  lemma RoadAt(m: Mem<real>, root: Node<real>, shift: nat, sz: nat, s: seq<real>, slots: seq<Option<real>>, a: nat, b: nat, pos: nat, v: real)
    requires MemOk(m) && HandleOk(m, root, shift, sz) && |s| == sz && s == Contents(m, root, shift, sz) && slots == Slots(m, root, shift)
    requires b <= |s| <= |slots| && W <= |slots| && From(a, b, |s|) <= pos < Until(a, b, |s|, |slots|) && (Stray(a, |s|) ==> pos > |s|)
    requires Some(v) == Find(m, root, if pos < |s| then pos else Around(pos, |slots|))
    ensures pos - From(a, b, |s|) < |Road(s, slots, a, b)| && Road(s, slots, a, b)[pos - From(a, b, |s|)] == v
  {
    hide Find, Span;
    if pos < |s| {
      assert s[pos] == v;
    } else {
      assert Around(pos, |slots|) < |slots|;
      assert slots[Around(pos, |slots|)] == Find(m, root, Around(pos, |slots|));
    }
    assert pos < 2 * |slots| && Met(s, slots, pos) == v;
  }

  lemma SumDone(m: Mem<real>, root: Node<real>, shift: nat, sz: nat, s: seq<real>, slots: seq<Option<real>>, a: nat, b: nat, sum: real)
    requires MemOk(m) && HandleOk(m, root, shift, sz) && |s| == sz && s == Contents(m, root, shift, sz) && slots == Slots(m, root, shift)
    requires b <= |s| <= |slots| && W <= |slots| && (a <= b || b == |s|)
    requires Stray(a, |s|) ==> SeenUpTo(slots, Until(a, b, |s|, |slots|))
    requires From(a, b, |s|) <= Until(a, b, |s|, |slots|)
    requires sum == Sum(Road(s, slots, a, b)[..Until(a, b, |s|, |slots|) - From(a, b, |s|)])
    ensures sum == Share(s, slots, a, b) && (Stray(a, |s|) ==> Whole(slots))
  {
    hide Find, Span;
    SlotsAre(m, root, shift, sz);
    RoadIs(s, slots, a, b);
    assert Road(s, slots, a, b)[..|Road(s, slots, a, b)|] == Road(s, slots, a, b);
  }

  /** The splinter: the frozen vector with one share added to element 0, in nodes of its own. */
  ghost predicate IsSplinter(m: Mem<real>, splt: Vec<real>, share: real, was: seq<real>)
    reads splt
    requires MemOk(m)
  {
    && HandleOk(m, splt.root, splt.shift, splt.sz) && splt.sz == |was| > 0
    && Contents(m, splt.root, splt.shift, splt.sz) == was[0 := was[0] + share]
  }

  /** `*target = temp`, through the iterator at the front of the splinter. */
  method StoreFront(g: Glob<real>, orig: Vec<real>, splt: Vec<real>, it: MutIterator<real>, temp: real, ghost m0: Mem<real>)
    requires it.Ready(g) && it.At(g.Mem(), 0) && splt.Valid(g) && it.root == splt.root && it.shift == splt.shift && it.sz == splt.sz > 0
    requires it.owner == splt.owner && OnlyOwn(m0, g.Mem(), splt.owner) && MemOk(m0) && orig.root in m0
    requires Follows(m0, g.Mem(), orig.root, splt.root, splt.owner)
    modifies it.leaf
    ensures splt.Valid(g) && splt.View(g) == old(splt.View(g))[0 := temp] && OnlyOwn(m0, g.Mem(), splt.owner)
    ensures g.Mem().Keys == old(g.Mem().Keys)
    ensures Follows(m0, g.Mem(), orig.root, splt.root, splt.owner)
  {
    ghost var m1 := g.Mem();
    it.Put(g, temp, 0);
    SetContents(m1, splt.root, g.Mem(), splt.root, splt.shift, splt.sz, 0, temp);
    OnlyOwnTrans(m0, m1, g.Mem(), splt.owner);
    FollowsTrans(m0, m1, g.Mem(), orig.root, splt.root, splt.root, splt.owner);
  }

  lemma NewWriter<T>(m: Mem<T>, m': Mem<T>, r: Node<T>, shift: nat, sz: nat, o: Owner)
    requires MemOk(m) && MemOk(m') && HandleOk(m, r, shift, sz) && OnlyOwn(m, m', o)
    requires o.kind == Tr && forall n | n in m :: n.id < o.id
    ensures Extends(m, m') && HandleOk(m', r, shift, sz) && Contents(m', r, shift, sz) == Contents(m, r, shift, sz)
    ensures Slots(m', r, shift) == Slots(m, r, shift)
  {
    NobodyOwns(m, r, o);
    AvoidsContents(m, m', r, shift, sz, o);
    AvoidsSlots(m, m', r, shift, o);
  }

  /** `detach`, then `splt._data.begin()` */
  method Detach(g: Glob<real>, orig: Vec<real>) returns (splt: Vec<real>, it: MutIterator<real>)
    requires orig.Valid(g) && orig.sz > 0
    modifies g`unique_id, g`nodes
    ensures fresh(splt) && fresh(it) && splt.owner == Owner(Tr, old(g.unique_id)) && g.unique_id == old(g.unique_id) + 1
    ensures Grew(g, splt.owner.id) && orig.Valid(g) && orig.View(g) == old(orig.View(g))
    ensures splt.Valid(g) && splt.View(g) == orig.View(g) && splt.sz == orig.sz
    ensures it.Ready(g) && it.At(g.Mem(), 0) && it.root == splt.root && it.shift == splt.shift && it.sz == splt.sz
    ensures it.owner == splt.owner && fresh(it.leaf)
    ensures OnlyOwn(old(g.Mem()), g.Mem(), splt.owner)
    ensures Follows(old(g.Mem()), g.Mem(), orig.root, splt.root, splt.owner)
  {
    hide Find, OnlyOwn, Follows, KeepsShape, SameOutside, SameTrie, Contents, IterAt, Holds, Passes, HandleOk;
    ghost var m0 := g.Mem();
    splt := orig.NewId(g);
    it := new MutIterator(g, splt);
    NewWriter(m0, g.Mem(), orig.root, orig.shift, orig.sz, splt.owner);
    SameTrieHandle(m0, orig.root, g.Mem(), splt.root, orig.shift, orig.sz);
    HoldsPasses(g.Mem(), splt.root, it.leaf, 0, splt.owner);
  }

  /** The sum of a share, added to the front of the splinter. */
  method Fill(g: Glob<real>, orig: Vec<real>, splt: Vec<real>, it: MutIterator<real>, p: nat, ghost m0: Mem<real>) returns (ok: bool)
    requires orig.Valid(g) && p < HWCONC
    requires splt.Valid(g) && splt.sz == orig.sz > 0 && splt.View(g) == orig.View(g)
    requires it.Ready(g) && it.At(g.Mem(), 0) && it.root == splt.root && it.shift == splt.shift && it.sz == splt.sz > 0
    requires it.owner == splt.owner && OnlyOwn(m0, g.Mem(), splt.owner) && MemOk(m0) && orig.root in m0
    requires Follows(m0, g.Mem(), orig.root, splt.root, splt.owner)
    modifies it.leaf
    ensures splt.Valid(g) && OnlyOwn(m0, g.Mem(), splt.owner) && g.Mem().Keys == old(g.Mem().Keys)
    ensures Follows(m0, g.Mem(), orig.root, splt.root, splt.owner) && W <= Span(orig.shift)
    ensures ok <==> !Stray(Start(p, orig.sz), orig.sz) || Whole(old(Slots(g.Mem(), orig.root, orig.shift)))
    ensures ok ==> IsSplinter(g.Mem(), splt, PartSum(old(orig.View(g)), old(Slots(g.Mem(), orig.root, orig.shift)), p), old(orig.View(g)))
  {
    hide Find, OnlyOwn, Follows, MutIterAt, HandleOk, MemOk, Whole, Stray, Share, Span;
    var a, b := Start(p, orig.sz), End(p, orig.sz);
    Shape(p, orig.sz);
    var temp := it.Deref(g, 0);
    ok, temp := SumPart(g, orig, a, b, temp);
    if ok {
      StoreFront(g, orig, splt, it, temp, m0);
    }
  }

  /** `reduce_splt` up to its `reattach`; false where a stray loop meets a missing leaf. */
  method ReduceSplt(g: Glob<real>, orig: Vec<real>, p: nat) returns (ok: bool, splt: Vec<real>)
    requires orig.Valid(g) && orig.sz > 0 && p < HWCONC
    modifies g`unique_id, g`nodes
    ensures W <= Span(orig.shift)
    ensures ok <==> !Stray(Start(p, orig.sz), orig.sz) || Whole(old(Slots(g.Mem(), orig.root, orig.shift)))
    ensures fresh(splt) && splt.owner == Owner(Tr, old(g.unique_id)) && g.unique_id == old(g.unique_id) + 1
    ensures Grew(g, splt.owner.id) && orig.Valid(g) && orig.View(g) == old(orig.View(g)) && splt.Valid(g)
    ensures Slots(g.Mem(), orig.root, orig.shift) == old(Slots(g.Mem(), orig.root, orig.shift))
    ensures Extends(old(g.Mem()), g.Mem()) && Follows(old(g.Mem()), g.Mem(), orig.root, splt.root, splt.owner)
    ensures ok ==> IsSplinter(g.Mem(), splt, PartSum(orig.View(g), Slots(g.Mem(), orig.root, orig.shift), p), orig.View(g))
  {
    hide Find, OnlyOwn, Follows, MutIterAt, Extends, IsSplinter, Whole, Stray, Start, PartSum, Slots, Span;
    ghost var m0 := g.Mem();
    var it;
    splt, it := Detach(g, orig);
    NewWriter(m0, g.Mem(), orig.root, orig.shift, orig.sz, splt.owner);
    ok := Fill(g, orig, splt, it, p, m0);
    NewWriter(m0, g.Mem(), orig.root, orig.shift, orig.sz, splt.owner);
  }

  // ---- reattach ----

  /** What a non-monotonic `reattach` makes of the dependent: the splinter's changes to [a, b), added. */
  ghost function Added(d: seq<real>, splt: seq<real>, used: seq<real>, a: nat, b: nat): (r: seq<real>)
    requires a <= b <= |d| && b <= |splt| && b <= |used|
    ensures |r| == |d|
  {
    seq(|d|, i requires 0 <= i < |d| => if a <= i < b then d[i] + (splt[i] - used[i]) else d[i])
  }

  /** Another handle, as seen by the writer `o`. */
  ghost predicate Bystander<T>(m: Mem<T>, v: Vec<T>, o: Owner)
    requires MemOk(m)
    reads v
  {
    HandleOk(m, v.root, v.shift, v.sz) && Avoids(m, v.root, o)
  }

  method SetOwn(g: Glob<real>, v: Vec<real>, i: nat, val: real, ghost w: Owner)
    requires v.Valid(g) && i < v.sz && v.owner.kind == w.kind == Tr && w.id != v.owner.id && Avoids(g.Mem(), v.root, w)
    modifies v`root, g`nodes, v.Mine(g)
    ensures v.Valid(g) && Grew(g, v.owner.id) && v.View(g) == old(v.View(g))[i := val]
    ensures OnlyOwn(old(g.Mem()), g.Mem(), v.owner) && Avoids(g.Mem(), v.root, w)
    ensures Follows(old(g.Mem()), g.Mem(), old(v.root), v.root, v.owner)
  {
    ghost var m := g.Mem();
    v.MutSet(g, i, val);
    FollowsAvoids(m, g.Mem(), old(v.root), v.root, w, v.owner);
  }

  /** The locked loop of `reattach` for a non-monotonic dependency. */
  method Reattach(g: Glob<real>, splt: Vec<real>, used: Vec<real>, dep: Vec<real>, a: nat, b: nat, ghost w: Owner)
    requires dep.Valid(g) && a <= b <= dep.sz && b <= splt.sz && b <= used.sz && dep != splt && dep != used
    requires Bystander(g.Mem(), splt, dep.owner) && Bystander(g.Mem(), used, dep.owner)
    requires splt.owner.id < g.unique_id && used.owner.id < g.unique_id
    requires dep.owner.kind == w.kind == Tr && w.id != dep.owner.id && Avoids(g.Mem(), dep.root, w)
    modifies dep`root, g`nodes, dep.Mine(g)
    ensures dep.Valid(g) && Grew(g, dep.owner.id) && OnlyOwn(old(g.Mem()), g.Mem(), dep.owner) && Avoids(g.Mem(), dep.root, w)
    ensures dep.View(g) == Added(old(dep.View(g)), old(Contents(g.Mem(), splt.root, splt.shift, splt.sz)),
                                 old(Contents(g.Mem(), used.root, used.shift, used.sz)), a, b)
  {
    hide Avoids, Contents, MemOk, Find, Added;
    ghost var m0 := g.Mem();
    ghost var s, u, d := Contents(m0, splt.root, splt.shift, splt.sz), Contents(m0, used.root, used.shift, used.sz), dep.View(g);
    AddedNone(d, s, u, a);
    for i := a to b
      invariant dep.Valid(g) && Grew(g, dep.owner.id) && OnlyOwn(m0, g.Mem(), dep.owner) && Avoids(g.Mem(), dep.root, w)
      invariant dep.View(g) == Added(d, s, u, a, i)
    {
      AddedOne(d, s, u, a, i);
      ReattachOne(g, splt, used, dep, i, w, m0);
    }
  }

  lemma AddedNone(d: seq<real>, splt: seq<real>, used: seq<real>, a: nat)
    requires a <= |d| && a <= |splt| && a <= |used|
    ensures Added(d, splt, used, a, a) == d
  {
  }

  lemma AddedOne(d: seq<real>, splt: seq<real>, used: seq<real>, a: nat, i: nat)
    requires a <= i < |d| && i < |splt| && i < |used|
    ensures var r := Added(d, splt, used, a, i);
            Added(d, splt, used, a, i + 1) == r[i := r[i] + (splt[i] - used[i])]
  {
  }

  method ReattachOne(g: Glob<real>, splt: Vec<real>, used: Vec<real>, dep: Vec<real>, i: nat, ghost w: Owner, ghost m0: Mem<real>)
    requires dep.Valid(g) && i < dep.sz && i < splt.sz && i < used.sz && dep != splt && dep != used && MemOk(m0)
    requires Bystander(m0, splt, dep.owner) && Bystander(m0, used, dep.owner) && OnlyOwn(m0, g.Mem(), dep.owner)
    requires splt.owner.id < g.unique_id && used.owner.id < g.unique_id
    requires dep.owner.kind == w.kind == Tr && w.id != dep.owner.id && Avoids(g.Mem(), dep.root, w)
    modifies dep`root, g`nodes, dep.Mine(g)
    ensures dep.Valid(g) && Grew(g, dep.owner.id) && OnlyOwn(m0, g.Mem(), dep.owner) && Avoids(g.Mem(), dep.root, w)
    ensures var s, u := Contents(m0, splt.root, splt.shift, splt.sz), Contents(m0, used.root, used.shift, used.sz);
            dep.View(g) == old(dep.View(g))[i := old(dep.View(g))[i] + (s[i] - u[i])]
  {
    hide OnlyOwn, Avoids, Follows, HandleOk, Contents, MemOk, Find;
    ghost var m := g.Mem();
    AvoidsContents(m0, m, splt.root, splt.shift, splt.sz, dep.owner);
    AvoidsContents(m0, m, used.root, used.shift, used.sz, dep.owner);
    var x := splt.Get(g, i);
    var y := used.Get(g, i);
    var diff := x - y;
    var z := dep.Get(g, i);
    if diff != 0.0 {
      SetOwn(g, dep, i, z + diff, w);
      OnlyOwnTrans(m0, m, g.Mem(), dep.owner);
    }
  }

  // ---- resolve ----

  /** The frozen vector and the current one, derived from it, both out of reach of the writer `o`. */
  ghost predicate Frozen(g: Glob<real>, orig: Vec<real>, data: Vec<real>, x: int, o: Owner)
    reads g, g.nodes, orig, data
  {
    && Pair(g, orig, data, x) && Older(g.Mem(), orig.root, x)
    && Avoids(g.Mem(), orig.root, o) && Avoids(g.Mem(), data.root, o)
  }

  lemma FrozenKept(m: Mem<real>, m': Mem<real>, orig: Node<real>, data: Node<real>, shift: nat, sz: nat, x: int, o: Owner, i: nat)
    requires MemOk(m) && MemOk(m') && HandleOk(m, orig, shift, sz) && HandleOk(m, data, shift, sz)
    requires Older(m, orig, x) && Derived(m, orig, data, x) && Avoids(m, orig, o) && Avoids(m, data, o) && OnlyOwn(m, m', o)
    ensures HandleOk(m', orig, shift, sz) && HandleOk(m', data, shift, sz)
    ensures Older(m', orig, x) && Derived(m', orig, data, x) && Avoids(m', orig, o) && Avoids(m', data, o)
    ensures Contents(m', orig, shift, sz) == Contents(m, orig, shift, sz) && Contents(m', data, shift, sz) == Contents(m, data, shift, sz)
    ensures Entry(m, orig, data, x, i) ==> Entry(m', orig, data, x, i)
  {
    AvoidsContents(m, m', orig, shift, sz, o);
    AvoidsContents(m, m', data, shift, sz, o);
    DerivedKept(m, m', orig, data, x, o);
    if Entry(m, orig, data, x, i) { EntryKept(m, m', orig, data, x, i, o); }
  }

  /** The resolution under way: `target` stands at element 0 of the dependent, whose value is `t`. */
  ghost predicate Resolving(g: Glob<real>, orig: Vec<real>, data: Vec<real>, dep: Vec<real>, target: MutIterator<real>, x: int, t: real)
    reads g, g.nodes, orig, data, dep, target
  {
    && Frozen(g, orig, data, x, dep.owner) && dep.Valid(g) && dep.sz > 0 && dep.View(g)[0] == t
    && target.Ready(g) && target.At(g.Mem(), 0) && target.owner == dep.owner
    && target.root == dep.root && target.shift == dep.shift && target.sz == dep.sz
  }

  /** `target = f(target, diff)` */
  method AddTo(g: Glob<real>, orig: Vec<real>, data: Vec<real>, dep: Vec<real>, target: MutIterator<real>, diff: real,
               ghost x: int, ghost t: real, ghost i: nat)
    requires Resolving(g, orig, data, dep, target, x, t)
    modifies target.leaf
    ensures Resolving(g, orig, data, dep, target, x, t + diff) && g.nodes == old(g.nodes) && OnlyOwn(old(g.Mem()), g.Mem(), dep.owner)
    ensures orig.View(g) == old(orig.View(g)) && data.View(g) == old(data.View(g))
    ensures dep.View(g) == old(dep.View(g))[0 := t + diff]
    ensures old(Entry(g.Mem(), orig.root, data.root, x, i)) ==> Entry(g.Mem(), orig.root, data.root, x, i)
  {
    hide Older, Derived, Avoids, OnlyOwn, MutIterAt, Find, Entry, MemOk, KeepsShape;
    ghost var m := g.Mem();
    var v := target.Deref(g, 0);
    target.Put(g, v + diff, 0);
    FrozenKept(m, g.Mem(), orig.root, data.root, orig.shift, orig.sz, x, dep.owner, i);
    SetContents(m, dep.root, g.Mem(), dep.root, dep.shift, dep.sz, 0, v + diff);
  }

  /** `*(v.cbegin() + c)` */
  method ReadAt(g: Glob<real>, v: Vec<real>, c: nat) returns (r: real)
    requires v.Valid(g) && c < v.sz
    ensures r == v.View(g)[c]
  {
    var it := ConstAt(g, v, c);
    r := it.Deref(g, c);
  }

  /** One hit of the scan. */
  method ResolveAt(g: Glob<real>, orig: Vec<real>, data: Vec<real>, dep: Vec<real>, target: MutIterator<real>, c: nat,
                   ghost x: int, ghost t: real, ghost i: nat)
    requires Resolving(g, orig, data, dep, target, x, t) && c < orig.sz
    modifies target.leaf
    ensures Resolving(g, orig, data, dep, target, x, t + (old(data.View(g))[c] - old(orig.View(g))[c]))
    ensures g.nodes == old(g.nodes) && OnlyOwn(old(g.Mem()), g.Mem(), dep.owner)
    ensures orig.View(g) == old(orig.View(g)) && data.View(g) == old(data.View(g))
    ensures dep.View(g) == old(dep.View(g))[0 := dep.View(g)[0]]
    ensures old(Entry(g.Mem(), orig.root, data.root, x, i)) ==> Entry(g.Mem(), orig.root, data.root, x, i)
  {
    hide Older, Derived, Avoids, HandleOk, MutIterAt, Contents, Entry, Find;
    var curr := ReadAt(g, data, c);
    var trck := ReadAt(g, orig, c);
    var diff := curr - trck;
    if diff != 0.0 {
      AddTo(g, orig, data, dep, target, diff, x, t, i);
    }
  }

  /** What the scan has found by index c, given where it will go on. */
  ghost predicate Found(g: Glob<real>, orig: Vec<real>, data: Vec<real>, x: int, o: seq<real>, d: seq<real>, c: nat)
    reads g, g.nodes, orig, data
  {
    && Pair(g, orig, data, x) && orig.View(g) == o && data.View(g) == d && c <= orig.sz
    && (c + 1 < orig.sz ==> Entry(g.Mem(), orig.root, data.root, x, c + 1))
  }

  /** `_orig.next_diff_ids(_data, i)`: what was skipped adds nothing. */
  method NextHit(g: Glob<real>, orig: Vec<real>, data: Vec<real>, i: nat, ghost x: int) returns (c: nat)
    requires Pair(g, orig, data, x) && i <= orig.sz && (i < orig.sz ==> Entry(g.Mem(), orig.root, data.root, x, i))
    ensures Found(g, orig, data, x, orig.View(g), data.View(g), c) && i <= c
    ensures Sum(data.View(g)[..c]) - Sum(data.View(g)[..i]) == Sum(orig.View(g)[..c]) - Sum(orig.View(g)[..i])
  {
    c := NextDiffIds(g, orig, data, i, x);
    ghost var m, o, d := g.Mem(), orig.View(g), data.View(g);
    forall k: nat | i <= k < c
      ensures d[k] == o[k]
    {
      assert Find(m, orig.root, k) == Find(m, data.root, k);
    }
    SumSame(d, o, i, c);
  }

  method ScanStep(g: Glob<real>, orig: Vec<real>, data: Vec<real>, dep: Vec<real>, target: MutIterator<real>, c: nat,
                  ghost x: int, ghost t: real, ghost o: seq<real>, ghost d: seq<real>) returns (c': nat)
    requires Resolving(g, orig, data, dep, target, x, t) && Found(g, orig, data, x, o, d, c) && c < orig.sz
    modifies target.leaf
    ensures g.nodes == old(g.nodes) && OnlyOwn(old(g.Mem()), g.Mem(), dep.owner)
    ensures Found(g, orig, data, x, o, d, c') && c < c'
    ensures Resolving(g, orig, data, dep, target, x, t + (Sum(d[..c']) - Sum(o[..c'])) - (Sum(d[..c]) - Sum(o[..c])))
    ensures dep.View(g) == old(dep.View(g))[0 := dep.View(g)[0]]
  {
    hide Older, Derived, Avoids, HandleOk, MutIterAt, Contents, Find, OnlyOwn, Entry, MemOk;
    ResolveAt(g, orig, data, dep, target, c, x, t, c + 1);
    SumNext(d, c);
    SumNext(o, c);
    c' := NextHit(g, orig, data, c + 1, x);
  }

  /** The scan: strictly increasing hits, every difference found. */
  method Scan(g: Glob<real>, orig: Vec<real>, data: Vec<real>, dep: Vec<real>, target: MutIterator<real>, ghost x: int, ghost t: real)
    requires Resolving(g, orig, data, dep, target, x, t)
    modifies target.leaf
    ensures g.nodes == old(g.nodes) && orig.Valid(g) && data.Valid(g)
    ensures orig.View(g) == old(orig.View(g)) && data.View(g) == old(data.View(g))
    ensures Resolving(g, orig, data, dep, target, x, t + (Sum(data.View(g)) - Sum(orig.View(g))))
    ensures dep.View(g) == old(dep.View(g))[0 := dep.View(g)[0]]
  {
    hide Older, Derived, Avoids, HandleOk, MutIterAt, Contents, Find, OnlyOwn, MemOk, Entry;
    ghost var o, d, v := orig.View(g), data.View(g), dep.View(g);
    EntryZero(g, orig, data, x);
    var c := NextHit(g, orig, data, 0, x);
    assert d[..0] == [] && o[..0] == [];
    while c != data.sz
      invariant Found(g, orig, data, x, o, d, c) && g.nodes == old(g.nodes)
      invariant Resolving(g, orig, data, dep, target, x, t + (Sum(d[..c]) - Sum(o[..c])))
      invariant dep.View(g) == v[0 := dep.View(g)[0]]
      decreases data.sz - c
    {
      c := ScanStep(g, orig, data, dep, target, c, x, t + (Sum(d[..c]) - Sum(o[..c])), o, d);
    }
    assert d[..c] == d && o[..c] == o;
  }

  /** `resolve`: everything the source changed since the freeze, added to element 0 of the dependent. */
  method Resolve(g: Glob<real>, orig: Vec<real>, data: Vec<real>, dep: Vec<real>, ghost x: int)
    requires Frozen(g, orig, data, x, dep.owner) && dep.Valid(g) && dep.sz > 0 && dep.owner.kind == Tr
    requires dep != orig && dep != data && orig.sz > 0
    modifies dep`root, g`nodes, dep.Mine(g)
    ensures dep.Valid(g) && Grew(g, dep.owner.id) && Frozen(g, orig, data, x, dep.owner)
    ensures orig.View(g) == old(orig.View(g)) && data.View(g) == old(data.View(g))
    ensures dep.View(g) == old(dep.View(g))[0 := old(dep.View(g))[0] + Sum(data.View(g)) - Sum(orig.View(g))]
  {
    hide Older, Derived, Avoids, HandleOk, MutIterAt, Contents, Find, OnlyOwn, MemOk, Entry;
    ghost var t := dep.View(g)[0];
    var target := Target(g, orig, data, dep, x);
    Scan(g, orig, data, dep, target, x, t);
  }

  lemma EntryZero(g: Glob<real>, orig: Vec<real>, data: Vec<real>, x: int)
    requires Pair(g, orig, data, x)
    ensures Entry(g.Mem(), orig.root, data.root, x, 0)
  {
  }

  /** `T &target = *(dep._data.begin() + imaps[0](0))` */
  method Target(g: Glob<real>, orig: Vec<real>, data: Vec<real>, dep: Vec<real>, ghost x: int) returns (target: MutIterator<real>)
    requires Frozen(g, orig, data, x, dep.owner) && dep.Valid(g) && dep.sz > 0 && dep.owner.kind == Tr
    requires dep != orig && dep != data
    modifies dep`root, g`nodes, dep.Mine(g)
    ensures Grew(g, dep.owner.id) && fresh(target) && dep.Valid(g) && dep.View(g) == old(dep.View(g))
    ensures Resolving(g, orig, data, dep, target, x, old(dep.View(g))[0])
    ensures orig.View(g) == old(orig.View(g)) && data.View(g) == old(data.View(g))
    ensures target.leaf in dep.Mine(g) && (target.leaf in old(dep.Mine(g)) || fresh(target.leaf))
  {
    hide Older, Derived, Avoids, Find, OnlyOwn, Entry, MemOk, KeepsShape, Follows;
    ghost var m, r := g.Mem(), dep.root;
    target := new MutIterator(g, dep);
    FrozenKept(m, g.Mem(), orig.root, data.root, orig.shift, orig.sz, x, dep.owner, 0);
    SameTrieHandle(m, r, g.Mem(), dep.root, dep.shift, dep.sz);
    HoldsPasses(g.Mem(), dep.root, target.leaf, 0, dep.owner);
  }

  // ---- the protocol ----

  /** A computed splinter of worker p, out of reach of both writers. */
  ghost predicate Pending(m: Mem<real>, v: Vec<real>, p: nat, was: seq<real>, slots: seq<Option<real>>, w1: Owner, w2: Owner)
    requires MemOk(m) && W <= |slots|
    reads v
  {
    && IsSplinter(m, v, PartSum(was, slots, p), was) && (Stray(Start(p, |was|), |was|) ==> Whole(slots))
    && Avoids(m, v.root, w1) && Avoids(m, v.root, w2)
  }

  lemma PendingKept(m: Mem<real>, m': Mem<real>, v: Vec<real>, p: nat, was: seq<real>, slots: seq<Option<real>>,
                    w1: Owner, w2: Owner, o: Owner)
    requires MemOk(m) && MemOk(m') && W <= |slots| && Pending(m, v, p, was, slots, w1, w2) && OnlyOwn(m, m', o) && (o == w1 || o == w2)
    ensures Pending(m', v, p, was, slots, w1, w2)
  {
    AvoidsContents(m, m', v.root, v.shift, v.sz, o);
    AvoidsOther(m, m', v.root, o, w1);
    AvoidsOther(m, m', v.root, o, w2);
  }

  /** A write to the source keeps the frozen vector frozen. */
  lemma SourceWritten(m: Mem<real>, m': Mem<real>, orig: Node<real>, r: Node<real>, r': Node<real>, shift: nat, sz: nat,
                      x: int, o: Owner, w: Owner)
    requires MemOk(m) && MemOk(m') && HandleOk(m, orig, shift, sz) && r in m && r' in m'
    requires Older(m, orig, x) && Derived(m, orig, r, x) && Avoids(m, orig, o) && Avoids(m, orig, w)
    requires OnlyOwn(m, m', o) && Follows(m, m', r, r', o) && o.kind == Tr && x <= o.id
    ensures HandleOk(m', orig, shift, sz) && Contents(m', orig, shift, sz) == Contents(m, orig, shift, sz)
    ensures Older(m', orig, x) && Derived(m', orig, r', x) && Avoids(m', orig, o) && Avoids(m', orig, w)
    ensures Slots(m', orig, shift) == Slots(m, orig, shift)
  {
    AvoidsContents(m, m', orig, shift, sz, o);
    AvoidsSlots(m, m', orig, shift, o);
    AvoidsOther(m, m', orig, o, w);
    DerivedFollows(m, m', orig, r, r', x, o);
  }

  /** A write to the dependent leaves the frozen vector and the source alone. */
  lemma SinkWritten(m: Mem<real>, m': Mem<real>, orig: Node<real>, data: Node<real>, shift: nat, sz: nat, x: int, o: Owner, w: Owner)
    requires MemOk(m) && MemOk(m') && HandleOk(m, orig, shift, sz) && HandleOk(m, data, shift, sz)
    requires Older(m, orig, x) && Derived(m, orig, data, x) && Avoids(m, orig, o) && Avoids(m, data, o) && OnlyOwn(m, m', o)
    requires Avoids(m, orig, w)
    ensures HandleOk(m', orig, shift, sz) && HandleOk(m', data, shift, sz)
    ensures Older(m', orig, x) && Derived(m', orig, data, x) && Avoids(m', orig, o) && Avoids(m', data, o) && Avoids(m', orig, w)
    ensures Contents(m', orig, shift, sz) == Contents(m, orig, shift, sz) && Contents(m', data, shift, sz) == Contents(m, data, shift, sz)
    ensures Slots(m', orig, shift) == Slots(m, orig, shift)
  {
    FrozenKept(m, m', orig, data, shift, sz, x, o, 0);
    AvoidsSlots(m, m', orig, shift, o);
    AvoidsOther(m, m', orig, o, w);
  }

  /** `auto dep = cont_vector<T>(); dep.unprotected_push_back(op.identity)` */
  method MakeSink(g: Glob<real>, v: Vec<real>) returns (dep: Vec<real>)
    requires v.Valid(g) && v.owner.kind == Tr
    modifies g`unique_id, g`nodes
    ensures fresh(dep) && dep.owner == Owner(Tr, old(g.unique_id)) && dep.Valid(g) && dep.View(g) == [0.0]
    ensures old(g.nodes) <= g.nodes && fresh(g.nodes - old(g.nodes))
    ensures v.Valid(g) && v.View(g) == old(v.View(g)) && Avoids(g.Mem(), v.root, dep.owner)
    ensures Slots(g.Mem(), v.root, v.shift) == old(Slots(g.Mem(), v.root, v.shift))
    ensures g.unique_id > old(g.unique_id)
  {
    hide Find, Contents, Slots, Avoids;
    ghost var m := g.Mem();
    var id := g.GetUniqueId();
    dep := new Vec.Empty(g, Owner(Tr, id));
    ghost var m1 := g.Mem();
    NobodyOwns(m, v.root, dep.owner);
    AvoidsAll(m, m1, v.root, v.shift, v.sz, dep.owner);
    dep.MutPushBack(g, 0.0);
    AvoidsAll(m1, g.Mem(), v.root, v.shift, v.sz, dep.owner);
  }

  /** `freeze`: the source goes on under a new id, which no node carries yet. */
  method Freeze(g: Glob<real>, v: Vec<real>, dep: Vec<real>) returns (data: Vec<real>)
    requires v.Valid(g) && dep.Valid(g) && Avoids(g.Mem(), v.root, dep.owner)
    modifies g`unique_id
    ensures fresh(data) && data.owner == Owner(Tr, old(g.unique_id)) && g.unique_id == old(g.unique_id) + 1
    ensures data.root == v.root && data.sz == v.sz && data.shift == v.shift && g.Mem() == old(g.Mem())
    ensures Frozen(g, v, data, data.owner.id, dep.owner) && data.View(g) == v.View(g) == old(v.View(g))
    ensures dep.Valid(g) && dep.View(g) == old(dep.View(g))
    ensures Avoids(g.Mem(), v.root, data.owner) && Avoids(g.Mem(), dep.root, data.owner)
  {
    data := v.NewId(g);
    OlderHeap(g.Mem(), v.root, data.owner.id);
    NobodyOwns(g.Mem(), v.root, data.owner);
    NobodyOwns(g.Mem(), dep.root, data.owner);
  }

  lemma AddedShare(t: real, was: seq<real>, share: real)
    requires |was| > 0
    ensures Added([t], was[0 := was[0] + share], was, 0, 1) == [t + share]
  {
  }

  /** A reduction under way: the frozen contents, the source as it goes on, the one-element dependent, the splinters. */
  class Reduction {
    const g: Glob<real>
    const orig: Vec<real>
    const data: Vec<real>
    const dep: Vec<real>
    var splts: map<nat, Vec<real>>
    var joined: set<nat>
    ghost const x: int
    ghost const was: seq<real>
    /** All that the leaves of the frozen vector hold, elements or not. */
    ghost const slots: seq<Option<real>>

    ghost predicate Fixed()
      reads g
    {
      && data.owner.kind == dep.owner.kind == Tr && data.owner.id != dep.owner.id && x <= data.owner.id
      && orig != data && orig != dep && data != dep && |was| > 0 && W <= |slots|
    }

    ghost predicate Source()
      reads g, g.nodes, orig, data
    {
      && Fixed() && Frozen(g, orig, data, x, dep.owner) && orig.View(g) == was && Avoids(g.Mem(), orig.root, data.owner)
      && Slots(g.Mem(), orig.root, orig.shift) == slots
    }

    ghost predicate Sink()
      requires W <= |slots|
      reads this, g, g.nodes, dep
    {
      && dep.Valid(g) && Avoids(g.Mem(), dep.root, data.owner)
      && dep.View(g) == [Joined(was, slots, joined, HWCONC)]
    }

    ghost predicate Splinters()
      requires MemOk(g.Mem()) && W <= |slots|
      reads this, g, g.nodes, set p | p in splts :: splts[p]
    {
      && (forall p | p in joined && Stray(Start(p, |was|), |was|) :: Whole(slots))
      && forall p | p in splts ::
        && p < HWCONC && p !in joined && splts[p] != orig && splts[p] != data && splts[p] != dep
        && splts[p].owner.id < g.unique_id && Pending(g.Mem(), splts[p], p, was, slots, dep.owner, data.owner)
    }

    ghost predicate Inv()
      reads this, g, g.nodes, orig, data, dep, set p | p in splts :: splts[p]
    {
      Source() && Sink() && Splinters()
    }

    /** `reduce`: the dependent, and the freeze. */
    constructor (g: Glob<real>, v: Vec<real>)
      requires v.Valid(g) && v.owner.kind == Tr && v.sz > 0
      modifies g`unique_id, g`nodes
      ensures old(g.nodes) <= g.nodes && fresh(g.nodes - old(g.nodes)) && fresh(dep)
      ensures fresh(data.Mine(g)) && fresh(dep.Mine(g))
      ensures Inv() && joined == {} && splts == map[] && was == old(v.View(g)) && orig == v && this.g == g
      ensures data.View(g) == was && fresh(data) && W <= |slots| && slots == old(Slots(g.Mem(), v.root, v.shift))
    {
      hide Find, Avoids, Older, Derived, HandleOk, Contents, MemOk, Slots;
      SlotsAre(g.Mem(), v.root, v.shift, v.sz);
      ghost var held := Slots(g.Mem(), v.root, v.shift);
      var d := MakeSink(g, v);
      var n := Freeze(g, v, d);
      this.g, this.orig, this.data, this.dep, this.splts, this.joined := g, v, n, d, map[], {};
      this.x, this.was, this.slots := n.owner.id, v.View(g), held;
      JoinedNone(v.View(g), held, HWCONC);
      new;
    }

    /** The source is written while the reduction is under way. */
    method Write(i: nat, val: real)
      requires Inv() && i < data.sz
      modifies data`root, g`nodes, data.Mine(g)
      ensures old(g.nodes) <= g.nodes && fresh(g.nodes - old(g.nodes))
      ensures Inv() && data.View(g) == old(data.View(g))[i := val]
    {
      hide Avoids, Derived, Older, OnlyOwn, Follows, Contents, Pending, Find, MemOk;
      ghost var m, r := g.Mem(), data.root;
      SetOwn(g, data, i, val, dep.owner);
      SourceWritten(m, g.Mem(), orig.root, r, data.root, orig.shift, orig.sz, x, data.owner, dep.owner);
      AvoidsContents(m, g.Mem(), dep.root, dep.shift, dep.sz, data.owner);
      AllPending(m, data.owner);
    }

    /** `reduce_splt(p)` up to its `reattach`; false where its loop would run past its end. */
    method Splint(p: nat) returns (ok: bool)
      requires Inv() && p < HWCONC && p !in splts && p !in joined
      modifies this`splts, g`nodes, g`unique_id
      ensures old(g.nodes) <= g.nodes && fresh(g.nodes - old(g.nodes))
      ensures ok <==> !Stray(Start(p, |was|), |was|) || Whole(slots)
      ensures Inv() && data.View(g) == old(data.View(g)) && splts.Keys == old(splts.Keys) + (if ok then {p} else {})
      ensures fresh(splts.Values - old(splts.Values))
    {
      hide Avoids, Derived, Older, OnlyOwn, Follows, Contents, IsSplinter, Find, MemOk, Extends, Joined, Stray, Whole, Start, Slots, PartSum;
      ghost var m := g.Mem();
      var s;
      ok, s := ReduceSplt(g, orig, p);
      ExtendsOnlyOwn(m, g.Mem(), dep.owner);
      ExtendsOnlyOwn(m, g.Mem(), data.owner);
      SinkWritten(m, g.Mem(), orig.root, data.root, orig.shift, orig.sz, x, dep.owner, data.owner);
      AvoidsContents(m, g.Mem(), dep.root, dep.shift, dep.sz, data.owner);
      FollowsAvoids(m, g.Mem(), orig.root, s.root, dep.owner, s.owner);
      FollowsAvoids(m, g.Mem(), orig.root, s.root, data.owner, s.owner);
      forall q | q in splts
        ensures Pending(g.Mem(), splts[q], q, was, slots, dep.owner, data.owner)
      {
        PendingKept(m, g.Mem(), splts[q], q, was, slots, dep.owner, data.owner, dep.owner);
      }
      if ok {
        splts := splts[p := s];
      }
    }

    method Absorb(p: nat)
      requires Inv() && p in splts
      modifies dep`root, g`nodes, dep.Mine(g)
      ensures old(g.nodes) <= g.nodes && fresh(g.nodes - old(g.nodes))
      ensures Source() && data.View(g) == old(data.View(g))
      ensures dep.Valid(g) && Avoids(g.Mem(), dep.root, data.owner) && OnlyOwn(old(g.Mem()), g.Mem(), dep.owner)
      ensures dep.View(g) == [Joined(was, slots, joined + {p}, HWCONC)]
    {
      hide Avoids, Derived, Older, OnlyOwn, Contents, Find, MemOk, Added;
      ghost var m := g.Mem();
      Reattach(g, splts[p], orig, dep, 0, 1, data.owner);
      SinkWritten(m, g.Mem(), orig.root, data.root, orig.shift, orig.sz, x, dep.owner, data.owner);
      JoinedOne(was, slots, joined, HWCONC, p);
      AddedShare(Joined(was, slots, joined, HWCONC), was, PartSum(was, slots, p));
    }

    /** The splinters, after a change by one of the two writers. */
    lemma AllPending(m: Mem<real>, o: Owner)
      requires g.Valid() && MemOk(m) && OnlyOwn(m, g.Mem(), o) && (o == data.owner || o == dep.owner) && W <= |slots|
      requires forall p | p in splts :: Pending(m, splts[p], p, was, slots, dep.owner, data.owner)
      ensures forall p | p in splts :: Pending(g.Mem(), splts[p], p, was, slots, dep.owner, data.owner)
    {
      hide Pending, OnlyOwn, MemOk;
      forall p | p in splts
        ensures Pending(g.Mem(), splts[p], p, was, slots, dep.owner, data.owner)
      {
        PendingKept(m, g.Mem(), splts[p], p, was, slots, dep.owner, data.owner, o);
      }
    }

    method Strike(p: nat, ghost m: Mem<real>)
      requires MemOk(m) && W <= |slots| && p in splts && (Stray(Start(p, |was|), |was|) ==> Whole(slots))
      requires forall q | q in joined && Stray(Start(q, |was|), |was|) :: Whole(slots)
      modifies this`splts, this`joined
      ensures splts == old(splts) - {p} && joined == old(joined) + {p}
      ensures forall q | q in joined && Stray(Start(q, |was|), |was|) :: Whole(slots)
    {
      splts := splts - {p};
      joined := joined + {p};
    }

    /** `reattach` by worker p */
    method Join(p: nat)
      requires Inv() && p in splts
      modifies this`splts, this`joined, dep`root, g`nodes, dep.Mine(g)
      ensures old(g.nodes) <= g.nodes && fresh(g.nodes - old(g.nodes))
      ensures Inv() && data.View(g) == old(data.View(g))
      ensures splts == old(splts) - {p} && joined == old(joined) + {p}
    {
      hide Avoids, Derived, Older, OnlyOwn, Contents, Find, MemOk, Pending, HandleOk, Stray, Whole, Slots, Joined;
      ghost var m := g.Mem();
      NotLost(p);
      Absorb(p);
      AllPending(m, dep.owner);
      Strike(p, g.Mem());
    }

    /** `resolve`, after the last reattach: the dependent is the sum of the source as it is now, and what stray
        workers added too much. */
    method Finish()
      requires Inv() && forall p: nat | p < HWCONC :: p in joined
      modifies dep`root, g`nodes, dep.Mine(g)
      ensures old(g.nodes) <= g.nodes && fresh(g.nodes - old(g.nodes))
      ensures dep.Valid(g) && data.Valid(g) && data.View(g) == old(data.View(g))
      ensures dep.View(g) == [Sum(data.View(g)) + Extra(was, slots, HWCONC)]
    {
      AllShares(was, slots, joined);
      Resolve(g, orig, data, dep, x);
    }

    /** Whoever has a splinter was not lost. */
    lemma NotLost(p: nat)
      requires Inv() && (p in splts || p in joined)
      ensures Stray(Start(p, |was|), |was|) ==> Whole(slots)
    {
    }

    /** One step of a run; a step that is not due changes nothing. */
    method Do(e: Step) returns (ok: bool)
      requires Inv()
      modifies this`splts, this`joined, data`root, dep`root, g`nodes, g`unique_id, data.Mine(g), dep.Mine(g)
      ensures old(g.nodes) <= g.nodes && fresh(g.nodes - old(g.nodes)) && fresh(splts.Values - old(splts.Values))
      ensures Inv() && data.Valid(g) && data.View(g) == WriteOne(old(data.View(g)), e)
      ensures ok <==> !Lost(e, was, slots)
      ensures ok ==> Progress(splts.Keys, joined) == Advance(Progress(old(splts.Keys), old(joined)), e)
    {
      hide Source, Sink, Splinters, Contents, HandleOk;
      ok := true;
      match e {
        case SourceSet(i, val) =>
          Sized();
          if i < data.sz { Write(i, val); }
        case Compute(p) =>
          if p < HWCONC && p !in splts && p !in joined {
            ok := Splint(p);
          } else if p < HWCONC {
            NotLost(p);
          }
        case Attach(p) =>
          if p in splts { Join(p); }
      }
      Sized();
    }

    lemma Sized()
      requires Inv()
      ensures data.Valid(g) && data.sz == |was|
    {
    }

    /** Any number of steps. */
    method Run(steps: seq<Step>) returns (ok: bool)
      requires Inv() && data.Valid(g)
      modifies this`splts, this`joined, data`root, dep`root, g`nodes, g`unique_id, data.Mine(g), dep.Mine(g)
      ensures old(g.nodes) <= g.nodes && fresh(g.nodes - old(g.nodes))
      ensures ok <==> forall e | e in steps :: !Lost(e, was, slots)
      ensures ok ==> Inv() && data.Valid(g) && data.View(g) == Written(old(data.View(g)), steps)
      ensures ok ==> Progress(splts.Keys, joined) == Advanced(Progress(old(splts.Keys), old(joined)), steps)
    {
      hide Source, Sink, Splinters, Contents, HandleOk, Lost, Sum, Find, WriteOne, Advance;
      ghost var d0, p0 := data.View(g), Progress(splts.Keys, joined);
      ok := true;
      for k := 0 to |steps|
        invariant Inv() && data.Valid(g) && old(g.nodes) <= g.nodes && fresh(g.nodes - old(g.nodes))
        invariant data.View(g) == Written(d0, steps[..k])
        invariant Progress(splts.Keys, joined) == Advanced(p0, steps[..k])
        invariant forall e | e in steps[..k] :: !Lost(e, was, slots)
      {
        assert steps[..k + 1][..k] == steps[..k];
        ok := Do(steps[k]);
        if !ok {
          return;
        }
      }
      assert steps[..|steps|] == steps;
    }
  }

  /** The steps of a run, in any order: writes to the source, splinters computed, splinters reattached. */
  datatype Step = SourceSet(i: nat, val: real) | Compute(p: nat) | Attach(p: nat)

  ghost function WriteOne(d: seq<real>, e: Step): seq<real> {
    if e.SourceSet? && e.i < |d| then d[e.i := e.val] else d
  }

  /** The source at the end of a run. */
  ghost function Written(d: seq<real>, steps: seq<Step>): seq<real> {
    if steps == [] then d else WriteOne(Written(d, steps[..|steps| - 1]), steps[|steps| - 1])
  }

  /** Which workers have a splinter out, and which have reattached theirs. */
  datatype Progress = Progress(out: set<nat>, joined: set<nat>)

  ghost function Advance(w: Progress, e: Step): Progress {
    match e
    case SourceSet(_, _) => w
    case Compute(p) => if p < HWCONC && p !in w.out && p !in w.joined then w.(out := w.out + {p}) else w
    case Attach(p) => if p in w.out then Progress(w.out - {p}, w.joined + {p}) else w
  }

  ghost function Advanced(w: Progress, steps: seq<Step>): Progress {
    if steps == [] then w else Advance(Advanced(w, steps[..|steps| - 1]), steps[|steps| - 1])
  }

  /** A run after which the latch is open: every worker has computed and reattached. */
  ghost predicate AllAttached(steps: seq<Step>) {
    forall p: nat | p < HWCONC :: p in Advanced(Progress({}, {}), steps).joined
  }

  /** A worker whose loop never gets to its end. */
  ghost predicate Lost(e: Step, was: seq<real>, slots: seq<Option<real>>) {
    e.Compute? && e.p < HWCONC && Stray(Start(e.p, |was|), |was|) && !Whole(slots)
  }

  /** `reduce`, with its tasks run in any order among themselves and among writes to the source: once every worker
      has reattached, the resolution leaves the sum of the source as it is then, and what stray workers added too
      much. So the result is right if and only if that is nothing. */
  method ReduceRun(g: Glob<real>, v: Vec<real>, steps: seq<Step>) returns (ok: bool, done: bool, sum: real)
    requires v.Valid(g) && v.owner.kind == Tr && v.sz > 0
    modifies g`unique_id, g`nodes
    ensures W <= old(Span(v.shift))
    ensures ok <==> forall e | e in steps :: !Lost(e, old(v.View(g)), old(Slots(g.Mem(), v.root, v.shift)))
    ensures ok ==> (done <==> AllAttached(steps))
    ensures ok && done ==> sum == Sum(Written(old(v.View(g)), steps)) + Surplus(old(v.View(g)), old(Slots(g.Mem(), v.root, v.shift)))
    ensures ok && done ==>
              (sum == Sum(Written(old(v.View(g)), steps)) <==> Surplus(old(v.View(g)), old(Slots(g.Mem(), v.root, v.shift))) == 0.0)
  {
    hide Reduction.Source, Reduction.Sink, Reduction.Splinters, Contents, HandleOk, Lost, Sum, Find, Written, Advanced, Slots, Span, Extra, Surplus, MemOk;
    var r := new Reduction(g, v);
    r.Sized();
    assert r.splts.Keys == {};
    SurplusIs(r.was, r.slots);
    ok := r.Run(steps);
    done, sum := false, 0.0;
    if ok && forall p | 0 <= p < HWCONC :: p in r.joined {
      done := true;
      r.Finish();
      sum := r.dep.Get(g, 0);
    }
  }

  /** Five ones in a vector of one leaf; the other slots hold zeros. */
  method FiveOnes(g: Glob<real>) returns (v: Vec<real>)
    requires g.Valid() && g.zero == 0.0 && W > 6
    modifies g
    ensures v.Valid(g) && v.owner.kind == Tr && v.shift == 0 && v.View(g) == [1.0, 1.0, 1.0, 1.0, 1.0] && fresh(v)
    ensures forall i | 5 <= i < W :: Find(g.Mem(), v.root, i) == Some(0.0)
  {
    hide Find;
    var id := g.GetUniqueId();
    v := new Vec.Empty(g, Owner(Tr, id));
    EmptyLeaf(g.Mem(), v.root);
    for k := 0 to 5
      invariant v.Valid(g) && v.owner == Owner(Tr, id) && v.sz == k && v.shift == 0 && v.root.id == id && fresh(v.root)
      invariant old(g.nodes) <= g.nodes && fresh(g.nodes - old(g.nodes)) && forall n | n in old(g.nodes) :: n.id < id
      invariant forall i | 0 <= i < k :: v.View(g)[i] == 1.0
      invariant forall i: nat | k <= i < W :: Find(g.Mem(), v.root, i) == Some(0.0)
    {
      PushOne(g, v);
    }
  }

  method PushOne(g: Glob<real>, v: Vec<real>)
    requires v.Valid(g) && v.owner.kind == Tr && v.sz < W && v.shift == 0 && v.root.id == v.owner.id
    modifies v`root, v`shift, v`sz, g`nodes, v.Mine(g), v.root
    ensures v.Valid(g) && v.sz == old(v.sz) + 1 && v.View(g) == old(v.View(g)) + [1.0] && v.shift == 0 && v.root == old(v.root)
    ensures Grew(g, v.owner.id)
    ensures forall i: nat | v.sz <= i < W :: Find(g.Mem(), v.root, i) == old(Find(g.Mem(), v.root, i))
  {
    hide Find, Follows, Contents, OnlyOwn, MemOk;
    SmallMod(v.sz);
    BlockZero();
    v.MutPushBack(g, 1.0);
    ghost var r := v.root;
    forall i: nat | v.sz <= i < W
      ensures Find(g.Mem(), r, i) == old(Find(g.Mem(), r, i))
    {
      assert Covers(r, i);
    }
  }

  lemma SmallMod(k: nat)
    requires k < W
    ensures k == 0 || k % W != 0
  {
    DivUnique(k, W, 0);
  }

  lemma EmptyLeaf(m: Mem<real>, r: Node<real>)
    requires MemOk(m) && r in m && r.s == 0 && m[r] == ZeroLeaf(0.0)
    ensures forall i: nat | i < W :: Find(m, r, i) == Some(0.0)
  {
  }

  lemma {:induction false} SumZeros(s: seq<real>)
    requires forall k | 0 <= k < |s| :: s[k] == 0.0
    ensures Sum(s) == 0.0
  {
    if s != [] { SumZeros(s[..|s| - 1]); }
  }

  /** With four workers on five elements the last one starts behind the end, and adds the whole sum once more:
      five ones, reduced without any other write, give ten. */
  method StrayRun() returns (ok: bool, done: bool, sum: real)
    requires HWCONC == 4 && W > 6
    ensures ok && done && sum == 10.0 && Sum([1.0, 1.0, 1.0, 1.0, 1.0]) == 5.0
  {
    hide Find, Sum, Written, Advanced, Slots, Surplus, Lost;
    var g := new Glob(0.0);
    var v := FiveOnes(g);
    ghost var s, slots := v.View(g), Slots(g.Mem(), v.root, v.shift);
    var steps := [Compute(0), Compute(1), Compute(2), Compute(3), Attach(3), Attach(0), Attach(2), Attach(1)];
    FiveSurplus(g.Mem(), v.root, s, slots);
    FourAttached(steps);
    NothingWritten(s, steps);
    ok, done, sum := ReduceRun(g, v, steps);
  }

  lemma FiveSurplus(m: Mem<real>, r: Node<real>, s: seq<real>, slots: seq<Option<real>>)
    requires MemOk(m) && r in m && s == [1.0, 1.0, 1.0, 1.0, 1.0] && slots == Slots(m, r, 0) && HWCONC == 4 && W > 6
    requires forall i: nat | 5 <= i < W :: Find(m, r, i) == Some(0.0)
    ensures W <= |slots| && Sum(s) == 5.0 && Surplus(s, slots) == 5.0 && forall e :: !Lost(e, s, slots)
  {
    hide Find;
    BlockZero();
    assert Chunk(5) == 2;
    assert Start(0, 5) == 0 && Start(1, 5) == 2 && Start(2, 5) == 4 && Start(3, 5) == 6;
    FiveSum(s);
    SumZeros(Values(slots)[6..]);
    assert Strays(5, 0) == 0 && Strays(5, 1) == 0 && Strays(5, 2) == 0 && Strays(5, 3) == 0 && Strays(5, 4) == 1;
    assert Unused(slots, 5, 0) == 0.0 && Unused(slots, 5, 1) == 0.0 && Unused(slots, 5, 2) == 0.0 && Unused(slots, 5, 3) == 0.0;
    assert Unused(slots, 5, 4) == 0.0;
  }

  lemma FiveSum(s: seq<real>)
    requires s == [1.0, 1.0, 1.0, 1.0, 1.0]
    ensures Sum(s) == 5.0
  {
    assert s[..0] == [] && s[..5] == s;
    SumNext(s, 0);
    SumNext(s, 1);
    SumNext(s, 2);
    SumNext(s, 3);
    SumNext(s, 4);
  }

  lemma FourAttached(steps: seq<Step>)
    requires HWCONC == 4
    requires steps == [Compute(0), Compute(1), Compute(2), Compute(3), Attach(3), Attach(0), Attach(2), Attach(1)]
    ensures AllAttached(steps)
  {
    hide Advance;
    var w := Progress({}, {});
    AfterStep(w, steps, 0);
    AfterStep(w, steps, 1);
    AfterStep(w, steps, 2);
    AfterStep(w, steps, 3);
    AfterStep(w, steps, 4);
    AfterStep(w, steps, 5);
    AfterStep(w, steps, 6);
    AfterStep(w, steps, 7);
    assert steps[..8] == steps && steps[..0] == [];
  }

  /** The members of both sets after one more step. */
  lemma AfterStep(w: Progress, steps: seq<Step>, k: nat)
    requires k < |steps|
    ensures var a, b := Advanced(w, steps[..k]), Advanced(w, steps[..k + 1]);
            && b == Advance(a, steps[k])
            && (forall p: nat :: p in b.out <==>
                  ((p in a.out && steps[k] != Attach(p)) || (steps[k] == Compute(p) && p < HWCONC && p !in a.joined)))
            && (forall p: nat :: p in b.joined <==> p in a.joined || (steps[k] == Attach(p) && p in a.out))
  {
    assert steps[..k + 1][..k] == steps[..k];
  }

  lemma {:induction false} NothingWritten(d: seq<real>, steps: seq<Step>)
    requires forall e | e in steps :: !e.SourceSet?
    ensures Written(d, steps) == d
  {
    if steps != [] { NothingWritten(d, steps[..|steps| - 1]); }
  }
}
