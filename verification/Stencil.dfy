/** Stencils on a partitioned vector: what a worker computes from a snapshot, and what one resolution repairs. */
module Stencil {
  import opened Partition
  import opened Radix

  /** The index maps and operators of a stencil, each as an offset and a coefficient. The first pair stands for the
      element itself: the identity map, added with coefficient 1. */
  datatype Kernel = Kernel(offs: seq<int>, coefs: seq<real>)

  predicate KernelOk(k: Kernel) {
    |k.offs| == |k.coefs| > 0 && k.offs[0] == 0 && k.coefs[0] == 1.0
  }

  /** No offset is longer than the radius r. */
  predicate Within(k: Kernel, r: nat) {
    forall i | 0 <= i < |k.offs| :: -k.offs[i] <= r && k.offs[i] <= r
  }

  /** Every neighbour of `t` exists. */
  predicate Interior(k: Kernel, n: nat, t: int) {
    forall i | 0 <= i < |k.offs| :: 0 <= t + k.offs[i] < n
  }

  ghost function Dot(k: Kernel, s: seq<real>, t: int, m: nat): real
    requires KernelOk(k) && Interior(k, |s|, t) && m <= |k.offs|
  {
    if m == 0 then 0.0 else Dot(k, s, t, m - 1) + k.coefs[m - 1] * s[t + k.offs[m - 1]]
  }

  /** The new value of one element: boundary elements stay. */
  ghost function Next(k: Kernel, s: seq<real>, t: nat): real
    requires KernelOk(k) && t < |s|
  {
    if Interior(k, |s|, t) then Dot(k, s, t, |k.offs|) else s[t]
  }

  /** One sequential sweep. */
  ghost function Sweep(k: Kernel, s: seq<real>): (r: seq<real>)
    requires KernelOk(k)
    ensures |r| == |s|
  {
    seq(|s|, t requires 0 <= t < |s| => Next(k, s, t))
  }

  ghost function Sweeps(k: Kernel, s: seq<real>, steps: nat): (r: seq<real>)
    requires KernelOk(k)
    ensures |r| == |s|
  {
    if steps == 0 then s else Sweep(k, Sweeps(k, s, steps - 1))
  }

  // ---- which corrections a resolution makes ----

  /** `safe_mapping(offset<o>, i, 0, n)`: an index of the source, and the index of the dependent that reads it. */
  function SafeMap(o: int, i: nat, n: nat): (int, int) {
    var dom, ran := i + o, i;
    var dom1, ran1 := if dom < 0 then 0 else dom, if dom < 0 then ran - dom else ran;
    if dom1 >= n then (n, ran1 - (dom1 - n)) else (dom1, ran1)
  }

  /** `icontended`: the indices that some worker read beyond the ends of its own partition. */
  predicate Overlap(o: int, n: nat, p: nat, c: int) {
    var a, b := SafeMap(o, Start(p, n), n), SafeMap(o, End(p, n), n);
    a.0 <= c < a.1 || b.1 <= c < b.0
  }

  predicate Overlaps(o: int, n: nat, c: int) {
    exists p: nat | p < HWCONC :: Overlap(o, n, p, c)
  }

  /** Index c of the source is looked at for map i, and its image is an element of the dependent. */
  predicate Due(k: Kernel, n: nat, contended: set<int>, i: nat, c: int) {
    i < |k.offs| && 0 <= c < n && 0 <= c - k.offs[i] < n && (Overlaps(k.offs[i], n, c) || c in contended)
  }

  /** The amount of a correction for map i at source index c, against the snapshot `u`. */
  ghost function Delta(k: Kernel, cur: seq<real>, u: seq<real>, i: nat, c: int): real
    requires KernelOk(k) && i < |k.offs| && 0 <= c < |cur| == |u|
  {
    k.coefs[i] * (cur[c] - u[c])
  }

  /** What the corrections in `done` add to element t, whose worker had read `u`. */
  ghost function Fix(k: Kernel, cur: seq<real>, u: seq<real>, done: set<(nat, int)>, t: int, m: nat): real
    requires KernelOk(k) && |u| == |cur| && m <= |k.offs|
  {
    if m == 0 then 0.0 else
      var c := t + k.offs[m - 1];
      Fix(k, cur, u, done, t, m - 1)
      + if (m - 1, c) in done && 0 <= c < |cur| then Delta(k, cur, u, m - 1, c) else 0.0
  }

  /** A correction for map i at source index c adds its difference to element c - o_i, and nothing elsewhere. */
  lemma {:induction false} FixOne(k: Kernel, cur: seq<real>, u: seq<real>, done: set<(nat, int)>, t: int, m: nat, i: nat, c: int)
    requires KernelOk(k) && |u| == |cur| && m <= |k.offs| && i < |k.offs| && (i, c) !in done && 0 <= c < |cur|
    ensures Fix(k, cur, u, done + {(i, c)}, t, m) ==
            Fix(k, cur, u, done, t, m) + if i < m && t + k.offs[i] == c then Delta(k, cur, u, i, c) else 0.0
  {
    if m > 0 { FixOne(k, cur, u, done, t, m - 1, i, c); }
  }

  lemma {:induction false} FixNone(k: Kernel, cur: seq<real>, u: seq<real>, t: int, m: nat)
    requires KernelOk(k) && |u| == |cur| && m <= |k.offs|
    ensures Fix(k, cur, u, {}, t, m) == 0.0
  {
    if m > 0 { FixNone(k, cur, u, t, m - 1); }
  }

  lemma Replace(x: real, cur: real, u: real)
    ensures x * u + x * (cur - u) == x * cur
  {
  }

  /** Each stale neighbour is corrected, or was not stale. */
  lemma {:induction false} FixDot(k: Kernel, cur: seq<real>, u: seq<real>, done: set<(nat, int)>, t: int, m: nat)
    requires KernelOk(k) && |u| == |cur| && m <= |k.offs| && Interior(k, |cur|, t)
    requires forall i: nat | i < m :: (i, t + k.offs[i]) in done || u[t + k.offs[i]] == cur[t + k.offs[i]]
    ensures Dot(k, u, t, m) + Fix(k, cur, u, done, t, m) == Dot(k, cur, t, m)
  {
    if m > 0 {
      FixDot(k, cur, u, done, t, m - 1);
      var c := t + k.offs[m - 1];
      Replace(k.coefs[m - 1], cur[c], u[c]);
    }
  }

  /** Corrections by nothing. */
  lemma {:induction false} FixZero(k: Kernel, cur: seq<real>, u: seq<real>, done: set<(nat, int)>, t: int, m: nat)
    requires KernelOk(k) && |u| == |cur| && m <= |k.offs|
    requires forall i: nat | i < m :: var c := t + k.offs[i]; (i, c) in done && 0 <= c < |cur| ==> u[c] == cur[c]
    ensures Fix(k, cur, u, done, t, m) == 0.0
  {
    if m > 0 { FixZero(k, cur, u, done, t, m - 1); }
  }

  // ---- one resolution repairs all staleness ----

  /** Worker p's snapshot `u` agrees with the final source on its own partition, outside `contended`. */
  ghost predicate Fresh(cur: seq<real>, u: seq<real>, p: nat, contended: set<int>) {
    |u| == |cur| && forall c | Start(p, |cur|) <= c < End(p, |cur|) && c !in contended :: u[c] == cur[c]
  }

  /** A neighbour outside the worker's partition is looked at again. */
  lemma OutsideOverlaps(o: int, n: nat, p: nat, t: int)
    requires p < HWCONC && Start(p, n) <= t < End(p, n) && 0 <= t + o < n
    requires !(Start(p, n) <= t + o < End(p, n))
    ensures Overlaps(o, n, t + o)
  {
    assert Overlap(o, n, p, t + o);
  }

  /** The overlaps of a map are the indices whose reader belongs to another worker, and those that the first and the last
      elements of the vector are clamped to. */
  lemma OverlapsExact(o: int, n: nat, c: nat)
    requires c < n && 0 <= c - o < n
    ensures Overlaps(o, n, c) <==> WorkerAt(c, n) != WorkerAt(c - o, n) || (o < 0 && c < -o) || (o > 0 && c >= n - o)
  {
    hide Start, End, WorkerAt;
    var t: nat := c - o;
    if Overlaps(o, n, c) {
      var p: nat :| p < HWCONC && Overlap(o, n, p, c);
      OverlapParts(o, n, p, c);
    }
    if WorkerAt(c, n) != WorkerAt(t, n) {
      var p := WorkerFor(t, n);
      InShare(t, n, p);
      InShare(c, n, p);
      OutsideOverlaps(o, n, p, t);
    }
    Shape(0, n);
    Shape(HWCONC - 1, n);
    if o < 0 && c < -o { assert Overlap(o, n, 0, c); }
    if o > 0 && c >= n - o { assert Overlap(o, n, HWCONC - 1, c); }
  }

  lemma OverlapParts(o: int, n: nat, p: nat, c: nat)
    requires c < n && 0 <= c - o < n && p < HWCONC && Overlap(o, n, p, c)
    ensures WorkerAt(c, n) != WorkerAt(c - o, n) || (o < 0 && c < -o) || (o > 0 && c >= n - o)
  {
    hide WorkerAt, Start, End;
    var a, b, t: nat := SafeMap(o, Start(p, n), n), SafeMap(o, End(p, n), n), c - o;
    if c < Start(p, n) <= t {
      Apart(c, t, n, p);
    } else if End(p, n) <= c && t < End(p, n) {
      if End(p, n) < n { EndIs(p, n); Apart(t, c, n, p + 1); }
    }
  }

  lemma EndIs(p: nat, n: nat)
    ensures End(p, n) < n ==> End(p, n) == Start(p + 1, n)
  {
  }

  /** Indices on both sides of a partition's start have different workers. */
  lemma Apart(c: nat, t: nat, n: nat, p: nat)
    requires c < Start(p, n) <= t < n
    ensures WorkerAt(c, n) != WorkerAt(t, n)
  {
    var k := Chunk(n);
    DivIs(c, k, c / k);
    DivIs(t, k, c / k);
    MulMono(c / k + 1, if c / k < p then p else c / k + 1, k);
    MulMono(p, if c / k < p then p else c / k, k);
  }

  /** Interior elements are repaired, wherever the contended indices are. */
  lemma InteriorRepaired(k: Kernel, cur: seq<real>, u: seq<real>, p: nat, contended: set<int>, done: set<(nat, int)>, t: nat)
    requires KernelOk(k) && p < HWCONC && Fresh(cur, u, p, contended) && Start(p, |cur|) <= t < End(p, |cur|)
    requires Interior(k, |cur|, t)
    requires forall i: nat, c | Due(k, |cur|, contended, i, c) :: (i, c) in done
    ensures Next(k, u, t) + Fix(k, cur, u, done, t, |k.offs|) == Next(k, cur, t)
  {
    forall i: nat | i < |k.offs|
      ensures (i, t + k.offs[i]) in done || u[t + k.offs[i]] == cur[t + k.offs[i]]
    {
      var c := t + k.offs[i];
      if !(Start(p, |cur|) <= c < End(p, |cur|)) {
        OutsideOverlaps(k.offs[i], |cur|, p, t);
        assert Due(k, |cur|, contended, i, c);
      } else if c in contended {
        assert Due(k, |cur|, contended, i, c);
      }
    }
    FixDot(k, cur, u, done, t, |k.offs|);
  }

  /** Every partition is at least two radii wide. */
  ghost predicate Wide(n: nat, r: nat) {
    forall p: nat | p < HWCONC :: Start(p, n) + 2 * r <= End(p, n)
  }

  /** Contended indices keep two radii away from both ends. */
  ghost predicate Inland(n: nat, r: nat, contended: set<int>) {
    forall c | c in contended :: 2 * r <= c < n - 2 * r
  }

  /** A neighbour of a boundary element is in the same partition, away from the contended indices. */
  lemma EdgeNeighbour(k: Kernel, n: nat, r: nat, p: nat, t: nat, c: int)
    requires Within(k, r) && Wide(n, r) && p < HWCONC && Start(p, n) <= t < End(p, n) && !Interior(k, n, t)
    requires t - r <= c <= t + r && 0 <= c < n
    ensures Start(p, n) <= c < End(p, n) && (c < 2 * r || c >= n - 2 * r)
  {
    WideAround(n, r, p);
    var i :| 0 <= i < |k.offs| && !(0 <= t + k.offs[i] < n);
  }

  /** What lies before and behind a partition is two radii wide at least, or nothing. */
  lemma WideAround(n: nat, r: nat, p: nat)
    requires Wide(n, r) && p < HWCONC && Start(p, n) < End(p, n)
    ensures p == 0 || 2 * r <= Start(p, n)
    ensures p + 1 == HWCONC || End(p, n) + 2 * r <= n
    ensures (p == 0 ==> Start(p, n) == 0) && (p + 1 == HWCONC ==> End(p, n) == n)
  {
    Shape(p, n);
    if p > 0 {
      Shape(p - 1, n);
      assert Start(p - 1, n) + 2 * r <= End(p - 1, n);
    }
    if p + 1 < HWCONC {
      Shape(p + 1, n);
      assert Start(p + 1, n) + 2 * r <= End(p + 1, n);
      if End(p, n) < n { NextStart(p, n); }
    }
  }

  /** Boundary elements stay as they are, provided the contended indices are inland. */
  lemma EdgeKept(k: Kernel, cur: seq<real>, u: seq<real>, r: nat, p: nat, contended: set<int>, done: set<(nat, int)>, t: nat)
    requires KernelOk(k) && Within(k, r) && p < HWCONC && Fresh(cur, u, p, contended) && Start(p, |cur|) <= t < End(p, |cur|)
    requires !Interior(k, |cur|, t) && Wide(|cur|, r) && Inland(|cur|, r, contended)
    ensures Next(k, u, t) + Fix(k, cur, u, done, t, |k.offs|) == Next(k, cur, t)
  {
    forall i: nat | i < |k.offs|
      ensures var c := t + k.offs[i]; 0 <= c < |cur| ==> u[c] == cur[c]
    {
      var c := t + k.offs[i];
      if 0 <= c < |cur| { EdgeNeighbour(k, |cur|, r, p, t, c); }
    }
    EdgeNeighbour(k, |cur|, r, p, t, t);
    FixZero(k, cur, u, done, t, |k.offs|);
  }

  /** One resolution repairs every element of worker p's partition. */
  lemma Repaired(k: Kernel, cur: seq<real>, u: seq<real>, r: nat, p: nat, contended: set<int>, done: set<(nat, int)>, t: nat)
    requires KernelOk(k) && Within(k, r) && p < HWCONC && Fresh(cur, u, p, contended) && Start(p, |cur|) <= t < End(p, |cur|)
    requires Wide(|cur|, r) && Inland(|cur|, r, contended)
    requires forall i: nat, c | Due(k, |cur|, contended, i, c) :: (i, c) in done
    ensures Next(k, u, t) + Fix(k, cur, u, done, t, |k.offs|) == Next(k, cur, t)
  {
    if Interior(k, |cur|, t) {
      InteriorRepaired(k, cur, u, p, contended, done, t);
    } else {
      EdgeKept(k, cur, u, r, p, contended, done, t);
    }
  }

  // ---- sums of terms, by offset ----

  /** The coefficients at offset o, among the first m, summed. */
  ghost function Weight(offs: seq<int>, coefs: seq<real>, o: int, m: nat): real
    requires |offs| == |coefs| && m <= |offs|
  {
    if m == 0 then 0.0 else Weight(offs, coefs, o, m - 1) + if offs[m - 1] == o then coefs[m - 1] else 0.0
  }

  /** The first m terms at element t, of the elements that exist. */
  ghost function Linear(offs: seq<int>, coefs: seq<real>, e: seq<real>, t: int, m: nat): real
    requires |offs| == |coefs| && m <= |offs|
  {
    if m == 0 then 0.0 else
      var c := t + offs[m - 1];
      Linear(offs, coefs, e, t, m - 1) + if 0 <= c < |e| then coefs[m - 1] * e[c] else 0.0
  }

  /** The same, element by element: each of the first n times the weight of its offset. */
  ghost function Weighted(offs: seq<int>, coefs: seq<real>, e: seq<real>, t: int, m: nat, n: nat): real
    requires |offs| == |coefs| && m <= |offs| && n <= |e|
  {
    if n == 0 then 0.0 else Weighted(offs, coefs, e, t, m, n - 1) + Weight(offs, coefs, n - 1 - t, m) * e[n - 1]
  }

  lemma Spread(w: real, x: real, e: real)
    ensures (w + x) * e == w * e + x * e
  {
  }

  lemma {:induction false} WeightedNext(offs: seq<int>, coefs: seq<real>, e: seq<real>, t: int, m: nat, n: nat)
    requires |offs| == |coefs| && 0 < m <= |offs| && n <= |e|
    ensures var c := t + offs[m - 1];
            Weighted(offs, coefs, e, t, m, n) ==
            Weighted(offs, coefs, e, t, m - 1, n) + if 0 <= c < n then coefs[m - 1] * e[c] else 0.0
  {
    if n > 0 {
      WeightedNext(offs, coefs, e, t, m, n - 1);
      Spread(Weight(offs, coefs, n - 1 - t, m - 1), coefs[m - 1], e[n - 1]);
    }
  }

  lemma {:induction false} WeightedNone(offs: seq<int>, coefs: seq<real>, e: seq<real>, t: int, n: nat)
    requires |offs| == |coefs| && n <= |e|
    ensures Weighted(offs, coefs, e, t, 0, n) == 0.0
  {
    if n > 0 { WeightedNone(offs, coefs, e, t, n - 1); }
  }

  /** Only the summed coefficients matter. */
  lemma {:induction false} LinearIsWeighted(offs: seq<int>, coefs: seq<real>, e: seq<real>, t: int, m: nat)
    requires |offs| == |coefs| && m <= |offs|
    ensures Linear(offs, coefs, e, t, m) == Weighted(offs, coefs, e, t, m, |e|)
  {
    if m == 0 {
      WeightedNone(offs, coefs, e, t, |e|);
    } else {
      LinearIsWeighted(offs, coefs, e, t, m - 1);
      WeightedNext(offs, coefs, e, t, m, |e|);
    }
  }

  /** Two sets of terms have the same summed coefficient at offset o. */
  ghost predicate SameWeight(offs: seq<int>, coefs: seq<real>, offs': seq<int>, coefs': seq<real>, o: int)
    requires |offs| == |coefs| && |offs'| == |coefs'|
  {
    Weight(offs, coefs, o, |offs|) == Weight(offs', coefs', o, |offs'|)
  }

  lemma {:induction false} SameWeights(offs: seq<int>, coefs: seq<real>, offs': seq<int>, coefs': seq<real>, e: seq<real>, t: int, n: nat)
    requires |offs| == |coefs| && |offs'| == |coefs'| && n <= |e|
    requires forall o: int :: SameWeight(offs, coefs, offs', coefs', o)
    ensures Weighted(offs, coefs, e, t, |offs|, n) == Weighted(offs', coefs', e, t, |offs'|, n)
  {
    if n > 0 {
      SameWeights(offs, coefs, offs', coefs', e, t, n - 1);
      assert SameWeight(offs, coefs, offs', coefs', n - 1 - t);
    }
  }

  /** One in element c, nothing elsewhere */
  ghost function Unit(n: nat, c: int): (e: seq<real>)
    ensures |e| == n
  {
    seq(n, i => if i == c then 1.0 else 0.0)
  }

  lemma {:induction false} LinearUnit(offs: seq<int>, coefs: seq<real>, n: nat, c: int, t: int, m: nat)
    requires |offs| == |coefs| && m <= |offs| && 0 <= c < n
    ensures Linear(offs, coefs, Unit(n, c), t, m) == Weight(offs, coefs, c - t, m)
  {
    if m > 0 { LinearUnit(offs, coefs, n, c, t, m - 1); }
  }

  lemma {:induction false} NoWeight(offs: seq<int>, coefs: seq<real>, o: int, m: nat)
    requires |offs| == |coefs| && m <= |offs| && forall i | 0 <= i < m :: offs[i] != o
    ensures Weight(offs, coefs, o, m) == 0.0
  {
    if m > 0 { NoWeight(offs, coefs, o, m - 1); }
  }

  // ---- boundary elements, exactly ----

  /** The resolution looks at index c on behalf of element t. */
  ghost predicate Looked(n: nat, contended: set<int>, t: int, c: int) {
    Overlaps(c - t, n, c) || c in contended
  }

  /** The differences that the resolution finds on behalf of element t. */
  ghost function Differences(cur: seq<real>, u: seq<real>, contended: set<int>, t: int): (e: seq<real>)
    requires |u| == |cur|
    ensures |e| == |cur|
  {
    seq(|cur|, c requires 0 <= c < |cur| => if Looked(|cur|, contended, t, c) then cur[c] - u[c] else 0.0)
  }

  /** What all due corrections together add to element t. */
  ghost function DueFix(k: Kernel, cur: seq<real>, u: seq<real>, contended: set<int>, t: int): real
    requires KernelOk(k) && |u| == |cur|
  {
    Linear(k.offs, k.coefs, Differences(cur, u, contended, t), t, |k.offs|)
  }

  lemma {:induction false} FixIsDue(k: Kernel, cur: seq<real>, u: seq<real>, contended: set<int>, done: set<(nat, int)>, t: int, m: nat)
    requires KernelOk(k) && |u| == |cur| && m <= |k.offs| && 0 <= t < |cur|
    requires forall x: (nat, int) :: x in done <==> Due(k, |cur|, contended, x.0, x.1)
    ensures Fix(k, cur, u, done, t, m) == Linear(k.offs, k.coefs, Differences(cur, u, contended, t), t, m)
  {
    if m > 0 {
      FixIsDue(k, cur, u, contended, done, t, m - 1);
      var c := t + k.offs[m - 1];
      assert (m - 1, c) in done <==> Due(k, |cur|, contended, m - 1, c);
    }
  }

  /** The worker of element t may have read index c before its last change. */
  ghost predicate Stale(n: nat, p: nat, contended: set<int>, c: int) {
    0 <= c < n && (!(Start(p, n) <= c < End(p, n)) || c in contended)
  }

  /** No existing index that may be stale is read with a summed coefficient other than 0, or 1 for the element itself. */
  ghost predicate EdgeSafe(k: Kernel, n: nat, p: nat, contended: set<int>, t: int)
    requires KernelOk(k)
  {
    forall c | Stale(n, p, contended, c) :: Weight(k.offs, k.coefs, c - t, |k.offs|) == if c == t then 1.0 else 0.0
  }

  /** Element t is right after the resolution. */
  ghost predicate Mended(k: Kernel, cur: seq<real>, u: seq<real>, contended: set<int>, t: nat)
    requires KernelOk(k) && |u| == |cur| && t < |cur|
  {
    Next(k, u, t) + DueFix(k, cur, u, contended, t) == Next(k, cur, t)
  }

  /** Differences at safe indices add up to the element's own difference. */
  lemma {:induction false} SafeSum(k: Kernel, cur: seq<real>, u: seq<real>, p: nat, contended: set<int>, t: nat, n: nat)
    requires KernelOk(k) && p < HWCONC && Fresh(cur, u, p, contended) && Start(p, |cur|) <= t < End(p, |cur|)
    requires EdgeSafe(k, |cur|, p, contended, t) && n <= |cur|
    ensures Weighted(k.offs, k.coefs, Differences(cur, u, contended, t), t, |k.offs|, n) == if t < n then cur[t] - u[t] else 0.0
  {
    hide Weight, Stale;
    if n > 0 {
      SafeSum(k, cur, u, p, contended, t, n - 1);
      SafeTerm(k, cur, u, p, contended, t, n - 1);
    }
  }

  lemma SafeTerm(k: Kernel, cur: seq<real>, u: seq<real>, p: nat, contended: set<int>, t: nat, c: nat)
    requires KernelOk(k) && p < HWCONC && Fresh(cur, u, p, contended) && Start(p, |cur|) <= t < End(p, |cur|)
    requires EdgeSafe(k, |cur|, p, contended, t) && c < |cur|
    ensures Weight(k.offs, k.coefs, c - t, |k.offs|) * Differences(cur, u, contended, t)[c] == if c == t then cur[t] - u[t] else 0.0
  {
    hide Weight, Start, End, Overlaps;
    var e := Differences(cur, u, contended, t);
    if Stale(|cur|, p, contended, c) {
      if !(Start(p, |cur|) <= c < End(p, |cur|)) { OutsideOverlaps(c - t, |cur|, p, t); }
      assert e[c] == cur[c] - u[c];
    } else {
      assert cur[c] == u[c] && e[c] == 0.0;
    }
  }

  lemma SafeMended(k: Kernel, cur: seq<real>, u: seq<real>, p: nat, contended: set<int>, t: nat)
    requires KernelOk(k) && p < HWCONC && Fresh(cur, u, p, contended) && Start(p, |cur|) <= t < End(p, |cur|)
    requires EdgeSafe(k, |cur|, p, contended, t) && !Interior(k, |cur|, t)
    ensures Mended(k, cur, u, contended, t)
  {
    LinearIsWeighted(k.offs, k.coefs, Differences(cur, u, contended, t), t, |k.offs|);
    SafeSum(k, cur, u, p, contended, t, |cur|);
  }

  /** One stale index with a weight, and a source that differs from the snapshot there only. */
  lemma UnsafeBroken(k: Kernel, n: nat, p: nat, contended: set<int>, t: nat, c: int)
    requires KernelOk(k) && p < HWCONC && Start(p, n) <= t < End(p, n) && !Interior(k, n, t) && Stale(n, p, contended, c)
    requires Weight(k.offs, k.coefs, c - t, |k.offs|) != if c == t then 1.0 else 0.0
    ensures Fresh(Unit(n, c), Unit(n, -1), p, contended) && !Mended(k, Unit(n, c), Unit(n, -1), contended, t)
  {
    if !(Start(p, n) <= c < End(p, n)) { OutsideOverlaps(c - t, n, p, t); }
    assert Differences(Unit(n, c), Unit(n, -1), contended, t) == Unit(n, c);
    LinearUnit(k.offs, k.coefs, n, c, t, |k.offs|);
  }

  /** Interior elements are right wherever the contended indices are. */
  lemma InteriorMended(k: Kernel, cur: seq<real>, u: seq<real>, p: nat, contended: set<int>, t: nat)
    requires KernelOk(k) && p < HWCONC && Fresh(cur, u, p, contended) && Start(p, |cur|) <= t < End(p, |cur|)
    requires Interior(k, |cur|, t)
    ensures Mended(k, cur, u, contended, t)
  {
    hide Due;
    var done := set i: nat, c: nat | i < |k.offs| && c < |cur| && Due(k, |cur|, contended, i, c) :: (i, c as int);
    DueIsSmall(k, |cur|, contended);
    assert forall x: (nat, int) :: x in done <==> Due(k, |cur|, contended, x.0, x.1);
    InteriorRepaired(k, cur, u, p, contended, done, t);
    FixIsDue(k, cur, u, contended, done, t, |k.offs|);
  }

  lemma DueIsSmall(k: Kernel, n: nat, contended: set<int>)
    ensures forall i: nat, c :: Due(k, n, contended, i, c) ==> i < |k.offs| && 0 <= c < n
  {
  }

  /** A boundary element is right after the resolution, whatever the data, if and only if it is safe. */
  lemma EdgeExact(k: Kernel, n: nat, p: nat, contended: set<int>, t: nat)
    requires KernelOk(k) && p < HWCONC && Start(p, n) <= t < End(p, n) && !Interior(k, n, t)
    ensures EdgeSafe(k, n, p, contended, t) <==>
            forall cur: seq<real>, u: seq<real> | |cur| == n && Fresh(cur, u, p, contended) :: Mended(k, cur, u, contended, t)
  {
    if EdgeSafe(k, n, p, contended, t) {
      forall cur: seq<real>, u: seq<real> | |cur| == n && Fresh(cur, u, p, contended)
        ensures Mended(k, cur, u, contended, t)
      {
        SafeMended(k, cur, u, p, contended, t);
      }
    } else {
      var c :| Stale(n, p, contended, c) && Weight(k.offs, k.coefs, c - t, |k.offs|) != if c == t then 1.0 else 0.0;
      UnsafeBroken(k, n, p, contended, t, c);
    }
  }

  // ---- how far corrections spread ----

  /** Within `d` of a boundary between two partitions. */
  ghost predicate Near(n: nat, d: nat, c: int) {
    exists q: nat :: 1 <= q < HWCONC && Start(q, n) - d <= c < Start(q, n) + d
  }

  /** A correction that changes anything lies one radius further out than what it corrects, at most. */
  lemma Spreads(k: Kernel, cur: seq<real>, u: seq<real>, r: nat, p: nat, contended: set<int>, d: nat, t: int, c: int)
    requires KernelOk(k) && Within(k, r) && p < HWCONC && Fresh(cur, u, p, contended)
    requires Start(p, |cur|) <= t < End(p, |cur|) && t - r <= c <= t + r && 0 <= c < |cur| && cur[c] != u[c]
    requires forall x | x in contended :: Near(|cur|, d, x)
    ensures Near(|cur|, d + r, t)
  {
    var n := |cur|;
    if c in contended {
      var q: nat :| 1 <= q < HWCONC && Start(q, n) - d <= c < Start(q, n) + d;
      assert Start(q, n) - (d + r) <= t < Start(q, n) + (d + r);
    } else if c < Start(p, n) {
      assert Start(p, n) - (d + r) <= t < Start(p, n) + (d + r);
      if p == 0 { Shape(0, n); }
    } else {
      Shape(p, n);
      if p + 1 == HWCONC { assert false; }
      var q: nat := p + 1;
      NextStart(p, n);
      assert Start(q, n) - (d + r) <= t < Start(q, n) + (d + r);
    }
  }

  lemma NextStart(p: nat, n: nat)
    requires p + 1 < HWCONC && End(p, n) < n
    ensures End(p, n) == Start(p + 1, n)
  {
  }

  /** Every interior boundary lies at least a chunk from the start, and a last partition from the end. */
  lemma BoundaryBetween(n: nat, q: nat)
    requires 1 <= q < HWCONC
    ensures Chunk(n) <= Start(q, n) <= Start(HWCONC - 1, n)
  {
    var h: nat := HWCONC;
    MulMono(1, q, Chunk(n));
    MulMono(q, h - 1, Chunk(n));
  }

  /** Deep enough partitions keep corrections inland. */
  lemma NearInland(n: nat, r: nat, d: nat, c: int)
    requires Near(n, d, c) && d + 2 * r <= n - Start(HWCONC - 1, n)
    ensures 2 * r <= c < n - 2 * r
  {
    hide Start, Chunk;
    var q: nat :| 1 <= q < HWCONC && Start(q, n) - d <= c < Start(q, n) + d;
    LastIsSmallest(n);
    BoundaryBetween(n, q);
  }

  lemma LastIsSmallest(n: nat)
    ensures n - Start(HWCONC - 1, n) <= Chunk(n)
  {
    ChunkIs(n);
    var h: nat := HWCONC;
    assert Chunk(n) * (h - 1) == Chunk(n) * h - Chunk(n);
    assert Chunk(n) * h == h * Chunk(n);
  }

  lemma StartBefore(n: nat, p: nat)
    requires p < HWCONC
    ensures Start(p, n) <= Start(HWCONC - 1, n)
    ensures End(p, n) == if Start(p, n) + Chunk(n) < n then Start(p, n) + Chunk(n) else n
  {
    var h: nat := HWCONC;
    MulMono(p, h - 1, Chunk(n));
    assert Chunk(n) * (p + 1) == Chunk(n) * p + Chunk(n);
  }

  lemma WideIfLast(n: nat, r: nat)
    requires 2 * r <= n - Start(HWCONC - 1, n)
    ensures Wide(n, r)
  {
    hide Start, End, Chunk;
    LastIsSmallest(n);
    forall p: nat | p < HWCONC
      ensures Start(p, n) + 2 * r <= End(p, n)
    {
      StartBefore(n, p);
    }
  }
}
