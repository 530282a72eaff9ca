/** `resolve_monotonic`: replaying the differences of stale reads, map by map. */
module Resolution {
  import opened Partition
  import opened Radix
  import opened Stencil
  import opened StencilTasks

  /** The part of a cont_vector that a resolution reads and writes; snapshots behave as values. */
  class ContVector {
    var data: seq<real>
    var contended: set<int>

    constructor (data: seq<real>)
      ensures this.data == data && contended == {}
    {
      this.data, this.contended := data, {};
    }
  }

  /** The loops that fill `icontended` for one map. */
  method Contend(o: int, n: nat) returns (ic: set<int>)
    ensures forall c :: c in ic <==> Overlaps(o, n, c)
  {
    ic := {};
    for p := 0 to HWCONC
      invariant forall c :: c in ic <==> exists q: nat | q < p :: Overlap(o, n, q, c)
    {
      var adom, aran := SafeOffset(o, Start(p, n), n);
      var bdom, bran := SafeOffset(o, End(p, n), n);
      var before := ic;
      ic := InsertRange(ic, adom, aran);
      ic := InsertRange(ic, bran, bdom);
      forall c
        ensures c in ic <==> exists q: nat | q < p + 1 :: Overlap(o, n, q, c)
      {
        assert c in ic <==> c in before || Overlap(o, n, p, c);
      }
    }
  }

  /** `for (c = lo; c < hi; c += 1) icontended.insert(c)` */
  method InsertRange(ic: set<int>, lo: int, hi: int) returns (r: set<int>)
    ensures forall c :: c in r <==> c in ic || lo <= c < hi
  {
    r := ic;
    var c := lo;
    while c < hi
      invariant lo <= c && (c <= hi || c == lo)
      invariant forall x :: x in r <==> x in ic || lo <= x < c
    {
      r := r + {c};
      c := c + 1;
    }
  }

  /** The search for the worker whose partition holds `cmap`; HWCONC if there is none. */
  method WorkerOf(cmap: int, n: nat) returns (p: nat)
    ensures if 0 <= cmap < n then p < HWCONC && Start(p, n) <= cmap < End(p, n) else p == HWCONC
  {
    hide Start, End, Chunk;
    p := HWCONC;
    for pi := 0 to HWCONC
      invariant p == HWCONC || (p < pi && Start(p, n) <= cmap < End(p, n))
      invariant p == HWCONC ==> forall q: nat | q < pi :: !(Start(q, n) <= cmap < End(q, n))
    {
      if Start(pi, n) <= cmap < End(pi, n) {
        p := pi;
      }
    }
    if 0 <= cmap < n {
      ghost var q := WorkerFor(cmap, n);
    }
  }

  /** One snapshot per worker, all of the source's length. */
  predicate Snapshots(used: seq<seq<real>>, n: nat) {
    |used| == HWCONC && forall p | 0 <= p < HWCONC :: |used[p]| == n
  }

  /** `d` is `d0` with the corrections in `done` applied, each against the snapshot of the worker it concerns. */
  ghost predicate Patched(k: Kernel, cur: seq<real>, used: seq<seq<real>>, d0: seq<real>, d: seq<real>, done: set<(nat, int)>)
    requires KernelOk(k) && Snapshots(used, |cur|)
  {
    && |d| == |d0| == |cur|
    && forall p: nat, t: nat | p < HWCONC && Start(p, |cur|) <= t < End(p, |cur|) ::
         d[t] == d0[t] + Fix(k, cur, used[p], done, t, |k.offs|)
  }

  lemma PatchedNone(k: Kernel, cur: seq<real>, used: seq<seq<real>>, d: seq<real>)
    requires KernelOk(k) && Snapshots(used, |cur|) && |d| == |cur|
    ensures Patched(k, cur, used, d, d, {})
  {
    forall p: nat, t: nat | p < HWCONC && Start(p, |cur|) <= t < End(p, |cur|)
      ensures Fix(k, cur, used[p], {}, t, |k.offs|) == 0.0
    {
      FixNone(k, cur, used[p], t, |k.offs|);
    }
  }

  lemma Scaled(k: Kernel, cur: seq<real>, u: seq<real>, i: nat, c: int, diff: real)
    requires KernelOk(k) && i < |k.offs| && 0 <= c < |cur| == |u| && diff == cur[c] - u[c]
    ensures k.coefs[i] * diff == Delta(k, cur, u, i, c)
  {
  }

  lemma PatchedOne(k: Kernel, cur: seq<real>, used: seq<seq<real>>, d0: seq<real>, d: seq<real>, done: set<(nat, int)>,
                   i: nat, c: int, t0: nat, p0: nat, diff: real)
    requires KernelOk(k) && Snapshots(used, |cur|) && Patched(k, cur, used, d0, d, done)
    requires i < |k.offs| && (i, c) !in done && 0 <= c < |cur| && t0 == c - k.offs[i] < |cur|
    requires p0 < HWCONC && Start(p0, |cur|) <= t0 < End(p0, |cur|)
    requires diff == cur[c] - used[p0][c]
    ensures Patched(k, cur, used, d0, d[t0 := d[t0] + k.coefs[i] * diff], done + {(i, c)})
  {
    hide Fix, Delta, Start, End;
    var d' := d[t0 := d[t0] + k.coefs[i] * diff];
    Scaled(k, cur, used[p0], i, c, diff);
    forall p: nat, t: nat | p < HWCONC && Start(p, |cur|) <= t < End(p, |cur|)
      ensures d'[t] == d0[t] + Fix(k, cur, used[p], done + {(i, c)}, t, |k.offs|)
    {
      FixOne(k, cur, used[p], done, t, |k.offs|, i, c);
      if t == t0 {
        Tiles(t, |cur|, p);
        Tiles(t, |cur|, p0);
      }
    }
  }

  /** Correction x changed element t. */
  ghost predicate Changed(k: Kernel, cur: seq<real>, used: seq<seq<real>>, x: (nat, int), t: int)
    requires Snapshots(used, |cur|)
  {
    && x.0 < |k.offs| && 0 <= x.1 < |cur| && t == x.1 - k.offs[x.0]
    && exists p: nat | p < HWCONC && Start(p, |cur|) <= t < End(p, |cur|) :: cur[x.1] != used[p][x.1]
  }

  /** `now` is `was` and the elements that the corrections in `done` changed. */
  ghost predicate Marked(k: Kernel, cur: seq<real>, used: seq<seq<real>>, was: set<int>, now: set<int>, done: set<(nat, int)>)
    requires Snapshots(used, |cur|)
  {
    forall t :: t in now <==> t in was || exists x :: x in done && Changed(k, cur, used, x, t)
  }

  lemma MarkedOne(k: Kernel, cur: seq<real>, used: seq<seq<real>>, was: set<int>, now: set<int>, done: set<(nat, int)>,
                  i: nat, c: int, t0: nat, p0: nat)
    requires Snapshots(used, |cur|) && Marked(k, cur, used, was, now, done)
    requires i < |k.offs| && 0 <= c < |cur| && t0 == c - k.offs[i] < |cur|
    requires p0 < HWCONC && Start(p0, |cur|) <= t0 < End(p0, |cur|)
    ensures Marked(k, cur, used, was, if cur[c] != used[p0][c] then now + {t0} else now, done + {(i, c)})
  {
    var now' := if cur[c] != used[p0][c] then now + {t0} else now;
    forall t
      ensures t in now' <==> t in was || exists x :: x in done + {(i, c)} && Changed(k, cur, used, x, t)
    {
      assert Changed(k, cur, used, (i, c), t) <==> t == t0 && cur[c] != used[p0][c] by {
        if t == t0 {
          forall p: nat | p < HWCONC && Start(p, |cur|) <= t < End(p, |cur|)
            ensures p == p0
          {
            Tiles(t0, |cur|, p);
            Tiles(t0, |cur|, p0);
          }
        }
      }
      if t in now' {
        if t in now && t !in was {
          var x :| x in done && Changed(k, cur, used, x, t);
          assert x in done + {(i, c)};
        } else if t !in now {
          assert (i, c) in done + {(i, c)};
        }
      }
    }
  }

  /** Looking at source index c for map i stays inside both vectors. The range check lets the image n through,
      which is behind the last element. */
  predicate Readable(k: Kernel, n: nat, i: nat, c: int)
    requires i < |k.offs|
  {
    var cmap := c - k.offs[i];
    cmap < 0 || cmap > n || (cmap < n && 0 <= c < n)
  }

  /** The body of both correcting loops; false where the source leaves a vector. */
  method ResolveOne(src: ContVector, dep: ContVector, used: seq<seq<real>>, k: Kernel, i: nat, c: int,
                    ghost d0: seq<real>, ghost was: set<int>, ghost done: set<(nat, int)>) returns (ok: bool, ghost done': set<(nat, int)>)
    requires KernelOk(k) && Snapshots(used, |src.data|) && src != dep && i < |k.offs| && (i, c) !in done
    requires Patched(k, src.data, used, d0, dep.data, done) && Marked(k, src.data, used, was, dep.contended, done)
    modifies dep
    ensures ok <==> Readable(k, |src.data|, i, c)
    ensures ok ==> Patched(k, src.data, used, d0, dep.data, done') && Marked(k, src.data, used, was, dep.contended, done')
    ensures done' == if ok && 0 <= c - k.offs[i] < |src.data| then done + {(i, c)} else done
  {
    hide Patched, Marked, Start, End;
    done' := done;
    PatchedLength(k, src.data, used, d0, dep.data, done);
    var cmap := c - k.offs[i];
    if cmap < 0 || cmap > |dep.data| {
      return true, done;
    }
    var p := WorkerOf(cmap, |src.data|);
    if p == HWCONC || !(0 <= c < |src.data|) {
      return false, done;
    }
    var diff := src.data[c] - used[p][c];
    PatchedOne(k, src.data, used, d0, dep.data, done, i, c, cmap, p, diff);
    MarkedOne(k, src.data, used, was, dep.contended, done, i, c, cmap, p);
    if diff != 0.0 {
      dep.data := dep.data[cmap := dep.data[cmap] + k.coefs[i] * diff];
      dep.contended := dep.contended + {cmap};
    } else {
      assert dep.data[cmap := dep.data[cmap] + k.coefs[i] * diff] == dep.data;
    }
    ok, done' := true, done + {(i, c)};
  }

  lemma PatchedLength(k: Kernel, cur: seq<real>, used: seq<seq<real>>, d0: seq<real>, d: seq<real>, done: set<(nat, int)>)
    requires KernelOk(k) && Snapshots(used, |cur|) && Patched(k, cur, used, d0, d, done)
    ensures |d| == |d0| == |cur|
  {
  }

  method Take(s: set<int>) returns (c: int, rest: set<int>)
    requires s != {}
    ensures c in s && rest == s - {c}
  {
    SomeIn(s);
    c :| c in s;
    rest := s - {c};
  }

  lemma SomeIn(s: set<int>)
    ensures s == {} || exists c :: c in s
  {
    if forall c :: c !in s { assert s == {}; }
  }

  /** `for (auto &c : cs)`, in some order */
  method ResolveSet(src: ContVector, dep: ContVector, used: seq<seq<real>>, k: Kernel, i: nat, cs: set<int>,
                    ghost d0: seq<real>, ghost was: set<int>, ghost done: set<(nat, int)>) returns (ok: bool, ghost done': set<(nat, int)>)
    requires KernelOk(k) && Snapshots(used, |src.data|) && src != dep && i < |k.offs| && forall c | c in cs :: (i, c) !in done
    requires Patched(k, src.data, used, d0, dep.data, done) && Marked(k, src.data, used, was, dep.contended, done)
    modifies dep
    ensures ok <==> forall c | c in cs :: Readable(k, |src.data|, i, c)
    ensures ok ==> Patched(k, src.data, used, d0, dep.data, done') && Marked(k, src.data, used, was, dep.contended, done')
    ensures ok ==> forall x :: x in done' <==> x in done || (x.0 == i && x.1 in cs && 0 <= x.1 - k.offs[i] < |src.data|)
  {
    hide Patched, Marked, Readable;
    var todo := cs;
    ok, done' := true, done;
    while todo != {}
      invariant todo <= cs && ok
      invariant Patched(k, src.data, used, d0, dep.data, done') && Marked(k, src.data, used, was, dep.contended, done')
      invariant forall c | c in cs && c !in todo :: Readable(k, |src.data|, i, c)
      invariant forall x :: x in done' <==> x in done || (x.0 == i && x.1 in cs && x.1 !in todo && 0 <= x.1 - k.offs[i] < |src.data|)
      decreases |todo|
    {
      var c;
      c, todo := Take(todo);
      ok, done' := ResolveOne(src, dep, used, k, i, c, d0, was, done');
      if !ok {
        return;
      }
    }
  }

  /** Everything map i makes the resolution look at stays inside. */
  ghost predicate MapReadable(k: Kernel, n: nat, contended: set<int>, i: nat)
    requires i < |k.offs|
  {
    forall c | Overlaps(k.offs[i], n, c) || c in contended :: Readable(k, n, i, c)
  }

  /** One round of the outer loop. */
  method ResolveMap(src: ContVector, dep: ContVector, used: seq<seq<real>>, k: Kernel, i: nat,
                    ghost d0: seq<real>, ghost was: set<int>, ghost done: set<(nat, int)>) returns (ok: bool, ghost done': set<(nat, int)>)
    requires KernelOk(k) && Snapshots(used, |src.data|) && src != dep && i < |k.offs| && forall x | x in done :: x.0 < i
    requires Patched(k, src.data, used, d0, dep.data, done) && Marked(k, src.data, used, was, dep.contended, done)
    modifies dep
    ensures ok <==> MapReadable(k, |src.data|, src.contended, i)
    ensures ok ==> Patched(k, src.data, used, d0, dep.data, done') && Marked(k, src.data, used, was, dep.contended, done')
    ensures ok ==> forall x :: x in done' <==> x in done || (x.0 == i && Due(k, |src.data|, src.contended, i, x.1))
  {
    hide Patched, Marked, Overlaps;
    var icontended := Contend(k.offs[i], |src.data|);
    ok, done' := ResolveSet(src, dep, used, k, i, icontended, d0, was, done);
    if !ok {
      return;
    }
    ok, done' := ResolveSet(src, dep, used, k, i, src.contended - icontended, d0, was, done');
  }

  /** `resolve_monotonic`: the corrections made are exactly those due, each of them once; `ok` is false where the
      source leaves a vector, and that happens exactly when some due index is not readable. */
  method ResolveMonotonic(src: ContVector, dep: ContVector, used: seq<seq<real>>, k: Kernel) returns (ok: bool, ghost done: set<(nat, int)>)
    requires KernelOk(k) && Snapshots(used, |src.data|) && src != dep && |dep.data| == |src.data|
    modifies dep
    ensures ok <==> forall i: nat | i < |k.offs| :: MapReadable(k, |src.data|, src.contended, i)
    ensures ok ==> forall x: (nat, int) :: x in done <==> Due(k, |src.data|, src.contended, x.0, x.1)
    ensures ok ==> Patched(k, src.data, used, old(dep.data), dep.data, done)
    ensures ok ==> Marked(k, src.data, used, old(dep.contended), dep.contended, done)
    ensures ok && FromSnapshots(k, used, old(dep.data), |src.data|) ==> Settled(k, src.data, used, src.contended, dep.data)
    ensures forall r: nat | Repairable(k, r, src.data, used, src.contended, old(dep.data)) :: ok && dep.data == Sweep(k, src.data)
  {
    hide Patched, MapReadable, Overlaps, Repairable, Due, Sweep, FromSnapshots, Settled;
    ghost var d0, was := dep.data, dep.contended;
    forall r: nat, i: nat | Repairable(k, r, src.data, used, src.contended, d0) && i < |k.offs|
      ensures MapReadable(k, |src.data|, src.contended, i)
    {
      RepairableReadable(k, r, src.data, used, src.contended, d0, i);
    }
    ok, done := true, {};
    PatchedNone(k, src.data, used, d0);
    for i := 0 to |k.offs|
      invariant Patched(k, src.data, used, d0, dep.data, done) && Marked(k, src.data, used, was, dep.contended, done)
      invariant ok && forall j: nat | j < i :: MapReadable(k, |src.data|, src.contended, j)
      invariant forall x: (nat, int) :: x in done <==> x.0 < i && Due(k, |src.data|, src.contended, x.0, x.1)
    {
      ok, done := ResolveMap(src, dep, used, k, i, d0, was, done);
      if !ok {
        return;
      }
    }
    DueMap(k, |src.data|, src.contended);
    if FromSnapshots(k, used, d0, |src.data|) { PatchedSettles(k, src.data, used, src.contended, d0, dep.data, done); }
    forall r: nat | Repairable(k, r, src.data, used, src.contended, d0)
      ensures dep.data == Sweep(k, src.data)
    {
      ResolutionRepairs(k, src.data, used, src.contended, r, d0, dep.data, done);
    }
  }

  lemma DueMap(k: Kernel, n: nat, contended: set<int>)
    ensures forall i: nat, c :: Due(k, n, contended, i, c) ==> i < |k.offs|
  {
  }

  // ---- what a resolution achieves ----

  /** Before the resolution every partition shows what its worker computed from its own snapshot. */
  ghost predicate FromSnapshots(k: Kernel, used: seq<seq<real>>, d: seq<real>, n: nat)
    requires KernelOk(k) && Snapshots(used, n)
  {
    |d| == n && forall p: nat, t: nat | p < HWCONC && Start(p, n) <= t < End(p, n) :: d[t] == Next(k, used[p], t)
  }

  /** The snapshots agree with the final source, each on its own partition and outside the contended indices. */
  ghost predicate AllFresh(cur: seq<real>, used: seq<seq<real>>, contended: set<int>)
    requires Snapshots(used, |cur|)
  {
    forall p: nat | p < HWCONC :: Fresh(cur, used[p], p, contended)
  }

  /** The situation that the protocol hands to a resolution. */
  ghost predicate Repairable(k: Kernel, r: nat, cur: seq<real>, used: seq<seq<real>>, contended: set<int>, d: seq<real>)
    requires KernelOk(k) && Snapshots(used, |cur|)
  {
    && Within(k, r) && Wide(|cur|, r) && Inland(|cur|, r, contended)
    && AllFresh(cur, used, contended) && FromSnapshots(k, used, d, |cur|)
  }

  /** One resolution repairs all staleness: the result is one sweep over the final source. */
  lemma ResolutionRepairs(k: Kernel, cur: seq<real>, used: seq<seq<real>>, contended: set<int>, r: nat,
                          d0: seq<real>, d: seq<real>, done: set<(nat, int)>)
    requires KernelOk(k) && Snapshots(used, |cur|) && Repairable(k, r, cur, used, contended, d0)
    requires Patched(k, cur, used, d0, d, done) && forall i: nat, c | Due(k, |cur|, contended, i, c) :: (i, c) in done
    ensures d == Sweep(k, cur)
  {
    forall t: nat | t < |cur|
      ensures d[t] == Next(k, cur, t)
    {
      var p := WorkerFor(t, |cur|);
      Repaired(k, cur, used[p], r, p, contended, done, t);
    }
  }

  /** On such partitions nothing outside the vectors is looked at. */
  lemma InlandReadable(k: Kernel, n: nat, r: nat, contended: set<int>, i: nat)
    requires KernelOk(k) && Within(k, r) && Wide(n, r) && Inland(n, r, contended) && i < |k.offs| && n > 0
    ensures MapReadable(k, n, contended, i)
  {
    var o := k.offs[i];
    forall c | Overlaps(o, n, c) || c in contended
      ensures Readable(k, n, i, c)
    {
      if Overlaps(o, n, c) {
        var p: nat :| p < HWCONC && Overlap(o, n, p, c);
        OverlapReadable(o, n, r, p, c);
      }
    }
  }

  lemma RepairableReadable(k: Kernel, r: nat, cur: seq<real>, used: seq<seq<real>>, contended: set<int>, d: seq<real>, i: nat)
    requires KernelOk(k) && Snapshots(used, |cur|) && Repairable(k, r, cur, used, contended, d) && i < |k.offs|
    ensures MapReadable(k, |cur|, contended, i)
  {
    if |cur| > 0 {
      InlandReadable(k, |cur|, r, contended, i);
    } else {
      assert Start(0, 0) + 2 * r <= End(0, 0);
      EmptyReadable(k, r, contended, i);
    }
  }

  lemma EmptyReadable(k: Kernel, r: nat, contended: set<int>, i: nat)
    requires KernelOk(k) && Within(k, r) && r == 0 && Inland(0, r, contended) && i < |k.offs|
    ensures MapReadable(k, 0, contended, i)
  {
    forall p: nat, c | p < HWCONC
      ensures !Overlap(k.offs[i], 0, p, c)
    {
    }
  }

  lemma OverlapReadable(o: int, n: nat, r: nat, p: nat, c: int)
    requires p < HWCONC && Overlap(o, n, p, c) && Start(p, n) + 2 * r <= End(p, n) && -o <= r && o <= r
    ensures 0 <= c < n && c - o < n
  {
  }

  // ---- without the distance from the ends ----

  /** Every element is what its worker computed, and all corrections that are due to it. */
  ghost predicate Settled(k: Kernel, cur: seq<real>, used: seq<seq<real>>, contended: set<int>, d: seq<real>)
    requires KernelOk(k) && Snapshots(used, |cur|)
  {
    && |d| == |cur|
    && forall p: nat, t: nat | p < HWCONC && Start(p, |cur|) <= t < End(p, |cur|) ::
         d[t] == Next(k, used[p], t) + DueFix(k, cur, used[p], contended, t)
  }

  lemma PatchedSettles(k: Kernel, cur: seq<real>, used: seq<seq<real>>, contended: set<int>, d0: seq<real>, d: seq<real>, done: set<(nat, int)>)
    requires KernelOk(k) && Snapshots(used, |cur|) && FromSnapshots(k, used, d0, |cur|)
    requires Patched(k, cur, used, d0, d, done) && forall x: (nat, int) :: x in done <==> Due(k, |cur|, contended, x.0, x.1)
    ensures Settled(k, cur, used, contended, d)
  {
    hide Due, Next, Start, End;
    forall p: nat, t: nat | p < HWCONC && Start(p, |cur|) <= t < End(p, |cur|)
      ensures d[t] == Next(k, used[p], t) + DueFix(k, cur, used[p], contended, t)
    {
      FixIsDue(k, cur, used[p], contended, done, t, |k.offs|);
    }
  }

  ghost predicate EdgesSafe(k: Kernel, n: nat, contended: set<int>)
    requires KernelOk(k)
  {
    forall p: nat, t: nat | p < HWCONC && Start(p, n) <= t < End(p, n) && !Interior(k, n, t) :: EdgeSafe(k, n, p, contended, t)
  }

  /** The resolution of a fresh situation, whatever the data, leaves a sweep of the final source. */
  ghost predicate AlwaysSweeps(k: Kernel, n: nat, contended: set<int>)
    requires KernelOk(k)
  {
    forall cur: seq<real>, used: seq<seq<real>>, d: seq<real> |
      |cur| == n && Snapshots(used, n) && AllFresh(cur, used, contended) && Settled(k, cur, used, contended, d) :: d == Sweep(k, cur)
  }

  /** Exactly when a resolution repairs everything: all boundary elements are safe. */
  lemma ResolutionExact(k: Kernel, n: nat, contended: set<int>)
    requires KernelOk(k)
    ensures AlwaysSweeps(k, n, contended) <==> EdgesSafe(k, n, contended)
  {
    if EdgesSafe(k, n, contended) {
      forall cur: seq<real>, used: seq<seq<real>>, d: seq<real> |
        |cur| == n && Snapshots(used, n) && AllFresh(cur, used, contended) && Settled(k, cur, used, contended, d)
        ensures d == Sweep(k, cur)
      {
        SafeSweeps(k, cur, used, contended, d);
      }
    } else {
      var p: nat, t: nat :| p < HWCONC && Start(p, n) <= t < End(p, n) && !Interior(k, n, t) && !EdgeSafe(k, n, p, contended, t);
      UnsafeSweeps(k, n, contended, p, t);
    }
  }

  lemma SafeSweeps(k: Kernel, cur: seq<real>, used: seq<seq<real>>, contended: set<int>, d: seq<real>)
    requires KernelOk(k) && EdgesSafe(k, |cur|, contended) && Snapshots(used, |cur|)
    requires AllFresh(cur, used, contended) && Settled(k, cur, used, contended, d)
    ensures d == Sweep(k, cur)
  {
    hide Start, End, Next, Interior;
    forall t: nat | t < |cur|
      ensures d[t] == Next(k, cur, t)
    {
      var p := WorkerFor(t, |cur|);
      if Interior(k, |cur|, t) {
        InteriorMended(k, cur, used[p], p, contended, t);
      } else {
        SafeMended(k, cur, used[p], p, contended, t);
      }
    }
  }

  /** A snapshot of one worker that is behind at one element. */
  lemma UnsafeSweeps(k: Kernel, n: nat, contended: set<int>, p: nat, t: nat)
    requires KernelOk(k) && p < HWCONC && Start(p, n) <= t < End(p, n) && !Interior(k, n, t) && !EdgeSafe(k, n, p, contended, t)
    ensures !AlwaysSweeps(k, n, contended)
  {
    hide Start, End, Next, Interior, Weight;
    var c :| Stale(n, p, contended, c) && Weight(k.offs, k.coefs, c - t, |k.offs|) != if c == t then 1.0 else 0.0;
    UnsafeBroken(k, n, p, contended, t, c);
    var cur := Unit(n, c);
    var used := seq(HWCONC, _ => cur)[p := Unit(n, -1)];
    assert AllFresh(cur, used, contended);
    var d := SettledOnce(k, cur, used, contended);
    assert d[t] != Next(k, cur, t);
  }

  lemma SettledOnce(k: Kernel, cur: seq<real>, used: seq<seq<real>>, contended: set<int>) returns (d: seq<real>)
    requires KernelOk(k) && Snapshots(used, |cur|)
    ensures Settled(k, cur, used, contended, d)
  {
    hide Next, Start, End;
    d := [];
    for t := 0 to |cur|
      invariant |d| == t
      invariant forall p: nat, i: nat | p < HWCONC && i < t && Start(p, |cur|) <= i < End(p, |cur|) ::
                  d[i] == Next(k, used[p], i) + DueFix(k, cur, used[p], contended, i)
    {
      var q := WorkerFor(t, |cur|);
      forall p: nat | p < HWCONC && Start(p, |cur|) <= t < End(p, |cur|) ensures p == q {
        Tiles(t, |cur|, p);
        Tiles(t, |cur|, q);
      }
      d := d + [Next(k, used[q], t) + DueFix(k, cur, used[q], contended, t)];
    }
  }

  /** Two resolutions in a row, with two workers on four elements. The first one repairs element 1, whose worker read
      the neighbour's partition too early, and marks it; the second one then adds to element 0, which no sweep touches. */
  method EdgeBroken() returns (b: ContVector, c: ContVector)
    requires HWCONC == 2
    ensures var k := Full([-1, 0, 1], BUILT_IN);
            && b.data == Sweep(k, [0.0, 0.0, 1.0, 0.0]) && b.contended == {1}
            && |c.data| == 4 && c.data[0] == 0.16 && Sweep(k, b.data)[0] == 0.0
  {
    hide Next, Settled, Repairable, MapReadable, Due, Sweep, AllFresh, FromSnapshots, Patched, Marked;
    var k := Full([-1, 0, 1], BUILT_IN);
    var a := new ContVector([0.0, 0.0, 1.0, 0.0]);
    b := new ContVector([0.0, 0.0, 0.2, 0.0]);
    var early := [[0.0, 0.0, 0.0, 0.0], [0.0, 0.0, 1.0, 0.0]];
    FirstStep(k, early);
    var ok;
    ghost var done;
    ok, done := ResolveMonotonic(a, b, early, k);
    FirstMarks(k, early, b.data, b.contended, done);
    c := new ContVector([0.0, 0.08, 0.04, 0.0]);
    early := [[0.0, 0.0, 0.2, 0.0], [0.0, 0.0, 0.2, 0.0]];
    SecondStep(k, early, b.data);
    ok, done := ResolveMonotonic(b, c, early, k);
    SecondResult(k, early, b.data, c.data);
  }

  /** The three-point stencil on four elements. */
  lemma ThreePoints(s: seq<real>, t: nat)
    requires |s| == 4 && t < 4
    ensures var k := Full([-1, 0, 1], BUILT_IN);
            && (Interior(k, 4, t) <==> 1 <= t <= 2)
            && Next(k, s, t) == if 1 <= t <= 2 then s[t] + 0.4 * (s[t - 1] + -2.0 * s[t] + s[t + 1]) else s[t]
  {
    var k := Full([-1, 0, 1], BUILT_IN);
    assert k.offs == [0, -1, 0, 1];
    assert Three(-1) == [-1, 0, 1];
    if Interior(k, 4, t) {
      InteriorNext(Three(-1), BUILT_IN, s, t);
      InteriorInside(Three(-1), BUILT_IN, 4, t);
      ThreeTerms(s, -1, t);
    }
    assert Interior(k, 4, t) ==> 0 <= t + k.offs[1] && t + k.offs[3] < 4;
  }

  lemma FourPoints(s: seq<real>)
    requires |s| == 4
    ensures Sweep(Full([-1, 0, 1], BUILT_IN), s) ==
            [s[0], s[1] + 0.4 * (s[0] + -2.0 * s[1] + s[2]), s[2] + 0.4 * (s[1] + -2.0 * s[2] + s[3]), s[3]]
  {
    hide Next;
    ThreePoints(s, 0);
    ThreePoints(s, 1);
    ThreePoints(s, 2);
    ThreePoints(s, 3);
  }

  lemma SweepAt(k: Kernel, s: seq<real>, t: nat)
    requires KernelOk(k) && t < |s|
    ensures Sweep(k, s)[t] == Next(k, s, t)
  {
  }

  lemma FirstStep(k: Kernel, early: seq<seq<real>>)
    requires HWCONC == 2 && k == Full([-1, 0, 1], BUILT_IN) && early == [[0.0, 0.0, 0.0, 0.0], [0.0, 0.0, 1.0, 0.0]]
    ensures Snapshots(early, 4) && Repairable(k, 1, [0.0, 0.0, 1.0, 0.0], early, {}, [0.0, 0.0, 0.2, 0.0])
    ensures Sweep(k, [0.0, 0.0, 1.0, 0.0]) == [0.0, 0.4, 0.2, 0.0]
  {
    hide Next, Sweep, Start, End;
    TwoWorkers();
    FourPoints(early[0]);
    FourPoints(early[1]);
    assert Within(k, 1) && Wide(4, 1);
    FourSnapshots(k, early, [0.0, 0.0, 0.2, 0.0]);
  }

  /** What the workers compute from given snapshots. */
  lemma FourSnapshots(k: Kernel, early: seq<seq<real>>, d: seq<real>)
    requires HWCONC == 2 && k == Full([-1, 0, 1], BUILT_IN) && Snapshots(early, 4) && |d| == 4
    requires d[..2] == Sweep(k, early[0])[..2] && d[2..] == Sweep(k, early[1])[2..]
    ensures FromSnapshots(k, early, d, 4)
  {
    hide Next, Sweep, Start, End;
    TwoWorkers();
    forall p: nat, t: nat | p < HWCONC && Start(p, 4) <= t < End(p, 4)
      ensures d[t] == Next(k, early[p], t)
    {
      SweepAt(k, early[p], t);
      if p == 0 { assert d[..2][t] == d[t]; } else { assert d[2..][t - 2] == d[t]; }
    }
  }

  lemma FirstMarks(k: Kernel, early: seq<seq<real>>, d: seq<real>, now: set<int>, done: set<(nat, int)>)
    requires HWCONC == 2 && k == Full([-1, 0, 1], BUILT_IN) && early == [[0.0, 0.0, 0.0, 0.0], [0.0, 0.0, 1.0, 0.0]]
    requires Snapshots(early, 4) && Marked(k, [0.0, 0.0, 1.0, 0.0], early, {}, now, done)
    requires forall x: (nat, int) :: x in done <==> Due(k, 4, {}, x.0, x.1)
    ensures now == {1}
  {
    hide Start, End, Due;
    TwoWorkers();
    var cur := [0.0, 0.0, 1.0, 0.0];
    assert k.offs == [0, -1, 0, 1];
    FirstDue(k);
    assert (3, 2) in done;
    assert Start(0, 4) <= 1 < End(0, 4) && cur[2] != early[0][2];
    assert Changed(k, cur, early, (3, 2), 1);
    forall t | t in now
      ensures t == 1
    {
      var x :| x in done && Changed(k, cur, early, x, t);
      var p: nat :| p < HWCONC && Start(p, 4) <= t < End(p, 4) && cur[x.1] != early[p][x.1];
      assert p == 0 && x.1 == 2;
    }
  }

  lemma FirstDue(k: Kernel)
    requires HWCONC == 2 && k == Full([-1, 0, 1], BUILT_IN)
    ensures Due(k, 4, {}, 3, 2)
  {
    hide Start, End;
    TwoWorkers();
    assert Overlap(1, 4, 0, 2);
    assert k.offs == [0, -1, 0, 1];
  }

  lemma SecondStep(k: Kernel, early: seq<seq<real>>, cur: seq<real>)
    requires HWCONC == 2 && k == Full([-1, 0, 1], BUILT_IN) && early == [[0.0, 0.0, 0.2, 0.0], [0.0, 0.0, 0.2, 0.0]]
    requires cur == [0.0, 0.4, 0.2, 0.0]
    ensures Snapshots(early, 4) && FromSnapshots(k, early, [0.0, 0.08, 0.04, 0.0], 4) && AllFresh(cur, early, {1})
    ensures forall i: nat | i < |k.offs| :: MapReadable(k, 4, {1}, i)
  {
    hide Next, Sweep, Start, End, Overlap;
    TwoWorkers();
    FourPoints([0.0, 0.0, 0.2, 0.0]);
    FourSnapshots(k, early, [0.0, 0.08, 0.04, 0.0]);
    assert k.offs == [0, -1, 0, 1] && Within(k, 1) && Wide(4, 1);
    forall i: nat | i < |k.offs|
      ensures MapReadable(k, 4, {1}, i)
    {
      InlandReadable(k, 4, 1, {}, i);
      forall c | Overlaps(k.offs[i], 4, c) || c in {1}
        ensures Readable(k, 4, i, c)
      {
      }
    }
  }

  lemma SecondResult(k: Kernel, early: seq<seq<real>>, cur: seq<real>, d: seq<real>)
    requires HWCONC == 2 && k == Full([-1, 0, 1], BUILT_IN) && early == [[0.0, 0.0, 0.2, 0.0], [0.0, 0.0, 0.2, 0.0]]
    requires cur == [0.0, 0.4, 0.2, 0.0] && Snapshots(early, 4) && Settled(k, cur, early, {1}, d)
    ensures |d| == 4 && d[0] == 0.16 && Sweep(k, cur)[0] == 0.0
  {
    hide Next, Sweep, Start, End, Overlaps, Linear;
    TwoWorkers();
    ThreePoints(early[0], 0);
    ThreePoints(cur, 0);
    SweepAt(k, cur, 0);
    assert Start(0, 4) <= 0 < End(0, 4);
    assert d[0] == Next(k, early[0], 0) + DueFix(k, cur, early[0], {1}, 0);
    var e := Differences(cur, early[0], {1}, 0);
    assert e[0] == 0.0 && e[1] == 0.4;
    AtZero(k, e);
  }

  lemma AtZero(k: Kernel, e: seq<real>)
    requires k == Full([-1, 0, 1], BUILT_IN) && |e| == 4 && e[0] == 0.0 && e[1] == 0.4
    ensures Linear(k.offs, k.coefs, e, 0, 4) == 0.16
  {
    assert k.offs == [0, -1, 0, 1] && k.coefs == [1.0, 0.4, 0.4 * -2.0, 0.4];
    assert Linear(k.offs, k.coefs, e, 0, 1) == 0.0;
    assert Linear(k.offs, k.coefs, e, 0, 2) == 0.0;
    assert Linear(k.offs, k.coefs, e, 0, 3) == 0.0;
  }

  lemma TwoWorkers()
    requires HWCONC == 2
    ensures Start(0, 4) == 0 && End(0, 4) == 2 && Start(1, 4) == 2 && End(1, 4) == 4
  {
    assert Chunk(4) == 2;
  }

  /** Where a partition is empty, the index just before the end is mapped onto the end itself, which the range check lets through. */
  lemma EmptyPartitionLeaves(k: Kernel, n: nat, contended: set<int>, i: nat, p: nat)
    requires i < |k.offs| && k.offs[i] == -1 && n > 0 && p < HWCONC && Start(p, n) == n
    ensures !MapReadable(k, n, contended, i)
  {
    assert Overlap(-1, n, p, n - 1);
    assert Overlaps(-1, n, n - 1);
    assert !Readable(k, n, i, n - 1);
  }

  /** Every element that a resolution changed is marked as contended for the next one. */
  lemma ChangesAreMarked(k: Kernel, cur: seq<real>, used: seq<seq<real>>, d0: seq<real>, d: seq<real>,
                         was: set<int>, now: set<int>, done: set<(nat, int)>, t: nat)
    requires KernelOk(k) && Snapshots(used, |cur|) && Patched(k, cur, used, d0, d, done) && Marked(k, cur, used, was, now, done)
    requires t < |cur| && d[t] != d0[t]
    ensures t in now
  {
    var p := WorkerFor(t, |cur|);
    if forall i: nat | i < |k.offs| :: var c := t + k.offs[i]; (i, c) in done && 0 <= c < |cur| ==> used[p][c] == cur[c] {
      FixZero(k, cur, used[p], done, t, |k.offs|);
    } else {
      var i: nat :| i < |k.offs| && var c := t + k.offs[i]; (i, c) in done && 0 <= c < |cur| && used[p][c] != cur[c];
      assert Changed(k, cur, used, (i, t + k.offs[i]), t);
    }
  }
}
