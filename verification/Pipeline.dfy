/** Pipelined stencils: steps overlap, each worker running ahead of the others and of the resolutions. */
module Pipeline {
  import opened Partition
  import opened Radix
  import opened Stencil

  /** The vectors 0 .. N of a chain of N stencils. `used[(k, p)]` is what worker p had read when it started on vector k,
      `joined` holds (k, p) once it reattached; vectors 1 .. resolved are resolved, and `fixed` are the corrections
      that the resolution now under way has made. */
  datatype State = State(data: seq<seq<real>>, used: map<(nat, nat), seq<real>>, joined: set<(nat, nat)>,
                         contended: seq<set<int>>, fixed: set<(nat, int)>, resolved: nat)

  datatype Event = Detach(k: nat, p: nat) | Reattach(k: nat, p: nat) | Correct(i: nat, c: int) | Finish

  ghost predicate Sized(s: State, n: nat, steps: nat) {
    |s.data| == |s.contended| == steps + 1 && s.resolved <= steps
    && (forall k | 0 <= k <= steps :: |s.data[k]| == n)
    && (forall x | x in s.used :: 1 <= x.0 <= steps && x.1 < HWCONC && |s.used[x]| == n)
  }

  /** Every worker has reattached to the vector that is next to be resolved. */
  ghost predicate LatchOpen(s: State) {
    AllHave(s, s.resolved + 1)
  }

  ghost predicate AllHave(s: State, k: nat) {
    forall p: nat | p < HWCONC :: Has(s, k, p)
  }

  /** Worker p has reattached to vector k. */
  ghost predicate Has(s: State, k: nat, p: nat) {
    (k, p) in s.joined
  }

  /** What a worker's reattach makes of the vector: its own partition, computed from its snapshot. */
  ghost function Spliced(ker: Kernel, d: seq<real>, u: seq<real>, p: nat): (r: seq<real>)
    requires KernelOk(ker) && |u| == |d|
    ensures |r| == |d|
  {
    seq(|d|, t requires 0 <= t < |d| => if Start(p, |d|) <= t < End(p, |d|) then Next(ker, u, t) else d[t])
  }

  ghost predicate Enabled(ker: Kernel, n: nat, steps: nat, s: State, e: Event)
    requires Sized(s, n, steps)
  {
    match e
    // tasks of one worker run in order
    case Detach(k, p) => 1 <= k <= steps && p < HWCONC && (k, p) !in s.used && (k >= 2 ==> (k - 1, p) in s.joined)
    case Reattach(k, p) => (k, p) in s.used && (k, p) !in s.joined
    // resolutions run in order, each after the last reattach
    case Correct(i, c) =>
      && s.resolved < steps && LatchOpen(s)
      && Due(ker, n, s.contended[s.resolved], i, c) && (i, c) !in s.fixed
    case Finish =>
      && s.resolved < steps && LatchOpen(s)
      && forall i: nat, c | Due(ker, n, s.contended[s.resolved], i, c) :: (i, c) in s.fixed
  }

  /** The vector under resolution after its correction for map i at source index c, against worker p's snapshot. */
  ghost function Corrected(ker: Kernel, s: State, n: nat, steps: nat, i: nat, c: int, p: nat): State
    requires Sized(s, n, steps) && s.resolved < steps && KernelOk(ker) && i < |ker.offs| && 0 <= c < n && 0 <= c - ker.offs[i] < n
    requires (s.resolved + 1, p) in s.used
  {
    var k := s.resolved + 1;
    var t := c - ker.offs[i];
    State(s.data[k := s.data[k][t := s.data[k][t] + Delta(ker, s.data[k - 1], s.used[(k, p)], i, c)]], s.used, s.joined,
          if s.data[k - 1][c] != s.used[(k, p)][c] then s.contended[k := s.contended[k] + {t}] else s.contended,
          s.fixed + {(i, c)}, s.resolved)
  }

  ghost predicate Step(ker: Kernel, n: nat, steps: nat, s: State, e: Event, s': State)
    requires KernelOk(ker) && Sized(s, n, steps)
  {
    && Enabled(ker, n, steps, s, e)
    && match e
       case Detach(k, p) => s' == s.(used := s.used[(k, p) := s.data[k - 1]])
       case Reattach(k, p) =>
         s' == s.(data := s.data[k := Spliced(ker, s.data[k], s.used[(k, p)], p)], joined := s.joined + {(k, p)})
       case Correct(i, c) =>
         exists p: nat :: p < HWCONC && Start(p, n) <= c - ker.offs[i] < End(p, n) && (s.resolved + 1, p) in s.used
                          && s' == Corrected(ker, s, n, steps, i, c, p)
       case Finish => s' == s.(fixed := {}, resolved := s.resolved + 1)
  }

  /** Vector 0 is given; the others may hold anything. */
  ghost predicate Init(s: State, d0: seq<real>, steps: nat) {
    && Sized(s, |d0|, steps) && s.data[0] == d0 && s.used == map[] && s.joined == {} && s.fixed == {} && s.resolved == 0
    && forall k | 0 <= k <= steps :: s.contended[k] == {}
  }

  // ---- the invariant ----

  ghost predicate InOrder(s: State) {
    && (forall x | x in s.used && x.0 >= 2 :: (x.0 - 1, x.1) in s.joined)
    && (forall x | x in s.joined :: x in s.used)
    && (forall k: nat, p: nat | 1 <= k <= s.resolved && p < HWCONC :: Has(s, k, p))
  }

  /** Corrections have been made only where due, and only with the latch open. */
  ghost predicate FixedDue(ker: Kernel, s: State, n: nat, steps: nat)
    requires Sized(s, n, steps)
  {
    s.fixed != {} ==>
      && s.resolved < steps && LatchOpen(s)
      && forall x | x in s.fixed :: Due(ker, n, s.contended[s.resolved], x.0, x.1)
  }

  /** Resolved vectors are final. */
  ghost predicate Final(ker: Kernel, s: State, n: nat, steps: nat, d0: seq<real>)
    requires Sized(s, n, steps) && KernelOk(ker)
  {
    forall k: nat | k <= s.resolved :: s.data[k] == Sweeps(ker, d0, k)
  }

  /** Each snapshot agrees with its source on the worker's own partition, outside the source's contended set. */
  ghost predicate Snaps(s: State, n: nat, steps: nat)
    requires Sized(s, n, steps)
  {
    forall x | x in s.used :: Fresh(s.data[x.0 - 1], s.used[x], x.1, s.contended[x.0 - 1])
  }

  /** What corrections have added to a vector so far. */
  ghost function FixNow(ker: Kernel, s: State, n: nat, steps: nat, x: (nat, nat), t: int): real
    requires Sized(s, n, steps) && KernelOk(ker) && x in s.used
  {
    if x.0 == s.resolved + 1 then Fix(ker, s.data[x.0 - 1], s.used[x], s.fixed, t, |ker.offs|) else 0.0
  }

  /** Each reattached partition shows the splinter's values and the corrections made since. */
  ghost predicate Parts(ker: Kernel, s: State, n: nat, steps: nat)
    requires Sized(s, n, steps) && KernelOk(ker)
  {
    forall x, t: nat | x in s.joined && x in s.used && x.0 > s.resolved && Start(x.1, n) <= t < End(x.1, n) ::
      s.data[x.0][t] == Next(ker, s.used[x], t) + FixNow(ker, s, n, steps, x, t)
  }

  /** Corrections spread by one radius per step from the boundaries between partitions. */
  ghost predicate Spread(s: State, n: nat, steps: nat, r: nat)
    requires Sized(s, n, steps)
  {
    forall k: nat, c | k <= steps && c in s.contended[k] :: Near(n, k * r, c)
  }

  ghost predicate Inv(ker: Kernel, s: State, n: nat, steps: nat, r: nat, d0: seq<real>) {
    && Sized(s, n, steps) && KernelOk(ker) && Within(ker, r) && |d0| == n
    && InOrder(s) && FixedDue(ker, s, n, steps) && Final(ker, s, n, steps, d0)
    && Snaps(s, n, steps) && Parts(ker, s, n, steps) && Spread(s, n, steps, r)
  }

  lemma InitInv(ker: Kernel, s: State, steps: nat, r: nat, d0: seq<real>)
    requires KernelOk(ker) && Within(ker, r) && Init(s, d0, steps)
    ensures Inv(ker, s, |d0|, steps, r, d0)
  {
  }

  // ---- each kind of step keeps it ----

  lemma DetachParts(ker: Kernel, s: State, n: nat, steps: nat, r: nat, d0: seq<real>, k: nat, p: nat, s': State)
    requires Inv(ker, s, n, steps, r, d0) && Step(ker, n, steps, s, Detach(k, p), s')
    ensures Sized(s', n, steps) && Parts(ker, s', n, steps)
  {
    hide Next, Fix, Start, End, Due, Fresh, Near, Sweeps;
    forall x, t: nat | x in s'.joined && x in s'.used && x.0 > s'.resolved && Start(x.1, n) <= t < End(x.1, n)
      ensures s'.data[x.0][t] == Next(ker, s'.used[x], t) + FixNow(ker, s', n, steps, x, t)
    {
      assert x in s.used && s.used[x] == s'.used[x];
      assert FixNow(ker, s', n, steps, x, t) == FixNow(ker, s, n, steps, x, t);
    }
  }

  lemma DetachSnaps(ker: Kernel, s: State, n: nat, steps: nat, r: nat, d0: seq<real>, k: nat, p: nat, s': State)
    requires Inv(ker, s, n, steps, r, d0) && Step(ker, n, steps, s, Detach(k, p), s')
    ensures Sized(s', n, steps) && Snaps(s', n, steps)
  {
    hide Next, Fix, Start, End, Due, Near, Sweeps, Parts, Spread, Final;
  }

  lemma DetachKeeps(ker: Kernel, s: State, n: nat, steps: nat, r: nat, d0: seq<real>, k: nat, p: nat, s': State)
    requires Inv(ker, s, n, steps, r, d0) && Step(ker, n, steps, s, Detach(k, p), s')
    ensures Inv(ker, s', n, steps, r, d0)
  {
    hide Next, Fix, Start, End, Due, Near, Sweeps, Parts, Snaps, Fresh, FixNow;
    DetachParts(ker, s, n, steps, r, d0, k, p, s');
    DetachSnaps(ker, s, n, steps, r, d0, k, p, s');
    HasKept(s, s');
  }

  lemma HasKept(s: State, s': State)
    requires s.joined <= s'.joined
    ensures forall k: nat, p: nat :: Has(s, k, p) ==> Has(s', k, p)
    ensures forall k: nat :: AllHave(s, k) ==> AllHave(s', k)
  {
  }

  /** Reattaching touches one partition; every snapshot of the vector was taken by a worker that reattached before. */
  lemma ReattachSnaps(ker: Kernel, s: State, n: nat, steps: nat, r: nat, d0: seq<real>, k: nat, p: nat, s': State)
    requires Inv(ker, s, n, steps, r, d0) && Step(ker, n, steps, s, Reattach(k, p), s')
    ensures Sized(s', n, steps) && Snaps(s', n, steps)
  {
    hide Next, Fix, Start, End, Due, Near, Sweeps, Parts, Spread, Final, FixedDue, Within, Overlaps, Delta, Fresh, Spliced;
    forall x | x in s'.used
      ensures Fresh(s'.data[x.0 - 1], s'.used[x], x.1, s'.contended[x.0 - 1])
    {
      assert Fresh(s.data[x.0 - 1], s.used[x], x.1, s.contended[x.0 - 1]);
      if x.0 - 1 == k {
        assert x.1 != p;
        SplicedFresh(ker, s.data[k], s.used[(k, p)], p, s.used[x], x.1, s.contended[k]);
      }
    }
  }

  lemma SplicedFresh(ker: Kernel, d: seq<real>, u: seq<real>, p: nat, v: seq<real>, q: nat, contended: set<int>)
    requires KernelOk(ker) && |u| == |d| && p < HWCONC && q < HWCONC && p != q && Fresh(d, v, q, contended)
    ensures Fresh(Spliced(ker, d, u, p), v, q, contended)
  {
    hide Start, End;
    SplicedElsewhere(ker, d, u, p, q);
  }

  lemma SplicedElsewhere(ker: Kernel, d: seq<real>, u: seq<real>, p: nat, q: nat)
    requires KernelOk(ker) && |u| == |d| && p < HWCONC && q < HWCONC && p != q
    ensures forall c: nat | Start(q, |d|) <= c < End(q, |d|) :: Spliced(ker, d, u, p)[c] == d[c]
  {
    forall c: nat | Start(q, |d|) <= c < End(q, |d|)
      ensures Spliced(ker, d, u, p)[c] == d[c]
    {
      Tiles(c, |d|, p);
      Tiles(c, |d|, q);
    }
  }

  /** A worker reattaches to a vector only before it is corrected. */
  lemma NotYetCorrected(s: State, ker: Kernel, n: nat, steps: nat, k: nat, p: nat)
    requires Sized(s, n, steps) && InOrder(s) && FixedDue(ker, s, n, steps) && p < HWCONC && (k, p) !in s.joined && k >= 1
    ensures k > s.resolved && (k == s.resolved + 1 ==> s.fixed == {})
  {
    assert !Has(s, k, p);
  }

  lemma ReattachParts(ker: Kernel, s: State, n: nat, steps: nat, r: nat, d0: seq<real>, k: nat, p: nat, s': State)
    requires Inv(ker, s, n, steps, r, d0) && Step(ker, n, steps, s, Reattach(k, p), s')
    ensures Sized(s', n, steps) && Parts(ker, s', n, steps)
  {
    hide Next, Fix, Start, End, Due, Near, Sweeps, Spread, Final, FixedDue, Within, Snaps;
    NotYetCorrected(s, ker, n, steps, k, p);
    forall x, t: nat | x in s'.joined && x in s'.used && x.0 > s'.resolved && Start(x.1, n) <= t < End(x.1, n)
      ensures s'.data[x.0][t] == Next(ker, s'.used[x], t) + FixNow(ker, s', n, steps, x, t)
    {
      if x == (k, p) {
        FixNone(ker, s'.data[k - 1], s.used[x], t, |ker.offs|);
        assert s'.data[k][t] == Next(ker, s.used[x], t);
      } else {
        assert x in s.joined;
        assert FixNow(ker, s', n, steps, x, t) == FixNow(ker, s, n, steps, x, t) by {
          if x.0 == s.resolved + 1 && x.0 - 1 == k { assert false; }
        }
        if x.0 == k { SplicedElsewhere(ker, s.data[k], s.used[(k, p)], p, x.1); }
      }
    }
  }

  lemma ReattachKeeps(ker: Kernel, s: State, n: nat, steps: nat, r: nat, d0: seq<real>, k: nat, p: nat, s': State)
    requires Inv(ker, s, n, steps, r, d0) && Step(ker, n, steps, s, Reattach(k, p), s')
    ensures Inv(ker, s', n, steps, r, d0)
  {
    hide Next, Fix, Start, End, Due, Near, Sweeps, Parts, Snaps, Fresh, FixNow;
    NotYetCorrected(s, ker, n, steps, k, p);
    ReattachParts(ker, s, n, steps, r, d0, k, p, s');
    ReattachSnaps(ker, s, n, steps, r, d0, k, p, s');
    HasKept(s, s');
  }

  /** A correction that is due, seen from the invariant: the worker it concerns, its element and its difference. */
  ghost predicate Correcting(ker: Kernel, s: State, n: nat, steps: nat, i: nat, c: int, p: nat, s': State)
    requires KernelOk(ker) && Sized(s, n, steps)
  {
    && Enabled(ker, n, steps, s, Correct(i, c)) && p < HWCONC && Start(p, n) <= c - ker.offs[i] < End(p, n)
    && (s.resolved + 1, p) in s.used && s' == Corrected(ker, s, n, steps, i, c, p)
  }

  lemma CorrectedData(ker: Kernel, s: State, n: nat, steps: nat, i: nat, c: int, p: nat, s': State)
    requires KernelOk(ker) && Sized(s, n, steps) && Correcting(ker, s, n, steps, i, c, p, s')
    ensures Sized(s', n, steps) && s'.used == s.used && s'.joined == s.joined && s'.resolved == s.resolved
    ensures s'.fixed == s.fixed + {(i, c)}
    ensures forall j | 0 <= j <= steps && j != s.resolved + 1 :: s'.data[j] == s.data[j] && s'.contended[j] == s.contended[j]
    ensures var k, t := s.resolved + 1, c - ker.offs[i]; s.contended[k] <= s'.contended[k]
    ensures var k, t := s.resolved + 1, c - ker.offs[i]; forall j | 0 <= j < n && j != t :: s'.data[k][j] == s.data[k][j]
    ensures var k, t := s.resolved + 1, c - ker.offs[i]; s'.data[k][t] == s.data[k][t] || t in s'.contended[k]
    ensures var k, t := s.resolved + 1, c - ker.offs[i];
            s'.data[k][t] == s.data[k][t] + Delta(ker, s.data[k - 1], s.used[(k, p)], i, c)
    ensures var k, t := s.resolved + 1, c - ker.offs[i];
            forall j | j in s'.contended[k] && j !in s.contended[k] :: j == t && s.data[k - 1][c] != s.used[(k, p)][c]
  {
    hide Overlaps, Start, End;
    var k := s.resolved + 1;
    var diff := s.data[k - 1][c] - s.used[(k, p)][c];
    if diff == 0.0 { assert ker.coefs[i] * diff == 0.0; }
  }

  lemma CorrectSnaps(ker: Kernel, s: State, n: nat, steps: nat, r: nat, d0: seq<real>, i: nat, c: int, p: nat, s': State)
    requires Inv(ker, s, n, steps, r, d0) && Correcting(ker, s, n, steps, i, c, p, s')
    ensures Sized(s', n, steps) && Snaps(s', n, steps)
  {
    hide Fix, Due, Near, Sweeps, Parts, Spread, Final, FixedDue, Within, Corrected, Start, End, Delta, InOrder, Next;
    CorrectedData(ker, s, n, steps, i, c, p, s');
    forall x | x in s'.used
      ensures Fresh(s'.data[x.0 - 1], s'.used[x], x.1, s'.contended[x.0 - 1])
    {
      assert Fresh(s.data[x.0 - 1], s.used[x], x.1, s.contended[x.0 - 1]);
    }
  }

  /** Element t of worker x.1's partition, in the vector under resolution. */
  lemma PartCorrected(ker: Kernel, s: State, n: nat, steps: nat, i: nat, c: int, p: nat, s': State, x: (nat, nat), t: nat)
    requires KernelOk(ker) && Sized(s, n, steps) && Correcting(ker, s, n, steps, i, c, p, s')
    requires x in s.used && x.0 == s.resolved + 1 && Start(x.1, n) <= t < End(x.1, n)
    requires s.data[x.0][t] == Next(ker, s.used[x], t) + FixNow(ker, s, n, steps, x, t)
    ensures Sized(s', n, steps) && x in s'.used
    ensures s'.data[x.0][t] == Next(ker, s'.used[x], t) + FixNow(ker, s', n, steps, x, t)
  {
    hide Fix, Delta, Overlaps, Corrected, Start, End, Next;
    CorrectedData(ker, s, n, steps, i, c, p, s');
    FixOne(ker, s.data[x.0 - 1], s.used[x], s.fixed, t, |ker.offs|, i, c);
    if t == c - ker.offs[i] {
      Tiles(t, n, p);
      Tiles(t, n, x.1);
    }
  }

  lemma CorrectParts(ker: Kernel, s: State, n: nat, steps: nat, i: nat, c: int, p: nat, s': State)
    requires KernelOk(ker) && Sized(s, n, steps) && Parts(ker, s, n, steps) && Correcting(ker, s, n, steps, i, c, p, s')
    ensures Sized(s', n, steps) && Parts(ker, s', n, steps)
  {
    hide Fix, Corrected, Start, End, Next, Correcting;
    CorrectedData(ker, s, n, steps, i, c, p, s');
    forall x, t: nat | x in s'.joined && x in s'.used && x.0 > s'.resolved && Start(x.1, n) <= t < End(x.1, n)
      ensures s'.data[x.0][t] == Next(ker, s'.used[x], t) + FixNow(ker, s', n, steps, x, t)
    {
      if x.0 == s.resolved + 1 {
        PartCorrected(ker, s, n, steps, i, c, p, s', x, t);
      }
    }
  }

  lemma MarkSpread(ker: Kernel, cur: seq<real>, u: seq<real>, contended: set<int>, k: nat, r: nat, i: nat, c: int, p: nat, t: int)
    requires KernelOk(ker) && Within(ker, r) && i < |ker.offs| && p < HWCONC && Fresh(cur, u, p, contended)
    requires Start(p, |cur|) <= t < End(p, |cur|) && t == c - ker.offs[i] && 0 <= c < |cur| && cur[c] != u[c]
    requires forall x | x in contended :: Near(|cur|, k * r, x)
    ensures Near(|cur|, (k + 1) * r, t)
  {
    Spreads(ker, cur, u, r, p, contended, k * r, t, c);
    assert k * r + r == (k + 1) * r;
  }

  lemma CorrectSpread(ker: Kernel, s: State, n: nat, steps: nat, r: nat, d0: seq<real>, i: nat, c: int, p: nat, s': State)
    requires Inv(ker, s, n, steps, r, d0) && Correcting(ker, s, n, steps, i, c, p, s')
    ensures Sized(s', n, steps) && Spread(s', n, steps, r)
  {
    hide Fix, Overlaps, Near, Sweeps, Final, FixedDue, Corrected, Start, End, Next, Parts, InOrder, Delta;
    CorrectedData(ker, s, n, steps, i, c, p, s');
    var k := s.resolved + 1;
    forall j: nat, x | j <= steps && x in s'.contended[j]
      ensures Near(n, j * r, x)
    {
      if j == k && x !in s.contended[k] {
        assert Fresh(s.data[k - 1], s.used[(k, p)], p, s.contended[k - 1]);
        MarkSpread(ker, s.data[k - 1], s.used[(k, p)], s.contended[k - 1], k - 1, r, i, c, p, x);
      }
    }
  }

  /** The worker whose element is corrected. */
  lemma CorrectingBy(ker: Kernel, s: State, n: nat, steps: nat, i: nat, c: int, s': State) returns (p: nat)
    requires KernelOk(ker) && Sized(s, n, steps) && Step(ker, n, steps, s, Correct(i, c), s')
    ensures Correcting(ker, s, n, steps, i, c, p, s')
  {
    hide Overlaps, Corrected, Start, End;
    p :| p < HWCONC && Start(p, n) <= c - ker.offs[i] < End(p, n) && (s.resolved + 1, p) in s.used && s' == Corrected(ker, s, n, steps, i, c, p);
  }

  lemma CorrectKeeps(ker: Kernel, s: State, n: nat, steps: nat, r: nat, d0: seq<real>, i: nat, c: int, s': State)
    requires Inv(ker, s, n, steps, r, d0) && Step(ker, n, steps, s, Correct(i, c), s')
    ensures Inv(ker, s', n, steps, r, d0)
  {
    hide Fix, Overlaps, Near, Sweeps, Corrected, Start, End, Next, Parts, Snaps, Spread, Step;
    var p := CorrectingBy(ker, s, n, steps, i, c, s');
    CorrectedData(ker, s, n, steps, i, c, p, s');
    CorrectSnaps(ker, s, n, steps, r, d0, i, c, p, s');
    CorrectParts(ker, s, n, steps, i, c, p, s');
    CorrectSpread(ker, s, n, steps, r, d0, i, c, p, s');
    HasKept(s, s');
  }

  /** When all due corrections are made, the vector is one sweep over its final source. */
  lemma FinishSwept(ker: Kernel, s: State, n: nat, steps: nat, r: nat, d0: seq<real>)
    requires Inv(ker, s, n, steps, r, d0) && Enabled(ker, n, steps, s, Finish)
    requires Wide(n, r) && Inland(n, r, s.contended[s.resolved])
    ensures s.data[s.resolved + 1] == Sweep(ker, s.data[s.resolved])
  {
    hide Fix, Overlaps, Near, Sweeps, Start, End, Next, Spread, Wide, Inland, FixedDue, Final, Due, Within, Fresh;
    var k := s.resolved + 1;
    forall t: nat | t < n
      ensures s.data[k][t] == Next(ker, s.data[k - 1], t)
    {
      var p := WorkerFor(t, n);
      assert Has(s, k, p);
      assert Fresh(s.data[k - 1], s.used[(k, p)], p, s.contended[k - 1]);
      Repaired(ker, s.data[k - 1], s.used[(k, p)], r, p, s.contended[k - 1], s.fixed, t);
      assert s.data[k][t] == Next(ker, s.used[(k, p)], t) + FixNow(ker, s, n, steps, (k, p), t);
    }
  }

  lemma FinishParts(ker: Kernel, s: State, n: nat, steps: nat, r: nat, d0: seq<real>, s': State)
    requires Inv(ker, s, n, steps, r, d0) && Step(ker, n, steps, s, Finish, s')
    ensures Sized(s', n, steps) && Parts(ker, s', n, steps)
  {
    hide Fix, Overlaps, Near, Sweeps, Start, End, Next, Spread, FixedDue, Final, Due, Within, Fresh, Snaps;
    forall x, t: nat | x in s'.joined && x in s'.used && x.0 > s'.resolved && Start(x.1, n) <= t < End(x.1, n)
      ensures s'.data[x.0][t] == Next(ker, s'.used[x], t) + FixNow(ker, s', n, steps, x, t)
    {
      FixNone(ker, s.data[x.0 - 1], s.used[x], t, |ker.offs|);
      assert FixNow(ker, s, n, steps, x, t) == 0.0;
    }
  }

  lemma FinishKeeps(ker: Kernel, s: State, n: nat, steps: nat, r: nat, d0: seq<real>, s': State)
    requires Inv(ker, s, n, steps, r, d0) && Step(ker, n, steps, s, Finish, s')
    requires Wide(n, r) && Inland(n, r, s.contended[s.resolved])
    ensures Inv(ker, s', n, steps, r, d0)
  {
    hide Fix, Overlaps, Near, Start, End, Next, Parts, Fresh, Wide, Inland, Due, Sweep;
    FinishSwept(ker, s, n, steps, r, d0);
    FinishParts(ker, s, n, steps, r, d0, s');
    assert s'.data[s'.resolved] == Sweeps(ker, d0, s'.resolved);
    HasKept(s, s');
  }

  // ---- whole runs ----

  /** A run: states linked by steps. */
  ghost predicate IsRun(ker: Kernel, n: nat, steps: nat, run: seq<State>, events: seq<Event>)
    requires KernelOk(ker)
  {
    && |run| == |events| + 1 && (forall j | 0 <= j < |run| :: Sized(run[j], n, steps))
    && forall j | 0 <= j < |events| :: Step(ker, n, steps, run[j], events[j], run[j + 1])
  }

  /** Each resolution of the run starts from contended indices at least two radii from the ends. */
  ghost predicate InlandRun(n: nat, r: nat, run: seq<State>, events: seq<Event>)
    requires |run| == |events| + 1
  {
    forall j | 0 <= j < |events| && events[j].Finish? :: StartsInland(n, r, run[j])
  }

  ghost predicate StartsInland(n: nat, r: nat, s: State) {
    s.resolved < |s.contended| && Inland(n, r, s.contended[s.resolved])
  }

  /** All but the last step of a run. */
  lemma RunInit(ker: Kernel, n: nat, steps: nat, r: nat, run: seq<State>, events: seq<Event>)
    requires KernelOk(ker) && IsRun(ker, n, steps, run, events) && |events| > 0
    ensures var last := |events| - 1;
            && IsRun(ker, n, steps, run[..last + 1], events[..last]) && Step(ker, n, steps, run[last], events[last], run[last + 1])
            && (InlandRun(n, r, run, events) ==> InlandRun(n, r, run[..last + 1], events[..last]))
  {
    hide Step, Sized, StartsInland;
    var last := |events| - 1;
    forall j | 0 <= j < last
      ensures Step(ker, n, steps, run[..last + 1][j], events[..last][j], run[..last + 1][j + 1])
    {
      assert Step(ker, n, steps, run[j], events[j], run[j + 1]);
    }
  }

  lemma StepKeeps(ker: Kernel, s: State, n: nat, steps: nat, r: nat, d0: seq<real>, e: Event, s': State)
    requires Inv(ker, s, n, steps, r, d0) && Step(ker, n, steps, s, e, s')
    requires e.Finish? ==> Wide(n, r) && StartsInland(n, r, s)
    ensures Inv(ker, s', n, steps, r, d0)
  {
    match e
    case Detach(k, p) => DetachKeeps(ker, s, n, steps, r, d0, k, p, s');
    case Reattach(k, p) => ReattachKeeps(ker, s, n, steps, r, d0, k, p, s');
    case Correct(i, c) => CorrectKeeps(ker, s, n, steps, r, d0, i, c, s');
    case Finish => FinishKeeps(ker, s, n, steps, r, d0, s');
  }

  lemma {:induction false} RunKeeps(ker: Kernel, n: nat, steps: nat, r: nat, d0: seq<real>, run: seq<State>, events: seq<Event>)
    requires KernelOk(ker) && Within(ker, r) && |d0| == n && IsRun(ker, n, steps, run, events) && Init(run[0], d0, steps)
    requires Wide(n, r) && InlandRun(n, r, run, events)
    ensures Inv(ker, run[|run| - 1], n, steps, r, d0)
  {
    hide Inv, Step, Init, StartsInland, Wide, Sized;
    if events == [] {
      InitInv(ker, run[0], steps, r, d0);
    } else {
      var last := |events| - 1;
      RunInit(ker, n, steps, r, run, events);
      RunKeeps(ker, n, steps, r, d0, run[..last + 1], events[..last]);
      StepKeeps(ker, run[last], n, steps, r, d0, events[last], run[last + 1]);
    }
  }

  /** Pipelined stencils compute the sequential sweeps: for every run in which each resolution starts from contended
      indices at least two radii from the ends, every resolved vector holds that many sweeps over the first. */
  lemma Pipelined(ker: Kernel, n: nat, steps: nat, r: nat, d0: seq<real>, run: seq<State>, events: seq<Event>)
    requires KernelOk(ker) && Within(ker, r) && |d0| == n && IsRun(ker, n, steps, run, events) && Init(run[0], d0, steps)
    requires Wide(n, r) && InlandRun(n, r, run, events)
    ensures var s := run[|run| - 1]; forall k: nat | k <= s.resolved :: s.data[k] == Sweeps(ker, d0, k)
  {
    RunKeeps(ker, n, steps, r, d0, run, events);
  }

  /** Partitions deep enough for that many steps keep the contended indices that far away in every run. */
  lemma DeepInland(ker: Kernel, s: State, n: nat, steps: nat, r: nat, d0: seq<real>)
    requires Inv(ker, s, n, steps, r, d0) && (steps + 1) * r <= n - Start(HWCONC - 1, n) && s.resolved < steps
    ensures StartsInland(n, r, s)
  {
    hide Near, Parts, Snaps, Final, FixedDue, Start;
    var k := s.resolved;
    forall c | c in s.contended[k]
      ensures 2 * r <= c < n - 2 * r
    {
      assert k * r + 2 * r == (k + 2) * r;
      MulMono(k + 2, steps + 1, r);
      NearInland(n, r, k * r, c);
    }
  }

  lemma {:induction false} DeepRunKeeps(ker: Kernel, n: nat, steps: nat, r: nat, d0: seq<real>, run: seq<State>, events: seq<Event>)
    requires KernelOk(ker) && Within(ker, r) && |d0| == n && IsRun(ker, n, steps, run, events) && Init(run[0], d0, steps)
    requires steps > 0 && (steps + 1) * r <= n - Start(HWCONC - 1, n)
    ensures Inv(ker, run[|run| - 1], n, steps, r, d0)
  {
    hide Inv, Step, Init, StartsInland, Wide, Start, Sized;
    if events == [] {
      InitInv(ker, run[0], steps, r, d0);
    } else {
      var last := |events| - 1;
      RunInit(ker, n, steps, r, run, events);
      DeepRunKeeps(ker, n, steps, r, d0, run[..last + 1], events[..last]);
      MulMono(2, steps + 1, r);
      WideIfLast(n, r);
      FinishBounded(ker, run[last], n, steps, events[last], run[last + 1]);
      if events[last].Finish? { DeepInland(ker, run[last], n, steps, r, d0); }
      StepKeeps(ker, run[last], n, steps, r, d0, events[last], run[last + 1]);
    }
  }

  lemma FinishBounded(ker: Kernel, s: State, n: nat, steps: nat, e: Event, s': State)
    requires KernelOk(ker) && Sized(s, n, steps) && Step(ker, n, steps, s, e, s')
    ensures e.Finish? ==> s.resolved < steps
  {
  }

  /** So for such partitions every run is right: its last vector, once resolved, is the sequential result. */
  lemma DeepPipelined(ker: Kernel, n: nat, steps: nat, r: nat, d0: seq<real>, run: seq<State>, events: seq<Event>)
    requires KernelOk(ker) && Within(ker, r) && |d0| == n && IsRun(ker, n, steps, run, events) && Init(run[0], d0, steps)
    requires steps > 0 && (steps + 1) * r <= n - Start(HWCONC - 1, n)
    ensures var s := run[|run| - 1]; forall k: nat | k <= s.resolved :: s.data[k] == Sweeps(ker, d0, k)
  {
    DeepRunKeeps(ker, n, steps, r, d0, run, events);
  }

  /** Nothing blocks: until the last vector is resolved some step can be made. */
  lemma SomeStep(ker: Kernel, s: State, n: nat, steps: nat, r: nat, d0: seq<real>) returns (e: Event, s': State)
    requires Inv(ker, s, n, steps, r, d0) && s.resolved < steps
    ensures Step(ker, n, steps, s, e, s') && s' != s
  {
    hide Parts, Snaps, Final, Spread, Overlaps, Start, End, Spliced, Delta;
    var k := s.resolved + 1;
    if LatchOpen(s) {
      if i: nat, c :| Due(ker, n, s.contended[s.resolved], i, c) && (i, c) !in s.fixed {
        e := Correct(i, c);
        var p := WorkerFor(c - ker.offs[i], n);
        assert Has(s, k, p);
        s' := Corrected(ker, s, n, steps, i, c, p);
      } else {
        e := Finish;
        s' := s.(fixed := {}, resolved := s.resolved + 1);
      }
    } else {
      var p: nat :| p < HWCONC && !Has(s, k, p);
      if (k, p) in s.used {
        e := Reattach(k, p);
        s' := s.(data := s.data[k := Spliced(ker, s.data[k], s.used[(k, p)], p)], joined := s.joined + {(k, p)});
      } else {
        if k >= 2 { assert Has(s, k - 1, p); }
        e := Detach(k, p);
        s' := s.(used := s.used[(k, p) := s.data[k - 1]]);
      }
    }
  }

  // ---- what is marked ----

  /** The correction for map i at source index c belongs to vector k and has been made. */
  ghost predicate Made(ker: Kernel, s: State, n: nat, steps: nat, k: nat, i: nat, c: int)
    requires Sized(s, n, steps) && 1 <= k <= steps
  {
    if k <= s.resolved then Due(ker, n, s.contended[k - 1], i, c) else k == s.resolved + 1 && (i, c) in s.fixed
  }

  /** It changed element t: what worker p had read at c is no longer there. */
  ghost predicate Stale(ker: Kernel, s: State, n: nat, steps: nat, k: nat, i: nat, c: int, t: int, p: nat)
    requires Sized(s, n, steps) && 1 <= k <= steps
  {
    && i < |ker.offs| && 0 <= c < n && t == c - ker.offs[i] && p < HWCONC && Start(p, n) <= t < End(p, n)
    && (k, p) in s.used && s.data[k - 1][c] != s.used[(k, p)][c]
  }

  ghost predicate Marks(ker: Kernel, s: State, n: nat, steps: nat, k: nat, t: int)
    requires Sized(s, n, steps) && 1 <= k <= steps
  {
    exists i: nat, c, p: nat :: Made(ker, s, n, steps, k, i, c) && Stale(ker, s, n, steps, k, i, c, t, p)
  }

  /** A vector's contended set is exactly the elements that its resolution changed. */
  ghost predicate MarksExact(ker: Kernel, s: State, n: nat, steps: nat)
    requires Sized(s, n, steps)
  {
    s.contended[0] == {} && forall k: nat, t | 1 <= k <= steps :: t in s.contended[k] <==> Marks(ker, s, n, steps, k, t)
  }

  /** Corrections of a vector are made after all workers have reattached to it. */
  lemma MadeHas(ker: Kernel, s: State, n: nat, steps: nat, k: nat, i: nat, c: int, p: nat)
    requires Sized(s, n, steps) && 1 <= k <= steps && InOrder(s) && FixedDue(ker, s, n, steps) && p < HWCONC
    ensures Made(ker, s, n, steps, k, i, c) ==> Has(s, k, p) && (k, p) in s.used && (k >= 2 ==> Has(s, k - 1, p))
  {
    if Made(ker, s, n, steps, k, i, c) { assert Has(s, k, p); }
  }

  /** Detaching and reattaching happen at vectors of which no correction has been made. */
  lemma EarlyMarks(ker: Kernel, s: State, n: nat, steps: nat, e: Event, s': State)
    requires KernelOk(ker) && Sized(s, n, steps) && Sized(s', n, steps) && InOrder(s) && FixedDue(ker, s, n, steps)
    requires Step(ker, n, steps, s, e, s') && (e.Detach? || e.Reattach?) && MarksExact(ker, s, n, steps)
    ensures MarksExact(ker, s', n, steps)
  {
    hide InOrder, FixedDue, Stale, Made, Step;
    EarlyContended(ker, s, n, steps, e, s');
    forall k: nat, t | 1 <= k <= steps
      ensures t in s'.contended[k] <==> Marks(ker, s', n, steps, k, t)
    {
      forall i: nat, c, p: nat
        ensures Made(ker, s, n, steps, k, i, c) && Stale(ker, s, n, steps, k, i, c, t, p)
                <==> Made(ker, s', n, steps, k, i, c) && Stale(ker, s', n, steps, k, i, c, t, p)
      {
        EarlyMark(ker, s, n, steps, e, s', k, i, c, t, p);
      }
    }
  }

  lemma EarlyContended(ker: Kernel, s: State, n: nat, steps: nat, e: Event, s': State)
    requires KernelOk(ker) && Sized(s, n, steps) && Step(ker, n, steps, s, e, s') && (e.Detach? || e.Reattach?)
    ensures s'.contended == s.contended && s'.fixed == s.fixed && s'.resolved == s.resolved && e.p < HWCONC && e.k >= 1
    ensures e.Detach? ==> s'.data == s.data && (e.k, e.p) !in s.used && forall x | x != (e.k, e.p) :: x in s'.used <==> x in s.used
    ensures e.Detach? ==> forall x | x in s.used :: s'.used[x] == s.used[x]
    ensures e.Reattach? ==> s'.used == s.used && !Has(s, e.k, e.p) && forall j | 0 <= j <= steps && j != e.k :: s'.data[j] == s.data[j]
  {
    hide Spliced;
  }

  lemma EarlyMark(ker: Kernel, s: State, n: nat, steps: nat, e: Event, s': State, k: nat, i: nat, c: int, t: int, p: nat)
    requires KernelOk(ker) && Sized(s, n, steps) && Sized(s', n, steps) && InOrder(s) && FixedDue(ker, s, n, steps)
    requires Step(ker, n, steps, s, e, s') && (e.Detach? || e.Reattach?) && 1 <= k <= steps
    ensures Made(ker, s, n, steps, k, i, c) && Stale(ker, s, n, steps, k, i, c, t, p)
            <==> Made(ker, s', n, steps, k, i, c) && Stale(ker, s', n, steps, k, i, c, t, p)
  {
    hide InOrder, FixedDue, Due, Start, End, Step;
    EarlyContended(ker, s, n, steps, e, s');
    assert Made(ker, s', n, steps, k, i, c) <==> Made(ker, s, n, steps, k, i, c);
    if Made(ker, s, n, steps, k, i, c) {
      MadeHas(ker, s, n, steps, k, i, c, e.p);
      assert Stale(ker, s', n, steps, k, i, c, t, p) <==> Stale(ker, s, n, steps, k, i, c, t, p);
    }
  }

  lemma CorrectMarks(ker: Kernel, s: State, n: nat, steps: nat, i0: nat, c0: int, p0: nat, s': State)
    requires KernelOk(ker) && Sized(s, n, steps) && Sized(s', n, steps) && Correcting(ker, s, n, steps, i0, c0, p0, s') && MarksExact(ker, s, n, steps)
    ensures MarksExact(ker, s', n, steps)
  {
    hide Overlaps, Delta, Start, End;
    var k0, t0 := s.resolved + 1, c0 - ker.offs[i0];
    forall k: nat, t | 1 <= k <= steps
      ensures t in s'.contended[k] <==> Marks(ker, s', n, steps, k, t)
    {
      if Marks(ker, s, n, steps, k, t) {
        var i: nat, c, p: nat :| Made(ker, s, n, steps, k, i, c) && Stale(ker, s, n, steps, k, i, c, t, p);
        assert Made(ker, s', n, steps, k, i, c) && Stale(ker, s', n, steps, k, i, c, t, p);
      }
      if Marks(ker, s', n, steps, k, t) {
        var i: nat, c, p: nat :| Made(ker, s', n, steps, k, i, c) && Stale(ker, s', n, steps, k, i, c, t, p);
        if k == k0 && i == i0 && c == c0 { InShare(t, n, p); InShare(t, n, p0); }
        else { assert Made(ker, s, n, steps, k, i, c) && Stale(ker, s, n, steps, k, i, c, t, p); }
      }
      if k == k0 && t == t0 && s.data[k - 1][c0] != s.used[(k, p0)][c0] {
        assert Made(ker, s', n, steps, k, i0, c0) && Stale(ker, s', n, steps, k, i0, c0, t, p0);
      }
    }
  }

  lemma FinishMarks(ker: Kernel, s: State, n: nat, steps: nat, s': State)
    requires KernelOk(ker) && Sized(s, n, steps) && Sized(s', n, steps) && FixedDue(ker, s, n, steps)
    requires Step(ker, n, steps, s, Finish, s') && MarksExact(ker, s, n, steps)
    ensures MarksExact(ker, s', n, steps)
  {
    hide Due, Stale;
    forall k: nat, t | 1 <= k <= steps
      ensures t in s'.contended[k] <==> Marks(ker, s', n, steps, k, t)
    {
      forall i: nat, c, p: nat
        ensures Made(ker, s, n, steps, k, i, c) <==> Made(ker, s', n, steps, k, i, c)
        ensures Stale(ker, s, n, steps, k, i, c, t, p) <==> Stale(ker, s', n, steps, k, i, c, t, p)
      {
        StaleSame(ker, s, s', n, steps, k, i, c, t, p);
      }
    }
  }

  lemma StaleSame(ker: Kernel, s: State, s': State, n: nat, steps: nat, k: nat, i: nat, c: int, t: int, p: nat)
    requires Sized(s, n, steps) && Sized(s', n, steps) && 1 <= k <= steps && s'.data == s.data && s'.used == s.used
    ensures Stale(ker, s, n, steps, k, i, c, t, p) <==> Stale(ker, s', n, steps, k, i, c, t, p)
  {
  }

  lemma MarksKeep(ker: Kernel, s: State, n: nat, steps: nat, r: nat, d0: seq<real>, e: Event, s': State)
    requires Inv(ker, s, n, steps, r, d0) && Sized(s', n, steps) && Step(ker, n, steps, s, e, s') && MarksExact(ker, s, n, steps)
    ensures MarksExact(ker, s', n, steps)
  {
    hide MarksExact, Parts, Snaps, Final, Spread, Step, Correcting;
    match e
    case Detach(k, p) => EarlyMarks(ker, s, n, steps, e, s');
    case Reattach(k, p) => EarlyMarks(ker, s, n, steps, e, s');
    case Correct(i, c) =>
      var p := CorrectingBy(ker, s, n, steps, i, c, s');
      CorrectMarks(ker, s, n, steps, i, c, p, s');
    case Finish => FinishMarks(ker, s, n, steps, s');
  }

  /** In every run the contended set of each vector is exactly the elements that the corrections made so far have changed. */
  lemma {:induction false} ContendedExact(ker: Kernel, n: nat, steps: nat, r: nat, d0: seq<real>, run: seq<State>, events: seq<Event>)
    requires KernelOk(ker) && Within(ker, r) && |d0| == n && IsRun(ker, n, steps, run, events) && Init(run[0], d0, steps)
    requires Wide(n, r) && InlandRun(n, r, run, events)
    ensures MarksExact(ker, run[|run| - 1], n, steps)
  {
    hide Inv, Step, StartsInland, Wide, MarksExact;
    if events == [] {
      NoMarks(ker, run[0], n, steps, d0);
    } else {
      var last := |events| - 1;
      RunInit(ker, n, steps, r, run, events);
      ContendedExact(ker, n, steps, r, d0, run[..last + 1], events[..last]);
      RunKeeps(ker, n, steps, r, d0, run[..last + 1], events[..last]);
      MarksKeep(ker, run[last], n, steps, r, d0, events[last], run[last + 1]);
    }
  }

  lemma NoMarks(ker: Kernel, s: State, n: nat, steps: nat, d0: seq<real>)
    requires |d0| == n && Init(s, d0, steps)
    ensures MarksExact(ker, s, n, steps)
  {
  }
}
