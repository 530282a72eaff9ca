/** The stencil's worker task and its resolution, as loops over snapshots and index sets. */
module StencilTasks {
  import opened Partition
  import opened Radix
  import opened Stencil

  /** `safe_mapping`: the mapped position pulled into [lo, hi], and the index that moved along with it. */
  method SafeMapping(indexMap: int -> int, i: nat, lo: int, hi: int) returns (idom: int, iran: int)
    requires lo <= hi
    ensures lo <= idom <= hi && idom - iran == i - indexMap(i)
    ensures var pos := i + (i - indexMap(i)); idom == if pos < lo then lo else if pos > hi then hi else pos
  {
    var imapped := indexMap(i);
    var o := i - imapped;
    idom, iran := i + o, i;
    if idom < lo {
      iran := iran + (lo - idom);
      idom := idom + (lo - idom);
    }
    if idom >= hi {
      iran := iran - (idom - hi);
      idom := idom - (idom - hi);
    }
  }

  /** `safe_mapping(offset<o>, i, 0, n)` */
  method SafeOffset(o: int, i: nat, n: nat) returns (idom: int, iran: int)
    ensures (idom, iran) == SafeMap(o, i, n)
  {
    idom, iran := SafeMapping((x: int) => x - o, i, 0, n);
  }

  // ---- the worker's task ----

  /** The stencil given by its offset maps and coefficients, with the element itself in front. */
  function Full(offs: seq<int>, coefs: seq<real>): (k: Kernel)
    requires |offs| == |coefs|
    ensures KernelOk(k)
  {
    Kernel([0] + offs, [1.0] + coefs)
  }

  /** The largest first index of the first m maps, and the smallest last one. */
  function FirstValid(offs: seq<int>, a: nat, n: nat, m: nat): (ap: int)
    requires 0 < m <= |offs|
    ensures forall i | 0 <= i < m :: SafeMap(offs[i], a, n).1 <= ap
    ensures exists i | 0 <= i < m :: ap == SafeMap(offs[i], a, n).1
  {
    var x := SafeMap(offs[m - 1], a, n).1;
    if m == 1 then x else
      var rest := FirstValid(offs, a, n, m - 1);
      if x > rest then x else rest
  }

  function LastValid(offs: seq<int>, b: nat, n: nat, m: nat): (bp: int)
    requires 0 < m <= |offs|
    ensures forall i | 0 <= i < m :: bp <= SafeMap(offs[i], b, n).1
    ensures exists i | 0 <= i < m :: bp == SafeMap(offs[i], b, n).1
  {
    var x := SafeMap(offs[m - 1], b, n).1;
    if m == 1 then x else
      var rest := LastValid(offs, b, n, m - 1);
      if x < rest then x else rest
  }

  /** The range that worker p iterates over */
  function First(offs: seq<int>, p: nat, n: nat): int
    requires |offs| > 0
  {
    FirstValid(offs, Start(p, n), n, |offs|)
  }

  function Last(offs: seq<int>, p: nat, n: nat): int
    requires |offs| > 0
  {
    LastValid(offs, End(p, n), n, |offs|)
  }

  /** The narrowest valid range: between the largest first index and the smallest last one. */
  method Narrowest(offs: seq<int>, a: nat, b: nat, n: nat) returns (ap: int, bp: int)
    requires |offs| > 0
    ensures ap == FirstValid(offs, a, n, |offs|) && bp == LastValid(offs, b, n, |offs|)
  {
    var dom;
    dom, ap := SafeOffset(offs[0], a, n);
    dom, bp := SafeOffset(offs[0], b, n);
    for j := 1 to |offs|
      invariant ap == FirstValid(offs, a, n, j) && bp == LastValid(offs, b, n, j)
    {
      var x, y;
      dom, x := SafeOffset(offs[j], a, n);
      dom, y := SafeOffset(offs[j], b, n);
      ap := if x > ap then x else ap;
      bp := if y < bp then y else bp;
    }
  }

  lemma RangeEnds(o: int, r: nat, a: nat, b: nat, n: nat)
    requires -o <= r && o <= r && a + 2 * r <= b <= n
    ensures SafeMap(o, a, n).1 == if a + o < 0 then -o else a
    ensures SafeMap(o, b, n).1 == if b + o > n then n - o else b
  {
  }

  /** On wide partitions that range is exactly the worker's share of the interior. */
  lemma NarrowestIsInterior(offs: seq<int>, coefs: seq<real>, r: nat, p: nat, n: nat)
    requires |offs| == |coefs| > 0 && Within(Full(offs, coefs), r) && Wide(n, r) && p < HWCONC
    ensures Start(p, n) <= First(offs, p, n) <= Last(offs, p, n) <= End(p, n)
    ensures forall t | Start(p, n) <= t < End(p, n) :: First(offs, p, n) <= t < Last(offs, p, n) <==> Interior(Full(offs, coefs), n, t)
  {
    hide SafeMap, Start, End, FirstValid, LastValid;
    var k := Full(offs, coefs);
    var a, b, ap, bp := Start(p, n), End(p, n), First(offs, p, n), Last(offs, p, n);
    assert a + 2 * r <= b;
    forall i | 0 <= i < |offs|
      ensures SafeMap(offs[i], a, n).1 == if a + offs[i] < 0 then -offs[i] else a
      ensures SafeMap(offs[i], b, n).1 == if b + offs[i] > n then n - offs[i] else b
    {
      assert k.offs[i + 1] == offs[i];
      RangeEnds(offs[i], r, a, b, n);
    }
    var i :| 0 <= i < |offs| && ap == SafeMap(offs[i], a, n).1;
    var j :| 0 <= j < |offs| && bp == SafeMap(offs[j], b, n).1;
    assert k.offs[i + 1] == offs[i] && k.offs[j + 1] == offs[j];
    forall t | a <= t < b
      ensures ap <= t < bp <==> Interior(k, n, t)
    {
      if ap <= t < bp {
        forall x | 0 <= x < |k.offs|
          ensures 0 <= t + k.offs[x] < n
        {
          if x > 0 { assert k.offs[x] == offs[x - 1]; }
        }
      } else if t < ap {
        assert t + k.offs[i + 1] < 0;
      } else {
        assert t + k.offs[j + 1] >= n;
      }
    }
  }

  /** The elements that the terms at `t` read exist. */
  predicate Inside(offs: seq<int>, n: nat, t: int) {
    forall i | 0 <= i < |offs| :: 0 <= t + offs[i] < n
  }

  lemma InteriorInside(offs: seq<int>, coefs: seq<real>, n: nat, t: int)
    requires |offs| == |coefs|
    ensures Interior(Full(offs, coefs), n, t) <==> 0 <= t < n && Inside(offs, n, t)
  {
    var k := Full(offs, coefs);
    if Interior(k, n, t) {
      assert 0 <= t + k.offs[0] < n;
      forall i | 0 <= i < |offs|
        ensures 0 <= t + offs[i] < n
      {
        assert k.offs[i + 1] == offs[i];
      }
    }
  }

  lemma {:induction false} DotIsLinear(offs: seq<int>, coefs: seq<real>, s: seq<real>, t: int, m: nat)
    requires |offs| == |coefs| && m <= |offs| && Interior(Full(offs, coefs), |s|, t)
    ensures 0 <= t < |s| && Dot(Full(offs, coefs), s, t, m + 1) == s[t] + Linear(offs, coefs, s, t, m)
  {
    InteriorInside(offs, coefs, |s|, t);
    var k := Full(offs, coefs);
    if m == 0 {
      assert Dot(k, s, t, 0) == 0.0;
    } else {
      DotIsLinear(offs, coefs, s, t, m - 1);
    }
  }

  lemma InteriorNext(offs: seq<int>, coefs: seq<real>, s: seq<real>, t: int)
    requires |offs| == |coefs| && Interior(Full(offs, coefs), |s|, t)
    ensures 0 <= t < |s| && Next(Full(offs, coefs), s, t) == s[t] + Linear(offs, coefs, s, t, |offs|)
  {
    DotIsLinear(offs, coefs, s, t, |offs|);
  }

  /** `target = fs[i](target, *(trck + ioffs[i]))` for every i, with `trck` at t + offs[0] */
  method AddTerms(used: seq<real>, offs: seq<int>, coefs: seq<real>, trck: int, start: real) returns (ok: bool, target: real)
    requires |offs| == |coefs| > 0
    ensures ok <==> Inside(offs, |used|, trck - offs[0])
    ensures ok ==> target == start + Linear(offs, coefs, used, trck - offs[0], |offs|)
  {
    ok, target := true, start;
    ghost var t := trck - offs[0];
    for i := 0 to |offs|
      invariant forall j | 0 <= j < i :: 0 <= t + offs[j] < |used|
      invariant target == start + Linear(offs, coefs, used, t, i)
    {
      var ioff := offs[i] - offs[0];
      if !(0 <= trck + ioff < |used|) {
        assert !(0 <= t + offs[i] < |used|);
        return false, target;
      }
      target := target + coefs[i] * used[trck + ioff];
    }
  }

  /** The worker's splinter is right on its own partition. */
  ghost predicate Computed(k: Kernel, used: seq<real>, splt: seq<real>, p: nat)
    requires KernelOk(k)
  {
    |splt| == |used| && forall t | Start(p, |used|) <= t < End(p, |used|) :: splt[t] == Next(k, used, t)
  }

  /** The snapshot with the terms added to the elements of [ap, it). */
  ghost function Swept(used: seq<real>, offs: seq<int>, coefs: seq<real>, ap: int, it: int): (splt: seq<real>)
    requires |offs| == |coefs|
    ensures |splt| == |used|
  {
    seq(|used|, t requires 0 <= t < |used| => if ap <= t < it then used[t] + Linear(offs, coefs, used, t, |offs|) else used[t])
  }

  ghost predicate StaysAt(offs: seq<int>, n: nat, t: int) {
    0 <= t < n && Inside(offs, n, t)
  }

  /** The loop over [ap, bp) comes to its end, and neither it nor the terms leave the vector. */
  ghost predicate Stays(offs: seq<int>, n: nat, ap: int, bp: int) {
    ap <= bp && forall t | ap <= t < bp :: StaysAt(offs, n, t)
  }

  lemma StaysOne(offs: seq<int>, n: nat, ap: int, it: int, bp: int)
    requires Stays(offs, n, ap, it) && it < bp
    ensures 0 <= it < n && Inside(offs, n, it) ==> Stays(offs, n, ap, it + 1)
    ensures !(0 <= it < n && Inside(offs, n, it)) ==> !Stays(offs, n, ap, bp)
  {
    assert Stays(offs, n, ap, bp) ==> StaysAt(offs, n, it);
  }

  lemma SweptNone(used: seq<real>, offs: seq<int>, coefs: seq<real>, ap: int)
    requires |offs| == |coefs|
    ensures Swept(used, offs, coefs, ap, ap) == used
  {
  }

  lemma SweptOne(used: seq<real>, offs: seq<int>, coefs: seq<real>, ap: int, it: int)
    requires |offs| == |coefs| && ap <= it && 0 <= it < |used|
    ensures var splt := Swept(used, offs, coefs, ap, it);
            splt[it] == used[it] && Swept(used, offs, coefs, ap, it + 1) == splt[it := splt[it] + Linear(offs, coefs, used, it, |offs|)]
  {
  }

  /** On wide partitions the range is the worker's share of the interior, so the task stays and computes the stencil. */
  lemma SweptComputes(offs: seq<int>, coefs: seq<real>, used: seq<real>, p: nat, r: nat)
    requires |offs| == |coefs| > 0 && p < HWCONC && Within(Full(offs, coefs), r) && Wide(|used|, r)
    ensures var ap, bp := First(offs, p, |used|), Last(offs, p, |used|);
            Stays(offs, |used|, ap, bp) && Computed(Full(offs, coefs), used, Swept(used, offs, coefs, ap, bp), p)
  {
    hide First, Last, Start, End;
    var n, ap, bp := |used|, First(offs, p, |used|), Last(offs, p, |used|);
    NarrowestIsInterior(offs, coefs, r, p, n);
    forall t | ap <= t < bp
      ensures StaysAt(offs, n, t)
    {
      InteriorInside(offs, coefs, n, t);
    }
    forall t | Start(p, n) <= t < End(p, n)
      ensures Swept(used, offs, coefs, ap, bp)[t] == Next(Full(offs, coefs), used, t)
    {
      if ap <= t < bp { InteriorNext(offs, coefs, used, t); }
    }
  }

  /** `stencil_splt` with the loop over the operators that its source keeps as a comment; `ok` is false where
      the source would leave the vector or never meet its end. */
  method StencilSplt(used: seq<real>, offs: seq<int>, coefs: seq<real>, p: nat) returns (ok: bool, splt: seq<real>)
    requires |offs| == |coefs| > 0 && p < HWCONC
    ensures ok <==> Stays(offs, |used|, First(offs, p, |used|), Last(offs, p, |used|))
    ensures ok ==> splt == Swept(used, offs, coefs, First(offs, p, |used|), Last(offs, p, |used|))
    ensures forall r: nat | Within(Full(offs, coefs), r) && Wide(|used|, r) :: ok && Computed(Full(offs, coefs), used, splt, p)
  {
    hide Next, SafeMap, Linear, Computed, FirstValid, LastValid, Start, End, Inside, Swept;
    WideTasks(offs, coefs, used, p);
    var ap, bp := Narrowest(offs, Start(p, |used|), End(p, |used|), |used|);
    splt := used;
    if ap > bp {
      return false, splt;
    }
    var it, trck := ap, ap + offs[0];
    SweptNone(used, offs, coefs, ap);
    while it != bp
      invariant ap <= it <= bp && trck == it + offs[0] && Stays(offs, |used|, ap, it) && splt == Swept(used, offs, coefs, ap, it)
      decreases bp - it
    {
      StaysOne(offs, |used|, ap, it, bp);
      if !(0 <= it < |used|) {
        return false, splt;
      }
      var target;
      ok, target := AddTerms(used, offs, coefs, trck, splt[it]);
      if !ok {
        return;
      }
      SweptOne(used, offs, coefs, ap, it);
      splt := splt[it := target];
      it, trck := it + 1, trck + 1;
    }
    ok := true;
  }

  lemma WideTasks(offs: seq<int>, coefs: seq<real>, used: seq<real>, p: nat)
    requires |offs| == |coefs| > 0 && p < HWCONC
    ensures forall r: nat | Within(Full(offs, coefs), r) && Wide(|used|, r) ::
              var ap, bp := First(offs, p, |used|), Last(offs, p, |used|);
              Stays(offs, |used|, ap, bp) && Computed(Full(offs, coefs), used, Swept(used, offs, coefs, ap, bp), p)
  {
    forall r: nat | Within(Full(offs, coefs), r) && Wide(|used|, r)
      ensures var ap, bp := First(offs, p, |used|), Last(offs, p, |used|);
              Stays(offs, |used|, ap, bp) && Computed(Full(offs, coefs), used, Swept(used, offs, coefs, ap, bp), p)
    {
      SweptComputes(offs, coefs, used, p, r);
    }
  }

  // ---- the kernel that is built in ----

  /** The kernel that `stencil_splt` has built in, at three offsets in a row. */
  const BUILT_IN: seq<real> := [0.4, 0.4 * -2.0, 0.4]

  function Three(o: int): (offs: seq<int>)
    ensures |offs| == |BUILT_IN|
  {
    [o, o + 1, o + 2]
  }

  lemma ThreeInside(o: int, n: nat, t: int)
    ensures Inside(Three(o), n, t) <==> 0 <= t + o && t + o + 2 < n
  {
    var offs := Three(o);
    if Inside(offs, n, t) { assert 0 <= t + offs[0] && t + offs[2] < n; }
  }

  lemma ThreeTerms(s: seq<real>, o: int, t: int)
    requires Inside(Three(o), |s|, t)
    ensures 0 <= t + o && t + o + 2 < |s|
    ensures Linear(Three(o), BUILT_IN, s, t, 3) == 0.4 * (s[t + o] + -2.0 * s[t + o + 1] + s[t + o + 2])
  {
    var offs := Three(o);
    assert 0 <= t + offs[0] && t + offs[1] < |s| && t + offs[2] < |s|;
    assert Linear(offs, BUILT_IN, s, t, 1) == 0.4 * s[t + o];
    assert Linear(offs, BUILT_IN, s, t, 2) == 0.4 * s[t + o] + 0.4 * -2.0 * s[t + o + 1];
  }

  /** `stencil_splt` as it is: the operators, and all offsets but the first, are looked up and not used. */
  method BuiltInSplt(used: seq<real>, offs: seq<int>, coefs: seq<real>, p: nat) returns (ok: bool, splt: seq<real>)
    requires |offs| == |coefs| > 0 && p < HWCONC
    ensures ok <==> Stays(Three(offs[0]), |used|, First(offs, p, |used|), Last(offs, p, |used|))
    ensures ok ==> splt == Swept(used, Three(offs[0]), BUILT_IN, First(offs, p, |used|), Last(offs, p, |used|))
    ensures ok && Computed(Full(offs, coefs), used, splt, p) <==> BuiltInRight(used, offs, coefs, p)
  {
    hide Linear, FirstValid, LastValid, Start, End, Next, Swept, SafeMap, Inside;
    var ap, bp := Narrowest(offs, Start(p, |used|), End(p, |used|), |used|);
    splt := used;
    if ap > bp {
      return false, splt;
    }
    ghost var three := Three(offs[0]);
    var it, trck := ap, ap + offs[0];
    SweptNone(used, three, BUILT_IN, ap);
    while it != bp
      invariant ap <= it <= bp && trck == it + offs[0] && Stays(three, |used|, ap, it) && splt == Swept(used, three, BUILT_IN, ap, it)
      decreases bp - it
    {
      StaysOne(three, |used|, ap, it, bp);
      ThreeInside(offs[0], |used|, it);
      if !(0 <= it < |used| && 0 <= trck && trck + 2 < |used|) {
        return false, splt;
      }
      ThreeTerms(used, offs[0], it);
      SweptOne(used, three, BUILT_IN, ap, it);
      var target := splt[it] + 0.4 * (used[trck] + -2.0 * used[trck + 1] + used[trck + 2]);
      splt := splt[it := target];
      it, trck := it + 1, trck + 1;
    }
    ok := true;
  }

  /** The operators act as the built-in kernel: the same summed coefficient at every offset. */
  ghost predicate LikeBuiltIn(offs: seq<int>, coefs: seq<real>)
    requires |offs| == |coefs| > 0
  {
    forall o: int :: SameWeight(offs, coefs, Three(offs[0]), BUILT_IN, o)
  }

  /** The task as it is computes the stencil that was asked for. */
  ghost predicate BuiltInRight(used: seq<real>, offs: seq<int>, coefs: seq<real>, p: nat)
    requires |offs| == |coefs| > 0
  {
    var ap, bp := First(offs, p, |used|), Last(offs, p, |used|);
    && Stays(Three(offs[0]), |used|, ap, bp)
    && Computed(Full(offs, coefs), used, Swept(used, Three(offs[0]), BUILT_IN, ap, bp), p)
  }

  /** Worker p has an element with all its neighbours. */
  ghost predicate HasInterior(k: Kernel, n: nat, p: nat) {
    exists t :: Start(p, n) <= t < End(p, n) && Interior(k, n, t)
  }

  /** Exactly when the built-in kernel is right, whatever the data. */
  lemma BuiltInExact(offs: seq<int>, coefs: seq<real>, p: nat, n: nat, r: nat)
    requires |offs| == |coefs| > 0 && p < HWCONC && Within(Full(offs, coefs), r) && Wide(n, r)
    ensures (forall used: seq<real> | |used| == n :: BuiltInRight(used, offs, coefs, p)) <==>
            LikeBuiltIn(offs, coefs) || !HasInterior(Full(offs, coefs), n, p)
  {
    hide BuiltInRight, LikeBuiltIn, Start, End;
    var k := Full(offs, coefs);
    forall used: seq<real> | |used| == n && (LikeBuiltIn(offs, coefs) || !HasInterior(k, n, p))
      ensures BuiltInRight(used, offs, coefs, p)
    {
      LikeRight(used, offs, coefs, p, r);
    }
    if (forall used: seq<real> | |used| == n :: BuiltInRight(used, offs, coefs, p)) && HasInterior(k, n, p) {
      var t :| Start(p, n) <= t < End(p, n) && Interior(k, n, t);
      RightLike(offs, coefs, p, n, r, t);
    }
  }

  lemma {:induction false} SomeOffset(offs: seq<int>, coefs: seq<real>, o: int) returns (i: nat)
    requires |offs| == |coefs| && Weight(offs, coefs, o, |offs|) != 0.0
    ensures i < |offs| && offs[i] == o
  {
    if forall i | 0 <= i < |offs| :: offs[i] != o {
      NoWeight(offs, coefs, o, |offs|);
    }
    i :| i < |offs| && offs[i] == o;
  }

  lemma ThreeWeights(o: int, x: int)
    ensures Weight(Three(o), BUILT_IN, x, 3) == if x == o || x == o + 2 then 0.4 else if x == o + 1 then 0.4 * -2.0 else 0.0
  {
    assert Weight(Three(o), BUILT_IN, x, 0) == 0.0;
    assert Weight(Three(o), BUILT_IN, x, 1) == if x == o then 0.4 else 0.0;
    assert Weight(Three(o), BUILT_IN, x, 2) == if x == o then 0.4 else if x == o + 1 then 0.4 * -2.0 else 0.0;
  }

  /** Operators that act as the built-in kernel read no more and no less than it. */
  lemma LikeInside(offs: seq<int>, coefs: seq<real>, n: nat, t: int)
    requires |offs| == |coefs| > 0 && LikeBuiltIn(offs, coefs) && Inside(offs, n, t)
    ensures Inside(Three(offs[0]), n, t)
  {
    var o := offs[0];
    assert SameWeight(offs, coefs, Three(o), BUILT_IN, o + 1) && SameWeight(offs, coefs, Three(o), BUILT_IN, o + 2);
    ThreeWeights(o, o + 1);
    ThreeWeights(o, o + 2);
    var i := SomeOffset(offs, coefs, o + 1);
    var j := SomeOffset(offs, coefs, o + 2);
    assert 0 <= t + offs[0] < n && t + offs[j] < n;
  }

  lemma LikeRight(used: seq<real>, offs: seq<int>, coefs: seq<real>, p: nat, r: nat)
    requires |offs| == |coefs| > 0 && p < HWCONC && Within(Full(offs, coefs), r) && Wide(|used|, r)
    requires LikeBuiltIn(offs, coefs) || !HasInterior(Full(offs, coefs), |used|, p)
    ensures BuiltInRight(used, offs, coefs, p)
  {
    hide First, Last, Start, End, Linear, Next, Inside;
    var k, n, o, ap, bp := Full(offs, coefs), |used|, offs[0], First(offs, p, |used|), Last(offs, p, |used|);
    NarrowestIsInterior(offs, coefs, r, p, n);
    SweptComputes(offs, coefs, used, p, r);
    forall t | ap <= t < bp
      ensures StaysAt(Three(o), n, t) && Linear(Three(o), BUILT_IN, used, t, 3) == Linear(offs, coefs, used, t, |offs|)
    {
      assert Interior(k, n, t);
      InteriorInside(offs, coefs, n, t);
      LikeInside(offs, coefs, n, t);
      LinearIsWeighted(Three(o), BUILT_IN, used, t, 3);
      LinearIsWeighted(offs, coefs, used, t, |offs|);
      SameWeights(offs, coefs, Three(o), BUILT_IN, used, t, n);
    }
    assert Swept(used, Three(o), BUILT_IN, ap, bp) == Swept(used, offs, coefs, ap, bp);
  }

  lemma RightLike(offs: seq<int>, coefs: seq<real>, p: nat, n: nat, r: nat, t: int)
    requires |offs| == |coefs| > 0 && p < HWCONC && Within(Full(offs, coefs), r) && Wide(n, r)
    requires forall used: seq<real> | |used| == n :: BuiltInRight(used, offs, coefs, p)
    requires Start(p, n) <= t < End(p, n) && Interior(Full(offs, coefs), n, t)
    ensures LikeBuiltIn(offs, coefs)
  {
    hide First, Last, Start, End, Linear, Next, Weight, BuiltInRight;
    NarrowestIsInterior(offs, coefs, r, p, n);
    InteriorInside(offs, coefs, n, t);
    RightInside(offs, coefs, p, Unit(n, -1), r, t);
    forall x: int
      ensures SameWeight(offs, coefs, Three(offs[0]), BUILT_IN, x)
    {
      if 0 <= t + x < n {
        RightWeight(offs, coefs, p, n, r, t, x);
      } else {
        NoWeight(offs, coefs, x, |offs|);
        NoWeight(Three(offs[0]), BUILT_IN, x, 3);
      }
    }
  }

  lemma RightInside(offs: seq<int>, coefs: seq<real>, p: nat, used: seq<real>, r: nat, t: int)
    requires |offs| == |coefs| > 0 && p < HWCONC && BuiltInRight(used, offs, coefs, p)
    requires First(offs, p, |used|) <= t < Last(offs, p, |used|)
    ensures Inside(Three(offs[0]), |used|, t)
  {
    hide First, Last, Computed, Swept;
    assert StaysAt(Three(offs[0]), |used|, t);
  }

  lemma RightWeight(offs: seq<int>, coefs: seq<real>, p: nat, n: nat, r: nat, t: int, x: int)
    requires |offs| == |coefs| > 0 && p < HWCONC && BuiltInRight(Unit(n, t + x), offs, coefs, p) && 0 <= t + x < n
    requires Start(p, n) <= t < End(p, n) && Interior(Full(offs, coefs), n, t) && First(offs, p, n) <= t < Last(offs, p, n)
    ensures SameWeight(offs, coefs, Three(offs[0]), BUILT_IN, x)
  {
    hide First, Last, Start, End, Linear, Next, Weight, Inside;
    var u := Unit(n, t + x);
    InteriorNext(offs, coefs, u, t);
    LinearUnit(offs, coefs, n, t + x, t, |offs|);
    LinearUnit(Three(offs[0]), BUILT_IN, n, t + x, t, 3);
  }

  /** Unit coefficients at -1, 0, 1: element 1 gets two fifths of what it should. */
  method BuiltInDiffers(n: nat) returns (ok: bool, splt: seq<real>)
    requires n >= 3 && Wide(n, 1)
    ensures ok && |splt| == n && splt[1] == 0.4
    ensures Start(0, n) <= 1 < End(0, n) && Next(Full([-1, 0, 1], [1.0, -2.0, 1.0]), Unit(n, 0), 1) == 1.0
  {
    hide First, Last, Start, End, Linear, Next;
    var offs, coefs := [-1, 0, 1], [1.0, -2.0, 1.0];
    var used := seq(n, i => if i == 0 then 1.0 else 0.0);
    assert used == Unit(n, 0);
    var k := Full(offs, coefs);
    FirstElement(n);
    assert k.offs == [0, -1, 0, 1] && Within(k, 1) && Interior(k, n, 1);
    NarrowestIsInterior(offs, coefs, 1, 0, n);
    assert Three(-1) == offs;
    SweptComputes(offs, coefs, used, 0, 1);
    InteriorNext(offs, coefs, used, 1);
    LinearUnit(offs, coefs, n, 0, 1, 3);
    LinearUnit(offs, BUILT_IN, n, 0, 1, 3);
    ThreeWeights(-1, -1);
    UnitWeights();
    ok, splt := BuiltInSplt(used, offs, coefs, 0);
  }

  lemma FirstElement(n: nat)
    requires Wide(n, 1)
    ensures Start(0, n) == 0 && 2 <= End(0, n)
  {
    assert Start(0, n) + 2 * 1 <= End(0, n);
  }

  lemma UnitWeights()
    ensures Weight([-1, 0, 1], [1.0, -2.0, 1.0], -1, 3) == 1.0
  {
    assert Weight([-1, 0, 1], [1.0, -2.0, 1.0], -1, 1) == 1.0;
    assert Weight([-1, 0, 1], [1.0, -2.0, 1.0], -1, 2) == 1.0;
  }
}
