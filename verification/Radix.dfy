/** Base-W digit arithmetic behind the trie: `i >> s & BP_MASK`, `next_multiple` and `capacity`. */
module Radix {
  type Bits = b: nat | 1 <= b witness 10

  /** Bits per trie level: a compile-time parameter of the program, left symbolic here. */
  const BP_BITS: Bits

  function Pow2(n: nat): (r: nat)
    ensures r >= 1
  {
    if n == 0 then 1 else 2 * Pow2(n - 1)
  }

  /** BP_WIDTH */
  const W: nat := Pow2(BP_BITS)

  /** `i >> s & BP_MASK` */
  function Slot(i: nat, s: nat): (k: nat)
    ensures k < W
  {
    (i / Pow2(s)) % W
  }

  /** How many indices lie below a node whose children are picked by the digit at shift `s`. */
  function Span(s: nat): (r: nat)
    ensures r >= 1
  {
    Pow2(s + BP_BITS)
  }

  /** `(i + m-1) & ~(m-1)`, for a power of two m */
  function NextMultiple(i: nat, m: nat): nat
    requires m > 0
  {
    (i + m - 1) / m * m
  }

  lemma WidthAtLeastTwo()
    ensures W >= 2
  {
  }

  lemma {:induction false} Pow2Add(a: nat, b: nat)
    ensures Pow2(a + b) == Pow2(a) * Pow2(b)
  {
    if a != 0 {
      Pow2Add(a - 1, b);
      assert a + b - 1 == (a - 1) + b;
      assert Pow2(a + b) == 2 * Pow2((a - 1) + b);
    }
  }

  lemma SpanIsWidthTimes(s: nat)
    ensures Span(s) == W * Pow2(s)
  {
    Pow2Add(BP_BITS, s);
    assert s + BP_BITS == BP_BITS + s;
  }

  lemma SpanStep(s: nat)
    requires s >= BP_BITS
    ensures Span(s - BP_BITS) == Pow2(s)
  {
  }

  lemma MulMono(a: int, b: int, c: nat)
    requires a <= b
    ensures a * c <= b * c
  {
    assert (b - a) * c >= 0;
  }

  lemma DivUnique(x: nat, m: nat, q: nat)
    requires m > 0 && q * m <= x < (q + 1) * m
    ensures x / m == q && x % m == x - q * m
  {
    var d := x / m;
    assert x == d * m + x % m;
    if d < q {
      MulMono(d + 1, q, m);
    } else if q < d {
      MulMono(q + 1, d, m);
    }
  }

  lemma MulAssoc(a: int, b: int, c: int)
    ensures a * (b * c) == (a * b) * c
  {
  }

  /** An index of an aligned block, written as block number and position. */
  lemma BlockDigits(q: nat, k: nat, w: nat, p: nat, i: nat)
    requires w > 0 && p > 0 && k < w
    requires (q * w + k) * p <= i < (q * w + k + 1) * p
    ensures (i / p) % w == k
  {
    DivUnique(i, p, q * w + k);
    assert (q + 1) * w == q * w + w;
    DivUnique(q * w + k, w, q);
  }

  lemma AlignedStart(lo: nat, s: nat) returns (q: nat)
    requires lo % Span(s) == 0
    ensures lo == q * W * Pow2(s)
  {
    SpanIsWidthTimes(s);
    q := lo / Span(s);
    MulAssoc(q, W, Pow2(s));
  }

  lemma SubBlock(q: nat, k: nat, w: nat, p: nat)
    ensures (q * w + k) * p == q * w * p + k * p
    ensures (q * w + k + 1) * p == q * w * p + k * p + p
  {
  }

  lemma SubBlockInside(k: nat, s: nat)
    requires k < W
    ensures 0 <= k * Pow2(s) && k * Pow2(s) + Pow2(s) <= Span(s)
  {
    SpanIsWidthTimes(s);
    var p := Pow2(s);
    assert k * p + p == (k + 1) * p;
    MulMono(k + 1, W, p);
    MulMono(0, k, p);
  }

  /** The digit at shift `s` is `k` exactly for the indices of sub-block `k`. */
  lemma SlotUnique(lo: nat, s: nat, k: nat, i: nat)
    requires lo % Span(s) == 0 && k < W
    requires lo + k * Pow2(s) <= i < lo + k * Pow2(s) + Pow2(s)
    ensures Slot(i, s) == k
    ensures lo <= i < lo + Span(s)
  {
    SubBlockInside(k, s);
    var q := AlignedStart(lo, s);
    var p, w := Pow2(s), W;
    SubBlock(q, k, w, p);
    BlockDigits(q, k, w, p, i);
  }

  lemma QuotientBelow(r: nat, w: nat, p: nat)
    requires p > 0 && r < w * p
    ensures r / p < w && r / p * p <= r < r / p * p + p
  {
    DivBounds(r, p);
    if r / p >= w { MulMono(w, r / p, p); assert false; }
  }

  lemma SubBlockOf(lo: nat, s: nat, i: nat) returns (k: nat)
    requires lo % Span(s) == 0 && lo <= i < lo + Span(s)
    ensures k < W && lo + k * Pow2(s) <= i < lo + k * Pow2(s) + Pow2(s)
  {
    SpanIsWidthTimes(s);
    k := (i - lo) / Pow2(s);
    QuotientBelow(i - lo, W, Pow2(s));
  }

  /** The digit at shift `s` picks, inside an aligned block, the sub-block that holds the index. */
  lemma SlotOf(lo: nat, s: nat, i: nat)
    requires lo % Span(s) == 0 && lo <= i < lo + Span(s)
    ensures lo + Slot(i, s) * Pow2(s) <= i < lo + Slot(i, s) * Pow2(s) + Pow2(s)
  {
    var k := SubBlockOf(lo, s, i);
    SlotUnique(lo, s, k, i);
  }

  lemma ChildAligned(lo: nat, s: nat, k: nat)
    requires lo % Span(s) == 0
    ensures (lo + k * Pow2(s)) % Pow2(s) == 0
  {
    var q := AlignedStart(lo, s);
    var p := Pow2(s);
    SubBlock(q, k, W, p);
    assert (q * W + k + 1) * p == (q * W + k) * p + p;
    DivUnique(lo + k * p, p, q * W + k);
  }

  lemma LeafOffset(lo: nat, i: nat)
    requires lo % Span(0) == 0 && lo <= i < lo + Span(0)
    ensures Span(0) == W && i == lo + i % W
  {
    SlotOf(lo, 0, i);
    assert Pow2(0) == 1;
    assert i / 1 == i;
  }

  /** Shift `t` is at or below shift `s`, a whole number of levels away. */
  predicate Levels(s: int, t: nat) {
    s >= t && (s - t) % BP_BITS == 0
  }

  lemma LevelDown(s: nat, t: nat)
    requires Levels(s, t) && s > t
    ensures s - BP_BITS >= t && Levels(s - BP_BITS, t)
  {
    var d := s - t;
    assert d == d / BP_BITS * BP_BITS;
    DivUnique2(d - BP_BITS, BP_BITS, d / BP_BITS - 1);
  }

  lemma DivUnique2(x: int, m: nat, q: int)
    requires m > 0 && x == q * m && x + m > 0
    ensures x >= 0 && x % m == 0
  {
    if q < 0 { MulMono(q, -1, m); assert false; }
    MulMono(0, q, m);
    DivUnique(x, m, q);
  }

  lemma DivDiv(i: nat, a: nat, b: nat)
    requires a > 0 && b > 0
    ensures a * b > 0 && i / (a * b) == i / a / b
  {
    MulMono(1, a, b);
    var x := i / a;
    var q := x / b;
    DivBounds(i, a);
    DivBounds(x, b);
    MulMono(q * b, x, a);
    MulMono(x + 1, (q + 1) * b, a);
    Swap(q, a, b);
    Swap(q + 1, a, b);
    DivUnique(i, a * b, q);
  }

  lemma DivBounds(i: nat, a: nat)
    requires a > 0
    ensures i / a * a <= i < (i / a + 1) * a
  {
  }

  lemma Swap(q: nat, a: nat, b: nat)
    ensures q * (a * b) == q * b * a
  {
  }

  /** Indices of one block at shift `t` share every digit above it. */
  lemma SlotAbove(i: nat, j: nat, s: nat, t: nat)
    requires s >= t + BP_BITS && i / Span(t) == j / Span(t)
    ensures Slot(i, s) == Slot(j, s)
  {
    var d := s - (t + BP_BITS);
    Pow2Add(t + BP_BITS, d);
    DivDiv(i, Span(t), Pow2(d));
    DivDiv(j, Span(t), Pow2(d));
  }

  lemma BlockZero()
    ensures Span(0) == W && 0 % Span(0) == 0 && Levels(0, 0)
  {
  }

  /** The first index of an aligned block has digit 0. */
  lemma FirstSlot(i: nat, s: nat)
    requires i % Span(s) == 0
    ensures Slot(i, s) == 0 && i + Slot(i, s) * Pow2(s) == i
  {
    WidthAtLeastTwo();
    SlotUnique(i, s, 0, i);
  }

  function Pow(b: nat, e: nat): nat {
    if e == 0 then 1 else b * Pow(b, e - 1)
  }

  /** `std::pow(BP_WIDTH, calc_depth())`, with `calc_depth() == shift / BP_BITS + 1` */
  function Capacity(shift: nat): nat {
    Pow(W, shift / BP_BITS + 1)
  }

  /** The capacity of a trie is the number of indices below its root. */
  lemma {:induction false} CapacityIsSpan(shift: nat)
    requires Levels(shift, 0)
    ensures Capacity(shift) == Span(shift)
  {
    if shift > 0 {
      LevelDown(shift, 0);
      CapacityIsSpan(shift - BP_BITS);
      DivUnique(shift, BP_BITS, shift / BP_BITS);
      DivUnique(shift - BP_BITS, BP_BITS, shift / BP_BITS - 1);
      SpanIsWidthTimes(shift);
      SpanStep(shift);
    } else {
      assert Pow(W, 1) == W * Pow(W, 0);
    }
  }

  lemma LevelUp(s: nat)
    requires Levels(s, 0)
    ensures Levels(s + BP_BITS, 0) && Levels(s + BP_BITS, s)
  {
    DivUnique(s, BP_BITS, s / BP_BITS);
    DivUnique(s + BP_BITS, BP_BITS, s / BP_BITS + 1);
    DivUnique(BP_BITS, BP_BITS, 1);
  }

  lemma LevelsTrans(s: nat, t: nat, u: nat)
    requires Levels(s, t) && Levels(t, u)
    ensures Levels(s, u)
  {
    var p, q := (s - t) / BP_BITS, (t - u) / BP_BITS;
    assert s - u == (p + q) * BP_BITS;
    DivUnique(s - u, BP_BITS, p + q);
  }

  lemma NextDepth(shift: nat, t: nat, d: int)
    requires Levels(t, 0) && t > 0 && Levels(shift, t) && t + d * BP_BITS == shift
    ensures t >= BP_BITS && Levels(t - BP_BITS, 0) && Levels(shift, t - BP_BITS)
    ensures t - BP_BITS + (d + 1) * BP_BITS == shift
    ensures Span(t) / W == Span(t - BP_BITS)
  {
    LevelDown(t, 0);
    LevelUp(t - BP_BITS);
    LevelsTrans(shift, t, t - BP_BITS);
    SpanIsWidthTimes(t);
    DivUnique(Span(t), W, Pow2(t));
    assert (d + 1) * BP_BITS == d * BP_BITS + BP_BITS;
  }

  /** The search of `push_back` for the depth at which a new node must be linked. */
  method DepthToInsert(sz: nat, shift: nat) returns (depth_ins: int, ghost t: nat)
    requires Levels(shift, 0) && sz % W == 0
    ensures depth_ins >= -1 && Levels(t, 0) && Levels(shift, t) && t + (depth_ins + 1) * BP_BITS == shift
    ensures sz % Span(t) == 0
    ensures depth_ins >= 0 ==> sz % Span(t + BP_BITS) != 0 && Levels(shift, t + BP_BITS)
  {
    CapacityIsSpan(shift);
    BlockZero();
    var depth_cap := Capacity(shift);
    depth_ins, t := -1, shift;
    while sz % depth_cap != 0
      invariant depth_ins >= -1 && Levels(t, 0) && Levels(shift, t) && t + (depth_ins + 1) * BP_BITS == shift
      invariant depth_cap == Span(t)
      invariant depth_ins >= 0 ==> sz % Span(t + BP_BITS) != 0 && Levels(shift, t + BP_BITS)
      decreases t
    {
      NextDepth(shift, t, depth_ins + 1);
      depth_ins := depth_ins + 1;
      depth_cap := depth_cap / W;
      t := t - BP_BITS;
    }
  }

  lemma SpanDivides(s: nat, t: nat)
    requires s >= t
    ensures Span(s) % Span(t) == 0
  {
    Pow2Add(t + BP_BITS, s - t);
    assert Span(s) == Pow2(s - t) * Span(t) + 0;
    DivUnique(Span(s), Span(t), Pow2(s - t));
  }

  lemma AlignedApart(a: nat, b: nat, p: nat)
    requires p > 0 && a % p == 0 && b % p == 0 && a <= b < a + p
    ensures a == b
  {
    DivUnique(b, p, a / p);
  }

  lemma BlockStart(i: nat, p: nat) returns (j: nat)
    requires p > 0
    ensures j == i - i % p && j % p == 0 && j / p == i / p && j <= i < j + p
  {
    j := i / p * p;
    DivUnique(j, p, i / p);
  }

  /** A full trie grows at slot 1 of its new root. */
  lemma FullTip(sz: nat, s: nat)
    requires sz % Span(s) == 0 && sz <= Span(s)
    ensures Slot(sz, s + BP_BITS) * Pow2(s + BP_BITS) == sz < Span(s + BP_BITS)
  {
    WidthAtLeastTwo();
    SpanIsWidthTimes(s + BP_BITS);
    MulMono(2, W, Span(s));
    var k := if sz == 0 then 0 else 1;
    if sz != 0 { MultipleBelow(sz, Span(s)); }
    SlotUnique(0, s + BP_BITS, k, sz);
  }

  lemma MultipleBelow(x: nat, p: nat)
    requires p > 0 && x % p == 0 && 0 < x <= p
    ensures x == p
  {
    if x < p { DivUnique(x, p, 0); }
  }

  lemma PredDiv(i: nat, w: nat)
    requires w > 0 && i % w != 0
    ensures i > 0 && (i - 1) / w == i / w
  {
    var q := i / w;
    DivBounds(i, w);
    assert i == q * w + i % w;
    DivUnique(i - 1, w, q);
  }

  /** Inside a leaf, the next index is in the same block and below any multiple of W above it. */
  lemma InnerIndex(i: nat, top: nat)
    requires i % W != 0 && i <= top && top % W == 0
    ensures i > 0 && (i - 1) / W == i / W && i < top
  {
    PredDiv(i, W);
  }

  lemma MultipleIsZero(i: nat)
    requires i % W == 0 && i < W
    ensures i == 0
  {
    DivUnique(i, W, 0);
  }

  // ---- rounding up and down to multiples of a power of W ----

  lemma UpIs(i: nat, m: nat)
    requires m > 0
    ensures NextMultiple(i, m) % m == 0 && i <= NextMultiple(i, m) < i + m
    ensures i % m == 0 ==> NextMultiple(i, m) == i
    ensures i % m != 0 ==> NextMultiple(i, m) == i - i % m + m
  {
    var q, r := i / m, i % m;
    DivBounds(i, m);
    assert i == q * m + r;
    assert (q + 1) * m == q * m + m && (q + 2) * m == q * m + 2 * m;
    var u := if r == 0 then q else q + 1;
    DivUnique(i + m - 1, m, u);
    DivUnique(u * m, m, u);
  }

  /** `x = next_multiple(i, m); if (x != i) x -= m` */
  function Down(i: nat, m: nat): (r: nat)
    requires m > 0
    ensures r == i - i % m
  {
    UpIs(i, m);
    DivBounds(i, m);
    var x := NextMultiple(i, m);
    if x != i then x - m else x
  }

  lemma DownIs(i: nat, m: nat)
    requires m > 0
    ensures Down(i, m) % m == 0 && Down(i, m) <= i < Down(i, m) + m
  {
    var j := BlockStart(i, m);
  }

  lemma MultipleOfMultiple(i: nat, m: nat, w: nat)
    requires m > 0 && w > 0 && m * w > 0 && i % (m * w) == 0
    ensures i % m == 0
  {
    var q := i / (m * w);
    assert q * (m * w) == (q * w) * m;
    DivUnique(i, m, q * w);
  }

  lemma AlignedBelow(a: nat, b: nat, m: nat)
    requires m > 0 && a % m == 0 && b % m == 0 && a < b
    ensures a + m <= b
  {
    if b < a + m { AlignedApart(a, b, m); }
  }

  /** Rounding up in two steps is rounding up in one. */
  lemma UpUp(i: nat, m: nat, w: nat)
    requires m > 0 && w > 0
    ensures m * w > 0 && NextMultiple(NextMultiple(i, m), m * w) == NextMultiple(i, m * w)
  {
    MulMono(1, m, w);
    var x, y, z := NextMultiple(i, m), NextMultiple(NextMultiple(i, m), m * w), NextMultiple(i, m * w);
    UpIs(i, m);
    UpIs(x, m * w);
    UpIs(i, m * w);
    MultipleOfMultiple(z, m, w);
    if z < x { AlignedBelow(z, x, m); assert false; }
    if y < z { AlignedBelow(y, z, m * w); assert false; }
    if z < y { AlignedBelow(z, y, m * w); assert false; }
  }

  // ---- comparing two indices digit by digit ----

  /** `e` and `j` have the same digits from shift `s` down to just above shift `stop`. */
  predicate SameDigits(e: nat, j: nat, s: nat, stop: nat) {
    s <= stop || s < BP_BITS || (Slot(e, s) == Slot(j, s) && SameDigits(e, j, s - BP_BITS, stop))
  }

  lemma {:induction false} SameDigitsDown(e: nat, j: nat, s: nat, stop: nat)
    requires SameDigits(e, j, s, stop) && stop >= BP_BITS && Levels(s, stop) && Slot(e, stop) == Slot(j, stop)
    ensures SameDigits(e, j, s, stop - BP_BITS)
  {
    if s > stop {
      LevelDown(s, stop);
      SameDigitsDown(e, j, s - BP_BITS, stop);
    }
  }

  lemma {:induction false} SameDigitsLess(e: nat, j: nat, s: nat, stop: nat, stop': nat)
    requires SameDigits(e, j, s, stop) && stop <= stop'
    ensures SameDigits(e, j, s, stop')
  {
    if s > stop' && s >= BP_BITS {
      SameDigitsLess(e, j, s - BP_BITS, stop, stop');
    }
  }

  lemma {:induction false} SameBlockDigits(e: nat, j: nat, s: nat, stop: nat)
    requires Levels(s, stop) && e / Span(stop) == j / Span(stop)
    ensures SameDigits(e, j, s, stop)
  {
    if s > stop {
      LevelDown(s, stop);
      SlotAbove(e, j, s, stop);
      SameBlockDigits(e, j, s - BP_BITS, stop);
    }
  }

  /** A block number at one level and a digit give the block number one level down. */
  lemma BlockAndDigit(i: nat, s: nat)
    ensures i / Pow2(s) == i / Span(s) * W + Slot(i, s)
  {
    hide Pow2;
    SpanIsWidthTimes(s);
    DivDiv(i, Pow2(s), W);
    assert Pow2(s) * W == W * Pow2(s);
  }

  lemma {:induction false} DigitsBlock(a: nat, b: nat, s: nat, stop: nat)
    requires Levels(s, stop) && SameDigits(a, b, s, stop) && a / Span(s) == b / Span(s)
    ensures a / Span(stop) == b / Span(stop)
  {
    if s > stop {
      LevelDown(s, stop);
      BlockAndDigit(a, s);
      BlockAndDigit(b, s);
      SpanStep(s);
      DigitsBlock(a, b, s - BP_BITS, stop);
    }
  }

  lemma BelowSpan(i: nat, p: nat)
    requires p > 0
    ensures i < p <==> i / p == 0
  {
    DivBounds(i, p);
    if i < p { DivUnique(i, p, 0); }
  }

  lemma ZeroDigit(i: nat, q: nat, s: nat)
    requires i == q * W * Pow2(s)
    ensures Slot(i, s) == 0
  {
    DivUnique(i, Pow2(s), q * W);
    DivUnique(q * W, W, q);
  }

  /** The digits of the capacity itself are all zero. */
  lemma CapacityDigits(shift: nat, s: nat)
    requires s <= shift
    ensures Slot(Span(shift), s) == 0 && Slot(0, s) == 0
  {
    SpanIsWidthTimes(shift);
    Pow2Add(shift - s, s);
    assert shift - s + s == shift;
    var d := Pow2(shift - s);
    assert W * (d * Pow2(s)) == d * W * Pow2(s);
    ZeroDigit(Span(shift), d, s);
    ZeroDigit(0, 0, s);
  }

  lemma {:induction false} WrappedDigits(e: nat, shift: nat, s: nat, stop: nat)
    requires s <= shift
    ensures SameDigits(e, Span(shift), s, stop) == SameDigits(e, 0, s, stop)
    ensures SameDigits(Span(shift), e, s, stop) == SameDigits(0, e, s, stop)
  {
    if s > stop && s >= BP_BITS {
      CapacityDigits(shift, s);
      WrappedDigits(e, shift, s - BP_BITS, stop);
    }
  }

  // ---- the arithmetic of the phases of `assign` ----

  /** `std::pow(BP_WIDTH, last_s / BP_BITS)` */
  lemma {:induction false} PowIsPow2(s: nat)
    requires Levels(s, 0)
    ensures Pow(W, s / BP_BITS) == Pow2(s)
  {
    if s > 0 {
      LevelDown(s, 0);
      CapacityIsSpan(s - BP_BITS);
      DivUnique(s, BP_BITS, s / BP_BITS);
      DivUnique(s - BP_BITS, BP_BITS, s / BP_BITS - 1);
    }
  }

  /** A position in a block, as the start of the block and a slot. */
  lemma SlotStart(i: nat, s: nat)
    requires i % Pow2(s) == 0
    ensures i == i - i % Span(s) + Slot(i, s) * Pow2(s)
  {
    var start := BlockStart(i, Span(s));
    SlotOf(start, s, i);
    ChildAligned(start, s, Slot(i, s));
    AlignedApart(start + Slot(i, s) * Pow2(s), i, Pow2(s));
  }

  lemma PrevInBlock(i: nat, p: nat, e: nat)
    requires p > 0 && i - i % p <= e < i - i % p + p
    ensures e / p == i / p
  {
    var j := BlockStart(i, p);
    var q := i / p;
    DivBounds(i, p);
    assert j == q * p by { DivUnique(j, p, q); }
    assert (q + 1) * p == q * p + p;
    DivUnique(e, p, q);
  }

  lemma ClimbEnd(s: nat, ai: nat, ar: nat)
    requires s >= BP_BITS && ai % Pow2(s) == 0 && ar == NextMultiple(ai, Span(s)) && ai != ar
    ensures ai < ar && ai == ai - ai % Span(s) + Slot(ai, s) * Pow2(s)
    ensures ar == ai - ai % Span(s) + W * Pow2(s) && (ar - 1) / Span(s) == ai / Span(s)
  {
    SpanIsWidthTimes(s);
    UpIs(ai, Span(s));
    SlotStart(ai, s);
    PrevInBlock(ai, Span(s), ar - 1);
  }

  lemma UpSpan(a: nat, s: nat)
    ensures NextMultiple(NextMultiple(a, Pow2(s)), Span(s)) == NextMultiple(a, Span(s))
  {
    SpanIsWidthTimes(s);
    assert Pow2(s) * W == W * Pow2(s);
    UpUp(a, Pow2(s), W);
  }

  /** One step up: from `ai`, a multiple of 2^s, to the end of its block at shift `s`. */
  lemma ClimbStep(a: nat, s: nat, ai: nat, ar: nat, last: nat)
    requires s >= BP_BITS && s < last && Levels(last, s) && ai == NextMultiple(a, Pow2(s)) && ar == NextMultiple(ai, Span(s))
    ensures ar == NextMultiple(a, Span(s)) && ar <= a - a % Pow2(last) + Pow2(last)
    ensures ai != ar ==> ai < ar && ai == ai - ai % Span(s) + Slot(ai, s) * Pow2(s)
    ensures ai != ar ==> ar == ai - ai % Span(s) + W * Pow2(s) && (ar - 1) / Span(s) == ai / Span(s)
  {
    UpSpan(a, s);
    UpIs(a, Pow2(s));
    LevelDown(last, s);
    UpBelow(a, Span(s), s + BP_BITS, last);
    if ai != ar { ClimbEnd(s, ai, ar); }
  }

  /** Rounding up to a small power stays inside the block of a larger one. */
  lemma UpBelow(a: nat, p: nat, s: nat, last: nat)
    requires s <= last && p == Pow2(s)
    ensures NextMultiple(a, p) <= a - a % Pow2(last) + Pow2(last)
  {
    UpIs(a, p);
    var j := BlockStart(a, Pow2(last));
    var d := last - s;
    Pow2Add(s, d);
    assert s + d == last;
    assert Pow2(d) * p == p * Pow2(d);
    NextMultipleStart(j, Pow2(last));
    MultipleOfMultiple(j + Pow2(last), p, Pow2(d));
    if j + Pow2(last) < NextMultiple(a, p) { AlignedBelow(j + Pow2(last), NextMultiple(a, p), p); assert false; }
  }

  lemma MultipleIs(k: nat, p: nat)
    requires p > 0
    ensures k * p % p == 0 && k * p / p == k
  {
    DivUnique(k * p, p, k);
  }

  lemma NextMultipleStart(j: nat, p: nat)
    requires p > 0 && j % p == 0
    ensures (j + p) % p == 0
  {
    var q := j / p;
    assert (q + 1) * p == q * p + p;
    DivUnique(j + p, p, q + 1);
  }

  /** One step down: from `bi`, a multiple of 2^(s + BP_BITS), to the last multiple of 2^s up to `b`. */
  lemma DescendStep(b: nat, s: nat, bi: nat, br: nat)
    requires s >= BP_BITS && bi == Down(b, Span(s)) && br == Down(b, Pow2(s))
    ensures bi <= br <= b && bi % Span(s) == 0 && Slot(bi, s) == 0 && bi == bi + Slot(bi, s) * Pow2(s)
    ensures bi != br ==> br == bi + Slot(br, s) * Pow2(s) && Slot(br, s) != 0 && (br - 1) / Span(s) == bi / Span(s)
  {
    hide Slot, Span, Pow2, Down;
    SpanIsWidthTimes(s);
    DownIs(b, Span(s));
    DownIs(b, Pow2(s));
    assert W * Pow2(s) == Pow2(s) * W;
    MultipleOfMultiple(bi, Pow2(s), W);
    FirstSlot(bi, s);
    if br < bi { AlignedBelow(br, bi, Pow2(s)); assert false; }
    if bi != br {
      SlotStart(br, s);
      SameStart(bi, br, Span(s));
      PrevInBlock(bi, Span(s), br - 1);
    }
  }

  lemma SameStart(j: nat, i: nat, p: nat)
    requires p > 0 && j % p == 0 && j <= i < j + p
    ensures i - i % p == j
  {
    var q := j / p;
    assert (q + 1) * p == q * p + p;
    DivUnique(i, p, q);
  }
}
