/** How the workers share the indices of a vector. */
module Partition {
  import opened Radix

  type Workers = p: nat | 1 <= p witness 4

  /** HWCONC: the number of worker threads, a compile-time parameter. */
  const HWCONC: Workers

  /** `std::ceil(static_cast<double>(sz)/HWCONC)`, exact */
  function Chunk(sz: nat): nat {
    (sz + HWCONC - 1) / HWCONC
  }

  /** `partition(p, sz).first` */
  function Start(p: nat, sz: nat): nat {
    Chunk(sz) * p
  }

  /** `partition(p, sz).second` */
  function End(p: nat, sz: nat): (e: nat)
    ensures e <= sz
  {
    if Chunk(sz) * (p + 1) < sz then Chunk(sz) * (p + 1) else sz
  }

  lemma ChunkIs(sz: nat)
    ensures Chunk(sz) * HWCONC >= sz && (sz > 0 ==> Chunk(sz) > 0)
    ensures sz > 0 ==> (Chunk(sz) - 1) * HWCONC < sz
  {
    var n: nat := HWCONC;
    var q, r := (sz + n - 1) / n, (sz + n - 1) % n;
    assert sz + n - 1 == q * n + r;
    assert (q - 1) * n == q * n - n;
    if sz > 0 && q <= 0 { MulMono(q, 0, n); }
  }

  lemma DivIs(i: nat, c: nat, q: nat)
    requires c > 0
    ensures q * c <= i < q * c + c <==> i / c == q
  {
    var d := i / c;
    assert i == d * c + i % c;
    if d < q { MulMono(d + 1, q, c); }
    if q < d { MulMono(q + 1, d, c); }
  }

  /** The partitions tile the indices: each belongs to exactly one worker. */
  lemma Tiles(i: nat, sz: nat, p: nat)
    requires i < sz && p < HWCONC
    ensures Chunk(sz) > 0 && i / Chunk(sz) < HWCONC
    ensures Start(p, sz) <= i < End(p, sz) <==> p == i / Chunk(sz)
  {
    ChunkIs(sz);
    var c := Chunk(sz);
    DivIs(i, c, p);
    assert c * (p + 1) == p * c + c;
    var q := i / c;
    DivIs(i, c, q);
    if q >= HWCONC { MulMono(HWCONC, q, c); }
  }

  lemma WorkerFor(i: nat, sz: nat) returns (p: nat)
    requires i < sz
    ensures p < HWCONC && Start(p, sz) <= i < End(p, sz)
  {
    Tiles(i, sz, 0);
    p := i / Chunk(sz);
    Tiles(i, sz, p);
  }

  /** The worker whose share index `i` is in. */
  ghost function WorkerAt(i: nat, sz: nat): nat {
    if Chunk(sz) == 0 then 0 else i / Chunk(sz)
  }

  lemma InShare(i: nat, sz: nat, p: nat)
    requires i < sz && p < HWCONC
    ensures WorkerAt(i, sz) < HWCONC
    ensures Start(p, sz) <= i < End(p, sz) <==> p == WorkerAt(i, sz)
  {
    Tiles(i, sz, p);
  }

  /** Every partition but the trailing ones is a full chunk; a trailing one may start behind the end. */
  lemma Shape(p: nat, sz: nat)
    requires p < HWCONC
    ensures Start(p, sz) < sz ==> Start(p, sz) < End(p, sz)
    ensures Start(p, sz) >= sz ==> End(p, sz) == sz
    ensures p == 0 ==> Start(p, sz) == 0
    ensures p + 1 == HWCONC ==> End(p, sz) == sz
    ensures p + 1 < HWCONC && Start(p + 1, sz) <= sz ==> End(p, sz) == Start(p + 1, sz)
  {
    ChunkIs(sz);
    var c := Chunk(sz);
    assert c * (p + 1) == c * p + c;
  }

  /** No worker is left without work if and only if the last one is not. */
  lemma AllNonempty(sz: nat)
    ensures (forall p: nat | p < HWCONC :: Start(p, sz) < End(p, sz)) <==> (HWCONC - 1) * Chunk(sz) < sz
  {
    var last: nat := HWCONC - 1;
    Shape(last, sz);
    if last * Chunk(sz) < sz {
      forall p: nat | p < HWCONC
        ensures Start(p, sz) < End(p, sz)
      {
        MulMono(p, last, Chunk(sz));
        Shape(p, sz);
      }
    } else {
      assert !(Start(last, sz) < End(last, sz));
    }
  }
}
