/** SpookyHashV2: hashing a message piece by piece. The mixing functions are parameters. */
module Spooky {
  import opened Radix

  /** sc_blockSize, sc_bufSize */
  const BLOCK: nat := 96
  const BUFFER: nat := 192

  type Byte = b: nat | b < 256
  type Word = nat
  type Vars = s: seq<Word> | |s| == 12 witness seq(12, _ => 0)

  /** Mix and End on the twelve state words and one block, Short on a short message; sc_const. */
  datatype Mixer = Mixer(mix: (Vars, seq<Byte>) -> Vars, end: (Vars, seq<Byte>) -> (Word, Word),
                         short: (seq<Byte>, Word, Word) -> (Word, Word), sc: Word)

  /** The state words before the first block. */
  function Start(x: Mixer, s1: Word, s2: Word): Vars {
    [s1, s2, x.sc, s1, s2, x.sc, s1, s2, x.sc, s1, s2, x.sc]
  }

  /** The state words after the whole blocks of m. */
  function Mixed(x: Mixer, h: Vars, m: seq<Byte>): Vars {
    if |m| < BLOCK then h else (x.mix)(Mixed(x, h, m[..|m| - BLOCK]), m[|m| - BLOCK..])
  }

  /** The last partial block, filled with zeros, its length in the last byte. */
  function Padded(rest: seq<Byte>): (b: seq<Byte>)
    requires |rest| < BLOCK
    ensures |b| == BLOCK
  {
    rest + seq(BLOCK - 1 - |rest|, _ => 0) + [|rest|]
  }

  lemma PaddedByte(rest: seq<Byte>, i: nat)
    requires |rest| < BLOCK && i < BLOCK
    ensures Padded(rest)[i] == if i < |rest| then rest[i] else if i < BLOCK - 1 then 0 else |rest|
  {
  }

  /** How much of a message of n bytes is whole blocks. */
  function Whole(n: nat): (w: nat)
    ensures w <= n < w + BLOCK && w % BLOCK == 0
  {
    n / BLOCK * BLOCK
  }

  /** The hash of a message in one call. */
  function Hash(x: Mixer, m: seq<Byte>, s1: Word, s2: Word): (Word, Word) {
    if |m| < BUFFER then (x.short)(m, s1, s2)
    else (x.end)(Mixed(x, Start(x, s1, s2), m[..Whole(|m|)]), Padded(m[Whole(|m|)..]))
  }

  lemma MixedNext(x: Mixer, h: Vars, m: seq<Byte>, i: nat)
    requires i + BLOCK <= |m|
    ensures Mixed(x, h, m[..i + BLOCK]) == (x.mix)(Mixed(x, h, m[..i]), m[i..i + BLOCK])
  {
    var n := m[..i + BLOCK];
    assert n[..|n| - BLOCK] == m[..i] && n[|n| - BLOCK..] == m[i..i + BLOCK];
  }

  lemma MixedNone(x: Mixer, h: Vars)
    ensures Mixed(x, h, []) == h
  {
  }

  /** Spelled out for a message of two whole blocks: both seeds and the constant four times over, one block after the
      other, and a last block of zeros. */
  lemma TwoBlocks(x: Mixer, m: seq<Byte>, s1: Word, s2: Word)
    requires |m| == 192
    ensures var h: Vars := [s1, s2, x.sc, s1, s2, x.sc, s1, s2, x.sc, s1, s2, x.sc];
            Hash(x, m, s1, s2) == (x.end)((x.mix)((x.mix)(h, m[..96]), m[96..]), seq(96, _ => 0))
  {
    var h: Vars := [s1, s2, x.sc, s1, s2, x.sc, s1, s2, x.sc, s1, s2, x.sc];
    assert Start(x, s1, s2) == h;
    MixedNone(x, h);
    assert m[..0] == [];
    MixedNext(x, h, m, 0);
    assert m[0..96] == m[..96];
    MixedNext(x, h, m, 96);
    assert m[..192] == m && m[96..192] == m[96..];
    assert Padded(m[192..]) == seq(96, _ => 0);
  }

  lemma WholeIs(n: nat, w: nat)
    requires w % BLOCK == 0 && w <= n < w + BLOCK
    ensures w == Whole(n)
  {
    AlignedApart(if w <= Whole(n) then w else Whole(n), if w <= Whole(n) then Whole(n) else w, BLOCK);
  }

  /** `Hash128` */
  method Hash128(x: Mixer, message: seq<Byte>, s1: Word, s2: Word) returns (h1: Word, h2: Word)
    ensures (h1, h2) == Hash(x, message, s1, s2)
  {
    if |message| < BUFFER {
      var r := (x.short)(message, s1, s2);
      return r.0, r.1;
    }
    var h := Start(x, s1, s2);
    var end := |message| / BLOCK * BLOCK;
    assert end == Whole(|message|);
    var p := 0;
    assert message[..0] == [];
    while p < end
      invariant p <= end && p % BLOCK == 0 && h == Mixed(x, Start(x, s1, s2), message[..p])
    {
      MixedNext(x, Start(x, s1, s2), message, p);
      StepInside(p, end);
      h := (x.mix)(h, message[p..p + BLOCK]);
      p := p + BLOCK;
    }
    var remainder := |message| - end;
    var buf := Fill(message[end..], remainder);
    assert message[end..][..remainder] == message[end..];
    var r := (x.end)(h, buf);
    h1, h2 := r.0, r.1;
  }

  lemma StepInside(p: nat, end: nat)
    requires p < end && p % BLOCK == 0 && end % BLOCK == 0
    ensures p + BLOCK <= end && (p + BLOCK) % BLOCK == 0
  {
    AlignedBelow(p, end, BLOCK);
  }

  class SpookyHashV2 {
    const x: Mixer
    var data: array<Byte>
    var state: Vars
    var length: nat
    var remainder: nat
    /** For the proof: the seeds, and all fragments so far. */
    ghost var seed1: Word
    ghost var seed2: Word
    ghost var message: seq<Byte>

    /** What has been hashed into the state, and what waits in the buffer. */
    ghost predicate Valid()
      reads this, data
    {
      && data.Length == BUFFER && length == |message| && remainder < BUFFER && remainder <= length
      && data[..remainder] == message[length - remainder..]
      && if length < BUFFER then remainder == length && state[0] == seed1 && state[1] == seed2
         else (length - remainder) % BLOCK == 0 && state == Mixed(x, Start(x, seed1, seed2), message[..length - remainder])
    }

    /** `Init` */
    constructor (x: Mixer, s1: Word, s2: Word)
      ensures Valid() && message == [] && seed1 == s1 && seed2 == s2 && this.x == x && fresh(data)
    {
      this.x := x;
      data := new Byte[BUFFER](_ => 0);
      state := [s1, s2] + seq(10, _ => 0);
      length, remainder := 0, 0;
      seed1, seed2, message := s1, s2, [];
    }

    /** `memcpy(m_data + at, bytes, |bytes|)` */
    method Stash(at: nat, bytes: seq<Byte>)
      requires data.Length == BUFFER && at + |bytes| <= BUFFER
      modifies data
      ensures data[..at] == old(data[..at]) && data[at..at + |bytes|] == bytes
    {
      for i := 0 to |bytes|
        invariant data[..at] == old(data[..at]) && forall j | 0 <= j < i :: data[at + j] == bytes[j]
      {
        data[at + i] := bytes[i];
      }
    }

    /** `Update` */
    method Update(fragment: seq<Byte>, aligned: bool)
      requires Valid()
      modifies this, data
      ensures Valid() && message == old(message) + fragment && seed1 == old(seed1) && seed2 == old(seed2) && data == old(data)
    {
      hide Mixed, Start, Whole, Padded;
      var newLength := |fragment| + remainder;
      if newLength < BUFFER {
        Short(fragment);
        return;
      }
      var h := if length < BUFFER then Start(x, state[0], state[1]) else state;
      ghost var all := message + fragment;
      ghost var done := length - remainder;
      Resumes(fragment);
      length := |fragment| + length;
      var from := 0;
      if remainder != 0 {
        var prefix := BUFFER - remainder;
        Joins(message, fragment, done, remainder);
        BlockLater(done);
        BlockLater(done + BLOCK);
        h := MixBuffer(fragment[..prefix], h, all, done);
        from := prefix;
      }
      h := MixRest(fragment, from, h, all, aligned);
      state, message := h, all;
    }

    /** The state words with which mixing goes on. */
    lemma Resumes(fragment: seq<Byte>)
      requires Valid()
      ensures (if length < BUFFER then Start(x, state[0], state[1]) else state)
              == Mixed(x, Start(x, seed1, seed2), (message + fragment)[..length - remainder])
    {
      hide Mixed, Start;
      MixedNone(x, Start(x, seed1, seed2));
      assert (message + fragment)[..length - remainder] == message[..length - remainder];
    }

    /** A fragment that does not fill the buffer. */
    method Short(fragment: seq<Byte>)
      requires Valid() && |fragment| + remainder < BUFFER
      modifies this, data
      ensures Valid() && message == old(message) + fragment && seed1 == old(seed1) && seed2 == old(seed2) && data == old(data)
    {
      hide Mixed, Start;
      ghost var was := length - remainder;
      Stash(remainder, fragment);
      message := message + fragment;
      assert data[..remainder + |fragment|] == data[..remainder] + data[remainder..remainder + |fragment|];
      assert message[was..] == old(message)[was..] + fragment;
      assert message[..was] == old(message)[..was];
      length := |fragment| + length;
      remainder := |fragment| + remainder;
    }

    /** The buffer is filled up and both its blocks are mixed in. */
    method MixBuffer(prefix: seq<Byte>, h0: Vars, ghost all: seq<Byte>, ghost done: nat) returns (h: Vars)
      requires data.Length == BUFFER && 0 < remainder < BUFFER && |prefix| == BUFFER - remainder
      requires done + BUFFER <= |all| && all[done..done + BUFFER] == data[..remainder] + prefix && |all| >= done
      requires h0 == Mixed(x, Start(x, seed1, seed2), all[..done])
      modifies data
      ensures h == Mixed(x, Start(x, seed1, seed2), all[..done + BUFFER])
    {
      Stash(remainder, prefix);
      assert data[..] == data[..remainder] + data[remainder..BUFFER];
      assert data[..BLOCK] == all[done..done + BLOCK] && data[BLOCK..BUFFER] == all[done + BLOCK..done + BUFFER];
      MixedNext(x, Start(x, seed1, seed2), all, done);
      MixedNext(x, Start(x, seed1, seed2), all, done + BLOCK);
      h := (x.mix)(h0, data[..BLOCK]);
      h := (x.mix)(h, data[BLOCK..BUFFER]);
    }

    /** One block, mixed in from where it lies or, where that is not aligned, through the buffer. */
    method MixBlock(block: seq<Byte>, h0: Vars, ghost all: seq<Byte>, ghost at: nat, aligned: bool) returns (h: Vars)
      requires data.Length == BUFFER && |block| == BLOCK && at + BLOCK <= |all| && all[at..at + BLOCK] == block
      requires h0 == Mixed(x, Start(x, seed1, seed2), all[..at])
      modifies data
      ensures h == Mixed(x, Start(x, seed1, seed2), all[..at + BLOCK])
    {
      MixedNext(x, Start(x, seed1, seed2), all, at);
      if aligned {
        h := (x.mix)(h0, block);
      } else {
        Stash(0, block);
        h := (x.mix)(h0, data[0..BLOCK]);
      }
    }

    /** The whole blocks of what is left of the fragment; the rest of it goes into the buffer. */
    method MixRest(fragment: seq<Byte>, from: nat, h0: Vars, ghost all: seq<Byte>, aligned: bool) returns (h: Vars)
      requires data.Length == BUFFER && from <= |fragment| <= |all| == length && all[|all| - |fragment|..] == fragment
      requires (|all| - |fragment| + from) % BLOCK == 0
      requires h0 == Mixed(x, Start(x, seed1, seed2), all[..|all| - |fragment| + from])
      modifies this`remainder, data
      ensures remainder < BLOCK && remainder <= length && (length - remainder) % BLOCK == 0
      ensures data[..remainder] == all[length - remainder..] && h == Mixed(x, Start(x, seed1, seed2), all[..length - remainder])
    {
      hide Mixed, Start, Whole;
      ghost var base := |all| - |fragment|;
      var end := from + Whole(|fragment| - from);
      h := h0;
      var p := from;
      WholeSum(base + from, Whole(|fragment| - from));
      while p < end
        invariant from <= p <= end && (base + p) % BLOCK == 0 && (base + end) % BLOCK == 0
        invariant h == Mixed(x, Start(x, seed1, seed2), all[..base + p])
      {
        StepInside(base + p, base + end);
        assert fragment[p..p + BLOCK] == all[base + p..base + p + BLOCK];
        h := MixBlock(fragment[p..p + BLOCK], h, all, base + p, aligned);
        p := p + BLOCK;
      }
      remainder := |fragment| - end;
      Stash(0, fragment[end..]);
      assert fragment[end..] == all[base + end..];
    }

    /** `Final` */
    method Final() returns (h1: Word, h2: Word)
      requires Valid()
      ensures (h1, h2) == Hash(x, message, seed1, seed2)
    {
      if length < BUFFER {
        assert data[..length] == message;
        var r := (x.short)(data[..length], state[0], state[1]);
        return r.0, r.1;
      }
      h1, h2 := FinalLong();
    }

    method FinalLong() returns (h1: Word, h2: Word)
      requires Valid() && length >= BUFFER
      ensures (h1, h2) == (x.end)(Mixed(x, Start(x, seed1, seed2), message[..Whole(length)]), Padded(message[Whole(length)..]))
    {
      hide Mixed, Start, Whole, Padded;
      var h, buf, rem := state, data[..], remainder;
      ghost var at := length - remainder;
      assert buf[..rem] == message[at..];
      if rem >= BLOCK {
        MixedNext(x, Start(x, seed1, seed2), message, at);
        assert data[..BLOCK] == message[at..at + BLOCK];
        h := (x.mix)(h, buf[..BLOCK]);
        buf := buf[BLOCK..];
        rem := rem - BLOCK;
        assert buf[..rem] == message[length - rem..];
      }
      BlockLater(at);
      WholeIs(length, length - rem);
      buf := Fill(buf, rem);
      var r := (x.end)(h, buf);
      h1, h2 := r.0, r.1;
    }
  }

  /** Zeros behind the remaining bytes, and their number in the last byte. */
  method Fill(buf: seq<Byte>, rem: nat) returns (b: seq<Byte>)
    requires rem < BLOCK && rem <= |buf|
    ensures b == Padded(buf[..rem])
  {
    b := buf[..rem] + seq(BLOCK - rem, _ => 0);
    b := b[BLOCK - 1 := rem];
  }

  lemma Joins(m: seq<Byte>, f: seq<Byte>, k: nat, r: nat)
    requires k + r == |m| && r <= BUFFER <= r + |f|
    ensures (m + f)[k..k + BUFFER] == m[k..] + f[..BUFFER - r]
  {
  }

  lemma BlockLater(p: nat)
    ensures p % BLOCK == 0 ==> (p + BLOCK) % BLOCK == 0
  {
  }

  lemma WholeSum(a: nat, b: nat)
    requires a % BLOCK == 0 && b % BLOCK == 0
    ensures (a + b) % BLOCK == 0
  {
  }

  ghost function Concat(pieces: seq<seq<Byte>>): seq<Byte> {
    if pieces == [] then [] else Concat(pieces[..|pieces| - 1]) + pieces[|pieces| - 1]
  }

  /** However a message is cut into pieces, the streamed hash is the hash of the whole in one call. */
  method Stream(x: Mixer, s1: Word, s2: Word, pieces: seq<seq<Byte>>, aligned: seq<bool>) returns (h1: Word, h2: Word)
    requires |aligned| == |pieces|
    ensures (h1, h2) == Hash(x, Concat(pieces), s1, s2)
  {
    var s := new SpookyHashV2(x, s1, s2);
    for i := 0 to |pieces|
      invariant s.Valid() && fresh(s) && fresh(s.data) && s.x == x && s.seed1 == s1 && s.seed2 == s2
      invariant s.message == Concat(pieces[..i])
    {
      assert pieces[..i + 1][..i] == pieces[..i];
      s.Update(pieces[i], aligned[i]);
    }
    assert pieces[..|pieces|] == pieces;
    h1, h2 := s.Final();
  }
}
