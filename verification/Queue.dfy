/** ProducerConsumerQueue: one thread writes, one reads, each step one access to an index or a slot. */
module Queue {
  import opened Radix

  type Capacity = n: nat | 2 <= n witness 2

  /** size_ */
  const SIZE: Capacity

  datatype Slot<T> = Raw | Built(value: T)

  /** `ok` is what the last write returned. */
  datatype Producer<T> = Resting(ok: bool) | Loaded(v: T, w: nat) | Building(v: T, w: nat) | Publishing(v: T, w: nat)

  /** What the consumer's last call returned: nothing, the value that was read, or, from popFront, that one is gone. */
  datatype Reply<T> = Nothing | Gave(v: T) | Gone

  /** `front` marks calls of frontPtr instead of read. */
  datatype Consumer<T> = Waiting(reply: Reply<T>) | Looking(r: nat, front: bool) | Front(r: nat) | Moving(r: nat)
                       | Destroying(r: nat, reply: Reply<T>) | Releasing(r: nat, reply: Reply<T>)

  /** The fields; for the proof every value published so far, and every value that left the queue. */
  datatype State<T> = State(readIndex: nat, writeIndex: nat, slots: seq<Slot<T>>, p: Producer<T>, c: Consumer<T>,
                            written: seq<T>, out: seq<T>, taken: seq<T>)

  /** `nextRecord` */
  function Next(i: nat): nat {
    if i + 1 == SIZE then 0 else i + 1
  }

  /** The slot of the n-th value. */
  function At(n: nat): nat {
    n % SIZE
  }

  lemma AtNext(n: nat)
    ensures At(n) < SIZE && At(n + 1) == Next(At(n))
  {
    var d, q := SIZE as nat, n / SIZE;
    assert n == q * d + n % d;
    assert (q + 1) * d == q * d + d && (q + 2) * d == q * d + 2 * d;
    DivUnique(n + 1, d, if n % d + 1 == d then q + 1 else q);
  }

  /** Values closer than the size never share a slot. */
  lemma AtOnce(a: nat, b: nat)
    requires a <= b < a + SIZE && At(a) == At(b)
    ensures a == b
  {
    var d, q, e := SIZE as nat, a / SIZE, b / SIZE;
    MulMono(q + 1, if q < e then e else q + 1, d);
    MulMono(e + 1, if e < q then q else e + 1, d);
    DivBounds(a, d);
    DivBounds(b, d);
    assert a == q * d + a % d && b == e * d + b % d;
    assert (q + 1) * d == q * d + d && (e + 1) * d == e * d + d;
  }

  ghost predicate Indexed<T>(s: State<T>) {
    && |s.out| <= |s.written| && |s.written| - |s.out| < SIZE
    && s.readIndex == At(|s.out|) && s.writeIndex == At(|s.written|) && |s.slots| == SIZE
    && s.out == s.written[..|s.out|]
  }

  /** The n-th value is in its slot. */
  ghost predicate Stored<T>(s: State<T>, n: nat)
    requires Indexed(s) && n < |s.written|
  {
    At(n) < SIZE && s.slots[At(n)] == Built(s.written[n])
  }

  ghost predicate Honest<T>(reply: Reply<T>, v: T) {
    reply == Gave(v) || reply.Gone?
  }

  ghost predicate Inv<T>(s: State<T>) {
    && Indexed(s)
    // published values are in their slots, but for one that the consumer has just destroyed
    && (forall n: nat | |s.out| <= n < |s.written| && !(s.c.Releasing? && n == |s.out|) :: Stored(s, n))
    && (match s.p
        case Resting(_) => true
        case Loaded(_, w) => w == s.writeIndex
        case Building(_, w) => w == s.writeIndex && |s.written| - |s.out| < SIZE - 1 && s.slots[w] == Raw
        case Publishing(v, w) => w == s.writeIndex && |s.written| - |s.out| < SIZE - 1 && s.slots[w] == Built(v))
    && (match s.c
        case Waiting(_) => true
        case Looking(r, _) => r == s.readIndex
        case Front(r) => r == s.readIndex && |s.out| < |s.written|
        case Moving(r) => r == s.readIndex && |s.out| < |s.written|
        case Destroying(r, reply) => r == s.readIndex && |s.out| < |s.written| && Honest(reply, s.written[|s.out|])
        case Releasing(r, reply) => r == s.readIndex && |s.out| < |s.written| && Honest(reply, s.written[|s.out|]))
    && (forall i | 0 <= i < SIZE && s.slots[i].Built? :: Expected(s, i))
    // what read() moved out is what left the queue, but for the value in hand
    && s.taken == (if s.c.Destroying? || s.c.Releasing? then s.written[..|s.out| + 1] else s.out)
  }

  /** A constructed slot holds a published value that is still in the queue, or the one about to be published. */
  ghost predicate Expected<T>(s: State<T>, i: nat)
    requires Indexed(s)
  {
    || (s.p.Publishing? && i == s.writeIndex)
    || exists n: nat :: |s.out| <= n < |s.written| && !(s.c.Releasing? && n == |s.out|) && At(n) == i
  }

  datatype Event<T> = Write(v: T) | Read | FrontPtr | PopFront | Produce | Consume

  /** One access by the producer. */
  ghost predicate ProducerStep<T>(s: State<T>, e: Event<T>, s': State<T>)
    requires |s.slots| == SIZE
  {
    match s.p
    case Resting(_) => e.Write? && s' == s.(p := Loaded(e.v, s.writeIndex))
    case Loaded(v, w) => e.Produce? && s' == s.(p := if Next(w) != s.readIndex then Building(v, w) else Resting(false))
    case Building(v, w) => e.Produce? && w < SIZE && s' == s.(slots := s.slots[w := Built(v)], p := Publishing(v, w))
    case Publishing(v, w) =>
      e.Produce? && w < SIZE && s.slots[w].Built?
      && s' == s.(writeIndex := Next(w), p := Resting(true), written := s.written + [s.slots[w].value])
  }

  /** One access by the consumer; popFront is called only on a queue that is not empty, and not past what it saw. */
  ghost predicate ConsumerStep<T>(s: State<T>, e: Event<T>, s': State<T>)
    requires |s.slots| == SIZE
  {
    match s.c
    case Waiting(_) => (e.Read? || e.FrontPtr?) && s' == s.(c := Looking(s.readIndex, e.FrontPtr?))
    case Looking(r, front) =>
      e.Consume? && s' == s.(c := if r == s.writeIndex then Waiting(Nothing) else if front then Front(r) else Moving(r))
    case Front(r) =>
      || (e.PopFront? && r < SIZE && s.slots[r].Built? && s' == s.(c := Destroying(r, Gone), taken := s.taken + [s.slots[r].value]))
      || ((e.Read? || e.FrontPtr?) && s' == s.(c := Looking(s.readIndex, e.FrontPtr?)))
    case Moving(r) =>
      e.Consume? && r < SIZE && s.slots[r].Built? && s' == s.(c := Destroying(r, Gave(s.slots[r].value)), taken := s.taken + [s.slots[r].value])
    case Destroying(r, reply) => e.Consume? && r < SIZE && s' == s.(slots := s.slots[r := Raw], c := Releasing(r, reply))
    case Releasing(r, reply) =>
      e.Consume? && |s.out| < |s.written| && s' == s.(readIndex := Next(r), c := Waiting(reply), out := s.out + [s.written[|s.out|]])
  }

  ghost predicate Init<T>(s: State<T>) {
    && s.readIndex == 0 && s.writeIndex == 0 && |s.slots| == SIZE && (forall i | 0 <= i < SIZE :: s.slots[i] == Raw)
    && s.p == Resting(false) && s.c == Waiting(Nothing) && s.written == [] && s.out == [] && s.taken == []
  }

  lemma InitInv<T>(s: State<T>)
    requires Init(s)
    ensures Inv(s)
  {
    AtNext(0);
  }

  /** The slots of the values in the queue differ from each other, and from the next free one. */
  lemma Apart<T>(s: State<T>)
    requires Indexed(s)
    ensures forall n: nat | |s.out| <= n < |s.written| :: At(n) < SIZE
    ensures forall n: nat | |s.out| < n < |s.written| :: At(n) != s.readIndex
    ensures |s.written| - |s.out| < SIZE ==> forall n: nat | |s.out| <= n < |s.written| :: At(n) != s.writeIndex
    ensures s.readIndex < SIZE && s.writeIndex < SIZE
    ensures Next(s.readIndex) == At(|s.out| + 1) && Next(s.writeIndex) == At(|s.written| + 1)
  {
    AtNext(|s.out|);
    AtNext(|s.written|);
    forall n: nat | |s.out| <= n < |s.written|
      ensures At(n) < SIZE && (n > |s.out| ==> At(n) != s.readIndex) && At(n) != s.writeIndex
    {
      AtNext(n);
      if At(n) == s.readIndex { AtOnce(|s.out|, n); }
      if At(n) == s.writeIndex { AtOnce(n, |s.written|); }
    }
  }

  lemma ProducerKeeps<T>(s: State<T>, e: Event<T>, s': State<T>)
    requires Inv(s) && ProducerStep(s, e, s')
    ensures Inv(s')
  {
    hide At;
    Apart(s);
    match s.p {
      case Loaded(v, w) => LoadedKeeps(s, e, s');
      case Building(v, w) => BuildingKeeps(s, e, s');
      case Publishing(v, w) => PublishingKeeps(s, e, s');
      case Resting(_) =>
        forall n: nat | |s'.out| <= n < |s'.written| && !(s'.c.Releasing? && n == |s'.out|) ensures Stored(s', n) { assert Stored(s, n); }
        forall i | 0 <= i < SIZE && s'.slots[i].Built? ensures Expected(s', i) { assert Expected(s, i); }
    }
  }

  /** The check against the read index leaves a free slot, and that slot is not constructed: no value of the queue is in it. */
  lemma LoadedKeeps<T>(s: State<T>, e: Event<T>, s': State<T>)
    requires Inv(s) && s.p.Loaded? && ProducerStep(s, e, s')
    ensures Inv(s')
  {
    hide At;
    Apart(s);
    if Next(s.p.w) != s.readIndex {
      if |s.written| - |s.out| == SIZE - 1 { Full(s); }
      NotExpected(s);
    }
    forall n: nat | |s'.out| <= n < |s'.written| && !(s'.c.Releasing? && n == |s'.out|) ensures Stored(s', n) { assert Stored(s, n); }
    forall i | 0 <= i < SIZE && s'.slots[i].Built? ensures Expected(s', i) { assert Expected(s, i); }
  }

  lemma NotExpected<T>(s: State<T>)
    requires Indexed(s) && !s.p.Publishing?
    ensures !Expected(s, s.writeIndex)
  {
    Apart(s);
  }

  lemma Full<T>(s: State<T>)
    requires Indexed(s) && |s.written| - |s.out| == SIZE - 1
    ensures At(|s.written| + 1) == s.readIndex
  {
    var d, q := SIZE as nat, |s.out| / SIZE;
    var a := |s.out|;
    assert a == q * d + a % d;
    assert (q + 1) * d == q * d + d && (q + 2) * d == q * d + 2 * d;
    DivUnique(a + d, d, q + 1);
  }

  lemma BuildingKeeps<T>(s: State<T>, e: Event<T>, s': State<T>)
    requires Inv(s) && s.p.Building? && ProducerStep(s, e, s')
    ensures Inv(s')
  {
    hide At;
    Apart(s);
    forall n: nat | |s'.out| <= n < |s'.written| && !(s'.c.Releasing? && n == |s'.out|) ensures Stored(s', n) { assert Stored(s, n); }
    forall i | 0 <= i < SIZE && s'.slots[i].Built? ensures Expected(s', i) { if i != s.writeIndex { assert Expected(s, i); } }
  }

  lemma PublishingKeeps<T>(s: State<T>, e: Event<T>, s': State<T>)
    requires Inv(s) && s.p.Publishing? && ProducerStep(s, e, s')
    ensures Inv(s')
  {
    hide At;
    Apart(s);
    forall n: nat | |s'.out| <= n < |s'.written| && !(s'.c.Releasing? && n == |s'.out|)
      ensures Stored(s', n)
    {
      if n < |s.written| { assert Stored(s, n); }
    }
    forall i | 0 <= i < SIZE && s'.slots[i].Built?
      ensures Expected(s', i)
    {
      assert Expected(s, i);
      if i == s.writeIndex { assert At(|s.written|) == i; }
    }
  }

  lemma ConsumerKeeps<T>(s: State<T>, e: Event<T>, s': State<T>)
    requires Inv(s) && ConsumerStep(s, e, s')
    ensures Inv(s')
  {
    hide At;
    Apart(s);
    if s.c.Destroying? {
      DestroyKeeps(s, e, s');
    } else if s.c.Releasing? {
      ReleaseKeeps(s, e, s');
    } else {
      if s.c.Looking? && |s.out| == |s.written| { assert s.readIndex == s.writeIndex; }
      if s.c.Moving? || s.c.Front? { assert Stored(s, |s.out|); }
      forall n: nat | |s'.out| <= n < |s'.written| && !(s'.c.Releasing? && n == |s'.out|) ensures Stored(s', n) { assert Stored(s, n); }
      forall i | 0 <= i < SIZE && s'.slots[i].Built? ensures Expected(s', i) { assert Expected(s, i); }
    }
  }

  lemma DestroyKeeps<T>(s: State<T>, e: Event<T>, s': State<T>)
    requires Inv(s) && s.c.Destroying? && ConsumerStep(s, e, s')
    ensures Inv(s')
  {
    hide At;
    Apart(s);
    forall n: nat | |s'.out| <= n < |s'.written| && !(s'.c.Releasing? && n == |s'.out|) ensures Stored(s', n) { assert Stored(s, n); }
    forall i | 0 <= i < SIZE && s'.slots[i].Built? ensures Expected(s', i) { assert Expected(s, i); }
  }

  lemma ReleaseKeeps<T>(s: State<T>, e: Event<T>, s': State<T>)
    requires Inv(s) && s.c.Releasing? && ConsumerStep(s, e, s')
    ensures Inv(s')
  {
    hide At;
    Apart(s);
    forall n: nat | |s'.out| <= n < |s'.written| && !(s'.c.Releasing? && n == |s'.out|) ensures Stored(s', n) { assert Stored(s, n); }
    forall i | 0 <= i < SIZE && s'.slots[i].Built? ensures Expected(s', i) { assert Expected(s, i); }
  }

  // ---- every interleaving ----

  ghost predicate Steps<T(!new)>(s: State<T>, s': State<T>) {
    |s.slots| == SIZE && exists e: Event<T> :: ProducerStep(s, e, s') || ConsumerStep(s, e, s')
  }

  ghost predicate IsRun<T(!new)>(run: seq<State<T>>) {
    |run| > 0 && Init(run[0]) && forall j: nat | j + 1 < |run| :: Steps(run[j], run[j + 1])
  }

  lemma {:induction false} Reachable<T(!new)>(run: seq<State<T>>, j: nat)
    requires IsRun(run) && j < |run|
    ensures Inv(run[j])
  {
    hide Inv, Init, ProducerStep, ConsumerStep;
    if j == 0 {
      InitInv(run[0]);
    } else {
      Reachable(run, j - 1);
      assert Steps(run[j - 1], run[j - 1 + 1]);
      var e: Event<T> :| ProducerStep(run[j - 1], e, run[j]) || ConsumerStep(run[j - 1], e, run[j]);
      if ProducerStep(run[j - 1], e, run[j]) { ProducerKeeps(run[j - 1], e, run[j]); } else { ConsumerKeeps(run[j - 1], e, run[j]); }
    }
  }

  /** Values leave in the order in which they were written, none lost, none twice, and at most SIZE - 1 are in the queue. */
  lemma Ordered<T(!new)>(run: seq<State<T>>, j: nat)
    requires IsRun(run) && j < |run|
    ensures var s := run[j]; s.out <= s.written && s.taken <= s.written && s.out <= s.taken && |s.taken| <= |s.out| + 1
    ensures var s := run[j]; |s.written| - |s.out| <= SIZE - 1
  {
    Reachable(run, j);
    var s := run[j];
    assert s.out == s.written[..|s.out|];
  }

  /** The producer constructs only into a slot that holds nothing, and never into the one the consumer may read. */
  lemma NeverOverwrites<T(!new)>(run: seq<State<T>>, j: nat)
    requires IsRun(run) && j < |run| && run[j].p.Building?
    ensures var s := run[j]; s.p.w < |s.slots| && s.slots[s.p.w] == Raw
    ensures var s := run[j]; !s.c.Waiting? && !s.c.Looking? ==> s.c.r != s.p.w
  {
    Reachable(run, j);
    Apart(run[j]);
  }

  /** The consumer reads, through read() or the pointer of frontPtr(), the oldest value still in the queue. */
  lemma ReadsFront<T(!new)>(run: seq<State<T>>, j: nat)
    requires IsRun(run) && j < |run| && (run[j].c.Front? || run[j].c.Moving?)
    ensures var s := run[j]; |s.out| < |s.written| && s.c.r < |s.slots| && s.slots[s.c.r] == Built(s.written[|s.out|])
  {
    Reachable(run, j);
    assert Stored(run[j], |run[j].out|);
  }

  // ---- what was asked for, and what the calls returned ----

  /** A run with the events that made its steps. */
  ghost predicate IsTrace<T(!new)>(run: seq<State<T>>, evs: seq<Event<T>>) {
    && |run| == |evs| + 1 && Init(run[0]) && (forall j: nat | j < |run| :: |run[j].slots| == SIZE)
    && forall j: nat | j < |evs| :: ProducerStep(run[j], evs[j], run[j + 1]) || ConsumerStep(run[j], evs[j], run[j + 1])
  }

  lemma TraceIsRun<T(!new)>(run: seq<State<T>>, evs: seq<Event<T>>)
    requires IsTrace(run, evs)
    ensures IsRun(run)
  {
    hide Init, ProducerStep, ConsumerStep;
    forall j: nat | j + 1 < |run|
      ensures Steps(run[j], run[j + 1])
    {
      assert ProducerStep(run[j], evs[j], run[j + 1]) || ConsumerStep(run[j], evs[j], run[j + 1]);
    }
  }

  /** The arguments of all calls of write. */
  ghost function Asked<T>(evs: seq<Event<T>>): seq<T> {
    if evs == [] then [] else Asked(evs[..|evs| - 1]) + if evs[|evs| - 1].Write? then [evs[|evs| - 1].v] else []
  }

  /** The arguments of those calls that returned true before state j. */
  ghost function Accepted<T(!new)>(run: seq<State<T>>, evs: seq<Event<T>>, j: nat): seq<T>
    requires IsTrace(run, evs) && j < |run|
  {
    if j == 0 then [] else
      Accepted(run, evs, j - 1) +
      if !run[j - 1].p.Resting? && run[j].p == Resting(true) && Asked(evs[..j]) != [] then [Asked(evs[..j])[|Asked(evs[..j])| - 1]] else []
  }

  /** The call under way is for the last argument. */
  ghost predicate InMind<T>(p: Producer<T>, asked: seq<T>) {
    p.Resting? || (asked != [] && p.v == asked[|asked| - 1])
  }

  lemma {:induction false} AcceptedIs<T(!new)>(run: seq<State<T>>, evs: seq<Event<T>>, j: nat)
    requires IsTrace(run, evs) && j < |run|
    ensures run[j].written == Accepted(run, evs, j) && InMind(run[j].p, Asked(evs[..j]))
  {
    hide Inv, Init, ProducerStep, ConsumerStep;
    if j == 0 {
      assert Init(run[0]);
      Begun(run[0]);
    } else {
      var i := j - 1;
      AcceptedIs(run, evs, i);
      TraceIsRun(run, evs);
      Reachable(run, i);
      assert evs[..j][..i] == evs[..i];
      assert ProducerStep(run[i], evs[i], run[i + 1]) || ConsumerStep(run[i], evs[i], run[i + 1]);
      AcceptedStep(run[i], evs[i], run[j], Asked(evs[..i]));
    }
  }

  lemma Begun<T>(s: State<T>)
    requires Init(s)
    ensures s.written == [] && s.p.Resting?
  {
  }

  lemma AcceptedStep<T>(s: State<T>, e: Event<T>, s': State<T>, asked: seq<T>)
    requires Inv(s) && (ProducerStep(s, e, s') || ConsumerStep(s, e, s')) && InMind(s.p, asked)
    ensures InMind(s'.p, asked + if e.Write? then [e.v] else [])
    ensures s'.written == s.written + if !s.p.Resting? && s'.p == Resting(true) then [s.p.v] else []
    ensures !s.p.Resting? ==> !e.Write?
  {
  }

  /** First in, first out, in terms of the calls: what has been read or popped is a prefix of the arguments of the writes
      that returned true, and a read returns the oldest of these that was left. */
  lemma Fifo<T(!new)>(run: seq<State<T>>, evs: seq<Event<T>>, j: nat)
    requires IsTrace(run, evs) && j < |run|
    ensures run[j].taken <= Accepted(run, evs, j) && |Accepted(run, evs, j)| - |run[j].out| <= SIZE - 1
    ensures j > 0 && run[j].c.Waiting? && run[j - 1].c.Releasing? ==>
              && |run[j].out| == |run[j - 1].out| + 1 && run[j].out <= Accepted(run, evs, j)
              && (run[j].c.reply.Gone? || run[j].c.reply == Gave(Accepted(run, evs, j)[|run[j - 1].out|]))
  {
    AcceptedIs(run, evs, j);
    TraceIsRun(run, evs);
    Ordered(run, j);
    if j > 0 {
      Reachable(run, j - 1);
      assert ProducerStep(run[j - 1], evs[j - 1], run[j]) || ConsumerStep(run[j - 1], evs[j - 1], run[j]);
    }
  }

  /** A write is refused exactly if SIZE - 1 values are in the queue when it looks, and a read or frontPtr finds nothing
      exactly if none is. */
  lemma Refusals<T(!new)>(run: seq<State<T>>, evs: seq<Event<T>>, j: nat)
    requires IsTrace(run, evs) && j + 1 < |run|
    ensures var s, s' := run[j], run[j + 1];
            && (s.p.Loaded? && s'.p != s.p ==> s'.p == if |s.written| - |s.out| == SIZE - 1 then Resting(false) else Building(s.p.v, s.p.w))
            && (s.c.Looking? && s'.c != s.c ==>
                  s'.c == if |s.written| == |s.out| then Waiting(Nothing) else if s.c.front then Front(s.c.r) else Moving(s.c.r))
  {
    TraceIsRun(run, evs);
    Reachable(run, j);
    var s := run[j];
    assert ProducerStep(run[j], evs[j], run[j + 1]) || ConsumerStep(run[j], evs[j], run[j + 1]);
    Apart(s);
    if |s.written| - |s.out| == SIZE - 1 { Full(s); }
    else if s.p.Loaded? && Next(s.p.w) == s.readIndex { AtOnce(|s.out|, |s.written| + 1); }
    if s.readIndex == s.writeIndex { AtOnce(|s.out|, |s.written|); }
  }

  /** How many accesses a call still makes at most. */
  function WritesLeft<T>(p: Producer<T>): nat {
    match p case Resting(_) => 0 case Publishing(_, _) => 1 case Building(_, _) => 2 case Loaded(_, _) => 3
  }

  function ReadsLeft<T>(c: Consumer<T>): nat {
    match c case Waiting(_) => 0 case Front(_) => 0 case Releasing(_, _) => 1 case Destroying(_, _) => 2 case Moving(_) => 3 case Looking(_, _) => 4
  }

  /** Neither side waits for the other: a call can always make its next access, and each one brings it nearer to its end. */
  lemma WaitFree<T(!new)>(run: seq<State<T>>, j: nat, v: T)
    requires IsRun(run) && j < |run|
    ensures var s := run[j]; s.p.Resting? ==> |s.slots| == SIZE && exists s' :: ProducerStep(s, Write(v), s') && s'.p.Loaded?
    ensures var s := run[j];
            s.c.Waiting? || s.c.Front? ==>
              && |s.slots| == SIZE && (exists s' :: ConsumerStep(s, Read, s') && s'.c.Looking? && !s'.c.front)
              && exists s' :: ConsumerStep(s, FrontPtr, s') && s'.c.Looking? && s'.c.front
    ensures var s := run[j]; s.c.Front? ==> |s.slots| == SIZE && exists s' :: ConsumerStep(s, PopFront, s') && s'.c.Destroying?
    ensures var s := run[j]; !s.p.Resting? ==> |s.slots| == SIZE && exists s' :: ProducerStep(s, Produce, s') && WritesLeft(s'.p) < WritesLeft(s.p)
    ensures var s := run[j];
            ReadsLeft(s.c) > 0 ==> |s.slots| == SIZE && exists s' :: ConsumerStep(s, Consume, s') && ReadsLeft(s'.c) < ReadsLeft(s.c)
  {
    Reachable(run, j);
    var s := run[j];
    if s.c.Front? { assert Stored(s, |s.out|); }
    CanBegin(s, v);
    if !s.p.Resting? { var s' := WriteGoesOn(s); }
    if ReadsLeft(s.c) > 0 { var s' := ReadGoesOn(s); }
  }

  /** Between calls each side can begin any of its own. */
  lemma CanBegin<T>(s: State<T>, v: T)
    requires |s.slots| == SIZE
    ensures s.p.Resting? ==> ProducerStep(s, Write(v), s.(p := Loaded(v, s.writeIndex)))
    ensures s.c.Waiting? || s.c.Front? ==> ConsumerStep(s, Read, s.(c := Looking(s.readIndex, false)))
    ensures s.c.Waiting? || s.c.Front? ==> ConsumerStep(s, FrontPtr, s.(c := Looking(s.readIndex, true)))
    ensures s.c.Front? && s.c.r < SIZE && s.slots[s.c.r].Built? ==> exists s' :: ConsumerStep(s, PopFront, s') && s'.c.Destroying?
  {
    if s.c.Front? && s.c.r < SIZE && s.slots[s.c.r].Built? {
      var s' := s.(c := Destroying(s.c.r, Gone), taken := s.taken + [s.slots[s.c.r].value]);
      assert ConsumerStep(s, PopFront, s');
    }
  }

  lemma WriteGoesOn<T>(s: State<T>) returns (s': State<T>)
    requires Inv(s) && !s.p.Resting?
    ensures ProducerStep(s, Produce, s') && WritesLeft(s'.p) < WritesLeft(s.p)
  {
    Apart(s);
    match s.p
    case Loaded(v, w) => s' := s.(p := if Next(w) != s.readIndex then Building(v, w) else Resting(false));
    case Building(v, w) => s' := s.(slots := s.slots[w := Built(v)], p := Publishing(v, w));
    case Publishing(v, w) => s' := s.(writeIndex := Next(w), p := Resting(true), written := s.written + [v]);
  }

  lemma ReadGoesOn<T>(s: State<T>) returns (s': State<T>)
    requires Inv(s) && ReadsLeft(s.c) > 0
    ensures ConsumerStep(s, Consume, s') && ReadsLeft(s'.c) < ReadsLeft(s.c)
  {
    Apart(s);
    match s.c
    case Looking(r, front) => s' := s.(c := if r == s.writeIndex then Waiting(Nothing) else if front then Front(r) else Moving(r));
    case Moving(r) =>
      assert Stored(s, |s.out|);
      s' := s.(c := Destroying(r, Gave(s.slots[r].value)), taken := s.taken + [s.slots[r].value]);
    case Destroying(r, reply) => s' := s.(slots := s.slots[r := Raw], c := Releasing(r, reply));
    case Releasing(r, reply) => s' := s.(readIndex := Next(r), c := Waiting(reply), out := s.out + [s.written[|s.out|]]);
  }
}
