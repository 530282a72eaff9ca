/** LifoSem: a semaphore whose head word holds either a value or the top of a stack of waiters.
    Any number of threads post, wait, try and shut down, one atomic access per step. */
module LifoSem {
  /** LifoSemHead; values do not saturate and sequence numbers do not wrap around here. */
  datatype Head = Head(data: nat, isNode: bool, shut: bool, turn: nat) {
    function WithPop(next: int): Head {
      if next <= 0 then Head(0, false, shut, turn + 1) else Head(next, true, shut, turn + 1)
    }
    function WithPush(idx: nat): Head { Head(idx, true, false, turn) }
    function WithValueIncr(delta: nat): Head { Head(data + delta, false, shut, turn + 1) }
    function WithValueDecr(delta: nat): Head
      requires delta <= data
    { Head(data - delta, false, shut, turn + 1) }
    function WithShutdown(): Head { Head(data, isNode, true, turn) }
    function Value(): nat { if isNode then 0 else data }
  }

  /** `uint32_t(-1)` in a node's next field */
  const NOTICE: int := -1

  /** What a thread's last call returned: post and shutdown nothing, tryWait how much it took, wait normally or by throwing. */
  datatype Outcome = Nothing | Took(m: int) | Unit | Thrown

  datatype Pc =
    | Idle(last: Outcome)
    // post(n): incrOrPop, then the handoff
    | IncrLoad(n: nat)
    | PopRead(n: nat, h: Head)
    | PopCas(n: nat, h: Head, nx: int)
    | IncrCas(n: nat, h: Head)
    | HandOff(n: nat, idx: nat)
    // tryWait(n), also the first part of wait()
    | TryLoad(n: nat, orig: nat, blocking: bool)
    | TryCas(n: nat, orig: nat, blocking: bool, h: Head)
    // the rest of wait()
    | AllocNode
    | WaitLoad(idx: nat)
    | WaitDecrCas(idx: nat, h: Head)
    | WaitLink(idx: nat, h: Head)
    | WaitPushCas(idx: nat, h: Head)
    | Blocked(idx: nat)
    | Woken(idx: nat)
    // shutdown()
    | ShutLoad
    | ShutCas(h: Head)
    | ShutTest(h: Head)
    | ShutPopCas(h: Head, nx: int)
    | ShutMark(h: Head, idx: nat)
    | ShutPost(h: Head, idx: nat)

  /** What has become of a node since thread w allocated it: not pushed yet, at position i of the stack, popped into
      the hands of thread t, or posted; `notice` tells shutdown pops from others. */
  datatype Use = Own(w: nat) | Stacked(w: nat, i: nat) | Handed(w: nat, t: nat, notice: bool) | Posted(w: nat, notice: bool)

  /** The shared fields; for the proof the stack, the use of every allocated node, and what has been posted,
      decremented, given to waiters and returned by them. */
  datatype State = State(head: Head, next: map<int, int>, pcs: map<nat, Pc>,
                         stack: seq<nat>, use: map<nat, Use>, posted: nat, decremented: nat, given: nat, credited: set<nat>, woken: nat)

  function Top(s: seq<nat>): nat {
    if s == [] then 0 else s[|s| - 1]
  }

  function Rest(s: seq<nat>): seq<nat> {
    if s == [] then [] else s[..|s| - 1]
  }

  function Read(m: map<int, int>, x: int): int {
    if x in m then m[x] else 0
  }

  // ---- the invariant ----

  ghost predicate Uses(s: State, x: nat, u: Use) {
    x in s.use && s.use[x] == u
  }

  ghost predicate StackAt(s: State, i: nat)
    requires i < |s.stack|
  {
    && s.stack[i] >= 1 && s.stack[i] in s.use && s.use[s.stack[i]].Stacked? && s.use[s.stack[i]].i == i
    && s.stack[i] in s.next && s.next[s.stack[i]] == if i == 0 then 0 else s.stack[i - 1]
  }

  ghost predicate UseOk(s: State, x: nat)
    requires x in s.use
  {
    && x >= 1 && x in s.next
    && match s.use[x]
       case Own(_) => true
       case Stacked(_, i) => i < |s.stack| && s.stack[i] == x
       case Handed(_, _, notice) => notice || s.next[x] != NOTICE
       case Posted(_, notice) => notice <==> s.next[x] == NOTICE
  }

  ghost predicate StackOk(s: State) {
    && (forall i: nat | i < |s.stack| :: StackAt(s, i))
    && (if s.head.isNode then s.stack != [] && s.head.data == Top(s.stack) else s.stack == [])
  }

  /** Nodes popped by a post and not yet returned by their waiter. */
  ghost predicate Credit(s: State) {
    forall x | x in s.use :: x in s.credited <==> (s.use[x].Handed? || s.use[x].Posted?) && !s.use[x].notice
  }

  ghost predicate Balance(s: State, initial: nat) {
    && initial + s.posted == s.head.Value() + s.decremented + s.given
    && s.given == s.woken + |s.credited| && s.credited <= s.use.Keys
  }

  ghost predicate Core(s: State, initial: nat) {
    (forall x | x in s.use :: UseOk(s, x)) && StackOk(s) && Credit(s) && Balance(s, initial)
  }

  /** A node head that was read: while the sequence number lasts, its node stays in the stack. */
  ghost predicate Recent(s: State, h: Head) {
    h.turn <= s.head.turn && (h.isNode && h.turn == s.head.turn ==> h.data in s.stack)
  }

  ghost predicate Owns(s: State, t: nat, idx: nat) {
    Uses(s, idx, Own(t)) && idx in s.next
  }

  ghost predicate InHand(s: State, t: nat, idx: nat, notice: bool) {
    idx in s.use && s.use[idx].Handed? && s.use[idx].t == t && s.use[idx].notice == notice
  }

  /** The successor that was read is right as long as the head's sequence number lasts. */
  ghost predicate Successor(s: State, h: Head, nx: int) {
    h.isNode && Recent(s, h) && (h.turn == s.head.turn ==> Read(s.next, h.data) == nx)
  }

  /** A head read after the shutdown bit was set: if it had no waiters, there are none any more. */
  ghost predicate Stopped(s: State, h: Head) {
    Recent(s, h) && h.shut && s.head.shut && (!h.isNode ==> s.stack == [])
  }

  /** What each thread knows. */
  ghost predicate Knows(s: State, t: nat, pc: Pc) {
    match pc
    case Idle(_) => true
    case IncrLoad(n) => n >= 1
    case PopRead(n, h) => n >= 1 && h.isNode && Recent(s, h)
    case PopCas(n, h, nx) => n >= 1 && Successor(s, h, nx)
    case IncrCas(n, h) => n >= 1 && !h.isNode
    case HandOff(n, idx) => n >= 1 && InHand(s, t, idx, false)
    case TryLoad(n, _, _) => n >= 1
    case TryCas(n, _, _, h) => n >= 1 && !h.isNode && h.data > 0
    case AllocNode => true
    case WaitLoad(idx) => Owns(s, t, idx)
    case WaitDecrCas(idx, h) => Owns(s, t, idx) && !h.isNode && h.data > 0
    case WaitLink(idx, h) => Owns(s, t, idx) && (h.isNode || h.data == 0) && !h.shut
    case WaitPushCas(idx, h) => Owns(s, t, idx) && (h.isNode || h.data == 0) && !h.shut && Read(s.next, idx) == h.data
    case Blocked(idx) => idx in s.use && s.use[idx].w == t && !s.use[idx].Own?
    case Woken(idx) => idx in s.use && s.use[idx].w == t && s.use[idx].Posted?
    case ShutLoad => true
    case ShutCas(h) => true
    case ShutTest(h) => Stopped(s, h)
    case ShutPopCas(h, nx) => Successor(s, h, nx) && h.shut && s.head.shut
    case ShutMark(h, idx) => InHand(s, t, idx, true) && Stopped(s, h)
    case ShutPost(h, idx) => InHand(s, t, idx, true) && Read(s.next, idx) == NOTICE && Stopped(s, h)
  }

  ghost predicate AllKnow(s: State) {
    forall t | t in s.pcs :: Knows(s, t, s.pcs[t])
  }

  ghost predicate Inv(s: State, initial: nat) {
    Core(s, initial) && AllKnow(s)
  }

  ghost predicate Init(s: State, initial: nat) {
    && s.head == Head(initial, false, false, 0) && s.stack == [] && s.use == map[] && s.next == map[]
    && s.posted == 0 && s.decremented == 0 && s.given == 0 && s.credited == {} && s.woken == 0
    && forall t | t in s.pcs :: s.pcs[t] == Idle(Nothing)
  }

  lemma InitInv(s: State, initial: nat)
    requires Init(s, initial)
    ensures Inv(s, initial)
  {
  }

  // ---- the steps ----

  datatype Event = StartPost(n: nat) | StartTry(n: nat) | StartWait | StartShutdown | Alloc(idx: nat) | Go

  ghost function Goto(s: State, t: nat, pc: Pc): State {
    s.(pcs := s.pcs[t := pc])
  }

  /** The top node comes off the stack into thread t's hands. */
  ghost function Popped(s: State, t: nat, h: Head, nx: int, notice: bool, pc: Pc): State
    requires h.data in s.use
  {
    Goto(s, t, pc).(head := h.WithPop(nx), stack := Rest(s.stack), use := s.use[h.data := Handed(s.use[h.data].w, t, notice)])
  }

  ghost function Free(s: State, idx: nat): State {
    s.(use := map x | x in s.use && x != idx :: s.use[x])
  }

  /** One atomic access by thread t. A node is allocated only while nobody uses it. */
  ghost predicate Step(s: State, t: nat, e: Event, s': State) {
    && t in s.pcs && (e.Go? <==> !s.pcs[t].Idle? && s.pcs[t] != AllocNode) && (e.Alloc? <==> s.pcs[t] == AllocNode)
    && match s.pcs[t]
       case Idle(_) =>
         (match e
          case StartPost(n) => s' == Goto(s, t, if n == 0 then Idle(Nothing) else IncrLoad(n))
          case StartTry(n) => s' == Goto(s, t, if n == 0 then Idle(Took(0)) else TryLoad(n, n, false))
          case StartWait => s' == Goto(s, t, TryLoad(1, 1, true))
          case StartShutdown => s' == Goto(s, t, ShutLoad)
          case _ => false)
       case IncrLoad(n) => s' == Goto(s, t, if s.head.isNode then PopRead(n, s.head) else IncrCas(n, s.head))
       case PopRead(n, h) => s' == Goto(s, t, PopCas(n, h, Read(s.next, h.data)))
       case PopCas(n, h, nx) =>
         if s.head != h then s' == Goto(s, t, IncrLoad(n))
         else h.data in s.use
              && s' == Popped(s, t, h, nx, false, HandOff(n, h.data)).(posted := s.posted + 1, given := s.given + 1, credited := s.credited + {h.data})
       case IncrCas(n, h) =>
         if s.head != h then s' == Goto(s, t, IncrLoad(n))
         else s' == Goto(s, t, Idle(Nothing)).(head := h.WithValueIncr(n), posted := s.posted + n)
       case HandOff(n, idx) =>
         idx in s.use
         && s' == Goto(s, t, if n <= 1 then Idle(Nothing) else IncrLoad(n - 1)).(use := s.use[idx := Posted(s.use[idx].w, false)])
       case TryLoad(n, orig, blocking) =>
         s' == Goto(s, t, if !s.head.isNode && s.head.data > 0 then TryCas(n, orig, blocking, s.head) else if blocking then AllocNode else Idle(Took(orig - n)))
       case TryCas(n, orig, blocking, h) =>
         if s.head != h then s' == Goto(s, t, TryLoad(n, orig, blocking))
         else
           var delta := if n < h.data then n else h.data;
           s' == Goto(s, t, if n == delta then Idle(if blocking then Unit else Took(orig)) else TryLoad(n - delta, orig, blocking))
                 .(head := h.WithValueDecr(delta), decremented := s.decremented + delta)
       case AllocNode =>
         e.idx >= 1 && e.idx !in s.use
         && s' == Goto(s, t, WaitLoad(e.idx)).(next := s.next[e.idx := 0], use := s.use[e.idx := Own(t)])
       case WaitLoad(idx) =>
         if !s.head.isNode && s.head.data > 0 then s' == Goto(s, t, WaitDecrCas(idx, s.head))
         else if s.head.shut then s' == Goto(Free(s, idx), t, Idle(Thrown))
         else s' == Goto(s, t, WaitLink(idx, s.head))
       case WaitDecrCas(idx, h) =>
         if s.head != h then s' == Goto(s, t, WaitLoad(idx))
         else h.data >= 1 && s' == Goto(Free(s, idx), t, Idle(Unit)).(head := h.WithValueDecr(1), decremented := s.decremented + 1)
       case WaitLink(idx, h) => s' == Goto(s, t, WaitPushCas(idx, h)).(next := s.next[idx := if h.isNode then h.data else 0])
       case WaitPushCas(idx, h) =>
         if s.head != h then s' == Goto(s, t, WaitLoad(idx))
         else s' == Goto(s, t, Blocked(idx)).(head := h.WithPush(idx), stack := s.stack + [idx], use := s.use[idx := Stacked(t, |s.stack|)])
       case Blocked(idx) => idx in s.use && s.use[idx].Posted? && s' == Goto(s, t, Woken(idx))
       case Woken(idx) =>
         if Read(s.next, idx) == NOTICE then s' == Goto(Free(s, idx), t, Idle(Thrown))
         else s' == Goto(Free(s, idx), t, Idle(Unit)).(credited := s.credited - {idx}, woken := s.woken + 1)
       case ShutLoad => s' == Goto(s, t, if s.head.shut then ShutTest(s.head) else ShutCas(s.head))
       case ShutCas(h) =>
         if s.head != h then s' == Goto(s, t, if s.head.shut then ShutTest(s.head) else ShutCas(s.head))
         else s' == Goto(s, t, ShutTest(h.WithShutdown())).(head := h.WithShutdown())
       case ShutTest(h) => s' == Goto(s, t, if h.isNode then ShutPopCas(h, Read(s.next, h.data)) else Idle(Nothing))
       case ShutPopCas(h, nx) =>
         if s.head != h then s' == Goto(s, t, ShutTest(s.head))
         else h.data in s.use && s' == Popped(s, t, h, nx, true, ShutMark(h.WithPop(nx), h.data))
       case ShutMark(h, idx) => s' == Goto(s, t, ShutPost(h, idx)).(next := s.next[idx := NOTICE])
       case ShutPost(h, idx) =>
         idx in s.use && s' == Goto(s, t, ShutTest(h)).(use := s.use[idx := Posted(s.use[idx].w, true)])
  }

  // ---- how one thread's step looks to the others ----

  /** While the sequence number lasts the stack only grows; thread t writes and moves only nodes of its own or in its hands,
      and takes nodes only from the stack. */
  ghost predicate Later(s: State, t: nat, s': State) {
    && s'.head.turn >= s.head.turn && (s.head.shut ==> s'.head.shut && |s'.stack| <= |s.stack|)
    && (s'.head.turn == s.head.turn ==> s.stack <= s'.stack)
    && (forall x | x in s.use && !Mine(s, t, x) :: x in s'.use && UseKept(s.use[x], t, s'.use[x]))
    && (forall x | x in s.use && !Mine(s, t, x) && x in s.next :: x in s'.next && s'.next[x] == s.next[x])
    && (forall x | x in s.use && s.use[x].Handed? && s.use[x].t == t && x in s'.use :: s'.use[x].w == s.use[x].w && !s'.use[x].Own?)
    && (forall x | x in s.use && s.use[x].Handed? && s.use[x].t == t :: x in s'.use)
  }

  /** Nodes that thread t may write. */
  ghost predicate Mine(s: State, t: nat, x: nat) {
    x in s.use && match s.use[x]
      case Own(w) => w == t
      case Handed(_, u, _) => u == t
      case Posted(w, _) => w == t
      case Stacked(_, _) => false
  }

  ghost predicate UseKept(u: Use, t: nat, u': Use) {
    u' == u || (u.Stacked? && u'.Handed? && u'.w == u.w && u'.t == t)
  }

  lemma StackUse(s: State, x: nat)
    requires StackOk(s) && x in s.stack
    ensures x in s.use && s.use[x].Stacked? && x in s.next
  {
    var i: nat :| i < |s.stack| && s.stack[i] == x;
    assert StackAt(s, i);
  }

  lemma RecentKept(s: State, t: nat, s': State, h: Head)
    requires StackOk(s) && Later(s, t, s') && Recent(s, h)
    ensures Recent(s', h)
  {
    if h.isNode && h.turn == s'.head.turn {
      var i: nat :| i < |s.stack| && s.stack[i] == h.data;
      assert s'.stack[i] == h.data;
    }
  }

  /** The ABA argument: a successor that was read stays right while the sequence number lasts, even if nodes are reused. */
  lemma SuccessorKept(s: State, t: nat, s': State, h: Head, nx: int)
    requires StackOk(s) && Later(s, t, s') && Successor(s, h, nx)
    ensures Successor(s', h, nx)
  {
    RecentKept(s, t, s', h);
    if h.turn == s'.head.turn { StackUse(s, h.data); }
  }

  lemma KnowsKept(s: State, t: nat, s': State, u: nat)
    requires StackOk(s) && Later(s, t, s') && u in s.pcs && u != t && Knows(s, u, s.pcs[u])
    ensures Knows(s', u, s.pcs[u])
  {
    hide StackOk, Recent, Successor;
    match s.pcs[u] {
      case PopRead(n, h) => RecentKept(s, t, s', h);
      case PopCas(n, h, nx) => SuccessorKept(s, t, s', h, nx);
      case ShutTest(h) => RecentKept(s, t, s', h);
      case ShutPopCas(h, nx) => SuccessorKept(s, t, s', h, nx);
      case ShutMark(h, idx) => RecentKept(s, t, s', h);
      case ShutPost(h, idx) => RecentKept(s, t, s', h); assert idx in s.next;
      case _ =>
    }
  }

  lemma OthersKnow(s: State, t: nat, s': State)
    requires StackOk(s) && AllKnow(s) && Later(s, t, s') && t in s.pcs && s'.pcs.Keys == s.pcs.Keys
    requires forall u | u in s.pcs && u != t :: s'.pcs[u] == s.pcs[u]
    requires Knows(s', t, s'.pcs[t])
    ensures AllKnow(s')
  {
    hide Knows, StackOk, Later;
    forall u | u in s'.pcs
      ensures Knows(s', u, s'.pcs[u])
    {
      if u != t { KnowsKept(s, t, s', u); }
    }
  }

  /** A step that only reads. */
  lemma ReadKeeps(s: State, initial: nat, t: nat, pc: Pc)
    requires Core(s, initial) && AllKnow(s) && t in s.pcs && Knows(s, t, pc)
    ensures Core(Goto(s, t, pc), initial) && AllKnow(Goto(s, t, pc))
  {
    var s' := Goto(s, t, pc);
    CoreSame(s, s', initial);
    assert Later(s, t, s');
    KnowsSame(s, s', t, pc);
    OthersKnow(s, t, s');
  }

  lemma CoreSame(s: State, s': State, initial: nat)
    requires Core(s, initial) && s' == s.(pcs := s'.pcs)
    ensures Core(s', initial)
  {
    forall i: nat | i < |s'.stack| ensures StackAt(s', i) { assert StackAt(s, i); }
    forall x | x in s'.use ensures UseOk(s', x) { assert UseOk(s, x); }
  }

  lemma KnowsSame(s: State, s': State, t: nat, pc: Pc)
    requires Knows(s, t, pc) && s' == s.(pcs := s'.pcs)
    ensures Knows(s', t, pc)
  {
  }

  /** The stack is untouched by writes to nodes that are not on it. */
  lemma StackKept(s: State, s': State)
    requires StackOk(s) && s'.stack == s.stack && s'.head.isNode == s.head.isNode && (s.head.isNode ==> s'.head.data == s.head.data)
    requires forall x | x in s.use && s.use[x].Stacked? && x in s.next :: x in s'.use && s'.use[x] == s.use[x] && x in s'.next && s'.next[x] == s.next[x]
    ensures StackOk(s')
  {
    forall i: nat | i < |s'.stack|
      ensures StackAt(s', i)
    {
      assert StackAt(s, i);
    }
  }

  lemma UsesKept(s: State, s': State, y: nat)
    requires (forall x | x in s.use :: UseOk(s, x)) && s'.stack == s.stack
    requires forall x | x in s'.use && x != y :: x in s.use && s'.use[x] == s.use[x]
    requires forall x | x in s.next && x != y :: x in s'.next && s'.next[x] == s.next[x]
    requires y in s'.use ==> UseOk(s', y)
    ensures forall x | x in s'.use :: UseOk(s', x)
  {
    forall x | x in s'.use
      ensures UseOk(s', x)
    {
      if x != y { assert UseOk(s, x); }
    }
  }

  /** The value goes up by what is posted. */
  lemma IncrKeeps(s: State, initial: nat, t: nat, n: nat, h: Head, s': State)
    requires Core(s, initial) && AllKnow(s) && t in s.pcs && s.pcs[t] == IncrCas(n, h) && s.head == h && !h.isNode
    requires s' == Goto(s, t, Idle(Nothing)).(head := h.WithValueIncr(n), posted := s.posted + n)
    ensures Core(s', initial) && AllKnow(s')
  {
    StackKept(s, s');
    UsesKept(s, s', 0);
    OthersKnow(s, t, s');
  }

  /** The value goes down by what is taken. */
  lemma DecrKeeps(s: State, initial: nat, t: nat, h: Head, delta: nat, pc: Pc, s': State)
    requires Core(s, initial) && AllKnow(s) && t in s.pcs && s.head == h && !h.isNode && delta <= h.data
    requires s' == Goto(s, t, pc).(head := h.WithValueDecr(delta), decremented := s.decremented + delta)
    requires pc.Idle? || (pc.TryLoad? && pc.n >= 1)
    ensures Core(s', initial) && AllKnow(s')
  {
    StackKept(s, s');
    UsesKept(s, s', 0);
    OthersKnow(s, t, s');
  }

  lemma FreeKeeps(s: State, initial: nat, t: nat, idx: nat, r: Outcome, s': State)
    requires Core(s, initial) && AllKnow(s) && t in s.pcs && (Owns(s, t, idx) || Uses(s, idx, Posted(t, true)))
    requires s' == Goto(Free(s, idx), t, Idle(r))
    ensures Core(s', initial) && AllKnow(s')
  {
    hide StackOk, Recent, Successor;
    StackKept(s, s');
    UsesKept(s, s', idx);
    OthersKnow(s, t, s');
  }

  /** Writes to a node that only the thread can reach. */
  lemma NodeLater(s: State, t: nat, idx: nat, s': State)
    requires StackOk(s) && (idx in s.use ==> s.use[idx] == Own(t)) && s'.head == s.head && s'.stack == s.stack
    requires forall x | x in s.use && x != idx :: x in s'.use && s'.use[x] == s.use[x]
    requires forall x | x in s.next && x != idx :: x in s'.next && s'.next[x] == s.next[x]
    ensures Later(s, t, s')
  {
    hide StackOk;
  }

  lemma AllocKeeps(s: State, initial: nat, t: nat, idx: nat, s': State)
    requires Core(s, initial) && AllKnow(s) && t in s.pcs && idx >= 1 && idx !in s.use
    requires s' == Goto(s, t, WaitLoad(idx)).(next := s.next[idx := 0], use := s.use[idx := Own(t)])
    ensures Core(s', initial) && AllKnow(s')
  {
    hide StackOk, Recent, Successor, AllKnow, Later;
    StackKept(s, s');
    UsesKept(s, s', idx);
    NodeLater(s, t, idx, s');
    OthersKnow(s, t, s');
  }

  lemma LinkKeeps(s: State, initial: nat, t: nat, idx: nat, h: Head, s': State)
    requires Core(s, initial) && AllKnow(s) && t in s.pcs && s.pcs[t] == WaitLink(idx, h) && Knows(s, t, s.pcs[t])
    requires s' == Goto(s, t, WaitPushCas(idx, h)).(next := s.next[idx := if h.isNode then h.data else 0])
    ensures Core(s', initial) && AllKnow(s')
  {
    hide StackOk, Recent, Successor, AllKnow, Later;
    StackKept(s, s');
    UsesKept(s, s', idx);
    NodeLater(s, t, idx, s');
    OthersKnow(s, t, s');
  }

  lemma PushKeeps(s: State, initial: nat, t: nat, idx: nat, h: Head, s': State)
    requires Core(s, initial) && AllKnow(s) && t in s.pcs && s.pcs[t] == WaitPushCas(idx, h) && Knows(s, t, s.pcs[t]) && s.head == h
    requires s' == Goto(s, t, Blocked(idx)).(head := h.WithPush(idx), stack := s.stack + [idx], use := s.use[idx := Stacked(t, |s.stack|)])
    ensures Core(s', initial) && AllKnow(s')
  {
    assert UseOk(s, idx);
    forall i: nat | i < |s'.stack|
      ensures StackAt(s', i)
    {
      if i < |s.stack| { assert StackAt(s, i); }
    }
    forall x | x in s'.use
      ensures UseOk(s', x)
    {
      assert UseOk(s, x);
    }
    OthersKnow(s, t, s');
  }

  /** A successful pop installs the popped node's true successor. */
  lemma TruePop(s: State, h: Head, nx: int)
    requires StackOk(s) && s.head == h && Successor(s, h, nx)
    ensures s.stack != [] && h.data == Top(s.stack) && h.data in s.use && s.use[h.data].Stacked? && h.data in s.next
    ensures h.isNode && nx == Top(Rest(s.stack)) && s.next[h.data] == nx
    ensures var h' := h.WithPop(nx); if |s.stack| == 1 then !h'.isNode && h'.data == 0 else h'.isNode && h'.data == Top(Rest(s.stack))
  {
    var n: nat := |s.stack| - 1;
    assert StackAt(s, n);
    if n > 0 {
      assert StackAt(s, n - 1);
      assert Rest(s.stack)[n - 1] == s.stack[n - 1];
    }
  }

  lemma PopStack(s: State, t: nat, h: Head, nx: int, notice: bool, pc: Pc, s': State)
    requires StackOk(s) && (forall x | x in s.use :: UseOk(s, x)) && s.head == h && Successor(s, h, nx) && h.data in s.use
    requires s'.stack == Popped(s, t, h, nx, notice, pc).stack && s'.use == Popped(s, t, h, nx, notice, pc).use
    requires s'.head == h.WithPop(nx) && s'.next == s.next
    ensures StackOk(s') && forall x | x in s'.use :: UseOk(s', x)
  {
    TruePop(s, h, nx);
    var n: nat := |s.stack| - 1;
    assert StackAt(s, n);
    forall i: nat | i < |s'.stack|
      ensures StackAt(s', i)
    {
      assert StackAt(s, i);
    }
    forall x | x in s'.use
      ensures UseOk(s', x)
    {
      assert UseOk(s, x);
      if s.use[x].Stacked? && x != h.data { assert s.use[x].i != n; }
    }
  }

  lemma PopLater(s: State, t: nat, h: Head, nx: int, notice: bool, pc: Pc, s': State)
    requires StackOk(s) && s.head == h && Successor(s, h, nx) && h.data in s.use && s'.use == Popped(s, t, h, nx, notice, pc).use
    requires s'.head == h.WithPop(nx) && s'.next == s.next && s'.stack == Rest(s.stack)
    ensures Later(s, t, s')
  {
    TruePop(s, h, nx);
  }

  lemma PostPopKeeps(s: State, initial: nat, t: nat, n: nat, h: Head, nx: int, s': State)
    requires Core(s, initial) && AllKnow(s) && t in s.pcs && s.pcs[t] == PopCas(n, h, nx) && Knows(s, t, s.pcs[t]) && s.head == h && h.data in s.use
    requires s' == Popped(s, t, h, nx, false, HandOff(n, h.data)).(posted := s.posted + 1, given := s.given + 1, credited := s.credited + {h.data})
    ensures Core(s', initial) && AllKnow(s')
  {
    hide StackOk, UseOk, Later, Successor;
    TruePop(s, h, nx);
    PopStack(s, t, h, nx, false, HandOff(n, h.data), s');
    PopLater(s, t, h, nx, false, HandOff(n, h.data), s');
    assert h.data !in s.credited;
    OthersKnow(s, t, s');
  }

  lemma ShutPopKeeps(s: State, initial: nat, t: nat, h: Head, nx: int, s': State)
    requires Core(s, initial) && AllKnow(s) && t in s.pcs && s.pcs[t] == ShutPopCas(h, nx) && Knows(s, t, s.pcs[t]) && s.head == h && h.data in s.use
    requires s' == Popped(s, t, h, nx, true, ShutMark(h.WithPop(nx), h.data))
    ensures Core(s', initial) && AllKnow(s')
  {
    hide StackOk, UseOk, Later, Successor;
    TruePop(s, h, nx);
    PopStack(s, t, h, nx, true, ShutMark(h.WithPop(nx), h.data), s');
    PopLater(s, t, h, nx, true, ShutMark(h.WithPop(nx), h.data), s');
    TopIn(s');
    OthersKnow(s, t, s');
  }

  lemma TopIn(s: State)
    requires StackOk(s)
    ensures Recent(s, s.head)
  {
  }

  lemma HandOffKeeps(s: State, initial: nat, t: nat, n: nat, idx: nat, s': State)
    requires Core(s, initial) && AllKnow(s) && t in s.pcs && s.pcs[t] == HandOff(n, idx) && Knows(s, t, s.pcs[t])
    requires s' == Goto(s, t, if n <= 1 then Idle(Nothing) else IncrLoad(n - 1)).(use := s.use[idx := Posted(s.use[idx].w, false)])
    ensures Core(s', initial) && AllKnow(s')
  {
    hide StackOk, Recent, Successor;
    assert UseOk(s, idx);
    StackKept(s, s');
    UsesKept(s, s', idx);
    OthersKnow(s, t, s');
  }

  lemma MarkKeeps(s: State, initial: nat, t: nat, h: Head, idx: nat, s': State)
    requires Core(s, initial) && AllKnow(s) && t in s.pcs && s.pcs[t] == ShutMark(h, idx) && Knows(s, t, s.pcs[t])
    requires s' == Goto(s, t, ShutPost(h, idx)).(next := s.next[idx := NOTICE])
    ensures Core(s', initial) && AllKnow(s')
  {
    hide StackOk, Successor, AllKnow, Later;
    assert UseOk(s, idx);
    StackKept(s, s');
    UsesKept(s, s', idx);
    HandLater(s, t, idx, s');
    OthersKnow(s, t, s');
  }

  /** Writes to a node in the thread's hands. */
  lemma HandLater(s: State, t: nat, idx: nat, s': State)
    requires StackOk(s) && idx in s.use && s.use[idx].Handed? && s.use[idx].t == t && s'.head == s.head && s'.stack == s.stack
    requires s'.use.Keys == s.use.Keys && (forall x | x in s.use && x != idx :: s'.use[x] == s.use[x])
    requires s'.use[idx].w == s.use[idx].w && !s'.use[idx].Own?
    requires forall x | x in s.next && x != idx :: x in s'.next && s'.next[x] == s.next[x]
    ensures Later(s, t, s')
  {
    hide StackOk;
  }

  lemma NoticeKeeps(s: State, initial: nat, t: nat, h: Head, idx: nat, s': State)
    requires Core(s, initial) && AllKnow(s) && t in s.pcs && s.pcs[t] == ShutPost(h, idx) && Knows(s, t, s.pcs[t])
    requires s' == Goto(s, t, ShutTest(h)).(use := s.use[idx := Posted(s.use[idx].w, true)])
    ensures Core(s', initial) && AllKnow(s')
  {
    hide StackOk, Successor, AllKnow, Later;
    assert UseOk(s, idx);
    StackKept(s, s');
    UsesKept(s, s', idx);
    HandLater(s, t, idx, s');
    OthersKnow(s, t, s');
  }

  lemma ReturnKeeps(s: State, initial: nat, t: nat, idx: nat, s': State)
    requires Core(s, initial) && AllKnow(s) && t in s.pcs && Uses(s, idx, Posted(t, false))
    requires s' == Goto(Free(s, idx), t, Idle(Unit)).(credited := s.credited - {idx}, woken := s.woken + 1)
    ensures Core(s', initial) && AllKnow(s')
  {
    hide StackOk, Recent, Successor;
    StackKept(s, s');
    UsesKept(s, s', idx);
    OthersKnow(s, t, s');
  }

  lemma NoticeSeen(s: State, idx: nat)
    requires idx in s.use && UseOk(s, idx) && s.use[idx].Posted?
    ensures s.use[idx].notice <==> Read(s.next, idx) == NOTICE
  {
  }

  /** A waiter returns: with a unit exactly if a post popped its node, with an error exactly if shutdown did. */
  lemma WokenKeeps(s: State, initial: nat, t: nat, idx: nat, s': State)
    requires Core(s, initial) && AllKnow(s) && t in s.pcs && s.pcs[t] == Woken(idx) && Knows(s, t, s.pcs[t])
    requires s' == if Read(s.next, idx) == NOTICE then Goto(Free(s, idx), t, Idle(Thrown))
                   else Goto(Free(s, idx), t, Idle(Unit)).(credited := s.credited - {idx}, woken := s.woken + 1)
    ensures Core(s', initial) && AllKnow(s')
    ensures s.use[idx].notice <==> Read(s.next, idx) == NOTICE
  {
    hide Core, AllKnow;
    assert UseOk(s, idx) by { CoreUse(s, initial, idx); }
    NoticeSeen(s, idx);
    if Read(s.next, idx) == NOTICE { FreeKeeps(s, initial, t, idx, Thrown, s'); } else { ReturnKeeps(s, initial, t, idx, s'); }
  }

  lemma CoreUse(s: State, initial: nat, idx: nat)
    requires Core(s, initial) && idx in s.use
    ensures UseOk(s, idx)
  {
  }

  lemma ShutKeeps(s: State, initial: nat, t: nat, h: Head, s': State)
    requires Core(s, initial) && AllKnow(s) && t in s.pcs && s.pcs[t] == ShutCas(h) && s.head == h
    requires s' == Goto(s, t, ShutTest(h.WithShutdown())).(head := h.WithShutdown())
    ensures Core(s', initial) && AllKnow(s')
  {
    hide StackOk, Recent, Successor, AllKnow;
    StackKept(s, s');
    UsesKept(s, s', 0);
    TopIn(s');
    OthersKnow(s, t, s');
  }

  // ---- all steps ----

  predicate Posting(pc: Pc) {
    pc.IncrLoad? || pc.PopRead? || pc.PopCas? || pc.IncrCas? || pc.HandOff?
  }

  predicate Stopping(pc: Pc) {
    pc.ShutLoad? || pc.ShutCas? || pc.ShutTest? || pc.ShutPopCas? || pc.ShutMark? || pc.ShutPost?
  }

  lemma PostStepKeeps(s: State, initial: nat, t: nat, e: Event, s': State)
    requires Core(s, initial) && AllKnow(s) && Step(s, t, e, s') && Posting(s.pcs[t]) && Knows(s, t, s.pcs[t])
    ensures Core(s', initial) && AllKnow(s')
  {
    hide Core, AllKnow;
    match s.pcs[t] {
      case IncrLoad(n) =>
        assert Core(s, initial);
        HeadRecent(s, initial);
        ReadKeeps(s, initial, t, if s.head.isNode then PopRead(n, s.head) else IncrCas(n, s.head));
      case PopRead(n, h) => ReadKeeps(s, initial, t, PopCas(n, h, Read(s.next, h.data)));
      case PopCas(n, h, nx) =>
        if s.head != h { ReadKeeps(s, initial, t, IncrLoad(n)); } else { PostPopKeeps(s, initial, t, n, h, nx, s'); }
      case IncrCas(n, h) =>
        if s.head != h { ReadKeeps(s, initial, t, IncrLoad(n)); } else { IncrKeeps(s, initial, t, n, h, s'); }
      case HandOff(n, idx) => HandOffKeeps(s, initial, t, n, idx, s');
      case _ =>
    }
  }

  lemma HeadRecent(s: State, initial: nat)
    requires Core(s, initial)
    ensures Recent(s, s.head) && (!s.head.isNode ==> s.stack == [])
  {
  }

  lemma StopStepKeeps(s: State, initial: nat, t: nat, e: Event, s': State)
    requires Core(s, initial) && AllKnow(s) && Step(s, t, e, s') && Stopping(s.pcs[t]) && Knows(s, t, s.pcs[t])
    ensures Core(s', initial) && AllKnow(s')
  {
    hide Core, AllKnow;
    HeadRecent(s, initial);
    match s.pcs[t] {
      case ShutLoad => ReadKeeps(s, initial, t, if s.head.shut then ShutTest(s.head) else ShutCas(s.head));
      case ShutCas(h) =>
        if s.head != h { ReadKeeps(s, initial, t, if s.head.shut then ShutTest(s.head) else ShutCas(s.head)); }
        else { ShutKeeps(s, initial, t, h, s'); }
      case ShutTest(h) => ReadKeeps(s, initial, t, if h.isNode then ShutPopCas(h, Read(s.next, h.data)) else Idle(Nothing));
      case ShutPopCas(h, nx) =>
        if s.head != h { ReadKeeps(s, initial, t, ShutTest(s.head)); } else { ShutPopKeeps(s, initial, t, h, nx, s'); }
      case ShutMark(h, idx) => MarkKeeps(s, initial, t, h, idx, s');
      case ShutPost(h, idx) => NoticeKeeps(s, initial, t, h, idx, s');
      case _ =>
    }
  }

  lemma WaitStepKeeps(s: State, initial: nat, t: nat, e: Event, s': State)
    requires Core(s, initial) && AllKnow(s) && Step(s, t, e, s') && Knows(s, t, s.pcs[t])
    requires !Posting(s.pcs[t]) && !Stopping(s.pcs[t]) && !s.pcs[t].Idle?
    ensures Core(s', initial) && AllKnow(s')
  {
    hide Core, AllKnow;
    match s.pcs[t] {
      case TryLoad(n, orig, b) =>
        ReadKeeps(s, initial, t, if !s.head.isNode && s.head.data > 0 then TryCas(n, orig, b, s.head) else if b then AllocNode else Idle(Took(orig - n)));
      case TryCas(n, orig, b, h) =>
        if s.head != h { ReadKeeps(s, initial, t, TryLoad(n, orig, b)); }
        else {
          var delta := if n < h.data then n else h.data;
          DecrKeeps(s, initial, t, h, delta, if n == delta then Idle(if b then Unit else Took(orig)) else TryLoad(n - delta, orig, b), s');
        }
      case AllocNode => AllocKeeps(s, initial, t, e.idx, s');
      case WaitLoad(idx) => WaitLoadKeeps(s, initial, t, idx, s');
      case WaitDecrCas(idx, h) => WaitDecrKeeps(s, initial, t, idx, h, s');
      case WaitLink(idx, h) => LinkKeeps(s, initial, t, idx, h, s');
      case WaitPushCas(idx, h) =>
        if s.head != h { ReadKeeps(s, initial, t, WaitLoad(idx)); } else { PushKeeps(s, initial, t, idx, h, s'); }
      case Blocked(idx) => ReadKeeps(s, initial, t, Woken(idx));
      case Woken(idx) => WokenKeeps(s, initial, t, idx, s');
      case _ =>
    }
  }

  lemma WaitLoadKeeps(s: State, initial: nat, t: nat, idx: nat, s': State)
    requires Core(s, initial) && AllKnow(s) && t in s.pcs && s.pcs[t] == WaitLoad(idx) && Step(s, t, Go, s') && Knows(s, t, s.pcs[t])
    ensures Core(s', initial) && AllKnow(s')
  {
    if !s.head.isNode && s.head.data > 0 { ReadKeeps(s, initial, t, WaitDecrCas(idx, s.head)); }
    else if s.head.shut { FreeKeeps(s, initial, t, idx, Thrown, s'); }
    else { ReadKeeps(s, initial, t, WaitLink(idx, s.head)); }
  }

  lemma WaitDecrKeeps(s: State, initial: nat, t: nat, idx: nat, h: Head, s': State)
    requires Core(s, initial) && AllKnow(s) && t in s.pcs && s.pcs[t] == WaitDecrCas(idx, h) && Step(s, t, Go, s') && Knows(s, t, s.pcs[t])
    ensures Core(s', initial) && AllKnow(s')
  {
    hide Core, AllKnow;
    if s.head != h {
      ReadKeeps(s, initial, t, WaitLoad(idx));
    } else {
      FreeKeeps(s, initial, t, idx, Unit, Goto(Free(s, idx), t, Idle(Unit)));
      DecrKeeps(Goto(Free(s, idx), t, Idle(Unit)), initial, t, h, 1, Idle(Unit), s');
    }
  }

  lemma StartKeeps(s: State, initial: nat, t: nat, e: Event, s': State)
    requires Core(s, initial) && AllKnow(s) && Step(s, t, e, s') && s.pcs[t].Idle?
    ensures Core(s', initial) && AllKnow(s')
  {
    hide Core, AllKnow;
    match e {
      case StartPost(n) => ReadKeeps(s, initial, t, if n == 0 then Idle(Nothing) else IncrLoad(n));
      case StartTry(n) => ReadKeeps(s, initial, t, if n == 0 then Idle(Took(0)) else TryLoad(n, n, false));
      case StartWait => ReadKeeps(s, initial, t, TryLoad(1, 1, true));
      case StartShutdown => ReadKeeps(s, initial, t, ShutLoad);
      case _ =>
    }
  }

  lemma StepKeeps(s: State, initial: nat, t: nat, e: Event, s': State)
    requires Inv(s, initial) && Step(s, t, e, s')
    ensures Inv(s', initial)
  {
    hide Core, Knows, Step;
    StepThread(s, t, e, s');
    if s.pcs[t].Idle? { StartKeeps(s, initial, t, e, s'); }
    else if Posting(s.pcs[t]) { PostStepKeeps(s, initial, t, e, s'); }
    else if Stopping(s.pcs[t]) { StopStepKeeps(s, initial, t, e, s'); }
    else { WaitStepKeeps(s, initial, t, e, s'); }
  }

  lemma StepThread(s: State, t: nat, e: Event, s': State)
    requires Step(s, t, e, s')
    ensures t in s.pcs
  {
  }

  // ---- what holds in every reachable state ----

  ghost predicate Steps(s: State, s': State) {
    exists t: nat, e: Event :: Step(s, t, e, s')
  }

  ghost predicate IsRun(run: seq<State>, initial: nat) {
    |run| > 0 && Init(run[0], initial) && forall k: nat | k + 1 < |run| :: Steps(run[k], run[k + 1])
  }

  lemma {:induction false} Reachable(run: seq<State>, initial: nat, k: nat)
    requires IsRun(run, initial) && k < |run|
    ensures Inv(run[k], initial)
  {
    hide Inv, Init, Step;
    if k == 0 {
      InitInv(run[0], initial);
    } else {
      Reachable(run, initial, k - 1);
      assert Steps(run[k - 1], run[k - 1 + 1]);
      var t: nat, e: Event :| Step(run[k - 1], t, e, run[k]);
      StepKeeps(run[k - 1], initial, t, e, run[k]);
    }
  }

  /** Conservation: units put in equal the value, what was decremented, and the waiters popped by posts;
      each of these waiters has returned with its unit or is about to. */
  lemma Conserved(run: seq<State>, initial: nat, k: nat)
    requires IsRun(run, initial) && k < |run|
    ensures var s := run[k];
            initial + s.posted == s.head.Value() + s.decremented + s.given && s.given == s.woken + |s.credited|
    ensures var s := run[k]; forall x | x in s.use && (s.use[x].Handed? || s.use[x].Posted?) && !s.use[x].notice :: x in s.credited
  {
    Reachable(run, initial, k);
  }

  /** A positive value excludes queued waiters, and the stack is what the links from the head lead through. */
  lemma ValueOrWaiters(run: seq<State>, initial: nat, k: nat)
    requires IsRun(run, initial) && k < |run|
    ensures var s := run[k]; (s.head.Value() > 0 ==> s.stack == []) && (s.head.isNode <==> s.stack != [])
    ensures var s := run[k]; s.head.isNode ==> s.head.data == Top(s.stack)
    ensures var s := run[k]; forall i: nat | i < |s.stack| :: StackAt(s, i)
    ensures var s := run[k]; forall i: nat, j: nat | i < j < |s.stack| :: s.stack[i] != s.stack[j]
  {
    Reachable(run, initial, k);
    var s := run[k];
    forall i: nat, j: nat | i < j < |s.stack|
      ensures s.stack[i] != s.stack[j]
    {
      assert StackAt(s, i) && StackAt(s, j);
    }
  }

  /** A compare-and-swap that pops installs the true rest of the stack, however often nodes were reused since the reads. */
  lemma NoAba(run: seq<State>, initial: nat, k: nat, t: nat)
    requires IsRun(run, initial) && k < |run| && t in run[k].pcs
    ensures var s := run[k];
            (s.pcs[t].PopCas? || s.pcs[t].ShutPopCas?) && s.pcs[t].h == s.head ==>
              s.stack != [] && s.head.data == Top(s.stack) && s.pcs[t].nx == Top(Rest(s.stack))
  {
    Reachable(run, initial, k);
    var s := run[k];
    if (s.pcs[t].PopCas? || s.pcs[t].ShutPopCas?) && s.pcs[t].h == s.head {
      TruePop(s, s.pcs[t].h, s.pcs[t].nx);
    }
  }

  /** Once shut down, the semaphore stays so and nobody queues any more: the stack only shrinks. */
  lemma ShutForGood(s: State, initial: nat, t: nat, e: Event, s': State)
    requires Inv(s, initial) && Step(s, t, e, s') && s.head.shut
    ensures s'.head.shut && |s'.stack| <= |s.stack|
  {
    hide Core;
    assert Knows(s, t, s.pcs[t]);
  }

  /** shutdown() returns when the head it read has no waiter: then none is queued, and by ShutForGood none ever will be. */
  lemma ShutdownEmpties(run: seq<State>, initial: nat, k: nat, t: nat)
    requires IsRun(run, initial) && k < |run| && t in run[k].pcs
    ensures var s := run[k]; s.pcs[t].ShutTest? && !s.pcs[t].h.isNode ==> s.head.shut && s.stack == []
  {
    Reachable(run, initial, k);
    assert Knows(run[k], t, run[k].pcs[t]);
  }
}
