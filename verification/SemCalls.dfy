/** LifoSem: what whole calls of post, tryWait, wait and shutdown do and return. */
module SemCalls {
  import opened LifoSem

  datatype Move = Move(t: nat, e: Event)

  /** A run with the moves that made its steps. */
  ghost predicate IsTrace(run: seq<State>, mv: seq<Move>, initial: nat) {
    && |run| == |mv| + 1 && Init(run[0], initial)
    && forall j: nat | j < |mv| :: Step(run[j], mv[j].t, mv[j].e, run[j + 1])
  }

  lemma TraceIsRun(run: seq<State>, mv: seq<Move>, initial: nat)
    requires IsTrace(run, mv, initial)
    ensures IsRun(run, initial)
  {
    hide Init, Step;
    forall j: nat | j + 1 < |run|
      ensures Steps(run[j], run[j + 1])
    {
      assert Step(run[j], mv[j].t, mv[j].e, run[j + 1]);
    }
  }

  /** Thread t begins a call between states a and a + 1 and has not returned before state j, or just returns in it. */
  ghost predicate During(run: seq<State>, mv: seq<Move>, t: nat, a: nat, j: nat)
    requires |run| == |mv| + 1
  {
    && a < j < |run| && mv[a].t == t && t in run[a].pcs && run[a].pcs[t].Idle? && t in run[j].pcs
    && forall i | a < i < j :: t in run[i].pcs && !run[i].pcs[t].Idle?
  }

  /** The call returns in state b, with thread t's last access. */
  ghost predicate Call(run: seq<State>, mv: seq<Move>, t: nat, a: nat, b: nat)
    requires |run| == |mv| + 1
  {
    During(run, mv, t, a, b) && run[b].pcs[t].Idle? && mv[b - 1].t == t
  }

  ghost predicate Others(s: State, t: nat, s': State) {
    t in s.pcs && s'.pcs.Keys == s.pcs.Keys && forall u | u in s.pcs && u != t :: s'.pcs[u] == s.pcs[u]
  }

  lemma OnlyThread(s: State, t: nat, e: Event, s': State)
    requires Step(s, t, e, s')
    ensures Others(s, t, s')
  {
    hide Step, Others;
    StepThread(s, t, e, s');
    if Posting(s.pcs[t]) { PostOthers(s, t, e, s'); }
    else if Stopping(s.pcs[t]) { StopOthers(s, t, e, s'); }
    else { WaitOthers(s, t, e, s'); }
  }

  lemma PostOthers(s: State, t: nat, e: Event, s': State)
    requires t in s.pcs && Step(s, t, e, s') && Posting(s.pcs[t])
    ensures Others(s, t, s')
  {
  }

  lemma StopOthers(s: State, t: nat, e: Event, s': State)
    requires t in s.pcs && Step(s, t, e, s') && Stopping(s.pcs[t])
    ensures Others(s, t, s')
  {
  }

  lemma WaitOthers(s: State, t: nat, e: Event, s': State)
    requires t in s.pcs && Step(s, t, e, s') && !Posting(s.pcs[t]) && !Stopping(s.pcs[t])
    ensures Others(s, t, s')
  {
  }

  lemma At(run: seq<State>, mv: seq<Move>, initial: nat, j: nat)
    requires IsTrace(run, mv, initial) && j < |mv|
    ensures Inv(run[j], initial) && Inv(run[j + 1], initial) && Step(run[j], mv[j].t, mv[j].e, run[j + 1])
    ensures Others(run[j], mv[j].t, run[j + 1])
  {
    hide Inv, Init, Step, Others;
    TraceIsRun(run, mv, initial);
    Reachable(run, initial, j);
    Reachable(run, initial, j + 1);
    OnlyThread(run[j], mv[j].t, mv[j].e, run[j + 1]);
  }

  // ---- the sequence number ----

  /** It counts the pops and the changes of the value; pushing and shutting down leave it. */
  lemma TurnCounts(s: State, initial: nat, t: nat, e: Event, s': State)
    requires Inv(s, initial) && Step(s, t, e, s')
    ensures s'.head.turn == s.head.turn + if |s'.stack| < |s.stack| || s'.head.Value() != s.head.Value() then 1 else 0
  {
    hide Inv, Step;
    StepThread(s, t, e, s');
    KnowsIt(s, initial, t);
    if Posting(s.pcs[t]) { PostTurn(s, t, e, s'); }
    else if Stopping(s.pcs[t]) { StopTurn(s, t, e, s'); }
    else { WaitTurn(s, t, e, s'); }
  }

  lemma PostTurn(s: State, t: nat, e: Event, s': State)
    requires t in s.pcs && Step(s, t, e, s') && Posting(s.pcs[t]) && Knows(s, t, s.pcs[t]) && StackOk(s)
    ensures s'.head.turn == s.head.turn + if |s'.stack| < |s.stack| || s'.head.Value() != s.head.Value() then 1 else 0
  {
    hide StackOk, Successor;
    if s.pcs[t].PopCas? && s.head == s.pcs[t].h { TruePop(s, s.head, s.pcs[t].nx); }
  }

  lemma StopTurn(s: State, t: nat, e: Event, s': State)
    requires t in s.pcs && Step(s, t, e, s') && Stopping(s.pcs[t]) && Knows(s, t, s.pcs[t]) && StackOk(s)
    ensures s'.head.turn == s.head.turn + if |s'.stack| < |s.stack| || s'.head.Value() != s.head.Value() then 1 else 0
  {
    hide StackOk, Successor, Recent;
    if s.pcs[t].ShutPopCas? && s.head == s.pcs[t].h { TruePop(s, s.head, s.pcs[t].nx); }
  }

  lemma WaitTurn(s: State, t: nat, e: Event, s': State)
    requires t in s.pcs && Step(s, t, e, s') && !Posting(s.pcs[t]) && !Stopping(s.pcs[t]) && Knows(s, t, s.pcs[t]) && StackOk(s)
    ensures s'.head.turn == s.head.turn + if |s'.stack| < |s.stack| || s'.head.Value() != s.head.Value() then 1 else 0
  {
    hide StackOk;
  }

  // ---- units ----

  /** The units that a step takes out: by lowering the value, or by returning from a wait that a post has served. */
  ghost function Taken(s: State, s': State): nat {
    (if !s.head.isNode && !s'.head.isNode && s'.head.data < s.head.data then s.head.data - s'.head.data else 0) + |s.credited - s'.credited|
  }

  /** The units that a step puts in: by raising the value, or by serving a waiter. */
  ghost function Given(s: State, s': State): nat {
    (if !s.head.isNode && !s'.head.isNode && s'.head.data > s.head.data then s'.head.data - s.head.data else 0) + |s'.credited - s.credited|
  }

  /** What thread t takes, and puts in, between states a and j. */
  ghost function TakenBy(run: seq<State>, mv: seq<Move>, t: nat, a: nat, j: nat): nat
    requires |run| == |mv| + 1 && j < |run|
  {
    if j <= a then 0 else TakenBy(run, mv, t, a, j - 1) + if mv[j - 1].t == t then Taken(run[j - 1], run[j]) else 0
  }

  ghost function PutBy(run: seq<State>, mv: seq<Move>, t: nat, a: nat, j: nat): nat
    requires |run| == |mv| + 1 && j < |run|
  {
    if j <= a then 0 else PutBy(run, mv, t, a, j - 1) + if mv[j - 1].t == t then Given(run[j - 1], run[j]) else 0
  }

  // ---- the account of a call ----

  ghost predicate PostTally(n: nat, pc: Pc, put: nat) {
    match pc
    case IncrLoad(m) => put + m == n
    case PopRead(m, _) => put + m == n
    case PopCas(m, _, _) => put + m == n
    case IncrCas(m, _) => put + m == n
    case HandOff(m, _) => put + m == n + 1
    case Idle(r) => put == n && r == Nothing
    case _ => false
  }

  ghost predicate TryTally(n: nat, pc: Pc, took: nat) {
    match pc
    case TryLoad(m, orig, blocking) => !blocking && orig == n && took + m == n
    case TryCas(m, orig, blocking, _) => !blocking && orig == n && took + m == n
    case Idle(r) => r == Took(took) && took <= n
    case _ => false
  }

  ghost predicate WaitTally(pc: Pc, took: nat) {
    match pc
    case TryLoad(m, _, blocking) => blocking && m == 1 && took == 0
    case TryCas(m, _, blocking, _) => blocking && m == 1 && took == 0
    case AllocNode => took == 0
    case WaitLoad(_) => took == 0
    case WaitDecrCas(_, _) => took == 0
    case WaitLink(_, _) => took == 0
    case WaitPushCas(_, _) => took == 0
    case Blocked(_) => took == 0
    case Woken(_) => took == 0
    case Idle(r) => (r == Unit && took == 1) || (r == Thrown && took == 0)
    case _ => false
  }

  /** What a call has done when it stands at pc. */
  ghost predicate Tally(e: Event, pc: Pc, took: nat, put: nat) {
    match e
    case StartPost(n) => took == 0 && PostTally(n, pc, put)
    case StartTry(n) => put == 0 && TryTally(n, pc, took)
    case StartWait => put == 0 && WaitTally(pc, took)
    case StartShutdown => took == 0 && put == 0 && (Stopping(pc) || pc == Idle(Nothing))
    case _ => false
  }

  lemma Begins(s: State, t: nat, e: Event, s': State)
    requires Step(s, t, e, s') && s.pcs[t].Idle?
    ensures t in s'.pcs && Tally(e, s'.pcs[t], Taken(s, s'), Given(s, s'))
  {
  }

  lemma Goes(s: State, initial: nat, t: nat, e: Event, s': State, call: Event, took: nat, put: nat)
    requires Inv(s, initial) && Step(s, t, e, s') && !s.pcs[t].Idle? && Tally(call, s.pcs[t], took, put) && t in s'.pcs
    ensures Tally(call, s'.pcs[t], took + Taken(s, s'), put + Given(s, s'))
  {
    hide Inv, Step, Tally;
    StepThread(s, t, e, s');
    assert Knows(s, t, s.pcs[t]) by { KnowsIt(s, initial, t); }
    if Posting(s.pcs[t]) { PostGoes(s, initial, t, e, s', call, took, put); }
    else if Stopping(s.pcs[t]) { StopGoes(s, initial, t, e, s', call, took, put); }
    else { WaitGoes(s, initial, t, e, s', call, took, put); }
  }

  lemma KnowsIt(s: State, initial: nat, t: nat)
    requires Inv(s, initial) && t in s.pcs
    ensures Knows(s, t, s.pcs[t]) && StackOk(s) && Credit(s) && forall x | x in s.use :: UseOk(s, x)
  {
  }

  lemma PostGoes(s: State, initial: nat, t: nat, e: Event, s': State, call: Event, took: nat, put: nat)
    requires Inv(s, initial) && Step(s, t, e, s') && t in s.pcs && Posting(s.pcs[t]) && Tally(call, s.pcs[t], took, put) && t in s'.pcs
    ensures Tally(call, s'.pcs[t], took + Taken(s, s'), put + Given(s, s'))
  {
    hide Inv, StackOk, UseOk, Step, Taken, Given, Tally;
    KnowsIt(s, initial, t);
    if s.pcs[t].PopCas? && s.head == s.pcs[t].h { PopGoes(s, t, e, s', call, took, put); } else { IncrGoes(s, t, e, s', call, took, put); }
  }

  lemma PopGoes(s: State, t: nat, e: Event, s': State, call: Event, took: nat, put: nat)
    requires Step(s, t, e, s') && t in s.pcs && s.pcs[t].PopCas? && s.head == s.pcs[t].h && Tally(call, s.pcs[t], took, put) && t in s'.pcs
    requires Knows(s, t, s.pcs[t]) && StackOk(s) && Credit(s)
    ensures Tally(call, s'.pcs[t], took + Taken(s, s'), put + Given(s, s'))
  {
    hide StackOk, Successor;
    TruePop(s, s.head, s.pcs[t].nx);
    assert s'.credited - s.credited == {s.head.data} && s.credited - s'.credited == {};
  }

  lemma IncrGoes(s: State, t: nat, e: Event, s': State, call: Event, took: nat, put: nat)
    requires Step(s, t, e, s') && t in s.pcs && Posting(s.pcs[t]) && !(s.pcs[t].PopCas? && s.head == s.pcs[t].h)
    requires Tally(call, s.pcs[t], took, put) && t in s'.pcs && Knows(s, t, s.pcs[t])
    ensures Tally(call, s'.pcs[t], took + Taken(s, s'), put + Given(s, s'))
  {
    hide Successor;
    assert s'.credited == s.credited;
  }

  lemma StopGoes(s: State, initial: nat, t: nat, e: Event, s': State, call: Event, took: nat, put: nat)
    requires Inv(s, initial) && Step(s, t, e, s') && t in s.pcs && Stopping(s.pcs[t]) && Tally(call, s.pcs[t], took, put) && t in s'.pcs
    ensures Tally(call, s'.pcs[t], took + Taken(s, s'), put + Given(s, s'))
  {
    hide Inv, StackOk, UseOk;
    KnowsIt(s, initial, t);
  }

  lemma WaitGoes(s: State, initial: nat, t: nat, e: Event, s': State, call: Event, took: nat, put: nat)
    requires Inv(s, initial) && Step(s, t, e, s') && t in s.pcs && !Posting(s.pcs[t]) && !Stopping(s.pcs[t]) && !s.pcs[t].Idle?
    requires Tally(call, s.pcs[t], took, put) && t in s'.pcs
    ensures Tally(call, s'.pcs[t], took + Taken(s, s'), put + Given(s, s'))
  {
    hide Inv, StackOk, Tally, Taken, Given, Step, UseOk;
    KnowsIt(s, initial, t);
    if s.pcs[t].Woken? {
      assert UseOk(s, s.pcs[t].idx);
      WokenGoes(s, t, e, s', call, took, put);
    } else if s.pcs[t].TryLoad? || s.pcs[t].TryCas? {
      TryGoes(s, t, e, s', call, took, put);
    } else {
      NodeGoes(s, t, e, s', call, took, put);
    }
  }

  lemma WokenGoes(s: State, t: nat, e: Event, s': State, call: Event, took: nat, put: nat)
    requires Step(s, t, e, s') && t in s.pcs && s.pcs[t].Woken? && Tally(call, s.pcs[t], took, put) && t in s'.pcs
    requires Knows(s, t, s.pcs[t]) && Credit(s) && UseOk(s, s.pcs[t].idx)
    ensures Tally(call, s'.pcs[t], took + Taken(s, s'), put + Given(s, s'))
  {
    var x := s.pcs[t].idx;
    NoticeSeen(s, x);
    if x in s.credited { assert s.credited - s'.credited == {x}; }
  }

  lemma TryGoes(s: State, t: nat, e: Event, s': State, call: Event, took: nat, put: nat)
    requires Step(s, t, e, s') && t in s.pcs && (s.pcs[t].TryLoad? || s.pcs[t].TryCas?) && Tally(call, s.pcs[t], took, put) && t in s'.pcs
    requires Knows(s, t, s.pcs[t])
    ensures Tally(call, s'.pcs[t], took + Taken(s, s'), put + Given(s, s'))
  {
    assert s'.credited == s.credited;
  }

  lemma NodeGoes(s: State, t: nat, e: Event, s': State, call: Event, took: nat, put: nat)
    requires Step(s, t, e, s') && t in s.pcs && !Posting(s.pcs[t]) && !Stopping(s.pcs[t]) && !s.pcs[t].Idle?
    requires !s.pcs[t].Woken? && !s.pcs[t].TryLoad? && !s.pcs[t].TryCas? && Tally(call, s.pcs[t], took, put) && t in s'.pcs
    requires Knows(s, t, s.pcs[t])
    ensures Tally(call, s'.pcs[t], took + Taken(s, s'), put + Given(s, s'))
  {
    assert s'.credited == s.credited;
  }

  lemma {:induction false} TallySoFar(run: seq<State>, mv: seq<Move>, initial: nat, t: nat, a: nat, j: nat)
    requires IsTrace(run, mv, initial) && During(run, mv, t, a, j)
    ensures Tally(mv[a].e, run[j].pcs[t], TakenBy(run, mv, t, a, j), PutBy(run, mv, t, a, j))
    decreases j
  {
    hide Init, Inv, Step, Tally, Taken, Given;
    var i := j - 1;
    At(run, mv, initial, i);
    if i == a {
      Begins(run[i], t, mv[i].e, run[j]);
    } else {
      TallySoFar(run, mv, initial, t, a, i);
      if mv[i].t == t {
        Goes(run[i], initial, t, mv[i].e, run[j], mv[a].e, TakenBy(run, mv, t, a, i), PutBy(run, mv, t, a, i));
      }
    }
  }

  /** post(n) puts in exactly n units, takes none, and leaves no waiter in its hands unserved. */
  lemma PostPuts(run: seq<State>, mv: seq<Move>, initial: nat, t: nat, a: nat, b: nat, n: nat)
    requires IsTrace(run, mv, initial) && Call(run, mv, t, a, b) && mv[a].e == StartPost(n)
    ensures PutBy(run, mv, t, a, b) == n && TakenBy(run, mv, t, a, b) == 0 && run[b].pcs[t] == Idle(Nothing)
    ensures forall x | x in run[b].use && run[b].use[x].Handed? :: run[b].use[x].t != t
  {
    TallySoFar(run, mv, initial, t, a, b);
    HandsEmpty(run, mv, initial, t, b);
  }

  /** tryWait(n) returns what it took, and less than n only after seeing no value. */
  lemma TryTakes(run: seq<State>, mv: seq<Move>, initial: nat, t: nat, a: nat, b: nat, n: nat)
    requires IsTrace(run, mv, initial) && Call(run, mv, t, a, b) && mv[a].e == StartTry(n)
    ensures var m := TakenBy(run, mv, t, a, b);
            run[b].pcs[t] == Idle(Took(m)) && m <= n && PutBy(run, mv, t, a, b) == 0 && (m < n ==> run[b - 1].head.Value() == 0)
  {
    hide Init, Inv, Step, Taken, Given;
    TallySoFar(run, mv, initial, t, a, b);
    At(run, mv, initial, b - 1);
    if b - 1 > a {
      TallySoFar(run, mv, initial, t, a, b - 1);
      TryEnds(run[b - 1], t, mv[b - 1].e, run[b], n, TakenBy(run, mv, t, a, b - 1));
    } else {
      NoCall(run[a], t, mv[a].e, run[b]);
    }
  }

  lemma NoCall(s: State, t: nat, e: Event, s': State)
    requires Step(s, t, e, s') && s.pcs[t].Idle? && t in s'.pcs && s'.pcs[t].Idle?
    ensures e == StartPost(0) || e == StartTry(0)
  {
  }

  lemma TryEnds(s: State, t: nat, e: Event, s': State, n: nat, took: nat)
    requires Step(s, t, e, s') && TryTally(n, s.pcs[t], took) && !s.pcs[t].Idle? && t in s'.pcs && s'.pcs[t].Idle?
    ensures s'.pcs[t].last == Took(n) || s.head.Value() == 0
  {
  }

  /** wait() returns normally having taken exactly one unit, and throws having taken none: then the semaphore was shut
      down and without value when it gave up, or shutdown has popped its node. */
  lemma WaitTakes(run: seq<State>, mv: seq<Move>, initial: nat, t: nat, a: nat, b: nat)
    requires IsTrace(run, mv, initial) && Call(run, mv, t, a, b) && mv[a].e == StartWait
    ensures PutBy(run, mv, t, a, b) == 0
    ensures if run[b].pcs[t] == Idle(Unit) then TakenBy(run, mv, t, a, b) == 1
            else run[b].pcs[t] == Idle(Thrown) && TakenBy(run, mv, t, a, b) == 0 && run[b].head.shut
                 && var s := run[b - 1]; (s.head.shut && s.head.Value() == 0) || (s.pcs[t].Woken? && Uses(s, s.pcs[t].idx, Posted(t, true)))
  {
    hide Init, Inv, Step, Taken, Given;
    TallySoFar(run, mv, initial, t, a, b);
    At(run, mv, initial, b - 1);
    var s := run[b - 1];
    WaitEnds(s, initial, t, mv[b - 1].e, run[b]);
    AlwaysServed(run, mv, initial, b - 1);
    if s.pcs[t].Woken? && Uses(s, s.pcs[t].idx, Posted(t, true)) { assert ServedAt(s, s.pcs[t].idx); }
    if s.head.shut { ShutForGood(s, initial, t, mv[b - 1].e, run[b]); }
  }

  lemma WaitEnds(s: State, initial: nat, t: nat, e: Event, s': State)
    requires Inv(s, initial) && Step(s, t, e, s') && t in s'.pcs
    ensures s'.pcs[t] == Idle(Thrown) ==>
              (s.head.shut && s.head.Value() == 0) || (s.pcs[t].Woken? && Uses(s, s.pcs[t].idx, Posted(t, true)))
  {
    hide Inv, StackOk;
    StepThread(s, t, e, s');
    KnowsIt(s, initial, t);
    if s.pcs[t].Woken? {
      assert UseOk(s, s.pcs[t].idx);
      NoticeSeen(s, s.pcs[t].idx);
    }
  }

  /** shutdown() returns with the semaphore shut down and no waiter queued, and moves no unit. */
  lemma ShutdownStops(run: seq<State>, mv: seq<Move>, initial: nat, t: nat, a: nat, b: nat)
    requires IsTrace(run, mv, initial) && Call(run, mv, t, a, b) && mv[a].e == StartShutdown
    ensures run[b].head.shut && run[b].stack == [] && TakenBy(run, mv, t, a, b) == 0 && PutBy(run, mv, t, a, b) == 0
    ensures forall x | x in run[b].use && run[b].use[x].Handed? :: run[b].use[x].t != t
  {
    hide Init, Inv, Step, Taken, Given;
    TallySoFar(run, mv, initial, t, a, b);
    At(run, mv, initial, b - 1);
    if b - 1 > a {
      TallySoFar(run, mv, initial, t, a, b - 1);
      KnowsIt(run[b - 1], initial, t);
    }
    ShutEnds(run[b - 1], t, mv[b - 1].e, run[b]);
    HandsEmpty(run, mv, initial, t, b);
  }

  lemma ShutEnds(s: State, t: nat, e: Event, s': State)
    requires Step(s, t, e, s') && t in s'.pcs && s'.pcs[t].Idle? && Knows(s, t, s.pcs[t])
    requires if s.pcs[t].Idle? then e == StartShutdown else Stopping(s.pcs[t])
    ensures s'.head.shut && s'.stack == []
  {
  }

  // ---- no waiter is forgotten ----

  predicate Waits(pc: Pc, x: nat) {
    (pc.WaitLoad? || pc.WaitDecrCas? || pc.WaitLink? || pc.WaitPushCas?) && pc.idx == x
  }

  predicate Serves(pc: Pc, x: nat, notice: bool) {
    (if notice then pc.ShutMark? || pc.ShutPost? else pc.HandOff?) && pc.idx == x
  }

  /** Every allocated node is with the thread that waits on it, and, if it was popped, with the one that will post it. */
  ghost predicate ServedAt(s: State, x: nat)
    requires x in s.use
  {
    s.use[x].w in s.pcs && var pc := s.pcs[s.use[x].w];
    match s.use[x]
    case Own(_) => Waits(pc, x)
    case Stacked(_, _) => pc == Blocked(x)
    case Handed(_, u, notice) => pc == Blocked(x) && u in s.pcs && Serves(s.pcs[u], x, notice) && (notice ==> s.head.shut)
    case Posted(_, notice) => (pc == Blocked(x) || pc == Woken(x)) && (notice ==> s.head.shut)
  }

  /** Waiters that are left in a semaphore that was shut down. */
  predicate Emptying(pc: Pc) {
    pc.ShutTest? || pc.ShutPopCas? || pc.ShutMark? || pc.ShutPost?
  }

  ghost predicate Served(s: State) {
    && (forall x | x in s.use :: ServedAt(s, x))
    && (s.head.shut && s.stack != [] ==> exists t :: t in s.pcs && Emptying(s.pcs[t]))
    && forall t | t in s.pcs :: Emptying(s.pcs[t]) ==> s.head.shut
  }

  ghost predicate AllServed(s: State) {
    forall x | x in s.use :: ServedAt(s, x)
  }

  lemma ServedKeeps(s: State, initial: nat, t: nat, e: Event, s': State)
    requires Inv(s, initial) && Step(s, t, e, s') && Served(s)
    ensures Served(s')
  {
    hide Inv, Step, ServedAt;
    OnlyThread(s, t, e, s');
    KnowsIt(s, initial, t);
    assert AllServed(s);
    if s.head.shut { ShutForGood(s, initial, t, e, s'); }
    forall x | x in s'.use
      ensures ServedAt(s', x)
    {
      if !HasNode(s.pcs[t]) {
        if x in s.use && s'.use[x] == s.use[x] { NotMine(s, t, s', x); } else { NewlyServed(s, t, e, s', x); }
      } else if x != s.pcs[t].idx {
        UseKeeps(s, t, e, s', x);
        NotMine(s, t, s', x);
      } else {
        MineServed(s, t, e, s');
      }
    }
    EmptyingKeeps(s, initial, t, e, s');
  }

  /** The thread is the waiter of a node, or serves one. */
  predicate HasNode(pc: Pc) {
    Waiter(pc) || pc.HandOff? || pc.ShutMark? || pc.ShutPost?
  }

  predicate Waiter(pc: Pc) {
    pc.WaitLoad? || pc.WaitDecrCas? || pc.WaitLink? || pc.WaitPushCas? || pc.Blocked? || pc.Woken?
  }

  /** Other nodes do not depend on where the thread stands. */
  lemma NotMine(s: State, t: nat, s': State, x: nat)
    requires Others(s, t, s') && AllServed(s) && x in s.use && x in s'.use && s'.use[x] == s.use[x] && (s.head.shut ==> s'.head.shut)
    requires HasNode(s.pcs[t]) ==> s.pcs[t].idx != x
    ensures ServedAt(s', x)
  {
    assert ServedAt(s, x);
  }

  lemma NewlyServed(s: State, t: nat, e: Event, s': State, x: nat)
    requires Step(s, t, e, s') && Others(s, t, s') && AllServed(s) && !HasNode(s.pcs[t]) && Knows(s, t, s.pcs[t]) && StackOk(s)
    requires x in s'.use && !(x in s.use && s'.use[x] == s.use[x])
    ensures ServedAt(s', x)
  {
    hide StackOk, Successor, ServedAt, Step;
    if s.pcs[t].PopCas? || s.pcs[t].ShutPopCas? {
      PopServes(s, t, e, s', x);
    } else {
      AllocServes(s, t, e, s', x);
    }
  }

  lemma PopServes(s: State, t: nat, e: Event, s': State, x: nat)
    requires Step(s, t, e, s') && Others(s, t, s') && AllServed(s) && (s.pcs[t].PopCas? || s.pcs[t].ShutPopCas?)
    requires Knows(s, t, s.pcs[t]) && StackOk(s) && x in s'.use && !(x in s.use && s'.use[x] == s.use[x])
    ensures ServedAt(s', x)
  {
    hide StackOk, Successor;
    TruePop(s, s.head, s.pcs[t].nx);
    assert ServedAt(s, x);
  }

  lemma AllocServes(s: State, t: nat, e: Event, s': State, x: nat)
    requires Step(s, t, e, s') && Others(s, t, s') && !HasNode(s.pcs[t]) && !s.pcs[t].PopCas? && !s.pcs[t].ShutPopCas?
    requires x in s'.use && !(x in s.use && s'.use[x] == s.use[x])
    ensures ServedAt(s', x)
  {
    hide Others;
    if s.pcs[t].AllocNode? { assert t in s'.pcs && Waits(s'.pcs[t], x); }
  }

  lemma UseKeeps(s: State, t: nat, e: Event, s': State, x: nat)
    requires Step(s, t, e, s') && HasNode(s.pcs[t]) && x != s.pcs[t].idx && x in s'.use
    ensures x in s.use && s'.use[x] == s.use[x]
  {
  }

  lemma MineServed(s: State, t: nat, e: Event, s': State)
    requires Step(s, t, e, s') && Others(s, t, s') && AllServed(s) && HasNode(s.pcs[t]) && Knows(s, t, s.pcs[t]) && (s.head.shut ==> s'.head.shut)
    requires s.pcs[t].idx in s.use && s.pcs[t].idx in s'.use
    ensures ServedAt(s', s.pcs[t].idx)
  {
    hide Recent, StackOk;
    assert ServedAt(s, s.pcs[t].idx);
  }

  lemma EmptyingKeeps(s: State, initial: nat, t: nat, e: Event, s': State)
    requires Inv(s, initial) && Step(s, t, e, s') && Served(s) && Others(s, t, s')
    ensures s'.head.shut && s'.stack != [] ==> exists u :: u in s'.pcs && Emptying(s'.pcs[u])
    ensures forall u | u in s'.pcs :: Emptying(s'.pcs[u]) ==> s'.head.shut
  {
    hide Inv, Step, ServedAt, Emptying;
    KnowsIt(s, initial, t);
    if s.head.shut {
      ShutForGood(s, initial, t, e, s');
      if s'.stack != [] {
        var u :| u in s.pcs && Emptying(s.pcs[u]);
        assert u in s'.pcs;
        if u == t { EmptyingGoes(s, t, e, s'); }
      }
    } else {
      ShutBegins(s, t, e, s');
    }
  }

  lemma EmptyingGoes(s: State, t: nat, e: Event, s': State)
    requires Step(s, t, e, s') && Emptying(s.pcs[t]) && Knows(s, t, s.pcs[t]) && t in s'.pcs
    ensures Emptying(s'.pcs[t]) || s'.stack == []
  {
    hide StackOk, Recent;
  }

  lemma ShutBegins(s: State, t: nat, e: Event, s': State)
    requires Step(s, t, e, s') && !s.head.shut && t in s'.pcs && !Emptying(s.pcs[t])
    ensures s'.head.shut <==> Emptying(s'.pcs[t])
  {
    hide Step, Emptying;
    StepThread(s, t, e, s');
    if Posting(s.pcs[t]) { PostOpen(s, t, e, s'); }
    else if Stopping(s.pcs[t]) { StopShuts(s, t, e, s'); }
    else { WaitOpen(s, t, e, s'); }
  }

  lemma PostOpen(s: State, t: nat, e: Event, s': State)
    requires t in s.pcs && Step(s, t, e, s') && !s.head.shut && t in s'.pcs && Posting(s.pcs[t])
    ensures !s'.head.shut && !Emptying(s'.pcs[t])
  {
  }

  lemma StopShuts(s: State, t: nat, e: Event, s': State)
    requires t in s.pcs && Step(s, t, e, s') && !s.head.shut && t in s'.pcs && Stopping(s.pcs[t]) && !Emptying(s.pcs[t])
    ensures s'.head.shut <==> Emptying(s'.pcs[t])
  {
  }

  lemma WaitOpen(s: State, t: nat, e: Event, s': State)
    requires t in s.pcs && Step(s, t, e, s') && !s.head.shut && t in s'.pcs && !Posting(s.pcs[t]) && !Stopping(s.pcs[t])
    ensures !s'.head.shut && !Emptying(s'.pcs[t])
  {
  }

  lemma {:induction false} AlwaysServed(run: seq<State>, mv: seq<Move>, initial: nat, j: nat)
    requires IsTrace(run, mv, initial) && j < |run|
    ensures Served(run[j])
  {
    hide Inv, Step, Served;
    if j == 0 {
      NoneYet(run[0], initial);
    } else {
      AlwaysServed(run, mv, initial, j - 1);
      At(run, mv, initial, j - 1);
      ServedKeeps(run[j - 1], initial, mv[j - 1].t, mv[j - 1].e, run[j]);
    }
  }

  lemma NoneYet(s: State, initial: nat)
    requires Init(s, initial)
    ensures Served(s)
  {
  }

  /** Between calls a thread has no popped node in its hands. */
  lemma HandsEmpty(run: seq<State>, mv: seq<Move>, initial: nat, t: nat, b: nat)
    requires IsTrace(run, mv, initial) && b < |run| && t in run[b].pcs && run[b].pcs[t].Idle?
    ensures forall x | x in run[b].use && run[b].use[x].Handed? :: run[b].use[x].t != t
  {
    hide Init, Step;
    AlwaysServed(run, mv, initial, b);
    forall x | x in run[b].use && run[b].use[x].Handed?
      ensures run[b].use[x].t != t
    {
      assert ServedAt(run[b], x);
    }
  }

  /** No wake-up is lost: when every thread is between calls, or asleep on a node that nobody has posted, then all who sleep
      are queued, the value is zero if there are any, and there are none after a shutdown. */
  lemma NoLostWakeup(run: seq<State>, mv: seq<Move>, initial: nat, j: nat)
    requires IsTrace(run, mv, initial) && j < |run|
    requires var s := run[j]; forall t | t in s.pcs ::
               s.pcs[t].Idle? || (s.pcs[t].Blocked? && s.pcs[t].idx in s.use && !s.use[s.pcs[t].idx].Posted?)
    ensures var s := run[j]; forall t | t in s.pcs && s.pcs[t].Blocked? ::
              s.pcs[t].idx in s.stack && s.head.Value() == 0 && !s.head.shut
  {
    hide Init, Step;
    TraceIsRun(run, mv, initial);
    Reachable(run, initial, j);
    AlwaysServed(run, mv, initial, j);
    var s := run[j];
    forall t | t in s.pcs && s.pcs[t].Blocked?
      ensures s.pcs[t].idx in s.stack && s.head.Value() == 0 && !s.head.shut
    {
      KnowsIt(s, initial, t);
      assert ServedAt(s, s.pcs[t].idx) && UseOk(s, s.pcs[t].idx);
    }
  }

  // ---- progress ----

  /** A thread can begin any call, and a call can always make its next access, unless it sleeps on a node that nobody has posted; where a node is allocated,
      one must be free. */
  lemma NeverStuck(run: seq<State>, initial: nat, j: nat, t: nat, idx: nat, start: Event)
    requires IsRun(run, initial) && j < |run| && t in run[j].pcs && idx >= 1 && idx !in run[j].use
    ensures run[j].pcs[t].Idle? && !start.Go? && !start.Alloc? ==>
              exists s' :: Step(run[j], t, start, s') && t in s'.pcs && (start == StartPost(0) || start == StartTry(0) || !s'.pcs[t].Idle?)
    ensures var s := run[j];
            || s.pcs[t].Idle?
            || (exists e, s' :: Step(s, t, e, s') && t in s'.pcs && s'.pcs[t] != s.pcs[t])
            || (s.pcs[t].Blocked? && s.pcs[t].idx in s.use && !s.use[s.pcs[t].idx].Posted?)
  {
    hide Init, Inv, Step, Steps;
    Reachable(run, initial, j);
    var s := run[j];
    KnowsIt(s, initial, t);
    if s.pcs[t].Idle? {
      if !start.Go? && !start.Alloc? { CanBegin(s, t, start); }
    } else if !s.pcs[t].Blocked? || s.use[s.pcs[t].idx].Posted? {
      var e, s' := GoesOn(s, t, idx);
    }
  }

  lemma CanBegin(s: State, t: nat, e: Event)
    requires t in s.pcs && s.pcs[t].Idle? && !e.Go? && !e.Alloc?
    ensures exists s' :: Step(s, t, e, s') && t in s'.pcs && (e == StartPost(0) || e == StartTry(0) || !s'.pcs[t].Idle?)
  {
    var s' := Goto(s, t, match e
                         case StartPost(n) => if n == 0 then Idle(Nothing) else IncrLoad(n)
                         case StartTry(n) => if n == 0 then Idle(Took(0)) else TryLoad(n, n, false)
                         case StartWait => TryLoad(1, 1, true)
                         case _ => ShutLoad);
    assert Step(s, t, e, s');
  }

  lemma GoesOn(s: State, t: nat, x: nat) returns (e: Event, s': State)
    requires t in s.pcs && Knows(s, t, s.pcs[t]) && StackOk(s) && x >= 1 && x !in s.use && !s.pcs[t].Idle?
    requires s.pcs[t].Blocked? ==> s.use[s.pcs[t].idx].Posted?
    ensures Step(s, t, e, s') && t in s'.pcs && s'.pcs[t] != s.pcs[t]
  {
    hide StackOk, Knows, Step;
    e := if s.pcs[t].AllocNode? then Alloc(x) else Go;
    if Posting(s.pcs[t]) { s' := PostGoesOn(s, t); }
    else if Stopping(s.pcs[t]) { s' := StopGoesOn(s, t); }
    else if Waiter(s.pcs[t]) { s' := WaitGoesOn(s, t); }
    else { s' := TryGoesOn(s, t, x); }
  }

  lemma PostGoesOn(s: State, t: nat) returns (s': State)
    requires t in s.pcs && Knows(s, t, s.pcs[t]) && StackOk(s) && Posting(s.pcs[t])
    ensures Step(s, t, Go, s') && t in s'.pcs && s'.pcs[t] != s.pcs[t]
  {
    hide StackOk, Recent, Successor;
    match s.pcs[t] {
      case IncrLoad(n) => s' := Goto(s, t, if s.head.isNode then PopRead(n, s.head) else IncrCas(n, s.head));
      case PopRead(n, h) => s' := Goto(s, t, PopCas(n, h, Read(s.next, h.data)));
      case PopCas(n, h, nx) =>
        if s.head != h { s' := Goto(s, t, IncrLoad(n)); } else {
          TruePop(s, h, nx);
          s' := Popped(s, t, h, nx, false, HandOff(n, h.data)).(posted := s.posted + 1, given := s.given + 1, credited := s.credited + {h.data});
        }
      case IncrCas(n, h) =>
        s' := if s.head != h then Goto(s, t, IncrLoad(n)) else Goto(s, t, Idle(Nothing)).(head := h.WithValueIncr(n), posted := s.posted + n);
      case HandOff(n, idx) =>
        s' := Goto(s, t, if n <= 1 then Idle(Nothing) else IncrLoad(n - 1)).(use := s.use[idx := Posted(s.use[idx].w, false)]);
      case _ =>
    }
  }

  lemma StopGoesOn(s: State, t: nat) returns (s': State)
    requires t in s.pcs && Knows(s, t, s.pcs[t]) && StackOk(s) && Stopping(s.pcs[t])
    ensures Step(s, t, Go, s') && t in s'.pcs && s'.pcs[t] != s.pcs[t]
  {
    hide StackOk, Recent, Successor;
    match s.pcs[t] {
      case ShutLoad => s' := Goto(s, t, if s.head.shut then ShutTest(s.head) else ShutCas(s.head));
      case ShutCas(h) =>
        s' := if s.head != h then Goto(s, t, if s.head.shut then ShutTest(s.head) else ShutCas(s.head))
              else Goto(s, t, ShutTest(h.WithShutdown())).(head := h.WithShutdown());
      case ShutTest(h) => s' := Goto(s, t, if h.isNode then ShutPopCas(h, Read(s.next, h.data)) else Idle(Nothing));
      case ShutPopCas(h, nx) =>
        if s.head != h { s' := Goto(s, t, ShutTest(s.head)); } else {
          TruePop(s, h, nx);
          s' := Popped(s, t, h, nx, true, ShutMark(h.WithPop(nx), h.data));
        }
      case ShutMark(h, idx) => s' := Goto(s, t, ShutPost(h, idx)).(next := s.next[idx := NOTICE]);
      case ShutPost(h, idx) => s' := Goto(s, t, ShutTest(h)).(use := s.use[idx := Posted(s.use[idx].w, true)]);
      case _ =>
    }
  }

  lemma TryGoesOn(s: State, t: nat, x: nat) returns (s': State)
    requires t in s.pcs && Knows(s, t, s.pcs[t]) && StackOk(s) && x >= 1 && x !in s.use && (s.pcs[t].TryLoad? || s.pcs[t].TryCas? || s.pcs[t].AllocNode?)
    ensures Step(s, t, if s.pcs[t].AllocNode? then Alloc(x) else Go, s') && t in s'.pcs && s'.pcs[t] != s.pcs[t]
  {
    hide StackOk, Recent, Successor;
    match s.pcs[t] {
      case TryLoad(n, orig, b) =>
        s' := Goto(s, t, if !s.head.isNode && s.head.data > 0 then TryCas(n, orig, b, s.head) else if b then AllocNode else Idle(Took(orig - n)));
      case TryCas(n, orig, b, h) =>
        if s.head != h { s' := Goto(s, t, TryLoad(n, orig, b)); } else {
          var delta := if n < h.data then n else h.data;
          s' := Goto(s, t, if n == delta then Idle(if b then Unit else Took(orig)) else TryLoad(n - delta, orig, b))
                .(head := h.WithValueDecr(delta), decremented := s.decremented + delta);
        }
      case AllocNode => s' := Goto(s, t, WaitLoad(x)).(next := s.next[x := 0], use := s.use[x := Own(t)]);
      case _ =>
    }
  }

  lemma WaitGoesOn(s: State, t: nat) returns (s': State)
    requires t in s.pcs && Knows(s, t, s.pcs[t]) && StackOk(s) && Waiter(s.pcs[t]) && (s.pcs[t].Blocked? ==> s.use[s.pcs[t].idx].Posted?)
    ensures Step(s, t, Go, s') && t in s'.pcs && s'.pcs[t] != s.pcs[t]
  {
    hide StackOk, Recent, Successor;
    match s.pcs[t] {
      case WaitLoad(idx) =>
        s' := if !s.head.isNode && s.head.data > 0 then Goto(s, t, WaitDecrCas(idx, s.head))
              else if s.head.shut then Goto(Free(s, idx), t, Idle(Thrown)) else Goto(s, t, WaitLink(idx, s.head));
      case WaitDecrCas(idx, h) =>
        s' := if s.head != h then Goto(s, t, WaitLoad(idx))
              else Goto(Free(s, idx), t, Idle(Unit)).(head := h.WithValueDecr(1), decremented := s.decremented + 1);
      case WaitLink(idx, h) => s' := Goto(s, t, WaitPushCas(idx, h)).(next := s.next[idx := if h.isNode then h.data else 0]);
      case WaitPushCas(idx, h) =>
        s' := if s.head != h then Goto(s, t, WaitLoad(idx))
              else Goto(s, t, Blocked(idx)).(head := h.WithPush(idx), stack := s.stack + [idx], use := s.use[idx := Stacked(t, |s.stack|)]);
      case Blocked(idx) => s' := Goto(s, t, Woken(idx));
      case Woken(idx) =>
        s' := if Read(s.next, idx) == NOTICE then Goto(Free(s, idx), t, Idle(Thrown))
              else Goto(Free(s, idx), t, Idle(Unit)).(credited := s.credited - {idx}, woken := s.woken + 1);
      case _ =>
    }
  }
}
