/** IndexedMemPool: what whole calls of allocIndex and recycleIndex return. */
module PoolCalls {
  import opened Pool

  datatype Move = Move(t: nat, e: Event)

  /** A run with the moves that made its steps. */
  ghost predicate IsTrace(run: seq<State>, mv: seq<Move>) {
    && |run| == |mv| + 1 && Init(run[0])
    && forall j: nat | j < |mv| :: Step(run[j], mv[j].t, mv[j].e, run[j + 1])
  }

  lemma TraceIsRun(run: seq<State>, mv: seq<Move>)
    requires IsTrace(run, mv)
    ensures IsRun(run)
  {
    hide Init, Step;
    forall j: nat | j + 1 < |run|
      ensures Steps(run[j], run[j + 1])
    {
      assert Step(run[j], mv[j].t, mv[j].e, run[j + 1]);
    }
  }

  /** Thread t begins a call between states a and a + 1 and is still at it in state j. */
  ghost predicate During(run: seq<State>, mv: seq<Move>, t: nat, a: nat, j: nat)
    requires |run| == |mv| + 1
  {
    && a < j < |run| && mv[a].t == t && t in run[a].pcs && run[a].pcs[t].Idle?
    && forall i | a < i <= j :: t in run[i].pcs && !run[i].pcs[t].Idle?
  }

  /** The call returns in state b. */
  ghost predicate Call(run: seq<State>, mv: seq<Move>, t: nat, a: nat, b: nat)
    requires |run| == |mv| + 1
  {
    b < |run| && b > 0 && During(run, mv, t, a, b - 1) && t in run[b].pcs && run[b].pcs[t].Idle?
  }

  ghost predicate Others(s: State, t: nat, s': State) {
    t in s.pcs && s'.pcs.Keys == s.pcs.Keys && forall u | u in s.pcs && u != t :: s'.pcs[u] == s.pcs[u]
  }

  lemma OnlyThread(s: State, t: nat, e: Event, s': State)
    requires Step(s, t, e, s')
    ensures Others(s, t, s')
  {
    hide Others, Step;
    StepThread(s, t, e, s');
    if Pushing(s.pcs[t]) { PushOthers(s, t, e, s'); } else { PopOthers(s, t, e, s'); }
  }

  lemma PushOthers(s: State, t: nat, e: Event, s': State)
    requires t in s.pcs && Step(s, t, e, s') && Pushing(s.pcs[t])
    ensures Others(s, t, s')
  {
    hide PushCasStep, GlobalPushCasStep;
    match s.pcs[t] {
      case PushCas(l, idx, h) => PushCasOthers(s, t, l, idx, h);
      case GlobalPushCas(back, chain, gh) => GlobalPushCasOthers(s, t, back, chain, gh);
      case _ =>
    }
  }

  lemma PushCasOthers(s: State, t: nat, l: nat, idx: int, h: Head)
    requires t in s.pcs && |s.heads| == |s.lists| && l < |s.heads|
    ensures Others(s, t, PushCasStep(s, t, l, idx, h)) && !PushCasStep(s, t, l, idx, h).pcs[t].PushCas?
  {
  }

  lemma GlobalPushCasOthers(s: State, t: nat, back: int, chain: seq<int>, gh: Head)
    requires t in s.pcs
    ensures Others(s, t, GlobalPushCasStep(s, t, back, chain, gh)) && !GlobalPushCasStep(s, t, back, chain, gh).pcs[t].GlobalPushCas?
  {
  }

  lemma PopOthers(s: State, t: nat, e: Event, s': State)
    requires t in s.pcs && Step(s, t, e, s') && !Pushing(s.pcs[t])
    ensures Others(s, t, s')
  {
    hide PopCasStep, GlobalPopCasStep, BulkCasStep, SizeIncrStep;
    match s.pcs[t] {
      case PopCas(l, h, nx) => PopCasOthers(s, t, l, h, nx);
      case GlobalPopCas(l, h, gh, gnx) => GlobalPopCasOthers(s, t, l, h, gh, gnx);
      case BulkCas(l, h, chain, nx) => BulkCasOthers(s, t, l, h, chain, nx);
      case SizeIncr => SizeIncrOthers(s, t);
      case _ =>
    }
  }

  lemma PopCasOthers(s: State, t: nat, l: nat, h: Head, nx: int)
    requires t in s.pcs && |s.heads| == |s.lists| && l < |s.heads|
    ensures Others(s, t, PopCasStep(s, t, l, h, nx)) && var pc := PopCasStep(s, t, l, h, nx).pcs[t]; !pc.Idle? && !pc.PopCas?
  {
  }

  lemma GlobalPopCasOthers(s: State, t: nat, l: nat, h: Head, gh: Head, gnx: int)
    requires t in s.pcs
    ensures Others(s, t, GlobalPopCasStep(s, t, l, h, gh, gnx)) && var pc := GlobalPopCasStep(s, t, l, h, gh, gnx).pcs[t]; !pc.Idle? && !pc.GlobalPopCas?
  {
  }

  lemma BulkCasOthers(s: State, t: nat, l: nat, h: Head, chain: seq<int>, nx: int)
    requires t in s.pcs && |s.heads| == |s.lists| && l < |s.heads|
    ensures Others(s, t, BulkCasStep(s, t, l, h, chain, nx)) && var pc := BulkCasStep(s, t, l, h, chain, nx).pcs[t]; !pc.Idle? && !pc.BulkCas?
  {
  }

  lemma SizeIncrOthers(s: State, t: nat)
    requires t in s.pcs
    ensures Others(s, t, SizeIncrStep(s, t)) && !SizeIncrStep(s, t).pcs[t].SizeIncr? && (SizeIncrStep(s, t).pcs[t].Idle? ==> s.size >= CAPACITY && SizeIncrStep(s, t).pcs[t].got == 0)
  {
  }

  lemma At(run: seq<State>, mv: seq<Move>, j: nat)
    requires IsTrace(run, mv) && j < |mv|
    ensures Inv(run[j]) && Inv(run[j + 1]) && Step(run[j], mv[j].t, mv[j].e, run[j + 1])
    ensures mv[j].t in run[j].pcs && run[j + 1].pcs.Keys == run[j].pcs.Keys
    ensures forall u | u in run[j].pcs && u != mv[j].t :: run[j + 1].pcs[u] == run[j].pcs[u]
  {
    hide Inv, Init, Step;
    TraceIsRun(run, mv);
    Reachable(run, j);
    Reachable(run, j + 1);
    OnlyThread(run[j], mv[j].t, mv[j].e, run[j + 1]);
  }

  // ---- allocIndex ----

  /** Thread t read the head of local list l when the list was empty. */
  ghost predicate SawLocal(run: seq<State>, mv: seq<Move>, t: nat, l: nat, c: nat)
    requires |run| == |mv| + 1
  {
    c < |mv| && mv[c].t == t && l < |run[c].lists| && run[c].lists[l] == []
  }

  ghost predicate SawGlobal(run: seq<State>, mv: seq<Move>, t: nat, d: nat)
    requires |run| == |mv| + 1
  {
    d < |mv| && mv[d].t == t && run[d].chains == []
  }

  ghost predicate LocalEmpty(run: seq<State>, mv: seq<Move>, t: nat, l: nat, a: nat, j: nat)
    requires |run| == |mv| + 1
  {
    exists c: nat :: a < c < j && SawLocal(run, mv, t, l, c)
  }

  ghost predicate BothEmpty(run: seq<State>, mv: seq<Move>, t: nat, l: nat, a: nat, j: nat)
    requires |run| == |mv| + 1
  {
    exists c: nat, d: nat :: a < c < d < j && SawLocal(run, mv, t, l, c) && SawGlobal(run, mv, t, d)
  }

  /** What an allocation from list l has seen when it stands at pc. */
  ghost predicate Seen(run: seq<State>, mv: seq<Move>, t: nat, l: nat, a: nat, j: nat, pc: Pc)
    requires |run| == |mv| + 1
  {
    match pc
    case PopLoad(k) => k == l
    case PopRead(k, _) => k == l
    case PopCas(k, _, _) => k == l
    case GlobalPopLoad(k, _) => k == l && LocalEmpty(run, mv, t, l, a, j)
    case GlobalPopRead(k, _, _) => k == l && LocalEmpty(run, mv, t, l, a, j)
    case GlobalPopCas(k, _, _, _) => k == l && LocalEmpty(run, mv, t, l, a, j)
    case SizeLoad => BothEmpty(run, mv, t, l, a, j)
    case SizeIncr => BothEmpty(run, mv, t, l, a, j)
    case BulkRead(k, _, _) => k == l
    case BulkCas(k, _, _, _) => k == l
    case GlobalPushLoad(back, _) => back == l
    case GlobalPushLink(back, _, _) => back == l
    case GlobalPushCas(back, _, _) => back == l
    case Mark(_) => true
    case _ => false
  }

  lemma EmptyLocal(s: State, l: nat)
    requires Inv(s) && l < |s.heads| && s.heads[l].idx == 0
    ensures l < |s.lists| && s.lists[l] == []
  {
    if s.lists[l] != [] { TopOfList(s, l); }
  }

  lemma TopOfList(s: State, l: nat)
    requires Inv(s) && l < |s.lists| && s.lists[l] != []
    ensures s.heads[l].idx != 0
  {
    assert IsAt(s, s.lists[l][|s.lists[l]| - 1], Local(l, |s.lists[l]| - 1));
  }

  lemma TopOfChains(s: State)
    requires Inv(s) && s.chains != []
    ensures s.global.idx != 0
  {
    var g: nat := |s.chains| - 1;
    assert IsAt(s, s.chains[g][LIMIT], Global(g, LIMIT));
  }

  lemma EmptyGlobal(s: State)
    requires Inv(s) && s.global.idx == 0
    ensures s.chains == []
  {
    if s.chains != [] { TopOfChains(s); }
  }

  lemma SeenLater(run: seq<State>, mv: seq<Move>, t: nat, l: nat, a: nat, j: nat, pc: Pc)
    requires |run| == |mv| + 1 && Seen(run, mv, t, l, a, j, pc)
    ensures Seen(run, mv, t, l, a, j + 1, pc)
  {
  }

  lemma {:induction false} SeenSoFar(run: seq<State>, mv: seq<Move>, t: nat, l: nat, a: nat, j: nat)
    requires IsTrace(run, mv) && During(run, mv, t, a, j) && mv[a].e == StartPop(l)
    ensures Seen(run, mv, t, l, a, j, run[j].pcs[t])
    decreases j
  {
    hide Init, Inv, Step, Seen;
    var i := j - 1;
    At(run, mv, i);
    if i == a {
      SeenFirst(run, mv, t, l, a);
    } else {
      SeenSoFar(run, mv, t, l, a, i);
      if mv[i].t == t { SeenStep(run, mv, t, l, a, i); } else { SeenLater(run, mv, t, l, a, i, run[i].pcs[t]); }
    }
  }

  lemma SeenFirst(run: seq<State>, mv: seq<Move>, t: nat, l: nat, a: nat)
    requires |run| == |mv| + 1 && a < |mv| && mv[a] == Move(t, StartPop(l)) && Step(run[a], t, mv[a].e, run[a + 1])
    requires run[a].pcs[t].Idle? && t in run[a + 1].pcs
    ensures Seen(run, mv, t, l, a, a + 1, run[a + 1].pcs[t])
  {
  }

  lemma SeenStep(run: seq<State>, mv: seq<Move>, t: nat, l: nat, a: nat, i: nat)
    requires |run| == |mv| + 1 && a < i < |mv| && mv[i].t == t && Inv(run[i]) && Step(run[i], t, mv[i].e, run[i + 1])
    requires !run[i].pcs[t].Idle? && t in run[i + 1].pcs && !run[i + 1].pcs[t].Idle?
    requires Seen(run, mv, t, l, a, i, run[i].pcs[t])
    ensures Seen(run, mv, t, l, a, i + 1, run[i + 1].pcs[t])
  {
    hide Inv, Moved, PushCasStep, Head.WithIdx, Head.WithSize;
    var s := run[i];
    match s.pcs[t] {
      case PopLoad(_) => if s.heads[l].idx == 0 { EmptyLocal(s, l); assert SawLocal(run, mv, t, l, i); }
      case GlobalPopLoad(_, _) =>
        if s.global.idx == 0 {
          EmptyGlobal(s);
          assert SawGlobal(run, mv, t, i);
        }
      case _ =>
    }
  }

  /** An allocation returns a slot that was in its hands and is the client's now; or it returns nothing, having seen its
      local list empty, then the global list empty, and then all slots constructed. */
  lemma AllocReturns(run: seq<State>, mv: seq<Move>, t: nat, l: nat, a: nat, b: nat)
    requires IsTrace(run, mv) && Call(run, mv, t, a, b) && mv[a].e == StartPop(l)
    ensures var x := run[b].pcs[t].got; x != 0 ==> IsAt(run[b], x, Client) && IsAt(run[b - 1], x, InHand(t, 0))
    ensures run[b].pcs[t].got == 0 ==> BothEmpty(run, mv, t, l, a, b - 1) && mv[b - 1].t == t && run[b - 1].size >= CAPACITY
  {
    hide Init, Inv, Step, BothEmpty;
    At(run, mv, b - 1);
    SeenSoFar(run, mv, t, l, a, b - 1);
    AllocLast(run, mv, t, l, a, b - 1);
  }

  lemma AllocLast(run: seq<State>, mv: seq<Move>, t: nat, l: nat, a: nat, i: nat)
    requires |run| == |mv| + 1 && i < |mv| && t in run[i].pcs && Seen(run, mv, t, l, a, i, run[i].pcs[t]) && Inv(run[i])
    requires Step(run[i], mv[i].t, mv[i].e, run[i + 1]) && t in run[i + 1].pcs && run[i + 1].pcs[t].Idle?
    ensures mv[i].t == t
    ensures var x := run[i + 1].pcs[t].got; x != 0 ==> IsAt(run[i + 1], x, Client) && IsAt(run[i], x, InHand(t, 0))
    ensures run[i + 1].pcs[t].got == 0 ==> BothEmpty(run, mv, t, l, a, i) && run[i].size >= CAPACITY
  {
    hide Inv, BothEmpty, Step;
    var s := run[i];
    OnlyThread(s, mv[i].t, mv[i].e, run[i + 1]);
    if s.pcs[t].Mark? {
      MarkedInHand(s, t);
      SlotIsNotZero(s, s.pcs[t].idx);
    }
    if Pushing(s.pcs[t]) { GoesBack(s, t, mv[i].e, run[i + 1]); } else { Returning(s, t, mv[i].e, run[i + 1]); }
  }

  /** The three places where an allocation returns. */
  lemma Returning(s: State, t: nat, e: Event, s': State)
    requires Step(s, t, e, s') && t in s'.pcs && s'.pcs[t].Idle? && !Pushing(s.pcs[t])
    ensures if s.pcs[t].Mark? then s'.pcs[t].got == s.pcs[t].idx && IsAt(s', s.pcs[t].idx, Client)
            else (s.pcs[t].SizeLoad? || s.pcs[t].SizeIncr?) && s'.pcs[t].got == 0 && s.size >= CAPACITY
  {
    hide PopCasStep, GlobalPopCasStep, BulkCasStep, SizeIncrStep;
    match s.pcs[t] {
      case PopCas(l, h, nx) => PopCasOthers(s, t, l, h, nx);
      case GlobalPopCas(l, h, gh, gnx) => GlobalPopCasOthers(s, t, l, h, gh, gnx);
      case BulkCas(l, h, chain, nx) => BulkCasOthers(s, t, l, h, chain, nx);
      case SizeIncr => SizeIncrOthers(s, t);
      case _ =>
    }
  }

  /** A thread that gives back a chain on behalf of an allocation goes on allocating. */
  lemma GoesBack(s: State, t: nat, e: Event, s': State)
    requires Step(s, t, e, s') && t in s'.pcs
    requires (s.pcs[t].GlobalPushLoad? || s.pcs[t].GlobalPushLink? || s.pcs[t].GlobalPushCas?) && s.pcs[t].back >= 0
    ensures !s'.pcs[t].Idle?
  {
    hide PushCasStep, PopCasStep, GlobalPopCasStep, BulkCasStep, SizeIncrStep;
  }

  lemma SlotIsNotZero(s: State, x: int)
    requires Inv(s) && x in s.at
    ensures x != 0
  {
  }

  // ---- recycleIndex ----

  /** The slot that is being recycled is the last one in the thread's hands. */
  ghost predicate Carries(pc: Pc, x: int) {
    match pc
    case PushLoad(_, idx) => idx == x
    case PushLink(_, idx, _) => idx == x
    case PushCas(_, idx, _) => idx == x
    case GlobalPushLoad(back, chain) => back < 0 && chain != [] && Top(chain) == x
    case GlobalPushLink(back, chain, _) => back < 0 && chain != [] && Top(chain) == x
    case GlobalPushCas(back, chain, _) => back < 0 && chain != [] && Top(chain) == x
    case _ => false
  }

  lemma {:induction false} CarriesSoFar(run: seq<State>, mv: seq<Move>, t: nat, l: nat, x: int, a: nat, j: nat)
    requires IsTrace(run, mv) && During(run, mv, t, a, j) && mv[a].e == StartPush(l, x)
    ensures Carries(run[j].pcs[t], x)
    decreases j
  {
    hide Init, Inv, Step, Carries;
    var i := j - 1;
    At(run, mv, i);
    if i != a { CarriesSoFar(run, mv, t, l, x, a, i); }
    if mv[i].t == t { CarriesStep(run[i], t, mv[i].e, run[j], l, x); }
  }

  lemma CarriesStep(s: State, t: nat, e: Event, s': State, l: nat, x: int)
    requires Step(s, t, e, s') && t in s'.pcs && !s'.pcs[t].Idle?
    requires if s.pcs[t].Idle? then e == StartPush(l, x) else Carries(s.pcs[t], x)
    ensures Carries(s'.pcs[t], x)
  {
    hide PushCasStep, GlobalPushCasStep, PopCasStep, GlobalPopCasStep, BulkCasStep, SizeIncrStep;
    match s.pcs[t] {
      case PushCas(k, idx, h) => PushCasCarries(s, t, k, idx, h);
      case GlobalPushCas(back, chain, gh) => GlobalPushCasCarries(s, t, back, chain, gh);
      case _ =>
    }
  }

  lemma PushCasCarries(s: State, t: nat, l: nat, x: int, h: Head)
    requires |s.heads| == |s.lists| && l < |s.heads| && t in s.pcs
    ensures var pc := PushCasStep(s, t, l, x, h).pcs[t]; pc.Idle? || Carries(pc, x)
    ensures var s' := PushCasStep(s, t, l, x, h); s'.pcs[t].Idle? ==> x in s'.at && s'.at[x].Local?
  {
  }

  lemma GlobalPushCasCarries(s: State, t: nat, back: int, chain: seq<int>, gh: Head)
    requires t in s.pcs && back < 0 && chain != []
    ensures var pc := GlobalPushCasStep(s, t, back, chain, gh).pcs[t]; pc.Idle? || Carries(pc, Top(chain))
    ensures var s' := GlobalPushCasStep(s, t, back, chain, gh);
            s'.pcs[t].Idle? ==> forall x | x in s.at && s.at[x].InHand? && s.at[x].t == t :: x in s'.at && s'.at[x].Global?
  {
  }

  /** Recycling puts the slot back into a local list or into a chain of the global one. */
  lemma RecycleReturns(run: seq<State>, mv: seq<Move>, t: nat, l: nat, x: int, a: nat, b: nat)
    requires IsTrace(run, mv) && Call(run, mv, t, a, b) && mv[a].e == StartPush(l, x)
    ensures IsAt(run[a], x, Client) && x in run[b].at && (run[b].at[x].Local? || run[b].at[x].Global?)
  {
    hide Init, Inv, Step, Carries;
    At(run, mv, a);
    At(run, mv, b - 1);
    CarriesSoFar(run, mv, t, l, x, a, b - 1);
    CarriedInHand(run[b - 1], t, x);
    CarriedLast(run[b - 1], t, mv[b - 1].e, run[b], x);
    StartedWith(run[a], t, l, x, run[a + 1]);
  }

  lemma StartedWith(s: State, t: nat, l: nat, x: int, s': State)
    requires Step(s, t, StartPush(l, x), s') && s.pcs[t].Idle?
    ensures IsAt(s, x, Client)
  {
  }

  lemma CarriedLast(s: State, t: nat, e: Event, s': State, x: int)
    requires Step(s, t, e, s') && Carries(s.pcs[t], x) && t in s'.pcs && s'.pcs[t].Idle?
    requires x in s.at && s.at[x].InHand? && s.at[x].t == t
    ensures x in s'.at && (s'.at[x].Local? || s'.at[x].Global?)
  {
    hide PushCasStep, GlobalPushCasStep, PopCasStep, GlobalPopCasStep, BulkCasStep, SizeIncrStep;
    match s.pcs[t] {
      case PushCas(k, idx, h) => PushCasCarries(s, t, k, idx, h);
      case GlobalPushCas(back, chain, gh) => GlobalPushCasCarries(s, t, back, chain, gh);
      case _ =>
    }
  }

  lemma CarriedInHand(s: State, t: nat, x: int)
    requires Inv(s) && t in s.pcs && Carries(s.pcs[t], x)
    ensures x in s.at && s.at[x].InHand? && s.at[x].t == t
  {
    var h := Hand(s.pcs[t]);
    HandAt(s, t, |h| - 1);
  }

  // ---- capacity ----

  ghost function Clients(s: State): set<int> {
    set x | x in s.at && s.at[x].Client?
  }

  /** The slots in the first n local lists. */
  ghost function Listed(s: State, n: nat): set<int> {
    set x | x in s.at && s.at[x].Local? && s.at[x].l < n
  }

  ghost function Elements(c: seq<int>): (r: set<int>)
    ensures |r| <= |c|
  {
    if c == [] then {} else Elements(c[..|c| - 1]) + {c[|c| - 1]}
  }

  lemma {:induction false} ElementsHas(c: seq<int>, i: nat)
    requires i < |c|
    ensures c[i] in Elements(c)
  {
    if i < |c| - 1 { ElementsHas(c[..|c| - 1], i); }
  }

  lemma {:induction false} ListedAtMost(s: State, l: nat, n: nat)
    requires Shape(s) && Headed(s) && (forall x | x in s.at :: Holds(s, x, s.at[x])) && l < NUM_LISTS && n <= NUM_LISTS && s.lists[l] == []
    ensures |Listed(s, n)| <= (if n > l then n - 1 else n) * LIMIT
  {
    hide Shape, Headed, Holds, Listed;
    if n == 0 {
      NoneListed(s);
    } else {
      ListedAtMost(s, l, n - 1);
      ListedMore(s, n);
      Times(n, l);
    }
  }

  lemma NoneListed(s: State)
    ensures Listed(s, 0) == {}
  {
  }

  lemma ListedMore(s: State, n: nat)
    requires Shape(s) && Headed(s) && (forall x | x in s.at :: Holds(s, x, s.at[x])) && 0 < n <= NUM_LISTS
    ensures |Listed(s, n)| <= |Listed(s, n - 1)| + |s.lists[n - 1]| && |s.lists[n - 1]| <= LIMIT
  {
    hide Chained, Link;
    var last := Listed(s, n) - Listed(s, n - 1);
    assert Listed(s, n) == Listed(s, n - 1) + last;
    forall x | x in last
      ensures x in Elements(s.lists[n - 1])
    {
      assert Holds(s, x, s.at[x]);
      ElementsHas(s.lists[n - 1], s.at[x].i);
    }
    SubsetSize(last, Elements(s.lists[n - 1]));
  }

  lemma Times(n: nat, l: nat)
    requires n > 0
    ensures (if n > l then n - 1 else n) * LIMIT == (if n - 1 > l then n - 2 else n - 1) * LIMIT + if n - 1 == l then 0 else LIMIT
  {
  }

  lemma {:induction false} SubsetSize<T>(a: set<T>, b: set<T>)
    requires a <= b
    ensures |a| <= |b|
    decreases b
  {
    if |a| > 0 {
      var x :| x in a;
      SubsetSize(a - {x}, b - {x});
    }
  }

  ghost function Upto(n: nat): (r: set<int>)
    ensures |r| == n && forall x :: x in r <==> 1 <= x <= n
  {
    if n == 0 then {} else Upto(n - 1) + {n}
  }

  /** Where nothing is left for a thread at list l, at least the capacity that was asked for is with the client:
      at most LIMIT slots lie in each of the other lists. */
  lemma NothingLeft(s: State, l: nat)
    requires Inv(s) && l < NUM_LISTS && s.lists[l] == [] && s.chains == [] && s.size >= CAPACITY
    requires forall t | t in s.pcs :: Hand(s.pcs[t]) == []
    ensures |Clients(s)| + (NUM_LISTS - 1) * LIMIT >= CAPACITY
  {
    hide Linked, Headed, Knows, Placed, Clients, Listed;
    assert forall x | x in s.at :: Holds(s, x, s.at[x]) by { AllHeld(s); }
    ListedAtMost(s, l, NUM_LISTS);
    Covered(s, l);
    assert s.at.Keys == Upto(CAPACITY) by { assert Shape(s); }
  }

  lemma AllHeld(s: State)
    requires Inv(s)
    ensures forall x | x in s.at :: Holds(s, x, s.at[x])
  {
    assert Placed(s);
  }

  lemma Covered(s: State, l: nat)
    requires Inv(s) && s.chains == [] && forall t | t in s.pcs :: Hand(s.pcs[t]) == []
    ensures s.at.Keys == Clients(s) + Listed(s, NUM_LISTS)
  {
    hide Linked, Headed, Knows;
    forall x | x in s.at
      ensures x in Clients(s) + Listed(s, NUM_LISTS)
    {
      assert Holds(s, x, s.at[x]);
    }
    assert s.at.Keys == Clients(s) + Listed(s, NUM_LISTS);
  }

  /** During the call no other thread moves, or is in the middle of a call. */
  ghost predicate Alone(run: seq<State>, mv: seq<Move>, t: nat, a: nat, j: nat)
    requires |run| == |mv| + 1 && a <= j < |run|
  {
    && (forall i | a <= i < j :: mv[i].t == t)
    && forall u | u in run[a].pcs && u != t :: run[a].pcs[u].Idle?
  }

  ghost predicate StillEmpty(s: State, l: nat, pc: Pc) {
    match pc
    case GlobalPopLoad(_, _) => l < |s.lists| && s.lists[l] == []
    case GlobalPopRead(_, _, _) => l < |s.lists| && s.lists[l] == []
    case GlobalPopCas(_, _, _, _) => l < |s.lists| && s.lists[l] == []
    case SizeLoad => l < |s.lists| && s.lists[l] == [] && s.chains == []
    case SizeIncr => s.size < CAPACITY
    case _ => true
  }

  lemma {:induction false} EmptySoFar(run: seq<State>, mv: seq<Move>, t: nat, l: nat, a: nat, j: nat)
    requires IsTrace(run, mv) && During(run, mv, t, a, j) && mv[a].e == StartPop(l) && Alone(run, mv, t, a, j)
    ensures StillEmpty(run[j], l, run[j].pcs[t]) && forall u | u in run[j].pcs && u != t :: run[j].pcs[u].Idle?
    decreases j
  {
    hide Init, Inv, Step, Seen, StillEmpty;
    var i := j - 1;
    At(run, mv, i);
    if i == a {
      SeenFirst(run, mv, t, l, a);
    } else {
      EmptySoFar(run, mv, t, l, a, i);
      SeenSoFar(run, mv, t, l, a, i);
    }
    EmptyStep(run, mv, t, l, a, i);
  }

  lemma EmptyStep(run: seq<State>, mv: seq<Move>, t: nat, l: nat, a: nat, i: nat)
    requires |run| == |mv| + 1 && i < |mv| && mv[i].t == t && Inv(run[i]) && Step(run[i], t, mv[i].e, run[i + 1]) && t in run[i + 1].pcs
    requires if run[i].pcs[t].Idle? then mv[i].e == StartPop(l)
             else Seen(run, mv, t, l, a, i, run[i].pcs[t]) && StillEmpty(run[i], l, run[i].pcs[t])
    requires !run[i + 1].pcs[t].Idle?
    ensures StillEmpty(run[i + 1], l, run[i + 1].pcs[t])
  {
    hide Inv;
    var s := run[i];
    match s.pcs[t] {
      case PopLoad(_) => if s.heads[l].idx == 0 { EmptyLocal(s, l); }
      case GlobalPopLoad(_, _) => if s.global.idx == 0 { EmptyGlobal(s); }
      case _ =>
    }
  }

  /** `capacity()` is a lower bound: an undisturbed allocation fails only when the client holds that many slots. */
  lemma CapacityIsMet(run: seq<State>, mv: seq<Move>, t: nat, l: nat, a: nat, b: nat)
    requires IsTrace(run, mv) && Call(run, mv, t, a, b) && mv[a].e == StartPop(l) && Alone(run, mv, t, a, b)
    requires run[b].pcs[t].got == 0
    ensures |Clients(run[b])| >= CAPACITY - (NUM_LISTS - 1) * LIMIT
  {
    hide Init, Inv, Step, Seen, StillEmpty;
    At(run, mv, b - 1);
    EmptySoFar(run, mv, t, l, a, b - 1);
    SeenSoFar(run, mv, t, l, a, b - 1);
    FailedAlone(run, mv, t, l, a, b - 1);
  }

  lemma FailedAlone(run: seq<State>, mv: seq<Move>, t: nat, l: nat, a: nat, i: nat)
    requires |run| == |mv| + 1 && i < |mv| && mv[i].t == t && Inv(run[i]) && Step(run[i], t, mv[i].e, run[i + 1]) && t in run[i + 1].pcs
    requires Seen(run, mv, t, l, a, i, run[i].pcs[t]) && StillEmpty(run[i], l, run[i].pcs[t])
    requires run[i + 1].pcs[t].Idle? && run[i + 1].pcs[t].got == 0
    requires forall u | u in run[i].pcs && u != t :: run[i].pcs[u].Idle?
    ensures |Clients(run[i + 1])| >= CAPACITY - (NUM_LISTS - 1) * LIMIT
  {
    var s := run[i];
    if s.pcs[t].Mark? {
      MarkedInHand(s, t);
      assert false;
    }
    NothingLeft(s, l);
    assert Clients(run[i + 1]) == Clients(s);
  }

  /** How often a thread has counted `size_` up. */
  ghost function Attempts(run: seq<State>, mv: seq<Move>, j: nat): nat
    requires |run| == |mv| + 1 && j <= |mv|
  {
    if j == 0 then 0
    else Attempts(run, mv, j - 1) + if mv[j - 1].t in run[j - 1].pcs && run[j - 1].pcs[mv[j - 1].t].SizeIncr? then 1 else 0
  }

  /** It counts the attempts to construct a slot, also those that come too late: the constructed slots are the first of them. */
  lemma {:induction false} SizeCounts(run: seq<State>, mv: seq<Move>, j: nat)
    requires IsTrace(run, mv) && j <= |mv|
    ensures run[j].size == Attempts(run, mv, j) && forall x :: x in run[j].at <==> 1 <= x <= Attempts(run, mv, j) && x <= CAPACITY
  {
    hide Step, Inv;
    if j > 0 {
      SizeCounts(run, mv, j - 1);
      At(run, mv, j - 1);
      SizeStep(run[j - 1], mv[j - 1].t, mv[j - 1].e, run[j]);
      InvShape(run[j]);
    }
  }

  lemma InvShape(s: State)
    requires Inv(s)
    ensures Shape(s)
  {
  }

  lemma SizeStep(s: State, t: nat, e: Event, s': State)
    requires Step(s, t, e, s')
    ensures t in s.pcs && s'.size == s.size + if s.pcs[t].SizeIncr? then 1 else 0
  {
    hide Step;
    StepThread(s, t, e, s');
    if Pushing(s.pcs[t]) { PushSize(s, t, e, s'); } else { PopSize(s, t, e, s'); }
  }

  lemma PushSize(s: State, t: nat, e: Event, s': State)
    requires t in s.pcs && Step(s, t, e, s') && Pushing(s.pcs[t])
    ensures s'.size == s.size
  {
    hide Moved;
  }

  lemma PopSize(s: State, t: nat, e: Event, s': State)
    requires t in s.pcs && Step(s, t, e, s') && !Pushing(s.pcs[t])
    ensures s'.size == s.size + if s.pcs[t].SizeIncr? then 1 else 0
  {
    hide Moved;
  }

  // ---- tags ----

  /** Every change of a head counts its tag up, by one. */
  ghost predicate Tagged(h: Head, h': Head) {
    h' == h || h'.tag == h.tag + 1
  }

  ghost predicate AllTagged(s: State, s': State) {
    |s'.heads| == |s.heads| && (forall l | 0 <= l < |s.heads| :: Tagged(s.heads[l], s'.heads[l])) && Tagged(s.global, s'.global)
  }

  lemma TagsCount(s: State, t: nat, e: Event, s': State)
    requires Step(s, t, e, s')
    ensures AllTagged(s, s')
  {
    hide Step;
    StepThread(s, t, e, s');
    if Pushing(s.pcs[t]) { PushTags(s, t, e, s'); } else { PopTags(s, t, e, s'); }
  }

  lemma PushTags(s: State, t: nat, e: Event, s': State)
    requires t in s.pcs && Step(s, t, e, s') && Pushing(s.pcs[t])
    ensures AllTagged(s, s')
  {
    hide PushCasStep, GlobalPushCasStep;
    match s.pcs[t] {
      case PushCas(l, idx, h) => PushCasTags(s, t, l, idx, h);
      case GlobalPushCas(back, chain, gh) => GlobalPushCasTags(s, t, back, chain, gh);
      case _ =>
    }
  }

  lemma PushCasTags(s: State, t: nat, l: nat, idx: int, h: Head)
    requires t in s.pcs && |s.heads| == |s.lists| && l < |s.heads|
    ensures AllTagged(s, PushCasStep(s, t, l, idx, h))
  {
  }

  lemma GlobalPushCasTags(s: State, t: nat, back: int, chain: seq<int>, gh: Head)
    requires t in s.pcs
    ensures AllTagged(s, GlobalPushCasStep(s, t, back, chain, gh))
  {
  }

  lemma PopTags(s: State, t: nat, e: Event, s': State)
    requires t in s.pcs && Step(s, t, e, s') && !Pushing(s.pcs[t])
    ensures AllTagged(s, s')
  {
    hide PopCasStep, GlobalPopCasStep, BulkCasStep, SizeIncrStep;
    match s.pcs[t] {
      case PopCas(l, h, nx) => PopCasTags(s, t, l, h, nx);
      case GlobalPopCas(l, h, gh, gnx) => GlobalPopCasTags(s, t, l, h, gh, gnx);
      case BulkCas(l, h, chain, nx) => BulkCasTags(s, t, l, h, chain, nx);
      case SizeIncr => SizeIncrTags(s, t);
      case _ =>
    }
  }

  lemma PopCasTags(s: State, t: nat, l: nat, h: Head, nx: int)
    requires t in s.pcs && |s.heads| == |s.lists| && l < |s.heads|
    ensures AllTagged(s, PopCasStep(s, t, l, h, nx))
  {
  }

  lemma GlobalPopCasTags(s: State, t: nat, l: nat, h: Head, gh: Head, gnx: int)
    requires t in s.pcs
    ensures AllTagged(s, GlobalPopCasStep(s, t, l, h, gh, gnx))
  {
  }

  lemma BulkCasTags(s: State, t: nat, l: nat, h: Head, chain: seq<int>, nx: int)
    requires t in s.pcs && |s.heads| == |s.lists| && l < |s.heads|
    ensures AllTagged(s, BulkCasStep(s, t, l, h, chain, nx))
  {
  }

  lemma SizeIncrTags(s: State, t: nat)
    requires t in s.pcs
    ensures AllTagged(s, SizeIncrStep(s, t))
  {
  }

  // ---- progress ----

  /** A thread can begin to allocate, or to recycle what the client holds, at any local list, and no call waits for another
      thread: it can always make its next access. */
  lemma NeverStuck(run: seq<State>, j: nat, t: nat, e: Event)
    requires IsRun(run) && j < |run| && t in run[j].pcs
    requires if run[j].pcs[t].Idle? then !e.Go? && e.l < NUM_LISTS && (e.StartPush? ==> IsAt(run[j], e.idx, Client)) else e == Go
    ensures exists s' :: Step(run[j], t, e, s') && t in s'.pcs && s'.pcs[t] != run[j].pcs[t]
  {
    hide Init, Step, Steps;
    Reachable(run, j);
    if run[j].pcs[t].Idle? { CanBegin(run[j], t, e); } else { var s' := GoesOn(run[j], t); }
  }

  lemma CanBegin(s: State, t: nat, e: Event)
    requires Inv(s) && t in s.pcs && s.pcs[t].Idle? && !e.Go? && e.l < NUM_LISTS && (e.StartPush? ==> IsAt(s, e.idx, Client))
    ensures exists s' :: Step(s, t, e, s') && t in s'.pcs && s'.pcs[t] != s.pcs[t]
  {
    var s' := if e.StartPop? then Goto(s, t, PopLoad(e.l)) else Goto(s, t, PushLoad(e.l, e.idx)).(at := s.at[e.idx := InHand(t, 0)]);
    assert Step(s, t, e, s') && s'.pcs[t] != s.pcs[t];
  }

  lemma GoesOn(s: State, t: nat) returns (s': State)
    requires Inv(s) && t in s.pcs && !s.pcs[t].Idle?
    ensures Step(s, t, Go, s') && t in s'.pcs && s'.pcs[t] != s.pcs[t]
  {
    hide Placed, Linked, Headed, PushCasStep, GlobalPushCasStep, PopCasStep, GlobalPopCasStep, BulkCasStep, SizeIncrStep;
    assert Knows(s, s.pcs[t]);
    match s.pcs[t] {
      case PushLoad(l, idx) => s' := Goto(s, t, PushLink(l, idx, s.heads[l]));
      case PushLink(l, idx, h) => s' := Goto(s, t, PushCas(l, idx, h)).(next := s.next[idx := h.idx]);
      case PushCas(l, idx, h) =>
        PushCasOthers(s, t, l, idx, h);
        s' := PushCasStep(s, t, l, idx, h);
      case GlobalPushLoad(back, chain) => s' := Goto(s, t, GlobalPushLink(back, chain, s.global));
      case GlobalPushLink(back, chain, gh) => s' := Goto(s, t, GlobalPushCas(back, chain, gh)).(gnext := s.gnext[Top(chain) := gh.idx]);
      case GlobalPushCas(back, chain, gh) =>
        GlobalPushCasOthers(s, t, back, chain, gh);
        s' := GlobalPushCasStep(s, t, back, chain, gh);
      case PopLoad(l) => s' := Goto(s, t, if s.heads[l].idx != 0 then PopRead(l, s.heads[l]) else GlobalPopLoad(l, s.heads[l]));
      case PopRead(l, h) => s' := Goto(s, t, PopCas(l, h, Read(s.next, h.idx)));
      case PopCas(l, h, nx) =>
        PopCasOthers(s, t, l, h, nx);
        s' := PopCasStep(s, t, l, h, nx);
      case GlobalPopLoad(l, h) => s' := Goto(s, t, if s.global.idx == 0 then SizeLoad else GlobalPopRead(l, h, s.global));
      case GlobalPopRead(l, h, gh) => s' := Goto(s, t, GlobalPopCas(l, h, gh, Read(s.gnext, gh.idx)));
      case GlobalPopCas(l, h, gh, gnx) =>
        GlobalPopCasOthers(s, t, l, h, gh, gnx);
        s' := GlobalPopCasStep(s, t, l, h, gh, gnx);
      case SizeLoad => s' := Goto(s, t, if s.size >= CAPACITY then Idle(0) else SizeIncr);
      case SizeIncr =>
        SizeIncrOthers(s, t);
        s' := SizeIncrStep(s, t);
      case BulkRead(l, h, chain) => s' := Goto(s, t, BulkCas(l, h, chain, Read(s.next, Top(chain))));
      case BulkCas(l, h, chain, nx) =>
        BulkCasOthers(s, t, l, h, chain, nx);
        s' := BulkCasStep(s, t, l, h, chain, nx);
      case Mark(idx) => s' := Goto(s, t, Idle(idx)).(next := s.next[idx := ALLOCATED], at := s.at[idx := Client]);
    }
  }
}
