/** IndexedMemPool: any number of threads popping and pushing slot indices, one atomic access per step. */
module Pool {
  type Positive = n: nat | 1 <= n witness 1

  const NUM_LISTS: Positive
  const LIMIT: Positive
  /** actualCapacity_ */
  const CAPACITY: nat

  /** `uint32_t(-1)`, the mark of an allocated slot */
  const ALLOCATED: int := -1

  /** TaggedPtr; tags never wrap around here. */
  datatype Head = Head(idx: int, size: int, tag: nat) {
    function WithIdx(repl: int): Head { Head(repl, size, tag + 1) }
    function WithSize(repl: int): Head { Head(idx, repl, tag) }
    function WithSizeIncr(): Head { Head(idx, size + 1, tag) }
    function WithSizeDecr(): Head { Head(idx, size - 1, tag) }
    function WithEmpty(): Head { WithIdx(0).WithSize(0) }
  }

  /** Where a thread stands. `got` is what its last call returned, 0 for nothing. `back` says where globalPush returns to: out of localPush, or into the loop of localPop. */
  datatype Pc =
    | Idle(got: int)
    | PushLoad(l: nat, idx: int)
    | PushLink(l: nat, idx: int, h: Head)
    | PushCas(l: nat, idx: int, h: Head)
    | GlobalPushLoad(back: int, chain: seq<int>)
    | GlobalPushLink(back: int, chain: seq<int>, gh: Head)
    | GlobalPushCas(back: int, chain: seq<int>, gh: Head)
    | PopLoad(l: nat)
    | PopRead(l: nat, h: Head)
    | PopCas(l: nat, h: Head, nx: int)
    | GlobalPopLoad(l: nat, h: Head)
    | GlobalPopRead(l: nat, h: Head, gh: Head)
    | GlobalPopCas(l: nat, h: Head, gh: Head, gnx: int)
    | SizeLoad
    | SizeIncr
    | BulkRead(l: nat, h: Head, chain: seq<int>)
    | BulkCas(l: nat, h: Head, chain: seq<int>, nx: int)
    | Mark(idx: int)

  /** The slots a thread holds, bottom first. */
  function Hand(pc: Pc): seq<int> {
    match pc
    case PushLoad(_, idx) => [idx]
    case PushLink(_, idx, _) => [idx]
    case PushCas(_, idx, _) => [idx]
    case GlobalPushLoad(_, chain) => chain
    case GlobalPushLink(_, chain, _) => chain
    case GlobalPushCas(_, chain, _) => chain
    case BulkRead(_, _, chain) => chain
    case BulkCas(_, _, chain, _) => chain
    case Mark(idx) => [idx]
    case _ => []
  }

  datatype Place = Client | Local(l: nat, i: nat) | Global(g: nat, i: nat) | InHand(t: nat, i: nat)

  /** The shared fields, and for the proof the contents of the lists and the place of every constructed slot. */
  datatype State = State(heads: seq<Head>, global: Head, next: map<int, int>, gnext: map<int, int>, size: nat, pcs: map<nat, Pc>,
                         lists: seq<seq<int>>, chains: seq<seq<int>>, at: map<int, Place>)

  function Top(s: seq<int>): int {
    if s == [] then 0 else s[|s| - 1]
  }

  function TopChain(chains: seq<seq<int>>): int {
    if chains == [] then 0 else Top(chains[|chains| - 1])
  }

  function Rest(s: seq<int>): seq<int> {
    if s == [] then [] else s[..|s| - 1]
  }

  /** The word at a slot, read whether or not the slot is there. */
  function Read(m: map<int, int>, x: int): int {
    if x in m then m[x] else 0
  }

  // ---- the invariant ----

  ghost predicate Shape(s: State) {
    && |s.heads| == |s.lists| == NUM_LISTS
    && (forall x :: x in s.at <==> 1 <= x <= s.size && x <= CAPACITY)
    && s.next.Keys == s.gnext.Keys == s.at.Keys
  }

  /** A slot is where `at` says. */
  ghost predicate Holds(s: State, x: int, p: Place) {
    match p
    case Client => true
    case Local(l, i) => l < |s.lists| && i < |s.lists[l]| && s.lists[l][i] == x
    case Global(g, i) => g < |s.chains| && i < |s.chains[g]| && s.chains[g][i] == x
    case InHand(t, i) => t in s.pcs && i < |Hand(s.pcs[t])| && Hand(s.pcs[t])[i] == x
  }

  ghost predicate IsAt(s: State, x: int, p: Place) {
    x in s.at && s.at[x] == p
  }

  /** Every slot in a list, a chain or a hand is at that place, and every slot at a place is there. */
  ghost predicate Placed(s: State) {
    && (forall x | x in s.at :: Holds(s, x, s.at[x]))
    && (forall l: nat, i: nat | l < |s.lists| && i < |s.lists[l]| :: IsAt(s, s.lists[l][i], Local(l, i)))
    && (forall g: nat, i: nat | g < |s.chains| && i < |s.chains[g]| :: IsAt(s, s.chains[g][i], Global(g, i)))
    && (forall t, i: nat | t in s.pcs && i < |Hand(s.pcs[t])| :: IsAt(s, Hand(s.pcs[t])[i], InHand(t, i)))
  }

  ghost predicate Link(next: map<int, int>, c: seq<int>, i: nat)
    requires i < |c|
  {
    c[i] in next && next[c[i]] == if i == 0 then 0 else c[i - 1]
  }

  /** A list chained by localNext, down to 0. */
  ghost predicate Chained(next: map<int, int>, c: seq<int>) {
    forall i: nat | i < |c| :: Link(next, c, i)
  }

  ghost predicate Linked(s: State) {
    && (forall l: nat | l < |s.lists| :: Chained(s.next, s.lists[l]))
    && (forall g: nat | g < |s.chains| :: Chained(s.next, s.chains[g]) && |s.chains[g]| == LIMIT + 1)
    && (forall g: nat | g < |s.chains| :: Top(s.chains[g]) in s.gnext && s.gnext[Top(s.chains[g])] == TopChain(s.chains[..g]))
    && (forall x | x in s.at && s.at[x].Client? :: x in s.next && s.next[x] == ALLOCATED)
  }

  ghost predicate Headed(s: State) {
    && |s.heads| == |s.lists|
    && (forall l: nat | l < |s.lists| :: s.heads[l].idx == Top(s.lists[l]) && s.heads[l].size == |s.lists[l]| <= LIMIT)
    && s.global.idx == TopChain(s.chains)
  }

  /** A head that was read: if its tag is still current, so is all of it. */
  predicate Seen(h: Head, now: Head) {
    h.tag <= now.tag && (h.tag == now.tag ==> h == now)
  }

  ghost predicate FullChain(s: State, chain: seq<int>) {
    Chained(s.next, chain) && |chain| == LIMIT + 1
  }

  /** What each thread knows. */
  ghost predicate Knows(s: State, pc: Pc) {
    match pc
    case Idle(_) => true
    case PushLoad(l, _) => l < |s.heads|
    case PushLink(l, _, h) => l < |s.heads| && Seen(h, s.heads[l])
    case PushCas(l, idx, h) => l < |s.heads| && Seen(h, s.heads[l]) && idx in s.next && s.next[idx] == h.idx
    case GlobalPushLoad(back, chain) => back < |s.heads| && FullChain(s, chain)
    case GlobalPushLink(back, chain, gh) => back < |s.heads| && FullChain(s, chain) && Seen(gh, s.global)
    case GlobalPushCas(back, chain, gh) =>
      back < |s.heads| && FullChain(s, chain) && Seen(gh, s.global) && Top(chain) in s.gnext && s.gnext[Top(chain)] == gh.idx
    case PopLoad(l) => l < |s.heads|
    case PopRead(l, h) => l < |s.heads| && Seen(h, s.heads[l]) && h.idx != 0 && h.idx in s.at
    case PopCas(l, h, nx) =>
      l < |s.heads| && Seen(h, s.heads[l]) && h.idx != 0 && (h == s.heads[l] ==> h.idx in s.next && s.next[h.idx] == nx)
    case GlobalPopLoad(l, h) => l < |s.heads| && Seen(h, s.heads[l]) && h.idx == 0
    case GlobalPopRead(l, h, gh) => l < |s.heads| && Seen(h, s.heads[l]) && h.idx == 0 && Seen(gh, s.global) && gh.idx != 0 && gh.idx in s.at
    case GlobalPopCas(l, h, gh, gnx) =>
      && l < |s.heads| && Seen(h, s.heads[l]) && h.idx == 0 && Seen(gh, s.global) && gh.idx != 0
      && (gh == s.global ==> gh.idx in s.gnext && s.gnext[gh.idx] == gnx)
    case SizeLoad => true
    case SizeIncr => true
    case BulkRead(l, h, chain) => l < |s.heads| && Seen(h, s.heads[l]) && h.idx == 0 && FullChain(s, chain)
    case BulkCas(l, h, chain, nx) =>
      l < |s.heads| && Seen(h, s.heads[l]) && h.idx == 0 && FullChain(s, chain) && nx == Read(s.next, Top(chain))
    case Mark(idx) => true
  }

  ghost predicate Inv(s: State) {
    && Shape(s) && Placed(s) && Linked(s) && Headed(s)
    && forall t | t in s.pcs :: Knows(s, s.pcs[t])
  }

  ghost predicate Init(s: State) {
    && |s.heads| == |s.lists| == NUM_LISTS && (forall l | 0 <= l < NUM_LISTS :: s.heads[l] == Head(0, 0, 0) && s.lists[l] == [])
    && s.global == Head(0, 0, 0) && s.next == map[] && s.gnext == map[] && s.size == 0 && s.chains == [] && s.at == map[]
    && forall t | t in s.pcs :: s.pcs[t] == Idle(0)
  }

  lemma InitInv(s: State)
    requires Init(s)
    ensures Inv(s)
  {
  }

  // ---- the steps ----

  datatype Event = StartPop(l: nat) | StartPush(l: nat, idx: int) | Go

  ghost function Goto(s: State, t: nat, pc: Pc): State {
    s.(pcs := s.pcs[t := pc])
  }

  /** Slots that move from one kind of place to another. */
  ghost function Moved(at: map<int, Place>, f: Place -> Place): map<int, Place> {
    map x | x in at :: f(at[x])
  }

  /** localPush: the compare-and-swap, which pushes the slot or, if the list is full, steals the whole list. */
  ghost function PushCasStep(s: State, t: nat, l: nat, idx: int, h: Head): State
    requires |s.heads| == |s.lists| && l < |s.heads| && t in s.pcs
  {
    if s.heads[l] != h then Goto(s, t, PushLink(l, idx, s.heads[l]))
    else if h.size == LIMIT then
      var chain := s.lists[l] + [idx];
      Goto(s, t, GlobalPushLoad(-1, chain)).(
        heads := s.heads[l := h.WithEmpty()], lists := s.lists[l := []],
        at := Moved(s.at[idx := InHand(t, LIMIT)], (p: Place) => if p.Local? && p.l == l then InHand(t, p.i) else p))
    else
      Goto(s, t, Idle(0)).(
        heads := s.heads[l := h.WithIdx(idx).WithSizeIncr()], lists := s.lists[l := s.lists[l] + [idx]],
        at := s.at[idx := Local(l, |s.lists[l]|)])
  }

  ghost function GlobalPushCasStep(s: State, t: nat, back: int, chain: seq<int>, gh: Head): State
    requires t in s.pcs
  {
    if s.global != gh then Goto(s, t, GlobalPushLoad(back, chain))
    else
      Goto(s, t, if back < 0 then Idle(0) else PopLoad(back)).(
        global := gh.WithIdx(Top(chain)), chains := s.chains + [chain],
        at := Moved(s.at, (p: Place) => if p.InHand? && p.t == t then Global(|s.chains|, p.i) else p))
  }

  ghost function PopCasStep(s: State, t: nat, l: nat, h: Head, nx: int): State
    requires |s.heads| == |s.lists| && l < |s.heads| && t in s.pcs
  {
    if s.heads[l] != h then Goto(s, t, PopLoad(l))
    else
      Goto(s, t, Mark(h.idx)).(
        heads := s.heads[l := h.WithIdx(nx).WithSizeDecr()], lists := s.lists[l := Rest(s.lists[l])],
        at := s.at[h.idx := InHand(t, 0)])
  }

  ghost function GlobalPopCasStep(s: State, t: nat, l: nat, h: Head, gh: Head, gnx: int): State
    requires t in s.pcs
  {
    if s.global != gh then Goto(s, t, GlobalPopLoad(l, h))
    else
      var g := |s.chains| - 1;
      Goto(s, t, BulkRead(l, h, if g < 0 then [] else s.chains[g])).(
        global := gh.WithIdx(gnx), chains := if g < 0 then [] else s.chains[..g],
        at := Moved(s.at, (p: Place) => if p.Global? && p.g == g then InHand(t, p.i) else p))
  }

  /** The chain, but for its head, becomes the local list. */
  ghost function BulkCasStep(s: State, t: nat, l: nat, h: Head, chain: seq<int>, nx: int): State
    requires |s.heads| == |s.lists| && l < |s.heads| && t in s.pcs
  {
    if s.heads[l] != h then Goto(s, t, GlobalPushLoad(l, chain))
    else
      Goto(s, t, Mark(Top(chain))).(
        heads := s.heads[l := h.WithIdx(nx).WithSize(LIMIT)], lists := s.lists[l := Rest(chain)],
        at := Moved(s.at, (p: Place) => if p.InHand? && p.t == t then (if p.i < LIMIT then Local(l, p.i) else InHand(t, 0)) else p))
  }

  /** `++size_`, and a fresh slot unless the pool is exhausted */
  ghost function SizeIncrStep(s: State, t: nat): State
    requires t in s.pcs
  {
    var idx := s.size + 1;
    if idx > CAPACITY then Goto(s, t, Idle(0)).(size := idx)
    else
      Goto(s, t, Mark(idx)).(size := idx, at := s.at[idx := InHand(t, 0)], next := s.next[idx := 0], gnext := s.gnext[idx := 0])
  }

  /** One atomic access by thread t. */
  ghost predicate Step(s: State, t: nat, e: Event, s': State)
  {
    && |s.heads| == |s.lists| == NUM_LISTS && t in s.pcs && (e.Go? <==> !s.pcs[t].Idle?)
    && match s.pcs[t]
       case Idle(_) =>
         (match e
          case StartPop(l) => l < NUM_LISTS && s' == Goto(s, t, PopLoad(l))
          // the client gives back a slot that it holds
          case StartPush(l, idx) =>
            l < NUM_LISTS && IsAt(s, idx, Client) && s' == Goto(s, t, PushLoad(l, idx)).(at := s.at[idx := InHand(t, 0)]))
       case PushLoad(l, idx) => l < NUM_LISTS && s' == Goto(s, t, PushLink(l, idx, s.heads[l]))
       case PushLink(l, idx, h) => s' == Goto(s, t, PushCas(l, idx, h)).(next := s.next[idx := h.idx])
       case PushCas(l, idx, h) => l < NUM_LISTS && s' == PushCasStep(s, t, l, idx, h)
       case GlobalPushLoad(back, chain) => s' == Goto(s, t, GlobalPushLink(back, chain, s.global))
       case GlobalPushLink(back, chain, gh) =>
         s' == Goto(s, t, GlobalPushCas(back, chain, gh)).(gnext := s.gnext[Top(chain) := gh.idx])
       case GlobalPushCas(back, chain, gh) => s' == GlobalPushCasStep(s, t, back, chain, gh)
       case PopLoad(l) =>
         l < NUM_LISTS &&
         var h := s.heads[l];
         s' == Goto(s, t, if h.idx != 0 then PopRead(l, h) else GlobalPopLoad(l, h))
       case PopRead(l, h) => s' == Goto(s, t, PopCas(l, h, Read(s.next, h.idx)))
       case PopCas(l, h, nx) => l < NUM_LISTS && s' == PopCasStep(s, t, l, h, nx)
       case GlobalPopLoad(l, h) =>
         s' == Goto(s, t, if s.global.idx == 0 then SizeLoad else GlobalPopRead(l, h, s.global))
       case GlobalPopRead(l, h, gh) => s' == Goto(s, t, GlobalPopCas(l, h, gh, Read(s.gnext, gh.idx)))
       case GlobalPopCas(l, h, gh, gnx) => s' == GlobalPopCasStep(s, t, l, h, gh, gnx)
       case SizeLoad => s' == Goto(s, t, if s.size >= CAPACITY then Idle(0) else SizeIncr)
       case SizeIncr => s' == SizeIncrStep(s, t)
       case BulkRead(l, h, chain) => s' == Goto(s, t, BulkCas(l, h, chain, Read(s.next, Top(chain))))
       case BulkCas(l, h, chain, nx) => l < NUM_LISTS && s' == BulkCasStep(s, t, l, h, chain, nx)
       case Mark(idx) => s' == Goto(s, t, Idle(idx)).(next := s.next[idx := ALLOCATED], at := s.at[idx := Client])
  }

  /** The head of a nonempty list is a slot of it, and its localNext is the rest of the list. */
  lemma TopSlot(s: State, l: nat)
    requires Shape(s) && Placed(s) && Linked(s) && Headed(s) && l < |s.heads| && s.heads[l].idx != 0
    ensures |s.lists[l]| > 0 && IsAt(s, s.heads[l].idx, Local(l, |s.lists[l]| - 1)) && s.heads[l].size > 0
    ensures s.heads[l].idx in s.next && s.next[s.heads[l].idx] == Top(Rest(s.lists[l]))
  {
    var c := s.lists[l];
    assert Chained(s.next, c) && c[|c| - 1] == s.heads[l].idx;
    assert Link(s.next, c, |c| - 1);
    if |c| > 1 { assert Rest(c)[|c| - 2] == c[|c| - 2]; } else { assert Rest(c) == []; }
  }

  lemma HandAt(s: State, u: nat, i: nat)
    requires Placed(s) && u in s.pcs && i < |Hand(s.pcs[u])|
    ensures IsAt(s, Hand(s.pcs[u])[i], InHand(u, i))
  {
  }

  lemma TopGlobal(s: State)
    requires Shape(s) && Placed(s) && Linked(s) && Headed(s) && s.global.idx != 0
    ensures |s.chains| > 0 && IsAt(s, s.global.idx, Global(|s.chains| - 1, LIMIT))
    ensures s.global.idx in s.gnext && s.gnext[s.global.idx] == TopChain(s.chains[..|s.chains| - 1])
  {
  }

  /** What a step by thread t does to the others: tags of changed heads grow, and only slots in t's hands are written. */
  ghost predicate Later(s: State, t: nat, s': State) {
    && |s'.heads| == |s.heads| && (forall l | 0 <= l < |s.heads| :: s'.heads[l] == s.heads[l] || s'.heads[l].tag > s.heads[l].tag)
    && (s'.global == s.global || s'.global.tag > s.global.tag)
    && s.at.Keys <= s'.at.Keys
    && (forall x | x in s.next :: x in s'.next && (s'.next[x] == s.next[x] || (x in s.at && s.at[x].InHand? && s.at[x].t == t)))
    && (forall x | x in s.gnext :: x in s'.gnext && (s'.gnext[x] == s.gnext[x] || (x in s.at && s.at[x].InHand? && s.at[x].t == t)))
  }

  lemma ChainKept(s: State, t: nat, s': State, u: nat, chain: seq<int>)
    requires Later(s, t, s') && Placed(s) && u in s.pcs && u != t && Hand(s.pcs[u]) == chain && Chained(s.next, chain)
    ensures Chained(s'.next, chain)
  {
    forall i: nat | i < |chain|
      ensures Link(s'.next, chain, i)
    {
      assert Link(s.next, chain, i);
      assert IsAt(s, Hand(s.pcs[u])[i], InHand(u, i));
    }
  }

  /** No thread's knowledge is spoilt by another's step: this is where tags matter. */
  lemma KnowsKept(s: State, t: nat, s': State, u: nat)
    requires Shape(s) && Placed(s) && Linked(s) && Headed(s) && Later(s, t, s') && u in s.pcs && u != t && Knows(s, s.pcs[u])
    ensures Knows(s', s.pcs[u])
  {
    if s.pcs[u].PopCas? || s.pcs[u].GlobalPopCas? {
      PopKnowsKept(s, t, s', u);
    } else {
      HandKnowsKept(s, t, s', u);
    }
  }

  lemma PopKnowsKept(s: State, t: nat, s': State, u: nat)
    requires Shape(s) && Placed(s) && Linked(s) && Headed(s) && Later(s, t, s') && u in s.pcs && u != t && Knows(s, s.pcs[u])
    requires s.pcs[u].PopCas? || s.pcs[u].GlobalPopCas?
    ensures Knows(s', s.pcs[u])
  {
    hide Linked, Headed, Shape, Placed;
    match s.pcs[u]
    case PopCas(l, h, nx) => if h == s'.heads[l] { TopSlot(s, l); }
    case GlobalPopCas(l, h, gh, gnx) => if gh == s'.global { TopGlobal(s); }
    case _ =>
  }

  lemma HandKnowsKept(s: State, t: nat, s': State, u: nat)
    requires Placed(s) && Later(s, t, s') && u in s.pcs && u != t && Knows(s, s.pcs[u])
    requires !s.pcs[u].PopCas? && !s.pcs[u].GlobalPopCas?
    ensures Knows(s', s.pcs[u])
  {
    hide Placed;
    match s.pcs[u]
    case PushCas(l, idx, h) => HandAt(s, u, 0);
    case GlobalPushLoad(back, chain) => ChainKept(s, t, s', u, chain);
    case GlobalPushLink(back, chain, gh) => ChainKept(s, t, s', u, chain);
    case GlobalPushCas(back, chain, gh) =>
      ChainKept(s, t, s', u, chain);
      HandAt(s, u, LIMIT);
    case BulkRead(l, h, chain) => ChainKept(s, t, s', u, chain);
    case BulkCas(l, h, chain, nx) =>
      ChainKept(s, t, s', u, chain);
      HandAt(s, u, LIMIT);
      assert Link(s.next, chain, LIMIT) && Link(s'.next, chain, LIMIT);
    case _ =>
  }

  // ---- each step keeps the invariant ----

  ghost predicate Core(s: State) {
    Shape(s) && Placed(s) && Linked(s) && Headed(s)
  }

  ghost predicate AllKnow(s: State) {
    forall t | t in s.pcs :: Knows(s, s.pcs[t])
  }

  lemma OthersKnow(s: State, t: nat, s': State)
    requires Core(s) && AllKnow(s) && Later(s, t, s') && t in s.pcs && s'.pcs.Keys == s.pcs.Keys
    requires forall u | u in s.pcs && u != t :: s'.pcs[u] == s.pcs[u]
    requires Knows(s', s'.pcs[t])
    ensures AllKnow(s')
  {
    hide Knows, Core;
    forall u | u in s'.pcs
      ensures Knows(s', s'.pcs[u])
    {
      if u != t { UseCore(s); KnowsKept(s, t, s', u); }
    }
  }

  lemma UseCore(s: State)
    requires Core(s)
    ensures Shape(s) && Placed(s) && Linked(s) && Headed(s)
  {
  }

  /** A step that only reads: the thread goes on with the same slots in hand. */
  lemma ReadKeeps(s: State, t: nat, pc: Pc)
    requires Core(s) && AllKnow(s) && t in s.pcs && Hand(pc) == Hand(s.pcs[t]) && Knows(s, pc)
    ensures Core(Goto(s, t, pc)) && AllKnow(Goto(s, t, pc))
  {
    var s' := Goto(s, t, pc);
    assert Placed(s') by { ReadPlaced(s, t, pc); }
    KnowsSame(s, s', pc);
    forall u | u in s'.pcs
      ensures Knows(s', s'.pcs[u])
    {
      KnowsSame(s, s', s'.pcs[u]);
    }
  }

  lemma ReadPlaced(s: State, t: nat, pc: Pc)
    requires Placed(s) && t in s.pcs && Hand(pc) == Hand(s.pcs[t])
    ensures Placed(Goto(s, t, pc))
  {
    PlacedSame(s, Goto(s, t, pc));
  }

  lemma PlacedSame(s: State, s': State)
    requires Placed(s) && s'.at == s.at && s'.lists == s.lists && s'.chains == s.chains && s'.pcs.Keys == s.pcs.Keys
    requires forall u | u in s.pcs :: Hand(s'.pcs[u]) == Hand(s.pcs[u])
    ensures Placed(s')
  {
    hide Hand;
    forall x | x in s'.at
      ensures Holds(s', x, s'.at[x])
    {
      assert Holds(s, x, s.at[x]);
    }
  }

  /** What a thread knows is about the shared fields. */
  lemma KnowsSame(s: State, s': State, pc: Pc)
    requires s'.heads == s.heads && s'.global == s.global && s'.next == s.next && s'.gnext == s.gnext && s'.at == s.at
    requires Knows(s, pc)
    ensures Knows(s', pc)
  {
  }

  lemma ChainedKept(s: State, t: nat, s': State, c: seq<int>)
    requires Later(s, t, s') && Chained(s.next, c)
    requires forall i: nat | i < |c| :: c[i] in s.at && !(s.at[c[i]].InHand? && s.at[c[i]].t == t)
    ensures Chained(s'.next, c)
  {
    forall i: nat | i < |c|
      ensures Link(s'.next, c, i)
    {
      assert Link(s.next, c, i);
      ReadKept(s, t, s', c[i]);
    }
  }

  lemma ReadKept(s: State, t: nat, s': State, x: int)
    requires Later(s, t, s') && x in s.next && x in s.at && !(s.at[x].InHand? && s.at[x].t == t)
    ensures x in s'.next && s'.next[x] == s.next[x]
  {
  }

  /** Writes to slots in hand do not touch lists, chains or the client's slots. */
  lemma LinkedKept(s: State, t: nat, s': State)
    requires Placed(s) && Linked(s) && Later(s, t, s') && s'.lists == s.lists && s'.chains == s.chains
    requires forall x | x in s'.at && s'.at[x].Client? :: x in s'.next && (s'.next[x] == ALLOCATED || (x in s.at && s.at[x].Client?))
    ensures Linked(s')
  {
    forall l: nat | l < |s.lists|
      ensures Chained(s'.next, s.lists[l])
    {
      forall i: nat | i < |s.lists[l]| ensures IsAt(s, s.lists[l][i], Local(l, i)) {}
      ChainedKept(s, t, s', s.lists[l]);
    }
    forall g: nat | g < |s.chains|
      ensures Chained(s'.next, s.chains[g])
      ensures Top(s.chains[g]) in s'.gnext && s'.gnext[Top(s.chains[g])] == s.gnext[Top(s.chains[g])]
    {
      forall i: nat | i < |s.chains[g]| ensures IsAt(s, s.chains[g][i], Global(g, i)) {}
      ChainedKept(s, t, s', s.chains[g]);
    }
  }

  lemma PushLinkKeeps(s: State, t: nat, l: nat, idx: int, h: Head, s': State)
    requires Core(s) && AllKnow(s) && t in s.pcs && s.pcs[t] == PushLink(l, idx, h)
    requires s' == Goto(s, t, PushCas(l, idx, h)).(next := s.next[idx := h.idx])
    ensures Core(s') && AllKnow(s')
  {
    hide Placed, Linked;
    HandAt(s, t, 0);
    assert Later(s, t, s');
    PlacedSame(s, s');
    LinkedKept(s, t, s');
    OthersKnow(s, t, s');
  }

  lemma GlobalPushLinkKeeps(s: State, t: nat, back: int, chain: seq<int>, gh: Head, s': State)
    requires Core(s) && AllKnow(s) && t in s.pcs && s.pcs[t] == GlobalPushLink(back, chain, gh)
    requires s' == Goto(s, t, GlobalPushCas(back, chain, gh)).(gnext := s.gnext[Top(chain) := gh.idx])
    ensures Core(s') && AllKnow(s')
  {
    hide Placed, Linked;
    HandAt(s, t, LIMIT);
    assert Later(s, t, s');
    PlacedSame(s, s');
    LinkedKept(s, t, s');
    OthersKnow(s, t, s');
  }

  /** A slot handed over: from thread t's hand to the client, or back. */
  lemma HandedOver(s: State, t: nat, s': State, idx: int, p: Place, pc: Pc)
    requires Placed(s) && t in s.pcs && idx in s.at && s'.lists == s.lists && s'.chains == s.chains
    requires s'.pcs == s.pcs[t := pc] && s'.at == s.at[idx := p]
    requires (Hand(s.pcs[t]) == [idx] && Hand(pc) == [] && p == Client)
          || (s.at[idx] == Client && Hand(s.pcs[t]) == [] && Hand(pc) == [idx] && p == InHand(t, 0))
    ensures Placed(s')
  {
    hide Hand;
    if p == Client { HandAt(s, t, 0); }
    forall x | x in s'.at
      ensures Holds(s', x, s'.at[x])
    {
      assert Holds(s, x, s.at[x]);
    }
  }

  lemma MarkKeeps(s: State, t: nat, idx: int, s': State)
    requires Core(s) && AllKnow(s) && t in s.pcs && s.pcs[t] == Mark(idx)
    requires s' == Goto(s, t, Idle(idx)).(next := s.next[idx := ALLOCATED], at := s.at[idx := Client])
    ensures Core(s') && AllKnow(s')
  {
    hide Placed, Linked;
    HandAt(s, t, 0);
    assert Later(s, t, s');
    HandedOver(s, t, s', idx, Client, Idle(idx));
    LinkedKept(s, t, s');
    OthersKnow(s, t, s');
  }

  lemma StartPushKeeps(s: State, t: nat, l: nat, idx: int, s': State)
    requires Core(s) && AllKnow(s) && t in s.pcs && s.pcs[t].Idle? && l < NUM_LISTS && IsAt(s, idx, Client)
    requires s' == Goto(s, t, PushLoad(l, idx)).(at := s.at[idx := InHand(t, 0)])
    ensures Core(s') && AllKnow(s')
  {
    hide Placed, Linked;
    assert Later(s, t, s');
    HandedOver(s, t, s', idx, InHand(t, 0), PushLoad(l, idx));
    LinkedKept(s, t, s');
    OthersKnow(s, t, s');
  }

  // ---- successful compare-and-swaps ----

  lemma PushPlaced(s: State, t: nat, l: nat, idx: int, s': State)
    requires Placed(s) && t in s.pcs && Hand(s.pcs[t]) == [idx] && l < |s.lists| && s'.chains == s.chains
    requires s'.lists == s.lists[l := s.lists[l] + [idx]] && s'.pcs == s.pcs[t := Idle(0)]
    requires s'.at == s.at[idx := Local(l, |s.lists[l]|)]
    ensures Placed(s')
  {
    hide Hand;
    HandAt(s, t, 0);
    assert Hand(Idle(0)) == [] by { IdleHand(); }
    forall x | x in s'.at
      ensures Holds(s', x, s'.at[x])
    {
      assert x in s.at && Holds(s, x, s.at[x]);
    }
  }

  lemma IdleHand()
    ensures Hand(Idle(0)) == []
  {
  }

  lemma Longer(next: map<int, int>, c: seq<int>, x: int)
    requires Chained(next, c) && x in next && next[x] == Top(c)
    ensures Chained(next, c + [x])
  {
    var d := c + [x];
    forall i: nat | i < |d|
      ensures Link(next, d, i)
    {
      if i < |c| { assert Link(next, c, i); }
    }
  }

  lemma PushKeeps(s: State, t: nat, l: nat, idx: int, h: Head, s': State)
    requires Core(s) && AllKnow(s) && t in s.pcs && s.pcs[t] == PushCas(l, idx, h) && l < |s.heads| && s.heads[l] == h && h.size != LIMIT
    requires s' == PushCasStep(s, t, l, idx, h)
    ensures Core(s') && AllKnow(s')
  {
    hide Placed, Linked;
    HandAt(s, t, 0);
    assert Later(s, t, s');
    PushPlaced(s, t, l, idx, s');
    PushLinked(s, t, l, idx, s');
    OthersKnow(s, t, s');
  }

  lemma PushLinked(s: State, t: nat, l: nat, idx: int, s': State)
    requires Placed(s) && Linked(s) && l < |s.lists| && s'.lists == s.lists[l := s.lists[l] + [idx]] && s'.chains == s.chains
    requires s'.next == s.next && s'.gnext == s.gnext && idx in s.next && s.next[idx] == Top(s.lists[l])
    requires forall x | x in s'.at && s'.at[x].Client? :: x in s.at && s.at[x].Client?
    ensures Linked(s')
  {
    assert Chained(s.next, s.lists[l]);
    Longer(s.next, s.lists[l], idx);
  }

  /** The whole list, with the pushed slot on top, comes into the thread's hands. */
  lemma StealPlaced(s: State, t: nat, l: nat, idx: int, chain: seq<int>, s': State, pc: Pc)
    requires Placed(s) && t in s.pcs && Hand(s.pcs[t]) == [idx] && l < |s.lists| && |s.lists[l]| == LIMIT && s'.chains == s.chains
    requires chain == s.lists[l] + [idx] && s'.lists == s.lists[l := []] && s'.pcs == s.pcs[t := pc] && Hand(pc) == chain
    requires s'.at == Moved(s.at[idx := InHand(t, LIMIT)], (p: Place) => if p.Local? && p.l == l then InHand(t, p.i) else p)
    ensures Placed(s')
  {
    hide Hand;
    HandAt(s, t, 0);
    forall x | x in s'.at
      ensures Holds(s', x, s'.at[x])
    {
      assert x in s.at && Holds(s, x, s.at[x]);
    }
    forall i: nat | i < |chain|
      ensures IsAt(s', chain[i], InHand(t, i))
    {
      if i < LIMIT { assert IsAt(s, s.lists[l][i], Local(l, i)); }
    }
    forall u, i: nat | u in s'.pcs && i < |Hand(s'.pcs[u])|
      ensures IsAt(s', Hand(s'.pcs[u])[i], InHand(u, i))
    {
      if u != t { assert IsAt(s, Hand(s.pcs[u])[i], InHand(u, i)); }
    }
  }

  lemma StealKeeps(s: State, t: nat, l: nat, idx: int, h: Head, s': State)
    requires Core(s) && AllKnow(s) && t in s.pcs && s.pcs[t] == PushCas(l, idx, h) && l < |s.heads| && s.heads[l] == h && h.size == LIMIT
    requires s' == PushCasStep(s, t, l, idx, h)
    ensures Core(s') && AllKnow(s')
  {
    hide Placed, Linked;
    HandAt(s, t, 0);
    var chain := s.lists[l] + [idx];
    assert Later(s, t, s');
    StealPlaced(s, t, l, idx, chain, s', GlobalPushLoad(-1, chain));
    StealLinked(s, t, l, idx, s');
    OthersKnow(s, t, s');
  }

  lemma StealLinked(s: State, t: nat, l: nat, idx: int, s': State)
    requires Placed(s) && Linked(s) && l < |s.lists| && s'.lists == s.lists[l := []] && s'.chains == s.chains
    requires s'.next == s.next && s'.gnext == s.gnext && idx in s.next && s.next[idx] == Top(s.lists[l]) && s'.at.Keys <= s.at.Keys
    requires forall x | x in s'.at && s'.at[x].Client? :: s.at[x].Client?
    ensures Linked(s') && Chained(s'.next, s.lists[l] + [idx])
  {
    assert Chained(s.next, s.lists[l]);
    Longer(s.next, s.lists[l], idx);
  }

  /** The chain in thread t's hands becomes the top chain of the global list. */
  lemma PublishPlaced(s: State, t: nat, s': State, pc: Pc)
    requires Placed(s) && t in s.pcs && s'.lists == s.lists && s'.chains == s.chains + [Hand(s.pcs[t])]
    requires s'.pcs == s.pcs[t := pc] && Hand(pc) == []
    requires s'.at == Moved(s.at, (p: Place) => if p.InHand? && p.t == t then Global(|s.chains|, p.i) else p)
    ensures Placed(s')
  {
    hide Hand;
    var chain := Hand(s.pcs[t]);
    forall x | x in s'.at
      ensures Holds(s', x, s'.at[x])
    {
      assert x in s.at && Holds(s, x, s.at[x]);
    }
    forall g: nat, i: nat | g < |s'.chains| && i < |s'.chains[g]|
      ensures IsAt(s', s'.chains[g][i], Global(g, i))
    {
      if g == |s.chains| { HandAt(s, t, i); } else { assert IsAt(s, s.chains[g][i], Global(g, i)); }
    }
    forall u, i: nat | u in s'.pcs && i < |Hand(s'.pcs[u])|
      ensures IsAt(s', Hand(s'.pcs[u])[i], InHand(u, i))
    {
      HandAt(s, u, i);
    }
  }

  lemma PublishLinked(s: State, t: nat, chain: seq<int>, s': State)
    requires Placed(s) && Linked(s) && s'.lists == s.lists && s'.chains == s.chains + [chain] && s'.next == s.next && s'.gnext == s.gnext
    requires FullChain(s, chain) && Top(chain) in s.gnext && s.gnext[Top(chain)] == TopChain(s.chains)
    requires forall x | x in s'.at && s'.at[x].Client? :: x in s.at && s.at[x].Client?
    ensures Linked(s')
  {
    forall g: nat | g < |s'.chains|
      ensures Chained(s'.next, s'.chains[g]) && |s'.chains[g]| == LIMIT + 1
      ensures Top(s'.chains[g]) in s'.gnext && s'.gnext[Top(s'.chains[g])] == TopChain(s'.chains[..g])
    {
      if g < |s.chains| {
        assert Chained(s.next, s.chains[g]);
        assert s'.chains[..g] == s.chains[..g];
      } else {
        assert s'.chains[..g] == s.chains;
      }
    }
  }

  lemma GlobalPushKeeps(s: State, t: nat, back: int, chain: seq<int>, gh: Head, s': State)
    requires Core(s) && AllKnow(s) && t in s.pcs && s.pcs[t] == GlobalPushCas(back, chain, gh) && s.global == gh
    requires s' == GlobalPushCasStep(s, t, back, chain, gh)
    ensures Core(s') && AllKnow(s')
  {
    hide Placed, Linked;
    assert Later(s, t, s');
    PublishPlaced(s, t, s', s'.pcs[t]);
    PublishLinked(s, t, chain, s');
    OthersKnow(s, t, s');
  }

  lemma PopPlaced(s: State, t: nat, l: nat, s': State, pc: Pc)
    requires Placed(s) && t in s.pcs && Hand(s.pcs[t]) == [] && l < |s.lists| && |s.lists[l]| > 0 && s'.chains == s.chains
    requires s'.lists == s.lists[l := Rest(s.lists[l])] && s'.pcs == s.pcs[t := pc] && Hand(pc) == [Top(s.lists[l])]
    requires s'.at == s.at[Top(s.lists[l]) := InHand(t, 0)]
    ensures Placed(s')
  {
    hide Hand;
    var n: nat := |s.lists[l]| - 1;
    assert IsAt(s, s.lists[l][n], Local(l, n));
    forall x | x in s'.at
      ensures Holds(s', x, s'.at[x])
    {
      assert x in s.at && Holds(s, x, s.at[x]);
    }
    forall m: nat, i: nat | m < |s'.lists| && i < |s'.lists[m]|
      ensures IsAt(s', s'.lists[m][i], Local(m, i))
    {
      assert IsAt(s, s.lists[m][i], Local(m, i));
    }
    forall u, i: nat | u in s'.pcs && i < |Hand(s'.pcs[u])|
      ensures IsAt(s', Hand(s'.pcs[u])[i], InHand(u, i))
    {
      if u != t { HandAt(s, u, i); }
    }
  }

  lemma Shorter(next: map<int, int>, c: seq<int>)
    requires Chained(next, c)
    ensures Chained(next, Rest(c))
  {
    var d := Rest(c);
    forall i: nat | i < |d|
      ensures Link(next, d, i)
    {
      assert Link(next, c, i);
    }
  }

  lemma PopLinked(s: State, t: nat, l: nat, s': State)
    requires Placed(s) && Linked(s) && l < |s.lists| && s'.lists == s.lists[l := Rest(s.lists[l])] && s'.chains == s.chains
    requires s'.next == s.next && s'.gnext == s.gnext
    requires forall x | x in s'.at && s'.at[x].Client? :: x in s.at && s.at[x].Client?
    ensures Linked(s')
  {
    assert Chained(s.next, s.lists[l]);
    Shorter(s.next, s.lists[l]);
  }

  lemma PopKeeps(s: State, t: nat, l: nat, h: Head, nx: int, s': State)
    requires Core(s) && AllKnow(s) && t in s.pcs && s.pcs[t] == PopCas(l, h, nx) && l < |s.heads| && s.heads[l] == h
    requires s' == PopCasStep(s, t, l, h, nx)
    ensures Core(s') && AllKnow(s')
  {
    hide Placed, Linked;
    TopSlot(s, l);
    assert Later(s, t, s');
    PopPlaced(s, t, l, s', Mark(h.idx));
    PopLinked(s, t, l, s');
    OthersKnow(s, t, s');
  }

  /** The top chain of the global list comes into the thread's hands. */
  lemma TakePlaced(s: State, t: nat, s': State, pc: Pc)
    requires Placed(s) && t in s.pcs && Hand(s.pcs[t]) == [] && s'.lists == s.lists && |s.chains| > 0
    requires s'.chains == s.chains[..|s.chains| - 1] && s'.pcs == s.pcs[t := pc] && Hand(pc) == s.chains[|s.chains| - 1]
    requires var g := |s.chains| - 1; s'.at == Moved(s.at, (p: Place) => if p.Global? && p.g == g then InHand(t, p.i) else p)
    ensures Placed(s')
  {
    hide Hand;
    var g: nat := |s.chains| - 1;
    forall x | x in s'.at
      ensures Holds(s', x, s'.at[x])
    {
      assert x in s.at && Holds(s, x, s.at[x]);
    }
    forall m: nat, i: nat | m < |s'.chains| && i < |s'.chains[m]|
      ensures IsAt(s', s'.chains[m][i], Global(m, i))
    {
      assert IsAt(s, s.chains[m][i], Global(m, i));
    }
    forall u, i: nat | u in s'.pcs && i < |Hand(s'.pcs[u])|
      ensures IsAt(s', Hand(s'.pcs[u])[i], InHand(u, i))
    {
      if u != t { HandAt(s, u, i); } else { assert IsAt(s, s.chains[g][i], Global(g, i)); }
    }
  }

  lemma TakeLinked(s: State, t: nat, s': State)
    requires Placed(s) && Linked(s) && |s.chains| > 0 && s'.lists == s.lists && s'.chains == s.chains[..|s.chains| - 1]
    requires s'.next == s.next && s'.gnext == s.gnext
    requires forall x | x in s'.at && s'.at[x].Client? :: x in s.at && s.at[x].Client?
    ensures Linked(s')
  {
    forall g: nat | g < |s'.chains|
      ensures s'.chains[..g] == s.chains[..g]
    {
    }
  }

  lemma GlobalPopKeeps(s: State, t: nat, l: nat, h: Head, gh: Head, gnx: int, s': State)
    requires Core(s) && AllKnow(s) && t in s.pcs && s.pcs[t] == GlobalPopCas(l, h, gh, gnx) && s.global == gh
    requires s' == GlobalPopCasStep(s, t, l, h, gh, gnx)
    ensures Core(s') && AllKnow(s')
  {
    hide Placed, Linked;
    TopGlobal(s);
    assert Later(s, t, s');
    TakePlaced(s, t, s', s'.pcs[t]);
    TakeLinked(s, t, s');
    TopChained(s);
    OthersKnow(s, t, s');
  }

  lemma TopChained(s: State)
    requires Linked(s) && |s.chains| > 0
    ensures FullChain(s, s.chains[|s.chains| - 1])
  {
  }

  /** All but the head of the chain in hand becomes local list l, which was empty. */
  lemma BulkPlaced(s: State, t: nat, l: nat, chain: seq<int>, s': State, pc: Pc)
    requires Placed(s) && t in s.pcs && Hand(s.pcs[t]) == chain && |chain| == LIMIT + 1 && l < |s.lists| && s.lists[l] == []
    requires s'.chains == s.chains && s'.lists == s.lists[l := Rest(chain)] && s'.pcs == s.pcs[t := pc] && Hand(pc) == [Top(chain)]
    requires s'.at == Moved(s.at, (p: Place) => if p.InHand? && p.t == t then (if p.i < LIMIT then Local(l, p.i) else InHand(t, 0)) else p)
    ensures Placed(s')
  {
    hide Hand;
    forall x | x in s'.at
      ensures Holds(s', x, s'.at[x])
    {
      assert x in s.at && Holds(s, x, s.at[x]);
    }
    forall m: nat, i: nat | m < |s'.lists| && i < |s'.lists[m]|
      ensures IsAt(s', s'.lists[m][i], Local(m, i))
    {
      if m == l { HandAt(s, t, i); } else { assert IsAt(s, s.lists[m][i], Local(m, i)); }
    }
    forall u, i: nat | u in s'.pcs && i < |Hand(s'.pcs[u])|
      ensures IsAt(s', Hand(s'.pcs[u])[i], InHand(u, i))
    {
      if u != t { HandAt(s, u, i); } else { HandAt(s, t, LIMIT); }
    }
  }

  lemma BulkLinked(s: State, t: nat, l: nat, chain: seq<int>, s': State)
    requires Placed(s) && Linked(s) && l < |s.lists| && s'.lists == s.lists[l := Rest(chain)] && s'.chains == s.chains
    requires s'.next == s.next && s'.gnext == s.gnext && Chained(s.next, chain) && |chain| == LIMIT + 1
    requires forall x | x in s'.at && s'.at[x].Client? :: x in s.at && s.at[x].Client?
    ensures Linked(s') && Top(chain) in s.next && s.next[Top(chain)] == Top(Rest(chain))
  {
    Shorter(s.next, chain);
    assert Link(s.next, chain, LIMIT) && Rest(chain)[LIMIT - 1] == chain[LIMIT - 1];
  }

  lemma BulkKeeps(s: State, t: nat, l: nat, h: Head, chain: seq<int>, nx: int, s': State)
    requires Core(s) && AllKnow(s) && t in s.pcs && s.pcs[t] == BulkCas(l, h, chain, nx) && l < |s.heads| && s.heads[l] == h
    requires s' == BulkCasStep(s, t, l, h, chain, nx)
    ensures Core(s') && AllKnow(s')
  {
    hide Placed, Linked;
    EmptyList(s, l);
    assert Later(s, t, s');
    BulkPlaced(s, t, l, chain, s', Mark(Top(chain)));
    BulkLinked(s, t, l, chain, s');
    OthersKnow(s, t, s');
  }

  /** Index 0 stands for nothing: only an empty list has it as its head. */
  lemma EmptyList(s: State, l: nat)
    requires Core(s) && l < |s.heads| && s.heads[l].idx == 0
    ensures s.lists[l] == []
  {
  }

  lemma FreshPlaced(s: State, t: nat, idx: int, s': State)
    requires Placed(s) && t in s.pcs && Hand(s.pcs[t]) == [] && idx !in s.at && s'.lists == s.lists && s'.chains == s.chains
    requires s'.pcs == s.pcs[t := Mark(idx)] && s'.at == s.at[idx := InHand(t, 0)]
    ensures Placed(s')
  {
    assert Hand(Mark(idx)) == [idx];
    hide Hand;
    forall x | x in s'.at
      ensures Holds(s', x, s'.at[x])
    {
      if x != idx { assert Holds(s, x, s.at[x]); }
    }
  }

  lemma FreshLater(s: State, t: nat, s': State)
    requires Core(s) && t in s.pcs && s' == SizeIncrStep(s, t)
    ensures Later(s, t, s') && Shape(s') && Headed(s')
  {
    hide Placed, Linked;
  }

  lemma SizeIncrKeeps(s: State, t: nat, s': State)
    requires Core(s) && AllKnow(s) && t in s.pcs && s.pcs[t] == SizeIncr
    requires s' == SizeIncrStep(s, t)
    ensures Core(s') && AllKnow(s')
  {
    hide Placed, Linked, Headed, Later;
    FreshLater(s, t, s');
    if s.size + 1 > CAPACITY {
      PlacedSame(s, s');
    } else {
      FreshPlaced(s, t, s.size + 1, s');
    }
    LinkedKept(s, t, s');
    OthersKnow(s, t, s');
  }

  /** The two halves of the pool's code. */
  predicate Pushing(pc: Pc) {
    pc.Idle? || pc.PushLoad? || pc.PushLink? || pc.PushCas? || pc.GlobalPushLoad? || pc.GlobalPushLink? || pc.GlobalPushCas?
  }

  lemma PushStepKeeps(s: State, t: nat, e: Event, s': State)
    requires Core(s) && AllKnow(s) && Step(s, t, e, s') && Pushing(s.pcs[t]) && Knows(s, s.pcs[t])
    ensures Core(s') && AllKnow(s')
  {
    hide Core, AllKnow;
    match s.pcs[t] {
      case Idle(_) =>
        if e.StartPop? { ReadKeeps(s, t, PopLoad(e.l)); } else { StartPushKeeps(s, t, e.l, e.idx, s'); }
      case PushLoad(l, idx) => ReadKeeps(s, t, PushLink(l, idx, s.heads[l]));
      case PushLink(l, idx, h) => PushLinkKeeps(s, t, l, idx, h, s');
      case PushCas(l, idx, h) =>
        if s.heads[l] != h { ReadKeeps(s, t, PushLink(l, idx, s.heads[l])); }
        else if h.size == LIMIT { StealKeeps(s, t, l, idx, h, s'); }
        else { PushKeeps(s, t, l, idx, h, s'); }
      case GlobalPushLoad(back, chain) => ReadKeeps(s, t, GlobalPushLink(back, chain, s.global));
      case GlobalPushLink(back, chain, gh) => GlobalPushLinkKeeps(s, t, back, chain, gh, s');
      case GlobalPushCas(back, chain, gh) =>
        if s.global != gh { ReadKeeps(s, t, GlobalPushLoad(back, chain)); } else { GlobalPushKeeps(s, t, back, chain, gh, s'); }
      case _ =>
    }
  }

  lemma PopStepKeeps(s: State, t: nat, e: Event, s': State)
    requires Core(s) && AllKnow(s) && Step(s, t, e, s') && !Pushing(s.pcs[t]) && Knows(s, s.pcs[t])
    ensures Core(s') && AllKnow(s')
  {
    hide Core, AllKnow;
    match s.pcs[t] {
      case PopLoad(l) => LoadKeeps(s, t, l);
      case PopRead(l, h) => ReadNextKeeps(s, t, l, h);
      case PopCas(l, h, nx) =>
        if s.heads[l] != h { ReadKeeps(s, t, PopLoad(l)); } else { PopKeeps(s, t, l, h, nx, s'); }
      case GlobalPopLoad(l, h) => GlobalLoadKeeps(s, t, l, h);
      case GlobalPopRead(l, h, gh) => ReadGlobalNextKeeps(s, t, l, h, gh);
      case GlobalPopCas(l, h, gh, gnx) =>
        if s.global != gh { ReadKeeps(s, t, GlobalPopLoad(l, h)); } else { GlobalPopKeeps(s, t, l, h, gh, gnx, s'); }
      case SizeLoad => ReadKeeps(s, t, if s.size >= CAPACITY then Idle(0) else SizeIncr);
      case SizeIncr => SizeIncrKeeps(s, t, s');
      case BulkRead(l, h, chain) => ReadKeeps(s, t, BulkCas(l, h, chain, Read(s.next, Top(chain))));
      case BulkCas(l, h, chain, nx) =>
        if s.heads[l] != h { ReadKeeps(s, t, GlobalPushLoad(l, chain)); } else { BulkKeeps(s, t, l, h, chain, nx, s'); }
      case Mark(idx) => MarkKeeps(s, t, idx, s');
      case _ =>
    }
  }

  lemma StepKeeps(s: State, t: nat, e: Event, s': State)
    requires Inv(s) && Step(s, t, e, s')
    ensures Inv(s')
  {
    hide Core, AllKnow, Inv, Step, Knows;
    FromInv(s);
    assert t in s.pcs by { StepThread(s, t, e, s'); }
    KnowsIt(s, t);
    if Pushing(s.pcs[t]) { PushStepKeeps(s, t, e, s'); } else { PopStepKeeps(s, t, e, s'); }
    ToInv(s');
  }

  lemma StepThread(s: State, t: nat, e: Event, s': State)
    requires Step(s, t, e, s')
    ensures t in s.pcs
  {
  }

  lemma FromInv(s: State)
    requires Inv(s)
    ensures Core(s) && AllKnow(s)
  {
  }

  lemma ToInv(s: State)
    requires Core(s) && AllKnow(s)
    ensures Inv(s)
  {
  }

  lemma KnowsIt(s: State, t: nat)
    requires AllKnow(s) && t in s.pcs
    ensures Knows(s, s.pcs[t])
  {
  }

  lemma LoadKeeps(s: State, t: nat, l: nat)
    requires Core(s) && AllKnow(s) && t in s.pcs && s.pcs[t] == PopLoad(l) && l < |s.heads|
    ensures var h := s.heads[l]; var s' := Goto(s, t, if h.idx != 0 then PopRead(l, h) else GlobalPopLoad(l, h)); Core(s') && AllKnow(s')
  {
    hide Placed, Linked, Knows, Core, AllKnow;
    var h := s.heads[l];
    if h.idx != 0 { UseCore(s); TopSlot(s, l); }
    assert Knows(s, if h.idx != 0 then PopRead(l, h) else GlobalPopLoad(l, h)) by { KnowsLoad(s, l); }
    ReadKeeps(s, t, if h.idx != 0 then PopRead(l, h) else GlobalPopLoad(l, h));
  }

  lemma KnowsLoad(s: State, l: nat)
    requires l < |s.heads| && (s.heads[l].idx != 0 ==> s.heads[l].idx in s.at)
    ensures var h := s.heads[l]; Knows(s, if h.idx != 0 then PopRead(l, h) else GlobalPopLoad(l, h))
  {
  }

  /** Reading the successor: right if the head is still the one that was read. */
  lemma ReadNextKeeps(s: State, t: nat, l: nat, h: Head)
    requires Core(s) && AllKnow(s) && t in s.pcs && s.pcs[t] == PopRead(l, h)
    ensures var s' := Goto(s, t, PopCas(l, h, Read(s.next, h.idx))); Core(s') && AllKnow(s')
  {
    KnowsIt(s, t);
    ReadKeeps(s, t, PopCas(l, h, Read(s.next, h.idx)));
  }

  lemma GlobalLoadKeeps(s: State, t: nat, l: nat, h: Head)
    requires Core(s) && AllKnow(s) && t in s.pcs && s.pcs[t] == GlobalPopLoad(l, h)
    ensures var s' := Goto(s, t, if s.global.idx == 0 then SizeLoad else GlobalPopRead(l, h, s.global)); Core(s') && AllKnow(s')
  {
    hide Placed, Linked, AllKnow;
    KnowsIt(s, t);
    if s.global.idx != 0 { TopGlobal(s); }
    ReadKeeps(s, t, if s.global.idx == 0 then SizeLoad else GlobalPopRead(l, h, s.global));
  }

  lemma ReadGlobalNextKeeps(s: State, t: nat, l: nat, h: Head, gh: Head)
    requires Core(s) && AllKnow(s) && t in s.pcs && s.pcs[t] == GlobalPopRead(l, h, gh)
    ensures var s' := Goto(s, t, GlobalPopCas(l, h, gh, Read(s.gnext, gh.idx))); Core(s') && AllKnow(s')
  {
    KnowsIt(s, t);
    ReadKeeps(s, t, GlobalPopCas(l, h, gh, Read(s.gnext, gh.idx)));
  }

  // ---- what holds in every reachable state ----

  /** Any number of threads, each step by any of them. */
  ghost predicate IsRun(run: seq<State>) {
    && |run| > 0 && Init(run[0])
    && forall k: nat | k + 1 < |run| :: Steps(run[k], run[k + 1])
  }

  ghost predicate Steps(s: State, s': State) {
    exists t: nat, e: Event :: Step(s, t, e, s')
  }

  lemma {:induction false} Reachable(run: seq<State>, k: nat)
    requires IsRun(run) && k < |run|
    ensures Inv(run[k])
  {
    hide Inv, Init, Step;
    if k == 0 {
      InitInv(run[0]);
    } else {
      Reachable(run, k - 1);
      assert Steps(run[k - 1], run[k - 1 + 1]);
      var t: nat, e: Event :| Step(run[k - 1], t, e, run[k]);
      StepKeeps(run[k - 1], t, e, run[k]);
    }
  }

  /** Whether a slot is in one of the places where a slot can be. */
  ghost predicate In(s: State, x: int, p: Place) {
    match p
    case Client => x in s.at && s.at[x] == Client
    case _ => Holds(s, x, p)
  }

  /** Exclusivity: in every reachable state each constructed slot is in exactly one place, and only constructed slots are:
      with the client, in one local list, in one global chain, or in one thread's hands. */
  lemma Exclusive(run: seq<State>, k: nat, x: int)
    requires IsRun(run) && k < |run|
    ensures var s := run[k];
            && (1 <= x <= s.size && x <= CAPACITY ==> x in s.at && In(s, x, s.at[x]))
            && forall p: Place :: In(s, x, p) ==> 1 <= x <= s.size && x <= CAPACITY && x in s.at && p == s.at[x]
  {
    Reachable(run, k);
    var s := run[k];
    assert Placed(s) && Shape(s);
    forall p: Place | In(s, x, p)
      ensures x in s.at && p == s.at[x]
    {
      match p
      case Client =>
      case Local(l, i) => assert IsAt(s, s.lists[l][i], Local(l, i));
      case Global(g, i) => assert IsAt(s, s.chains[g][i], Global(g, i));
      case InHand(t, i) => HandAt(s, t, i);
    }
  }

  /** A local head's size field is its list's length, at most LIMIT; a published chain has exactly LIMIT + 1 slots;
      both are what following the links from their heads finds. */
  lemma ListsAreTrue(run: seq<State>, k: nat)
    requires IsRun(run) && k < |run|
    ensures var s := run[k];
            |s.heads| == |s.lists| && forall l: nat | l < |s.lists| ::
              Chained(s.next, s.lists[l]) && s.heads[l].idx == Top(s.lists[l]) && s.heads[l].size == |s.lists[l]| <= LIMIT
    ensures var s := run[k];
            s.global.idx == TopChain(s.chains) && forall g: nat | g < |s.chains| ::
              Chained(s.next, s.chains[g]) && |s.chains[g]| == LIMIT + 1
    ensures var s := run[k]; forall x | x in s.at && s.at[x] == Client :: x in s.next && s.next[x] == ALLOCATED
  {
    Reachable(run, k);
  }

  /** No slot is handed out twice: the slot that a step gives to the client was in that thread's hands,
      so the client did not hold it already. */
  lemma HandedOutOnce(s: State, t: nat, e: Event, s': State, x: int)
    requires Inv(s) && Step(s, t, e, s') && IsAt(s', x, Client) && !IsAt(s, x, Client)
    ensures s.pcs[t] == Mark(x) && IsAt(s, x, InHand(t, 0))
    ensures forall y | y != x && IsAt(s', y, Client) :: IsAt(s, y, Client)
  {
    hide Inv;
    if s.pcs[t].Mark? {
      assert IsAt(s, s.pcs[t].idx, InHand(t, 0)) by { MarkedInHand(s, t); }
    } else {
      ClientsKept(s, t, e, s');
    }
  }

  lemma MarkedInHand(s: State, t: nat)
    requires Inv(s) && t in s.pcs && s.pcs[t].Mark?
    ensures IsAt(s, s.pcs[t].idx, InHand(t, 0))
  {
    HandAt(s, t, 0);
  }

  lemma ClientsKept(s: State, t: nat, e: Event, s': State)
    requires Step(s, t, e, s') && !s.pcs[t].Mark?
    ensures forall y | IsAt(s', y, Client) :: IsAt(s, y, Client)
  {
    forall y | IsAt(s', y, Client)
      ensures IsAt(s, y, Client)
    {
      if Pushing(s.pcs[t]) { PushClients(s, t, e, s', y); } else { PopClients(s, t, e, s', y); }
    }
  }

  lemma PushClients(s: State, t: nat, e: Event, s': State, y: int)
    requires Step(s, t, e, s') && Pushing(s.pcs[t]) && IsAt(s', y, Client)
    ensures IsAt(s, y, Client)
  {
  }

  lemma PopClients(s: State, t: nat, e: Event, s': State, y: int)
    requires Step(s, t, e, s') && !Pushing(s.pcs[t]) && !s.pcs[t].Mark? && IsAt(s', y, Client)
    ensures IsAt(s, y, Client)
  {
  }
}
