/** AtomicHashArray: concurrent insert, find and erase by open addressing with linear probing. */
module HashArray {
  type Positive = n: nat | 1 <= n witness 1

  /** capacity_ and kAnchorMask_ + 1 */
  const CAPACITY: Positive
  const ANCHOR_RANGE: Positive
  /** maxEntries_ */
  const MAX_ENTRIES: nat

  /** The word that holds a cell's key. */
  datatype Cell = Empty | Locked | Key(k: nat) | Erased

  datatype Result = Hit(i: nat) | Miss | Inserted(i: nat) | Existing(i: nat) | Full | DidErase | NoErase

  /** Where a thread stands: the key, the cell it looks at and how many it has passed. `live` is, for the proof,
      the cell where a find's key stood when it began. */
  datatype Pc =
    | Idle
    | Returned(r: Result)
    | InsLoad(k: nat, i: nat, n: nat)
    | InsPend(k: nat, i: nat, n: nat)
    | InsFull(k: nat, i: nat, n: nat)
    | InsUnpendFull(k: nat, i: nat, n: nat)
    | InsSpinFull(k: nat, i: nat, n: nat)
    | InsSpinPend(k: nat, i: nat, n: nat)
    | InsFullStore(k: nat, i: nat, n: nat)
    | InsRecheck(k: nat, i: nat, n: nat)
    | InsLock(k: nat, i: nat, n: nat)
    | InsStore(k: nat, i: nat, n: nat)
    | InsCount(k: nat, i: nat)
    | InsTally(k: nat, i: nat)
    | InsRead(k: nat, i: nat)
    | InsClose(k: nat, i: nat)
    | InsUnpend(k: nat, i: nat, n: nat)
    | InsWait(k: nat, i: nat, n: nat)
    | InsSettle(k: nat, i: nat, n: nat)
    | FindLoad(k: nat, i: nat, n: nat, live: int)
    | EraLoad(k: nat, i: nat, n: nat)
    | EraCas(k: nat, i: nat)

  /** The shared fields; for the proof, who locked a cell and how far down its probe path its key stands. */
  datatype State = State(cells: seq<Cell>, full: nat, pending: int, entries: nat, pcs: map<nat, Pc>, owner: seq<nat>, rank: seq<nat>)

  // ---- probing ----

  /** keyToAnchorIdx, of the key's hash */
  function Anchor(hash: nat): (i: nat)
    ensures i < CAPACITY
  {
    var probe := hash % ANCHOR_RANGE;
    if probe < CAPACITY then probe else hash % CAPACITY
  }

  /** Every cell is the anchor of some hash, and hashes that agree modulo the capacity and the anchor's range share it. */
  lemma AnchorHits(i: nat, hash: nat)
    requires CAPACITY <= ANCHOR_RANGE
    ensures i < CAPACITY ==> Anchor(i) == i
    ensures hash % ANCHOR_RANGE == i % ANCHOR_RANGE && hash % CAPACITY == i % CAPACITY ==> Anchor(hash) == Anchor(i)
    ensures Anchor(hash) == hash % ANCHOR_RANGE || (Anchor(hash) == hash % CAPACITY && hash % ANCHOR_RANGE >= CAPACITY)
  {
    if i < CAPACITY { SmallMod(i, ANCHOR_RANGE); }
  }

  lemma SmallMod(i: nat, m: nat)
    requires i < m
    ensures i % m == i
  {
  }

  /** AtomicHashArrayLinearProbeFcn */
  function Probe(i: nat): nat
    requires i < CAPACITY
  {
    if i + 1 < CAPACITY then i + 1 else i + 1 - CAPACITY
  }

  /** The cell on the probe path of a key after j steps. */
  function Pos(hash: nat, j: nat): (i: nat)
    ensures i < CAPACITY
    decreases j
  {
    if j == 0 then Anchor(hash) else Probe(Pos(hash, j - 1))
  }

  lemma {:induction false} PosIs(hash: nat, j: nat)
    requires j < CAPACITY
    ensures Pos(hash, j) == if Anchor(hash) + j < CAPACITY then Anchor(hash) + j else Anchor(hash) + j - CAPACITY
  {
    if j > 0 { PosIs(hash, j - 1); }
  }

  /** A probe path meets no cell twice. */
  lemma PosOnce(hash: nat, i: nat, j: nat)
    requires i < CAPACITY && j < CAPACITY && Pos(hash, i) == Pos(hash, j)
    ensures i == j
  {
    PosIs(hash, i);
    PosIs(hash, j);
  }

  /** And it meets every cell. */
  lemma PosAll(hash: nat, i: nat) returns (j: nat)
    requires i < CAPACITY
    ensures j < CAPACITY && Pos(hash, j) == i
  {
    j := if i >= Anchor(hash) then i - Anchor(hash) else i + CAPACITY - Anchor(hash);
    PosIs(hash, j);
  }

  // ---- the invariant ----

  /** The hash function, as a parameter. */
  type Hash = nat -> nat

  /** A cell that the probe for key k may pass for good. */
  predicate Passed(c: Cell, k: nat) {
    c.Erased? || (c.Key? && c.k != k)
  }

  /** The first n cells on key k's path are passed. */
  ghost predicate Path(hash: Hash, cells: seq<Cell>, k: nat, n: nat)
    requires |cells| == CAPACITY
  {
    forall j: nat | j < n :: Passed(cells[Pos(hash(k), j)], k)
  }

  ghost predicate Sized(s: State) {
    |s.cells| == |s.owner| == |s.rank| == CAPACITY
  }

  /** A thread looking at cell i after passing n cells. */
  ghost predicate Probing(hash: Hash, s: State, k: nat, i: nat, n: nat)
    requires Sized(s)
  {
    n < CAPACITY && i == Pos(hash(k), n) && Path(hash, s.cells, k, n)
  }

  /** A cell with a key stands on the key's path behind passed cells only: none of them empty. */
  ghost predicate Keyed(hash: Hash, s: State, i: nat)
    requires Sized(s) && i < CAPACITY
  {
    s.cells[i].Key? ==> Probing(hash, s, s.cells[i].k, i, s.rank[i])
  }

  ghost predicate Core(hash: Hash, s: State) {
    Sized(s) && forall i: nat | i < CAPACITY :: Keyed(hash, s, i)
  }

  ghost predicate Knows(hash: Hash, s: State, t: nat, pc: Pc)
    requires Sized(s)
  {
    match pc
    case Idle => true
    case Returned(_) => true
    case InsLoad(k, i, n) => Probing(hash, s, k, i, n)
    case InsPend(k, i, n) => Probing(hash, s, k, i, n)
    case InsFull(k, i, n) => Probing(hash, s, k, i, n)
    case InsUnpendFull(k, i, n) => Probing(hash, s, k, i, n)
    case InsSpinFull(k, i, n) => Probing(hash, s, k, i, n)
    case InsSpinPend(k, i, n) => Probing(hash, s, k, i, n)
    case InsFullStore(k, i, n) => Probing(hash, s, k, i, n)
    case InsRecheck(k, i, n) => Probing(hash, s, k, i, n)
    case InsLock(k, i, n) => Probing(hash, s, k, i, n)
    case InsStore(k, i, n) => Probing(hash, s, k, i, n) && s.cells[i].Locked? && s.owner[i] == t
    case InsCount(k, i) => i < CAPACITY && s.cells[i] in {Key(k), Erased}
    case InsTally(k, i) => i < CAPACITY && s.cells[i] in {Key(k), Erased}
    case InsRead(k, i) => i < CAPACITY && s.cells[i] in {Key(k), Erased}
    case InsClose(k, i) => i < CAPACITY && s.cells[i] in {Key(k), Erased}
    case InsUnpend(k, i, n) => Probing(hash, s, k, i, n)
    case InsWait(k, i, n) => Probing(hash, s, k, i, n)
    case InsSettle(k, i, n) => Probing(hash, s, k, i, n)
    case FindLoad(k, i, n, live) =>
      && n < CAPACITY && i == Pos(hash(k), n) && live < CAPACITY
      && (live >= 0 ==> s.cells[live] in {Key(k), Erased} && (s.cells[live] == Key(k) ==> n <= s.rank[live]))
    case EraLoad(k, i, n) => Probing(hash, s, k, i, n)
    case EraCas(k, i) => i < CAPACITY && s.cells[i] in {Key(k), Erased}
  }

  ghost predicate AllKnow(hash: Hash, s: State)
    requires Sized(s)
  {
    forall t | t in s.pcs :: Knows(hash, s, t, s.pcs[t])
  }

  ghost predicate Inv(hash: Hash, s: State) {
    Core(hash, s) && AllKnow(hash, s)
  }

  ghost predicate Init(s: State) {
    Sized(s) && (forall i | 0 <= i < CAPACITY :: s.cells[i] == Empty) && s.full == 0 && s.pending == 0 && s.entries == 0
    && forall t | t in s.pcs :: s.pcs[t] == Idle
  }

  // ---- the steps ----

  datatype Event = Insert(k: nat) | Find(k: nat) | Erase(k: nat) | Go(fill: bool)

  ghost function Goto(s: State, t: nat, pc: Pc): State {
    s.(pcs := s.pcs[t := pc])
  }

  ghost function Write(s: State, i: nat, c: Cell): State
    requires i < |s.cells|
  {
    s.(cells := s.cells[i := c])
  }

  /** The next cell on the path, unless every cell was probed. */
  ghost predicate Advance(s: State, t: nat, i: nat, n: nat, more: Pc, out: Result, s': State) {
    s' == Goto(s, t, if n + 1 >= CAPACITY then Returned(out) else more)
  }

  ghost predicate Step(hash: Hash, s: State, t: nat, e: Event, s': State)
    requires Sized(s)
  {
    && t in s.pcs && (e.Go? <==> !s.pcs[t].Idle? && !s.pcs[t].Returned?)
    && match s.pcs[t]
       case Idle => Start(hash, s, t, e, s')
       case Returned(_) => Start(hash, s, t, e, s')
       case InsLoad(k, i, n) => i < CAPACITY && s' == Goto(s, t, if s.cells[i].Empty? then InsPend(k, i, n) else InsWait(k, i, n))
       case InsPend(k, i, n) => s' == Goto(s, t, InsFull(k, i, n)).(pending := s.pending + 1)
       case InsFull(k, i, n) => s' == Goto(s, t, if s.full != 0 then InsUnpendFull(k, i, n) else InsLock(k, i, n))
       case InsUnpendFull(k, i, n) => s' == Goto(s, t, InsSpinFull(k, i, n)).(pending := s.pending - 1)
       case InsSpinFull(k, i, n) => s' == Goto(s, t, if s.full == 2 then InsFullStore(k, i, n) else InsSpinPend(k, i, n))
       case InsSpinPend(k, i, n) => s' == Goto(s, t, if s.pending == 0 then InsFullStore(k, i, n) else InsSpinFull(k, i, n))
       case InsFullStore(k, i, n) => s' == Goto(s, t, InsRecheck(k, i, n)).(full := 2)
       case InsRecheck(k, i, n) => i < CAPACITY && s' == Goto(s, t, if s.cells[i].Empty? then Returned(Full) else InsWait(k, i, n))
       case InsLock(k, i, n) =>
         i < CAPACITY &&
         if s.cells[i].Empty? then s' == Write(Goto(s, t, InsStore(k, i, n)), i, Locked).(owner := s.owner[i := t])
         else s' == Goto(s, t, InsUnpend(k, i, n))
       // the value is constructed before, and does not throw
       case InsStore(k, i, n) => i < CAPACITY && s' == Write(Goto(s, t, InsCount(k, i)), i, Key(k)).(rank := s.rank[i := n])
       case InsCount(k, i) => s' == Goto(s, t, InsTally(k, i)).(pending := s.pending - 1)
       case InsTally(k, i) => s' == Goto(s, t, InsRead(k, i)).(entries := s.entries + 1)
       // the entry count is read from a thread's cache and may lag behind; at the limit it closes the table
       case InsRead(k, i) => (e.fill ==> s.entries >= MAX_ENTRIES) && s' == Goto(s, t, if e.fill then InsClose(k, i) else Returned(Inserted(i)))
       case InsClose(k, i) => s' == Goto(s, t, Returned(Inserted(i))).(full := 1)
       case InsUnpend(k, i, n) => s' == Goto(s, t, InsWait(k, i, n)).(pending := s.pending - 1)
       case InsWait(k, i, n) => i < CAPACITY && !s.cells[i].Locked? && s' == Goto(s, t, InsSettle(k, i, n))
       case InsSettle(k, i, n) =>
         i < CAPACITY &&
         if s.cells[i] == Key(k) then s' == Goto(s, t, Returned(Existing(i)))
         else if s.cells[i].Empty? || s.cells[i].Locked? then s' == Goto(s, t, InsLoad(k, i, n))
         else Advance(s, t, i, n, InsLoad(k, Probe(i), n + 1), Full, s')
       case FindLoad(k, i, n, live) =>
         i < CAPACITY &&
         if s.cells[i] == Key(k) then s' == Goto(s, t, Returned(Hit(i)))
         else if s.cells[i].Empty? then s' == Goto(s, t, Returned(Miss))
         else Advance(s, t, i, n, FindLoad(k, Probe(i), n + 1, live), Miss, s')
       case EraLoad(k, i, n) =>
         i < CAPACITY &&
         if s.cells[i].Empty? || s.cells[i].Locked? then s' == Goto(s, t, Returned(NoErase))
         else if s.cells[i] == Key(k) then s' == Goto(s, t, EraCas(k, i))
         else Advance(s, t, i, n, EraLoad(k, Probe(i), n + 1), NoErase, s')
       case EraCas(k, i) =>
         i < CAPACITY &&
         if s.cells[i] == Key(k) then s' == Write(Goto(s, t, Returned(DidErase)), i, Erased)
         else s' == Goto(s, t, Returned(NoErase))
  }

  /** The cell where a key stands; -1 if there is none. */
  ghost function Standing(s: State, k: nat): (live: int)
    requires Sized(s)
    ensures live < CAPACITY && (live >= 0 ==> s.cells[live] == Key(k))
    ensures live < 0 ==> forall i | 0 <= i < CAPACITY :: s.cells[i] != Key(k)
  {
    if i: nat :| i < CAPACITY && s.cells[i] == Key(k) then i else -1
  }

  /** A thread begins an operation; a find notes where its key stands, if anywhere. */
  ghost predicate Start(hash: Hash, s: State, t: nat, e: Event, s': State)
    requires Sized(s)
  {
    match e
    case Insert(k) => s' == Goto(s, t, InsLoad(k, Pos(hash(k), 0), 0))
    case Find(k) => s' == Goto(s, t, FindLoad(k, Pos(hash(k), 0), 0, Standing(s, k)))
    case Erase(k) => s' == Goto(s, t, EraLoad(k, Pos(hash(k), 0), 0))
    case Go(_) => false
  }

  /** Cells only move from empty to locked to one key to erased. */
  predicate Onward(c: Cell, c': Cell) {
    c == c' || c.Empty? || (c.Locked? && !c'.Empty?) || (c.Key? && c'.Erased?)
  }

  lemma CellsMoveOnward(hash: Hash, s: State, t: nat, e: Event, s': State, i: nat)
    requires Inv(hash, s) && Step(hash, s, t, e, s') && i < CAPACITY
    ensures Sized(s') && Onward(s.cells[i], s'.cells[i])
    ensures s'.cells[i] == s.cells[i] || (s.cells[i].Empty? && s'.cells[i].Locked?) || (s.cells[i].Locked? && s'.cells[i].Key?)
         || (s.cells[i].Key? && s'.cells[i].Erased?)
  {
    assert Knows(hash, s, t, s.pcs[t]);
  }

  /** What the others see of thread t's step. */
  ghost predicate Later(s: State, t: nat, s': State) {
    && Sized(s) && Sized(s')
    && (forall i: nat | i < CAPACITY :: Onward(s.cells[i], s'.cells[i]))
    && (forall i: nat | i < CAPACITY && s.cells[i].Locked? && s.owner[i] != t :: s'.cells[i] == s.cells[i] && s'.owner[i] == s.owner[i])
    && (forall i: nat | i < CAPACITY && s.cells[i].Key? :: s'.rank[i] == s.rank[i])
  }

  lemma PathKept(hash: Hash, s: State, t: nat, s': State, k: nat, n: nat)
    requires Later(s, t, s') && Path(hash, s.cells, k, n)
    ensures Path(hash, s'.cells, k, n)
  {
    forall j: nat | j < n
      ensures Passed(s'.cells[Pos(hash(k), j)], k)
    {
      assert Passed(s.cells[Pos(hash(k), j)], k);
    }
  }

  lemma KnowsKept(hash: Hash, s: State, t: nat, s': State, u: nat)
    requires Later(s, t, s') && u in s.pcs && u != t && Knows(hash, s, u, s.pcs[u])
    ensures Knows(hash, s', u, s.pcs[u])
  {
    hide Path, Pos;
    var pc := s.pcs[u];
    if !(pc.Idle? || pc.Returned? || pc.FindLoad? || pc.EraCas? || pc.InsCount? || pc.InsTally? || pc.InsRead? || pc.InsClose?) {
      PathKept(hash, s, t, s', pc.k, pc.n);
    }
  }

  lemma OthersKnow(hash: Hash, s: State, t: nat, s': State)
    requires Later(s, t, s') && AllKnow(hash, s) && t in s.pcs && s'.pcs.Keys == s.pcs.Keys
    requires forall u | u in s.pcs && u != t :: s'.pcs[u] == s.pcs[u]
    requires Knows(hash, s', t, s'.pcs[t])
    ensures AllKnow(hash, s')
  {
    hide Knows;
    forall u | u in s'.pcs
      ensures Knows(hash, s', u, s'.pcs[u])
    {
      if u != t { KnowsKept(hash, s, t, s', u); }
    }
  }

  lemma KeyedKept(hash: Hash, s: State, t: nat, s': State, i: nat)
    requires Later(s, t, s') && i < CAPACITY && Keyed(hash, s, i) && (s'.cells[i].Key? ==> s.cells[i].Key?)
    ensures Keyed(hash, s', i)
  {
    if s'.cells[i].Key? { PathKept(hash, s, t, s', s.cells[i].k, s.rank[i]); }
  }

  lemma InitInv(hash: Hash, s: State)
    requires Init(s)
    ensures Inv(hash, s)
  {
  }

  /** Steps that write no cell. */
  lemma QuietKeeps(hash: Hash, s: State, t: nat, s': State)
    requires Inv(hash, s) && t in s.pcs && s'.cells == s.cells && s'.owner == s.owner && s'.rank == s.rank
    requires s'.pcs.Keys == s.pcs.Keys && forall u | u in s.pcs && u != t :: s'.pcs[u] == s.pcs[u]
    requires Knows(hash, s', t, s'.pcs[t])
    ensures Inv(hash, s')
  {
    hide Knows, Path, Pos;
    forall i: nat | i < CAPACITY ensures Keyed(hash, s', i) { KeyedKept(hash, s, t, s', i); }
    OthersKnow(hash, s, t, s');
  }

  lemma LockKeeps(hash: Hash, s: State, t: nat, k: nat, i: nat, n: nat, s': State)
    requires Inv(hash, s) && t in s.pcs && Probing(hash, s, k, i, n) && s.cells[i].Empty?
    requires s' == Write(Goto(s, t, InsStore(k, i, n)), i, Locked).(owner := s.owner[i := t])
    ensures Inv(hash, s')
  {
    hide Path, Pos;
    assert Later(s, t, s');
    forall j: nat | j < CAPACITY ensures Keyed(hash, s', j) { KeyedKept(hash, s, t, s', j); }
    PathKept(hash, s, t, s', k, n);
    OthersKnow(hash, s, t, s');
  }

  lemma StoreKeeps(hash: Hash, s: State, t: nat, k: nat, i: nat, n: nat, s': State)
    requires Inv(hash, s) && t in s.pcs && s.pcs[t] == InsStore(k, i, n) && Knows(hash, s, t, s.pcs[t])
    requires s' == Write(Goto(s, t, InsCount(k, i)), i, Key(k)).(rank := s.rank[i := n])
    ensures Inv(hash, s')
  {
    hide Path, Pos;
    assert Later(s, t, s');
    PathKept(hash, s, t, s', k, n);
    forall j: nat | j < CAPACITY ensures Keyed(hash, s', j) { if j != i { KeyedKept(hash, s, t, s', j); } }
    OthersKnow(hash, s, t, s');
  }

  lemma EraseKeeps(hash: Hash, s: State, t: nat, k: nat, i: nat, s': State)
    requires Inv(hash, s) && t in s.pcs && i < CAPACITY && s.cells[i] == Key(k)
    requires s' == Write(Goto(s, t, Returned(DidErase)), i, Erased)
    ensures Inv(hash, s')
  {
    hide Path, Pos;
    assert Later(s, t, s');
    forall j: nat | j < CAPACITY ensures Keyed(hash, s', j) { KeyedKept(hash, s, t, s', j); }
    OthersKnow(hash, s, t, s');
  }

  /** One more cell passed. */
  lemma PathNext(hash: Hash, s: State, k: nat, i: nat, n: nat)
    requires Sized(s) && Probing(hash, s, k, i, n) && Passed(s.cells[i], k) && n + 1 < CAPACITY
    ensures Probing(hash, s, k, Probe(i), n + 1)
  {
  }

  /** A find cannot run past the cell of its key. */
  lemma FindOn(hash: Hash, s: State, k: nat, i: nat, n: nat, live: nat)
    requires Core(hash, s) && n < CAPACITY && i == Pos(hash(k), n) && live < CAPACITY && s.cells[live] == Key(k) && n <= s.rank[live]
    ensures if n == s.rank[live] then i == live else n + 1 < CAPACITY && Passed(s.cells[i], k)
  {
    assert Keyed(hash, s, live);
  }

  lemma FindKeeps(hash: Hash, s: State, t: nat, e: Event, s': State)
    requires Inv(hash, s) && Step(hash, s, t, e, s') && s.pcs[t].FindLoad? && Knows(hash, s, t, s.pcs[t])
    ensures Inv(hash, s')
  {
    var pc := s.pcs[t];
    if pc.live >= 0 && s.cells[pc.live] == Key(pc.k) { FindOn(hash, s, pc.k, pc.i, pc.n, pc.live); }
    QuietKeeps(hash, s, t, s');
  }

  lemma EraLoadKeeps(hash: Hash, s: State, t: nat, e: Event, s': State)
    requires Inv(hash, s) && Step(hash, s, t, e, s') && s.pcs[t].EraLoad? && Knows(hash, s, t, s.pcs[t])
    ensures Inv(hash, s')
  {
    var pc := s.pcs[t];
    if Passed(s.cells[pc.i], pc.k) && pc.n + 1 < CAPACITY { PathNext(hash, s, pc.k, pc.i, pc.n); }
    QuietKeeps(hash, s, t, s');
  }

  lemma SettleKeeps(hash: Hash, s: State, t: nat, e: Event, s': State)
    requires Inv(hash, s) && Step(hash, s, t, e, s') && s.pcs[t].InsSettle? && Knows(hash, s, t, s.pcs[t])
    ensures Inv(hash, s')
  {
    var pc := s.pcs[t];
    if Passed(s.cells[pc.i], pc.k) && pc.n + 1 < CAPACITY { PathNext(hash, s, pc.k, pc.i, pc.n); }
    QuietKeeps(hash, s, t, s');
  }

  /** Steps of an insert that only look at or count things other than cells' keys. */
  lemma InsertQuietKeeps(hash: Hash, s: State, t: nat, e: Event, s': State)
    requires Inv(hash, s) && Step(hash, s, t, e, s') && Knows(hash, s, t, s.pcs[t])
    requires var pc := s.pcs[t];
             pc.InsLoad? || pc.InsPend? || pc.InsFull? || pc.InsUnpendFull? || pc.InsSpinFull? || pc.InsSpinPend? || pc.InsFullStore?
             || pc.InsRecheck? || pc.InsUnpend? || pc.InsWait?
    ensures Inv(hash, s')
  {
    hide Path, Pos, AllKnow, Keyed;
    QuietKeeps(hash, s, t, s');
  }

  lemma BeginKeeps(hash: Hash, s: State, t: nat, e: Event, s': State)
    requires Inv(hash, s) && Step(hash, s, t, e, s') && (s.pcs[t].Idle? || s.pcs[t].Returned?)
    ensures Inv(hash, s')
  {
    hide AllKnow, Keyed, Standing;
    QuietKeeps(hash, s, t, s');
  }

  lemma CountKeeps(hash: Hash, s: State, t: nat, e: Event, s': State)
    requires Inv(hash, s) && Step(hash, s, t, e, s') && Knows(hash, s, t, s.pcs[t])
    requires var pc := s.pcs[t]; pc.InsCount? || pc.InsTally? || pc.InsRead? || pc.InsClose?
    ensures Inv(hash, s')
  {
    hide AllKnow, Keyed, Start;
    QuietKeeps(hash, s, t, s');
  }

  lemma WriteKeeps(hash: Hash, s: State, t: nat, e: Event, s': State)
    requires Inv(hash, s) && Step(hash, s, t, e, s') && Knows(hash, s, t, s.pcs[t])
    requires s.pcs[t].InsLock? || s.pcs[t].InsStore? || s.pcs[t].EraCas?
    ensures Inv(hash, s')
  {
    hide Path, Pos, AllKnow, Keyed;
    match s.pcs[t] {
      case InsLock(k, i, n) => if s.cells[i].Empty? { LockKeeps(hash, s, t, k, i, n, s'); } else { QuietKeeps(hash, s, t, s'); }
      case InsStore(k, i, n) => StoreKeeps(hash, s, t, k, i, n, s');
      case EraCas(k, i) => if s.cells[i] == Key(k) { EraseKeeps(hash, s, t, k, i, s'); } else { QuietKeeps(hash, s, t, s'); }
      case _ =>
    }
  }

  lemma StepKeeps(hash: Hash, s: State, t: nat, e: Event, s': State)
    requires Inv(hash, s) && Step(hash, s, t, e, s')
    ensures Inv(hash, s')
  {
    hide Step, Path, Knows, AllKnow, Keyed;
    StepThread(hash, s, t, e, s');
    KnowsIt(hash, s, t);
    match s.pcs[t] {
      case InsLock(_, _, _) => WriteKeeps(hash, s, t, e, s');
      case InsStore(_, _, _) => WriteKeeps(hash, s, t, e, s');
      case EraCas(_, _) => WriteKeeps(hash, s, t, e, s');
      case InsSettle(_, _, _) => SettleKeeps(hash, s, t, e, s');
      case FindLoad(_, _, _, _) => FindKeeps(hash, s, t, e, s');
      case Idle => BeginKeeps(hash, s, t, e, s');
      case Returned(_) => BeginKeeps(hash, s, t, e, s');
      case InsCount(_, _) => CountKeeps(hash, s, t, e, s');
      case InsTally(_, _) => CountKeeps(hash, s, t, e, s');
      case InsRead(_, _) => CountKeeps(hash, s, t, e, s');
      case InsClose(_, _) => CountKeeps(hash, s, t, e, s');
      case EraLoad(_, _, _) => EraLoadKeeps(hash, s, t, e, s');
      case _ => InsertQuietKeeps(hash, s, t, e, s');
    }
  }

  lemma KnowsIt(hash: Hash, s: State, t: nat)
    requires Sized(s) && AllKnow(hash, s) && t in s.pcs
    ensures Knows(hash, s, t, s.pcs[t])
  {
  }

  lemma StepThread(hash: Hash, s: State, t: nat, e: Event, s': State)
    requires Sized(s) && Step(hash, s, t, e, s')
    ensures t in s.pcs
  {
  }

  // ---- what holds in every reachable state ----

  ghost predicate Steps(hash: Hash, s: State, s': State) {
    Sized(s) && exists t: nat, e: Event :: Step(hash, s, t, e, s')
  }

  ghost predicate IsRun(hash: Hash, run: seq<State>) {
    |run| > 0 && Init(run[0]) && forall j: nat | j + 1 < |run| :: Steps(hash, run[j], run[j + 1])
  }

  lemma {:induction false} Reachable(hash: Hash, run: seq<State>, j: nat)
    requires IsRun(hash, run) && j < |run|
    ensures Inv(hash, run[j])
  {
    hide Inv, Init, Step;
    if j == 0 {
      InitInv(hash, run[0]);
    } else {
      Reachable(hash, run, j - 1);
      assert Steps(hash, run[j - 1], run[j - 1 + 1]);
      var t: nat, e: Event :| Step(hash, run[j - 1], t, e, run[j]);
      StepKeeps(hash, run[j - 1], t, e, run[j]);
    }
  }

  lemma SameRank(hash: Hash, s: State, k: nat, a: nat, b: nat)
    requires Sized(s) && a < CAPACITY && b < CAPACITY && s.cells[a] == s.cells[b] == Key(k)
    requires Probing(hash, s, k, a, s.rank[a]) && Probing(hash, s, k, b, s.rank[b])
    ensures a == b
  {
    var i, j := s.rank[a], s.rank[b];
    if i < j { PathAt(hash, s.cells, k, j, i); }
    if j < i { PathAt(hash, s.cells, k, i, j); }
  }

  lemma PathAt(hash: Hash, cells: seq<Cell>, k: nat, n: nat, j: nat)
    requires |cells| == CAPACITY && Path(hash, cells, k, n) && j < n
    ensures Passed(cells[Pos(hash(k), j)], k)
  {
  }

  /** A live key occupies one cell only, and no cell before it on its probe path is empty, locked or the same key. */
  lemma OneCellPerKey(hash: Hash, run: seq<State>, j: nat, a: nat, b: nat)
    requires IsRun(hash, run) && j < |run| && a < CAPACITY && b < CAPACITY
    ensures Sized(run[j]) && (run[j].cells[a].Key? && run[j].cells[a] == run[j].cells[b] ==> a == b)
    ensures run[j].cells[a].Key? ==>
              exists n: nat :: n < CAPACITY && a == Pos(hash(run[j].cells[a].k), n) && Path(hash, run[j].cells, run[j].cells[a].k, n)
  {
    Reachable(hash, run, j);
    var s := run[j];
    assert Keyed(hash, s, a) && Keyed(hash, s, b);
    if s.cells[a].Key? && s.cells[a] == s.cells[b] {
      var k := s.cells[a].k;
      SameRank(hash, s, k, a, b);
    }
  }

  /** A find that began with its key live returns the key's cell, unless the key was erased meanwhile. */
  lemma FindFinds(hash: Hash, run: seq<State>, j: nat, t: nat, e: Event)
    requires IsRun(hash, run) && j + 1 < |run| && Sized(run[j]) && Step(hash, run[j], t, e, run[j + 1])
    requires run[j].pcs[t].FindLoad? && run[j].pcs[t].live >= 0 && run[j + 1].pcs[t].Returned?
    ensures run[j].pcs[t].live < CAPACITY
    ensures run[j].cells[run[j].pcs[t].live] == Key(run[j].pcs[t].k) ==> run[j + 1].pcs[t].r == Hit(run[j].pcs[t].live)
    ensures run[j].cells[run[j].pcs[t].live] in {Key(run[j].pcs[t].k), Erased}
  {
    Reachable(hash, run, j);
    var s := run[j];
    assert Knows(hash, s, t, s.pcs[t]);
    var pc := s.pcs[t];
    if s.cells[pc.live] == Key(pc.k) { FindOn(hash, s, pc.k, pc.i, pc.n, pc.live); }
  }

  /** An insert that reports success has put its key there, and the cell holds it or was erased since;
      one that reports an existing entry has just seen it. */
  lemma InsertInserts(hash: Hash, run: seq<State>, j: nat, t: nat, e: Event)
    requires IsRun(hash, run) && j + 1 < |run| && Sized(run[j]) && Step(hash, run[j], t, e, run[j + 1]) && Sized(run[j + 1])
    ensures (run[j].pcs[t].InsRead? || run[j].pcs[t].InsClose?) && run[j + 1].pcs[t].Returned? ==>
              run[j].pcs[t].i < CAPACITY && run[j + 1].pcs[t] == Returned(Inserted(run[j].pcs[t].i))
              && run[j + 1].cells[run[j].pcs[t].i] in {Key(run[j].pcs[t].k), Erased}
    ensures run[j].pcs[t].InsSettle? && run[j + 1].pcs[t].Returned? && run[j + 1].pcs[t].r.Existing? ==>
              run[j + 1].pcs[t].r.i < CAPACITY && run[j + 1].cells[run[j + 1].pcs[t].r.i] == Key(run[j].pcs[t].k)
  {
    Reachable(hash, run, j);
    assert Knows(hash, run[j], t, run[j].pcs[t]);
  }

  /** Between states j and j + 1 thread t's insert of key k returns, and names cell i. */
  ghost predicate InsertReturns(run: seq<State>, j: nat, t: nat, k: nat, i: nat)
    requires j + 1 < |run|
  {
    && t in run[j].pcs && t in run[j + 1].pcs
    && ((run[j].pcs[t] in {InsRead(k, i), InsClose(k, i)} && run[j + 1].pcs[t] == Returned(Inserted(i))) ||
        (run[j].pcs[t].InsSettle? && run[j].pcs[t].k == k && run[j + 1].pcs[t] == Returned(Existing(i))))
  }

  /** Thread t begins to look for key k between states j and j + 1, and is at it until state l. */
  ghost predicate Looks(run: seq<State>, j: nat, l: nat, t: nat, k: nat)
    requires j < l < |run|
  {
    && t in run[j].pcs && !run[j].pcs[t].FindLoad? && (forall n | j < n <= l :: t in run[n].pcs && run[n].pcs[t].FindLoad?)
    && run[j + 1].pcs[t].k == k
  }

  /** One step of a run: who made it, and what it left to the others. */
  lemma OneStep(hash: Hash, run: seq<State>, j: nat) returns (t: nat, e: Event)
    requires IsRun(hash, run) && j + 1 < |run|
    ensures Inv(hash, run[j]) && Inv(hash, run[j + 1]) && Step(hash, run[j], t, e, run[j + 1])
    ensures run[j + 1].pcs.Keys == run[j].pcs.Keys && forall u | u in run[j].pcs && u != t :: run[j + 1].pcs[u] == run[j].pcs[u]
  {
    hide Inv;
    Reachable(hash, run, j);
    Reachable(hash, run, j + 1);
    assert Steps(hash, run[j], run[j + 1]);
    t, e :| Step(hash, run[j], t, e, run[j + 1]);
    OnlyThread(hash, run[j], t, e, run[j + 1]);
  }

  lemma OnlyThread(hash: Hash, s: State, t: nat, e: Event, s': State)
    requires Sized(s) && Step(hash, s, t, e, s')
    ensures s'.pcs.Keys == s.pcs.Keys && forall u | u in s.pcs && u != t :: s'.pcs[u] == s.pcs[u]
  {
  }

  /** A cell keeps its key until it is erased. */
  lemma {:induction false} KeyStays(hash: Hash, run: seq<State>, j: nat, l: nat, k: nat, i: nat)
    requires IsRun(hash, run) && j <= l < |run| && i < CAPACITY && i < |run[j].cells| && run[j].cells[i] == Key(k)
    requires forall n | j <= n <= l :: i < |run[n].cells| && run[n].cells[i] != Erased
    ensures run[l].cells[i] == Key(k)
  {
    hide Inv, Step;
    if j < l {
      KeyStays(hash, run, j, l - 1, k, i);
      var t, e := OneStep(hash, run, l - 1);
      CellsMoveOnward(hash, run[l - 1], t, e, run[l], i);
    }
  }

  /** A find goes on for the key it began with, and remembers where that stood. */
  lemma {:induction false} FindGoesOn(hash: Hash, run: seq<State>, j: nat, l: nat, t: nat, k: nat)
    requires IsRun(hash, run) && j < l < |run| && Looks(run, j, l, t, k)
    ensures Sized(run[j]) && run[l].pcs[t].k == k && run[l].pcs[t].live == Standing(run[j], k)
    decreases l
  {
    hide Inv, Step, Looks, Standing, IsRun;
    SizedAt(hash, run, j);
    SizedAt(hash, run, l - 1);
    var u, e := OneStep(hash, run, l - 1);
    LookAt(run, j, l, t, k);
    if j + 1 < l {
      FindGoesOn(hash, run, j, l - 1, t, k);
      FindStep(hash, run[l - 1], u, e, run[l], t);
    } else {
      FindStart(hash, run[j], u, e, run[l], t);
    }
  }

  lemma LookAt(run: seq<State>, j: nat, l: nat, t: nat, k: nat)
    requires j < l < |run| && Looks(run, j, l, t, k)
    ensures t in run[l].pcs && run[l].pcs[t].FindLoad? && t in run[l - 1].pcs
    ensures if j + 1 < l then Looks(run, j, l - 1, t, k) && run[l - 1].pcs[t].FindLoad?
            else !run[j].pcs[t].FindLoad? && run[l].pcs[t].k == k
  {
    if j + 1 < l {
      assert run[l - 1].pcs[t].FindLoad?;
    }
  }

  lemma FindStep(hash: Hash, s: State, u: nat, e: Event, s': State, t: nat)
    requires Sized(s) && Step(hash, s, u, e, s') && t in s.pcs && t in s'.pcs && s.pcs[t].FindLoad? && s'.pcs[t].FindLoad?
    ensures s'.pcs[t].k == s.pcs[t].k && s'.pcs[t].live == s.pcs[t].live
  {
    OnlyThread(hash, s, u, e, s');
  }

  lemma FindStart(hash: Hash, s: State, u: nat, e: Event, s': State, t: nat)
    requires Sized(s) && Step(hash, s, u, e, s') && t in s.pcs && t in s'.pcs && !s.pcs[t].FindLoad? && s'.pcs[t].FindLoad?
    ensures s'.pcs[t].live == Standing(s, s'.pcs[t].k)
  {
    OnlyThread(hash, s, u, e, s');
  }

  /** The cell that a returning insert names holds the key, or was erased. */
  lemma ReturnedInserts(hash: Hash, run: seq<State>, j: nat, t: nat, k: nat, i: nat)
    requires IsRun(hash, run) && j + 1 < |run| && InsertReturns(run, j, t, k, i)
    ensures Sized(run[j + 1]) && i < CAPACITY && run[j + 1].cells[i] in {Key(k), Erased}
  {
    var u, e := OneStep(hash, run, j);
    assert u == t;
    InsertInserts(hash, run, j, t, e);
  }

  /** A find that begins after an insert of its key has returned, and returns before that entry is erased, returns
      the cell that the insert named. */
  lemma InsertThenFind(hash: Hash, run: seq<State>, j: nat, t: nat, k: nat, i: nat, b: nat, l: nat, u: nat)
    requires IsRun(hash, run) && j + 1 < |run| && InsertReturns(run, j, t, k, i)
    requires j < b < l && l + 1 < |run| && Looks(run, b, l, u, k) && u in run[l + 1].pcs && run[l + 1].pcs[u].Returned?
    requires forall n | j < n <= l :: i < |run[n].cells| && run[n].cells[i] != Erased
    ensures run[l + 1].pcs[u] == Returned(Hit(i))
  {
    hide Inv, Step, Looks;
    ReturnedInserts(hash, run, j, t, k, i);
    KeyStays(hash, run, j + 1, b, k, i);
    KeyStays(hash, run, j + 1, l, k, i);
    FindGoesOn(hash, run, b, l, u, k);
    StandsThere(hash, run, b, k, i);
    LookAt(run, b, l, u, k);
    var w, e := OneStep(hash, run, l);
    assert w == u;
    SizedAt(hash, run, l);
    FindFinds(hash, run, l, u, e);
  }

  lemma SizedAt(hash: Hash, run: seq<State>, j: nat)
    requires IsRun(hash, run) && j < |run|
    ensures Sized(run[j])
  {
    Reachable(hash, run, j);
  }

  lemma StandsThere(hash: Hash, run: seq<State>, j: nat, k: nat, i: nat)
    requires IsRun(hash, run) && j < |run| && i < CAPACITY && i < |run[j].cells| && run[j].cells[i] == Key(k)
    ensures Sized(run[j]) && Standing(run[j], k) == i
  {
    SizedAt(hash, run, j);
    var a := Standing(run[j], k);
    assert a >= 0;
    OneCellPerKey(hash, run, j, a, i);
  }
}
