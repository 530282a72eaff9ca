/** AtomicHashArray: whole calls of find, insert and erase are those of a set of keys, each at one moment of the call. */
module HashCalls {
  import opened HashArray

  datatype Move = Move(t: nat, e: Event)

  /** A run with the moves that made its steps. */
  ghost predicate IsTrace(hash: Hash, run: seq<State>, mv: seq<Move>) {
    && |run| == |mv| + 1 && Init(run[0]) && (forall j: nat | j < |run| :: Sized(run[j]))
    && forall j: nat | j < |mv| :: Step(hash, run[j], mv[j].t, mv[j].e, run[j + 1])
  }

  lemma TraceIsRun(hash: Hash, run: seq<State>, mv: seq<Move>)
    requires IsTrace(hash, run, mv)
    ensures IsRun(hash, run)
  {
    hide Init, Step;
    forall j: nat | j + 1 < |run|
      ensures Steps(hash, run[j], run[j + 1])
    {
      assert Step(hash, run[j], mv[j].t, mv[j].e, run[j + 1]);
    }
  }

  predicate Calling(pc: Pc) {
    !pc.Idle? && !pc.Returned?
  }

  /** Thread t begins a call between states a and a + 1 and is still at it in state j. */
  ghost predicate During(run: seq<State>, mv: seq<Move>, t: nat, a: nat, j: nat)
    requires |run| == |mv| + 1
  {
    && a < j < |run| && mv[a].t == t && t in run[a].pcs && !Calling(run[a].pcs[t])
    && forall i | a < i <= j :: t in run[i].pcs && Calling(run[i].pcs[t])
  }

  /** The call returns in state b. */
  ghost predicate Call(run: seq<State>, mv: seq<Move>, t: nat, a: nat, b: nat)
    requires |run| == |mv| + 1
  {
    0 < b < |run| && During(run, mv, t, a, b - 1) && t in run[b].pcs && run[b].pcs[t].Returned?
  }

  lemma At(hash: Hash, run: seq<State>, mv: seq<Move>, j: nat)
    requires IsTrace(hash, run, mv) && j < |mv|
    ensures Inv(hash, run[j]) && Inv(hash, run[j + 1]) && Step(hash, run[j], mv[j].t, mv[j].e, run[j + 1])
    ensures mv[j].t in run[j].pcs && run[j + 1].pcs.Keys == run[j].pcs.Keys
    ensures forall u | u in run[j].pcs && u != mv[j].t :: run[j + 1].pcs[u] == run[j].pcs[u]
  {
    hide Inv, Init, Step;
    TraceIsRun(hash, run, mv);
    Reachable(hash, run, j);
    Reachable(hash, run, j + 1);
    StepThread(hash, run[j], mv[j].t, mv[j].e, run[j + 1]);
    OnlyThread(hash, run[j], mv[j].t, mv[j].e, run[j + 1]);
  }

  // ---- the set of keys ----

  ghost predicate Live(s: State, k: nat) {
    exists i: nat :: i < |s.cells| && s.cells[i] == Key(k)
  }

  lemma Unique(hash: Hash, s: State, k: nat, a: nat, b: nat)
    requires Inv(hash, s) && a < CAPACITY && b < CAPACITY && s.cells[a] == s.cells[b] == Key(k)
    ensures a == b
  {
    assert Keyed(hash, s, a) && Keyed(hash, s, b);
    SameRank(hash, s, k, a, b);
  }

  /** A key is not behind an empty or locked cell of its path. */
  lemma StopsThere(hash: Hash, s: State, k: nat, n: nat)
    requires Inv(hash, s) && n < CAPACITY && Path(hash, s.cells, k, n)
    requires s.cells[Pos(hash(k), n)].Empty? || s.cells[Pos(hash(k), n)].Locked?
    ensures !Live(s, k)
  {
    forall i: nat | i < |s.cells| && s.cells[i] == Key(k)
      ensures false
    {
      assert Keyed(hash, s, i);
      if s.rank[i] < n { PathAt(hash, s.cells, k, n, s.rank[i]); }
      if n < s.rank[i] { PathAt(hash, s.cells, k, s.rank[i], n); }
    }
  }

  /** Every cell holds another key, or held one. */
  ghost predicate UsedUp(s: State, k: nat) {
    forall i: nat | i < |s.cells| :: Passed(s.cells[i], k)
  }

  lemma AllProbed(hash: Hash, s: State, k: nat)
    requires Inv(hash, s) && Path(hash, s.cells, k, CAPACITY)
    ensures !Live(s, k) && UsedUp(s, k)
  {
    forall i: nat | i < |s.cells|
      ensures Passed(s.cells[i], k)
    {
      var j := PosAll(hash(k), i);
      PathAt(hash, s.cells, k, CAPACITY, j);
    }
  }

  lemma PathLonger(hash: Hash, cells: seq<Cell>, k: nat, n: nat)
    requires |cells| == CAPACITY && Path(hash, cells, k, n) && Passed(cells[Pos(hash(k), n)], k)
    ensures Path(hash, cells, k, n + 1)
  {
  }

  /** The set changes only where an insert stores its key, and where an erase wins its compare-and-swap. */
  lemma LiveChanges(hash: Hash, s: State, t: nat, e: Event, s': State, k: nat)
    requires Inv(hash, s) && Step(hash, s, t, e, s') && Live(s, k) != Live(s', k)
    ensures t in s.pcs && if Live(s', k) then s.pcs[t].InsStore? && s.pcs[t].k == k else s.pcs[t].EraCas? && s.pcs[t].k == k
  {
    StepThread(hash, s, t, e, s');
    OneWrite(hash, s, t, e, s');
    if Live(s, k) {
      var i: nat :| i < |s.cells| && s.cells[i] == Key(k);
      assert s'.cells[i] != Key(k);
    } else {
      var i: nat :| i < |s'.cells| && s'.cells[i] == Key(k);
      assert s.cells[i] != Key(k);
    }
  }

  /** A step writes at most one cell, and only the thread's own. */
  lemma OneWrite(hash: Hash, s: State, t: nat, e: Event, s': State)
    requires Inv(hash, s) && Step(hash, s, t, e, s') && t in s.pcs
    ensures match s.pcs[t]
            case InsLock(k, i, _) => i < CAPACITY && s'.cells == if s.cells[i].Empty? then s.cells[i := Locked] else s.cells
            case InsStore(k, i, _) => i < CAPACITY && s.cells[i].Locked? && s'.cells == s.cells[i := Key(k)]
            case EraCas(k, i) => i < CAPACITY && s'.cells == if s.cells[i] == Key(k) then s.cells[i := Erased] else s.cells
            case _ => s'.cells == s.cells
  {
    assert Knows(hash, s, t, s.pcs[t]);
  }

  /** A key that stood in a cell erased since was for a moment not in the table. */
  lemma {:induction false} Gone(hash: Hash, run: seq<State>, mv: seq<Move>, c: nat, d: nat, k: nat, i: nat)
    requires IsTrace(hash, run, mv) && c < d < |run| && i < CAPACITY && run[c].cells[i] == Key(k) && run[d].cells[i] == Erased
    ensures exists j: nat :: c < j <= d && !Live(run[j], k)
    decreases d
  {
    hide Inv, Step, Live, Init;
    var l := d - 1;
    At(hash, run, mv, l);
    CellsMoveOnward(hash, run[l], mv[l].t, mv[l].e, run[d], i);
    if run[l].cells[i] == Erased {
      Gone(hash, run, mv, c, l, k, i);
    } else {
      if c < l { StillThere(hash, run, mv, c, l, k, i); }
      GoneNow(hash, run[l], mv[l].t, mv[l].e, run[d], k, i);
    }
  }

  lemma {:induction false} StillThere(hash: Hash, run: seq<State>, mv: seq<Move>, c: nat, d: nat, k: nat, i: nat)
    requires IsTrace(hash, run, mv) && c <= d < |run| && i < CAPACITY && run[c].cells[i] == Key(k)
    ensures run[d].cells[i] in {Key(k), Erased}
    decreases d
  {
    hide Inv, Step, Init;
    if c < d {
      StillThere(hash, run, mv, c, d - 1, k, i);
      At(hash, run, mv, d - 1);
      CellsMoveOnward(hash, run[d - 1], mv[d - 1].t, mv[d - 1].e, run[d], i);
    }
  }

  lemma GoneNow(hash: Hash, s: State, t: nat, e: Event, s': State, k: nat, i: nat)
    requires Inv(hash, s) && Step(hash, s, t, e, s') && Sized(s') && i < CAPACITY && s.cells[i] == Key(k) && s'.cells[i] == Erased
    ensures !Live(s', k)
  {
    hide Step;
    StepThread(hash, s, t, e, s');
    OneWrite(hash, s, t, e, s');
    forall b: nat | b < |s'.cells| && s'.cells[b] == Key(k)
      ensures false
    {
      assert s.cells[b] == Key(k);
      Unique(hash, s, k, i, b);
    }
  }

  // ---- find ----

  /** During the call, thread t looked at cell i, which was neither empty nor held the key. */
  ghost predicate LookedAt(run: seq<State>, mv: seq<Move>, t: nat, a: nat, j: nat, i: nat, k: nat)
    requires |run| == |mv| + 1
  {
    exists c: nat :: a < c < j <= |mv| && mv[c].t == t && i < |run[c].cells| && !run[c].cells[i].Empty? && run[c].cells[i] != Key(k)
  }

  /** So it did for the first n cells of the key's path. */
  ghost predicate Probed(hash: Hash, run: seq<State>, mv: seq<Move>, t: nat, a: nat, j: nat, k: nat, n: nat)
    requires |run| == |mv| + 1
  {
    forall m: nat | m < n :: LookedAt(run, mv, t, a, j, Pos(hash(k), m), k)
  }

  lemma ProbedLater(hash: Hash, run: seq<State>, mv: seq<Move>, t: nat, a: nat, j: nat, k: nat, n: nat)
    requires |run| == |mv| + 1 && Probed(hash, run, mv, t, a, j, k, n) && j + 1 <= |mv|
    ensures Probed(hash, run, mv, t, a, j + 1, k, n)
  {
    forall m: nat | m < n
      ensures LookedAt(run, mv, t, a, j + 1, Pos(hash(k), m), k)
    {
      assert LookedAt(run, mv, t, a, j, Pos(hash(k), m), k);
    }
  }

  lemma ProbedOne(hash: Hash, run: seq<State>, mv: seq<Move>, t: nat, a: nat, j: nat, k: nat, n: nat)
    requires |run| == |mv| + 1 && Probed(hash, run, mv, t, a, j, k, n) && a < j < |mv| && mv[j].t == t
    requires Pos(hash(k), n) < |run[j].cells| && !run[j].cells[Pos(hash(k), n)].Empty? && run[j].cells[Pos(hash(k), n)] != Key(k)
    ensures Probed(hash, run, mv, t, a, j + 1, k, n + 1)
  {
    ProbedLater(hash, run, mv, t, a, j, k, n);
    assert LookedAt(run, mv, t, a, j + 1, Pos(hash(k), n), k);
  }

  ghost predicate FindAt(hash: Hash, run: seq<State>, mv: seq<Move>, t: nat, k: nat, a: nat, j: nat, pc: Pc)
    requires |run| == |mv| + 1 && a < |run| && Sized(run[a])
  {
    pc.FindLoad? && pc.k == k && pc.live == Standing(run[a], k) && pc.n < CAPACITY && pc.i == Pos(hash(k), pc.n)
    && Probed(hash, run, mv, t, a, j, k, pc.n)
  }

  lemma {:induction false} FindSoFar(hash: Hash, run: seq<State>, mv: seq<Move>, t: nat, k: nat, a: nat, j: nat)
    requires IsTrace(hash, run, mv) && During(run, mv, t, a, j) && mv[a].e == Find(k) && j <= |mv|
    ensures FindAt(hash, run, mv, t, k, a, j, run[j].pcs[t])
    decreases j
  {
    hide Inv, Init, Step, Standing, Probed, Pos;
    var i := j - 1;
    At(hash, run, mv, i);
    if i == a {
      FindBegins(hash, run, mv, t, k, a);
    } else {
      FindSoFar(hash, run, mv, t, k, a, i);
      if mv[i].t == t { FindGoes(hash, run, mv, t, k, a, i); } else { ProbedLater(hash, run, mv, t, a, i, k, run[i].pcs[t].n); }
    }
  }

  lemma FindBegins(hash: Hash, run: seq<State>, mv: seq<Move>, t: nat, k: nat, a: nat)
    requires |run| == |mv| + 1 && a < |mv| && Sized(run[a]) && mv[a].t == t && mv[a].e == Find(k) && Step(hash, run[a], t, mv[a].e, run[a + 1])
    requires !Calling(run[a].pcs[t])
    ensures t in run[a + 1].pcs && FindAt(hash, run, mv, t, k, a, a + 1, run[a + 1].pcs[t])
  {
    hide Standing;
  }

  lemma FindGoes(hash: Hash, run: seq<State>, mv: seq<Move>, t: nat, k: nat, a: nat, i: nat)
    requires |run| == |mv| + 1 && a < i < |mv| && Sized(run[a]) && Sized(run[i]) && mv[i].t == t && Step(hash, run[i], t, mv[i].e, run[i + 1])
    requires t in run[i].pcs && FindAt(hash, run, mv, t, k, a, i, run[i].pcs[t]) && t in run[i + 1].pcs && Calling(run[i + 1].pcs[t])
    ensures FindAt(hash, run, mv, t, k, a, i + 1, run[i + 1].pcs[t])
  {
    hide Standing, Probed;
    ProbedOne(hash, run, mv, t, a, i, k, run[i].pcs[t].n);
  }

  /** An empty cell, or the last one there is to look at, without the key. */
  ghost predicate EndsAt(s: State, k: nat, i: nat, n: nat) {
    i < |s.cells| && (s.cells[i].Empty? || (n == CAPACITY - 1 && s.cells[i] != Key(k)))
  }

  /** A find returns a cell that holds its key then; or it has met an empty cell, or all cells, on the key's path,
      and the key was at some moment of the call not in the table. */
  lemma FindReturns(hash: Hash, run: seq<State>, mv: seq<Move>, t: nat, k: nat, a: nat, b: nat)
    requires IsTrace(hash, run, mv) && Call(run, mv, t, a, b) && mv[a].e == Find(k)
    ensures var r := run[b].pcs[t].r;
            if r.Hit? then r.i < CAPACITY && run[b - 1].cells[r.i] == Key(k)
            else r == Miss && (exists c: nat :: a <= c < b && !Live(run[c], k))
                 && exists n: nat :: n < CAPACITY && Probed(hash, run, mv, t, a, b - 1, k, n) && EndsAt(run[b - 1], k, Pos(hash(k), n), n)
  {
    hide Init, Probed, Standing, Inv, Live, Pos, Step;
    var l := b - 1;
    At(hash, run, mv, l);
    FindSoFar(hash, run, mv, t, k, a, l);
    var n, live := run[l].pcs[t].n, run[l].pcs[t].live;
    FindEnds(hash, run[l], t, mv[l].e, run[b]);
    TraceIsRun(hash, run, mv);
    if run[b].pcs[t].r == Miss {
      if live < 0 {
        NotLive(run[a], k);
      } else {
        FindFinds(hash, run, l, t, mv[l].e);
        Gone(hash, run, mv, a, l, k, live);
      }
    }
  }

  lemma NotLive(s: State, k: nat)
    requires Sized(s) && Standing(s, k) < 0
    ensures !Live(s, k)
  {
  }

  lemma FindEnds(hash: Hash, s: State, t: nat, e: Event, s': State)
    requires Sized(s) && Step(hash, s, t, e, s') && s.pcs[t].FindLoad? && t in s'.pcs && s'.pcs[t].Returned?
    ensures var pc, r := s.pcs[t], s'.pcs[t].r;
            pc.i < CAPACITY && if s.cells[pc.i] == Key(pc.k) then r == Hit(pc.i) else r == Miss && (s.cells[pc.i].Empty? || pc.n + 1 >= CAPACITY)
  {
  }

  // ---- insert ----

  /** The thread's steps from a to j write no cell, except for those in `but`. */
  ghost predicate Quiet(run: seq<State>, mv: seq<Move>, t: nat, a: nat, j: nat, but: set<nat>)
    requires |run| == |mv| + 1
  {
    forall c: nat | a <= c < j <= |mv| && mv[c].t == t && c !in but :: run[c + 1].cells == run[c].cells
  }

  ghost predicate Locks(run: seq<State>, mv: seq<Move>, t: nat, p: nat, i: nat)
    requires |run| == |mv| + 1
  {
    p < |mv| && mv[p].t == t && i < |run[p].cells| && run[p].cells[i].Empty? && run[p + 1].cells == run[p].cells[i := Locked]
  }

  ghost predicate Stores(run: seq<State>, mv: seq<Move>, t: nat, q: nat, i: nat, k: nat)
    requires |run| == |mv| + 1
  {
    q < |mv| && mv[q].t == t && i < |run[q].cells| && run[q].cells[i].Locked? && run[q + 1].cells == run[q].cells[i := Key(k)]
  }

  /** In the call so far, the thread saw the table closed to inserts, and then that no insert was pending. */
  ghost predicate SawFull(run: seq<State>, mv: seq<Move>, t: nat, a: nat, j: nat)
    requires |run| == |mv| + 1
  {
    exists c: nat :: a < c < j <= |mv| && mv[c].t == t && run[c].full != 0
  }

  ghost predicate SawSettled(run: seq<State>, mv: seq<Move>, t: nat, a: nat, j: nat)
    requires |run| == |mv| + 1
  {
    exists c: nat, d: nat :: a < c < d < j <= |mv| && mv[c].t == t && run[c].full != 0
                             && mv[d].t == t && (run[d].full == 2 || run[d].pending == 0)
  }

  /** And marked the table as having no pending inserts. */
  ghost predicate MarkedSettled(run: seq<State>, mv: seq<Move>, t: nat, a: nat, j: nat)
    requires |run| == |mv| + 1
  {
    exists c: nat :: a < c < j <= |mv| && mv[c].t == t && run[c + 1].full == 2
  }

  ghost predicate HasLocked(run: seq<State>, mv: seq<Move>, t: nat, a: nat, j: nat, i: nat)
    requires |run| == |mv| + 1
  {
    exists p: nat :: a < p < j && Locks(run, mv, t, p, i) && Quiet(run, mv, t, a, j, {p})
  }

  ghost predicate HasStored(hash: Hash, run: seq<State>, mv: seq<Move>, t: nat, a: nat, j: nat, i: nat, k: nat)
    requires |run| == |mv| + 1
  {
    exists p: nat, q: nat :: a < p < q < j && Locks(run, mv, t, p, i) && Stores(run, mv, t, q, i, k) && Quiet(run, mv, t, a, j, {p, q})
                             && !Live(run[q], k)
  }

  ghost predicate InsertAt(hash: Hash, run: seq<State>, mv: seq<Move>, t: nat, k: nat, a: nat, j: nat, pc: Pc)
    requires |run| == |mv| + 1
  {
    match pc
    case InsUnpendFull(k', _, _) => k' == k && Quiet(run, mv, t, a, j, {}) && SawFull(run, mv, t, a, j)
    case InsSpinFull(k', _, _) => k' == k && Quiet(run, mv, t, a, j, {}) && SawFull(run, mv, t, a, j)
    case InsSpinPend(k', _, _) => k' == k && Quiet(run, mv, t, a, j, {}) && SawFull(run, mv, t, a, j)
    case InsFullStore(k', _, _) => k' == k && Quiet(run, mv, t, a, j, {}) && SawSettled(run, mv, t, a, j)
    case InsRecheck(k', _, _) => k' == k && Quiet(run, mv, t, a, j, {}) && SawSettled(run, mv, t, a, j) && MarkedSettled(run, mv, t, a, j)
    case InsLoad(k', _, _) => k' == k && Quiet(run, mv, t, a, j, {})
    case InsPend(k', _, _) => k' == k && Quiet(run, mv, t, a, j, {})
    case InsFull(k', _, _) => k' == k && Quiet(run, mv, t, a, j, {})
    case InsLock(k', _, _) => k' == k && Quiet(run, mv, t, a, j, {})
    case InsUnpend(k', _, _) => k' == k && Quiet(run, mv, t, a, j, {})
    case InsWait(k', _, _) => k' == k && Quiet(run, mv, t, a, j, {})
    case InsSettle(k', _, _) => k' == k && Quiet(run, mv, t, a, j, {})
    case InsStore(k', i, _) => k' == k && HasLocked(run, mv, t, a, j, i)
    case InsCount(k', i) => k' == k && HasStored(hash, run, mv, t, a, j, i, k)
    case InsTally(k', i) => k' == k && HasStored(hash, run, mv, t, a, j, i, k)
    case InsRead(k', i) => k' == k && HasStored(hash, run, mv, t, a, j, i, k)
    case InsClose(k', i) => k' == k && HasStored(hash, run, mv, t, a, j, i, k)
    case _ => false
  }

  lemma QuietOne(run: seq<State>, mv: seq<Move>, t: nat, a: nat, j: nat, but: set<nat>)
    requires |run| == |mv| + 1 && j < |mv| && Quiet(run, mv, t, a, j, but) && (mv[j].t == t && j !in but ==> run[j + 1].cells == run[j].cells)
    ensures Quiet(run, mv, t, a, j + 1, but)
  {
  }

  /** Steps that write nothing, whoever makes them, leave what is known so far. */
  lemma StaysSo(hash: Hash, run: seq<State>, mv: seq<Move>, t: nat, a: nat, j: nat)
    requires |run| == |mv| + 1 && a < j < |mv| && (mv[j].t == t ==> run[j + 1].cells == run[j].cells)
    ensures Quiet(run, mv, t, a, j, {}) ==> Quiet(run, mv, t, a, j + 1, {})
    ensures SawFull(run, mv, t, a, j) ==> SawFull(run, mv, t, a, j + 1)
    ensures SawSettled(run, mv, t, a, j) ==> SawSettled(run, mv, t, a, j + 1)
    ensures MarkedSettled(run, mv, t, a, j) ==> MarkedSettled(run, mv, t, a, j + 1)
    ensures forall i | HasLocked(run, mv, t, a, j, i) :: HasLocked(run, mv, t, a, j + 1, i)
    ensures forall i, k | HasStored(hash, run, mv, t, a, j, i, k) :: HasStored(hash, run, mv, t, a, j + 1, i, k)
  {
    hide Locks, Stores, Live;
    forall i | HasLocked(run, mv, t, a, j, i)
      ensures HasLocked(run, mv, t, a, j + 1, i)
    {
      var p: nat :| a < p < j && Locks(run, mv, t, p, i) && Quiet(run, mv, t, a, j, {p});
      QuietOne(run, mv, t, a, j, {p});
    }
    forall i, k | HasStored(hash, run, mv, t, a, j, i, k)
      ensures HasStored(hash, run, mv, t, a, j + 1, i, k)
    {
      var p: nat, q: nat :| a < p < q < j && Locks(run, mv, t, p, i) && Stores(run, mv, t, q, i, k)
                            && Quiet(run, mv, t, a, j, {p, q}) && !Live(run[q], k);
      QuietOne(run, mv, t, a, j, {p, q});
    }
  }

  lemma JustLocked(run: seq<State>, mv: seq<Move>, t: nat, a: nat, j: nat, i: nat)
    requires |run| == |mv| + 1 && a < j < |mv| && Quiet(run, mv, t, a, j, {}) && Locks(run, mv, t, j, i)
    ensures HasLocked(run, mv, t, a, j + 1, i)
  {
    assert Quiet(run, mv, t, a, j + 1, {j});
  }

  lemma JustStored(hash: Hash, run: seq<State>, mv: seq<Move>, t: nat, a: nat, j: nat, i: nat, k: nat)
    requires |run| == |mv| + 1 && a < j < |mv| && HasLocked(run, mv, t, a, j, i) && Stores(run, mv, t, j, i, k)
    requires Inv(hash, run[j]) && Inv(hash, run[j + 1])
    ensures HasStored(hash, run, mv, t, a, j + 1, i, k)
  {
    hide Locks;
    var p: nat :| a < p < j && Locks(run, mv, t, p, i) && Quiet(run, mv, t, a, j, {p});
    assert Quiet(run, mv, t, a, j + 1, {p, j});
    forall c: nat | c < |run[j].cells| && run[j].cells[c] == Key(k)
      ensures false
    {
      Unique(hash, run[j + 1], k, c, i);
    }
  }

  lemma {:induction false} InsertSoFar(hash: Hash, run: seq<State>, mv: seq<Move>, t: nat, k: nat, a: nat, j: nat)
    requires IsTrace(hash, run, mv) && During(run, mv, t, a, j) && mv[a].e == Insert(k) && j <= |mv|
    ensures InsertAt(hash, run, mv, t, k, a, j, run[j].pcs[t])
    decreases j
  {
    hide Inv, Init, Step, InsertAt;
    var i := j - 1;
    At(hash, run, mv, i);
    if i == a {
      InsertBegins(hash, run, mv, t, k, a);
    } else {
      InsertSoFar(hash, run, mv, t, k, a, i);
      if mv[i].t == t {
        OneWrite(hash, run[i], t, mv[i].e, run[j]);
        Inserting(hash, run, mv, t, k, a, i, run[i].pcs[t]);
        if run[i].pcs[t].InsLock? || run[i].pcs[t].InsStore? { InsertWrites(hash, run, mv, t, k, a, i); } else { InsertGoes(hash, run, mv, t, k, a, i); }
      } else {
        InsertStays(hash, run, mv, t, k, a, i, run[i].pcs[t]);
      }
    }
  }

  lemma InsertStays(hash: Hash, run: seq<State>, mv: seq<Move>, t: nat, k: nat, a: nat, i: nat, pc: Pc)
    requires |run| == |mv| + 1 && a < i < |mv| && mv[i].t != t && InsertAt(hash, run, mv, t, k, a, i, pc)
    ensures InsertAt(hash, run, mv, t, k, a, i + 1, pc)
  {
    hide Quiet, SawFull, SawSettled, MarkedSettled, HasLocked, HasStored;
    StaysSo(hash, run, mv, t, a, i);
  }

  lemma Inserting(hash: Hash, run: seq<State>, mv: seq<Move>, t: nat, k: nat, a: nat, i: nat, pc: Pc)
    requires |run| == |mv| + 1 && InsertAt(hash, run, mv, t, k, a, i, pc)
    ensures !pc.EraCas?
  {
  }

  lemma InsertBegins(hash: Hash, run: seq<State>, mv: seq<Move>, t: nat, k: nat, a: nat)
    requires |run| == |mv| + 1 && a < |mv| && Sized(run[a]) && mv[a].t == t && mv[a].e == Insert(k) && Step(hash, run[a], t, mv[a].e, run[a + 1])
    requires !Calling(run[a].pcs[t])
    ensures t in run[a + 1].pcs && InsertAt(hash, run, mv, t, k, a, a + 1, run[a + 1].pcs[t])
  {
  }

  lemma InsertWrites(hash: Hash, run: seq<State>, mv: seq<Move>, t: nat, k: nat, a: nat, i: nat)
    requires |run| == |mv| + 1 && a < i < |mv| && mv[i].t == t && Sized(run[i]) && Inv(hash, run[i]) && Inv(hash, run[i + 1])
    requires Step(hash, run[i], t, mv[i].e, run[i + 1]) && t in run[i + 1].pcs && (run[i].pcs[t].InsLock? || run[i].pcs[t].InsStore?)
    requires InsertAt(hash, run, mv, t, k, a, i, run[i].pcs[t])
    ensures InsertAt(hash, run, mv, t, k, a, i + 1, run[i + 1].pcs[t])
  {
    hide Inv, Quiet, SawFull, SawSettled, HasLocked, HasStored;
    var s := run[i];
    OneWrite(hash, s, t, mv[i].e, run[i + 1]);
    match s.pcs[t] {
      case InsLock(_, x, n) =>
        if s.cells[x].Empty? { JustLocked(run, mv, t, a, i, x); } else { StaysSo(hash, run, mv, t, a, i); }
      case InsStore(_, x, n) =>
        assert Stores(run, mv, t, i, x, k);
        JustStored(hash, run, mv, t, a, i, x, k);
      case _ =>
    }
  }

  lemma InsertGoes(hash: Hash, run: seq<State>, mv: seq<Move>, t: nat, k: nat, a: nat, i: nat)
    requires |run| == |mv| + 1 && a < i < |mv| && mv[i].t == t && Sized(run[i]) && run[i + 1].cells == run[i].cells
    requires Step(hash, run[i], t, mv[i].e, run[i + 1]) && t in run[i + 1].pcs && Calling(run[i + 1].pcs[t])
    requires InsertAt(hash, run, mv, t, k, a, i, run[i].pcs[t]) && !run[i].pcs[t].InsLock? && !run[i].pcs[t].InsStore?
    ensures InsertAt(hash, run, mv, t, k, a, i + 1, run[i + 1].pcs[t])
  {
    hide Quiet, SawFull, SawSettled, MarkedSettled, HasLocked, HasStored;
    StaysSo(hash, run, mv, t, a, i);
    match run[i].pcs[t] {
      case InsFull(_, _, _) => if run[i].full != 0 { assert SawFull(run, mv, t, a, i + 1) by { FullSeen(run, mv, t, a, i); } }
      case InsSpinFull(_, _, _) => if run[i].full == 2 { SettledSeen(run, mv, t, a, i); }
      case InsSpinPend(_, _, _) => if run[i].pending == 0 { SettledSeen(run, mv, t, a, i); }
      case InsFullStore(_, _, _) => SettledMarked(run, mv, t, a, i);
      case _ =>
    }
  }

  lemma FullSeen(run: seq<State>, mv: seq<Move>, t: nat, a: nat, i: nat)
    requires |run| == |mv| + 1 && a < i < |mv| && mv[i].t == t && run[i].full != 0
    ensures SawFull(run, mv, t, a, i + 1)
  {
  }

  lemma SettledMarked(run: seq<State>, mv: seq<Move>, t: nat, a: nat, i: nat)
    requires |run| == |mv| + 1 && a < i < |mv| && mv[i].t == t && run[i + 1].full == 2
    ensures MarkedSettled(run, mv, t, a, i + 1)
  {
  }

  lemma SettledSeen(run: seq<State>, mv: seq<Move>, t: nat, a: nat, i: nat)
    requires |run| == |mv| + 1 && a < i < |mv| && mv[i].t == t && SawFull(run, mv, t, a, i) && (run[i].full == 2 || run[i].pending == 0)
    ensures SawSettled(run, mv, t, a, i + 1)
  {
    var c: nat :| a < c < i <= |mv| && mv[c].t == t && run[c].full != 0;
    assert a < c < i < i + 1 <= |mv|;
  }

  /** An insert has locked an empty cell and stored its key there while the key was not in the table, and written nothing
      else; or it found its key in a cell; or its key was not in the table, and either the whole table was used up,
      or it was closed to inserts and no insert was pending. In the last three cases it has written no cell. */
  lemma InsertReturns(hash: Hash, run: seq<State>, mv: seq<Move>, t: nat, k: nat, a: nat, b: nat)
    requires IsTrace(hash, run, mv) && Call(run, mv, t, a, b) && mv[a].e == Insert(k)
    ensures var r := run[b].pcs[t].r;
            match r
            case Inserted(i) => HasStored(hash, run, mv, t, a, b, i, k)
            case Existing(i) => Quiet(run, mv, t, a, b, {}) && i < CAPACITY && run[b - 1].cells[i] == Key(k)
            case Full =>
              && Quiet(run, mv, t, a, b, {}) && !Live(run[b - 1], k)
              && ((SawSettled(run, mv, t, a, b - 1) && MarkedSettled(run, mv, t, a, b - 1) && run[b - 1].pcs[t].InsRecheck?) || UsedUp(run[b - 1], k))
            case _ => false
  {
    hide Init, Inv, Step, InsertAt, Quiet, HasStored, SawSettled, MarkedSettled, Live;
    var l := b - 1;
    At(hash, run, mv, l);
    InsertSoFar(hash, run, mv, t, k, a, l);
    InsertEnds(hash, run, mv, t, k, a, l);
  }

  lemma InsertEnds(hash: Hash, run: seq<State>, mv: seq<Move>, t: nat, k: nat, a: nat, l: nat)
    requires |run| == |mv| + 1 && a < l < |mv| && mv[l].t == t && Inv(hash, run[l]) && Step(hash, run[l], t, mv[l].e, run[l + 1])
    requires t in run[l + 1].pcs && run[l + 1].pcs[t].Returned? && InsertAt(hash, run, mv, t, k, a, l, run[l].pcs[t])
    ensures var r := run[l + 1].pcs[t].r;
            match r
            case Inserted(i) => HasStored(hash, run, mv, t, a, l + 1, i, k)
            case Existing(i) => Quiet(run, mv, t, a, l + 1, {}) && i < CAPACITY && run[l].cells[i] == Key(k)
            case Full =>
              && Quiet(run, mv, t, a, l + 1, {}) && !Live(run[l], k)
              && ((SawSettled(run, mv, t, a, l) && MarkedSettled(run, mv, t, a, l) && run[l].pcs[t].InsRecheck?) || UsedUp(run[l], k))
            case _ => false
  {
    hide Quiet, SawFull, SawSettled, MarkedSettled, HasLocked, HasStored, Live, Path, Pos, AllKnow, Keyed;
    var s := run[l];
    var pc := s.pcs[t];
    KnowsIt(hash, s, t);
    StaysSo(hash, run, mv, t, a, l);
    if pc.InsRecheck? && s.cells[pc.i].Empty? { StopsThere(hash, s, k, pc.n); }
    if pc.InsSettle? && Passed(s.cells[pc.i], k) && pc.n + 1 >= CAPACITY {
      PathLonger(hash, s.cells, k, pc.n);
      AllProbed(hash, s, k);
    }
  }

  // ---- erase ----

  ghost predicate TakenOut(s: State, i: nat, k: nat, s': State) {
    i < |s.cells| && s.cells[i] == Key(k) && s'.cells == s.cells[i := Erased]
  }

  ghost predicate SawKey(run: seq<State>, a: nat, j: nat, i: nat, k: nat) {
    exists c: nat :: a < c < j < |run| && i < |run[c].cells| && run[c].cells[i] == Key(k)
  }

  ghost predicate EraseAt(run: seq<State>, mv: seq<Move>, t: nat, k: nat, a: nat, j: nat, pc: Pc)
    requires |run| == |mv| + 1
  {
    match pc
    case EraLoad(k', _, _) => k' == k && Quiet(run, mv, t, a, j, {})
    case EraCas(k', i) => k' == k && Quiet(run, mv, t, a, j, {}) && SawKey(run, a, j, i, k)
    case _ => false
  }

  lemma {:induction false} EraseSoFar(hash: Hash, run: seq<State>, mv: seq<Move>, t: nat, k: nat, a: nat, j: nat)
    requires IsTrace(hash, run, mv) && During(run, mv, t, a, j) && mv[a].e == Erase(k) && j <= |mv|
    ensures EraseAt(run, mv, t, k, a, j, run[j].pcs[t])
    decreases j
  {
    hide Inv, Init, Step, EraseAt;
    var i := j - 1;
    At(hash, run, mv, i);
    if i != a { EraseSoFar(hash, run, mv, t, k, a, i); }
    EraseGoes(hash, run, mv, t, k, a, i);
  }

  lemma EraseGoes(hash: Hash, run: seq<State>, mv: seq<Move>, t: nat, k: nat, a: nat, i: nat)
    requires |run| == |mv| + 1 && a <= i < |mv| && Sized(run[i]) && Step(hash, run[i], mv[i].t, mv[i].e, run[i + 1])
    requires t in run[i].pcs && t in run[i + 1].pcs && Calling(run[i + 1].pcs[t]) && (mv[i].t != t ==> run[i + 1].pcs[t] == run[i].pcs[t])
    requires if i == a then mv[a].t == t && mv[a].e == Erase(k) && !Calling(run[a].pcs[t]) else EraseAt(run, mv, t, k, a, i, run[i].pcs[t])
    ensures EraseAt(run, mv, t, k, a, i + 1, run[i + 1].pcs[t])
  {
    if i != a && mv[i].t == t && run[i].pcs[t].EraLoad? && run[i + 1].pcs[t].EraCas? {
      assert run[i].cells[run[i].pcs[t].i] == Key(k);
    }
  }

  /** An erase has taken its key out of the table, with its last access; or it has written nothing, and the key was at some
      moment of the call not in the table. */
  lemma EraseReturns(hash: Hash, run: seq<State>, mv: seq<Move>, t: nat, k: nat, a: nat, b: nat)
    requires IsTrace(hash, run, mv) && Call(run, mv, t, a, b) && mv[a].e == Erase(k)
    ensures var r := run[b].pcs[t].r;
            if r == DidErase then
              && Quiet(run, mv, t, a, b - 1, {}) && !Live(run[b], k)
              && run[b - 1].pcs[t].EraCas? && TakenOut(run[b - 1], run[b - 1].pcs[t].i, k, run[b])
            else r == NoErase && Quiet(run, mv, t, a, b, {}) && exists c: nat :: a < c < b && !Live(run[c], k)
  {
    hide Init, Inv, Step, Quiet, Live, Path, Pos;
    var l := b - 1;
    At(hash, run, mv, l);
    EraseSoFar(hash, run, mv, t, k, a, l);
    EraseEnds(hash, run[l], t, mv[l].e, run[b]);
    var pc := run[l].pcs[t];
    if run[b].pcs[t].r == DidErase {
      GoneNow(hash, run[l], t, mv[l].e, run[b], k, pc.i);
    } else {
      QuietOne(run, mv, t, a, l, {});
      if pc.EraCas? {
        var c: nat :| a < c < l < |run| && pc.i < |run[c].cells| && run[c].cells[pc.i] == Key(k);
        Gone(hash, run, mv, c, l, k, pc.i);
      }
    }
  }

  lemma EraseEnds(hash: Hash, s: State, t: nat, e: Event, s': State)
    requires Inv(hash, s) && Step(hash, s, t, e, s') && (s.pcs[t].EraLoad? || s.pcs[t].EraCas?) && t in s'.pcs && s'.pcs[t].Returned?
    ensures var pc, r := s.pcs[t], s'.pcs[t].r;
            && pc.i < CAPACITY && (r == DidErase || r == NoErase)
            && (r == DidErase ==> pc.EraCas? && s.cells[pc.i] == Key(pc.k) && s'.cells == s.cells[pc.i := Erased])
            && (r == NoErase ==> s'.cells == s.cells && if pc.EraCas? then s.cells[pc.i] == Erased else !Live(s, pc.k))
  {
    hide Path, Pos, AllKnow, Keyed, Live;
    var pc := s.pcs[t];
    KnowsIt(hash, s, t);
    if pc.EraLoad? {
      if s.cells[pc.i].Empty? || s.cells[pc.i].Locked? {
        StopsThere(hash, s, pc.k, pc.n);
      } else if s.cells[pc.i] != Key(pc.k) && pc.n + 1 >= CAPACITY {
        PathLonger(hash, s.cells, pc.k, pc.n);
        AllProbed(hash, s, pc.k);
      }
    }
  }

  // ---- a full table ----

  /** Counted in numPendingEntries_. */
  predicate Pending(pc: Pc) {
    pc.InsFull? || pc.InsUnpendFull? || pc.InsLock? || pc.InsStore? || pc.InsCount? || pc.InsUnpend?
  }

  ghost function Inserters(s: State): set<nat> {
    set t | t in s.pcs && Pending(s.pcs[t])
  }

  /** Closed to inserts, and none is in the middle of adding an entry. */
  ghost predicate Closed(s: State) {
    s.full != 0 && forall t | t in s.pcs :: !s.pcs[t].InsLock? && !s.pcs[t].InsStore?
  }

  /** The cells that hold a key or held one. */
  ghost function Used(s: State): set<nat> {
    set i: nat | i < |s.cells| && (s.cells[i].Key? || s.cells[i].Erased?)
  }

  /** Threads that have stored their key, but not counted it yet. */
  ghost function Uncounted(s: State): set<nat> {
    set t | t in s.pcs && Uncounting(s.pcs[t])
  }

  predicate Uncounting(pc: Pc) {
    pc.InsCount? || pc.InsTally?
  }

  ghost predicate FullOk(s: State) {
    && s.pending == |Inserters(s)| && s.entries + |Uncounted(s)| == |Used(s)| && (s.full == 2 ==> Closed(s))
    && (s.full != 0 ==> s.entries >= MAX_ENTRIES)
    && (forall t | t in s.pcs && s.pcs[t].InsClose? :: s.entries >= MAX_ENTRIES)
    && forall t | t in s.pcs ::
         && (s.pcs[t].InsFullStore? || s.pcs[t].InsRecheck? ==> Closed(s))
         && (s.pcs[t].InsUnpendFull? || s.pcs[t].InsSpinFull? || s.pcs[t].InsSpinPend? ==> s.full != 0)
  }

  lemma InsertersStep(s: State, t: nat, s': State)
    requires t in s.pcs && s'.pcs.Keys == s.pcs.Keys && forall u | u in s.pcs && u != t :: s'.pcs[u] == s.pcs[u]
    ensures |Inserters(s')| == |Inserters(s)| + (if Pending(s'.pcs[t]) then 1 else 0) - if Pending(s.pcs[t]) then 1 else 0
  {
    hide Pending;
    assert Inserters(s') - {t} == Inserters(s) - {t};
    Without(Inserters(s), t);
    Without(Inserters(s'), t);
  }

  lemma UncountedStep(s: State, t: nat, s': State)
    requires t in s.pcs && s'.pcs.Keys == s.pcs.Keys && forall u | u in s.pcs && u != t :: s'.pcs[u] == s.pcs[u]
    ensures |Uncounted(s')| == |Uncounted(s)| + (if Uncounting(s'.pcs[t]) then 1 else 0) - if Uncounting(s.pcs[t]) then 1 else 0
  {
    hide Uncounting;
    assert Uncounted(s') - {t} == Uncounted(s) - {t};
    Without(Uncounted(s), t);
    Without(Uncounted(s'), t);
  }

  /** Storing a key uses up one more cell, and no other step does. */
  lemma UsedStep(hash: Hash, s: State, t: nat, e: Event, s': State)
    requires Inv(hash, s) && Step(hash, s, t, e, s') && t in s.pcs
    ensures |Used(s')| == |Used(s)| + if s.pcs[t].InsStore? then 1 else 0
  {
    hide Inv, Step, Used;
    InvSized(hash, s);
    OneWrite(hash, s, t, e, s');
    if s.pcs[t].InsStore? { UsedMore(s, s', s.pcs[t].i, s.pcs[t].k); } else { UsedSame(s, s'); }
  }

  lemma UsedMore(s: State, s': State, i: nat, k: nat)
    requires i < |s.cells| && s.cells[i].Locked? && s'.cells == s.cells[i := Key(k)]
    ensures |Used(s')| == |Used(s)| + 1
  {
    assert Used(s') == Used(s) + {i};
  }

  lemma UsedSame(s: State, s': State)
    requires |s'.cells| == |s.cells|
    requires forall i: nat | i < |s.cells| :: (s'.cells[i].Key? || s'.cells[i].Erased?) <==> (s.cells[i].Key? || s.cells[i].Erased?)
    ensures |Used(s')| == |Used(s)|
  {
    assert Used(s') == Used(s);
  }

  lemma Without(c: set<nat>, t: nat)
    ensures |c| == |c - {t}| + if t in c then 1 else 0
  {
    if t in c { assert c == c - {t} + {t}; } else { assert c == c - {t}; }
  }

  lemma NoInserters(s: State)
    requires |Inserters(s)| == 0
    ensures forall t | t in s.pcs :: !Pending(s.pcs[t])
  {
    assert Inserters(s) == {};
    forall t | t in s.pcs
      ensures !Pending(s.pcs[t])
    {
      assert t !in Inserters(s);
    }
  }

  /** Nobody starts to add an entry to a closed table. */
  lemma ClosedKeeps(hash: Hash, s: State, t: nat, e: Event, s': State)
    requires Sized(s) && Step(hash, s, t, e, s') && Closed(s) && t in s.pcs && s'.pcs.Keys == s.pcs.Keys
    requires forall u | u in s.pcs && u != t :: s'.pcs[u] == s.pcs[u]
    ensures Closed(s')
  {
    hide Step;
    Books(hash, s, t, e, s');
  }

  /** What a step of thread t does to the two counters, and where it goes. */
  ghost predicate Bookkeeping(s: State, t: nat, s': State)
    requires t in s.pcs && t in s'.pcs
  {
    var pc, pc' := s.pcs[t], s'.pcs[t];
    && s'.pending == s.pending + (if Pending(pc') then 1 else 0) - (if Pending(pc) then 1 else 0)
    && s'.entries == s.entries + (if pc.InsTally? then 1 else 0)
    && (Uncounting(pc') <==> pc.InsStore? || pc.InsCount?)
    && (pc'.InsClose? ==> pc.InsRead? && s.entries >= MAX_ENTRIES) && (s'.full != 0 ==> s.full != 0 || pc.InsFullStore? || pc.InsClose?)
    && (pc.InsClose? ==> s'.full != 0)
    && (s.full != 0 ==> s'.full != 0) && (s'.full == 2 ==> s.full == 2 || pc.InsFullStore?)
    && (pc'.InsLock? ==> s.full == 0) && (pc'.InsStore? ==> pc.InsLock?)
    && (pc'.InsRecheck? ==> pc.InsFullStore?)
    && (pc'.InsFullStore? ==> (pc.InsSpinFull? && s.full == 2) || (pc.InsSpinPend? && s.pending == 0 && s.full == s'.full))
    && (pc'.InsUnpendFull? ==> s.full != 0)
    && (pc'.InsSpinFull? || pc'.InsSpinPend? ==> pc.InsUnpendFull? || pc.InsSpinFull? || pc.InsSpinPend?)
  }

  predicate Opening(pc: Pc) {
    pc.InsLoad? || pc.InsPend? || pc.InsFull? || pc.InsUnpendFull? || pc.InsSpinFull? || pc.InsSpinPend? || pc.InsFullStore? || pc.InsRecheck?
  }

  predicate Closing(pc: Pc) {
    pc.InsLock? || pc.InsStore? || pc.InsCount? || pc.InsTally? || pc.InsRead? || pc.InsClose? || pc.InsUnpend? || pc.InsWait? || pc.InsSettle?
  }

  lemma OpeningBooks(hash: Hash, s: State, t: nat, e: Event, s': State)
    requires Sized(s) && t in s.pcs && t in s'.pcs && Opening(s.pcs[t]) && Step(hash, s, t, e, s')
    ensures Bookkeeping(s, t, s')
  {
    hide Start, Pos;
  }

  lemma ClosingBooks(hash: Hash, s: State, t: nat, e: Event, s': State)
    requires Sized(s) && t in s.pcs && t in s'.pcs && Closing(s.pcs[t]) && Step(hash, s, t, e, s')
    ensures Bookkeeping(s, t, s')
  {
    hide Start, Pos;
  }

  lemma OtherBooks(hash: Hash, s: State, t: nat, e: Event, s': State)
    requires Sized(s) && t in s.pcs && t in s'.pcs && !Opening(s.pcs[t]) && !Closing(s.pcs[t]) && Step(hash, s, t, e, s')
    ensures Bookkeeping(s, t, s')
  {
    hide Standing, Pos;
  }

  lemma Books(hash: Hash, s: State, t: nat, e: Event, s': State)
    requires Sized(s) && t in s.pcs && t in s'.pcs && Step(hash, s, t, e, s')
    ensures Bookkeeping(s, t, s')
  {
    hide Step, Bookkeeping;
    if Opening(s.pcs[t]) { OpeningBooks(hash, s, t, e, s'); }
    else if Closing(s.pcs[t]) { ClosingBooks(hash, s, t, e, s'); }
    else { OtherBooks(hash, s, t, e, s'); }
  }

  lemma FullKeeps(hash: Hash, s: State, t: nat, e: Event, s': State)
    requires Inv(hash, s) && Step(hash, s, t, e, s') && FullOk(s)
    ensures FullOk(s')
  {
    hide Step, Inserters, Uncounted, Used, Inv;
    InvSized(hash, s);
    StepThread(hash, s, t, e, s');
    OnlyThread(hash, s, t, e, s');
    InsertersStep(s, t, s');
    UncountedStep(s, t, s');
    UsedStep(hash, s, t, e, s');
    Books(hash, s, t, e, s');
    if s.pending == 0 { NoInserters(s); }
    if s'.pcs[t].InsFullStore? { assert Closed(s); }
    if Closed(s) { ClosedKeeps(hash, s, t, e, s'); }
  }

  lemma {:induction false} AlwaysFullOk(hash: Hash, run: seq<State>, mv: seq<Move>, j: nat)
    requires IsTrace(hash, run, mv) && j < |run|
    ensures FullOk(run[j])
  {
    hide Inv, Step, FullOk;
    if j > 0 {
      AlwaysFullOk(hash, run, mv, j - 1);
      At(hash, run, mv, j - 1);
      FullKeeps(hash, run[j - 1], mv[j - 1].t, mv[j - 1].e, run[j]);
    } else {
      NoneYet(run[0]);
    }
  }

  lemma NoneYet(s: State)
    requires Init(s)
    ensures FullOk(s)
  {
    assert Inserters(s) == {} && Uncounted(s) == {} && Used(s) == {};
  }

  /** The entry count is the number of cells used up, but for the inserts about to count theirs, and the table is closed
      only when it has reached the limit. */
  lemma EntriesCount(hash: Hash, run: seq<State>, mv: seq<Move>, j: nat)
    requires IsTrace(hash, run, mv) && j < |run|
    ensures run[j].entries + |Uncounted(run[j])| == |Used(run[j])| && (run[j].full != 0 ==> |Used(run[j])| >= MAX_ENTRIES)
  {
    AlwaysFullOk(hash, run, mv, j);
  }

  /** An insert that finds the limit reached closes the table before it returns, and it stays closed. */
  lemma {:induction false} LimitCloses(hash: Hash, run: seq<State>, mv: seq<Move>, t: nat, c: nat, j: nat)
    requires IsTrace(hash, run, mv) && c < j < |run| && mv[c] == Move(t, Go(true)) && t in run[c].pcs && run[c].pcs[t].InsRead?
    ensures t in run[j].pcs && (run[j].full != 0 || run[j].pcs[t].InsClose?)
    decreases j
  {
    hide Inv, Init, Step;
    var i := j - 1;
    At(hash, run, mv, i);
    if c < i {
      LimitCloses(hash, run, mv, t, c, i);
      Books(hash, run[i], mv[i].t, mv[i].e, run[j]);
    } else {
      LimitSeen(hash, run[c], t, run[j]);
    }
  }

  lemma LimitSeen(hash: Hash, s: State, t: nat, s': State)
    requires Sized(s) && Step(hash, s, t, Go(true), s') && s.pcs[t].InsRead?
    ensures t in s'.pcs && s'.pcs[t].InsClose?
  {
  }

  /** The wait for pending inserts is for this: a key that was refused because the table is full never gets into it. */
  lemma FullIsFinal(hash: Hash, run: seq<State>, mv: seq<Move>, t: nat, k: nat, a: nat, b: nat, j: nat)
    requires IsTrace(hash, run, mv) && Call(run, mv, t, a, b) && mv[a].e == Insert(k) && run[b].pcs[t].r == Full && b <= j < |run|
    ensures !Live(run[j], k)
  {
    hide Inv, Init, Step, Live, UsedUp, SawSettled, MarkedSettled, Quiet, HasStored, Closed;
    InsertReturns(hash, run, mv, t, k, a, b);
    AlwaysFullOk(hash, run, mv, b - 1);
    StaysOut(hash, run, mv, k, b - 1, j);
  }

  lemma {:induction false} StaysOut(hash: Hash, run: seq<State>, mv: seq<Move>, k: nat, c: nat, j: nat)
    requires IsTrace(hash, run, mv) && c <= j < |run| && !Live(run[c], k) && (Closed(run[c]) || UsedUp(run[c], k))
    ensures !Live(run[j], k) && (Closed(run[j]) || UsedUp(run[j], k))
    decreases j
  {
    hide Inv, Init, Step, Live, UsedUp, Closed;
    if c < j {
      var i := j - 1;
      StaysOut(hash, run, mv, k, c, i);
      At(hash, run, mv, i);
      if Closed(run[i]) {
        ClosedKeeps(hash, run[i], mv[i].t, mv[i].e, run[j]);
        ClosedOut(hash, run[i], mv[i].t, mv[i].e, run[j], k);
      } else {
        UsedUpKeeps(hash, run[i], mv[i].t, mv[i].e, run[j], k);
      }
    }
  }

  lemma ClosedOut(hash: Hash, s: State, t: nat, e: Event, s': State, k: nat)
    requires Inv(hash, s) && Step(hash, s, t, e, s') && Closed(s) && !Live(s, k)
    ensures !Live(s', k)
  {
    hide Inv, Step, Live;
    if Live(s', k) { LiveChanges(hash, s, t, e, s', k); }
  }

  lemma UsedUpKeeps(hash: Hash, s: State, t: nat, e: Event, s': State, k: nat)
    requires Inv(hash, s) && Step(hash, s, t, e, s') && Sized(s') && UsedUp(s, k)
    ensures !Live(s', k) && UsedUp(s', k)
  {
    hide Step, Inv;
    forall i: nat | i < |s'.cells|
      ensures Passed(s'.cells[i], k)
    {
      assert Sized(s) by { InvSized(hash, s); }
      CellsMoveOnward(hash, s, t, e, s', i);
    }
  }

  lemma InvSized(hash: Hash, s: State)
    requires Inv(hash, s)
    ensures Sized(s)
  {
  }

  // ---- progress ----

  /** A locked cell belongs to a thread that is about to store its key there. */
  ghost predicate Held(s: State) {
    && |s.owner| == |s.cells|
    && forall i: nat | i < |s.cells| && s.cells[i].Locked? ::
         s.owner[i] in s.pcs && s.pcs[s.owner[i]].InsStore? && s.pcs[s.owner[i]].i == i
  }

  lemma HeldKeeps(hash: Hash, s: State, t: nat, e: Event, s': State)
    requires Inv(hash, s) && Step(hash, s, t, e, s') && Held(s)
    ensures Held(s')
  {
    hide Path, Pos, AllKnow, Keyed, Standing;
    StepThread(hash, s, t, e, s');
    KnowsIt(hash, s, t);
    OneWrite(hash, s, t, e, s');
    OnlyThread(hash, s, t, e, s');
  }

  lemma {:induction false} AlwaysHeld(hash: Hash, run: seq<State>, mv: seq<Move>, j: nat)
    requires IsTrace(hash, run, mv) && j < |run|
    ensures Held(run[j])
  {
    hide Inv, Step;
    if j > 0 {
      AlwaysHeld(hash, run, mv, j - 1);
      At(hash, run, mv, j - 1);
      HeldKeeps(hash, run[j - 1], mv[j - 1].t, mv[j - 1].e, run[j]);
    }
  }

  /** A thread can begin any call, and a call can always make its next access, except for an insert that meets a locked cell: then the thread that locked it
      can, and unlocks the cell by it. */
  lemma NeverStuck(hash: Hash, run: seq<State>, mv: seq<Move>, j: nat, t: nat, e: Event)
    requires IsTrace(hash, run, mv) && j < |run| && t in run[j].pcs
    ensures !Calling(run[j].pcs[t]) && !e.Go? ==> exists s' :: Step(hash, run[j], t, e, s') && Calling(s'.pcs[t])
    ensures run[j].pcs[t].InsRead? && run[j].entries >= MAX_ENTRIES ==> exists s' :: Step(hash, run[j], t, Go(true), s') && s'.pcs[t].InsClose?
    ensures var s := run[j];
            || !Calling(s.pcs[t])
            || (exists s' :: Step(hash, s, t, Go(false), s') && t in s'.pcs && s'.pcs[t] != s.pcs[t])
            || (s.pcs[t].InsWait? && s.pcs[t].i < CAPACITY && s.cells[s.pcs[t].i].Locked?
                && exists s' :: Step(hash, s, s.owner[s.pcs[t].i], Go(false), s') && !s'.cells[s.pcs[t].i].Locked?)
  {
    hide Step, Inv, Init;
    TraceIsRun(hash, run, mv);
    Reachable(hash, run, j);
    AlwaysHeld(hash, run, mv, j);
    var s := run[j];
    CanBegin(hash, s, t, e);
    if !Calling(s.pcs[t]) {
      return;
    }
    InTable(hash, s, t);
    if s.pcs[t].InsWait? && s.cells[s.pcs[t].i].Locked? {
      var i := s.pcs[t].i;
      var u := s.owner[i];
      InTable(hash, s, u);
      var s' := GoesOn(hash, s, u);
      OneWrite(hash, s, u, Go(false), s');
    } else {
      var s' := GoesOn(hash, s, t);
    }
  }

  /** Between calls a thread can begin any of them, and an insert can close the table as soon as the limit is reached. */
  lemma CanBegin(hash: Hash, s: State, t: nat, e: Event)
    requires Sized(s) && t in s.pcs
    ensures !Calling(s.pcs[t]) && !e.Go? ==> exists s' :: Step(hash, s, t, e, s') && Calling(s'.pcs[t])
    ensures s.pcs[t].InsRead? && s.entries >= MAX_ENTRIES ==> exists s' :: Step(hash, s, t, Go(true), s') && s'.pcs[t].InsClose?
  {
    if s.pcs[t].InsRead? && s.entries >= MAX_ENTRIES {
      var s' := Goto(s, t, InsClose(s.pcs[t].k, s.pcs[t].i));
      assert Step(hash, s, t, Go(true), s') && s'.pcs[t].InsClose?;
    }
    if !Calling(s.pcs[t]) && !e.Go? {
      var s' := Goto(s, t, match e
                           case Insert(k) => InsLoad(k, Pos(hash(k), 0), 0)
                           case Find(k) => FindLoad(k, Pos(hash(k), 0), 0, Standing(s, k))
                           case Erase(k) => EraLoad(k, Pos(hash(k), 0), 0)
                           case Go(_) => Idle);
      assert Step(hash, s, t, e, s') && Calling(s'.pcs[t]);
    }
  }

  /** The cell a thread looks at. */
  lemma InTable(hash: Hash, s: State, t: nat)
    requires Inv(hash, s) && t in s.pcs && Calling(s.pcs[t])
    ensures s.pcs[t].i < CAPACITY
  {
    KnowsIt(hash, s, t);
  }

  lemma GoesOn(hash: Hash, s: State, t: nat) returns (s': State)
    requires Sized(s) && t in s.pcs && Calling(s.pcs[t]) && s.pcs[t].i < CAPACITY
    requires s.pcs[t].InsWait? ==> !s.cells[s.pcs[t].i].Locked?
    ensures Step(hash, s, t, Go(false), s') && t in s'.pcs && s'.pcs[t] != s.pcs[t]
  {
    match s.pcs[t] {
      case InsLoad(k, i, n) => s' := Goto(s, t, if s.cells[i].Empty? then InsPend(k, i, n) else InsWait(k, i, n));
      case InsPend(k, i, n) => s' := Goto(s, t, InsFull(k, i, n)).(pending := s.pending + 1);
      case InsFull(k, i, n) => s' := Goto(s, t, if s.full != 0 then InsUnpendFull(k, i, n) else InsLock(k, i, n));
      case InsUnpendFull(k, i, n) => s' := Goto(s, t, InsSpinFull(k, i, n)).(pending := s.pending - 1);
      case InsSpinFull(k, i, n) => s' := Goto(s, t, if s.full == 2 then InsFullStore(k, i, n) else InsSpinPend(k, i, n));
      case InsSpinPend(k, i, n) => s' := Goto(s, t, if s.pending == 0 then InsFullStore(k, i, n) else InsSpinFull(k, i, n));
      case InsFullStore(k, i, n) => s' := Goto(s, t, InsRecheck(k, i, n)).(full := 2);
      case InsRecheck(k, i, n) => s' := Goto(s, t, if s.cells[i].Empty? then Returned(Full) else InsWait(k, i, n));
      case InsLock(k, i, n) =>
        s' := if s.cells[i].Empty? then Write(Goto(s, t, InsStore(k, i, n)), i, Locked).(owner := s.owner[i := t])
              else Goto(s, t, InsUnpend(k, i, n));
      case InsStore(k, i, n) => s' := Write(Goto(s, t, InsCount(k, i)), i, Key(k)).(rank := s.rank[i := n]);
      case InsCount(k, i) => s' := Goto(s, t, InsTally(k, i)).(pending := s.pending - 1);
      case InsTally(k, i) => s' := Goto(s, t, InsRead(k, i)).(entries := s.entries + 1);
      case InsRead(k, i) => s' := Goto(s, t, Returned(Inserted(i)));
      case InsClose(k, i) => s' := Goto(s, t, Returned(Inserted(i))).(full := 1);
      case InsUnpend(k, i, n) => s' := Goto(s, t, InsWait(k, i, n)).(pending := s.pending - 1);
      case InsWait(k, i, n) => s' := Goto(s, t, InsSettle(k, i, n));
      case InsSettle(k, i, n) =>
        s' := Goto(s, t, if s.cells[i] == Key(k) then Returned(Existing(i))
                         else if s.cells[i].Empty? || s.cells[i].Locked? then InsLoad(k, i, n)
                         else if n + 1 >= CAPACITY then Returned(Full) else InsLoad(k, Probe(i), n + 1));
      case FindLoad(k, i, n, live) =>
        s' := Goto(s, t, if s.cells[i] == Key(k) then Returned(Hit(i))
                         else if s.cells[i].Empty? || n + 1 >= CAPACITY then Returned(Miss) else FindLoad(k, Probe(i), n + 1, live));
      case EraLoad(k, i, n) =>
        s' := Goto(s, t, if s.cells[i].Empty? || s.cells[i].Locked? then Returned(NoErase)
                         else if s.cells[i] == Key(k) then EraCas(k, i)
                         else if n + 1 >= CAPACITY then Returned(NoErase) else EraLoad(k, Probe(i), n + 1));
      case EraCas(k, i) =>
        s' := if s.cells[i] == Key(k) then Write(Goto(s, t, Returned(DidErase)), i, Erased) else Goto(s, t, Returned(NoErase));
    }
  }
}
