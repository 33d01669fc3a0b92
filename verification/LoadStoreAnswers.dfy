/** What the checks of the load/store queue answer in every reachable state, stated on the
    program order, the operations issued and left, and the addresses not known yet. */
module LoadStoreAnswers {
  import opened LoadStore
  import opened LoadStoreProofs
  import opened LoadStorePromises
  import opened LoadStoreFences

  predicate IsMemory(d: Op) { d.IsLoad() || d.IsStore() }

  /** The address of `d` is not known yet. */
  predicate Open(s: State, d: Op) { d in s.q.openLd || d in s.q.openSt }

  // ---- addresses that are not known ----------------------------------------------------------

  lemma {:induction false} InsertAllOpens(q: Queue, ds: seq<Op>, d: Op)
    ensures d in InsertAll(q, ds).openLd <==> d in q.openLd || (d in ds && d.IsLoad())
    ensures d in InsertAll(q, ds).openSt <==> d in q.openSt || (d in ds && !d.IsLoad() && d.IsStore())
  {
    if |ds| > 0 { InsertAllOpens(q, ds[..|ds|-1], d); }
  }

  lemma NewBlockOpens(c: Core, s: State, ds: seq<Op>, produced: nat, d: Op)
    requires IsMemory(d)
    ensures var s' := NewBlock(c, s, ds, produced);
            && (s' == s || s'.order == s.order + ds)
            && (s' != s ==> (Open(s', d) <==> Open(s, d) || d in ds))
  {
    hide Count;
    InsertAllOpens(CheckSize(s.q, s.left, c.size, Count(ds, {LD}) + produced, Count(ds, {ST, STADDR})).0, ds, d);
  }

  lemma {:induction false} RetireOpens(s: State)
    ensures Retire(s).q == s.q && Retire(s).order == s.order
    decreases |s.order| - s.start
  {
    if s.start < |s.order| && (s.order[s.start] in s.completed || s.order[s.start] in s.canExit) {
      RetireOpens(s.(start := s.start + 1, left := s.left + {s.order[s.start]}));
    }
  }

  /** A step opens what it creates and closes what it resolves. */
  lemma StepOpens(c: Core, s: State, e: Step, d: Op)
    requires Inv(s) && Enabled(c, s, e) && IsMemory(d)
    ensures var s' := Next(c, s, e);
            && (d in s.order ==> d in s'.order)
            && (d in s'.order && d !in s.order ==> Open(s', d))
            && (d in s.order ==> (Open(s', d) <==> Open(s, d) && e != Resolve(d)))
            && (d !in s'.order ==> !Open(s', d))
  {
    hide CheckSize, NewBlock, Retire, Window, InMemoryOrder, Agree, Misspeculated, MayIssue;
    match e
    case Create(ds, produced) =>
      NewBlockOpens(c, s, ds, produced, d);
      assert d in s.order && d in ds ==> Less(d, d);
    case Process => RetireOpens(s);
    case Resolve(x) =>
    case TryIssue(i) =>
    case Complete(x) =>
  }

  /** The unresolved operations are those whose address has not been resolved. */
  lemma {:induction false} OpenUntilResolved(c: Core, steps: seq<Step>, s: State, d: Op)
    requires Reaches(c, steps, s) && IsMemory(d)
    ensures Open(s, d) <==> d in s.order && Resolve(d) !in steps
    ensures Resolve(d) in steps ==> d in s.order
  {
    hide Next, Open, Inv;
    if |steps| == 0 {
      NothingOpen(d);
    } else {
      var last := |steps| - 1;
      var s0 :| Reaches(c, steps[..last], s0) && Enabled(c, s0, steps[last]) && s == Next(c, s0, steps[last]);
      OpenUntilResolved(c, steps[..last], s0, d);
      RunKeeps(c, steps[..last], s0);
      StepOpens(c, s0, steps[last], d);
      assert steps == steps[..last] + [steps[last]];
    }
  }

  lemma NothingOpen(d: Op)
    ensures !Open(START, d)
  {
  }

  // ---- loads and stores ----------------------------------------------------------------------

  /** Two operations of the program are the same or one is older. */
  lemma Comparable(s: State, a: Op, b: Op)
    requires Increasing(s.order) && a in s.order && b in s.order
    ensures a == b || Less(a, b) || Less(b, a)
  {
    var i, j :| 0 <= i < |s.order| && s.order[i] == a && 0 <= j < |s.order| && s.order[j] == b;
  }

  /** Every older store to the address has issued and, without speculation, every older store
      has its address. */
  ghost predicate LoadFree(s: State, d: Op, speculate: bool) {
    forall y :: y in s.order && y.IsStore() && Less(y, d) ==>
      (y.addr == d.addr ==> y in s.issued) && (speculate || !Open(s, y))
  }

  /** Every older access to the address has left, no older load waits for its address, nor, unless
      the core speculates, an older store. */
  ghost predicate StoreFree(s: State, d: Op, speculate: bool) {
    forall y :: y in s.order && IsMemory(y) && Less(y, d) ==>
      (y.addr == d.addr ==> y in s.left) && (y.IsLoad() || !speculate ==> !Open(s, y))
  }

  lemma OpenStores(s: State, d: Op, speculate: bool)
    requires Inv(s) && d in s.order && d !in s.q.openSt
    ensures UnresolvedStore(s.q, d, speculate) <==>
              exists y :: y in s.order && y.IsStore() && Less(y, d) && Open(s, y) && (speculate ==> y.addr == d.addr)
  {
    forall e | e in s.q.openSt && !Less(d, e) ensures Less(e, d) { Comparable(s, e, d); }
    if y :| y in s.order && y.IsStore() && Less(y, d) && Open(s, y) && (speculate ==> y.addr == d.addr) {
      assert y in s.q.openSt && !Less(d, y);
    }
    if UnresolvedStore(s.q, d, speculate) {
      var e :| e in s.q.openSt && (if speculate then Less(e, d) && e.addr == d.addr else !Less(d, e));
      assert e in s.order && e.IsStore() && Less(e, d) && Open(s, e);
    }
  }

  lemma OpenLoads(s: State, d: Op)
    requires Inv(s) && d in s.order && d !in s.q.openLd
    ensures UnresolvedLoad(s.q, d) <==> exists y :: y in s.order && y.IsLoad() && Less(y, d) && Open(s, y)
  {
    forall e | e in s.q.openLd && !Less(d, e) ensures Less(e, d) { Comparable(s, e, d); }
    if y :| y in s.order && y.IsLoad() && Less(y, d) && Open(s, y) {
      assert y in s.q.openLd && !Less(d, y);
    }
    if UnresolvedLoad(s.q, d) {
      var e :| e in s.q.openLd && !Less(d, e);
      assert e in s.order && e.IsLoad() && Less(e, d) && Open(s, e);
    }
  }

  /** The older stores to an address that have not issued are in the index. */
  lemma OlderStores(s: State, d: Op)
    requires Inv(s) && d in s.order && d.kind == LD
    ensures (exists e :: e in At(s.q.sm, d.addr) && !Less(d, e) && e !in s.left && e !in s.issued) <==>
              (exists y :: y in s.order && y.IsStore() && Less(y, d) && y.addr == d.addr && y !in s.issued)
  {
    if e :| e in At(s.q.sm, d.addr) && !Less(d, e) && e !in s.left && e !in s.issued {
      Comparable(s, e, d);
      assert e in s.order && e.IsStore() && Less(e, d) && e.addr == d.addr && e !in s.issued;
    }
    if y :| y in s.order && y.IsStore() && Less(y, d) && y.addr == d.addr && y !in s.issued {
      StoreInIndex(s, y);
      assert !Less(d, y);
    }
  }

  /** check_load_issue lets a load with a known address go exactly when it is free. */
  lemma LoadAnswers(c: Core, steps: seq<Step>, s: State, d: Op)
    requires Reaches(c, steps, s) && d in s.order && d.kind == LD
    ensures var code := CheckLoad(s.q, s.left, s.issued, d, c.speculate);
            (code == 1 <==> LoadFree(s, d, c.speculate)) && (code == -1 <==> !LoadFree(s, d, c.speculate))
  {
    RunKeeps(c, steps, s);
    hide Inv, UnresolvedStore, Reaches, Open;
    NeverSpeculates(c, s, d);
    LoadNotStore(s, d);
    OpenStores(s, d, c.speculate);
    OlderStores(s, d);
    OpenNotIssued(s);
    CodeIs(s, d, c.speculate);
  }

  lemma LoadNotStore(s: State, d: Op)
    requires Inv(s) && d.kind == LD
    ensures d !in s.q.openSt
  {
  }

  lemma OpenNotIssued(s: State)
    requires Inv(s)
    ensures forall y :: Open(s, y) ==> y !in s.issued && y !in s.left
  {
  }

  lemma CodeIs(s: State, d: Op, speculate: bool)
    requires CheckLoad(s.q, s.left, s.issued, d, speculate) != 0
    ensures CheckLoad(s.q, s.left, s.issued, d, speculate) == 1 <==>
              (!(!speculate && UnresolvedStore(s.q, d, speculate))
               && !exists e :: e in At(s.q.sm, d.addr) && !Less(d, e) && e !in s.left && e !in s.issued)
    ensures CheckLoad(s.q, s.left, s.issued, d, speculate) == 1 || CheckLoad(s.q, s.left, s.issued, d, speculate) == -1
  {
    hide UnresolvedStore;
  }

  /** check_store_issue lets a store with a known address go exactly when it is free. */
  lemma StoreAnswers(c: Core, steps: seq<Step>, s: State, d: Op)
    requires Reaches(c, steps, s) && d in s.order && d.IsStore() && !Open(s, d)
    ensures CheckStore(s.q, s.left, d, c.speculate) <==> StoreFree(s, d, c.speculate)
  {
    RunKeeps(c, steps, s);
    hide Inv, UnresolvedStore, UnresolvedLoad, Reaches;
    OpenStores(s, d, c.speculate);
    OpenLoads(s, d);
    OlderAccesses(s, d);
    OpenNotIssued(s);
    hide Open;
  }

  lemma OlderAccesses(s: State, d: Op)
    requires Inv(s) && d in s.order && d.IsStore()
    ensures (forall e :: e in At(s.q.sm, d.addr) && Less(e, d) ==> e in s.left) <==>
              (forall y :: y in s.order && y.IsStore() && Less(y, d) && y.addr == d.addr ==> y in s.left)
    ensures (forall e :: e in At(s.q.lm, d.addr) && !Less(d, e) ==> e in s.left) <==>
              (forall y :: y in s.order && y.IsLoad() && Less(y, d) && y.addr == d.addr ==> y in s.left)
  {
    forall y | y in s.order && y.IsStore() && y.addr == d.addr && y !in s.left ensures y in At(s.q.sm, d.addr) { StoreInIndex(s, y); }
    forall y | y in s.order && y.IsLoad() && y.addr == d.addr && y !in s.left ensures y in At(s.q.lm, d.addr) { LoadInIndex(s, y); }
    forall e | e in At(s.q.lm, d.addr) && !Less(d, e) ensures Less(e, d) { Comparable(s, e, d); }
  }

  /** So an operation whose turn the window and the barriers give issues exactly when it is free. */
  lemma IssueAnswers(c: Core, steps: seq<Step>, s: State, i: nat)
    requires Reaches(c, steps, s) && Enabled(c, s, TryIssue(i))
    ensures var d, s' := s.order[i], Next(c, s, TryIssue(i));
            var free := match d.kind
                        case LD => LoadFree(s, d, c.speculate)
                        case ST => StoreFree(s, d, c.speculate)
                        case ATOMIC => StoreFree(s, d, c.speculate)
                        case _ => true;
            && (free ==> s'.log == s.log + [d] && s'.issued == s.issued + {d})
            && (!free ==> s' == s)
  {
    hide Reaches, CheckLoad, CheckStore, LoadFree, StoreFree, InWindow, PassesBarriers;
    var d := s.order[i];
    if d.kind == LD { LoadAnswers(c, steps, s, d); }
    if d.kind == ST || d.kind == ATOMIC { StoreAnswers(c, steps, s, d); }
  }

  // ---- room for a block ----------------------------------------------------------------------

  /** The first `n` entries are there and have left the reorder buffer. */
  ghost predicate FrontLeft(q: seq<Op>, n: int, left: set<Op>) {
    n <= |q| && forall i :: 0 <= i < n ==> q[i] in left
  }

  lemma LeftAheadIs(q: seq<Op>, left: set<Op>, need: int)
    ensures LeftAhead(q, left, need) >= need <==> FrontLeft(q, need, left)
  {
  }

  /** checkSize() makes room for a block exactly when the entries in excess, counted from the
      front of each queue, have all left; it then gives up those and no more. */
  lemma RoomAnswers(q: Queue, left: set<Op>, size: int, loads: nat, stores: nat)
    ensures var (q', ok) := CheckSize(q, left, size, loads, stores);
            var ld, st := |q.lq| + loads - size, |q.sq| + stores - size;
            && (ok <==> size == -1 || (FrontLeft(q.lq, ld, left) && FrontLeft(q.sq, st, left)))
            && (!ok || size == -1 ==> q' == q)
            && (ok && size != -1 ==>
                  && q'.lq == q.lq[if ld > 0 then ld else 0..] && q'.sq == q.sq[if st > 0 then st else 0..]
                  && q'.openLd == q.openLd && q'.openSt == q.openSt)
  {
    LeftAheadIs(q.lq, left, |q.lq| + loads - size);
    LeftAheadIs(q.sq, left, |q.sq| + stores - size);
    hide LeftAhead, DropAll;
  }

  // ---- leaving -------------------------------------------------------------------------------

  predicate Done(s: State, d: Op) { d in s.completed || d in s.canExit }

  /** What leaves is the longest run of done operations at the front. */
  lemma {:induction false} RetireAnswers(s: State)
    requires s.start <= |s.order|
    ensures var s' := Retire(s);
            && s.start <= s'.start <= |s.order| && s' == s.(start := s'.start, left := s'.left)
            && (forall i :: s.start <= i < s'.start ==> Done(s, s.order[i]))
            && (s'.start < |s.order| ==> !Done(s, s.order[s'.start]))
            && (forall d :: d in s'.left <==> d in s.left || d in s.order[s.start..s'.start])
    decreases |s.order| - s.start
  {
    if s.start < |s.order| && Done(s, s.order[s.start]) {
      var s1 := s.(start := s.start + 1, left := s.left + {s.order[s.start]});
      RetireAnswers(s1);
      var e := Retire(s).start;
      assert s.order[s.start..e] == [s.order[s.start]] + s.order[s.start + 1..e];
    } else {
      assert s.order[s.start..s.start] == [];
    }
  }

  // ---- the window never sticks ---------------------------------------------------------------

  /** What has left was done: completed, or a STADDR that may leave early. */
  ghost predicate LeftIsDone(s: State) {
    && (forall d :: d in s.left ==> Done(s, d))
    && (forall d :: d in s.canExit ==> d.kind == STADDR)
  }

  lemma StepKeepsLeft(c: Core, s: State, e: Step)
    requires Inv(s) && Enabled(c, s, e) && LeftIsDone(s)
    ensures LeftIsDone(Next(c, s, e))
  {
    hide CheckSize, Queues, InMemoryOrder, MayIssue, Retire, InsertAll, Count;
    match e
    case Create(ds, produced) =>
    case Process => RetireKeepsLeft(s);
    case Resolve(x) =>
    case TryIssue(i) =>
    case Complete(x) => NothingSpeculated(s, x);
  }

  lemma NothingSpeculated(s: State, d: Op)
    requires Window(s)
    ensures Misspeculated(s, d) == {}
  {
  }

  lemma RetireKeepsLeft(s: State)
    requires LeftIsDone(s) && s.start <= |s.order|
    ensures LeftIsDone(Retire(s))
  {
    hide Retire;
    RetireAnswers(s);
    var s' := Retire(s);
    forall d | d in s'.left ensures Done(s', d) {
      if d !in s.left {
        var i :| 0 <= i < s'.start - s.start && s.order[s.start..s'.start][i] == d;
        assert Done(s, s.order[s.start + i]);
      }
    }
  }

  lemma {:induction false} RunKeepsLeft(c: Core, steps: seq<Step>, s: State)
    requires Reaches(c, steps, s)
    ensures LeftIsDone(s)
  {
    hide Next, LeftIsDone, Inv;
    if |steps| == 0 {
      StartIsDone();
    } else {
      var last := |steps| - 1;
      var s0 :| Reaches(c, steps[..last], s0) && Enabled(c, s0, steps[last]) && s == Next(c, s0, steps[last]);
      RunKeepsLeft(c, steps[..last], s0);
      RunKeeps(c, steps[..last], s0);
      StepKeepsLeft(c, s0, steps[last]);
    }
  }

  lemma StartIsDone()
    ensures LeftIsDone(START)
  {
  }

  lemma WindowHolds(c: Core, s: State)
    requires c.window == -1 || (c.window >= 1 && s.start + c.window <= 0x1_0000_0000_0000_0000)
    ensures InWindow(c, s, s.start)
  {
  }

  /** Barriers let the oldest operation pass. */
  lemma OldestPasses(c: Core, s: State)
    requires Inv(s) && LeftIsDone(s) && s.start < |s.order|
    ensures PassesBarriers(c, s, s.start)
  {
    hide Queues, InMemoryOrder;
    var d := s.order[s.start];
    OlderHaveLeft(s);
    forall b | b in s.order && b.kind == BARRIER && !Less(d, b) && b != d ensures b in s.completed {
      assert b in s.left && Done(s, b);
    }
  }

  /** No run gets stuck: the oldest operation that has not issued, once its address is known, is
      let through by the window, the barriers and the checks. */
  lemma OldestGoes(c: Core, steps: seq<Step>, s: State)
    requires Reaches(c, steps, s) && s.start < |s.order|
    requires c.window == -1 || (c.window >= 1 && s.start + c.window <= 0x1_0000_0000_0000_0000)
    requires !Open(s, s.order[s.start]) && s.order[s.start] !in s.issued
    ensures Enabled(c, s, TryIssue(s.start))
    ensures Next(c, s, TryIssue(s.start)).log == s.log + [s.order[s.start]]
  {
    hide Reaches, Inv, MayIssue, InWindow, PassesBarriers, LeftIsDone;
    RunKeeps(c, steps, s);
    RunKeepsLeft(c, steps, s);
    WindowHolds(c, s);
    OldestPasses(c, s);
    OldestMayIssue(c, steps, s);
  }
}
