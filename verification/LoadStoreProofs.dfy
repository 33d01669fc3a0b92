/** What every step keeps, and memory order over whole runs: conflicting accesses to one
    address issue in program order. */
module LoadStoreProofs {
  import opened LoadStore

  // ---- the indexes agree with the queues ---------------------------------------------

  lemma AddAgrees(q: seq<Op>, m: Index, d: Op)
    requires Agree(q, m)
    ensures Agree(q + [d], Add(m, d))
  {
    forall a, e ensures e in At(Add(m, d), a) <==> e in q + [d] && e.addr == a {
      assert e in At(m, a) <==> e in q && e.addr == a;
    }
  }

  lemma DropAgrees(q: seq<Op>, m: Index, d: Op)
    requires Increasing(q) && q != [] && d == q[0] && Agree(q, m)
    ensures Agree(q[1..], Drop(m, d))
  {
    forall a, e ensures e in At(Drop(m, d), a) <==> e in q[1..] && e.addr == a {
      assert e in At(m, a) <==> e in q && e.addr == a;
      assert e in q[1..] <==> e in q && e != d;
    }
  }

  lemma {:induction false} DropAllAgrees(q: seq<Op>, m: Index, n: nat)
    requires Increasing(q) && n <= |q| && Agree(q, m)
    ensures Agree(q[n..], DropAll(m, q[..n]))
  {
    if n > 0 {
      DropAllAgrees(q, m, n - 1);
      assert q[..n][..n-1] == q[..n-1];
      DropAgrees(q[n-1..], DropAll(m, q[..n-1]), q[n-1]);
      assert q[n-1..][1..] == q[n..];
    } else {
      assert q[0..] == q;
    }
  }

  // ---- the invariant -----------------------------------------------------------------

  /** A queue holds, in program order, what was created of its kind; what it gave up has left
      the reorder buffer. */
  ghost predicate Holds(s: State, q: seq<Op>, loads: bool) {
    && Increasing(q)
    && (forall d :: d in q ==> d in s.order && (if loads then d.IsLoad() else d.IsStore()))
    && (forall d :: d in s.order && (if loads then d.IsLoad() else d.IsStore()) && d !in q ==> d in s.left)
  }

  ghost predicate Queues(s: State) {
    && Holds(s, s.q.lq, true) && Holds(s, s.q.sq, false)
    && Agree(s.q.lq, s.q.lm) && Agree(s.q.sq, s.q.sm)
    && (forall d :: d in s.q.openLd ==> d in s.order && d.IsLoad() && d !in s.issued)
    && (forall d :: d in s.q.openSt ==> d in s.order && d.IsStore() && d !in s.issued)
  }

  /** Operations leave in program order, and only after they issued; nothing runs ahead. */
  ghost predicate Window(s: State) {
    && Increasing(s.order) && s.start <= |s.order|
    && (forall d :: d in s.left <==> d in s.order[..s.start])
    && (forall d :: d in s.issued ==> d in s.order)
    && s.completed <= s.issued && s.canExit <= s.issued && s.left <= s.issued
    && s.speculated == {}
    && (forall d :: d in s.log <==> d in s.issued)
  }

  /** Two accesses to one address of which one writes (the younger not a STADDR). */
  predicate Conflict(older: Op, younger: Op) {
    && older.addr == younger.addr
    && (younger.kind == LD || younger.kind == ST || younger.kind == ATOMIC)
    && (older.IsStore() || (older.IsLoad() && younger.kind != LD))
  }

  /** Whatever conflicts with an operation and is older has issued before it. */
  ghost predicate InMemoryOrder(s: State) {
    && (forall i, j :: 0 <= i < j < |s.log| ==> s.log[i] != s.log[j])
    && forall j, y :: 0 <= j < |s.log| && y in s.order && Less(y, s.log[j]) && Conflict(y, s.log[j]) ==> y in s.log[..j]
  }

  ghost predicate Inv(s: State) {
    Queues(s) && Window(s) && InMemoryOrder(s)
  }

  // ---- the checks --------------------------------------------------------------------

  /** A store still in the queue is in the index of its address. */
  lemma StoreInIndex(s: State, y: Op)
    requires Queues(s) && y in s.order && y.IsStore() && y !in s.left
    ensures y in At(s.q.sm, y.addr)
  {
  }

  lemma LoadInIndex(s: State, y: Op)
    requires Queues(s) && y in s.order && y.IsLoad() && y !in s.left
    ensures y in At(s.q.lm, y.addr)
  {
  }

  /** A load is never sent ahead of an older store to its address: the code 0 cannot occur. */
  lemma NeverSpeculates(c: Core, s: State, d: Op)
    requires Inv(s) && d in s.order && d.kind == LD
    ensures CheckLoad(s.q, s.left, s.issued, d, c.speculate) != 0
  {
    if e :| e in s.q.openSt && Less(e, d) && e.addr == d.addr { StoreInIndex(s, e); }
  }

  /** An operation that passes its check has every older conflicting access behind it. */
  lemma CheckedIsSafe(c: Core, s: State, d: Op, y: Op)
    requires Inv(s) && d in s.order && d !in s.issued && MayIssue(c, s, d)
    requires y in s.order && Less(y, d) && Conflict(y, d)
    ensures y in s.issued
  {
    if y !in s.left {
      if y.IsStore() { StoreInIndex(s, y); } else { LoadInIndex(s, y); }
    }
  }

  // ---- every step keeps it -----------------------------------------------------------

  lemma InsertKeeps(s: State, d: Op)
    requires Queues(s) && Window(s) && forall a :: a in s.order ==> Less(a, d)
    ensures var s' := s.(q := Insert(s.q, d), order := s.order + [d]); Queues(s') && Window(s')
  {
    var s' := s.(q := Insert(s.q, d), order := s.order + [d]);
    if d.IsLoad() { AddAgrees(s.q.lq, s.q.lm, d); }
    if d.IsStore() { AddAgrees(s.q.sq, s.q.sm, d); }
    assert s'.order[..s.start] == s.order[..s.start];
    assert d !in s.order && d !in s.issued;
  }

  lemma {:induction false} InsertAllKeeps(s: State, ds: seq<Op>)
    requires Queues(s) && Window(s) && Increasing(ds) && forall a, b :: a in s.order && b in ds ==> Less(a, b)
    ensures var s' := s.(q := InsertAll(s.q, ds), order := s.order + ds); Queues(s') && Window(s')
  {
    if |ds| == 0 {
      assert s.order + ds == s.order;
    } else {
      var n := |ds| - 1;
      hide Queues, Window, Insert;
      InsertAllKeeps(s, ds[..n]);
      assert s.order + ds[..n] + [ds[n]] == s.order + ds;
      InsertKeeps(s.(q := InsertAll(s.q, ds[..n]), order := s.order + ds[..n]), ds[n]);
    }
  }

  /** A queue may give up a prefix that has left the reorder buffer. */
  lemma GiveUpKeeps(s: State, q: seq<Op>, loads: bool, n: nat)
    requires Holds(s, q, loads) && n <= |q| && forall i :: 0 <= i < n ==> q[i] in s.left
    ensures Holds(s, q[n..], loads)
  {
    forall d | d in q && d !in q[n..] ensures d in s.left {
      assert q == q[..n] + q[n..];
      var i :| 0 <= i < n && q[..n][i] == d;
    }
  }

  lemma CheckSizeKeeps(s: State, size: int, loads: nat, stores: nat)
    requires Queues(s)
    ensures Queues(s.(q := CheckSize(s.q, s.left, size, loads, stores).0))
  {
    var ld, st := AtLeast0(Over(s.q.lq, loads, size)), AtLeast0(Over(s.q.sq, stores, size));
    if CheckSize(s.q, s.left, size, loads, stores).0 != s.q {
      GiveUpKeeps(s, s.q.lq, true, ld);
      GiveUpKeeps(s, s.q.sq, false, st);
      DropAllAgrees(s.q.lq, s.q.lm, ld);
      DropAllAgrees(s.q.sq, s.q.sm, st);
    }
  }

  lemma CreateKeeps(c: Core, s: State, ds: seq<Op>, produced: nat)
    requires Inv(s) && Enabled(c, s, Create(ds, produced))
    ensures Inv(NewBlock(c, s, ds, produced))
  {
    hide Queues, Window, InMemoryOrder, CheckSize, InsertAll;
    var r := CheckSize(s.q, s.left, c.size, Count(ds, {LD}) + produced, Count(ds, {ST, STADDR}));
    if r.1 {
      CheckSizeKeeps(s, c.size, Count(ds, {LD}) + produced, Count(ds, {ST, STADDR}));
      SameWindow(s, r.0);
      InsertAllKeeps(s.(q := r.0), ds);
      YoungerOps(s, NewBlock(c, s, ds, produced), ds);
    }
  }

  lemma SameWindow(s: State, q: Queue)
    requires Window(s)
    ensures Window(s.(q := q))
  {
  }

  lemma YoungerOps(s: State, s': State, ds: seq<Op>)
    requires InMemoryOrder(s) && Window(s) && s'.order == s.order + ds && s'.log == s.log
    requires forall a, b :: a in s.order && b in ds ==> Less(a, b)
    ensures InMemoryOrder(s')
  {
    forall j, y | 0 <= j < |s'.log| && y in s'.order && Less(y, s'.log[j]) && Conflict(y, s'.log[j]) ensures y in s'.log[..j] {
      assert s'.log[j] in s'.log;
      assert y in s.order;
    }
  }

  lemma IssueKeeps(c: Core, s: State, i: nat)
    requires Inv(s) && Enabled(c, s, TryIssue(i))
    ensures Inv(Issue(c, s, s.order[i]))
  {
    var d := s.order[i];
    if MayIssue(c, s, d) {
      if d.kind == LD { NeverSpeculates(c, s, d); }
      var s' := Issue(c, s, d);
      forall j, y | 0 <= j < |s'.log| && y in s'.order && Less(y, s'.log[j]) && Conflict(y, s'.log[j]) ensures y in s'.log[..j] {
        if j < |s.log| {
          assert s'.log[..j] == s.log[..j];
        } else {
          CheckedIsSafe(c, s, d, y);
          assert s'.log[..j] == s.log;
        }
      }
    }
  }

  lemma {:induction false} RetireKeeps(s: State)
    requires Inv(s)
    ensures Inv(Retire(s))
    decreases |s.order| - s.start
  {
    if s.start < |s.order| && (s.order[s.start] in s.completed || s.order[s.start] in s.canExit) {
      var s1 := s.(start := s.start + 1, left := s.left + {s.order[s.start]});
      assert s.order[..s.start + 1] == s.order[..s.start] + [s.order[s.start]];
      RetireKeeps(s1);
    }
  }

  lemma StepKeeps(c: Core, s: State, e: Step)
    requires Inv(s) && Enabled(c, s, e)
    ensures Inv(Next(c, s, e))
  {
    match e
    case Create(ds, produced) => CreateKeeps(c, s, ds, produced);
    case Resolve(d) =>
    case TryIssue(i) => IssueKeeps(c, s, i);
    case Complete(d) => assert Misspeculated(s, d) == {};
    case Process => RetireKeeps(s);
  }

  lemma {:induction false} RunKeeps(c: Core, steps: seq<Step>, s: State)
    requires Reaches(c, steps, s)
    ensures Inv(s)
  {
    if |steps| > 0 {
      var last := |steps| - 1;
      var s0 :| Reaches(c, steps[..last], s0) && Enabled(c, s0, steps[last]) && s == Next(c, s0, steps[last]);
      RunKeeps(c, steps[..last], s0);
      StepKeeps(c, s0, steps[last]);
    }
  }
}
