/** What the decoupled queue answers in every reachable state: which requests it takes and where
    the values come from, stated on the buffers and the nodes alone. */
module DescqAnswers {
  import opened Wrappers
  import opened Descq
  import opened DescqProofs
  import opened DescqPromises

  /** A load that may be issued next. */
  predicate IsLoad(s: State, p: nat) {
    Ordered(s, Node(Producer, p)) && s.producers[p].kind == LD_PROD && Node(Producer, p) !in s.issued
  }

  /** `k` is the oldest store in the buffer that is older than the load `p` and has its address. */
  ghost predicate OldestMatch(s: State, p: nat, k: nat) {
    && p < |s.producers| && Matches(s, k, s.producers[p].addr, s.producers[p].pos)
    && forall j :: Matches(s, j, s.producers[p].addr, s.producers[p].pos) ==> k <= j
  }

  /** ... and a store before it is still in the buffer, so its value cannot be there yet. */
  ghost predicate TakesFrom(s: State, p: nat, k: nat) {
    OldestMatch(s, p, k) && exists j :: j in s.sab && j < k
  }

  /** Values in the communication queue or on their way to it. */
  ghost function HeldValues(s: State): nat { |s.commQ| + |Terminals(s)| }

  /** The node waits until cycle `end` is over. */
  predicate WaitsUntil(s: State, n: Node, end: nat) { n in s.waiting && s.waiting[n] == end }

  lemma SourceIs(z: Sizes, s: State, p: nat, lsq: bool)
    requires Inv(z, s) && p < |s.producers|
    ensures forall k: nat :: TakesFrom(s, p, k) ==>
              SabDependency(s, s.producers[p].addr, s.producers[p].pos) == Some(k) && Source(s, p, lsq) == (if lsq then LSQ_FWD else DESC_FWD)
    ensures (forall k: nat :: !TakesFrom(s, p, k)) ==> Source(s, p, lsq) == if lsq then LSQ_FWD else PENDING
  {
    hide Inv, Matches, SabDependency;
    var addr, pos := s.producers[p].addr, s.producers[p].pos;
    DependencyHere(z, s, addr, pos);
    OnlyInBuffer(s, addr, pos);
    forall k: nat | TakesFrom(s, p, k) ensures SabDependency(s, addr, pos) == Some(k) && k != Head(s.sab) {
      assert Matches(s, k, addr, pos);
    }
    match SabDependency(s, addr, pos)
    case Some(k) => assert OldestMatch(s, p, k);
    case None =>
  }

  lemma DependencyHere(z: Sizes, s: State, addr: nat, pos: nat)
    requires Inv(z, s)
    ensures match SabDependency(s, addr, pos)
            case Some(k) => Matches(s, k, addr, pos) && forall j :: Matches(s, j, addr, pos) ==> k <= j
            case None => forall j :: !Matches(s, j, addr, pos)
  {
    hide Inv, Matches;
    ScanIsOldest(z, s, s.sab, addr, pos);
    assert forall j :: Matches(s, j, addr, pos) ==> j in s.sab by { OnlyInBuffer(s, addr, pos); }
  }

  lemma CountsAre(z: Sizes, s: State)
    requires Inv(z, s)
    ensures s.commCount == HeldValues(s) && s.termCount == |Terminals(s)| && |s.status| == |s.producers|
  {
    hide Terminals;
  }

  /** With a source chosen: taken exactly when there is room, and where the value then is. */
  lemma LoadInsert(z: Sizes, s: State, p: nat, lsq: bool, allowed: bool)
    requires Inv(z, s) && IsLoad(s, p) && Issue(z, s, Node(Producer, p), lsq, allowed).Some?
    ensures var (s', taken) := Issue(z, s, Node(Producer, p), lsq, allowed).value;
            var room := s.commCount != z.commQ;
            && p < |s'.status|
            && (taken ==> Node(Producer, p) in s'.issued && WaitsUntil(s', Node(Producer, p), s.cycles + z.latency))
            && (!taken ==> s' == s.(status := s'.status))
            && match Source(s, p, lsq)
               case LSQ_FWD =>
                 && (taken <==> allowed && room)
                 && (taken ==> s'.commQ == s.commQ + {p} && s'.status[p] == NONE && s'.stl == s.stl && s'.termCount == s.termCount)
               case DESC_FWD =>
                 var d := SabDependency(s, s.producers[p].addr, s.producers[p].pos);
                 && d.Some? && (taken <==> allowed && room)
                 && (taken ==> s'.commQ == s.commQ + {p} && s'.status[p] == DESC_FWD && s'.termCount == s.termCount
                               && s'.stl == s.stl[p := d.value] && d.value in s'.svb && p in s'.svb[d.value])
               case _ =>
                 && (taken <==> allowed && room && s.termCount != z.terminal)
                 && (taken ==> s'.commQ == s.commQ && s'.status[p] == PENDING && s'.stl == s.stl && s'.termCount == s.termCount + 1)
  {
    hide Inv, SabDependency;
  }

  /** A load taken by the queue: with a value in the load/store queue it needs no other source;
      with an older matching store that must wait for a store before it, it is listed with the
      oldest such store; otherwise, and only then, it goes to memory. It is refused exactly when
      the node may not issue or a buffer it needs is full. */
  lemma LoadsFindTheirSource(z: Sizes, steps: seq<Step>, s: State, p: nat, lsq: bool, allowed: bool)
    requires Reaches(z, steps, Some(s)) && IsLoad(s, p)
    ensures Issue(z, s, Node(Producer, p), lsq, allowed).Some?
    ensures var (s', taken) := Issue(z, s, Node(Producer, p), lsq, allowed).value;
            var room := HeldValues(s) < z.commQ;
            && p < |s'.status|
            && (lsq ==> (taken <==> allowed && room)
                        && (taken ==> s'.commQ == s.commQ + {p} && s'.status[p] == NONE && s'.stl == s.stl && s'.termCount == s.termCount))
            && (forall k: nat :: !lsq && TakesFrom(s, p, k) ==>
                  && (taken <==> allowed && room)
                  && (taken ==> s'.commQ == s.commQ + {p} && s'.status[p] == DESC_FWD && s'.termCount == s.termCount
                                && s'.stl == s.stl[p := k] && k in s'.svb && p in s'.svb[k]))
            && (!lsq && (forall k: nat :: !TakesFrom(s, p, k)) ==>
                  && (taken <==> allowed && room && |Terminals(s)| < z.terminal)
                  && (taken ==> s'.commQ == s.commQ && s'.status[p] == PENDING && s'.stl == s.stl && s'.termCount == s.termCount + 1))
            && (taken ==> Node(Producer, p) in s'.issued && WaitsUntil(s', Node(Producer, p), s.cycles + z.latency))
            && (!taken ==> s' == s.(status := s'.status))
  {
    RunKeeps(z, steps, Some(s));
    Accounting(z, steps, s);
    hide Inv, Issue, Source, SabDependency, TakesFrom, Reaches, Terminals;
    IssueKeeps(z, s, Node(Producer, p), lsq, allowed);
    CountsAre(z, s);
    SourceIs(z, s, p, lsq);
    LoadInsert(z, s, p, lsq, allowed);
  }

  lemma ProducerInsert(z: Sizes, s: State, p: nat, lsq: bool, allowed: bool)
    requires Ordered(s, Node(Producer, p)) && s.producers[p].kind != LD_PROD
    requires Issue(z, s, Node(Producer, p), lsq, allowed).Some?
    ensures var (s', taken) := Issue(z, s, Node(Producer, p), lsq, allowed).value;
            var room := s.commCount != z.commQ;
            && (s.producers[p].kind == SEND ==> (taken <==> room) && (taken ==> s'.commQ == s.commQ + {p} && s'.termCount == s.termCount))
            && (s.producers[p].kind == ATOMIC ==>
                  (taken <==> room && s.termCount != z.terminal) && (taken ==> s'.commQ == s.commQ && s'.termCount == s.termCount + 1))
            && (taken ==> Node(Producer, p) in s'.issued && WaitsUntil(s', Node(Producer, p), s.cycles + z.latency))
            && (!taken ==> s' == s)
  {
  }

  /** SENDs and atomics: a SEND's value goes into the communication queue at once, an atomic's
      comes from memory. */
  lemma ProducersAnswer(z: Sizes, steps: seq<Step>, s: State, p: nat, lsq: bool, allowed: bool)
    requires Reaches(z, steps, Some(s)) && Ordered(s, Node(Producer, p)) && Node(Producer, p) !in s.issued
    requires s.producers[p].kind != LD_PROD
    ensures Issue(z, s, Node(Producer, p), lsq, allowed).Some?
    ensures var (s', taken) := Issue(z, s, Node(Producer, p), lsq, allowed).value;
            var room := HeldValues(s) < z.commQ;
            && (s.producers[p].kind == SEND ==> (taken <==> room) && (taken ==> s'.commQ == s.commQ + {p} && s'.termCount == s.termCount))
            && (s.producers[p].kind == ATOMIC ==>
                  (taken <==> room && |Terminals(s)| < z.terminal) && (taken ==> s'.commQ == s.commQ && s'.termCount == s.termCount + 1))
            && (taken ==> Node(Producer, p) in s'.issued && WaitsUntil(s', Node(Producer, p), s.cycles + z.latency))
            && (!taken ==> s' == s)
  {
    hide Reaches, Terminals, Inv, Issue;
    RunKeeps(z, steps, Some(s));
    Accounting(z, steps, s);
    CountsAre(z, s);
    IssueKeeps(z, s, Node(Producer, p), lsq, allowed);
    ProducerInsert(z, s, p, lsq, allowed);
  }

  /** STVALs that were taken and have not left. */
  ghost function OpenStvals(s: State): (r: set<nat>)
    ensures forall k: nat :: k in r <==> k < s.stvals && Node(Stval, k) in s.issued && Node(Stval, k) !in s.log
  {
    set k: nat | k < s.stvals && Node(Stval, k) in s.issued && Node(Stval, k) !in s.log
  }

  lemma StoreInsert(z: Sizes, s: State, n: Node, lsq: bool, allowed: bool)
    requires IsStore(n) && Ordered(s, n)
    ensures Issue(z, s, n, lsq, allowed).Some?
    ensures var (s', taken) := Issue(z, s, n, lsq, allowed).value;
            && (n.family == Staddr ==> (taken <==> n.id == s.sabIssue && n.id <= s.sabBack && s.sabCount != z.sab))
            && (n.family == Stval ==> (taken <==> n.id == s.svbIssue && n.id <= s.svbBack && s.svbCount != z.svb))
            && (n.family == Staddr && taken ==> s'.sab == s.sab + {n.id})
            && (taken ==> n in s'.issued && WaitsUntil(s', n, s.cycles + z.latency))
            && (!taken ==> s' == s)
  {
  }

  lemma StoreNumbers(z: Sizes, s: State)
    requires Stores(z, s)
    ensures |OpenStvals(s)| == s.svbCount
    ensures s.sabCount <= z.sab && s.svbCount <= z.svb
    ensures forall k: nat :: Node(Staddr, k) in s.issued <==> k < s.sabIssue
    ensures forall k: nat :: Node(Stval, k) in s.issued <==> k < s.svbIssue
  {
    RangeSize(OpenStvals(s), s.svbIssue - s.svbCount, s.svbIssue);
  }

  /** The store's turn has come: every store of its family before it has been taken. */
  ghost predicate Turn(s: State, n: Node) { forall k: nat :: k < n.id ==> Node(n.family, k) in s.issued }

  lemma TurnIs(s: State, n: Node, next: nat)
    requires n !in s.issued && forall k: nat :: Node(n.family, k) in s.issued <==> k < next
    ensures Turn(s, n) <==> n.id == next
  {
    assert n == Node(n.family, n.id);
    if n.id > next { assert Node(n.family, next) !in s.issued; }
  }

  /** Store addresses and values are taken in id order, as long as their buffer has room. */
  lemma StoresAnswer(z: Sizes, steps: seq<Step>, s: State, n: Node, lsq: bool, allowed: bool)
    requires Reaches(z, steps, Some(s)) && IsStore(n) && Ordered(s, n) && n !in s.issued
    ensures Issue(z, s, n, lsq, allowed).Some?
    ensures var (s', taken) := Issue(z, s, n, lsq, allowed).value;
            && (n.family == Staddr ==> (taken <==> Turn(s, n) && |s.sab| < z.sab) && (taken ==> s'.sab == s.sab + {n.id}))
            && (n.family == Stval ==> (taken <==> Turn(s, n) && |OpenStvals(s)| < z.svb))
            && (taken ==> n in s'.issued && WaitsUntil(s', n, s.cycles + z.latency))
            && (!taken ==> s' == s)
  {
    hide Reaches, Inv, Places, Supply, Stores, Program, Issue, Turn, OpenStvals;
    RunKeeps(z, steps, Some(s));
    BackPointersAreRedundant(z, steps, s);
    InvParts(z, s);
    StoreNumbers(z, s);
    StoreInsert(z, s, n, lsq, allowed);
    TurnIs(s, n, if n.family == Staddr then s.sabIssue else s.svbIssue);
  }

  /** A waiting node enters the execution set exactly when its latency is over. */
  lemma WakeAnswers(z: Sizes, steps: seq<Step>, s: State, n: Node, end: nat)
    requires Reaches(z, steps, Some(s)) && WaitsUntil(s, n, end)
    ensures n in Wake(s).execution <==> s.cycles > end
    ensures n in Wake(s).waiting <==> s.cycles <= end
  {
    hide Reaches, Supply, Stores, Program;
    RunKeeps(z, steps, Some(s));
  }

  // ---- execution -----------------------------------------------------------------------------

  /** The node leaves the execution set for the completion queue. */
  predicate Leaves(s: State, s': State, n: Node) {
    n !in s'.execution && s'.log == s.log + [n]
  }

  /** A RECV leaves exactly when its producer has completed and its value waits for no store;
      the communication queue then has one place more. */
  lemma RecvAnswers(z: Sizes, steps: seq<Step>, s: State, p: nat)
    requires Reaches(z, steps, Some(s)) && Node(Recv, p) in s.execution
    ensures Ordered(s, Node(Recv, p)) && Execute(s, Node(Recv, p)).Some?
    ensures var s' := Execute(s, Node(Recv, p)).value;
            var ready := Node(Producer, p) in s.completed && p < |s.status| && s.status[p] != DESC_FWD;
            && (Leaves(s, s', Node(Recv, p)) <==> ready)
            && (ready ==> p in s.commQ && s'.commQ == s.commQ - {p} && s'.stl == s.stl - {p})
            && (!ready ==> s' == s)
  {
    hide Reaches, Inv, Stores, Program, Places, Supply;
    RunKeeps(z, steps, Some(s));
    InvParts(z, s);
    RecvSucceeds(z, s, p);
    WhereRecvIs(z, s, p);
  }

  lemma WhereRecvIs(z: Sizes, s: State, p: nat)
    requires Places(s) && Supply(z, s) && Node(Recv, p) in s.execution
    ensures Ordered(s, Node(Recv, p)) && Node(Recv, p) !in s.log
    ensures Node(Producer, p) in s.completed ==> p in s.commQ && p < |s.status|
    ensures p in s.commQ && p < |s.status| ==> s.status[p] == NONE || Waits(s.status[p])
    ensures p in s.stl <==> p in s.commQ && p < |s.status| && Waits(s.status[p])
  {
    if Node(Producer, p) in s.completed {
      assert Node(Producer, p) in s.log && Node(Producer, p) in s.issued && !Terminal(s, p);
    }
    if p in s.commQ {
      assert Node(Producer, p) in s.issued && !Terminal(s, p) && StatusAt(s, p);
    }
  }

  /** A STVAL's value is there: the loads listed with the store may be received from now on, and
      the STVAL leaves exactly when its store is the oldest in the buffer and none was listed. */
  lemma StvalAnswers(z: Sizes, steps: seq<Step>, s: State, k: nat)
    requires Reaches(z, steps, Some(s)) && Node(Stval, k) in s.execution
    ensures Ordered(s, Node(Stval, k)) && Execute(s, Node(Stval, k)).Some?
    ensures var s' := Execute(s, Node(Stval, k)).value;
            var oldest := k in s.sab && forall j :: j in s.sab ==> k <= j;
            && (Leaves(s, s', Node(Stval, k)) <==> oldest && forall p :: p in s.stl ==> s.stl[p] != k)
            && (forall p :: p in s.stl && s.stl[p] == k ==> p < |s'.status| && s'.status[p] == FWD_COMPLETE)
            && |s'.status| == |s.status|
            && (forall p: nat :: p < |s.status| && !(p in s.stl && s.stl[p] == k) ==> s'.status[p] == s.status[p])
  {
    hide Reaches, Inv, Program, Supply, Places, Stores, ExecuteStval;
    RunKeeps(z, steps, Some(s));
    InvParts(z, s);
    MarkedAreLoads(z, s, k);
    StvalCases(s, k);
    ListedWith(z, s, k);
    StvalIsOpen(z, s, k);
  }

  lemma StvalIsOpen(z: Sizes, s: State, k: nat)
    requires Places(s) && Node(Stval, k) in s.execution
    ensures Ordered(s, Node(Stval, k)) && Node(Stval, k) !in s.log
  {
    assert Node(Stval, k) in s.issued;
  }

  lemma ListedWith(z: Sizes, s: State, k: nat)
    requires Supply(z, s)
    ensures forall p :: p in SvbAt(s, k) <==> p in s.stl && s.stl[p] == k
    ensures forall p :: p in s.stl ==> p < |s.status|
    ensures SvbAt(s, k) == {} <==> forall p :: p in s.stl ==> s.stl[p] != k
  {
    hide Accounts, Values, StatusOk;
    assert forall p :: p in SvbAt(s, k) <==> p in s.stl && s.stl[p] == k;
    if p :| p in s.stl && s.stl[p] == k { assert p in SvbAt(s, k); }
  }

  /** A STADDR leaves the buffer exactly when its STVAL has completed. */
  lemma StaddrAnswers(z: Sizes, steps: seq<Step>, s: State, k: nat)
    requires Reaches(z, steps, Some(s)) && Node(Staddr, k) in s.execution
    ensures Ordered(s, Node(Staddr, k)) && Execute(s, Node(Staddr, k)).Some?
    ensures var s' := Execute(s, Node(Staddr, k)).value;
            var ready := Node(Stval, k) in s.completed;
            && (Leaves(s, s', Node(Staddr, k)) <==> ready)
            && (ready ==> s'.sab == s.sab - {k}) && (!ready ==> s' == s)
  {
    hide Reaches, Supply, Program;
    RunKeeps(z, steps, Some(s));
    InvParts(z, s);
    StaddrKeeps(z, s, k);
    assert Node(Staddr, k) in s.issued && Node(Staddr, k) !in s.log;
    StvalOrdered(z, s, k);
    hide Inv, Places, Stores;
  }

  lemma StvalOrdered(z: Sizes, s: State, k: nat)
    requires Places(s)
    ensures Node(Stval, k) in s.completed ==> k < s.stvals
  {
    if Node(Stval, k) in s.completed { assert Node(Stval, k) in s.log && Node(Stval, k) in s.issued; }
  }

  lemma ProducerCases(s: State, p: nat)
    requires Ordered(s, Node(Producer, p)) && StatusAt(s, p)
    requires Node(Producer, p) in s.issued && Node(Producer, p) !in s.log
    ensures Execute(s, Node(Producer, p)).Some?
    ensures var s' := Execute(s, Node(Producer, p)).value;
            && (Terminal(s, p) ==> s'.tl == s.tl + {p} && s'.log == s.log)
            && (!Terminal(s, p) ==> Leaves(s, s', Node(Producer, p)))
  {
  }

  lemma ExecutingIsOpen(z: Sizes, s: State, p: nat)
    requires Places(s) && Supply(z, s) && Node(Producer, p) in s.execution
    ensures Ordered(s, Node(Producer, p)) && StatusAt(s, p)
    ensures Node(Producer, p) in s.issued && Node(Producer, p) !in s.log
  {
    hide Accounts, Values, Forwards;
    assert Node(Producer, p) in s.issued && Node(Producer, p) !in s.log;
  }

  /** A producer leaves at once, unless its value comes from memory: then it waits in the
      terminal load buffer, and leaves that exactly when its data has come back. */
  lemma ProducersExecute(z: Sizes, steps: seq<Step>, s: State, p: nat)
    requires Reaches(z, steps, Some(s)) && Node(Producer, p) in s.execution
    ensures Ordered(s, Node(Producer, p)) && Execute(s, Node(Producer, p)).Some?
    ensures var s' := Execute(s, Node(Producer, p)).value;
            && (Leaves(s, s', Node(Producer, p)) <==> !Terminal(s, p))
            && (Terminal(s, p) ==> s'.tl == s.tl + {p} && s'.log == s.log)
  {
    hide Reaches, Places, Supply, Stores, Program, Execute, StatusAt, Ordered, Terminal;
    RunKeeps(z, steps, Some(s));
    ExecutingIsOpen(z, s, p);
    ProducerCases(s, p);
  }

  lemma MemoryAnswers(z: Sizes, steps: seq<Step>, s: State, p: nat)
    requires Reaches(z, steps, Some(s)) && p in s.tl
    ensures p < |s.status| && Drain(s, p).Some?
    ensures var s' := Drain(s, p).value;
            && (Leaves(s, s', Node(Producer, p)) <==> s.status[p] == RETURNED)
            && (s.status[p] == RETURNED ==> s'.tl == s.tl - {p} && s'.commQ == s.commQ + {p} && s'.status[p] == NONE)
            && (s.status[p] == PENDING ==> s' == s)
  {
    hide Reaches, Stores, Program;
    RunKeeps(z, steps, Some(s));
    InvParts(z, s);
    DrainSucceeds(z, s, p);
    assert Terminal(s, p) && FromMemory(s.status[p]);
    hide Inv, Supply;
  }
}
