/** What the decoupled queue promises in every run its callers can make. */
module DescqPromises {
  import opened Wrappers
  import opened Descq
  import opened DescqProofs

  /** No assert fails, and every node is handed over for completion at most once. */
  lemma NoAssertFails(z: Sizes, steps: seq<Step>, s: Option<State>)
    requires Reaches(z, steps, s)
    ensures s.Some?
    ensures forall i, j :: 0 <= i < j < |s.value.log| ==> s.value.log[i] != s.value.log[j]
  {
    RunKeeps(z, steps, s);
  }

  // ---- the order in which stores retire ----------------------------------------------

  predicate IsStore(n: Node) { n.family == Staddr || n.family == Stval }

  /** STADDRs leave in id order, STVALs leave in id order, and every STADDR after its STVAL. */
  ghost predicate StoresInOrder(log: seq<Node>) {
    && (forall i, j :: 0 <= i < j < |log| && IsStore(log[i]) && log[i].family == log[j].family ==> log[i].id < log[j].id)
    && (forall j :: 0 <= j < |log| && log[j].family == Staddr ==> Node(Stval, log[j].id) in log[..j])
  }

  /** From `s` to `s'` at most one node was handed over, and none completed with it. */
  ghost predicate OneMore(s: State, s': State) {
    s'.log == s.log || (|s'.log| == |s.log| + 1 && s'.log[..|s.log|] == s.log && s'.completed == s.completed)
  }

  lemma IssueLog(z: Sizes, s: State, n: Node, lsq: bool, allowed: bool)
    requires Ordered(s, n) && Issue(z, s, n, lsq, allowed).Some?
    ensures Issue(z, s, n, lsq, allowed).value.0.log == s.log
  {
    hide Source, SabDependency;
  }

  lemma ExecuteLog(s: State, n: Node)
    requires Ordered(s, n) && Execute(s, n).Some?
    ensures OneMore(s, Execute(s, n).value)
  {
    hide Mark;
  }

  /** A step hands over at most one node. */
  lemma LogGrows(z: Sizes, s: State, e: Step)
    requires Inv(z, s) && Enabled(s, e) && Next(z, s, e).Some?
    ensures OneMore(s, Next(z, s, e).value)
  {
    hide Inv, Issue, Execute;
    match e
    case TryIssue(n, lsq, allowed) => IssueLog(z, s, n, lsq, allowed);
    case Run(n) => ExecuteLog(s, n);
    case _ =>
  }

  lemma {:induction false} StoresRetireInOrder(z: Sizes, steps: seq<Step>, s: State)
    requires Reaches(z, steps, Some(s))
    ensures StoresInOrder(s.log)
    ensures forall k: nat :: Node(Staddr, k) in s.log <==> k < s.sabIssue - s.sabCount
    ensures forall k: nat :: Node(Stval, k) in s.log <==> k < s.svbIssue - s.svbCount
  {
    hide Inv, Places, Supply, Program, Next, Enabled, StoresInOrder;
    RunKeeps(z, steps, Some(s));
    InvParts(z, s);
    if |steps| == 0 {
      NothingLeft(z);
    } else {
      var last := |steps| - 1;
      var s0 :| Reaches(z, steps[..last], Some(s0)) && Enabled(s0, steps[last]) && Some(s) == Next(z, s0, steps[last]);
      StoresRetireInOrder(z, steps[..last], s0);
      RunKeeps(z, steps[..last], Some(s0));
      StoreStep(z, s0, s, steps[last]);
    }
  }

  lemma NothingLeft(z: Sizes)
    ensures StoresInOrder(Init(z).log)
  {
  }

  lemma StoreStep(z: Sizes, s0: State, s: State, e: Step)
    requires Inv(z, s0) && Inv(z, s) && StoresInOrder(s0.log) && Enabled(s0, e) && Next(z, s0, e) == Some(s)
    ensures StoresInOrder(s.log)
  {
    hide Places, Supply, Stores, Program, StoresInOrder, Next, Enabled;
    LogGrows(z, s0, e);
    if s.log != s0.log {
      var n := s.log[|s0.log|];
      assert s.log == s0.log + [n];
      NextStore(z, s0, s, n);
      AppendStore(s0.log, n);
    }
  }

  lemma AppendStore(log: seq<Node>, n: Node)
    requires StoresInOrder(log)
    requires IsStore(n) ==> forall m :: m in log && m.family == n.family ==> m.id < n.id
    requires n.family == Staddr ==> Node(Stval, n.id) in log
    ensures StoresInOrder(log + [n])
  {
    var log' := log + [n];
    assert log'[..|log|] == log;
    forall j | 0 <= j < |log'| && log'[j].family == Staddr ensures Node(Stval, log'[j].id) in log'[..j] {
      if j < |log| { assert log'[..j] == log[..j]; }
    }
  }

  /** The next store of its family to leave is the oldest one left. */
  lemma NextStore(z: Sizes, s0: State, s: State, n: Node)
    requires Places(s) && Stores(z, s0) && Stores(z, s) && Places(s0)
    requires s.log == s0.log + [n] && s.completed == s0.completed
    ensures IsStore(n) ==> forall m :: m in s0.log && m.family == n.family ==> m.id < n.id
    ensures n.family == Staddr ==> Node(Stval, n.id) in s0.log
  {
    assert n == s.log[|s0.log|] && n in s.log;
    forall i | 0 <= i < |s0.log| ensures s0.log[i] != n {
      assert s.log[i] != s.log[|s0.log|];
    }
  }

  // ---- values ------------------------------------------------------------------------

  predicate InQueue(s: State, p: nat) { p in s.commQ }
  predicate Received(s: State, p: nat) { Node(Recv, p) in s.log }

  /** The value of an issued producer is in exactly one place: in the communication queue, on
      its way from memory, or taken by the RECV of the same id, which came after it completed. */
  lemma ValueIsInOnePlace(z: Sizes, steps: seq<Step>, s: State, p: nat)
    requires Reaches(z, steps, Some(s))
    ensures Node(Producer, p) in s.issued <==> InQueue(s, p) || Terminal(s, p) || Received(s, p)
    ensures !(InQueue(s, p) && Terminal(s, p)) && !(InQueue(s, p) && Received(s, p)) && !(Terminal(s, p) && Received(s, p))
    ensures Received(s, p) ==> Node(Producer, p) in s.completed
  {
    RunKeeps(z, steps, Some(s));
  }

  /** commQ_count and term_ld_count count what they should, within their sizes. */
  lemma Accounting(z: Sizes, steps: seq<Step>, s: State)
    requires Reaches(z, steps, Some(s))
    ensures s.termCount == |Terminals(s)| <= z.terminal
    ensures s.commCount == |s.commQ| + s.termCount <= z.commQ
  {
    RunKeeps(z, steps, Some(s));
  }

  // ---- forwarding --------------------------------------------------------------------

  /** STLMap and SVB are inverse; a load listed with a store is still in the communication
      queue, the store has not retired, and once it retires no load is left with it. */
  lemma ForwardingIsExact(z: Sizes, steps: seq<Step>, s: State)
    requires Reaches(z, steps, Some(s))
    ensures forall p, k :: (p in s.stl && s.stl[p] == k) <==> (k in s.svb && p in s.svb[k])
    ensures forall p :: p in s.stl ==> p in s.commQ && p < |s.status| && Waits(s.status[p])
    ensures forall p :: p in s.stl ==> Node(Stval, s.stl[p]) !in s.log
  {
    hide *;
    RunKeeps(z, steps, Some(s));
    InvParts(z, s);
    ExactForwards(z, s);
  }

  lemma ExactForwards(z: Sizes, s: State)
    requires Supply(z, s) && Stores(z, s)
    ensures forall p, k :: (p in s.stl && s.stl[p] == k) <==> (k in s.svb && p in s.svb[k])
    ensures forall p :: p in s.stl ==> p in s.commQ && p < |s.status| && Waits(s.status[p])
    ensures forall p :: p in s.stl ==> Node(Stval, s.stl[p]) !in s.log
  {
    hide Accounts, Values, StatusOk;
  }

  // ---- the store address buffer ------------------------------------------------------

  /** The oldest store that `s` may still take a value from. */
  ghost predicate Matches(s: State, k: nat, addr: nat, pos: nat) {
    k in s.sab && k < |s.staddrs| && s.staddrs[k].addr == addr && s.staddrs[k].pos <= pos
  }

  /** sab_has_dependency finds the oldest older store to the address, or there is none. */
  lemma DependencyIsOldest(z: Sizes, steps: seq<Step>, s: State, addr: nat, pos: nat)
    requires Reaches(z, steps, Some(s))
    ensures match SabDependency(s, addr, pos)
            case Some(k) => Matches(s, k, addr, pos) && forall j :: Matches(s, j, addr, pos) ==> k <= j
            case None => forall j :: !Matches(s, j, addr, pos)
  {
    hide Inv, Reaches, Matches;
    RunKeeps(z, steps, Some(s));
    ScanIsOldest(z, s, s.sab, addr, pos);
    assert forall j :: Matches(s, j, addr, pos) ==> j in s.sab by { OnlyInBuffer(s, addr, pos); }
  }

  lemma OnlyInBuffer(s: State, addr: nat, pos: nat)
    ensures forall j :: Matches(s, j, addr, pos) ==> j in s.sab
  {
  }

  lemma {:induction false} ScanIsOldest(z: Sizes, s: State, rest: set<nat>, addr: nat, pos: nat)
    requires Inv(z, s) && rest <= s.sab
    ensures match Scan(s, rest, addr, pos)
            case Some(k) => k in rest && Matches(s, k, addr, pos) && forall j :: j in rest && Matches(s, j, addr, pos) ==> k <= j
            case None => forall j :: j in rest ==> !Matches(s, j, addr, pos)
    decreases |rest|
  {
    if rest != {} {
      var k := Head(rest);
      assert k in s.sab && k < |s.staddrs|;
      if pos < s.staddrs[k].pos {
        forall j | j in rest ensures !Matches(s, j, addr, pos) {
          if k < j { assert j in s.sab && s.staddrs[k].pos < s.staddrs[j].pos; }
        }
      } else if s.staddrs[k].addr != addr {
        ScanIsOldest(z, s, rest - {k}, addr, pos);
        forall j | j in rest && Matches(s, j, addr, pos) ensures j in rest - {k} {}
      }
    }
  }

  /** The checks against SAB_back and SVB_back never refuse what the counters would let in. */
  lemma BackPointersAreRedundant(z: Sizes, steps: seq<Step>, s: State)
    requires Reaches(z, steps, Some(s))
    ensures s.sabIssue > s.sabBack <==> s.sabCount == z.sab
    ensures s.svbIssue > s.svbBack <==> s.svbCount == z.svb
    ensures |s.sab| == s.sabCount
  {
    hide Reaches, Places, Supply, Program;
    RunKeeps(z, steps, Some(s));
    RangeSize(s.sab, s.sabIssue - s.sabCount, s.sabIssue);
  }

  lemma {:induction false} RangeSize(a: set<nat>, lo: nat, hi: nat)
    requires lo <= hi && forall k :: k in a <==> lo <= k < hi
    ensures |a| == hi - lo
    decreases hi - lo
  {
    if lo == hi {
      assert a == {};
    } else {
      RangeSize(a - {hi - 1}, lo, hi - 1);
    }
  }
}
