/** DESCQ as the simulator runs it: maps, sets and counters updated in place. Every method does
    what its function in Descq says; the asserts of the original are asserts here. */
module DescqQueue {
  import opened Wrappers
  import opened Descq
  import opened DescqProofs

  class DescQ {
    const z: Sizes
    var waiting: map<Node, nat>
    var execution: set<Node>
    var sab: set<nat>
    var commQ: set<nat>
    var stl: map<nat, nat>
    var svb: map<nat, set<nat>>
    var tl: set<nat>
    var termCount: int
    var commCount: int
    var sabCount: int
    var sabIssue: nat
    var sabBack: int
    var svbCount: int
    var svbIssue: nat
    var svbBack: int
    var cycles: nat
    var producers: seq<Op>
    var staddrs: seq<Op>
    var stvals: nat
    var recvs: nat
    var nextPos: nat
    var status: seq<Status>
    var issued: set<Node>
    var toComplete: multiset<Node>
    var completed: set<Node>
    ghost var log: seq<Node>

    ghost function View(): State
      reads this
    {
      State(waiting, execution, sab, commQ, stl, svb, tl, termCount, commCount, sabCount, sabIssue, sabBack,
            svbCount, svbIssue, svbBack, cycles, producers, staddrs, stvals, recvs, nextPos, status,
            issued, toComplete, completed, log)
    }

    ghost predicate Valid()
      reads this
    {
      Inv(z, View())
    }

    constructor (z: Sizes)
      ensures this.z == z && Valid() && View() == Init(z)
    {
      this.z := z;
      waiting, execution, sab, commQ, stl, svb, tl := map[], {}, {}, {}, map[], map[], {};
      termCount, commCount, sabCount, sabIssue, sabBack := 0, 0, 0, 0, z.sab - 1;
      svbCount, svbIssue, svbBack, cycles := 0, 0, z.svb - 1, 0;
      producers, staddrs, stvals, recvs, nextPos, status := [], [], 0, 0, 0, [];
      issued, toComplete, completed, log := {}, multiset{}, {}, [];
      new;
      InitHolds(z);
    }

    // ---- order() ---------------------------------------------------------------------

    method OrderNewProducer(op: Op) returns (n: Node)
      requires Valid() && nextPos <= op.pos
      modifies this
      ensures Valid() && View() == OrderProducer(old(View()), op) && n == Node(Producer, old(|producers|))
    {
      hide Inv;
      OrderKeeps(z, View(), NewProducer(op));
      n := Node(Producer, |producers|);
      producers := producers + [op];
      status := status + [NONE];
      nextPos := op.pos + 1;
    }

    method OrderNewStaddr(op: Op) returns (n: Node)
      requires Valid() && nextPos <= op.pos
      modifies this
      ensures Valid() && View() == OrderStaddr(old(View()), op) && n == Node(Staddr, old(|staddrs|))
    {
      hide Inv;
      OrderKeeps(z, View(), NewStaddr(op));
      n := Node(Staddr, |staddrs|);
      staddrs := staddrs + [op];
      nextPos := op.pos + 1;
    }

    method OrderNewStval() returns (n: Node)
      requires Valid()
      modifies this`stvals
      ensures Valid() && stvals == old(stvals) + 1 && n == Node(Stval, old(stvals))
    {
      hide Inv;
      OrderKeeps(z, View(), NewStval);
      n := Node(Stval, stvals);
      stvals := stvals + 1;
    }

    method OrderNewRecv() returns (n: Node)
      requires Valid()
      modifies this`recvs
      ensures Valid() && recvs == old(recvs) + 1 && n == Node(Recv, old(recvs))
    {
      hide Inv;
      OrderKeeps(z, View(), NewRecv);
      n := Node(Recv, recvs);
      recvs := recvs + 1;
    }

    // ---- issue -----------------------------------------------------------------------

    /** sab_has_dependency: from the head of the buffer on, until a younger store. */
    method SabHasDependency(addr: nat, pos: nat) returns (k: Option<nat>)
      requires forall j :: j in sab ==> j < |staddrs|
      ensures k == SabDependency(View(), addr, pos)
    {
      var rest := sab;
      while rest != {}
        invariant rest <= sab
        invariant SabDependency(View(), addr, pos) == Scan(View(), rest, addr, pos)
        decreases |rest|
      {
        var j := Head(rest);
        if pos < staddrs[j].pos { return None; }
        if staddrs[j].addr == addr { return Some(j); }
        rest := rest - {j};
      }
      k := None;
    }

    /** issueDESCNode. */
    method IssueNode(n: Node, lsq: bool, allowed: bool) returns (taken: bool)
      requires Valid() && Ordered(View(), n) && n !in issued
      modifies this
      ensures Valid() && Issue(z, old(View()), n, lsq, allowed) == Some((View(), taken))
    {
      StaddrsInRange();
      hide Inv;
      IssueKeeps(z, View(), n, lsq, allowed);
      var forward: Option<nat> := None;
      if n.family == Producer && producers[n.id].kind == LD_PROD {
        forward := SabHasDependency(producers[n.id].addr, producers[n.id].pos);
        status := status[n.id := if lsq then LSQ_FWD
                                 else if forward.Some? && sab != {} && forward.value != Head(sab) then DESC_FWD
                                 else PENDING];
        if !allowed { return false; }
      }
      taken := InsertNode(n, forward);
    }

    lemma StaddrsInRange()
      requires Valid()
      ensures forall j :: j in sab ==> j < |staddrs|
    {
    }

    /** insert(): the limits of the buffer the node needs, then its entry. */
    method InsertNode(n: Node, forward: Option<nat>) returns (taken: bool)
      requires Ordered(View(), n) && Insert(z, View(), n, forward).Some?
      modifies this
      ensures Insert(z, old(View()), n, forward) == Some((View(), taken))
    {
      match n.family
      case Producer => taken := InsertProducer(n, forward);
      case Recv =>
        Enter(n);
        taken := true;
      case Staddr => taken := InsertStaddr(n, forward);
      case Stval => taken := InsertStval(n, forward);
    }

    method InsertStaddr(n: Node, ghost forward: Option<nat>) returns (taken: bool)
      requires Ordered(View(), n) && n.family == Staddr
      modifies this`sab, this`sabCount, this`sabIssue, this`waiting, this`issued
      ensures Insert(z, old(View()), n, forward) == Some((View(), taken))
    {
      StaddrSplits(z, View(), n, forward);
      hide *;
      if n.id != sabIssue || n.id > sabBack || sabCount == z.sab { return false; }
      TakeSlot(n.id);
      Enter(n);
      taken := true;
    }

    method TakeSlot(k: nat)
      modifies this`sab, this`sabCount, this`sabIssue
      ensures View() == SlotTaken(old(View()), k)
    {
      sab, sabCount, sabIssue := sab + {k}, sabCount + 1, sabIssue + 1;
    }

    method InsertStval(n: Node, ghost forward: Option<nat>) returns (taken: bool)
      requires Ordered(View(), n) && n.family == Stval
      modifies this`svbCount, this`svbIssue, this`waiting, this`issued
      ensures Insert(z, old(View()), n, forward) == Some((View(), taken))
    {
      hide Push;
      if n.id != svbIssue || n.id > svbBack || svbCount == z.svb { return false; }
      svbCount, svbIssue := svbCount + 1, svbIssue + 1;
      Enter(n);
      taken := true;
    }

    /** The node waits for the queue's latency. */
    method Enter(n: Node)
      modifies this`waiting, this`issued
      ensures View() == Push(z, old(View()), n)
    {
      waiting := waiting[n := cycles + z.latency];
      issued := issued + {n};
    }

    method InsertProducer(n: Node, forward: Option<nat>) returns (taken: bool)
      requires Ordered(View(), n) && n.family == Producer && Insert(z, View(), n, forward).Some?
      modifies this`commCount, this`termCount, this`status, this`stl, this`svb, this`commQ, this`waiting, this`issued
      ensures Insert(z, old(View()), n, forward) == Some((View(), taken))
    {
      hide Push, Insert;
      if producers[n.id].kind != SEND && (status[n.id] == PENDING || producers[n.id].kind == ATOMIC) {
        taken := InsertTerminal(n, forward);
      } else {
        taken := InsertPlain(n, forward);
      }
    }

    /** A load or an atomic that goes to memory: room in both buffers. */
    method InsertTerminal(n: Node, ghost forward: Option<nat>) returns (taken: bool)
      requires Ordered(View(), n) && n.family == Producer
      requires producers[n.id].kind != SEND && (status[n.id] == PENDING || producers[n.id].kind == ATOMIC)
      modifies this`commCount, this`termCount, this`waiting, this`issued
      ensures Insert(z, old(View()), n, forward) == Some((View(), taken))
    {
      hide Push;
      if termCount == z.terminal || commCount == z.commQ { return false; }
      commCount, termCount := commCount + 1, termCount + 1;
      Enter(n);
      taken := true;
    }

    /** A SEND or a forwarded load: an entry of the communication queue at once. */
    method InsertPlain(n: Node, forward: Option<nat>) returns (taken: bool)
      requires Ordered(View(), n) && n.family == Producer && Insert(z, View(), n, forward).Some?
      requires producers[n.id].kind == SEND || (status[n.id] != PENDING && producers[n.id].kind != ATOMIC)
      modifies this`commCount, this`status, this`stl, this`svb, this`commQ, this`waiting, this`issued
      ensures Insert(z, old(View()), n, forward) == Some((View(), taken))
    {
      PlainSplits(z, View(), n, forward);
      hide *;
      if commCount == z.commQ { return false; }
      Settle(n.id, forward);
      Occupy(n.id);
      Enter(n);
      taken := true;
    }

    /** Where the load's value comes from is now decided. */
    method Settle(p: nat, forward: Option<nat>)
      requires p < |producers| && p < |status| && (producers[p].kind != SEND && status[p] == DESC_FWD ==> forward.Some?)
      requires producers[p].kind != SEND && status[p] == DESC_FWD ==> p !in stl
      modifies this`status, this`stl, this`svb
      ensures View() == Settled(old(View()), p, forward)
    {
      if producers[p].kind != SEND {
        if status[p] == DESC_FWD {
          assert p !in stl;
          Register(p, forward.value);
        } else {
          status := status[p := NONE];
        }
      }
    }

    method Occupy(p: nat)
      requires p !in commQ
      modifies this`commCount, this`commQ
      ensures View() == Occupied(old(View()), p)
    {
      assert p !in commQ;
      commCount, commQ := commCount + 1, commQ + {p};
    }

    /** The load's RECV will find the store, and the store its load. */
    method Register(p: nat, k: nat)
      modifies this`stl, this`svb
      ensures stl == old(stl)[p := k] && svb == old(svb)[k := SvbAt(old(View()), k) + {p}]
    {
      stl := stl[p := k];
      svb := svb[k := (if k in svb then svb[k] else {}) + {p}];
    }

    // ---- execute() -------------------------------------------------------------------

    /** Into the completion queue, and out of the execution set. */
    method Leave(n: Node)
      modifies this`execution, this`toComplete, this`log
      ensures View() == Finish(old(View()), n)
    {
      execution, toComplete, log := execution - {n}, toComplete + multiset{n}, log + [n];
    }

    method ExecuteNode(n: Node)
      requires Valid() && n in execution
      modifies this
      ensures Valid() && Ordered(old(View()), n) && Execute(old(View()), n) == Some(View())
    {
      hide Inv, ExecuteProducer, ExecuteRecv, ExecuteStval, ExecuteStaddr;
      ExecuteKeeps(z, View(), n);
      match n.family
      case Producer => DoProducer(n);
      case Recv => DoRecv(n);
      case Stval => DoStval(n);
      case Staddr => DoStaddr(n);
    }

    method DoProducer(n: Node)
      requires Ordered(View(), n) && n.family == Producer && ExecuteProducer(View(), n).Some?
      modifies this
      ensures ExecuteProducer(old(View()), n) == Some(View())
    {
      if producers[n.id].kind == ATOMIC {
        status := status[n.id := PENDING];
        tl := tl + {n.id};
        execution := execution - {n};
      } else if producers[n.id].kind == LD_PROD {
        if status[n.id] == NONE || status[n.id] == DESC_FWD || status[n.id] == FWD_COMPLETE {
          Leave(n);
        } else {
          tl := tl + {n.id};
          execution := execution - {n};
        }
      } else {
        assert status[n.id] == NONE;
        Leave(n);
      }
    }

    method DoRecv(n: Node)
      requires ExecuteRecv(View(), n).Some?
      modifies this
      ensures ExecuteRecv(old(View()), n) == Some(View())
    {
      hide Finish;
      var p := n.id;
      if p !in commQ || Node(Producer, p) !in completed { return; }
      if status[p] == FWD_COMPLETE || status[p] == NONE {
        if status[p] == FWD_COMPLETE {
          assert p in stl;
          var k := stl[p];
          assert k in svb;
          svb := svb[k := svb[k] - {p}];
          stl := stl - {p};
        }
        commCount := commCount - 1;
        commQ := commQ - {p};
        Leave(n);
      }
    }

    method DoStval(n: Node)
      requires ExecuteStval(View(), n).Some?
      modifies this`status, this`svbCount, this`svbBack, this`svb, this`execution, this`toComplete, this`log
      ensures ExecuteStval(old(View()), n) == Some(View())
    {
      StvalSplits(View(), n);
      hide *;
      MarkStatus(n.id);
      if sab == {} { return; }
      if n.id == Head(sab) && (n.id !in svb || svb[n.id] == {}) {
        GiveUpValue(n.id);
        Leave(n);
      }
    }

    method MarkStatus(k: nat)
      requires k in svb ==> forall p :: p in svb[k] ==> p in commQ
      modifies this`status
      ensures View() == Mark(old(View()), k)
    {
      ghost var s := View();
      if k in svb { MarkLoads(k); }
      SameStatus(status, Mark(s, k).status);
    }

    /** The value's place in the buffer is free. */
    method GiveUpValue(k: nat)
      modifies this`svbCount, this`svbBack, this`svb
      ensures View() == Freed(old(View()), k)
    {
      svbCount, svbBack, svb := svbCount - 1, svbBack + 1, svb - {k};
    }

    /** Every load listed with the store may be received. */
    method MarkLoads(k: nat)
      requires k in svb && forall p :: p in svb[k] ==> p in commQ
      modifies this`status
      ensures |status| == old(|status|)
      ensures forall p :: 0 <= p < |status| ==> status[p] == if p in svb[k] then FWD_COMPLETE else old(status)[p]
    {
      var todo := svb[k];
      while todo != {}
        invariant todo <= svb[k] && |status| == old(|status|)
        invariant forall p :: 0 <= p < |status| ==>
          status[p] == if p in svb[k] && p !in todo then FWD_COMPLETE else old(status)[p]
        decreases todo
      {
        var p :| p in todo;
        todo := todo - {p};
        assert p in commQ;
        if p < |status| { status := status[p := FWD_COMPLETE]; }
      }
    }

    method DoStaddr(n: Node)
      requires ExecuteStaddr(View(), n).Some?
      modifies this
      ensures ExecuteStaddr(old(View()), n) == Some(View())
    {
      hide Finish;
      var k := n.id;
      if k >= stvals { return; }
      if Node(Stval, k) in completed {
        assert k == Head(sab);
        sab, sabCount, sabBack := sab - {k}, sabCount - 1, sabBack + 1;
        Leave(n);
      }
    }

    // ---- process(), memory returns, completion ---------------------------------------

    /** process(): wake, execute the whole set in any order, drain the terminal buffer. */
    method Process() returns (ghost steps: seq<Step>)
      requires Valid()
      modifies this
      ensures Valid() && Path(z, old(View()), steps, Some(View()))
    {
      hide *;
      ghost var s := View();
      WakeNodes();
      steps := [WakeUp];
      Single(z, s, WakeUp);
      WakeIsNext(z, s);
      steps := ExecuteAll(s, steps);
      steps := DrainAll(s, steps);
      ghost var s1 := View();
      Advance();
      TickIsNext(z, s1);
      Extend(z, s, steps, s1, Tick);
      steps := steps + [Tick];
    }

    method Advance()
      requires Valid()
      modifies this`cycles
      ensures Valid() && View() == old(View()).(cycles := old(View()).cycles + 1)
    {
      hide Inv;
      StepKeeps(z, View(), Tick);
      cycles := cycles + 1;
    }

    method ExecuteAll(ghost s: State, ghost before: seq<Step>) returns (ghost steps: seq<Step>)
      requires Valid() && Path(z, s, before, Some(View()))
      modifies this
      ensures Valid() && Path(z, s, steps, Some(View()))
    {
      steps := before;
      var todo := execution;
      while todo != {}
        invariant Valid() && Path(z, s, steps, Some(View())) && todo <= execution
        decreases todo
      {
        hide Inv, Path, Execute;
        var n :| n in todo;
        todo := todo - {n};
        ghost var s1 := View();
        ExecuteNode(n);
        OthersStay(s1, n);
        Extend(z, s, steps, s1, Run(n));
        steps := steps + [Run(n)];
      }
    }

    method DrainAll(ghost s: State, ghost before: seq<Step>) returns (ghost steps: seq<Step>)
      requires Valid() && Path(z, s, before, Some(View()))
      modifies this
      ensures Valid() && Path(z, s, steps, Some(View()))
    {
      steps := before;
      var left := tl;
      while left != {}
        invariant Valid() && Path(z, s, steps, Some(View())) && left <= tl
        decreases left
      {
        hide Inv, Path, Drain;
        var p := Head(left);
        left := left - {p};
        ghost var s1 := View();
        DrainLoad(p);
        Extend(z, s, steps, s1, Move(p));
        steps := steps + [Move(p)];
      }
    }

    /** The nodes of the priority queue that are due enter the execution set. */
    method WakeNodes()
      requires Valid()
      modifies this`waiting, this`execution
      ensures Valid() && View() == Wake(old(View()))
    {
      hide Inv;
      ghost var s := View();
      WakeKeeps(z, s);
      ghost var due := set n | n in waiting && waiting[n] < cycles;
      ghost var moved: set<Node> := {};
      var todo := waiting.Keys;
      while todo != {}
        invariant todo <= waiting.Keys && moved <= due <= moved + todo
        invariant waiting == s.waiting - moved && execution == s.execution + moved
        decreases todo
      {
        var n :| n in todo;
        todo := todo - {n};
        if waiting[n] < cycles {
          assert n in due;
          moved := moved + {n};
          execution := execution + {n};
          waiting := waiting - {n};
        }
      }
      assert moved == due;
    }

    method DrainLoad(p: nat)
      requires Valid() && p in tl
      modifies this
      ensures Valid() && p < |old(status)| && Drain(old(View()), p) == Some(View())
      ensures old(tl) - {p} <= tl
    {
      hide Inv;
      DrainKeeps(z, View(), p);
      if status[p] != PENDING {
        assert p !in commQ;
        MoveLoad(p);
      }
    }

    method MoveLoad(p: nat)
      requires p < |status| && status[p] != PENDING && p !in commQ
      modifies this`status, this`tl, this`commQ, this`toComplete, this`log, this`termCount
      ensures Drain(old(View()), p) == Some(View())
    {
      DrainSplits(View(), p);
      hide *;
      ClearStatus(p);
      Unbuffer(p);
      Hand(Node(Producer, p));
    }

    method ClearStatus(p: nat)
      requires p < |status|
      modifies this`status
      ensures View() == old(View()).(status := old(status)[p := NONE])
    {
      status := status[p := NONE];
    }

    method Unbuffer(p: nat)
      modifies this`tl, this`commQ, this`termCount
      ensures View() == Unbuffered(old(View()), p)
    {
      tl, commQ, termCount := tl - {p}, commQ + {p}, termCount - 1;
    }

    /** insertQ. */
    method Hand(n: Node)
      modifies this`toComplete, this`log
      ensures View() == InsertQ(old(View()), n)
    {
      toComplete, log := toComplete + multiset{n}, log + [n];
    }

    method HandleMemoryReturn(p: nat)
      requires Valid() && p < |status| && Node(Producer, p) in issued && status[p] == PENDING
      modifies this`status
      ensures Valid() && View() == MemoryReturn(old(View()), p)
    {
      hide Inv;
      ReturnKeeps(z, View(), p);
      status := status[p := RETURNED];
    }

    method FinishNode(n: Node)
      requires Valid() && n in toComplete
      modifies this`toComplete, this`completed
      ensures Valid() && Complete(old(View()), n) == Some(View())
    {
      hide Inv;
      CompleteKeeps(z, View(), n);
      assert n !in completed;
      assert n.family == Recv ==> Node(Producer, n.id) in completed;
      assert n.family == Staddr ==> Node(Stval, n.id) in completed;
      toComplete := toComplete - multiset{n};
      completed := completed + {n};
    }
  }

  function Settled(s: State, p: nat, forward: Option<nat>): State
    requires p < |s.producers| && p < |s.status|
    requires s.producers[p].kind != SEND && s.status[p] == DESC_FWD ==> forward.Some?
  {
    if s.producers[p].kind == SEND then s
    else if s.status[p] == DESC_FWD then
      s.(stl := s.stl[p := forward.value], svb := s.svb[forward.value := SvbAt(s, forward.value) + {p}])
    else s.(status := s.status[p := NONE])
  }

  function Occupied(s: State, p: nat): State {
    s.(commCount := s.commCount + 1, commQ := s.commQ + {p})
  }

  lemma PlainSplits(z: Sizes, s: State, n: Node, forward: Option<nat>)
    requires Ordered(s, n) && n.family == Producer && Insert(z, s, n, forward).Some?
    requires s.producers[n.id].kind == SEND || (s.status[n.id] != PENDING && s.producers[n.id].kind != ATOMIC)
    ensures n.id < |s.producers| && n.id < |s.status|
    ensures s.commCount == z.commQ ==> Insert(z, s, n, forward) == Some((s, false))
    ensures s.commCount != z.commQ ==> n.id !in s.commQ
    ensures s.commCount != z.commQ && s.producers[n.id].kind != SEND && s.status[n.id] == DESC_FWD ==>
              forward.Some? && n.id !in s.stl
    ensures s.commCount != z.commQ ==>
              Insert(z, s, n, forward) == Some((Push(z, Occupied(Settled(s, n.id, forward), n.id), n), true))
  {
  }

  function SlotTaken(s: State, k: nat): State {
    s.(sab := s.sab + {k}, sabCount := s.sabCount + 1, sabIssue := s.sabIssue + 1)
  }

  lemma StaddrSplits(z: Sizes, s: State, n: Node, forward: Option<nat>)
    requires Ordered(s, n) && n.family == Staddr
    ensures Insert(z, s, n, forward) ==
      if n.id != s.sabIssue || n.id > s.sabBack || s.sabCount == z.sab then Some((s, false))
      else Some((Push(z, SlotTaken(s, n.id), n), true))
  {
  }

  function Freed(s: State, k: nat): State {
    s.(svbCount := s.svbCount - 1, svbBack := s.svbBack + 1, svb := s.svb - {k})
  }

  lemma StvalSplits(s: State, n: Node)
    requires ExecuteStval(s, n).Some?
    ensures n.id in s.svb ==> forall p :: p in s.svb[n.id] ==> p in s.commQ
    ensures Mark(s, n.id).sab == s.sab && Mark(s, n.id).svb == s.svb
    ensures ExecuteStval(s, n) ==
      if s.sab == {} || n.id != Head(s.sab) || !(n.id !in s.svb || s.svb[n.id] == {}) then Some(Mark(s, n.id))
      else Some(Finish(Freed(Mark(s, n.id), n.id), n))
  {
    hide Finish;
    assert n.id in s.svb ==> SvbAt(s, n.id) == s.svb[n.id];
  }

  function Unbuffered(s: State, p: nat): State {
    s.(tl := s.tl - {p}, commQ := s.commQ + {p}, termCount := s.termCount - 1)
  }

  lemma DrainSplits(s: State, p: nat)
    requires p < |s.status| && s.status[p] != PENDING && p !in s.commQ
    ensures Drain(s, p) == Some(InsertQ(Unbuffered(s.(status := s.status[p := NONE]), p), Node(Producer, p)))
  {
  }

  lemma SameStatus(a: seq<Status>, b: seq<Status>)
    requires |a| == |b| && forall p :: 0 <= p < |a| ==> a[p] == b[p]
    ensures a == b
  {
  }

  /** Executing one node takes no other out of the execution set. */
  lemma OthersStay(s: State, n: Node)
    requires Ordered(s, n) && Execute(s, n).Some?
    ensures s.execution - {n} <= Execute(s, n).value.execution
  {
    hide Mark;
  }

  lemma WakeIsNext(z: Sizes, s: State)
    ensures Enabled(s, WakeUp) && Next(z, s, WakeUp) == Some(Wake(s))
  {
  }

  lemma TickIsNext(z: Sizes, s: State)
    ensures Enabled(s, Tick) && Next(z, s, Tick) == Some(s.(cycles := s.cycles + 1))
  {
  }

  // ---- paths of the machine ----------------------------------------------------------

  ghost predicate Path(z: Sizes, s: State, steps: seq<Step>, s': Option<State>) {
    if |steps| == 0 then s' == Some(s)
    else
      var last := |steps| - 1;
      exists m :: Path(z, s, steps[..last], Some(m)) && Enabled(m, steps[last]) && s' == Next(z, m, steps[last])
  }

  lemma Single(z: Sizes, s: State, e: Step)
    requires e == WakeUp
    ensures Path(z, s, [e], Next(z, s, e))
  {
    assert [e][..0] == [];
    assert Path(z, s, [e][..0], Some(s));
  }

  lemma Extend(z: Sizes, s: State, steps: seq<Step>, m: State, e: Step)
    requires Path(z, s, steps, Some(m)) && Enabled(m, e)
    ensures Path(z, s, steps + [e], Next(z, m, e))
  {
    assert (steps + [e])[..|steps|] == steps;
  }
}
