/** What the steps of a run alone tell: which nodes exist, which have completed, how much time has
    passed and whose data has come back. With it the answers of the queue depend on what has
    happened, not on what it remembers. */
module DescqHistory {
  import opened Wrappers
  import opened Descq
  import opened DescqProofs
  import opened DescqPromises
  import opened DescqAnswers

  // ---- told by the steps ---------------------------------------------------------------------

  function Ticks(steps: seq<Step>): nat {
    if |steps| == 0 then 0 else Ticks(steps[..|steps|-1]) + (if steps[|steps|-1] == Tick then 1 else 0)
  }

  function ProducersOf(steps: seq<Step>): seq<Op> {
    if |steps| == 0 then []
    else ProducersOf(steps[..|steps|-1]) + (match steps[|steps|-1] case NewProducer(op) => [op] case _ => [])
  }

  function StaddrsOf(steps: seq<Step>): seq<Op> {
    if |steps| == 0 then []
    else StaddrsOf(steps[..|steps|-1]) + (match steps[|steps|-1] case NewStaddr(op) => [op] case _ => [])
  }

  function Count(steps: seq<Step>, e: Step): nat {
    if |steps| == 0 then 0 else Count(steps[..|steps|-1], e) + (if steps[|steps|-1] == e then 1 else 0)
  }

  /** Step i is the last attempt to issue `n`. */
  ghost predicate LastTry(steps: seq<Step>, i: nat, n: Node) {
    && i < |steps| && steps[i].TryIssue? && steps[i].node == n
    && forall k :: i < k < |steps| ==> !(steps[k].TryIssue? && steps[k].node == n)
  }

  // ---- how one step moves --------------------------------------------------------------------

  predicate SameNodes(s: State, s': State) {
    && s'.producers == s.producers && s'.staddrs == s.staddrs && s'.stvals == s.stvals && s'.recvs == s.recvs
    && s'.cycles == s.cycles && s'.completed == s.completed
  }

  /** A node is taken or refused. */
  predicate TakenOrNot(z: Sizes, s: State, s': State, n: Node) {
    || (s'.issued == s.issued && s'.waiting == s.waiting)
    || (s'.issued == s.issued + {n} && s'.waiting == s.waiting[n := s.cycles + z.latency])
  }

  lemma InsertMoves(z: Sizes, s: State, n: Node, forward: Option<nat>)
    requires Ordered(s, n) && Insert(z, s, n, forward).Some?
    ensures var s' := Insert(z, s, n, forward).value.0;
            SameNodes(s, s') && TakenOrNot(z, s, s', n) && s'.execution == s.execution
  {
    hide SvbAt;
    match n.family
    case Producer => ProducerMoves(z, s, n, forward);
    case _ =>
  }

  lemma ProducerMoves(z: Sizes, s: State, n: Node, forward: Option<nat>)
    requires Ordered(s, n) && n.family == Producer && Insert(z, s, n, forward).Some?
    ensures var s' := Insert(z, s, n, forward).value.0;
            SameNodes(s, s') && TakenOrNot(z, s, s', n) && s'.execution == s.execution
  {
    hide SvbAt;
  }

  lemma IssueMoves(z: Sizes, s: State, n: Node, lsq: bool, allowed: bool)
    requires Ordered(s, n) && Issue(z, s, n, lsq, allowed).Some?
    ensures var s' := Issue(z, s, n, lsq, allowed).value.0;
            SameNodes(s, s') && TakenOrNot(z, s, s', n) && s'.execution == s.execution
  {
    hide SabDependency, Insert, Source;
    if n.family == Producer && s.producers[n.id].kind == LD_PROD {
      var s1 := s.(status := s.status[n.id := Source(s, n.id, lsq)]);
      if allowed { InsertMoves(z, s1, n, SabDependency(s, s.producers[n.id].addr, s.producers[n.id].pos)); }
    } else {
      InsertMoves(z, s, n, None);
    }
  }

  lemma ExecuteMoves(s: State, n: Node)
    requires Ordered(s, n) && Execute(s, n).Some?
    ensures var s' := Execute(s, n).value;
            SameNodes(s, s') && s'.issued == s.issued && s'.waiting == s.waiting && s'.execution <= s.execution
  {
    hide ExecuteProducer, ExecuteRecv, ExecuteStval, ExecuteStaddr;
    match n.family
    case Producer => assert SameButExecution(s, ExecuteProducer(s, n).value) by { ProducerRuns(s, n); }
    case Recv => assert SameButExecution(s, ExecuteRecv(s, n).value) by { RecvRuns(s, n); }
    case Stval => assert SameButExecution(s, ExecuteStval(s, n).value) by { StvalRuns(s, n); }
    case Staddr => assert SameButExecution(s, ExecuteStaddr(s, n).value) by { StaddrRuns(s, n); }
  }

  predicate SameButExecution(s: State, s': State) {
    SameNodes(s, s') && s'.issued == s.issued && s'.waiting == s.waiting && s'.execution <= s.execution
  }

  lemma ProducerRuns(s: State, n: Node)
    requires Ordered(s, n) && n.family == Producer && ExecuteProducer(s, n).Some?
    ensures SameButExecution(s, ExecuteProducer(s, n).value)
  {
  }

  lemma RecvRuns(s: State, n: Node)
    requires ExecuteRecv(s, n).Some?
    ensures SameButExecution(s, ExecuteRecv(s, n).value) && ExecuteRecv(s, n).value.status == s.status
  {
  }

  lemma StvalRuns(s: State, n: Node)
    requires ExecuteStval(s, n).Some?
    ensures SameButExecution(s, ExecuteStval(s, n).value)
  {
    hide SvbAt;
  }

  lemma StaddrRuns(s: State, n: Node)
    requires ExecuteStaddr(s, n).Some?
    ensures SameButExecution(s, ExecuteStaddr(s, n).value) && ExecuteStaddr(s, n).value.status == s.status
  {
  }

  lemma StepMoves(z: Sizes, s: State, e: Step)
    requires Inv(z, s) && Enabled(s, e) && Next(z, s, e).Some?
    ensures var s' := Next(z, s, e).value;
            && s'.producers == s.producers + (match e case NewProducer(op) => [op] case _ => [])
            && s'.staddrs == s.staddrs + (match e case NewStaddr(op) => [op] case _ => [])
            && s'.stvals == s.stvals + (if e == NewStval then 1 else 0)
            && s'.recvs == s.recvs + (if e == NewRecv then 1 else 0)
            && s'.cycles == s.cycles + (if e == Tick then 1 else 0)
            && s'.completed == s.completed + (match e case Finished(n) => {n} case _ => {})
  {
    hide Inv, Execute, Issue;
    match e
    case TryIssue(n, lsq, allowed) => IssueMoves(z, s, n, lsq, allowed);
    case Run(n) => ExecuteMoves(s, n);
    case _ =>
  }

  // ---- nodes, time, completion ---------------------------------------------------------------

  /** Nodes, cycles and completed nodes are those the steps have made. */
  ghost predicate Tells(steps: seq<Step>, s: State) {
    && s.producers == ProducersOf(steps) && s.staddrs == StaddrsOf(steps)
    && s.stvals == Count(steps, NewStval) && s.recvs == Count(steps, NewRecv)
    && s.cycles == Ticks(steps)
    && forall n :: n in s.completed <==> Finished(n) in steps
  }

  lemma TellsAfter(steps: seq<Step>, e: Step)
    ensures ProducersOf(steps + [e]) == ProducersOf(steps) + (match e case NewProducer(op) => [op] case _ => [])
    ensures StaddrsOf(steps + [e]) == StaddrsOf(steps) + (match e case NewStaddr(op) => [op] case _ => [])
    ensures forall x :: Count(steps + [e], x) == Count(steps, x) + (if e == x then 1 else 0)
    ensures Ticks(steps + [e]) == Ticks(steps) + (if e == Tick then 1 else 0)
  {
    assert (steps + [e])[..|steps + [e]|-1] == steps;
  }

  lemma StepKeepsTells(z: Sizes, steps: seq<Step>, s: State, e: Step)
    requires Inv(z, s) && Enabled(s, e) && Next(z, s, e).Some? && Tells(steps, s)
    ensures Tells(steps + [e], Next(z, s, e).value)
  {
    hide Inv, Enabled, Next, ProducersOf, StaddrsOf, Count, Ticks;
    StepMoves(z, s, e);
    TellsAfter(steps, e);
  }

  lemma {:induction false} StepsTell(z: Sizes, steps: seq<Step>, s: State)
    requires Reaches(z, steps, Some(s))
    ensures Tells(steps, s)
  {
    hide Inv, Next, Enabled, Tells;
    if |steps| == 0 {
      StartTells(z);
      assert steps == [];
    } else {
      var last := |steps| - 1;
      var s0 :| Reaches(z, steps[..last], Some(s0)) && Enabled(s0, steps[last]) && Some(s) == Next(z, s0, steps[last]);
      RunKeeps(z, steps[..last], Some(s0));
      StepsTell(z, steps[..last], s0);
      StepKeepsTells(z, steps[..last], s0, steps[last]);
      assert steps == steps[..last] + [steps[last]];
    }
  }

  lemma StartTells(z: Sizes)
    ensures Tells([], Init(z))
  {
  }

  /** So a node exists once the step that orders it has been made, and ids have no gaps. */
  lemma OrderedInTurn(z: Sizes, steps: seq<Step>, s: State, n: Node)
    requires Reaches(z, steps, Some(s))
    ensures Ordered(s, n) <==> n.id < (match n.family
                                       case Producer => |ProducersOf(steps)|
                                       case Recv => Count(steps, NewRecv)
                                       case Staddr => |StaddrsOf(steps)|
                                       case Stval => Count(steps, NewStval))
  {
    hide Reaches, Stores, Program;
    RunKeeps(z, steps, Some(s));
    StepsTell(z, steps, s);
  }

  /** A RECV is always taken. */
  lemma RecvIsTaken(z: Sizes, s: State, p: nat, lsq: bool, allowed: bool)
    requires Ordered(s, Node(Recv, p))
    ensures Issue(z, s, Node(Recv, p), lsq, allowed).Some?
    ensures var (s', taken) := Issue(z, s, Node(Recv, p), lsq, allowed).value;
            taken && s' == s.(waiting := s'.waiting, issued := s.issued + {Node(Recv, p)})
            && WaitsUntil(s', Node(Recv, p), s.cycles + z.latency)
  {
  }

  // ---- latency -------------------------------------------------------------------------------

  /** Who waits since when. */
  ghost predicate Timed(z: Sizes, steps: seq<Step>, s: State) {
    && (forall n :: n in s.waiting ==> exists i: nat :: LastTry(steps, i, n))
    && (forall n, i: nat :: n in s.waiting && LastTry(steps, i, n) ==> s.waiting[n] == Ticks(steps[..i]) + z.latency)
  }

  lemma TryAfter(steps: seq<Step>, e: Step, i: nat, n: Node)
    ensures LastTry(steps + [e], i, n) <==>
              if e.TryIssue? && e.node == n then i == |steps| else LastTry(steps, i, n)
  {
    var steps' := steps + [e];
    assert steps'[|steps|] == e && forall k :: 0 <= k < |steps| ==> steps'[k] == steps[k];
    if i < |steps| && LastTry(steps', i, n) {
      forall k | i < k < |steps| ensures !(steps[k].TryIssue? && steps[k].node == n) { assert steps'[k] == steps[k]; }
    }
  }

  lemma StepWaits(z: Sizes, s: State, e: Step, n: Node)
    requires Inv(z, s) && Enabled(s, e) && Next(z, s, e).Some?
    ensures var s' := Next(z, s, e).value;
            && (n in s'.waiting && n in s.waiting ==> s'.waiting[n] == s.waiting[n] && !(e.TryIssue? && e.node == n))
            && (n in s'.waiting && n !in s.waiting ==> e.TryIssue? && e.node == n && s'.waiting[n] == s.cycles + z.latency)
  {
    hide Execute, Issue, Supply, Stores, Program;
    match e
    case TryIssue(m, lsq, allowed) => IssueMoves(z, s, m, lsq, allowed);
    case Run(m) => ExecuteMoves(s, m);
    case _ =>
  }

  lemma StepKeepsTimed(z: Sizes, steps: seq<Step>, s: State, e: Step)
    requires Inv(z, s) && Enabled(s, e) && Next(z, s, e).Some? && Timed(z, steps, s) && s.cycles == Ticks(steps)
    ensures Timed(z, steps + [e], Next(z, s, e).value)
  {
    hide Inv, Enabled, Next, LastTry, Ticks;
    var steps', s' := steps + [e], Next(z, s, e).value;
    forall n | n in s'.waiting
      ensures exists i: nat :: LastTry(steps', i, n)
      ensures forall i: nat :: LastTry(steps', i, n) ==> i < |steps'| && s'.waiting[n] == Ticks(steps'[..i]) + z.latency
    {
      StepWaits(z, s, e, n);
      forall i: nat { TryAfter(steps, e, i, n); }
      if n in s.waiting {
        var i: nat :| LastTry(steps, i, n);
        assert LastTry(steps', i, n);
      } else {
        assert LastTry(steps', |steps|, n);
      }
      forall i: nat | LastTry(steps', i, n) ensures i < |steps'| && s'.waiting[n] == Ticks(steps'[..i]) + z.latency {
        TryInside(steps', i, n);
        assert i <= |steps| && steps'[..i] == steps[..i];
        if n in s.waiting { TryInside(steps, i, n); } else { assert steps[..|steps|] == steps; }
      }
    }
  }

  lemma TryInside(steps: seq<Step>, i: nat, n: Node)
    requires LastTry(steps, i, n)
    ensures i < |steps|
  {
  }

  lemma {:induction false} RunIsTimed(z: Sizes, steps: seq<Step>, s: State)
    requires Reaches(z, steps, Some(s))
    ensures Timed(z, steps, s)
  {
    hide Inv, Next, Enabled, Timed;
    if |steps| == 0 {
      NobodyWaits(z);
      assert steps == [];
    } else {
      var last := |steps| - 1;
      var s0 :| Reaches(z, steps[..last], Some(s0)) && Enabled(s0, steps[last]) && Some(s) == Next(z, s0, steps[last]);
      RunKeeps(z, steps[..last], Some(s0));
      RunIsTimed(z, steps[..last], s0);
      StepsTell(z, steps[..last], s0);
      StepKeepsTimed(z, steps[..last], s0, steps[last]);
      assert steps == steps[..last] + [steps[last]];
    }
  }

  lemma NobodyWaits(z: Sizes)
    ensures Timed(z, [], Init(z))
  {
  }

  /** A node that was taken in cycle T enters the execution set with the first wake-up after
      cycle T + latency, and with no earlier one. */
  lemma WakesAfterLatency(z: Sizes, steps: seq<Step>, s: State, n: Node)
    returns (taken: nat)
    requires Reaches(z, steps, Some(s)) && n in s.waiting
    ensures LastTry(steps, taken, n)
    ensures n in Wake(s).execution <==> Ticks(steps) > Ticks(steps[..taken]) + z.latency
    ensures n in Wake(s).waiting <==> Ticks(steps) <= Ticks(steps[..taken]) + z.latency
  {
    hide Reaches, Inv, LastTry, Ticks, Wake;
    RunIsTimed(z, steps, s);
    StepsTell(z, steps, s);
    taken :| LastTry(steps, taken, n);
    TryInside(steps, taken, n);
    WakeAnswers(z, steps, s, n, s.waiting[n]);
  }

  // ---- data that has come back ---------------------------------------------------------------

  predicate IsIssued(s: State, p: nat) { Node(Producer, p) in s.issued }

  /** Whose data has come back. */
  ghost predicate Returned(steps: seq<Step>, s: State) {
    && (forall p: nat :: Return(p) in steps ==>
          && p < |s.producers| && IsIssued(s, p)
          && (s.producers[p].kind == ATOMIC ==> Node(Producer, p) !in s.waiting && Node(Producer, p) !in s.execution))
    && (forall p: nat :: p < |s.status| && IsIssued(s, p) && FromMemory(s.status[p]) ==>
          (s.status[p] == RETURNED <==> Return(p) in steps))
  }

  /** How a step may move the status of producer p. */
  predicate StatusMoves(s: State, s': State, e: Step, p: nat)
    requires p < |s.status| && p < |s'.status| && p < |s.producers|
  {
    || s'.status[p] == s.status[p]
    || !FromMemory(s'.status[p])
    || (e == Return(p) && s'.status[p] == RETURNED)
    || (s'.status[p] == PENDING && e.TryIssue? && e.node == Node(Producer, p))
    || (s'.status[p] == PENDING && s.producers[p].kind == ATOMIC && e == Run(Node(Producer, p)))
  }

  lemma InsertStatus(z: Sizes, s: State, n: Node, forward: Option<nat>, p: nat)
    requires Ordered(s, n) && Insert(z, s, n, forward).Some? && p < |s.status|
    ensures var s' := Insert(z, s, n, forward).value.0;
            |s'.status| == |s.status| && (s'.status[p] == s.status[p] || s'.status[p] == NONE)
  {
    hide SvbAt;
  }

  lemma NotReturnedYet(z: Sizes, s: State, p: nat)
    requires Inv(z, s) && p < |s.status| && !IsIssued(s, p)
    ensures p < |s.producers| && (s.producers[p].kind != LD_PROD ==> s.status[p] != RETURNED)
  {
    hide Stores, Program, Forwards;
    assert StatusAt(s, p);
  }

  lemma IssueStatus(z: Sizes, s: State, n: Node, lsq: bool, allowed: bool, p: nat)
    requires Inv(z, s) && Ordered(s, n) && n !in s.issued && Issue(z, s, n, lsq, allowed).Some? && p < |s.status|
    ensures var s' := Issue(z, s, n, lsq, allowed).value.0;
            && p < |s.producers| && |s'.status| == |s.status|
            && StatusMoves(s, s', TryIssue(n, lsq, allowed), p)
            && (n == Node(Producer, p) && n in s'.issued ==> s'.status[p] != RETURNED)
  {
    CountsAre(z, s);
    if n == Node(Producer, p) { NotReturnedYet(z, s, p); }
    hide Inv, SabDependency, Insert;
    if n.family == Producer && s.producers[n.id].kind == LD_PROD {
      var s1 := s.(status := s.status[n.id := Source(s, n.id, lsq)]);
      if allowed { InsertStatus(z, s1, n, SabDependency(s, s.producers[n.id].addr, s.producers[n.id].pos), p); }
    } else {
      InsertStatus(z, s, n, None, p);
    }
  }

  lemma ProducerStatus(s: State, n: Node, p: nat)
    requires Ordered(s, n) && n.family == Producer && ExecuteProducer(s, n).Some? && p < |s.status| == |s.producers|
    ensures var s' := ExecuteProducer(s, n).value;
            |s'.status| == |s.status| && StatusMoves(s, s', Run(n), p)
  {
  }

  lemma StvalStatus(s: State, n: Node, p: nat)
    requires ExecuteStval(s, n).Some? && p < |s.status|
    ensures var s' := ExecuteStval(s, n).value;
            |s'.status| == |s.status| && (s'.status[p] == s.status[p] || s'.status[p] == FWD_COMPLETE)
  {
    hide SvbAt;
  }

  lemma ExecuteStatus(z: Sizes, s: State, n: Node, p: nat)
    requires Inv(z, s) && n in s.execution && Ordered(s, n) && Execute(s, n).Some? && p < |s.status|
    ensures var s' := Execute(s, n).value;
            && p < |s.producers| && |s'.status| == |s.status| && StatusMoves(s, s', Run(n), p)
  {
    hide Inv, ExecuteProducer, ExecuteRecv, ExecuteStval, ExecuteStaddr;
    CountsAre(z, s);
    match n.family
    case Producer => ProducerStatus(s, n, p);
    case Recv => RecvRuns(s, n);
    case Stval => StvalStatus(s, n, p);
    case Staddr => StaddrRuns(s, n);
  }

  lemma StepStatus(z: Sizes, s: State, e: Step, p: nat)
    requires Inv(z, s) && Enabled(s, e) && Next(z, s, e).Some? && p < |s.status|
    ensures var s' := Next(z, s, e).value;
            && p < |s.producers| && p < |s'.status| && StatusMoves(s, s', e, p)
            && (IsIssued(s, p) ==> IsIssued(s', p))
            && (e == Return(p) ==> s'.status[p] == RETURNED)
            && (IsIssued(s', p) && !IsIssued(s, p) ==> e.TryIssue? && e.node == Node(Producer, p) && s'.status[p] != RETURNED)
            && (Node(Producer, p) !in s.waiting && Node(Producer, p) !in s.execution && IsIssued(s, p) ==>
                  Node(Producer, p) !in s'.waiting && Node(Producer, p) !in s'.execution)
  {
    hide Execute, Issue, Inv, SabDependency;
    StepMoves(z, s, e);
    InvParts(z, s);
    match e
    case TryIssue(n, lsq, allowed) =>
      IssueMoves(z, s, n, lsq, allowed);
      IssueStatus(z, s, n, lsq, allowed, p);
    case Run(n) =>
      ExecuteMoves(s, n);
      ExecuteStatus(z, s, n, p);
    case _ => OtherStatus(z, s, e, p);
  }

  lemma OtherStatus(z: Sizes, s: State, e: Step, p: nat)
    requires Inv(z, s) && Enabled(s, e) && Next(z, s, e).Some? && p < |s.status| && !e.TryIssue? && !e.Run?
    ensures var s' := Next(z, s, e).value;
            && p < |s.producers| && p < |s'.status| && StatusMoves(s, s', e, p) && s'.issued == s.issued
            && (e == Return(p) ==> s'.status[p] == RETURNED)
            && (Node(Producer, p) !in s.waiting && Node(Producer, p) !in s.execution ==>
                  Node(Producer, p) !in s'.waiting && Node(Producer, p) !in s'.execution)
  {
    hide Stores, Program, Forwards, Values, Places;
  }

  lemma StepKeepsReturned(z: Sizes, steps: seq<Step>, s: State, e: Step)
    requires Inv(z, s) && Enabled(s, e) && Next(z, s, e).Some? && Inv(z, Next(z, s, e).value) && Returned(steps, s)
    ensures Returned(steps + [e], Next(z, s, e).value)
  {
    hide Next, Inv;
    var steps', s' := steps + [e], Next(z, s, e).value;
    CountsAre(z, s);
    CountsAre(z, s');
    StepMoves(z, s, e);
    forall p: nat | p < |s'.producers|
      ensures Return(p) in steps' ==> IsIssued(s', p) && (s'.producers[p].kind == ATOMIC ==> Node(Producer, p) !in s'.waiting && Node(Producer, p) !in s'.execution)
      ensures IsIssued(s', p) && FromMemory(s'.status[p]) ==> (s'.status[p] == RETURNED <==> Return(p) in steps')
    {
      if p < |s.status| {
        StepStatus(z, s, e, p);
        ReturnedHere(z, s, e, p);
      } else {
        NotIssuedYet(z, s, e, p);
      }
    }
  }

  /** Data comes back for an atomic only after it has executed; a node issues and executes once. */
  lemma ReturnedHere(z: Sizes, s: State, e: Step, p: nat)
    requires Inv(z, s) && Enabled(s, e) && p < |s.status|
    ensures p < |s.producers|
    ensures e == Return(p) ==> IsIssued(s, p) && (s.producers[p].kind == ATOMIC ==> Node(Producer, p) !in s.waiting && Node(Producer, p) !in s.execution)
    ensures e.TryIssue? && e.node == Node(Producer, p) ==> !IsIssued(s, p)
    ensures e == Run(Node(Producer, p)) ==> Node(Producer, p) in s.execution
  {
    hide Stores, Program, Forwards;
    assert StatusAt(s, p);
  }

  lemma NotIssuedYet(z: Sizes, s: State, e: Step, p: nat)
    requires Inv(z, s) && Enabled(s, e) && Next(z, s, e).Some? && p >= |s.status|
    ensures !IsIssued(s, p) && !IsIssued(Next(z, s, e).value, p)
    ensures e != Return(p)
  {
    hide Supply, Stores, Program, Issue, Execute;
    match e
    case TryIssue(n, lsq, allowed) => IssueMoves(z, s, n, lsq, allowed);
    case Run(n) => ExecuteMoves(s, n);
    case _ =>
  }

  lemma {:induction false} RunReturns(z: Sizes, steps: seq<Step>, s: State)
    requires Reaches(z, steps, Some(s))
    ensures Returned(steps, s)
  {
    hide Inv, Next, Enabled, Returned;
    if |steps| == 0 {
      NothingReturned(z);
      assert steps == [];
    } else {
      var last := |steps| - 1;
      var s0 :| Reaches(z, steps[..last], Some(s0)) && Enabled(s0, steps[last]) && Some(s) == Next(z, s0, steps[last]);
      RunKeeps(z, steps[..last], Some(s0));
      RunKeeps(z, steps, Some(s));
      RunReturns(z, steps[..last], s0);
      StepKeepsReturned(z, steps[..last], s0, steps[last]);
      assert steps == steps[..last] + [steps[last]];
    }
  }

  lemma NothingReturned(z: Sizes)
    ensures Returned([], Init(z))
  {
  }

  /** An entry of the terminal load buffer leaves for the communication queue exactly when its
      data has come back. */
  lemma LeavesWhenReturned(z: Sizes, steps: seq<Step>, s: State, p: nat)
    requires Reaches(z, steps, Some(s)) && p in s.tl
    ensures p < |s.status| && Drain(s, p).Some?
    ensures var s' := Drain(s, p).value;
            && (Leaves(s, s', Node(Producer, p)) <==> Return(p) in steps)
            && (Return(p) in steps ==> s'.tl == s.tl - {p} && s'.commQ == s.commQ + {p} && s'.status[p] == NONE)
            && (Return(p) !in steps ==> s' == s)
  {
    hide Reaches, Drain, Leaves;
    RunReturns(z, steps, s);
    RunKeeps(z, steps, Some(s));
    InBufferIsIssued(z, s, p);
    MemoryAnswers(z, steps, s, p);
    hide Inv;
  }

  lemma InBufferIsIssued(z: Sizes, s: State, p: nat)
    requires Inv(z, s) && p in s.tl
    ensures p < |s.status| && IsIssued(s, p) && FromMemory(s.status[p])
  {
    hide Stores, Program, Forwards, Accounts, StatusOk;
    assert Terminal(s, p);
  }
}
