/** Barriers in the issue window: what a fence holds back in every run, and when it does not. */
module LoadStoreFences {
  import opened LoadStore
  import opened LoadStoreProofs
  import opened LoadStorePromises

  /** Nothing younger issues before a barrier has completed, and (in a window) a barrier does not
      issue before everything older has. */
  ghost predicate Fenced(c: Core, s: State) {
    && (forall b, d :: b in s.order && b.kind == BARRIER && d in s.issued && Less(b, d) ==> b in s.completed)
    && (forall b, j :: b in s.order && b.kind == BARRIER && 0 <= j < |s.log| && Less(b, s.log[j]) ==> b in s.log[..j])
    && (c.window != -1 ==>
          forall e, j :: e in s.order && 0 <= j < |s.log| && s.log[j].kind == BARRIER && Less(e, s.log[j]) ==> e in s.log[..j])
  }

  /** An older operation stands further to the front. */
  lemma OlderIndex(order: seq<Op>, e: Op, i: nat) returns (k: nat)
    requires Increasing(order) && i < |order| && e in order && Less(e, order[i])
    ensures k < i && order[k] == e
  {
    k :| 0 <= k < |order| && order[k] == e;
    if i <= k { LaterIsNotOlder(order, i, k); }
  }

  lemma LaterIsNotOlder(order: seq<Op>, i: nat, k: nat)
    requires Increasing(order) && i <= k < |order|
    ensures !Less(order[k], order[i])
  {
    assert i < k ==> Less(order[i], order[k]);
  }

  lemma OlderHaveIssued(c: Core, s: State, i: nat, e: Op)
    requires Inv(s) && Enabled(c, s, TryIssue(i)) && s.order[i].kind == BARRIER && c.window != -1
    requires e in s.order && Less(e, s.order[i])
    ensures e in s.issued
  {
    var k := OlderIndex(s.order, e, i);
    if k < s.start {
      assert s.order[..s.start][k] == e;
      assert e in s.left;
    } else {
      assert s.order[k] in s.completed;
    }
  }

  lemma IssueKeepsFences(c: Core, s: State, i: nat)
    requires Inv(s) && Fenced(c, s) && Enabled(c, s, TryIssue(i))
    ensures Fenced(c, Issue(c, s, s.order[i]))
  {
    var d := s.order[i];
    if MayIssue(c, s, d) {
      hide MayIssue, CheckLoad, Queues, InMemoryOrder;
      var s' := Issue(c, s, d);
      assert s'.log == s.log + [d] && s'.order == s.order && s'.completed == s.completed && s'.issued == s.issued + {d};
      forall b, j | b in s.order && b.kind == BARRIER && 0 <= j < |s'.log| && Less(b, s'.log[j]) ensures b in s'.log[..j] {
        if j < |s.log| { assert s'.log[..j] == s.log[..j]; } else { assert s'.log[..j] == s.log && b in s.completed; }
      }
      if c.window != -1 {
        forall e, j | e in s.order && 0 <= j < |s'.log| && s'.log[j].kind == BARRIER && Less(e, s'.log[j]) ensures e in s'.log[..j] {
          if j < |s.log| {
            assert s'.log[..j] == s.log[..j];
          } else {
            OlderHaveIssued(c, s, i, e);
            assert s'.log[..j] == s.log;
          }
        }
      }
    }
  }

  lemma CreateKeepsFences(c: Core, s: State, ds: seq<Op>, produced: nat)
    requires Inv(s) && Fenced(c, s) && Enabled(c, s, Create(ds, produced))
    ensures Fenced(c, NewBlock(c, s, ds, produced))
  {
    hide CheckSize, InsertAll, Queues, InMemoryOrder;
    var s' := NewBlock(c, s, ds, produced);
    forall b, d | b in s'.order && d in s.issued && Less(b, d) ensures b in s.order {
      assert d in s.order;
    }
    forall b, j | b in s'.order && 0 <= j < |s.log| && Less(b, s.log[j]) ensures b in s.order {
      assert s.log[j] in s.log && s.log[j] in s.order;
    }
  }

  lemma {:induction false} RetireFrame(s: State)
    ensures Retire(s).order == s.order && Retire(s).log == s.log && Retire(s).issued == s.issued && Retire(s).completed == s.completed
    decreases |s.order| - s.start
  {
    if s.start < |s.order| && (s.order[s.start] in s.completed || s.order[s.start] in s.canExit) {
      RetireFrame(s.(start := s.start + 1, left := s.left + {s.order[s.start]}));
    }
  }

  lemma StepKeepsFences(c: Core, s: State, e: Step)
    requires Inv(s) && Fenced(c, s) && Enabled(c, s, e)
    ensures Fenced(c, Next(c, s, e))
  {
    match e
    case Create(ds, produced) => CreateKeepsFences(c, s, ds, produced);
    case Resolve(d) =>
    case TryIssue(i) => IssueKeepsFences(c, s, i);
    case Complete(d) => assert Misspeculated(s, d) == {};
    case Process => RetireFrame(s);
  }

  lemma {:induction false} RunKeepsFences(c: Core, steps: seq<Step>, s: State)
    requires Reaches(c, steps, s)
    ensures Inv(s) && Fenced(c, s)
  {
    hide Inv, Fenced, Next, Enabled;
    RunKeeps(c, steps, s);
    if |steps| == 0 {
      NothingFenced(c);
    } else {
      var last := |steps| - 1;
      var s0 :| Reaches(c, steps[..last], s0) && Enabled(c, s0, steps[last]) && s == Next(c, s0, steps[last]);
      RunKeepsFences(c, steps[..last], s0);
      StepKeepsFences(c, s0, steps[last]);
    }
  }

  lemma NothingFenced(c: Core)
    ensures Fenced(c, START)
  {
  }

  // ---- what a barrier promises -------------------------------------------------------

  /** In every run: what is younger than a barrier issues after it. */
  lemma YoungerWait(c: Core, steps: seq<Step>, s: State, b: Op, j: nat)
    requires Reaches(c, steps, s) && b in s.order && b.kind == BARRIER
    requires j < |s.log| && Less(b, s.log[j])
    ensures b in s.log[..j] && b in s.completed
  {
    RunKeepsFences(c, steps, s);
    assert s.log[j] in s.log;
  }

  /** When a barrier completes it is the first of those that have not: the assert of
      finishNode() does not fail. */
  lemma FirstToFinish(c: Core, steps: seq<Step>, s: State, d: Op)
    requires Reaches(c, steps, s) && Enabled(c, s, Complete(d)) && d.kind == BARRIER
    ensures forall b :: b in s.order && b.kind == BARRIER && b !in s.completed ==> b == d || Less(d, b)
  {
    RunKeepsFences(c, steps, s);
    assert d in s.order;
    forall b | b in s.order && b.kind == BARRIER && b !in s.completed && b != d ensures Less(d, b) {
      var i, k :| 0 <= i < |s.order| && 0 <= k < |s.order| && s.order[i] == d && s.order[k] == b;
      assert k < i ==> Less(b, d);
      assert i < k ==> Less(d, b);
    }
  }

  /** No barrier of any run issues before something older. */
  ghost predicate OlderComeFirst(c: Core) {
    forall steps, s, e, j :: Reaches(c, steps, s) && e in s.order && 0 <= j < |s.log| && s.log[j].kind == BARRIER && Less(e, s.log[j]) ==>
      e in s.log[..j]
  }

  /** A barrier waits for everything older if and only if the window is limited. */
  lemma BarriersWaitInWindows(c: Core)
    requires c.size >= -1
    ensures OlderComeFirst(c) <==> c.window != -1
  {
    if c.window != -1 {
      forall steps, s, e, j | Reaches(c, steps, s) && e in s.order && 0 <= j < |s.log| && s.log[j].kind == BARRIER && Less(e, s.log[j])
        ensures e in s.log[..j]
      {
        RunKeepsFences(c, steps, s);
      }
    } else {
      var steps := BarrierOvertakes(c);
      assert S7.log[2].kind == BARRIER && S7.log[..2] == [P, Q] && OLDER == S7.order[2];
      assert Reaches(c, steps, S7) && OLDER in S7.order && Less(OLDER, S7.log[2]);
    }
  }

  const P := Op(0, 0, OTHER, 0)
  const Q := Op(0, 1, OTHER, 0)
  const OLDER := Op(0, 2, OTHER, 0)
  const FENCE := Op(0, 3, BARRIER, 0)

  const S1 := START.(order := [P, Q, OLDER, FENCE])
  const S2 := S1.(issued := {P}, log := [P])
  const S3 := S2.(issued := {P, Q}, log := [P, Q])
  const S4 := S3.(completed := {P})
  const S5 := S4.(completed := {P, Q})
  const S6 := S5.(start := 2, left := {P, Q})
  const S7 := S6.(issued := {P, Q, FENCE}, log := [P, Q, FENCE])

  ghost predicate Leads(c: Core, s: State, e: Step, s': State) {
    Enabled(c, s, e) && Next(c, s, e) == s'
  }

  /** Without a limit, once two operations have left, window_end lies before everything that is
      left: a barrier overtakes the operation in front of it. */
  lemma BarrierOvertakes(c: Core) returns (steps: seq<Step>)
    requires c.size >= -1 && c.window == -1
    ensures Reaches(c, steps, S7)
  {
    hide *;
    Nothing(c);
    CreateFour(c);
    var s1 := Longer(c, [], START, Create([P, Q, OLDER, FENCE], 0), S1);
    FirstTwo(c);
    var s2 := Longer(c, s1, S1, TryIssue(0), S2);
    var s3 := Longer(c, s2, S2, TryIssue(1), S3);
    BothComplete(c);
    var s4 := Longer(c, s3, S3, Complete(P), S4);
    var s5 := Longer(c, s4, S4, Complete(Q), S5);
    TwoLeave(c);
    var s6 := Longer(c, s5, S5, Process, S6);
    FenceGoes(c);
    steps := Longer(c, s6, S6, TryIssue(3), S7);
  }

  lemma Nothing(c: Core)
    ensures Reaches(c, [], START)
  {
  }

  lemma CreateFour(c: Core)
    requires c.size >= -1
    ensures Leads(c, START, Create([P, Q, OLDER, FENCE], 0), S1)
  {
    NoMemory([P, Q, OLDER, FENCE]);
    hide InsertAll, Count;
  }

  lemma {:induction false} NoMemory(ds: seq<Op>)
    requires forall d :: d in ds ==> !d.IsLoad() && !d.IsStore()
    ensures InsertAll(EMPTY, ds) == EMPTY && Count(ds, {LD}) == 0 && Count(ds, {ST, STADDR}) == 0
  {
    if |ds| > 0 { NoMemory(ds[..|ds|-1]); }
  }

  lemma FirstTwo(c: Core)
    requires c.window == -1
    ensures Leads(c, S1, TryIssue(0), S2) && Leads(c, S2, TryIssue(1), S3)
  {
    TryOther(c, S1, 0, S2);
    TryOther(c, S2, 1, S3);
  }

  lemma FenceGoes(c: Core)
    requires c.window == -1
    ensures Leads(c, S6, TryIssue(3), S7)
  {
    TryOther(c, S6, 3, S7);
  }

  /** An operation that is no memory access issues when the window and the barriers let it. */
  lemma TryOther(c: Core, s: State, i: nat, s': State)
    requires c.window == -1 && s.order == [P, Q, OLDER, FENCE] && i < 4 && s.order[i] !in s.issued
    requires s.q.openLd == {} && s.q.openSt == {}
    requires s.order[i].kind == BARRIER ==> WindowEnd(c.window, s.start) < s.start
    requires s' == s.(issued := s'.issued, log := s'.log)
    requires s'.issued == s.issued + {s.order[i]} && s'.log == s.log + [s.order[i]]
    ensures Leads(c, s, TryIssue(i), s')
  {
    assert forall b :: b in s.order && b.kind == BARRIER ==> b == FENCE;
    assert i < 3 ==> !Less(FENCE, s.order[i]);
  }

  lemma BothComplete(c: Core)
    ensures Leads(c, S3, Complete(P), S4) && Leads(c, S4, Complete(Q), S5)
  {
    assert {P} + {Q} == {P, Q};
  }

  lemma TwoLeave(c: Core)
    ensures Leads(c, S5, Process, S6)
  {
    var s1 := S5.(start := 1, left := {P});
    assert Retire(S6) == S6;
    assert {P} + {Q} == {P, Q};
    assert Retire(s1) == Retire(S6);
    assert {} + {P} == {P};
    assert Retire(S5) == Retire(s1);
  }

  lemma Longer(c: Core, steps: seq<Step>, s: State, e: Step, s': State) returns (more: seq<Step>)
    requires Reaches(c, steps, s) && Leads(c, s, e, s')
    ensures Reaches(c, more, s')
  {
    hide Next, Enabled;
    more := steps + [e];
    assert more[..|more|-1] == steps;
  }
}
