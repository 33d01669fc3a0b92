/** What the steps of a run alone tell of the window: which operations are done, and how far ahead
    of the oldest one issuing may run. */
module LoadStoreHistory {
  import opened LoadStore
  import opened LoadStoreProofs
  import opened LoadStorePromises
  import opened LoadStoreAnswers

  lemma FinishIs(c: Core, s: State, d: Op)
    requires Window(s)
    ensures Finish(c, s, d) == s.(completed := s.completed + {d})
  {
    NothingSpeculated(s, d);
    assert s.issued - {} == s.issued && (s.completed + {d}) - {} == s.completed + {d} && s.speculated - {} == s.speculated;
  }

  predicate Issues(s: State, s': State, d: Op) {
    s'.issued == s.issued + {d} && s'.canExit == if d.kind == STADDR then s.canExit + {d} else s.canExit
  }

  lemma StepMoves(c: Core, s: State, e: Step)
    requires Inv(s) && Enabled(c, s, e)
    ensures var s' := Next(c, s, e);
            && s'.completed == s.completed + (match e case Complete(d) => {d} case _ => {})
            && s'.start >= s.start && (s' == s || s.order <= s'.order)
            && ((s'.issued == s.issued && s'.canExit == s.canExit) || (e.TryIssue? && Issues(s, s', s.order[e.i])))
  {
    hide Queues, InMemoryOrder, MayIssue, Retire, CheckSize, InsertAll, Count, Finish, InWindow, PassesBarriers;
    match e
    case Process => RetireAnswers(s);
    case Complete(d) => FinishIs(c, s, d);
    case _ =>
  }

  /** An operation has completed once it was completed, and may leave before that exactly if it is
      a STADDR that has issued. */
  lemma {:induction false} StepsTell(c: Core, steps: seq<Step>, s: State)
    requires Reaches(c, steps, s)
    ensures forall d :: d in s.completed <==> Complete(d) in steps
    ensures forall d :: d in s.canExit <==> d in s.issued && d.kind == STADDR
  {
    hide Inv, Next, Enabled;
    if |steps| > 0 {
      var last := |steps| - 1;
      var s0 :| Reaches(c, steps[..last], s0) && Enabled(c, s0, steps[last]) && s == Next(c, s0, steps[last]);
      RunKeeps(c, steps[..last], s0);
      StepsTell(c, steps[..last], s0);
      StepMoves(c, s0, steps[last]);
      assert steps == steps[..last] + [steps[last]];
    }
  }

  /** The operation may leave: it has completed, or is a STADDR that has issued. */
  predicate IsOver(steps: seq<Step>, s: State, d: Op) {
    Complete(d) in steps || (d.kind == STADDR && d in s.issued)
  }

  /** What process() lets leave: the operations in front up to the first that is not over. */
  lemma LeavesWhenOver(c: Core, steps: seq<Step>, s: State)
    requires Reaches(c, steps, s)
    ensures var s' := Next(c, s, Process);
            && s.start <= s'.start <= |s.order|
            && (forall i :: s.start <= i < s'.start ==> IsOver(steps, s, s.order[i]))
            && (s'.start < |s.order| ==> !IsOver(steps, s, s.order[s'.start]))
            && (forall d :: d in s'.left <==> d in s.order[..s'.start])
  {
    hide Retire;
    RunKeeps(c, steps, s);
    hide Queues, InMemoryOrder, Reaches;
    StepsTell(c, steps, s);
    RetireAnswers(s);
    var s' := Retire(s);
    assert s.order[..s'.start] == s.order[..s.start] + s.order[s.start..s'.start];
    forall i | s.start <= i < s'.start ensures IsOver(steps, s, s.order[i]) { assert Done(s, s.order[i]); }
    if s'.start < |s.order| { assert !Done(s, s.order[s'.start]); }
  }

  // ---- the window ------------------------------------------------------------------------------

  predicate Limited(c: Core, s: State) {
    c.window >= 1 && |s.order| + c.window <= 0x1_0000_0000_0000_0000
  }

  /** Issued operations lie at most a window ahead of the oldest. */
  predicate InFront(c: Core, s: State) {
    forall i :: 0 <= i < |s.order| && s.order[i] in s.issued ==> i < s.start + c.window
  }

  lemma InWindowIs(c: Core, s: State, i: nat)
    requires Limited(c, s) && i < |s.order| && s.start <= |s.order|
    ensures InWindow(c, s, i) <==> if s.start == 0 then i == 0 else s.start <= i < s.start + c.window
  {
  }

  lemma {:induction false} RunInFront(c: Core, steps: seq<Step>, s: State)
    requires Reaches(c, steps, s) && Limited(c, s)
    ensures InFront(c, s)
  {
    hide Inv, Next, InFront;
    if |steps| == 0 {
      StartInFront(c);
    } else {
      var last := |steps| - 1;
      var s0 :| Reaches(c, steps[..last], s0) && Enabled(c, s0, steps[last]) && s == Next(c, s0, steps[last]);
      RunKeeps(c, steps[..last], s0);
      StepMoves(c, s0, steps[last]);
      RunInFront(c, steps[..last], s0);
      RunKeeps(c, steps, s);
      StepInFront(c, s0, steps[last]);
    }
  }

  lemma StartInFront(c: Core)
    ensures InFront(c, START)
  {
  }

  lemma StepInFront(c: Core, s: State, e: Step)
    requires Inv(s) && Inv(Next(c, s, e)) && Enabled(c, s, e) && Limited(c, s) && InFront(c, s)
    ensures InFront(c, Next(c, s, e))
  {
    hide Queues, InMemoryOrder, Next, PassesBarriers, InWindow, WindowEnd;
    StepMoves(c, s, e);
    var s' := Next(c, s, e);
    forall i | 0 <= i < |s'.order| && s'.order[i] in s'.issued ensures i < s'.start + c.window {
      if e.TryIssue? { InWindowIs(c, s, e.i); }
      WhereIssued(s, s', i);
    }
  }

  lemma Distinct(q: seq<Op>, i: nat, k: nat)
    requires Increasing(q) && i < |q| && k < |q| && !Less(q[i], q[k]) && !Less(q[k], q[i])
    ensures i == k
  {
  }

  lemma Before(q: seq<Op>, i: nat, k: nat)
    requires Increasing(q) && i < |q| && k < |q| && Less(q[k], q[i])
    ensures k < i
  {
  }

  /** An operation of the old order stands where it stood. */
  lemma WhereIssued(s: State, s': State, i: nat)
    requires Window(s) && s.order <= s'.order && Increasing(s'.order) && i < |s'.order| && s'.order[i] in s.order
    ensures i < |s.order| && s'.order[i] == s.order[i]
  {
    var k :| 0 <= k < |s.order| && s.order[k] == s'.order[i];
    assert s'.order[k] == s.order[k];
    Distinct(s'.order, i, k);
  }

  /** In every run no operation issues more than a window ahead of the oldest that has not left. */
  lemma IssuesInWindow(c: Core, steps: seq<Step>, s: State, i: nat)
    requires Reaches(c, steps, s) && Limited(c, s) && i < |s.order| && s.order[i] in s.issued
    ensures i < s.start + c.window
  {
    RunInFront(c, steps, s);
    hide Reaches;
  }

  /** Whatever lies in the window gets its turn as soon as its address is known and no older
      barrier is open; a barrier also waits for everything older. Before the first operation has
      left only the first may issue. */
  lemma TurnInWindow(c: Core, steps: seq<Step>, s: State, i: nat)
    requires Reaches(c, steps, s) && Limited(c, s) && i < |s.order| && s.order[i] !in s.issued && !Open(s, s.order[i])
    ensures Enabled(c, s, TryIssue(i)) <==>
              && (if s.start == 0 then i == 0 else i < s.start + c.window)
              && (forall k :: 0 <= k < i && s.order[k].kind == BARRIER ==> Complete(s.order[k]) in steps)
              && (s.order[i].kind == BARRIER ==> forall k :: s.start <= k < i ==> Complete(s.order[k]) in steps)
  {
    RunKeeps(c, steps, s);
    StepsTell(c, steps, s);
    hide Reaches, Queues, InMemoryOrder, InWindow, WindowEnd;
    InWindowIs(c, s, i);
    NotLeft(s, i);
    OlderIsBefore(s, i);
    if InWindow(c, s, i) { EndIs(c, s, i); }
  }

  lemma NotLeft(s: State, i: nat)
    requires Window(s) && i < |s.order| && s.order[i] !in s.issued
    ensures i >= s.start
  {
    assert forall k :: 0 <= k < s.start ==> s.order[k] == s.order[..s.start][k];
  }

  lemma OlderIsBefore(s: State, i: nat)
    requires Window(s) && i < |s.order|
    ensures forall b :: b in s.order && Less(b, s.order[i]) ==> exists k :: 0 <= k < i && s.order[k] == b
    ensures forall k :: 0 <= k < i ==> Less(s.order[k], s.order[i])
  {
    forall b | b in s.order && Less(b, s.order[i]) ensures exists k :: 0 <= k < i && s.order[k] == b {
      var k :| 0 <= k < |s.order| && s.order[k] == b;
      Before(s.order, i, k);
    }
  }

  /** Up to a place inside the window the window's end cuts nothing off. */
  lemma EndIs(c: Core, s: State, i: nat)
    requires Limited(c, s) && i < |s.order| && s.start <= |s.order| && InWindow(c, s, i)
    ensures i <= WindowEnd(c.window, s.start)
  {
  }
}
