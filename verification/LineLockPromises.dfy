/** What the cache-line lock promises in every run. */
module LineLockPromises {
  import opened Wrappers
  import opened LineLock
  import opened LineLockProofs

  /** No null or freed acknowledgement counter is ever used. */
  lemma CountersAreAlive(cores: nat, steps: seq<Step>, s: Option<State>)
    requires Reaches(cores, steps, s)
    ensures s.Some?
  {
    RunKeeps(cores, steps, s);
  }

  predicate AsksForLine(m: Msg, line: nat) { m.line == line }

  /** While a line is locked only its holder accesses the cache for it, and only when every
      core has evicted the line since this very grant. */
  lemma OnlyTheHolderAccesses(cores: nat, steps: seq<Step>, s: State, t: Txn)
    requires Reaches(cores, steps, Some(s)) && t in s.pending
    ensures Execute(cores, s, t).Some?
    ensures Execute(cores, s, t).value.1 && IsLocked(s, t.node) ==>
      && s.holder[t.node.line] == t.node
      && (forall k, i :: 0 <= k < |s.evictions| && 0 <= i < |s.evictions[k]| ==> !AsksForLine(s.evictions[k][i], t.node.line))
      && (forall k, i :: 0 <= k < |s.toL2| && 0 <= i < |s.toL2[k]| ==> !AsksForLine(s.toL2[k][i], t.node.line))
    ensures Execute(cores, s, t).value.1 ==> t.node in Execute(cores, s, t).value.0.accessed
  {
    hide InFlight, Locks;
    RunKeeps(cores, steps, Some(s));
    ExecuteKeeps(cores, s, t);
    if Execute(cores, s, t).value.1 && IsLocked(s, t.node) {
      NoMessageLeft(cores, s, s.acks[t.node.line]);
    }
  }

  /** No acknowledgement is lost: once no eviction request for the holder's line is on its
      way, the holder's transaction gets through. */
  lemma HolderGetsThrough(cores: nat, steps: seq<Step>, s: State, t: Txn)
    requires Reaches(cores, steps, Some(s)) && t in s.pending && HasLock(s, t.node)
    requires forall k, i :: 0 <= k < |s.evictions| && 0 <= i < |s.evictions[k]| ==> !AsksForLine(s.evictions[k][i], t.node.line)
    requires forall k, i :: 0 <= k < |s.toL2| && 0 <= i < |s.toL2[k]| ==> !AsksForLine(s.toL2[k][i], t.node.line)
    ensures Execute(cores, s, t).Some? && Execute(cores, s, t).value.1
  {
    hide InFlight, LockIsQueue, AskOnce;
    RunKeeps(cores, steps, Some(s));
    HolderAsked(s, t.node.line);
    var g := s.acks[t.node.line];
    OnlyOwnMessages(s, t.node.line, g);
    NothingInFlight(s, g);
  }

  lemma OnlyOwnMessages(s: State, line: nat, g: nat)
    requires Messages(s) && AckTable(s) && line in s.acks && s.acks[line] == g
    requires forall k, i :: 0 <= k < |s.evictions| && 0 <= i < |s.evictions[k]| ==> !AsksForLine(s.evictions[k][i], line)
    requires forall k, i :: 0 <= k < |s.toL2| && 0 <= i < |s.toL2[k]| ==> !AsksForLine(s.toL2[k][i], line)
    ensures forall k, i :: 0 <= k < |s.evictions| && 0 <= i < |s.evictions[k]| ==> s.evictions[k][i].grant != g
    ensures forall k, i :: 0 <= k < |s.toL2| && 0 <= i < |s.toL2[k]| ==> s.toL2[k][i].grant != g
  {
  }

  lemma NothingInFlight(s: State, g: nat)
    requires forall k, i :: 0 <= k < |s.evictions| && 0 <= i < |s.evictions[k]| ==> s.evictions[k][i].grant != g
    requires forall k, i :: 0 <= k < |s.toL2| && 0 <= i < |s.toL2[k]| ==> s.toL2[k][i].grant != g
    ensures InFlight(s, g) == 0
  {
    NoneInFlight(s.evictions, g);
    NoneInFlight(s.toL2, g);
  }

  /** What a grant's counter shows and what is on its way add up to one per core. */
  lemma AcknowledgementsAddUp(cores: nat, steps: seq<Step>, s: State, line: nat)
    requires Reaches(cores, steps, Some(s)) && line in s.acks
    ensures s.acks[line] in s.counters && s.counters[s.acks[line]] + InFlight(s, s.acks[line]) == cores
  {
    RunKeeps(cores, steps, Some(s));
  }

  /** The lock is first come, first served: after n releases the line belongs to request
      number n, and the later requests wait in their order. No node asks twice. */
  lemma FirstComeFirstServed(cores: nat, steps: seq<Step>, s: State, line: nat)
    requires Reaches(cores, steps, Some(s))
    ensures var rs, n := Requests(s, line), Releases(s, line);
            && n <= |rs|
            && (line in s.holder <==> n < |rs|)
            && (line in s.holder ==> [s.holder[line]] + Waiting(s, line) == rs[n..])
            && (forall i, j :: 0 <= i < j < |rs| ==> rs[i] != rs[j])
  {
    hide Counters, Messages, Turns, LineIsQueue, LineAskedOnce;
    RunKeeps(cores, steps, Some(s));
    QueueOf(s, line);
  }

  lemma QueueOf(s: State, line: nat)
    requires LineIsQueue(s, line) && LineAskedOnce(s, line)
    ensures var rs, n := Requests(s, line), Releases(s, line);
            && n <= |rs|
            && (line in s.holder <==> n < |rs|)
            && (line in s.holder ==> s.holder[line] == rs[n] && Waiting(s, line) == rs[n+1..]
                                     && [s.holder[line]] + Waiting(s, line) == rs[n..])
            && (forall i, j :: 0 <= i < j < |rs| ==> rs[i] != rs[j])
  {
  }

  // ---- from one state of a run to a later one ----------------------------------------

  ghost predicate Leads(cores: nat, s: State, steps: seq<Step>, s': State) {
    if |steps| == 0 then s' == s
    else
      var last := |steps| - 1;
      exists m :: Leads(cores, s, steps[..last], m) && Enabled(m, steps[last]) && Next(cores, m, steps[last]) == Some(s')
  }

  /** A step leaves the requests of a line, or adds one at the end, and never takes a release back. */
  lemma StepGrows(cores: nat, s: State, e: Step, line: nat)
    requires Inv(cores, s) && Enabled(s, e) && Next(cores, s, e).Some?
    ensures var s' := Next(cores, s, e).value;
            Requests(s, line) <= Requests(s', line) && Releases(s, line) <= Releases(s', line)
  {
    hide Inv, LockLine, ReleaseLine;
    match e
    case TryAccess(t) => LockGrows(s, t.node, line);
    case Release(d) => ReleaseGrows(s, d, line);
    case _ =>
  }

  lemma LockGrows(s: State, d: Node, line: nat)
    ensures Requests(s, line) <= Requests(LockLine(s, d), line) && Releases(s, line) <= Releases(LockLine(s, d), line)
  {
  }

  lemma ReleaseGrows(s: State, d: Node, line: nat)
    ensures Requests(s, line) <= Requests(ReleaseLine(s, d), line) && Releases(s, line) <= Releases(ReleaseLine(s, d), line)
  {
  }

  lemma {:induction false} Grows(cores: nat, s: State, steps: seq<Step>, s': State, line: nat)
    requires Inv(cores, s) && Leads(cores, s, steps, s')
    ensures Inv(cores, s') && Requests(s, line) <= Requests(s', line) && Releases(s, line) <= Releases(s', line)
  {
    hide Inv, Next, Enabled;
    if |steps| > 0 {
      var last := |steps| - 1;
      var m :| Leads(cores, s, steps[..last], m) && Enabled(m, steps[last]) && Next(cores, m, steps[last]) == Some(s');
      Grows(cores, s, steps[..last], m, line);
      StepKeeps(cores, m, steps[last]);
      StepGrows(cores, m, steps[last], line);
    }
  }

  /** The k-th waiter of a line holds it after exactly k + 1 more releases, whatever happens. */
  lemma WaiterIsServed(cores: nat, before: seq<Step>, s: State, steps: seq<Step>, s': State, line: nat, k: nat)
    requires Reaches(cores, before, Some(s)) && line in s.holder && k < |Waiting(s, line)|
    requires Leads(cores, s, steps, s')
    ensures Releases(s', line) == Releases(s, line) + k + 1 ==> line in s'.holder && s'.holder[line] == Waiting(s, line)[k]
    ensures Releases(s', line) <= Releases(s, line) + k ==> line in s'.holder && s'.holder[line] != Waiting(s, line)[k]
  {
    hide Counters, Messages, Turns, LineIsQueue, LineAskedOnce, Leads, Reaches;
    RunKeeps(cores, before, Some(s));
    Grows(cores, s, steps, s', line);
    QueueOf(s, line);
    QueueOf(s', line);
    var rs, n := Requests(s', line), Releases(s', line);
    assert rs[Releases(s, line) + k + 1] == Waiting(s, line)[k];
  }
}
