/** What the lock part of the cache answers to every transaction of every run, stated on who
    holds the line, who waits, and which eviction requests are on their way. */
module LineLockAnswers {
  import opened Wrappers
  import opened LineLock
  import opened LineLockProofs
  import opened LineLockPromises

  /** No core still has to evict the line, and no acknowledgement is on its way. */
  ghost predicate NoRequestFor(s: State, line: nat) {
    && (forall k, i :: 0 <= k < |s.evictions| && 0 <= i < |s.evictions[k]| ==> !AsksForLine(s.evictions[k][i], line))
    && (forall k, i :: 0 <= k < |s.toL2| && 0 <= i < |s.toL2[k]| ==> !AsksForLine(s.toL2[k][i], line))
  }

  /** A transaction that needs no lock: not of an atomic, or a prefetch. */
  predicate Ordinary(t: Txn) { !t.node.atomic || t.prefetch }

  lemma HolderIsAtomic(cores: nat, s: State, t: Txn)
    requires Inv(cores, s) && t in s.pending
    ensures HasLock(s, t.node) ==> t.node.atomic && !t.prefetch
  {
    if HasLock(s, t.node) { HolderAsked(s, t.node.line); }
  }

  /** An ordinary transaction goes through exactly when nobody holds its line; then it is done,
      and no lock, queue or counter is touched. Otherwise it is tried again. */
  lemma OrdinaryAnswers(cores: nat, steps: seq<Step>, s: State, t: Txn)
    requires Reaches(cores, steps, Some(s)) && t in s.pending && Ordinary(t)
    ensures Execute(cores, s, t).Some?
    ensures var (s', goes) := Execute(cores, s, t).value;
            && (goes <==> t.node.line !in s.holder)
            && s' == if goes then s.(pending := s.pending - multiset{t}, accessed := s.accessed + {t.node}) else s
  {
    hide Inv;
    RunKeeps(cores, steps, Some(s));
    HolderIsAtomic(cores, s, t);
  }

  /** The holder goes through exactly when no request for its line is on its way any more. */
  lemma HolderAnswers(cores: nat, steps: seq<Step>, s: State, t: Txn)
    requires Reaches(cores, steps, Some(s)) && t in s.pending && HasLock(s, t.node)
    ensures Execute(cores, s, t).Some?
    ensures var (s', goes) := Execute(cores, s, t).value;
            && (goes <==> NoRequestFor(s, t.node.line))
            && (goes ==> s'.pending == s.pending - multiset{t} && t.node in s'.accessed && HasLock(s', t.node))
            && (!goes ==> s' == s)
  {
    hide Execute, Inv;
    OnlyTheHolderAccesses(cores, steps, s, t);
    if NoRequestFor(s, t.node.line) { HolderGetsThrough(cores, steps, s, t); }
    HolderExecutes(cores, s, t);
  }

  lemma HolderExecutes(cores: nat, s: State, t: Txn)
    requires HasLock(s, t.node) && Execute(cores, s, t).Some?
    ensures var (s', goes) := Execute(cores, s, t).value;
            && (goes ==> s'.pending == s.pending - multiset{t} && t.node in s'.accessed && HasLock(s', t.node))
            && (!goes ==> s' == s)
  {
  }

  /** `d` stands in the line's queue, once. */
  ghost predicate WaitsOnce(s: State, d: Node) {
    exists i :: 0 <= i < |Waiting(s, d.line)| && Waiting(s, d.line)[i] == d
      && forall j :: 0 <= j < |Waiting(s, d.line)| && j != i ==> Waiting(s, d.line)[j] != d
  }

  lemma AskedFacts(cores: nat, s: State, d: Node)
    requires Inv(cores, s)
    ensures LineIsQueue(s, d.line) && LineAskedOnce(s, d.line) && LineReleased(s, d.line)
    ensures d in s.requested ==> d in Requests(s, d.line)
  {
    hide LineIsQueue, LineAskedOnce, LineReleased;
  }

  /** A request later than the holder's stands in the queue, once. */
  lemma StandsOnce(s: State, rs: seq<Node>, n: nat, i: nat, q: seq<Node>)
    requires n < i < |rs| && q == rs[n + 1..] && q == Waiting(s, rs[i].line)
    requires forall a, b :: 0 <= a < b < |rs| ==> rs[a] != rs[b]
    ensures WaitsOnce(s, rs[i])
  {
    var k := i - (n + 1);
    assert q[k] == rs[i];
    forall j | 0 <= j < |q| && j != k ensures q[j] != rs[i] {
      assert q[j] == rs[n + 1 + j];
    }
  }

  /** A node that has asked and not released holds its line or waits for it, once. */
  lemma AskedIsQueued(cores: nat, s: State, d: Node)
    requires Inv(cores, s) && d in s.requested && d !in s.released
    ensures d.line in s.holder && (HasLock(s, d) || WaitsOnce(s, d))
  {
    hide Inv, WaitsOnce, LineReleased;
    AskedFacts(cores, s, d);
    QueueOf(s, d.line);
    var rs, n := Requests(s, d.line), Releases(s, d.line);
    var i :| 0 <= i < |rs| && rs[i] == d;
    NotBefore(s, d, i);
    hide LineIsQueue, LineAskedOnce, Requests, Releases, Waiting;
    if i > n { StandsOnce(s, rs, n, i, Waiting(s, d.line)); }
  }

  lemma NotBefore(s: State, d: Node, i: nat)
    requires LineReleased(s, d.line) && i < |Requests(s, d.line)| && Requests(s, d.line)[i] == d && d !in s.released
    ensures i >= Releases(s, d.line)
  {
  }

  lemma LockWaits(s: State, d: Node)
    requires d.line in s.holder && !HasLock(s, d)
    ensures var s' := LockLine(s, d);
            && d in s'.requested && s'.released == s.released && s'.pending == s.pending && s'.accessed == s.accessed
            && s'.holder == s.holder && s'.evictions == s.evictions
  {
  }

  lemma LockGets(s: State, d: Node)
    requires d.line !in s.holder
    ensures var s' := LockLine(s, d);
            && d in s'.requested && s'.released == s.released && s'.pending == s.pending && s'.accessed == s.accessed
            && s'.holder == s.holder[d.line := d] && |s'.evictions| == |s.evictions|
            && forall k :: 0 <= k < |s.evictions| ==> s'.evictions[k] == s.evictions[k] + [Msg(d.line, s.nextGrant)]
  {
  }

  /** An atomic without the lock does not access the cache. It gets a free line at once, and
      every core is asked to evict it, with a counter that is not in use; a line that is held it
      waits for, in exactly one place of the queue. */
  lemma AtomicAnswers(cores: nat, steps: seq<Step>, s: State, t: Txn)
    requires Reaches(cores, steps, Some(s)) && t in s.pending && !Ordinary(t) && !HasLock(s, t.node)
    ensures Execute(cores, s, t).Some?
    ensures var (s', goes) := Execute(cores, s, t).value;
            var free := t.node.line !in s.holder;
            && !goes && s'.pending == s.pending && s'.accessed == s.accessed
            && (HasLock(s', t.node) <==> free)
            && (!free ==> WaitsOnce(s', t.node) && s'.holder == s.holder && s'.evictions == s.evictions)
            && (free ==>
                  && s.nextGrant !in s.counters && |s'.evictions| == |s.evictions| == cores
                  && forall k :: 0 <= k < cores ==> s'.evictions[k] == s.evictions[k] + [Msg(t.node.line, s.nextGrant)])
  {
    hide Execute, Inv, LockLine, WaitsOnce;
    RunKeeps(cores, steps, Some(s));
    assert Execute(cores, s, t) == Some((LockLine(s, t.node), false)) by { AtomicAsks(cores, s, t); }
    if t.node.line in s.holder { LockWaits(s, t.node); } else { LockGets(s, t.node); }
    ExecuteKeeps(cores, s, t);
    var s' := Execute(cores, s, t).value.0;
    NotReleased(cores, s, t);
    AskedIsQueued(cores, s', t.node);
  }

  lemma AtomicAsks(cores: nat, s: State, t: Txn)
    requires !Ordinary(t) && !HasLock(s, t.node)
    ensures Execute(cores, s, t) == Some((LockLine(s, t.node), false))
  {
  }

  lemma NotReleased(cores: nat, s: State, t: Txn)
    requires Inv(cores, s) && t in s.pending && t.node.atomic
    ensures t.node !in s.released && s.nextGrant !in s.counters && |s.evictions| == cores
  {
  }

  /** A release hands the line to the first waiter, with a new counter and a request to every
      core; without one the line is free. Nothing else is held or waited for differently. */
  lemma ReleaseAnswers(cores: nat, steps: seq<Step>, s: State, d: Node)
    requires Reaches(cores, steps, Some(s)) && Enabled(s, Release(d))
    ensures HasLock(s, d)
    ensures var s', q := ReleaseLine(s, d), Waiting(s, d.line);
            && (q == [] ==> d.line !in s'.holder && s'.evictions == s.evictions)
            && (q != [] ==>
                  && d.line in s'.holder && s'.holder[d.line] == q[0] && Waiting(s', d.line) == q[1..]
                  && s.nextGrant !in s.counters && |s'.evictions| == |s.evictions| == cores
                  && forall k :: 0 <= k < cores ==> s'.evictions[k] == s.evictions[k] + [Msg(d.line, s.nextGrant)])
            && (forall line: nat :: line != d.line ==>
                  && (line in s'.holder <==> line in s.holder) && (line in s.holder ==> s'.holder[line] == s.holder[line])
                  && Waiting(s', line) == Waiting(s, line))
  {
    hide Reaches;
    RunKeeps(cores, steps, Some(s));
    CountersBelow(cores, s);
    hide LockIsQueue, AskOnce, Counters, Messages;
  }

  lemma CountersBelow(cores: nat, s: State)
    requires Inv(cores, s)
    ensures s.nextGrant !in s.counters && |s.evictions| == cores
  {
  }
}
