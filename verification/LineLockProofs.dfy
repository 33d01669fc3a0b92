/** What every step of the line lock keeps. */
module LineLockProofs {
  import opened Wrappers
  import opened LineLock

  // ---- acknowledgements in flight ----------------------------------------------------

  function CountIn(v: seq<Msg>, g: nat): nat {
    if |v| == 0 then 0 else CountIn(v[..|v|-1], g) + (if v[|v|-1].grant == g then 1 else 0)
  }

  function Total(v: seq<seq<Msg>>, g: nat): nat {
    if |v| == 0 then 0 else Total(v[..|v|-1], g) + CountIn(v[|v|-1], g)
  }

  /** Eviction requests of a grant that have not been acknowledged yet. */
  function InFlight(s: State, g: nat): nat { Total(s.evictions, g) + Total(s.toL2, g) }

  lemma {:induction false} CountConcat(a: seq<Msg>, b: seq<Msg>, g: nat)
    ensures CountIn(a + b, g) == CountIn(a, g) + CountIn(b, g)
  {
    if |b| == 0 {
      assert a + b == a;
    } else {
      assert (a + b)[..|a + b| - 1] == a + b[..|b|-1];
      CountConcat(a, b[..|b|-1], g);
    }
  }

  lemma {:induction false} CountWithout(v: seq<Msg>, i: nat, g: nat)
    requires i < |v|
    ensures CountIn(v, g) == CountIn(Without(v, i), g) + (if v[i].grant == g then 1 else 0)
  {
    assert v == v[..i] + [v[i]] + v[i+1..];
    CountConcat(v[..i] + [v[i]], v[i+1..], g);
    CountConcat(v[..i], [v[i]], g);
    CountConcat(v[..i], v[i+1..], g);
    assert CountIn([v[i]], g) == CountIn([], g) + (if v[i].grant == g then 1 else 0) by {
      assert [v[i]][..0] == [];
    }
  }

  lemma {:induction false} TotalUpdate(v: seq<seq<Msg>>, k: nat, q: seq<Msg>, g: nat)
    requires k < |v|
    ensures Total(v[k := q], g) == Total(v, g) - CountIn(v[k], g) + CountIn(q, g)
    decreases |v|
  {
    var n := |v| - 1;
    if k < n {
      assert v[k := q][..n] == v[..n][k := q];
      TotalUpdate(v[..n], k, q, g);
    } else {
      assert v[k := q][..n] == v[..n];
    }
  }

  lemma {:induction false} TotalEvictAll(v: seq<seq<Msg>>, m: Msg, g: nat)
    ensures Total(EvictAll(v, m), g) == Total(v, g) + (if m.grant == g then |v| else 0)
  {
    if |v| > 0 {
      var n := |v| - 1;
      assert EvictAll(v, m)[..n] == EvictAll(v[..n], m);
      TotalEvictAll(v[..n], m, g);
      CountConcat(v[n], [m], g);
      assert [m][..0] == [];
    }
  }

  lemma {:induction false} NoneInFlight(v: seq<seq<Msg>>, g: nat)
    requires forall k, i :: 0 <= k < |v| && 0 <= i < |v[k]| ==> v[k][i].grant != g
    ensures Total(v, g) == 0
  {
    if |v| > 0 {
      NoneInFlight(v[..|v|-1], g);
      NoneIn(v[|v|-1], g);
    }
  }

  lemma {:induction false} NoneIn(v: seq<Msg>, g: nat)
    requires forall i :: 0 <= i < |v| ==> v[i].grant != g
    ensures CountIn(v, g) == 0
  {
    if |v| > 0 { NoneIn(v[..|v|-1], g); }
  }

  // ---- the invariant -----------------------------------------------------------------

  /** The lock of a line is determined by who asked, in order, and how often it was released:
      request number `releases` holds it and the later ones wait, in order. */
  ghost predicate LineIsQueue(s: State, line: nat) {
    var rs, n := Requests(s, line), Releases(s, line);
    && n <= |rs| && (line in s.holder <==> n < |rs|)
    && (line in s.holder ==> s.holder[line] == rs[n] && Waiting(s, line) == rs[n + 1..])
    && (line !in s.holder ==> Waiting(s, line) == [])
  }

  ghost predicate LockIsQueue(s: State) {
    forall line: nat :: LineIsQueue(s, line)
  }

  /** Every node asks once, for its own line. */
  ghost predicate LineAskedOnce(s: State, line: nat) {
    var rs := Requests(s, line);
    && (forall i :: 0 <= i < |rs| ==> rs[i].line == line && rs[i].atomic && rs[i] in s.requested)
    && (forall i, j :: 0 <= i < j < |rs| ==> rs[i] != rs[j])
  }

  ghost predicate AskOnce(s: State) {
    && (forall line: nat :: LineAskedOnce(s, line))
    && (forall d :: d in s.requested ==> d in Requests(s, d.line))
  }

  /** An atomic accesses the cache while it holds its line, and releases it later. */
  ghost predicate Turns(s: State) {
    && (forall d: Node :: d.atomic && d in s.accessed ==>
          d in s.released || (d.line in s.holder && s.holder[d.line] == d))
    && (forall d :: d in s.released ==> d in s.accessed)
    && (forall line: nat :: LineReleased(s, line))
    && (forall t :: t in s.pending && t.node.atomic ==>
          !t.prefetch && t.node in s.sent && t.node !in s.accessed && s.pending[t] == 1)
    && (forall d: Node :: d.atomic && (d in s.accessed || d in s.requested) ==> d in s.sent)
  }

  /** Exactly the first `releases` requests of a line have released it. */
  ghost predicate LineReleased(s: State, line: nat) {
    var rs := Requests(s, line);
    forall i :: 0 <= i < |rs| ==> (rs[i] in s.released <==> i < Releases(s, line))
  }

  /** A grant's counter lives exactly until its holder has accessed the line. */
  ghost predicate Counters(cores: nat, s: State) {
    AckTable(s) && AckSums(cores, s)
  }

  ghost predicate AckTable(s: State) {
    && (forall line: nat :: line in s.acks <==> line in s.holder && s.holder[line] !in s.accessed)
    && (forall line :: line in s.acks ==> s.acks[line] in s.counters && s.acks[line] < s.nextGrant)
    && (forall a, b :: a in s.acks && b in s.acks && a != b ==> s.acks[a] != s.acks[b])
    && (forall g :: g in s.counters ==> exists line :: line in s.acks && s.acks[line] == g)
  }

  /** Counted and in flight, the acknowledgements of a grant are one per core. */
  ghost predicate AckSums(cores: nat, s: State) {
    && |s.evictions| == |s.toL2| == cores
    && (forall g :: g in s.counters ==> s.counters[g] + InFlight(s, g) == cores)
  }

  ghost predicate Live(s: State, v: seq<seq<Msg>>) {
    forall k, i :: 0 <= k < |v| && 0 <= i < |v[k]| ==> v[k][i].line in s.acks && s.acks[v[k][i].line] == v[k][i].grant
  }

  /** Every eviction request is for the line and the counter of a grant still waiting. */
  ghost predicate Messages(s: State) {
    Live(s, s.evictions) && Live(s, s.toL2)
  }

  ghost predicate Locks(s: State) {
    LockIsQueue(s) && AskOnce(s) && Turns(s)
  }

  ghost predicate Inv(cores: nat, s: State) {
    Locks(s) && Counters(cores, s) && Messages(s)
  }

  lemma InitHolds(cores: nat)
    ensures Inv(cores, Init(cores))
  {
  }

  // ---- counters and messages, step by step -------------------------------------------

  /** AckTable, except for what it says of the line that is about to be granted. */
  ghost predicate AckTableBut(s: State, line: nat) {
    && line !in s.acks
    && (forall a: nat :: a != line ==> (a in s.acks <==> a in s.holder && s.holder[a] !in s.accessed))
    && (forall a :: a in s.acks ==> s.acks[a] in s.counters && s.acks[a] < s.nextGrant)
    && (forall a, b :: a in s.acks && b in s.acks && a != b ==> s.acks[a] != s.acks[b])
    && (forall g :: g in s.counters ==> exists a :: a in s.acks && s.acks[a] == g)
  }

  lemma GrantInFlight(cores: nat, s: State, d: Node, g: nat)
    requires AckTableBut(s, d.line) && AckSums(cores, s) && Messages(s)
    requires g in s.counters || g == s.nextGrant
    ensures InFlight(Grant(s, d), g) == if g == s.nextGrant then cores else InFlight(s, g)
  {
    TotalEvictAll(s.evictions, Msg(d.line, s.nextGrant), g);
    if g == s.nextGrant {
      NoneInFlight(s.evictions, g);
      NoneInFlight(s.toL2, g);
    }
  }

  lemma GrantTable(s: State, d: Node)
    requires AckTableBut(s, d.line) && d !in s.accessed
    ensures AckTable(Grant(s, d))
  {
    GrantAcks(s, d);
    GrantCounted(s, d);
    hide Grant, AckTableBut;
  }

  lemma GrantAcks(s: State, d: Node)
    requires AckTableBut(s, d.line) && d !in s.accessed
    ensures var s' := Grant(s, d);
            && (forall line: nat :: line in s'.acks <==> line in s'.holder && s'.holder[line] !in s'.accessed)
            && (forall line :: line in s'.acks ==> s'.acks[line] in s'.counters && s'.acks[line] < s'.nextGrant)
            && (forall a, b :: a in s'.acks && b in s'.acks && a != b ==> s'.acks[a] != s'.acks[b])
  {
    hide EvictAll;
  }

  lemma GrantCounted(s: State, d: Node)
    requires AckTableBut(s, d.line)
    ensures var s' := Grant(s, d); forall g :: g in s'.counters ==> exists line :: line in s'.acks && s'.acks[line] == g
  {
    hide EvictAll;
    var s' := Grant(s, d);
    forall g | g in s'.counters ensures exists a :: a in s'.acks && s'.acks[a] == g {
      if g == s.nextGrant {
        assert s'.acks[d.line] == g;
      } else {
        var a :| a in s.acks && s.acks[a] == g;
        assert a in s'.acks && s'.acks[a] == g;
      }
    }
  }

  lemma GrantCounters(cores: nat, s: State, d: Node)
    requires AckTableBut(s, d.line) && AckSums(cores, s) && Messages(s) && d !in s.accessed
    ensures Counters(cores, Grant(s, d)) && Messages(Grant(s, d))
  {
    hide AckTable, AckTableBut, InFlight, Messages;
    var s' := Grant(s, d);
    GrantTable(s, d);
    GrantMessages(s, d);
    forall g | g in s'.counters ensures s'.counters[g] + InFlight(s', g) == cores {
      GrantInFlight(cores, s, d, g);
    }
  }

  lemma GrantMessages(s: State, d: Node)
    requires AckTableBut(s, d.line) && Messages(s)
    ensures Messages(Grant(s, d))
  {
  }

  /** The lock's own tables changed, but not who holds what and who has accessed. */
  lemma StayCounters(cores: nat, s: State, s': State)
    requires Counters(cores, s) && Messages(s)
    requires s'.evictions == s.evictions && s'.toL2 == s.toL2 && s'.acks == s.acks && s'.counters == s.counters
    requires s'.nextGrant == s.nextGrant && s'.holder == s.holder
    requires forall line :: line in s.holder ==> (s.holder[line] in s.accessed <==> s.holder[line] in s'.accessed)
    ensures Counters(cores, s') && Messages(s')
  {
    forall g | g in s.counters ensures InFlight(s', g) == InFlight(s, g) {}
    hide InFlight, Total;
  }

  lemma {:induction false} CountPositive(v: seq<Msg>, i: nat)
    requires i < |v|
    ensures CountIn(v, v[i].grant) > 0
  {
    if i < |v| - 1 { CountPositive(v[..|v|-1], i); }
  }

  lemma {:induction false} TotalPositive(v: seq<seq<Msg>>, k: nat, i: nat)
    requires k < |v| && i < |v[k]|
    ensures Total(v, v[k][i].grant) > 0
  {
    if k < |v| - 1 { TotalPositive(v[..|v|-1], k, i); } else { CountPositive(v[k], i); }
  }

  /** The holder finds all acknowledgements counted: none is in flight, the counter may go. */
  lemma AccessCounters(cores: nat, s: State, s': State, d: Node)
    requires Counters(cores, s) && Messages(s) && HasLock(s, d) && d.line in s.acks && s.counters[s.acks[d.line]] == cores
    requires s'.evictions == s.evictions && s'.toL2 == s.toL2 && s'.nextGrant == s.nextGrant && s'.holder == s.holder
    requires s'.counters == s.counters - {s.acks[d.line]} && s'.acks == s.acks - {d.line}
    requires s'.accessed == s.accessed + {d}
    requires forall line :: line in s.holder && line != d.line ==> s.holder[line] != d
    ensures Counters(cores, s') && Messages(s')
  {
    hide InFlight, Messages;
    var g := s.acks[d.line];
    NoMessageLeft(cores, s, g);
    AccessMessages(s, s', d.line);
    forall h | h in s'.counters ensures InFlight(s', h) == InFlight(s, h) { SameInFlight(s, s', h); }
    forall h | h in s'.counters ensures exists a :: a in s'.acks && s'.acks[a] == h {
      var a :| a in s.acks && s.acks[a] == h;
      assert a in s'.acks && s'.acks[a] == h;
    }
  }

  lemma SameInFlight(s: State, s': State, g: nat)
    requires s'.evictions == s.evictions && s'.toL2 == s.toL2
    ensures InFlight(s', g) == InFlight(s, g)
  {
  }

  lemma AccessMessages(s: State, s': State, line: nat)
    requires Messages(s) && line in s.acks && s'.acks == s.acks - {line}
    requires s'.evictions == s.evictions && s'.toL2 == s.toL2
    requires forall k, i :: 0 <= k < |s.evictions| && 0 <= i < |s.evictions[k]| ==> s.evictions[k][i].grant != s.acks[line]
    requires forall k, i :: 0 <= k < |s.toL2| && 0 <= i < |s.toL2[k]| ==> s.toL2[k][i].grant != s.acks[line]
    ensures Messages(s')
  {
  }

  lemma NoMessageLeft(cores: nat, s: State, g: nat)
    requires Counters(cores, s) && g in s.counters && s.counters[g] == cores
    ensures forall k, i :: 0 <= k < |s.evictions| && 0 <= i < |s.evictions[k]| ==> s.evictions[k][i].grant != g
    ensures forall k, i :: 0 <= k < |s.toL2| && 0 <= i < |s.toL2[k]| ==> s.toL2[k][i].grant != g
  {
    assert InFlight(s, g) == 0;
    forall k, i | 0 <= k < |s.evictions| && 0 <= i < |s.evictions[k]| ensures s.evictions[k][i].grant != g {
      TotalPositive(s.evictions, k, i);
    }
    forall k, i | 0 <= k < |s.toL2| && 0 <= i < |s.toL2[k]| ensures s.toL2[k][i].grant != g {
      TotalPositive(s.toL2, k, i);
    }
  }

  lemma L1InFlight(s: State, core: nat, g: nat)
    requires core < |s.evictions| && core < |s.toL2| && s.evictions[core] != []
    ensures InFlight(EvictL1(s, core), g) == InFlight(s, g)
  {
    var q := s.evictions[core];
    TotalUpdate(s.evictions, core, q[1..], g);
    TotalUpdate(s.toL2, core, s.toL2[core] + [q[0]], g);
    assert q == [q[0]] + q[1..];
    CountConcat([q[0]], q[1..], g);
    CountConcat(s.toL2[core], [q[0]], g);
  }

  lemma L1Counters(cores: nat, s: State, core: nat)
    requires Counters(cores, s) && Messages(s)
    requires core < |s.evictions| && core < |s.toL2| && s.evictions[core] != []
    ensures Counters(cores, EvictL1(s, core)) && Messages(EvictL1(s, core))
  {
    hide InFlight, Live;
    var s' := EvictL1(s, core);
    L1IsLive(s, core);
    forall g ensures InFlight(s', g) == InFlight(s, g) { L1InFlight(s, core, g); }
  }

  lemma L1IsLive(s: State, core: nat)
    requires Messages(s) && core < |s.evictions| && core < |s.toL2| && s.evictions[core] != []
    ensures Messages(EvictL1(s, core))
  {
  }

  lemma L2Counters(cores: nat, s: State, core: nat, i: nat)
    requires Counters(cores, s) && Messages(s) && core < |s.toL2| && i < |s.toL2[core]|
    ensures EvictL2(s, core, i).Some?
    ensures Counters(cores, EvictL2(s, core, i).value) && Messages(EvictL2(s, core, i).value)
  {
    hide InFlight, Live;
    var m := s.toL2[core][i];
    L2IsLive(s, core, i);
    var s' := EvictL2(s, core, i).value;
    forall g ensures InFlight(s, g) == InFlight(s', g) + (if g == m.grant then 1 else 0) { L2InFlight(s, s', core, i, g); }
  }

  lemma L2IsLive(s: State, core: nat, i: nat)
    requires Messages(s) && core < |s.toL2| && i < |s.toL2[core]|
    ensures var m := s.toL2[core][i]; m.line in s.acks && s.acks[m.line] == m.grant
    ensures EvictL2(s, core, i).Some? ==> Messages(EvictL2(s, core, i).value)
  {
  }

  lemma L2InFlight(s: State, s': State, core: nat, i: nat, g: nat)
    requires core < |s.toL2| && i < |s.toL2[core]| && EvictL2(s, core, i) == Some(s')
    ensures InFlight(s, g) == InFlight(s', g) + (if g == s.toL2[core][i].grant then 1 else 0)
  {
    TotalUpdate(s.toL2, core, Without(s.toL2[core], i), g);
    CountWithout(s.toL2[core], i, g);
  }

  // ---- the queue of a line -----------------------------------------------------------

  /** Tables of other lines are as they were. */
  ghost predicate SameElsewhere(s: State, s': State, line: nat) {
    forall a: nat :: a != line ==>
      && (a in s.holder <==> a in s'.holder) && (a in s.holder ==> s'.holder[a] == s.holder[a])
      && Waiting(s', a) == Waiting(s, a) && Requests(s', a) == Requests(s, a) && Releases(s', a) == Releases(s, a)
  }

  lemma ElsewhereQueues(s: State, s': State, line: nat)
    requires LockIsQueue(s) && SameElsewhere(s, s', line) && LineIsQueue(s', line)
    ensures LockIsQueue(s')
  {
    forall a: nat ensures LineIsQueue(s', a) {
      assert LineIsQueue(s, a);
    }
  }

  lemma SameLine(s: State, s': State, line: nat)
    requires s'.requests == s.requests && s'.releases == s.releases && s'.requested == s.requested && s'.released == s.released
    ensures LineAskedOnce(s, line) ==> LineAskedOnce(s', line)
    ensures LineReleased(s, line) ==> LineReleased(s', line)
    ensures Requests(s', line) == Requests(s, line) && Releases(s', line) == Releases(s, line)
  {
  }

  lemma ArriveKeeps(s: State, t: Txn)
    requires Locks(s) && Enabled(s, Arrive(t))
    ensures Locks(s.(pending := s.pending + multiset{t}, sent := s.sent + {t.node}))
  {
    hide LockIsQueue, LineAskedOnce, LineReleased;
    var s' := s.(pending := s.pending + multiset{t}, sent := s.sent + {t.node});
    ElsewhereSame(s, s');
    forall line: nat ensures LineAskedOnce(s', line) { SameLine(s, s', line); }
    forall line: nat ensures LineReleased(s', line) { SameLine(s, s', line); }
  }

  lemma ElsewhereSame(s: State, s': State)
    requires LockIsQueue(s) && s'.holder == s.holder && s'.waiting == s.waiting && s'.requests == s.requests && s'.releases == s.releases
    ensures LockIsQueue(s')
  {
    forall line: nat ensures LineIsQueue(s', line) { assert LineIsQueue(s, line); }
  }

  /** A pending atomic does not ask again: it waits, or it holds the line. */
  lemma PendingAsked(s: State, t: Txn)
    requires Locks(s) && t in s.pending && t.node.atomic && t.node in s.requested
    ensures IsLocked(s, t.node)
  {
    var d := t.node;
    assert LineIsQueue(s, d.line) && LineReleased(s, d.line);
    var rs := Requests(s, d.line);
    var i :| 0 <= i < |rs| && rs[i] == d;
  }

  lemma HolderAsked(s: State, line: nat)
    requires Locks(s) && line in s.holder
    ensures s.holder[line].line == line && s.holder[line].atomic && s.holder[line] in s.requested
    ensures s.holder[line] !in s.released
  {
    assert LineIsQueue(s, line) && LineAskedOnce(s, line) && LineReleased(s, line);
  }

  /** A first request of `d`. */
  ghost predicate Asks(s: State, s': State, t: Txn) {
    && Locks(s) && t in s.pending && t.node.atomic && t.node !in s.requested && s' == LockLine(s, t.node)
  }

  /** What a first request changes: its node is recorded, and gets the line or waits for it. */
  lemma AskShape(s: State, d: Node)
    requires d !in s.requested
    ensures LockLine(s, d) ==
      var s1 := s.(requested := s.requested + {d}, requests := s.requests[d.line := Requests(s, d.line) + [d]]);
      if !IsLocked(s, d) then Grant(s1, d)
      else if HasLock(s, d) then s1
      else s1.(waiting := s1.waiting[d.line := Waiting(s, d.line) + [d]])
  {
    hide Grant;
  }

  lemma AskElsewhere(s: State, s': State, t: Txn)
    requires Asks(s, s', t)
    ensures SameElsewhere(s, s', t.node.line)
  {
    hide Locks, LockLine, Grant;
    var d := t.node;
    AskShape(s, d);
    GrantFrame(s.(requested := s.requested + {d}, requests := s.requests[d.line := Requests(s, d.line) + [d]]), d);
  }

  lemma GrantFrame(s: State, d: Node)
    ensures Grant(s, d).holder == s.holder[d.line := d]
    ensures Grant(s, d).waiting == s.waiting && Grant(s, d).requests == s.requests && Grant(s, d).releases == s.releases
  {
  }

  lemma HolderIsElse(s: State, d: Node)
    requires Locks(s) && d !in s.requested
    ensures !HasLock(s, d)
  {
    if d.line in s.holder { HolderAsked(s, d.line); }
  }

  lemma AskHere(s: State, s': State, t: Txn)
    requires Asks(s, s', t)
    ensures SameElsewhere(s, s', t.node.line) && LineIsQueue(s', t.node.line)
  {
    hide Turns, AskOnce, SameElsewhere;
    AskElsewhere(s, s', t);
    var d := t.node;
    assert LineIsQueue(s, d.line);
    HolderIsElse(s, d);
    assert Requests(s', d.line) == Requests(s, d.line) + [d];
  }

  lemma AskQueues(s: State, s': State, t: Txn)
    requires Asks(s, s', t)
    ensures LockIsQueue(s')
  {
    hide LockIsQueue, LineIsQueue, SameElsewhere, LockLine;
    AskHere(s, s', t);
    ElsewhereQueues(s, s', t.node.line);
  }

  lemma AskRecord(s: State, s': State, t: Txn)
    requires Asks(s, s', t)
    ensures s'.requested == s.requested + {t.node}
    ensures forall line: nat :: Requests(s', line) == Requests(s, line) + if line == t.node.line then [t.node] else []
    ensures s'.released == s.released && s'.accessed == s.accessed && s'.pending == s.pending && s'.sent == s.sent
    ensures s'.releases == s.releases
    ensures forall line :: line in s.holder ==> line in s'.holder && s'.holder[line] == s.holder[line]
  {
    hide Locks, LockLine, EvictAll;
    AskShape(s, t.node);
  }

  lemma AskAskOnce(s: State, s': State, t: Txn)
    requires Asks(s, s', t)
    ensures AskOnce(s')
  {
    hide LockIsQueue, Turns, LockLine;
    AskRecord(s, s', t);
    var d := t.node;
    forall line: nat ensures LineAskedOnce(s', line) { assert LineAskedOnce(s, line); }
    forall e | e in s'.requested ensures e in Requests(s', e.line) {
      if e == d { assert Requests(s', d.line)[|Requests(s, d.line)|] == d; }
    }
  }

  lemma AskReleased(s: State, s': State, t: Txn, line: nat)
    requires Asks(s, s', t)
    ensures LineReleased(s', line)
  {
    hide LockLine;
    AskRecord(s, s', t);
    assert LineReleased(s, line) && LineIsQueue(s, line);
  }

  lemma AskTurns(s: State, s': State, t: Txn)
    requires Asks(s, s', t)
    ensures Turns(s') && s'.accessed == s.accessed
  {
    hide LockIsQueue, AskOnce, LockLine;
    AskRecord(s, s', t);
    forall line: nat ensures LineReleased(s', line) { AskReleased(s, s', t, line); }
  }

  /** A new request is the last of its line; it holds the line if nobody else does. */
  lemma AskKeeps(s: State, t: Txn)
    requires Asks(s, LockLine(s, t.node), t)
    ensures Locks(LockLine(s, t.node)) && LockLine(s, t.node).accessed == s.accessed
  {
    hide *;
    var s' := LockLine(s, t.node);
    AskQueues(s, s', t);
    AskAskOnce(s, s', t);
    AskTurns(s, s', t);
    LocksOf(s');
  }

  lemma LocksOf(s: State)
    requires LockIsQueue(s) && AskOnce(s) && Turns(s)
    ensures Locks(s)
  {
  }

  // ---- release -----------------------------------------------------------------------

  /** The holder `d` has accessed its line and gives it up. */
  ghost predicate GivesUp(s: State, s': State, d: Node) {
    && Locks(s) && d.atomic && d in s.accessed && d !in s.released && s' == ReleaseLine(s, d)
  }

  lemma ReleaserHolds(s: State, d: Node)
    requires Locks(s) && d.atomic && d in s.accessed && d !in s.released
    ensures HasLock(s, d)
    ensures var rs, n := Requests(s, d.line), Releases(s, d.line);
            n < |rs| && rs[n] == d && Waiting(s, d.line) == rs[n + 1..]
            && (forall i :: 0 <= i < |rs| ==> rs[i].line == d.line && rs[i] in s.requested)
  {
    assert LineIsQueue(s, d.line) && LineAskedOnce(s, d.line);
  }

  /** What release changes: one more release, and the next request of the line, if any. */
  lemma ReleaseShape(s: State, s': State, d: Node)
    requires GivesUp(s, s', d)
    ensures s'.requests == s.requests && s'.requested == s.requested && s'.accessed == s.accessed
    ensures s'.pending == s.pending && s'.sent == s.sent && s'.released == s.released + {d}
    ensures Releases(s', d.line) == Releases(s, d.line) + 1
    ensures SameElsewhere(s, s', d.line)
    ensures LineIsQueue(s', d.line)
  {
    hide *;
    ReleaseFrame(s, s', d);
    ReleaseElsewhere(s, s', d);
    ReleaseQueue(s, s', d);
  }

  lemma ReleaseFrame(s: State, s': State, d: Node)
    requires GivesUp(s, s', d)
    ensures s'.requests == s.requests && s'.requested == s.requested && s'.accessed == s.accessed
    ensures s'.pending == s.pending && s'.sent == s.sent && s'.released == s.released + {d}
    ensures Releases(s', d.line) == Releases(s, d.line) + 1
  {
    hide Locks, EvictAll;
  }

  lemma ReleaseElsewhere(s: State, s': State, d: Node)
    requires GivesUp(s, s', d)
    ensures SameElsewhere(s, s', d.line)
  {
    ReleaserHolds(s, d);
    hide Locks, EvictAll;
  }

  lemma ReleaseQueue(s: State, s': State, d: Node)
    requires GivesUp(s, s', d)
    ensures LineIsQueue(s', d.line)
  {
    ReleaserHolds(s, d);
    hide Locks, EvictAll;
  }

  lemma ReleaseReleased(s: State, s': State, d: Node, line: nat)
    requires GivesUp(s, s', d)
    ensures LineReleased(s', line)
  {
    hide ReleaseLine;
    ReleaseShape(s, s', d);
    ReleaserHolds(s, d);
    assert LineReleased(s, line) && LineAskedOnce(s, line);
  }

  lemma ReleaseTurns(s: State, s': State, d: Node)
    requires GivesUp(s, s', d)
    ensures Turns(s')
  {
    hide ReleaseLine, LockIsQueue, AskOnce;
    ReleaseShape(s, s', d);
    forall line: nat ensures LineReleased(s', line) { ReleaseReleased(s, s', d, line); }
    hide LineReleased, LineIsQueue;
  }

  lemma ReleaseKeeps(s: State, d: Node)
    requires GivesUp(s, ReleaseLine(s, d), d)
    ensures Locks(ReleaseLine(s, d))
  {
    hide ReleaseLine, LockIsQueue, Turns, LineAskedOnce, LineIsQueue, SameElsewhere;
    var s' := ReleaseLine(s, d);
    ReleaseShape(s, s', d);
    ElsewhereQueues(s, s', d.line);
    ReleaseTurns(s, s', d);
    ReleaseAsks(s, s');
  }

  lemma ReleaseAsks(s: State, s': State)
    requires AskOnce(s) && s'.requests == s.requests && s'.requested == s.requested
    ensures AskOnce(s')
  {
    forall line: nat ensures LineAskedOnce(s', line) {
      assert LineAskedOnce(s, line) && Requests(s', line) == Requests(s, line);
    }
  }

  /** The next holder has not accessed the line yet. */
  lemma NextHasNotAccessed(s: State, d: Node)
    requires Locks(s) && d.atomic && d in s.accessed && d !in s.released && Waiting(s, d.line) != []
    ensures Waiting(s, d.line)[0] !in s.accessed && Waiting(s, d.line)[0].line == d.line
  {
    ReleaserHolds(s, d);
    var rs, n := Requests(s, d.line), Releases(s, d.line);
    assert LineReleased(s, d.line) && LineAskedOnce(s, d.line);
    assert rs[n + 1] == Waiting(s, d.line)[0];
  }

  lemma ReleaseCounters(cores: nat, s: State, d: Node)
    requires Inv(cores, s) && d.atomic && d in s.accessed && d !in s.released
    ensures Counters(cores, ReleaseLine(s, d)) && Messages(ReleaseLine(s, d))
  {
    hide Locks, AckTable, AckTableBut, AckSums, Messages;
    ReleaserHolds(s, d);
    var q := Waiting(s, d.line);
    var s1 := s.(released := s.released + {d}, releases := s.releases[d.line := Releases(s, d.line) + 1]);
    if q == [] {
      FreeLine(cores, s, s1.(holder := s1.holder - {d.line}, waiting := s1.waiting - {d.line}), d);
    } else {
      NextHasNotAccessed(s, d);
      var s2 := s1.(waiting := s1.waiting[d.line := q[1..]]);
      AboutToGrant(cores, s, s2, d);
      GrantCounters(cores, s2, q[0]);
    }
  }

  lemma FreeLine(cores: nat, s: State, s': State, d: Node)
    requires Counters(cores, s) && Messages(s) && HasLock(s, d) && d in s.accessed
    requires s'.holder == s.holder - {d.line} && s'.accessed == s.accessed && s'.acks == s.acks && s'.counters == s.counters
    requires s'.nextGrant == s.nextGrant && s'.evictions == s.evictions && s'.toL2 == s.toL2
    ensures Counters(cores, s') && Messages(s')
  {
    hide InFlight;
    forall g ensures InFlight(s', g) == InFlight(s, g) { SameInFlight(s, s', g); }
  }

  lemma AboutToGrant(cores: nat, s: State, s': State, d: Node)
    requires Counters(cores, s) && Messages(s) && (d.line in s.holder ==> HasLock(s, d) && d in s.accessed)
    requires s'.holder == s.holder && s'.accessed == s.accessed && s'.acks == s.acks && s'.counters == s.counters
    requires s'.nextGrant == s.nextGrant && s'.evictions == s.evictions && s'.toL2 == s.toL2
    ensures AckTableBut(s', d.line) && AckSums(cores, s') && Messages(s')
  {
    hide InFlight;
    forall g ensures InFlight(s', g) == InFlight(s, g) { SameInFlight(s, s', g); }
  }

  // ---- access ------------------------------------------------------------------------

  /** The access of the line's holder, or of a node that is no atomic. */
  lemma AccessKeeps(s: State, s': State, t: Txn)
    requires Locks(s) && t in s.pending && (t.node.atomic ==> HasLock(s, t.node))
    requires s'.holder == s.holder && s'.waiting == s.waiting && s'.requests == s.requests && s'.releases == s.releases
    requires s'.requested == s.requested && s'.released == s.released && s'.sent == s.sent
    requires s'.pending == s.pending - multiset{t} && s'.accessed == s.accessed + {t.node}
    ensures Locks(s')
  {
    hide LockIsQueue, LineAskedOnce, LineReleased;
    ElsewhereSame(s, s');
    forall line: nat ensures LineAskedOnce(s', line) { SameLine(s, s', line); }
    forall line: nat ensures LineReleased(s', line) { SameLine(s, s', line); }
    forall d | d in s'.requested ensures d in Requests(s', d.line) { SameLine(s, s', d.line); }
    if t.node.atomic { HolderSent(s, t.node); }
  }

  lemma HolderSent(s: State, d: Node)
    requires Locks(s) && HasLock(s, d)
    ensures d in s.requested && d in s.sent
  {
    HolderAsked(s, d.line);
  }

  /** execute(): no pointer is null or dead, and the invariant is kept. */
  lemma ExecuteKeeps(cores: nat, s: State, t: Txn)
    requires Inv(cores, s) && t in s.pending
    ensures Execute(cores, s, t).Some? && Inv(cores, Execute(cores, s, t).value.0)
  {
    hide LockIsQueue, AskOnce, AckSums, Messages, InFlight, LockLine;
    var d := t.node;
    if HasLock(s, d) {
      HolderAsked(s, d.line);
      assert d !in s.accessed && d.line in s.acks;
      var s' := Execute(cores, s, t).value.0;
      if s' != s {
        AccessKeeps(s, s', t);
        OneLineEach(s, d);
        AccessCounters(cores, s, s', d);
      }
    } else if !t.prefetch && d.atomic {
      TryLockKeeps(cores, s, t);
    } else {
      PlainKeeps(cores, s, t);
    }
  }

  lemma OneLineEach(s: State, d: Node)
    requires Locks(s)
    ensures forall line :: line in s.holder && line != d.line ==> s.holder[line] != d
  {
    forall line | line in s.holder && line != d.line ensures s.holder[line] != d { HolderAsked(s, line); }
  }

  lemma TryLockKeeps(cores: nat, s: State, t: Txn)
    requires Inv(cores, s) && t in s.pending && t.node.atomic && !HasLock(s, t.node)
    ensures Inv(cores, LockLine(s, t.node))
  {
    hide LockIsQueue, AskOnce, AckTable, AckTableBut, AckSums, Messages, Turns;
    var d := t.node;
    if d in s.requested {
      PendingAsked(s, t);
    } else {
      AskKeeps(s, t);
      if IsLocked(s, d) {
        StayCounters(cores, s, LockLine(s, d));
      } else {
        FreshAsker(s, t);
        AboutToGrant(cores, s, Record(s, d), d);
        GrantCounters(cores, Record(s, d), d);
      }
    }
  }

  lemma FreshAsker(s: State, t: Txn)
    requires Turns(s) && t in s.pending && t.node.atomic
    ensures t.node !in s.accessed
  {
  }

  lemma PlainKeeps(cores: nat, s: State, t: Txn)
    requires Inv(cores, s) && t in s.pending && !HasLock(s, t.node) && (t.prefetch || !t.node.atomic)
    ensures Execute(cores, s, t).Some? && Inv(cores, Execute(cores, s, t).value.0)
  {
    hide LockIsQueue, AskOnce, AckTable, AckSums, Messages, InFlight;
    assert !t.node.atomic;
    if !IsLocked(s, t.node) {
      var s' := Access(s, t);
      AccessKeeps(s, s', t);
      HoldersAreAtomic(s);
      StayCounters(cores, s, s');
    }
  }

  lemma HoldersAreAtomic(s: State)
    requires Locks(s)
    ensures forall line :: line in s.holder ==> s.holder[line].atomic
  {
    forall line | line in s.holder ensures s.holder[line].atomic { HolderAsked(s, line); }
  }

  // ---- every step --------------------------------------------------------------------

  lemma StepKeeps(cores: nat, s: State, e: Step)
    requires Inv(cores, s) && Enabled(s, e)
    ensures Next(cores, s, e).Some? && Inv(cores, Next(cores, s, e).value)
  {
    hide Locks, AckTable, AckSums, Messages, Execute, ReleaseLine, InFlight;
    match e
    case Arrive(t) =>
      ArriveKeeps(s, t);
      StayCounters(cores, s, s.(pending := s.pending + multiset{t}, sent := s.sent + {t.node}));
    case TryAccess(t) => ExecuteKeeps(cores, s, t);
    case AtL1(core) =>
      L1Counters(cores, s, core);
      LocksStay(s, EvictL1(s, core));
    case AtL2(core, i) =>
      L2Counters(cores, s, core, i);
      LocksStay(s, EvictL2(s, core, i).value);
    case Release(d) =>
      ReleaseKeeps(s, d);
      ReleaseCounters(cores, s, d);
  }

  lemma LocksStay(s: State, s': State)
    requires Locks(s)
    requires s'.holder == s.holder && s'.waiting == s.waiting && s'.requests == s.requests && s'.releases == s.releases
    requires s'.requested == s.requested && s'.released == s.released && s'.sent == s.sent
    requires s'.pending == s.pending && s'.accessed == s.accessed
    ensures Locks(s')
  {
    hide LockIsQueue, LineAskedOnce, LineReleased;
    ElsewhereSame(s, s');
    forall line: nat ensures LineAskedOnce(s', line) { SameLine(s, s', line); }
    forall line: nat ensures LineReleased(s', line) { SameLine(s, s', line); }
    forall d | d in s'.requested ensures d in Requests(s', d.line) { SameLine(s, s', d.line); }
  }

  lemma {:induction false} RunKeeps(cores: nat, steps: seq<Step>, s: Option<State>)
    requires Reaches(cores, steps, s)
    ensures s.Some? && Inv(cores, s.value)
  {
    hide Inv, Next, Enabled;
    if |steps| == 0 {
      InitHolds(cores);
    } else {
      var last := |steps| - 1;
      var s0 :| Reaches(cores, steps[..last], Some(s0)) && Enabled(s0, steps[last]) && s == Next(cores, s0, steps[last]);
      RunKeeps(cores, steps[..last], Some(s0));
      StepKeeps(cores, s0, steps[last]);
    }
  }
}
