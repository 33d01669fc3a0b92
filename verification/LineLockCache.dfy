/** The lock part of LLCache as the simulator runs it, with the two places in the private
    caches an eviction request goes through, and the two-buffer channels between them. */
module LineLockCache {
  import opened Wrappers
  import opened LineLock
  import opened LineLockProofs

  class LLCache {
    const cores: nat
    var lockedLineMap: map<nat, Node>
    var lockedLineQ: map<nat, seq<Node>>
    var acknowledgements: map<nat, nat>
    var counters: map<nat, nat>
    var nextCounter: nat
    var requestedLock: set<Node>
    var evictions: seq<seq<Msg>>
    var toL2: seq<seq<Msg>>
    ghost var pending: multiset<Txn>
    ghost var sent: set<Node>
    ghost var accessed: set<Node>
    ghost var released: set<Node>
    ghost var requests: map<nat, seq<Node>>
    ghost var releases: map<nat, nat>

    ghost function View(): State
      reads this
    {
      State(lockedLineMap, lockedLineQ, acknowledgements, counters, nextCounter, requestedLock, evictions, toL2,
            pending, sent, accessed, released, requests, releases)
    }

    ghost predicate Valid()
      reads this
    {
      Inv(cores, View())
    }

    constructor (cores: nat)
      ensures this.cores == cores && Valid() && View() == Init(cores)
    {
      this.cores := cores;
      lockedLineMap, lockedLineQ, acknowledgements, counters, nextCounter := map[], map[], map[], map[], 0;
      requestedLock, evictions, toL2 := {}, seq(cores, i => []), seq(cores, i => []);
      pending, sent, accessed, released, requests, releases := multiset{}, {}, {}, {}, map[], map[];
      new;
      InitHolds(cores);
    }

    /** A transaction arrives; an atomic sends one. */
    ghost method Arrive(t: Txn)
      requires Valid() && (t.node.atomic ==> !t.prefetch && t.node !in sent)
      modifies this`pending, this`sent
      ensures Valid() && t in pending
      ensures View() == old(View()).(pending := old(pending) + multiset{t}, sent := old(sent) + {t.node})
    {
      hide Inv;
      StepKeeps(cores, View(), LineLock.Arrive(t));
      pending, sent := pending + multiset{t}, sent + {t.node};
    }

    method HoldsLock(d: Node) returns (has: bool)
      ensures has == HasLock(View(), d)
    {
      has := d.line in lockedLineMap && lockedLineMap[d.line] == d;
    }

    method LineIsLocked(d: Node) returns (locked: bool)
      ensures locked == IsLocked(View(), d)
    {
      locked := d.line in lockedLineMap;
    }

    /** evictAllCaches: every core gets a request. */
    method EvictAllCaches(line: nat, counter: nat)
      modifies this`evictions
      ensures evictions == EvictAll(old(evictions), Msg(line, counter))
    {
      ghost var was := evictions;
      for i := 0 to |evictions|
        invariant |evictions| == |was|
        invariant forall k :: 0 <= k < i ==> evictions[k] == was[k] + [Msg(line, counter)]
        invariant forall k :: i <= k < |was| ==> evictions[k] == was[k]
      {
        evictions := evictions[i := evictions[i] + [Msg(line, counter)]];
      }
    }

    /** The line is given to `d`, with a new counter. */
    method GiveTo(line: nat, d: Node)
      modifies this`lockedLineMap, this`acknowledgements, this`counters, this`nextCounter, this`evictions
      ensures View() == GrantLine(old(View()), line, d)
    {
      var entry := nextCounter;
      nextCounter := nextCounter + 1;
      counters := counters[entry := 0];
      acknowledgements := acknowledgements[line := entry];
      EvictAllCaches(line, entry);
      lockedLineMap := lockedLineMap[line := d];
    }

    /** The request flag of the node. */
    method SetRequested(d: Node)
      modifies this`requestedLock, this`requests
      ensures View() == Record(old(View()), d)
    {
      if d !in requestedLock {
        requests := requests[d.line := Requests(View(), d.line) + [d]];
        requestedLock := requestedLock + {d};
      }
    }

    /** lockCacheline. */
    method LockCacheline(d: Node) returns (got: bool)
      modifies this
      ensures View() == LockLine(old(View()), d)
      ensures got <==> HasLock(View(), d)
    {
      hide GrantLine, Record;
      if d.line in lockedLineMap && lockedLineMap[d.line] != d {
        if d !in requestedLock { Enqueue(d); }
        SetRequested(d);
        assert HasLock(View(), d) == HasLock(old(View()), d) by { RecordKeepsHolder(old(View()), d); }
        return false;
      }
      SetRequested(d);
      RecordKeepsHolder(old(View()), d);
      if d.line !in lockedLineMap {
        GrantGives(View(), d);
        GiveTo(d.line, d);
      }
      got := true;
    }

    method Enqueue(d: Node)
      modifies this`lockedLineQ
      ensures View() == old(View()).(waiting := old(View()).waiting[d.line := Waiting(old(View()), d.line) + [d]])
    {
      lockedLineQ := lockedLineQ[d.line := (if d.line in lockedLineQ then lockedLineQ[d.line] else []) + [d]];
    }

    /** releaseLock, by the atomic whose data has come back. */
    method ReleaseLock(d: Node)
      requires Valid() && d.atomic && d in accessed && d !in released
      modifies this
      ensures Valid() && View() == ReleaseLine(old(View()), d)
    {
      StepKeeps(cores, View(), Release(d));
      ReleaseSplits(View(), d);
      hide *;
      CountRelease(d);
      if d.line in lockedLineQ && lockedLineQ[d.line] != [] {
        var next := TakeFirst(d.line);
        GiveTo(d.line, next);
      } else {
        FreeLine(d.line);
      }
    }

    ghost method CountRelease(d: Node)
      modifies this`released, this`releases
      ensures View() == Counted(old(View()), d)
    {
      released, releases := released + {d}, releases[d.line := Releases(View(), d.line) + 1];
    }

    method TakeFirst(line: nat) returns (d: Node)
      requires line in lockedLineQ && lockedLineQ[line] != []
      modifies this`lockedLineQ
      ensures Waiting(old(View()), line) != [] && d == Waiting(old(View()), line)[0]
      ensures View() == old(View()).(waiting := old(View()).waiting[line := Waiting(old(View()), line)[1..]])
    {
      d := lockedLineQ[line][0];
      lockedLineQ := lockedLineQ[line := lockedLineQ[line][1..]];
    }

    method FreeLine(line: nat)
      modifies this`lockedLineMap, this`lockedLineQ
      ensures View() == Freed(old(View()), line)
    {
      lockedLineMap, lockedLineQ := lockedLineMap - {line}, lockedLineQ - {line};
    }

    /** The lock part of execute(): may the transaction access the cache now? */
    method ExecuteTransaction(t: Txn) returns (access: bool)
      requires Valid() && t in pending
      modifies this
      ensures Valid() && LineLock.Execute(cores, old(View()), t) == Some((View(), access))
    {
      hide Inv, LockLine, Access;
      ExecuteKeeps(cores, View(), t);
      var d := t.node;
      var has := HoldsLock(d);
      if has {
        assert d.line in acknowledgements;
        var entry := acknowledgements[d.line];
        assert entry in counters;
        if counters[entry] != cores { return false; }
        DropCounter(d.line, entry);
      } else if !t.prefetch && d.atomic {
        var got := LockCacheline(d);
        return false;
      } else {
        var locked := LineIsLocked(d);
        if locked { return false; }
      }
      AccessCache(t);
      access := true;
    }

    /** All acknowledgements are in: their counter is no longer needed. */
    method DropCounter(line: nat, entry: nat)
      modifies this`counters, this`acknowledgements
      ensures View() == old(View()).(counters := old(counters) - {entry}, acks := old(acknowledgements) - {line})
    {
      counters, acknowledgements := counters - {entry}, acknowledgements - {line};
    }

    ghost method AccessCache(t: Txn)
      modifies this`pending, this`accessed
      ensures View() == Access(old(View()), t)
    {
      pending, accessed := pending - multiset{t}, accessed + {t.node};
    }

    /** L1Cache::evict. */
    method EvictAtL1(core: nat)
      requires Valid() && core < |evictions| && core < |toL2| && evictions[core] != []
      modifies this`evictions, this`toL2
      ensures Valid() && View() == EvictL1(old(View()), core)
    {
      hide Inv;
      StepKeeps(cores, View(), AtL1(core));
      var m := evictions[core][0];
      evictions := evictions[core := evictions[core][1..]];
      toL2 := toL2[core := toL2[core] + [m]];
    }

    /** L2Cache::execute of an atomic eviction. */
    method EvictAtL2(core: nat, i: nat)
      requires Valid() && core < |toL2| && i < |toL2[core]|
      modifies this`counters, this`toL2
      ensures Valid() && EvictL2(old(View()), core, i) == Some(View())
    {
      hide Inv;
      StepKeeps(cores, View(), AtL2(core, i));
      var m := toL2[core][i];
      assert m.grant in counters;
      counters := counters[m.grant := counters[m.grant] + 1];
      toL2 := toL2[core := Without(toL2[core], i)];
    }
  }

  lemma RecordKeepsHolder(s: State, d: Node)
    ensures Record(s, d).holder == s.holder
  {
  }

  lemma GrantGives(s: State, d: Node)
    ensures HasLock(Grant(s, d), d)
  {
  }

  function Counted(s: State, d: Node): State {
    s.(released := s.released + {d}, releases := s.releases[d.line := Releases(s, d.line) + 1])
  }

  function Freed(s: State, line: nat): State {
    s.(holder := s.holder - {line}, waiting := s.waiting - {line})
  }

  lemma ReleaseSplits(s: State, d: Node)
    ensures (d.line in s.waiting && s.waiting[d.line] != []) <==> Waiting(s, d.line) != []
    ensures var s1 := Counted(s, d);
            && Waiting(s1, d.line) == Waiting(s, d.line)
            && ReleaseLine(s, d) ==
                 if Waiting(s, d.line) == [] then Freed(s1, d.line)
                 else GrantLine(s1.(waiting := s1.waiting[d.line := Waiting(s, d.line)[1..]]), d.line, Waiting(s, d.line)[0])
  {
  }

  // ---- the channels between threads --------------------------------------------------

  /** PP_Buff: what is put in during one cycle is what is there to take in the next. */
  class PPBuff<T> {
    var buff1: seq<T>
    var buff2: seq<T>

    function Comm(cycle: nat): seq<T>
      reads this
    {
      if cycle % 2 == 0 then buff1 else buff2
    }

    function Comp(cycle: nat): seq<T>
      reads this
    {
      if cycle % 2 == 0 then buff2 else buff1
    }

    constructor ()
      ensures buff1 == [] && buff2 == []
    {
      buff1, buff2 := [], [];
    }

    method Put(cycle: nat, x: T)
      modifies this
      ensures Comm(cycle) == old(Comm(cycle)) + [x] && Comp(cycle) == old(Comp(cycle))
      ensures Comp(cycle + 1) == old(Comp(cycle + 1)) + [x]
    {
      if cycle % 2 == 0 { buff1 := buff1 + [x]; } else { buff2 := buff2 + [x]; }
    }

    method TakeAll(cycle: nat) returns (xs: seq<T>)
      modifies this
      ensures xs == old(Comp(cycle)) && Comp(cycle) == [] && Comm(cycle) == old(Comm(cycle))
      ensures Comm(cycle + 1) == []
    {
      if cycle % 2 == 0 {
        xs, buff2 := buff2, [];
      } else {
        xs, buff1 := buff1, [];
      }
    }
  }
}
