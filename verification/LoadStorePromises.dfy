/** What the load/store queue promises in every run of an out-of-order core. */
module LoadStorePromises {
  import opened LoadStore
  import opened LoadStoreProofs

  /** Memory order: of two accesses to one address of which one writes, the older one has
      issued, exactly once, before the younger one. */
  lemma MemoryOrder(c: Core, steps: seq<Step>, s: State, older: Op, j: nat)
    requires Reaches(c, steps, s) && older in s.order
    requires j < |s.log| && Less(older, s.log[j]) && Conflict(older, s.log[j])
    ensures exists i :: 0 <= i < j && s.log[i] == older && forall k :: 0 <= k < |s.log| && s.log[k] == older ==> k == i
  {
    RunKeeps(c, steps, s);
    assert older in s.log[..j];
    var i :| 0 <= i < j && s.log[..j][i] == older;
    assert s.log[i] == older;
  }

  /** Operations leave the reorder buffer in program order, each after it has issued. */
  lemma RetiresInOrder(c: Core, steps: seq<Step>, s: State)
    requires Reaches(c, steps, s)
    ensures s.start <= |s.order| && forall i :: 0 <= i < |s.order| ==> (s.order[i] in s.left <==> i < s.start)
    ensures forall i :: 0 <= i < s.start ==> s.order[i] in s.issued
  {
    RunKeeps(c, steps, s);
    forall i | 0 <= i < |s.order| ensures s.order[i] in s.left <==> i < s.start {
      if i < s.start { assert s.order[..s.start][i] == s.order[i]; }
      if s.order[i] in s.order[..s.start] {
        var k :| 0 <= k < s.start && s.order[..s.start][k] == s.order[i];
        assert i < k ==> Less(s.order[i], s.order[k]);
        assert k < i ==> Less(s.order[k], s.order[i]);
      }
    }
  }

  /** Misspeculation cannot happen: no load is ever marked as speculated, so a store that
      completes finds nothing to run again. This is about loads that go to memory, through
      check_load_issue; one that mem_forward serves from the queue is not in these runs (there
      check_forwarding, too, can answer that the load speculates). */
  lemma NothingToRunAgain(c: Core, steps: seq<Step>, s: State, d: Op)
    requires Reaches(c, steps, s) && d in s.order
    ensures Misspeculated(s, d) == {}
    ensures d.kind == LD ==> CheckLoad(s.q, s.left, s.issued, d, c.speculate) != 0
  {
    RunKeeps(c, steps, s);
    if d.kind == LD { NeverSpeculates(c, s, d); }
  }

  /** The checks let the oldest operation of the window go as soon as its address is known. */
  lemma OldestMayIssue(c: Core, steps: seq<Step>, s: State)
    requires Reaches(c, steps, s) && s.start < |s.order|
    requires s.order[s.start] !in s.q.openLd && s.order[s.start] !in s.q.openSt && s.order[s.start] !in s.issued
    ensures MayIssue(c, s, s.order[s.start])
  {
    hide Inv, Queues, Window, InMemoryOrder, MayIssue, Reaches;
    RunKeeps(c, steps, s);
    InvParts(s);
    var d := s.order[s.start];
    OlderHaveLeft(s);
    NothingOlderOpen(c, s, d);
    FreeToGo(c, s, d);
  }

  lemma InvParts(s: State)
    requires Inv(s)
    ensures Queues(s) && Window(s) && Increasing(s.order)
  {
  }

  ghost predicate OlderLeft(s: State, d: Op) {
    forall e :: e in s.order && !Less(d, e) && e != d ==> e in s.left
  }

  lemma OlderHaveLeft(s: State)
    requires Window(s) && s.start < |s.order|
    ensures OlderLeft(s, s.order[s.start])
  {
    var d := s.order[s.start];
    forall e | e in s.order && !Less(d, e) && e != d ensures e in s.left {
      var i :| 0 <= i < |s.order| && s.order[i] == e;
      assert i > s.start ==> Less(d, e);
      assert i < s.start && s.order[..s.start][i] == e;
    }
  }

  lemma NothingOlderOpen(c: Core, s: State, d: Op)
    requires Queues(s) && Window(s) && OlderLeft(s, d) && d !in s.q.openLd && d !in s.q.openSt
    ensures !UnresolvedStore(s.q, d, c.speculate) && !UnresolvedLoad(s.q, d)
  {
  }

  lemma FreeToGo(c: Core, s: State, d: Op)
    requires Queues(s) && OlderLeft(s, d) && d in s.order
    requires !UnresolvedStore(s.q, d, c.speculate) && !UnresolvedLoad(s.q, d)
    ensures MayIssue(c, s, d)
  {
    hide UnresolvedStore, UnresolvedLoad;
    assert forall e :: e in At(s.q.sm, d.addr) ==> e in s.order && e.IsStore();
    assert forall e :: e in At(s.q.lm, d.addr) ==> e in s.order && e.IsLoad();
  }

  // ---- capacity ----------------------------------------------------------------------

  lemma {:induction false} InsertAllLengths(q: Queue, ds: seq<Op>)
    ensures |InsertAll(q, ds).lq| == |q.lq| + Count(ds, {LD})
    ensures |InsertAll(q, ds).sq| == |q.sq| + Count(ds, {ST, STADDR}) + Count(ds, {ATOMIC})
  {
    if |ds| > 0 { InsertAllLengths(q, ds[..|ds|-1]); }
  }

  /** A block that is let in fits, for its loads. For its stores the check forgets the
      atomics, which take an entry all the same: the store queue stays within its size exactly
      when the room left after the check covers them too. */
  lemma AcceptedBlockFits(c: Core, s: State, ds: seq<Op>, produced: nat)
    requires c.size >= 0
    requires CheckSize(s.q, s.left, c.size, Count(ds, {LD}) + produced, Count(ds, {ST, STADDR})).1
    ensures var s' := NewBlock(c, s, ds, produced);
            var free := if |s.q.sq| + Count(ds, {ST, STADDR}) > c.size then 0 else c.size - |s.q.sq| - Count(ds, {ST, STADDR});
            |s'.q.lq| <= c.size && (|s'.q.sq| <= c.size <==> Count(ds, {ATOMIC}) <= free)
  {
    var r := CheckSize(s.q, s.left, c.size, Count(ds, {LD}) + produced, Count(ds, {ST, STADDR}));
    InsertAllLengths(r.0, ds);
  }

  /** A run of one step: a core with a store queue of one entry takes a block of two atomics. */
  lemma AtomicsOverflow()
    ensures var c, ds := Core(1, 4, false), [Op(0, 0, ATOMIC, 0), Op(0, 1, ATOMIC, 0)];
            var s := NewBlock(c, START, ds, 0);
            && Enabled(c, START, Create(ds, 0)) && Reaches(c, [Create(ds, 0)], s)
            && |s.q.sq| == 2 > c.size
  {
    var c, ds := Core(1, 4, false), [Op(0, 0, ATOMIC, 0), Op(0, 1, ATOMIC, 0)];
    assert ds[..1] == [ds[0]] && ds[..1][..0] == [];
    assert Count(ds, {ST, STADDR}) == Count(ds[..1], {ST, STADDR}) == 0;
    assert Count(ds, {LD}) == Count(ds[..1], {LD}) == 0;
    assert Count(ds, {ATOMIC}) == Count(ds[..1], {ATOMIC}) + 1 == 2;
    InsertAllLengths(EMPTY, ds);
    assert [Create(ds, 0)][..0] == [];
    assert Reaches(c, [Create(ds, 0)][..0], START);
  }
}
