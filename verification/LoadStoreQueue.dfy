/** LoadStoreQ and IssueWindow as the simulator runs them: deques, sorted sets and maps changed
    in place, and scans in program order that stop early. The scans are proved against the
    unordered conditions of LoadStore. */
module LoadStoreQueue {
  import opened Wrappers
  import opened LoadStore
  import opened LoadStoreProofs

  // ---- iterating a set in program order ----------------------------------------------

  /** No two nodes have the same place in the program. */
  ghost predicate Ordered(s: set<Op>) {
    forall a, b :: a in s && b in s && a != b ==> Less(a, b) || Less(b, a)
  }

  lemma {:induction false} FirstExists(s: set<Op>) returns (h: Op)
    requires s != {}
    ensures h in s && forall k :: k in s ==> !Less(k, h)
  {
    h :| h in s;
    var rest := s - {h};
    if rest != {} {
      var m := FirstExists(rest);
      forall k | k in s ensures !Less(k, if Less(m, h) then m else h) {
        assert k == h || k in rest;
      }
      if Less(m, h) { h := m; }
    } else {
      assert s == {h};
    }
  }

  lemma {:induction false} LastExists(s: set<Op>) returns (h: Op)
    requires s != {}
    ensures h in s && forall k :: k in s ==> !Less(h, k)
  {
    h :| h in s;
    var rest := s - {h};
    if rest != {} {
      var m := LastExists(rest);
      forall k | k in s ensures !Less(if Less(h, m) then m else h, k) {
        assert k == h || k in rest;
      }
      if Less(h, m) { h := m; }
    } else {
      assert s == {h};
    }
  }

  /** begin(). */
  method First(s: set<Op>) returns (h: Op)
    requires s != {} && Ordered(s)
    ensures h in s && forall k :: k in s ==> k == h || Less(h, k)
  {
    ghost var g := FirstExists(s);
    h :| h in s && forall k :: k in s ==> !Less(k, h);
  }

  /** rbegin(). */
  method Last(s: set<Op>) returns (h: Op)
    requires s != {} && Ordered(s)
    ensures h in s && forall k :: k in s ==> k == h || Less(k, h)
  {
    ghost var g := LastExists(s);
    h :| h in s && forall k :: k in s ==> !Less(h, k);
  }

  /** The youngest node of `s` that is not younger than `d`. */
  method LastUpTo(s: set<Op>, d: Op) returns (h: Option<Op>)
    requires Ordered(s)
    ensures match h
            case Some(e) => e in s && !Less(d, e) && forall k :: k in s && !Less(d, k) ==> k == e || Less(k, e)
            case None => forall k :: k in s ==> Less(d, k)
  {
    var rest := s;
    while rest != {}
      invariant rest <= s && forall k :: k in s - rest ==> Less(d, k)
      decreases rest
    {
      var e := Last(rest);
      if !Less(d, e) {
        assert forall k :: k in s ==> k in rest || k in s - rest;
        return Some(e);
      }
      rest := rest - {e};
    }
    h := None;
  }

  // ---- forwarding --------------------------------------------------------------------

  predicate NotYounger(e: Op, d: Op) { !Less(d, e) }

  /** `y` is the youngest store to the load's address that is not younger than the load. */
  ghost predicate Nearest(s: set<Op>, y: Op, d: Op) {
    y in s && NotYounger(y, d) && forall k :: k in s && NotYounger(k, d) ==> k == y || Less(k, y)
  }

  /** An unresolved store lies between the two. */
  ghost predicate Between(q: Queue, y: Op, d: Op) {
    exists u :: u in q.openSt && NotYounger(u, d) && Less(y, u)
  }

  class LoadStoreQ {
    const size: int
    const memSpeculate: bool
    var lq: seq<Op>
    var sq: seq<Op>
    var lm: Index
    var sm: Index
    var openLd: set<Op>
    var openSt: set<Op>

    ghost function View(): Queue
      reads this
    {
      Queue(lq, sq, lm, sm, openLd, openSt)
    }

    ghost predicate Valid()
      reads this
    {
      && Increasing(lq) && Increasing(sq) && Agree(lq, lm) && Agree(sq, sm)
      && Ordered(openLd) && Ordered(openSt)
    }

    constructor (size: int, speculate: bool)
      ensures Valid() && View() == EMPTY && this.size == size && memSpeculate == speculate
    {
      this.size, memSpeculate := size, speculate;
      lq, sq, lm, sm, openLd, openSt := [], [], map[], map[], {}, {};
    }

    /** insert(): nodes come in program order. */
    method InsertNode(d: Op)
      requires Valid() && (d.IsLoad() || d.IsStore())
      requires forall e :: e in lq || e in sq || e in openLd || e in openSt ==> Less(e, d)
      modifies this
      ensures Valid() && View() == Insert(old(View()), d)
    {
      if d.kind == LD {
        AddAgrees(lq, lm, d);
        lq := lq + [d];
        lm := lm[d.addr := (if d.addr in lm then lm[d.addr] else {}) + {d}];
        openLd := openLd + {d};
      } else {
        AddAgrees(sq, sm, d);
        sq := sq + [d];
        sm := sm[d.addr := (if d.addr in sm then sm[d.addr] else {}) + {d}];
        openSt := openSt + {d};
      }
    }

    method Resolve(d: Op)
      requires Valid()
      modifies this`openLd, this`openSt
      ensures Valid() && View() == ResolveAddress(old(View()), d)
    {
      if d.kind == LD { openLd := openLd - {d}; } else { openSt := openSt - {d}; }
    }

    /** remove(): both the deque and the index lose the node. */
    method Remove(d: Op)
      requires Valid()
      modifies this`lq, this`lm, this`sq, this`sm
      ensures Valid()
      ensures forall e :: e in lq <==> e in old(lq) && !(e == d && d.kind == LD)
      ensures forall e :: e in sq <==> e in old(sq) && !(e == d && d.kind != LD)
    {
      if d.kind == LD {
        lq, lm := Erase(lq, lm, d);
      } else {
        sq, sm := Erase(sq, sm, d);
      }
    }

    static method Erase(q: seq<Op>, m: Index, d: Op) returns (q': seq<Op>, m': Index)
      requires Increasing(q) && Agree(q, m)
      ensures Increasing(q') && Agree(q', m')
      ensures forall e :: e in q' <==> e in q && e != d
    {
      m' := m;
      if d.addr in m {
        m' := m[d.addr := m[d.addr] - {d}];
        if m'[d.addr] == {} { m' := m' - {d.addr}; }
      }
      q' := q;
      for i := 0 to |q|
        invariant q' == q && forall k :: 0 <= k < i ==> q[k] != d
      {
        if q[i] == d {
          q' := q[..i] + q[i+1..];
          EraseAt(q, i);
          break;
        }
      }
      EraseAgrees(q, m, q', m', d);
    }

    // ---- checkSize() -----------------------------------------------------------------

    method CheckRoom(left: set<Op>, loads: nat, stores: nat) returns (ok: bool)
      requires Valid()
      modifies this`lq, this`lm, this`sq, this`sm
      ensures Valid() && (View(), ok) == CheckSize(old(View()), left, size, loads, stores)
    {
      hide DropAll, LeftAhead, Increasing, Agree;
      var ldNeed, stNeed := |lq| + loads - size, |sq| + stores - size;
      if size == -1 || (ldNeed <= 0 && stNeed <= 0) { return true; }
      var ldCount, stCount := 0, 0;
      if ldNeed > 0 { ldCount := CountLeft(lq, left, ldNeed); }
      if stNeed > 0 { stCount := CountLeft(sq, left, stNeed); }
      ok := ldCount >= ldNeed && stCount >= stNeed;
      if ok {
        lq, lm := GiveUp(lq, lm, AtLeast0(ldNeed));
        sq, sm := GiveUp(sq, sm, AtLeast0(stNeed));
      }
    }

    static method CountLeft(q: seq<Op>, left: set<Op>, need: nat) returns (n: nat)
      requires need > 0
      ensures n == LeftAhead(q, left, need)
    {
      n := 0;
      assert q[0..] == q;
      while n < |q|
        invariant n <= |q| && n < need && LeftAhead(q, left, need) == n + LeftAhead(q[n..], left, need - n)
      {
        assert n + 1 <= |q| ==> q[n..][1..] == q[n+1..];
        if q[n] !in left { break; }
        n := n + 1;
        if n == need { break; }
      }
    }

    static method GiveUp(q: seq<Op>, m: Index, need: nat) returns (q': seq<Op>, m': Index)
      requires Increasing(q) && Agree(q, m) && need <= |q|
      ensures q' == q[need..] && m' == DropAll(m, q[..need])
      ensures Increasing(q') && Agree(q', m')
    {
      q', m' := q, m;
      for i := 0 to need
        invariant q' == q[i..] && m' == DropAll(m, q[..i])
      {
        DropAllAgrees(q, m, i);
        var d := q'[0];
        assert d in At(m', d.addr);
        m' := m'[d.addr := m'[d.addr] - {d}];
        if m'[d.addr] == {} { m' := m' - {d.addr}; }
        q' := q'[1..];
        assert q[..i+1][..i] == q[..i];
      }
      DropAllAgrees(q, m, need);
    }

    // ---- the issue checks ------------------------------------------------------------

    method CheckUnresolvedLoad(d: Op) returns (open: bool)
      requires Valid()
      ensures open == UnresolvedLoad(View(), d)
    {
      if openLd == {} { return false; }
      var e := First(openLd);
      open := Less(e, d) || (e.ctx == d.ctx && e.node == d.node);
    }

    method CheckUnresolvedStore(d: Op) returns (open: bool)
      requires Valid()
      ensures open == UnresolvedStore(View(), d, memSpeculate)
    {
      if openSt == {} { return false; }
      if memSpeculate {
        var rest := openSt;
        while rest != {}
          invariant rest <= openSt && forall e :: e in openSt - rest ==> Less(e, d) && e.addr != d.addr
          decreases rest
        {
          var e := First(rest);
          assert forall k :: k in openSt ==> k in rest || k in openSt - rest;
          if !Less(e, d) { return false; }
          if e.addr == d.addr { return true; }
          rest := rest - {e};
        }
        return false;
      }
      var e := First(openSt);
      open := Less(e, d) || (e.ctx == d.ctx && e.node == d.node);
    }

    lemma IndexOrdered(a: nat)
      requires Valid()
      ensures a in sm ==> Ordered(sm[a])
      ensures a in lm ==> Ordered(lm[a])
    {
      forall e | e in At(sm, a) ensures e in sq {}
      forall e | e in At(lm, a) ensures e in lq {}
      assert a in sm ==> At(sm, a) == sm[a];
      assert a in lm ==> At(lm, a) == lm[a];
    }

    /** check_load_issue() for a LD. */
    method CheckLoadIssue(left: set<Op>, issued: set<Op>, d: Op) returns (code: int)
      requires Valid()
      ensures code == CheckLoad(View(), left, issued, d, memSpeculate)
    {
      IndexOrdered(d.addr);
      var open := CheckUnresolvedStore(d);
      if open && !memSpeculate { return -1; }
      if d.addr !in sm { return if open then 0 else 1; }
      var rest := sm[d.addr];
      while rest != {}
        invariant rest <= sm[d.addr] && Ordered(rest)
        invariant forall e :: e in sm[d.addr] - rest ==> Less(d, e) || e in left || e in issued
        decreases rest
      {
        var e := First(rest);
        assert forall k :: k in sm[d.addr] ==> k in rest || k in sm[d.addr] - rest;
        if Less(d, e) { return 1; }
        if e !in left && e !in issued { return -1; }
        rest := rest - {e};
      }
      code := 1;
    }

    /** check_store_issue() for a store that is in the queue. */
    method CheckStoreIssue(left: set<Op>, d: Op) returns (ok: bool)
      requires Valid() && d in sq
      ensures ok == CheckStore(View(), left, d, memSpeculate)
    {
      IndexOrdered(d.addr);
      assert d in At(sm, d.addr);
      var open := CheckUnresolvedStore(d);
      if open { return false; }
      open := CheckUnresolvedLoad(d);
      if open { return false; }
      if |sm[d.addr]| == 1 {
        OnlyOne(sm[d.addr], d);
      } else {
        ok := AllLeft(sm[d.addr], left, d, true);
        if !ok { return; }
      }
      assert forall e :: e in At(sm, d.addr) && Less(e, d) ==> e in left;
      if d.addr !in lm { return true; }
      ok := AllLeft(lm[d.addr], left, d, false);
      assert At(lm, d.addr) == lm[d.addr];
    }

    /** Every node of the set up to `d` (without it, if `strict`) has left the reorder buffer. */
    static method AllLeft(s: set<Op>, left: set<Op>, d: Op, strict: bool) returns (ok: bool)
      requires Ordered(s)
      ensures ok <==> forall e :: e in s && (if strict then Less(e, d) else !Less(d, e)) ==> e in left
    {
      var rest := s;
      while rest != {}
        invariant rest <= s && forall e :: e in s - rest ==> !(if strict then Less(e, d) else !Less(d, e)) || e in left
        decreases rest
      {
        var e := First(rest);
        assert forall k :: k in s ==> k in rest || k in s - rest;
        if Less(d, e) || (strict && !Less(e, d)) { return true; }
        if e !in left { return false; }
        rest := rest - {e};
      }
      ok := true;
    }

    /** check_forwarding(): 1, the nearest older store to the address has not left the reorder
        buffer; 0, so far as is known; -1, memory has the value. */
    method CheckForwarding(left: set<Op>, d: Op) returns (code: int)
      requires Valid()
      ensures code == -1 || code == 0 || code == 1
      ensures code != -1 ==> exists y :: Nearest(At(sm, d.addr), y, d) && y !in left
                                         && (code == 0 <==> y.kind != STADDR && Between(View(), y, d))
      ensures code == -1 ==> forall y :: Nearest(At(sm, d.addr), y, d) ==> y in left
    {
      IndexOrdered(d.addr);
      if d.addr !in sm { return -1; }
      var y := LastUpTo(sm[d.addr], d);
      var u := LastUpTo(openSt, d);
      if y.None? { return -1; }
      assert Nearest(At(sm, d.addr), y.value, d);
      var speculative := u.Some? && Less(y.value, u.value);
      assert speculative <==> Between(View(), y.value, d);
      if y.value in left && y.value.kind != STADDR && !speculative { return -1; }
      if y.value !in left && y.value.kind != STADDR && speculative { return 0; }
      if y.value !in left { return 1; }
      code := -1;
    }
  }

  lemma OnlyOne(s: set<Op>, d: Op)
    requires |s| == 1 && d in s
    ensures s == {d}
  {
    assert |s - {d}| == 0;
  }

  lemma EraseAt(q: seq<Op>, i: nat)
    requires Increasing(q) && i < |q|
    ensures Increasing(q[..i] + q[i+1..])
    ensures forall e :: e in q[..i] + q[i+1..] <==> e in q && e != q[i]
  {
    var r := q[..i] + q[i+1..];
    forall e | e in q && e != q[i] ensures e in r {
      var k :| 0 <= k < |q| && q[k] == e;
      assert k < i ==> r[k] == e;
      assert k > i ==> r[k-1] == e;
    }
  }

  lemma EraseAgrees(q: seq<Op>, m: Index, q': seq<Op>, m': Index, d: Op)
    requires Agree(q, m) && (forall e :: e in q' <==> e in q && e != d)
    requires m' == if d.addr !in m then m
                   else if m[d.addr] - {d} == {} then m[d.addr := m[d.addr] - {d}] - {d.addr}
                   else m[d.addr := m[d.addr] - {d}]
    ensures Agree(q', m')
  {
    forall a, e ensures e in At(m', a) <==> e in q' && e.addr == a {
      assert e in At(m, a) <==> e in q && e.addr == a;
    }
  }

  // ---- the window --------------------------------------------------------------------

  /** The barriers of a program that have not finished, in program order. */
  function Barriers(order: seq<Op>, finished: set<Op>): (bs: seq<Op>)
    ensures forall b :: b in bs <==> b in order && b.kind == BARRIER && b !in finished
  {
    if |order| == 0 then []
    else
      var d := order[|order|-1];
      Barriers(order[..|order|-1], finished) + (if d.kind == BARRIER && d !in finished then [d] else [])
  }

  lemma {:induction false} BarriersInOrder(order: seq<Op>, finished: set<Op>)
    requires Increasing(order)
    ensures Increasing(Barriers(order, finished))
  {
    if |order| > 0 { BarriersInOrder(order[..|order|-1], finished); }
  }

  lemma {:induction false} FirstFinishes(order: seq<Op>, finished: set<Op>)
    requires Increasing(order) && Barriers(order, finished) != []
    ensures Barriers(order, finished + {Barriers(order, finished)[0]}) == Barriers(order, finished)[1..]
  {
    var rest, d := order[..|order|-1], order[|order|-1];
    if Barriers(rest, finished) == [] {
      assert Barriers(order, finished) == [d];
      SameBarriers(rest, finished, finished + {d});
    } else {
      var b := Barriers(rest, finished)[0];
      assert b in rest;
      FirstFinishes(rest, finished);
    }
  }

  lemma {:induction false} SameBarriers(order: seq<Op>, finished: set<Op>, more: set<Op>)
    requires forall d :: d in order ==> (d in finished <==> d in more)
    ensures Barriers(order, finished) == Barriers(order, more)
  {
    if |order| > 0 { SameBarriers(order[..|order|-1], finished, more); }
  }

  class IssueWindow {
    const windowSize: int
    const issueWidth: int
    var issueMap: seq<Op>
    var barrierVec: seq<Op>
    var windowStart: nat
    var windowEnd: nat
    var currIndex: nat
    var issueCount: nat
    /** Everything that was ever inserted, and the barriers that have finished. */
    ghost var order: seq<Op>
    ghost var finished: set<Op>

    ghost predicate Valid()
      reads this
    {
      && Increasing(order) && windowStart <= |order| == currIndex
      && issueMap == order[windowStart..]
      && windowEnd == WindowEnd(windowSize, windowStart)
      && (forall b :: b in finished ==> b in order)
      && barrierVec == Barriers(order, finished)
    }

    constructor (size: int, width: int)
      ensures Valid() && order == [] && finished == {} && windowSize == size && issueWidth == width
    {
      windowSize, issueWidth := size, width;
      issueMap, barrierVec, windowStart, windowEnd, currIndex, issueCount := [], [], 0, 0, 0, 0;
      order, finished := [], {};
    }

    method InsertDN(d: Op) returns (position: nat)
      requires Valid() && forall e :: e in order ==> Less(e, d)
      modifies this
      ensures Valid() && order == old(order) + [d] && position == old(|order|) && finished == old(finished)
      ensures windowStart == old(windowStart) && windowEnd == old(windowEnd)
    {
      issueMap := issueMap + [d];
      position := currIndex;
      if d.kind == BARRIER { barrierVec := barrierVec + [d]; }
      currIndex := currIndex + 1;
      assert (order + [d])[..|order|] == order && d !in finished;
      order := order + [d];
    }

    predicate InsideWindow(position: nat)
      reads this`windowStart, this`windowEnd
    {
      windowSize == -1 || windowStart <= position <= windowEnd
    }

    /** canIssue(): room in the window and an issue slot; no older barrier that is not finished;
        and for a barrier, nothing older up to window_end that is not completed. */
    method CanIssue(d: Op, position: nat, completed: set<Op>) returns (ok: bool)
      requires Valid() && position < |order| && order[position] == d
      ensures ok <==>
        && InsideWindow(position) && (issueWidth == -1 || issueCount < issueWidth)
        && (forall b :: b in order && b.kind == BARRIER && b !in finished ==> !Less(b, d))
        && (d.kind == BARRIER ==> forall k :: windowStart <= k < position && k <= windowEnd ==> order[k] in completed)
    {
      if windowSize == -1 && issueWidth == -1 {
        ok := true;
      } else if windowSize == -1 {
        ok := issueCount < issueWidth;
      } else if issueWidth == -1 {
        ok := windowStart <= position && position <= windowEnd;
      } else {
        ok := issueCount < issueWidth && windowStart <= position && position <= windowEnd;
      }
      if ok { ok := NoOlderBarrier(d); }
      if ok && d.kind == BARRIER { ok := OlderCompleted(d, position, completed); }
    }

    /** The scan of the barriers stops at the first one that is younger. */
    method NoOlderBarrier(d: Op) returns (ok: bool)
      requires Valid()
      ensures ok <==> forall b :: b in order && b.kind == BARRIER && b !in finished ==> !Less(b, d)
    {
      BarriersInOrder(order, finished);
      var i := 0;
      while i < |barrierVec|
        invariant i <= |barrierVec| && forall k :: 0 <= k < i ==> !Less(barrierVec[k], d)
      {
        if Less(d, barrierVec[i]) { return true; }
        if Less(barrierVec[i], d) { return false; }
        i := i + 1;
      }
      ok := true;
    }

    /** The scan of the window stops behind window_end, or at the first node that is younger. */
    method OlderCompleted(d: Op, position: nat, completed: set<Op>) returns (ok: bool)
      requires Valid() && position < |order| && order[position] == d
      ensures ok <==> forall k :: windowStart <= k < position && k <= windowEnd ==> order[k] in completed
    {
      var j := 0;
      while j < |issueMap| && windowStart + j <= windowEnd
        invariant j <= |issueMap| && (windowStart <= position ==> windowStart + j <= position + 1)
        invariant forall k :: windowStart <= k < windowStart + j && k < position ==> order[k] in completed
      {
        if Less(issueMap[j], d) && issueMap[j] !in completed { return false; }
        if Less(d, issueMap[j]) { return true; }
        j := j + 1;
      }
      ok := true;
    }

    /** finishNode() of a barrier: false is the failed assert that it is the first. */
    method FinishBarrier(b: Op) returns (ok: bool)
      requires Valid()
      modifies this`barrierVec, this`finished
      ensures ok <==> b in old(Barriers(order, finished)) && forall k :: k in old(Barriers(order, finished)) ==> k == b || Less(b, k)
      ensures Valid() && finished == if ok then old(finished) + {b} else old(finished)
    {
      hide Barriers, WindowEnd;
      BarriersInOrder(order, finished);
      ok := |barrierVec| > 0 && b == barrierVec[0];
      if ok {
        FirstFinishes(order, finished);
        barrierVec, finished := barrierVec[1..], finished + {b};
      } else {
        assert b in barrierVec ==> Less(barrierVec[0], b);
      }
    }

    /** process(): what is done at the front leaves the reorder buffer. */
    method Process(completed: set<Op>, canExit: set<Op>) returns (leaving: seq<Op>)
      requires Valid()
      modifies this`issueMap, this`windowStart, this`windowEnd, this`issueCount
      ensures old(windowStart) <= windowStart && order == old(order)
      ensures Valid() && issueCount == 0 && leaving == order[old(windowStart)..windowStart]
      ensures forall s: State :: s.order == order && s.start == old(windowStart) && s.completed == completed && s.canExit == canExit ==>
        Retire(s).start == windowStart
    {
      hide WindowEnd, Barriers, Increasing;
      issueCount := 0;
      leaving := [];
      while |issueMap| > 0 && (issueMap[0] in completed || issueMap[0] in canExit)
        invariant Valid() && issueCount == 0 && old(windowStart) <= windowStart && leaving == order[old(windowStart)..windowStart]
        invariant forall k :: old(windowStart) <= k < windowStart ==> order[k] in completed || order[k] in canExit
        decreases |issueMap|
      {
        leaving := leaving + [issueMap[0]];
        windowStart := windowStart + 1;
        windowEnd := WindowEnd(windowSize, windowStart);
        issueMap := issueMap[1..];
      }
      forall s: State | s.order == order && s.start == old(windowStart) && s.completed == completed && s.canExit == canExit
        ensures Retire(s).start == windowStart
      {
        RetireStart(s, windowStart);
      }
    }
  }

  lemma {:induction false} RetireStart(s: State, n: nat)
    requires s.start <= n <= |s.order|
    requires forall k :: s.start <= k < n ==> s.order[k] in s.completed || s.order[k] in s.canExit
    requires n < |s.order| ==> s.order[n] !in s.completed && s.order[n] !in s.canExit
    ensures Retire(s).start == n
    decreases n - s.start
  {
    if s.start < n { RetireStart(s.(start := s.start + 1, left := s.left + {s.order[s.start]}), n); }
  }
}
