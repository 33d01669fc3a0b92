/** Which lines a cache set still holds after any proper run, told from the operations alone. */
module Residency {
  import opened Recency
  import opened Arithmetic
  import opened CacheAddress
  import opened WriteBack

  /** The operation uses the line of `tag`: it fills it, or finds it. */
  predicate Touches(ways: nat, before: seq<Op>, o: Op, tag: nat) {
    o.tag == tag && (o.kind == Fill || (o.kind == Look && Resident(Run(ways, before), tag)))
  }

  /** One more than the index of the last operation that used the line. */
  function LastTouch(ways: nat, ops: seq<Op>, tag: nat): (n: nat)
    ensures n <= |ops|
  {
    if |ops| == 0 then 0
    else if Touches(ways, ops[..|ops|-1], ops[|ops|-1], tag) then |ops|
    else LastTouch(ways, ops[..|ops|-1], tag)
  }

  function LastFlush(ops: seq<Op>, tag: nat): (n: nat)
    ensures n <= |ops|
  {
    if |ops| == 0 then 0
    else if ops[|ops|-1].kind == Flush && ops[|ops|-1].tag == tag then |ops|
    else LastFlush(ops[..|ops|-1], tag)
  }

  /** Used and not flushed since. */
  predicate Live(ways: nat, ops: seq<Op>, tag: nat) {
    LastTouch(ways, ops, tag) > LastFlush(ops, tag)
  }

  function Tags(ops: seq<Op>): set<nat> { set k | 0 <= k < |ops| :: ops[k].tag }

  /** The other lines used since `tag` was, and not flushed since. */
  function Newer(ways: nat, ops: seq<Op>, tag: nat): set<nat> {
    set t | t in Tags(ops) && t != tag && Live(ways, ops, t) && LastTouch(ways, ops, t) > LastTouch(ways, ops, tag)
  }

  /** The line was used, not flushed since, and at no time since then were as many other lines
      newer as the set has ways. */
  predicate Kept(ways: nat, ops: seq<Op>, tag: nat) {
    && Live(ways, ops, tag)
    && forall m :: LastTouch(ways, ops, tag) <= m <= |ops| ==> |Newer(ways, ops[..m], tag)| < ways
  }

  // ---- one operation more --------------------------------------------------------------------

  lemma Push(ways: nat, ops: seq<Op>, o: Op, tag: nat)
    ensures LastTouch(ways, ops + [o], tag) == if Touches(ways, ops, o, tag) then |ops| + 1 else LastTouch(ways, ops, tag)
    ensures LastFlush(ops + [o], tag) == if o.kind == Flush && o.tag == tag then |ops| + 1 else LastFlush(ops, tag)
    ensures Run(ways, ops + [o]) == Do(ways, Run(ways, ops), o)
    ensures Tags(ops + [o]) == Tags(ops) + {o.tag}
  {
    var ops' := ops + [o];
    assert ops'[..|ops'|-1] == ops;
    hide Do, Resident;
    forall t ensures t in Tags(ops') <==> t in Tags(ops) || t == o.tag {
      if t in Tags(ops) {
        var k :| 0 <= k < |ops| && ops[k].tag == t;
        assert ops'[k].tag == t;
      }
      assert ops'[|ops|].tag == o.tag;
    }
  }

  lemma {:induction false} LiveIsSeen(ways: nat, ops: seq<Op>, tag: nat)
    ensures LastTouch(ways, ops, tag) > 0 ==> tag in Tags(ops)
  {
    if |ops| > 0 {
      var n := |ops| - 1;
      assert ops == ops[..n] + [ops[n]];
      Push(ways, ops[..n], ops[n], tag);
      LiveIsSeen(ways, ops[..n], tag);
    }
  }

  /** A line stays lost until it is used again, and kept as long as few enough are newer. */
  lemma KeptPush(ways: nat, ops: seq<Op>, o: Op, tag: nat)
    requires !Touches(ways, ops, o, tag)
    ensures Kept(ways, ops + [o], tag) <==>
              (Kept(ways, ops, tag) && !(o.kind == Flush && o.tag == tag) && |Newer(ways, ops + [o], tag)| < ways)
  {
    hide Newer, Touches;
    var ops' := ops + [o];
    Push(ways, ops, o, tag);
    assert ops'[..|ops'|] == ops';
    forall m | 0 <= m <= |ops| ensures ops'[..m] == ops[..m] {}
  }

  lemma {:induction false} TouchInPrefix(ways: nat, ops: seq<Op>, tag: nat, m: nat)
    requires LastTouch(ways, ops, tag) <= m <= |ops|
    ensures LastTouch(ways, ops[..m], tag) == LastTouch(ways, ops, tag)
  {
    hide Touches;
    if m < |ops| {
      var n := |ops| - 1;
      assert ops[..n][..m] == ops[..m];
      TouchInPrefix(ways, ops[..n], tag, m);
    } else {
      assert ops[..m] == ops;
    }
  }

  lemma SubsetSize(a: set<nat>, b: set<nat>)
    requires a <= b
    ensures |a| <= |b|
  {
    assert b == a + (b - a);
  }

  // ---- the lines of a set are the ones kept --------------------------------------------------

  /** The set's lines, in the order of their last use, are exactly the lines kept. */
  ghost predicate Exact(ways: nat, ops: seq<Op>, r: seq<Line>) {
    && |r| <= ways
    && (forall i, j :: 0 <= i < j < |r| ==> LastTouch(ways, ops, r[i].tag) > LastTouch(ways, ops, r[j].tag))
    && (forall t: nat :: Resident(r, t) <==> Kept(ways, ops, t))
  }

  function FrontTags(r: seq<Line>, i: nat): (s: set<nat>)
    requires i <= |r|
  {
    set k | 0 <= k < i :: r[k].tag
  }

  lemma {:induction false} FrontSize(r: seq<Line>, i: nat)
    requires i <= |r| && forall a, b :: 0 <= a < b < |r| ==> r[a].tag != r[b].tag
    ensures |FrontTags(r, i)| == i
  {
    if i > 0 {
      FrontSize(r, i - 1);
      assert FrontTags(r, i) == FrontTags(r, i - 1) + {r[i - 1].tag};
      assert r[i - 1].tag !in FrontTags(r, i - 1);
    }
  }

  lemma ResidentAt(r: seq<Line>, i: nat)
    requires i < |r|
    ensures Resident(r, r[i].tag)
  {
  }

  lemma ExactDistinct(ways: nat, ops: seq<Op>, r: seq<Line>)
    requires Exact(ways, ops, r)
    ensures forall a, b :: 0 <= a < b < |r| ==> r[a].tag != r[b].tag
  {
    hide Kept, LastTouch, Resident;
  }

  /** What is newer than a kept line is kept. */
  lemma NewerIsKept(ways: nat, ops: seq<Op>, tag: nat, t: nat)
    requires Kept(ways, ops, tag) && t in Newer(ways, ops, tag)
    ensures Kept(ways, ops, t)
  {
    hide LastTouch, LastFlush, Tags;
    forall m | LastTouch(ways, ops, t) <= m <= |ops| ensures |Newer(ways, ops[..m], t)| < ways {
      TouchInPrefix(ways, ops, t, m);
      TouchInPrefix(ways, ops, tag, m);
      SubsetSize(Newer(ways, ops[..m], t), Newer(ways, ops[..m], tag));
    }
  }

  /** The newer lines stand in front. */
  lemma NewerIsFront(ways: nat, ops: seq<Op>, r: seq<Line>, i: nat)
    requires Exact(ways, ops, r) && i < |r|
    ensures Newer(ways, ops, r[i].tag) == FrontTags(r, i)
    ensures |Newer(ways, ops, r[i].tag)| == i
  {
    hide LastTouch, LastFlush, Tags, Resident;
    var tag := r[i].tag;
    ResidentAt(r, i);
    forall t | t in Newer(ways, ops, tag) ensures t in FrontTags(r, i) {
      NewerIsKept(ways, ops, tag, t);
      ResidentIndex(r, t);
    }
    forall t | t in FrontTags(r, i) ensures t in Newer(ways, ops, tag) {
      var k :| 0 <= k < i && r[k].tag == t;
      ResidentAt(r, k);
      LiveIsSeen(ways, ops, t);
    }
    ExactDistinct(ways, ops, r);
    FrontSize(r, i);
  }

  lemma ResidentIndex(r: seq<Line>, t: nat)
    requires Resident(r, t)
    ensures exists k :: 0 <= k < |r| && r[k].tag == t
  {
    assert r[Find(r, t)].tag == t;
  }

  lemma NewerPush(ways: nat, ops: seq<Op>, o: Op, t: nat)
    requires t != o.tag
    ensures Newer(ways, ops + [o], t) ==
              (if Touches(ways, ops, o, o.tag) then Newer(ways, ops, t) + {o.tag}
               else if o.kind == Flush then Newer(ways, ops, t) - {o.tag} else Newer(ways, ops, t))
  {
    var ops' := ops + [o];
    Push(ways, ops, o, t);
    Push(ways, ops, o, o.tag);
    assert o.kind == Flush ==> !Touches(ways, ops, o, o.tag);
    hide Tags, LastTouch, LastFlush;
    forall u | u != o.tag && u != t ensures u in Newer(ways, ops', t) <==> u in Newer(ways, ops, t) {
      Push(ways, ops, o, u);
    }
    if Live(ways, ops, o.tag) { LiveIsSeen(ways, ops, o.tag); }
    hide Touches, Run;
  }

  // what the operations do to the line of another tag

  lemma ResidentIff(r: seq<Line>, t: nat)
    ensures Resident(r, t) <==> exists k :: 0 <= k < |r| && r[k].tag == t
  {
    if Resident(r, t) { ResidentIndex(r, t); }
  }

  lemma DropKeeps(r: seq<Line>, i: nat, t: nat)
    requires i < |r| && r[i].tag != t
    ensures (exists k :: 0 <= k < |r| && r[k].tag == t) <==> (exists k :: 0 <= k < |Drop(r, i)| && Drop(r, i)[k].tag == t)
  {
    var d := Drop(r, i);
    if k :| 0 <= k < |r| && r[k].tag == t {
      assert d[if k < i then k else k - 1].tag == t;
    }
    if k :| 0 <= k < |d| && d[k].tag == t {
      assert r[if k < i then k else k + 1].tag == t;
    }
  }

  /** A look-up or a flush leaves the lines of the other tags. */
  lemma OthersStay(ways: nat, r: seq<Line>, o: Op, t: nat)
    requires t != o.tag && o.kind != Fill
    ensures Resident(Do(ways, r, o), t) <==> Resident(r, t)
  {
    hide Resident;
    var i := Find(r, o.tag);
    var r' := Do(ways, r, o);
    ResidentIff(r, t);
    ResidentIff(r', t);
    if i < |r| {
      DropKeeps(r, i, t);
      if o.kind == Look {
        assert r'[1..] == Drop(r, i);
        assert forall k :: 0 <= k < |r'| && r'[k].tag == t ==> k > 0 && r'[1..][k - 1].tag == t;
        assert forall k :: 0 <= k < |Drop(r, i)| ==> r'[k + 1] == Drop(r, i)[k];
      }
    }
  }

  /** A fill takes the last line of a full set. */
  lemma FillTakesLast(ways: nat, r: seq<Line>, o: Op, i: nat)
    requires o.kind == Fill && |r| <= ways && i < |r| && r[i].tag != o.tag
    requires forall a, b :: 0 <= a < b < |r| ==> r[a].tag != r[b].tag
    ensures Resident(Do(ways, r, o), r[i].tag) <==> i + 1 < ways
  {
    hide Resident;
    var r' := Do(ways, r, o);
    ResidentIff(r', r[i].tag);
    if i + 1 < ways {
      assert i + 1 < |r'| && r'[i + 1] == r[i];
    } else {
      assert forall k :: 0 < k < |r'| ==> r'[k] == r[k - 1];
    }
  }

  lemma FillAdds(ways: nat, r: seq<Line>, o: Op, t: nat)
    requires o.kind == Fill && t != o.tag && !Resident(r, t)
    ensures !Resident(Do(ways, r, o), t)
  {
    hide Resident;
    var r' := Do(ways, r, o);
    ResidentIff(r, t);
    ResidentIff(r', t);
    assert forall k :: 0 < k < |r'| ==> r'[k] == r[k - 1];
  }

  /** The operation's own tag. */
  lemma OwnTag(ways: nat, ops: seq<Op>, r: seq<Line>, o: Op)
    requires ways > 0 && Exact(ways, ops, r) && r == Run(ways, ops)
    ensures Resident(Do(ways, r, o), o.tag) <==> Kept(ways, ops + [o], o.tag)
  {
    hide Newer, Tags, LastTouch, LastFlush, Run, Resident;
    var ops', t := ops + [o], o.tag;
    Push(ways, ops, o, t);
    if Touches(ways, ops, o, t) {
      JustTouched(ways, ops, o);
      assert ops'[..|ops'|] == ops';
      TouchedIsResident(ways, r, o);
    } else {
      KeptPush(ways, ops, o, t);
      if o.kind == Flush {
        ExactDistinct(ways, ops, r);
        FlushedIsGone(r, t);
      } else {
        MissLeaves(r, o);
      }
    }
  }

  lemma MissLeaves(r: seq<Line>, o: Op)
    requires !Resident(r, o.tag)
    ensures Access(r, o.tag, o.offset, o.node, o.isLoad) == r
  {
  }

  lemma JustTouched(ways: nat, ops: seq<Op>, o: Op)
    requires Touches(ways, ops, o, o.tag)
    ensures Newer(ways, ops + [o], o.tag) == {}
  {
    Push(ways, ops, o, o.tag);
    forall u | u in Tags(ops + [o]) && u != o.tag ensures LastTouch(ways, ops + [o], u) <= |ops| { Push(ways, ops, o, u); }
    hide LastTouch, LastFlush, Run;
  }

  lemma TouchedIsResident(ways: nat, r: seq<Line>, o: Op)
    requires o.kind == Fill || (o.kind == Look && Resident(r, o.tag))
    ensures Resident(Do(ways, r, o), o.tag)
  {
  }

  lemma FlushedIsGone(r: seq<Line>, t: nat)
    requires forall a, b :: 0 <= a < b < |r| ==> r[a].tag != r[b].tag
    ensures !Resident(Evict(r, t), t)
  {
    hide Resident;
    var i, r' := Find(r, t), Evict(r, t);
    ResidentIff(r', t);
    if i < |r| { assert forall k :: 0 <= k < |r'| ==> r'[k] == r[if k < i then k else k + 1]; }
  }

  /** Another tag. */
  lemma OtherTags(ways: nat, ops: seq<Op>, r: seq<Line>, o: Op, t: nat)
    requires ways > 0 && Exact(ways, ops, r) && r == Run(ways, ops) && t != o.tag
    requires o.kind == Fill ==> !Resident(r, o.tag)
    ensures Resident(Do(ways, r, o), t) <==> Kept(ways, ops + [o], t)
  {
    hide Newer, Tags, LastTouch, LastFlush, Run, Do, Kept;
    KeptPush(ways, ops, o, t);
    NewerPush(ways, ops, o, t);
    ExactDistinct(ways, ops, r);
    if Resident(r, t) {
      ResidentIndex(r, t);
      var i :| 0 <= i < |r| && r[i].tag == t;
      NewerIsFront(ways, ops, r, i);
      if o.kind == Fill {
        NotInFront(r, i, o.tag);
        FillTakesLast(ways, r, o, i);
      } else {
        OthersStay(ways, r, o, t);
        FewNewer(ways, ops, r, o, i);
      }
    } else {
      if o.kind == Fill { FillAdds(ways, r, o, t); } else { OthersStay(ways, r, o, t); }
    }
  }

  lemma NotInFront(r: seq<Line>, i: nat, t: nat)
    requires i <= |r| && !Resident(r, t)
    ensures t !in FrontTags(r, i) && |FrontTags(r, i) + {t}| == |FrontTags(r, i)| + 1
  {
    hide Resident;
    ResidentIff(r, t);
  }

  /** A look-up or a flush makes no line the last but one way too old. */
  lemma FewNewer(ways: nat, ops: seq<Op>, r: seq<Line>, o: Op, i: nat)
    requires Exact(ways, ops, r) && r == Run(ways, ops) && i < |r| && r[i].tag != o.tag && o.kind != Fill
    ensures |Newer(ways, ops + [o], r[i].tag)| < ways
  {
    hide Newer, Tags, LastTouch, LastFlush, Run, Kept;
    NewerPush(ways, ops, o, r[i].tag);
    NewerIsFront(ways, ops, r, i);
    var n, f := Newer(ways, ops + [o], r[i].tag), FrontTags(r, i);
    if Touches(ways, ops, o, o.tag) {
      ResidentIndex(r, o.tag);
      var k :| 0 <= k < |r| && r[k].tag == o.tag;
      if k < i { assert f + {o.tag} == f; }
    } else {
      SubsetSize(n, f);
    }
  }

  // the order of the last uses

  ghost predicate Descending(ways: nat, ops: seq<Op>, r: seq<Line>) {
    forall i, j :: 0 <= i < j < |r| ==> LastTouch(ways, ops, r[i].tag) > LastTouch(ways, ops, r[j].tag)
  }

  /** The lines of the other tags keep their last use. */
  lemma UsesStay(ways: nat, ops: seq<Op>, r: seq<Line>, o: Op)
    ensures forall k :: 0 <= k < |r| && (r[k].tag != o.tag || !Touches(ways, ops, o, o.tag)) ==>
              LastTouch(ways, ops + [o], r[k].tag) == LastTouch(ways, ops, r[k].tag)
  {
    hide LastTouch;
    forall k | 0 <= k < |r| && (r[k].tag != o.tag || !Touches(ways, ops, o, o.tag))
      ensures LastTouch(ways, ops + [o], r[k].tag) == LastTouch(ways, ops, r[k].tag)
    {
      Push(ways, ops, o, r[k].tag);
    }
  }

  lemma PartDescends(ways: nat, ops: seq<Op>, r: seq<Line>, o: Op, n: nat, i: nat)
    requires Descending(ways, ops, r) && n <= i <= |r|
    requires forall k :: 0 <= k < |r| && !(n <= k < i) ==> r[k].tag != o.tag || !Touches(ways, ops, o, o.tag)
    ensures Descending(ways, ops + [o], r[..n] + r[i..])
    ensures forall k :: 0 <= k < |r[..n] + r[i..]| ==> LastTouch(ways, ops + [o], (r[..n] + r[i..])[k].tag) <= |ops|
  {
    UsesStay(ways, ops, r, o);
    hide LastTouch, Touches;
    var d := r[..n] + r[i..];
    assert forall k :: 0 <= k < |d| ==> d[k] == r[if k < n then k else k + (i - n)];
  }

  lemma ConsDescends(ways: nat, ops: seq<Op>, l: Line, d: seq<Line>)
    requires Descending(ways, ops, d) && LastTouch(ways, ops, l.tag) == |ops|
    requires forall k :: 0 <= k < |d| ==> LastTouch(ways, ops, d[k].tag) < |ops|
    ensures Descending(ways, ops, [l] + d)
  {
    hide LastTouch;
  }

  /** What an operation leaves of the list, behind the line it puts in front, if any. */
  lemma ListAfter(ways: nat, r: seq<Line>, o: Op) returns (n: nat, i: nat)
    requires ways > 0 && |r| <= ways && (forall a, b :: 0 <= a < b < |r| ==> r[a].tag != r[b].tag)
    requires o.kind == Fill ==> !Resident(r, o.tag)
    ensures n <= i <= |r| && |Do(ways, r, o)| <= ways
    ensures forall k :: 0 <= k < |r| && !(n <= k < i) ==> r[k].tag != o.tag
    ensures var rest := r[..n] + r[i..];
            if o.kind == Fill || (o.kind == Look && Resident(r, o.tag))
            then Do(ways, r, o) != [] && Do(ways, r, o) == [Do(ways, r, o)[0]] + rest && Do(ways, r, o)[0].tag == o.tag
            else Do(ways, r, o) == rest
  {
    var f := Find(r, o.tag);
    if f == |r| {
      n, i := if o.kind == Fill && |r| >= ways then |r| - 1 else |r|, |r|;
      assert r[..|r|] + r[|r|..] == r;
      assert r[..n] + r[|r|..] == r[..n];
    } else {
      n, i := f, f + 1;
    }
  }

  lemma OrderPush(ways: nat, ops: seq<Op>, r: seq<Line>, o: Op)
    requires ways > 0 && Exact(ways, ops, r) && r == Run(ways, ops)
    requires o.kind == Fill ==> !Resident(r, o.tag)
    ensures Descending(ways, ops + [o], Do(ways, r, o)) && |Do(ways, r, o)| <= ways
  {
    hide LastTouch, LastFlush, Tags, Run, Kept, Do, Resident;
    ExactDistinct(ways, ops, r);
    var n, i := ListAfter(ways, r, o);
    PartDescends(ways, ops, r, o, n, i);
    Push(ways, ops, o, o.tag);
    if o.kind == Fill || (o.kind == Look && Resident(r, o.tag)) {
      ConsDescends(ways, ops + [o], Do(ways, r, o)[0], r[..n] + r[i..]);
    }
  }

  lemma ProperPrefix(ways: nat, ops: seq<Op>)
    requires Proper(ways, ops) && |ops| > 0
    ensures var n := |ops| - 1;
            Proper(ways, ops[..n]) && (ops[n].kind == Fill ==> !Resident(Run(ways, ops[..n]), ops[n].tag))
  {
    hide Resident, Run;
    var n := |ops| - 1;
    assert forall k :: 0 <= k < n ==> ops[..n][..k] == ops[..k];
  }

  lemma {:induction false} RunIsExact(ways: nat, ops: seq<Op>)
    requires ways > 0 && Proper(ways, ops)
    ensures Exact(ways, ops, Run(ways, ops))
  {
    hide Kept, Resident, LastTouch, Do, Proper;
    if |ops| == 0 {
      NothingKept(ways, ops);
    } else {
      var n := |ops| - 1;
      var r, o := Run(ways, ops[..n]), ops[n];
      ProperPrefix(ways, ops);
      RunIsExact(ways, ops[..n]);
      assert ops == ops[..n] + [o];
      OrderPush(ways, ops[..n], r, o);
      OwnTag(ways, ops[..n], r, o);
      forall t: nat | t != o.tag ensures Resident(Do(ways, r, o), t) <==> Kept(ways, ops, t) {
        OtherTags(ways, ops[..n], r, o, t);
      }
    }
  }

  lemma NothingKept(ways: nat, ops: seq<Op>)
    requires |ops| == 0
    ensures Exact(ways, ops, [])
  {
  }

  /** After every proper run a line is resident if and only if it was used, not flushed since, and
      at no time since its last use were as many other lines newer as the set has ways. */
  lemma ResidentIffKept(ways: nat, ops: seq<Op>, tag: nat)
    requires ways > 0 && Proper(ways, ops)
    ensures Resident(Run(ways, ops), tag) <==> Kept(ways, ops, tag)
  {
    hide Kept, Resident, Run;
    RunIsExact(ways, ops);
  }

  /** The same for the whole cache: a line is in its set exactly when the calls that touched the
      set have kept it there. */
  lemma CacheHoldsKept(sets: nat, line: nat, ways: nat, ts: seq<Touch>, address: nat)
    requires sets + line <= 63 && ways > 0 && ProperAll(sets, line, ways, ts)
    ensures SetId(sets, line, address) < Pow2(sets)
    ensures var k, tag := SetId(sets, line, address), Tag(sets, line, address);
            Resident(RunAll(sets, line, ways, ts)[k], tag) <==> Kept(ways, Seen(sets, line, Only(sets, line, ts, k)), tag)
  {
    hide Kept, Resident, Run, Proper, ProperAll, RunAll, Seen, Only, Pow2, SetId, Tag;
    RebuiltIsAddress(sets, line, address);
    var k := SetId(sets, line, address);
    EachSetRuns(sets, line, ways, ts, k);
    ProperEach(sets, line, ways, ts, k);
    ResidentIffKept(ways, Seen(sets, line, Only(sets, line, ts, k)), Tag(sets, line, address));
  }

  // ---- without flushes -----------------------------------------------------------------------

  /** The other lines used since `tag` was. */
  function UsedSince(ways: nat, ops: seq<Op>, tag: nat): set<nat> {
    set t | t in Tags(ops) && t != tag && LastTouch(ways, ops, t) > LastTouch(ways, ops, tag)
  }

  lemma NewerGrows(ways: nat, ops: seq<Op>, tag: nat, m: nat)
    requires LastTouch(ways, ops, tag) <= m <= |ops|
    ensures Newer(ways, ops[..m], tag) <= UsedSince(ways, ops, tag)
  {
    hide Tags, LastFlush;
    forall t | t in Newer(ways, ops[..m], tag) ensures t in UsedSince(ways, ops, tag) {
      TouchInPrefix(ways, ops, tag, m);
      TouchGrows(ways, ops, t, m);
      LiveIsSeen(ways, ops, t);
    }
  }

  lemma {:induction false} TouchGrows(ways: nat, ops: seq<Op>, t: nat, m: nat)
    requires m <= |ops|
    ensures LastTouch(ways, ops[..m], t) <= LastTouch(ways, ops, t)
  {
    hide Touches;
    if m < |ops| {
      var n := |ops| - 1;
      assert ops[..n][..m] == ops[..m];
      TouchGrows(ways, ops[..n], t, m);
    } else {
      assert ops[..m] == ops;
    }
  }

  /** So, if no line was flushed since: a line that was filled is resident if and only if fewer
      than `ways` other lines were used since its last use. */
  lemma ResidentIffRecent(ways: nat, ops: seq<Op>, tag: nat)
    requires ways > 0 && Proper(ways, ops) && LastTouch(ways, ops, tag) > 0
    requires forall k :: LastTouch(ways, ops, tag) <= k < |ops| ==> ops[k].kind != Flush
    ensures Resident(Run(ways, ops), tag) <==> |UsedSince(ways, ops, tag)| < ways
  {
    hide Run, Tags, Resident;
    ResidentIffKept(ways, ops, tag);
    var n := LastTouch(ways, ops, tag);
    FlushBefore(ops, tag, n);
    forall t | LastTouch(ways, ops, t) > n ensures Live(ways, ops, t) { FlushBefore(ops, t, n); }
    assert Newer(ways, ops, tag) == UsedSince(ways, ops, tag);
    assert ops[..|ops|] == ops;
    TouchedHere(ways, ops, tag);
    forall m | n <= m <= |ops| ensures |Newer(ways, ops[..m], tag)| <= |UsedSince(ways, ops, tag)| {
      NewerGrows(ways, ops, tag, m);
      SubsetSize(Newer(ways, ops[..m], tag), UsedSince(ways, ops, tag));
    }
  }

  lemma {:induction false} FlushBefore(ops: seq<Op>, t: nat, n: nat)
    requires n <= |ops| && forall k :: n <= k < |ops| ==> ops[k].kind != Flush
    ensures LastFlush(ops, t) <= n
  {
    if n < |ops| { FlushBefore(ops[..|ops|-1], t, n); }
  }

  /** The last use is no flush. */
  lemma {:induction false} TouchedHere(ways: nat, ops: seq<Op>, t: nat)
    ensures LastTouch(ways, ops, t) > 0 ==> LastFlush(ops, t) != LastTouch(ways, ops, t)
  {
    hide Run, Resident;
    if |ops| > 0 { TouchedHere(ways, ops[..|ops|-1], t); }
  }

  const FOUR := [Op(Fill, 0, 0, 0, true), Op(Fill, 1, 0, 0, true), Op(Flush, 1, 0, 0, true), Op(Fill, 2, 0, 0, true)]

  lemma RunOfFour()
    ensures Run(2, FOUR[..0]) == [] && Run(2, FOUR[..1]) == [Line(0, 0, 0, 1, false)]
    ensures Run(2, FOUR[..3]) == [Line(0, 0, 0, 1, false)]
    ensures Run(2, FOUR) == [Line(2, 0, 0, 1, false), Line(0, 0, 0, 1, false)]
  {
    var la, lb := Line(0, 0, 0, 1, false), Line(1, 0, 0, 1, false);
    assert FOUR[..1][..0] == FOUR[..0] && FOUR[..2][..1] == FOUR[..1] && FOUR[..3][..2] == FOUR[..2] && FOUR[..3] == FOUR[..|FOUR|-1];
    assert Run(2, FOUR[..1]) == Do(2, [], FOUR[0]) == [la];
    assert Run(2, FOUR[..2]) == Do(2, [la], FOUR[1]) == [lb, la];
    assert Evict([lb, la], 1) == [la];
    assert Run(2, FOUR[..3]) == Do(2, [lb, la], FOUR[2]) == [la];
  }

  lemma UsesOfFour(t: nat)
    ensures LastTouch(2, FOUR, t) == if t == 0 then 1 else if t == 1 then 2 else if t == 2 then 4 else 0
    ensures t in Tags(FOUR) <==> t <= 2
  {
    hide Run, Do, Resident;
    assert FOUR == [FOUR[0]] + [FOUR[1]] + [FOUR[2]] + [FOUR[3]] && [FOUR[0]] == [] + [FOUR[0]];
    Push(2, [], FOUR[0], t);
    Push(2, [FOUR[0]], FOUR[1], t);
    Push(2, [FOUR[0]] + [FOUR[1]], FOUR[2], t);
    Push(2, [FOUR[0]] + [FOUR[1]] + [FOUR[2]], FOUR[3], t);
  }

  /** A flush makes room: a line may outlive as many other lines as the set has ways. */
  lemma FlushMakesRoom()
    ensures Proper(2, FOUR) && Resident(Run(2, FOUR), 0) && UsedSince(2, FOUR, 0) == {1, 2}
  {
    hide Run, LastTouch, Tags;
    RunOfFour();
    forall t: nat ensures t in UsedSince(2, FOUR, 0) <==> t == 1 || t == 2 { UsesOfFour(t); UsesOfFour(0); }
  }
}
