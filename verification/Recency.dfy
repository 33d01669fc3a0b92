/** A cache set as the sequence of its lines, most recently used first: the model that the
    linked list of FunctionalCache.cpp is proved against, and what it means in terms of the
    operations that were made. */
module Recency {
  import opened Wrappers

  datatype Line = Line(tag: nat, offset: nat, node: int, accesses: nat, dirty: bool)

  predicate Holds(r: seq<Line>, i: nat, tag: nat) { i < |r| && r[i].tag == tag }

  function Find(r: seq<Line>, tag: nat): (i: nat)
    ensures i <= |r|
    ensures forall k: nat :: k < i ==> r[k].tag != tag
    ensures i < |r| ==> r[i].tag == tag
  {
    if |r| == 0 then 0 else if r[0].tag == tag then 0 else 1 + Find(r[1..], tag)
  }

  predicate Resident(r: seq<Line>, tag: nat) { Find(r, tag) < |r| }

  function Drop(r: seq<Line>, i: nat): seq<Line>
    requires i < |r|
  {
    r[..i] + r[i+1..]
  }

  /** A hit moves the line to the front. */
  function Access(r: seq<Line>, tag: nat, offset: nat, node: int, isLoad: bool): seq<Line> {
    var i := Find(r, tag);
    if i == |r| then r
    else [r[i].(offset := offset, node := node, accesses := r[i].accesses + 1, dirty := r[i].dirty || !isLoad)] + Drop(r, i)
  }

  /** A new line goes to the front; in a full set the last one makes room. */
  function Insert(ways: nat, r: seq<Line>, tag: nat, offset: nat, node: int, isLoad: bool): seq<Line> {
    [Line(tag, offset, node, 1, !isLoad)] + (if |r| >= ways && |r| > 0 then r[..|r|-1] else r)
  }

  function Victim(ways: nat, r: seq<Line>): Option<Line> {
    if |r| >= ways && |r| > 0 then Some(r[|r|-1]) else None
  }

  function Evict(r: seq<Line>, tag: nat): seq<Line> {
    var i := Find(r, tag);
    if i == |r| then r else Drop(r, i)
  }

  // ---- runs --------------------------------------------------------------------------

  datatype Kind = Look | Fill | Flush
  datatype Op = Op(kind: Kind, tag: nat, offset: nat, node: int, isLoad: bool)

  function Do(ways: nat, r: seq<Line>, o: Op): seq<Line> {
    match o.kind
    case Look => Access(r, o.tag, o.offset, o.node, o.isLoad)
    case Fill => Insert(ways, r, o.tag, o.offset, o.node, o.isLoad)
    case Flush => Evict(r, o.tag)
  }

  function Run(ways: nat, ops: seq<Op>): seq<Line> {
    if |ops| == 0 then [] else Do(ways, Run(ways, ops[..|ops|-1]), ops[|ops|-1])
  }

  /** Lines are filled only while they are not resident. */
  predicate Proper(ways: nat, ops: seq<Op>) {
    forall k :: 0 <= k < |ops| && ops[k].kind == Fill ==> !Resident(Run(ways, ops[..k]), ops[k].tag)
  }

  predicate Uses(o: Op, tag: nat) { o.tag == tag && (o.kind == Look || o.kind == Fill) }

  /** One more than the index of the last operation that used the tag. */
  function LastUse(ops: seq<Op>, tag: nat): (n: nat)
    ensures n <= |ops| && (n > 0 ==> Uses(ops[n-1], tag))
    ensures forall k :: n <= k < |ops| ==> !Uses(ops[k], tag)
  {
    if |ops| == 0 then 0
    else if Uses(ops[|ops|-1], tag) then |ops|
    else LastUse(ops[..|ops|-1], tag)
  }

  /** One more than the index of the last operation that filled the tag's line. */
  function LastFill(ops: seq<Op>, tag: nat): (n: nat)
    ensures n <= |ops| && (n > 0 ==> ops[n-1].kind == Fill && ops[n-1].tag == tag)
    ensures forall k :: n <= k < |ops| ==> !(ops[k].kind == Fill && ops[k].tag == tag)
  {
    if |ops| == 0 then 0
    else if ops[|ops|-1].kind == Fill && ops[|ops|-1].tag == tag then |ops|
    else LastFill(ops[..|ops|-1], tag)
  }

  /** The line was stored to since it was filled. */
  predicate StoredSinceFill(ops: seq<Op>, tag: nat) {
    exists k :: LastFill(ops, tag) <= k + 1 <= |ops| && k >= 0 && Uses(ops[k], tag) && !ops[k].isLoad
  }

  /** How often the line was used since it was last filled, the filling included. */
  function UseCount(ops: seq<Op>, tag: nat): nat {
    if |ops| == 0 then 0
    else
      var o := ops[|ops|-1];
      if !Uses(o, tag) then UseCount(ops[..|ops|-1], tag)
      else if o.kind == Fill then 1 else UseCount(ops[..|ops|-1], tag) + 1
  }

  /** Line `l` is what the operations made of it. */
  ghost predicate TellsHistory(ops: seq<Op>, l: Line) {
    && 0 < LastFill(ops, l.tag) <= LastUse(ops, l.tag)
    && l.offset == ops[LastUse(ops, l.tag) - 1].offset
    && l.node == ops[LastUse(ops, l.tag) - 1].node
    && (l.dirty <==> StoredSinceFill(ops, l.tag))
    && l.accesses == UseCount(ops, l.tag)
  }

  ghost predicate Right(ways: nat, ops: seq<Op>, r: seq<Line>) {
    && |r| <= ways
    && (forall i, j :: 0 <= i < j < |r| ==> LastUse(ops, r[i].tag) > LastUse(ops, r[j].tag))
    && (forall i :: 0 <= i < |r| ==> TellsHistory(ops, r[i]))
  }

  lemma LinesDiffer(ways: nat, ops: seq<Op>, r: seq<Line>)
    requires Right(ways, ops, r)
    ensures forall i, j :: 0 <= i < j < |r| ==> r[i].tag != r[j].tag
  {
  }

  /** An operation on another tag changes nothing in a line's history. */
  lemma OtherTag(ops: seq<Op>, o: Op, l: Line)
    requires TellsHistory(ops, l) && (o.tag != l.tag || o.kind == Flush)
    ensures TellsHistory(ops + [o], l) && LastUse(ops + [o], l.tag) == LastUse(ops, l.tag)
  {
    var ops' := ops + [o];
    assert ops'[..|ops|] == ops;
    if StoredSinceFill(ops, l.tag) {
      var k :| LastFill(ops, l.tag) <= k + 1 <= |ops| && k >= 0 && Uses(ops[k], l.tag) && !ops[k].isLoad;
      assert Uses(ops'[k], l.tag) && !ops'[k].isLoad;
    }
    if StoredSinceFill(ops', l.tag) {
      var k :| LastFill(ops', l.tag) <= k + 1 <= |ops'| && k >= 0 && Uses(ops'[k], l.tag) && !ops'[k].isLoad;
      assert Uses(ops[k], l.tag) && !ops[k].isLoad;
    }
  }

  /** A hit: the line's last use is now. */
  lemma HitHistory(ops: seq<Op>, o: Op, l: Line)
    requires TellsHistory(ops, l) && o.tag == l.tag && o.kind == Look
    ensures TellsHistory(ops + [o], l.(offset := o.offset, node := o.node, accesses := l.accesses + 1, dirty := l.dirty || !o.isLoad))
    ensures LastUse(ops + [o], l.tag) == |ops| + 1
  {
    var ops' := ops + [o];
    assert ops'[..|ops|] == ops;
    if StoredSinceFill(ops, l.tag) {
      var k :| LastFill(ops, l.tag) <= k + 1 <= |ops| && k >= 0 && Uses(ops[k], l.tag) && !ops[k].isLoad;
      assert Uses(ops'[k], l.tag) && !ops'[k].isLoad;
    }
    if !o.isLoad { assert Uses(ops'[|ops|], l.tag); }
    if StoredSinceFill(ops', l.tag) {
      var k :| LastFill(ops', l.tag) <= k + 1 <= |ops'| && k >= 0 && Uses(ops'[k], l.tag) && !ops'[k].isLoad;
      assert k < |ops| ==> Uses(ops[k], l.tag) && !ops[k].isLoad;
    }
  }

  lemma FillHistory(ops: seq<Op>, o: Op)
    requires o.kind == Fill
    ensures TellsHistory(ops + [o], Line(o.tag, o.offset, o.node, 1, !o.isLoad))
    ensures LastUse(ops + [o], o.tag) == |ops| + 1
  {
    var ops' := ops + [o];
    assert ops'[..|ops|] == ops;
    if !o.isLoad { assert Uses(ops'[|ops|], o.tag); }
  }

  /** After every proper run: the lines stand in the order of their last use, each holds the
      offset and the node of that use, counts its uses since it was filled, and its dirty flag
      says whether it was stored to since then. */
  lemma {:induction false} RunIsRight(ways: nat, ops: seq<Op>)
    requires ways > 0 && Proper(ways, ops)
    ensures Right(ways, ops, Run(ways, ops))
  {
    if |ops| > 0 {
      var n := |ops| - 1;
      var r, o := Run(ways, ops[..n]), ops[n];
      assert forall k :: 0 <= k < n ==> ops[..n][..k] == ops[..k];
      RunIsRight(ways, ops[..n]);
      assert ops == ops[..n] + [o];
      DoIsRight(ways, ops[..n], r, o);
    }
  }

  /** The lines of another tag (or all of them, for a flush) keep their history. */
  lemma OthersKeep(ways: nat, ops: seq<Op>, r: seq<Line>, o: Op, i: nat)
    requires Right(ways, ops, r) && i == Find(r, o.tag)
    ensures forall k :: 0 <= k < |r| && (k != i || o.kind == Flush) ==>
      TellsHistory(ops + [o], r[k]) && LastUse(ops + [o], r[k].tag) == LastUse(ops, r[k].tag)
  {
    hide TellsHistory, LastUse;
    LinesDiffer(ways, ops, r);
    forall k | 0 <= k < |r| && (k != i || o.kind == Flush)
      ensures TellsHistory(ops + [o], r[k]) && LastUse(ops + [o], r[k].tag) == LastUse(ops, r[k].tag)
    {
      OtherTag(ops, o, r[k]);
    }
  }

  lemma DoIsRight(ways: nat, ops: seq<Op>, r: seq<Line>, o: Op)
    requires ways > 0 && Right(ways, ops, r) && (o.kind == Fill ==> !Resident(r, o.tag))
    ensures Right(ways, ops + [o], Do(ways, r, o))
  {
    hide *;
    match o.kind
    case Look => LookIsRight(ways, ops, r, o);
    case Fill => FillIsRight(ways, ops, r, o);
    case Flush => FlushIsRight(ways, ops, r, o);
  }

  lemma LookIsRight(ways: nat, ops: seq<Op>, r: seq<Line>, o: Op)
    requires Right(ways, ops, r) && o.kind == Look
    ensures Right(ways, ops + [o], Do(ways, r, o))
  {
    hide TellsHistory, LastUse;
    var i := Find(r, o.tag);
    OthersKeep(ways, ops, r, o, i);
    if i < |r| {
      assert TellsHistory(ops, r[i]);
      HitHistory(ops, o, r[i]);
      FrontIsRight(ways, ops, ops + [o], r, i, Do(ways, r, o)[0]);
    }
  }

  /** One line moves to the front with the latest use, the others keep theirs. */
  lemma FrontIsRight(ways: nat, ops: seq<Op>, ops': seq<Op>, r: seq<Line>, i: nat, l: Line)
    requires Right(ways, ops, r) && i < |r| && |ops'| == |ops| + 1
    requires TellsHistory(ops', l) && LastUse(ops', l.tag) == |ops'|
    requires forall k :: 0 <= k < |r| && k != i ==> TellsHistory(ops', r[k]) && LastUse(ops', r[k].tag) == LastUse(ops, r[k].tag)
    ensures Right(ways, ops', [l] + Drop(r, i))
  {
    hide TellsHistory, LastUse;
    var d := Drop(r, i);
    assert forall j :: 0 <= j < i ==> d[j] == r[j];
    assert forall j :: i <= j < |d| ==> d[j] == r[j + 1];
    DroppedIsRight(ways, ops, ops', r, i, d);
    Consed(ways, ops', l, d);
  }

  lemma DroppedIsRight(ways: nat, ops: seq<Op>, ops': seq<Op>, r: seq<Line>, i: nat, d: seq<Line>)
    requires Right(ways, ops, r) && i < |r| && |d| == |r| - 1
    requires forall j :: 0 <= j < i ==> d[j] == r[j]
    requires forall j :: i <= j < |d| ==> d[j] == r[j + 1]
    requires forall k :: 0 <= k < |r| && k != i ==> TellsHistory(ops', r[k]) && LastUse(ops', r[k].tag) == LastUse(ops, r[k].tag)
    ensures |d| < ways && Right(ways, ops', d)
    ensures forall j :: 0 <= j < |d| ==> LastUse(ops', d[j].tag) <= |ops|
  {
    hide TellsHistory, LastUse;
    forall j, k | 0 <= j < k < |d| ensures LastUse(ops', d[j].tag) > LastUse(ops', d[k].tag) {
      var j', k' := if j < i then j else j + 1, if k < i then k else k + 1;
      assert d[j] == r[j'] && d[k] == r[k'];
    }
  }

  lemma Consed(ways: nat, ops: seq<Op>, l: Line, d: seq<Line>)
    requires |d| < ways && Right(ways, ops, d) && TellsHistory(ops, l)
    requires forall j :: 0 <= j < |d| ==> LastUse(ops, d[j].tag) < LastUse(ops, l.tag)
    ensures Right(ways, ops, [l] + d)
  {
    hide TellsHistory, LastUse;
  }

  lemma FillIsRight(ways: nat, ops: seq<Op>, r: seq<Line>, o: Op)
    requires ways > 0 && Right(ways, ops, r) && o.kind == Fill && !Resident(r, o.tag)
    ensures Right(ways, ops + [o], Do(ways, r, o))
  {
    hide TellsHistory, LastUse;
    OthersKeep(ways, ops, r, o, Find(r, o.tag));
    FillHistory(ops, o);
  }

  lemma FlushIsRight(ways: nat, ops: seq<Op>, r: seq<Line>, o: Op)
    requires Right(ways, ops, r) && o.kind == Flush
    ensures Right(ways, ops + [o], Do(ways, r, o))
  {
    hide TellsHistory, LastUse;
    OthersKeep(ways, ops, r, o, Find(r, o.tag));
  }

  /** The victim of a full set is the line whose last use is longest ago. */
  lemma VictimIsLeastRecentlyUsed(ways: nat, ops: seq<Op>, v: Line)
    requires ways > 0 && Proper(ways, ops) && Victim(ways, Run(ways, ops)) == Some(v)
    ensures |Run(ways, ops)| == ways
    ensures forall l :: l in Run(ways, ops) && l != v ==> LastUse(ops, v.tag) < LastUse(ops, l.tag)
    ensures TellsHistory(ops, v)
  {
    hide TellsHistory, LastUse, Run, Proper;
    RunIsRight(ways, ops);
  }
}
