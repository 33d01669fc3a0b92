/** The address that is written back when a line is evicted. */
module WriteBack {
  import opened Wrappers
  import opened Recency
  import opened Arithmetic
  import opened CacheAddress

  /** An operation on the cache, by address. */
  datatype Touch = Touch(kind: Kind, address: nat, node: int, isLoad: bool)

  /** All in one set. */
  predicate InSet(sets: nat, line: nat, ts: seq<Touch>, k: nat)
    requires sets + line <= 63
  {
    forall i :: 0 <= i < |ts| ==> SetId(sets, line, ts[i].address) == k
  }

  function OpOf(sets: nat, line: nat, t: Touch): Op
    requires sets + line <= 63
  {
    Op(t.kind, Tag(sets, line, t.address), Offset(line, t.address), t.node, t.isLoad)
  }

  /** What one set sees of them. */
  function Seen(sets: nat, line: nat, ts: seq<Touch>): (ops: seq<Op>)
    requires sets + line <= 63
    ensures |ops| == |ts|
    ensures forall i :: 0 <= i < |ts| ==>
      ops[i] == Op(ts[i].kind, Tag(sets, line, ts[i].address), Offset(line, ts[i].address), ts[i].node, ts[i].isLoad)
  {
    seq(|ts|, i requires 0 <= i < |ts| => OpOf(sets, line, ts[i]))
  }

  /** The address rebuilt for a victim is the one last used in its line; every later operation
      of the set that uses a line uses another one. */
  lemma VictimAddress(sets: nat, line: nat, ways: nat, ts: seq<Touch>, k: nat, v: Line)
    requires sets + line <= 63 && ways > 0 && InSet(sets, line, ts, k) && Proper(ways, Seen(sets, line, ts))
    requires Victim(ways, Run(ways, Seen(sets, line, ts))) == Some(v)
    ensures var n := LastUse(Seen(sets, line, ts), v.tag);
            && n > 0 && ts[n - 1].kind != Flush
            && Rebuilt(sets, line, v.tag, k, v.offset) == ts[n - 1].address
            && forall i :: n <= i < |ts| && ts[i].kind != Flush ==> High(ts[i].address, line) != High(ts[n - 1].address, line)
  {
    hide Run, Proper, Rebuilt, Tag, SetId, Offset, High, Pow2;
    var ops := Seen(sets, line, ts);
    VictimIsLeastRecentlyUsed(ways, ops, v);
    var n := LastUse(ops, v.tag);
    RebuiltIsAddress(sets, line, ts[n - 1].address);
    forall i | n <= i < |ts| && ts[i].kind != Flush ensures High(ts[i].address, line) != High(ts[n - 1].address, line) {
      assert !Uses(ops[i], v.tag);
      SameLine(sets, line, ts[i].address, ts[n - 1].address);
    }
  }

  // ---- the whole cache ---------------------------------------------------------------

  /** A call touches the set of its address, and no other. */
  function Apply(sets: nat, line: nat, ways: nat, cs: seq<seq<Line>>, t: Touch): (r: seq<seq<Line>>)
    requires sets + line <= 63 && |cs| == Pow2(sets)
    ensures |r| == |cs|
  {
    RebuiltIsAddress(sets, line, t.address);
    var k := SetId(sets, line, t.address);
    cs[k := Do(ways, cs[k], OpOf(sets, line, t))]
  }

  function RunAll(sets: nat, line: nat, ways: nat, ts: seq<Touch>): (cs: seq<seq<Line>>)
    requires sets + line <= 63
    ensures |cs| == Pow2(sets)
  {
    if |ts| == 0 then seq(Pow2(sets), i => [])
    else Apply(sets, line, ways, RunAll(sets, line, ways, ts[..|ts|-1]), ts[|ts|-1])
  }

  /** The touches of set `k`. */
  function Only(sets: nat, line: nat, ts: seq<Touch>, k: nat): (r: seq<Touch>)
    requires sets + line <= 63
    ensures InSet(sets, line, r, k)
  {
    if |ts| == 0 then []
    else
      var t := ts[|ts|-1];
      Only(sets, line, ts[..|ts|-1], k) + (if SetId(sets, line, t.address) == k then [t] else [])
  }

  lemma SeenPush(sets: nat, line: nat, ts: seq<Touch>, t: Touch)
    requires sets + line <= 63
    ensures Seen(sets, line, ts + [t]) == Seen(sets, line, ts) + [OpOf(sets, line, t)]
  {
  }

  lemma RunPush(ways: nat, ops: seq<Op>, o: Op)
    ensures Run(ways, ops + [o]) == Do(ways, Run(ways, ops), o)
    ensures Proper(ways, ops) && (o.kind == Fill ==> !Resident(Run(ways, ops), o.tag)) ==> Proper(ways, ops + [o])
  {
    assert (ops + [o])[..|ops|] == ops;
    assert forall k :: 0 <= k < |ops| ==> (ops + [o])[..k] == ops[..k];
  }

  /** Every set of the cache holds what its own touches, and only they, made of it. */
  lemma {:induction false} EachSetRuns(sets: nat, line: nat, ways: nat, ts: seq<Touch>, k: nat)
    requires sets + line <= 63 && k < Pow2(sets)
    ensures RunAll(sets, line, ways, ts)[k] == Run(ways, Seen(sets, line, Only(sets, line, ts, k)))
  {
    hide Pow2, SetId, Tag, Offset, Do, Run, Seen;
    if |ts| == 0 {
      Nothing(ways, Seen(sets, line, []));
    } else {
      var rest, t := ts[..|ts|-1], ts[|ts|-1];
      EachSetRuns(sets, line, ways, rest, k);
      if SetId(sets, line, t.address) == k {
        SeenPush(sets, line, Only(sets, line, rest, k), t);
        RunPush(ways, Seen(sets, line, Only(sets, line, rest, k)), OpOf(sets, line, t));
      } else {
        assert Only(sets, line, ts, k) == Only(sets, line, rest, k);
      }
    }
  }

  lemma Nothing(ways: nat, ops: seq<Op>)
    requires |ops| == 0
    ensures Run(ways, ops) == []
  {
  }

  /** insert() is only called for a line that is not resident. */
  predicate ProperAll(sets: nat, line: nat, ways: nat, ts: seq<Touch>)
    requires sets + line <= 63
  {
    forall i :: 0 <= i < |ts| ==> MayFollow(sets, line, RunAll(sets, line, ways, ts[..i]), ts[i])
  }

  predicate MayFollow(sets: nat, line: nat, cs: seq<seq<Line>>, t: Touch)
    requires sets + line <= 63 && |cs| == Pow2(sets)
  {
    RebuiltIsAddress(sets, line, t.address);
    t.kind == Fill ==> !Resident(cs[SetId(sets, line, t.address)], Tag(sets, line, t.address))
  }

  lemma {:induction false} ProperEach(sets: nat, line: nat, ways: nat, ts: seq<Touch>, k: nat)
    requires sets + line <= 63 && k < Pow2(sets) && ProperAll(sets, line, ways, ts)
    ensures Proper(ways, Seen(sets, line, Only(sets, line, ts, k)))
  {
    hide Pow2, SetId, Tag, Offset, Do, Run, Seen, RunAll, Resident;
    if |ts| == 0 {
      NothingProper(ways, Seen(sets, line, []));
    } else {
      var rest, t := ts[..|ts|-1], ts[|ts|-1];
      assert forall i :: 0 <= i < |rest| ==> rest[..i] == ts[..i];
      ProperEach(sets, line, ways, rest, k);
      assert MayFollow(sets, line, RunAll(sets, line, ways, rest), t);
      if SetId(sets, line, t.address) == k {
        SeenPush(sets, line, Only(sets, line, rest, k), t);
        EachSetRuns(sets, line, ways, rest, k);
        hide Proper;
        RunPush(ways, Seen(sets, line, Only(sets, line, rest, k)), OpOf(sets, line, t));
      } else {
        assert Only(sets, line, ts, k) == Only(sets, line, rest, k);
      }
    }
  }

  lemma NothingProper(ways: nat, ops: seq<Op>)
    requires |ops| == 0
    ensures Proper(ways, ops)
  {
  }

  /** Touch `i` is the last one that used its line. */
  ghost predicate LastInLine(line: nat, ts: seq<Touch>, i: int) {
    && 0 <= i < |ts| && ts[i].kind != Flush
    && forall j :: i < j < |ts| && ts[j].kind != Flush ==> High(ts[j].address, line) != High(ts[i].address, line)
  }

  /** After any proper sequence of calls: the address rebuilt for the victim of any set is the
      one that was used last in the victim's line, of all calls to the cache, and the victim
      holds what its history says. */
  lemma CacheVictim(sets: nat, line: nat, ways: nat, ts: seq<Touch>, k: nat, v: Line)
    requires sets + line <= 63 && ways > 0 && k < Pow2(sets) && ProperAll(sets, line, ways, ts)
    requires Victim(ways, RunAll(sets, line, ways, ts)[k]) == Some(v)
    ensures exists i :: LastInLine(line, ts, i) && ts[i].address == Rebuilt(sets, line, v.tag, k, v.offset)
    ensures TellsHistory(Seen(sets, line, Only(sets, line, ts, k)), v)
  {
    hide *;
    var mine := Only(sets, line, ts, k);
    EachSetRuns(sets, line, ways, ts, k);
    ProperEach(sets, line, ways, ts, k);
    VictimIsLeastRecentlyUsed(ways, Seen(sets, line, mine), v);
    VictimAddress(sets, line, ways, mine, k, v);
    var n := LastUse(Seen(sets, line, mine), v.tag);
    IsLast(line, mine, n - 1);
    LastOfAll(sets, line, ts, k, n - 1);
  }

  lemma IsLast(line: nat, ts: seq<Touch>, i: nat)
    requires i < |ts| && ts[i].kind != Flush
    requires forall j :: i + 1 <= j < |ts| && ts[j].kind != Flush ==> High(ts[j].address, line) != High(ts[i].address, line)
    ensures LastInLine(line, ts, i)
  {
  }

  /** The last one in its set that used the line is the last one of all. */
  lemma {:induction false} LastOfAll(sets: nat, line: nat, ts: seq<Touch>, k: nat, i: nat)
    requires sets + line <= 63 && LastInLine(line, Only(sets, line, ts, k), i)
    ensures exists j :: LastInLine(line, ts, j) && ts[j].address == Only(sets, line, ts, k)[i].address
  {
    hide SetId, High;
    var rest, t, mine := ts[..|ts|-1], ts[|ts|-1], Only(sets, line, ts, k);
    var a := mine[i].address;
    if SetId(sets, line, t.address) == k && i == |mine| - 1 {
      assert LastInLine(line, ts, |ts| - 1);
    } else {
      assert forall j :: i <= j < |Only(sets, line, rest, k)| ==> mine[j] == Only(sets, line, rest, k)[j];
      LastOfAll(sets, line, rest, k, i);
      var j :| LastInLine(line, rest, j) && rest[j].address == a;
      SameLine(sets, line, t.address, a);
      if SetId(sets, line, t.address) == k { assert mine[|mine| - 1] == t; }
      assert LastInLine(line, ts, j);
    }
  }

  /** A line number fits the signed integer it is passed in, when a line has at least two bytes. */
  lemma LineNumberFits(sets: nat, line: nat, a: nat)
    requires sets + line <= 63 && line >= 1 && a < 0x1_0000_0000_0000_0000
    ensures LineNumber(sets, Tag(sets, line, a), SetId(sets, line, a)) < 0x8000_0000_0000_0000
  {
    hide Pow2, Tag, SetId, Offset;
    RebuiltIsAddress(sets, line, a);
    var n := LineNumber(sets, Tag(sets, line, a), SetId(sets, line, a));
    AtLeastTwo(line);
    Double(n, Pow2(line));
  }

  lemma Double(n: nat, m: nat)
    requires m >= 2
    ensures 2 * n <= n * m
  {
  }

  lemma AtLeastTwo(n: nat)
    requires n >= 1
    ensures Pow2(n) >= 2
  {
  }
}
