/** The tracer's buffer and the simulator's reader as they run, and the round trip from one to
    the other. */
module TraceBuffer {
  import opened Wrappers
  import opened Trace

  /** insert_mess and write_mess of one thread. */
  class Tracer {
    const tid: int
    const buf: array<int>
    var sent: seq<seq<int>>
    var closed: bool
    ghost var records: seq<Record>
    ghost var cfs: seq<Record>
    ghost var mems: seq<Record>
    ghost var sentCfs: seq<Record>
    ghost var sentMems: seq<Record>

    ghost predicate Valid()
      reads this, buf
    {
      && buf.Length == LENGTH
      && !closed && Written(records, sent, buf[..], cfs, mems, sentCfs, sentMems)
    }

    constructor (tid: int)
      ensures Valid() && records == [] && fresh(buf)
    {
      this.tid := tid;
      buf := new int[LENGTH](i => 0);
      sent, closed, records, cfs, mems, sentCfs, sentMems := [], false, [], [], [], [], [];
    }

    /** write_mess: the whole buffer goes out. */
    method WriteMess()
      requires buf.Length == LENGTH
      modifies this`sent, buf
      ensures buf[..] == old(buf[..])[0 := tid] && sent == old(sent) + [buf[..]]
    {
      buf[0] := tid;
      sent := sent + [buf[..]];
    }

    /** The message is sent and a new one begins. */
    method Flush()
      requires Valid() && (|cfs| > 0 || |mems| > 0)
      modifies this`sent, this`cfs, this`mems, this`sentCfs, this`sentMems, buf
      ensures Valid() && cfs == [] && mems == []
    {
      hide Written;
      ghost var m, before := buf[..], sent;
      WriteMess();
      ghost var out := buf[..];
      buf[1] := 0;
      buf[2] := 0;
      assert buf[..] == out[1 := 0][2 := 0];
      FlushKeeps(records, before, m, out, tid, buf[..], cfs, mems, sentCfs, sentMems);
      sentCfs, sentMems := sentCfs + cfs, sentMems + mems;
      cfs, mems := [], [];
    }

    /** insert_mess with a control-flow record. */
    method InsertBranch(r: Record)
      requires Valid() && r.Branch?
      modifies this, buf
      ensures Valid() && records == old(records) + [r]
    {
      hide Written;
      Regions(records, sent, buf[..], cfs, mems, sentCfs, sentMems);
      var cf, mem := buf[1] * 3 + 3, LENGTH - buf[2] * 5;
      if cf + 3 > mem {
        Flush();
        Regions(records, sent, buf[..], cfs, mems, sentCfs, sentMems);
        cf, mem := 3, LENGTH;
      }
      ghost var m := buf[..];
      var data := Words(r);
      Store3(cf, data);
      buf[1] := buf[1] + 1;
      BranchKeeps(records, sent, m, buf[..], cfs, mems, sentCfs, sentMems, r);
      records, cfs := records + [r], cfs + [r];
    }

    /** insert_mess with a memory record. */
    method InsertAccess(r: Record)
      requires Valid() && r.Memory? && Trace.Valid(r)
      modifies this, buf
      ensures Valid() && records == old(records) + [r]
    {
      hide Written;
      Regions(records, sent, buf[..], cfs, mems, sentCfs, sentMems);
      var cf, mem := buf[1] * 3 + 3, LENGTH - buf[2] * 5;
      if mem - 5 < cf {
        Flush();
        Regions(records, sent, buf[..], cfs, mems, sentCfs, sentMems);
        cf, mem := 3, LENGTH;
      }
      ghost var m := buf[..];
      mem := mem - 5;
      var data := Words(r);
      Store5(mem, data);
      buf[2] := buf[2] + 1;
      AccessKeeps(records, sent, m, buf[..], cfs, mems, sentCfs, sentMems, r);
      records, mems := records + [r], mems + [r];
    }

    /** insert_mess at the end of the program: what was sent is read back as what was recorded,
        branches and accesses each in their order, and only now is the trace finished. */
    method Close()
      requires Valid()
      modifies this, buf
      ensures closed && records == old(records)
      ensures ReadAll(sent, FRESH) == Some(Complete(records))
      ensures |sent| > 0 && ReadAll(sent[..|sent|-1], FRESH).Some? && !ReadAll(sent[..|sent|-1], FRESH).value.finished
    {
      hide Written;
      Regions(records, sent, buf[..], cfs, mems, sentCfs, sentMems);
      var cf, mem := buf[1] * 3 + 3, LENGTH - buf[2] * 5;
      if cf + 3 > mem - 5 {
        Flush();
        Regions(records, sent, buf[..], cfs, mems, sentCfs, sentMems);
        cf, mem := 3, LENGTH;
      }
      ghost var m, before := buf[..], sent;
      mem := mem - 5;
      Store3(cf, [-1, -1, -1]);
      Store5(mem, [-1, -1, -1, -1, -1]);
      buf[1] := buf[1] + 1;
      buf[2] := buf[2] + 1;
      ghost var last := buf[..];
      WriteMess();
      CloseKeeps(records, before, m, last, tid, buf[..], cfs, mems, sentCfs, sentMems);
      assert sent[..|sent|-1] == before;
      closed := true;
    }

    /** memcpy of a control-flow record. */
    method Store3(at: nat, data: seq<int>)
      requires buf.Length == LENGTH && 3 <= at <= LENGTH - 3 && |data| == 3
      modifies buf
      ensures forall k :: 0 <= k < LENGTH ==> buf[k] == if at <= k < at + 3 then data[k - at] else old(buf[k])
    {
      for i := 0 to 3
        invariant forall k :: 0 <= k < LENGTH ==> buf[k] == if at <= k < at + i then data[k - at] else old(buf[k])
      {
        buf[at + i] := data[i];
      }
    }

    /** memcpy of a memory record. */
    method Store5(at: nat, data: seq<int>)
      requires buf.Length == LENGTH && 3 <= at <= LENGTH - 5 && |data| == 5
      modifies buf
      ensures forall k :: 0 <= k < LENGTH ==> buf[k] == if at <= k < at + 5 then data[k - at] else old(buf[k])
    {
      for i := 0 to 5
        invariant forall k :: 0 <= k < LENGTH ==> buf[k] == if at <= k < at + i then data[k - at] else old(buf[k])
      {
        buf[at + i] := data[i];
      }
    }
  }

  // ---- one record more ---------------------------------------------------------------

  /** The counts say where the two regions end, and they do not overlap. */
  lemma Regions(records: seq<Record>, sent: seq<seq<int>>, m: seq<int>, cfs: seq<Record>, mems: seq<Record>,
                sentCfs: seq<Record>, sentMems: seq<Record>)
    requires Written(records, sent, m, cfs, mems, sentCfs, sentMems)
    ensures |m| == LENGTH && m[1] == |cfs| && m[2] == |mems| && CfEnd(|cfs|) <= MemStart(|mems|)
  {
  }

  lemma BranchKeeps(records: seq<Record>, sent: seq<seq<int>>, m: seq<int>, m': seq<int>, cfs: seq<Record>, mems: seq<Record>,
                    sentCfs: seq<Record>, sentMems: seq<Record>, r: Record)
    requires Written(records, sent, m, cfs, mems, sentCfs, sentMems) && r.Branch?
    requires CfEnd(|cfs|) + 3 <= MemStart(|mems|) && |m'| == LENGTH && m'[1] == m[1] + 1 && m'[2] == m[2]
    requires forall k :: 3 <= k < LENGTH ==>
      m'[k] == if CfEnd(|cfs|) <= k < CfEnd(|cfs|) + 3 then Words(r)[k - CfEnd(|cfs|)] else m[k]
    ensures Written(records + [r], sent, m', cfs + [r], mems, sentCfs, sentMems)
  {
    hide ReadAll, CfsAt, MemsAt, Branches, Accesses, Knows;
    PackBranch(m, m', cfs, mems, r);
    BranchesConcat(records, [r]);
    Single(r);
    assert sentCfs + (cfs + [r]) == sentCfs + cfs + [r];
  }

  lemma AccessKeeps(records: seq<Record>, sent: seq<seq<int>>, m: seq<int>, m': seq<int>, cfs: seq<Record>, mems: seq<Record>,
                    sentCfs: seq<Record>, sentMems: seq<Record>, r: Record)
    requires Written(records, sent, m, cfs, mems, sentCfs, sentMems) && r.Memory? && Trace.Valid(r)
    requires CfEnd(|cfs|) <= MemStart(|mems|) - 5 && |m'| == LENGTH && m'[1] == m[1] && m'[2] == m[2] + 1
    requires forall k :: 3 <= k < LENGTH ==>
      m'[k] == if MemStart(|mems|) - 5 <= k < MemStart(|mems|) then Words(r)[k - MemStart(|mems|) + 5] else m[k]
    ensures Written(records + [r], sent, m', cfs, mems + [r], sentCfs, sentMems)
  {
    hide ReadAll, CfsAt, MemsAt, Branches, Accesses, Knows;
    PackAccess(m, m', cfs, mems, r);
    BranchesConcat(records, [r]);
    Single(r);
    assert sentMems + (mems + [r]) == sentMems + mems + [r];
  }

  lemma FlushKeeps(records: seq<Record>, sent: seq<seq<int>>, m: seq<int>, out: seq<int>, tid: int, m': seq<int>,
                   cfs: seq<Record>, mems: seq<Record>, sentCfs: seq<Record>, sentMems: seq<Record>)
    requires Written(records, sent, m, cfs, mems, sentCfs, sentMems) && (|cfs| > 0 || |mems| > 0)
    requires out == m[0 := tid] && m' == out[1 := 0][2 := 0]
    ensures Written(records, sent + [out], m', [], [], sentCfs + cfs, sentMems + mems)
  {
    hide ReadAll, Branches, Accesses, Knows;
    FlushedIsRead(m, out, tid, cfs, mems, sentCfs, sentMems, sent);
    assert sentCfs + cfs + [] == sentCfs + cfs && sentMems + mems + [] == sentMems + mems;
  }

  lemma CloseKeeps(records: seq<Record>, sent: seq<seq<int>>, m: seq<int>, last: seq<int>, tid: int, out: seq<int>,
                   cfs: seq<Record>, mems: seq<Record>, sentCfs: seq<Record>, sentMems: seq<Record>)
    requires Written(records, sent, m, cfs, mems, sentCfs, sentMems) && CfEnd(|cfs|) + 3 <= MemStart(|mems|) - 5
    requires |last| == LENGTH && last[1] == m[1] + 1 && last[2] == m[2] + 1 && out == last[0 := tid]
    requires forall k :: 3 <= k < CfEnd(|cfs|) || MemStart(|mems|) <= k < LENGTH ==> last[k] == m[k]
    requires last[CfEnd(|cfs|)] == -1 && last[MemStart(|mems|) - 5] == -1
    ensures ReadAll(sent + [out], FRESH) == Some(Complete(records))
    ensures ReadAll(sent, FRESH).Some? && !ReadAll(sent, FRESH).value.finished
  {
    hide ReadAll, CfsAt, MemsAt, Branches, Accesses, Blocks, Queues;
    PackEnd(m, last, cfs, mems);
    ClosedIsRead(last, out, tid, cfs, mems, sentCfs, sentMems, sent);
  }

  /** What the simulator knows of a whole trace. */
  function Complete(records: seq<Record>): Reader {
    var k := Knows(Branches(records), Accesses(records), FRESH);
    k.(cf := k.cf + [k.last], finished := true)
  }

  lemma Single(r: Record)
    ensures Branches([r]) == if r.Branch? then [r] else []
    ensures Accesses([r]) == if r.Memory? then [r] else []
  {
    assert [r][..0] == [];
  }

  // ---- changing the buffer -----------------------------------------------------------

  /** Regions that are left alone still hold their records. */
  lemma SameRecords(m: seq<int>, m': seq<int>, cfs: seq<Record>, mems: seq<Record>)
    requires CfsAt(m, cfs) && MemsAt(m, mems) && |m'| == LENGTH
    requires forall k :: 3 <= k < CfEnd(|cfs|) || MemStart(|mems|) <= k < LENGTH ==> m'[k] == m[k]
    ensures CfsAt(m', cfs) && MemsAt(m', mems)
  {
    forall i | 0 <= i < |cfs| ensures m'[3 + 3 * i..6 + 3 * i] == m[3 + 3 * i..6 + 3 * i] {}
    forall i | 0 <= i < |mems| ensures m'[LENGTH - 5 * i - 5..LENGTH - 5 * i] == m[LENGTH - 5 * i - 5..LENGTH - 5 * i] {}
  }

  lemma PackBranch(m: seq<int>, m': seq<int>, cfs: seq<Record>, mems: seq<Record>, r: Record)
    requires Packed(m, cfs, mems) && r.Branch? && CfEnd(|cfs|) + 3 <= MemStart(|mems|) && |m'| == LENGTH
    requires m'[1] == m[1] + 1 && m'[2] == m[2]
    requires forall k :: 3 <= k < LENGTH ==>
      m'[k] == if CfEnd(|cfs|) <= k < CfEnd(|cfs|) + 3 then Words(r)[k - CfEnd(|cfs|)] else m[k]
    ensures Packed(m', cfs + [r], mems)
  {
    SameRecords(m, m', cfs, mems);
    var c := CfEnd(|cfs|);
    assert m'[c..c + 3] == Words(r);
  }

  lemma PackAccess(m: seq<int>, m': seq<int>, cfs: seq<Record>, mems: seq<Record>, r: Record)
    requires Packed(m, cfs, mems) && r.Memory? && Trace.Valid(r) && CfEnd(|cfs|) <= MemStart(|mems|) - 5 && |m'| == LENGTH
    requires m'[1] == m[1] && m'[2] == m[2] + 1
    requires forall k :: 3 <= k < LENGTH ==>
      m'[k] == if MemStart(|mems|) - 5 <= k < MemStart(|mems|) then Words(r)[k - MemStart(|mems|) + 5] else m[k]
    ensures Packed(m', cfs, mems + [r])
  {
    SameRecords(m, m', cfs, mems);
    var c := MemStart(|mems|) - 5;
    assert m'[c..c + 5] == Words(r);
  }

  lemma PackEnd(m: seq<int>, m': seq<int>, cfs: seq<Record>, mems: seq<Record>)
    requires Packed(m, cfs, mems) && CfEnd(|cfs|) + 3 <= MemStart(|mems|) - 5 && |m'| == LENGTH
    requires m'[1] == m[1] + 1 && m'[2] == m[2] + 1
    requires forall k :: 3 <= k < CfEnd(|cfs|) || MemStart(|mems|) <= k < LENGTH ==> m'[k] == m[k]
    requires m'[CfEnd(|cfs|)] == -1 && m'[MemStart(|mems|) - 5] == -1
    ensures Closed(m', cfs, mems)
  {
    SameRecords(m, m', cfs, mems);
  }

  // ---- sending it --------------------------------------------------------------------

  lemma FlushedIsRead(m: seq<int>, m': seq<int>, tid: int, cfs: seq<Record>, mems: seq<Record>,
                      sentCfs: seq<Record>, sentMems: seq<Record>, sent: seq<seq<int>>)
    requires Packed(m, cfs, mems) && (|cfs| > 0 || |mems| > 0) && m' == m[0 := tid]
    requires forall i :: 0 <= i < |sentCfs| ==> sentCfs[i].Branch?
    requires forall i :: 0 <= i < |sentMems| ==> sentMems[i].Memory?
    requires ReadAll(sent, FRESH) == Some(Knows(sentCfs, sentMems, FRESH))
    ensures Packed(m', cfs, mems)
    ensures forall i :: 0 <= i < |cfs| ==> cfs[i].Branch?
    ensures forall i :: 0 <= i < |mems| ==> mems[i].Memory?
    ensures ReadAll(sent + [m'], FRESH) == Some(Knows(sentCfs + cfs, sentMems + mems, FRESH))
  {
    SameRecords(m, m', cfs, mems);
    assert (sent + [m'])[..|sent|] == sent;
    ReadPacked(m', cfs, mems, Knows(sentCfs, sentMems, FRESH));
    KnowsMore(sentCfs, sentMems, cfs, mems, FRESH);
  }

  lemma ClosedIsRead(m: seq<int>, m': seq<int>, tid: int, cfs: seq<Record>, mems: seq<Record>,
                     sentCfs: seq<Record>, sentMems: seq<Record>, sent: seq<seq<int>>)
    requires Closed(m, cfs, mems) && m' == m[0 := tid]
    requires forall i :: 0 <= i < |sentCfs| ==> sentCfs[i].Branch?
    requires forall i :: 0 <= i < |sentMems| ==> sentMems[i].Memory?
    requires ReadAll(sent, FRESH) == Some(Knows(sentCfs, sentMems, FRESH))
    ensures forall i :: 0 <= i < |cfs| ==> cfs[i].Branch?
    ensures forall i :: 0 <= i < |mems| ==> mems[i].Memory?
    ensures var k := Knows(sentCfs + cfs, sentMems + mems, FRESH);
            ReadAll(sent + [m'], FRESH) == Some(k.(cf := k.cf + [k.last], finished := true))
  {
    SameRecords(m, m', cfs, mems);
    assert (sent + [m'])[..|sent|] == sent;
    ReadClosed(m', cfs, mems, Knows(sentCfs, sentMems, FRESH));
    KnowsMore(sentCfs, sentMems, cfs, mems, FRESH);
  }

  // ---- the reader --------------------------------------------------------------------

  /** The part of Core that reads the trace. */
  class TraceReader {
    var cf: seq<int>
    var last: int
    var memory: map<int, seq<nat>>
    var finished: bool

    function View(): Reader
      reads this
    {
      Reader(cf, last, memory, finished)
    }

    constructor ()
      ensures View() == FRESH
    {
      cf, last, memory, finished := [], -1, map[], false;
    }

    /** read_dyn_data: false is a failed assert. */
    method ReadDynData(data: seq<int>) returns (ok: bool)
      requires Sound(data)
      modifies this
      ensures match Read(data, old(View()))
              case None => !ok
              case Some(r) => ok && View() == r
    {
      if finished || (data[1] == 0 && data[2] == 0) { return false; }
      ok := ReadFlow(data);
      if !ok { return; }
      if finished { cf := cf + [last]; }
      ok := ReadMemory(data);
    }

    method ReadFlow(data: seq<int>) returns (ok: bool)
      requires Sound(data) && !finished
      modifies this`cf, this`last, this`finished
      ensures match ReadCf(data, 0, old(View()))
              case None => !ok
              case Some(r) => ok && View() == r
    {
      var i := 0;
      while i < data[1]
        invariant 0 <= i <= data[1] && !finished
        invariant ReadCf(data, 0, old(View())) == ReadCf(data, i, View())
        decreases data[1] - i
      {
        if data[3 + 3 * i] == -1 {
          if i + 1 != data[1] { return false; }
          finished := true;
          return true;
        }
        cf := cf + [data[4 + 3 * i]];
        last := data[5 + 3 * i];
        i := i + 1;
      }
      ok := true;
    }

    method ReadMemory(data: seq<int>) returns (ok: bool)
      requires Sound(data)
      modifies this`memory
      ensures match ReadMem(data, 0, old(View()))
              case None => !ok
              case Some(r) => ok && View() == r
    {
      for i := 0 to data[2]
        invariant ReadMem(data, 0, old(View())) == ReadMem(data, i, View())
      {
        var p := LENGTH - 5 * i - 5;
        if data[p] == -1 { return finished && i + 1 == data[2]; }
        var queue := if data[p + 1] in memory then memory[data[p + 1]] else [];
        memory := memory[data[p + 1] := queue + [Join(data[p + 2], data[p + 3])]];
      }
      ok := true;
    }
  }
}
