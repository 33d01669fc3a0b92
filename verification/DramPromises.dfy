/** What a run of the DRAM channel promises, stated over the commands it has sent and the
    transactions it has accepted, returned and written. */
module DramPromises {
  import opened Wrappers
  import opened DramTypes
  import opened DramBanks
  import opened DramQueue
  import opened DramQueueProofs
  import opened DramCommitProofs
  import opened DramSystem
  import opened DramAgreement
  import opened DramWindow
  import opened DramBuses
  import opened DramFlow
  import opened DramTheorems
  import opened DramDataBus

  /** The state after a legal run: there always is one. */
  ghost function After(c: Config, events: seq<Event>): (s: System)
    requires c.Valid() && Legal(c, events)
    ensures Run(c, events) == Some(s) && Inv(c, s)
    ensures ControllerShaped(c, s.mc) && |s.ranks| == c.ranks
  {
    NoErrorExit(c, events);
    Run(c, events).value
  }

  /** After any run: the command under way will be accepted by its rank, and every rank,
      with it applied, has the controller's state with limits at most one cycle later. */
  lemma RanksAgree(c: Config, events: seq<Event>)
    requires c.Valid() && Legal(c, events)
    ensures var s := After(c, events);
            && Agree(c, s.mc.banks, s.ranks, s.mc.cmd, s.mc.powerDown, s.now - 1)
            && (s.mc.cmd.Some? ==> Accepts(s.ranks[s.mc.cmd.value.rank].banks, s.mc.cmd.value, s.now))
  {
    hide *;
    AgreementHolds(c, After(c, events));
  }

  lemma AgreementHolds(c: Config, s: System)
    requires Inv(c, s)
    ensures Agree(c, s.mc.banks, s.ranks, s.mc.cmd, s.mc.powerDown, s.now - 1)
    ensures s.mc.cmd.Some? ==>
              && s.mc.cmd.value.rank < |s.ranks|
              && Accepts(s.ranks[s.mc.cmd.value.rank].banks, s.mc.cmd.value, s.now)
  {
  }

  // ---- the four-activate window ------------------------------------------------------

  /** ACTIVATEs sent to rank `r` in the cycles `lo` to `hi - 1`. */
  function ActsWithin(sent: seq<Sent>, r: nat, lo: int, hi: int): nat {
    if |sent| == 0 then 0
    else
      var x := sent[|sent|-1];
      ActsWithin(sent[..|sent|-1], r, lo, hi)
      + (if x.packet.kind == ACTIVATE && x.packet.rank == r && lo <= x.at < hi then 1 else 0)
  }

  function CountWithin(v: seq<int>, lo: int, hi: int): nat {
    if |v| == 0 then 0
    else CountWithin(v[..|v|-1], lo, hi) + (if lo <= v[|v|-1] < hi then 1 else 0)
  }

  lemma CountPush(v: seq<int>, x: int, lo: int, hi: int)
    ensures CountWithin(v + [x], lo, hi) == CountWithin(v, lo, hi) + (if lo <= x < hi then 1 else 0)
  {
    assert (v + [x])[..|v + [x]|-1] == v;
  }

  lemma {:induction false} ActsAreTimes(sent: seq<Sent>, r: nat, lo: int, hi: int)
    ensures ActsWithin(sent, r, lo, hi) == CountWithin(ActTimes(sent, r), lo, hi)
  {
    if |sent| > 0 {
      var x, t := sent[|sent|-1], ActTimes(sent[..|sent|-1], r);
      ActsAreTimes(sent[..|sent|-1], r, lo, hi);
      CountPush(t, x.at, lo, hi);
      assert t + [] == t;
      hide CountWithin;
    }
  }

  /** The elements of an increasing list inside a range are a block; `k` is its last index. */
  lemma {:induction false} InsideIsBlock(v: seq<int>, lo: int, hi: int) returns (k: nat)
    requires forall i, j :: 0 <= i < j < |v| ==> v[i] < v[j]
    requires CountWithin(v, lo, hi) > 0
    ensures CountWithin(v, lo, hi) <= k + 1 <= |v|
    ensures lo <= v[k + 1 - CountWithin(v, lo, hi)] && v[k] < hi
    ensures k + 1 < |v| ==> v[k + 1] >= hi
  {
    var u, x := v[..|v|-1], v[|v|-1];
    if CountWithin(u, lo, hi) == 0 {
      k := |v| - 1;
    } else {
      k := InsideIsBlock(u, lo, hi);
      if lo <= x < hi { k := |v| - 1; }
    }
  }

  lemma WindowHolds(c: Config, s: System, r: nat)
    requires Inv(c, s) && r < c.ranks
    ensures r < |s.mc.cq.faw| && WindowOk(c.t.tFAW, s.mc.cq.faw[r], ActTimes(s.log.sent, r), s.now - 1)
  {
    assert ActTable(c, s.log.sent)[r] == ActTimes(s.log.sent, r);
  }

  lemma AtMostFour(tFAW: nat, faw: seq<int>, v: seq<int>, now: int, lo: int)
    requires WindowOk(tFAW, faw, v, now)
    ensures CountWithin(v, lo, lo + tFAW) <= 4
  {
    hide CountWithin;
    var n := CountWithin(v, lo, lo + tFAW);
    if n > 4 {
      var k := InsideIsBlock(v, lo, lo + tFAW);
      FiveActsSpanWindow(tFAW, faw, v, now, k + 1 - n, k);
    }
  }

  /** Any tFAW consecutive cycles of any run hold at most four ACTIVATEs to one rank. */
  lemma FourActivateWindow(c: Config, events: seq<Event>, r: nat, lo: int)
    requires c.Valid() && Legal(c, events) && r < c.ranks
    ensures ActsWithin(After(c, events).log.sent, r, lo, lo + c.t.tFAW) <= 4
  {
    hide *;
    StateWindow(c, After(c, events), r, lo);
  }

  lemma StateWindow(c: Config, s: System, r: nat, lo: int)
    requires c.Valid() && Inv(c, s) && r < c.ranks
    ensures ActsWithin(s.log.sent, r, lo, lo + c.t.tFAW) <= 4
  {
    hide *;
    WindowHolds(c, s, r);
    ActsAreTimes(s.log.sent, r, lo, lo + c.t.tFAW);
    AtMostFour(c.t.tFAW, s.mc.cq.faw[r], ActTimes(s.log.sent, r), s.now - 1, lo);
  }

  // ---- order and conservation --------------------------------------------------------

  predicate Increasing(v: seq<nat>) {
    forall i, j :: 0 <= i < j < |v| ==> v[i] < v[j]
  }

  lemma {:induction false} TagsIncrease(ts: seq<Transaction>, addr: nat, w: Which)
    requires forall i :: 0 <= i < |ts| ==> ts[i].tag == i
    ensures Increasing(TransactionTags(ts, addr, w))
    ensures forall i :: 0 <= i < |TransactionTags(ts, addr, w)| ==> TransactionTags(ts, addr, w)[i] < |ts|
  {
    if |ts| > 0 { TagsIncrease(ts[..|ts|-1], addr, w); }
  }

  /** After any run and for every address: column commands were sent, reads returned and
      writes reported in arrival order, none twice; what is missing is still under way. */
  lemma ServedInArrivalOrder(c: Config, events: seq<Event>, addr: nat)
    requires c.Valid() && Legal(c, events)
    ensures InOrder(c, After(c, events), addr)
    ensures var log := After(c, events).log;
            && ColumnTags(SentPackets(log.sent), addr, All) <= TransactionTags(log.accepted, addr, All)
            && TransactionTags(log.returned, addr, Reads) <= TransactionTags(log.accepted, addr, Reads)
            && DataTags(log.written, addr) <= TransactionTags(log.accepted, addr, Writes)
            && Increasing(ColumnTags(SentPackets(log.sent), addr, All))
            && Increasing(TransactionTags(log.returned, addr, Reads))
            && Increasing(DataTags(log.written, addr))
  {
    var log := After(c, events).log;
    TagsIncrease(log.accepted, addr, All);
    TagsIncrease(log.accepted, addr, Reads);
    TagsIncrease(log.accepted, addr, Writes);
  }

  /** Two column commands to one address leave in the order their requests came in. */
  lemma SameAddressOrder(c: Config, events: seq<Event>, i: nat, j: nat)
    requires c.Valid() && Legal(c, events)
    requires i < j < |After(c, events).log.sent|
    requires var sent := After(c, events).log.sent;
             sent[i].packet.kind.IsColumn() && sent[j].packet.kind.IsColumn() && sent[i].packet.addr == sent[j].packet.addr
    ensures var sent := After(c, events).log.sent; sent[i].packet.tag < sent[j].packet.tag
  {
    var sent := After(c, events).log.sent;
    var addr := sent[i].packet.addr;
    ServedInArrivalOrder(c, events, addr);
    hide Run, InOrder, TransactionTags, DataTags;
    TwoOfThem(SentPackets(sent), addr, i, j);
  }

  lemma TwoOfThem(ps: seq<Packet>, addr: nat, i: nat, j: nat)
    requires i < j < |ps| && WantedColumn(ps[i], addr, All) && WantedColumn(ps[j], addr, All)
    requires Increasing(ColumnTags(ps, addr, All))
    ensures ps[i].tag < ps[j].tag
  {
    var a, b, d := ps[..i], ps[i+1..j], ps[j+1..];
    assert ps == a + ([ps[i]] + (b + ([ps[j]] + d)));
    ColumnTagsAppend(a, [ps[i]] + (b + ([ps[j]] + d)), addr, All);
    ColumnTagsAppend([ps[i]], b + ([ps[j]] + d), addr, All);
    ColumnTagsAppend(b, [ps[j]] + d, addr, All);
    ColumnTagsAppend([ps[j]], d, addr, All);
    var ta, tb, td := ColumnTags(a, addr, All), ColumnTags(b, addr, All), ColumnTags(d, addr, All);
    var all := ColumnTags(ps, addr, All);
    assert ColumnTags([ps[i]], addr, All) == [ps[i].tag] && ColumnTags([ps[j]], addr, All) == [ps[j].tag];
    assert all == ta + ([ps[i].tag] + (tb + ([ps[j].tag] + td)));
    assert all[|ta|] == ps[i].tag && all[|ta| + 1 + |tb|] == ps[j].tag;
  }

  // ---- the open page -----------------------------------------------------------------

  /** A column command whose ACTIVATE has left finds its row still open, untouched, and is
      the first packet of its bank, until it leaves itself. */
  lemma NoStrandedAccess(c: Config, events: seq<Event>, r: nat, sl: nat, i: nat)
    requires c.Valid() && Legal(c, events) && r < c.ranks && sl < Slots(c)
    requires Alone(After(c, events).mc.cq.queues[r][sl], i)
    ensures var s := After(c, events);
            var p := s.mc.cq.queues[r][sl][i];
            && p.rank == r && p.bank < c.banks
            && Open(s.mc.banks[r][p.bank]) && s.mc.banks[r][p.bank].openRow == p.row
            && ServedSince(s.log.sent, r, p.bank) == 0
            && NoneBefore(s.mc.cq.queues[r][sl], i, p.bank)
  {
    var s := After(c, events);
    QueuesHold(c, s, r);
    var q := s.mc.cq.queues[r][sl];
    assert PacketOk(c, q[i], r, sl);
    assert AloneSafe(q, i, s.mc.banks[r], s.mc.cq.accesses[r], ServedTable(c, s.log.sent)[r]);
  }

  lemma QueuesHold(c: Config, s: System, r: nat)
    requires Inv(c, s) && r < c.ranks
    ensures ControllerShaped(c, s.mc)
    ensures RankQueuesOk(c, s.mc.cq.queues[r], r, s.mc.banks[r], s.mc.cq.accesses[r], ServedTable(c, s.log.sent)[r])
    ensures forall sl :: 0 <= sl < Slots(c) ==> |s.mc.cq.queues[r][sl]| <= c.cmdQueueDepth
  {
  }

  /** Every queue is a sequence of blocks: an ACTIVATE is followed by its own column command. */
  lemma QueueIsBlocks(c: Config, events: seq<Event>, r: nat, sl: nat)
    requires c.Valid() && Legal(c, events) && r < c.ranks && sl < Slots(c)
    ensures var q := After(c, events).mc.cq.queues[r][sl];
            Blocks(c, q, r, sl) && |q| <= c.cmdQueueDepth
  {
    QueuesHold(c, After(c, events), r);
  }

  /** A row gives at most TOTAL_ROW_ACCESSES + 1 column commands between two ACTIVATEs of its
      bank. */
  lemma RowAccessBound(c: Config, events: seq<Event>, r: nat, b: nat)
    requires c.Valid() && Legal(c, events) && r < c.ranks && b < c.banks
    ensures ServedSince(After(c, events).log.sent, r, b) <= c.totalRowAccesses + 1
  {
    var s := After(c, events);
    QueuesHold(c, s, r);
    assert CountersOk(c, s.mc.banks[r][b], s.mc.cq.accesses[r][b], ServedTable(c, s.log.sent)[r][b]);
  }

  // ---- the buses ---------------------------------------------------------------------

  /** When a rank starts its next read burst, the one before it leaves the bus in the same
      cycle or is already gone; the same holds for writes on the controller's data bus. */
  lemma BusesNeverOverlap(c: Config, events: seq<Event>, r: nat)
    requires c.Valid() && Legal(c, events) && r < c.ranks
    ensures var k := After(c, events).ranks[r];
            Starting(k.returnCountdown) && k.outgoing.Some? ==> k.dataLeft == 1
    ensures var mc := After(c, events).mc;
            Starting(mc.writeCountdown) && mc.data.Some? ==> mc.dataLeft == 1
  {
    var s := After(c, events);
    var k := s.ranks[r];
    BusesHold(c, s, r);
    hide Inv, After;
    var starts := ReadStarts(c, k, s.mc.cmd, r);
    assert Starting(k.returnCountdown) && k.outgoing.Some? ==> starts[0] + c.t.Burst() <= starts[1] && starts[1] == 1;
    var ws := WriteStarts(c, s.mc.data, s.mc.dataLeft, s.mc.writeCountdown);
    assert Starting(s.mc.writeCountdown) && s.mc.data.Some? ==> ws[0] + c.t.Burst() <= ws[1] && ws[1] == 1;
  }

  /** The bursts of any two column commands of a run, whichever ranks they go to, are on the
      data bus one after the other; for a read and a later write, if the bus turns around. */
  lemma BurstsNeverMeet(c: Config, events: seq<Event>, i: nat, j: nat)
    requires c.Valid() && Legal(c, events) && i < j < |After(c, events).log.sent|
    requires var sent := After(c, events).log.sent;
             sent[i].packet.kind.IsColumn() && sent[j].packet.kind.IsColumn() && KeptApart(c.t, sent[i], sent[j].packet)
    ensures var sent := After(c, events).log.sent; DataStart(c.t, sent[i]) + c.t.Burst() <= DataStart(c.t, sent[j])
  {
    hide Run, Inv, WaitsForAll, DataStart, KeptApart;
    RunIsSpaced(c, events);
    var sent := After(c, events).log.sent;
    assert IsColumnAt(sent, i) && IsColumnAt(sent, j);
  }

  /** So any two writes are sent at least a burst (BL/2 cycles) apart. */
  lemma WritesNeverMeet(c: Config, events: seq<Event>, i: nat, j: nat)
    requires c.Valid() && Legal(c, events) && i < j < |After(c, events).log.sent|
    requires After(c, events).log.sent[i].packet.kind.IsWrite() && After(c, events).log.sent[j].packet.kind.IsWrite()
    ensures var sent := After(c, events).log.sent; sent[i].at + c.t.Burst() <= sent[j].at
  {
    hide Run, Inv, After;
    BurstsNeverMeet(c, events, i, j);
  }

  lemma BusesHold(c: Config, s: System, r: nat)
    requires Inv(c, s) && r < c.ranks
    ensures r < |s.ranks| == |s.mc.banks| && ReadsOk(c, s.mc.banks[r], s.ranks[r], s.mc.cmd, r, s.now - 1)
    ensures WritesOk(c, s.mc, s.now - 1)
  {
  }
}
