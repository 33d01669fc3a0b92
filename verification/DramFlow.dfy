/** Nothing is lost, doubled or overtaken: for every address, the transactions accepted so
    far are, in order, those already served followed by those still under way. */
module DramFlow {
  import opened Wrappers
  import opened DramTypes
  import opened DramBanks
  import opened DramQueue
  import opened DramQueueProofs
  import opened DramCommitProofs
  import opened DramSystem
  import opened DramBuses

  datatype Which = All | Reads | Writes

  // ---- the tags of one address, in order ---------------------------------------------

  predicate Wanted(t: Transaction, addr: nat, w: Which) {
    t.addr == addr && (w == All || (w == Reads) == t.isRead)
  }

  function TransactionTags(ts: seq<Transaction>, addr: nat, w: Which): seq<nat> {
    if |ts| == 0 then []
    else TransactionTags(ts[..|ts|-1], addr, w) + (if Wanted(ts[|ts|-1], addr, w) then [ts[|ts|-1].tag] else [])
  }

  predicate WantedColumn(p: Packet, addr: nat, w: Which) {
    p.kind.IsColumn() && p.addr == addr && (w == All || (w == Reads) == p.kind.IsRead())
  }

  function ColumnTags(ps: seq<Packet>, addr: nat, w: Which): seq<nat> {
    if |ps| == 0 then []
    else ColumnTags(ps[..|ps|-1], addr, w) + (if WantedColumn(ps[|ps|-1], addr, w) then [ps[|ps|-1].tag] else [])
  }

  /** Tags of data packets. */
  function DataTags(ps: seq<Packet>, addr: nat): seq<nat> {
    if |ps| == 0 then []
    else DataTags(ps[..|ps|-1], addr) + (if ps[|ps|-1].addr == addr then [ps[|ps|-1].tag] else [])
  }

  function SentPackets(sent: seq<Sent>): (r: seq<Packet>)
    ensures |r| == |sent|
  {
    seq(|sent|, i requires 0 <= i < |sent| => sent[i].packet)
  }

  function Only<T>(o: Option<T>): seq<T> {
    if o.Some? then [o.value] else []
  }

  lemma {:induction false} TransactionTagsAppend(a: seq<Transaction>, b: seq<Transaction>, addr: nat, w: Which)
    ensures TransactionTags(a + b, addr, w) == TransactionTags(a, addr, w) + TransactionTags(b, addr, w)
  {
    if |b| == 0 { assert a + b == a; }
    else {
      TransactionTagsAppend(a, b[..|b|-1], addr, w);
      assert (a + b)[..|a + b|-1] == a + b[..|b|-1];
    }
  }

  lemma {:induction false} ColumnTagsAppend(a: seq<Packet>, b: seq<Packet>, addr: nat, w: Which)
    ensures ColumnTags(a + b, addr, w) == ColumnTags(a, addr, w) + ColumnTags(b, addr, w)
  {
    if |b| == 0 { assert a + b == a; }
    else {
      ColumnTagsAppend(a, b[..|b|-1], addr, w);
      assert (a + b)[..|a + b|-1] == a + b[..|b|-1];
    }
  }

  lemma {:induction false} DataTagsAppend(a: seq<Packet>, b: seq<Packet>, addr: nat)
    ensures DataTags(a + b, addr) == DataTags(a, addr) + DataTags(b, addr)
  {
    if |b| == 0 { assert a + b == a; }
    else {
      DataTagsAppend(a, b[..|b|-1], addr);
      assert (a + b)[..|a + b|-1] == a + b[..|b|-1];
    }
  }

  // Moving one element from the front of one list to the end of the list before it.

  lemma MoveBack(a: seq<nat>, one: seq<nat>, b: seq<nat>, rest: seq<nat>)
    ensures a + (one + b) + rest == (a + one) + b + rest
  {
  }

  lemma MoveBackIn(a: seq<nat>, pre: seq<nat>, w: seq<nat>, one: seq<nat>, q: seq<nat>, rest: seq<nat>)
    ensures a + (pre + w + (one + q)) + rest == a + (pre + (w + one) + q) + rest
  {
    assert pre + w + (one + q) == pre + (w + one) + q;
  }

  lemma MoveUp(a: seq<nat>, q: seq<nat>, one: seq<nat>, rest: seq<nat>)
    ensures a + q + (one + rest) == a + (q + one) + rest
  {
  }

  lemma NoColumnTags(ps: seq<Packet>, addr: nat, w: Which)
    requires forall i :: 0 <= i < |ps| ==> !WantedColumn(ps[i], addr, w)
    ensures ColumnTags(ps, addr, w) == []
  {
  }

  lemma NoTransactionTags(ts: seq<Transaction>, addr: nat, w: Which)
    requires forall i :: 0 <= i < |ts| ==> !Wanted(ts[i], addr, w)
    ensures TransactionTags(ts, addr, w) == []
  {
  }

  /** Cutting packets `from..to` out of the middle, when nothing wanted comes before. */
  lemma CutColumnTags(q: seq<Packet>, from: nat, to: nat, addr: nat, w: Which)
    requires from <= to <= |q|
    requires ColumnTags(q[from..to], addr, w) != [] ==> ColumnTags(q[..from], addr, w) == []
    ensures ColumnTags(q, addr, w) == ColumnTags(q[from..to], addr, w) + ColumnTags(Remove(q, from, to), addr, w)
  {
    assert q == q[..from] + (q[from..to] + q[to..]);
    ColumnTagsAppend(q[..from], q[from..to] + q[to..], addr, w);
    ColumnTagsAppend(q[from..to], q[to..], addr, w);
    ColumnTagsAppend(q[..from], q[to..], addr, w);
  }

  lemma CutTransactionTags(ts: seq<Transaction>, i: nat, addr: nat, w: Which)
    requires i < |ts|
    requires Wanted(ts[i], addr, w) ==> TransactionTags(ts[..i], addr, w) == []
    ensures TransactionTags(ts, addr, w) ==
              (if Wanted(ts[i], addr, w) then [ts[i].tag] else []) + TransactionTags(Remove(ts, i, i + 1), addr, w)
  {
    assert ts == ts[..i] + ([ts[i]] + ts[i+1..]);
    TransactionTagsAppend(ts[..i], [ts[i]] + ts[i+1..], addr, w);
    TransactionTagsAppend([ts[i]], ts[i+1..], addr, w);
    TransactionTagsAppend(ts[..i], ts[i+1..], addr, w);
    assert [ts[i]][..0] == [];
  }

  // ---- where the transactions of one address are ------------------------------------

  function Queued(c: Config, q: QueueState, addr: nat, w: Which): seq<nat> {
    ColumnTags(QueueAt(c, q, SpotOf(c, addr)), addr, w)
  }

  /** Reads of `addr` between the command queue and the CPU, oldest first. */
  function ReadsUnderWay(c: Config, mc: Controller, ranks: seq<RankState>, addr: nat): seq<nat> {
    var r := c.locate(addr).rank;
    DataTags(mc.toReturn, addr)
    + (if r < |ranks| then DataTags(Only(ranks[r].outgoing), addr) + DataTags(ranks[r].returnPackets, addr) else [])
    + ColumnTags(Only(mc.cmd), addr, Reads)
    + Queued(c, mc.cq, addr, Reads)
  }

  /** Writes of `addr` from the write data list on to the queue, oldest first. */
  function WritesUnderWay(c: Config, mc: Controller, addr: nat): seq<nat> {
    DataTags(Only(mc.data), addr) + DataTags(mc.writeData, addr) + Queued(c, mc.cq, addr, Writes)
  }

  /** Column commands leave in arrival order, each transaction exactly once. */
  ghost predicate ColumnsInOrder(c: Config, s: System, addr: nat) {
    TransactionTags(s.log.accepted, addr, All) ==
      ColumnTags(SentPackets(s.log.sent), addr, All) + Queued(c, s.mc.cq, addr, All) + TransactionTags(s.mc.transactions, addr, All)
  }

  /** Reads come back in arrival order, each exactly once, and the pending list is exactly
      the reads under way. */
  ghost predicate ReadsInOrder(c: Config, s: System, addr: nat) {
    && TransactionTags(s.log.accepted, addr, Reads) ==
         TransactionTags(s.log.returned, addr, Reads) + TransactionTags(s.mc.pendingReads, addr, Reads)
         + TransactionTags(s.mc.transactions, addr, Reads)
    && TransactionTags(s.mc.pendingReads, addr, Reads) == ReadsUnderWay(c, s.mc, s.ranks, addr)
  }

  /** Writes are reported done in arrival order, each exactly once. */
  ghost predicate WritesInOrder(c: Config, s: System, addr: nat) {
    TransactionTags(s.log.accepted, addr, Writes) ==
      DataTags(s.log.written, addr) + WritesUnderWay(c, s.mc, addr) + TransactionTags(s.mc.transactions, addr, Writes)
  }

  ghost predicate InOrder(c: Config, s: System, addr: nat) {
    ColumnsInOrder(c, s, addr) && ReadsInOrder(c, s, addr) && WritesInOrder(c, s, addr)
  }

  // ---- what the phases leave alone ---------------------------------------------------

  ghost predicate SamePipes(ranks: seq<RankState>, ranks': seq<RankState>) {
    |ranks| == |ranks'| && forall r :: 0 <= r < |ranks| ==>
      ranks[r].outgoing == ranks'[r].outgoing && ranks[r].returnPackets == ranks'[r].returnPackets
  }

  ghost predicate SameFlow(s: System, s': System) {
    && s.log == s'.log && SamePipes(s.ranks, s'.ranks)
    && s.mc.transactions == s'.mc.transactions && s.mc.pendingReads == s'.mc.pendingReads
    && s.mc.toReturn == s'.mc.toReturn && s.mc.cmd == s'.mc.cmd && s.mc.cq.queues == s'.mc.cq.queues
    && s.mc.data == s'.mc.data && s.mc.writeData == s'.mc.writeData
  }

  lemma SameFlowInOrder(c: Config, s: System, s': System, addr: nat)
    requires SameFlow(s, s') && InOrder(c, s, addr)
    ensures InOrder(c, s', addr)
  {
    assert QueueAt(c, s.mc.cq, SpotOf(c, addr)) == QueueAt(c, s'.mc.cq, SpotOf(c, addr));
  }

  /** Reads stay with the rank their address lives in. */
  ghost predicate AtHome(c: Config, ranks: seq<RankState>) {
    forall r :: 0 <= r < |ranks| ==>
      && (ranks[r].outgoing.Some? ==> c.locate(ranks[r].outgoing.value.addr).rank == r)
      && (forall i :: 0 <= i < |ranks[r].returnPackets| ==> c.locate(ranks[r].returnPackets[i].addr).rank == r)
  }

  ghost predicate CommandAtHome(c: Config, cmd: Option<Packet>) {
    cmd.Some? && cmd.value.kind.IsColumn() ==> cmd.value.rank == c.locate(cmd.value.addr).rank
  }

  ghost predicate PendingAreReads(mc: Controller) {
    forall i :: 0 <= i < |mc.pendingReads| ==> mc.pendingReads[i].isRead
  }

  // ---- phase by phase ----------------------------------------------------------------

  lemma TransactionTagsPush(ts: seq<Transaction>, t: Transaction, addr: nat, w: Which)
    ensures TransactionTags(ts + [t], addr, w) == TransactionTags(ts, addr, w) + (if Wanted(t, addr, w) then [t.tag] else [])
  {
    assert (ts + [t])[..|ts + [t]|-1] == ts;
  }

  lemma DataTagsPush(ps: seq<Packet>, p: Packet, addr: nat)
    ensures DataTags(ps + [p], addr) == DataTags(ps, addr) + (if p.addr == addr then [p.tag] else [])
  {
    assert (ps + [p])[..|ps + [p]|-1] == ps;
  }

  lemma ColumnTagsPush(ps: seq<Packet>, p: Packet, addr: nat, w: Which)
    ensures ColumnTags(ps + [p], addr, w) == ColumnTags(ps, addr, w) + (if WantedColumn(p, addr, w) then [p.tag] else [])
  {
    assert (ps + [p])[..|ps + [p]|-1] == ps;
  }

  lemma AddKeepsOrder(c: Config, s: System, isRead: bool, a: nat, addr: nat)
    requires InOrder(c, s, addr)
    ensures InOrder(c, AddTransaction(c, s, isRead, a), addr)
  {
    var s' := AddTransaction(c, s, isRead, a);
    var t := Transaction(isRead, a, |s.log.accepted|);
    AddPush(c, s, t, addr, All);
    AddPush(c, s, t, addr, Reads);
    AddPush(c, s, t, addr, Writes);
    hide TransactionTags, Queued, DataTags;
    assert ColumnsInOrder(c, s', addr);
    assert ReadsInOrder(c, s', addr);
    assert WritesInOrder(c, s', addr);
  }

  lemma AddPush(c: Config, s: System, t: Transaction, addr: nat, w: Which)
    ensures forall pre: seq<nat> {:trigger pre + TransactionTags(s.mc.transactions, addr, w)} ::
              TransactionTags(s.log.accepted, addr, w) == pre + TransactionTags(s.mc.transactions, addr, w) ==>
              TransactionTags(s.log.accepted + [t], addr, w) == pre + TransactionTags(s.mc.transactions + [t], addr, w)
  {
    TransactionTagsPush(s.log.accepted, t, addr, w);
    TransactionTagsPush(s.mc.transactions, t, addr, w);
  }

  lemma NoDataTags(ps: seq<Packet>, addr: nat)
    requires forall i :: 0 <= i < |ps| ==> ps[i].addr != addr
    ensures DataTags(ps, addr) == []
  {
  }

  lemma DataTagsPop(ps: seq<Packet>, addr: nat)
    requires |ps| > 0
    ensures DataTags(ps, addr) == DataTags([ps[0]], addr) + DataTags(ps[1..], addr)
  {
    assert ps == [ps[0]] + ps[1..];
    DataTagsAppend([ps[0]], ps[1..], addr);
  }

  /** A rank's update loses nothing: a burst starts only when the bus is free. */
  lemma TickMoves(c: Config, row: seq<Bank>, k: RankState, cmd: Option<Packet>, r: nat, now: int)
    requires c.Valid() && ReadsOk(c, row, k, cmd, r, now)
    ensures var (d, k1) := RankTick(c, k);
            || (d == None && k1.outgoing == k.outgoing && k1.returnPackets == k.returnPackets)
            || (d == k.outgoing && k1.outgoing == None && k1.returnPackets == k.returnPackets)
            || (d == k.outgoing && |k.returnPackets| > 0 && k1.outgoing == Some(k.returnPackets[0])
                && k1.returnPackets == k.returnPackets[1..])
  {
    var starts := ReadStarts(c, k, cmd, r);
    var w := k.returnCountdown;
    assert k.outgoing.Some? && |w| > 0 ==> starts[0] + c.t.Burst() <= starts[1] && starts[1] == w[0];
  }

  lemma TickKeepsTags(c: Config, row: seq<Bank>, k: RankState, cmd: Option<Packet>, r: nat, now: int, addr: nat)
    requires c.Valid() && ReadsOk(c, row, k, cmd, r, now)
    ensures var (d, k1) := RankTick(c, k);
            DataTags(Only(d), addr) + (DataTags(Only(k1.outgoing), addr) + DataTags(k1.returnPackets, addr))
              == DataTags(Only(k.outgoing), addr) + DataTags(k.returnPackets, addr)
  {
    TickMoves(c, row, k, cmd, r, now);
    var (d, k1) := RankTick(c, k);
    if |k.returnPackets| > 0 { DataTagsPop(k.returnPackets, addr); }
    hide RankTick, ReadsOk;
    assert DataTags(Only<Packet>(None), addr) == [];
  }

  lemma HomeDelivery(c: Config, ranks: seq<RankState>, r: nat)
    requires r < |ranks| && AtHome(c, ranks)
    ensures var d := RankTick(c, ranks[r]).0; d.Some? ==> c.locate(d.value.addr).rank == r
  {
  }

  /** Tags of `addr` that rank `r` puts out in this cycle. */
  function OutTags(c: Config, ranks: seq<RankState>, r: nat, addr: nat): seq<nat> {
    if r < |ranks| then DataTags(Only(RankTick(c, ranks[r]).0), addr) else []
  }

  lemma DeliveryStep(c: Config, ranks: seq<RankState>, n: nat, addr: nat)
    requires 0 < n <= |ranks| && AtHome(c, ranks)
    ensures var was, after := DataTags(Deliveries(c, ranks, n - 1), addr), DataTags(Deliveries(c, ranks, n), addr);
            if c.locate(addr).rank == n - 1 then after == was + OutTags(c, ranks, n - 1, addr) else after == was
  {
    var d := RankTick(c, ranks[n-1]).0;
    assert Deliveries(c, ranks, n) == Deliveries(c, ranks, n - 1) + Only(d);
    DataTagsAppend(Deliveries(c, ranks, n - 1), Only(d), addr);
    HomeDelivery(c, ranks, n - 1);
    if c.locate(addr).rank != n - 1 { NoDataTags(Only(d), addr); }
  }

  lemma {:induction false} DeliveryTags(c: Config, ranks: seq<RankState>, n: nat, addr: nat)
    requires n <= |ranks| && AtHome(c, ranks)
    ensures DataTags(Deliveries(c, ranks, n), addr) ==
              (if c.locate(addr).rank < n then OutTags(c, ranks, c.locate(addr).rank, addr) else [])
  {
    hide OutTags, RankTick;
    if n > 0 {
      DeliveryTags(c, ranks, n - 1, addr);
      DeliveryStep(c, ranks, n, addr);
    }
  }

  ghost predicate AllReadsOk(c: Config, s: System, now: int) {
    |s.mc.banks| == |s.ranks| && forall r :: 0 <= r < |s.ranks| ==> ReadsOk(c, s.mc.banks[r], s.ranks[r], s.mc.cmd, r, now)
  }

  lemma {:induction false} DeliveriesAreData(c: Config, s: System, n: nat)
    requires c.Valid() && AllReadsOk(c, s, s.now - 1) && n <= |s.ranks|
    ensures forall i :: 0 <= i < |Deliveries(c, s.ranks, n)| ==> Deliveries(c, s.ranks, n)[i].kind == DATA
  {
    if n > 0 {
      DeliveriesAreData(c, s, n - 1);
      TickShiftsReads(c, s.mc.banks[n-1], s.ranks[n-1], s.mc.cmd, n - 1, s.now - 1);
    }
  }

  lemma TickRanksKeepsOrder(c: Config, s: System, addr: nat)
    requires c.Valid() && AllReadsOk(c, s, s.now - 1) && AtHome(c, s.ranks)
    requires InOrder(c, s, addr)
    ensures TickRanks(c, s).Some? && InOrder(c, TickRanks(c, s).value, addr) && AtHome(c, TickRanks(c, s).value.ranks)
  {
    DeliveriesAreData(c, s, |s.ranks|);
    var s' := TickRanks(c, s).value;
    TickRanksTags(c, s, addr);
    assert QueueAt(c, s.mc.cq, SpotOf(c, addr)) == QueueAt(c, s'.mc.cq, SpotOf(c, addr));
    assert ReadsUnderWay(c, s'.mc, s'.ranks, addr) == ReadsUnderWay(c, s.mc, s.ranks, addr);
    hide ReadsUnderWay, TickRanks, Deliveries;
  }

  lemma TickKeepsHome(c: Config, s: System, r: nat)
    requires c.Valid() && AllReadsOk(c, s, s.now - 1) && AtHome(c, s.ranks) && r < |s.ranks|
    ensures var k1 := RankTick(c, s.ranks[r]).1;
            && (k1.outgoing.Some? ==> c.locate(k1.outgoing.value.addr).rank == r)
            && (forall i :: 0 <= i < |k1.returnPackets| ==> c.locate(k1.returnPackets[i].addr).rank == r)
  {
    TickMoves(c, s.mc.banks[r], s.ranks[r], s.mc.cmd, r, s.now - 1);
    hide RankTick;
  }

  lemma Regroup(t: seq<nat>, d: seq<nat>, pipe: seq<nat>, pipe': seq<nat>, cmd: seq<nat>, q: seq<nat>)
    requires d + pipe' == pipe
    ensures (t + d) + pipe' + cmd + q == t + pipe + cmd + q
  {
    assert (t + d) + pipe' == t + (d + pipe');
  }

  /** What leaves the ranks in this cycle is what they hold less afterwards. */
  lemma TickInRank(c: Config, s: System, addr: nat)
    requires c.Valid() && AllReadsOk(c, s, s.now - 1) && AtHome(c, s.ranks) && TickRanks(c, s).Some?
    ensures DataTags(Deliveries(c, s.ranks, |s.ranks|), addr) + InRank(c, TickRanks(c, s).value.ranks, addr) == InRank(c, s.ranks, addr)
  {
    hide RankTick, DataTags, Deliveries, ReadsOk, AtHome;
    DeliveryTags(c, s.ranks, |s.ranks|, addr);
    var r := c.locate(addr).rank;
    if r < |s.ranks| {
      assert TickRanks(c, s).value.ranks[r] == RankTick(c, s.ranks[r]).1;
      hide TickRanks;
      TickKeepsTags(c, s.mc.banks[r], s.ranks[r], s.mc.cmd, r, s.now - 1, addr);
    }
  }

  lemma TickRanksTags(c: Config, s: System, addr: nat)
    requires c.Valid() && AllReadsOk(c, s, s.now - 1) && AtHome(c, s.ranks) && TickRanks(c, s).Some?
    ensures var s' := TickRanks(c, s).value;
            && s' == s.(ranks := s'.ranks, mc := s.mc.(toReturn := s'.mc.toReturn))
            && AtHome(c, s'.ranks)
            && ReadsUnderWay(c, s'.mc, s'.ranks, addr) == ReadsUnderWay(c, s.mc, s.ranks, addr)
  {
    var s' := TickRanks(c, s).value;
    var ds := Deliveries(c, s.ranks, |s.ranks|);
    forall k: nat | k < |s.ranks| {
      TickKeepsHome(c, s, k);
    }
    DataTagsAppend(s.mc.toReturn, ds, addr);
    TickInRank(c, s, addr);
    hide RankTick, Deliveries, DataTags, ColumnTags, Queued;
    var t, cmd, q := DataTags(s.mc.toReturn, addr), ColumnTags(Only(s.mc.cmd), addr, Reads), Queued(c, s.mc.cq, addr, Reads);
    assert ReadsUnderWay(c, s.mc, s.ranks, addr) == t + InRank(c, s.ranks, addr) + cmd + q;
    assert ReadsUnderWay(c, s'.mc, s'.ranks, addr) == (t + DataTags(ds, addr)) + InRank(c, s'.ranks, addr) + cmd + q;
    hide ReadsUnderWay, InRank;
    Regroup(t, DataTags(ds, addr), InRank(c, s.ranks, addr), InRank(c, s'.ranks, addr), cmd, q);
  }

  /** A READ reaches its rank: it moves from the command bus to the end of the rank's list. */
  lemma DeliverKeepsOrder(c: Config, s: System, addr: nat)
    requires DeliverCommand(c, s).Some?
    requires s.mc.cmd.Some? ==> s.mc.cmd.value.kind != DATA
    requires AtHome(c, s.ranks) && CommandAtHome(c, s.mc.cmd)
    requires InOrder(c, s, addr)
    ensures InOrder(c, DeliverCommand(c, s).value, addr)
    ensures AtHome(c, DeliverCommand(c, s).value.ranks)
  {
    var s' := DeliverCommand(c, s).value;
    if s.mc.cmd.Some? && s.mc.cmdLeft == 1 {
      var p := s.mc.cmd.value;
      assert QueueAt(c, s.mc.cq, SpotOf(c, addr)) == QueueAt(c, s'.mc.cq, SpotOf(c, addr));
      ReceiveTags(c, s, addr);
      hide Receive, Accepts, TakeBanks;
    }
  }

  lemma ReceiveTags(c: Config, s: System, addr: nat)
    requires DeliverCommand(c, s).Some?
    requires s.mc.cmd.Some? && s.mc.cmd.value.kind != DATA && s.mc.cmdLeft == 1
    requires CommandAtHome(c, s.mc.cmd)
    ensures var s' := DeliverCommand(c, s).value;
            ReadsUnderWay(c, s'.mc, s'.ranks, addr) == ReadsUnderWay(c, s.mc, s.ranks, addr)
  {
    hide DataTags, ColumnTags, WantedColumn, DeliverCommand, Receive;
    var s' := DeliverCommand(c, s).value;
    var p := s.mc.cmd.value;
    OnlyColumn(p, addr, Reads);
    ReceiveInRank(c, s, addr);
    assert QueueAt(c, s.mc.cq, SpotOf(c, addr)) == QueueAt(c, s'.mc.cq, SpotOf(c, addr));
    var one := if WantedColumn(p, addr, Reads) then [p.tag] else [];
    var t, k, k', q := DataTags(s.mc.toReturn, addr), InRank(c, s.ranks, addr), InRank(c, s'.ranks, addr), Queued(c, s.mc.cq, addr, Reads);
    assert ReadsUnderWay(c, s.mc, s.ranks, addr) == t + k + one + q;
    assert ReadsUnderWay(c, s'.mc, s'.ranks, addr) == t + k' + [] + q;
    hide ReadsUnderWay, InRank, Queued;
    assert t + (k + one) + [] == t + k + one;
  }

  lemma ReceiveInRank(c: Config, s: System, addr: nat)
    requires DeliverCommand(c, s).Some?
    requires s.mc.cmd.Some? && s.mc.cmd.value.kind != DATA && s.mc.cmdLeft == 1
    requires CommandAtHome(c, s.mc.cmd)
    ensures var s', p := DeliverCommand(c, s).value, s.mc.cmd.value;
            && InRank(c, s'.ranks, addr) == InRank(c, s.ranks, addr) + (if WantedColumn(p, addr, Reads) then [p.tag] else [])
            && s'.mc == s.mc.(cmd := None, cmdLeft := 0)
  {
    var s', p := DeliverCommand(c, s).value, s.mc.cmd.value;
    var r := c.locate(addr).rank;
    if r < |s.ranks| {
      DataTagsPush(s.ranks[r].returnPackets, Arrive(p), addr);
      var o, w := DataTags(Only(s.ranks[r].outgoing), addr), DataTags(s.ranks[r].returnPackets, addr);
      assert o + (w + [p.tag]) == (o + w) + [p.tag];
    }
  }

  /** The data bus phases move writes along their list and touch nothing else. */
  lemma WriteListKeepsOrder(c: Config, s: System, s': System, addr: nat)
    requires InOrder(c, s, addr)
    requires s' == s.(mc := s.mc.(data := s'.mc.data, dataLeft := s'.mc.dataLeft, writeData := s'.mc.writeData,
                                  writeCountdown := s'.mc.writeCountdown),
                      log := s.log.(written := s'.log.written))
    requires DataTags(s'.log.written, addr) + (DataTags(Only(s'.mc.data), addr) + DataTags(s'.mc.writeData, addr))
          == DataTags(s.log.written, addr) + (DataTags(Only(s.mc.data), addr) + DataTags(s.mc.writeData, addr))
    ensures InOrder(c, s', addr)
  {
    assert ColumnsInOrder(c, s', addr);
    assert ReadsInOrder(c, s', addr);
    Regroup3(DataTags(s.log.written, addr), DataTags(Only(s.mc.data), addr) + DataTags(s.mc.writeData, addr),
             DataTags(s'.log.written, addr), DataTags(Only(s'.mc.data), addr) + DataTags(s'.mc.writeData, addr),
             Queued(c, s.mc.cq, addr, Writes));
    hide DataTags, Queued, TransactionTags;
  }

  lemma Regroup3(a: seq<nat>, b: seq<nat>, a': seq<nat>, b': seq<nat>, q: seq<nat>)
    requires a + b == a' + b'
    ensures a + (b + q) == a' + (b' + q)
  {
    assert a + (b + q) == (a + b) + q;
    assert a' + (b' + q) == (a' + b') + q;
  }

  lemma FinishKeepsOrder(c: Config, s: System, addr: nat)
    requires InOrder(c, s, addr)
    ensures InOrder(c, FinishWrite(c, s), addr)
  {
    var s' := FinishWrite(c, s);
    if s.mc.data.Some? {
      var d := s.mc.data.value;
      var w, last, rest := DataTags(s.log.written, addr), DataTags([d], addr), DataTags(s.mc.writeData, addr);
      DataTagsAppend(s.log.written, [d], addr);
      assert DataTags(Only<Packet>(None), addr) == [];
      assert (w + last) + ([] + rest) == w + (last + rest);
      hide InOrder, DataTags;
      WriteListKeepsOrder(c, s, s', addr);
    }
  }

  lemma LaunchKeepsOrder(c: Config, s: System, addr: nat)
    requires LaunchWrite(c, s).Some? && InOrder(c, s, addr)
    ensures InOrder(c, LaunchWrite(c, s).value, addr)
  {
    var s' := LaunchWrite(c, s).value;
    LaunchTags(c, s, addr);
    hide InOrder, DataTags, Down1;
    WriteListKeepsOrder(c, s, s', addr);
  }

  lemma LaunchTags(c: Config, s: System, addr: nat)
    requires LaunchWrite(c, s).Some?
    ensures var s' := LaunchWrite(c, s).value;
            && DataTags(Only(s'.mc.data), addr) + DataTags(s'.mc.writeData, addr) == DataTags(Only(s.mc.data), addr) + DataTags(s.mc.writeData, addr)
            && s'.log == s.log
  {
    if |s.mc.writeData| > 0 { DataTagsPop(s.mc.writeData, addr); }
    assert DataTags(Only<Packet>(None), addr) == [];
  }

  // ---- popping -----------------------------------------------------------------------

  ghost predicate QueueBlocks(c: Config, q: QueueState) {
    Shaped(c, q) && forall r, sl :: 0 <= r < c.ranks && 0 <= sl < Slots(c) ==> Blocks(c, q.queues[r][sl], r, sl)
  }

  /** An earlier column command of the same address would be a dependency. */
  lemma NoneWantedBefore(c: Config, q: seq<Packet>, i: nat, addr: nat, w: Which, rank: nat, slot: nat)
    requires Blocks(c, q, rank, slot) && i < |q| && !Dependent(q, i) && WantedColumn(q[i], addr, w)
    ensures forall k :: 0 <= k < i ==> !WantedColumn(q[k], addr, w)
  {
    assert PacketOk(c, q[i], rank, slot);
    forall k | 0 <= k < i ensures !WantedColumn(q[k], addr, w) {
      assert PacketOk(c, q[k], rank, slot);
    }
  }

  lemma CutTags(q: seq<Packet>, f: nat, i: nat, addr: nat, w: Which)
    requires f <= i < |q| && (f < i ==> f == i - 1 && q[f].kind == ACTIVATE)
    ensures ColumnTags(q[f..i+1], addr, w) == if WantedColumn(q[i], addr, w) then [q[i].tag] else []
  {
    var act := if f < i then [q[f]] else [];
    assert q[f..i+1] == act + [q[i]];
    NoColumnTags(act, addr, w);
    ColumnTagsPush(act, q[i], addr, w);
  }

  /** The packet that leaves is the first of its address in its queue. */
  lemma TakeCutsFirst(c: Config, q: seq<Packet>, i: nat, drop: bool, addr: nat, w: Which, rank: nat, slot: nat)
    requires Blocks(c, q, rank, slot) && i < |q| && (drop ==> i > 0 && q[i-1].kind == ACTIVATE)
    requires q[i].kind != ACTIVATE ==> !Dependent(q, i)
    requires q[i].kind == ACTIVATE ==> !drop
    ensures ColumnTags(q, addr, w) ==
              (if WantedColumn(q[i], addr, w) then [q[i].tag] else []) + ColumnTags(Remove(q, From(i, drop), i + 1), addr, w)
  {
    var f := From(i, drop);
    CutTags(q, f, i, addr, w);
    if WantedColumn(q[i], addr, w) {
      NoneWantedBefore(c, q, i, addr, w, rank, slot);
      NoColumnTags(q[..f], addr, w);
    }
    hide ColumnTags, Blocks, Dependent;
    CutColumnTags(q, f, i + 1, addr, w);
  }

  /** A sound decision takes from every address its oldest queued column command, or none. */
  lemma CommitTags(c: Config, s: QueueState, table: seq<seq<Bank>>, d: Decision, now: int, addr: nat, w: Which)
    requires c.Valid() && QueueBlocks(c, s) && TableShaped(c, table)
    requires d != Wait && DecisionOk(c, s, table, d, now)
    ensures var p := Chosen(c, s, d);
            Queued(c, s, addr, w) == (if WantedColumn(p, addr, w) then [p.tag] else []) + Queued(c, Commit(c, s, d), addr, w)
    ensures Chosen(c, s, d).kind.IsColumn() ==> CommandAtHome(c, Some(Chosen(c, s, d)))
  {
    hide Issuable, Dependent, Shaped, ColumnTags, Alone;
    var s' := Commit(c, s, d);
    var here := SpotOf(c, addr);
    if d.Take? {
      var at, i, drop := d.at, d.index, d.dropAct;
      var r, sl := at.rank, Slot(c, at.bank);
      var q := QueueAt(c, s, at);
      assert Blocks(c, q, r, sl);
      assert PacketOk(c, q[i], r, sl);
      if here.rank == r && Slot(c, here.bank) == sl {
        TakeCutsFirst(c, q, i, drop, addr, w, r, sl);
        assert QueueAt(c, s', here) == Remove(q, From(i, drop), i + 1);
      } else {
        assert QueueAt(c, s', here) == QueueAt(c, s, here);
      }
    } else {
      assert QueueAt(c, s', here) == QueueAt(c, s, here);
    }
  }

  /** What PopAndSend does to the lists, whatever the queue has decided. */
  lemma SendKeepsOrder(c: Config, s: System, s': System, p: Packet, addr: nat)
    requires InOrder(c, s, addr) && s.mc.cmd == None
    requires forall w :: Queued(c, s.mc.cq, addr, w) == (if WantedColumn(p, addr, w) then [p.tag] else []) + Queued(c, s'.mc.cq, addr, w)
    requires s'.log == s.log.(sent := s.log.sent + [Sent(p, s.now)])
    requires s'.ranks == s.ranks && s'.mc.transactions == s.mc.transactions && s'.mc.pendingReads == s.mc.pendingReads
    requires s'.mc.toReturn == s.mc.toReturn && s'.mc.data == s.mc.data && s'.mc.cmd == Some(p)
    requires s'.mc.writeData == if p.kind.IsWrite() then s.mc.writeData + [Arrive(p)] else s.mc.writeData
    ensures InOrder(c, s', addr)
  {
    SendColumns(c, s, s', p, addr);
    SendReads(c, s, s', p, addr);
    SendWrites(c, s, s', p, addr);
  }

  lemma SentPush(sent: seq<Sent>, x: Sent, addr: nat)
    ensures ColumnTags(SentPackets(sent + [x]), addr, All) ==
              ColumnTags(SentPackets(sent), addr, All) + (if WantedColumn(x.packet, addr, All) then [x.packet.tag] else [])
  {
    assert SentPackets(sent + [x]) == SentPackets(sent) + [x.packet];
    ColumnTagsPush(SentPackets(sent), x.packet, addr, All);
  }

  lemma SendColumns(c: Config, s: System, s': System, p: Packet, addr: nat)
    requires ColumnsInOrder(c, s, addr)
    requires Queued(c, s.mc.cq, addr, All) == (if WantedColumn(p, addr, All) then [p.tag] else []) + Queued(c, s'.mc.cq, addr, All)
    requires s'.log == s.log.(sent := s.log.sent + [Sent(p, s.now)]) && s'.mc.transactions == s.mc.transactions
    ensures ColumnsInOrder(c, s', addr)
  {
    SentPush(s.log.sent, Sent(p, s.now), addr);
    hide ColumnTags, SentPackets, TransactionTags, Queued, WantedColumn;
    var one := if WantedColumn(p, addr, All) then [p.tag] else [];
    MoveBack(ColumnTags(SentPackets(s.log.sent), addr, All), one, Queued(c, s'.mc.cq, addr, All),
             TransactionTags(s.mc.transactions, addr, All));
  }

  /** The reads of one address on their way back: what the ranks hold. */
  function InRank(c: Config, ranks: seq<RankState>, addr: nat): seq<nat> {
    var r := c.locate(addr).rank;
    if r < |ranks| then DataTags(Only(ranks[r].outgoing), addr) + DataTags(ranks[r].returnPackets, addr) else []
  }

  lemma SendReads(c: Config, s: System, s': System, p: Packet, addr: nat)
    requires ReadsInOrder(c, s, addr) && s.mc.cmd == None
    requires Queued(c, s.mc.cq, addr, Reads) == (if WantedColumn(p, addr, Reads) then [p.tag] else []) + Queued(c, s'.mc.cq, addr, Reads)
    requires s'.log.accepted == s.log.accepted && s'.log.returned == s.log.returned
    requires s'.ranks == s.ranks && s'.mc.transactions == s.mc.transactions && s'.mc.pendingReads == s.mc.pendingReads
    requires s'.mc.toReturn == s.mc.toReturn && s'.mc.cmd == Some(p)
    ensures ReadsInOrder(c, s', addr)
  {
    OnlyColumn(p, addr, Reads);
    hide DataTags, ColumnTags, TransactionTags, Queued, WantedColumn;
    var one := if WantedColumn(p, addr, Reads) then [p.tag] else [];
    var t, k, q := DataTags(s.mc.toReturn, addr), InRank(c, s.ranks, addr), Queued(c, s'.mc.cq, addr, Reads);
    assert ReadsUnderWay(c, s.mc, s.ranks, addr) == t + k + [] + (one + q);
    assert ReadsUnderWay(c, s'.mc, s'.ranks, addr) == t + k + one + q;
    hide ReadsUnderWay, InRank;
    assert t + k + [] == t + k;
    assert t + k + (one + q) == t + k + one + q;
  }

  lemma OnlyColumn(p: Packet, addr: nat, w: Which)
    ensures ColumnTags(Only(Some(p)), addr, w) == if WantedColumn(p, addr, w) then [p.tag] else []
    ensures ColumnTags(Only<Packet>(None), addr, w) == []
  {
    ColumnTagsPush([], p, addr, w);
    assert [] + [p] == [p];
  }

  lemma SendWrites(c: Config, s: System, s': System, p: Packet, addr: nat)
    requires WritesInOrder(c, s, addr)
    requires Queued(c, s.mc.cq, addr, Writes) == (if WantedColumn(p, addr, Writes) then [p.tag] else []) + Queued(c, s'.mc.cq, addr, Writes)
    requires s'.log.accepted == s.log.accepted && s'.log.written == s.log.written
    requires s'.mc.transactions == s.mc.transactions && s'.mc.data == s.mc.data
    requires s'.mc.writeData == if p.kind.IsWrite() then s.mc.writeData + [Arrive(p)] else s.mc.writeData
    ensures WritesInOrder(c, s', addr)
  {
    WriteDataPush(s.mc.writeData, p, addr);
    hide DataTags, TransactionTags, Queued, WantedColumn;
    var one := if WantedColumn(p, addr, Writes) then [p.tag] else [];
    MoveBackIn(DataTags(s.log.written, addr), DataTags(Only(s.mc.data), addr), DataTags(s.mc.writeData, addr), one,
               Queued(c, s'.mc.cq, addr, Writes), TransactionTags(s.mc.transactions, addr, Writes));
  }

  lemma WriteDataPush(ps: seq<Packet>, p: Packet, addr: nat)
    ensures DataTags(if p.kind.IsWrite() then ps + [Arrive(p)] else ps, addr) ==
              DataTags(ps, addr) + (if WantedColumn(p, addr, Writes) then [p.tag] else [])
  {
    DataTagsPush(ps, Arrive(p), addr);
  }

  // ---- splitting and returning -------------------------------------------------------

  lemma SplitCuts(c: Config, s: System, addr: nat, w: Which)
    requires FirstWithRoom(c, s.mc.cq, s.mc.transactions) < |s.mc.transactions|
    ensures var i := FirstWithRoom(c, s.mc.cq, s.mc.transactions);
            TransactionTags(s.mc.transactions, addr, w) ==
              (if Wanted(s.mc.transactions[i], addr, w) then [s.mc.transactions[i].tag] else [])
              + TransactionTags(Remove(s.mc.transactions, i, i + 1), addr, w)
  {
    var ts := s.mc.transactions;
    var i := FirstWithRoom(c, s.mc.cq, ts);
    if Wanted(ts[i], addr, w) {
      forall k | 0 <= k < i ensures !Wanted(ts[..i][k], addr, w) {
        assert !HasRoom(c, s.mc.cq, ts[k].addr);
      }
      NoTransactionTags(ts[..i], addr, w);
    }
    CutTransactionTags(ts, i, addr, w);
  }

  lemma SplitQueued(c: Config, s: System, i: nat, addr: nat, w: Which)
    requires Shaped(c, s.mc.cq) && i < |s.mc.transactions| && c.InRange(s.mc.transactions[i].addr)
    ensures var t := s.mc.transactions[i];
            Queued(c, Enqueued(c, s, i).mc.cq, addr, w) ==
              Queued(c, s.mc.cq, addr, w) + (if Wanted(t, addr, w) then [t.tag] else [])
  {
    var t := s.mc.transactions[i];
    var s' := Enqueued(c, s, i);
    var at, here := SpotOf(c, t.addr), SpotOf(c, addr);
    var q := QueueAt(c, s.mc.cq, at);
    var a, p := ToPacket(c, ACTIVATE, t), ToPacket(c, ColumnKind(c.policy, t.isRead), t);
    if here.rank == at.rank && Slot(c, here.bank) == Slot(c, at.bank) {
      assert QueueAt(c, s'.mc.cq, here) == q + [a, p];
      assert q + [a, p] == (q + [a]) + [p];
      ColumnTagsPush(q, a, addr, w);
      ColumnTagsPush(q + [a], p, addr, w);
    } else {
      assert QueueAt(c, s'.mc.cq, here) == QueueAt(c, s.mc.cq, here);
    }
  }

  lemma SplitKeepsOrder(c: Config, s: System, addr: nat)
    requires Shaped(c, s.mc.cq) && InOrder(c, s, addr)
    requires SplitTransaction(c, s).Some?
    ensures InOrder(c, SplitTransaction(c, s).value, addr)
  {
    var s' := SplitTransaction(c, s).value;
    var ts := s.mc.transactions;
    var i := FirstWithRoom(c, s.mc.cq, ts);
    if i < |ts| {
      var t := ts[i];
      forall w ensures
        TransactionTags(ts, addr, w) == (if Wanted(t, addr, w) then [t.tag] else []) + TransactionTags(s'.mc.transactions, addr, w)
        && Queued(c, s'.mc.cq, addr, w) == Queued(c, s.mc.cq, addr, w) + (if Wanted(t, addr, w) then [t.tag] else [])
      {
        SplitCuts(c, s, addr, w);
        SplitQueued(c, s, i, addr, w);
      }
      if t.isRead { TransactionTagsPush(s.mc.pendingReads, t, addr, Reads); }
      SplitMoves(c, s, s', t, addr);
    }
  }

  /** Moving one transaction from the waiting list to the end of its queue. */
  lemma SplitMoves(c: Config, s: System, s': System, t: Transaction, addr: nat)
    requires InOrder(c, s, addr)
    requires s'.log == s.log && s'.ranks == s.ranks
    requires s'.mc == s.mc.(transactions := s'.mc.transactions, cq := s'.mc.cq, pendingReads := s'.mc.pendingReads)
    requires forall w ::
        TransactionTags(s.mc.transactions, addr, w) == (if Wanted(t, addr, w) then [t.tag] else []) + TransactionTags(s'.mc.transactions, addr, w)
        && Queued(c, s'.mc.cq, addr, w) == Queued(c, s.mc.cq, addr, w) + (if Wanted(t, addr, w) then [t.tag] else [])
    requires TransactionTags(s'.mc.pendingReads, addr, Reads) ==
        TransactionTags(s.mc.pendingReads, addr, Reads) + (if Wanted(t, addr, Reads) then [t.tag] else [])
    ensures InOrder(c, s', addr)
  {
    SplitColumns(c, s, s', t, addr);
    SplitReads(c, s, s', t, addr);
    SplitWrites(c, s, s', t, addr);
  }

  lemma SplitColumns(c: Config, s: System, s': System, t: Transaction, addr: nat)
    requires ColumnsInOrder(c, s, addr) && s'.log == s.log
    requires TransactionTags(s.mc.transactions, addr, All) == (if Wanted(t, addr, All) then [t.tag] else []) + TransactionTags(s'.mc.transactions, addr, All)
    requires Queued(c, s'.mc.cq, addr, All) == Queued(c, s.mc.cq, addr, All) + (if Wanted(t, addr, All) then [t.tag] else [])
    ensures ColumnsInOrder(c, s', addr)
  {
    hide TransactionTags, Queued, ColumnTags, SentPackets, Wanted;
    MoveUp(ColumnTags(SentPackets(s.log.sent), addr, All), Queued(c, s.mc.cq, addr, All),
           if Wanted(t, addr, All) then [t.tag] else [], TransactionTags(s'.mc.transactions, addr, All));
  }

  lemma SplitReads(c: Config, s: System, s': System, t: Transaction, addr: nat)
    requires ReadsInOrder(c, s, addr) && s'.log == s.log && s'.ranks == s.ranks
    requires s'.mc == s.mc.(transactions := s'.mc.transactions, cq := s'.mc.cq, pendingReads := s'.mc.pendingReads)
    requires TransactionTags(s.mc.transactions, addr, Reads) == (if Wanted(t, addr, Reads) then [t.tag] else []) + TransactionTags(s'.mc.transactions, addr, Reads)
    requires Queued(c, s'.mc.cq, addr, Reads) == Queued(c, s.mc.cq, addr, Reads) + (if Wanted(t, addr, Reads) then [t.tag] else [])
    requires TransactionTags(s'.mc.pendingReads, addr, Reads) ==
        TransactionTags(s.mc.pendingReads, addr, Reads) + (if Wanted(t, addr, Reads) then [t.tag] else [])
    ensures ReadsInOrder(c, s', addr)
  {
    hide TransactionTags, Queued, ColumnTags, DataTags, Wanted;
    var one := if Wanted(t, addr, Reads) then [t.tag] else [];
    var pre := DataTags(s.mc.toReturn, addr) + InRank(c, s.ranks, addr) + ColumnTags(Only(s.mc.cmd), addr, Reads);
    assert ReadsUnderWay(c, s.mc, s.ranks, addr) == pre + Queued(c, s.mc.cq, addr, Reads);
    assert ReadsUnderWay(c, s'.mc, s'.ranks, addr) == pre + (Queued(c, s.mc.cq, addr, Reads) + one);
    hide ReadsUnderWay, InRank;
    MoveUp(TransactionTags(s.log.returned, addr, Reads), TransactionTags(s.mc.pendingReads, addr, Reads), one,
           TransactionTags(s'.mc.transactions, addr, Reads));
    assert pre + (Queued(c, s.mc.cq, addr, Reads) + one) == (pre + Queued(c, s.mc.cq, addr, Reads)) + one;
  }

  lemma SplitWrites(c: Config, s: System, s': System, t: Transaction, addr: nat)
    requires WritesInOrder(c, s, addr) && s'.log == s.log
    requires s'.mc == s.mc.(transactions := s'.mc.transactions, cq := s'.mc.cq, pendingReads := s'.mc.pendingReads)
    requires TransactionTags(s.mc.transactions, addr, Writes) == (if Wanted(t, addr, Writes) then [t.tag] else []) + TransactionTags(s'.mc.transactions, addr, Writes)
    requires Queued(c, s'.mc.cq, addr, Writes) == Queued(c, s.mc.cq, addr, Writes) + (if Wanted(t, addr, Writes) then [t.tag] else [])
    ensures WritesInOrder(c, s', addr)
  {
    hide TransactionTags, Queued, DataTags, Wanted;
    var one := if Wanted(t, addr, Writes) then [t.tag] else [];
    var done, pre := DataTags(s.log.written, addr), DataTags(Only(s.mc.data), addr) + DataTags(s.mc.writeData, addr);
    var q, ts := Queued(c, s.mc.cq, addr, Writes), TransactionTags(s'.mc.transactions, addr, Writes);
    MoveUp(done, pre + q, one, ts);
    assert pre + (q + one) == (pre + q) + one;
  }

  /** The read that comes back is matched, and the match is its own transaction. */
  lemma ReturnMatches(c: Config, s: System)
    requires |s.mc.toReturn| > 0 && PendingAreReads(s.mc)
    requires ReadsInOrder(c, s, s.mc.toReturn[0].addr)
    ensures var i := FirstPending(s.mc.pendingReads, s.mc.toReturn[0].addr);
            && i < |s.mc.pendingReads|
            && s.mc.pendingReads[i].tag == s.mc.toReturn[0].tag
  {
    var d := s.mc.toReturn[0];
    var ps := s.mc.pendingReads;
    var i := FirstPending(ps, d.addr);
    DataTagsPop(s.mc.toReturn, d.addr);
    assert DataTags([d], d.addr) == [d.tag];
    assert TransactionTags(ps, d.addr, Reads)[0] == d.tag;
    if i == |ps| {
      NoTransactionTags(ps, d.addr, Reads);
      assert false;
    }
    NoTransactionTags(ps[..i], d.addr, Reads);
    CutTransactionTags(ps, i, d.addr, Reads);
  }

  lemma ReturnKeepsOrder(c: Config, s: System, addr: nat)
    requires PendingAreReads(s.mc)
    requires |s.mc.toReturn| > 0 ==> ReadsInOrder(c, s, s.mc.toReturn[0].addr)
    requires InOrder(c, s, addr)
    ensures ReturnRead(c, s).Some? && InOrder(c, ReturnRead(c, s).value, addr)
  {
    if |s.mc.toReturn| > 0 {
      ReturnMatches(c, s);
      var d, ps := s.mc.toReturn[0], s.mc.pendingReads;
      var i := FirstPending(ps, d.addr);
      var s' := ReturnRead(c, s).value;
      if d.addr == addr { NoTransactionTags(ps[..i], addr, Reads); }
      CutTransactionTags(ps, i, addr, Reads);
      DataTagsPop(s.mc.toReturn, addr);
      TransactionTagsPush(s.log.returned, ps[i], addr, All);
      TransactionTagsPush(s.log.returned, ps[i], addr, Reads);
      assert DataTags([d], addr) == (if d.addr == addr then [d.tag] else []);
      ReturnMoves(c, s, s', if d.addr == addr then [d.tag] else [], addr);
    }
  }

  lemma ReturnMoves(c: Config, s: System, s': System, one: seq<nat>, addr: nat)
    requires InOrder(c, s, addr)
    requires s'.ranks == s.ranks && s'.log == s.log.(returned := s'.log.returned)
    requires s'.mc == s.mc.(pendingReads := s'.mc.pendingReads, toReturn := s'.mc.toReturn)
    requires TransactionTags(s.mc.pendingReads, addr, Reads) == one + TransactionTags(s'.mc.pendingReads, addr, Reads)
    requires DataTags(s.mc.toReturn, addr) == one + DataTags(s'.mc.toReturn, addr)
    requires TransactionTags(s'.log.returned, addr, Reads) == TransactionTags(s.log.returned, addr, Reads) + one
    ensures InOrder(c, s', addr)
  {
    assert ColumnsInOrder(c, s', addr);
    assert WritesInOrder(c, s', addr);
    ReturnMovesReads(c, s, s', one, addr);
  }

  lemma ReturnMovesReads(c: Config, s: System, s': System, one: seq<nat>, addr: nat)
    requires ReadsInOrder(c, s, addr)
    requires s'.ranks == s.ranks && s'.log == s.log.(returned := s'.log.returned)
    requires s'.mc == s.mc.(pendingReads := s'.mc.pendingReads, toReturn := s'.mc.toReturn)
    requires TransactionTags(s.mc.pendingReads, addr, Reads) == one + TransactionTags(s'.mc.pendingReads, addr, Reads)
    requires DataTags(s.mc.toReturn, addr) == one + DataTags(s'.mc.toReturn, addr)
    requires TransactionTags(s'.log.returned, addr, Reads) == TransactionTags(s.log.returned, addr, Reads) + one
    ensures ReadsInOrder(c, s', addr)
  {
    hide TransactionTags, Queued, DataTags, ColumnTags;
    var pipe := InRank(c, s.ranks, addr);
    var ret, pend, ts := TransactionTags(s.log.returned, addr, Reads), TransactionTags(s'.mc.pendingReads, addr, Reads),
                         TransactionTags(s.mc.transactions, addr, Reads);
    var t, cmd, q := DataTags(s'.mc.toReturn, addr), ColumnTags(Only(s.mc.cmd), addr, Reads), Queued(c, s.mc.cq, addr, Reads);
    assert ReadsUnderWay(c, s.mc, s.ranks, addr) == (one + t) + pipe + cmd + q;
    assert ReadsUnderWay(c, s'.mc, s'.ranks, addr) == t + pipe + cmd + q;
    hide ReadsUnderWay, InRank;
    Cancel(one, pend, t, pipe, cmd, q);
    MoveBack(ret, one, pend, ts);
  }

  lemma Cancel(one: seq<nat>, pend: seq<nat>, t: seq<nat>, pipe: seq<nat>, cmd: seq<nat>, q: seq<nat>)
    requires one + pend == (one + t) + pipe + cmd + q
    ensures pend == t + pipe + cmd + q
  {
    assert (one + t) + pipe + cmd + q == one + (t + pipe + cmd + q);
    assert pend == (one + pend)[|one|..];
    assert t + pipe + cmd + q == (one + (t + pipe + cmd + q))[|one|..];
  }
}
