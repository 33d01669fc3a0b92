/** Whole runs of one DRAM channel: no error exit is ever reached, whatever requests come,
    and the served commands obey the promises of the queue, the window and the buses. */
module DramTheorems {
  import opened Wrappers
  import opened DramTypes
  import opened DramBanks
  import opened DramQueue
  import opened DramQueueProofs
  import opened DramCommitProofs
  import opened DramQueueRuns
  import opened DramSystem
  import opened DramAgreement
  import opened DramWindow
  import opened DramBuses
  import opened DramFlow

  // ---- reading the sent commands -----------------------------------------------------

  /** Column commands sent to a bank since its last ACTIVATE. */
  function ServedSince(sent: seq<Sent>, r: nat, b: nat): nat {
    if |sent| == 0 then 0
    else
      var p := sent[|sent|-1].packet;
      var before := ServedSince(sent[..|sent|-1], r, b);
      if p.rank != r || p.bank != b then before
      else if p.kind == ACTIVATE then 0
      else if p.kind.IsColumn() then before + 1
      else before
  }

  function ServedTable(c: Config, sent: seq<Sent>): (t: seq<seq<nat>>)
    ensures ServedShaped(c, t)
  {
    seq(c.ranks, r requires 0 <= r => seq(c.banks, b requires 0 <= b => ServedSince(sent, r, b)))
  }

  /** The cycles in which rank `r` was sent an ACTIVATE. */
  function ActTimes(sent: seq<Sent>, r: nat): seq<int> {
    if |sent| == 0 then []
    else
      var x := sent[|sent|-1];
      ActTimes(sent[..|sent|-1], r) + (if x.packet.kind == ACTIVATE && x.packet.rank == r then [x.at] else [])
  }

  function ActTable(c: Config, sent: seq<Sent>): (t: seq<seq<int>>)
    ensures |t| == c.ranks
  {
    seq(c.ranks, r requires 0 <= r => ActTimes(sent, r))
  }

  lemma ServedTablePush(c: Config, sent: seq<Sent>, x: Sent)
    requires x.packet.rank < c.ranks && x.packet.bank < c.banks
    ensures ServedTable(c, sent + [x]) == ServedAfter(ServedTable(c, sent), x.packet)
  {
    assert (sent + [x])[..|sent + [x]|-1] == sent;
    var t, u := ServedTable(c, sent + [x]), ServedAfter(ServedTable(c, sent), x.packet);
    forall r | 0 <= r < c.ranks ensures t[r] == u[r] {
      assert |t[r]| == |u[r]|;
      forall b | 0 <= b < c.banks ensures t[r][b] == u[r][b] {}
    }
  }

  lemma ActTablePush(c: Config, sent: seq<Sent>, x: Sent)
    requires x.packet.rank < c.ranks
    ensures ActTable(c, sent + [x]) ==
              (if x.packet.kind == ACTIVATE
               then ActTable(c, sent)[x.packet.rank := ActTable(c, sent)[x.packet.rank] + [x.at]] else ActTable(c, sent))
  {
    assert (sent + [x])[..|sent + [x]|-1] == sent;
    var t, was := ActTable(c, sent + [x]), ActTable(c, sent);
    var u := if x.packet.kind == ACTIVATE then was[x.packet.rank := was[x.packet.rank] + [x.at]] else was;
    forall r | 0 <= r < c.ranks ensures t[r] == u[r] {
      assert ActTimes(sent, r) + [] == ActTimes(sent, r);
    }
    assert t == u;
  }

  // ---- the invariant -----------------------------------------------------------------

  ghost predicate RoomOk(c: Config, q: QueueState) {
    Shaped(c, q) && forall r, sl :: 0 <= r < c.ranks && 0 <= sl < Slots(c) ==> |q.queues[r][sl]| <= c.cmdQueueDepth
  }

  ghost predicate TimersOk(c: Config, mc: Controller) {
    |mc.refreshCountdown| == c.ranks && mc.refreshRank < c.ranks
  }

  ghost predicate QueuesPart(c: Config, s: System) {
    && QueuesOk(c, s.mc.cq, s.mc.banks, ServedTable(c, s.log.sent))
    && RoomOk(c, s.mc.cq)
    && TimersOk(c, s.mc)
  }

  ghost predicate AgreePart(c: Config, s: System, now: int) {
    Agree(c, s.mc.banks, s.ranks, s.mc.cmd, s.mc.powerDown, now)
  }

  ghost predicate BusPart(c: Config, s: System, now: int) {
    AllReadsOk(c, s, now) && WritesOk(c, s.mc, now)
  }

  ghost predicate FlowPart(c: Config, s: System) {
    && AtHome(c, s.ranks) && CommandAtHome(c, s.mc.cmd) && PendingAreReads(s.mc)
    && (forall t :: t in s.mc.transactions ==> c.InRange(t.addr))
    && (forall i :: 0 <= i < |s.log.accepted| ==> s.log.accepted[i].tag == i)
    && (forall addr :: InOrder(c, s, addr))
  }

  ghost predicate WindowPart(c: Config, s: System, now: int) {
    WindowsOk(c, s.mc.cq.faw, ActTable(c, s.log.sent), now)
  }

  /** Holds between any two events of any run. */
  ghost predicate Inv(c: Config, s: System) {
    && AgreePart(c, s, s.now - 1)
    && QueuesPart(c, s)
    && BusPart(c, s, s.now - 1)
    && WindowPart(c, s, s.now - 1)
    && FlowPart(c, s)
    && (s.mc.cmd.Some? ==> s.mc.cmdLeft == 1)
  }

  lemma AgreeGivesCountdowns(c: Config, s: System, now: int)
    requires AgreePart(c, s, now)
    ensures CountdownsOk(c, s.mc.banks, now)
    ensures forall r, j :: 0 <= r < c.ranks && 0 <= j < c.banks ==> (s.mc.banks[r][j].phase == PowerDown <==> s.mc.powerDown[r])
  {
    forall r, j | 0 <= r < |s.mc.banks| && 0 <= j < |s.mc.banks[r]| ensures CountdownOk(c, s.mc.banks[r][j], now) {
      var arrived := Arrived(c, s.ranks[r], r, s.mc.cmd, now + 1);
      assert RankAgrees(c, s.mc.banks[r], arrived, s.mc.powerDown[r], now);
      assert BankAgrees(c, s.mc.banks[r][j], arrived[j], now);
    }
  }

  // ---- first half of a cycle: time passes, the command arrives -----------------------

  ghost predicate SamePipe(k: RankState, k': RankState) {
    k.outgoing == k'.outgoing && k.dataLeft == k'.dataLeft && k.returnPackets == k'.returnPackets && k.returnCountdown == k'.returnCountdown
  }

  lemma SamePipeReads(c: Config, row: seq<Bank>, k: RankState, k': RankState, cmd: Option<Packet>, r: nat, now: int)
    requires SamePipe(k, k') && ReadsOk(c, row, k, cmd, r, now)
    ensures ReadsOk(c, row, k', cmd, r, now)
  {
    assert ReadStarts(c, k, cmd, r) == ReadStarts(c, k', cmd, r);
  }

  lemma TicksSucceed(c: Config, s: System)
    requires c.Valid() && BusPart(c, s, s.now - 1)
    ensures TickRanks(c, s).Some?
    ensures var s1 := TickRanks(c, s).value;
            SameTables(s.ranks, s1.ranks) && s1 == s.(ranks := s1.ranks, mc := s.mc.(toReturn := s1.mc.toReturn))
  {
    DeliveriesAreData(c, s, |s.ranks|);
  }

  lemma PassAgrees(c: Config, s: System)
    requires c.Valid() && AgreePart(c, s, s.now - 1) && BusPart(c, s, s.now - 1)
    requires s.mc.cmd.Some? ==> s.mc.cmdLeft == 1
    ensures TickRanks(c, s).Some?
    ensures var s2 := DeliverCommand(c, TickTable(c, TickRanks(c, s).value));
            s2.Some? && s2.value.mc.cmd == None && AgreePart(c, s2.value, s.now)
  {
    TicksSucceed(c, s);
    var s1 := TickRanks(c, s).value;
    SameTablesAgree(c, s.mc.banks, s.ranks, s1.ranks, s.mc.cmd, s.mc.powerDown, s.now - 1);
    DeliverKeepsAgreement(c, s1);
  }

  lemma DeliverFrame(c: Config, s: System)
    requires DeliverCommand(c, s).Some?
    ensures var s' := DeliverCommand(c, s).value;
            && s'.now == s.now && s'.log == s.log
            && s'.mc == s.mc.(cmd := s'.mc.cmd, cmdLeft := s'.mc.cmdLeft)
  {
  }

  lemma PassKeepsFlow(c: Config, s: System)
    requires c.Valid() && FlowPart(c, s) && BusPart(c, s, s.now - 1)
    requires s.mc.cmd.Some? ==> s.mc.cmd.value.kind != DATA
    requires TickRanks(c, s).Some? && DeliverCommand(c, TickTable(c, TickRanks(c, s).value)).Some?
    requires DeliverCommand(c, TickTable(c, TickRanks(c, s).value)).value.mc.cmd == None
    ensures FlowPart(c, DeliverCommand(c, TickTable(c, TickRanks(c, s).value)).value)
  {
    TicksSucceed(c, s);
    var s1 := TickRanks(c, s).value;
    var s2 := DeliverCommand(c, TickTable(c, s1)).value;
    DeliverFrame(c, TickTable(c, s1));
    forall addr ensures InOrder(c, s2, addr) && AtHome(c, s2.ranks) {
      PassKeepsOrder(c, s, addr);
    }
    assert InOrder(c, s2, 0);
    hide TickRanks, TickTable, DeliverCommand, InOrder, BusPart, AtHome;
  }

  lemma PassKeepsOrder(c: Config, s: System, addr: nat)
    requires c.Valid() && FlowPart(c, s) && BusPart(c, s, s.now - 1)
    requires s.mc.cmd.Some? ==> s.mc.cmd.value.kind != DATA
    requires TickRanks(c, s).Some? && DeliverCommand(c, TickTable(c, TickRanks(c, s).value)).Some?
    ensures InOrder(c, DeliverCommand(c, TickTable(c, TickRanks(c, s).value)).value, addr)
    ensures AtHome(c, DeliverCommand(c, TickTable(c, TickRanks(c, s).value)).value.ranks)
  {
    TickRanksKeepsOrder(c, s, addr);
    var s1 := TickRanks(c, s).value;
    TicksSucceed(c, s);
    SameFlowInOrder(c, s1, TickTable(c, s1), addr);
    DeliverKeepsOrder(c, TickTable(c, s1), addr);
  }

  /** Each rank's pipeline after the update and the delivery. */
  lemma PassMovesRank(c: Config, s: System, r: nat)
    requires c.Valid() && r < |s.ranks|
    requires TickRanks(c, s).Some? && DeliverCommand(c, TickTable(c, TickRanks(c, s).value)).Some?
    requires s.mc.cmd.Some? ==> s.mc.cmdLeft == 1
    ensures var k := DeliverCommand(c, TickTable(c, TickRanks(c, s).value)).value.ranks;
            |k| == |s.ranks| && SamePipe(NextRank(c, s.ranks[r], s.mc.cmd, r), k[r])
  {
  }

  lemma PassKeepsReads(c: Config, s: System, r: nat)
    requires c.Valid() && BusPart(c, s, s.now - 1) && r < |s.ranks|
    requires TickRanks(c, s).Some? && DeliverCommand(c, TickTable(c, TickRanks(c, s).value)).Some?
    requires s.mc.cmd.Some? ==> s.mc.cmdLeft == 1
    ensures var k := DeliverCommand(c, TickTable(c, TickRanks(c, s).value)).value.ranks;
            && |k| == |s.ranks|
            && ReadsOk(c, TickBanks(c, s.mc.banks)[r], k[r], None, r, s.now)
            && (forall i :: 0 <= i < |ReadStarts(c, k[r], None, r)| ==> ReadStarts(c, k[r], None, r)[i] <= c.t.RL())
  {
    var row := s.mc.banks[r];
    var k := DeliverCommand(c, TickTable(c, TickRanks(c, s).value)).value.ranks;
    PassMovesRank(c, s, r);
    var next := NextRank(c, s.ranks[r], s.mc.cmd, r);
    TickKeepsReads(c, row, TickBanks(c, s.mc.banks)[r], s.ranks[r], s.mc.cmd, r, s.now - 1);
    hide NextRank, TickRanks, DeliverCommand, TickTable;
    SamePipeReads(c, TickBanks(c, s.mc.banks)[r], next, k[r], None, r, s.now);
    assert ReadStarts(c, next, None, r) == ReadStarts(c, k[r], None, r);
  }

  lemma PassKeepsWrites(c: Config, s: System, s2: System)
    requires c.Valid() && WritesOk(c, s.mc, s.now - 1)
    requires s2.mc.banks == TickBanks(c, s.mc.banks)
    requires s2.mc.data == s.mc.data && s2.mc.dataLeft == s.mc.dataLeft && s2.mc.writeData == s.mc.writeData && s2.mc.writeCountdown == s.mc.writeCountdown
    ensures var r := LaunchWrite(c, FinishWrite(c, s2));
            && r.Some? && WritesOk(c, r.value.mc, s.now)
            && (forall i :: 0 <= i < |WriteStarts(c, r.value.mc.data, r.value.mc.dataLeft, r.value.mc.writeCountdown)| ==>
                  WriteStarts(c, r.value.mc.data, r.value.mc.dataLeft, r.value.mc.writeCountdown)[i] <= c.t.WL() - 1)
  {
    TickShiftsWrites(c, s2);
    var r := LaunchWrite(c, FinishWrite(c, s2));
    LaunchFrame(c, s2);
    TickKeepsWrites(c, s.mc, r.value.mc, s.now);
  }

  lemma LaunchFrame(c: Config, s: System)
    requires LaunchWrite(c, FinishWrite(c, s)).Some?
    ensures var s' := LaunchWrite(c, FinishWrite(c, s)).value;
            && s'.now == s.now && s'.ranks == s.ranks && s'.log == s.log.(written := s'.log.written)
            && s'.mc == s.mc.(data := s'.mc.data, dataLeft := s'.mc.dataLeft, writeData := s'.mc.writeData, writeCountdown := s'.mc.writeCountdown)
  {
  }

  lemma LaunchKeepsFlow(c: Config, s: System)
    requires LaunchWrite(c, FinishWrite(c, s)).Some? && FlowPart(c, s)
    ensures FlowPart(c, LaunchWrite(c, FinishWrite(c, s)).value)
  {
    LaunchFrame(c, s);
    forall addr ensures InOrder(c, LaunchWrite(c, FinishWrite(c, s)).value, addr) {
      FinishKeepsOrder(c, s, addr);
      LaunchKeepsOrder(c, FinishWrite(c, s), addr);
    }
    hide LaunchWrite, FinishWrite, InOrder;
  }

  /** The state between time passing and the next command: nothing under way, the window
      counters not yet counted down. */
  ghost predicate Mid(c: Config, s: System) {
    && AgreePart(c, s, s.now) && QueuesPart(c, s) && BusPart(c, s, s.now) && FlowPart(c, s)
    && WindowPart(c, s, s.now - 1)
    && s.mc.cmd == None
    && (forall r, i :: 0 <= r < |s.ranks| && 0 <= i < |ReadStarts(c, s.ranks[r], None, r)| ==>
          ReadStarts(c, s.ranks[r], None, r)[i] <= c.t.RL())
    && (forall i :: 0 <= i < |WriteStarts(c, s.mc.data, s.mc.dataLeft, s.mc.writeCountdown)| ==>
          WriteStarts(c, s.mc.data, s.mc.dataLeft, s.mc.writeCountdown)[i] <= c.t.WL() - 1)
  }

  lemma PassFrame(c: Config, s: System)
    requires Pass(c, s).Some?
    ensures var s' := Pass(c, s).value;
            && s'.now == s.now && s'.log == s.log.(written := s'.log.written)
            && s'.mc.cq == s.mc.cq && s'.mc.banks == TickBanks(c, s.mc.banks)
            && s'.mc.refreshCountdown == s.mc.refreshCountdown && s'.mc.refreshRank == s.mc.refreshRank
            && s'.mc.powerDown == s.mc.powerDown && s'.mc.transactions == s.mc.transactions
  {
  }

  lemma PassGives(c: Config, s: System)
    requires c.Valid() && Inv(c, s)
    ensures Pass(c, s).Some?
    ensures TickRanks(c, s).Some? && DeliverCommand(c, TickTable(c, TickRanks(c, s).value)).Some?
    ensures Pass(c, s) == LaunchWrite(c, FinishWrite(c, DeliverCommand(c, TickTable(c, TickRanks(c, s).value)).value))
    ensures var s' := Pass(c, s).value; s'.mc.cmd == None && AgreePart(c, s', s.now)
  {
    hide TickRanks, DeliverCommand, LaunchWrite, FinishWrite, QueuesPart, FlowPart, Agree, WindowPart, AllReadsOk, WritesOk;
    PassAgrees(c, s);
    var s1 := TickRanks(c, s).value;
    TicksSucceed(c, s);
    var s2 := DeliverCommand(c, TickTable(c, s1)).value;
    DeliverFrame(c, TickTable(c, s1));
    PassKeepsWrites(c, s, s2);
    LaunchFrame(c, s2);
  }

  lemma PassGivesFlow(c: Config, s: System)
    requires c.Valid() && Inv(c, s)
    ensures Pass(c, s).Some? && FlowPart(c, Pass(c, s).value)
  {
    PassGives(c, s);
    PassAgrees(c, s);
    var s1 := TickRanks(c, s).value;
    var s2 := DeliverCommand(c, TickTable(c, s1)).value;
    PassKeepsFlow(c, s);
    LaunchKeepsFlow(c, s2);
  }

  lemma PassGivesWrites(c: Config, s: System)
    requires c.Valid() && Inv(c, s)
    ensures Pass(c, s).Some?
    ensures var s' := Pass(c, s).value;
            && WritesOk(c, s'.mc, s.now)
            && (forall i :: 0 <= i < |WriteStarts(c, s'.mc.data, s'.mc.dataLeft, s'.mc.writeCountdown)| ==>
                  WriteStarts(c, s'.mc.data, s'.mc.dataLeft, s'.mc.writeCountdown)[i] <= c.t.WL() - 1)
  {
    PassGives(c, s);
    TicksSucceed(c, s);
    var s1 := TickRanks(c, s).value;
    DeliverFrame(c, TickTable(c, s1));
    PassKeepsWrites(c, s, DeliverCommand(c, TickTable(c, s1)).value);
  }

  lemma PassGivesReads(c: Config, s: System, r: nat)
    requires c.Valid() && Inv(c, s) && r < |s.ranks|
    ensures Pass(c, s).Some?
    ensures var s' := Pass(c, s).value;
            && |s'.ranks| == |s.ranks|
            && ReadsOk(c, s'.mc.banks[r], s'.ranks[r], None, r, s.now)
            && (forall i :: 0 <= i < |ReadStarts(c, s'.ranks[r], None, r)| ==> ReadStarts(c, s'.ranks[r], None, r)[i] <= c.t.RL())
  {
    PassGives(c, s);
    TicksSucceed(c, s);
    var s2 := DeliverCommand(c, TickTable(c, TickRanks(c, s).value)).value;
    LaunchFrame(c, s2);
    PassFrame(c, s);
    PassKeepsReads(c, s, r);
    hide ReadsOk, ReadStarts, Inv, TickRanks, DeliverCommand, LaunchWrite;
  }

  lemma PassGivesBuses(c: Config, s: System)
    requires c.Valid() && Inv(c, s)
    ensures Pass(c, s).Some?
    ensures var s' := Pass(c, s).value;
            && BusPart(c, s', s.now)
            && (forall r, i :: 0 <= r < |s'.ranks| && 0 <= i < |ReadStarts(c, s'.ranks[r], None, r)| ==>
                  ReadStarts(c, s'.ranks[r], None, r)[i] <= c.t.RL())
  {
    PassGives(c, s);
    PassGivesWrites(c, s);
    PassFrame(c, s);
    PassMovesCount(c, s);
    var s' := Pass(c, s).value;
    forall r: nat | r < |s.ranks|
      ensures ReadsOk(c, s'.mc.banks[r], s'.ranks[r], None, r, s.now)
      ensures forall i :: 0 <= i < |ReadStarts(c, s'.ranks[r], None, r)| ==> ReadStarts(c, s'.ranks[r], None, r)[i] <= c.t.RL()
    {
      PassGivesReads(c, s, r);
    }
    hide Pass, ReadsOk, WritesOk, Agree, QueuesPart, FlowPart, WindowPart, ReadStarts, WriteStarts;
  }

  lemma PassMovesCount(c: Config, s: System)
    requires Pass(c, s).Some?
    ensures |Pass(c, s).value.ranks| == |s.ranks|
  {
  }

  lemma PassGivesQueues(c: Config, s: System)
    requires c.Valid() && Inv(c, s)
    ensures Pass(c, s).Some? && QueuesPart(c, Pass(c, s).value)
  {
    PassGives(c, s);
    PassFrame(c, s);
    AgreeGivesCountdowns(c, s, s.now - 1);
    TickKeepsQueuesPart(c, s, Pass(c, s).value);
  }

  lemma TickKeepsQueuesPart(c: Config, s: System, s': System)
    requires c.Valid() && QueuesPart(c, s) && CountdownsOk(c, s.mc.banks, s.now - 1)
    requires s'.mc.cq == s.mc.cq && s'.mc.banks == TickBanks(c, s.mc.banks) && s'.log.sent == s.log.sent
    requires s'.mc.refreshCountdown == s.mc.refreshCountdown && s'.mc.refreshRank == s.mc.refreshRank
    ensures QueuesPart(c, s')
  {
    hide QueuesOk, CountdownsOk, RoomOk, TickBanks;
    TickKeepsQueues(c, s.mc.cq, s.mc.banks, ServedTable(c, s.log.sent), s.now - 1);
  }

  lemma PassGivesWindow(c: Config, s: System)
    requires c.Valid() && Inv(c, s)
    ensures Pass(c, s).Some? && WindowPart(c, Pass(c, s).value, s.now - 1) && Pass(c, s).value.now == s.now
  {
    hide Pass, QueuesPart, BusPart, FlowPart, AgreePart;
    PassGives(c, s);
    PassFrame(c, s);
  }

  /** Time passes: no rank refuses its command, the data bus is free when it must be. */
  lemma PassKeeps(c: Config, s: System)
    requires c.Valid() && Inv(c, s)
    ensures Pass(c, s).Some? && Mid(c, Pass(c, s).value)
  {
    hide Inv, Pass, BusPart, QueuesPart, FlowPart, AgreePart, WindowPart, ReadStarts, WriteStarts;
    PassGives(c, s);
    PassGivesFlow(c, s);
    PassGivesWrites(c, s);
    PassGivesBuses(c, s);
    PassGivesQueues(c, s);
    PassGivesWindow(c, s);
  }

  // ---- the refresh timer -------------------------------------------------------------

  lemma TimerFrame(c: Config, s: System)
    requires TimersOk(c, s.mc) && |s.mc.powerDown| == c.ranks == |s.ranks|
    ensures var s' := RefreshTimer(c, s);
            && s'.now == s.now && s'.log == s.log
            && s'.mc == s.mc.(cq := s'.mc.cq, refreshCountdown := s'.mc.refreshCountdown, refreshRank := s'.mc.refreshRank)
            && s'.mc.cq == s.mc.cq.(refreshWaiting := s'.mc.cq.refreshWaiting, refreshRank := s'.mc.cq.refreshRank)
            && (s'.mc.cq.refreshWaiting ==> s.mc.cq == s'.mc.cq || s'.mc.cq.refreshRank < c.ranks)
            && TimersOk(c, s'.mc)
            && SameTables(s.ranks, s'.ranks) && SamePipes(s.ranks, s'.ranks)
            && forall r :: 0 <= r < c.ranks ==> SamePipe(s.ranks[r], s'.ranks[r])
  {
  }

  lemma TimerKeeps(c: Config, s: System)
    requires c.Valid() && Mid(c, s)
    ensures Mid(c, RefreshTimer(c, s))
  {
    var s' := RefreshTimer(c, s);
    TimerFrame(c, s);
    SameTablesAgree(c, s.mc.banks, s.ranks, s'.ranks, None, s.mc.powerDown, s.now);
    TimerKeepsQueues(c, s, s');
    TimerKeepsFlow(c, s, s');
    forall r | 0 <= r < |s.ranks|
      ensures ReadsOk(c, s'.mc.banks[r], s'.ranks[r], None, r, s.now) && ReadStarts(c, s'.ranks[r], None, r) == ReadStarts(c, s.ranks[r], None, r)
    {
      SamePipeReads(c, s.mc.banks[r], s.ranks[r], s'.ranks[r], None, r, s.now);
    }
    assert WritesOk(c, s'.mc, s.now);
    hide RefreshTimer, ReadsOk, WritesOk, ReadStarts, WriteStarts, FlowPart, QueuesPart, Agree, WindowsOk;
  }

  lemma TimerKeepsQueues(c: Config, s: System, s': System)
    requires QueuesPart(c, s) && s'.log.sent == s.log.sent && TimersOk(c, s'.mc)
    requires s'.mc.banks == s.mc.banks
    requires s'.mc.cq == s.mc.cq.(refreshWaiting := s'.mc.cq.refreshWaiting, refreshRank := s'.mc.cq.refreshRank)
    requires s'.mc.cq.refreshWaiting ==> s.mc.cq == s'.mc.cq || s'.mc.cq.refreshRank < c.ranks
    ensures QueuesPart(c, s')
  {
    forall r | 0 <= r < c.ranks
      ensures RankQueuesOk(c, s'.mc.cq.queues[r], r, s'.mc.banks[r], s'.mc.cq.accesses[r], ServedTable(c, s.log.sent)[r])
    {}
    hide RankQueuesOk;
  }

  lemma TimerKeepsFlow(c: Config, s: System, s': System)
    requires FlowPart(c, s) && SameFlow(s, s')
    ensures FlowPart(c, s')
  {
    forall addr ensures InOrder(c, s', addr) {
      SameFlowInOrder(c, s, s', addr);
    }
    hide InOrder;
  }

  // ---- the next command --------------------------------------------------------------

  /** After the command of this cycle has been chosen and sent. */
  ghost predicate Late(c: Config, s: System) {
    && AgreePart(c, s, s.now) && QueuesPart(c, s) && BusPart(c, s, s.now) && FlowPart(c, s)
    && WindowPart(c, s, s.now)
    && CommandBusy(s.mc.banks, s.mc.cmd)
    && (s.mc.cmd.Some? ==> s.mc.cmdLeft == 1)
  }

  /** Everything a sound decision `d` in queue state `q1` implies for the send. */
  ghost predicate Sound(c: Config, s: System, q1: QueueState, d: Decision) {
    && QueuesOk(c, q1, s.mc.banks, ServedTable(c, s.log.sent))
    && q1.queues == s.mc.cq.queues && q1.faw == TickFaw(s.mc.cq.faw)
    && DecisionOk(c, q1, s.mc.banks, d, s.now)
  }

  lemma FawDoesNotMatter(c: Config, s: QueueState, faw: seq<seq<int>>, table: seq<seq<Bank>>, served: seq<seq<nat>>)
    requires QueuesOk(c, s, table, served) && |faw| == c.ranks
    ensures QueuesOk(c, s.(faw := faw), table, served)
  {
    forall r | 0 <= r < c.ranks ensures RankQueuesOk(c, s.(faw := faw).queues[r], r, table[r], s.accesses[r], served[r]) {}
    hide RankQueuesOk;
  }

  lemma DecideIsSound(c: Config, s: System)
    requires c.Valid() && Mid(c, s)
    ensures var (d, q1) := Decide(c, s.mc.cq.(faw := TickFaw(s.mc.cq.faw)), s.mc.banks, s.now);
            Sound(c, s, q1, d)
  {
    var q0 := s.mc.cq.(faw := TickFaw(s.mc.cq.faw));
    FawDoesNotMatter(c, s.mc.cq, TickFaw(s.mc.cq.faw), s.mc.banks, ServedTable(c, s.log.sent));
    AgreeGivesCountdowns(c, s, s.now);
    hide QueuesOk, FlowPart, BusPart, Agree;
    DecideOk(c, q0, s.mc.banks, ServedTable(c, s.log.sent), s.mc.powerDown, s.now);
  }

  lemma SettleFrame(c: Config, s: QueueState, p: Packet)
    requires c.Valid() && Shaped(c, s) && p.rank < c.ranks
    ensures var s' := Settle(c, s, p);
            && s' == s.(sendAct := s'.sendAct, nextRank := s'.nextRank, nextBank := s'.nextBank, faw := s'.faw)
            && s'.nextRank < c.ranks && s'.nextBank < c.banks
            && s'.faw == if p.kind == ACTIVATE then s.faw[p.rank := s.faw[p.rank] + [c.t.tFAW]] else s.faw
  {
  }

  /** Settling only moves pointers and the window counters. */
  lemma SettleKeepsQueues(c: Config, s: QueueState, p: Packet, table: seq<seq<Bank>>, served: seq<seq<nat>>)
    requires c.Valid() && QueuesOk(c, s, table, served) && p.rank < c.ranks
    ensures QueuesOk(c, Settle(c, s, p), table, served)
  {
    SettleFrame(c, s, p);
    var s' := Settle(c, s, p);
    forall r | 0 <= r < c.ranks ensures RankQueuesOk(c, s'.queues[r], r, table[r], s'.accesses[r], served[r]) {}
    hide RankQueuesOk, Settle;
  }

  lemma CommitKeepsRoom(c: Config, s: QueueState, d: Decision)
    requires RoomOk(c, s) && DecisionShaped(c, s, d) && Shaped(c, Commit(c, s, d))
    ensures RoomOk(c, Commit(c, s, d))
  {
  }

  lemma SendQueues(c: Config, s: System, q1: QueueState, d: Decision)
    requires c.Valid() && Mid(c, s) && Sound(c, s, q1, d) && d != Wait
    ensures DecisionShaped(c, q1, d)
    ensures var p, q2 := Chosen(c, q1, d), Commit(c, q1, d);
            && p.rank < c.ranks && p.bank < c.banks && Shaped(c, q2)
            && QueuesOk(c, Settle(c, q2, p), SendBanks(c, s.mc.banks, p, s.now), ServedTable(c, s.log.sent + [Sent(p, s.now)]))
            && RoomOk(c, Settle(c, q2, p))
  {
    var served := ServedTable(c, s.log.sent);
    AgreeGivesCountdowns(c, s, s.now);
    CommitKeepsQueues(c, q1, s.mc.banks, served, d, s.now);
    var p, q2 := Chosen(c, q1, d), Commit(c, q1, d);
    SettleKeepsQueues(c, q2, p, SendBanks(c, s.mc.banks, p, s.now), ServedAfter(served, p));
    ServedTablePush(c, s.log.sent, Sent(p, s.now));
    assert RoomOk(c, q1);
    CommitKeepsRoom(c, q1, d);
    SettleFrame(c, q2, p);
    hide QueuesOk, Settle, Commit, Agree, BusPart, FlowPart, SendBanks;
  }

  lemma TickWindows(c: Config, s: System, q1: QueueState)
    requires c.Valid() && Mid(c, s) && q1.faw == TickFaw(s.mc.cq.faw)
    ensures WindowsOk(c, q1.faw, ActTable(c, s.log.sent), s.now)
    ensures forall r, i :: 0 <= r < c.ranks && 0 <= i < |ActTable(c, s.log.sent)[r]| ==> ActTable(c, s.log.sent)[r][i] < s.now
  {
    hide QueuesPart, AgreePart, BusPart, FlowPart, TickCounters, WindowOk, ActTable, ReadStarts, WriteStarts;
    var acts := ActTable(c, s.log.sent);
    forall r | 0 <= r < c.ranks
      ensures WindowOk(c.t.tFAW, q1.faw[r], acts[r], s.now)
      ensures forall i :: 0 <= i < |acts[r]| ==> acts[r][i] < s.now
    {
      TickKeepsWindow(c.t.tFAW, s.mc.cq.faw[r], acts[r], s.now - 1);
      ActsArePast(c.t.tFAW, s.mc.cq.faw[r], acts[r], s.now - 1);
    }
  }

  lemma ActsArePast(faw: int, v: seq<int>, acts: seq<int>, now: int)
    requires WindowOk(faw, v, acts, now)
    ensures forall i :: 0 <= i < |acts| ==> acts[i] <= now
  {
  }

  lemma SendWindow(c: Config, s: System, q1: QueueState, d: Decision)
    requires c.Valid() && Mid(c, s) && Sound(c, s, q1, d)
    ensures WindowsOk(c, q1.faw, ActTable(c, s.log.sent), s.now)
    ensures d != Wait ==>
              && DecisionShaped(c, q1, d)
              && var p, q2 := Chosen(c, q1, d), Commit(c, q1, d);
              && p.rank < c.ranks && Shaped(c, q2)
              && WindowsOk(c, Settle(c, q2, p).faw, ActTable(c, s.log.sent + [Sent(p, s.now)]), s.now)
  {
    TickWindows(c, s, q1);
    var acts := ActTable(c, s.log.sent);
    if d != Wait {
      SendQueues(c, s, q1, d);
      var p, q2 := Chosen(c, q1, d), Commit(c, q1, d);
      SettleFrame(c, q2, p);
      CommitFrame(c, q1, d);
      ActTablePush(c, s.log.sent, Sent(p, s.now));
      if p.kind == ACTIVATE {
        DecisionIsSendable(c, q1, s.mc.banks, ServedTable(c, s.log.sent), d, s.now);
        ActKeepsWindow(c.t.tFAW, q1.faw[p.rank], acts[p.rank], s.now);
      }
      hide WindowOk, Settle, Commit, QueuesOk, Mid, Sound, SendBanks, Chosen, DecisionOk;
    }
  }

  lemma CommitFrame(c: Config, s: QueueState, d: Decision)
    requires Shaped(c, s) && DecisionShaped(c, s, d)
    ensures Commit(c, s, d).faw == s.faw
  {
  }

  /** The state after sending `p`, whatever decision it came from. */
  function SentState(c: Config, s: System, q2: QueueState, p: Packet): System
    requires Shaped(c, q2) && p.rank < c.ranks
  {
    Sending(c, s.(mc := s.mc.(cq := Settle(c, q2, p))), p)
  }

  lemma PopIsSend(c: Config, s: System)
    requires c.Valid() && Mid(c, s)
    ensures var (d, q1) := Decide(c, s.mc.cq.(faw := TickFaw(s.mc.cq.faw)), s.mc.banks, s.now);
            && Sound(c, s, q1, d)
            && (d == Wait ==> PopAndSend(c, s) == Some(s.(mc := s.mc.(cq := q1))))
            && (d != Wait ==>
                  && DecisionShaped(c, q1, d) && Shaped(c, Commit(c, q1, d)) && Chosen(c, q1, d).rank < c.ranks
                  && PopAndSend(c, s) == Some(SentState(c, s, Commit(c, q1, d), Chosen(c, q1, d))))
  {
    DecideIsSound(c, s);
    var (d, q1) := Decide(c, s.mc.cq.(faw := TickFaw(s.mc.cq.faw)), s.mc.banks, s.now);
    if d != Wait { SendQueues(c, s, q1, d); }
    hide Decide, Commit, Settle, QueuesOk, FlowPart, BusPart, Agree, SendBanks, DecisionOk, Chosen;
  }

  lemma SendBuses(c: Config, s: System, q2: QueueState, p: Packet)
    requires c.Valid() && Mid(c, s) && Shaped(c, q2) && p.rank < c.ranks
    requires Sendable(c, s.mc.banks, p, s.now)
    ensures BusPart(c, SentState(c, s, q2, p), s.now)
  {
    var s' := SentState(c, s, q2, p);
    assert MaySend(c, s.mc.banks[p.rank][p.bank], p, s.now);
    SendKeepsWrites(c, s.mc, p, s.now);
    assert WritesOk(c, s'.mc, s.now);
    forall r: nat | r < |s.ranks| ensures ReadsOk(c, s'.mc.banks[r], s'.ranks[r], Some(p), r, s.now) {
      SendKeepsReads(c, s.mc.banks[r], s.ranks[r], p, r, s.now);
    }
    hide ReadsOk, WritesOk, FlowPart, QueuesPart, Agree, Settle, SendRow;
  }

  lemma SendFlow(c: Config, s: System, q1: QueueState, d: Decision)
    requires c.Valid() && Mid(c, s) && Sound(c, s, q1, d) && d != Wait
    requires DecisionShaped(c, q1, d) && Shaped(c, Commit(c, q1, d)) && Chosen(c, q1, d).rank < c.ranks
    ensures FlowPart(c, SentState(c, s, Commit(c, q1, d), Chosen(c, q1, d)))
  {
    QueuesAreBlocks(c, q1, s.mc.banks, ServedTable(c, s.log.sent));
    var p, q2 := Chosen(c, q1, d), Commit(c, q1, d);
    var s' := SentState(c, s, q2, p);
    assert s'.ranks == s.ranks && s'.mc.pendingReads == s.mc.pendingReads && s'.mc.transactions == s.mc.transactions && s'.mc.cmd == Some(p);
    hide Commit, Chosen, Settle, QueuesOk, DecisionOk, SentState, QueuesPart, BusPart, AgreePart, WindowPart, QueueBlocks;
    forall addr ensures InOrder(c, s', addr) && CommandAtHome(c, Some(p)) {
      SendFlowAt(c, s, q1, d, addr);
    }
    assert InOrder(c, s', 0);
    hide InOrder;
  }

  lemma QueuesAreBlocks(c: Config, q: QueueState, table: seq<seq<Bank>>, served: seq<seq<nat>>)
    requires QueuesOk(c, q, table, served)
    ensures QueueBlocks(c, q)
  {
    forall r, sl | 0 <= r < c.ranks && 0 <= sl < Slots(c) ensures Blocks(c, q.queues[r][sl], r, sl) {
      assert RankQueuesOk(c, q.queues[r], r, table[r], q.accesses[r], served[r]);
    }
  }

  lemma SameQueues(c: Config, q: QueueState, q': QueueState, addr: nat, w: Which)
    requires q.queues == q'.queues
    ensures Queued(c, q, addr, w) == Queued(c, q', addr, w)
  {
  }

  lemma SendFlowAt(c: Config, s: System, q1: QueueState, d: Decision, addr: nat)
    requires c.Valid() && InOrder(c, s, addr) && s.mc.cmd == None && Sound(c, s, q1, d) && d != Wait
    requires DecisionShaped(c, q1, d) && Shaped(c, Commit(c, q1, d)) && Chosen(c, q1, d).rank < c.ranks
    requires QueueBlocks(c, q1) && TableShaped(c, s.mc.banks)
    ensures InOrder(c, SentState(c, s, Commit(c, q1, d), Chosen(c, q1, d)), addr)
    ensures CommandAtHome(c, Some(Chosen(c, q1, d)))
  {
    var p, q2 := Chosen(c, q1, d), Commit(c, q1, d);
    var s' := SentState(c, s, q2, p);
    SettleFrame(c, q2, p);
    assert s'.mc.cq.queues == q2.queues && s.mc.cq.queues == q1.queues;
    hide Settle, Commit, Chosen, QueuesOk, DecisionOk, InOrder, QueueBlocks;
    forall w
      ensures Queued(c, s.mc.cq, addr, w) == (if WantedColumn(p, addr, w) then [p.tag] else []) + Queued(c, s'.mc.cq, addr, w)
      ensures CommandAtHome(c, Some(p))
    {
      CommitTags(c, q1, s.mc.banks, d, s.now, addr, w);
      SameQueues(c, s.mc.cq, q1, addr, w);
      SameQueues(c, s'.mc.cq, q2, addr, w);
    }
    assert CommandAtHome(c, Some(p)) by { CommitTags(c, q1, s.mc.banks, d, s.now, addr, All); }
    hide Queued, WantedColumn;
    SendKeepsOrder(c, s, s', p, addr);
  }

  /** The next command: never a collision on the command bus, always acceptable. */
  lemma PopKeeps(c: Config, s: System)
    requires c.Valid() && Mid(c, s)
    ensures PopAndSend(c, s).Some? && Late(c, PopAndSend(c, s).value) && PopAndSend(c, s).value.now == s.now
  {
    PopIsSend(c, s);
    var (d, q1) := Decide(c, s.mc.cq.(faw := TickFaw(s.mc.cq.faw)), s.mc.banks, s.now);
    SendWindow(c, s, q1, d);
    if d == Wait {
      WaitKeeps(c, s, q1);
    } else {
      var p, q2 := Chosen(c, q1, d), Commit(c, q1, d);
      DecisionIsSendable(c, q1, s.mc.banks, ServedTable(c, s.log.sent), d, s.now);
      SendQueues(c, s, q1, d);
      SendKeepsAgreement(c, s.mc.banks, s.ranks, s.mc.powerDown, p, s.now);
      SendBuses(c, s, q2, p);
      SendFlow(c, s, q1, d);
      hide PopAndSend, Decide, Commit, Chosen, Settle, QueuesOk, RoomOk, Agree, BusPart, FlowPart, WindowsOk, SendBanks, DecisionOk, Sendable, CommandBusy;
    }
  }

  lemma WaitKeeps(c: Config, s: System, q1: QueueState)
    requires c.Valid() && Mid(c, s) && Sound(c, s, q1, Wait)
    requires WindowsOk(c, q1.faw, ActTable(c, s.log.sent), s.now)
    ensures Late(c, s.(mc := s.mc.(cq := q1)))
  {
    var s' := s.(mc := s.mc.(cq := q1));
    TimerKeepsFlow(c, s, s');
    assert WritesOk(c, s'.mc, s.now);
    hide FlowPart, WritesOk, ReadsOk, QueuesOk, WindowsOk, Agree;
  }

  // ---- second half: split, power, return ---------------------------------------------

  lemma EnqueuedFrame(c: Config, s: System, i: nat)
    requires Shaped(c, s.mc.cq) && i < |s.mc.transactions| && c.InRange(s.mc.transactions[i].addr)
    ensures var s' := Enqueued(c, s, i);
            && s'.now == s.now && s'.ranks == s.ranks && s'.log == s.log
            && s'.mc == s.mc.(transactions := s'.mc.transactions, cq := s'.mc.cq, pendingReads := s'.mc.pendingReads)
            && s'.mc.cq == s.mc.cq.(queues := s'.mc.cq.queues)
            && (forall t :: t in s'.mc.transactions ==> t in s.mc.transactions)
            && (PendingAreReads(s.mc) ==> PendingAreReads(s'.mc))
  {
  }

  lemma EnqueuedKeepsRoom(c: Config, s: System, i: nat)
    requires RoomOk(c, s.mc.cq) && i < |s.mc.transactions| && c.InRange(s.mc.transactions[i].addr)
    requires |QueueAt(c, s.mc.cq, SpotOf(c, s.mc.transactions[i].addr))| + 2 <= c.cmdQueueDepth
    ensures RoomOk(c, Enqueued(c, s, i).mc.cq)
  {
  }

  /** No queue ever grows past its depth. */
  lemma SplitSucceeds(c: Config, s: System)
    requires c.Valid() && RoomOk(c, s.mc.cq)
    requires forall t :: t in s.mc.transactions ==> c.InRange(t.addr)
    ensures SplitTransaction(c, s).Some?
  {
    var ts := s.mc.transactions;
    var i := FirstWithRoom(c, s.mc.cq, ts);
    if i < |ts| {
      assert ts[i] in ts && HasRoom(c, s.mc.cq, ts[i].addr);
      var at := SpotOf(c, ts[i].addr);
      assert QueueAt(c, s.mc.cq, at) == s.mc.cq.queues[at.rank][Slot(c, at.bank)];
    }
  }

  lemma SplitKeeps(c: Config, s: System)
    requires c.Valid() && Late(c, s)
    ensures SplitTransaction(c, s).Some? && Late(c, SplitTransaction(c, s).value) && SplitTransaction(c, s).value.now == s.now
  {
    SplitSucceeds(c, s);
    var i := FirstWithRoom(c, s.mc.cq, s.mc.transactions);
    if i < |s.mc.transactions| {
      var t := s.mc.transactions[i];
      var s' := Enqueued(c, s, i);
      assert t in s.mc.transactions;
      EnqueuedFrame(c, s, i);
      EnqueuedKeepsRoom(c, s, i);
      EnqueueKeepsQueues(c, s.mc.cq, s.mc.banks, ServedTable(c, s.log.sent), t);
      forall addr ensures InOrder(c, s', addr) { SplitKeepsOrder(c, s, addr); }
      assert WritesOk(c, s'.mc, s.now);
      hide InOrder, QueuesOk, RoomOk, WritesOk, ReadsOk, Agree, WindowsOk, Enqueued, CommandBusy;
    }
  }

  lemma PowerRankFlow(c: Config, s: System, i: nat)
    requires i < |s.ranks| && i < |s.mc.banks| && i < |s.mc.powerDown| && PowerRank(c, s, i).Some?
    ensures var s' := PowerRank(c, s, i).value;
            && SameFlow(s, s') && s'.mc.cq == s.mc.cq && s'.log == s.log && s'.now == s.now
            && s'.mc == s.mc.(banks := s'.mc.banks, powerDown := s'.mc.powerDown)
            && (forall r :: 0 <= r < |s.ranks| ==> SamePipe(s.ranks[r], s'.ranks[r]))
            && (s'.mc.banks == s.mc.banks
                || (AllIdle(s.mc.banks[i]) && s'.mc.banks == s.mc.banks[i := PowerDownRow(c, s.mc.banks[i], s.now)])
                || (s.mc.powerDown[i] && s'.mc.banks == s.mc.banks[i := PowerUpRow(c, s.mc.banks[i], s.now)]))
  {
  }

  lemma PowerKeepsBuses(c: Config, s: System, s': System)
    requires BusPart(c, s, s.now)
    requires s'.now == s.now && |s'.ranks| == |s.ranks|
    requires s'.mc == s.mc.(banks := s'.mc.banks, powerDown := s'.mc.powerDown)
    requires forall r :: 0 <= r < |s.ranks| ==> SamePipe(s.ranks[r], s'.ranks[r])
    requires |s'.mc.banks| == |s.mc.banks| && forall r :: 0 <= r < |s.mc.banks| ==> |s'.mc.banks[r]| == |s.mc.banks[r]|
    requires forall r, j :: 0 <= r < |s.mc.banks| && 0 <= j < |s.mc.banks[r]| ==>
               s'.mc.banks[r][j].nextRead == s.mc.banks[r][j].nextRead && s'.mc.banks[r][j].nextWrite == s.mc.banks[r][j].nextWrite
               && (s'.mc.banks[r][j].phase == RowActive ==> s.mc.banks[r][j].phase == RowActive)
    ensures BusPart(c, s', s.now)
  {
    forall r | 0 <= r < |s.ranks| ensures ReadsOk(c, s'.mc.banks[r], s'.ranks[r], s'.mc.cmd, r, s.now) {
      PowerKeepsReads(c, s.mc.banks[r], s'.mc.banks[r], s.ranks[r], s'.ranks[r], s.mc.cmd, r, s.now);
    }
    assert WritesHeldBack(c, s'.mc.banks, WriteStarts(c, s.mc.data, s.mc.dataLeft, s.mc.writeCountdown), s.now);
    hide ReadsOk;
  }

  lemma PowerKeepsReads(c: Config, row: seq<Bank>, row': seq<Bank>, k: RankState, k': RankState, cmd: Option<Packet>, r: nat, now: int)
    requires ReadsOk(c, row, k, cmd, r, now) && SamePipe(k, k')
    requires |row'| == |row| && forall j :: 0 <= j < |row| ==> row'[j].nextRead == row[j].nextRead
    ensures ReadsOk(c, row', k', cmd, r, now)
  {
    assert ReadStarts(c, k, cmd, r) == ReadStarts(c, k', cmd, r);
  }

  /** Powering down or up changes no row and delays no read or write. */
  lemma PowerRankBanks(c: Config, s: System, i: nat)
    requires i < |s.ranks| && i < |s.mc.banks| && i < |s.mc.powerDown| && PowerRank(c, s, i).Some?
    ensures var s' := PowerRank(c, s, i).value;
            && |s'.ranks| == |s.ranks| && |s'.mc.banks| == |s.mc.banks|
            && (forall r :: 0 <= r < |s.mc.banks| ==> |s'.mc.banks[r]| == |s.mc.banks[r]|)
            && forall r, j :: 0 <= r < |s.mc.banks| && 0 <= j < |s.mc.banks[r]| ==>
                 && s'.mc.banks[r][j].nextRead == s.mc.banks[r][j].nextRead
                 && s'.mc.banks[r][j].nextWrite == s.mc.banks[r][j].nextWrite
                 && (s'.mc.banks[r][j].phase == RowActive ==> s.mc.banks[r][j].phase == RowActive)
  {
    PowerRankFlow(c, s, i);
  }

  lemma PowerRankKeeps(c: Config, s: System, i: nat)
    requires c.Valid() && Late(c, s) && i < c.ranks && PowerShaped(c, s)
    ensures PowerRank(c, s, i).Some? && Late(c, PowerRank(c, s, i).value) && PowerRank(c, s, i).value.now == s.now
  {
    hide PowerRank, QueuesPart, FlowPart, BusPart, Agree, WindowsOk, CommandBusy;
    PowerKeepsAgreement(c, s, i);
    PowerRankFlow(c, s, i);
    PowerRankBanks(c, s, i);
    var s' := PowerRank(c, s, i).value;
    AgreeGivesCountdowns(c, s, s.now);
    PowerKeepsQueuesPart(c, s, s', i);
    TimerKeepsFlow(c, s, s');
    PowerKeepsBuses(c, s, s');
  }

  lemma PowerKeepsQueuesPart(c: Config, s: System, s': System, i: nat)
    requires QueuesPart(c, s) && i < c.ranks && |s.mc.powerDown| == c.ranks
    requires s'.log == s.log && s'.mc == s.mc.(banks := s'.mc.banks, powerDown := s'.mc.powerDown)
    requires forall j :: 0 <= j < c.banks ==> (s.mc.banks[i][j].phase == PowerDown <==> s.mc.powerDown[i])
    requires || s'.mc.banks == s.mc.banks
             || (AllIdle(s.mc.banks[i]) && s'.mc.banks == s.mc.banks[i := PowerDownRow(c, s.mc.banks[i], s.now)])
             || (s.mc.powerDown[i] && s'.mc.banks == s.mc.banks[i := PowerUpRow(c, s.mc.banks[i], s.now)])
    ensures QueuesPart(c, s')
  {
    if s'.mc.banks != s.mc.banks {
      var row' := s'.mc.banks[i];
      PowerRowKeepsQueues(c, s.mc.cq, s.mc.banks, ServedTable(c, s.log.sent), i, row');
      assert s'.mc.banks == s.mc.banks[i := row'];
    }
    hide QueuesOk;
  }

  lemma {:induction false} PowerRanksKeep(c: Config, s: System, n: nat)
    requires c.Valid() && Late(c, s) && PowerShaped(c, s) && n <= c.ranks
    ensures PowerRanks(c, s, n).Some? && Late(c, PowerRanks(c, s, n).value) && PowerRanks(c, s, n).value.now == s.now
  {
    hide Late, PowerRank;
    if n > 0 {
      PowerRanksKeep(c, s, n - 1);
      var s1 := PowerRanks(c, s, n - 1).value;
      LateIsShaped(c, s1);
      PowerRankKeeps(c, s1, n - 1);
    }
  }

  lemma ReturnFrame(c: Config, s: System)
    requires ReturnRead(c, s).Some?
    ensures var s' := ReturnRead(c, s).value;
            && s'.now == s.now && s'.ranks == s.ranks && s'.log == s.log.(returned := s'.log.returned)
            && s'.mc == s.mc.(pendingReads := s'.mc.pendingReads, toReturn := s'.mc.toReturn)
            && (PendingAreReads(s.mc) ==> PendingAreReads(s'.mc))
  {
  }

  /** "Can't find a matching transaction" does not happen. */
  lemma ReturnKeeps(c: Config, s: System)
    requires c.Valid() && Late(c, s)
    ensures ReturnRead(c, s).Some? && Late(c, ReturnRead(c, s).value) && ReturnRead(c, s).value.now == s.now
  {
    ReturnKeepsFlow(c, s);
    ReturnFrame(c, s);
    var s' := ReturnRead(c, s).value;
    assert WritesOk(c, s'.mc, s.now);
    hide ReturnRead, FlowPart, WritesOk, ReadsOk, QueuesOk, RoomOk, Agree, WindowsOk, CommandBusy;
  }

  lemma ReturnKeepsFlow(c: Config, s: System)
    requires FlowPart(c, s)
    ensures ReturnRead(c, s).Some? && FlowPart(c, ReturnRead(c, s).value)
  {
    assert |s.mc.toReturn| > 0 ==> InOrder(c, s, s.mc.toReturn[0].addr);
    assert |s.mc.toReturn| > 0 ==> ReadsInOrder(c, s, s.mc.toReturn[0].addr);
    hide ReturnRead, InOrder, ReadsInOrder;
    forall addr ensures ReturnRead(c, s).Some? && InOrder(c, ReturnRead(c, s).value, addr) {
      ReturnKeepsOrder(c, s, addr);
    }
    ReturnKeepsOrder(c, s, 0);
    ReturnFrame(c, s);
  }

  lemma EndKeeps(c: Config, s: System)
    requires c.Valid() && Late(c, s)
    ensures Inv(c, EndCycle(c, s))
  {
    var s' := EndCycle(c, s);
    TimerKeepsFlow(c, s, s');
    assert WritesOk(c, s'.mc, s.now);
    hide FlowPart, WritesOk, ReadsOk, QueuesOk, Agree, WindowsOk, CommandBusy;
  }

  // ---- every run ---------------------------------------------------------------------

  lemma ActKeeps(c: Config, s: System)
    requires c.Valid() && Mid(c, s)
    ensures Act(c, s).Some? && Late(c, Act(c, s).value)
  {
    MidIsShaped(c, s);
    PopKeeps(c, s);
    var s1 := PopAndSend(c, s).value;
    LateIsShaped(c, s1);
    SplitKeeps(c, s1);
    var s2 := SplitTransaction(c, s1).value;
    LateIsShaped(c, s2);
    PowerRanksKeep(c, s2, c.ranks);
    ReturnKeeps(c, PowerRanks(c, s2, c.ranks).value);
    hide Mid, Late, PopAndSend, SplitTransaction, PowerRanks, ReturnRead, Shaped, TableShaped;
  }

  /** One cycle from a good state: no error exit, and a good state again. */
  lemma CycleKeeps(c: Config, s: System)
    requires c.Valid() && Inv(c, s)
    ensures Cycle(c, s).Some? && Inv(c, Cycle(c, s).value)
  {
    PassKeeps(c, s);
    var m := Pass(c, s).value;
    TimerKeeps(c, m);
    ActKeeps(c, RefreshTimer(c, m));
    EndKeeps(c, Act(c, RefreshTimer(c, m)).value);
    hide Pass, Inv, Mid, Late, Act, RefreshTimer, EndCycle;
  }

  lemma MidIsShaped(c: Config, s: System)
    requires Mid(c, s)
    ensures ControllerShaped(c, s.mc)
  {
  }

  lemma LateIsShaped(c: Config, s: System)
    requires Late(c, s)
    ensures ControllerShaped(c, s.mc) && PowerShaped(c, s)
  {
  }

  lemma StartQueues(c: Config)
    requires c.Valid()
    ensures QueuesPart(c, Start(c)) && WindowPart(c, Start(c), -1)
  {
    var s := Start(c);
    forall r | 0 <= r < c.ranks
      ensures RankQueuesOk(c, s.mc.cq.queues[r], r, s.mc.banks[r], s.mc.cq.accesses[r], ServedTable(c, [])[r])
      ensures WindowOk(c.t.tFAW, s.mc.cq.faw[r], ActTable(c, [])[r], -1)
    {
    }
    hide RankQueuesOk, WindowOk;
  }

  lemma StartRank(c: Config, r: nat)
    requires c.Valid() && r < c.ranks
    ensures var s := Start(c);
            && RankAgrees(c, s.mc.banks[r], s.ranks[r].banks, false, -1)
            && ReadsOk(c, s.mc.banks[r], s.ranks[r], None, r, -1)
  {
    var s := Start(c);
    assert ReadStarts(c, s.ranks[r], None, r) == [];
  }

  lemma StartFlow(c: Config, addr: nat)
    ensures InOrder(c, Start(c), addr)
  {
  }

  lemma StartHolds(c: Config)
    requires c.Valid()
    ensures Inv(c, Start(c))
  {
    var s := Start(c);
    StartQueues(c);
    forall r: nat | r < c.ranks
      ensures RankAgrees(c, s.mc.banks[r], s.ranks[r].banks, false, -1)
      ensures ReadsOk(c, s.mc.banks[r], s.ranks[r], None, r, -1)
    {
      StartRank(c, r);
    }
    forall addr ensures InOrder(c, s, addr) { StartFlow(c, addr); }
    assert WritesOk(c, s.mc, -1);
    hide QueuesPart, WindowPart, ReadsOk, WritesOk, InOrder, RankAgrees;
  }

  lemma AddKeeps(c: Config, s: System, isRead: bool, a: nat)
    requires c.Valid() && Inv(c, s) && c.InRange(a)
    ensures Inv(c, AddTransaction(c, s, isRead, a))
  {
    var s' := AddTransaction(c, s, isRead, a);
    forall addr ensures InOrder(c, s', addr) { AddKeepsOrder(c, s, isRead, a, addr); }
    assert WritesOk(c, s'.mc, s.now - 1);
    hide InOrder, WritesOk, ReadsOk, QueuesOk, Agree, WindowsOk;
  }

  /** Requests address banks the channel has. */
  predicate Legal(c: Config, events: seq<Event>) {
    forall i :: 0 <= i < |events| ==> match events[i] case Request(_, a) => c.InRange(a) case Clock => true
  }

  /** No run ends in an error exit: no rank refuses a command, no power change comes at the
      wrong time, no bus collides, no queue overflows, no read comes back unmatched. */
  lemma {:induction false} NoErrorExit(c: Config, events: seq<Event>)
    requires c.Valid() && Legal(c, events)
    ensures Run(c, events).Some? && Inv(c, Run(c, events).value)
  {
    if |events| == 0 {
      StartHolds(c);
    } else {
      var rest := events[..|events|-1];
      NoErrorExit(c, rest);
      var s := Run(c, rest).value;
      match events[|events|-1]
      case Request(isRead, a) => AddKeeps(c, s, isRead, a);
      case Clock => CycleKeeps(c, s);
    }
  }
}
