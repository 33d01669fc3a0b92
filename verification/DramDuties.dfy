/** When the phases of a cycle must act: the next command of a run, the split of a transaction,
    the refresh timer, power management, the return of a read. */
module DramDuties {
  import opened Wrappers
  import opened DramTypes
  import opened DramBanks
  import opened DramQueue
  import opened DramQueueProofs
  import opened DramSystem
  import opened DramWindow
  import opened DramAgreement
  import opened DramTheorems
  import opened DramPromises
  import opened DramTable
  import opened DramProgress
  import opened DramGaps
  import opened DramDistances
  import opened DramLimits

  // ---- the next command ----------------------------------------------------------------------

  lemma MidGivesQueues(c: Config, m: System)
    requires c.Valid() && Mid(c, m)
    ensures Shaped(c, m.mc.cq) && TableShaped(c, m.mc.banks) && PacketsInRange(c, m.mc.cq)
  {
    var q := m.mc.cq;
    forall r, sl, i | 0 <= r < |q.queues| && 0 <= sl < |q.queues[r]| && 0 <= i < |q.queues[r][sl]|
      ensures q.queues[r][sl][i].rank < c.ranks && q.queues[r][sl][i].bank < c.banks
    {
      assert RankQueuesOk(c, q.queues[r], r, m.mc.banks[r], q.accesses[r], ServedTable(c, m.log.sent)[r]);
      assert Blocks(c, q.queues[r][sl], r, sl) && PacketOk(c, q.queues[r][sl][i], r, sl);
    }
  }

  /** The command a cycle sends is the one pop() gives. */
  lemma CycleSendsPop(c: Config, s: System)
    requires c.Valid() && Inv(c, s)
    ensures Cycle(c, s).Some?
    ensures var m := Middle(c, s);
            && Shaped(c, m.mc.cq) && TableShaped(c, m.mc.banks) && PacketsInRange(c, m.mc.cq)
            && Cycle(c, s).value.log.sent == s.log.sent + Logged(Pop(c, m.mc.cq, m.mc.banks, m.now).0, s.now)
  {
    hide Cycle, Inv, Middle, PopAndSend, Pop, TableOk, Sendable, PowerSteps, Mid;
    var p := CycleOnTable(c, s);
    var m := Middle(c, s);
    MiddleHolds(c, s);
    MidGivesQueues(c, m);
    MidIsShaped(c, m);
    PopAndSendIsPop(c, m);
  }

  lemma PopAndSendIsPop(c: Config, m: System)
    requires c.Valid() && ControllerShaped(c, m.mc) && PacketsInRange(c, m.mc.cq) && PopAndSend(c, m).Some?
    ensures PopAndSend(c, m).value.log.sent == m.log.sent + Logged(Pop(c, m.mc.cq, m.mc.banks, m.now).0, m.now)
  {
    hide Decide, Commit, Chosen, Settle, SendBanks;
    DecideShaped(c, m.mc.cq.(faw := TickFaw(m.mc.cq.faw)), m.mc.banks, m.now);
    assert m.log.sent + [] == m.log.sent;
  }

  function Clocks(events: seq<Event>): nat {
    if |events| == 0 then 0 else Clocks(events[..|events|-1]) + (if events[|events|-1] == Clock then 1 else 0)
  }

  /** The simulated time is the number of cycles so far. */
  lemma {:induction false} TimeIsClocks(c: Config, events: seq<Event>)
    requires c.Valid() && Legal(c, events)
    ensures Run(c, events).Some? && Run(c, events).value.now == Clocks(events)
  {
    hide Inv, Cycle, PowerSteps, Sendable, TableOk, PopAndSend, Middle;
    NoErrorExit(c, events);
    if |events| > 0 {
      var rest := events[..|events|-1];
      NoErrorExit(c, rest);
      TimeIsClocks(c, rest);
      if events[|events|-1] == Clock { var p := CycleOnTable(c, Run(c, rest).value); }
    }
  }

  /** Every command that has a say in this limit is at least its distance ago. */
  ghost predicate Passed(t: Timing, w: Limit, sent: seq<Sent>, r: nat, j: nat, now: int) {
    forall i :: 0 <= i < |sent| && Binds(w, sent[i].packet, r, j) ==> now >= sent[i].at + GapTo(t, w, sent[i].packet, r, j)
  }

  lemma PassedIsDue(t: Timing, w: Limit, v: int, sent: seq<Sent>, r: nat, j: nat, now: int)
    requires Due(t, w, v, sent, r, j) && Passed(t, w, sent, r, j, now) && now >= 0
    ensures v <= now
  {
    hide Binds, GapTo;
  }

  function LimitFor(k: Kind): Limit {
    match k
    case ACTIVATE => ToActivate
    case PRECHARGE => ToPrecharge
    case _ => if k.IsRead() then ToRead else ToWrite
  }

  /** The state a bank must be in for a command. */
  predicate InPhase(b: Bank, p: Packet) {
    if p.kind == ACTIVATE then b.phase == Idle || b.phase == Refreshing
    else b.phase == RowActive && (p.kind.IsColumn() ==> Open(b) && b.openRow == p.row)
  }

  /** In the middle of a cycle: a bank in the right state allows a command once the distances to
      all commands sent before have passed. */
  lemma AllowedWhenPassed(c: Config, s: System, p: Packet)
    requires c.Valid() && Inv(c, s) && AllDue(c, s.mc.banks, s.log.sent, s.now - 1) && s.now >= 0 && !c.lowPower
    requires p.rank < c.ranks && p.bank < c.banks && p.kind != DATA && p.kind != REFRESH
    requires p.rank < |Middle(c, s).mc.banks| && p.bank < |Middle(c, s).mc.banks[p.rank]|
    requires InPhase(Middle(c, s).mc.banks[p.rank][p.bank], p)
    requires Passed(c.t, LimitFor(p.kind), s.log.sent, p.rank, p.bank, s.now)
    ensures BankAllows(Middle(c, s).mc.banks[p.rank][p.bank], p, s.now)
  {
    hide Inv, Middle, Due, Passed, TickBank, LimitsDue, TransitDue;
    var b := Middle(c, s).mc.banks[p.rank][p.bank];
    InvGivesTable(c, s);
    TickKeepsAllDue(c, s.mc.banks, s.log.sent, s.now - 1);
    assert LimitsDue(c, b, s.log.sent, p.rank, p.bank, s.now);
    LimitIsDue(c, b, s.log.sent, p, s.now);
    PassedIsDue(c.t, LimitFor(p.kind), LimitOf(b, LimitFor(p.kind)), s.log.sent, p.rank, p.bank, s.now);
  }

  lemma LimitIsDue(c: Config, b: Bank, sent: seq<Sent>, p: Packet, now: int)
    requires LimitsDue(c, b, sent, p.rank, p.bank, now) && InPhase(b, p) && !c.lowPower && p.kind != DATA && p.kind != REFRESH
    ensures Due(c.t, LimitFor(p.kind), LimitOf(b, LimitFor(p.kind)), sent, p.rank, p.bank)
  {
    hide Due, TransitDue;
  }

  // ---- the four-activate window has room -----------------------------------------------------

  lemma {:induction false} CountBlock(v: seq<int>, k: nat, lo: int, hi: int)
    requires k <= |v| && forall i :: k <= i < |v| ==> lo <= v[i] < hi
    ensures CountWithin(v, lo, hi) >= |v| - k
  {
    if |v| > k { CountBlock(v[..|v|-1], k, lo, hi); }
  }

  lemma WindowLeavesRoom(tFAW: nat, faw: seq<int>, acts: seq<int>, now: int)
    requires WindowOk(tFAW, faw, acts, now - 1) && CountWithin(acts, now + 1 - tFAW, now + 1) < 4
    ensures WindowHasRoom(faw)
  {
    if |faw| == 4 && faw[0] != 1 {
      var k := |acts| - 4;
      assert faw[0] == acts[k] + tFAW - (now - 1);
      CountBlock(acts, k, now + 1 - tFAW, now + 1);
    }
  }

  lemma MiddleWindow(c: Config, s: System, r: nat)
    requires c.Valid() && Inv(c, s) && r < c.ranks && ActsWithin(s.log.sent, r, s.now + 1 - c.t.tFAW, s.now + 1) < 4
    ensures r < |Middle(c, s).mc.cq.faw| && WindowHasRoom(Middle(c, s).mc.cq.faw[r])
  {
    hide *;
    WindowHolds(c, s, r);
    ActsAreTimes(s.log.sent, r, s.now + 1 - c.t.tFAW, s.now + 1);
    WindowLeavesRoom(c.t.tFAW, s.mc.cq.faw[r], ActTimes(s.log.sent, r), s.now);
  }

  // ---- every run makes progress --------------------------------------------------------------

  /** No refresh wants the rank, the bank is in the right state, the row's accesses are not used
      up, fewer than four ACTIVATEs lie in the window, and no packet in front holds it back. */
  ghost predicate CanGo(c: Config, s: System, r: nat, sl: nat, i: nat)
    requires c.Valid() && Inv(c, s)
  {
    var m := Middle(c, s);
    && r < c.ranks && r < |m.mc.cq.queues| && sl < |m.mc.cq.queues[r]| && i < |m.mc.cq.queues[r][sl]|
    && !m.mc.cq.refreshWaiting
    && var p := m.mc.cq.queues[r][sl][i];
    && !HeldBack(c, m.mc.cq.queues[r][sl], i)
    && p.rank < |m.mc.banks| && p.bank < |m.mc.banks[p.rank]|
    && InPhase(m.mc.banks[p.rank][p.bank], p)
    && p.rank < |m.mc.cq.accesses| && p.bank < |m.mc.cq.accesses[p.rank]|
    && (p.kind == ACTIVATE ==> ActsWithin(s.log.sent, p.rank, s.now + 1 - c.t.tFAW, s.now + 1) < 4)
    && (p.kind.IsColumn() ==> m.mc.cq.accesses[p.rank][p.bank] < c.totalRowAccesses)
    && Passed(c.t, LimitFor(p.kind), s.log.sent, p.rank, p.bank, s.now)
  }

  lemma CanGoLeaves(c: Config, s: System, r: nat, sl: nat, i: nat)
    requires c.Valid() && Inv(c, s) && CanGo(c, s, r, sl, i) && !c.lowPower && s.now >= 0
    requires AllDue(c, s.mc.banks, s.log.sent, s.now - 1)
    ensures MayLeave(c, Middle(c, s).mc.cq, Middle(c, s).mc.banks, r, sl, i, s.now)
  {
    hide Inv, AllDue, ActsWithin, Passed, BankAllows, WindowHasRoom, Middle, HeldBack, Mid;
    var m := Middle(c, s);
    MidGivesQueues(c, m);
    var p := m.mc.cq.queues[r][sl][i];
    assert p.rank < c.ranks && p.bank < c.banks;
    QueuedKinds(c, m, r, sl, i);
    AllowedWhenPassed(c, s, p);
    if p.kind == ACTIVATE { MiddleWindow(c, s, p.rank); }
  }

  lemma QueuedKinds(c: Config, m: System, r: nat, sl: nat, i: nat)
    requires c.Valid() && Mid(c, m) && r < |m.mc.cq.queues| && sl < |m.mc.cq.queues[r]| && i < |m.mc.cq.queues[r][sl]|
    ensures m.mc.cq.queues[r][sl][i].kind != DATA && m.mc.cq.queues[r][sl][i].kind != REFRESH
    ensures r < |m.mc.cq.faw| && m.mc.cq.queues[r][sl][i].rank == r
  {
    assert RankQueuesOk(c, m.mc.cq.queues[r], r, m.mc.banks[r], m.mc.cq.accesses[r], ServedTable(c, m.log.sent)[r]);
    assert Blocks(c, m.mc.cq.queues[r][sl], r, sl) && PacketOk(c, m.mc.cq.queues[r][sl][i], r, sl);
  }

  /** In every run: if some queued packet can go, the next cycle sends a packet that can. */
  lemma NextCycleSends(c: Config, events: seq<Event>, r: nat, sl: nat, i: nat)
    requires c.Valid() && Legal(c, events) && Legal(c, events + [Clock]) && !c.lowPower
    requires CanGo(c, After(c, events), r, sl, i)
    ensures var s, s' := After(c, events), After(c, events + [Clock]);
            && |s'.log.sent| == |s.log.sent| + 1 && s'.log.sent[..|s.log.sent|] == s.log.sent
            && IsNext(c, Middle(c, s).mc.cq, Middle(c, s).mc.banks, s'.log.sent[|s.log.sent|].packet, s.now)
  {
    hide Inv, Cycle, AllDue, CanGo, Pop, IsNextAt, MayLeave, Middle;
    var s := After(c, events);
    RunKeepsAllDue(c, events);
    TimeIsClocks(c, events);
    CanGoLeaves(c, s, r, sl, i);
    CycleSendsPop(c, s);
    var m := Middle(c, s);
    NoRefresh(c, s, r, sl, i);
    PopMakesProgress(c, m.mc.cq, m.mc.banks, m.now);
    assert (events + [Clock])[..|events + [Clock]|-1] == events;
  }

  lemma NoRefresh(c: Config, s: System, r: nat, sl: nat, i: nat)
    requires c.Valid() && Inv(c, s) && CanGo(c, s, r, sl, i)
    requires var m := Middle(c, s); Shaped(c, m.mc.cq) && TableShaped(c, m.mc.banks)
    ensures var m := Middle(c, s); !RefreshActs(c, m.mc.cq, m.mc.banks, m.now) && !Cleared(m.mc.cq, r)
  {
  }

  // ---- requests are taken in -----------------------------------------------------------------

  /** A request is taken, as the last of the queue, exactly while the queue has room. */
  lemma RequestActs(c: Config, events: seq<Event>, isRead: bool, addr: nat)
    requires c.Valid() && Legal(c, events) && c.InRange(addr)
    ensures Legal(c, events + [Request(isRead, addr)])
    ensures var s, s' := After(c, events), After(c, events + [Request(isRead, addr)]);
            var t := Transaction(isRead, addr, |s.log.accepted|);
            && (t in s'.log.accepted <==> |s.mc.transactions| < c.transQueueDepth)
            && (t in s'.log.accepted ==>
                  s'.mc.transactions == s.mc.transactions + [t] && s'.log.accepted == s.log.accepted + [t])
            && (t !in s'.log.accepted ==> s' == s)
  {
    hide Cycle;
    var all := events + [Request(isRead, addr)];
    assert all[..|all|-1] == events;
    NumbersAreNew(c, events);
    hide Inv;
  }

  lemma NumbersAreNew(c: Config, events: seq<Event>)
    requires c.Valid() && Legal(c, events)
    ensures forall t :: t in After(c, events).log.accepted ==> t.tag < |After(c, events).log.accepted|
  {
  }

  // ---- transactions become commands ----------------------------------------------------------

  /** The queue of a transaction has room for its ACTIVATE and its column command. */
  predicate HasSpace(c: Config, s: System, t: Transaction) {
    var at := c.locate(t.addr);
    && at.rank < |s.mc.cq.queues| && Slot(c, at.bank) < |s.mc.cq.queues[at.rank]|
    && |s.mc.cq.queues[at.rank][Slot(c, at.bank)]| + 2 <= c.cmdQueueDepth
  }

  /** The first transaction that fits leaves its queue, and an ACTIVATE and a column command to
      its location stand at the end of the command queue; if none fits nothing changes. */
  lemma SplitActs(c: Config, s: System, i: nat)
    requires c.Valid() && Late(c, s)
    requires i <= |s.mc.transactions| && (forall k :: 0 <= k < i ==> !HasSpace(c, s, s.mc.transactions[k]))
    requires i < |s.mc.transactions| ==> HasSpace(c, s, s.mc.transactions[i])
    ensures SplitTransaction(c, s).Some?
    ensures var s' := SplitTransaction(c, s).value;
            if i == |s.mc.transactions| then s' == s
            else
              var t := s.mc.transactions[i];
              var at := c.locate(t.addr);
              var q, q' := s.mc.cq.queues[at.rank][Slot(c, at.bank)], s'.mc.cq.queues[at.rank][Slot(c, at.bank)];
              && s'.mc.transactions == s.mc.transactions[..i] + s.mc.transactions[i+1..]
              && |q'| == |q| + 2 && q'[..|q|] == q
              && q'[|q|].kind == ACTIVATE && q'[|q|+1].kind == ColumnKind(c.policy, t.isRead)
              && (forall k :: |q| <= k < |q'| ==>
                    q'[k].rank == at.rank && q'[k].bank == at.bank && q'[k].row == at.row && q'[k].addr == t.addr && q'[k].tag == t.tag)
              && s'.mc.pendingReads == s.mc.pendingReads + (if t.isRead then [t] else [])
  {
    hide Late;
    SplitKeeps(c, s);
    LateIsShaped(c, s);
    RoomIs(c, s);
    var ts := s.mc.transactions;
    var k := FirstWithRoom(c, s.mc.cq, ts);
    if i < |ts| {
      assert HasRoom(c, s.mc.cq, ts[i].addr) by { assert ts[i] in ts; }
      assert k <= i;
    }
    if k < |ts| {
      assert ts[k] in ts && HasRoom(c, s.mc.cq, ts[k].addr);
      assert HasSpace(c, s, ts[k]);
    }
    assert k == i;
  }

  lemma RoomIs(c: Config, s: System)
    requires c.Valid() && Late(c, s) && ControllerShaped(c, s.mc)
    ensures forall t :: t in s.mc.transactions ==> c.InRange(t.addr) && (HasRoom(c, s.mc.cq, t.addr) <==> HasSpace(c, s, t))
  {
    forall t | t in s.mc.transactions ensures c.InRange(t.addr) && (HasRoom(c, s.mc.cq, t.addr) <==> HasSpace(c, s, t)) {
      LateRoom(c, s, t);
    }
  }

  lemma LateRoom(c: Config, s: System, t: Transaction)
    requires c.Valid() && Late(c, s) && ControllerShaped(c, s.mc) && t in s.mc.transactions
    ensures c.InRange(t.addr) && (HasRoom(c, s.mc.cq, t.addr) <==> HasSpace(c, s, t))
  {
    var at := SpotOf(c, t.addr);
    assert |s.mc.cq.queues[at.rank][Slot(c, at.bank)]| <= c.cmdQueueDepth;
  }

  // ---- a read goes back ----------------------------------------------------------------------

  /** As long as data waits to be returned, every cycle returns the first of it, to the oldest
      pending read of its address. */
  lemma ReturnActs(c: Config, s: System)
    requires c.Valid() && Late(c, s) && |s.mc.toReturn| > 0
    ensures ReturnRead(c, s).Some?
    ensures var s' := ReturnRead(c, s).value;
            && s'.mc.toReturn == s.mc.toReturn[1..]
            && |s'.log.returned| == |s.log.returned| + 1 && s'.log.returned[..|s.log.returned|] == s.log.returned
            && exists k :: 0 <= k < |s.mc.pendingReads| && s.mc.pendingReads[k].addr == s.mc.toReturn[0].addr
                 && (forall m :: 0 <= m < k ==> s.mc.pendingReads[m].addr != s.mc.toReturn[0].addr)
                 && s'.log.returned[|s.log.returned|] == s.mc.pendingReads[k]
                 && s'.mc.pendingReads == s.mc.pendingReads[..k] + s.mc.pendingReads[k+1..]
  {
    hide Late;
    ReturnKeeps(c, s);
    var k := FirstPending(s.mc.pendingReads, s.mc.toReturn[0].addr);
    assert k < |s.mc.pendingReads|;
  }

  // ---- power management ----------------------------------------------------------------------

  ghost predicate NothingQueued(s: System, r: nat) {
    r < |s.mc.cq.queues| && forall sl :: 0 <= sl < |s.mc.cq.queues[r]| ==> s.mc.cq.queues[r][sl] == []
  }

  ghost predicate EveryBankIdle(row: seq<Bank>) {
    forall j :: 0 <= j < |row| ==> row[j].phase == Idle
  }

  /** An idle rank without work goes to sleep, a sleeping one with work or a refresh ahead wakes
      up once it has slept its time, and nothing else changes its power state. */
  lemma PowerActs(c: Config, s: System, r: nat)
    requires c.Valid() && Late(c, s) && PowerShaped(c, s) && r < c.ranks
    ensures PowerRank(c, s, r).Some?
    ensures var s' := PowerRank(c, s, r).value;
            var work := !NothingQueued(s, r) || s.ranks[r].refreshWaiting;
            && |s'.mc.powerDown| == |s'.ranks| == c.ranks && |s.mc.banks[r]| == c.banks > 0
            && (c.lowPower && !work && EveryBankIdle(s.mc.banks[r]) ==> s'.mc.powerDown[r] && s'.ranks[r].isPowerDown)
            && (c.lowPower && work && s.mc.powerDown[r] && s.now >= s.mc.banks[r][0].nextPowerUp ==>
                  !s'.mc.powerDown[r] && !s'.ranks[r].isPowerDown)
            && (s.mc.powerDown[r] && !s'.mc.powerDown[r] ==> c.lowPower && work && s.now >= s.mc.banks[r][0].nextPowerUp)
            && (!s.mc.powerDown[r] && s'.mc.powerDown[r] ==> c.lowPower && !work && EveryBankIdle(s.mc.banks[r]))
  {
    PowerRankKeeps(c, s, r);
    LateBanks(c, s, r);
    QueueEmptyIs(s, r);
    hide Late, QueueEmpty, NothingQueued;
  }

  lemma QueueEmptyIs(s: System, r: nat)
    ensures QueueEmpty(s.mc.cq, r) <==> NothingQueued(s, r)
  {
  }

  lemma LateBanks(c: Config, s: System, r: nat)
    requires c.Valid() && Late(c, s) && r < c.ranks
    ensures r < |s.mc.banks| && |s.mc.banks[r]| == c.banks && r < |s.ranks| && s.ranks[r].isPowerDown == s.mc.powerDown[r]
    ensures s.mc.powerDown[r] ==> !EveryBankIdle(s.mc.banks[r])
  {
    assert RankAgrees(c, s.mc.banks[r], Arrived(c, s.ranks[r], r, s.mc.cmd, s.now + 1), s.mc.powerDown[r], s.now);
    assert s.mc.powerDown[r] ==> s.mc.banks[r][0].phase == PowerDown;
  }
}
