/** No run of the channel stalls: while a command waits or a refresh is due, some command is sent
    as soon as the distances to those already sent have passed. */
module DramLiveness {
  import opened Wrappers
  import opened DramTypes
  import opened DramBanks
  import opened DramQueue
  import opened DramQueueProofs
  import opened DramCommitProofs
  import opened DramSystem
  import opened DramTheorems
  import opened DramPromises
  import opened DramDataBus
  import opened DramTable
  import opened DramGaps
  import opened DramDistances
  import opened DramLimits
  import opened DramProgress
  import opened DramDuties

  // ---- in close page an open row is waited for -------------------------------------------------

  /** The column command of an ACTIVATE that has left is still in the queue. */
  ghost predicate Awaited(q: seq<Packet>, b: nat) {
    exists i: nat :: Alone(q, i) && q[i].bank == b
  }

  ghost predicate AllAwaited(c: Config, queues: seq<seq<seq<Packet>>>, banks: seq<seq<Bank>>) {
    c.policy == ClosePage ==>
      forall r: nat, b: nat :: r < |banks| && b < |banks[r]| && r < |queues| && Slot(c, b) < |queues[r]| && Open(banks[r][b]) ==>
        Awaited(queues[r][Slot(c, b)], b)
  }

  lemma CalmKeepsAwaited(c: Config, queues: seq<seq<seq<Packet>>>, banks: seq<seq<Bank>>, banks': seq<seq<Bank>>)
    requires AllAwaited(c, queues, banks) && Calm(banks, banks')
    ensures AllAwaited(c, queues, banks')
  {
    hide Awaited;
    if c.policy == ClosePage {
      forall r: nat, b: nat | r < |banks'| && b < |banks'[r]| && r < |queues| && Slot(c, b) < |queues[r]| && Open(banks'[r][b])
        ensures Awaited(queues[r][Slot(c, b)], b)
      {
        assert CalmBank(banks[r][b], banks'[r][b]);
      }
    }
  }

  lemma CutKeepsLone(q: seq<Packet>, i: nat, k: nat)
    requires CleanCut(q, i, i + 1) && Alone(q, k) && k != i
    ensures Awaited(Remove(q, i, i + 1), q[k].bank)
  {
    var q', k' := Remove(q, i, i + 1), if k < i then k else k - 1;
    assert q'[k'] == q[k];
    assert k' > 0 ==> q'[k' - 1] == q[if k' - 1 < i then k' - 1 else k'];
    assert Alone(q', k');
  }

  /** An ACTIVATE that leaves leaves its column command waiting alone. */
  lemma CutMakesLone(c: Config, q: seq<Packet>, i: nat, rank: nat, slot: nat)
    requires Blocks(c, q, rank, slot) && i < |q| && q[i].kind == ACTIVATE
    ensures Awaited(Remove(q, i, i + 1), q[i].bank)
  {
    var q' := Remove(q, i, i + 1);
    assert Paired(q[i], q[i + 1]) && q'[i] == q[i + 1];
    assert i > 0 ==> q'[i - 1] == q[i - 1] && (q[i - 1].kind == ACTIVATE ==> Paired(q[i - 1], q[i]));
    assert Alone(q', i);
  }

  /** The queue a packet is taken from, in close page. */
  lemma TakeKeepsAwaited(c: Config, q: seq<Packet>, i: nat, b: nat, rank: nat, slot: nat)
    requires Blocks(c, q, rank, slot) && i < |q| && CleanCut(q, i, i + 1)
    requires (q[i].kind == ACTIVATE && q[i].bank == b) || (Awaited(q, b) && (q[i].kind == ACTIVATE || q[i].bank != b))
    ensures Awaited(Remove(q, i, i + 1), b)
  {
    if q[i].kind == ACTIVATE && q[i].bank == b {
      CutMakesLone(c, q, i, rank, slot);
    } else {
      var k: nat :| Alone(q, k) && q[k].bank == b;
      CutKeepsLone(q, i, k);
    }
  }

  /** Where a bank is open after a command, in close page. */
  lemma OpenAfter(c: Config, b: Bank, p: Packet, now: int, r: nat, j: nat)
    requires c.Valid() && c.policy == ClosePage && p.kind != DATA && CountdownOk(c, b, now)
    requires Addressed(p, r, j) ==> MaySend(c, b, p, now)
    requires Open(SendBank(c, b, p, now, r, j))
    ensures (p.kind == ACTIVATE && p.rank == r && p.bank == j) || (Open(b) && !(p.rank == r && (p.kind == REFRESH || (p.bank == j && p.kind != ACTIVATE))))
  {
  }

  lemma TakenCut(c: Config, s: QueueState, table: seq<seq<Bank>>, served: seq<seq<nat>>, d: Decision, now: int)
    requires c.Valid() && c.policy == ClosePage && QueuesOk(c, s, table, served) && d.Take? && DecisionOk(c, s, table, d, now)
    ensures !d.dropAct
    ensures var q := QueueAt(c, s, d.at);
            && q == s.queues[d.at.rank][Slot(c, d.at.bank)] && d.index < |q|
            && Blocks(c, q, d.at.rank, Slot(c, d.at.bank)) && CleanCut(q, d.index, d.index + 1)
            && q[d.index].rank == d.at.rank && Slot(c, q[d.index].bank) == Slot(c, d.at.bank)
  {
    var q := QueueAt(c, s, d.at);
    var r, sl := d.at.rank, Slot(c, d.at.bank);
    assert RankQueuesOk(c, s.queues[r], r, table[r], s.accesses[r], served[r]);
    assert Blocks(c, q, r, sl) && PacketOk(c, q[d.index], r, sl);
    assert d.index > 0 && q[d.index - 1].kind == ACTIVATE ==> Paired(q[d.index - 1], q[d.index]);
  }

  lemma CommitKeepsAwaited(c: Config, s: QueueState, table: seq<seq<Bank>>, served: seq<seq<nat>>, d: Decision, now: int)
    requires c.Valid() && QueuesOk(c, s, table, served) && TableOk(c, table, now)
    requires d != Wait && DecisionOk(c, s, table, d, now) && AllAwaited(c, s.queues, table)
    ensures DecisionShaped(c, s, d) && AllAwaited(c, Commit(c, s, d).queues, SendBanks(c, table, Chosen(c, s, d), now))
  {
    hide RankQueuesOk, Awaited, SendBank, DownTogether, CountdownOk, SendableTo, Addressed, Alone, CleanCut, Blocks;
    var p, table' := Chosen(c, s, d), SendBanks(c, table, Chosen(c, s, d), now);
    if c.policy == ClosePage {
      DecisionIsSendable(c, s, table, served, d, now);
      if d.Take? { TakenCut(c, s, table, served, d, now); }
      forall r: nat, b: nat | r < c.ranks && b < c.banks && Open(table'[r][b])
        ensures Awaited(Commit(c, s, d).queues[r][Slot(c, b)], b)
      {
        BankAwaited(c, s, table, served, d, now, r, b);
      }
    }
  }

  lemma BankAwaited(c: Config, s: QueueState, table: seq<seq<Bank>>, served: seq<seq<nat>>, d: Decision, now: int, r: nat, b: nat)
    requires c.Valid() && QueuesOk(c, s, table, served) && TableOk(c, table, now) && c.policy == ClosePage
    requires d != Wait && DecisionOk(c, s, table, d, now) && AllAwaited(c, s.queues, table)
    requires r < c.ranks && b < c.banks && Open(SendBank(c, table[r][b], Chosen(c, s, d), now, r, b))
    ensures Slot(c, b) < |Commit(c, s, d).queues[r]| && Awaited(Commit(c, s, d).queues[r][Slot(c, b)], b)
  {
    hide Awaited, SendBank, DownTogether, CountdownOk, Addressed, Alone, CleanCut, Blocks;
    var p := Chosen(c, s, d);
    DecisionIsSendable(c, s, table, served, d, now);
    SendableBank(c, table, p, now, r, b);
    OpenAfter(c, table[r][b], p, now, r, b);
    if d.Take? {
      TakenCut(c, s, table, served, d, now);
      var q := QueueAt(c, s, d.at);
      if r == d.at.rank && Slot(c, b) == Slot(c, d.at.bank) {
        TakeKeepsAwaited(c, q, d.index, b, r, Slot(c, b));
      }
    }
  }

  lemma SendableBank(c: Config, table: seq<seq<Bank>>, p: Packet, now: int, r: nat, b: nat)
    requires Sendable(c, table, p, now) && TableOk(c, table, now) && r < c.ranks && b < c.banks
    ensures p.kind != DATA && CountdownOk(c, table[r][b], now) && (Addressed(p, r, b) ==> MaySend(c, table[r][b], p, now))
  {
    hide MaySend, CountdownOk, DownTogether;
    SendableIsCommand(c, table, p, now);
  }

  ghost predicate Awaiting(c: Config, s: System) { AllAwaited(c, s.mc.cq.queues, s.mc.banks) }

  lemma PopKeepsAwaiting(c: Config, m: System)
    requires c.Valid() && Mid(c, m) && Awaiting(c, m)
    ensures PopAndSend(c, m).Some? && Awaiting(c, PopAndSend(c, m).value)
  {
    PopIsSend(c, m);
    DecideIsSound(c, m);
    MidGivesTable(c, m);
    var (d, q1) := Decide(c, m.mc.cq.(faw := TickFaw(m.mc.cq.faw)), m.mc.banks, m.now);
    if d != Wait {
      CommitKeepsAwaited(c, q1, m.mc.banks, ServedTable(c, m.log.sent), d, m.now);
      SendQueues(c, m, q1, d);
      SettleFrame(c, Commit(c, q1, d), Chosen(c, q1, d));
    }
    hide PopAndSend, Decide, Commit, Chosen, Settle, Mid, AllAwaited, QueuesOk, DecisionOk, TableOk;
  }

  lemma SplitKeepsAwaiting(c: Config, s: System)
    requires Shaped(c, s.mc.cq) && SplitTransaction(c, s).Some? && Awaiting(c, s)
    ensures Awaiting(c, SplitTransaction(c, s).value)
  {
    hide FirstWithRoom, Awaited, HasRoom;
    var s' := SplitTransaction(c, s).value;
    if c.policy == ClosePage {
      forall r: nat, b: nat | r < |s'.mc.banks| && b < |s'.mc.banks[r]| && r < |s'.mc.cq.queues| && Slot(c, b) < |s'.mc.cq.queues[r]| && Open(s'.mc.banks[r][b])
        ensures Awaited(s'.mc.cq.queues[r][Slot(c, b)], b)
      {
        var q, q' := s.mc.cq.queues[r][Slot(c, b)], s'.mc.cq.queues[r][Slot(c, b)];
        assert Awaited(q, b);
        LongerAwaited(q, q', b);
      }
    }
  }

  lemma LongerAwaited(q: seq<Packet>, q': seq<Packet>, b: nat)
    requires Awaited(q, b) && q <= q'
    ensures Awaited(q', b)
  {
    var i: nat :| Alone(q, i) && q[i].bank == b;
    assert Alone(q', i);
  }

  lemma {:induction false} PowerKeepsQueues(c: Config, s: System, n: nat)
    requires c.Valid() && Late(c, s) && n <= c.ranks && PowerShaped(c, s) && PowerRanks(c, s, n).Some?
    ensures PowerRanks(c, s, n).value.mc.cq == s.mc.cq
  {
    hide Late, PowerRank;
    if n > 0 {
      PowerRanksKeep(c, s, n - 1);
      PowerKeepsQueues(c, s, n - 1);
      PowerRankFlow(c, PowerRanks(c, s, n - 1).value, n - 1);
    }
  }

  lemma ActKeepsAwaiting(c: Config, s: System)
    requires c.Valid() && Mid(c, s) && Awaiting(c, s)
    ensures Act(c, s).Some? && Awaiting(c, Act(c, s).value)
  {
    hide Mid, Late, PopAndSend, SplitTransaction, PowerRanks, ReturnRead, Shaped, TableShaped, AllAwaited, PowerStep, Calm;
    MidIsShaped(c, s);
    PopKeeps(c, s);
    PopKeepsAwaiting(c, s);
    var s1 := PopAndSend(c, s).value;
    LateIsShaped(c, s1);
    SplitKeeps(c, s1);
    SplitKeepsAwaiting(c, s1);
    var s2 := SplitTransaction(c, s1).value;
    LateIsShaped(c, s2);
    PowerRanksKeep(c, s2, c.ranks);
    PowerRanksSteps(c, s2, c.ranks);
    PowerKeepsQueues(c, s2, c.ranks);
    var s3 := PowerRanks(c, s2, c.ranks).value;
    PowerStepsAreCalm(c, s2.mc.banks, s3.mc.banks, s2.now) by { assert PowerSteps(c, s2.mc.banks, s3.mc.banks, s2.now); }
    CalmKeepsAwaited(c, s2.mc.cq.queues, s2.mc.banks, s3.mc.banks);
    ReturnKeeps(c, s3);
    ReturnFrame(c, s3);
  }

  lemma MiddleAwaits(c: Config, s: System)
    requires c.Valid() && Inv(c, s) && Awaiting(c, s)
    ensures Awaiting(c, Middle(c, s))
  {
    hide Inv, Middle, AllAwaited, TickBanks, TableOk, Calm;
    InvGivesTable(c, s);
    CountdownsOfTable(c, s.mc.banks, s.now - 1);
    TickIsCalm(c, s.mc.banks, s.now - 1);
    CalmKeepsAwaited(c, s.mc.cq.queues, s.mc.banks, TickBanks(c, s.mc.banks));
  }

  lemma CycleKeepsAwaiting(c: Config, s: System)
    requires c.Valid() && Inv(c, s) && Awaiting(c, s)
    ensures Cycle(c, s).Some? && Awaiting(c, Cycle(c, s).value)
  {
    hide Inv, Middle, AllAwaited, Act, Cycle, Mid;
    MiddleAwaits(c, s);
    CycleIsAct(c, s);
    ActKeepsAwaiting(c, Middle(c, s));
  }

  lemma {:induction false} RunKeepsAwaiting(c: Config, events: seq<Event>)
    requires c.Valid() && Legal(c, events)
    ensures Run(c, events).Some? && Awaiting(c, Run(c, events).value)
  {
    hide Inv, Cycle, AllAwaited;
    NoErrorExit(c, events);
    if |events| == 0 {
      StartAwaits(c);
    } else {
      var rest := events[..|events|-1];
      NoErrorExit(c, rest);
      RunKeepsAwaiting(c, rest);
      if events[|events|-1] == Clock { CycleKeepsAwaiting(c, Run(c, rest).value); }
    }
  }

  lemma StartAwaits(c: Config)
    ensures Awaiting(c, Start(c))
  {
  }

  // ---- a settled channel has something to do ----------------------------------------------------

  /** The bank's times have passed, and it is neither on its way to idle nor asleep. */
  predicate Settled(b: Bank, now: int) {
    && b.nextActivate <= now && b.nextRead <= now && b.nextWrite <= now && b.nextPrecharge <= now
    && (b.phase == Idle || Open(b))
  }

  ghost predicate AllSettled(c: Config, m: System) {
    && (forall r, b :: 0 <= r < |m.mc.banks| && 0 <= b < |m.mc.banks[r]| ==> Settled(m.mc.banks[r][b], m.now))
    && (forall r :: 0 <= r < |m.mc.cq.faw| ==> WindowHasRoom(m.mc.cq.faw[r]))
  }

  /** What is known of a rank's queue in the middle of a cycle. */
  ghost predicate QueueFacts(c: Config, m: System, r: nat, sl: nat) {
    && r < c.ranks && sl < Slots(c) && Shaped(c, m.mc.cq) && TableShaped(c, m.mc.banks)
    && var q := m.mc.cq.queues[r][sl];
    && Blocks(c, q, r, sl)
    && (forall i: nat :: Alone(q, i) ==>
          && q[i].bank < c.banks && Open(m.mc.banks[r][q[i].bank]) && m.mc.banks[r][q[i].bank].openRow == q[i].row
          && m.mc.cq.accesses[r][q[i].bank] == 0 && NoneBefore(q, i, q[i].bank))
  }

  lemma MidQueue(c: Config, m: System, r: nat, sl: nat)
    requires c.Valid() && Mid(c, m) && r < c.ranks && sl < Slots(c)
    ensures QueueFacts(c, m, r, sl)
    ensures forall b: nat :: b < c.banks ==> m.mc.cq.accesses[r][b] <= c.totalRowAccesses
  {
    assert RankQueuesOk(c, m.mc.cq.queues[r], r, m.mc.banks[r], m.mc.cq.accesses[r], ServedTable(c, m.log.sent)[r]);
    var q := m.mc.cq.queues[r][sl];
    assert Blocks(c, q, r, sl) && AloneOk(q, m.mc.banks[r], m.mc.cq.accesses[r], ServedTable(c, m.log.sent)[r]);
    forall i: nat | Alone(q, i)
      ensures q[i].bank < c.banks && Open(m.mc.banks[r][q[i].bank]) && m.mc.banks[r][q[i].bank].openRow == q[i].row
      ensures m.mc.cq.accesses[r][q[i].bank] == 0 && NoneBefore(q, i, q[i].bank)
    {
      assert AloneSafe(q, i, m.mc.banks[r], m.mc.cq.accesses[r], ServedTable(c, m.log.sent)[r]);
    }
    forall b: nat | b < c.banks ensures m.mc.cq.accesses[r][b] <= c.totalRowAccesses {
      assert CountersOk(c, m.mc.banks[r][b], m.mc.cq.accesses[r][b], ServedTable(c, m.log.sent)[r][b]);
    }
  }

  /** A column command alone in the queue may leave a settled channel, if the queue discipline
      lets it. */
  lemma LoneGoes(c: Config, m: System, r: nat, sl: nat, i: nat)
    requires c.Valid() && QueueFacts(c, m, r, sl) && AllSettled(c, m) && Alone(m.mc.cq.queues[r][sl], i)
    ensures var p := m.mc.cq.queues[r][sl][i];
            && p.rank == r && p.bank < c.banks && Slot(c, p.bank) == sl
            && BankAllows(m.mc.banks[r][p.bank], p, m.now) && RoomFor(c, m.mc.cq, p)
    ensures c.policy == OpenPage || c.queuing == PerRank || i == 0 ==> !HeldBack(c, m.mc.cq.queues[r][sl], i)
  {
    var q := m.mc.cq.queues[r][sl];
    assert PacketOk(c, q[i], r, sl);
    assert Settled(m.mc.banks[r][q[i].bank], m.now);
  }

  /** In close page with a queue per bank, a lone column command is in front. */
  lemma LoneIsFirst(c: Config, m: System, r: nat, sl: nat, i: nat)
    requires c.Valid() && QueueFacts(c, m, r, sl) && Alone(m.mc.cq.queues[r][sl], i) && c.queuing == PerRankPerBank
    ensures i == 0
  {
    var q := m.mc.cq.queues[r][sl];
    assert PacketOk(c, q[i], r, sl) && PacketOk(c, q[0], r, sl);
    assert q[0].bank == q[i].bank;
  }

  lemma LoneLeaves(c: Config, m: System, r: nat, sl: nat, i: nat)
    requires c.Valid() && QueueFacts(c, m, r, sl) && AllSettled(c, m) && Alone(m.mc.cq.queues[r][sl], i)
    ensures c.policy == OpenPage || c.queuing == PerRank || i == 0 ==> MayLeave(c, m.mc.cq, m.mc.banks, r, sl, i, m.now)
    ensures c.queuing == PerRankPerBank ==> i == 0
  {
    hide AllSettled, BankAllows, RoomFor, HeldBack, QueueFacts;
    LoneGoes(c, m, r, sl, i);
    FactsShape(c, m, r, sl);
    if c.queuing == PerRankPerBank { LoneIsFirst(c, m, r, sl, i); }
  }

  lemma FactsShape(c: Config, m: System, r: nat, sl: nat)
    requires QueueFacts(c, m, r, sl)
    ensures r < |m.mc.cq.queues| && sl < |m.mc.cq.queues[r]| && r < |m.mc.banks| && |m.mc.banks[r]| == c.banks
  {
  }

  /** An ACTIVATE in front of the queue, to an idle bank. */
  lemma ActivateLeaves(c: Config, m: System, r: nat, sl: nat)
    requires c.Valid() && QueueFacts(c, m, r, sl) && AllSettled(c, m)
    requires |m.mc.cq.queues[r][sl]| > 0 && m.mc.cq.queues[r][sl][0].kind == ACTIVATE
    ensures m.mc.cq.queues[r][sl][0].bank < c.banks && Slot(c, m.mc.cq.queues[r][sl][0].bank) == sl
    ensures !Open(m.mc.banks[r][m.mc.cq.queues[r][sl][0].bank]) ==> MayLeave(c, m.mc.cq, m.mc.banks, r, sl, 0, m.now)
  {
    var p := m.mc.cq.queues[r][sl][0];
    assert PacketOk(c, p, r, sl);
    assert Settled(m.mc.banks[r][p.bank], m.now);
  }

  /** In open page the first packet to an open row stands alone, or its ACTIVATE is the first and
      it comes next. */
  lemma FirstToRow(c: Config, q: seq<Packet>, j: nat, b: nat, row: nat, rank: nat, slot: nat)
    requires Blocks(c, q, rank, slot) && FirstFor(q, j, b, row)
    ensures q[j].kind != ACTIVATE ==> Alone(q, j)
    ensures q[j].kind == ACTIVATE ==>
              && j + 1 < |q| && q[j + 1].kind != ACTIVATE && q[j + 1].bank == b && q[j + 1].row == row
              && forall k :: 0 <= k < j + 1 && q[k].kind != ACTIVATE ==> !(q[k].bank == b && q[k].row == row)
  {
    assert j > 0 && q[j - 1].kind == ACTIVATE ==> Paired(q[j - 1], q[j]);
    assert q[j].kind == ACTIVATE ==> Paired(q[j], q[j + 1]);
  }

  lemma {:induction false} SomeFirst(q: seq<Packet>, n: nat, b: nat, row: nat) returns (j: nat)
    requires n < |q| && q[n].bank == b && q[n].row == row
    ensures FirstFor(q, j, b, row)
  {
    if k: nat :| k < n && q[k].bank == b && q[k].row == row {
      j := SomeFirst(q, k, b, row);
    } else {
      j := n;
    }
  }

  /** In open page an open bank of a settled channel gives its row's next command, or may be
      closed. */
  lemma OpenBankMoves(c: Config, m: System, r: nat, b: nat)
    requires c.Valid() && c.policy == OpenPage && b < c.banks && QueueFacts(c, m, r, Slot(c, b)) && AllSettled(c, m)
    requires Open(m.mc.banks[r][b]) && m.mc.cq.accesses[r][b] <= c.totalRowAccesses
    ensures (exists i: nat :: MayLeave(c, m.mc.cq, m.mc.banks, r, Slot(c, b), i, m.now)) || MayClose(c, m.mc.cq, m.mc.banks, r, b, m.now)
  {
    var sl := Slot(c, b);
    var q, open := m.mc.cq.queues[r][sl], m.mc.banks[r][b].openRow;
    assert Settled(m.mc.banks[r][b], m.now);
    if n: nat :| n < |q| && q[n].bank == b && q[n].row == open {
      var j := SomeFirst(q, n, b, open);
      FirstToRow(c, q, j, b, open, r, sl);
      if q[j].kind != ACTIVATE {
        LoneLeaves(c, m, r, sl, j);
      } else if m.mc.cq.accesses[r][b] < c.totalRowAccesses {
        NextOfRow(c, m, r, b, j);
      }
    }
  }

  /** The column command behind the first ACTIVATE to the open row goes without it. */
  lemma NextOfRow(c: Config, m: System, r: nat, b: nat, j: nat)
    requires c.Valid() && c.policy == OpenPage && b < c.banks && QueueFacts(c, m, r, Slot(c, b)) && AllSettled(c, m)
    requires Open(m.mc.banks[r][b]) && m.mc.cq.accesses[r][b] < c.totalRowAccesses
    requires FirstFor(m.mc.cq.queues[r][Slot(c, b)], j, b, m.mc.banks[r][b].openRow) && m.mc.cq.queues[r][Slot(c, b)][j].kind == ACTIVATE
    ensures MayLeave(c, m.mc.cq, m.mc.banks, r, Slot(c, b), j + 1, m.now)
  {
    var sl := Slot(c, b);
    var q := m.mc.cq.queues[r][sl];
    FirstToRow(c, q, j, b, m.mc.banks[r][b].openRow, r, sl);
    assert PacketOk(c, q[j + 1], r, sl);
    assert Settled(m.mc.banks[r][b], m.now);
  }

  /** A settled channel with a packet waiting for a rank that is not being cleared has something
      to send. */
  lemma QueueMoves(c: Config, m: System, r: nat, sl: nat)
    requires c.Valid() && Mid(c, m) && Awaiting(c, m) && AllSettled(c, m) && r < c.ranks && sl < Slots(c)
    requires Shaped(c, m.mc.cq) && |m.mc.cq.queues[r][sl]| > 0 && !Cleared(m.mc.cq, r)
    ensures SomeMayLeave(c, m.mc.cq, m.mc.banks, m.now) || (c.policy == OpenPage && SomeMayClose(c, m.mc.cq, m.mc.banks, m.now))
  {
    hide Mid, AllSettled, MayLeave, MayClose, QueueFacts, Shaped, TableShaped;
    MidQueue(c, m, r, sl);
    FactsShape(c, m, r, sl);
    var q := m.mc.cq.queues[r][sl];
    if q[0].kind != ACTIVATE {
      LoneLeaves(c, m, r, sl, 0);
    } else {
      ActivateLeaves(c, m, r, sl);
      var b := q[0].bank;
      if Open(m.mc.banks[r][b]) {
        if c.policy == OpenPage {
          OpenBankMoves(c, m, r, b);
        } else {
          var i: nat :| Alone(q, i) && q[i].bank == b;
          LoneLeaves(c, m, r, sl, i);
        }
      }
    }
  }

  // ---- a refresh that waits -----------------------------------------------------------------------

  lemma {:induction false} FirstInTheWay(row: seq<Bank>, now: int, n: nat) returns (b: nat)
    requires n < |row| && !Quiet(row[n], now)
    ensures InTheWay(row, b, now)
  {
    if k: nat :| k < n && !Quiet(row[k], now) {
      b := FirstInTheWay(row, now, k);
    } else {
      b := n;
    }
  }

  /** A lone packet to the open row in the way drains. */
  lemma LoneDrains(c: Config, m: System, b: nat, j: nat)
    requires c.Valid() && Shaped(c, m.mc.cq) && TableShaped(c, m.mc.banks) && m.mc.cq.refreshWaiting && b < c.banks
    requires QueueFacts(c, m, m.mc.cq.refreshRank, Slot(c, b)) && AllSettled(c, m)
    requires InTheWay(m.mc.banks[m.mc.cq.refreshRank], b, m.now) && m.mc.banks[m.mc.cq.refreshRank][b].phase == RowActive
    requires FirstFor(m.mc.cq.queues[m.mc.cq.refreshRank][Slot(c, b)], j, b, m.mc.banks[m.mc.cq.refreshRank][b].openRow)
    requires Alone(m.mc.cq.queues[m.mc.cq.refreshRank][Slot(c, b)], j)
    ensures Drains(c, m.mc.cq, m.mc.banks, b, j, m.now)
  {
    hide AllSettled, BankAllows, RoomFor, HeldBack, QueueFacts, InTheWay;
    LoneGoes(c, m, m.mc.cq.refreshRank, Slot(c, b), j);
  }

  /** The bank in the way of a refresh, in a settled channel. */
  lemma InTheWayMoves(c: Config, m: System, b: nat)
    requires c.Valid() && Awaiting(c, m) && Shaped(c, m.mc.cq) && TableShaped(c, m.mc.banks) && m.mc.cq.refreshWaiting && b < c.banks
    requires QueueFacts(c, m, m.mc.cq.refreshRank, Slot(c, b)) && AllSettled(c, m)
    requires InTheWay(m.mc.banks[m.mc.cq.refreshRank], b, m.now)
    ensures RefreshActs(c, m.mc.cq, m.mc.banks, m.now)
  {
    hide QueueFacts, BankAllows, RoomFor, Drains, RefreshGoes, MayLeave;
    var r := m.mc.cq.refreshRank;
    var q, bank := m.mc.cq.queues[r][Slot(c, b)], m.mc.banks[r][b];
    assert Settled(bank, m.now) && Open(bank);
    FactsBlocks(c, m, r, Slot(c, b));
    if c.policy == ClosePage {
      var i: nat :| Alone(q, i) && q[i].bank == b;
      LoneIsFirstFor(c, m, r, b, i);
      LoneDrains(c, m, b, i);
    } else if j: nat :| FirstFor(q, j, b, bank.openRow) && q[j].kind != ACTIVATE {
      FirstToRow(c, q, j, b, bank.openRow, r, Slot(c, b));
      LoneDrains(c, m, b, j);
    } else {
      assert NobodyWaits(q, b, bank.openRow);
      assert Closes(c, m.mc.cq, m.mc.banks, b, m.now);
    }
  }

  lemma FactsBlocks(c: Config, m: System, r: nat, sl: nat)
    requires QueueFacts(c, m, r, sl)
    ensures Blocks(c, m.mc.cq.queues[r][sl], r, sl)
  {
  }

  lemma LoneIsFirstFor(c: Config, m: System, r: nat, b: nat, i: nat)
    requires QueueFacts(c, m, r, Slot(c, b)) && b < c.banks
    requires Alone(m.mc.cq.queues[r][Slot(c, b)], i) && m.mc.cq.queues[r][Slot(c, b)][i].bank == b
    ensures FirstFor(m.mc.cq.queues[r][Slot(c, b)], i, b, m.mc.banks[r][b].openRow)
  {
  }

  lemma RefreshMoves(c: Config, m: System)
    requires c.Valid() && Mid(c, m) && Awaiting(c, m) && AllSettled(c, m) && Shaped(c, m.mc.cq) && TableShaped(c, m.mc.banks)
    requires m.mc.cq.refreshWaiting
    ensures RefreshActs(c, m.mc.cq, m.mc.banks, m.now)
  {
    hide Mid, QueueFacts, Drains, Closes, AllAwaited;
    var row := m.mc.banks[m.mc.cq.refreshRank];
    if n: nat :| n < |row| && !Quiet(row[n], m.now) {
      var b := FirstInTheWay(row, m.now, n);
      MidQueue(c, m, m.mc.cq.refreshRank, Slot(c, b));
      InTheWayMoves(c, m, b);
    } else {
      assert AllQuiet(row, m.now);
      assert Settled(row[0], m.now);
    }
  }

  // ---- after a quiet while the channel is settled -------------------------------------------------

  /** No distance is longer. */
  function Longest(t: Timing): nat {
    t.CL + t.AL + t.BL + t.tRAS + t.tRCD + t.tRRD + t.tRC + t.tRP + t.tCCD + t.tRTP + t.tWTR + t.tWR + t.tRTRS + t.tRFC + t.tFAW + 1
  }

  lemma NoGapIsLonger(c: Config, w: Limit, p: Packet, r: nat, j: nat)
    requires c.Valid()
    ensures GapTo(c.t, w, p, r, j) <= Longest(c.t) && ClosingTime(c.t, p) <= Longest(c.t)
  {
  }

  /** Nothing was sent in the last `Longest` cycles before `now`. */
  ghost predicate QuietFor(t: Timing, sent: seq<Sent>, now: int) {
    forall i :: 0 <= i < |sent| ==> sent[i].at + Longest(t) <= now
  }

  lemma DueIsPast(c: Config, w: Limit, v: int, sent: seq<Sent>, r: nat, j: nat, now: int)
    requires c.Valid() && Due(c.t, w, v, sent, r, j) && QuietFor(c.t, sent, now) && now >= 0
    ensures v <= now
  {
    hide Binds, GapTo, Longest;
    if v > 0 {
      var i :| 0 <= i < |sent| && DueTo(c.t, w, v, sent[i], r, j);
      NoGapIsLonger(c, w, sent[i].packet, r, j);
    }
  }

  lemma NotInTransit(c: Config, b: Bank, sent: seq<Sent>, r: nat, j: nat, now: int)
    requires c.Valid() && TransitDue(c, b, sent, r, j, now) && QuietFor(c.t, sent, now)
    ensures !InTransit(b)
  {
    hide ClosingTime, Longest, StartsClosing;
    if InTransit(b) {
      var i :| 0 <= i < |sent| && ClosedBy(c.t, EndOf(c.t, b, now), sent[i], r, j);
      NoGapIsLonger(c, ToActivate, sent[i].packet, r, j);
    }
  }

  lemma QuietBank(c: Config, b: Bank, sent: seq<Sent>, r: nat, j: nat, now: int)
    requires c.Valid() && !c.lowPower && c.t.tRP >= 1 && c.t.tRFC >= 1 && now >= 0
    requires LimitsDue(c, b, sent, r, j, now) && QuietFor(c.t, sent, now) && b.phase != PowerDown
    ensures Settled(b, now)
  {
    hide Due, TransitDue, QuietFor;
    NotInTransit(c, b, sent, r, j, now);
    DueIsPast(c, ToPrecharge, b.nextPrecharge, sent, r, j, now);
    DueIsPast(c, ToActivate, b.nextActivate, sent, r, j, now);
    if Due(c.t, ToRead, b.nextRead, sent, r, j) { DueIsPast(c, ToRead, b.nextRead, sent, r, j, now); }
    else { DueIsPast(c, ToActivate, b.nextRead, sent, r, j, now); }
    if Due(c.t, ToWrite, b.nextWrite, sent, r, j) { DueIsPast(c, ToWrite, b.nextWrite, sent, r, j, now); }
    else { DueIsPast(c, ToActivate, b.nextWrite, sent, r, j, now); }
  }

  lemma {:induction false} NoActsLately(t: Timing, sent: seq<Sent>, r: nat, now: int)
    requires QuietFor(t, sent, now)
    ensures ActsWithin(sent, r, now + 1 - t.tFAW, now + 1) == 0
  {
    if |sent| > 0 {
      assert sent[|sent|-1].at + Longest(t) <= now;
      NoActsLately(t, sent[..|sent|-1], r, now);
    }
  }

  // without low power no bank sleeps

  ghost predicate NoneDown(banks: seq<seq<Bank>>) {
    forall r, j :: 0 <= r < |banks| && 0 <= j < |banks[r]| ==> banks[r][j].phase != PowerDown
  }

  lemma StepStaysUp(c: Config, banks: seq<seq<Bank>>, p: Option<Packet>, banks': seq<seq<Bank>>, now: int)
    requires !c.lowPower && NoneDown(banks) && PowerSteps(c, Commanded(c, TickBanks(c, banks), p, now), banks', now)
    ensures NoneDown(banks')
  {
    var b := TickBanks(c, banks);
    assert NoneDown(b);
    assert NoneDown(Commanded(c, b, p, now));
    hide Commanded;
  }

  lemma {:induction false} NobodySleeps(c: Config, events: seq<Event>)
    requires c.Valid() && Legal(c, events) && !c.lowPower
    ensures Run(c, events).Some? && NoneDown(Run(c, events).value.mc.banks)
  {
    hide Inv, Cycle, NoneDown, PowerSteps, Commanded, TickBanks, TableOk, Sendable, PopAndSend, Middle;
    NoErrorExit(c, events);
    if |events| == 0 {
      NoneDownAtStart(c);
    } else {
      var rest := events[..|events|-1];
      NoErrorExit(c, rest);
      NobodySleeps(c, rest);
      var s := Run(c, rest).value;
      if events[|events|-1] == Clock {
        var p := CycleOnTable(c, s);
        StepStaysUp(c, s.mc.banks, p, Cycle(c, s).value.mc.banks, s.now);
      }
    }
  }

  lemma NoneDownAtStart(c: Config)
    ensures NoneDown(Start(c).mc.banks)
  {
  }

  lemma TickStaysUp(c: Config, banks: seq<seq<Bank>>)
    requires NoneDown(banks)
    ensures NoneDown(TickBanks(c, banks))
  {
  }

  lemma QuietIsSettled(c: Config, events: seq<Event>)
    requires c.Valid() && Legal(c, events) && !c.lowPower && c.t.tRP >= 1 && c.t.tRFC >= 1
    requires QuietFor(c.t, After(c, events).log.sent, After(c, events).now)
    ensures AllSettled(c, Middle(c, After(c, events)))
  {
    hide Run, Inv, Legal, Middle, Mid, LimitsDue, QuietFor, TickBank, NoneDown, DownTogether, CountdownOk, WindowHasRoom, ActsWithin;
    var s := After(c, events);
    RunKeepsAllDue(c, events);
    TimeIsClocks(c, events);
    NobodySleeps(c, events);
    InvGivesTable(c, s);
    TickKeepsAllDue(c, s.mc.banks, s.log.sent, s.now - 1);
    TickStaysUp(c, s.mc.banks);
    var m := Middle(c, s);
    forall r: nat, j: nat | r < |m.mc.banks| && j < |m.mc.banks[r]| ensures Settled(m.mc.banks[r][j], m.now) {
      assert LimitsDue(c, m.mc.banks[r][j], s.log.sent, r, j, s.now);
      UpHere(m.mc.banks, r, j);
      QuietBank(c, m.mc.banks[r][j], s.log.sent, r, j, s.now);
    }
    MidFaw(c, m);
    forall r: nat | r < |m.mc.cq.faw| ensures WindowHasRoom(m.mc.cq.faw[r]) {
      NoActsLately(c.t, s.log.sent, r, s.now);
      MiddleWindow(c, s, r);
    }
  }

  lemma UpHere(banks: seq<seq<Bank>>, r: nat, j: nat)
    requires NoneDown(banks) && r < |banks| && j < |banks[r]|
    ensures banks[r][j].phase != PowerDown
  {
  }

  lemma MidFaw(c: Config, m: System)
    requires Mid(c, m)
    ensures |m.mc.cq.faw| == c.ranks
  {
  }

  // ---- every run ----------------------------------------------------------------------------------

  /** Some command waits in a queue, or a refresh waits to be sent. */
  ghost predicate HasWork(c: Config, m: System) {
    || m.mc.cq.refreshWaiting
    || exists r: nat, sl: nat :: r < |m.mc.cq.queues| && sl < |m.mc.cq.queues[r]| && |m.mc.cq.queues[r][sl]| > 0
  }

  lemma WorkGoes(c: Config, m: System)
    requires c.Valid() && Mid(c, m) && Awaiting(c, m) && AllSettled(c, m) && HasWork(c, m)
    requires Shaped(c, m.mc.cq) && TableShaped(c, m.mc.banks) && PacketsInRange(c, m.mc.cq)
    ensures Pop(c, m.mc.cq, m.mc.banks, m.now).0.Some?
  {
    hide Mid, AllAwaited, AllSettled, RefreshActs, SomeMayLeave, SomeMayClose, Pop, TableShaped, PacketsInRange;
    NothingGoes(c, m.mc.cq, m.mc.banks, m.now);
    if m.mc.cq.refreshWaiting {
      RefreshMoves(c, m);
    } else {
      var r: nat, sl: nat :| r < |m.mc.cq.queues| && sl < |m.mc.cq.queues[r]| && |m.mc.cq.queues[r][sl]| > 0;
      QueueMoves(c, m, r, sl);
    }
  }

  /** Without low power no run stalls: when a command waits or a refresh is due, and nothing was
      sent for as long as the longest distance, the next cycle sends a command. */
  lemma NeverStalls(c: Config, events: seq<Event>)
    requires c.Valid() && Legal(c, events) && Legal(c, events + [Clock]) && !c.lowPower && c.t.tRP >= 1 && c.t.tRFC >= 1
    requires QuietFor(c.t, After(c, events).log.sent, After(c, events).now)
    requires HasWork(c, Middle(c, After(c, events)))
    ensures var s, s' := After(c, events), After(c, events + [Clock]);
            |s'.log.sent| == |s.log.sent| + 1 && s'.log.sent[|s.log.sent|].at == s.now
  {
    hide Inv, Cycle, Middle, Pop, AllSettled, AllAwaited, QuietFor, HasWork, Legal, Mid;
    var s := After(c, events);
    var m := Middle(c, s);
    QuietIsSettled(c, events);
    RunKeepsAwaiting(c, events);
    MiddleAwaits(c, s);
    CycleSendsPop(c, s);
    WorkGoes(c, m);
    assert (events + [Clock])[..|events + [Clock]|-1] == events;
  }
}
