/** A run in which a bank is activated twice within its row cycle time: a channel with one bank,
    close page and low power, the timing of a DDR2 device file, and two reads. */
module DramShortCycle {
  import opened Wrappers
  import opened DramTypes
  import opened DramBanks
  import opened DramQueue
  import opened DramSystem
  import opened DramTheorems
  import opened DramPromises

  /** DDR2_micron_16M_8b_x8_sg3E with one rank of one bank. */
  const SMALL := Config(Timing(4, 0, 4, 14, 4, 3, 18, 4, 2, 3, 3, 5, 1, 43, 13, 3, 2, 1), 1, 1, 2, 1, 1,
                        ClosePage, PerRank, RankThenBank, true, 1000, (a: nat) => Location(0, 0, 0, 0))

  /** A state of this channel, without its lists of one rank and one bank; no write, no refresh. */
  datatype One = One(now: int, bank: Bank, rankBank: Bank,
                     queue: seq<Packet>, faw: seq<int>, sendAct: bool, cmd: Option<Packet>, cmdLeft: int,
                     transactions: seq<Transaction>, pending: seq<Transaction>, toReturn: seq<Packet>, refresh: nat, down: bool,
                     outgoing: Option<Packet>, dataLeft: int, packets: seq<Packet>, countdown: seq<int>, log: Log)
  {
    function Queue(): QueueState { QueueState([[queue]], 0, 0, 0, 0, 0, false, [faw], [[0]], sendAct) }
    function Rank(): RankState { RankState([rankBank], down, false, outgoing, dataLeft, packets, countdown) }
    function State(): System {
      System(now, Controller([[bank]], Queue(), cmd, cmdLeft, None, 0, [], [], transactions, pending, toReturn, [refresh], 0, [down]),
             [Rank()], log)
    }
  }

  // ---- the phases of a cycle, on one bank ----------------------------------------------------

  function Ticked(o: One): One {
    var (d, k) := RankTick(SMALL, o.Rank());
    o.(outgoing := k.outgoing, dataLeft := k.dataLeft, packets := k.returnPackets, countdown := k.returnCountdown,
       toReturn := o.toReturn + (if d.Some? then [d.value] else []), bank := TickBank(SMALL, o.bank))
  }

  lemma TickIs(o: One)
    requires o.outgoing.Some? ==> o.outgoing.value.kind == DATA
    ensures TickRanks(SMALL, o.State()).Some?
    ensures TickTable(SMALL, TickRanks(SMALL, o.State()).value) == Ticked(o).State()
  {
    var s := o.State();
    var (d, k) := RankTick(SMALL, o.Rank());
    assert Deliveries(SMALL, s.ranks, 1) == Deliveries(SMALL, s.ranks, 0) + (if d.Some? then [d.value] else []);
    assert k == Ticked(o).Rank();
    assert TickRanks(SMALL, s).value.ranks == [k];
    assert TickBanks(SMALL, [[o.bank]]) == [[TickBank(SMALL, o.bank)]] by {
      assert TickRow(SMALL, [o.bank]) == [TickBank(SMALL, o.bank)];
    }
  }

  predicate Takes(o: One) { o.cmd.Some? ==> o.cmdLeft == 1 && o.cmd.value.rank == 0 && o.cmd.value.bank == 0 && o.cmd.value.kind != REFRESH && Accepts([o.rankBank], o.cmd.value, o.now) }

  function Delivered(o: One): One {
    if o.cmd.None? then o
    else
      var p := o.cmd.value;
      var o1 := o.(cmd := None, cmdLeft := 0, rankBank := TakeBank(SMALL, o.rankBank, p, o.now, 0));
      if p.kind.IsRead() then o1.(packets := o.packets + [Arrive(p)], countdown := o.countdown + [SMALL.t.RL()]) else o1
  }

  lemma DeliverIs(o: One)
    requires Takes(o)
    ensures DeliverCommand(SMALL, o.State()) == Some(Delivered(o).State())
  {
    hide TakeBank, Accepts;
    if o.cmd.Some? {
      assert TakeBanks(SMALL, [o.rankBank], o.cmd.value, o.now) == [TakeBank(SMALL, o.rankBank, o.cmd.value, o.now, 0)];
      assert [o.Rank()][0 := Delivered(o).Rank()] == [Delivered(o).Rank()];
    }
  }

  lemma NothingElse(o: One)
    requires o.refresh > SMALL.t.tXP
    ensures LaunchWrite(SMALL, FinishWrite(SMALL, o.State())) == Some(o.State())
    ensures RefreshTimer(SMALL, o.State()) == o.State()
  {
  }

  lemma SameRefresh(o: One)
    ensures Delivered(Ticked(o)).refresh == o.refresh && Delivered(Ticked(o)).now == o.now
  {
    hide RankTick, TickBank, TakeBank;
  }

  lemma PassIs(o: One)
    requires (o.outgoing.Some? ==> o.outgoing.value.kind == DATA) && Takes(Ticked(o))
    requires o.refresh > SMALL.t.tXP
    ensures Pass(SMALL, o.State()).Some?
    ensures RefreshTimer(SMALL, Pass(SMALL, o.State()).value) == Delivered(Ticked(o)).State()
  {
    hide Ticked, Delivered, TickRanks, TickTable, DeliverCommand, FinishWrite, LaunchWrite, RefreshTimer;
    TickIs(o);
    DeliverIs(Ticked(o));
    SameRefresh(o);
    NothingElse(Delivered(Ticked(o)));
  }

  // the next command

  /** The first packet of the queue goes if it may; a column command behind its ACTIVATE waits. */
  function Popped(o: One): One {
    var o1 := o.(faw := TickCounters(o.faw));
    if |o.queue| > 0 && Issuable(SMALL, o1.Queue(), [[o.bank]], o.queue[0], o.now) then
      var p := o.queue[0];
      o1.(queue := o.queue[1..], sendAct := true, bank := SendBank(SMALL, o.bank, p, o.now, 0, 0), cmd := Some(p), cmdLeft := 1,
          faw := if p.kind == ACTIVATE then o1.faw + [13] else o1.faw,
          log := o.log.(sent := o.log.sent + [Sent(p, o.now)]))
    else o1
  }

  /** At most a block: an ACTIVATE and its column command, or the latter alone; no write. */
  predicate ShortQueue(q: seq<Packet>) {
    && |q| <= 2 && (|q| == 2 ==> q[0].kind == ACTIVATE && q[1].addr == q[0].addr)
    && (forall i :: 0 <= i < |q| ==> q[i].rank == 0 && q[i].bank == 0 && !q[i].kind.IsWrite())
  }

  lemma PickIs(o: One, s: QueueState)
    requires ShortQueue(o.queue) && |s.faw| == 1
    ensures Pick(SMALL, s, [[o.bank]], o.queue, o.now) ==
              if |o.queue| > 0 && Issuable(SMALL, s, [[o.bank]], o.queue[0], o.now) then 0 else |o.queue|
  {
    hide Issuable;
    var i := Pick(SMALL, s, [[o.bank]], o.queue, o.now);
    if |o.queue| > 0 { assert Eligible(SMALL, s, [[o.bank]], o.queue, 0, o.now) <==> Issuable(SMALL, s, [[o.bank]], o.queue[0], o.now); }
    if |o.queue| == 2 { assert !Eligible(SMALL, s, [[o.bank]], o.queue, 1, o.now); }
    hide Pick;
  }

  lemma DecideIs(o: One)
    requires ShortQueue(o.queue)
    ensures Shaped(SMALL, o.Queue()) && TableShaped(SMALL, [[o.bank]])
    ensures Decide(SMALL, o.Queue(), [[o.bank]], o.now) ==
              (if |o.queue| > 0 && Issuable(SMALL, o.Queue(), [[o.bank]], o.queue[0], o.now) then Take(Spot(0, 0), 0, false) else Wait, o.Queue())
  {
    hide Pick, Issuable, Eligible;
    var q := o.Queue();
    PickIs(o, q);
    assert Walk(SMALL, true, Spot(0, 0), 0) == Spot(0, 0);
    assert QueueAt(SMALL, q, Spot(0, 0)) == o.queue;
    assert Lap(SMALL, true) == 1;
    FirstIs(o, q);
  }

  lemma FirstIs(o: One, q: QueueState)
    requires Lap(SMALL, true) == 1
    ensures FirstReady(SMALL, q, [[o.bank]], true, Spot(0, 0), o.now) == if Ready(SMALL, q, [[o.bank]], Spot(0, 0), o.now) then 0 else 1
  {
    hide Ready;
    var p := (k: nat) => Ready(SMALL, q, [[o.bank]], Walk(SMALL, true, Spot(0, 0), k), o.now);
    assert p(0) == Ready(SMALL, q, [[o.bank]], Spot(0, 0), o.now);
    var i := Least(1, p);
  }

  lemma PopIs(o: One)
    requires ShortQueue(o.queue) && o.cmd.None?
    ensures ControllerShaped(SMALL, o.State().mc)
    ensures PopAndSend(SMALL, o.State()) == Some(Popped(o).State())
  {
    hide Decide, Issuable;
    var o1 := o.(faw := TickCounters(o.faw));
    assert TickFaw([o.faw]) == [TickCounters(o.faw)];
    DecideIs(o1);
    assert o1.Queue() == o.Queue().(faw := TickFaw([o.faw]));
    if |o.queue| > 0 && Issuable(SMALL, o1.Queue(), [[o.bank]], o.queue[0], o.now) {
      var p := o.queue[0];
      assert SendBanks(SMALL, [[o.bank]], p, o.now) == [[SendBank(SMALL, o.bank, p, o.now, 0, 0)]] by {
        assert SendRow(SMALL, [o.bank], p, o.now, 0) == [SendBank(SMALL, o.bank, p, o.now, 0, 0)];
      }
      QueueAfter(o1);
    }
  }

  lemma QueueAfter(o: One)
    requires |o.queue| > 0 && o.queue[0].rank == 0 && o.queue[0].bank == 0
    ensures var d, q, p := Take(Spot(0, 0), 0, false), o.Queue(), o.queue[0];
            && Shaped(SMALL, q) && DecisionShaped(SMALL, q, d) && Chosen(SMALL, q, d) == p && Shaped(SMALL, Commit(SMALL, q, d))
            && Settle(SMALL, Commit(SMALL, q, d), p) ==
                 o.(queue := o.queue[1..], sendAct := true, faw := if p.kind == ACTIVATE then o.faw + [13] else o.faw).Queue()
  {
    var q := o.Queue();
    assert Remove(o.queue, 0, 1) == o.queue[1..];
    assert [o.queue][0 := o.queue[1..]] == [o.queue[1..]];
    assert [[o.queue]][0 := [o.queue[1..]]] == [[o.queue[1..]]];
    assert [o.faw][0 := o.faw + [13]] == [o.faw + [13]];
  }

  // the second half of a cycle

  function SplitUp(o: One): One {
    if |o.transactions| == 0 || |o.queue| > 0 then o
    else
      var t := o.transactions[0];
      o.(transactions := o.transactions[1..], pending := o.pending + [t],
         queue := [ToPacket(SMALL, ACTIVATE, t), ToPacket(SMALL, READ_P, t)])
  }

  lemma SplitIs(o: One)
    requires |o.transactions| <= 1 && |o.queue| <= 2 && (forall t :: t in o.transactions ==> t.isRead)
    ensures Shaped(SMALL, o.Queue()) && SplitTransaction(SMALL, o.State()) == Some(SplitUp(o).State())
  {
    if |o.transactions| == 1 {
      var t := o.transactions[0];
      assert o.transactions[..0] == [];
      assert QueueAt(SMALL, o.Queue(), SpotOf(SMALL, t.addr)) == o.queue;
      assert FirstWithRoom(SMALL, o.Queue(), o.transactions) == if HasRoom(SMALL, o.Queue(), t.addr) then 0 else 1;
      assert Remove(o.transactions, 0, 1) == o.transactions[1..];
      assert t in o.transactions;
      var q2 := [ToPacket(SMALL, ACTIVATE, t), ToPacket(SMALL, READ_P, t)];
      assert o.queue == [] ==> o.queue + q2 == q2;
      assert [o.queue][0 := q2] == [q2];
      assert [[o.queue]][0 := [q2]] == [[q2]];
    }
  }

  function Powered(o: One): One {
    if o.queue == [] then
      if o.bank.phase == Idle && o.rankBank.phase == Idle then
        o.(bank := PowerDownBank(SMALL, o.bank, o.now), rankBank := PowerDownBank(SMALL, o.rankBank, o.now), down := true)
      else o
    else if o.now >= o.bank.nextPowerUp && o.down && o.rankBank.nextPowerUp <= o.now then
      o.(bank := PowerUpBank(SMALL, o.bank, o.now), rankBank := PowerUpBank(SMALL, o.rankBank, o.now), down := false)
    else o
  }

  lemma NoPower(c: Config, s: System)
    requires PowerShaped(c, s)
    ensures PowerRanks(c, s, 0) == Some(s)
  {
  }

  lemma OnePower(c: Config, s: System)
    requires PowerShaped(c, s) && c.ranks >= 1
    ensures PowerRanks(c, s, 1) == PowerRank(c, s, 0)
  {
    hide PowerRank;
    NoPower(c, s);
  }

  lemma OneIdle(b: Bank)
    ensures AllIdle([b]) <==> b.phase == Idle
  {
    assert [b][0] == b;
  }

  lemma PowerIs(o: One)
    requires o.bank.phase == Idle ==> o.rankBank.phase == Idle
    requires o.bank.nextPowerUp == o.rankBank.nextPowerUp
    ensures PowerShaped(SMALL, o.State()) && PowerRanks(SMALL, o.State(), 1) == Some(Powered(o).State())
  {
    var s := o.State();
    OnePower(SMALL, s);
    OneIdle(o.bank);
    OneIdle(o.rankBank);
    assert PowerDownRow(SMALL, [o.bank], o.now) == [PowerDownBank(SMALL, o.bank, o.now)];
    assert PowerDownRow(SMALL, [o.rankBank], o.now) == [PowerDownBank(SMALL, o.rankBank, o.now)];
    assert PowerUpRow(SMALL, [o.bank], o.now) == [PowerUpBank(SMALL, o.bank, o.now)];
    assert PowerUpRow(SMALL, [o.rankBank], o.now) == [PowerUpBank(SMALL, o.rankBank, o.now)];
    assert o.Queue().queues[0] == [o.queue] && o.Queue().queues[0][0] == o.queue;
    assert QueueEmpty(o.Queue(), 0) <==> o.queue == [];
    var r := Powered(o).Rank();
    assert [o.Rank()][0 := r] == [r];
    var row := [Powered(o).bank];
    assert [[o.bank]][0 := row] == [row];
    assert [o.down][0 := Powered(o).down] == [Powered(o).down];
  }

  function Returned(o: One): One {
    if o.toReturn == [] || o.pending == [] then o
    else o.(toReturn := o.toReturn[1..], pending := o.pending[1..], log := o.log.(returned := o.log.returned + [o.pending[0]]))
  }

  lemma ReturnIs(o: One)
    requires o.toReturn != [] ==> |o.pending| == 1 && o.pending[0].addr == o.toReturn[0].addr
    ensures ReturnRead(SMALL, o.State()) == Some(Returned(o).State())
  {
    if o.toReturn != [] {
      assert o.pending[..0] == [];
      assert Remove(o.pending, 0, 1) == o.pending[1..];
    }
  }

  // ---- a whole cycle ---------------------------------------------------------------------------

  function Acted(o: One): One { Returned(Powered(SplitUp(Popped(o)))) }

  /** The first half of the cycle, and what it relies on. */
  predicate Early(o: One, d: One) {
    && (o.outgoing.Some? ==> o.outgoing.value.kind == DATA) && Takes(Ticked(o)) && 2 < o.refresh < 2000
    && Delivered(Ticked(o)) == d
  }

  /** The second half. */
  predicate Sound(d: One) {
    var p := Popped(d);
    var u := SplitUp(p);
    var w := Powered(u);
    && ShortQueue(d.queue) && d.cmd.None?
    && |p.transactions| <= 1 && |p.queue| <= 2 && (forall t :: t in p.transactions ==> t.isRead)
    && (u.bank.phase == Idle ==> u.rankBank.phase == Idle) && u.bank.nextPowerUp == u.rankBank.nextPowerUp
    && (w.toReturn != [] ==> |w.pending| == 1 && w.pending[0].addr == w.toReturn[0].addr)
  }

  predicate Ends(d: One, e: One) {
    2 < d.refresh < 2000 && e == Acted(d).(now := d.now + 1, refresh := d.refresh - 1)
  }

  lemma ActIs(o: One)
    requires Sound(o)
    ensures Act(SMALL, o.State()) == Some(Acted(o).State())
  {
    hide Popped, SplitUp, Powered, Returned, PopAndSend, SplitTransaction, PowerRanks, ReturnRead, ShortQueue;
    PopIs(o);
    SplitIs(Popped(o));
    ShapedIs(Popped(o));
    PowerIs(SplitUp(Popped(o)));
    ReturnIs(Powered(SplitUp(Popped(o))));
  }

  lemma ShapedIs(o: One)
    ensures ControllerShaped(SMALL, o.State().mc)
  {
  }

  lemma EndIs(o: One)
    requires 0 < o.refresh < 2000
    ensures EndCycle(SMALL, o.State()) == o.(now := o.now + 1, refresh := o.refresh - 1).State()
  {
    assert (o.refresh + 0xFFFF_FFFF) % 0x1_0000_0000 == o.refresh - 1;
    assert Wrap1([o.refresh]) == [o.refresh - 1];
  }

  lemma SmallIsValid()
    ensures SMALL.Valid()
  {
  }

  lemma PartsKeepTime(o: One)
    ensures Popped(o).refresh == o.refresh && Popped(o).now == o.now
    ensures SplitUp(o).refresh == o.refresh && SplitUp(o).now == o.now
    ensures Powered(o).refresh == o.refresh && Powered(o).now == o.now
    ensures Returned(o).refresh == o.refresh && Returned(o).now == o.now
  {
    hide SendBank, Issuable, TickCounters;
  }

  lemma SameTime(o: One)
    ensures Acted(o).refresh == o.refresh && Acted(o).now == o.now
  {
    hide Popped, SplitUp, Powered, Returned;
    PartsKeepTime(o);
    PartsKeepTime(Popped(o));
    PartsKeepTime(SplitUp(Popped(o)));
    PartsKeepTime(Powered(SplitUp(Popped(o))));
  }

  lemma CycleIs(o: One, d: One, e: One)
    requires Early(o, d) && Sound(d) && Ends(d, e)
    ensures SMALL.Valid() && Cycle(SMALL, o.State()) == Some(e.State())
  {
    hide Ticked, Delivered, Popped, SplitUp, Powered, Returned, Acted, Pass, Act, EndCycle, RefreshTimer, Sound, Takes;
    SmallIsValid();
    PassIs(o);
    ActIs(d);
    SameRefresh(o);
    SameTime(d);
    EndIs(Acted(d));
  }

  // ---- the run -----------------------------------------------------------------------------------

  function P(k: Kind, tag: nat): Packet { Packet(k, 0, 0, 0, 0, 0, tag) }
  function T(tag: nat): Transaction { Transaction(true, 0, tag) }

  const S0 := One(0, Bank(Idle, 0, 0, 0, 0, 0, 0, READ, 0), Bank(Idle, 0, 0, 0, 0, 0, 0, READ, 0),
      [], [], true, None, 0, [], [], [], 1000, false,
      None, 0, [], [], Log([], [], [], []))
  const S1 := One(0, Bank(Idle, 0, 0, 0, 0, 0, 0, READ, 0), Bank(Idle, 0, 0, 0, 0, 0, 0, READ, 0),
      [], [], true, None, 0, [T(0)], [], [], 1000, false,
      None, 0, [], [], Log([T(0)], [], [], []))
  const S2 := One(1, Bank(Idle, 0, 0, 0, 0, 0, 0, READ, 0), Bank(Idle, 0, 0, 0, 0, 0, 0, READ, 0),
      [P(ACTIVATE, 0), P(READ_P, 0)], [], true, None, 0, [], [T(0)], [], 999, false,
      None, 0, [], [], Log([T(0)], [], [], []))
  const S3 := One(2, Bank(RowActive, 0, 5, 5, 19, 15, 0, ACTIVATE, 0), Bank(Idle, 0, 0, 0, 0, 0, 0, READ, 0),
      [P(READ_P, 0)], [13], true, Some(P(ACTIVATE, 0)), 1, [], [T(0)], [], 998, false,
      None, 0, [], [], Log([T(0)], [Sent(P(ACTIVATE, 0), 1)], [], []))
  const S4 := One(3, Bank(RowActive, 0, 5, 5, 19, 15, 0, ACTIVATE, 0), Bank(RowActive, 0, 6, 6, 20, 16, 0, READ, 0),
      [P(READ_P, 0)], [12], true, None, 0, [], [T(0)], [], 997, false,
      None, 0, [], [], Log([T(0)], [Sent(P(ACTIVATE, 0), 1)], [], []))
  const S5 := One(4, Bank(RowActive, 0, 5, 5, 19, 15, 0, ACTIVATE, 0), Bank(RowActive, 0, 6, 6, 20, 16, 0, READ, 0),
      [P(READ_P, 0)], [11], true, None, 0, [], [T(0)], [], 996, false,
      None, 0, [], [], Log([T(0)], [Sent(P(ACTIVATE, 0), 1)], [], []))
  const S6 := One(5, Bank(RowActive, 0, 5, 5, 19, 15, 0, ACTIVATE, 0), Bank(RowActive, 0, 6, 6, 20, 16, 0, READ, 0),
      [P(READ_P, 0)], [10], true, None, 0, [], [T(0)], [], 995, false,
      None, 0, [], [], Log([T(0)], [Sent(P(ACTIVATE, 0), 1)], [], []))
  const S7 := One(6, Bank(RowActive, 0, 19, 19, 19, 15, 0, READ_P, 3), Bank(RowActive, 0, 6, 6, 20, 16, 0, READ, 0),
      [], [9], true, Some(P(READ_P, 0)), 1, [], [T(0)], [], 994, false,
      None, 0, [], [], Log([T(0)], [Sent(P(ACTIVATE, 0), 1), Sent(P(READ_P, 0), 5)], [], []))
  const S8 := One(7, Bank(RowActive, 0, 19, 19, 19, 15, 0, READ_P, 2), Bank(Idle, 0, 8, 10, 20, 16, 0, READ, 0),
      [], [8], true, None, 0, [], [T(0)], [], 993, false,
      None, 0, [P(DATA, 0)], [4], Log([T(0)], [Sent(P(ACTIVATE, 0), 1), Sent(P(READ_P, 0), 5)], [], []))
  const S9 := One(8, Bank(RowActive, 0, 19, 19, 19, 15, 0, READ_P, 1), Bank(Idle, 0, 8, 10, 20, 16, 0, READ, 0),
      [], [7], true, None, 0, [], [T(0)], [], 992, false,
      None, 0, [P(DATA, 0)], [3], Log([T(0)], [Sent(P(ACTIVATE, 0), 1), Sent(P(READ_P, 0), 5)], [], []))
  const S10 := One(9, Bank(Precharging, 0, 19, 19, 19, 15, 0, PRECHARGE, 4), Bank(Idle, 0, 8, 10, 20, 16, 0, READ, 0),
      [], [6], true, None, 0, [], [T(0)], [], 991, false,
      None, 0, [P(DATA, 0)], [2], Log([T(0)], [Sent(P(ACTIVATE, 0), 1), Sent(P(READ_P, 0), 5)], [], []))
  const S11 := One(10, Bank(Precharging, 0, 19, 19, 19, 15, 0, PRECHARGE, 3), Bank(Idle, 0, 8, 10, 20, 16, 0, READ, 0),
      [], [5], true, None, 0, [], [T(0)], [], 990, false,
      None, 0, [P(DATA, 0)], [1], Log([T(0)], [Sent(P(ACTIVATE, 0), 1), Sent(P(READ_P, 0), 5)], [], []))
  const S12 := One(11, Bank(Precharging, 0, 19, 19, 19, 15, 0, PRECHARGE, 2), Bank(Idle, 0, 8, 10, 20, 16, 0, READ, 0),
      [], [4], true, None, 0, [], [T(0)], [], 989, false,
      Some(P(DATA, 0)), 2, [], [], Log([T(0)], [Sent(P(ACTIVATE, 0), 1), Sent(P(READ_P, 0), 5)], [], []))
  const S13 := One(12, Bank(Precharging, 0, 19, 19, 19, 15, 0, PRECHARGE, 1), Bank(Idle, 0, 8, 10, 20, 16, 0, READ, 0),
      [], [3], true, None, 0, [], [T(0)], [], 988, false,
      Some(P(DATA, 0)), 1, [], [], Log([T(0)], [Sent(P(ACTIVATE, 0), 1), Sent(P(READ_P, 0), 5)], [], []))
  const S14 := One(13, Bank(PowerDown, 0, 19, 19, 19, 15, 15, PRECHARGE, 0), Bank(PowerDown, 0, 8, 10, 20, 16, 15, READ, 0),
      [], [2], true, None, 0, [], [], [], 987, true,
      None, 0, [], [], Log([T(0)], [Sent(P(ACTIVATE, 0), 1), Sent(P(READ_P, 0), 5)], [T(0)], []))
  const S15 := One(14, Bank(PowerDown, 0, 19, 19, 19, 15, 15, PRECHARGE, 0), Bank(PowerDown, 0, 8, 10, 20, 16, 15, READ, 0),
      [], [1], true, None, 0, [], [], [], 986, true,
      None, 0, [], [], Log([T(0)], [Sent(P(ACTIVATE, 0), 1), Sent(P(READ_P, 0), 5)], [T(0)], []))
  const S16 := One(14, Bank(PowerDown, 0, 19, 19, 19, 15, 15, PRECHARGE, 0), Bank(PowerDown, 0, 8, 10, 20, 16, 15, READ, 0),
      [], [1], true, None, 0, [T(1)], [], [], 986, true,
      None, 0, [], [], Log([T(0), T(1)], [Sent(P(ACTIVATE, 0), 1), Sent(P(READ_P, 0), 5)], [T(0)], []))
  const S17 := One(15, Bank(PowerDown, 0, 19, 19, 19, 15, 15, PRECHARGE, 0), Bank(PowerDown, 0, 8, 10, 20, 16, 15, READ, 0),
      [P(ACTIVATE, 1), P(READ_P, 1)], [], true, None, 0, [], [T(1)], [], 985, true,
      None, 0, [], [], Log([T(0), T(1)], [Sent(P(ACTIVATE, 0), 1), Sent(P(READ_P, 0), 5)], [T(0)], []))
  const S18 := One(16, Bank(Idle, 0, 19, 19, 17, 15, 15, PRECHARGE, 0), Bank(Idle, 0, 8, 10, 17, 16, 15, READ, 0),
      [P(ACTIVATE, 1), P(READ_P, 1)], [], true, None, 0, [], [T(1)], [], 984, false,
      None, 0, [], [], Log([T(0), T(1)], [Sent(P(ACTIVATE, 0), 1), Sent(P(READ_P, 0), 5)], [T(0)], []))
  const S19 := One(17, Bank(Idle, 0, 19, 19, 17, 15, 15, PRECHARGE, 0), Bank(Idle, 0, 8, 10, 17, 16, 15, READ, 0),
      [P(ACTIVATE, 1), P(READ_P, 1)], [], true, None, 0, [], [T(1)], [], 983, false,
      None, 0, [], [], Log([T(0), T(1)], [Sent(P(ACTIVATE, 0), 1), Sent(P(READ_P, 0), 5)], [T(0)], []))
  const S20 := One(18, Bank(RowActive, 0, 21, 21, 35, 31, 15, ACTIVATE, 0), Bank(Idle, 0, 8, 10, 17, 16, 15, READ, 0),
      [P(READ_P, 1)], [13], true, Some(P(ACTIVATE, 1)), 1, [], [T(1)], [], 982, false,
      None, 0, [], [], Log([T(0), T(1)], [Sent(P(ACTIVATE, 0), 1), Sent(P(READ_P, 0), 5), Sent(P(ACTIVATE, 1), 17)], [T(0)], []))
  const M1 := One(0, Bank(Idle, 0, 0, 0, 0, 0, 0, READ, 0), Bank(Idle, 0, 0, 0, 0, 0, 0, READ, 0),
      [], [], true, None, 0, [T(0)], [], [], 1000, false,
      None, 0, [], [], Log([T(0)], [], [], []))
  const M2 := One(1, Bank(Idle, 0, 0, 0, 0, 0, 0, READ, 0), Bank(Idle, 0, 0, 0, 0, 0, 0, READ, 0),
      [P(ACTIVATE, 0), P(READ_P, 0)], [], true, None, 0, [], [T(0)], [], 999, false,
      None, 0, [], [], Log([T(0)], [], [], []))
  const M3 := One(2, Bank(RowActive, 0, 5, 5, 19, 15, 0, ACTIVATE, 0), Bank(RowActive, 0, 6, 6, 20, 16, 0, READ, 0),
      [P(READ_P, 0)], [13], true, None, 0, [], [T(0)], [], 998, false,
      None, 0, [], [], Log([T(0)], [Sent(P(ACTIVATE, 0), 1)], [], []))
  const M4 := One(3, Bank(RowActive, 0, 5, 5, 19, 15, 0, ACTIVATE, 0), Bank(RowActive, 0, 6, 6, 20, 16, 0, READ, 0),
      [P(READ_P, 0)], [12], true, None, 0, [], [T(0)], [], 997, false,
      None, 0, [], [], Log([T(0)], [Sent(P(ACTIVATE, 0), 1)], [], []))
  const M5 := One(4, Bank(RowActive, 0, 5, 5, 19, 15, 0, ACTIVATE, 0), Bank(RowActive, 0, 6, 6, 20, 16, 0, READ, 0),
      [P(READ_P, 0)], [11], true, None, 0, [], [T(0)], [], 996, false,
      None, 0, [], [], Log([T(0)], [Sent(P(ACTIVATE, 0), 1)], [], []))
  const M6 := One(5, Bank(RowActive, 0, 5, 5, 19, 15, 0, ACTIVATE, 0), Bank(RowActive, 0, 6, 6, 20, 16, 0, READ, 0),
      [P(READ_P, 0)], [10], true, None, 0, [], [T(0)], [], 995, false,
      None, 0, [], [], Log([T(0)], [Sent(P(ACTIVATE, 0), 1)], [], []))
  const M7 := One(6, Bank(RowActive, 0, 19, 19, 19, 15, 0, READ_P, 2), Bank(Idle, 0, 8, 10, 20, 16, 0, READ, 0),
      [], [9], true, None, 0, [], [T(0)], [], 994, false,
      None, 0, [P(DATA, 0)], [4], Log([T(0)], [Sent(P(ACTIVATE, 0), 1), Sent(P(READ_P, 0), 5)], [], []))
  const M8 := One(7, Bank(RowActive, 0, 19, 19, 19, 15, 0, READ_P, 1), Bank(Idle, 0, 8, 10, 20, 16, 0, READ, 0),
      [], [8], true, None, 0, [], [T(0)], [], 993, false,
      None, 0, [P(DATA, 0)], [3], Log([T(0)], [Sent(P(ACTIVATE, 0), 1), Sent(P(READ_P, 0), 5)], [], []))
  const M9 := One(8, Bank(Precharging, 0, 19, 19, 19, 15, 0, PRECHARGE, 4), Bank(Idle, 0, 8, 10, 20, 16, 0, READ, 0),
      [], [7], true, None, 0, [], [T(0)], [], 992, false,
      None, 0, [P(DATA, 0)], [2], Log([T(0)], [Sent(P(ACTIVATE, 0), 1), Sent(P(READ_P, 0), 5)], [], []))
  const M10 := One(9, Bank(Precharging, 0, 19, 19, 19, 15, 0, PRECHARGE, 3), Bank(Idle, 0, 8, 10, 20, 16, 0, READ, 0),
      [], [6], true, None, 0, [], [T(0)], [], 991, false,
      None, 0, [P(DATA, 0)], [1], Log([T(0)], [Sent(P(ACTIVATE, 0), 1), Sent(P(READ_P, 0), 5)], [], []))
  const M11 := One(10, Bank(Precharging, 0, 19, 19, 19, 15, 0, PRECHARGE, 2), Bank(Idle, 0, 8, 10, 20, 16, 0, READ, 0),
      [], [5], true, None, 0, [], [T(0)], [], 990, false,
      Some(P(DATA, 0)), 2, [], [], Log([T(0)], [Sent(P(ACTIVATE, 0), 1), Sent(P(READ_P, 0), 5)], [], []))
  const M12 := One(11, Bank(Precharging, 0, 19, 19, 19, 15, 0, PRECHARGE, 1), Bank(Idle, 0, 8, 10, 20, 16, 0, READ, 0),
      [], [4], true, None, 0, [], [T(0)], [], 989, false,
      Some(P(DATA, 0)), 1, [], [], Log([T(0)], [Sent(P(ACTIVATE, 0), 1), Sent(P(READ_P, 0), 5)], [], []))
  const M13 := One(12, Bank(Idle, 0, 19, 19, 19, 15, 0, PRECHARGE, 0), Bank(Idle, 0, 8, 10, 20, 16, 0, READ, 0),
      [], [3], true, None, 0, [], [T(0)], [P(DATA, 0)], 988, false,
      None, 0, [], [], Log([T(0)], [Sent(P(ACTIVATE, 0), 1), Sent(P(READ_P, 0), 5)], [], []))
  const M14 := One(13, Bank(PowerDown, 0, 19, 19, 19, 15, 15, PRECHARGE, 0), Bank(PowerDown, 0, 8, 10, 20, 16, 15, READ, 0),
      [], [2], true, None, 0, [], [], [], 987, true,
      None, 0, [], [], Log([T(0)], [Sent(P(ACTIVATE, 0), 1), Sent(P(READ_P, 0), 5)], [T(0)], []))
  const M16 := One(14, Bank(PowerDown, 0, 19, 19, 19, 15, 15, PRECHARGE, 0), Bank(PowerDown, 0, 8, 10, 20, 16, 15, READ, 0),
      [], [1], true, None, 0, [T(1)], [], [], 986, true,
      None, 0, [], [], Log([T(0), T(1)], [Sent(P(ACTIVATE, 0), 1), Sent(P(READ_P, 0), 5)], [T(0)], []))
  const M17 := One(15, Bank(PowerDown, 0, 19, 19, 19, 15, 15, PRECHARGE, 0), Bank(PowerDown, 0, 8, 10, 20, 16, 15, READ, 0),
      [P(ACTIVATE, 1), P(READ_P, 1)], [], true, None, 0, [], [T(1)], [], 985, true,
      None, 0, [], [], Log([T(0), T(1)], [Sent(P(ACTIVATE, 0), 1), Sent(P(READ_P, 0), 5)], [T(0)], []))
  const M18 := One(16, Bank(Idle, 0, 19, 19, 17, 15, 15, PRECHARGE, 0), Bank(Idle, 0, 8, 10, 17, 16, 15, READ, 0),
      [P(ACTIVATE, 1), P(READ_P, 1)], [], true, None, 0, [], [T(1)], [], 984, false,
      None, 0, [], [], Log([T(0), T(1)], [Sent(P(ACTIVATE, 0), 1), Sent(P(READ_P, 0), 5)], [T(0)], []))
  const M19 := One(17, Bank(Idle, 0, 19, 19, 17, 15, 15, PRECHARGE, 0), Bank(Idle, 0, 8, 10, 17, 16, 15, READ, 0),
      [P(ACTIVATE, 1), P(READ_P, 1)], [], true, None, 0, [], [T(1)], [], 983, false,
      None, 0, [], [], Log([T(0), T(1)], [Sent(P(ACTIVATE, 0), 1), Sent(P(READ_P, 0), 5)], [T(0)], []))

  lemma Cycle1()
    ensures Early(S1, M1) && Sound(M1) && Ends(M1, S2)
  {
  }

  lemma Cycle2()
    ensures Early(S2, M2) && Sound(M2) && Ends(M2, S3)
  {
  }

  lemma Cycle3()
    ensures Early(S3, M3)
  {
  }

  lemma Cycle3Ends()
    ensures Sound(M3) && Ends(M3, S4)
  {
  }

  lemma Cycle4()
    ensures Early(S4, M4) && Sound(M4) && Ends(M4, S5)
  {
  }

  lemma Cycle5()
    ensures Early(S5, M5) && Sound(M5) && Ends(M5, S6)
  {
  }

  lemma Cycle6()
    ensures Early(S6, M6) && Sound(M6) && Ends(M6, S7)
  {
  }

  lemma Cycle7()
    ensures Early(S7, M7) && Sound(M7) && Ends(M7, S8)
  {
  }

  lemma Cycle8()
    ensures Early(S8, M8) && Sound(M8) && Ends(M8, S9)
  {
  }

  lemma Cycle9()
    ensures Early(S9, M9) && Sound(M9) && Ends(M9, S10)
  {
  }

  lemma Cycle10()
    ensures Early(S10, M10) && Sound(M10) && Ends(M10, S11)
  {
  }

  lemma Cycle11()
    ensures Early(S11, M11) && Sound(M11) && Ends(M11, S12)
  {
  }

  lemma Cycle12()
    ensures Early(S12, M12) && Sound(M12) && Ends(M12, S13)
  {
  }

  lemma Cycle13()
    ensures Early(S13, M13) && Sound(M13) && Ends(M13, S14)
  {
  }

  lemma Cycle14()
    ensures Early(S14, M14) && Sound(M14) && Ends(M14, S15)
  {
  }

  lemma Cycle16()
    ensures Early(S16, M16) && Sound(M16) && Ends(M16, S17)
  {
  }

  lemma Cycle17()
    ensures Early(S17, M17) && Sound(M17) && Ends(M17, S18)
  {
  }

  lemma Cycle18()
    ensures Early(S18, M18) && Sound(M18) && Ends(M18, S19)
  {
  }

  lemma Cycle19()
    ensures Early(S19, M19) && Sound(M19) && Ends(M19, S20)
  {
  }

  /** A request joins the empty queue. */
  predicate Asks(o: One, o': One) {
    && o.transactions == []
    && o' == o.(transactions := [T(|o.log.accepted|)], log := o.log.(accepted := o.log.accepted + [T(|o.log.accepted|)]))
  }

  lemma Requests()
    ensures Asks(S0, S1) && Asks(S15, S16)
  {
  }

  ghost predicate LeadsTo(events: seq<Event>, o: One) {
    SMALL.Valid() && Legal(SMALL, events) && Run(SMALL, events) == Some(o.State())
  }

  lemma ClockGoes(events: seq<Event>, o: One, d: One, e: One) returns (more: seq<Event>)
    requires LeadsTo(events, o) && Early(o, d) && Sound(d) && Ends(d, e)
    ensures LeadsTo(more, e)
  {
    hide Early, Sound, Ends, Cycle;
    CycleIs(o, d, e);
    more := events + [Clock];
    assert more[..|more|-1] == events;
  }

  lemma RequestGoes(events: seq<Event>, o: One, o': One) returns (more: seq<Event>)
    requires LeadsTo(events, o) && Asks(o, o')
    ensures LeadsTo(more, o')
  {
    hide Cycle;
    more := events + [Request(true, 0)];
    assert more[..|more|-1] == events;
    assert SMALL.InRange(0);
    var t := T(|o.log.accepted|);
    assert [] + [t] == [t];
    assert AddTransaction(SMALL, o.State(), true, 0) == o'.State();
  }

  lemma StartIs()
    ensures LeadsTo([], S0)
  {
    SmallIsValid();
    StartState();
    hide Start;
  }

  lemma StartState()
    ensures Start(SMALL) == S0.State()
  {
    assert FreshRow(SMALL) == [FRESH_BANK];
    var q := Initial(SMALL);
    assert q.queues[0] == [[]] && q.queues == [q.queues[0]] && q.faw == [[]];
    assert q.accesses[0] == [0] && q.accesses == [q.accesses[0]];
    assert Stagger(SMALL, 0) == 1000;
  }

  /** In this run the bank is activated in cycle 1 and, after a sleep, in cycle 17: sixteen cycles
      apart, where the device asks for a row cycle time of eighteen. */
  lemma RowCycleIsCut() returns (events: seq<Event>)
    ensures SMALL.Valid() && Legal(SMALL, events)
    ensures var sent := After(SMALL, events).log.sent;
            && |sent| == 3
            && sent[0].packet.kind == sent[2].packet.kind == ACTIVATE
            && sent[0].packet.rank == sent[2].packet.rank && sent[0].packet.bank == sent[2].packet.bank
            && sent[0].at == 1 && sent[2].at == 17 && sent[2].at - sent[0].at < SMALL.t.tRC
  {
    hide *;
    events := [];
    StartIs();
    Requests();
    events := RequestGoes(events, S0, S1);
    Cycle1();
    events := ClockGoes(events, S1, M1, S2);
    Cycle2();
    events := ClockGoes(events, S2, M2, S3);
    Cycle3(); Cycle3Ends();
    events := ClockGoes(events, S3, M3, S4);
    Cycle4();
    events := ClockGoes(events, S4, M4, S5);
    Cycle5();
    events := ClockGoes(events, S5, M5, S6);
    Cycle6();
    events := ClockGoes(events, S6, M6, S7);
    Cycle7();
    events := ClockGoes(events, S7, M7, S8);
    Cycle8();
    events := ClockGoes(events, S8, M8, S9);
    Cycle9();
    events := ClockGoes(events, S9, M9, S10);
    Cycle10();
    events := ClockGoes(events, S10, M10, S11);
    Cycle11();
    events := ClockGoes(events, S11, M11, S12);
    Cycle12();
    events := ClockGoes(events, S12, M12, S13);
    Cycle13();
    events := ClockGoes(events, S13, M13, S14);
    Cycle14();
    events := ClockGoes(events, S14, M14, S15);
    events := RequestGoes(events, S15, S16);
    Cycle16();
    events := ClockGoes(events, S16, M16, S17);
    Cycle17();
    events := ClockGoes(events, S17, M17, S18);
    Cycle18();
    events := ClockGoes(events, S18, M18, S19);
    Cycle19();
    events := ClockGoes(events, S19, M19, S20);
    EndsAt(events);
  }

  lemma EndsAt(events: seq<Event>)
    requires LeadsTo(events, S20)
    ensures SMALL.Valid() && Legal(SMALL, events)
    ensures var sent := After(SMALL, events).log.sent;
            && |sent| == 3
            && sent[0].packet.kind == sent[2].packet.kind == ACTIVATE
            && sent[0].packet.rank == sent[2].packet.rank && sent[0].packet.bank == sent[2].packet.bank
            && sent[0].at == 1 && sent[2].at == 17 && sent[2].at - sent[0].at < SMALL.t.tRC
  {
    hide Run, Inv, Legal;
  }
}
