/** The commands of every run keep the minimal distances of the device. */
module DramDistances {
  import opened Wrappers
  import opened DramTypes
  import opened DramBanks
  import opened DramQueue
  import opened DramCommitProofs
  import opened DramSystem
  import opened DramTheorems
  import opened DramPromises
  import opened DramTable
  import opened DramGaps
  import DramDataBus

  /** Every bank of the rank of `x` remembers it. */
  ghost predicate RankRemembers(c: Config, row: seq<Bank>, x: Sent, now: int) {
    forall j: nat :: j < |row| ==> RowWaits(c, row[j], x, j, now) && ColumnWaits(c, row[j], x, j)
  }

  ghost predicate Remembered(c: Config, banks: seq<seq<Bank>>, x: Sent, now: int) {
    && x.packet.rank < |banks| && x.packet.bank < |banks[x.packet.rank]|
    && x.at <= now && Fits(c, x.packet.kind)
    && RankRemembers(c, banks[x.packet.rank], x, now)
  }

  ghost predicate Gaps(c: Config, banks: seq<seq<Bank>>, sent: seq<Sent>, now: int) {
    && (forall i :: 0 <= i < |sent| ==> Remembered(c, banks, sent[i], now))
    && (forall i, k :: 0 <= i < k < |sent| && sent[i].packet.rank == sent[k].packet.rank ==> RowDistance(c, sent[i], sent[k]))
  }

  lemma TickRemembers(c: Config, banks: seq<seq<Bank>>, x: Sent, now: int)
    requires c.Valid() && TableOk(c, banks, now) && Remembered(c, banks, x, now)
    ensures Remembered(c, TickBanks(c, banks), x, now + 1)
  {
    hide RowWaits, ColumnWaits, TickBank, DownTogether, CountdownOk;
    var row := banks[x.packet.rank];
    var row' := TickBanks(c, banks)[x.packet.rank];
    forall j: nat | j < |row'| ensures RowWaits(c, row'[j], x, j, now + 1) && ColumnWaits(c, row'[j], x, j) {
      assert row'[j] == TickBank(c, row[j]) && RowWaits(c, row[j], x, j, now);
      TickKeepsRow(c, row[j], x, j, now);
      TickKeepsColumn(c, row[j], x, j, now);
    }
  }

  lemma SendableHere(c: Config, row: seq<Bank>, p: Packet, now: int, j: nat)
    requires SendableTo(c, row, p, now) && j < |row|
    ensures Addressed(p, p.rank, j) ==> MaySend(c, row[j], p, now)
    ensures p.kind != DATA
  {
    assert MaySend(c, row[p.bank], p, now);
  }

  lemma SendRemembers(c: Config, banks: seq<seq<Bank>>, x: Sent, p: Packet, now: int)
    requires c.Valid() && TableOk(c, banks, now) && Sendable(c, banks, p, now) && Remembered(c, banks, x, now)
    ensures Remembered(c, SendBanks(c, banks, p, now), x, now)
  {
    hide RowWaits, ColumnWaits, SendBank, DownTogether, CountdownOk, MaySend, SendableTo, Addressed;
    var r := x.packet.rank;
    var row, row' := banks[r], SendBanks(c, banks, p, now)[r];
    forall j: nat | j < |row'| ensures RowWaits(c, row'[j], x, j, now) && ColumnWaits(c, row'[j], x, j) {
      assert row'[j] == SendBank(c, row[j], p, now, r, j) && RowWaits(c, row[j], x, j, now);
      if r == p.rank {
        SendableHere(c, row, p, now, j);
        SendKeepsRow(c, row[j], x, p, now, j);
        SendKeepsColumn(c, row[j], x, p, now, j);
      } else {
        OtherRankWaits(c, row[j], x, p, now, r, j);
      }
    }
  }

  /** No command goes to a rank that is powered down. */
  lemma NotDown(c: Config, row: seq<Bank>, p: Packet, now: int, j: nat)
    requires SendableTo(c, row, p, now) && DownTogether(row) && j < |row|
    ensures row[j].phase != PowerDown && p.bank < |row| && p.kind != DATA
  {
    assert MaySend(c, row[p.bank], p, now);
  }

  lemma SendIsRemembered(c: Config, banks: seq<seq<Bank>>, p: Packet, now: int)
    requires c.Valid() && TableOk(c, banks, now) && Sendable(c, banks, p, now)
    ensures Remembered(c, SendBanks(c, banks, p, now), Sent(p, now), now)
  {
    hide RowWaits, ColumnWaits, SendBank, DownTogether, CountdownOk, SendableTo, Addressed;
    var row, row' := banks[p.rank], SendBanks(c, banks, p, now)[p.rank];
    forall j: nat | j < |row'| ensures RowWaits(c, row'[j], Sent(p, now), j, now) && ColumnWaits(c, row'[j], Sent(p, now), j) {
      assert row'[j] == SendBank(c, row[j], p, now, p.rank, j);
      NotDown(c, row, p, now, j);
      SendableHere(c, row, p, now, j);
      SentRowWaits(c, row[j], p, now, j);
      SentColumnWaits(c, row[j], p, now, j);
    }
    PacketFits(c, row, p, now);
  }

  lemma PacketFits(c: Config, row: seq<Bank>, p: Packet, now: int)
    requires SendableTo(c, row, p, now)
    ensures p.bank < |row| && Fits(c, p.kind)
  {
    assert MaySend(c, row[p.bank], p, now);
  }

  lemma SendKeepsDistance(c: Config, banks: seq<seq<Bank>>, x: Sent, p: Packet, now: int)
    requires c.Valid() && TableOk(c, banks, now) && Sendable(c, banks, p, now) && Remembered(c, banks, x, now)
    requires x.packet.rank == p.rank
    ensures RowDistance(c, x, Sent(p, now))
  {
    hide RowWaits, ColumnWaits, DownTogether, CountdownOk, SendableTo, MaySend, RowDistance;
    var row := banks[p.rank];
    NotDown(c, row, p, now, 0);
    SendableHere(c, row, p, now, p.bank);
    SendableHere(c, row, p, now, x.packet.bank);
    MaySendKeepsDistance(c, row[p.bank], row[x.packet.bank], x, p, now);
  }

  lemma SendKeepsGaps(c: Config, banks: seq<seq<Bank>>, sent: seq<Sent>, p: Packet, now: int)
    requires c.Valid() && TableOk(c, banks, now) && Sendable(c, banks, p, now) && Gaps(c, banks, sent, now)
    ensures Gaps(c, SendBanks(c, banks, p, now), sent + [Sent(p, now)], now)
  {
    hide Remembered, Sendable, TableOk, RowDistance, SendBanks;
    var sent' := sent + [Sent(p, now)];
    forall i | 0 <= i < |sent'| ensures Remembered(c, SendBanks(c, banks, p, now), sent'[i], now) {
      if i < |sent| { SendRemembers(c, banks, sent[i], p, now); } else { SendIsRemembered(c, banks, p, now); }
    }
    forall i, k | 0 <= i < k < |sent'| && sent'[i].packet.rank == sent'[k].packet.rank ensures RowDistance(c, sent'[i], sent'[k]) {
      if k == |sent| { SendKeepsDistance(c, banks, sent[i], p, now); }
    }
  }

  lemma PowerRemembers(c: Config, banks: seq<seq<Bank>>, banks': seq<seq<Bank>>, x: Sent, now: int)
    requires c.Valid() && PowerSteps(c, banks, banks', now) && Remembered(c, banks, x, now)
    ensures Remembered(c, banks', x, now)
  {
    hide RowWaits, ColumnWaits, PowerDownBank, PowerUpBank;
    var row, row' := banks[x.packet.rank], banks'[x.packet.rank];
    assert PowerStep(c, row, row', now);
    if row' != row {
      forall j: nat | j < |row'| ensures RowWaits(c, row'[j], x, j, now) && ColumnWaits(c, row'[j], x, j) {
        assert RowWaits(c, row[x.packet.bank], x, x.packet.bank, now) && RowWaits(c, row[j], x, j, now);
        if AllIdle(row) && row' == PowerDownRow(c, row, now) {
          PowerDownKeeps(c, row[j], row[x.packet.bank], x, j, now);
        } else {
          PowerUpKeeps(c, row[j], x, j, now);
        }
      }
    }
  }

  lemma CycleKeepsGaps(c: Config, s: System)
    requires c.Valid() && Inv(c, s) && Gaps(c, s.mc.banks, s.log.sent, s.now - 1)
    ensures Cycle(c, s).Some?
    ensures var s' := Cycle(c, s).value; Gaps(c, s'.mc.banks, s'.log.sent, s'.now - 1)
  {
    hide Cycle, Inv, Middle, TableOk, Sendable, RowDistance, Remembered, PowerSteps, SendBanks, TickBanks, PopAndSend;
    var p := CycleOnTable(c, s);
    var b, sent := TickBanks(c, s.mc.banks), s.log.sent;
    forall i | 0 <= i < |sent| ensures Remembered(c, b, sent[i], s.now) { TickRemembers(c, s.mc.banks, sent[i], s.now - 1); }
    if p.Some? { SendKeepsGaps(c, b, sent, p.value, s.now); }
    var b1, b2, sent' := Commanded(c, b, p, s.now), Cycle(c, s).value.mc.banks, sent + Logged(p, s.now);
    assert sent + [] == sent;
    forall i | 0 <= i < |sent'| ensures Remembered(c, b2, sent'[i], s.now) { PowerRemembers(c, b1, b2, sent'[i], s.now); }
  }

  lemma {:induction false} RunKeepsGaps(c: Config, events: seq<Event>)
    requires c.Valid() && Legal(c, events)
    ensures Run(c, events).Some?
    ensures var s := Run(c, events).value; Gaps(c, s.mc.banks, s.log.sent, s.now - 1)
  {
    hide Inv, Cycle, Gaps;
    NoErrorExit(c, events);
    if |events| == 0 {
      StartHasGaps(c);
    } else {
      var rest := events[..|events|-1];
      NoErrorExit(c, rest);
      RunKeepsGaps(c, rest);
      if events[|events|-1] == Clock { CycleKeepsGaps(c, Run(c, rest).value); }
    }
  }

  lemma StartHasGaps(c: Config)
    ensures Gaps(c, Start(c).mc.banks, Start(c).log.sent, -1)
  {
  }

  // ---- what every run keeps, in raw parameters -------------------------------------------

  /** Two commands of a run to one rank, in the order they were sent. */
  ghost predicate TwoSent(c: Config, events: seq<Event>, x: Sent, y: Sent)
    requires c.Valid() && Legal(c, events)
  {
    var sent := After(c, events).log.sent;
    exists i, k :: 0 <= i < k < |sent| && sent[i] == x && sent[k] == y && x.packet.rank == y.packet.rank
  }

  lemma TwoSentDistance(c: Config, events: seq<Event>, x: Sent, y: Sent)
    requires c.Valid() && Legal(c, events) && TwoSent(c, events, x, y)
    ensures RowDistance(c, x, y) && Fits(c, x.packet.kind) && Fits(c, y.packet.kind)
  {
    hide Run, Inv, Legal, RowDistance, RankRemembers;
    RunKeepsGaps(c, events);
    var s := After(c, events);
    var i, k :| 0 <= i < k < |s.log.sent| && s.log.sent[i] == x && s.log.sent[k] == y && x.packet.rank == y.packet.rank;
    assert Remembered(c, s.mc.banks, s.log.sent[i], s.now - 1) && Remembered(c, s.mc.banks, s.log.sent[k], s.now - 1);
  }

  /** A bank asleep with its rank must not wake up too early for this distance. */
  predicate SleepCovers(c: Config, k: Kind, gap: int) { c.lowPower ==> gap <= SleepGap(c, k) }

  /** From any command to a later ACTIVATE: of its bank tRC, tRP, and the auto-precharge times;
      of its rank tRRD and tRFC. With low power, a sleep must be as long as the distance. */
  lemma ActivateDistances(c: Config, events: seq<Event>, x: Sent, y: Sent)
    requires c.Valid() && Legal(c, events) && TwoSent(c, events, x, y) && y.packet.kind == ACTIVATE
    ensures var t, k, d := c.t, x.packet.kind, y.at - x.at;
            && (k == REFRESH ==> d >= t.tRFC)
            && (k == ACTIVATE && SleepCovers(c, k, t.tRRD) && x.packet.bank != y.packet.bank ==> d >= t.tRRD)
            && (x.packet.bank == y.packet.bank ==>
                  && (k == PRECHARGE ==> d >= t.tRP)
                  && (k == WRITE_P ==> d >= t.CL + t.AL - 1 + t.BL / 2 + t.tWR + t.tRP)
                  && (k == READ_P && SleepCovers(c, k, t.AL + t.tRTP + t.tRP) ==> d >= t.AL + t.tRTP + t.tRP)
                  && (k == ACTIVATE && SleepCovers(c, k, t.tRC) ==> d >= t.tRC))
  {
    hide Run, Inv, Legal, TwoSent;
    TwoSentDistance(c, events, x, y);
  }

  /** From any command to a later REFRESH of its rank. */
  lemma RefreshDistances(c: Config, events: seq<Event>, x: Sent, y: Sent)
    requires c.Valid() && Legal(c, events) && TwoSent(c, events, x, y) && y.packet.kind == REFRESH
    ensures var t, k, d := c.t, x.packet.kind, y.at - x.at;
            && (k == REFRESH ==> d >= t.tRFC)
            && (k == PRECHARGE ==> d >= t.tRP)
            && (k == WRITE_P ==> d >= t.CL + t.AL - 1 + t.BL / 2 + t.tWR + t.tRP)
            && (k == READ_P && SleepCovers(c, k, t.AL + t.tRTP + t.tRP) ==> d >= t.AL + t.tRTP + t.tRP)
            && (k == ACTIVATE && SleepCovers(c, k, t.tRC) ==> d >= t.tRC)
  {
    hide Run, Inv, Legal, TwoSent;
    TwoSentDistance(c, events, x, y);
  }

  /** From any command to a later PRECHARGE of its bank: tRAS, write recovery, read recovery. */
  lemma PrechargeDistances(c: Config, events: seq<Event>, x: Sent, y: Sent)
    requires c.Valid() && Legal(c, events) && TwoSent(c, events, x, y)
    requires y.packet.kind == PRECHARGE && x.packet.bank == y.packet.bank
    ensures var t, k, d := c.t, x.packet.kind, y.at - x.at;
            && (k == ACTIVATE ==> d >= t.tRAS)
            && (k == WRITE ==> d >= t.CL + t.AL - 1 + t.BL / 2 + t.tWR)
            && (k == READ ==> d >= t.AL + t.BL / 2 && d >= t.AL + t.BL / 2 + t.tRTP - t.tCCD)
  {
    hide Run, Inv, Legal, TwoSent;
    TwoSentDistance(c, events, x, y);
  }

  /** From an ACTIVATE to a column command of its bank: tRCD less the additive latency. */
  lemma RowOpensFirst(c: Config, events: seq<Event>, x: Sent, y: Sent)
    requires c.Valid() && Legal(c, events) && TwoSent(c, events, x, y)
    requires y.packet.kind.IsColumn() && x.packet.kind == ACTIVATE && x.packet.bank == y.packet.bank
    ensures y.at - x.at >= c.t.tRCD - c.t.AL
  {
    hide Run, Inv, Legal, TwoSent;
    TwoSentDistance(c, events, x, y);
  }

  /** Between the column commands of one rank: tCCD and the burst; from a write to a read the
      write's data and tWTR; from a read to a write the read's burst and tRTRS. In close page
      opening a row anew must cover the turn-around. */
  lemma ColumnDistances(c: Config, events: seq<Event>, x: Sent, y: Sent)
    requires c.Valid() && Legal(c, events) && TwoSent(c, events, x, y)
    requires x.packet.kind.IsColumn() && y.packet.kind.IsColumn()
    ensures var t, d, isRead, wasRead := c.t, y.at - x.at, y.packet.kind.IsRead(), x.packet.kind.IsRead();
            && (isRead && wasRead && ReopeningCovers(c, x.packet.kind, true) ==> d >= t.tCCD && d >= t.BL / 2)
            && (!isRead && !wasRead && ReopeningCovers(c, x.packet.kind, false) ==> d >= t.tCCD && d >= t.BL / 2)
            && (isRead && !wasRead && (c.policy == OpenPage || t.tWTR <= t.tWR + t.tRP + t.tRCD - t.AL) ==>
                  d >= t.CL + t.AL - 1 + t.BL / 2 + t.tWTR)
            && (!isRead && wasRead && ReopeningCovers(c, x.packet.kind, false) ==> d >= t.BL / 2 + t.tRTRS + 1)
  {
    hide Run, Inv, Legal, TwoSent;
    TwoSentDistance(c, events, x, y);
  }

  // ---- between ranks -----------------------------------------------------------------------

  /** Command `m` opened a row of bank (r, j) after command `i`. */
  predicate Reopens(sent: seq<Sent>, m: int, r: nat, j: nat) {
    0 <= m < |sent| && sent[m].packet.kind == ACTIVATE && sent[m].packet.rank == r && sent[m].packet.bank == j
  }

  /** Since command `i` no row of bank (r, j) was opened. */
  ghost predicate OpenSince(sent: seq<Sent>, i: int, r: nat, j: nat) {
    forall m :: i < m ==> !Reopens(sent, m, r, j)
  }

  predicate BusWaits(t: Timing, b: Bank, x: Sent) {
    && b.nextRead >= x.at + OtherRankGap(t, x.packet.kind.IsRead(), true)
    && b.nextWrite >= x.at + OtherRankGap(t, x.packet.kind.IsRead(), false)
  }

  /** A row that was open when another rank's column command was sent waits for its burst. */
  ghost predicate OthersWait(t: Timing, b: Bank, sent: seq<Sent>, r: nat, j: nat) {
    Open(b) ==> forall i :: 0 <= i < |sent| && sent[i].packet.kind.IsColumn() && sent[i].packet.rank != r && OpenSince(sent, i, r, j) ==>
      BusWaits(t, b, sent[i])
  }

  ghost predicate AllOthersWait(c: Config, banks: seq<seq<Bank>>, sent: seq<Sent>) {
    forall r: nat, j: nat :: r < |banks| && j < |banks[r]| ==> OthersWait(c.t, banks[r][j], sent, r, j)
  }

  /** Two column commands to different ranks, the second to a row open since before the first. */
  ghost predicate Handover(sent: seq<Sent>, i: int, k: int) {
    && 0 <= i < k < |sent| && sent[i].packet.kind.IsColumn() && sent[k].packet.kind.IsColumn()
    && sent[i].packet.rank != sent[k].packet.rank
    && OpenSince(sent[..k], i, sent[k].packet.rank, sent[k].packet.bank)
  }

  ghost predicate HandoversApart(t: Timing, sent: seq<Sent>) {
    forall i, k :: Handover(sent, i, k) ==>
      sent[k].at - sent[i].at >= OtherRankGap(t, sent[i].packet.kind.IsRead(), sent[k].packet.kind.IsRead())
  }

  lemma OpenSinceLonger(sent: seq<Sent>, x: Sent, i: int, r: nat, j: nat)
    requires OpenSince(sent + [x], i, r, j)
    ensures OpenSince(sent, i, r, j)
    ensures i < |sent| ==> !(x.packet.kind == ACTIVATE && x.packet.rank == r && x.packet.bank == j)
  {
    forall m | i < m ensures !Reopens(sent, m, r, j) { assert !Reopens(sent + [x], m, r, j); }
    if i < |sent| { assert !Reopens(sent + [x], |sent|, r, j); }
  }

  /** One bank, one command. */
  lemma SendKeepsBusWait(c: Config, b: Bank, x: Sent, p: Packet, now: int, r: nat, j: nat)
    requires c.Valid() && p.kind != DATA && !(p.kind == ACTIVATE && p.rank == r && p.bank == j)
    requires Open(SendBank(c, b, p, now, r, j)) && BusWaits(c.t, b, x)
    ensures Open(b) && BusWaits(c.t, SendBank(c, b, p, now, r, j), x)
  {
  }

  lemma SendMakesBusWait(c: Config, b: Bank, p: Packet, now: int, r: nat, j: nat)
    requires c.Valid() && p.kind.IsColumn() && p.rank != r && Open(SendBank(c, b, p, now, r, j))
    ensures BusWaits(c.t, SendBank(c, b, p, now, r, j), Sent(p, now))
  {
  }

  lemma OpenBefore(c: Config, b: Bank, p: Packet, now: int, r: nat, j: nat)
    requires c.Valid() && p.kind != DATA && !(p.kind == ACTIVATE && p.rank == r && p.bank == j)
    ensures Open(SendBank(c, b, p, now, r, j)) ==> Open(b)
  {
  }

  lemma SendKeepsOthers(c: Config, b: Bank, sent: seq<Sent>, p: Packet, now: int, r: nat, j: nat)
    requires c.Valid() && p.kind != DATA && OthersWait(c.t, b, sent, r, j)
    ensures OthersWait(c.t, SendBank(c, b, p, now, r, j), sent + [Sent(p, now)], r, j)
  {
    hide SendBank, BusWaits, OpenSince;
    var b', sent' := SendBank(c, b, p, now, r, j), sent + [Sent(p, now)];
    if Open(b') {
      forall i | 0 <= i < |sent'| && sent'[i].packet.kind.IsColumn() && sent'[i].packet.rank != r && OpenSince(sent', i, r, j)
        ensures BusWaits(c.t, b', sent'[i])
      {
        if i < |sent| {
          OpenSinceLonger(sent, Sent(p, now), i, r, j);
          OpenBefore(c, b, p, now, r, j);
          SendKeepsBusWait(c, b, sent[i], p, now, r, j);
        } else {
          SendMakesBusWait(c, b, p, now, r, j);
        }
      }
    }
  }

  lemma SendKeepsHandovers(c: Config, banks: seq<seq<Bank>>, sent: seq<Sent>, p: Packet, now: int)
    requires c.Valid() && Sendable(c, banks, p, now) && TableOk(c, banks, now)
    requires AllOthersWait(c, banks, sent) && HandoversApart(c.t, sent)
    ensures HandoversApart(c.t, sent + [Sent(p, now)])
  {
    hide OpenSince, DownTogether, OtherRankGap;
    var sent' := sent + [Sent(p, now)];
    var b := banks[p.rank][p.bank];
    assert OthersWait(c.t, b, sent, p.rank, p.bank) && MaySend(c, b, p, now) && CountdownOk(c, b, now);
    forall i, k | Handover(sent', i, k)
      ensures sent'[k].at - sent'[i].at >= OtherRankGap(c.t, sent'[i].packet.kind.IsRead(), sent'[k].packet.kind.IsRead())
    {
      assert sent'[..k] == sent[..k];
      if k < |sent| {
        assert Handover(sent, i, k);
      } else {
        assert sent[..k] == sent;
      }
    }
  }

  lemma SendKeepsAllOthers(c: Config, banks: seq<seq<Bank>>, sent: seq<Sent>, p: Packet, now: int)
    requires c.Valid() && p.kind != DATA && AllOthersWait(c, banks, sent)
    ensures AllOthersWait(c, SendBanks(c, banks, p, now), sent + [Sent(p, now)])
  {
    hide OthersWait, SendBank;
    var b := SendBanks(c, banks, p, now);
    forall r: nat, j: nat | r < |b| && j < |b[r]| ensures OthersWait(c.t, b[r][j], sent + [Sent(p, now)], r, j) {
      assert b[r][j] == SendBank(c, banks[r][j], p, now, r, j) && OthersWait(c.t, banks[r][j], sent, r, j);
      SendKeepsOthers(c, banks[r][j], sent, p, now, r, j);
    }
  }

  lemma CalmKeepsOthers(c: Config, banks: seq<seq<Bank>>, banks': seq<seq<Bank>>, sent: seq<Sent>)
    requires DramDataBus.Calm(banks, banks') && AllOthersWait(c, banks, sent)
    ensures AllOthersWait(c, banks', sent)
  {
    hide OpenSince;
    forall r: nat, j: nat | r < |banks'| && j < |banks'[r]| ensures OthersWait(c.t, banks'[r][j], sent, r, j) {
      assert OthersWait(c.t, banks[r][j], sent, r, j) && DramDataBus.CalmBank(banks[r][j], banks'[r][j]);
    }
  }

  lemma PowerStepsAreCalm(c: Config, banks: seq<seq<Bank>>, banks': seq<seq<Bank>>, now: int)
    requires PowerSteps(c, banks, banks', now)
    ensures DramDataBus.Calm(banks, banks')
  {
    forall r: nat | r < |banks| ensures PowerStep(c, banks[r], banks'[r], now) {}
  }

  lemma CycleKeepsHandovers(c: Config, s: System)
    requires c.Valid() && Inv(c, s) && AllOthersWait(c, s.mc.banks, s.log.sent) && HandoversApart(c.t, s.log.sent)
    ensures Cycle(c, s).Some?
    ensures var s' := Cycle(c, s).value; AllOthersWait(c, s'.mc.banks, s'.log.sent) && HandoversApart(c.t, s'.log.sent)
  {
    hide Cycle, Inv, Middle, AllOthersWait, HandoversApart, PowerSteps, SendBanks, TickBanks, PopAndSend, DramDataBus.Calm;
    var p := CycleOnTable(c, s);
    var b := TickBanks(c, s.mc.banks);
    CountdownsOfTable(c, s.mc.banks, s.now - 1);
    DramDataBus.TickIsCalm(c, s.mc.banks, s.now - 1);
    CalmKeepsOthers(c, s.mc.banks, b, s.log.sent);
    if p.Some? {
      SendableIsCommand(c, b, p.value, s.now);
      SendKeepsHandovers(c, b, s.log.sent, p.value, s.now);
      SendKeepsAllOthers(c, b, s.log.sent, p.value, s.now);
    }
    assert s.log.sent + [] == s.log.sent;
    var b1, b2 := Commanded(c, b, p, s.now), Cycle(c, s).value.mc.banks;
    PowerStepsAreCalm(c, b1, b2, s.now);
    CalmKeepsOthers(c, b1, b2, s.log.sent + Logged(p, s.now));
  }

  lemma CountdownsOfTable(c: Config, banks: seq<seq<Bank>>, now: int)
    requires TableOk(c, banks, now)
    ensures CountdownsOk(c, banks, now)
  {
  }

  lemma SendableIsCommand(c: Config, banks: seq<seq<Bank>>, p: Packet, now: int)
    requires Sendable(c, banks, p, now)
    ensures p.kind != DATA
  {
    assert MaySend(c, banks[p.rank][p.bank], p, now);
  }

  lemma {:induction false} RunKeepsHandovers(c: Config, events: seq<Event>)
    requires c.Valid() && Legal(c, events)
    ensures Run(c, events).Some?
    ensures var s := Run(c, events).value; AllOthersWait(c, s.mc.banks, s.log.sent) && HandoversApart(c.t, s.log.sent)
  {
    hide Inv, Cycle, AllOthersWait, HandoversApart;
    NoErrorExit(c, events);
    if |events| == 0 {
      StartHasHandovers(c);
    } else {
      var rest := events[..|events|-1];
      NoErrorExit(c, rest);
      RunKeepsHandovers(c, rest);
      if events[|events|-1] == Clock { CycleKeepsHandovers(c, Run(c, rest).value); }
    }
  }

  lemma StartHasHandovers(c: Config)
    ensures AllOthersWait(c, Start(c).mc.banks, Start(c).log.sent) && HandoversApart(c.t, Start(c).log.sent)
  {
  }

  /** Between column commands to two ranks the bus changes hands: a burst and tRTRS apart, one
      cycle more from a read to a write, one less from a write to a read. */
  lemma HandoverDistance(c: Config, events: seq<Event>, i: nat, k: nat)
    requires c.Valid() && Legal(c, events) && Handover(After(c, events).log.sent, i, k)
    ensures var sent, t := After(c, events).log.sent, c.t;
            var d, wasRead, isRead := sent[k].at - sent[i].at, sent[i].packet.kind.IsRead(), sent[k].packet.kind.IsRead();
            && (wasRead == isRead ==> d >= t.BL / 2 + t.tRTRS)
            && (wasRead && !isRead ==> d >= t.BL / 2 + t.tRTRS + 1)
            && (!wasRead && isRead ==> d >= t.BL / 2 + t.tRTRS - 1)
  {
    hide Run, Inv, Legal, Handover, AllOthersWait;
    RunKeepsHandovers(c, events);
  }
}
