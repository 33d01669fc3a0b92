/** The data bus of the whole channel: when the bursts of the commands of a run are on it, to
    whatever rank they go, and that they never meet. */
module DramDataBus {
  import opened Wrappers
  import opened DramTypes
  import opened DramBanks
  import opened DramQueue
  import opened DramQueueProofs
  import opened DramCommitProofs
  import opened DramSystem
  import opened DramAgreement
  import opened DramWindow
  import opened DramBuses
  import opened DramTheorems

  predicate IsColumnAt(sent: seq<Sent>, i: int) {
    0 <= i < |sent| && sent[i].packet.kind.IsColumn()
  }

  /** When a command's burst begins: a read's RL after the rank has taken it, a write's WL after
      the controller has sent it. */
  function DataStart(t: Timing, x: Sent): int {
    if x.packet.kind.IsRead() then x.at + 1 + t.RL() else x.at + t.WL()
  }

  /** The bus has time to turn around from a read to a write. */
  predicate TurnsAround(t: Timing) {
    t.tRTRS >= 1 && t.tRCD - t.AL >= t.Burst() + 1
  }

  /** The delays keep these two apart; a read and a later write only if the bus turns around. */
  predicate KeptApart(t: Timing, x: Sent, y: Packet) {
    x.packet.kind.IsRead() && y.kind.IsWrite() ==> TurnsAround(t)
  }

  ghost predicate BurstsApart(c: Config, sent: seq<Sent>) {
    forall i, j :: i < j && IsColumnAt(sent, i) && IsColumnAt(sent, j) && KeptApart(c.t, sent[i], sent[j].packet) ==>
      DataStart(c.t, sent[i]) + c.t.Burst() <= DataStart(c.t, sent[j])
  }

  /** An open row waits with its next read, and with its next write, for the burst of `x`. */
  predicate WaitsFor(c: Config, b: Bank, x: Sent) {
    Open(b) ==>
      && b.nextRead + 1 + c.t.RL() >= DataStart(c.t, x) + c.t.Burst()
      && (x.packet.kind.IsWrite() || TurnsAround(c.t) ==> b.nextWrite + c.t.WL() >= DataStart(c.t, x) + c.t.Burst())
  }

  ghost predicate WaitsForAll(c: Config, b: Bank, sent: seq<Sent>) {
    forall i :: IsColumnAt(sent, i) ==> WaitsFor(c, b, sent[i])
  }

  /** All column commands were sent before cycle `now`, their bursts are apart, and every open
      row waits for them. */
  ghost predicate Spaced(c: Config, banks: seq<seq<Bank>>, sent: seq<Sent>, now: int) {
    && BurstsApart(c, sent)
    && (forall i :: IsColumnAt(sent, i) ==> sent[i].at < now)
    && (forall r, j :: 0 <= r < |banks| && 0 <= j < |banks[r]| ==> WaitsForAll(c, banks[r][j], sent))
  }

  /** No row was opened and nothing may happen earlier. */
  ghost predicate Calm(banks: seq<seq<Bank>>, banks': seq<seq<Bank>>) {
    |banks'| == |banks| && forall r :: 0 <= r < |banks| ==> |banks'[r]| == |banks[r]| && forall j :: 0 <= j < |banks[r]| ==>
      CalmBank(banks[r][j], banks'[r][j])
  }

  predicate CalmBank(b: Bank, b': Bank) {
    Open(b') ==> Open(b) && b'.nextRead >= b.nextRead && b'.nextWrite >= b.nextWrite
  }

  lemma CalmKeepsSpacing(c: Config, banks: seq<seq<Bank>>, banks': seq<seq<Bank>>, sent: seq<Sent>, now: int)
    requires Spaced(c, banks, sent, now) && Calm(banks, banks')
    ensures Spaced(c, banks', sent, now)
  {
    hide BurstsApart;
    forall r, j | 0 <= r < |banks'| && 0 <= j < |banks'[r]| ensures WaitsForAll(c, banks'[r][j], sent) {
      assert WaitsForAll(c, banks[r][j], sent) && CalmBank(banks[r][j], banks'[r][j]);
    }
  }

  /** A bank that was waiting for an earlier burst still does. */
  lemma SendKeepsWaiting(c: Config, b: Bank, x: Sent, p: Packet, now: int, r: nat, j: nat)
    requires c.Valid() && p.kind != DATA && x.packet.kind.IsColumn() && x.at < now && WaitsFor(c, b, x)
    ensures WaitsFor(c, SendBank(c, b, p, now, r, j), x)
  {
  }

  /** Every bank waits for the burst of a command that has just been sent. */
  lemma SendMakesWait(c: Config, b: Bank, p: Packet, now: int, r: nat, j: nat)
    requires c.Valid() && p.kind.IsColumn()
    ensures WaitsFor(c, SendBank(c, b, p, now, r, j), Sent(p, now))
  {
  }

  lemma SendKeepsWaitingAll(c: Config, b: Bank, sent: seq<Sent>, p: Packet, now: int, r: nat, j: nat)
    requires c.Valid() && p.kind != DATA && WaitsForAll(c, b, sent)
    requires forall i :: IsColumnAt(sent, i) ==> sent[i].at < now
    ensures WaitsForAll(c, SendBank(c, b, p, now, r, j), sent + [Sent(p, now)])
  {
    hide SendBank, WaitsFor;
    var sent' := sent + [Sent(p, now)];
    forall i | IsColumnAt(sent', i) ensures WaitsFor(c, SendBank(c, b, p, now, r, j), sent'[i]) {
      if i < |sent| {
        assert IsColumnAt(sent, i);
        SendKeepsWaiting(c, b, sent[i], p, now, r, j);
      } else {
        SendMakesWait(c, b, p, now, r, j);
      }
    }
  }

  /** A column command that may be sent goes to a bank that is open, and is late enough. */
  lemma SentLateEnough(c: Config, b: Bank, x: Sent, p: Packet, now: int)
    requires MaySend(c, b, p, now) && CountdownOk(c, b, now) && p.kind.IsColumn() && x.packet.kind.IsColumn()
    requires WaitsFor(c, b, x) && KeptApart(c.t, x, p)
    ensures DataStart(c.t, x) + c.t.Burst() <= DataStart(c.t, Sent(p, now))
  {
  }

  lemma SendKeepsApart(c: Config, banks: seq<seq<Bank>>, sent: seq<Sent>, p: Packet, now: int)
    requires Spaced(c, banks, sent, now) && Sendable(c, banks, p, now) && CountdownsOk(c, banks, now)
    ensures BurstsApart(c, sent + [Sent(p, now)])
  {
    hide WaitsFor, MaySend, DataStart, KeptApart, CountdownOk;
    var sent' := sent + [Sent(p, now)];
    var b := banks[p.rank][p.bank];
    assert MaySend(c, b, p, now) && WaitsForAll(c, b, sent) && CountdownOk(c, b, now);
    forall i, j | i < j && IsColumnAt(sent', i) && IsColumnAt(sent', j) && KeptApart(c.t, sent'[i], sent'[j].packet)
      ensures DataStart(c.t, sent'[i]) + c.t.Burst() <= DataStart(c.t, sent'[j])
    {
      assert IsColumnAt(sent, i);
      if j < |sent| { assert IsColumnAt(sent, j); } else { SentLateEnough(c, b, sent[i], p, now); }
    }
  }

  lemma SendKeepsSpacing(c: Config, banks: seq<seq<Bank>>, sent: seq<Sent>, p: Packet, now: int)
    requires c.Valid() && Spaced(c, banks, sent, now) && Sendable(c, banks, p, now) && CountdownsOk(c, banks, now)
    ensures Spaced(c, SendBanks(c, banks, p, now), sent + [Sent(p, now)], now + 1)
  {
    SendKeepsApart(c, banks, sent, p, now);
    var sent', banks' := sent + [Sent(p, now)], SendBanks(c, banks, p, now);
    assert MaySend(c, banks[p.rank][p.bank], p, now);
    hide BurstsApart, SendBank, MaySend, WaitsForAll;
    forall i | IsColumnAt(sent', i) ensures sent'[i].at < now + 1 {
      assert i < |sent| ==> IsColumnAt(sent, i);
    }
    forall r: nat, j: nat | r < |banks'| && j < |banks'[r]| ensures WaitsForAll(c, banks'[r][j], sent') {
      SendKeepsWaitingAll(c, banks[r][j], sent, p, now, r, j);
    }
  }

  // ---- the two delays are needed -----------------------------------------------------

  /** A write to an open row may follow a read to it after the read-to-write delay; it stays
      off the read's burst if and only if tRTRS is at least one. */
  lemma WriteAfterRead(c: Config, b: Bank, p: Packet, w: Packet, now: int)
    requires c.Valid() && c.policy == OpenPage && p.kind == READ && w.kind == WRITE && w.row == b.openRow
    requires Open(b) && b.nextWrite <= now + c.t.ReadToWrite()
    ensures var later := now + c.t.ReadToWrite();
            && MaySend(c, SendBank(c, b, p, now, p.rank, p.bank), w, later)
            && (DataStart(c.t, Sent(p, now)) + c.t.Burst() <= DataStart(c.t, Sent(w, later)) <==> c.t.tRTRS >= 1)
  {
  }

  /** A row opened in the cycle after a read may be written as soon as it is open; the write
      stays off the read's burst if and only if opening takes longer than a burst. */
  lemma WriteToNewRow(c: Config, b: Bank, p: Packet, a: Packet, w: Packet, now: int)
    requires c.Valid() && c.policy == OpenPage && p.kind == READ && a.kind == ACTIVATE && w.kind == WRITE && w.row == a.row
    requires b.phase == Idle && b.countdown <= 0 && b.nextActivate <= now + 1 && b.nextWrite <= now + 1 + (c.t.tRCD - c.t.AL)
    requires p.rank != a.rank
    ensures var b1 := SendBank(c, b, p, now, a.rank, a.bank);
            var later := now + 1 + (c.t.tRCD - c.t.AL);
            && MaySend(c, b1, a, now + 1)
            && MaySend(c, SendBank(c, b1, a, now + 1, a.rank, a.bank), w, later)
            && (DataStart(c.t, Sent(p, now)) + c.t.Burst() <= DataStart(c.t, Sent(w, later)) <==> c.t.tRCD - c.t.AL >= c.t.Burst() + 1)
  {
  }

  // ---- one cycle ---------------------------------------------------------------------

  ghost predicate SpacedAt(c: Config, s: System, now: int) { Spaced(c, s.mc.banks, s.log.sent, now) }

  lemma PassKeepsSpacing(c: Config, s: System)
    requires c.Valid() && Inv(c, s) && SpacedAt(c, s, s.now)
    ensures Pass(c, s).Some? && SpacedAt(c, RefreshTimer(c, Pass(c, s).value), s.now)
  {
    hide Spaced, Calm, Inv, Pass, RefreshTimer;
    PassKeeps(c, s);
    PassFrame(c, s);
    var m := Pass(c, s).value;
    InvCountdowns(c, s);
    TickIsCalm(c, s.mc.banks, s.now - 1);
    CalmKeepsSpacing(c, s.mc.banks, TickBanks(c, s.mc.banks), s.log.sent, s.now);
    MidTimer(c, m);
    TimerFrame(c, m);
  }

  lemma InvCountdowns(c: Config, s: System)
    requires Inv(c, s)
    ensures CountdownsOk(c, s.mc.banks, s.now - 1)
  {
    AgreeGivesCountdowns(c, s, s.now - 1);
  }

  lemma MidCountdowns(c: Config, s: System)
    requires Mid(c, s)
    ensures CountdownsOk(c, s.mc.banks, s.now)
  {
    AgreeGivesCountdowns(c, s, s.now);
  }

  /** When an auto-precharge ends, the row closes. */
  lemma TickIsCalm(c: Config, banks: seq<seq<Bank>>, now: int)
    requires c.Valid() && CountdownsOk(c, banks, now)
    ensures Calm(banks, TickBanks(c, banks))
  {
    var banks' := TickBanks(c, banks);
    forall r: nat, j: nat | r < |banks| && j < |banks[r]| ensures CalmBank(banks[r][j], banks'[r][j]) {
      assert CountdownOk(c, banks[r][j], now);
    }
  }

  lemma MidTimer(c: Config, m: System)
    requires Mid(c, m)
    ensures TimersOk(c, m.mc) && |m.mc.powerDown| == c.ranks == |m.ranks|
  {
  }

  /** What pop() and the controller did: nothing to the table, or one command that may be sent. */
  lemma PopSends(c: Config, s: System) returns (p: Option<Packet>)
    requires c.Valid() && Mid(c, s)
    ensures PopAndSend(c, s).Some?
    ensures var s' := PopAndSend(c, s).value;
            match p
            case None => s'.mc.banks == s.mc.banks && s'.log.sent == s.log.sent
            case Some(x) =>
              && Sendable(c, s.mc.banks, x, s.now)
              && s'.mc.banks == SendBanks(c, s.mc.banks, x, s.now) && s'.log.sent == s.log.sent + [Sent(x, s.now)]
  {
    hide PopAndSend, Decide, Commit, Chosen, Settle, Agree, BusPart, FlowPart, WindowsOk, SendBanks, Sendable, RankQueuesOk, DecisionOk;
    PopIsSend(c, s);
    var (d, q1) := Decide(c, s.mc.cq.(faw := TickFaw(s.mc.cq.faw)), s.mc.banks, s.now);
    p := None;
    if d != Wait {
      DecisionIsSendable(c, q1, s.mc.banks, ServedTable(c, s.log.sent), d, s.now);
      p := Some(Chosen(c, q1, d));
    }
  }

  lemma PopKeepsSpacing(c: Config, s: System)
    requires c.Valid() && Mid(c, s) && SpacedAt(c, s, s.now)
    ensures PopAndSend(c, s).Some? && SpacedAt(c, PopAndSend(c, s).value, s.now + 1)
  {
    hide PopAndSend, Mid, BurstsApart, WaitsForAll, Sendable, SendBanks, CountdownsOk;
    var p := PopSends(c, s);
    MidCountdowns(c, s);
    if p.Some? { SendKeepsSpacing(c, s.mc.banks, s.log.sent, p.value, s.now); }
  }

  lemma {:induction false} PowerIsCalm(c: Config, s: System, n: nat)
    requires c.Valid() && Late(c, s) && n <= c.ranks && PowerShaped(c, s)
    ensures PowerRanks(c, s, n).Some? && Calm(s.mc.banks, PowerRanks(c, s, n).value.mc.banks)
    ensures PowerRanks(c, s, n).value.log == s.log
  {
    hide Late, PowerRank;
    PowerRanksKeep(c, s, n);
    if n > 0 {
      PowerIsCalm(c, s, n - 1);
      PowerRanksKeep(c, s, n - 1);
      var s1 := PowerRanks(c, s, n - 1).value;
      LateIsShaped(c, s1);
      PowerRankFlow(c, s1, n - 1);
      PowerRankIsCalm(c, s1, n - 1);
    }
  }

  lemma PowerRankIsCalm(c: Config, s: System, i: nat)
    requires i < |s.ranks| && i < |s.mc.banks| && i < |s.mc.powerDown| && PowerRank(c, s, i).Some?
    ensures Calm(s.mc.banks, PowerRank(c, s, i).value.mc.banks)
  {
    PowerRankFlow(c, s, i);
    hide PowerRank;
  }

  lemma ActKeepsSpacing(c: Config, s: System)
    requires c.Valid() && Mid(c, s) && SpacedAt(c, s, s.now)
    ensures Act(c, s).Some? && SpacedAt(c, Act(c, s).value, s.now + 1)
  {
    hide Mid, Late, PopAndSend, SplitTransaction, PowerRanks, ReturnRead, Shaped, TableShaped, Spaced, Calm;
    MidIsShaped(c, s);
    PopKeeps(c, s);
    PopKeepsSpacing(c, s);
    var s1 := PopAndSend(c, s).value;
    LateIsShaped(c, s1);
    SplitKeeps(c, s1);
    var s2 := SplitTransaction(c, s1).value;
    SplitFrame(c, s1);
    LateIsShaped(c, s2);
    PowerRanksKeep(c, s2, c.ranks);
    PowerIsCalm(c, s2, c.ranks);
    var s3 := PowerRanks(c, s2, c.ranks).value;
    CalmKeepsSpacing(c, s2.mc.banks, s3.mc.banks, s2.log.sent, s.now + 1);
    ReturnKeeps(c, s3);
    ReturnFrame(c, s3);
  }

  lemma SplitFrame(c: Config, s: System)
    requires c.Valid() && Late(c, s) && SplitTransaction(c, s).Some?
    ensures SplitTransaction(c, s).value.mc.banks == s.mc.banks && SplitTransaction(c, s).value.log == s.log
  {
  }

  lemma CycleKeepsSpacing(c: Config, s: System)
    requires c.Valid() && Inv(c, s) && SpacedAt(c, s, s.now)
    ensures Cycle(c, s).Some? && SpacedAt(c, Cycle(c, s).value, Cycle(c, s).value.now)
  {
    hide Pass, Inv, Mid, Late, Act, RefreshTimer, Spaced;
    CycleKeeps(c, s);
    PassKeeps(c, s);
    PassKeepsSpacing(c, s);
    var m := Pass(c, s).value;
    PassGivesWindow(c, s);
    TimerKeeps(c, m);
    MidTimer(c, m);
    TimerFrame(c, m);
    var m1 := RefreshTimer(c, m);
    ActKeepsSpacing(c, m1);
    ActKeepsTime(c, m1);
  }

  lemma ActKeepsTime(c: Config, s: System)
    requires c.Valid() && Mid(c, s) && Act(c, s).Some?
    ensures Act(c, s).value.now == s.now
  {
    hide Mid, Late, PopAndSend, SplitTransaction, PowerRanks, ReturnRead, Shaped, TableShaped;
    PopKeeps(c, s);
    var s1 := PopAndSend(c, s).value;
    SplitKeeps(c, s1);
    var s2 := SplitTransaction(c, s1).value;
    LateIsShaped(c, s2);
    PowerRanksKeep(c, s2, c.ranks);
    ReturnKeeps(c, PowerRanks(c, s2, c.ranks).value);
  }

  // ---- every run ---------------------------------------------------------------------

  lemma {:induction false} RunIsSpaced(c: Config, events: seq<Event>)
    requires c.Valid() && Legal(c, events)
    ensures Run(c, events).Some? && SpacedAt(c, Run(c, events).value, Run(c, events).value.now)
  {
    hide Inv, Cycle, Spaced;
    NoErrorExit(c, events);
    if |events| == 0 {
      StartIsSpaced(c);
    } else {
      var rest := events[..|events|-1];
      NoErrorExit(c, rest);
      RunIsSpaced(c, rest);
      var s := Run(c, rest).value;
      if events[|events|-1] == Clock { CycleKeepsSpacing(c, s); }
    }
  }

  lemma StartIsSpaced(c: Config)
    ensures SpacedAt(c, Start(c), 0)
  {
  }
}
