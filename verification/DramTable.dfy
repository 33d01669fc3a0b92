/** What one cycle of a run does to the controller's bank table and to the list of sent
    commands: countdowns, at most one command the table allows, power management. */
module DramTable {
  import opened Wrappers
  import opened DramTypes
  import opened DramBanks
  import opened DramQueue
  import opened DramQueueProofs
  import opened DramCommitProofs
  import opened DramSystem
  import opened DramAgreement
  import opened DramTheorems
  import opened DramDataBus

  ghost predicate AllDown(row: seq<Bank>) {
    forall j :: 0 <= j < |row| ==> row[j].phase == PowerDown
  }

  ghost predicate MayWake(row: seq<Bank>, now: int) {
    forall j :: 0 <= j < |row| ==> row[j].nextPowerUp <= now
  }

  /** Power management of one rank: nothing, down from idle, or up again in time. */
  ghost predicate PowerStep(c: Config, row: seq<Bank>, row': seq<Bank>, now: int) {
    || row' == row
    || (c.lowPower && AllIdle(row) && row' == PowerDownRow(c, row, now))
    || (c.lowPower && AllDown(row) && MayWake(row, now) && row' == PowerUpRow(c, row, now))
  }

  ghost predicate PowerSteps(c: Config, banks: seq<seq<Bank>>, banks': seq<seq<Bank>>, now: int) {
    |banks'| == |banks| && forall r :: 0 <= r < |banks| ==> PowerStep(c, banks[r], banks'[r], now)
  }

  /** The banks of a rank are powered down all together. */
  ghost predicate DownTogether(row: seq<Bank>) {
    forall j, k :: 0 <= j < |row| && 0 <= k < |row| && row[j].phase == PowerDown ==> row[k].phase == PowerDown
  }

  ghost predicate TableOk(c: Config, banks: seq<seq<Bank>>, now: int) {
    && TableShaped(c, banks) && CountdownsOk(c, banks, now)
    && forall r :: 0 <= r < |banks| ==> DownTogether(banks[r])
  }

  lemma AgreeGivesTable(c: Config, s: System, now: int)
    requires AgreePart(c, s, now) && TableShaped(c, s.mc.banks)
    ensures TableOk(c, s.mc.banks, now)
  {
    AgreeGivesCountdowns(c, s, now);
    hide AgreePart;
  }

  lemma InvGivesTable(c: Config, s: System)
    requires Inv(c, s)
    ensures TableOk(c, s.mc.banks, s.now - 1)
  {
    AgreeGivesTable(c, s, s.now - 1);
  }

  lemma MidGivesTable(c: Config, s: System)
    requires Mid(c, s)
    ensures TableOk(c, s.mc.banks, s.now)
  {
    AgreeGivesTable(c, s, s.now);
  }

  /** One rank's power management. */
  lemma PowerRankStep(c: Config, s: System, i: nat)
    requires c.Valid() && Late(c, s) && i < c.ranks && PowerShaped(c, s) && PowerRank(c, s, i).Some?
    ensures var s' := PowerRank(c, s, i).value;
            && PowerStep(c, s.mc.banks[i], s'.mc.banks[i], s.now)
            && s'.mc.banks == s.mc.banks[i := s'.mc.banks[i]] && s'.log == s.log
  {
    RankDown(c, s, i);
    LateIsShaped(c, s);
    hide Late, AgreePart, QueueEmpty;
  }

  lemma RankDown(c: Config, s: System, i: nat)
    requires Late(c, s) && i < c.ranks
    ensures |s.mc.banks| == |s.mc.powerDown| == c.ranks
    ensures s.mc.powerDown[i] && |s.mc.banks[i]| > 0 && s.now >= s.mc.banks[i][0].nextPowerUp ==>
              AllDown(s.mc.banks[i]) && MayWake(s.mc.banks[i], s.now)
  {
    assert RankAgrees(c, s.mc.banks[i], Arrived(c, s.ranks[i], i, s.mc.cmd, s.now + 1), s.mc.powerDown[i], s.now);
  }

  lemma {:induction false} PowerRanksSteps(c: Config, s: System, n: nat)
    requires c.Valid() && Late(c, s) && n <= c.ranks && PowerShaped(c, s)
    ensures PowerRanks(c, s, n).Some?
    ensures var b, b' := s.mc.banks, PowerRanks(c, s, n).value.mc.banks;
            && |b'| == |b| && (forall r :: n <= r < |b| ==> b'[r] == b[r])
            && (forall r :: 0 <= r < n ==> PowerStep(c, b[r], b'[r], s.now))
    ensures PowerRanks(c, s, n).value.log == s.log
  {
    hide Late, PowerRank, PowerStep;
    PowerRanksKeep(c, s, n);
    if n > 0 {
      PowerRanksSteps(c, s, n - 1);
      PowerRanksKeep(c, s, n - 1);
      var s1 := PowerRanks(c, s, n - 1).value;
      LateIsShaped(c, s1);
      PowerRankStep(c, s1, n - 1);
    }
  }

  /** The table after the command `p`, if any. */
  function Commanded(c: Config, banks: seq<seq<Bank>>, p: Option<Packet>, now: int): seq<seq<Bank>> {
    if p.Some? then SendBanks(c, banks, p.value, now) else banks
  }

  function Logged(p: Option<Packet>, now: int): seq<Sent> {
    if p.Some? then [Sent(p.value, now)] else []
  }

  lemma ActOnTable(c: Config, s: System) returns (p: Option<Packet>)
    requires c.Valid() && Mid(c, s)
    ensures Act(c, s).Some?
    ensures p.Some? ==> Sendable(c, s.mc.banks, p.value, s.now)
    ensures var s' := Act(c, s).value;
            && PowerSteps(c, Commanded(c, s.mc.banks, p, s.now), s'.mc.banks, s.now)
            && s'.log.sent == s.log.sent + Logged(p, s.now)
            && s'.now == s.now
    ensures PopAndSend(c, s).Some? && PopAndSend(c, s).value.log.sent == s.log.sent + Logged(p, s.now)
  {
    hide Mid, Late, PopAndSend, SplitTransaction, PowerRanks, ReturnRead, Shaped, TableShaped, PowerStep, Sendable;
    MidIsShaped(c, s);
    PopKeeps(c, s);
    p := PopSends(c, s);
    var s1 := PopAndSend(c, s).value;
    assert s1.log.sent == s.log.sent + Logged(p, s.now);
    LateIsShaped(c, s1);
    SplitKeeps(c, s1);
    var s2 := SplitTransaction(c, s1).value;
    SplitFrame(c, s1);
    LateIsShaped(c, s2);
    PowerRanksKeep(c, s2, c.ranks);
    PowerRanksSteps(c, s2, c.ranks);
    var s3 := PowerRanks(c, s2, c.ranks).value;
    ReturnKeeps(c, s3);
    ReturnFrame(c, s3);
  }

  /** The state in which the next cycle asks for a command: time has passed, the command under
      way has arrived, the refresh timer has been looked at. */
  ghost function Middle(c: Config, s: System): (m: System)
    requires c.Valid() && Inv(c, s)
    ensures Mid(c, m) && m.now == s.now && m.mc.banks == TickBanks(c, s.mc.banks)
    ensures m.log.sent == s.log.sent && m.log.accepted == s.log.accepted && m.log.returned == s.log.returned
    ensures m.mc.transactions == s.mc.transactions && m.mc.cq.queues == s.mc.cq.queues
    ensures m.mc.cq.accesses == s.mc.cq.accesses && m.mc.cq.faw == s.mc.cq.faw
  {
    MiddleHolds(c, s);
    RefreshTimer(c, Pass(c, s).value)
  }

  lemma MiddleHolds(c: Config, s: System)
    requires c.Valid() && Inv(c, s)
    ensures Pass(c, s).Some?
    ensures var m := RefreshTimer(c, Pass(c, s).value);
            && Mid(c, m) && m.now == s.now && m.mc.banks == TickBanks(c, s.mc.banks)
            && m.log.sent == s.log.sent && m.log.accepted == s.log.accepted && m.log.returned == s.log.returned
            && m.mc.transactions == s.mc.transactions && m.mc.cq.queues == s.mc.cq.queues
            && m.mc.cq.accesses == s.mc.cq.accesses && m.mc.cq.faw == s.mc.cq.faw
  {
    hide Pass, Inv, RefreshTimer, Mid;
    PassKeeps(c, s);
    PassFrame(c, s);
    var m := Pass(c, s).value;
    MidTimer(c, m);
    TimerFrame(c, m);
    TimerKeeps(c, m);
  }

  lemma CycleIsAct(c: Config, s: System)
    requires c.Valid() && Inv(c, s)
    ensures Act(c, Middle(c, s)).Some? && Cycle(c, s) == Some(EndCycle(c, Act(c, Middle(c, s)).value))
  {
    hide Pass, Inv, RefreshTimer, Mid, Act;
    MiddleHolds(c, s);
    CycleKeeps(c, s);
  }

  /** One cycle, seen on the table and the list of sent commands. */
  lemma CycleOnTable(c: Config, s: System) returns (p: Option<Packet>)
    requires c.Valid() && Inv(c, s)
    ensures Cycle(c, s).Some?
    ensures var b, b' := TickBanks(c, s.mc.banks), Cycle(c, s).value.mc.banks;
            && TableOk(c, s.mc.banks, s.now - 1) && TableOk(c, b, s.now)
            && (p.Some? ==> Sendable(c, b, p.value, s.now))
            && PowerSteps(c, Commanded(c, b, p, s.now), b', s.now)
    ensures Cycle(c, s).value.log.sent == s.log.sent + Logged(p, s.now) && Cycle(c, s).value.now == s.now + 1
    ensures PopAndSend(c, Middle(c, s)).Some? && PopAndSend(c, Middle(c, s)).value.log.sent == s.log.sent + Logged(p, s.now)
  {
    hide Pass, Inv, RefreshTimer, Mid, Act, TableOk, PopAndSend, Sendable, PowerSteps, Commanded;
    CycleIsAct(c, s);
    MiddleHolds(c, s);
    var m := Middle(c, s);
    p := ActOnTable(c, m);
    InvGivesTable(c, s);
    MidGivesTable(c, m);
  }
}
