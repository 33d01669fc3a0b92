/** Controller and ranks agree in every reachable state, with at most one command under
    way between them. */
module DramAgreement {
  import opened Wrappers
  import opened DramTypes
  import opened DramBanks
  import opened DramQueue
  import opened DramSystem

  /** Rank `r`'s table once the command under way has reached it. */
  function Arrived(c: Config, r: RankState, i: nat, cmd: Option<Packet>, at: int): seq<Bank> {
    if cmd.Some? && cmd.value.rank == i then TakeBanks(c, r.banks, cmd.value, at) else r.banks
  }

  ghost predicate CommandOk(c: Config, ranks: seq<RankState>, cmd: Option<Packet>, at: int) {
    cmd.Some? ==>
      var p := cmd.value;
      p.rank < |ranks| && p.bank < c.banks && p.kind != DATA && Accepts(ranks[p.rank].banks, p, at)
  }

  /** At the end of cycle `now`: the command under way (if any) will be taken at `now + 1`,
      and every rank, with that command applied, agrees with the controller. */
  ghost predicate Agree(c: Config, banks: seq<seq<Bank>>, ranks: seq<RankState>, cmd: Option<Packet>, down: seq<bool>, now: int) {
    && |banks| == |ranks| == |down| == c.ranks
    && CommandOk(c, ranks, cmd, now + 1)
    && (forall r :: 0 <= r < c.ranks ==>
          && RankAgrees(c, banks[r], Arrived(c, ranks[r], r, cmd, now + 1), down[r], now)
          && ranks[r].isPowerDown == down[r])
  }

  /** The bank the command under way addresses is in use, so its rank is not powered down
      over it. */
  ghost predicate CommandBusy(banks: seq<seq<Bank>>, cmd: Option<Packet>) {
    cmd.Some? ==>
      && cmd.value.rank < |banks| && cmd.value.bank < |banks[cmd.value.rank]|
      && banks[cmd.value.rank][cmd.value.bank].phase != Idle
      && banks[cmd.value.rank][cmd.value.bank].phase != PowerDown
  }

  ghost predicate SameTables(ranks: seq<RankState>, ranks': seq<RankState>) {
    |ranks| == |ranks'| && forall r :: 0 <= r < |ranks| ==>
      ranks[r].banks == ranks'[r].banks && ranks[r].isPowerDown == ranks'[r].isPowerDown
  }

  lemma SameTablesAgree(c: Config, banks: seq<seq<Bank>>, ranks: seq<RankState>, ranks': seq<RankState>,
                        cmd: Option<Packet>, down: seq<bool>, now: int)
    requires Agree(c, banks, ranks, cmd, down, now) && SameTables(ranks, ranks')
    ensures Agree(c, banks, ranks', cmd, down, now)
  {
  }

  /** The next cycle's countdowns, with the command still under way. */
  lemma TickKeepsAgreement(c: Config, banks: seq<seq<Bank>>, ranks: seq<RankState>, cmd: Option<Packet>, down: seq<bool>, now: int, r: nat)
    requires c.Valid() && Agree(c, banks, ranks, cmd, down, now - 1)
    requires r < c.ranks
    ensures RankAgrees(c, TickBanks(c, banks)[r], Arrived(c, ranks[r], r, cmd, now), down[r], now)
  {
    TickKeepsRank(c, banks[r], Arrived(c, ranks[r], r, cmd, now), down[r], now - 1);
  }

  /** Countdowns, then delivery: no rank refuses, and nothing is under way any more. */
  lemma DeliverKeepsAgreement(c: Config, s: System)
    requires c.Valid() && Agree(c, s.mc.banks, s.ranks, s.mc.cmd, s.mc.powerDown, s.now - 1)
    requires s.mc.cmd.Some? ==> s.mc.cmdLeft == 1
    ensures var d := DeliverCommand(c, TickTable(c, s));
            && d.Some?
            && d.value.mc.cmd == None
            && Agree(c, d.value.mc.banks, d.value.ranks, None, d.value.mc.powerDown, s.now)
  {
    var d := DeliverCommand(c, TickTable(c, s));
    forall r | 0 <= r < c.ranks
      ensures RankAgrees(c, TickBanks(c, s.mc.banks)[r], d.value.ranks[r].banks, s.mc.powerDown[r], s.now)
      ensures d.value.ranks[r].isPowerDown == s.mc.powerDown[r]
    {
      TickKeepsAgreement(c, s.mc.banks, s.ranks, s.mc.cmd, s.mc.powerDown, s.now, r);
    }
  }

  /** Sending a command the controller's table allows. */
  lemma SendKeepsAgreement(c: Config, banks: seq<seq<Bank>>, ranks: seq<RankState>, down: seq<bool>, p: Packet, now: int)
    requires c.Valid() && Agree(c, banks, ranks, None, down, now)
    requires Sendable(c, banks, p, now)
    ensures Agree(c, SendBanks(c, banks, p, now), ranks, Some(p), down, now)
    ensures CommandBusy(SendBanks(c, banks, p, now), Some(p))
  {
    assert MaySend(c, banks[p.rank][p.bank], p, now);
    SendIsAccepted(c, banks[p.rank], ranks[p.rank].banks, down[p.rank], p, now);
    forall r | 0 <= r < c.ranks
      ensures RankAgrees(c, SendBanks(c, banks, p, now)[r], Arrived(c, ranks[r], r, Some(p), now + 1), down[r], now)
    {
      SendKeepsRank(c, banks[r], ranks[r].banks, down[r], p, now, r);
    }
  }

  // ---- power -------------------------------------------------------------------------

  lemma PowerDownAgrees(c: Config, ms: seq<Bank>, rs: seq<Bank>, down: bool, now: int)
    requires RankAgrees(c, ms, rs, down, now) && AllIdle(ms)
    ensures AllIdle(rs)
    ensures RankAgrees(c, PowerDownRow(c, ms, now), PowerDownRow(c, rs, now), true, now)
  {
    forall j | 0 <= j < |ms|
      ensures rs[j].phase == Idle
      ensures BankAgrees(c, PowerDownBank(c, ms[j], now), PowerDownBank(c, rs[j], now), now)
    {
      assert BankAgrees(c, ms[j], rs[j], now);
    }
  }

  lemma PowerUpAgrees(c: Config, ms: seq<Bank>, rs: seq<Bank>, now: int)
    requires c.Valid() && RankAgrees(c, ms, rs, true, now)
    requires ms[0].nextPowerUp <= now
    ensures forall j :: 0 <= j < |rs| ==> rs[j].nextPowerUp <= now
    ensures RankAgrees(c, PowerUpRow(c, ms, now), PowerUpRow(c, rs, now), false, now)
  {
    forall j | 0 <= j < |ms|
      ensures rs[j].nextPowerUp <= now
      ensures BankAgrees(c, PowerUpBank(c, ms[j], now), PowerUpBank(c, rs[j], now), now)
    {
      assert BankAgrees(c, ms[j], rs[j], now) && ms[j].nextPowerUp == ms[0].nextPowerUp;
    }
  }

  /** Powering rank `i` down or up never fails and keeps the agreement. */
  lemma PowerKeepsAgreement(c: Config, s: System, i: nat)
    requires c.Valid() && i < c.ranks && PowerShaped(c, s)
    requires Agree(c, s.mc.banks, s.ranks, s.mc.cmd, s.mc.powerDown, s.now)
    requires CommandBusy(s.mc.banks, s.mc.cmd)
    ensures var r := PowerRank(c, s, i);
            && r.Some?
            && Agree(c, r.value.mc.banks, r.value.ranks, s.mc.cmd, r.value.mc.powerDown, s.now)
            && CommandBusy(r.value.mc.banks, s.mc.cmd)
            && r.value == s.(ranks := r.value.ranks, mc := s.mc.(banks := r.value.mc.banks, powerDown := r.value.mc.powerDown))
  {
    var row, rs := s.mc.banks[i], s.ranks[i].banks;
    assert RankAgrees(c, row, Arrived(c, s.ranks[i], i, s.mc.cmd, s.now + 1), s.mc.powerDown[i], s.now);
    if c.lowPower && QueueEmpty(s.mc.cq, i) && !s.ranks[i].refreshWaiting && AllIdle(row) {
      PowerDownAgrees(c, row, rs, s.mc.powerDown[i], s.now);
    } else if c.lowPower && !(QueueEmpty(s.mc.cq, i) && !s.ranks[i].refreshWaiting)
           && s.now >= row[0].nextPowerUp && s.mc.powerDown[i] {
      PowerUpAgrees(c, row, rs, s.now);
    }
  }
}
