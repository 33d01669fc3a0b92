/** The bank table delays no command longer than the raw distances to the commands already sent:
    once all of them have passed, the bank allows the command. */
module DramLimits {
  import opened Wrappers
  import opened DramTypes
  import opened DramBanks
  import opened DramQueue
  import opened DramCommitProofs
  import opened DramSystem
  import opened DramTheorems
  import opened DramPromises
  import opened DramTable
  import opened DramGaps
  import opened DramDistances

  /** The four limits of a bank. */
  datatype Limit = ToPrecharge | ToActivate | ToRead | ToWrite

  function LimitOf(b: Bank, w: Limit): int {
    match w
    case ToPrecharge => b.nextPrecharge
    case ToActivate => b.nextActivate
    case ToRead => b.nextRead
    case ToWrite => b.nextWrite
  }

  /** The command `p` has a say in this limit of bank (r, j). */
  predicate Binds(w: Limit, p: Packet, r: nat, j: nat) {
    match w
    case ToPrecharge => p.rank == r && p.bank == j && (p.kind == ACTIVATE || p.kind == READ || p.kind == WRITE)
    case ToActivate => p.rank == r && Closing(p, j)
    case _ => p.kind.IsColumn() || (p.rank == r && p.bank == j && p.kind == ACTIVATE)
  }

  /** Its distance, in raw parameters. */
  function GapTo(t: Timing, w: Limit, p: Packet, r: nat, j: nat): int {
    match w
    case ToPrecharge => PrechargeGap(t, p.kind)
    case ToActivate => ActivateGap(t, p, j)
    case _ =>
      if p.kind == ACTIVATE then t.tRCD - t.AL
      else if p.rank == r then ColumnGap(t, p.kind.IsRead(), w == ToRead)
      else OtherRankGap(t, p.kind.IsRead(), w == ToRead)
  }

  predicate DueTo(t: Timing, w: Limit, v: int, x: Sent, r: nat, j: nat) {
    Binds(w, x.packet, r, j) && v <= x.at + GapTo(t, w, x.packet, r, j)
  }

  /** The time `v` is no later than some command sent demands. */
  ghost predicate Due(t: Timing, w: Limit, v: int, sent: seq<Sent>, r: nat, j: nat) {
    v <= 0 || exists i :: 0 <= i < |sent| && DueTo(t, w, v, sent[i], r, j)
  }

  // ---- a closed bank is idle again in time ---------------------------------------------------

  /** Cycles from `p` until the precharge or refresh it starts is over. */
  function ClosingTime(t: Timing, p: Packet): int {
    match p.kind
    case READ_P => ReadRecovery(t) + t.tRP
    case WRITE_P => WriteRecovery(t) + t.tRP
    case PRECHARGE => t.tRP
    case _ => t.tRFC
  }

  /** `p` closes bank (r, j). */
  predicate StartsClosing(p: Packet, r: nat, j: nat) {
    p.rank == r && (p.kind == REFRESH || (p.bank == j && (p.kind.IsAuto() || p.kind == PRECHARGE)))
  }

  predicate ClosedBy(t: Timing, end: int, x: Sent, r: nat, j: nat) {
    StartsClosing(x.packet, r, j) && end <= x.at + ClosingTime(t, x.packet)
  }

  /** When the bank's countdown, and a precharge that follows it, will be over. */
  function EndOf(t: Timing, b: Bank, now: int): int {
    now + b.countdown + (if b.phase == RowActive then t.tRP else 0)
  }

  predicate InTransit(b: Bank) { Pending(b) || b.phase == Precharging || b.phase == Refreshing }

  /** A bank in transit was closed by a command whose time is not over. */
  ghost predicate TransitDue(c: Config, b: Bank, sent: seq<Sent>, r: nat, j: nat, now: int) {
    InTransit(b) ==>
      && b.countdown >= 1
      && exists i :: 0 <= i < |sent| && ClosedBy(c.t, EndOf(c.t, b, now), sent[i], r, j)
  }

  lemma TickKeepsTransit(c: Config, b: Bank, sent: seq<Sent>, r: nat, j: nat, now: int)
    requires c.t.tRP >= 1 && CountdownOk(c, b, now) && TransitDue(c, b, sent, r, j, now)
    ensures TransitDue(c, TickBank(c, b), sent, r, j, now + 1)
  {
    hide ClosingTime, StartsClosing;
    if InTransit(b) {
      var i :| 0 <= i < |sent| && ClosedBy(c.t, EndOf(c.t, b, now), sent[i], r, j);
      assert InTransit(TickBank(c, b)) ==> ClosedBy(c.t, EndOf(c.t, TickBank(c, b), now + 1), sent[i], r, j);
    }
  }

  /** A command either leaves the bank's phase and countdown or closes it itself. */
  lemma SendSetsTransit(c: Config, b: Bank, p: Packet, now: int, r: nat, j: nat)
    requires c.Valid() && c.t.tRP >= 1 && c.t.tRFC >= 1 && p.kind != DATA && CountdownOk(c, b, now)
    requires Addressed(p, r, j) ==> MaySend(c, b, p, now)
    ensures var b' := SendBank(c, b, p, now, r, j);
            InTransit(b') ==>
              || (b'.phase == b.phase && b'.countdown == b.countdown)
              || (b'.countdown >= 1 && ClosedBy(c.t, EndOf(c.t, b', now), Sent(p, now), r, j))
  {
  }

  lemma SendKeepsTransit(c: Config, b: Bank, sent: seq<Sent>, p: Packet, now: int, r: nat, j: nat)
    requires c.Valid() && c.t.tRP >= 1 && c.t.tRFC >= 1 && p.kind != DATA && CountdownOk(c, b, now)
    requires (Addressed(p, r, j) ==> MaySend(c, b, p, now)) && TransitDue(c, b, sent, r, j, now)
    ensures TransitDue(c, SendBank(c, b, p, now, r, j), sent + [Sent(p, now)], r, j, now)
  {
    SendSetsTransit(c, b, p, now, r, j);
    hide SendBank, ClosedBy, MaySend, CountdownOk;
    var b', sent' := SendBank(c, b, p, now, r, j), sent + [Sent(p, now)];
    if InTransit(b') {
      if b'.phase == b.phase && b'.countdown == b.countdown {
        var i :| 0 <= i < |sent| && ClosedBy(c.t, EndOf(c.t, b, now), sent[i], r, j);
        assert sent'[i] == sent[i];
      } else {
        assert sent'[|sent|] == Sent(p, now);
      }
    }
  }

  lemma PowerKeepsTransit(c: Config, row: seq<Bank>, row': seq<Bank>, sent: seq<Sent>, r: nat, j: nat, now: int)
    requires PowerStep(c, row, row', now) && j < |row| && TransitDue(c, row[j], sent, r, j, now)
    ensures |row'| == |row| && TransitDue(c, row'[j], sent, r, j, now)
  {
    hide ClosedBy;
  }
  // ---- all that a bank's entry waits for ------------------------------------------------------

  /** A closed row's column limits may also come from what keeps the row closed. */
  ghost predicate LimitsDue(c: Config, b: Bank, sent: seq<Sent>, r: nat, j: nat, now: int) {
    && Due(c.t, ToPrecharge, b.nextPrecharge, sent, r, j)
    && (Due(c.t, ToActivate, b.nextActivate, sent, r, j) || (c.lowPower && b.phase != RowActive && b.nextActivate <= now + c.t.tXP))
    && ColumnDue(c, b, ToRead, sent, r, j)
    && ColumnDue(c, b, ToWrite, sent, r, j)
    && (c.t.tRP >= 1 && c.t.tRFC >= 1 ==> TransitDue(c, b, sent, r, j, now))
  }

  ghost predicate ColumnDue(c: Config, b: Bank, w: Limit, sent: seq<Sent>, r: nat, j: nat) {
    || Due(c.t, w, LimitOf(b, w), sent, r, j)
    || ((!Open(b) || c.lowPower) && Due(c.t, ToActivate, LimitOf(b, w), sent, r, j)
        && (!c.lowPower ==> LimitOf(b, w) <= b.nextActivate))
  }

  lemma DueStays(t: Timing, w: Limit, v: int, v': int, sent: seq<Sent>, x: Sent, r: nat, j: nat)
    requires v' <= v && Due(t, w, v, sent, r, j)
    ensures Due(t, w, v', sent + [x], r, j)
  {
    var sent' := sent + [x];
    if v > 0 {
      var i :| 0 <= i < |sent| && DueTo(t, w, v, sent[i], r, j);
      assert sent'[i] == sent[i] && DueTo(t, w, v', sent'[i], r, j);
    }
  }

  lemma DueNow(t: Timing, w: Limit, v: int, sent: seq<Sent>, x: Sent, r: nat, j: nat)
    requires DueTo(t, w, v, x, r, j)
    ensures Due(t, w, v, sent + [x], r, j)
  {
    assert (sent + [x])[|sent|] == x;
  }

  /** A limit that the new command has not set stays; one it has set is due to it. */
  lemma StaysOrNow(t: Timing, w: Limit, v: int, v': int, sent: seq<Sent>, x: Sent, r: nat, j: nat)
    requires Due(t, w, v, sent, r, j)
    requires v' <= v || DueTo(t, w, v', x, r, j)
    ensures Due(t, w, v', sent + [x], r, j)
  {
    hide Due, DueTo;
    if v' <= v { DueStays(t, w, v, v', sent, x, r, j); } else { DueNow(t, w, v', sent, x, r, j); }
  }

  /** What one command does to the four limits of any bank. */
  lemma SendSetsLimits(c: Config, b: Bank, p: Packet, now: int, r: nat, j: nat)
    requires c.Valid() && p.kind != DATA && (Addressed(p, r, j) ==> MaySend(c, b, p, now))
    ensures var b', x := SendBank(c, b, p, now, r, j), Sent(p, now);
            && (b'.nextPrecharge <= b.nextPrecharge || DueTo(c.t, ToPrecharge, b'.nextPrecharge, x, r, j))
            && (b'.nextActivate <= b.nextActivate || DueTo(c.t, ToActivate, b'.nextActivate, x, r, j))
            && (b'.phase == RowActive && b.phase != RowActive ==> DueTo(c.t, ToActivate, b'.nextActivate, x, r, j))
  {
  }

  lemma SendSetsColumn(c: Config, b: Bank, p: Packet, now: int, r: nat, j: nat, w: Limit)
    requires c.Valid() && p.kind != DATA && (Addressed(p, r, j) ==> MaySend(c, b, p, now)) && (w == ToRead || w == ToWrite)
    ensures var b', x := SendBank(c, b, p, now, r, j), Sent(p, now);
            || LimitOf(b', w) <= LimitOf(b, w)
            || DueTo(c.t, w, LimitOf(b', w), x, r, j)
            || (!Open(b') && p.rank == r && p.bank == j && p.kind.IsAuto() && LimitOf(b', w) == b'.nextActivate)
  {
  }

  lemma SendKeepsColumnDue(c: Config, b: Bank, sent: seq<Sent>, p: Packet, now: int, r: nat, j: nat, w: Limit)
    requires c.Valid() && p.kind != DATA && (Addressed(p, r, j) ==> MaySend(c, b, p, now)) && (w == ToRead || w == ToWrite)
    requires ColumnDue(c, b, w, sent, r, j)
    requires Due(c.t, ToActivate, SendBank(c, b, p, now, r, j).nextActivate, sent + [Sent(p, now)], r, j) || b.phase != RowActive
    ensures ColumnDue(c, SendBank(c, b, p, now, r, j), w, sent + [Sent(p, now)], r, j)
  {
    hide Due, DueTo, SendBank;
    var b', x := SendBank(c, b, p, now, r, j), Sent(p, now);
    var v, v' := LimitOf(b, w), LimitOf(b', w);
    SendSetsColumn(c, b, p, now, r, j, w);
    if DueTo(c.t, w, v', x, r, j) {
      DueNow(c.t, w, v', sent, x, r, j);
    } else if v' <= v {
      if Due(c.t, w, v, sent, r, j) {
        DueStays(c.t, w, v, v', sent, x, r, j);
      } else {
        DueStays(c.t, ToActivate, v, v', sent, x, r, j);
        ClosedStaysLate(c, b, p, now, r, j, w);
      }
    }
    AutoTarget(c, b, p, now, r, j);
  }

  /** The bank an auto-precharge command addresses is open. */
  lemma AutoTarget(c: Config, b: Bank, p: Packet, now: int, r: nat, j: nat)
    requires Addressed(p, r, j) ==> MaySend(c, b, p, now)
    ensures p.rank == r && p.bank == j && p.kind.IsAuto() ==> b.phase == RowActive
  {
  }

  /** A closed row whose limit its next ACTIVATE covers is still closed, or is due to that
      ACTIVATE. */
  lemma ClosedStaysLate(c: Config, b: Bank, p: Packet, now: int, r: nat, j: nat, w: Limit)
    requires c.Valid() && p.kind != DATA && (Addressed(p, r, j) ==> MaySend(c, b, p, now)) && (w == ToRead || w == ToWrite)
    ensures var b' := SendBank(c, b, p, now, r, j);
            && (!Open(b) && Open(b') && LimitOf(b, w) <= b.nextActivate ==> DueTo(c.t, w, LimitOf(b', w), Sent(p, now), r, j))
            && b'.nextActivate >= b.nextActivate
            && (LimitOf(b', w) <= LimitOf(b, w) && LimitOf(b, w) <= b.nextActivate ==> LimitOf(b', w) <= b'.nextActivate)
  {
  }

  lemma SendKeepsDue(c: Config, b: Bank, sent: seq<Sent>, p: Packet, now: int, r: nat, j: nat)
    requires c.Valid() && p.kind != DATA && (Addressed(p, r, j) ==> MaySend(c, b, p, now))
    requires LimitsDue(c, b, sent, r, j, now) && CountdownOk(c, b, now)
    ensures LimitsDue(c, SendBank(c, b, p, now, r, j), sent + [Sent(p, now)], r, j, now)
  {
    hide Due, DueTo, ColumnDue, TransitDue;
    var b', x := SendBank(c, b, p, now, r, j), Sent(p, now);
    if c.t.tRP >= 1 && c.t.tRFC >= 1 { SendKeepsTransit(c, b, sent, p, now, r, j); }
    SendSetsLimits(c, b, p, now, r, j);
    hide SendBank, MaySend;
    StaysOrNow(c.t, ToPrecharge, b.nextPrecharge, b'.nextPrecharge, sent, x, r, j);
    if DueTo(c.t, ToActivate, b'.nextActivate, x, r, j) {
      DueNow(c.t, ToActivate, b'.nextActivate, sent, x, r, j);
    } else if Due(c.t, ToActivate, b.nextActivate, sent, r, j) {
      DueStays(c.t, ToActivate, b.nextActivate, b'.nextActivate, sent, x, r, j);
    }
    SendKeepsColumnDue(c, b, sent, p, now, r, j, ToRead);
    SendKeepsColumnDue(c, b, sent, p, now, r, j, ToWrite);
  }

  lemma TickKeepsDue(c: Config, b: Bank, sent: seq<Sent>, r: nat, j: nat, now: int)
    requires CountdownOk(c, b, now) && LimitsDue(c, b, sent, r, j, now)
    ensures LimitsDue(c, TickBank(c, b), sent, r, j, now + 1)
  {
    hide Due, TransitDue;
    if c.t.tRP >= 1 && c.t.tRFC >= 1 { TickKeepsTransit(c, b, sent, r, j, now); }
  }

  lemma PowerKeepsDue(c: Config, row: seq<Bank>, row': seq<Bank>, sent: seq<Sent>, r: nat, j: nat, now: int)
    requires PowerStep(c, row, row', now) && j < |row| && LimitsDue(c, row[j], sent, r, j, now)
    ensures |row'| == |row| && LimitsDue(c, row'[j], sent, r, j, now)
  {
    hide Due, TransitDue;
    if c.t.tRP >= 1 && c.t.tRFC >= 1 { PowerKeepsTransit(c, row, row', sent, r, j, now); }
  }

  // ---- every run ---------------------------------------------------------------------------

  ghost predicate AllDue(c: Config, banks: seq<seq<Bank>>, sent: seq<Sent>, now: int) {
    forall r: nat, j: nat :: r < |banks| && j < |banks[r]| ==> LimitsDue(c, banks[r][j], sent, r, j, now)
  }

  lemma TickKeepsAllDue(c: Config, banks: seq<seq<Bank>>, sent: seq<Sent>, now: int)
    requires TableOk(c, banks, now) && AllDue(c, banks, sent, now)
    ensures AllDue(c, TickBanks(c, banks), sent, now + 1)
  {
    hide LimitsDue, TickBank, DownTogether, CountdownOk;
    var b := TickBanks(c, banks);
    forall r: nat, j: nat | r < |b| && j < |b[r]| ensures LimitsDue(c, b[r][j], sent, r, j, now + 1) {
      assert b[r][j] == TickBank(c, banks[r][j]) && LimitsDue(c, banks[r][j], sent, r, j, now);
      TickKeepsDue(c, banks[r][j], sent, r, j, now);
    }
  }

  lemma SendKeepsAllDue(c: Config, banks: seq<seq<Bank>>, sent: seq<Sent>, p: Packet, now: int)
    requires c.Valid() && Sendable(c, banks, p, now) && TableOk(c, banks, now) && AllDue(c, banks, sent, now)
    ensures AllDue(c, SendBanks(c, banks, p, now), sent + [Sent(p, now)], now)
  {
    hide LimitsDue, SendBank, SendableTo, Addressed, CountdownOk, DownTogether;
    var b := SendBanks(c, banks, p, now);
    SendableHere(c, banks[p.rank], p, now, p.bank) by { PacketFits(c, banks[p.rank], p, now); }
    forall r: nat, j: nat | r < |b| && j < |b[r]| ensures LimitsDue(c, b[r][j], sent + [Sent(p, now)], r, j, now) {
      assert b[r][j] == SendBank(c, banks[r][j], p, now, r, j) && LimitsDue(c, banks[r][j], sent, r, j, now);
      if r == p.rank { SendableHere(c, banks[r], p, now, j); } else { NotAddressed(p, r, j); }
      SendKeepsDue(c, banks[r][j], sent, p, now, r, j);
    }
  }

  lemma NotAddressed(p: Packet, r: nat, j: nat)
    requires r != p.rank
    ensures !Addressed(p, r, j)
  {
  }

  lemma PowerKeepsAllDue(c: Config, banks: seq<seq<Bank>>, banks': seq<seq<Bank>>, sent: seq<Sent>, now: int)
    requires PowerSteps(c, banks, banks', now) && AllDue(c, banks, sent, now)
    ensures AllDue(c, banks', sent, now)
  {
    hide LimitsDue, PowerStep;
    forall r: nat, j: nat | r < |banks'| && j < |banks'[r]| ensures LimitsDue(c, banks'[r][j], sent, r, j, now) {
      assert PowerStep(c, banks[r], banks'[r], now);
      PowerLength(c, banks[r], banks'[r], now);
      PowerKeepsDue(c, banks[r], banks'[r], sent, r, j, now);
    }
  }

  lemma PowerLength(c: Config, row: seq<Bank>, row': seq<Bank>, now: int)
    requires PowerStep(c, row, row', now)
    ensures |row'| == |row|
  {
  }

  lemma CycleKeepsAllDue(c: Config, s: System)
    requires c.Valid() && Inv(c, s) && AllDue(c, s.mc.banks, s.log.sent, s.now - 1)
    ensures Cycle(c, s).Some?
    ensures var s' := Cycle(c, s).value; AllDue(c, s'.mc.banks, s'.log.sent, s'.now - 1)
  {
    hide Cycle, Inv, Middle, TableOk, Sendable, LimitsDue, PowerSteps, SendBanks, TickBanks, PopAndSend, AllDue;
    var p := CycleOnTable(c, s);
    var b := TickBanks(c, s.mc.banks);
    TickKeepsAllDue(c, s.mc.banks, s.log.sent, s.now - 1);
    if p.Some? { SendKeepsAllDue(c, b, s.log.sent, p.value, s.now); }
    assert s.log.sent + [] == s.log.sent;
    PowerKeepsAllDue(c, Commanded(c, b, p, s.now), Cycle(c, s).value.mc.banks, s.log.sent + Logged(p, s.now), s.now);
  }

  lemma {:induction false} RunKeepsAllDue(c: Config, events: seq<Event>)
    requires c.Valid() && Legal(c, events)
    ensures Run(c, events).Some?
    ensures var s := Run(c, events).value; AllDue(c, s.mc.banks, s.log.sent, s.now - 1)
  {
    hide Inv, Cycle, AllDue;
    NoErrorExit(c, events);
    if |events| == 0 {
      StartIsDue(c);
    } else {
      var rest := events[..|events|-1];
      NoErrorExit(c, rest);
      RunKeepsAllDue(c, rest);
      if events[|events|-1] == Clock { CycleKeepsAllDue(c, Run(c, rest).value); }
    }
  }

  lemma StartIsDue(c: Config)
    ensures AllDue(c, Start(c).mc.banks, Start(c).log.sent, -1)
  {
  }

  /** After any run, every limit of the bank table is due to a command sent: it is no later than
      that command's distance asks. Waking up adds tXP to the next ACTIVATE. */
  lemma LimitsAreDue(c: Config, events: seq<Event>, r: nat, j: nat)
    requires c.Valid() && Legal(c, events) && r < c.ranks && j < c.banks
    ensures var s := After(c, events);
            var b, sent := s.mc.banks[r][j], s.log.sent;
            && Due(c.t, ToPrecharge, b.nextPrecharge, sent, r, j)
            && (Due(c.t, ToActivate, b.nextActivate, sent, r, j) || (c.lowPower && b.nextActivate < s.now + c.t.tXP))
            && (Open(b) && !c.lowPower ==> Due(c.t, ToRead, b.nextRead, sent, r, j) && Due(c.t, ToWrite, b.nextWrite, sent, r, j))
  {
    hide Run, Inv, Legal, Due;
    RunKeepsAllDue(c, events);
    var s := After(c, events);
    assert LimitsDue(c, s.mc.banks[r][j], s.log.sent, r, j, s.now - 1);
  }

  /** A bank that is being precharged, waits for its auto-precharge or is being refreshed was
      sent the command for it less than that command's time ago: no bank stays closed for ever. */
  lemma ClosedBanksReopen(c: Config, events: seq<Event>, r: nat, j: nat) returns (x: Sent)
    requires c.Valid() && Legal(c, events) && r < c.ranks && j < c.banks && c.t.tRP >= 1 && c.t.tRFC >= 1
    requires InTransit(After(c, events).mc.banks[r][j])
    ensures x in After(c, events).log.sent && StartsClosing(x.packet, r, j)
    ensures var t, age := c.t, After(c, events).now - 1 - x.at;
            && (x.packet.kind == PRECHARGE ==> age < t.tRP)
            && (x.packet.kind == REFRESH ==> age < t.tRFC)
            && (x.packet.kind == WRITE_P ==> age < t.CL + t.AL - 1 + t.BL / 2 + t.tWR + t.tRP)
            && (x.packet.kind == READ_P ==> age < ReadRecovery(t) + t.tRP)
  {
    hide Run, Inv, Legal, Due, ColumnDue;
    RunKeepsAllDue(c, events);
    var s := After(c, events);
    var b := s.mc.banks[r][j];
    assert LimitsDue(c, b, s.log.sent, r, j, s.now - 1);
    var i :| 0 <= i < |s.log.sent| && ClosedBy(c.t, EndOf(c.t, b, s.now - 1), s.log.sent[i], r, j);
    x := s.log.sent[i];
  }
}
