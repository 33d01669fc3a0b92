/** Power-down and power-up over whole runs: how long a rank sleeps, how long it then waits, and
    what waking up early does to the distances between ACTIVATEs. */
module DramSleep {
  import opened Wrappers
  import opened DramTypes
  import opened DramBanks
  import opened DramQueue
  import opened DramCommitProofs
  import opened DramSystem
  import opened DramTheorems
  import opened DramPromises
  import opened DramTable
  import opened DramGaps

  // ---- the phases of a sleeping rank ------------------------------------------------------

  ghost predicate Asleep(c: Config, s: System, r: nat) {
    r < |s.mc.powerDown| && s.mc.powerDown[r]
  }

  lemma AsleepIsDown(c: Config, s: System, r: nat)
    requires c.Valid() && Inv(c, s) && r < c.ranks
    ensures |s.mc.banks| == c.ranks && |s.mc.banks[r]| == c.banks
    ensures Asleep(c, s, r) ==> AllDown(s.mc.banks[r])
    ensures !Asleep(c, s, r) ==> forall j :: 0 <= j < c.banks ==> s.mc.banks[r][j].phase != PowerDown
  {
    InvGivesTable(c, s);
    AgreeGivesCountdowns(c, s, s.now - 1);
    hide AgreePart;
  }

  /** Countdowns and commands leave a sleeping rank, and a rank that is awake, as it is. */
  lemma SleepOnTable(c: Config, banks: seq<seq<Bank>>, p: Option<Packet>, now: int, r: nat, down: bool)
    requires c.Valid() && TableOk(c, banks, now - 1) && TableOk(c, TickBanks(c, banks), now) && r < c.ranks
    requires p.Some? ==> Sendable(c, TickBanks(c, banks), p.value, now)
    requires forall j :: 0 <= j < c.banks ==> (banks[r][j].phase == PowerDown <==> down)
    ensures var b := Commanded(c, TickBanks(c, banks), p, now);
            && |b| == c.ranks && |b[r]| == c.banks
            && (forall j: nat :: j < c.banks ==> (b[r][j].phase == PowerDown <==> down))
            && (forall j: nat :: j < c.banks ==> b[r][j].nextPowerUp == banks[r][j].nextPowerUp)
  {
    hide DownTogether, Sendable;
    var b: seq<seq<Bank>> := TickBanks(c, banks);
    forall j: nat | j < c.banks ensures (b[r][j].phase == PowerDown <==> down) && b[r][j].nextPowerUp == banks[r][j].nextPowerUp {
      assert CountdownOk(c, banks[r][j], now - 1);
    }
    if p.Some? {
      forall j: nat | j < c.banks
        ensures SendBank(c, b[r][j], p.value, now, r, j).phase == PowerDown <==> down
        ensures SendBank(c, b[r][j], p.value, now, r, j).nextPowerUp == b[r][j].nextPowerUp
      {
        SendKeepsSleep(c, b, p.value, now, r, j);
      }
    }
  }

  lemma SendKeepsSleep(c: Config, b: seq<seq<Bank>>, p: Packet, now: int, r: nat, j: nat)
    requires TableOk(c, b, now) && Sendable(c, b, p, now) && r < c.ranks && j < c.banks
    ensures var b' := SendBank(c, b[r][j], p, now, r, j);
            b'.nextPowerUp == b[r][j].nextPowerUp && (b'.phase == PowerDown <==> b[r][j].phase == PowerDown)
  {
    hide CountdownOk;
    if r == p.rank {
      assert MaySend(c, b[r][p.bank], p, now) && DownTogether(b[r]);
    }
  }

  /** Falling asleep in a cycle, and waking up in one. */
  lemma WakesUp(c: Config, s: System, r: nat)
    requires c.Valid() && Inv(c, s) && Cycle(c, s).Some? && Inv(c, Cycle(c, s).value) && r < c.ranks
    ensures var row, row' := s.mc.banks[r], Cycle(c, s).value.mc.banks[r];
            && |row'| == |row| == c.banks
            && (Asleep(c, s, r) && !Asleep(c, Cycle(c, s).value, r) ==>
                  forall j :: 0 <= j < c.banks ==> row[j].nextPowerUp <= s.now && row'[j].nextActivate == s.now + c.t.tXP)
            && (!Asleep(c, s, r) && Asleep(c, Cycle(c, s).value, r) ==>
                  forall j :: 0 <= j < c.banks ==> row'[j].nextPowerUp == s.now + c.t.tCKE)
  {
    hide Cycle, Inv, TableOk, Sendable, Commanded, TickBanks, PopAndSend, Middle;
    var s' := Cycle(c, s).value;
    AsleepIsDown(c, s, r);
    AsleepIsDown(c, s', r);
    var p := CycleOnTable(c, s);
    SleepOnTable(c, s.mc.banks, p, s.now, r, Asleep(c, s, r));
    assert PowerStep(c, Commanded(c, TickBanks(c, s.mc.banks), p, s.now)[r], s'.mc.banks[r], s.now);
  }

  // ---- after waking up --------------------------------------------------------------------

  ghost predicate ActsFrom(sent: seq<Sent>, n: nat, r: nat, lim: int) {
    forall k :: n <= k < |sent| && sent[k].packet.kind == ACTIVATE && sent[k].packet.rank == r ==> sent[k].at >= lim
  }

  ghost predicate RowFrom(row: seq<Bank>, lim: int) {
    forall j :: 0 <= j < |row| ==> row[j].nextActivate >= lim
  }

  /** From command `n` on, no ACTIVATE to rank `r` before `lim`. */
  ghost predicate WaitsToAct(c: Config, banks: seq<seq<Bank>>, sent: seq<Sent>, n: nat, r: nat, lim: int) {
    && r < |banks| && n <= |sent|
    && RowFrom(banks[r], lim) && ActsFrom(sent, n, r, lim)
  }

  lemma SendKeepsFrom(c: Config, row: seq<Bank>, p: Packet, now: int, r: nat, lim: int)
    requires c.Valid() && RowFrom(row, lim) && (r == p.rank ==> SendableTo(c, row, p, now))
    ensures RowFrom(SendRow(c, row, p, now, r), lim)
    ensures r == p.rank && p.kind == ACTIVATE ==> now >= lim
  {
    forall j: nat | j < |row| ensures SendBank(c, row[j], p, now, r, j).nextActivate >= lim {
      if r == p.rank && p.kind == REFRESH { assert MaySend(c, row[j], p, now); }
    }
    if r == p.rank && p.kind == ACTIVATE { assert MaySend(c, row[p.bank], p, now); }
  }

  lemma CycleKeepsWaiting(c: Config, s: System, n: nat, r: nat, lim: int)
    requires c.Valid() && Inv(c, s) && WaitsToAct(c, s.mc.banks, s.log.sent, n, r, lim) && lim <= s.now + c.t.tXP
    ensures Cycle(c, s).Some? && var s' := Cycle(c, s).value; WaitsToAct(c, s'.mc.banks, s'.log.sent, n, r, lim)
  {
    hide Cycle, Inv, TableOk, SendableTo, SendRow, PopAndSend, Middle;
    var p := CycleOnTable(c, s);
    var b := TickBanks(c, s.mc.banks);
    assert RowFrom(b[r], lim);
    var b1, b2 := Commanded(c, b, p, s.now), Cycle(c, s).value.mc.banks;
    if p.Some? { SendKeepsFrom(c, b[r], p.value, s.now, r, lim); }
    assert RowFrom(b1[r], lim) && PowerStep(c, b1[r], b2[r], s.now);
  }

  /** What follows a run, event by event. */
  lemma {:induction false} WaitingHolds(c: Config, events: seq<Event>, rest: seq<Event>, n: nat, r: nat, lim: int)
    requires c.Valid() && Legal(c, events + rest)
    requires Run(c, events).Some? && Inv(c, Run(c, events).value)
    requires var s := Run(c, events).value; WaitsToAct(c, s.mc.banks, s.log.sent, n, r, lim) && lim <= s.now + c.t.tXP
    ensures Run(c, events + rest).Some? && Run(c, events + rest).value.now >= Run(c, events).value.now
    ensures var s := Run(c, events + rest).value; WaitsToAct(c, s.mc.banks, s.log.sent, n, r, lim)
  {
    hide Inv, Cycle, WaitsToAct;
    if |rest| == 0 {
      assert events + rest == events;
    } else {
      var less := rest[..|rest|-1];
      var all := events + rest;
      assert all[..|all|-1] == events + less;
      WaitingHolds(c, events, less, n, r, lim);
      NoErrorExit(c, events + less);
      var s := Run(c, events + less).value;
      match rest[|rest|-1] {
        case Clock => CycleKeepsWaiting(c, s, n, r, lim); CycleTime(c, s);
        case Request(isRead, a) =>
      }
    }
  }

  lemma CycleTime(c: Config, s: System)
    requires c.Valid() && Inv(c, s)
    ensures Cycle(c, s).Some? && Cycle(c, s).value.now == s.now + 1
  {
    hide Cycle, Inv, TableOk, Sendable, Commanded, TickBanks, PopAndSend, Middle;
    var p := CycleOnTable(c, s);
  }

  /** A rank that wakes up in cycle T is sent no ACTIVATE before T + tXP. */
  lemma WakeDistance(c: Config, first: seq<Event>, rest: seq<Event>, r: nat, k: nat)
    requires c.Valid() && Legal(c, first) && Legal(c, first + [Clock]) && Legal(c, first + [Clock] + rest) && r < c.ranks
    requires Asleep(c, After(c, first), r) && !Asleep(c, After(c, first + [Clock]), r)
    requires |After(c, first + [Clock]).log.sent| <= k < |After(c, first + [Clock] + rest).log.sent|
    requires var y := After(c, first + [Clock] + rest).log.sent[k].packet; y.kind == ACTIVATE && y.rank == r
    ensures After(c, first + [Clock] + rest).log.sent[k].at >= After(c, first).now + c.t.tXP
  {
    hide Cycle, Inv, Run;
    var s, s1 := After(c, first), After(c, first + [Clock]);
    RunClock(c, first);
    WakesUp(c, s, r);
    CycleTime(c, s);
    AsleepIsDown(c, s, r);
    WaitingHolds(c, first + [Clock], rest, |s1.log.sent|, r, s.now + c.t.tXP);
  }

  lemma RunClock(c: Config, events: seq<Event>)
    requires c.Valid() && Run(c, events).Some?
    ensures Run(c, events + [Clock]) == Cycle(c, Run(c, events).value)
  {
    hide Cycle;
    assert (events + [Clock])[..|events + [Clock]|-1] == events;
  }

  // ---- how long it sleeps -----------------------------------------------------------------

  ghost predicate SleepsUntil(c: Config, s: System, r: nat, lim: int) {
    Asleep(c, s, r) ==> r < |s.mc.banks| && forall j :: 0 <= j < |s.mc.banks[r]| ==> s.mc.banks[r][j].nextPowerUp >= lim
  }

  lemma CycleKeepsSleep(c: Config, s: System, r: nat, lim: int)
    requires c.Valid() && Inv(c, s) && r < c.ranks && SleepsUntil(c, s, r, lim) && lim <= s.now + c.t.tCKE
    ensures Cycle(c, s).Some? && SleepsUntil(c, Cycle(c, s).value, r, lim)
  {
    hide Cycle, Inv, TableOk, Sendable, Commanded, TickBanks, PopAndSend, Middle;
    CycleKeeps(c, s);
    var s' := Cycle(c, s).value;
    AsleepIsDown(c, s, r);
    AsleepIsDown(c, s', r);
    var p := CycleOnTable(c, s);
    SleepOnTable(c, s.mc.banks, p, s.now, r, Asleep(c, s, r));
    WakesUp(c, s, r);
    assert PowerStep(c, Commanded(c, TickBanks(c, s.mc.banks), p, s.now)[r], s'.mc.banks[r], s.now);
  }

  lemma {:induction false} SleepHolds(c: Config, events: seq<Event>, rest: seq<Event>, r: nat, lim: int)
    requires c.Valid() && Legal(c, events + rest) && r < c.ranks
    requires Run(c, events).Some? && Inv(c, Run(c, events).value)
    requires SleepsUntil(c, Run(c, events).value, r, lim) && lim <= Run(c, events).value.now + c.t.tCKE
    ensures Run(c, events + rest).Some? && Run(c, events + rest).value.now >= Run(c, events).value.now
    ensures SleepsUntil(c, Run(c, events + rest).value, r, lim)
  {
    hide Inv, Cycle;
    if |rest| == 0 {
      assert events + rest == events;
    } else {
      var less := rest[..|rest|-1];
      var all := events + rest;
      assert all[..|all|-1] == events + less;
      SleepHolds(c, events, less, r, lim);
      NoErrorExit(c, events + less);
      var s := Run(c, events + less).value;
      match rest[|rest|-1] {
        case Clock => CycleKeepsSleep(c, s, r, lim); CycleTime(c, s);
        case Request(isRead, a) =>
      }
    }
  }

  /** A rank that falls asleep in cycle T does not wake up before T + tCKE. */
  lemma SleepDistance(c: Config, first: seq<Event>, rest: seq<Event>, r: nat)
    requires c.Valid() && Legal(c, first) && Legal(c, first + [Clock]) && r < c.ranks
    requires Legal(c, first + [Clock] + rest) && Legal(c, first + [Clock] + rest + [Clock])
    requires !Asleep(c, After(c, first), r) && Asleep(c, After(c, first + [Clock]), r)
    requires Asleep(c, After(c, first + [Clock] + rest), r) && !Asleep(c, After(c, first + [Clock] + rest + [Clock]), r)
    ensures After(c, first + [Clock] + rest).now >= After(c, first).now + c.t.tCKE
  {
    hide Cycle, Inv, Run;
    var s, s2 := After(c, first), After(c, first + [Clock] + rest);
    RunClock(c, first);
    RunClock(c, first + [Clock] + rest);
    WakesUp(c, s, r);
    CycleTime(c, s);
    SleepHolds(c, first + [Clock], rest, r, s.now + c.t.tCKE);
    WakesUp(c, s2, r);
    AsleepIsDown(c, s2, r);
    assert s2.mc.banks[r][0].nextPowerUp <= s2.now;
  }

  // ---- the conditions are needed ----------------------------------------------------------

  /** The entry after `n` cycles without a command. */
  function Ticks(c: Config, b: Bank, n: nat): Bank {
    if n == 0 then b else TickBank(c, Ticks(c, b, n - 1))
  }

  lemma {:induction false} TicksCountDown(c: Config, b: Bank, n: nat)
    requires n < b.countdown
    ensures Ticks(c, b, n) == b.(countdown := b.countdown - n)
  {
    if n > 0 { TicksCountDown(c, b, n - 1); }
  }

  lemma {:induction false} TicksAdd(c: Config, b: Bank, m: nat, n: nat)
    ensures Ticks(c, b, m + n) == Ticks(c, Ticks(c, b, m), n)
  {
    if n > 0 { TicksAdd(c, b, m, n - 1); }
  }

  lemma RunsOut(c: Config, b: Bank)
    requires b.countdown >= 1
    ensures Ticks(c, b, b.countdown) == TickBank(c, b.(countdown := 1))
  {
    hide TickBank;
    TicksCountDown(c, b, b.countdown - 1);
  }

  /** A bank with an auto-precharge under way is idle when it and the precharge are over. */
  lemma AutoprechargeEnds(c: Config, b: Bank)
    requires b.phase == RowActive && b.lastCommand.IsAuto() && b.countdown >= 1 && c.t.tRP >= 1
    ensures Ticks(c, b, b.countdown + c.t.tRP) == b.(phase := Idle, lastCommand := PRECHARGE, countdown := 0)
  {
    hide Ticks;
    RunsOut(c, b);
    RunsOut(c, b.(phase := Precharging, lastCommand := PRECHARGE, countdown := c.t.tRP));
    TicksAdd(c, b, b.countdown, c.t.tRP);
  }

  /** The cycles from an ACTIVATE over the earliest read with auto-precharge and a sleep to the
      next ACTIVATE of the bank. */
  function NapGap(t: Timing): int { t.tRCD - t.AL + ReadRecovery(t) + t.tRP + t.tCKE + t.tXP }

  /** The bank table lets a bank that has slept have its next ACTIVATE exactly NapGap cycles
      after the last one: the row cycle time tRC is kept if and only if it is no longer. */
  lemma SleepShortensRowCycle(c: Config, b: Bank, a: Packet, p: Packet, now: int)
    requires c.Valid() && c.policy == ClosePage && c.t.tRP >= 1
    requires a.kind == ACTIVATE && p == a.(kind := READ_P)
    requires b.phase == Idle && b.countdown <= 0 && MaySend(c, b, a, now) && b.nextRead <= now + (c.t.tRCD - c.t.AL)
    ensures var open := SendBank(c, b, a, now, a.rank, a.bank);
            var read := now + (c.t.tRCD - c.t.AL);
            var closing := SendBank(c, open, p, read, a.rank, a.bank);
            var idle := read + ReadRecovery(c.t) + c.t.tRP;
            var closed := Ticks(c, closing, ReadRecovery(c.t) + c.t.tRP);
            var down := PowerDownBank(c, closed, idle);
            var woken := PowerUpBank(c, down, down.nextPowerUp);
            && MaySend(c, open, p, read) && closed.phase == Idle
            && (forall later: int :: later >= down.nextPowerUp ==> (MaySend(c, woken, a, later) <==> later - now >= NapGap(c.t)))
            && (c.t.tRC <= NapGap(c.t) <==> forall later: int :: later >= down.nextPowerUp && MaySend(c, woken, a, later) ==> later - now >= c.t.tRC)
  {
    var open := SendBank(c, b, a, now, a.rank, a.bank);
    var read := now + (c.t.tRCD - c.t.AL);
    var closing := SendBank(c, open, p, read, a.rank, a.bank);
    AutoprechargeEnds(c, closing);
    var closed := Ticks(c, closing, ReadRecovery(c.t) + c.t.tRP);
    assert closed == closing.(phase := Idle, lastCommand := PRECHARGE, countdown := 0);
    hide Ticks, SendBank;
    var down := PowerDownBank(c, closed, read + ReadRecovery(c.t) + c.t.tRP);
    var woken := PowerUpBank(c, down, down.nextPowerUp);
    assert woken.phase == Idle && woken.nextActivate == now + NapGap(c.t);
    assert MaySend(c, woken, a, now + NapGap(c.t));
  }

  /** A row open anew right after a write with auto-precharge may be read as soon as it is
      open; the read keeps the write-to-read time exactly when opening covers it. */
  lemma ReadOfReopenedRow(c: Config, b: Bank, a: Packet, w: Packet, p: Packet, now: int)
    requires c.Valid() && c.policy == ClosePage && c.t.tRP >= 1
    requires a.kind == ACTIVATE && p == a.(kind := READ_P) && w.kind == WRITE_P && w.rank == a.rank && w.bank == a.bank
    requires Open(b) && MaySend(c, b, w, now) && b.nextActivate <= now + WriteRecovery(c.t) + c.t.tRP
    ensures var t := c.t;
            var closing := SendBank(c, b, w, now, a.rank, a.bank);
            var closed := Ticks(c, closing, WriteRecovery(t) + t.tRP);
            var act := now + WriteRecovery(t) + t.tRP;
            var open := SendBank(c, closed, a, act, a.rank, a.bank);
            var read := act + (t.tRCD - t.AL);
            && MaySend(c, closed, a, act) && MaySend(c, open, p, read)
            && (read - now >= t.CL + t.AL - 1 + t.BL / 2 + t.tWTR <==> t.tWTR <= t.tWR + t.tRP + t.tRCD - t.AL)
  {
    var closing := SendBank(c, b, w, now, a.rank, a.bank);
    AutoprechargeEnds(c, closing);
    hide Ticks;
  }
}
