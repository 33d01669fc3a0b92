/** Minimal distances between the commands of a run, in the raw timing parameters. */
module DramGaps {
  import opened Wrappers
  import opened DramTypes
  import opened DramBanks
  import opened DramSystem

  // ---- the distances, in raw parameters ----------------------------------------------

  function Min(a: int, b: int): int { if a <= b then a else b }

  /** Cycles from a write to the end of its write recovery. */
  function WriteRecovery(t: Timing): int { t.CL + t.AL - 1 + t.BL / 2 + t.tWR }

  /** Cycles from a read to the earliest precharge: its burst, or the read-to-precharge time. */
  function ReadRecovery(t: Timing): int {
    t.AL + t.BL / 2 + (if t.tRTP > t.tCCD then t.tRTP - t.tCCD else 0)
  }

  /** A command that ends with, or leads to, a closed row: it keeps its bank from a new ACTIVATE. */
  predicate Closing(x: Packet, bank: nat) {
    x.kind == ACTIVATE || x.kind == REFRESH || (x.bank == bank && (x.kind.IsAuto() || x.kind == PRECHARGE))
  }

  /** Cycles from `x` to the earliest ACTIVATE of `bank` in the same rank. */
  function ActivateGap(t: Timing, x: Packet, bank: nat): int {
    match x.kind
    case ACTIVATE => if x.bank == bank then t.tRC else t.tRRD
    case READ_P => t.AL + t.tRTP + t.tRP
    case WRITE_P => WriteRecovery(t) + t.tRP
    case PRECHARGE => t.tRP
    case REFRESH => t.tRFC
    case _ => 0
  }

  /** Cycles from a command to the earliest moment its bank is idle again. */
  function IdleGap(c: Config, k: Kind): int {
    var t := c.t;
    var afterRead := Min(ReadRecovery(t) + t.tRP, t.AL + t.tRTP + t.tRP + t.tRFC);
    match k
    case ACTIVATE =>
      if c.policy == OpenPage then t.tRAS + t.tRP
      else t.tRCD - t.AL + Min(afterRead, WriteRecovery(t) + t.tRP)
    case READ_P => afterRead
    case WRITE_P => WriteRecovery(t) + t.tRP
    case PRECHARGE => t.tRP
    case REFRESH => t.tRFC
    case _ => 0
  }

  /** ... and from there through a power-down and the power-up after it to an ACTIVATE. */
  function SleepGap(c: Config, k: Kind): int { IdleGap(c, k) + c.t.tCKE + c.t.tXP }

  /** Cycles from `x` to the earliest PRECHARGE of its bank. */
  function PrechargeGap(t: Timing, k: Kind): int {
    match k
    case ACTIVATE => t.tRAS
    case READ => ReadRecovery(t)
    case WRITE => WriteRecovery(t)
    case _ => 0
  }

  /** Cycles from a column command to the next one of the same rank. */
  function ColumnGap(t: Timing, fromRead: bool, toRead: bool): int {
    if fromRead == toRead then (if t.tCCD > t.BL / 2 then t.tCCD else t.BL / 2)
    else if fromRead then t.BL / 2 + t.tRTRS + 1
    else t.CL + t.AL - 1 + t.BL / 2 + t.tWTR
  }

  /** Cycles from a column command to one of another rank: the bus changes hands. */
  function OtherRankGap(t: Timing, fromRead: bool, toRead: bool): int {
    if fromRead == toRead then t.BL / 2 + t.tRTRS
    else if fromRead then t.BL / 2 + t.tRTRS + 1
    else t.BL / 2 + t.tRTRS - 1
  }

  /** Opening a row anew after an auto-precharge takes at least as long. */
  predicate ReopeningCovers(c: Config, x: Kind, toRead: bool) {
    var t := c.t;
    var gap := ColumnGap(t, x.IsRead(), toRead);
    c.policy == OpenPage ||
    (&& (x.IsRead() || !toRead ==> gap <= t.tRTP + t.tRP + t.tRCD)
     && (x.IsWrite() || toRead ==> gap <= WriteRecovery(t) + t.tRP + t.tRCD - t.AL)
     && (c.lowPower ==> gap <= SleepGap(c, x) + t.tRCD - t.AL))
  }

  // ---- what a bank's entry remembers of an earlier command to its rank ----------------

  /** The bank is idle no earlier than `lim`. */
  predicate ClosedFrom(c: Config, b: Bank, opens: bool, lim: int, now: int) {
    match b.phase
    case Idle => now >= lim
    case PowerDown => now >= lim
    case Precharging => now + b.countdown >= lim && b.nextActivate + c.t.tRFC >= lim
    case Refreshing => now + b.countdown >= lim
    case RowActive =>
      if b.countdown > 0 then now + b.countdown + c.t.tRP >= lim && b.nextActivate + c.t.tRFC >= lim
      else opens || now >= lim
  }

  predicate RowWaits(c: Config, b: Bank, x: Sent, j: nat, now: int) {
    ActivateWaits(c, b, x, j) && IdleWaits(c, b, x, j, now) && WakeWaits(c, b, x)
  }

  /** The next ACTIVATE. */
  predicate ActivateWaits(c: Config, b: Bank, x: Sent, j: nat) {
    Closing(x.packet, j) ==>
      || b.nextActivate >= x.at + ActivateGap(c.t, x.packet, j)
      || (c.lowPower && b.nextActivate >= x.at + SleepGap(c, x.packet.kind))
  }

  predicate IdleWaits(c: Config, b: Bank, x: Sent, j: nat, now: int) {
    var p := x.packet;
    Closing(p, j) && (p.bank == j || p.kind == REFRESH) ==>
      ClosedFrom(c, b, p.kind == ACTIVATE, x.at + IdleGap(c, p.kind), now)
  }

  /** The next power-up, of the whole rank. */
  predicate WakeWaits(c: Config, b: Bank, x: Sent) {
    b.phase == PowerDown && Closing(x.packet, x.packet.bank) ==> b.nextPowerUp >= x.at + IdleGap(c, x.packet.kind) + c.t.tCKE
  }

  predicate ColumnWaits(c: Config, b: Bank, x: Sent, j: nat) {
    OwnWaits(c, b, x, j) && LimitWaits(c, b, x, true) && LimitWaits(c, b, x, false)
  }

  /** The bank `x` addressed. */
  predicate OwnWaits(c: Config, b: Bank, x: Sent, j: nat) {
    var p := x.packet;
    p.bank == j ==>
      && (p.kind == ACTIVATE || p.kind == READ || p.kind == WRITE ==> b.nextPrecharge >= x.at + PrechargeGap(c.t, p.kind))
      && (p.kind == ACTIVATE ==> b.nextRead >= x.at + c.t.tRCD - c.t.AL && b.nextWrite >= x.at + c.t.tRCD - c.t.AL)
  }

  /** Every bank of the rank, after a column command. */
  predicate LimitWaits(c: Config, b: Bank, x: Sent, toRead: bool) {
    var k := x.packet.kind;
    k.IsColumn() && ReopeningCovers(c, k, toRead) ==>
      NextWaits(c, b, if toRead then b.nextRead else b.nextWrite, x.at + ColumnGap(c.t, k.IsRead(), toRead))
  }

  /** An open row may be used from `lim` on at the earliest; a closed one when it is open again. */
  predicate NextWaits(c: Config, b: Bank, next: int, lim: int) {
    next >= lim || (c.policy == ClosePage && !Open(b) && b.nextActivate + c.t.tRCD - c.t.AL >= lim)
  }

  // ---- one command --------------------------------------------------------------------

  predicate Addressed(p: Packet, r: nat, j: nat) { p.rank == r && (p.bank == j || p.kind == REFRESH) }

  lemma SendKeepsActivate(c: Config, b: Bank, x: Sent, p: Packet, now: int, j: nat)
    requires c.Valid() && p.kind != DATA && ActivateWaits(c, b, x, j)
    requires Addressed(p, p.rank, j) ==> MaySend(c, b, p, now)
    ensures ActivateWaits(c, SendBank(c, b, p, now, p.rank, j), x, j)
  {
    hide ActivateGap, IdleGap;
  }

  lemma NeighbourKeepsIdle(c: Config, b: Bank, x: Sent, p: Packet, now: int, j: nat)
    requires c.Valid() && p.kind != DATA && !Addressed(p, p.rank, j) && IdleWaits(c, b, x, j, now)
    ensures IdleWaits(c, SendBank(c, b, p, now, p.rank, j), x, j, now)
  {
    hide IdleGap;
  }

  /** A command allowed to a bank neither idles it early nor hides that it still is in use. */
  lemma TargetKeepsIdle(c: Config, b: Bank, x: Sent, p: Packet, now: int, j: nat)
    requires c.Valid() && x.at <= now && x.packet.rank == p.rank && Addressed(p, p.rank, j) && MaySend(c, b, p, now)
    requires CountdownOk(c, b, now) && ActivateWaits(c, b, x, j) && IdleWaits(c, b, x, j, now) && OwnWaits(c, b, x, j)
    ensures IdleWaits(c, SendBank(c, b, p, now, p.rank, j), x, j, now)
  {
    if p.kind == ACTIVATE || p.kind == READ || p.kind == WRITE { hide IdleGap; }
  }

  lemma SendKeepsIdle(c: Config, b: Bank, x: Sent, p: Packet, now: int, j: nat)
    requires c.Valid() && p.kind != DATA && x.at <= now && x.packet.rank == p.rank
    requires Addressed(p, p.rank, j) ==> MaySend(c, b, p, now)
    requires CountdownOk(c, b, now) && ActivateWaits(c, b, x, j) && IdleWaits(c, b, x, j, now) && OwnWaits(c, b, x, j)
    ensures IdleWaits(c, SendBank(c, b, p, now, p.rank, j), x, j, now)
  {
    hide *;
    if Addressed(p, p.rank, j) { TargetKeepsIdle(c, b, x, p, now, j); } else { NeighbourKeepsIdle(c, b, x, p, now, j); }
  }

  lemma SendKeepsWake(c: Config, b: Bank, x: Sent, p: Packet, now: int, j: nat)
    requires c.Valid() && p.kind != DATA && WakeWaits(c, b, x)
    requires Addressed(p, p.rank, j) ==> MaySend(c, b, p, now)
    ensures WakeWaits(c, SendBank(c, b, p, now, p.rank, j), x)
  {
    hide IdleGap;
  }

  lemma SendKeepsRow(c: Config, b: Bank, x: Sent, p: Packet, now: int, j: nat)
    requires c.Valid() && p.kind != DATA && x.at <= now
    requires Addressed(p, p.rank, j) ==> MaySend(c, b, p, now)
    requires CountdownOk(c, b, now) && RowWaits(c, b, x, j, now) && ColumnWaits(c, b, x, j)
    requires x.packet.rank == p.rank
    ensures RowWaits(c, SendBank(c, b, p, now, p.rank, j), x, j, now)
  {
    hide SendBank, ActivateWaits, IdleWaits, WakeWaits, OwnWaits, LimitWaits;
    SendKeepsActivate(c, b, x, p, now, j);
    SendKeepsIdle(c, b, x, p, now, j);
    SendKeepsWake(c, b, x, p, now, j);
  }

  lemma SendKeepsOwn(c: Config, b: Bank, x: Sent, p: Packet, now: int, j: nat)
    requires c.Valid() && p.kind != DATA && x.at <= now && OwnWaits(c, b, x, j)
    requires Addressed(p, p.rank, j) ==> MaySend(c, b, p, now)
    ensures OwnWaits(c, SendBank(c, b, p, now, p.rank, j), x, j)
  {
    hide PrechargeGap;
  }

  lemma SendKeepsLimit(c: Config, b: Bank, x: Sent, p: Packet, now: int, j: nat, toRead: bool)
    requires c.Valid() && p.kind != DATA && x.at <= now && LimitWaits(c, b, x, toRead) && CountdownOk(c, b, now)
    requires Addressed(p, p.rank, j) ==> MaySend(c, b, p, now)
    ensures LimitWaits(c, SendBank(c, b, p, now, p.rank, j), x, toRead)
  {
    hide IdleGap;
  }

  lemma SendKeepsColumn(c: Config, b: Bank, x: Sent, p: Packet, now: int, j: nat)
    requires c.Valid() && p.kind != DATA && x.at <= now && CountdownOk(c, b, now)
    requires Addressed(p, p.rank, j) ==> MaySend(c, b, p, now)
    requires ColumnWaits(c, b, x, j)
    ensures ColumnWaits(c, SendBank(c, b, p, now, p.rank, j), x, j)
  {
    hide OwnWaits, LimitWaits, SendBank;
    SendKeepsOwn(c, b, x, p, now, j);
    SendKeepsLimit(c, b, x, p, now, j, true);
    SendKeepsLimit(c, b, x, p, now, j, false);
  }

  /** A command that has just been sent. */
  lemma SentRowWaits(c: Config, b: Bank, p: Packet, now: int, j: nat)
    requires c.Valid() && p.kind != DATA && b.phase != PowerDown && CountdownOk(c, b, now)
    requires Addressed(p, p.rank, j) ==> MaySend(c, b, p, now)
    ensures RowWaits(c, SendBank(c, b, p, now, p.rank, j), Sent(p, now), j, now)
  {
  }

  lemma SentLimitWaits(c: Config, b: Bank, p: Packet, now: int, j: nat, toRead: bool)
    requires c.Valid() && p.kind != DATA && (Addressed(p, p.rank, j) ==> MaySend(c, b, p, now))
    ensures LimitWaits(c, SendBank(c, b, p, now, p.rank, j), Sent(p, now), toRead)
  {
    hide IdleGap;
  }

  lemma SentColumnWaits(c: Config, b: Bank, p: Packet, now: int, j: nat)
    requires c.Valid() && p.kind != DATA
    requires Addressed(p, p.rank, j) ==> MaySend(c, b, p, now)
    ensures ColumnWaits(c, SendBank(c, b, p, now, p.rank, j), Sent(p, now), j)
  {
    hide LimitWaits;
    SentLimitWaits(c, b, p, now, j, true);
    SentLimitWaits(c, b, p, now, j, false);
  }

  /** A command to another rank changes nothing that counts here. */
  lemma OtherRankWaits(c: Config, b: Bank, x: Sent, p: Packet, now: int, r: nat, j: nat)
    requires RowWaits(c, b, x, j, now) && ColumnWaits(c, b, x, j) && r != p.rank
    ensures RowWaits(c, SendBank(c, b, p, now, r, j), x, j, now) && ColumnWaits(c, SendBank(c, b, p, now, r, j), x, j)
  {
    hide ReopeningCovers, IdleGap, ActivateGap;
  }

  lemma TickKeepsRow(c: Config, b: Bank, x: Sent, j: nat, now: int)
    requires c.Valid() && CountdownOk(c, b, now) && RowWaits(c, b, x, j, now)
    ensures RowWaits(c, TickBank(c, b), x, j, now + 1)
  {
    hide IdleGap, ActivateGap;
  }

  lemma TickKeepsColumn(c: Config, b: Bank, x: Sent, j: nat, now: int)
    requires c.Valid() && CountdownOk(c, b, now) && ColumnWaits(c, b, x, j)
    ensures ColumnWaits(c, TickBank(c, b), x, j)
  {
    hide ReopeningCovers;
  }

  /** Column commands close their row exactly in close page. */
  predicate Fits(c: Config, k: Kind) { k.IsColumn() ==> (k.IsAuto() <==> c.policy == ClosePage) }

  // ---- power management ----------------------------------------------------------------

  /** `own` is the entry of the bank `x` addressed: it is idle when its rank powers down. */
  lemma PowerDownKeeps(c: Config, b: Bank, own: Bank, x: Sent, j: nat, now: int)
    requires b.phase == Idle && own.phase == Idle && c.lowPower
    requires RowWaits(c, b, x, j, now) && ColumnWaits(c, b, x, j) && RowWaits(c, own, x, x.packet.bank, now)
    ensures RowWaits(c, PowerDownBank(c, b, now), x, j, now) && ColumnWaits(c, PowerDownBank(c, b, now), x, j)
  {
    hide ReopeningCovers, IdleGap, ActivateGap;
  }

  lemma PowerUpKeeps(c: Config, b: Bank, x: Sent, j: nat, now: int)
    requires c.Valid() && b.phase == PowerDown && b.nextPowerUp <= now && c.lowPower && Fits(c, x.packet.kind)
    requires RowWaits(c, b, x, j, now) && ColumnWaits(c, b, x, j)
    ensures RowWaits(c, PowerUpBank(c, b, now), x, j, now) && ColumnWaits(c, PowerUpBank(c, b, now), x, j)
  {
    hide ActivateGap;
  }

  // ---- what the entry allows ------------------------------------------------------------

  /** The distance from `x` to a later command `y` of the same rank. */
  predicate RowDistance(c: Config, x: Sent, y: Sent) {
    var p, q, d := x.packet, y.packet, y.at - x.at;
    && (q.kind == ACTIVATE && Closing(p, q.bank) ==> d >= ActivateGap(c.t, p, q.bank) || (c.lowPower && d >= SleepGap(c, p.kind)))
    && (q.kind == REFRESH && Closing(p, p.bank) ==> d >= ActivateGap(c.t, p, p.bank) || (c.lowPower && d >= SleepGap(c, p.kind)))
    && (q.kind == PRECHARGE && p.bank == q.bank && (p.kind == ACTIVATE || p.kind == READ || p.kind == WRITE) ==>
          d >= PrechargeGap(c.t, p.kind))
    && (q.kind.IsColumn() && p.bank == q.bank && p.kind == ACTIVATE ==> d >= c.t.tRCD - c.t.AL)
    && (q.kind.IsColumn() && p.kind.IsColumn() && ReopeningCovers(c, p.kind, q.kind.IsRead()) ==>
          d >= ColumnGap(c.t, p.kind.IsRead(), q.kind.IsRead()))
  }

  /** `b` is the entry of the bank `p` addresses, `own` that of the bank `x` addressed. */
  lemma MaySendKeepsDistance(c: Config, b: Bank, own: Bank, x: Sent, p: Packet, now: int)
    requires c.Valid() && p.kind != DATA && x.packet.rank == p.rank
    requires MaySend(c, b, p, now) && (p.kind == REFRESH ==> MaySend(c, own, p, now)) && CountdownOk(c, b, now)
    requires RowWaits(c, b, x, p.bank, now) && ColumnWaits(c, b, x, p.bank) && RowWaits(c, own, x, x.packet.bank, now)
    ensures RowDistance(c, x, Sent(p, now))
  {
    hide IdleGap, ReopeningCovers, ColumnGap, PrechargeGap, ActivateGap;
  }
}
