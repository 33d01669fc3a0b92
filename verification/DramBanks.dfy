/** The two bank-state tables. The controller predicts every bank; each rank keeps its own
    copy and refuses a command that arrives at the wrong moment. */
module DramBanks {
  import opened DramTypes

  // ---- controller side ---------------------------------------------------------------

  /** A new cycle: a running countdown may change the bank's state. */
  function TickBank(c: Config, b: Bank): Bank {
    if b.countdown <= 0 then b
    else if b.countdown > 1 then b.(countdown := b.countdown - 1)
    else
      match b.lastCommand
      case WRITE_P => b.(phase := Precharging, lastCommand := PRECHARGE, countdown := c.t.tRP)
      case READ_P => b.(phase := Precharging, lastCommand := PRECHARGE, countdown := c.t.tRP)
      case REFRESH => b.(phase := Idle, countdown := 0)
      case PRECHARGE => b.(phase := Idle, countdown := 0)
      case _ => b.(countdown := 0)
  }

  /** What a column command of one rank does to the read and write times of another bank. */
  function ColumnEcho(c: Config, b: Bank, p: Packet, now: int, rank: nat): Bank {
    if p.kind.IsRead() then
      if rank == p.rank then
        b.(nextRead := Max(now + c.t.ColumnGap(), b.nextRead),
           nextWrite := Max(now + c.t.ReadToWrite(), b.nextWrite))
      else if b.phase == RowActive then
        b.(nextRead := Max(now + c.t.Burst() + c.t.tRTRS, b.nextRead),
           nextWrite := Max(now + c.t.ReadToWrite(), b.nextWrite))
      else b
    else
      if rank == p.rank then
        b.(nextWrite := Max(now + c.t.ColumnGap(), b.nextWrite),
           nextRead := Max(now + c.t.WriteToReadSameRank(), b.nextRead))
      else if b.phase == RowActive then
        b.(nextWrite := Max(now + c.t.Burst() + c.t.tRTRS, b.nextWrite),
           nextRead := Max(now + c.t.WriteToReadOtherRank(), b.nextRead))
      else b
  }

  /** The bank a column command addresses. */
  function ColumnTarget(c: Config, b: Bank, p: Packet, now: int): Bank {
    match p.kind
    case READ =>
      ColumnEcho(c, b.(nextPrecharge := Max(now + c.t.ReadToPre(), b.nextPrecharge), lastCommand := READ),
                 p, now, p.rank)
    case WRITE =>
      ColumnEcho(c, b.(nextPrecharge := Max(now + c.t.WriteToPre(), b.nextPrecharge), lastCommand := WRITE),
                 p, now, p.rank)
    case READ_P =>
      var next := Max(now + c.t.ReadAutopre(), b.nextActivate);
      b.(nextActivate := next, lastCommand := READ_P, countdown := c.t.ReadToPre(),
         nextRead := next, nextWrite := next)
    case _ =>
      var next := Max(now + c.t.WriteAutopre(), b.nextActivate);
      b.(nextActivate := next, lastCommand := WRITE_P, countdown := c.t.WriteToPre(),
         nextRead := next, nextWrite := next)
  }

  /** Bank (rank, bank) of the controller's table after it has sent `p` at cycle `now`. */
  function SendBank(c: Config, b: Bank, p: Packet, now: int, rank: nat, bank: nat): Bank {
    match p.kind
    case ACTIVATE =>
      if rank != p.rank then b
      else if bank == p.bank then
        b.(phase := RowActive, lastCommand := ACTIVATE, openRow := p.row,
           nextActivate := Max(now + c.t.tRC, b.nextActivate),
           nextPrecharge := Max(now + c.t.tRAS, b.nextPrecharge),
           nextRead := Max(now + (c.t.tRCD - c.t.AL), b.nextRead),
           nextWrite := Max(now + (c.t.tRCD - c.t.AL), b.nextWrite))
      else b.(nextActivate := Max(now + c.t.tRRD, b.nextActivate))
    case PRECHARGE =>
      if rank == p.rank && bank == p.bank then
        b.(phase := Precharging, lastCommand := PRECHARGE, countdown := c.t.tRP,
           nextActivate := Max(now + c.t.tRP, b.nextActivate))
      else b
    case REFRESH =>
      if rank == p.rank then
        b.(nextActivate := now + c.t.tRFC, phase := Refreshing, lastCommand := REFRESH, countdown := c.t.tRFC)
      else b
    case DATA => b
    case _ =>
      if rank == p.rank && bank == p.bank then ColumnTarget(c, b, p, now)
      else ColumnEcho(c, b, p, now, rank)
  }

  // ---- rank side ---------------------------------------------------------------------

  /** The rank's own check of an arriving command; false is its error exit. */
  predicate Accepts(bs: seq<Bank>, p: Packet, now: int) {
    match p.kind
    case REFRESH => forall j :: 0 <= j < |bs| ==> bs[j].phase == Idle
    case DATA => true
    case _ =>
      && p.bank < |bs|
      && var b := bs[p.bank];
      match p.kind
      case ACTIVATE => b.phase == Idle && now >= b.nextActivate
      case PRECHARGE => b.phase == RowActive && now >= b.nextPrecharge
      case _ =>
        && b.phase == RowActive
        && p.row == b.openRow
        && now >= (if p.kind.IsRead() then b.nextRead else b.nextWrite)
  }

  /** Bank `bank` of the rank's table after it took `p` at cycle `now`. */
  function TakeBank(c: Config, b: Bank, p: Packet, now: int, bank: nat): Bank {
    var own := bank == p.bank;
    match p.kind
    case READ =>
      b.(nextPrecharge := if own then Max(b.nextPrecharge, now + c.t.ReadToPre()) else b.nextPrecharge,
         nextRead := Max(b.nextRead, now + c.t.ColumnGap()),
         nextWrite := Max(b.nextWrite, now + c.t.ReadToWrite()))
    case READ_P =>
      b.(phase := if own then Idle else b.phase,
         nextActivate := if own then Max(b.nextActivate, now + c.t.ReadAutopre()) else b.nextActivate,
         nextRead := Max(b.nextRead, now + c.t.ColumnGap()),
         nextWrite := Max(b.nextWrite, now + c.t.ReadToWrite()))
    case WRITE =>
      b.(nextPrecharge := if own then Max(b.nextPrecharge, now + c.t.WriteToPre()) else b.nextPrecharge,
         nextRead := Max(b.nextRead, now + c.t.WriteToReadSameRank()),
         nextWrite := Max(b.nextWrite, now + c.t.ColumnGap()))
    case WRITE_P =>
      b.(phase := if own then Idle else b.phase,
         nextActivate := if own then Max(b.nextActivate, now + c.t.WriteAutopre()) else b.nextActivate,
         nextWrite := Max(b.nextWrite, now + c.t.ColumnGap()),
         nextRead := Max(b.nextRead, now + c.t.WriteToReadSameRank()))
    case ACTIVATE =>
      if own then
        b.(phase := RowActive, nextActivate := now + c.t.tRC, openRow := p.row,
           nextWrite := now + (c.t.tRCD - c.t.AL), nextRead := now + (c.t.tRCD - c.t.AL),
           nextPrecharge := now + c.t.tRAS)
      else b.(nextActivate := Max(b.nextActivate, now + c.t.tRRD))
    case PRECHARGE =>
      if own then b.(phase := Idle, nextActivate := Max(b.nextActivate, now + c.t.tRP)) else b
    case REFRESH => b.(nextActivate := now + c.t.tRFC)
    case DATA => b
  }

  function TakeBanks(c: Config, bs: seq<Bank>, p: Packet, now: int): (r: seq<Bank>)
    ensures |r| == |bs|
  {
    seq(|bs|, j requires 0 <= j < |bs| => TakeBank(c, bs[j], p, now, j))
  }

  function SendRow(c: Config, row: seq<Bank>, p: Packet, now: int, rank: nat): (r: seq<Bank>)
    ensures |r| == |row|
  {
    seq(|row|, j requires 0 <= j < |row| => SendBank(c, row[j], p, now, rank, j))
  }

  function SendBanks(c: Config, table: seq<seq<Bank>>, p: Packet, now: int): (r: seq<seq<Bank>>)
    ensures |r| == |table|
  {
    seq(|table|, i requires 0 <= i < |table| => SendRow(c, table[i], p, now, i))
  }

  function TickRow(c: Config, row: seq<Bank>): (r: seq<Bank>)
    ensures |r| == |row|
  {
    seq(|row|, j requires 0 <= j < |row| => TickBank(c, row[j]))
  }

  function TickBanks(c: Config, table: seq<seq<Bank>>): (r: seq<seq<Bank>>)
    ensures |r| == |table|
  {
    seq(|table|, i requires 0 <= i < |table| => TickRow(c, table[i]))
  }

  // ---- agreement ---------------------------------------------------------------------

  /** The controller's entry is waiting for its own auto-precharge: it still says RowActive,
      the rank already says Idle. */
  predicate Pending(b: Bank) {
    b.phase == RowActive && b.countdown > 0
  }

  /** The row is really open on both sides. */
  predicate Open(b: Bank) {
    b.phase == RowActive && b.countdown <= 0
  }

  /** A running countdown belongs to the last command and bounds the bank's next use. */
  predicate CountdownOk(c: Config, b: Bank, now: int) {
    b.countdown > 0 ==>
      match b.phase
      case RowActive =>
        && b.lastCommand.IsAuto()
        && c.policy == ClosePage
        && b.nextRead >= now + b.countdown
        && b.nextWrite >= now + b.countdown
      case Precharging => b.lastCommand == PRECHARGE
      case Refreshing => b.lastCommand == REFRESH && b.nextActivate >= now + b.countdown
      case _ => false
  }

  /** Controller entry `m` and rank entry `r` of one bank agree at cycle `now`: the rank's
      limits are at most the command delay (one cycle) later than the controller's. */
  predicate BankAgrees(c: Config, m: Bank, r: Bank, now: int) {
    && CountdownOk(c, m, now)
    && r.nextActivate <= m.nextActivate + 1
    && (match m.phase
        case RowActive =>
          if m.countdown > 0 then r.phase == Idle
          else
            && r.phase == RowActive
            && r.openRow == m.openRow
            && r.nextRead <= m.nextRead + 1
            && r.nextWrite <= m.nextWrite + 1
            && r.nextPrecharge <= m.nextPrecharge + 1
        case PowerDown => r.phase == PowerDown && r.nextPowerUp == m.nextPowerUp
        case _ => r.phase == Idle)
  }

  predicate RankAgrees(c: Config, ms: seq<Bank>, rs: seq<Bank>, down: bool, now: int) {
    && |ms| == |rs| == c.banks
    && (forall j :: 0 <= j < |ms| ==> BankAgrees(c, ms[j], rs[j], now))
    && (forall j :: 0 <= j < |ms| ==> (ms[j].phase == PowerDown <==> down))
    && (forall j, k :: 0 <= j < |ms| && 0 <= k < |ms| && down ==> ms[j].nextPowerUp == ms[k].nextPowerUp)
  }

  /** CommandQueue's promise about the bank a command addresses. */
  predicate MaySend(c: Config, b: Bank, p: Packet, now: int) {
    match p.kind
    case ACTIVATE => (b.phase == Idle || b.phase == Refreshing) && now >= b.nextActivate
    case PRECHARGE => c.policy == OpenPage && b.phase == RowActive && now >= b.nextPrecharge
    case REFRESH => b.phase != RowActive && b.phase != PowerDown && b.nextActivate <= now
    case DATA => false
    case _ =>
      && b.phase == RowActive
      && p.row == b.openRow
      && now >= (if p.kind.IsRead() then b.nextRead else b.nextWrite)
      && (p.kind.IsAuto() <==> c.policy == ClosePage)
  }

  /** A REFRESH addresses every bank of its rank, any other command one bank. */
  predicate SendableTo(c: Config, row: seq<Bank>, p: Packet, now: int) {
    && p.bank < |row|
    && (forall j :: 0 <= j < |row| && (j == p.bank || p.kind == REFRESH) ==> MaySend(c, row[j], p, now))
  }

  predicate Sendable(c: Config, table: seq<seq<Bank>>, p: Packet, now: int) {
    p.rank < |table| && SendableTo(c, table[p.rank], p, now)
  }

  /** One bank, one command: what the controller sends at `now` and the rank takes at
      `now + 1` leaves the two entries in agreement. */
  lemma SendKeepsBank(c: Config, m: Bank, r: Bank, p: Packet, now: int, rank: nat, bank: nat)
    requires c.Valid()
    requires BankAgrees(c, m, r, now)
    requires p.kind != DATA
    requires rank == p.rank && (bank == p.bank || p.kind == REFRESH) ==> MaySend(c, m, p, now)
    ensures BankAgrees(c, SendBank(c, m, p, now, rank, bank),
                       if rank == p.rank then TakeBank(c, r, p, now + 1, bank) else r, now)
  {
  }

  /** The rank takes, one cycle later, every command the controller may send. */
  lemma SendIsAccepted(c: Config, ms: seq<Bank>, rs: seq<Bank>, down: bool, p: Packet, now: int)
    requires c.Valid()
    requires SendableTo(c, ms, p, now)
    requires RankAgrees(c, ms, rs, down, now)
    ensures Accepts(rs, p, now + 1)
  {
    if p.kind == REFRESH {
      forall j | 0 <= j < |rs| ensures rs[j].phase == Idle {
        assert MaySend(c, ms[j], p, now) && BankAgrees(c, ms[j], rs[j], now);
      }
    } else {
      assert MaySend(c, ms[p.bank], p, now) && BankAgrees(c, ms[p.bank], rs[p.bank], now);
    }
  }

  /** Sending and taking keep a whole rank in agreement. */
  lemma SendKeepsRank(c: Config, ms: seq<Bank>, rs: seq<Bank>, down: bool, p: Packet, now: int, rank: nat)
    requires c.Valid()
    requires p.kind != DATA
    requires rank == p.rank ==> SendableTo(c, ms, p, now)
    requires RankAgrees(c, ms, rs, down, now)
    ensures RankAgrees(c, SendRow(c, ms, p, now, rank),
                       if rank == p.rank then TakeBanks(c, rs, p, now + 1) else rs, down, now)
  {
    var ms' := SendRow(c, ms, p, now, rank);
    forall j | 0 <= j < |ms|
      ensures BankAgrees(c, ms'[j], if rank == p.rank then TakeBank(c, rs[j], p, now + 1, j) else rs[j], now)
    {
      SendKeepsBank(c, ms[j], rs[j], p, now, rank, j);
    }
    forall j | 0 <= j < |ms|
      ensures (ms'[j].phase == PowerDown <==> down) && ms'[j].nextPowerUp == ms[j].nextPowerUp
    {
      if rank == p.rank && (j == p.bank || p.kind == REFRESH) {
        assert MaySend(c, ms[j], p, now);
      }
    }
  }

  lemma TickKeepsRank(c: Config, ms: seq<Bank>, rs: seq<Bank>, down: bool, now: int)
    requires c.Valid()
    requires RankAgrees(c, ms, rs, down, now)
    ensures RankAgrees(c, TickRow(c, ms), rs, down, now + 1)
  {
    var ms' := TickRow(c, ms);
    forall j | 0 <= j < |ms|
      ensures BankAgrees(c, ms'[j], rs[j], now + 1)
      ensures (ms'[j].phase == PowerDown <==> down) && ms'[j].nextPowerUp == ms[j].nextPowerUp
    {
      assert BankAgrees(c, ms[j], rs[j], now) && CountdownOk(c, ms[j], now);
    }
  }
}
