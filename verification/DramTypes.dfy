/** Values exchanged and kept by the DRAM model: the timing parameters and the delays
    derived from them, command packets, transactions, and one bank's bookkeeping. */
module DramTypes {
  function Max(a: int, b: int): int { if a >= b then a else b }

  datatype RowPolicy = OpenPage | ClosePage
  datatype Queuing = PerRank | PerRankPerBank
  datatype Scheduling = RankThenBank | BankThenRank

  /** Where an address lives inside one channel. */
  datatype Location = Location(rank: nat, bank: nat, row: nat, column: nat)

  /** Device timing, in cycles, with the names the device files use. */
  datatype Timing = Timing(
    CL: nat, AL: nat, BL: nat,
    tRAS: nat, tRCD: nat, tRRD: nat, tRC: nat, tRP: nat, tCCD: nat, tRTP: nat,
    tWTR: nat, tWR: nat, tRTRS: nat, tRFC: nat, tFAW: nat, tCKE: nat, tXP: nat, tCMD: nat)
  {
    function Burst(): int { BL / 2 }
    function RL(): int { CL + AL }
    function WL(): int { RL() - 1 }
    function ColumnGap(): int { Max(tCCD, Burst()) }
    function ReadToPre(): int { AL + Burst() + Max(tRTP, tCCD) - tCCD }
    function WriteToPre(): int { WL() + Burst() + tWR }
    function ReadToWrite(): int { RL() + Burst() + tRTRS - WL() }
    function ReadAutopre(): int { AL + tRTP + tRP }
    function WriteAutopre(): int { WL() + Burst() + tWR + tRP }
    function WriteToReadSameRank(): int { WL() + Burst() + tWTR }
    function WriteToReadOtherRank(): int { WL() + Burst() + tRTRS - RL() }

    /** What the device files in config/ satisfy and the simulator relies on. */
    predicate Valid() {
      && tCMD == 1
      && AL <= tRCD
      && BL >= 2
      && WL() >= 1
      && tFAW >= 1
      && ReadToPre() <= ReadAutopre()
      && Burst() <= tRCD - AL + 1
      && Burst() <= ReadAutopre()
      && tCCD <= ReadAutopre()
      && tCCD <= WriteAutopre()
    }
  }

  datatype Config = Config(
    t: Timing,
    ranks: nat, banks: nat,
    cmdQueueDepth: nat, transQueueDepth: nat, totalRowAccesses: nat,
    policy: RowPolicy, queuing: Queuing, scheduling: Scheduling,
    lowPower: bool, refreshInterval: nat,
    locate: nat -> Location)
  {
    predicate Valid() {
      && t.Valid()
      && ranks >= 1
      && banks >= 1
      && totalRowAccesses >= 1
    }

    predicate InRange(addr: nat) {
      locate(addr).rank < ranks && locate(addr).bank < banks
    }
  }

  datatype Kind = READ | READ_P | WRITE | WRITE_P | ACTIVATE | PRECHARGE | REFRESH | DATA
  {
    predicate IsRead() { this == READ || this == READ_P }
    predicate IsWrite() { this == WRITE || this == WRITE_P }
    predicate IsColumn() { IsRead() || IsWrite() }
    predicate IsAuto() { this == READ_P || this == WRITE_P }
  }

  /** A packet on a bus. `tag` is the arrival number of the transaction it came from; the
      simulator has no such field, the model uses it to speak about order. */
  datatype Packet = Packet(kind: Kind, addr: nat, column: nat, row: nat, rank: nat, bank: nat, tag: nat)

  datatype Transaction = Transaction(isRead: bool, addr: nat, tag: nat)

  function ColumnKind(policy: RowPolicy, isRead: bool): Kind {
    match policy
    case ClosePage => if isRead then READ_P else WRITE_P
    case OpenPage => if isRead then READ else WRITE
  }

  datatype Phase = Idle | RowActive | Precharging | Refreshing | PowerDown

  /** One bank as either side remembers it (the rank ignores the last two fields). */
  datatype Bank = Bank(
    phase: Phase, openRow: nat,
    nextRead: int, nextWrite: int, nextActivate: int, nextPrecharge: int, nextPowerUp: int,
    lastCommand: Kind, countdown: int)

  const FRESH_BANK := Bank(Idle, 0, 0, 0, 0, 0, 0, READ, 0)
}
