/** When pop() must give a command out, stated on the queues and the bank table alone: whatever
    may leave does not wait for ever. */
module DramProgress {
  import opened Wrappers
  import opened DramTypes
  import opened DramBanks
  import opened DramQueue

  // ---- what may leave ----------------------------------------------------------------

  /** Fewer than four ACTIVATEs will count in the coming cycle: a counter at 1 runs out. */
  predicate WindowHasRoom(counters: seq<int>) {
    |counters| < 4 || (|counters| == 4 && counters[0] == 1)
  }

  /** The bank is in the state the command needs and its time has come. */
  predicate BankAllows(b: Bank, p: Packet, now: int) {
    match p.kind
    case ACTIVATE => b.phase != RowActive && b.phase != Precharging && b.phase != PowerDown && b.nextActivate <= now
    case READ => b.phase == RowActive && b.openRow == p.row && b.nextRead <= now
    case READ_P => b.phase == RowActive && b.openRow == p.row && b.nextRead <= now
    case WRITE => b.phase == RowActive && b.openRow == p.row && b.nextWrite <= now
    case WRITE_P => b.phase == RowActive && b.openRow == p.row && b.nextWrite <= now
    case PRECHARGE => b.phase == RowActive && b.nextPrecharge <= now
    case _ => false
  }

  /** Neither the four-activate window nor the row's access count is used up. */
  predicate RoomFor(c: Config, s: QueueState, p: Packet) {
    && p.rank < |s.faw| && p.rank < |s.accesses| && p.bank < |s.accesses[p.rank]|
    && (p.kind == ACTIVATE ==> WindowHasRoom(s.faw[p.rank]))
    && (p.kind.IsColumn() ==> s.accesses[p.rank][p.bank] < c.totalRowAccesses)
  }

  /** Some packet in front holds packet `i` back. */
  ghost predicate HeldBack(c: Config, q: seq<Packet>, i: nat)
    requires i < |q|
  {
    if c.policy == OpenPage then
      exists j :: 0 <= j < i && q[j].kind != ACTIVATE && q[j].bank == q[i].bank && q[j].row == q[i].row
    else if c.queuing == PerRank then
      i > 0 && q[i-1].kind == ACTIVATE && q[i-1].addr == q[i].addr
    else i > 0
  }

  ghost predicate MayLeave(c: Config, s: QueueState, table: seq<seq<Bank>>, r: nat, sl: nat, i: nat, now: int) {
    && r < |s.queues| && sl < |s.queues[r]| && i < |s.queues[r][sl]|
    && var p := s.queues[r][sl][i];
    && p.rank < |table| && p.bank < |table[p.rank]|
    && BankAllows(table[p.rank][p.bank], p, now)
    && RoomFor(c, s, p)
    && !HeldBack(c, s.queues[r][sl], i)
  }

  /** Rank `r` is kept clear for the refresh that waits. */
  predicate Cleared(s: QueueState, r: nat) { s.refreshWaiting && s.refreshRank == r }

  /** A packet of a rank that is not being cleared may leave. */
  ghost predicate SomeMayLeave(c: Config, s: QueueState, table: seq<seq<Bank>>, now: int) {
    exists r: nat, sl: nat, i: nat :: !Cleared(s, r) && MayLeave(c, s, table, r, sl, i, now)
  }

  ghost predicate IsLeaving(c: Config, s: QueueState, table: seq<seq<Bank>>, p: Packet, now: int) {
    exists r: nat, sl: nat, i: nat ::
      !Cleared(s, r) && MayLeave(c, s, table, r, sl, i, now) && s.queues[r][sl][i] == p
  }

  /** An open bank that may be closed, and either no packet of its queue goes to its row or
      the row has given all its accesses. */
  ghost predicate MayClose(c: Config, s: QueueState, table: seq<seq<Bank>>, r: nat, b: nat, now: int) {
    && r < |table| && b < |table[r]|
    && r < |s.queues| && Slot(c, b) < |s.queues[r]|
    && r < |s.accesses| && b < |s.accesses[r]|
    && var bank := table[r][b];
    && bank.phase == RowActive && bank.nextPrecharge <= now
    && (s.accesses[r][b] == c.totalRowAccesses
        || forall j :: 0 <= j < |s.queues[r][Slot(c, b)]| ==>
             !(s.queues[r][Slot(c, b)][j].bank == b && s.queues[r][Slot(c, b)][j].row == bank.openRow))
  }

  ghost predicate SomeMayClose(c: Config, s: QueueState, table: seq<seq<Bank>>, now: int) {
    exists r: nat, b: nat :: MayClose(c, s, table, r, b, now)
  }

  // ---- the searches find it ----------------------------------------------------------

  function Ticked(s: QueueState): QueueState { s.(faw := TickFaw(s.faw)) }

  lemma RoomAfterTick(c: Config, s: QueueState, table: seq<seq<Bank>>, p: Packet, now: int)
    requires Shaped(c, s) && TableShaped(c, table) && p.rank < c.ranks && p.bank < c.banks
    ensures Issuable(c, Ticked(s), table, p, now) <==> BankAllows(table[p.rank][p.bank], p, now) && RoomFor(c, s, p)
  {
  }

  /** A round robin comes to every place it goes through. */
  lemma WalkReaches(c: Config, byRank: bool, start: Spot, at: Spot) returns (k: nat)
    requires start.rank < c.ranks && start.bank < c.banks && at.rank < c.ranks && at.bank < c.banks
    requires byRank ==> at.bank == start.bank
    ensures k < Lap(c, byRank) && Walk(c, byRank, start, k) == at
  {
    var i, j, n := Index(c, byRank, start), Index(c, byRank, at), Lap(c, byRank);
    IndexInLap(c, byRank, start);
    IndexInLap(c, byRank, at);
    k := if j >= i then j - i else j + n - i;
    WalkIndex(c, byRank, start, k);
    WalkInRange(c, byRank, start, k);
    IndexDecides(c, byRank, Walk(c, byRank, start, k), at);
  }

  lemma ReadyFound(c: Config, s: QueueState, table: seq<seq<Bank>>, byRank: bool, start: Spot, now: int, k: nat)
    requires c.ranks > 0 && k < Lap(c, byRank) && Ready(c, s, table, Walk(c, byRank, start, k), now)
    ensures FirstReady(c, s, table, byRank, start, now) <= k
  {
    hide Ready, Walk;
    var p := (k: nat) => Ready(c, s, table, Walk(c, byRank, start, k), now);
    assert p(k);
  }

  lemma ClosableFound(c: Config, s: QueueState, table: seq<seq<Bank>>, start: Spot, now: int, k: nat)
    requires c.ranks > 0 && k < Lap(c, false) && Closable(c, s, table, Walk(c, false, start, k), now)
    ensures FirstClosable(c, s, table, start, now) <= k
  {
    hide Closable, Walk;
    var p := (k: nat) => Closable(c, s, table, Walk(c, false, start, k), now);
    assert p(k);
  }

  /** Where the search looks at the queue of rank `r` and slot `sl`. */
  function Place(c: Config, s: QueueState, r: nat, sl: nat): Spot {
    if c.queuing == PerRank then Spot(r, s.nextBank) else Spot(r, sl)
  }

  lemma EligibleIs(c: Config, s: QueueState, table: seq<seq<Bank>>, q: seq<Packet>, i: nat, now: int)
    requires Shaped(c, s) && TableShaped(c, table) && i < |q| && q[i].rank < c.ranks && q[i].bank < c.banks
    ensures Eligible(c, Ticked(s), table, q, i, now) <==>
              (BankAllows(table[q[i].rank][q[i].bank], q[i], now) && RoomFor(c, s, q[i]) && !HeldBack(c, q, i))
  {
    hide Issuable, BankAllows, RoomFor;
    RoomAfterTick(c, s, table, q[i], now);
  }

  lemma MayLeaveIsEligible(c: Config, s: QueueState, table: seq<seq<Bank>>, r: nat, sl: nat, i: nat, now: int)
    requires Shaped(c, s) && TableShaped(c, table) && PacketsInRange(c, s)
    requires r < c.ranks && sl < Slots(c) && i < |s.queues[r][sl]|
    ensures MayLeave(c, s, table, r, sl, i, now) <==> Eligible(c, Ticked(s), table, s.queues[r][sl], i, now)
  {
    hide Eligible, BankAllows, RoomFor, HeldBack;
    EligibleIs(c, s, table, s.queues[r][sl], i, now);
  }

  /** A queue with a packet that may leave stops the search. */
  lemma MayLeaveIsReady(c: Config, s: QueueState, table: seq<seq<Bank>>, r: nat, sl: nat, i: nat, now: int) returns (k: nat)
    requires c.Valid() && Shaped(c, s) && TableShaped(c, table) && PacketsInRange(c, s)
    requires MayLeave(c, s, table, r, sl, i, now) && !Cleared(s, r)
    ensures FirstReady(c, Ticked(s), table, c.queuing == PerRank, Spot(s.nextRank, s.nextBank), now) <= k < Lap(c, c.queuing == PerRank)
    ensures Walk(c, c.queuing == PerRank, Spot(s.nextRank, s.nextBank), k) == Place(c, s, r, sl)
  {
    hide Eligible, Walk, Lap, FirstReady;
    MayLeaveIsEligible(c, s, table, r, sl, i, now);
    var byRank := c.queuing == PerRank;
    var start := Spot(s.nextRank, s.nextBank);
    k := WalkReaches(c, byRank, start, Place(c, s, r, sl));
    assert QueueAt(c, Ticked(s), Place(c, s, r, sl)) == s.queues[r][sl];
    ReadyFound(c, Ticked(s), table, byRank, start, now, k);
  }

  /** A queue the search stops at has a packet that may leave, and gives that packet. */
  lemma ReadyMayLeave(c: Config, s: QueueState, table: seq<seq<Bank>>, at: Spot, now: int)
    requires c.Valid() && Shaped(c, s) && TableShaped(c, table) && PacketsInRange(c, s)
    requires at.rank < c.ranks && at.bank < c.banks && Ready(c, Ticked(s), table, at, now)
    ensures var d := TakeFrom(c, Ticked(s), table, at, now);
            && d.index < |s.queues[at.rank][Slot(c, at.bank)]|
            && MayLeave(c, s, table, at.rank, Slot(c, at.bank), d.index, now) && !Cleared(s, at.rank)
            && QueueAt(c, s, at) == QueueAt(c, Ticked(s), at) == s.queues[at.rank][Slot(c, at.bank)]
  {
    hide Eligible, MayLeave;
    var i := TakeFrom(c, Ticked(s), table, at, now).index;
    MayLeaveIsEligible(c, s, table, at.rank, Slot(c, at.bank), i, now);
  }

  lemma MayCloseIsClosable(c: Config, s: QueueState, table: seq<seq<Bank>>, r: nat, b: nat, now: int)
    requires Shaped(c, s) && TableShaped(c, table) && r < c.ranks && b < c.banks
    ensures MayClose(c, s, table, r, b, now) <==> Closable(c, Ticked(s), table, Spot(r, b), now)
  {
    var bank := table[r][b];
    var q := s.queues[r][Slot(c, b)];
    var j := FirstTo(q, b, bank.openRow);
    assert QueueAt(c, Ticked(s), Spot(r, b)) == q;
    hide FirstTo;
    if j == |q| {
      forall k: nat | k < |q| ensures !(q[k].bank == b && q[k].row == bank.openRow) {
        assert !GoesTo(q, k, b, bank.openRow);
      }
    }
  }

  // ---- the refresh path --------------------------------------------------------------

  predicate Quiet(b: Bank, now: int) { b.phase != RowActive && b.nextActivate <= now }

  ghost predicate AllQuiet(row: seq<Bank>, now: int) {
    forall b :: 0 <= b < |row| ==> Quiet(row[b], now)
  }

  /** The first bank that keeps the REFRESH from going. */
  ghost predicate InTheWay(row: seq<Bank>, b: nat, now: int) {
    b < |row| && !Quiet(row[b], now) && forall k :: 0 <= k < b ==> Quiet(row[k], now)
  }

  /** Packet `j` is the first of its queue to bank `b` and row `row`. */
  ghost predicate FirstFor(q: seq<Packet>, j: nat, b: nat, row: nat) {
    && j < |q| && q[j].bank == b && q[j].row == row
    && forall k :: 0 <= k < j ==> !(q[k].bank == b && q[k].row == row)
  }

  /** The refresh may go: every bank of its rank is quiet and the rank is not powered down. */
  ghost predicate RefreshGoes(c: Config, s: QueueState, table: seq<seq<Bank>>, now: int)
    requires Shaped(c, s) && TableShaped(c, table) && c.Valid()
  {
    && s.refreshWaiting
    && AllQuiet(table[s.refreshRank], now) && table[s.refreshRank][0].phase != PowerDown
  }

  /** The first open bank in its way: the next packet to the open row may go. */
  ghost predicate Drains(c: Config, s: QueueState, table: seq<seq<Bank>>, b: nat, j: nat, now: int)
    requires Shaped(c, s) && TableShaped(c, table) && c.Valid()
  {
    && s.refreshWaiting && b < c.banks
    && var r := s.refreshRank;
    && var q := s.queues[r][Slot(c, b)];
    && InTheWay(table[r], b, now) && table[r][b].phase == RowActive
    && FirstFor(q, j, b, table[r][b].openRow) && q[j].kind != ACTIVATE
    && q[j].rank < c.ranks && BankAllows(table[q[j].rank][b], q[j], now) && RoomFor(c, s, q[j])
  }

  /** Nothing more comes to the open row before the next ACTIVATE of its bank. */
  ghost predicate NobodyWaits(q: seq<Packet>, b: nat, row: nat) {
    forall j: nat :: FirstFor(q, j, b, row) ==> q[j].kind == ACTIVATE
  }

  /** ... or nobody waits for it and, in open page, it may be closed. */
  ghost predicate Closes(c: Config, s: QueueState, table: seq<seq<Bank>>, b: nat, now: int)
    requires Shaped(c, s) && TableShaped(c, table) && c.Valid()
  {
    && s.refreshWaiting && b < c.banks && c.policy == OpenPage
    && var r := s.refreshRank;
    && InTheWay(table[r], b, now) && table[r][b].phase == RowActive && table[r][b].nextPrecharge <= now
    && NobodyWaits(s.queues[r][Slot(c, b)], b, table[r][b].openRow)
  }

  ghost predicate RefreshActs(c: Config, s: QueueState, table: seq<seq<Bank>>, now: int)
    requires Shaped(c, s) && TableShaped(c, table) && c.Valid()
  {
    || RefreshGoes(c, s, table, now)
    || (exists b: nat, j: nat :: Drains(c, s, table, b, j, now))
    || (exists b: nat :: Closes(c, s, table, b, now))
  }

  lemma QuietOrBusy(row: seq<Bank>, now: int, b: nat)
    requires b <= |row|
    ensures FirstBusy(row, now) == b <==> (if b == |row| then AllQuiet(row, now) else InTheWay(row, b, now))
  {
    hide FirstBusy;
    var k := FirstBusy(row, now);
    forall i: nat | i < |row| ensures Busy(row, i, now) <==> !Quiet(row[i], now) {
    }
    hide Busy, Quiet;
    if k < |row| {
      assert Busy(row, k, now);
    }
    if b < |row| && InTheWay(row, b, now) {
      assert Busy(row, b, now) && k <= b;
    }
    if b < |row| && k == b {
      forall i | 0 <= i < b ensures Quiet(row[i], now) { assert !Busy(row, i, now); }
    }
    if k == |row| {
      forall i | 0 <= i < |row| ensures Quiet(row[i], now) { assert !Busy(row, i, now); }
    }
  }

  lemma FirstForIs(q: seq<Packet>, j: nat, b: nat, row: nat)
    ensures FirstFor(q, j, b, row) <==> j < |q| && FirstTo(q, b, row) == j
  {
    hide FirstTo;
    var k := FirstTo(q, b, row);
    forall i: nat | i < |q| ensures GoesTo(q, i, b, row) <==> (q[i].bank == b && q[i].row == row) {
    }
    if FirstFor(q, j, b, row) {
      assert GoesTo(q, j, b, row) && k <= j;
      assert GoesTo(q, k, b, row);
    }
    if k == j && j < |q| {
      assert GoesTo(q, j, b, row);
      forall i: nat | i < j ensures !(q[i].bank == b && q[i].row == row) { assert !GoesTo(q, i, b, row); }
    }
  }

  lemma RefreshAtBank(c: Config, s: QueueState, table: seq<seq<Bank>>, now: int, b: nat)
    requires c.Valid() && Shaped(c, s) && TableShaped(c, table)
    requires s.refreshWaiting && b < c.banks && InTheWay(table[s.refreshRank], b, now)
    ensures var r := s.refreshRank;
            var q := s.queues[r][Slot(c, b)];
            var j := FirstTo(q, b, table[r][b].openRow);
            RefreshDecision(c, Ticked(s), table, now) ==
              if table[r][b].phase != RowActive then Wait
              else if j < |q| && q[j].kind != ACTIVATE then
                if Issuable(c, Ticked(s), table, q[j], now) then Take(Spot(r, b), j, false) else Wait
              else if c.policy == OpenPage && now >= table[r][b].nextPrecharge then Close(r, b)
              else Wait
  {
    hide FirstBusy, FirstTo, Issuable, InTheWay;
    assert QueueAt(c, Ticked(s), Spot(s.refreshRank, b)) == s.queues[s.refreshRank][Slot(c, b)];
    QuietOrBusy(table[s.refreshRank], now, b);
  }

  lemma NobodyWaitsIs(q: seq<Packet>, b: nat, row: nat)
    ensures NobodyWaits(q, b, row) <==> (FirstTo(q, b, row) < |q| ==> q[FirstTo(q, b, row)].kind == ACTIVATE)
  {
    hide FirstTo, FirstFor;
    forall j: nat ensures FirstFor(q, j, b, row) <==> j < |q| && FirstTo(q, b, row) == j { FirstForIs(q, j, b, row); }
  }

  /** At the first bank in the way, if it is open: the two conditions in terms of the search. */
  lemma WhatActs(c: Config, s: QueueState, table: seq<seq<Bank>>, now: int, b: nat, j: nat)
    requires c.Valid() && Shaped(c, s) && TableShaped(c, table) && PacketsInRange(c, s)
    requires s.refreshWaiting && b < c.banks && InTheWay(table[s.refreshRank], b, now)
    requires table[s.refreshRank][b].phase == RowActive
    ensures var q := s.queues[s.refreshRank][Slot(c, b)];
            var i := FirstTo(q, b, table[s.refreshRank][b].openRow);
            && (Drains(c, s, table, b, j, now) <==> j == i && j < |q| && q[j].kind != ACTIVATE && Issuable(c, Ticked(s), table, q[j], now))
            && (Closes(c, s, table, b, now) <==>
                  c.policy == OpenPage && table[s.refreshRank][b].nextPrecharge <= now && (i < |q| ==> q[i].kind == ACTIVATE))
  {
    hide FirstTo, Issuable, BankAllows, RoomFor, InTheWay, FirstFor, NobodyWaits;
    var q := s.queues[s.refreshRank][Slot(c, b)];
    var open := table[s.refreshRank][b].openRow;
    FirstForIs(q, j, b, open);
    NobodyWaitsIs(q, b, open);
    if FirstFor(q, j, b, open) {
      assert q[j].bank == b by { assert GoesTo(q, FirstTo(q, b, open), b, open); }
      RoomAfterTick(c, s, table, q[j], now);
    }
  }

  lemma RefreshDecided(c: Config, s: QueueState, table: seq<seq<Bank>>, now: int, b: nat)
    requires c.Valid() && Shaped(c, s) && TableShaped(c, table) && PacketsInRange(c, s)
    requires s.refreshWaiting && b < c.banks && InTheWay(table[s.refreshRank], b, now)
    ensures var d, r := RefreshDecision(c, Ticked(s), table, now), s.refreshRank;
            && (forall j: nat :: Drains(c, s, table, b, j, now) ==> d == Take(Spot(r, b), j, false))
            && (Closes(c, s, table, b, now) ==> d == Close(r, b))
            && ((forall j: nat :: !Drains(c, s, table, b, j, now)) && !Closes(c, s, table, b, now) ==> d == Wait)
  {
    hide FirstTo, Issuable, InTheWay, RefreshDecision;
    RefreshAtBank(c, s, table, now, b);
    if table[s.refreshRank][b].phase == RowActive {
      hide Drains, Closes;
      forall j: nat ensures Drains(c, s, table, b, j, now) ==> RefreshDecision(c, Ticked(s), table, now) == Take(Spot(s.refreshRank, b), j, false) {
        WhatActs(c, s, table, now, b, j);
      }
      WhatActs(c, s, table, now, b, FirstTo(s.queues[s.refreshRank][Slot(c, b)], b, table[s.refreshRank][b].openRow));
    }
  }

  lemma AllQuietDecided(c: Config, s: QueueState, table: seq<seq<Bank>>, now: int)
    requires c.Valid() && Shaped(c, s) && TableShaped(c, table)
    requires s.refreshWaiting && AllQuiet(table[s.refreshRank], now)
    ensures RefreshDecision(c, Ticked(s), table, now) == if RefreshGoes(c, s, table, now) then Refresh(s.refreshRank) else Wait
  {
    hide FirstBusy, AllQuiet;
    QuietOrBusy(table[s.refreshRank], now, c.banks);
  }

  lemma RefreshIdle(c: Config, s: QueueState, table: seq<seq<Bank>>, now: int)
    requires c.Valid() && Shaped(c, s) && TableShaped(c, table) && PacketsInRange(c, s)
    requires !RefreshActs(c, s, table, now)
    ensures RefreshDecision(c, Ticked(s), table, now) == Wait
  {
    hide Drains, Closes, FirstBusy, AllQuiet, InTheWay;
    if s.refreshWaiting {
      var row := table[s.refreshRank];
      var b := FirstBusy(row, now);
      QuietOrBusy(row, now, b);
      if b < c.banks {
        assert !Closes(c, s, table, b, now) && forall j: nat :: !Drains(c, s, table, b, j, now);
        RefreshDecided(c, s, table, now, b);
      } else {
        AllQuietDecided(c, s, table, now);
      }
    }
  }

  /** The refresh path acts exactly when one of the three conditions holds. */
  lemma RefreshAnswers(c: Config, s: QueueState, table: seq<seq<Bank>>, now: int)
    requires c.Valid() && Shaped(c, s) && TableShaped(c, table) && PacketsInRange(c, s)
    ensures var d, r := RefreshDecision(c, Ticked(s), table, now), s.refreshRank;
            && (RefreshGoes(c, s, table, now) ==> d == Refresh(r))
            && (forall b: nat, j: nat :: Drains(c, s, table, b, j, now) ==> d == Take(Spot(r, b), j, false))
            && (forall b: nat :: Closes(c, s, table, b, now) ==> d == Close(r, b))
            && (!RefreshActs(c, s, table, now) ==> d == Wait)
  {
    hide RefreshDecision;
    if RefreshGoes(c, s, table, now) { AllQuietDecided(c, s, table, now); }
    forall b: nat, j: nat | Drains(c, s, table, b, j, now)
      ensures RefreshDecision(c, Ticked(s), table, now) == Take(Spot(s.refreshRank, b), j, false)
    {
      RefreshDecided(c, s, table, now, b);
    }
    forall b: nat | Closes(c, s, table, b, now)
      ensures RefreshDecision(c, Ticked(s), table, now) == Close(s.refreshRank, b)
    {
      RefreshDecided(c, s, table, now, b);
    }
    if !RefreshActs(c, s, table, now) { RefreshIdle(c, s, table, now); }
  }

  // ---- what pop() answers ------------------------------------------------------------

  /** How many queues the round robin passes before the one of rank `r` and slot `sl`. */
  function Turn(c: Config, s: QueueState, r: nat, sl: nat): int {
    var byRank := c.queuing == PerRank;
    var i, j := Index(c, byRank, Spot(s.nextRank, s.nextBank)), Index(c, byRank, Place(c, s, r, sl));
    if j >= i then j - i else j + Lap(c, byRank) - i
  }

  /** `p` is the first packet of its queue that may leave, and no queue before it in the round
      robin has one. */
  ghost predicate IsNext(c: Config, s: QueueState, table: seq<seq<Bank>>, p: Packet, now: int) {
    exists r: nat, sl: nat, i: nat :: IsNextAt(c, s, table, r, sl, i, now) && s.queues[r][sl][i] == p
  }

  ghost predicate IsNextAt(c: Config, s: QueueState, table: seq<seq<Bank>>, r: nat, sl: nat, i: nat, now: int) {
    && !Cleared(s, r) && MayLeave(c, s, table, r, sl, i, now)
    && (forall k: nat :: k < i ==> !MayLeave(c, s, table, r, sl, k, now))
    && (forall r2: nat, sl2: nat, k: nat :: !Cleared(s, r2) && MayLeave(c, s, table, r2, sl2, k, now) ==>
          Turn(c, s, r, sl) <= Turn(c, s, r2, sl2))
  }

  lemma TurnIs(c: Config, s: QueueState, r: nat, sl: nat, k: nat)
    requires c.Valid() && Shaped(c, s) && r < c.ranks && sl < Slots(c)
    requires k < Lap(c, c.queuing == PerRank)
    requires Walk(c, c.queuing == PerRank, Spot(s.nextRank, s.nextBank), k) == Place(c, s, r, sl)
    ensures Turn(c, s, r, sl) == k
  {
    hide Walk, Lap, Index;
    var byRank := c.queuing == PerRank;
    var start := Spot(s.nextRank, s.nextBank);
    IndexInLap(c, byRank, start);
    IndexInLap(c, byRank, Place(c, s, r, sl));
    WalkIndex(c, byRank, start, k);
  }

  /** The queue the search stops at. */
  lemma SearchFinds(c: Config, s: QueueState, table: seq<seq<Bank>>, now: int, k: nat)
    requires c.Valid() && Shaped(c, s) && TableShaped(c, table) && PacketsInRange(c, s)
    requires k == FirstReady(c, Ticked(s), table, c.queuing == PerRank, Spot(s.nextRank, s.nextBank), now)
    ensures k == Lap(c, c.queuing == PerRank) <==> !SomeMayLeave(c, s, table, now)
    ensures k < Lap(c, c.queuing == PerRank) ==>
              var at := Walk(c, c.queuing == PerRank, Spot(s.nextRank, s.nextBank), k);
              && at.rank < c.ranks && at.bank < c.banks
              && var d := TakeFrom(c, Ticked(s), table, at, now);
              IsNextAt(c, s, table, at.rank, Slot(c, at.bank), d.index, now) && QueueAt(c, s, at) == s.queues[at.rank][Slot(c, at.bank)]
  {
    hide Walk, Lap, FirstReady, MayLeave, Ready, Turn;
    var byRank := c.queuing == PerRank;
    var start := Spot(s.nextRank, s.nextBank);
    forall r: nat, sl: nat, i: nat | !Cleared(s, r) && MayLeave(c, s, table, r, sl, i, now)
      ensures k < Lap(c, byRank) && k <= Turn(c, s, r, sl)
    {
      var k2 := MayLeaveIsReady(c, s, table, r, sl, i, now);
      MayLeaveInRange(c, s, table, r, sl, i, now);
      TurnIs(c, s, r, sl, k2);
    }
    FirstReadyIs(c, Ticked(s), table, byRank, start, now);
    if k < Lap(c, byRank) {
      WalkInRange(c, byRank, start, k);
      var at := Walk(c, byRank, start, k);
      ReadyMayLeave(c, s, table, at, now);
      FoundIsNext(c, s, table, at, now, k);
    }
  }

  lemma FirstReadyIs(c: Config, s: QueueState, table: seq<seq<Bank>>, byRank: bool, start: Spot, now: int)
    requires c.ranks > 0
    ensures FirstReady(c, s, table, byRank, start, now) <= Lap(c, byRank)
    ensures var k := FirstReady(c, s, table, byRank, start, now);
            k < Lap(c, byRank) ==> Ready(c, s, table, Walk(c, byRank, start, k), now)
  {
  }

  lemma MayLeaveInRange(c: Config, s: QueueState, table: seq<seq<Bank>>, r: nat, sl: nat, i: nat, now: int)
    requires Shaped(c, s) && MayLeave(c, s, table, r, sl, i, now)
    ensures r < c.ranks && sl < Slots(c) && i < |s.queues[r][sl]|
  {
  }

  /** The picked packet is the first of its queue that may leave. */
  lemma FoundIsNext(c: Config, s: QueueState, table: seq<seq<Bank>>, at: Spot, now: int, k: nat)
    requires c.Valid() && Shaped(c, s) && TableShaped(c, table) && PacketsInRange(c, s)
    requires at.rank < c.ranks && at.bank < c.banks && Ready(c, Ticked(s), table, at, now)
    requires k < Lap(c, c.queuing == PerRank) && at == Walk(c, c.queuing == PerRank, Spot(s.nextRank, s.nextBank), k)
    ensures Turn(c, s, at.rank, Slot(c, at.bank)) == k
    ensures forall i: nat :: i < TakeFrom(c, Ticked(s), table, at, now).index ==> !MayLeave(c, s, table, at.rank, Slot(c, at.bank), i, now)
  {
    hide Walk, Lap, MayLeave, Eligible, Turn;
    var q := s.queues[at.rank][Slot(c, at.bank)];
    var d := TakeFrom(c, Ticked(s), table, at, now);
    forall i: nat | i < d.index ensures !MayLeave(c, s, table, at.rank, Slot(c, at.bank), i, now) {
      assert QueueAt(c, Ticked(s), at) == q && !Eligible(c, Ticked(s), table, q, i, now);
      MayLeaveIsEligible(c, s, table, at.rank, Slot(c, at.bank), i, now);
    }
    WalkIndex(c, c.queuing == PerRank, Spot(s.nextRank, s.nextBank), k);
    TurnIs(c, s, at.rank, Slot(c, at.bank), k);
  }

  /** What the search for a bank to close ends with. */
  lemma CloseFinds(c: Config, s: QueueState, table: seq<seq<Bank>>, now: int)
    requires c.Valid() && Shaped(c, s) && TableShaped(c, table)
    ensures var d := PreSearch(c, Ticked(s), table, now).0;
            if SomeMayClose(c, s, table, now) then d.Close? && MayClose(c, s, table, d.rank, d.bank, now) else d == Wait
  {
    hide Walk, Lap, FirstClosable, MayClose, Closable;
    var start := Spot(s.nextRankPre, s.nextBankPre);
    var k := FirstClosable(c, Ticked(s), table, start, now);
    FirstClosableIs(c, Ticked(s), table, start, now);
    forall r: nat, b: nat | MayClose(c, s, table, r, b, now) ensures k < Lap(c, false) {
      MayCloseInRange(c, s, table, r, b, now);
      MayCloseIsClosable(c, s, table, r, b, now);
      var k2 := WalkReaches(c, false, start, Spot(r, b));
      ClosableFound(c, Ticked(s), table, start, now, k2);
    }
    if k < Lap(c, false) {
      WalkInRange(c, false, start, k);
      var at := Walk(c, false, start, k);
      MayCloseIsClosable(c, s, table, at.rank, at.bank, now);
    }
  }

  lemma FirstClosableIs(c: Config, s: QueueState, table: seq<seq<Bank>>, start: Spot, now: int)
    requires c.ranks > 0
    ensures var k := FirstClosable(c, s, table, start, now);
            k < Lap(c, false) ==> Closable(c, s, table, Walk(c, false, start, k), now)
  {
  }

  lemma MayCloseInRange(c: Config, s: QueueState, table: seq<seq<Bank>>, r: nat, b: nat, now: int)
    requires Shaped(c, s) && TableShaped(c, table) && MayClose(c, s, table, r, b, now)
    ensures r < c.ranks && b < c.banks
  {
  }

  /** The decision of pop() when the refresh path does nothing. */
  lemma NormalDecided(c: Config, s: QueueState, table: seq<seq<Bank>>, now: int)
    requires c.Valid() && Shaped(c, s) && TableShaped(c, table) && PacketsInRange(c, s)
    requires RefreshDecision(c, Ticked(s), table, now) == Wait
    ensures var d := Decide(c, Ticked(s), table, now).0;
            if SomeMayLeave(c, s, table, now) then
              d.Take? && d.at.rank < c.ranks && d.at.bank < c.banks
              && IsNextAt(c, s, table, d.at.rank, Slot(c, d.at.bank), d.index, now)
              && QueueAt(c, s, d.at) == s.queues[d.at.rank][Slot(c, d.at.bank)]
            else if c.policy == OpenPage && SomeMayClose(c, s, table, now) then d.Close? && MayClose(c, s, table, d.rank, d.bank, now)
            else d == Wait
  {
    hide FirstReady, Walk, Lap, RefreshDecision, SomeMayLeave, SomeMayClose, IsNextAt, MayClose, PreSearch;
    SearchFinds(c, s, table, now, FirstReady(c, Ticked(s), table, c.queuing == PerRank, Spot(s.nextRank, s.nextBank), now));
    FirstReadyIs(c, Ticked(s), table, c.queuing == PerRank, Spot(s.nextRank, s.nextBank), now);
    CloseFinds(c, s, table, now);
  }

  /** The packet of a decision, and the refresh it may end. */
  lemma PopGives(c: Config, s: QueueState, table: seq<seq<Bank>>, now: int)
    requires c.Valid() && Shaped(c, s) && TableShaped(c, table) && PacketsInRange(c, s)
    ensures var d := Decide(c, Ticked(s), table, now).0;
            var (p, s') := Pop(c, s, table, now);
            match d
            case Wait => p == None
            case Refresh(r) => p == Some(Packet(REFRESH, 0, 0, 0, r, 0, 0)) && !s'.refreshWaiting
            case Close(r, b) => p == Some(Packet(PRECHARGE, 0, 0, 0, r, b, 0))
            case Take(at, i, _) => i < |QueueAt(c, s, at)| && p == Some(QueueAt(c, s, at)[i])
  {
    hide Decide;
    DecideShaped(c, Ticked(s), table, now);
    var (d, q1) := Decide(c, Ticked(s), table, now);
    if d.Take? { assert QueueAt(c, q1, d.at) == QueueAt(c, s, d.at); }
  }

  lemma DecideRefresh(c: Config, s: QueueState, table: seq<seq<Bank>>, now: int)
    requires c.Valid() && Shaped(c, s) && TableShaped(c, table)
    requires RefreshDecision(c, s, table, now) != Wait
    ensures Decide(c, s, table, now).0 == RefreshDecision(c, s, table, now)
  {
    hide RefreshDecision;
  }

  /** With a refresh waiting: once every bank of its rank is quiet the REFRESH goes; until then
      the next command to the first open row in the way goes, or in open page its PRECHARGE. */
  lemma RefreshComesThrough(c: Config, s: QueueState, table: seq<seq<Bank>>, now: int)
    requires c.Valid() && Shaped(c, s) && TableShaped(c, table) && PacketsInRange(c, s)
    ensures var (p, s') := Pop(c, s, table, now);
            && (RefreshGoes(c, s, table, now) ==>
                  p == Some(Packet(REFRESH, 0, 0, 0, s.refreshRank, 0, 0)) && !s'.refreshWaiting)
            && (forall b: nat, j: nat :: Drains(c, s, table, b, j, now) ==> p == Some(s.queues[s.refreshRank][Slot(c, b)][j]))
            && (forall b: nat :: Closes(c, s, table, b, now) ==> p == Some(Packet(PRECHARGE, 0, 0, 0, s.refreshRank, b, 0)))
  {
    hide Pop, Decide, RefreshDecision, RefreshGoes, Closes;
    RefreshAnswers(c, s, table, now);
    PopGives(c, s, table, now);
    if RefreshDecision(c, Ticked(s), table, now) != Wait { DecideRefresh(c, Ticked(s), table, now); }
    forall b: nat, j: nat | Drains(c, s, table, b, j, now)
      ensures Pop(c, s, table, now).0 == Some(s.queues[s.refreshRank][Slot(c, b)][j])
    {
      assert QueueAt(c, s, Spot(s.refreshRank, b)) == s.queues[s.refreshRank][Slot(c, b)];
    }
  }

  /** Otherwise the next packet that may leave goes; if none may, in open page, the PRECHARGE of
      a bank that may be closed; and only if there is none either does nothing go. */
  lemma PopMakesProgress(c: Config, s: QueueState, table: seq<seq<Bank>>, now: int)
    requires c.Valid() && Shaped(c, s) && TableShaped(c, table) && PacketsInRange(c, s)
    requires !RefreshActs(c, s, table, now)
    ensures var p := Pop(c, s, table, now).0;
            && (SomeMayLeave(c, s, table, now) ==> p.Some? && IsNext(c, s, table, p.value, now))
            && (!SomeMayLeave(c, s, table, now) && c.policy == OpenPage && SomeMayClose(c, s, table, now) ==>
                  p.Some? && p.value.kind == PRECHARGE && MayClose(c, s, table, p.value.rank, p.value.bank, now))
            && (!SomeMayLeave(c, s, table, now) && (c.policy == OpenPage ==> !SomeMayClose(c, s, table, now)) ==> p == None)
  {
    hide Pop, Decide, RefreshDecision, SomeMayLeave, SomeMayClose, IsNextAt, MayClose, RefreshActs;
    RefreshIdle(c, s, table, now);
    PopGives(c, s, table, now);
    NormalDecided(c, s, table, now);
    var d := Decide(c, Ticked(s), table, now).0;
    if SomeMayLeave(c, s, table, now) {
      assert IsNextAt(c, s, table, d.at.rank, Slot(c, d.at.bank), d.index, now);
    }
  }

  /** pop() gives nothing exactly when no refresh step, no packet and no bank is ready. */
  lemma NothingGoes(c: Config, s: QueueState, table: seq<seq<Bank>>, now: int)
    requires c.Valid() && Shaped(c, s) && TableShaped(c, table) && PacketsInRange(c, s)
    ensures Pop(c, s, table, now).0 == None <==>
              (!RefreshActs(c, s, table, now) && !SomeMayLeave(c, s, table, now)
               && (c.policy == OpenPage ==> !SomeMayClose(c, s, table, now)))
  {
    hide Pop, SomeMayLeave, SomeMayClose, RefreshGoes, Closes, Drains, MayClose;
    if RefreshActs(c, s, table, now) {
      RefreshComesThrough(c, s, table, now);
    } else {
      PopMakesProgress(c, s, table, now);
    }
  }

  // ---- taking turns ------------------------------------------------------------------

  /** The queue's number in the round robin, which the pointer steps through one by one. */
  predicate PointerIsFair(c: Config) { c.queuing == PerRankPerBank || c.scheduling == RankThenBank }

  lemma NextIndex(c: Config, at: Spot)
    requires at.rank < c.ranks && at.bank < c.banks && PointerIsFair(c)
    ensures var byRank := c.queuing == PerRank;
            var i, n := Index(c, byRank, at), Lap(c, byRank);
            Index(c, byRank, NextSpot(c, at)) == (if i + 1 == n then 0 else i + 1) && i < n
  {
    StepIndex(c, c.queuing == PerRank, at);
    IndexInLap(c, c.queuing == PerRank, at);
  }

  /** Where the pointer stands after a packet of the queue at `at` was given out. */
  lemma PointerAfterTake(c: Config, s: QueueState, table: seq<seq<Bank>>, now: int)
    requires c.Valid() && Shaped(c, s) && TableShaped(c, table) && PacketsInRange(c, s)
    requires RefreshDecision(c, Ticked(s), table, now) == Wait && Decide(c, Ticked(s), table, now).0.Take?
    ensures var at, s' := Decide(c, Ticked(s), table, now).0.at, Pop(c, s, table, now).1;
            && s'.sendAct == !(c.t.AL > 0 && s.sendAct)
            && Spot(s'.nextRank, s'.nextBank) == (if c.t.AL > 0 && s.sendAct then at else NextSpot(c, at))
            && at.rank < c.ranks && at.bank < c.banks && (c.queuing == PerRank ==> at.bank == s.nextBank)
  {
    hide RefreshDecision, FirstReady, Lap, Walk, PreSearch;
    DecideShaped(c, Ticked(s), table, now);
    PointerInDecide(c, Ticked(s), table, now);
    var (d, q1) := Decide(c, Ticked(s), table, now);
    hide Decide, NextSpot;
    CommitPointers(c, q1, d);
  }

  lemma CommitPointers(c: Config, s: QueueState, d: Decision)
    requires Shaped(c, s) && DecisionShaped(c, s, d)
    ensures var s' := Commit(c, s, d);
            s'.nextRank == s.nextRank && s'.nextBank == s.nextBank && s'.sendAct == s.sendAct
  {
  }

  lemma PointerInDecide(c: Config, s: QueueState, table: seq<seq<Bank>>, now: int)
    requires c.Valid() && Shaped(c, s) && TableShaped(c, table)
    requires RefreshDecision(c, s, table, now) == Wait && Decide(c, s, table, now).0.Take?
    ensures var (d, s') := Decide(c, s, table, now);
            && Spot(s'.nextRank, s'.nextBank) == d.at && d.at.rank < c.ranks && d.at.bank < c.banks
            && (c.queuing == PerRank ==> d.at.bank == s.nextBank) && s'.sendAct == s.sendAct
  {
    hide RefreshDecision, FirstReady, Lap, Walk;
    var byRank := c.queuing == PerRank;
    var start := Spot(s.nextRank, s.nextBank);
    var k := FirstReady(c, s, table, byRank, start, now);
    FirstReadyIs(c, s, table, byRank, start, now);
    if k <= Lap(c, byRank) {
      WalkIndex(c, byRank, start, k);
      WalkInRange(c, byRank, start, k);
    }
  }

  /** A queue that is served goes to the end of the round robin, and every queue behind it comes
      nearer; with additive latency it stays in front for the column command of its ACTIVATE. */
  lemma ServedGoesLast(c: Config, s: QueueState, table: seq<seq<Bank>>, now: int) returns (r: nat, sl: nat, i: nat)
    requires c.Valid() && Shaped(c, s) && TableShaped(c, table) && PacketsInRange(c, s)
    requires !RefreshActs(c, s, table, now) && SomeMayLeave(c, s, table, now) && PointerIsFair(c)
    ensures IsNextAt(c, s, table, r, sl, i, now) && Pop(c, s, table, now).0 == Some(s.queues[r][sl][i])
    ensures var s' := Pop(c, s, table, now).1;
            if c.t.AL > 0 && s.sendAct then !s'.sendAct && Turn(c, s', r, sl) == 0
            else
              && s'.sendAct && Turn(c, s', r, sl) == Lap(c, c.queuing == PerRank) - 1
              && (forall r2: nat, sl2: nat :: r2 < c.ranks && sl2 < Slots(c) && Turn(c, s, r2, sl2) > Turn(c, s, r, sl) ==>
                    Turn(c, s', r2, sl2) < Turn(c, s, r2, sl2))
  {
    hide Pop, Decide, RefreshDecision, SomeMayLeave, SomeMayClose, IsNextAt, MayClose, RefreshActs, Index, Lap, NextSpot;
    RefreshIdle(c, s, table, now);
    PopGives(c, s, table, now);
    NormalDecided(c, s, table, now);
    PointerAfterTake(c, s, table, now);
    var d := Decide(c, Ticked(s), table, now).0;
    r, sl, i := d.at.rank, Slot(c, d.at.bank), d.index;
    var byRank := c.queuing == PerRank;
    var s' := Pop(c, s, table, now).1;
    NextIndex(c, d.at);
    IndexInLap(c, byRank, Spot(s.nextRank, s.nextBank));
    SamePlace(c, s, d.at, s'.nextBank);
    forall r2: nat, sl2: nat | r2 < c.ranks && sl2 < Slots(c) && Turn(c, s, r2, sl2) > Turn(c, s, r, sl)
      ensures !(c.t.AL > 0 && s.sendAct) ==> Turn(c, s', r2, sl2) < Turn(c, s, r2, sl2)
    {
      IndexInLap(c, byRank, Place(c, s, r2, sl2));
      SamePlace(c, s, Place(c, s, r2, sl2), s'.nextBank);
    }
  }

  /** How many banks the search for a PRECHARGE passes before bank (r, b). */
  function CloseTurn(c: Config, s: QueueState, r: nat, b: nat): int {
    var i, j := Index(c, false, Spot(s.nextRankPre, s.nextBankPre)), Index(c, false, Spot(r, b));
    if j >= i then j - i else j + Lap(c, false) - i
  }

  lemma CloseTurnIs(c: Config, s: QueueState, r: nat, b: nat, k: nat)
    requires Shaped(c, s) && c.Valid() && r < c.ranks && b < c.banks && k < Lap(c, false)
    requires Walk(c, false, Spot(s.nextRankPre, s.nextBankPre), k) == Spot(r, b)
    ensures CloseTurn(c, s, r, b) == k
  {
    hide Walk, Lap, Index;
    IndexInLap(c, false, Spot(s.nextRankPre, s.nextBankPre));
    IndexInLap(c, false, Spot(r, b));
    WalkIndex(c, false, Spot(s.nextRankPre, s.nextBankPre), k);
  }

  lemma CloseStopsFirst(c: Config, s: QueueState, table: seq<seq<Bank>>, now: int)
    requires c.Valid() && Shaped(c, s) && TableShaped(c, table) && SomeMayClose(c, s, table, now)
    ensures var (d, s') := PreSearch(c, Ticked(s), table, now);
            && d.Close? && s'.nextRankPre == d.rank && s'.nextBankPre == d.bank
            && forall r: nat, b: nat :: MayClose(c, s, table, r, b, now) ==> CloseTurn(c, s, d.rank, d.bank) <= CloseTurn(c, s, r, b)
  {
    hide Walk, Lap, FirstClosable, MayClose, Closable, CloseTurn;
    var start := Spot(s.nextRankPre, s.nextBankPre);
    var k := FirstClosable(c, Ticked(s), table, start, now);
    CloseFinds(c, s, table, now);
    var d := PreSearch(c, Ticked(s), table, now).0;
    MayCloseInRange(c, s, table, d.rank, d.bank, now);
    CloseTurnIs(c, s, d.rank, d.bank, k);
    forall r: nat, b: nat | MayClose(c, s, table, r, b, now) ensures k <= CloseTurn(c, s, r, b) {
      MayCloseInRange(c, s, table, r, b, now);
      MayCloseIsClosable(c, s, table, r, b, now);
      var k2 := WalkReaches(c, false, start, Spot(r, b));
      ClosableFound(c, Ticked(s), table, start, now, k2);
      CloseTurnIs(c, s, r, b, k2);
    }
  }

  /** The PRECHARGE that goes is that of the first bank in turn that may be closed, and the next
      search starts there. */
  lemma ClosesInTurn(c: Config, s: QueueState, table: seq<seq<Bank>>, now: int)
    requires c.Valid() && Shaped(c, s) && TableShaped(c, table) && PacketsInRange(c, s) && c.policy == OpenPage
    requires !RefreshActs(c, s, table, now) && !SomeMayLeave(c, s, table, now) && SomeMayClose(c, s, table, now)
    ensures var (p, s') := Pop(c, s, table, now);
            && p.Some? && p.value.kind == PRECHARGE && MayClose(c, s, table, p.value.rank, p.value.bank, now)
            && (forall r: nat, b: nat :: MayClose(c, s, table, r, b, now) ==>
                  CloseTurn(c, s, p.value.rank, p.value.bank) <= CloseTurn(c, s, r, b))
            && s'.nextRankPre == p.value.rank && s'.nextBankPre == p.value.bank
  {
    hide FirstReady, Walk, Lap, RefreshDecision, SomeMayLeave, SomeMayClose, MayClose, PreSearch, CloseTurn, RefreshActs, MayLeave;
    RefreshIdle(c, s, table, now);
    PopMakesProgress(c, s, table, now);
    DecideShaped(c, Ticked(s), table, now);
    SearchFinds(c, s, table, now, FirstReady(c, Ticked(s), table, c.queuing == PerRank, Spot(s.nextRank, s.nextBank), now));
    FirstReadyIs(c, Ticked(s), table, c.queuing == PerRank, Spot(s.nextRank, s.nextBank), now);
    CloseStopsFirst(c, s, table, now);
    var (d, q1) := Decide(c, Ticked(s), table, now);
    assert (d, q1) == PreSearch(c, Ticked(s), table, now);
    SettleKeepsPre(c, q1, d);
  }

  lemma SettleKeepsPre(c: Config, s: QueueState, d: Decision)
    requires c.Valid() && Shaped(c, s) && DecisionShaped(c, s, d) && d.Close?
    ensures Shaped(c, Commit(c, s, d)) && Chosen(c, s, d) == Packet(PRECHARGE, 0, 0, 0, d.rank, d.bank, 0)
    ensures var s' := Settle(c, Commit(c, s, d), Chosen(c, s, d));
            s'.nextRankPre == s.nextRankPre && s'.nextBankPre == s.nextBankPre
  {
  }

  /** A queue's number does not depend on the bank the pointer stands at. */
  lemma SamePlace(c: Config, s: QueueState, at: Spot, bank: nat)
    requires at.rank < c.ranks && at.bank < c.banks && (c.queuing == PerRank ==> at.bank == s.nextBank)
    ensures Index(c, c.queuing == PerRank, at) == Index(c, c.queuing == PerRank, Place(c, s, at.rank, Slot(c, at.bank)))
    ensures Index(c, c.queuing == PerRank, at) == Index(c, c.queuing == PerRank, Place(c, s.(nextBank := bank), at.rank, Slot(c, at.bank)))
  {
  }
}
