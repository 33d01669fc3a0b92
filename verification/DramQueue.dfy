/** CommandQueue as a function of its state: which command pop() lets go, and the queue
    afterwards. */
module DramQueue {
  import opened Wrappers
  import Arithmetic
  import opened DramTypes
  import opened DramBanks

  datatype QueueState = QueueState(
    queues: seq<seq<seq<Packet>>>,
    nextRank: nat, nextBank: nat,
    nextRankPre: nat, nextBankPre: nat,
    refreshRank: nat, refreshWaiting: bool,
    faw: seq<seq<int>>,
    accesses: seq<seq<nat>>,
    sendAct: bool)

  /** The unsigned value of -1, stored when no refresh is wanted. */
  const NO_RANK: nat := 0xFFFF_FFFF

  function Slots(c: Config): nat {
    match c.queuing
    case PerRank => 1
    case PerRankPerBank => c.banks
  }

  /** getCommandQueue ignores the bank when there is one queue per rank. */
  function Slot(c: Config, bank: nat): nat {
    match c.queuing
    case PerRank => 0
    case PerRankPerBank => bank
  }

  predicate Shaped(c: Config, s: QueueState) {
    && |s.queues| == |s.faw| == |s.accesses| == c.ranks
    && (forall r :: 0 <= r < c.ranks ==> |s.queues[r]| == Slots(c))
    && (forall r :: 0 <= r < c.ranks ==> |s.accesses[r]| == c.banks)
    && s.nextRank < c.ranks && s.nextBank < c.banks
    && s.nextRankPre < c.ranks && s.nextBankPre < c.banks
    && (s.refreshWaiting ==> s.refreshRank < c.ranks)
  }

  predicate TableShaped(c: Config, table: seq<seq<Bank>>) {
    |table| == c.ranks && forall r :: 0 <= r < c.ranks ==> |table[r]| == c.banks
  }

  function Initial(c: Config): QueueState {
    QueueState(seq(c.ranks, i => seq(Slots(c), j => [])), 0, 0, 0, 0, 0, false,
               seq(c.ranks, i => []), seq(c.ranks, i => seq(c.banks, j => 0)), true)
  }

  // ---- searching ---------------------------------------------------------------------

  /** The least index below `n` that satisfies `p`, or `n`. */
  function Least(n: nat, p: nat -> bool): (i: nat)
    ensures i <= n
    ensures forall k: nat :: k < i ==> !p(k)
    ensures i < n ==> p(i)
  {
    if n == 0 then 0
    else
      var i := Least(n - 1, p);
      if i < n - 1 || p(n - 1) then i else n
  }

  lemma LeastIs(n: nat, p: nat -> bool, i: nat)
    requires i <= n
    requires forall k: nat :: k < i ==> !p(k)
    requires i < n ==> p(i)
    ensures Least(n, p) == i
  {
  }

  datatype Spot = Spot(rank: nat, bank: nat)

  /** nextRankAndBank. */
  function NextSpot(c: Config, at: Spot): Spot {
    match c.scheduling
    case RankThenBank =>
      if at.rank + 1 != c.ranks then Spot(at.rank + 1, at.bank)
      else Spot(0, if at.bank + 1 != c.banks then at.bank + 1 else 0)
    case BankThenRank =>
      if at.bank + 1 != c.banks then Spot(at.rank, at.bank + 1)
      else Spot(if at.rank + 1 != c.ranks then at.rank + 1 else 0, 0)
  }

  /** One step of a round robin, over ranks only or over every rank and bank. */
  function Step(c: Config, byRank: bool, at: Spot): Spot
    requires c.ranks > 0
  {
    if byRank then Spot((at.rank + 1) % c.ranks, at.bank) else NextSpot(c, at)
  }

  function Walk(c: Config, byRank: bool, start: Spot, k: nat): Spot
    requires c.ranks > 0
  {
    if k == 0 then start else Step(c, byRank, Walk(c, byRank, start, k - 1))
  }

  function Lap(c: Config, byRank: bool): nat {
    if byRank then c.ranks else c.ranks * c.banks
  }

  // ---- the conditions pop() tests ----------------------------------------------------

  predicate Issuable(c: Config, s: QueueState, table: seq<seq<Bank>>, p: Packet, now: int)
  {
    && p.rank < |table| && p.bank < |table[p.rank]|
    && p.rank < |s.faw|
    && p.rank < |s.accesses| && p.bank < |s.accesses[p.rank]|
    && var b := table[p.rank][p.bank];
    match p.kind
    case ACTIVATE =>
      (b.phase == Idle || b.phase == Refreshing) && now >= b.nextActivate && |s.faw[p.rank]| < 4
    case PRECHARGE => b.phase == RowActive && now >= b.nextPrecharge
    case REFRESH => false
    case DATA => false
    case _ =>
      && b.phase == RowActive
      && now >= (if p.kind.IsRead() then b.nextRead else b.nextWrite)
      && p.row == b.openRow
      && s.accesses[p.rank][p.bank] < c.totalRowAccesses
  }

  /** An earlier column command to the same bank and row. */
  predicate Dependent(q: seq<Packet>, i: nat) {
    i < |q| && exists j :: 0 <= j < i && q[j].kind != ACTIVATE && q[j].bank == q[i].bank && q[j].row == q[i].row
  }

  /** Packet `i` of queue `q` may leave by the normal search. */
  predicate Eligible(c: Config, s: QueueState, table: seq<seq<Bank>>, q: seq<Packet>, i: nat, now: int) {
    && i < |q|
    && Issuable(c, s, table, q[i], now)
    && match c.policy
       case OpenPage => !Dependent(q, i)
       case ClosePage =>
         match c.queuing
         case PerRank => !(i > 0 && q[i-1].kind == ACTIVATE && q[i-1].addr == q[i].addr)
         case PerRankPerBank => i == 0
  }

  function Pick(c: Config, s: QueueState, table: seq<seq<Bank>>, q: seq<Packet>, now: int): (i: nat)
    ensures i <= |q|
    ensures forall k: nat :: k < i ==> !Eligible(c, s, table, q, k, now)
    ensures i < |q| ==> Eligible(c, s, table, q, i, now)
  {
    var p := (i: nat) => Eligible(c, s, table, q, i, now);
    assert forall k: nat {:trigger Eligible(c, s, table, q, k, now)} :: p(k) == Eligible(c, s, table, q, k, now);
    Least(|q|, p)
  }

  function QueueAt(c: Config, s: QueueState, at: Spot): seq<Packet> {
    if at.rank < |s.queues| && Slot(c, at.bank) < |s.queues[at.rank]|
    then s.queues[at.rank][Slot(c, at.bank)] else []
  }

  predicate Ready(c: Config, s: QueueState, table: seq<seq<Bank>>, at: Spot, now: int) {
    var q := QueueAt(c, s, at);
    !(at.rank == s.refreshRank && s.refreshWaiting) && Pick(c, s, table, q, now) < |q|
  }

  predicate GoesTo(q: seq<Packet>, j: nat, bank: nat, row: nat) {
    j < |q| && q[j].bank == bank && q[j].row == row
  }

  function FirstTo(q: seq<Packet>, bank: nat, row: nat): (j: nat)
    ensures j <= |q|
    ensures forall k: nat :: k < j ==> !GoesTo(q, k, bank, row)
    ensures j < |q| ==> GoesTo(q, j, bank, row)
  {
    var p := (j: nat) => GoesTo(q, j, bank, row);
    assert forall k: nat {:trigger GoesTo(q, k, bank, row)} :: p(k) == GoesTo(q, k, bank, row);
    Least(|q|, p)
  }

  predicate Busy(row: seq<Bank>, b: nat, now: int) {
    b < |row| && (row[b].phase == RowActive || row[b].nextActivate > now)
  }

  function FirstBusy(row: seq<Bank>, now: int): (b: nat)
    ensures b <= |row|
    ensures forall k: nat :: k < b ==> !Busy(row, k, now)
    ensures b < |row| ==> Busy(row, b, now)
  {
    var p := (b: nat) => Busy(row, b, now);
    assert forall k: nat {:trigger Busy(row, k, now)} :: p(k) == Busy(row, k, now);
    Least(|row|, p)
  }

  /** An open bank the PRE search may close. */
  predicate Closable(c: Config, s: QueueState, table: seq<seq<Bank>>, at: Spot, now: int) {
    && at.rank < |table| && at.bank < |table[at.rank]|
    && at.rank < |s.accesses| && at.bank < |s.accesses[at.rank]|
    && var b := table[at.rank][at.bank];
    var q := QueueAt(c, s, at);
    && b.phase == RowActive
    && (FirstTo(q, at.bank, b.openRow) == |q| || s.accesses[at.rank][at.bank] == c.totalRowAccesses)
    && now >= b.nextPrecharge
  }

  // ---- what pop() decides ------------------------------------------------------------

  datatype Decision =
    | Wait
    | Refresh(rank: nat)
    | Close(rank: nat, bank: nat)
    | Take(at: Spot, index: nat, dropAct: bool)

  /** The refresh path: drain or close the first bank in the way, or send the REFRESH. */
  function RefreshDecision(c: Config, s: QueueState, table: seq<seq<Bank>>, now: int): Decision
    requires Shaped(c, s) && TableShaped(c, table) && c.banks > 0
  {
    if !s.refreshWaiting then Wait
    else
      var r := s.refreshRank;
      var row := table[r];
      var b := FirstBusy(row, now);
      if b == c.banks then
        if row[0].phase != PowerDown then Refresh(r) else Wait
      else if row[b].phase != RowActive then Wait
      else
        var q := QueueAt(c, s, Spot(r, b));
        var j := FirstTo(q, b, row[b].openRow);
        if j < |q| && q[j].kind != ACTIVATE then
          if Issuable(c, s, table, q[j], now) then Take(Spot(r, b), j, false) else Wait
        else if c.policy == OpenPage && now >= row[b].nextPrecharge then Close(r, b)
        else Wait
  }

  /** The normal path's choice in the queue at `at`. In open page the ACTIVATE in front of
      a column command that leaves is thrown away with it. */
  function TakeFrom(c: Config, s: QueueState, table: seq<seq<Bank>>, at: Spot, now: int): Decision {
    var q := QueueAt(c, s, at);
    var i := Pick(c, s, table, q, now);
    Take(at, i, c.policy == OpenPage && 0 < i <= |q| && q[i-1].kind == ACTIVATE)
  }

  function Remove<T>(q: seq<T>, from: nat, to: nat): seq<T>
    requires from <= to <= |q|
  {
    q[..from] + q[to..]
  }

  predicate DecisionShaped(c: Config, s: QueueState, d: Decision) {
    match d
    case Wait => true
    case Refresh(r) => r < c.ranks
    case Close(r, b) => r < c.ranks && b < c.banks
    case Take(at, i, drop) =>
      && at.rank < c.ranks && at.bank < c.banks
      && i < |QueueAt(c, s, at)|
      && (drop ==> i > 0)
      && QueueAt(c, s, at)[i].rank < c.ranks && QueueAt(c, s, at)[i].bank < c.banks
  }

  function Chosen(c: Config, s: QueueState, d: Decision): Packet
    requires d != Wait && Shaped(c, s) && DecisionShaped(c, s, d)
  {
    match d
    case Refresh(r) => Packet(REFRESH, 0, 0, 0, r, 0, 0)
    case Close(r, b) => Packet(PRECHARGE, 0, 0, 0, r, b, 0)
    case Take(at, i, _) => QueueAt(c, s, at)[i]
  }

  function SetQueue(c: Config, s: QueueState, at: Spot, q: seq<Packet>): QueueState
    requires Shaped(c, s) && at.rank < c.ranks && at.bank < c.banks
  {
    s.(queues := s.queues[at.rank := s.queues[at.rank][Slot(c, at.bank) := q]])
  }

  function Update2<T>(m: seq<seq<T>>, i: nat, j: nat, x: T): seq<seq<T>>
    requires i < |m| && j < |m[i]|
  {
    m[i := m[i][j := x]]
  }

  /** The queue after the decision: packets removed, access counters moved. */
  function Commit(c: Config, s: QueueState, d: Decision): QueueState
    requires Shaped(c, s) && DecisionShaped(c, s, d)
  {
    match d
    case Wait => s
    case Refresh(r) => s.(refreshRank := NO_RANK, refreshWaiting := false)
    case Close(r, b) => s.(accesses := Update2(s.accesses, r, b, 0))
    case Take(at, i, drop) =>
      var q := QueueAt(c, s, at);
      if drop then
        var p := q[i];
        SetQueue(c, s.(accesses := Update2(s.accesses, p.rank, p.bank, s.accesses[p.rank][p.bank] + 1)),
                 at, Remove(q, i - 1, i + 1))
      else SetQueue(c, s, at, Remove(q, i, i + 1))
  }

  /** The round-robin pointers move on, and an ACTIVATE opens a four-activate counter. */
  function Settle(c: Config, s: QueueState, p: Packet): QueueState
    requires Shaped(c, s) && p.rank < c.ranks
  {
    var s1 :=
      if c.t.AL > 0 && s.sendAct then s.(sendAct := false)
      else
        var n := NextSpot(c, Spot(s.nextRank, s.nextBank));
        s.(sendAct := true, nextRank := n.rank, nextBank := n.bank);
    if p.kind == ACTIVATE then s1.(faw := s1.faw[p.rank := s1.faw[p.rank] + [c.t.tFAW]]) else s1
  }

  /** Every four-activate counter goes down by one; one that reached zero leaves. */
  function TickCounters(v: seq<int>): seq<int> {
    var w := seq(|v|, j requires 0 <= j < |v| => v[j] - 1);
    if |w| > 0 && w[0] == 0 then w[1..] else w
  }

  function TickFaw(faw: seq<seq<int>>): (r: seq<seq<int>>)
    ensures |r| == |faw|
  {
    seq(|faw|, i requires 0 <= i < |faw| => TickCounters(faw[i]))
  }

  /** How many steps from `start` the first queue with something to issue is. */
  function FirstReady(c: Config, s: QueueState, table: seq<seq<Bank>>, byRank: bool, start: Spot, now: int): (k: nat)
    requires c.ranks > 0
    ensures k < Lap(c, byRank) ==> Ready(c, s, table, Walk(c, byRank, start, k), now)
  {
    Least(Lap(c, byRank), (k: nat) => Ready(c, s, table, Walk(c, byRank, start, k), now))
  }

  function FirstClosable(c: Config, s: QueueState, table: seq<seq<Bank>>, start: Spot, now: int): (k: nat)
    requires c.ranks > 0
    ensures k < Lap(c, false) ==> Closable(c, s, table, Walk(c, false, start, k), now)
  {
    Least(Lap(c, false), (k: nat) => Closable(c, s, table, Walk(c, false, start, k), now))
  }

  /** With nothing to issue in open page: the next bank that may be closed. */
  function PreSearch(c: Config, s: QueueState, table: seq<seq<Bank>>, now: int): (Decision, QueueState)
    requires c.Valid()
  {
    var start := Spot(s.nextRankPre, s.nextBankPre);
    var k := FirstClosable(c, s, table, start, now);
    if k < Lap(c, false) then
      var at := Walk(c, false, start, k);
      (Close(at.rank, at.bank), s.(nextRankPre := at.rank, nextBankPre := at.bank))
    else (Wait, s)
  }

  /** The decision of pop() and the state (pointers moved) it is taken in. */
  function Decide(c: Config, s: QueueState, table: seq<seq<Bank>>, now: int): (Decision, QueueState)
    requires Shaped(c, s) && TableShaped(c, table) && c.Valid()
  {
    var d := RefreshDecision(c, s, table, now);
    if d != Wait then (d, s)
    else
      var byRank := c.queuing == PerRank;
      var start := Spot(s.nextRank, s.nextBank);
      var k := FirstReady(c, s, table, byRank, start, now);
      if k < Lap(c, byRank) then
        var at := Walk(c, byRank, start, k);
        (TakeFrom(c, s, table, at, now), s.(nextRank := at.rank, nextBank := at.bank))
      else if c.policy == ClosePage then (Wait, s)
      else PreSearch(c, s, table, now)
  }

  /** Every packet is addressed to its queue's rank and to an existing bank. */
  predicate PacketsInRange(c: Config, s: QueueState) {
    forall r, sl, i :: 0 <= r < |s.queues| && 0 <= sl < |s.queues[r]| && 0 <= i < |s.queues[r][sl]| ==>
      s.queues[r][sl][i].rank < c.ranks && s.queues[r][sl][i].bank < c.banks
  }

  lemma WalkInRange(c: Config, byRank: bool, start: Spot, k: nat)
    requires c.ranks > 0 && start.rank < c.ranks && start.bank < c.banks
    ensures Walk(c, byRank, start, k).rank < c.ranks && Walk(c, byRank, start, k).bank < c.banks
  {
    if k > 0 { WalkInRange(c, byRank, start, k - 1); }
  }

  lemma RefreshDecisionShaped(c: Config, s: QueueState, table: seq<seq<Bank>>, now: int)
    requires c.Valid() && Shaped(c, s) && TableShaped(c, table) && PacketsInRange(c, s)
    ensures DecisionShaped(c, s, RefreshDecision(c, s, table, now))
  {
    hide Issuable;
  }

  lemma TakeFromShaped(c: Config, s: QueueState, s': QueueState, table: seq<seq<Bank>>, at: Spot, now: int)
    requires Shaped(c, s) && PacketsInRange(c, s) && s'.queues == s.queues
    requires at.rank < c.ranks && at.bank < c.banks && Ready(c, s, table, at, now)
    ensures DecisionShaped(c, s', TakeFrom(c, s, table, at, now))
  {
    hide Eligible;
    var q := QueueAt(c, s, at);
    assert forall i :: 0 <= i < |q| ==> q[i].rank < c.ranks && q[i].bank < c.banks;
  }

  lemma DecideShaped(c: Config, s: QueueState, table: seq<seq<Bank>>, now: int)
    requires c.Valid() && Shaped(c, s) && TableShaped(c, table) && PacketsInRange(c, s)
    ensures var (d, s') := Decide(c, s, table, now);
            && Shaped(c, s') && DecisionShaped(c, s', d)
            && s' == s.(nextRank := s'.nextRank, nextBank := s'.nextBank, nextRankPre := s'.nextRankPre, nextBankPre := s'.nextBankPre)
  {
    var start, startPre := Spot(s.nextRank, s.nextBank), Spot(s.nextRankPre, s.nextBankPre);
    var byRank := c.queuing == PerRank;
    RefreshDecisionShaped(c, s, table, now);
    var k, kPre := FirstReady(c, s, table, byRank, start, now), FirstClosable(c, s, table, startPre, now);
    WalkInRange(c, byRank, start, k);
    WalkInRange(c, false, startPre, kPre);
    if k < Lap(c, byRank) {
      var at := Walk(c, byRank, start, k);
      TakeFromShaped(c, s, s.(nextRank := at.rank, nextBank := at.bank), table, at, now);
    }
    hide TakeFrom, FirstReady, FirstClosable, RefreshDecision, Walk, Lap;
  }

  /** pop(): the packet let go, if any, and the queue afterwards. */
  function Pop(c: Config, s: QueueState, table: seq<seq<Bank>>, now: int): (Option<Packet>, QueueState)
    requires c.Valid() && Shaped(c, s) && TableShaped(c, table) && PacketsInRange(c, s)
  {
    var q0 := s.(faw := TickFaw(s.faw));
    DecideShaped(c, q0, table, now);
    var (d, q1) := Decide(c, q0, table, now);
    if d == Wait then (None, q1)
    else
      CommitShaped(c, q1, d);
      var p := Chosen(c, q1, d);
      (Some(p), Settle(c, Commit(c, q1, d), p))
  }

  lemma CommitShaped(c: Config, s: QueueState, d: Decision)
    requires Shaped(c, s) && DecisionShaped(c, s, d) && d != Wait
    requires c.banks > 0
    ensures Shaped(c, Commit(c, s, d)) && Chosen(c, s, d).rank < c.ranks && Chosen(c, s, d).bank < c.banks
  {
  }

  // ---- a round robin visits every queue before it comes back -------------------------

  function Index(c: Config, byRank: bool, at: Spot): nat {
    if byRank then at.rank
    else
      match c.scheduling
      case RankThenBank => at.bank * c.ranks + at.rank
      case BankThenRank => at.rank * c.banks + at.bank
  }

  lemma IndexInLap(c: Config, byRank: bool, at: Spot)
    requires at.rank < c.ranks && at.bank < c.banks
    ensures Index(c, byRank, at) < Lap(c, byRank)
  {
    Arithmetic.Below(at.bank, at.rank, c.banks, c.ranks);
    assert c.banks * c.ranks == c.ranks * c.banks;
    Arithmetic.Below(at.rank, at.bank, c.ranks, c.banks);
  }

  lemma SamePair(x: nat, y: nat, x': nat, y': nat, m: nat)
    requires y < m && y' < m && x * m + y == x' * m + y'
    ensures x == x' && y == y'
  {
    assert (x + 1) * m == x * m + m && (x' + 1) * m == x' * m + m;
    if x < x' { Arithmetic.MulLe(x + 1, x', m); }
    if x' < x { Arithmetic.MulLe(x' + 1, x, m); }
  }

  /** One step of a two-digit counter `x * m + y` with `x < n`. */
  lemma CounterStep(x: nat, y: nat, n: nat, m: nat)
    requires x < n && y < m
    ensures var i, j := x * m + y, n * m;
            && (y + 1 != m ==> i + 1 == x * m + (y + 1) && i + 1 != j)
            && (y + 1 == m && x + 1 != n ==> i + 1 == (x + 1) * m + 0 && i + 1 != j)
            && (y + 1 == m && x + 1 == n ==> i + 1 == j)
  {
    assert (x + 1) * m == x * m + m;
    if y + 1 != m { Arithmetic.Below(x, y + 1, n, m); }
    if y + 1 == m && x + 1 != n { Arithmetic.Below(x + 1, 0, n, m); }
  }

  lemma IndexDecides(c: Config, byRank: bool, a: Spot, b: Spot)
    requires a.rank < c.ranks && a.bank < c.banks && b.rank < c.ranks && b.bank < c.banks
    requires Index(c, byRank, a) == Index(c, byRank, b) && (byRank ==> a.bank == b.bank)
    ensures a == b
  {
    if !byRank {
      match c.scheduling
      case RankThenBank => SamePair(a.bank, a.rank, b.bank, b.rank, c.ranks);
      case BankThenRank => SamePair(a.rank, a.bank, b.rank, b.bank, c.banks);
    }
  }

  lemma StepIndex(c: Config, byRank: bool, at: Spot)
    requires at.rank < c.ranks && at.bank < c.banks
    ensures var i, n := Index(c, byRank, at), Lap(c, byRank);
            Index(c, byRank, Step(c, byRank, at)) == if i + 1 == n then 0 else i + 1
  {
    if !byRank {
      match c.scheduling
      case RankThenBank =>
        CounterStep(at.bank, at.rank, c.banks, c.ranks);
        assert c.banks * c.ranks == c.ranks * c.banks;
      case BankThenRank =>
        CounterStep(at.rank, at.bank, c.ranks, c.banks);
    }
  }

  /** After k steps of at most a lap: k places further on, counted around. */
  lemma {:induction false} WalkIndex(c: Config, byRank: bool, start: Spot, k: nat)
    requires c.ranks > 0 && start.rank < c.ranks && start.bank < c.banks && k <= Lap(c, byRank)
    ensures var i, n := Index(c, byRank, start), Lap(c, byRank);
            Index(c, byRank, Walk(c, byRank, start, k)) == if i + k < n then i + k else i + k - n
    ensures byRank ==> Walk(c, byRank, start, k).bank == start.bank
  {
    IndexInLap(c, byRank, start);
    if k > 0 {
      WalkIndex(c, byRank, start, k - 1);
      WalkInRange(c, byRank, start, k - 1);
      StepIndex(c, byRank, Walk(c, byRank, start, k - 1));
    }
  }

  /** The walk is back at its start after exactly one lap. */
  lemma WalkReturns(c: Config, byRank: bool, start: Spot, k: nat)
    requires c.ranks > 0 && start.rank < c.ranks && start.bank < c.banks && 0 < k <= Lap(c, byRank)
    ensures Walk(c, byRank, start, k) == start <==> k == Lap(c, byRank)
  {
    WalkIndex(c, byRank, start, k);
    WalkInRange(c, byRank, start, k);
    IndexInLap(c, byRank, start);
    if k == Lap(c, byRank) { IndexDecides(c, byRank, Walk(c, byRank, start, k), start); }
  }
}
