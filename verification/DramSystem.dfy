/** One channel of DRAMSim2 as a function from state to state: the ranks, the memory
    controller, and MemorySystem::update, which runs them for one cycle. A step that ends
    in one of the simulator's error exits yields None. */
module DramSystem {
  import opened Wrappers
  import opened DramTypes
  import opened DramBanks
  import opened DramQueue

  datatype RankState = RankState(
    banks: seq<Bank>, isPowerDown: bool, refreshWaiting: bool,
    outgoing: Option<Packet>, dataLeft: int,
    returnPackets: seq<Packet>, returnCountdown: seq<int>)

  datatype Controller = Controller(
    banks: seq<seq<Bank>>, cq: QueueState,
    cmd: Option<Packet>, cmdLeft: int,
    data: Option<Packet>, dataLeft: int,
    writeData: seq<Packet>, writeCountdown: seq<int>,
    transactions: seq<Transaction>, pendingReads: seq<Transaction>, toReturn: seq<Packet>,
    refreshCountdown: seq<nat>, refreshRank: nat, powerDown: seq<bool>)

  /** A command on the bus and the cycle it was popped in. */
  datatype Sent = Sent(packet: Packet, at: int)

  /** What the run has shown to the outside so far (bookkeeping of the model only). */
  datatype Log = Log(accepted: seq<Transaction>, sent: seq<Sent>, returned: seq<Transaction>, written: seq<Packet>)

  datatype System = System(now: int, mc: Controller, ranks: seq<RankState>, log: Log)

  // ---- Rank --------------------------------------------------------------------------

  function Arrive(p: Packet): Packet { p.(kind := DATA) }

  /** Rank::receiveFromBus. */
  function Receive(c: Config, r: RankState, p: Packet, now: int): Option<RankState> {
    if !Accepts(r.banks, p, now) then None
    else
      var r1 := r.(banks := TakeBanks(c, r.banks, p, now));
      if p.kind.IsRead() then
        Some(r1.(returnPackets := r1.returnPackets + [Arrive(p)], returnCountdown := r1.returnCountdown + [c.t.RL()]))
      else if p.kind == REFRESH then Some(r1.(refreshWaiting := false))
      else Some(r1)
  }

  function Down1(v: seq<int>): (w: seq<int>)
    ensures |w| == |v| && forall i :: 0 <= i < |v| ==> w[i] == v[i] - 1
  {
    seq(|v|, i requires 0 <= i < |v| => v[i] - 1)
  }

  /** Rank::update: the packet that leaves the data bus, if any, and the rank afterwards. */
  function RankTick(c: Config, r: RankState): (Option<Packet>, RankState) {
    var left := r.dataLeft - 1;
    var done := r.outgoing.Some? && left == 0;
    var r1 := if r.outgoing.None? then r
              else r.(dataLeft := left, outgoing := if done then None else r.outgoing);
    var r2 := r1.(returnCountdown := Down1(r1.returnCountdown));
    var r3 := if |r2.returnCountdown| > 0 && |r2.returnPackets| > 0 && r2.returnCountdown[0] == 0 then
                r2.(outgoing := Some(r2.returnPackets[0]), dataLeft := c.t.Burst(),
                    returnPackets := r2.returnPackets[1..], returnCountdown := r2.returnCountdown[1..])
              else r2;
    (if done then r.outgoing else None, r3)
  }

  predicate AllIdle(banks: seq<Bank>) {
    forall j :: 0 <= j < |banks| ==> banks[j].phase == Idle
  }

  function PowerDownBank(c: Config, b: Bank, now: int): Bank {
    b.(phase := PowerDown, nextPowerUp := now + c.t.tCKE)
  }

  function PowerUpBank(c: Config, b: Bank, now: int): Bank {
    b.(phase := Idle, nextActivate := now + c.t.tXP)
  }

  function PowerDownRow(c: Config, row: seq<Bank>, now: int): (r: seq<Bank>)
    ensures |r| == |row|
  {
    seq(|row|, j requires 0 <= j < |row| => PowerDownBank(c, row[j], now))
  }

  function PowerUpRow(c: Config, row: seq<Bank>, now: int): (r: seq<Bank>)
    ensures |r| == |row|
  {
    seq(|row|, j requires 0 <= j < |row| => PowerUpBank(c, row[j], now))
  }

  /** Rank::powerDown. */
  function RankPowerDown(c: Config, r: RankState, now: int): Option<RankState> {
    if AllIdle(r.banks) then Some(r.(banks := PowerDownRow(c, r.banks, now), isPowerDown := true)) else None
  }

  /** Rank::powerUp. */
  function RankPowerUp(c: Config, r: RankState, now: int): Option<RankState> {
    if r.isPowerDown && forall j :: 0 <= j < |r.banks| ==> r.banks[j].nextPowerUp <= now
    then Some(r.(banks := PowerUpRow(c, r.banks, now), isPowerDown := false)) else None
  }

  // ---- MemorySystem and MemoryController, phase by phase -----------------------------

  /** MemoryController::addTransaction; a full queue turns the request away. */
  function AddTransaction(c: Config, s: System, isRead: bool, addr: nat): System {
    if |s.mc.transactions| < c.transQueueDepth then
      var t := Transaction(isRead, addr, |s.log.accepted|);
      s.(mc := s.mc.(transactions := s.mc.transactions + [t]), log := s.log.(accepted := s.log.accepted + [t]))
    else s
  }

  /** The packets the first `n` ranks put back on the controller's side in this cycle. */
  function Deliveries(c: Config, ranks: seq<RankState>, n: nat): seq<Packet>
    requires n <= |ranks|
  {
    if n == 0 then []
    else
      var d := RankTick(c, ranks[n-1]).0;
      Deliveries(c, ranks, n - 1) + (if d.Some? then [d.value] else [])
  }

  /** Rank updates and MemoryController::receiveFromBus. */
  function TickRanks(c: Config, s: System): Option<System> {
    var ds := Deliveries(c, s.ranks, |s.ranks|);
    if exists i :: 0 <= i < |ds| && ds[i].kind != DATA then None
    else
      Some(s.(ranks := seq(|s.ranks|, i requires 0 <= i < |s.ranks| => RankTick(c, s.ranks[i]).1),
              mc := s.mc.(toReturn := s.mc.toReturn + ds)))
  }

  function TickTable(c: Config, s: System): System {
    s.(mc := s.mc.(banks := TickBanks(c, s.mc.banks)))
  }

  /** The command bus. */
  function DeliverCommand(c: Config, s: System): Option<System> {
    if s.mc.cmd.None? then Some(s)
    else
      var left := s.mc.cmdLeft - 1;
      if left != 0 then Some(s.(mc := s.mc.(cmdLeft := left)))
      else
        var p := s.mc.cmd.value;
        if p.rank >= |s.ranks| then None
        else
          var r := Receive(c, s.ranks[p.rank], p, s.now);
          if r.None? then None
          else Some(s.(mc := s.mc.(cmd := None, cmdLeft := left), ranks := s.ranks[p.rank := r.value]))
  }

  /** The data bus: the write on it may be done. */
  function FinishWrite(c: Config, s: System): System {
    if s.mc.data.None? then s
    else
      var left := s.mc.dataLeft - 1;
      if left != 0 then s.(mc := s.mc.(dataLeft := left))
      else
        s.(mc := s.mc.(data := None, dataLeft := left),
           log := s.log.(written := s.log.written + [s.mc.data.value]))
  }

  /** The next write data whose latency is over goes on the bus. */
  function LaunchWrite(c: Config, s: System): Option<System> {
    if |s.mc.writeCountdown| == 0 || |s.mc.writeData| == 0 then Some(s)
    else
      var w := Down1(s.mc.writeCountdown);
      if w[0] != 0 then Some(s.(mc := s.mc.(writeCountdown := w)))
      else if s.mc.data.Some? then None
      else
        Some(s.(mc := s.mc.(data := Some(s.mc.writeData[0]), dataLeft := c.t.Burst(),
                            writeCountdown := w[1..], writeData := s.mc.writeData[1..])))
  }

  function WaitForRefresh(s: System, r: nat): System {
    if r < |s.ranks| then s.(ranks := s.ranks[r := s.ranks[r].(refreshWaiting := true)]) else s
  }

  function RefreshTimer(c: Config, s: System): System {
    var r := s.mc.refreshRank;
    if r >= |s.mc.refreshCountdown| || r >= |s.mc.powerDown| then s
    else if s.mc.refreshCountdown[r] == 0 then
      var s1 := WaitForRefresh(s, r);
      s1.(mc := s1.mc.(cq := s1.mc.cq.(refreshWaiting := true, refreshRank := r),
                       refreshCountdown := s1.mc.refreshCountdown[r := c.refreshInterval],
                       refreshRank := if r + 1 == c.ranks then 0 else r + 1))
    else if s.mc.powerDown[r] && s.mc.refreshCountdown[r] <= c.t.tXP then WaitForRefresh(s, r)
    else s
  }

  predicate ControllerShaped(c: Config, mc: Controller) {
    Shaped(c, mc.cq) && TableShaped(c, mc.banks)
  }

  /** A command goes out: the controller's table knows, and a write's data is on its way. */
  function Sending(c: Config, s: System, p: Packet): System {
    s.(mc := s.mc.(
         banks := SendBanks(c, s.mc.banks, p, s.now),
         writeData := if p.kind.IsWrite() then s.mc.writeData + [Arrive(p)] else s.mc.writeData,
         writeCountdown := if p.kind.IsWrite() then s.mc.writeCountdown + [c.t.WL()] else s.mc.writeCountdown,
         cmd := Some(p), cmdLeft := c.t.tCMD),
       log := s.log.(sent := s.log.sent + [Sent(p, s.now)]))
  }

  /** CommandQueue::pop and everything the controller does with the packet. */
  function PopAndSend(c: Config, s: System): Option<System>
    requires c.Valid() && ControllerShaped(c, s.mc)
  {
    var q0 := s.mc.cq.(faw := TickFaw(s.mc.cq.faw));
    var (d, q1) := Decide(c, q0, s.mc.banks, s.now);
    if d == Wait then Some(s.(mc := s.mc.(cq := q1)))
    else if !Shaped(c, q1) || !DecisionShaped(c, q1, d) then None
    else
      var p := Chosen(c, q1, d);
      var q2 := Commit(c, q1, d);
      if !Shaped(c, q2) || p.rank >= c.ranks || s.mc.cmd.Some? then None
      else
        Some(Sending(c, s.(mc := s.mc.(cq := Settle(c, q2, p))), p))
  }

  function SpotOf(c: Config, addr: nat): Spot { Spot(c.locate(addr).rank, c.locate(addr).bank) }

  /** hasRoomFor(2, ...): an unsigned difference, huge when the queue is over-full. */
  predicate HasRoom(c: Config, q: QueueState, addr: nat) {
    var n := |QueueAt(c, q, SpotOf(c, addr))|;
    n > c.cmdQueueDepth || c.cmdQueueDepth - n >= 2
  }

  function ToPacket(c: Config, kind: Kind, t: Transaction): Packet {
    var l := c.locate(t.addr);
    Packet(kind, t.addr, l.column, l.row, l.rank, l.bank, t.tag)
  }

  function FirstWithRoom(c: Config, q: QueueState, ts: seq<Transaction>): (i: nat)
    ensures i <= |ts|
    ensures forall k: nat :: k < i ==> !HasRoom(c, q, ts[k].addr)
    ensures i < |ts| ==> HasRoom(c, q, ts[i].addr)
  {
    if |ts| == 0 then 0
    else
      var i := FirstWithRoom(c, q, ts[..|ts|-1]);
      if i < |ts| - 1 || HasRoom(c, q, ts[|ts|-1].addr) then i else |ts|
  }

  /** Transaction `i` becomes an ACTIVATE and a column command at the end of its queue. */
  function Enqueued(c: Config, s: System, i: nat): System
    requires Shaped(c, s.mc.cq) && i < |s.mc.transactions| && c.InRange(s.mc.transactions[i].addr)
  {
    var t := s.mc.transactions[i];
    var at := SpotOf(c, t.addr);
    s.(mc := s.mc.(
      transactions := Remove(s.mc.transactions, i, i + 1),
      cq := SetQueue(c, s.mc.cq, at,
              QueueAt(c, s.mc.cq, at) + [ToPacket(c, ACTIVATE, t), ToPacket(c, ColumnKind(c.policy, t.isRead), t)]),
      pendingReads := if t.isRead then s.mc.pendingReads + [t] else s.mc.pendingReads))
  }

  /** The first transaction whose queue has room is split into commands; enqueue() exits
      when a queue grows past its depth. */
  function SplitTransaction(c: Config, s: System): Option<System>
    requires Shaped(c, s.mc.cq)
  {
    var ts := s.mc.transactions;
    var i := FirstWithRoom(c, s.mc.cq, ts);
    if i == |ts| then Some(s)
    else if !c.InRange(ts[i].addr) || |QueueAt(c, s.mc.cq, SpotOf(c, ts[i].addr))| + 2 > c.cmdQueueDepth then None
    else Some(Enqueued(c, s, i))
  }

  predicate QueueEmpty(q: QueueState, r: nat) {
    r < |q.queues| && forall k :: 0 <= k < |q.queues[r]| ==> q.queues[r][k] == []
  }

  /** Power management of rank `i`. */
  function PowerRank(c: Config, s: System, i: nat): Option<System>
    requires i < |s.ranks| && i < |s.mc.banks| && i < |s.mc.powerDown|
  {
    var row := s.mc.banks[i];
    if !c.lowPower then Some(s)
    else if QueueEmpty(s.mc.cq, i) && !s.ranks[i].refreshWaiting then
      if !AllIdle(row) then Some(s)
      else
        var r := RankPowerDown(c, s.ranks[i], s.now);
        if r.None? then None
        else
          Some(s.(ranks := s.ranks[i := r.value],
                  mc := s.mc.(powerDown := s.mc.powerDown[i := true],
                              banks := s.mc.banks[i := PowerDownRow(c, row, s.now)])))
    else if |row| > 0 && s.now >= row[0].nextPowerUp && s.mc.powerDown[i] then
      var r := RankPowerUp(c, s.ranks[i], s.now);
      if r.None? then None
      else
        Some(s.(ranks := s.ranks[i := r.value],
                mc := s.mc.(powerDown := s.mc.powerDown[i := false],
                            banks := s.mc.banks[i := PowerUpRow(c, row, s.now)])))
    else Some(s)
  }

  predicate PowerShaped(c: Config, s: System) {
    |s.ranks| == |s.mc.banks| == |s.mc.powerDown| == c.ranks
  }

  /** The first `n` ranks' power management, in order. */
  function PowerRanks(c: Config, s: System, n: nat): (r: Option<System>)
    requires PowerShaped(c, s) && n <= c.ranks
    ensures r.Some? ==> PowerShaped(c, r.value)
  {
    if n == 0 then Some(s)
    else
      var s1 := PowerRanks(c, s, n - 1);
      if s1.None? then None else PowerRank(c, s1.value, n - 1)
  }

  function FirstPending(ts: seq<Transaction>, addr: nat): (i: nat)
    ensures i <= |ts|
    ensures forall k: nat :: k < i ==> ts[k].addr != addr
    ensures i < |ts| ==> ts[i].addr == addr
  {
    if |ts| == 0 then 0
    else
      var i := FirstPending(ts[..|ts|-1], addr);
      if i < |ts| - 1 || ts[|ts|-1].addr == addr then i else |ts|
  }

  /** One read goes back to the CPU, matched by address with a pending transaction. */
  function ReturnRead(c: Config, s: System): Option<System> {
    if |s.mc.toReturn| == 0 then Some(s)
    else
      var i := FirstPending(s.mc.pendingReads, s.mc.toReturn[0].addr);
      if i == |s.mc.pendingReads| then None
      else
        Some(s.(mc := s.mc.(pendingReads := Remove(s.mc.pendingReads, i, i + 1), toReturn := s.mc.toReturn[1..]),
                log := s.log.(returned := s.log.returned + [s.mc.pendingReads[i]])))
  }

  /** Unsigned decrement. */
  function Wrap1(v: seq<nat>): (w: seq<nat>)
    ensures |w| == |v|
  {
    seq(|v|, i requires 0 <= i < |v| => (v[i] + 0xFFFF_FFFF) % 0x1_0000_0000)
  }

  function EndCycle(c: Config, s: System): System {
    s.(now := s.now + 1, mc := s.mc.(refreshCountdown := Wrap1(s.mc.refreshCountdown)))
  }

  // ---- one cycle and whole runs ------------------------------------------------------

  /** Time passes: rank updates, bank countdowns, the command bus, the data bus. */
  function Pass(c: Config, s: System): Option<System> {
    var s1 := TickRanks(c, s);
    if s1.None? then None else
    var s2 := DeliverCommand(c, TickTable(c, s1.value));
    if s2.None? then None else LaunchWrite(c, FinishWrite(c, s2.value))
  }

  /** The controller acts: next command, next transaction, power management, read return. */
  function Act(c: Config, s: System): Option<System>
    requires c.Valid()
  {
    if !ControllerShaped(c, s.mc) then None else
    var s1 := PopAndSend(c, s);
    if s1.None? || !ControllerShaped(c, s1.value.mc) then None else
    var s2 := SplitTransaction(c, s1.value);
    if s2.None? || !PowerShaped(c, s2.value) then None else
    var s3 := PowerRanks(c, s2.value, c.ranks);
    if s3.None? then None else ReturnRead(c, s3.value)
  }

  /** MemorySystem::update. */
  function Cycle(c: Config, s: System): Option<System>
    requires c.Valid()
  {
    var s1 := Pass(c, s);
    if s1.None? then None else
    var s2 := Act(c, RefreshTimer(c, s1.value));
    if s2.None? then None else Some(EndCycle(c, s2.value))
  }

  function FreshRank(c: Config): RankState {
    RankState(FreshRow(c), false, false, None, 0, [], [])
  }

  function FreshRow(c: Config): (r: seq<Bank>)
    ensures |r| == c.banks && forall j :: 0 <= j < |r| ==> r[j] == FRESH_BANK
  {
    seq(c.banks, j => FRESH_BANK)
  }

  /** Construction: every bank idle, refreshes staggered over the ranks. */
  function Start(c: Config): System {
    System(0,
      Controller(seq(c.ranks, i => FreshRow(c)), Initial(c), None, 0, None, 0, [], [], [], [], [],
                 seq(c.ranks, i requires 0 <= i => Stagger(c, i)), 0, seq(c.ranks, i => false)),
      seq(c.ranks, i => FreshRank(c)),
      Log([], [], [], []))
  }

  function Stagger(c: Config, i: nat): nat {
    var slice: nat := c.refreshInterval / Max1(c.ranks);
    slice * (i + 1)
  }

  function Max1(n: nat): (r: nat) ensures r >= 1 { if n == 0 then 1 else n }

  /** What the outside does: hand in a request, or let one cycle pass. */
  datatype Event = Request(isRead: bool, addr: nat) | Clock

  function React(c: Config, s: System, e: Event): Option<System>
    requires c.Valid()
  {
    match e
    case Request(isRead, addr) => Some(AddTransaction(c, s, isRead, addr))
    case Clock => Cycle(c, s)
  }

  /** The state after a whole run, None if the run ended in an error exit. */
  function Run(c: Config, events: seq<Event>): Option<System>
    requires c.Valid()
  {
    if |events| == 0 then Some(Start(c))
    else
      var s := Run(c, events[..|events|-1]);
      if s.None? then None else React(c, s.value, events[|events|-1])
  }
}
