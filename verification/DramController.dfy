/** MemoryController and MemorySystem as the simulator runs them: one update() in phases that
    rewrite the bank table, the buses, the transaction queues and the ranks. Each phase is
    proved against its function in DramSystem; Update is one Cycle. */
module DramController {
  import opened Wrappers
  import opened DramTypes
  import opened DramBanks
  import opened DramQueue
  import opened DramSystem
  import opened DramCommandQueue
  import opened DramRank
  import DramTheorems

  function States(ranks: seq<Rank>): (r: seq<RankState>)
    reads ranks
    ensures |r| == |ranks| && forall i :: 0 <= i < |r| ==> r[i] == ranks[i].State()
  {
    seq(|ranks|, i requires 0 <= i < |ranks| reads ranks => ranks[i].State())
  }

  ghost predicate RanksWired(c: Config, ranks: seq<Rank>)
    reads ranks
  {
    && |ranks| == c.ranks
    && (forall i, j :: 0 <= i < j < |ranks| ==> ranks[i] != ranks[j])
    && (forall i :: 0 <= i < |ranks| ==> ranks[i].c == c && ranks[i].Valid())
  }

  class MemoryController {
    const c: Config
    const ranks: seq<Rank>
    const commandQueue: CommandQueue
    var now: int
    var banks: seq<seq<Bank>>
    var cmd: Option<Packet>
    var cmdLeft: int
    var data: Option<Packet>
    var dataLeft: int
    var writeData: seq<Packet>
    var writeCountdown: seq<int>
    var transactions: seq<Transaction>
    var pendingReads: seq<Transaction>
    var toReturn: seq<Packet>
    var refreshCountdown: seq<nat>
    var refreshRank: nat
    var powerDown: seq<bool>
    /** What the callbacks were told, and what was accepted and sent. */
    var log: Log

    function State(): System
      reads this, ranks, commandQueue
    {
      System(now,
        Controller(banks, commandQueue.State(), cmd, cmdLeft, data, dataLeft, writeData, writeCountdown,
                   transactions, pendingReads, toReturn, refreshCountdown, refreshRank, powerDown),
        States(ranks), log)
    }

    /** The parts are wired up. */
    ghost predicate Wired()
      reads ranks, commandQueue
    {
      && c.Valid() && commandQueue.c == c && commandQueue.Valid()
      && RanksWired(c, ranks)
    }

    /** Every table has its size, and what is on the way has an address. */
    predicate Sized()
      reads this
    {
      && TableShaped(c, banks)
      && |refreshCountdown| == |powerDown| == c.ranks && refreshRank < c.ranks
      && |writeData| == |writeCountdown|
      && (cmd.Some? ==> Addressed(cmd.value))
      && (data.Some? ==> Addressed(data.value) && data.value.kind == DATA)
      && (forall i :: 0 <= i < |writeData| ==> Addressed(writeData[i]) && writeData[i].kind == DATA)
      && (forall i :: 0 <= i < |transactions| ==> c.InRange(transactions[i].addr))
    }

    ghost predicate Valid()
      reads this, ranks, commandQueue
    {
      Wired() && Sized()
    }

    predicate Addressed(p: Packet) {
      p.rank < c.ranks && p.bank < c.banks
    }

    constructor (c: Config)
      requires c.Valid()
      ensures this.c == c && Valid() && State() == Start(c)
      ensures fresh(commandQueue) && fresh(ranks)
    {
      hide RanksWired, States, CommandQueue.Valid, CommandQueue.State;
      this.c := c;
      var queue := new CommandQueue(c);
      var rs := MakeRanks(c);
      commandQueue, ranks := queue, rs;
      now := 0;
      banks := seq(c.ranks, i => FreshRow(c));
      cmd, cmdLeft, data, dataLeft := None, 0, None, 0;
      writeData, writeCountdown, transactions, pendingReads, toReturn := [], [], [], [], [];
      refreshCountdown := seq(c.ranks, i requires 0 <= i => Stagger(c, i));
      refreshRank := 0;
      powerDown := seq(c.ranks, i => false);
      log := Log([], [], [], []);
    }

    static method MakeRanks(c: Config) returns (rs: seq<Rank>)
      ensures fresh(rs) && RanksWired(c, rs) && States(rs) == Start(c).ranks
    {
      rs := [];
      for i := 0 to c.ranks
        invariant |rs| == i && fresh(rs)
        invariant forall k :: 0 <= k < i ==> rs[k].c == c && rs[k].Valid() && rs[k].State() == FreshRank(c)
        invariant forall k, l :: 0 <= k < l < i ==> rs[k] != rs[l]
      {
        var r := new Rank(c);
        rs := rs + [r];
      }
    }

    /** addTransaction: a full queue turns the request away. */
    method AddTransaction(isRead: bool, addr: nat) returns (taken: bool)
      requires Valid() && c.InRange(addr)
      modifies this`transactions, this`log
      ensures Valid() && State() == DramSystem.AddTransaction(c, old(State()), isRead, addr)
      ensures taken <==> old(|transactions|) < c.transQueueDepth
    {
      taken := |transactions| < c.transQueueDepth;
      if taken {
        var t := Transaction(isRead, addr, |log.accepted|);
        transactions := transactions + [t];
        log := log.(accepted := log.accepted + [t]);
      }
    }

    /** receiveFromBus: only read data may arrive. */
    method ReceiveFromBus(p: Packet) returns (ok: bool)
      requires Valid()
      modifies this`toReturn
      ensures ok <==> p.kind == DATA
      ensures Valid() && toReturn == if ok then old(toReturn) + [p] else old(toReturn)
    {
      ok := p.kind == DATA;
      if ok { toReturn := toReturn + [p]; }
    }

    /** A new cycle in the bank table: countdowns run and states change. */
    method TickTable()
      requires Valid()
      modifies this`banks
      ensures Valid() && State() == DramSystem.TickTable(c, old(State()))
    {
      ghost var s := State();
      for i := 0 to c.ranks
        invariant TableShaped(c, banks)
        invariant forall k :: 0 <= k < i ==> banks[k] == TickRow(c, old(banks)[k])
        invariant forall k :: i <= k < c.ranks ==> banks[k] == old(banks)[k]
      {
        var row := TickRowLoop(banks[i]);
        banks := banks[i := row];
      }
      assert banks == TickBanks(c, old(banks));
    }

    method TickRowLoop(was: seq<Bank>) returns (row: seq<Bank>)
      ensures row == TickRow(c, was)
    {
      row := was;
      for j := 0 to |was|
        invariant |row| == |was|
        invariant forall k :: 0 <= k < j ==> row[k] == TickBank(c, was[k])
        invariant forall k :: j <= k < |was| ==> row[k] == was[k]
      {
        var b := row[j];
        if b.countdown > 0 {
          b := b.(countdown := b.countdown - 1);
          if b.countdown == 0 {
            match b.lastCommand
            case WRITE_P | READ_P => b := b.(phase := Precharging, lastCommand := PRECHARGE, countdown := c.t.tRP);
            case REFRESH | PRECHARGE => b := b.(phase := Idle);
            case _ =>
          }
        }
        row := row[j := b];
      }
    }

    /** The command bus: a packet whose time is up reaches its rank. */
    method DeliverCommand() returns (ok: bool)
      requires Valid()
      modifies this`cmd, this`cmdLeft, ranks
      ensures match DramSystem.DeliverCommand(c, old(State()))
              case None => !ok
              case Some(s) => ok && Valid() && State() == s
    {
      hide Shaped, PacketsInRange, TableShaped, CommandQueue.State, CommandQueue.Valid, Accepts, TakeBanks;
      if cmd.None? { return true; }
      cmdLeft := cmdLeft - 1;
      if cmdLeft != 0 { return true; }
      var p := cmd.value;
      ok := ranks[p.rank].ReceiveFromBus(p, now);
      cmd := None;
    }

    /** The data bus: the write on it may be done. */
    method FinishWrite()
      requires Valid()
      modifies this`data, this`dataLeft, this`log, ranks
      ensures Valid() && State() == DramSystem.FinishWrite(c, old(State()))
    {
      hide Wired, States, CommandQueue.State, TableShaped;
      if data.Some? {
        dataLeft := dataLeft - 1;
        if dataLeft == 0 {
          var p := data.value;
          log := log.(written := log.written + [p]);
          StoreData(p);
          data := None;
        }
      }
    }

    /** Write data reaches its rank, which keeps no data. */
    method StoreData(p: Packet)
      requires Wired() && Addressed(p) && p.kind == DATA
      modifies ranks
      ensures Wired() && States(ranks) == old(States(ranks))
    {
      ghost var was := ranks[p.rank].State();
      assert TakeBanks(c, was.banks, p, now) == was.banks;
      hide CommandQueue.Valid;
      var ok := ranks[p.rank].ReceiveFromBus(p, now);
    }

    method CountDownWrites()
      modifies this`writeCountdown
      ensures writeCountdown == Down1(old(writeCountdown))
    {
      var n := |writeCountdown|;
      for i := 0 to n
        invariant |writeCountdown| == n
        invariant forall k :: 0 <= k < i ==> writeCountdown[k] == old(writeCountdown)[k] - 1
        invariant forall k :: i <= k < n ==> writeCountdown[k] == old(writeCountdown)[k]
      {
        writeCountdown := writeCountdown[i := writeCountdown[i] - 1];
      }
    }

    /** The next write data whose latency is over goes on the bus; false is the collision exit. */
    method LaunchWrite() returns (ok: bool)
      requires Valid()
      modifies this`data, this`dataLeft, this`writeData, this`writeCountdown
      ensures match DramSystem.LaunchWrite(c, old(State()))
              case None => !ok
              case Some(s) => ok && Valid() && State() == s
    {
      hide Wired, States, CommandQueue.State;
      ok := true;
      if |writeCountdown| > 0 {
        CountDownWrites();
        if writeCountdown[0] == 0 {
          if data.Some? { return false; }
          data := Some(writeData[0]);
          dataLeft := c.t.Burst();
          writeCountdown := writeCountdown[1..];
          writeData := writeData[1..];
        }
      }
    }

    method HoldRank(r: nat)
      requires Wired() && r < c.ranks
      modifies ranks
      ensures Wired() && States(ranks) == old(States(ranks))[r := old(States(ranks))[r].(refreshWaiting := true)]
    {
      hide CommandQueue.Valid;
      ranks[r].WaitForRefresh();
    }

    /** A refresh that is due is asked for; a sleeping rank is woken in time for it. */
    method RefreshTimer()
      requires Valid()
      modifies this`refreshCountdown, this`refreshRank, commandQueue, ranks
      ensures Valid() && State() == DramSystem.RefreshTimer(c, old(State()))
    {
      hide Shaped, PacketsInRange, RanksWired, States, TableShaped, CommandQueue.Valid, CommandQueue.State;
      if refreshCountdown[refreshRank] == 0 {
        commandQueue.NeedRefresh(refreshRank);
        HoldRank(refreshRank);
        NextRefresh();
      } else if powerDown[refreshRank] && refreshCountdown[refreshRank] <= c.t.tXP {
        HoldRank(refreshRank);
      }
    }

    /** The refresh timer starts again and the next rank's turn comes. */
    method NextRefresh()
      requires Sized()
      modifies this`refreshCountdown, this`refreshRank
      ensures Sized()
      ensures State() == old(State()).(mc := old(State()).mc.(
        refreshCountdown := old(refreshCountdown)[old(refreshRank) := c.refreshInterval],
        refreshRank := if old(refreshRank) + 1 == c.ranks then 0 else old(refreshRank) + 1))
    {
      refreshCountdown := refreshCountdown[refreshRank := c.refreshInterval];
      refreshRank := refreshRank + 1;
      if refreshRank == c.ranks { refreshRank := 0; }
    }

    /** The bank table after a command: its own bank, and every bank it holds up. */
    method UpdateBankStates(p: Packet)
      requires Valid() && Addressed(p)
      modifies this`banks
      ensures Valid() && banks == SendBanks(c, old(banks), p, now)
    {
      if p.kind.IsColumn() {
        UpdateForColumn(p);
      } else {
        UpdateForRow(p);
      }
    }

    method UpdateForColumn(p: Packet)
      requires Valid() && Addressed(p) && p.kind.IsColumn()
      modifies this`banks
      ensures Valid() && banks == SendBanks(c, old(banks), p, now)
    {
      hide Wired;
      var r, j := p.rank, p.bank;
      var b := banks[r][j];
      match p.kind {
        case READ =>
          SetBank(r, j, b.(nextPrecharge := Max(now + c.t.ReadToPre(), b.nextPrecharge), lastCommand := READ));
          EchoColumn(p);
        case READ_P =>
          SetBank(r, j, b.(nextActivate := Max(now + c.t.ReadAutopre(), b.nextActivate), lastCommand := READ_P,
                           countdown := c.t.ReadToPre()));
          EchoColumn(p);
          b := banks[r][j];
          SetBank(r, j, b.(nextRead := b.nextActivate, nextWrite := b.nextActivate));
        case WRITE =>
          SetBank(r, j, b.(nextPrecharge := Max(now + c.t.WriteToPre(), b.nextPrecharge), lastCommand := WRITE));
          EchoColumn(p);
        case WRITE_P =>
          SetBank(r, j, b.(nextActivate := Max(now + c.t.WriteAutopre(), b.nextActivate), lastCommand := WRITE_P,
                           countdown := c.t.WriteToPre()));
          EchoColumn(p);
          b := banks[r][j];
          SetBank(r, j, b.(nextRead := b.nextActivate, nextWrite := b.nextActivate));
      }
      SameTable(banks, SendBanks(c, old(banks), p, now));
    }

    method UpdateForRow(p: Packet)
      requires Valid() && Addressed(p) && !p.kind.IsColumn()
      modifies this`banks
      ensures Valid() && banks == SendBanks(c, old(banks), p, now)
    {
      hide Wired;
      var r, j := p.rank, p.bank;
      var b := banks[r][j];
      match p.kind {
        case ACTIVATE =>
          SetBank(r, j, b.(phase := RowActive, lastCommand := ACTIVATE, openRow := p.row,
                           nextActivate := Max(now + c.t.tRC, b.nextActivate),
                           nextPrecharge := Max(now + c.t.tRAS, b.nextPrecharge),
                           nextRead := Max(now + (c.t.tRCD - c.t.AL), b.nextRead),
                           nextWrite := Max(now + (c.t.tRCD - c.t.AL), b.nextWrite)));
          DelayActivates(r, j);
        case PRECHARGE =>
          SetBank(r, j, b.(phase := Precharging, lastCommand := PRECHARGE, countdown := c.t.tRP,
                           nextActivate := Max(now + c.t.tRP, b.nextActivate)));
        case REFRESH =>
          RefreshRow(r);
        case DATA =>
      }
      SameTable(banks, SendBanks(c, old(banks), p, now));
    }

    method SetBank(r: nat, j: nat, b: Bank)
      requires r < |banks| && j < |banks[r]|
      modifies this`banks
      ensures banks == Update2(old(banks), r, j, b)
    {
      banks := banks[r := banks[r][j := b]];
    }

    /** What a column command does to every bank's next read and write. */
    method EchoColumn(p: Packet)
      requires TableShaped(c, banks) && p.kind.IsColumn()
      modifies this`banks
      ensures TableShaped(c, banks)
      ensures forall i, j :: 0 <= i < c.ranks && 0 <= j < c.banks ==>
        banks[i][j] == ColumnEcho(c, old(banks)[i][j], p, now, i)
    {
      for i := 0 to c.ranks
        invariant TableShaped(c, banks)
        invariant forall k, j :: 0 <= k < i && 0 <= j < c.banks ==> banks[k][j] == ColumnEcho(c, old(banks)[k][j], p, now, k)
        invariant forall k :: i <= k < c.ranks ==> banks[k] == old(banks)[k]
      {
        var row := EchoRow(banks[i], p, i);
        banks := banks[i := row];
      }
    }

    method EchoRow(was: seq<Bank>, p: Packet, i: nat) returns (row: seq<Bank>)
      requires p.kind.IsColumn()
      ensures |row| == |was| && forall j :: 0 <= j < |row| ==> row[j] == ColumnEcho(c, was[j], p, now, i)
    {
      row := was;
      for j := 0 to |was|
        invariant |row| == |was|
        invariant forall k :: 0 <= k < j ==> row[k] == ColumnEcho(c, was[k], p, now, i)
        invariant forall k :: j <= k < |was| ==> row[k] == was[k]
      {
        var b := row[j];
        if i != p.rank {
          if b.phase == RowActive {
            if p.kind.IsRead() {
              b := b.(nextRead := Max(now + c.t.Burst() + c.t.tRTRS, b.nextRead));
              b := b.(nextWrite := Max(now + c.t.ReadToWrite(), b.nextWrite));
            } else {
              b := b.(nextWrite := Max(now + c.t.Burst() + c.t.tRTRS, b.nextWrite));
              b := b.(nextRead := Max(now + c.t.WriteToReadOtherRank(), b.nextRead));
            }
          }
        } else if p.kind.IsRead() {
          b := b.(nextRead := Max(now + c.t.ColumnGap(), b.nextRead));
          b := b.(nextWrite := Max(now + c.t.ReadToWrite(), b.nextWrite));
        } else {
          b := b.(nextWrite := Max(now + c.t.ColumnGap(), b.nextWrite));
          b := b.(nextRead := Max(now + c.t.WriteToReadSameRank(), b.nextRead));
        }
        row := row[j := b];
      }
    }

    /** ACTIVATE holds up the next ACTIVATE of the rank's other banks. */
    method DelayActivates(r: nat, own: nat)
      requires TableShaped(c, banks) && r < c.ranks
      modifies this`banks
      ensures TableShaped(c, banks) && banks == old(banks)[r := banks[r]]
      ensures forall k :: 0 <= k < c.banks ==>
        banks[r][k] == if k == own then old(banks)[r][k] else old(banks)[r][k].(nextActivate := Max(now + c.t.tRRD, old(banks)[r][k].nextActivate))
    {
      for i := 0 to c.banks
        invariant TableShaped(c, banks) && banks == old(banks)[r := banks[r]]
        invariant forall k :: 0 <= k < i ==>
          banks[r][k] == if k == own then old(banks)[r][k] else old(banks)[r][k].(nextActivate := Max(now + c.t.tRRD, old(banks)[r][k].nextActivate))
        invariant forall k :: i <= k < c.banks ==> banks[r][k] == old(banks)[r][k]
      {
        if i != own {
          SetBank(r, i, banks[r][i].(nextActivate := Max(now + c.t.tRRD, banks[r][i].nextActivate)));
        }
      }
    }

    /** REFRESH takes every bank of the rank. */
    method RefreshRow(r: nat)
      requires TableShaped(c, banks) && r < c.ranks
      modifies this`banks
      ensures TableShaped(c, banks) && banks == old(banks)[r := banks[r]]
      ensures forall k :: 0 <= k < c.banks ==>
        banks[r][k] == old(banks)[r][k].(nextActivate := now + c.t.tRFC, phase := Refreshing, lastCommand := REFRESH, countdown := c.t.tRFC)
    {
      for i := 0 to c.banks
        invariant TableShaped(c, banks) && banks == old(banks)[r := banks[r]]
        invariant forall k :: 0 <= k < i ==>
          banks[r][k] == old(banks)[r][k].(nextActivate := now + c.t.tRFC, phase := Refreshing, lastCommand := REFRESH, countdown := c.t.tRFC)
        invariant forall k :: i <= k < c.banks ==> banks[r][k] == old(banks)[r][k]
      {
        SetBank(r, i, banks[r][i].(nextActivate := now + c.t.tRFC, phase := Refreshing, lastCommand := REFRESH, countdown := c.t.tRFC));
      }
    }

    /** The next command leaves the queue; false is the command bus collision exit. */
    method PopAndSend() returns (ok: bool)
      requires Valid()
      modifies this`banks, this`writeData, this`writeCountdown, this`cmd, this`cmdLeft, this`log, commandQueue
      ensures match DramSystem.PopAndSend(c, old(State()))
              case None => !ok
              case Some(s) => ok && Valid() && State() == s
    {
      PopIsSent(c, State());
      hide RanksWired, DramSystem.PopAndSend, Pop, Shaped, PacketsInRange, CommandQueue.Valid, CommandQueue.State, States, Sending, Sized;
      var popped := commandQueue.PopCommand(banks, now);
      ok := true;
      if popped.Some? { ok := Send(popped.value); }
    }

    /** A popped command goes on the command bus. */
    method Send(p: Packet) returns (ok: bool)
      requires Valid() && Addressed(p)
      modifies this`banks, this`writeData, this`writeCountdown, this`cmd, this`cmdLeft, this`log
      ensures ok <==> old(cmd).None?
      ensures ok ==> Valid() && State() == Sending(c, old(State()), p)
    {
      hide Wired, States, CommandQueue.State, SendBanks, TableShaped;
      if p.kind.IsWrite() {
        writeData := writeData + [Arrive(p)];
        writeCountdown := writeCountdown + [c.t.WL()];
      }
      UpdateBankStates(p);
      if cmd.Some? { return false; }
      cmd := Some(p);
      cmdLeft := c.t.tCMD;
      log := log.(sent := log.sent + [Sent(p, now)]);
      ok := true;
    }

    /** The first transaction whose queue has room becomes an ACTIVATE and a column command;
        false is the exit of enqueue(). */
    method SplitTransaction() returns (ok: bool)
      requires Valid()
      modifies this`transactions, this`pendingReads, commandQueue
      ensures match DramSystem.SplitTransaction(c, old(State()))
              case None => !ok
              case Some(s) => ok && Valid() && State() == s
    {
      var i := FindRoom();
      hide Wired, States, Enqueued, RanksWired, CommandQueue.State;
      if i == |transactions| { return true; }
      ok := Split(i);
    }

    method FindRoom() returns (i: nat)
      requires Valid()
      ensures i == FirstWithRoom(c, commandQueue.State(), transactions)
    {
      i := 0;
      while i < |transactions|
        invariant i <= |transactions|
        invariant forall k: nat :: k < i ==> !HasRoom(c, commandQueue.State(), transactions[k].addr)
      {
        var at := SpotOf(c, transactions[i].addr);
        var room := commandQueue.HasRoomFor(2, at.rank, at.bank);
        if room { break; }
        i := i + 1;
      }
    }

    /** Transaction `i` leaves the transaction queue for its command queue. */
    method Split(i: nat) returns (ok: bool)
      requires Valid() && i < |transactions|
      modifies this`transactions, this`pendingReads, commandQueue
      ensures ok <==> |QueueAt(c, old(commandQueue.State()), SpotOf(c, old(transactions)[i].addr))| + 2 <= c.cmdQueueDepth
      ensures ok ==> Valid() && State() == Enqueued(c, old(State()), i)
    {
      var t := transactions[i];
      assert c.InRange(t.addr);
      transactions := Remove(transactions, i, i + 1);
      if t.isRead { pendingReads := pendingReads + [t]; }
      hide States, RanksWired, TableShaped, PacketsInRange, Shaped, SetQueue, QueueAt, CommandQueue.State;
      ok := EnqueuePair(t);
    }

    /** The ACTIVATE and the column command of a transaction. */
    method EnqueuePair(t: Transaction) returns (ok: bool)
      requires Wired() && c.InRange(t.addr)
      modifies commandQueue
      ensures var q, at := old(commandQueue.State()), SpotOf(c, t.addr);
              var two := [ToPacket(c, ACTIVATE, t), ToPacket(c, ColumnKind(c.policy, t.isRead), t)];
              && (ok <==> |QueueAt(c, q, at)| + 2 <= c.cmdQueueDepth)
              && (ok ==> Wired() && commandQueue.State() == SetQueue(c, q, at, QueueAt(c, q, at) + two))
    {
      ghost var at := SpotOf(c, t.addr);
      EnqueueTwice(c, commandQueue.State(), at, ToPacket(c, ACTIVATE, t), ToPacket(c, ColumnKind(c.policy, t.isRead), t));
      hide States, RanksWired, PacketsInRange, Shaped, SetQueue, QueueAt, CommandQueue.State;
      ok := commandQueue.Enqueue(ToPacket(c, ACTIVATE, t));
      if !ok { return; }
      ok := commandQueue.Enqueue(ToPacket(c, ColumnKind(c.policy, t.isRead), t));
    }

    /** Power management of every rank; false is an exit of powerDown() or powerUp(). */
    method ManagePower() returns (ok: bool)
      requires Valid()
      modifies this`powerDown, this`banks, ranks
      ensures match PowerRanks(c, old(State()), c.ranks)
              case None => !ok
              case Some(s) => ok && Valid() && State() == s
    {
      hide PowerRank, Shaped, PacketsInRange, TableShaped, RanksWired, States, CommandQueue.State, CommandQueue.Valid;
      ghost var s := State();
      ValidIsShaped();
      assert PowerRanks(c, s, 0) == Some(s);
      for i := 0 to c.ranks
        invariant Valid() && PowerRanks(c, s, i) == Some(State())
      {
        hide PowerRanks;
        OneMoreRank(c, s, i, State());
        ok := ManageRank(i);
        if !ok {
          NoRecovery(c, s, i + 1);
          return;
        }
      }
      ok := true;
    }

    method ManageRank(i: nat) returns (ok: bool)
      requires Valid() && i < c.ranks
      modifies this`powerDown, this`banks, ranks
      ensures match PowerRank(c, old(State()), i)
              case None => !ok
              case Some(s) => ok && Valid() && State() == s
    {
      ok := true;
      if c.lowPower {
        var empty := commandQueue.IsEmpty(i);
        if empty && !ranks[i].refreshWaiting {
          var idle := IsIdle(i);
          if idle { ok := Sleep(i); }
        } else if now >= banks[i][0].nextPowerUp && powerDown[i] {
          ok := Wake(i);
        }
      }
    }

    method IsIdle(i: nat) returns (idle: bool)
      requires Valid() && i < c.ranks
      ensures idle == AllIdle(banks[i])
    {
      for j := 0 to c.banks
        invariant forall k :: 0 <= k < j ==> banks[i][k].phase == Idle
      {
        if banks[i][j].phase != Idle { return false; }
      }
      idle := true;
    }

    /** Both sides of rank `i` go to sleep. */
    method Sleep(i: nat) returns (ok: bool)
      requires Valid() && i < c.ranks
      modifies this`powerDown, this`banks, ranks
      ensures match RankPowerDown(c, old(ranks[i].State()), now)
              case None => !ok
              case Some(r) =>
                && ok && Valid()
                && State() == old(State()).(
                  ranks := old(State()).ranks[i := r],
                  mc := old(State()).mc.(powerDown := old(powerDown)[i := true],
                                         banks := old(banks)[i := PowerDownRow(c, old(banks)[i], now)]))
    {
      hide Shaped, PacketsInRange;
      powerDown := powerDown[i := true];
      ok := ranks[i].PowerDownRank(now);
      if !ok { return; }
      ghost var after := States(ranks);
      assert after == old(States(ranks))[i := ranks[i].State()];
      SleepRow(i);
    }

    method SleepRow(i: nat)
      requires TableShaped(c, banks) && i < c.ranks
      modifies this`banks
      ensures banks == old(banks)[i := PowerDownRow(c, old(banks)[i], now)]
    {
      for j := 0 to c.banks
        invariant TableShaped(c, banks) && banks == old(banks)[i := banks[i]]
        invariant forall k :: 0 <= k < j ==> banks[i][k] == PowerDownBank(c, old(banks)[i][k], now)
        invariant forall k :: j <= k < c.banks ==> banks[i][k] == old(banks)[i][k]
      {
        SetBank(i, j, banks[i][j].(phase := PowerDown, nextPowerUp := now + c.t.tCKE));
      }
      assert banks[i] == PowerDownRow(c, old(banks)[i], now);
    }

    /** Both sides of rank `i` wake up. */
    method Wake(i: nat) returns (ok: bool)
      requires Valid() && i < c.ranks
      modifies this`powerDown, this`banks, ranks
      ensures match RankPowerUp(c, old(ranks[i].State()), now)
              case None => !ok
              case Some(r) =>
                && ok && Valid()
                && State() == old(State()).(
                  ranks := old(State()).ranks[i := r],
                  mc := old(State()).mc.(powerDown := old(powerDown)[i := false],
                                         banks := old(banks)[i := PowerUpRow(c, old(banks)[i], now)]))
    {
      hide Shaped, PacketsInRange;
      powerDown := powerDown[i := false];
      ok := ranks[i].PowerUpRank(now);
      if !ok { return; }
      ghost var after := States(ranks);
      assert after == old(States(ranks))[i := ranks[i].State()];
      WakeRow(i);
    }

    method WakeRow(i: nat)
      requires TableShaped(c, banks) && i < c.ranks
      modifies this`banks
      ensures banks == old(banks)[i := PowerUpRow(c, old(banks)[i], now)]
    {
      for j := 0 to c.banks
        invariant TableShaped(c, banks) && banks == old(banks)[i := banks[i]]
        invariant forall k :: 0 <= k < j ==> banks[i][k] == PowerUpBank(c, old(banks)[i][k], now)
        invariant forall k :: j <= k < c.banks ==> banks[i][k] == old(banks)[i][k]
      {
        SetBank(i, j, banks[i][j].(phase := Idle, nextActivate := now + c.t.tXP));
      }
      assert banks[i] == PowerUpRow(c, old(banks)[i], now);
    }

    /** One read goes back to the CPU; false is the exit when nothing is waiting for it. */
    method ReturnRead() returns (ok: bool)
      requires Valid()
      modifies this`pendingReads, this`toReturn, this`log
      ensures match DramSystem.ReturnRead(c, old(State()))
              case None => !ok
              case Some(s) => ok && Valid() && State() == s
    {
      if |toReturn| == 0 { return true; }
      var i := 0;
      while i < |pendingReads| && pendingReads[i].addr != toReturn[0].addr
        invariant i <= |pendingReads|
        invariant forall k: nat :: k < i ==> pendingReads[k].addr != toReturn[0].addr
      {
        i := i + 1;
      }
      assert FirstPending(pendingReads, toReturn[0].addr) == i;
      if i == |pendingReads| { return false; }
      log := log.(returned := log.returned + [pendingReads[i]]);
      pendingReads := Remove(pendingReads, i, i + 1);
      toReturn := toReturn[1..];
      ok := true;
    }

    /** The refresh counters go down (unsigned) and the clocks step. */
    method EndCycle()
      requires Valid()
      modifies this`refreshCountdown, this`now
      ensures Valid() && State() == DramSystem.EndCycle(c, old(State()))
    {
      for i := 0 to c.ranks
        invariant |refreshCountdown| == c.ranks && now == old(now)
        invariant forall k :: 0 <= k < i ==> refreshCountdown[k] == Wrap1(old(refreshCountdown))[k]
        invariant forall k :: i <= k < c.ranks ==> refreshCountdown[k] == old(refreshCountdown)[k]
      {
        refreshCountdown := refreshCountdown[i := (refreshCountdown[i] + 0xFFFF_FFFF) % 0x1_0000_0000];
      }
      assert refreshCountdown == Wrap1(old(refreshCountdown));
      now := now + 1;
    }

    /** update(): the controller's part of a cycle, in the order of the original. */
    method Update() returns (ok: bool)
      requires Valid()
      modifies this, commandQueue, ranks
      ensures match ControllerUpdate(c, old(State()))
              case None => !ok
              case Some(s) => ok && Valid() && State() == s
    {
      hide DramSystem.TickTable, DramSystem.DeliverCommand, DramSystem.FinishWrite, DramSystem.LaunchWrite,
           DramSystem.RefreshTimer, DramSystem.PopAndSend, DramSystem.SplitTransaction, PowerRanks,
           DramSystem.ReturnRead, DramSystem.EndCycle, Valid, Wired, Sized, ControllerShaped, PowerShaped,
           State, States;
      TickTable();
      ok := DeliverCommand();
      if !ok { return; }
      FinishWrite();
      ok := LaunchWrite();
      if !ok { return; }
      RefreshTimer();
      ValidIsShaped();
      ok := PopAndSend();
      if !ok { return; }
      ValidIsShaped();
      ok := SplitTransaction();
      if !ok { return; }
      ValidIsShaped();
      ok := ManagePower();
      if !ok { return; }
      ok := ReturnRead();
      if !ok { return; }
      EndCycle();
    }

    lemma ValidIsShaped()
      requires Valid()
      ensures c.Valid() && ControllerShaped(c, State().mc) && PowerShaped(c, State())
    {
    }
  }

  /** MemorySystem: the ranks run first, then the controller. */
  class MemorySystem {
    const memoryController: MemoryController

    ghost predicate Valid()
      reads memoryController, memoryController.ranks, memoryController.commandQueue
    {
      memoryController.Valid()
    }

    /** A state that some run leads to: all that DramTheorems says of runs holds in it. */
    ghost predicate Good()
      reads memoryController, memoryController.ranks, memoryController.commandQueue
    {
      Valid() && DramTheorems.Inv(memoryController.c, memoryController.State())
    }

    constructor (c: Config)
      requires c.Valid()
      ensures memoryController.c == c && Good() && memoryController.State() == Start(c)
      ensures fresh(memoryController) && fresh(memoryController.ranks) && fresh(memoryController.commandQueue)
    {
      memoryController := new MemoryController(c);
      new;
      DramTheorems.StartHolds(c);
      hide DramTheorems.Inv, Start, MemoryController.Valid, MemoryController.State;
    }

    method AddTransaction(isRead: bool, addr: nat) returns (taken: bool)
      requires Good() && memoryController.c.InRange(addr)
      modifies memoryController`transactions, memoryController`log
      ensures Good() && memoryController.State() == DramSystem.AddTransaction(memoryController.c, old(memoryController.State()), isRead, addr)
      ensures taken <==> old(|memoryController.transactions|) < memoryController.c.transQueueDepth
    {
      hide DramTheorems.Inv, DramSystem.AddTransaction, MemoryController.State;
      ValidConfig();
      DramTheorems.AddKeeps(memoryController.c, memoryController.State(), isRead, addr);
      hide MemoryController.Valid;
      taken := memoryController.AddTransaction(isRead, addr);
    }

    /** update(): one clock cycle. None of the error exits of the controller, the command queue
        or a rank is taken. */
    method Update()
      requires Good()
      modifies memoryController, memoryController.commandQueue, memoryController.ranks
      ensures Good() && memoryController.c.Valid()
      ensures Cycle(memoryController.c, old(memoryController.State())) == Some(memoryController.State())
    {
      hide DramTheorems.Inv, Cycle, MemoryController.Valid, MemoryController.State, TickRanks, ControllerUpdate;
      ghost var c, s := memoryController.c, memoryController.State();
      ValidConfig();
      DramTheorems.CycleKeeps(c, s);
      CycleInParts(c, s);
      var ok := UpdateRanks();
      assert ok;
      ok := memoryController.Update();
      assert ok;
    }

    lemma ValidConfig()
      requires Valid()
      ensures memoryController.c.Valid()
    {
    }

    /** Every rank's update(), in order. */
    method UpdateRanks() returns (ok: bool)
      requires Valid()
      modifies memoryController`toReturn, memoryController.ranks
      ensures memoryController.c.Valid()
      ensures match TickRanks(memoryController.c, old(memoryController.State()))
              case None => !ok
              case Some(s) => ok && Valid() && memoryController.State() == s
    {
      var mc := memoryController;
      ghost var s := mc.State();
      assert |s.ranks| == |mc.ranks|;
      assert s == Ticked(mc.c, s, 0) && AllArrived(mc.c, s.ranks, 0);
      TickedAll(mc.c, s);
      assert mc.c.Valid();
      hide *;
      for i := 0 to |mc.ranks|
        invariant mc.Valid() && mc.State() == Ticked(mc.c, s, i)
        invariant AllArrived(mc.c, s.ranks, i)
      {
        TickedNext(mc.c, s, i);
        ok := UpdateRank(i);
        if !ok { return; }
      }
      ok := true;
    }

    /** One rank's update(); what leaves the rank goes to the controller. */
    method UpdateRank(i: nat) returns (ok: bool)
      requires Valid() && i < |memoryController.ranks|
      modifies memoryController`toReturn, memoryController.ranks
      ensures |old(memoryController.State()).ranks| == |memoryController.ranks|
      ensures ok <==> Arrived(memoryController.c, old(memoryController.State()).ranks[i])
      ensures ok ==> Valid() && memoryController.State() == TickOne(memoryController.c, old(memoryController.State()), i)
    {
      var mc := memoryController;
      ghost var rs := States(mc.ranks);
      hide CommandQueue.Valid, Shaped, PacketsInRange, TableShaped, CommandQueue.State;
      ok := true;
      var done := mc.ranks[i].Update();
      assert States(mc.ranks) == rs[i := RankTick(mc.c, rs[i]).1];
      if done.Some? { ok := mc.ReceiveFromBus(done.value); }
    }
  }

  /** What leaves the rank in this cycle, if anything, is read data. */
  predicate Arrived(c: Config, r: RankState) {
    var d := RankTick(c, r).0;
    d.Some? ==> d.value.kind == DATA
  }

  function TickOne(c: Config, s: System, i: nat): System
    requires i < |s.ranks|
  {
    var (d, r) := RankTick(c, s.ranks[i]);
    s.(ranks := s.ranks[i := r], mc := s.mc.(toReturn := if d.Some? then s.mc.toReturn + [d.value] else s.mc.toReturn))
  }

  /** The system when the first `n` ranks have been updated. */
  function Ticked(c: Config, s: System, n: nat): System
    requires n <= |s.ranks|
  {
    s.(ranks := seq(|s.ranks|, k requires 0 <= k < |s.ranks| => if k < n then RankTick(c, s.ranks[k]).1 else s.ranks[k]),
       mc := s.mc.(toReturn := s.mc.toReturn + Deliveries(c, s.ranks, n)))
  }

  lemma TickedNext(c: Config, s: System, n: nat)
    requires n < |s.ranks|
    ensures Ticked(c, s, n).ranks[n] == s.ranks[n]
    ensures Ticked(c, s, n + 1) == TickOne(c, Ticked(c, s, n), n)
    ensures AllArrived(c, s.ranks, n + 1) <==> AllArrived(c, s.ranks, n) && Arrived(c, s.ranks[n])
    ensures AllArrived(c, s.ranks, |s.ranks|) ==> AllArrived(c, s.ranks, n + 1)
  {
    assert Ticked(c, s, n + 1).ranks == TickOne(c, Ticked(c, s, n), n).ranks;
    assert Ticked(c, s, n + 1).mc.toReturn == TickOne(c, Ticked(c, s, n), n).mc.toReturn;
  }

  /** The first `n` ranks let go of nothing but read data. */
  predicate AllArrived(c: Config, ranks: seq<RankState>, n: nat)
    requires n <= |ranks|
  {
    forall k: nat :: k < n ==> Arrived(c, ranks[k])
  }

  lemma TickedAll(c: Config, s: System)
    ensures TickRanks(c, s) == if AllArrived(c, s.ranks, |s.ranks|) then Some(Ticked(c, s, |s.ranks|)) else None
  {
    var n := |s.ranks|;
    if AllArrived(c, s.ranks, n) {
      GoodDeliveries(c, s.ranks, n);
      assert TickRanks(c, s).value.ranks == Ticked(c, s, n).ranks;
    } else {
      var k: nat :| k < n && !Arrived(c, s.ranks[k]);
      BadDelivery(c, s.ranks, k);
    }
  }

  lemma {:induction false} GoodDeliveries(c: Config, ranks: seq<RankState>, n: nat)
    requires n <= |ranks|
    requires AllArrived(c, ranks, n)
    ensures forall k :: 0 <= k < |Deliveries(c, ranks, n)| ==> Deliveries(c, ranks, n)[k].kind == DATA
  {
    if n > 0 {
      assert Arrived(c, ranks[n-1]);
      GoodDeliveries(c, ranks, n - 1);
    }
  }

  /** The controller's part of Cycle. */
  function ControllerUpdate(c: Config, s: System): Option<System> {
    if !c.Valid() then None else
    var s1 := DramSystem.DeliverCommand(c, DramSystem.TickTable(c, s));
    if s1.None? then None else
    var s2 := DramSystem.LaunchWrite(c, DramSystem.FinishWrite(c, s1.value));
    if s2.None? then None else
    var s3 := Act(c, DramSystem.RefreshTimer(c, s2.value));
    if s3.None? then None else Some(DramSystem.EndCycle(c, s3.value))
  }

  lemma CycleInParts(c: Config, s: System)
    requires c.Valid()
    ensures Cycle(c, s) == match TickRanks(c, s) case None => None case Some(s1) => ControllerUpdate(c, s1)
  {
    hide DramSystem.TickRanks, DramSystem.TickTable, DramSystem.DeliverCommand, DramSystem.FinishWrite,
         DramSystem.LaunchWrite, DramSystem.RefreshTimer, DramSystem.Act, DramSystem.EndCycle;
  }

  /** A packet that is not read data among the deliveries stops the cycle. */
  lemma {:induction false} BadDelivery(c: Config, ranks: seq<RankState>, i: nat)
    requires i < |ranks| && !Arrived(c, ranks[i])
    ensures exists k :: 0 <= k < |Deliveries(c, ranks, |ranks|)| && Deliveries(c, ranks, |ranks|)[k].kind != DATA
  {
    var k := |Deliveries(c, ranks, i)|;
    assert Deliveries(c, ranks, i + 1)[k].kind != DATA;
    DeliveriesGrow(c, ranks, i + 1, |ranks|);
  }

  lemma {:induction false} DeliveriesGrow(c: Config, ranks: seq<RankState>, i: nat, n: nat)
    requires i <= n <= |ranks|
    ensures Deliveries(c, ranks, i) <= Deliveries(c, ranks, n)
  {
    if i < n { DeliveriesGrow(c, ranks, i, n - 1); }
  }

  lemma SameTable(a: seq<seq<Bank>>, b: seq<seq<Bank>>)
    requires |a| == |b|
    requires forall i :: 0 <= i < |a| ==> |a[i]| == |b[i]|
    requires forall i, j :: 0 <= i < |a| && 0 <= j < |a[i]| ==> a[i][j] == b[i][j]
    ensures a == b
  {
    forall i | 0 <= i < |a| ensures a[i] == b[i] {}
  }

  /** What the controller does with the result of pop(). */
  lemma PopIsSent(c: Config, s: System)
    requires c.Valid() && ControllerShaped(c, s.mc) && PacketsInRange(c, s.mc.cq)
    ensures var (popped, cq) := Pop(c, s.mc.cq, s.mc.banks, s.now);
            && (popped.Some? ==> popped.value.rank < c.ranks && popped.value.bank < c.banks)
            && DramSystem.PopAndSend(c, s) ==
              if popped.None? then Some(s.(mc := s.mc.(cq := cq)))
              else if s.mc.cmd.Some? then None
              else Some(Sending(c, s.(mc := s.mc.(cq := cq)), popped.value))
  {
    var q0 := s.mc.cq.(faw := TickFaw(s.mc.cq.faw));
    DecideShaped(c, q0, s.mc.banks, s.now);
    var (d, q1) := Decide(c, q0, s.mc.banks, s.now);
    if d != Wait { CommitShaped(c, q1, d); }
    hide Decide, Settle, Commit, Chosen, Shaped, DecisionShaped, PacketsInRange;
  }

  lemma OneMoreRank(c: Config, s: System, i: nat, s1: System)
    requires PowerShaped(c, s) && i < c.ranks && PowerRanks(c, s, i) == Some(s1)
    ensures PowerShaped(c, s1) && PowerRanks(c, s, i + 1) == PowerRank(c, s1, i)
  {
    hide PowerRank;
  }

  /** An exit in one rank's power management is an exit of the whole loop. */
  lemma {:induction false} NoRecovery(c: Config, s: System, n: nat)
    requires PowerShaped(c, s) && n <= c.ranks && PowerRanks(c, s, n).None?
    ensures PowerRanks(c, s, c.ranks).None?
    decreases c.ranks - n
  {
    if n < c.ranks { NoRecovery(c, s, n + 1); }
  }

  lemma EnqueueTwice(c: Config, s: QueueState, at: Spot, p: Packet, p': Packet)
    requires Shaped(c, s) && at.rank < c.ranks && at.bank < c.banks
    ensures var q := QueueAt(c, s, at);
            var s1 := SetQueue(c, s, at, q + [p]);
            && Shaped(c, s1)
            && QueueAt(c, s1, at) + [p'] == q + [p, p']
            && SetQueue(c, s1, at, q + [p, p']) == SetQueue(c, s, at, q + [p, p'])
  {
    var q := QueueAt(c, s, at);
    var s1 := SetQueue(c, s, at, q + [p]);
    assert Slot(c, at.bank) < |s.queues[at.rank]|;
    assert q + [p] + [p'] == q + [p, p'];
    var r, sl := at.rank, Slot(c, at.bank);
    assert s1.queues[r] == s.queues[r][sl := q + [p]];
    assert s1.queues[r][sl := q + [p, p']] == s.queues[r][sl := q + [p, p']];
    assert s1.queues[r := s1.queues[r][sl := q + [p, p']]] == s.queues[r := s.queues[r][sl := q + [p, p']]];
  }
}
