/** CommandQueue as the simulator runs it: loops over queues and banks that update the
    queue's fields. Each method is proved against the specification in DramQueue. */
module DramCommandQueue {
  import opened Wrappers
  import opened DramTypes
  import opened DramBanks
  import opened DramQueue
  import DramSystem

  class CommandQueue {
    const c: Config
    var queues: seq<seq<seq<Packet>>>
    var nextRank: nat
    var nextBank: nat
    var nextRankPre: nat
    var nextBankPre: nat
    var refreshRank: nat
    var refreshWaiting: bool
    var faw: seq<seq<int>>
    var accesses: seq<seq<nat>>
    var sendAct: bool

    function State(): QueueState
      reads this
    {
      QueueState(queues, nextRank, nextBank, nextRankPre, nextBankPre, refreshRank, refreshWaiting, faw, accesses, sendAct)
    }

    ghost predicate Valid()
      reads this
    {
      c.Valid() && Shaped(c, State()) && PacketsInRange(c, State())
    }

    constructor (c: Config)
      requires c.Valid()
      ensures this.c == c && Valid() && State() == Initial(c)
    {
      this.c := c;
      queues := seq(c.ranks, i => seq(Slots(c), j => []));
      nextRank, nextBank, nextRankPre, nextBankPre := 0, 0, 0, 0;
      refreshRank, refreshWaiting := 0, false;
      faw := seq(c.ranks, i => []);
      accesses := seq(c.ranks, i => seq(c.banks, j => 0));
      sendAct := true;
    }

    /** needRefresh. */
    method NeedRefresh(rank: nat)
      requires Valid() && rank < c.ranks
      modifies this
      ensures Valid() && State() == old(State()).(refreshWaiting := true, refreshRank := rank)
    {
      refreshWaiting := true;
      refreshRank := rank;
    }

    /** isEmpty. */
    method IsEmpty(rank: nat) returns (empty: bool)
      requires Valid() && rank < c.ranks
      ensures empty == DramSystem.QueueEmpty(State(), rank)
    {
      if c.queuing == PerRank { return queues[rank][0] == []; }
      for i := 0 to c.banks
        invariant forall k :: 0 <= k < i ==> queues[rank][k] == []
      {
        if queues[rank][i] != [] { return false; }
      }
      empty := true;
    }

    /** hasRoomFor: the difference is unsigned, so an over-full queue has room. */
    method HasRoomFor(need: nat, rank: nat, bank: nat) returns (room: bool)
      requires Valid() && rank < c.ranks && bank < c.banks
      ensures var n := |QueueAt(c, State(), Spot(rank, bank))|;
              room <==> n > c.cmdQueueDepth || n + need <= c.cmdQueueDepth
    {
      var n := |queues[rank][Slot(c, bank)]|;
      room := if n > c.cmdQueueDepth then true else c.cmdQueueDepth - n >= need;
    }

    /** enqueue: false is the error exit of a queue grown past its depth. */
    method Enqueue(p: Packet) returns (ok: bool)
      requires Valid() && p.rank < c.ranks && p.bank < c.banks
      modifies this
      ensures Valid()
      ensures var q := QueueAt(c, old(State()), Spot(p.rank, p.bank)) + [p];
              State() == SetQueue(c, old(State()), Spot(p.rank, p.bank), q) && (ok <==> |q| <= c.cmdQueueDepth)
    {
      var sl := Slot(c, p.bank);
      queues := queues[p.rank := queues[p.rank][sl := queues[p.rank][sl] + [p]]];
      ok := |queues[p.rank][sl]| <= c.cmdQueueDepth;
    }

    /** The sliding-window counters of every rank go down by one. */
    method TickWindows()
      requires Valid()
      modifies this`faw
      ensures Valid() && faw == TickFaw(old(faw))
    {
      ghost var was := faw;
      for i := 0 to |faw|
        invariant |faw| == |was|
        invariant forall k :: 0 <= k < i ==> faw[k] == TickCounters(was[k])
        invariant forall k :: i <= k < |faw| ==> faw[k] == was[k]
      {
        var v := faw[i];
        for j := 0 to |v|
          invariant |v| == |was[i]|
          invariant forall k :: 0 <= k < j ==> v[k] == was[i][k] - 1
          invariant forall k :: j <= k < |v| ==> v[k] == was[i][k]
        {
          v := v[j := v[j] - 1];
        }
        assert v == seq(|was[i]|, j requires 0 <= j < |was[i]| => was[i][j] - 1);
        if |v| > 0 && v[0] == 0 { v := v[1..]; }
        faw := faw[i := v];
      }
    }

    /** The refresh path of pop(). */
    method RefreshPath(table: seq<seq<Bank>>, now: int) returns (d: Decision)
      requires Valid() && TableShaped(c, table)
      ensures d == RefreshDecision(c, State(), table, now)
    {
      if !refreshWaiting { return Wait; }
      var row := table[refreshRank];
      var b := 0;
      while b < c.banks && !(row[b].phase == RowActive || row[b].nextActivate > now)
        invariant b <= c.banks
        invariant forall k: nat :: k < b ==> !Busy(row, k, now)
      {
        b := b + 1;
      }
      assert FirstBusy(row, now) == b by { FirstBusyIs(row, now, b); }
      if b == c.banks {
        return if row[0].phase != PowerDown then Refresh(refreshRank) else Wait;
      }
      if row[b].phase != RowActive { return Wait; }
      var q := queues[refreshRank][Slot(c, b)];
      var j := FindFirstTo(q, b, row[b].openRow);
      if j < |q| && q[j].kind != ACTIVATE {
        d := if Issuable(c, State(), table, q[j], now) then Take(Spot(refreshRank, b), j, false) else Wait;
      } else if c.policy == OpenPage && now >= row[b].nextPrecharge {
        d := Close(refreshRank, b);
      } else {
        d := Wait;
      }
    }

    /** The first packet of a queue that goes to a bank's row. */
    static method FindFirstTo(q: seq<Packet>, bank: nat, row: nat) returns (j: nat)
      ensures j == FirstTo(q, bank, row)
    {
      j := 0;
      while j < |q| && !(q[j].bank == bank && q[j].row == row)
        invariant j <= |q|
        invariant forall k: nat :: k < j ==> !GoesTo(q, k, bank, row)
      {
        j := j + 1;
      }
      FirstToIs(q, bank, row, j);
    }

    /** The first packet of a queue that may leave by the normal search. */
    method FindEligible(table: seq<seq<Bank>>, q: seq<Packet>, now: int) returns (i: nat)
      requires Valid() && TableShaped(c, table)
      ensures i == Pick(c, State(), table, q, now)
    {
      i := 0;
      while i < |q|
        invariant i <= |q|
        invariant forall k: nat :: k < i ==> !Eligible(c, State(), table, q, k, now)
      {
        if c.policy == ClosePage && c.queuing == PerRankPerBank && i > 0 {
          // no need to search behind the front
          i := |q|;
          break;
        }
        if Issuable(c, State(), table, q[i], now) {
          var held := false;
          if c.policy == OpenPage {
            var j := 0;
            while j < i && !held
              invariant j <= i
              invariant held <==> exists k :: 0 <= k < j && q[k].kind != ACTIVATE && q[k].bank == q[i].bank && q[k].row == q[i].row
            {
              held := q[j].kind != ACTIVATE && q[j].bank == q[i].bank && q[j].row == q[i].row;
              j := j + 1;
            }
            assert held == Dependent(q, i);
          } else {
            held := i > 0 && q[i-1].kind == ACTIVATE && q[i-1].addr == q[i].addr && c.queuing == PerRank;
          }
          if !held { break; }
        }
        i := i + 1;
      }
      PickIs(c, State(), table, q, now, i);
    }

    /** The packet to issue in the queue the pointers are at. (`s` is the state before the
        pointers started to move.) */
    method LookHere(table: seq<seq<Bank>>, now: int, ghost s: QueueState) returns (hit: Option<nat>)
      requires Valid() && TableShaped(c, table)
      requires State() == s.(nextRank := nextRank, nextBank := nextBank)
      ensures hit == HitAt(c, s, table, Spot(nextRank, nextBank), now)
    {
      var q := queues[nextRank][Slot(c, nextBank)];
      PointersOutOfPick(c, s, nextRank, nextBank, table, q, now);
      hit := None;
      if !(nextRank == refreshRank && refreshWaiting) {
        var index := FindEligible(table, q, now);
        if index < |q| { hit := Some(index); }
      }
    }

    /** The next queue in turn: the next rank, or the next rank and bank. */
    method Advance()
      requires Valid()
      modifies this`nextRank, this`nextBank
      ensures Valid() && State() == old(State()).(nextRank := nextRank, nextBank := nextBank)
      ensures Spot(nextRank, nextBank) == Step(c, c.queuing == PerRank, Spot(old(nextRank), old(nextBank)))
    {
      ghost var s := State();
      if c.queuing == PerRank {
        nextRank := (nextRank + 1) % c.ranks;
      } else {
        var n := NextSpot(c, Spot(nextRank, nextBank));
        nextRank, nextBank := n.rank, n.bank;
      }
      hide PacketsInRange;
      SameQueuesInRange(c, s, State());
    }

    method AdvancePre()
      requires Valid()
      modifies this`nextRankPre, this`nextBankPre
      ensures Valid() && State() == old(State()).(nextRankPre := nextRankPre, nextBankPre := nextBankPre)
      ensures Spot(nextRankPre, nextBankPre) == NextSpot(c, Spot(old(nextRankPre), old(nextBankPre)))
    {
      ghost var s := State();
      var n := NextSpot(c, Spot(nextRankPre, nextBankPre));
      nextRankPre, nextBankPre := n.rank, n.bank;
      hide PacketsInRange;
      SameQueuesInRange(c, s, State());
    }

    /** Round robin over the queues. */
    method Search(table: seq<seq<Bank>>, now: int) returns (hit: Option<nat>)
      requires Valid() && TableShaped(c, table)
      modifies this`nextRank, this`nextBank
      ensures Valid() && State() == old(State()).(nextRank := nextRank, nextBank := nextBank)
      ensures (Spot(nextRank, nextBank), hit) == Found(c, old(State()), table, now)
    {
      ghost var s := State();
      var start := Spot(nextRank, nextBank);
      ghost var k := 0;
      LapPositive(c, c.queuing == PerRank);
      assert start == Walk(c, c.queuing == PerRank, start, 0) && NoneBefore(c, s, table, now, 0);
      assert start.rank < c.ranks && start.bank < c.banks && s == s.(nextRank := nextRank, nextBank := nextBank);
      assert s.nextRank == start.rank && s.nextBank == start.bank;
      hide *;
      while true
        invariant Valid() && State() == s.(nextRank := nextRank, nextBank := nextBank)
        invariant k < Lap(c, c.queuing == PerRank) && Spot(nextRank, nextBank) == Walk(c, c.queuing == PerRank, start, k)
        invariant NoneBefore(c, s, table, now, k)
        decreases Lap(c, c.queuing == PerRank) - k
      {
        hit := LookHere(table, now, s);
        Look(c, s, table, now, k);
        if hit.Some? { return; }
        Advance();
        Turn(c, c.queuing == PerRank, start, k);
        k := k + 1;
        if Spot(nextRank, nextBank) == start {
          NoneFound(c, s, table, now);
          return;
        }
      }
    }

    /** May the bank the PRE pointers are at be closed? */
    method LookToClose(table: seq<seq<Bank>>, now: int) returns (ready: bool)
      requires Valid() && TableShaped(c, table)
      ensures ready == Closable(c, State(), table, Spot(nextRankPre, nextBankPre), now)
    {
      var b := table[nextRankPre][nextBankPre];
      var q := queues[nextRankPre][Slot(c, nextBankPre)];
      ready := false;
      if b.phase == RowActive {
        var j := FindFirstTo(q, nextBankPre, b.openRow);
        ready := (j == |q| || accesses[nextRankPre][nextBankPre] == c.totalRowAccesses) && now >= b.nextPrecharge;
      }
    }

    /** With nothing to issue in open page: the next bank to close. */
    method SearchPre(table: seq<seq<Bank>>, now: int) returns (found: bool)
      requires Valid() && TableShaped(c, table)
      modifies this`nextRankPre, this`nextBankPre
      ensures Valid()
      ensures var (d, s') := PreSearch(c, old(State()), table, now);
              State() == s' && d == if found then Close(nextRankPre, nextBankPre) else Wait
    {
      ghost var s := State();
      var start := Spot(nextRankPre, nextBankPre);
      ghost var k := 0;
      LapPositive(c, false);
      assert start == Walk(c, false, start, 0) && NoneClosableBefore(c, s, table, now, 0);
      assert start.rank < c.ranks && start.bank < c.banks && s == s.(nextRankPre := nextRankPre, nextBankPre := nextBankPre);
      assert s.nextRankPre == start.rank && s.nextBankPre == start.bank;
      hide *;
      while true
        invariant Valid() && State() == s.(nextRankPre := nextRankPre, nextBankPre := nextBankPre)
        invariant k < Lap(c, false) && Spot(nextRankPre, nextBankPre) == Walk(c, false, start, k)
        invariant NoneClosableBefore(c, s, table, now, k)
        decreases Lap(c, false) - k
      {
        found := LookToClose(table, now);
        PointersOutOfClosable(c, s, nextRankPre, nextBankPre, table, Spot(nextRankPre, nextBankPre), now);
        LookPre(c, s, table, now, k);
        if found { return; }
        AdvancePre();
        Turn(c, false, start, k);
        k := k + 1;
        if Spot(nextRankPre, nextBankPre) == start {
          NoneClosableFound(c, s, table, now);
          return;
        }
      }
    }

    /** Take the chosen packet out of the queue, or make the command that was decided on. */
    method Perform(d: Decision) returns (p: Packet)
      requires Valid() && DecisionShaped(c, State(), d) && d != Wait
      modifies this
      ensures Valid() && p == Chosen(c, old(State()), d) && State() == Commit(c, old(State()), d)
      ensures p.rank < c.ranks
    {
      ghost var s := State();
      CommitShaped(c, s, d);
      match d
      case Refresh(r) =>
        p := Packet(REFRESH, 0, 0, 0, r, 0, 0);
        refreshRank, refreshWaiting := NO_RANK, false;
      case Close(r, b) =>
        accesses := Update2(accesses, r, b, 0);
        p := Packet(PRECHARGE, 0, 0, 0, r, b, 0);
      case Take(at, i, drop) =>
        var sl := Slot(c, at.bank);
        var q := queues[at.rank][sl];
        p := q[i];
        var rest := Remove(q, i, i + 1);
        if drop {
          accesses := Update2(accesses, p.rank, p.bank, accesses[p.rank][p.bank] + 1);
          rest := Remove(q, i - 1, i + 1);
        }
        queues := queues[at.rank := queues[at.rank][sl := rest]];
      CommitInRange(c, s, d);
    }

    /** The decision of pop(), with the pointers moved to where it was found. */
    method Choose(table: seq<seq<Bank>>, now: int) returns (d: Decision)
      requires Valid() && TableShaped(c, table)
      modifies this`nextRank, this`nextBank, this`nextRankPre, this`nextBankPre
      ensures Valid() && (d, State()) == Decide(c, old(State()), table, now)
    {
      ghost var s := State();
      d := RefreshPath(table, now);
      hide RefreshDecision, HitAt, PacketsInRange, Shaped, PreSearch, TakeFrom, FirstReady, Walk, Lap;
      if d == Wait {
        var hit := Search(table, now);
        if hit.Some? {
          d := TakeHere(table, now, s, hit.value);
        } else if c.policy == OpenPage {
          var close := SearchPre(table, now);
          if close { d := Close(nextRankPre, nextBankPre); }
        }
      }
    }

    /** The packet found in the queue the pointers are at, and whether its ACTIVATE goes too. */
    method TakeHere(table: seq<seq<Bank>>, now: int, ghost s: QueueState, index: nat) returns (d: Decision)
      requires Valid() && s.queues == queues
      requires HitAt(c, s, table, Spot(nextRank, nextBank), now) == Some(index)
      ensures d == TakeFrom(c, s, table, Spot(nextRank, nextBank), now)
    {
      var q := queues[nextRank][Slot(c, nextBank)];
      d := Take(Spot(nextRank, nextBank), index, c.policy == OpenPage && 0 < index <= |q| && q[index-1].kind == ACTIVATE);
    }

    /** The pointers after a command, and the window counter of an ACTIVATE. */
    method SettleAfter(p: Packet)
      requires Valid() && p.rank < c.ranks
      modifies this
      ensures Valid() && State() == Settle(c, old(State()), p)
    {
      ghost var s := State();
      if c.t.AL > 0 && sendAct {
        sendAct := false;
      } else {
        sendAct := true;
        var n := NextSpot(c, Spot(nextRank, nextBank));
        nextRank, nextBank := n.rank, n.bank;
      }
      if p.kind == ACTIVATE {
        faw := faw[p.rank := faw[p.rank] + [c.t.tFAW]];
      }
      hide PacketsInRange;
      SameQueuesInRange(c, s, State());
    }

    /** pop(): called once in every cycle. */
    method PopCommand(table: seq<seq<Bank>>, now: int) returns (r: Option<Packet>)
      requires Valid() && TableShaped(c, table)
      modifies this
      ensures Valid()
      ensures (r, State()) == Pop(c, old(State()), table, now)
    {
      TickWindows();
      DecideShaped(c, State(), table, now);
      hide Decide, Commit, Settle, Chosen, PacketsInRange, Shaped;
      var d := Choose(table, now);
      if d == Wait { return None; }
      CommitShaped(c, State(), d);
      var p := Perform(d);
      SettleAfter(p);
      r := Some(p);
    }
  }

  // ---- a scan that stops at the first hit finds the least one ------------------------

  lemma FirstBusyIs(row: seq<Bank>, now: int, b: nat)
    requires b <= |row| && (forall k: nat :: k < b ==> !Busy(row, k, now)) && (b < |row| ==> Busy(row, b, now))
    ensures FirstBusy(row, now) == b
  {
  }

  lemma FirstToIs(q: seq<Packet>, bank: nat, row: nat, j: nat)
    requires j <= |q| && (forall k: nat :: k < j ==> !GoesTo(q, k, bank, row)) && (j < |q| ==> GoesTo(q, j, bank, row))
    ensures FirstTo(q, bank, row) == j
  {
  }

  lemma PickIs(c: Config, s: QueueState, table: seq<seq<Bank>>, q: seq<Packet>, now: int, i: nat)
    requires i <= |q|
    requires forall k: nat :: k < i ==> !Eligible(c, s, table, q, k, now)
    requires i < |q| ==> Eligible(c, s, table, q, i, now)
    ensures Pick(c, s, table, q, now) == i
  {
  }

  lemma LapPositive(c: Config, byRank: bool)
    requires c.ranks > 0 && c.banks > 0
    ensures Lap(c, byRank) > 0
  {
  }

  /** One turn of a round robin: it is back at its start exactly after a lap. */
  lemma Turn(c: Config, byRank: bool, start: Spot, k: nat)
    requires c.ranks > 0 && start.rank < c.ranks && start.bank < c.banks && k < Lap(c, byRank)
    ensures Walk(c, byRank, start, k + 1) == Step(c, byRank, Walk(c, byRank, start, k))
    ensures Step(c, byRank, Walk(c, byRank, start, k)) == start <==> k + 1 == Lap(c, byRank)
  {
    WalkReturns(c, byRank, start, k + 1);
  }

  /** The index LookHere finds. */
  function HitAt(c: Config, s: QueueState, table: seq<seq<Bank>>, at: Spot, now: int): Option<nat> {
    if Ready(c, s, table, at, now) then Some(Pick(c, s, table, QueueAt(c, s, at), now)) else None
  }

  /** Where the normal search of pop() ends, and with which packet of that queue. */
  function Found(c: Config, s: QueueState, table: seq<seq<Bank>>, now: int): (Spot, Option<nat>)
    requires c.ranks > 0
  {
    var byRank, start := c.queuing == PerRank, Spot(s.nextRank, s.nextBank);
    var k := FirstReady(c, s, table, byRank, start, now);
    if k < Lap(c, byRank) then
      var at := Walk(c, byRank, start, k);
      (at, HitAt(c, s, table, at, now))
    else (start, None)
  }

  /** The first `k` queues of the round robin have nothing to issue. */
  ghost predicate NoneBefore(c: Config, s: QueueState, table: seq<seq<Bank>>, now: int, k: nat)
    requires c.ranks > 0
  {
    var byRank, start := c.queuing == PerRank, Spot(s.nextRank, s.nextBank);
    forall j: nat :: j < k ==> !Ready(c, s, table, Walk(c, byRank, start, j), now)
  }

  lemma Look(c: Config, s: QueueState, table: seq<seq<Bank>>, now: int, k: nat)
    requires c.ranks > 0 && k < Lap(c, c.queuing == PerRank)
    requires NoneBefore(c, s, table, now, k)
    ensures var at := Walk(c, c.queuing == PerRank, Spot(s.nextRank, s.nextBank), k);
            var hit := HitAt(c, s, table, at, now);
            if hit.Some? then Found(c, s, table, now) == (at, hit) else NoneBefore(c, s, table, now, k + 1)
  {
    hide Ready, Walk, Lap;
    var byRank, start := c.queuing == PerRank, Spot(s.nextRank, s.nextBank);
    if Ready(c, s, table, Walk(c, byRank, start, k), now) {
      LeastIs(Lap(c, byRank), (k: nat) => Ready(c, s, table, Walk(c, byRank, start, k), now), k);
    }
  }

  lemma NoneFound(c: Config, s: QueueState, table: seq<seq<Bank>>, now: int)
    requires c.ranks > 0
    requires NoneBefore(c, s, table, now, Lap(c, c.queuing == PerRank))
    ensures Found(c, s, table, now) == (Spot(s.nextRank, s.nextBank), None)
  {
    hide Ready, Walk, Lap;
    var byRank, start := c.queuing == PerRank, Spot(s.nextRank, s.nextBank);
    LeastIs(Lap(c, byRank), (k: nat) => Ready(c, s, table, Walk(c, byRank, start, k), now), Lap(c, byRank));
  }

  ghost predicate NoneClosableBefore(c: Config, s: QueueState, table: seq<seq<Bank>>, now: int, k: nat)
    requires c.ranks > 0
  {
    var start := Spot(s.nextRankPre, s.nextBankPre);
    forall j: nat :: j < k ==> !Closable(c, s, table, Walk(c, false, start, j), now)
  }

  lemma LookPre(c: Config, s: QueueState, table: seq<seq<Bank>>, now: int, k: nat)
    requires c.Valid() && k < Lap(c, false)
    requires NoneClosableBefore(c, s, table, now, k)
    ensures var at := Walk(c, false, Spot(s.nextRankPre, s.nextBankPre), k);
            if Closable(c, s, table, at, now)
            then PreSearch(c, s, table, now) == (Close(at.rank, at.bank), s.(nextRankPre := at.rank, nextBankPre := at.bank))
            else NoneClosableBefore(c, s, table, now, k + 1)
  {
    hide Closable, Walk, Lap;
    var start := Spot(s.nextRankPre, s.nextBankPre);
    if Closable(c, s, table, Walk(c, false, start, k), now) {
      LeastIs(Lap(c, false), (k: nat) => Closable(c, s, table, Walk(c, false, start, k), now), k);
    }
  }

  lemma NoneClosableFound(c: Config, s: QueueState, table: seq<seq<Bank>>, now: int)
    requires c.Valid() && NoneClosableBefore(c, s, table, now, Lap(c, false))
    ensures PreSearch(c, s, table, now) == (Wait, s)
  {
    hide Closable, Walk, Lap;
    var start := Spot(s.nextRankPre, s.nextBankPre);
    LeastIs(Lap(c, false), (k: nat) => Closable(c, s, table, Walk(c, false, start, k), now), Lap(c, false));
  }

  // ---- the round-robin pointers play no part in what is eligible ---------------------

  lemma PointersOutOfPick(c: Config, s: QueueState, r: nat, b: nat, table: seq<seq<Bank>>, q: seq<Packet>, now: int)
    ensures Pick(c, s.(nextRank := r, nextBank := b), table, q, now) == Pick(c, s, table, q, now)
  {
    var s' := s.(nextRank := r, nextBank := b);
    forall k: nat ensures Eligible(c, s', table, q, k, now) == Eligible(c, s, table, q, k, now) {}
    hide Eligible;
    PickIs(c, s', table, q, now, Pick(c, s, table, q, now));
  }

  lemma PointersOutOfClosable(c: Config, s: QueueState, r: nat, b: nat, table: seq<seq<Bank>>, at: Spot, now: int)
    ensures Closable(c, s.(nextRankPre := r, nextBankPre := b), table, at, now) == Closable(c, s, table, at, now)
  {
  }

  // ---- what keeps the packets in range -----------------------------------------------

  lemma SameQueuesInRange(c: Config, s: QueueState, s': QueueState)
    requires PacketsInRange(c, s) && s'.queues == s.queues
    ensures PacketsInRange(c, s')
  {
  }

  lemma CommitInRange(c: Config, s: QueueState, d: Decision)
    requires Shaped(c, s) && DecisionShaped(c, s, d) && PacketsInRange(c, s)
    ensures PacketsInRange(c, Commit(c, s, d))
  {
    if d.Take? {
      var q, s' := QueueAt(c, s, d.at), Commit(c, s, d);
      var rest := if d.dropAct then Remove(q, d.index - 1, d.index + 1) else Remove(q, d.index, d.index + 1);
      assert forall i :: 0 <= i < |rest| ==> rest[i] in q;
      assert s'.queues == s.queues[d.at.rank := s.queues[d.at.rank][Slot(c, d.at.bank) := rest]];
      hide Commit, DecisionShaped, Remove, Update2;
    }
  }
}
