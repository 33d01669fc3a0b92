/** What every command queue looks like in every reachable state, and why pop() keeps it so. */
module DramQueueProofs {
  import opened DramTypes
  import opened DramBanks
  import opened DramQueue

  /** An ACTIVATE and the column command it was enqueued with. */
  ghost predicate Paired(a: Packet, p: Packet) {
    && p.kind != ACTIVATE
    && a.addr == p.addr && a.rank == p.rank && a.bank == p.bank && a.row == p.row && a.tag == p.tag
  }

  ghost predicate PacketOk(c: Config, p: Packet, rank: nat, slot: nat) {
    && (p.kind == ACTIVATE || p.kind == ColumnKind(c.policy, true) || p.kind == ColumnKind(c.policy, false))
    && p.rank == rank && p.bank < c.banks && Slot(c, p.bank) == slot
    && p.rank == c.locate(p.addr).rank && p.bank == c.locate(p.addr).bank && p.row == c.locate(p.addr).row
  }

  /** A queue is a run of blocks: "ACTIVATE then its column command" or "column command alone". */
  ghost predicate Blocks(c: Config, q: seq<Packet>, rank: nat, slot: nat) {
    && (forall i :: 0 <= i < |q| ==> PacketOk(c, q[i], rank, slot))
    && (forall i :: 0 <= i < |q| && q[i].kind == ACTIVATE ==> i + 1 < |q| && Paired(q[i], q[i+1]))
  }

  /** A column command whose ACTIVATE has already left. */
  ghost predicate Alone(q: seq<Packet>, i: nat) {
    i < |q| && q[i].kind != ACTIVATE && (i == 0 || q[i-1].kind != ACTIVATE)
  }

  ghost predicate NoneBefore(q: seq<Packet>, i: nat, bank: nat) {
    forall k :: 0 <= k < i && k < |q| ==> q[k].bank != bank
  }

  /** Its row is open, nothing was served from that row yet, and it is first for its bank. */
  ghost predicate AloneSafe(q: seq<Packet>, i: nat, row: seq<Bank>, acc: seq<nat>, served: seq<nat>) {
    i < |q| &&
    var b := q[i].bank;
    && b < |row| && b < |acc| && b < |served|
    && Open(row[b]) && row[b].openRow == q[i].row
    && acc[b] == 0 && served[b] == 0
    && NoneBefore(q, i, b)
  }

  ghost predicate AloneOk(q: seq<Packet>, row: seq<Bank>, acc: seq<nat>, served: seq<nat>) {
    forall i: nat :: Alone(q, i) ==> AloneSafe(q, i, row, acc, served)
  }

  /** Access counters and the number of column commands served since the last ACTIVATE. */
  ghost predicate CountersOk(c: Config, b: Bank, acc: nat, served: nat) {
    && acc <= c.totalRowAccesses
    && (b.phase != RowActive ==> acc == 0)
    && (c.policy == ClosePage ==> acc == 0)
    && (b.phase == RowActive ==> served <= acc + 1)
    && (Pending(b) ==> c.policy == ClosePage)
    && served <= c.totalRowAccesses + 1
  }

  // ---- one decision ------------------------------------------------------------------

  /** What is known of a decision, whichever path of pop() took it. */
  ghost predicate DecisionOk(c: Config, s: QueueState, table: seq<seq<Bank>>, d: Decision, now: int)
    requires Shaped(c, s) && TableShaped(c, table)
  {
    && DecisionShaped(c, s, d)
    && match d
       case Wait => true
       case Refresh(r) =>
         forall j :: 0 <= j < c.banks ==>
           table[r][j].phase != RowActive && table[r][j].phase != PowerDown && table[r][j].nextActivate <= now
       case Close(r, b) =>
         && c.policy == OpenPage
         && table[r][b].phase == RowActive && now >= table[r][b].nextPrecharge
         && (forall i: nat :: Alone(QueueAt(c, s, Spot(r, b)), i) ==> QueueAt(c, s, Spot(r, b))[i].bank != b)
       case Take(at, i, drop) =>
         var q := QueueAt(c, s, at);
         && Issuable(c, s, table, q[i], now)
         && (if q[i].kind == ACTIVATE then !drop && NoneBefore(q, i, q[i].bank)
             else !Dependent(q, i) && (if drop then c.policy == OpenPage && q[i-1].kind == ACTIVATE else Alone(q, i)))
  }

  lemma FirstBefore(q: seq<Packet>, i: nat, bank: nat) returns (k: nat)
    requires !NoneBefore(q, i, bank)
    ensures k < i && k < |q| && q[k].bank == bank && NoneBefore(q, k, bank)
  {
    k :| k < i && k < |q| && q[k].bank == bank;
    if !NoneBefore(q, k, bank) {
      k := FirstBefore(q, k, bank);
    }
  }

  /** The first packet of a bank is an ACTIVATE or stands alone. */
  lemma FirstOfBank(c: Config, q: seq<Packet>, k: nat, rank: nat, slot: nat)
    requires Blocks(c, q, rank, slot)
    requires k < |q| && NoneBefore(q, k, q[k].bank)
    ensures q[k].kind == ACTIVATE || Alone(q, k)
  {
  }

  /** An ACTIVATE that leaves is the first packet of its bank. */
  lemma PickedActivate(c: Config, s: QueueState, table: seq<seq<Bank>>, served: seq<nat>,
                      q: seq<Packet>, i: nat, rank: nat, slot: nat, now: int)
    requires rank < |table| && rank < |s.accesses| && rank < |s.faw|
    requires Blocks(c, q, rank, slot)
    requires forall k: nat :: Alone(q, k) ==> AloneSafe(q, k, table[rank], s.accesses[rank], served)
    requires i < |q| && i == Pick(c, s, table, q, now)
    requires q[i].kind == ACTIVATE
    ensures NoneBefore(q, i, q[i].bank)
  {
    var b := q[i].bank;
    if !NoneBefore(q, i, b) {
      var k := FirstBefore(q, i, b);
      FirstOfBank(c, q, k, rank, slot);
      assert Issuable(c, s, table, q[i], now);
      if Alone(q, k) {
        assert false;
      } else {
        assert k > 0 && q[k-1].kind == ACTIVATE ==> Paired(q[k-1], q[k]);
        assert !Dependent(q, k);
        assert Eligible(c, s, table, q, k, now);
      }
    }
  }

  ghost predicate ServedShaped(c: Config, served: seq<seq<nat>>) {
    |served| == c.ranks && forall r :: 0 <= r < c.ranks ==> |served[r]| == c.banks
  }

  /** The queues of one rank. */
  ghost predicate RankQueuesOk(c: Config, queues: seq<seq<Packet>>, rank: nat, row: seq<Bank>, acc: seq<nat>, served: seq<nat>) {
    && |row| == |acc| == |served| == c.banks
    && (forall sl :: 0 <= sl < |queues| ==> Blocks(c, queues[sl], rank, sl) && AloneOk(queues[sl], row, acc, served))
    && (forall b :: 0 <= b < c.banks ==> CountersOk(c, row[b], acc[b], served[b]))
  }

  ghost predicate QueuesOk(c: Config, s: QueueState, table: seq<seq<Bank>>, served: seq<seq<nat>>) {
    && Shaped(c, s) && TableShaped(c, table) && ServedShaped(c, served)
    && (forall r :: 0 <= r < c.ranks ==> RankQueuesOk(c, s.queues[r], r, table[r], s.accesses[r], served[r]))
  }

  // ---- every decision is sound -------------------------------------------------------

  lemma RefreshDecisionOk(c: Config, s: QueueState, table: seq<seq<Bank>>, served: seq<seq<nat>>, downs: seq<bool>, now: int)
    requires c.Valid() && QueuesOk(c, s, table, served)
    requires |downs| == c.ranks
    requires forall r, j :: 0 <= r < c.ranks && 0 <= j < c.banks ==> (table[r][j].phase == PowerDown <==> downs[r])
    ensures DecisionOk(c, s, table, RefreshDecision(c, s, table, now), now)
  {
    if s.refreshWaiting {
      var r := s.refreshRank;
      var row := table[r];
      assert RankQueuesOk(c, s.queues[r], r, row, s.accesses[r], served[r]);
      var b := FirstBusy(row, now);
      if b == c.banks {
        forall j | 0 <= j < c.banks
          ensures table[r][j].phase != RowActive && table[r][j].nextActivate <= now
          ensures table[r][j].phase == PowerDown <==> table[r][0].phase == PowerDown
        {
          assert !Busy(row, j, now);
        }
      } else if row[b].phase == RowActive {
        var q := QueueAt(c, s, Spot(r, b));
        var sl := Slot(c, b);
        assert q == s.queues[r][sl];
        var j := FirstTo(q, b, row[b].openRow);
        NothingEarlier(c, q, row, s.accesses[r], served[r], r, sl, b);
      }
    }
  }

  /** With the open row of bank `b`: the first packet to it, if a column command, stands
      alone and depends on nothing; if there is none such, no packet of `b` stands alone. */
  lemma NothingEarlier(c: Config, q: seq<Packet>, row: seq<Bank>, acc: seq<nat>, served: seq<nat>, rank: nat, slot: nat, b: nat)
    requires Blocks(c, q, rank, slot) && AloneOk(q, row, acc, served)
    requires b < |row|
    ensures var j := FirstTo(q, b, row[b].openRow);
            if j < |q| && q[j].kind != ACTIVATE then Alone(q, j) && !Dependent(q, j)
            else forall i: nat :: Alone(q, i) ==> q[i].bank != b
  {
    var open := row[b].openRow;
    var j := FirstTo(q, b, open);
    if j < |q| && q[j].kind != ACTIVATE {
      assert j > 0 ==> !GoesTo(q, j - 1, b, open);
      forall k | 0 <= k < j ensures !(q[k].bank == b && q[k].row == open) {
        assert !GoesTo(q, k, b, open);
      }
    } else {
      forall i: nat | Alone(q, i) ensures q[i].bank != b {
        assert AloneSafe(q, i, row, acc, served);
        assert q[i].bank == b ==> GoesTo(q, i, b, open);
      }
    }
  }

  lemma TakeOk(c: Config, s: QueueState, table: seq<seq<Bank>>, served: seq<seq<nat>>, at: Spot, now: int)
    requires c.Valid() && QueuesOk(c, s, table, served)
    requires at.rank < c.ranks && at.bank < c.banks
    requires Ready(c, s, table, at, now)
    ensures DecisionOk(c, s, table, TakeFrom(c, s, table, at, now), now)
  {
    var r, sl := at.rank, Slot(c, at.bank);
    var q := QueueAt(c, s, at);
    assert RankQueuesOk(c, s.queues[r], r, table[r], s.accesses[r], served[r]);
    assert q == s.queues[r][sl] && Blocks(c, q, r, sl) && AloneOk(q, table[r], s.accesses[r], served[r]);
    var i := Pick(c, s, table, q, now);
    assert PacketOk(c, q[i], r, sl);
    assert Eligible(c, s, table, q, i, now);
    if q[i].kind == ACTIVATE {
      forall k: nat | Alone(q, k) ensures AloneSafe(q, k, table[r], s.accesses[r], served[r]) {
      }
      PickedActivate(c, s, table, served[r], q, i, r, sl, now);
      assert i > 0 ==> q[i-1].kind == ACTIVATE ==> Paired(q[i-1], q[i]);
    } else {
      TakenColumn(c, s, table, served[r], q, i, r, sl, now);
    }
  }

  /** A column command that leaves by the normal search depends on nothing; unless its
      ACTIVATE goes with it (open page), it stands alone. */
  lemma TakenColumn(c: Config, s: QueueState, table: seq<seq<Bank>>, served: seq<nat>,
                    q: seq<Packet>, i: nat, rank: nat, slot: nat, now: int)
    requires rank < |table| && rank < |s.accesses| && rank < |s.faw|
    requires Blocks(c, q, rank, slot) && AloneOk(q, table[rank], s.accesses[rank], served)
    requires i < |q| && q[i].kind != ACTIVATE
    requires Eligible(c, s, table, q, i, now)
    ensures !Dependent(q, i)
    ensures !(c.policy == OpenPage && i > 0 && q[i-1].kind == ACTIVATE) ==> Alone(q, i)
  {
    if c.policy == ClosePage {
      assert i > 0 && q[i-1].kind == ACTIVATE ==> Paired(q[i-1], q[i]);
      assert Alone(q, i);
      assert AloneSafe(q, i, table[rank], s.accesses[rank], served);
    }
  }

  lemma CloseOk(c: Config, s: QueueState, table: seq<seq<Bank>>, served: seq<seq<nat>>, at: Spot, now: int)
    requires c.Valid() && c.policy == OpenPage && QueuesOk(c, s, table, served)
    requires at.rank < c.ranks && at.bank < c.banks
    requires Closable(c, s, table, at, now)
    ensures DecisionOk(c, s, table, Close(at.rank, at.bank), now)
  {
    var r, sl := at.rank, Slot(c, at.bank);
    var q := QueueAt(c, s, at);
    assert RankQueuesOk(c, s.queues[r], r, table[r], s.accesses[r], served[r]);
    assert q == s.queues[r][sl] && AloneOk(q, table[r], s.accesses[r], served[r]);
    forall i: nat | Alone(q, i) ensures q[i].bank != at.bank {
      assert AloneSafe(q, i, table[r], s.accesses[r], served[r]);
      assert q[i].bank == at.bank ==> GoesTo(q, i, at.bank, table[r][at.bank].openRow);
    }
  }

  ghost predicate SameButPointers(c: Config, s: QueueState, s': QueueState) {
    && s' == s.(nextRank := s'.nextRank, nextBank := s'.nextBank, nextRankPre := s'.nextRankPre, nextBankPre := s'.nextBankPre)
    && s'.nextRank < c.ranks && s'.nextBank < c.banks && s'.nextRankPre < c.ranks && s'.nextBankPre < c.banks
  }

  lemma PointersDoNotMatter(c: Config, s: QueueState, s': QueueState, table: seq<seq<Bank>>, served: seq<seq<nat>>, d: Decision, now: int)
    requires QueuesOk(c, s, table, served) && SameButPointers(c, s, s')
    requires DecisionOk(c, s, table, d, now)
    ensures QueuesOk(c, s', table, served)
    ensures DecisionOk(c, s', table, d, now)
  {
    assert Shaped(c, s');
    forall r | 0 <= r < c.ranks ensures RankQueuesOk(c, s'.queues[r], r, table[r], s'.accesses[r], served[r]) {
      assert RankQueuesOk(c, s.queues[r], r, table[r], s.accesses[r], served[r]);
    }
    match d
    case Close(r, b) => assert QueueAt(c, s', Spot(r, b)) == QueueAt(c, s, Spot(r, b));
    case Take(at, i, drop) => assert QueueAt(c, s', at) == QueueAt(c, s, at);
    case _ =>
  }

  /** Every decision of pop() is sound, and only the pointers have moved. */
  lemma DecideOk(c: Config, s: QueueState, table: seq<seq<Bank>>, served: seq<seq<nat>>, downs: seq<bool>, now: int)
    requires c.Valid() && QueuesOk(c, s, table, served)
    requires |downs| == c.ranks
    requires forall r, j :: 0 <= r < c.ranks && 0 <= j < c.banks ==> (table[r][j].phase == PowerDown <==> downs[r])
    ensures var (d, s') := Decide(c, s, table, now);
            && SameButPointers(c, s, s')
            && QueuesOk(c, s', table, served)
            && DecisionOk(c, s', table, d, now)
  {
    var (d, s') := Decide(c, s, table, now);
    RefreshDecisionOk(c, s, table, served, downs, now);
    if RefreshDecision(c, s, table, now) == Wait {
      var byRank := c.queuing == PerRank;
      var start := Spot(s.nextRank, s.nextBank);
      var k := FirstReady(c, s, table, byRank, start, now);
      if k < Lap(c, byRank) {
        var at := Walk(c, byRank, start, k);
        WalkInRange(c, byRank, start, k);
        TakeOk(c, s, table, served, at, now);
        assert (d, s') == (TakeFrom(c, s, table, at, now), s.(nextRank := at.rank, nextBank := at.bank));
      } else if c.policy == OpenPage {
        PreSearchOk(c, s, table, served, now);
      }
    }
    PointersDoNotMatter(c, s, s', table, served, d, now);
  }

  lemma PreSearchOk(c: Config, s: QueueState, table: seq<seq<Bank>>, served: seq<seq<nat>>, now: int)
    requires c.Valid() && c.policy == OpenPage && QueuesOk(c, s, table, served)
    ensures var (d, s') := PreSearch(c, s, table, now);
            SameButPointers(c, s, s') && DecisionOk(c, s, table, d, now)
  {
    var start := Spot(s.nextRankPre, s.nextBankPre);
    var k := FirstClosable(c, s, table, start, now);
    if k < Lap(c, false) {
      WalkInRange(c, false, start, k);
      CloseOk(c, s, table, served, Walk(c, false, start, k), now);
    }
  }
}
