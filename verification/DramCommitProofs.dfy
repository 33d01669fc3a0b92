/** Letting a command go keeps every queue in shape. */
module DramCommitProofs {
  import opened DramTypes
  import opened DramBanks
  import opened DramQueue
  import opened DramQueueProofs

  /** Column commands served from each bank's row since its last ACTIVATE. */
  function ServedAfter(served: seq<seq<nat>>, p: Packet): seq<seq<nat>>
    requires p.rank < |served| && p.bank < |served[p.rank]|
  {
    if p.kind == ACTIVATE then Update2(served, p.rank, p.bank, 0)
    else if p.kind.IsColumn() then Update2(served, p.rank, p.bank, served[p.rank][p.bank] + 1)
    else served
  }

  predicate SameState(b: Bank, b': Bank) {
    b.phase == b'.phase && b.openRow == b'.openRow && b.countdown == b'.countdown
  }

  // ---- removing packets from a queue -------------------------------------------------

  /** Where packet `k` of the shortened queue was. */
  function Before(from: nat, to: nat, k: nat): nat
    requires from <= to
  {
    if k < from then k else k + (to - from)
  }

  /** A removal that leaves whole blocks, or a block without its ACTIVATE. */
  ghost predicate CleanCut(q: seq<Packet>, from: nat, to: nat) {
    && from < to <= |q|
    && (from > 0 ==> q[from-1].kind != ACTIVATE)
    && (q[to-1].kind == ACTIVATE ==> to == from + 1)
  }

  lemma CutKeepsBlocks(c: Config, q: seq<Packet>, from: nat, to: nat, rank: nat, slot: nat)
    requires Blocks(c, q, rank, slot) && CleanCut(q, from, to)
    ensures Blocks(c, Remove(q, from, to), rank, slot)
  {
    var q' := Remove(q, from, to);
    forall k | 0 <= k < |q'|
      ensures PacketOk(c, q'[k], rank, slot)
      ensures q'[k].kind == ACTIVATE ==> k + 1 < |q'| && Paired(q'[k], q'[k+1])
    {
      var k0 := Before(from, to, k);
      assert q'[k] == q[k0];
      if k + 1 < |q'| { assert q'[k+1] == q[Before(from, to, k + 1)]; }
    }
  }

  /** A packet that stands alone afterwards stood alone before, except the column command
      whose ACTIVATE was just removed. */
  lemma CutKeepsAlone(q: seq<Packet>, from: nat, to: nat, k: nat)
    requires CleanCut(q, from, to)
    requires Alone(Remove(q, from, to), k)
    requires !(k == from && q[to-1].kind == ACTIVATE)
    ensures var k0 := Before(from, to, k);
            && Alone(q, k0) && q[k0] == Remove(q, from, to)[k]
            && (forall b :: NoneBefore(q, k0, b) ==> NoneBefore(Remove(q, from, to), k, b))
  {
    var q' := Remove(q, from, to);
    var k0 := Before(from, to, k);
    assert q'[k] == q[k0];
    if k > 0 { assert q'[k-1] == q[Before(from, to, k - 1)]; }
    forall b | NoneBefore(q, k0, b) ensures NoneBefore(q', k, b) {
      forall j | 0 <= j < k && j < |q'| ensures q'[j].bank != b {
        assert q'[j] == q[Before(from, to, j)];
      }
    }
  }

  /** Cutting bank `b` out of the picture: banks other than `b` keep their state. */
  lemma CutKeepsOthers(q: seq<Packet>, from: nat, to: nat, k: nat, b: nat,
                       row: seq<Bank>, row': seq<Bank>, acc: seq<nat>, acc': seq<nat>, served: seq<nat>, served': seq<nat>)
    requires CleanCut(q, from, to)
    requires Alone(Remove(q, from, to), k)
    requires !(k == from && q[to-1].kind == ACTIVATE)
    requires AloneOk(q, row, acc, served)
    requires |row| == |row'| && |acc| == |acc'| && |served| == |served'|
    requires forall j :: 0 <= j < |row| && j != b ==> SameState(row[j], row'[j])
    requires forall j :: 0 <= j < |acc| && j != b ==> acc[j] == acc'[j]
    requires forall j :: 0 <= j < |served| && j != b ==> served[j] == served'[j]
    requires forall i: nat :: Alone(q, i) && !(from <= i < to) ==> q[i].bank != b
    ensures AloneSafe(Remove(q, from, to), k, row', acc', served')
  {
    CutKeepsAlone(q, from, to, k);
    var k0 := Before(from, to, k);
    assert AloneSafe(q, k0, row, acc, served);
  }

  // ---- one rank ----------------------------------------------------------------------

  lemma StateKeepsRank(c: Config, queues: seq<seq<Packet>>, rank: nat, row: seq<Bank>, row': seq<Bank>, acc: seq<nat>, served: seq<nat>)
    requires RankQueuesOk(c, queues, rank, row, acc, served)
    requires |row'| == |row| && forall j :: 0 <= j < |row| ==> SameState(row[j], row'[j])
    ensures RankQueuesOk(c, queues, rank, row', acc, served)
  {
    forall sl | 0 <= sl < |queues| ensures AloneOk(queues[sl], row', acc, served) {
      assert Blocks(c, queues[sl], rank, sl);
      forall i: nat | Alone(queues[sl], i) ensures AloneSafe(queues[sl], i, row', acc, served) {
        assert AloneSafe(queues[sl], i, row, acc, served);
      }
    }
    forall b | 0 <= b < c.banks ensures CountersOk(c, row'[b], acc[b], served[b]) {
      assert SameState(row[b], row'[b]) && CountersOk(c, row[b], acc[b], served[b]);
    }
  }

  /** Queues that hold nothing alone for bank `b` do not notice what happens to `b`. */
  lemma OtherQueueKept(q: seq<Packet>, b: nat, row: seq<Bank>, row': seq<Bank>, acc: seq<nat>, acc': seq<nat>, served: seq<nat>, served': seq<nat>)
    requires AloneOk(q, row, acc, served)
    requires |row| == |row'| && |acc| == |acc'| && |served| == |served'|
    requires forall j :: 0 <= j < |row| && j != b ==> SameState(row[j], row'[j])
    requires forall j :: 0 <= j < |acc| && j != b ==> acc[j] == acc'[j]
    requires forall j :: 0 <= j < |served| && j != b ==> served[j] == served'[j]
    requires forall i: nat :: Alone(q, i) ==> q[i].bank != b
    ensures AloneOk(q, row', acc', served')
  {
    forall i: nat | Alone(q, i) ensures AloneSafe(q, i, row', acc', served') {
      assert AloneSafe(q, i, row, acc, served);
    }
  }

  lemma SendKeepsState(c: Config, b: Bank, p: Packet, now: int, rank: nat, bank: nat)
    requires rank != p.rank || (bank != p.bank && p.kind != REFRESH)
    ensures SameState(b, SendBank(c, b, p, now, rank, bank))
  {
  }

  // ---- one taken packet --------------------------------------------------------------

  /** The facts about a taken packet, in terms of its own queue and rank. */
  ghost predicate Taken(c: Config, q: seq<Packet>, i: nat, drop: bool, row: seq<Bank>, acc: seq<nat>) {
    && i < |q| && (drop ==> i > 0)
    && var p := q[i];
    && p.bank < |row| && p.bank < |acc|
    && (if p.kind == ACTIVATE then
          !drop && NoneBefore(q, i, p.bank) && (row[p.bank].phase == Idle || row[p.bank].phase == Refreshing)
        else
          && row[p.bank].phase == RowActive && p.row == row[p.bank].openRow && acc[p.bank] < c.totalRowAccesses
          && !Dependent(q, i)
          && (if drop then c.policy == OpenPage && q[i-1].kind == ACTIVATE else Alone(q, i)))
  }

  function From(i: nat, drop: bool): nat { if drop && i > 0 then i - 1 else i }

  lemma TakenIsCleanCut(c: Config, q: seq<Packet>, i: nat, drop: bool, row: seq<Bank>, acc: seq<nat>, rank: nat, slot: nat)
    requires Blocks(c, q, rank, slot) && Taken(c, q, i, drop, row, acc)
    ensures CleanCut(q, From(i, drop), i + 1)
  {
    var f := From(i, drop);
    assert f > 0 && q[f-1].kind == ACTIVATE ==> Paired(q[f-1], q[f]);
  }

  lemma NothingElseAlone(c: Config, q: seq<Packet>, i: nat, drop: bool, row: seq<Bank>, acc: seq<nat>, served: seq<nat>, k: nat)
    requires AloneOk(q, row, acc, served) && Taken(c, q, i, drop, row, acc)
    requires Alone(q, k) && !(From(i, drop) <= k < i + 1)
    ensures q[k].bank != q[i].bank
  {
    assert AloneSafe(q, k, row, acc, served);
  }

  /** The queue a packet was taken from. */
  lemma TakeKeepsQueue(c: Config, q: seq<Packet>, i: nat, drop: bool, row: seq<Bank>, row': seq<Bank>,
                       acc: seq<nat>, acc': seq<nat>, served: seq<nat>, served': seq<nat>, rank: nat, slot: nat)
    requires Blocks(c, q, rank, slot) && AloneOk(q, row, acc, served) && Taken(c, q, i, drop, row, acc)
    requires |row| == |row'| == |acc| == |acc'| == |served| == |served'| == c.banks
    requires forall j :: 0 <= j < |row| && j != q[i].bank ==> SameState(row[j], row'[j])
    requires forall j :: 0 <= j < |acc| && j != q[i].bank ==> acc[j] == acc'[j]
    requires forall j :: 0 <= j < |served| && j != q[i].bank ==> served[j] == served'[j]
    requires q[i].kind == ACTIVATE ==>
               Open(row'[q[i].bank]) && row'[q[i].bank].openRow == q[i].row && acc'[q[i].bank] == 0 && served'[q[i].bank] == 0
    ensures Blocks(c, Remove(q, From(i, drop), i + 1), rank, slot)
    ensures AloneOk(Remove(q, From(i, drop), i + 1), row', acc', served')
  {
    var f := From(i, drop);
    var q' := Remove(q, f, i + 1);
    TakenIsCleanCut(c, q, i, drop, row, acc, rank, slot);
    CutKeepsBlocks(c, q, f, i + 1, rank, slot);
    forall k: nat | Alone(q, k) && !(f <= k < i + 1) ensures q[k].bank != q[i].bank {
      NothingElseAlone(c, q, i, drop, row, acc, served, k);
    }
    forall k: nat | Alone(q', k) ensures AloneSafe(q', k, row', acc', served') {
      if k == f && q[i].kind == ACTIVATE {
        assert Paired(q[i], q[i+1]) && q'[k] == q[i+1];
        assert forall j :: 0 <= j < k ==> q'[j] == q[j];
      } else {
        CutKeepsOthers(q, f, i + 1, k, q[i].bank, row, row', acc, acc', served, served');
      }
    }
  }

  /** In another slot of the same rank nothing is addressed to the taken packet's bank. */
  lemma OtherSlot(c: Config, q: seq<Packet>, rank: nat, slot: nat, bank: nat)
    requires Blocks(c, q, rank, slot) && Slot(c, bank) != slot
    ensures forall i :: 0 <= i < |q| ==> q[i].bank != bank
  {
    forall i | 0 <= i < |q| ensures q[i].bank != bank {
      assert PacketOk(c, q[i], rank, slot);
    }
  }

  lemma TakeKeepsCounters(c: Config, drop: bool, b: Bank, p: Packet, now: int, acc: nat, served: nat)
    requires c.Valid() && (p.kind.IsColumn() || p.kind == ACTIVATE)
    requires CountersOk(c, b, acc, served)
    requires p.kind == ACTIVATE ==> b.phase != RowActive && b.countdown <= 0
    requires p.kind != ACTIVATE ==> b.phase == RowActive && acc < c.totalRowAccesses && (p.kind.IsAuto() ==> c.policy == ClosePage)
    requires p.kind != ACTIVATE && !drop ==> acc == 0 && served == 0
    requires drop ==> c.policy == OpenPage && p.kind != ACTIVATE
    ensures CountersOk(c, SendBank(c, b, p, now, p.rank, p.bank), if drop then acc + 1 else acc,
                       if p.kind == ACTIVATE then 0 else served + 1)
  {
  }

  // ---- the whole step ----------------------------------------------------------------

  /** Running countdowns never belong to a bank that may be activated. */
  ghost predicate CountdownsOk(c: Config, table: seq<seq<Bank>>, now: int) {
    forall r, j :: 0 <= r < |table| && 0 <= j < |table[r]| ==> CountdownOk(c, table[r][j], now)
  }

  lemma TakeKeepsRank(c: Config, s: QueueState, table: seq<seq<Bank>>, served: seq<seq<nat>>, at: Spot, i: nat, drop: bool, now: int)
    requires c.Valid() && QueuesOk(c, s, table, served) && CountdownsOk(c, table, now)
    requires DecisionOk(c, s, table, Take(at, i, drop), now)
    ensures var p := QueueAt(c, s, at)[i];
            var s' := Commit(c, s, Take(at, i, drop));
            && p.rank == at.rank
            && RankQueuesOk(c, s'.queues[p.rank], p.rank, SendRow(c, table[p.rank], p, now, p.rank),
                            s'.accesses[p.rank], ServedAfter(served, p)[p.rank])
  {
    var r, sl := at.rank, Slot(c, at.bank);
    var q := QueueAt(c, s, at);
    var row, acc, srv := table[r], s.accesses[r], served[r];
    assert RankQueuesOk(c, s.queues[r], r, row, acc, srv);
    assert q == s.queues[r][sl] && Blocks(c, q, r, sl) && AloneOk(q, row, acc, srv);
    var p := q[i];
    assert PacketOk(c, p, r, sl);
    var s' := Commit(c, s, Take(at, i, drop));
    var row', acc', srv' := SendRow(c, row, p, now, r), s'.accesses[r], ServedAfter(served, p)[r];
    assert CountersOk(c, row[p.bank], acc[p.bank], srv[p.bank]) && CountdownOk(c, row[p.bank], now);
    assert Taken(c, q, i, drop, row, acc);
    forall j | 0 <= j < c.banks && j != p.bank ensures SameState(row[j], row'[j]) && acc[j] == acc'[j] && srv[j] == srv'[j] {
      SendKeepsState(c, row[j], p, now, r, j);
    }
    if p.kind != ACTIVATE && !drop { assert AloneSafe(q, i, row, acc, srv); }
    TakeKeepsCounters(c, drop, row[p.bank], p, now, acc[p.bank], srv[p.bank]);
    TakeKeepsQueue(c, q, i, drop, row, row', acc, acc', srv, srv', r, sl);
    assert s'.queues[r] == s.queues[r][sl := Remove(q, From(i, drop), i + 1)];
    forall k | 0 <= k < |s'.queues[r]|
      ensures Blocks(c, s'.queues[r][k], r, k) && AloneOk(s'.queues[r][k], row', acc', srv')
    {
      if k != sl {
        OtherSlot(c, s.queues[r][k], r, k, p.bank);
        OtherQueueKept(s.queues[r][k], p.bank, row, row', acc, acc', srv, srv');
      }
    }
    forall b | 0 <= b < c.banks ensures CountersOk(c, row'[b], acc'[b], srv'[b]) {
      assert CountersOk(c, row[b], acc[b], srv[b]);
    }
  }

  lemma CloseKeepsRank(c: Config, s: QueueState, table: seq<seq<Bank>>, served: seq<seq<nat>>, r: nat, b: nat, now: int)
    requires c.Valid() && QueuesOk(c, s, table, served)
    requires DecisionOk(c, s, table, Close(r, b), now)
    ensures var p := Chosen(c, s, Close(r, b));
            RankQueuesOk(c, s.queues[r], r, SendRow(c, table[r], p, now, r), s.accesses[r][b := 0], served[r])
  {
    var p := Chosen(c, s, Close(r, b));
    var row, acc, srv := table[r], s.accesses[r], served[r];
    var row' := SendRow(c, row, p, now, r);
    assert RankQueuesOk(c, s.queues[r], r, row, acc, srv);
    forall k | 0 <= k < |s.queues[r]| ensures Blocks(c, s.queues[r][k], r, k) && AloneOk(s.queues[r][k], row', acc[b := 0], srv) {
      if k != Slot(c, b) { OtherSlot(c, s.queues[r][k], r, k, b); }
      else { assert s.queues[r][k] == QueueAt(c, s, Spot(r, b)); }
      OtherQueueKept(s.queues[r][k], b, row, row', acc, acc[b := 0], srv, srv);
    }
    forall j | 0 <= j < c.banks ensures CountersOk(c, row'[j], acc[b := 0][j], srv[j]) {
      assert CountersOk(c, row[j], acc[j], srv[j]);
    }
  }

  lemma NobodyAlone(q: seq<Packet>, row: seq<Bank>, acc: seq<nat>, served: seq<nat>)
    requires AloneOk(q, row, acc, served)
    requires forall b :: 0 <= b < |row| ==> row[b].phase != RowActive
    ensures forall i: nat :: !Alone(q, i)
  {
    forall i: nat ensures !Alone(q, i) {
      assert Alone(q, i) ==> AloneSafe(q, i, row, acc, served);
    }
  }

  lemma RefreshKeepsRank(c: Config, s: QueueState, table: seq<seq<Bank>>, served: seq<seq<nat>>, r: nat, now: int)
    requires c.Valid() && QueuesOk(c, s, table, served)
    requires DecisionOk(c, s, table, Refresh(r), now)
    ensures var p := Chosen(c, s, Refresh(r));
            RankQueuesOk(c, s.queues[r], r, SendRow(c, table[r], p, now, r), s.accesses[r], served[r])
  {
    var p := Chosen(c, s, Refresh(r));
    var row, acc, srv := table[r], s.accesses[r], served[r];
    var row' := SendRow(c, row, p, now, r);
    assert RankQueuesOk(c, s.queues[r], r, row, acc, srv);
    forall k | 0 <= k < |s.queues[r]| ensures Blocks(c, s.queues[r][k], r, k) && AloneOk(s.queues[r][k], row', acc, srv) {
      NobodyAlone(s.queues[r][k], row, acc, srv);
    }
    forall j | 0 <= j < c.banks ensures CountersOk(c, row'[j], acc[j], srv[j]) {
      assert CountersOk(c, row[j], acc[j], srv[j]);
    }
  }

  lemma CommitOwnRank(c: Config, s: QueueState, table: seq<seq<Bank>>, served: seq<seq<nat>>, d: Decision, now: int)
    requires c.Valid() && QueuesOk(c, s, table, served) && CountdownsOk(c, table, now)
    requires d != Wait && DecisionOk(c, s, table, d, now)
    ensures var p, s' := Chosen(c, s, d), Commit(c, s, d);
            && p.rank < c.ranks && p.bank < c.banks && (d.Take? ==> p.rank == d.at.rank)
            && RankQueuesOk(c, s'.queues[p.rank], p.rank, SendRow(c, table[p.rank], p, now, p.rank),
                            s'.accesses[p.rank], ServedAfter(served, p)[p.rank])
  {
    match d
    case Refresh(r) => RefreshKeepsRank(c, s, table, served, r, now);
    case Close(r, b) => CloseKeepsRank(c, s, table, served, r, b, now);
    case Take(at, i, drop) => TakeKeepsRank(c, s, table, served, at, i, drop, now);
  }

  /** Committing any sound decision keeps the queues in shape against the new bank table. */
  lemma CommitKeepsQueues(c: Config, s: QueueState, table: seq<seq<Bank>>, served: seq<seq<nat>>, d: Decision, now: int)
    requires c.Valid() && QueuesOk(c, s, table, served) && CountdownsOk(c, table, now)
    requires d != Wait && DecisionOk(c, s, table, d, now)
    ensures var p := Chosen(c, s, d);
            && p.rank < c.ranks && p.bank < c.banks
            && QueuesOk(c, Commit(c, s, d), SendBanks(c, table, p, now), ServedAfter(served, p))
  {
    CommitOwnRank(c, s, table, served, d, now);
    CommitShape(c, s, table, served, d, now);
    var p := Chosen(c, s, d);
    var s', table', served' := Commit(c, s, d), SendBanks(c, table, p, now), ServedAfter(served, p);
    hide Commit, ServedAfter, Chosen, RankQueuesOk, DecisionOk;
    forall r | 0 <= r < c.ranks ensures RankQueuesOk(c, s'.queues[r], r, table'[r], s'.accesses[r], served'[r]) {
      assert table'[r] == SendRow(c, table[r], p, now, r);
      if r != p.rank { OtherRankKept(c, s, table, served, p, r, now); }
    }
  }

  lemma CommitShape(c: Config, s: QueueState, table: seq<seq<Bank>>, served: seq<seq<nat>>, d: Decision, now: int)
    requires c.Valid() && QueuesOk(c, s, table, served)
    requires d != Wait && DecisionOk(c, s, table, d, now)
    requires Chosen(c, s, d).rank < c.ranks && Chosen(c, s, d).bank < c.banks
    requires d.Take? ==> Chosen(c, s, d).rank == d.at.rank
    ensures var p, s' := Chosen(c, s, d), Commit(c, s, d);
            && Shaped(c, s') && ServedShaped(c, ServedAfter(served, p))
            && TableShaped(c, SendBanks(c, table, p, now))
            && (forall r :: 0 <= r < c.ranks && r != p.rank ==>
                  s'.queues[r] == s.queues[r] && s'.accesses[r] == s.accesses[r] && ServedAfter(served, p)[r] == served[r])
  {
  }

  lemma OtherRankKept(c: Config, s: QueueState, table: seq<seq<Bank>>, served: seq<seq<nat>>, p: Packet, r: nat, now: int)
    requires c.Valid() && QueuesOk(c, s, table, served)
    requires r < c.ranks && r != p.rank
    ensures RankQueuesOk(c, s.queues[r], r, SendRow(c, table[r], p, now, r), s.accesses[r], served[r])
  {
    assert RankQueuesOk(c, s.queues[r], r, table[r], s.accesses[r], served[r]);
    var row' := SendRow(c, table[r], p, now, r);
    forall j | 0 <= j < c.banks ensures SameState(table[r][j], row'[j]) {
      SendKeepsState(c, table[r][j], p, now, r, j);
    }
    StateKeepsRank(c, s.queues[r], r, table[r], row', s.accesses[r], served[r]);
  }

  /** What a decision sends, the controller's table allows. */
  lemma DecisionIsSendable(c: Config, s: QueueState, table: seq<seq<Bank>>, served: seq<seq<nat>>, d: Decision, now: int)
    requires c.Valid() && QueuesOk(c, s, table, served)
    requires d != Wait && DecisionOk(c, s, table, d, now)
    ensures Sendable(c, table, Chosen(c, s, d), now)
    ensures Chosen(c, s, d).kind == ACTIVATE ==> |s.faw[Chosen(c, s, d).rank]| < 4
  {
    match d
    case Take(at, i, drop) =>
      assert RankQueuesOk(c, s.queues[at.rank], at.rank, table[at.rank], s.accesses[at.rank], served[at.rank]);
      assert Blocks(c, s.queues[at.rank][Slot(c, at.bank)], at.rank, Slot(c, at.bank));
      assert PacketOk(c, QueueAt(c, s, at)[i], at.rank, Slot(c, at.bank));
    case _ =>
  }
}
