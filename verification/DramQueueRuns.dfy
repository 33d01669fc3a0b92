/** The queue invariant through the other phases of a cycle: bank countdowns, new
    transactions, power management. */
module DramQueueRuns {
  import opened DramTypes
  import opened DramBanks
  import opened DramQueue
  import opened DramQueueProofs
  import opened DramCommitProofs
  import opened DramSystem

  /** A change of one bank that leaves an open row alone. */
  ghost predicate Harmless(b: Bank, b': Bank) {
    && (Open(b) ==> Open(b') && b'.openRow == b.openRow)
    && (b'.phase == RowActive ==> b.phase == RowActive)
    && (Pending(b') ==> Pending(b))
  }

  lemma HarmlessKeepsRank(c: Config, queues: seq<seq<Packet>>, rank: nat, row: seq<Bank>, row': seq<Bank>, acc: seq<nat>, served: seq<nat>)
    requires RankQueuesOk(c, queues, rank, row, acc, served)
    requires |row'| == |row| && forall j :: 0 <= j < |row| ==> Harmless(row[j], row'[j]) && (Pending(row[j]) || row'[j].phase == row[j].phase || acc[j] == 0)
    ensures RankQueuesOk(c, queues, rank, row', acc, served)
  {
    forall sl | 0 <= sl < |queues| ensures AloneOk(queues[sl], row', acc, served) {
      assert Blocks(c, queues[sl], rank, sl);
      forall i: nat | Alone(queues[sl], i) ensures AloneSafe(queues[sl], i, row', acc, served) {
        assert AloneSafe(queues[sl], i, row, acc, served);
      }
    }
    forall b | 0 <= b < c.banks ensures CountersOk(c, row'[b], acc[b], served[b]) {
      assert CountersOk(c, row[b], acc[b], served[b]) && Harmless(row[b], row'[b]);
    }
  }

  lemma TickKeepsQueues(c: Config, s: QueueState, table: seq<seq<Bank>>, served: seq<seq<nat>>, now: int)
    requires c.Valid() && QueuesOk(c, s, table, served) && CountdownsOk(c, table, now)
    ensures QueuesOk(c, s, TickBanks(c, table), served)
  {
    var table' := TickBanks(c, table);
    forall r | 0 <= r < c.ranks ensures RankQueuesOk(c, s.queues[r], r, table'[r], s.accesses[r], served[r]) {
      assert RankQueuesOk(c, s.queues[r], r, table[r], s.accesses[r], served[r]);
      forall j | 0 <= j < c.banks
        ensures Harmless(table[r][j], table'[r][j])
        ensures Pending(table[r][j]) || table'[r][j].phase == table[r][j].phase || s.accesses[r][j] == 0
      {
        assert CountdownOk(c, table[r][j], now) && CountersOk(c, table[r][j], s.accesses[r][j], served[r][j]);
      }
      HarmlessKeepsRank(c, s.queues[r], r, table[r], table'[r], s.accesses[r], served[r]);
    }
  }

  /** Power management touches banks whose rows are closed. */
  lemma PowerRowKeepsQueues(c: Config, s: QueueState, table: seq<seq<Bank>>, served: seq<seq<nat>>, i: nat, row': seq<Bank>)
    requires QueuesOk(c, s, table, served) && i < c.ranks && |row'| == c.banks
    requires forall j :: 0 <= j < c.banks ==> table[i][j].phase != RowActive && row'[j].phase != RowActive
    ensures QueuesOk(c, s, table[i := row'], served)
  {
    assert RankQueuesOk(c, s.queues[i], i, table[i], s.accesses[i], served[i]);
    forall j | 0 <= j < c.banks ensures Harmless(table[i][j], row'[j]) && s.accesses[i][j] == 0 {
      assert CountersOk(c, table[i][j], s.accesses[i][j], served[i][j]);
    }
    HarmlessKeepsRank(c, s.queues[i], i, table[i], row', s.accesses[i], served[i]);
  }

  // ---- new transactions --------------------------------------------------------------

  lemma AppendKeepsQueue(c: Config, q: seq<Packet>, a: Packet, p: Packet, row: seq<Bank>, acc: seq<nat>, served: seq<nat>, rank: nat, slot: nat)
    requires Blocks(c, q, rank, slot) && AloneOk(q, row, acc, served)
    requires a.kind == ACTIVATE && Paired(a, p) && PacketOk(c, a, rank, slot) && PacketOk(c, p, rank, slot)
    ensures Blocks(c, q + [a, p], rank, slot) && AloneOk(q + [a, p], row, acc, served)
  {
    var q' := q + [a, p];
    forall i: nat | Alone(q', i) ensures AloneSafe(q', i, row, acc, served) {
      assert i < |q| && Alone(q, i);
      assert AloneSafe(q, i, row, acc, served);
    }
  }

  lemma EnqueueKeepsQueues(c: Config, s: QueueState, table: seq<seq<Bank>>, served: seq<seq<nat>>, t: Transaction)
    requires c.Valid() && QueuesOk(c, s, table, served) && c.InRange(t.addr)
    ensures var at := SpotOf(c, t.addr);
            QueuesOk(c, SetQueue(c, s, at, QueueAt(c, s, at) + [ToPacket(c, ACTIVATE, t), ToPacket(c, ColumnKind(c.policy, t.isRead), t)]),
                     table, served)
  {
    var at := SpotOf(c, t.addr);
    var r, sl := at.rank, Slot(c, at.bank);
    var a, p := ToPacket(c, ACTIVATE, t), ToPacket(c, ColumnKind(c.policy, t.isRead), t);
    var s' := SetQueue(c, s, at, QueueAt(c, s, at) + [a, p]);
    assert RankQueuesOk(c, s.queues[r], r, table[r], s.accesses[r], served[r]);
    AppendKeepsQueue(c, s.queues[r][sl], a, p, table[r], s.accesses[r], served[r], r, sl);
    forall k | 0 <= k < c.ranks ensures RankQueuesOk(c, s'.queues[k], k, table[k], s'.accesses[k], served[k]) {
      assert RankQueuesOk(c, s.queues[k], k, table[k], s.accesses[k], served[k]);
    }
  }
}
