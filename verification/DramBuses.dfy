/** The two data buses: no two write bursts meet, and no rank starts sending a read while
    the one before it is still on the way out. */
module DramBuses {
  import opened Wrappers
  import opened DramTypes
  import opened DramBanks
  import opened DramQueue
  import opened DramSystem

  /** Start times, relative to the current cycle, at least `gap` apart. */
  ghost predicate Apart(v: seq<int>, gap: int) {
    forall i, j :: 0 <= i < j < |v| ==> v[i] + gap <= v[j]
  }

  /** One cycle later: all start times one less, the first perhaps gone. */
  ghost predicate Shifted(v: seq<int>, after: seq<int>) {
    after == Down1(v) || (|v| > 0 && after == Down1(v)[1..])
  }

  lemma ShiftedTimes(v: seq<int>, after: seq<int>, gap: int) returns (d: nat)
    requires Shifted(v, after) && Apart(v, gap)
    ensures |after| + d == |v| && Apart(after, gap)
    ensures forall i :: 0 <= i < |after| ==> after[i] == v[i + d] - 1
  {
    d := if after == Down1(v) then 0 else 1;
    forall i | 0 <= i < |after| ensures after[i] == v[i + d] - 1 {}
  }

  function OnBus(c: Config, busy: bool, left: int): seq<int> {
    if busy then [left - c.t.Burst()] else []
  }

  // ---- a burst pipeline: one burst on the bus, more to come ---------------------------

  ghost predicate PipeOk(c: Config, busy: bool, left: int, w: seq<int>) {
    && (busy ==> 0 < left <= c.t.Burst())
    && (forall i :: 0 <= i < |w| ==> w[i] > 0)
    && Apart(OnBus(c, busy, left) + w, c.t.Burst())
  }

  predicate Starting(w: seq<int>) { |w| > 0 && w[0] == 1 }

  /** One cycle: the burst on the bus gets shorter, the next one may start. */
  function PipeNext(c: Config, busy: bool, left: int, w: seq<int>): (bool, int, seq<int>) {
    if Starting(w) then (true, c.t.Burst(), Down1(w)[1..])
    else (busy && left != 1, left - 1, Down1(w))
  }

  lemma PipeStep(c: Config, busy: bool, left: int, w: seq<int>)
    requires c.Valid() && PipeOk(c, busy, left, w)
    ensures Starting(w) ==> !busy || left == 1
    ensures var (busy', left', w') := PipeNext(c, busy, left, w);
            && (busy' ==> 0 < left' <= c.t.Burst())
            && (forall i :: 0 <= i < |w'| ==> w'[i] > 0)
            && Shifted(OnBus(c, busy, left) + w, OnBus(c, busy', left') + w')
  {
    var starts := OnBus(c, busy, left) + w;
    var o := if busy then 1 else 0;
    forall i | 0 < i < |w| ensures w[0] + c.t.Burst() <= w[i] {
      assert starts[o] + c.t.Burst() <= starts[o + i];
    }
    assert o == 1 && |w| > 0 ==> starts[0] + c.t.Burst() <= starts[1];
    PipeShift(c, busy, left, w);
  }

  lemma PipeShift(c: Config, busy: bool, left: int, w: seq<int>)
    requires Starting(w) ==> !busy || left == 1
    ensures var (busy', left', w') := PipeNext(c, busy, left, w);
            Shifted(OnBus(c, busy, left) + w, OnBus(c, busy', left') + w')
  {
    var starts := OnBus(c, busy, left) + w;
    var (busy', left', w') := PipeNext(c, busy, left, w);
    var after := OnBus(c, busy', left') + w';
    if Starting(w) {
      if busy { assert after == Down1(starts)[1..]; } else { assert after == Down1(starts); }
    } else if busy && left == 1 {
      assert after == Down1(starts)[1..];
    } else {
      assert after == Down1(starts);
    }
  }

  // ---- reads -------------------------------------------------------------------------

  function ReadUnderWay(c: Config, cmd: Option<Packet>, r: nat): seq<int> {
    if cmd.Some? && cmd.value.kind.IsRead() && cmd.value.rank == r then [c.t.RL() + 1] else []
  }

  /** When the bursts of rank `r` start: the one being sent, the waiting ones, and the one
      whose READ is still on the command bus. */
  function ReadStarts(c: Config, k: RankState, cmd: Option<Packet>, r: nat): seq<int> {
    OnBus(c, k.outgoing.Some?, k.dataLeft) + k.returnCountdown + ReadUnderWay(c, cmd, r)
  }

  ghost predicate RankShaped(c: Config, k: RankState) {
    && |k.returnPackets| == |k.returnCountdown|
    && (k.outgoing.Some? ==> 0 < k.dataLeft <= c.t.Burst() && k.outgoing.value.kind == DATA)
    && (forall i :: 0 <= i < |k.returnCountdown| ==> k.returnCountdown[i] > 0 && k.returnPackets[i].kind == DATA)
  }

  /** The controller holds back reads of a rank until its earlier bursts are out. */
  ghost predicate ReadsHeldBack(c: Config, row: seq<Bank>, starts: seq<int>, now: int) {
    forall i, j :: 0 <= i < |starts| && 0 <= j < |row| ==>
      row[j].nextRead >= starts[i] + now - (c.t.RL() + 1) + c.t.Burst()
  }

  ghost predicate ReadsOk(c: Config, row: seq<Bank>, k: RankState, cmd: Option<Packet>, r: nat, now: int) {
    var starts := ReadStarts(c, k, cmd, r);
    && RankShaped(c, k)
    && Apart(starts, c.t.Burst())
    && (forall i :: 0 <= i < |starts| ==> starts[i] <= c.t.RL() + 1)
    && ReadsHeldBack(c, row, starts, now)
  }

  /** Rank::update, then delivery of the command under way. */
  function NextRank(c: Config, k: RankState, cmd: Option<Packet>, r: nat): RankState {
    var k1 := RankTick(c, k).1;
    if cmd.Some? && cmd.value.kind.IsRead() && cmd.value.rank == r then
      k1.(returnPackets := k1.returnPackets + [Arrive(cmd.value)], returnCountdown := k1.returnCountdown + [c.t.RL()])
    else k1
  }

  /** The burst that may leave the list in this cycle has gone out completely. */
  lemma TickShiftsReads(c: Config, row: seq<Bank>, k: RankState, cmd: Option<Packet>, r: nat, now: int)
    requires c.Valid() && ReadsOk(c, row, k, cmd, r, now)
    ensures RankShaped(c, RankTick(c, k).1)
    ensures RankTick(c, k).0.Some? ==> RankTick(c, k).0.value.kind == DATA
    ensures Shifted(ReadStarts(c, k, cmd, r), ReadStarts(c, NextRank(c, k, cmd, r), None, r))
  {
    var busy, left, w := k.outgoing.Some?, k.dataLeft, k.returnCountdown;
    var bus := OnBus(c, busy, left) + w;
    assert ReadStarts(c, k, cmd, r) == bus + ReadUnderWay(c, cmd, r);
    assert forall i :: 0 <= i < |bus| ==> bus[i] == ReadStarts(c, k, cmd, r)[i];
    PipeStep(c, busy, left, w);
    TickIsPipeStep(c, k);
    var (busy', left', w') := PipeNext(c, busy, left, w);
    var after := OnBus(c, busy', left') + w';
    ShiftedTail(bus, after, ReadUnderWay(c, cmd, r));
    NextRankStarts(c, k, cmd, r);
  }

  lemma TickIsPipeStep(c: Config, k: RankState)
    requires c.Valid() && RankShaped(c, k)
    requires Starting(k.returnCountdown) ==> !k.outgoing.Some? || k.dataLeft == 1
    ensures var k1 := RankTick(c, k).1;
            var (busy', left', w') := PipeNext(c, k.outgoing.Some?, k.dataLeft, k.returnCountdown);
            && k1.outgoing.Some? == busy' && (busy' ==> k1.dataLeft == left') && k1.returnCountdown == w'
            && |k1.returnPackets| == |w'|
            && (busy' ==> k1.outgoing.value.kind == DATA)
            && (forall i :: 0 <= i < |w'| ==> k1.returnPackets[i].kind == DATA)
    ensures RankTick(c, k).0.Some? ==> RankTick(c, k).0.value.kind == DATA
  {
  }

  lemma NextRankStarts(c: Config, k: RankState, cmd: Option<Packet>, r: nat)
    ensures var k1 := RankTick(c, k).1;
            ReadStarts(c, NextRank(c, k, cmd, r), None, r) ==
              OnBus(c, k1.outgoing.Some?, k1.dataLeft) + k1.returnCountdown + Down1(ReadUnderWay(c, cmd, r))
  {
    hide RankTick;
    var k1 := RankTick(c, k).1;
    var o, w := OnBus(c, k1.outgoing.Some?, k1.dataLeft), k1.returnCountdown;
    assert (o + (w + [c.t.RL()])) + [] == o + w + [c.t.RL()];
    assert Down1([c.t.RL() + 1]) == [c.t.RL()] && Down1([]) == [];
  }

  lemma ShiftedTail(v: seq<int>, after: seq<int>, tail: seq<int>)
    requires Shifted(v, after)
    ensures Shifted(v + tail, after + Down1(tail))
  {
    assert Down1(v + tail) == Down1(v) + Down1(tail);
    if after != Down1(v) {
      assert (Down1(v) + Down1(tail))[1..] == Down1(v)[1..] + Down1(tail);
    }
  }

  lemma TickKeepsReads(c: Config, row: seq<Bank>, row': seq<Bank>, k: RankState, cmd: Option<Packet>, r: nat, now: int)
    requires c.Valid() && ReadsOk(c, row, k, cmd, r, now)
    requires |row'| == |row| && forall j :: 0 <= j < |row| ==> row'[j].nextRead == row[j].nextRead
    ensures ReadsOk(c, row', NextRank(c, k, cmd, r), None, r, now + 1)
    ensures forall i :: 0 <= i < |ReadStarts(c, NextRank(c, k, cmd, r), None, r)| ==>
              ReadStarts(c, NextRank(c, k, cmd, r), None, r)[i] <= c.t.RL()
  {
    TickShiftsReads(c, row, k, cmd, r, now);
    NextRankShaped(c, k, cmd, r);
    hide RankTick, ReadStarts, NextRank, RankShaped;
    var before, after := ReadStarts(c, k, cmd, r), ReadStarts(c, NextRank(c, k, cmd, r), None, r);
    var d := ShiftedTimes(before, after, c.t.Burst());
    TickHoldsReads(c, row, row', before, after, d, now);
  }

  lemma TickHoldsReads(c: Config, row: seq<Bank>, row': seq<Bank>, before: seq<int>, after: seq<int>, d: nat, now: int)
    requires ReadsHeldBack(c, row, before, now)
    requires |row'| == |row| && forall j :: 0 <= j < |row| ==> row'[j].nextRead == row[j].nextRead
    requires |after| + d == |before| && forall i :: 0 <= i < |after| ==> after[i] == before[i + d] - 1
    ensures ReadsHeldBack(c, row', after, now + 1)
  {
    forall i, j | 0 <= i < |after| && 0 <= j < |row'|
      ensures row'[j].nextRead >= after[i] + (now + 1) - (c.t.RL() + 1) + c.t.Burst()
    {
      assert row[j].nextRead >= before[i + d] + now - (c.t.RL() + 1) + c.t.Burst();
    }
  }

  lemma NextRankShaped(c: Config, k: RankState, cmd: Option<Packet>, r: nat)
    requires c.Valid() && RankShaped(c, RankTick(c, k).1)
    ensures RankShaped(c, NextRank(c, k, cmd, r))
  {
  }

  /** Sending never lets a bank of the rank read earlier than its pipeline allows. */
  lemma SendHoldsReads(c: Config, b: Bank, p: Packet, now: int, r: nat, j: nat, start: int)
    requires c.Valid() && p.kind != DATA && start <= c.t.RL()
    requires b.nextRead >= start + now - (c.t.RL() + 1) + c.t.Burst()
    ensures SendBank(c, b, p, now, r, j).nextRead >= start + now - (c.t.RL() + 1) + c.t.Burst()
  {
  }

  lemma ReadHoldsReads(c: Config, b: Bank, p: Packet, now: int, j: nat)
    requires c.Valid() && p.kind.IsRead()
    ensures SendBank(c, b, p, now, p.rank, j).nextRead >= now + c.t.Burst()
  {
  }

  lemma SendKeepsReads(c: Config, row: seq<Bank>, k: RankState, p: Packet, r: nat, now: int)
    requires c.Valid() && ReadsOk(c, row, k, None, r, now) && p.kind != DATA
    requires forall i :: 0 <= i < |ReadStarts(c, k, None, r)| ==> ReadStarts(c, k, None, r)[i] <= c.t.RL()
    requires p.rank == r ==> SendableTo(c, row, p, now)
    ensures ReadsOk(c, SendRow(c, row, p, now, r), k, Some(p), r, now)
  {
    var was, starts := ReadStarts(c, k, None, r), ReadStarts(c, k, Some(p), r);
    assert starts == was + ReadUnderWay(c, Some(p), r);
    hide ReadStarts, SendBank;
    forall i, j | 0 <= i < |starts| && 0 <= j < |row|
      ensures SendBank(c, row[j], p, now, r, j).nextRead >= starts[i] + now - (c.t.RL() + 1) + c.t.Burst()
    {
      if i < |was| {
        assert row[j].nextRead >= was[i] + now - (c.t.RL() + 1) + c.t.Burst();
        SendHoldsReads(c, row[j], p, now, r, j, was[i]);
      } else {
        ReadHoldsReads(c, row[j], p, now, j);
      }
    }
    forall i | 0 <= i < |was|
      ensures p.rank == r && p.kind.IsRead() ==> was[i] + c.t.Burst() <= c.t.RL() + 1
    {
      if p.rank == r && p.kind.IsRead() {
        assert MaySend(c, row[p.bank], p, now);
        assert row[p.bank].nextRead >= was[i] + now - (c.t.RL() + 1) + c.t.Burst();
      }
    }
  }

  // ---- writes ------------------------------------------------------------------------

  function WriteStarts(c: Config, data: Option<Packet>, left: int, countdown: seq<int>): seq<int> {
    OnBus(c, data.Some?, left) + countdown
  }

  /** Every open row waits with its next write until the earlier bursts are over. */
  ghost predicate WritesHeldBack(c: Config, banks: seq<seq<Bank>>, starts: seq<int>, now: int) {
    forall i, r, j :: 0 <= i < |starts| && 0 <= r < |banks| && 0 <= j < |banks[r]| && banks[r][j].phase == RowActive ==>
      banks[r][j].nextWrite >= starts[i] + now - c.t.WL() + c.t.Burst()
  }

  ghost predicate WritesShaped(c: Config, mc: Controller) {
    && |mc.writeData| == |mc.writeCountdown|
    && (mc.data.Some? ==> 0 < mc.dataLeft <= c.t.Burst())
    && (forall i :: 0 <= i < |mc.writeCountdown| ==> mc.writeCountdown[i] > 0)
  }

  ghost predicate WritesOk(c: Config, mc: Controller, now: int) {
    var starts := WriteStarts(c, mc.data, mc.dataLeft, mc.writeCountdown);
    && WritesShaped(c, mc)
    && Apart(starts, c.t.Burst())
    && (forall i :: 0 <= i < |starts| ==> starts[i] <= c.t.WL())
    && WritesHeldBack(c, mc.banks, starts, now)
  }

  /** The data bus phases: there is never a collision, and time moves on by one. */
  lemma TickShiftsWrites(c: Config, s: System)
    requires c.Valid() && WritesShaped(c, s.mc)
    requires Apart(WriteStarts(c, s.mc.data, s.mc.dataLeft, s.mc.writeCountdown), c.t.Burst())
    ensures var r := LaunchWrite(c, FinishWrite(c, s));
            && r.Some?
            && WritesShaped(c, r.value.mc)
            && Shifted(WriteStarts(c, s.mc.data, s.mc.dataLeft, s.mc.writeCountdown),
                       WriteStarts(c, r.value.mc.data, r.value.mc.dataLeft, r.value.mc.writeCountdown))
  {
    PipeStep(c, s.mc.data.Some?, s.mc.dataLeft, s.mc.writeCountdown);
    LaunchIsPipe(c, s);
    hide FinishWrite, LaunchWrite, Shifted, PipeNext, Starting;
  }

  lemma LaunchIsPipe(c: Config, s: System)
    requires |s.mc.writeData| == |s.mc.writeCountdown|
    requires Starting(s.mc.writeCountdown) ==> !s.mc.data.Some? || s.mc.dataLeft == 1
    ensures var r := LaunchWrite(c, FinishWrite(c, s));
            && r.Some?
            && |r.value.mc.writeData| == |r.value.mc.writeCountdown|
            && var (busy', left', w') := PipeNext(c, s.mc.data.Some?, s.mc.dataLeft, s.mc.writeCountdown);
            r.value.mc.data.Some? == busy' && (busy' ==> r.value.mc.dataLeft == left') && r.value.mc.writeCountdown == w'
  {
  }

  /** Moving one cycle on, with a table whose open rows were open before. */
  lemma TickKeepsWrites(c: Config, mc: Controller, mc': Controller, now: int)
    requires c.Valid() && WritesOk(c, mc, now - 1) && WritesShaped(c, mc')
    requires Shifted(WriteStarts(c, mc.data, mc.dataLeft, mc.writeCountdown),
                     WriteStarts(c, mc'.data, mc'.dataLeft, mc'.writeCountdown))
    requires mc'.banks == TickBanks(c, mc.banks)
    ensures WritesOk(c, mc', now)
    ensures forall i :: 0 <= i < |WriteStarts(c, mc'.data, mc'.dataLeft, mc'.writeCountdown)| ==>
              WriteStarts(c, mc'.data, mc'.dataLeft, mc'.writeCountdown)[i] <= c.t.WL() - 1
  {
    var before, after := WriteStarts(c, mc.data, mc.dataLeft, mc.writeCountdown),
                         WriteStarts(c, mc'.data, mc'.dataLeft, mc'.writeCountdown);
    var d := ShiftedTimes(before, after, c.t.Burst());
    hide WriteStarts, WritesShaped;
    TickHoldsBack(c, mc.banks, mc'.banks, before, after, d, now);
  }

  lemma TickHoldsBack(c: Config, banks: seq<seq<Bank>>, banks': seq<seq<Bank>>, before: seq<int>, after: seq<int>, d: nat, now: int)
    requires WritesHeldBack(c, banks, before, now - 1) && banks' == TickBanks(c, banks)
    requires |after| + d == |before| && forall i :: 0 <= i < |after| ==> after[i] == before[i + d] - 1
    ensures WritesHeldBack(c, banks', after, now)
  {
    forall i, r, j | 0 <= i < |after| && 0 <= r < |banks'| && 0 <= j < |banks'[r]| && banks'[r][j].phase == RowActive
      ensures banks'[r][j].nextWrite >= after[i] + now - c.t.WL() + c.t.Burst()
    {
      assert banks[r][j].phase == RowActive && banks'[r][j].nextWrite == banks[r][j].nextWrite;
      assert banks[r][j].nextWrite >= before[i + d] + (now - 1) - c.t.WL() + c.t.Burst();
    }
  }

  lemma SendHoldsBack(c: Config, b: Bank, p: Packet, now: int, rank: nat, bank: nat, start: int)
    requires c.Valid() && p.kind != DATA
    requires start <= c.t.WL() - 1
    requires b.phase == RowActive ==> b.nextWrite >= start + now - c.t.WL() + c.t.Burst()
    ensures var b' := SendBank(c, b, p, now, rank, bank);
            b'.phase == RowActive ==> b'.nextWrite >= start + now - c.t.WL() + c.t.Burst()
  {
  }

  lemma WriteHoldsBack(c: Config, b: Bank, p: Packet, now: int, rank: nat, bank: nat)
    requires c.Valid() && p.kind.IsWrite()
    ensures var b' := SendBank(c, b, p, now, rank, bank);
            b'.phase == RowActive ==> b'.nextWrite >= now + c.t.Burst()
  {
  }

  lemma SendKeepsWrites(c: Config, mc: Controller, p: Packet, now: int)
    requires c.Valid() && WritesOk(c, mc, now)
    requires forall i :: 0 <= i < |WriteStarts(c, mc.data, mc.dataLeft, mc.writeCountdown)| ==>
               WriteStarts(c, mc.data, mc.dataLeft, mc.writeCountdown)[i] <= c.t.WL() - 1
    requires Sendable(c, mc.banks, p, now)
    ensures WritesOk(c, mc.(banks := SendBanks(c, mc.banks, p, now),
                            writeData := if p.kind.IsWrite() then mc.writeData + [Arrive(p)] else mc.writeData,
                            writeCountdown := if p.kind.IsWrite() then mc.writeCountdown + [c.t.WL()] else mc.writeCountdown), now)
  {
    hide WriteStarts, SendBanks, Sendable;
    var was := WriteStarts(c, mc.data, mc.dataLeft, mc.writeCountdown);
    var starts := if p.kind.IsWrite() then was + [c.t.WL()] else was;
    WritesWait(c, mc.banks, was, p, now);
    SendHoldsAll(c, mc.banks, was, starts, p, now);
    if p.kind.IsWrite() {
      WriteStartsPush(c, mc.data, mc.dataLeft, mc.writeCountdown, c.t.WL());
      ApartPush(was, c.t.WL(), c.t.Burst());
      hide Apart, WritesHeldBack;
    }
  }

  lemma WriteStartsPush(c: Config, data: Option<Packet>, left: int, w: seq<int>, x: int)
    ensures WriteStarts(c, data, left, w + [x]) == WriteStarts(c, data, left, w) + [x]
  {
  }

  lemma ApartPush(v: seq<int>, x: int, gap: int)
    requires Apart(v, gap) && forall i :: 0 <= i < |v| ==> v[i] + gap <= x
    ensures Apart(v + [x], gap)
  {
  }

  lemma WritesWait(c: Config, banks: seq<seq<Bank>>, was: seq<int>, p: Packet, now: int)
    requires WritesHeldBack(c, banks, was, now) && Sendable(c, banks, p, now)
    ensures p.kind.IsWrite() ==> forall i :: 0 <= i < |was| ==> was[i] + c.t.Burst() <= c.t.WL()
  {
    var b := banks[p.rank][p.bank];
    assert MaySend(c, b, p, now);
    if p.kind.IsWrite() {
      forall i | 0 <= i < |was| ensures was[i] + c.t.Burst() <= c.t.WL() {
        assert b.nextWrite >= was[i] + now - c.t.WL() + c.t.Burst();
      }
    }
  }

  lemma SendHoldsAll(c: Config, banks: seq<seq<Bank>>, was: seq<int>, starts: seq<int>, p: Packet, now: int)
    requires c.Valid() && WritesHeldBack(c, banks, was, now) && Sendable(c, banks, p, now)
    requires forall i :: 0 <= i < |was| ==> was[i] <= c.t.WL() - 1
    requires starts == if p.kind.IsWrite() then was + [c.t.WL()] else was
    ensures WritesHeldBack(c, SendBanks(c, banks, p, now), starts, now)
  {
    assert MaySend(c, banks[p.rank][p.bank], p, now);
    hide SendBank;
    forall i: int, r: int, j: int | 0 <= i < |starts| && 0 <= r < |banks| && 0 <= j < |banks[r]|
      ensures var b := SendBank(c, banks[r][j], p, now, r, j);
              b.phase == RowActive ==> b.nextWrite >= starts[i] + now - c.t.WL() + c.t.Burst()
    {
      if i < |was| {
        assert banks[r][j].phase == RowActive ==> banks[r][j].nextWrite >= was[i] + now - c.t.WL() + c.t.Burst();
        SendHoldsBack(c, banks[r][j], p, now, r, j, was[i]);
      } else {
        WriteHoldsBack(c, banks[r][j], p, now, r, j);
      }
    }
  }
}
