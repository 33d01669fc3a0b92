/** When the data of every command of a run is on its bus and where it goes then, in the raw
    timing parameters. */
module DramLatency {
  import opened Wrappers
  import opened DramTypes
  import opened DramBanks
  import opened DramQueue
  import opened DramSystem
  import opened DramAgreement
  import opened DramBuses
  import opened DramFlow
  import opened DramTheorems
  import opened DramPromises
  import opened DramDataBus
  import opened DramTable

  /** A packet and the cycle its burst is over in. */
  datatype Burst = Burst(packet: Packet, end: int)

  // ---- a pipeline and the bursts in it -------------------------------------------------------

  function OnTheBus(cur: Option<Packet>, left: int, now: int): seq<Burst> {
    if cur.Some? then [Burst(cur.value, now + left)] else []
  }

  function InWaiting(t: Timing, ps: seq<Packet>, w: seq<int>, now: int): (v: seq<Burst>)
    requires |ps| == |w|
    ensures |v| == |ps|
  {
    seq(|ps|, i requires 0 <= i < |ps| => Burst(ps[i], now + w[i] + t.BL / 2))
  }

  /** The bursts of a pipeline: on the bus, then waiting. */
  function Bursts(t: Timing, cur: Option<Packet>, left: int, ps: seq<Packet>, w: seq<int>, now: int): seq<Burst>
    requires |ps| == |w|
  {
    OnTheBus(cur, left, now) + InWaiting(t, ps, w, now)
  }

  /** One cycle of the pipeline. */
  ghost predicate PipeTicks(t: Timing, cur: Option<Packet>, left: int, ps: seq<Packet>, w: seq<int>,
                            cur': Option<Packet>, left': int, ps': seq<Packet>, w': seq<int>)
  {
    && |ps| == |w|
    && if Starting(w) then cur' == Some(ps[0]) && left' == t.BL / 2 && ps' == ps[1..] && w' == Down1(w)[1..]
       else
         && cur' == (if cur.Some? && left == 1 then None else cur) && (cur'.Some? ==> left' == left - 1)
         && ps' == ps && w' == Down1(w)
  }

  lemma WaitingStays(t: Timing, ps: seq<Packet>, w: seq<int>, now: int)
    requires |ps| == |w|
    ensures InWaiting(t, ps, Down1(w), now + 1) == InWaiting(t, ps, w, now)
  {
  }

  lemma WaitingStarts(t: Timing, ps: seq<Packet>, w: seq<int>, now: int)
    requires |ps| == |w| && Starting(w)
    ensures InWaiting(t, ps[1..], Down1(w)[1..], now + 1) == InWaiting(t, ps, w, now)[1..]
    ensures InWaiting(t, ps, w, now)[0] == Burst(ps[0], now + 1 + t.BL / 2)
  {
    var a, b := InWaiting(t, ps[1..], Down1(w)[1..], now + 1), InWaiting(t, ps, w, now);
    forall i: nat | i < |a| ensures a[i] == b[i + 1] {
      assert ps[1..][i] == ps[i + 1] && Down1(w)[1..][i] == w[i + 1] - 1;
    }
    assert |a| == |b[1..]|;
  }

  /** The burst that is over goes, the others stay where they are in time. */
  lemma TickKeepsBursts(t: Timing, cur: Option<Packet>, left: int, ps: seq<Packet>, w: seq<int>,
                        cur': Option<Packet>, left': int, ps': seq<Packet>, w': seq<int>, now: int)
    requires PipeTicks(t, cur, left, ps, w, cur', left', ps', w')
    requires Starting(w) ==> cur.None? || left == 1
    ensures |ps'| == |w'|
    ensures Bursts(t, cur', left', ps', w', now + 1) == Bursts(t, cur, left, ps, w, now)[if cur.Some? && left == 1 then 1 else 0..]
  {
    hide InWaiting, Down1;
    var v := InWaiting(t, ps, w, now);
    if Starting(w) {
      WaitingStarts(t, ps, w, now);
      assert v == [v[0]] + v[1..];
    } else {
      WaitingStays(t, ps, w, now);
    }
  }

  lemma RankPipeTicks(c: Config, k: RankState)
    requires RankShaped(c, k)
    ensures var k1 := RankTick(c, k).1;
            && (Starting(k.returnCountdown) ==> k.outgoing.None? || k.dataLeft == 1) ==>
                 PipeTicks(c.t, k.outgoing, k.dataLeft, k.returnPackets, k.returnCountdown,
                           k1.outgoing, k1.dataLeft, k1.returnPackets, k1.returnCountdown)
    ensures RankTick(c, k).0 == if k.outgoing.Some? && k.dataLeft == 1 then k.outgoing else None
  {
  }

  lemma WritePipeTicks(c: Config, s: System)
    requires WritesShaped(c, s.mc) && LaunchWrite(c, FinishWrite(c, s)).Some?
    ensures var m := LaunchWrite(c, FinishWrite(c, s)).value;
            && PipeTicks(c.t, s.mc.data, s.mc.dataLeft, s.mc.writeData, s.mc.writeCountdown,
                         m.mc.data, m.mc.dataLeft, m.mc.writeData, m.mc.writeCountdown)
            && m.log.written == s.log.written + (if s.mc.data.Some? && s.mc.dataLeft == 1 then [s.mc.data.value] else [])
            && (Starting(s.mc.writeCountdown) ==> s.mc.data.None? || s.mc.dataLeft == 1)
  {
  }

  // ---- what the sent commands plan -----------------------------------------------------------

  /** The reads of rank `r`, and when their data is through: the rank takes the command after one
      cycle, the data comes CL + AL later and takes BL / 2 cycles. */
  function ReadPlan(t: Timing, sent: seq<Sent>, r: nat): seq<Burst> {
    if |sent| == 0 then []
    else
      var x := sent[|sent|-1];
      ReadPlan(t, sent[..|sent|-1], r)
      + (if x.packet.kind.IsRead() && x.packet.rank == r then [Burst(Arrive(x.packet), x.at + 1 + t.CL + t.AL + t.BL / 2)] else [])
  }

  /** The writes, and when their data is through: CL + AL - 1 and BL / 2 cycles after the command. */
  function WritePlan(t: Timing, sent: seq<Sent>): seq<Burst> {
    if |sent| == 0 then []
    else
      var x := sent[|sent|-1];
      WritePlan(t, sent[..|sent|-1])
      + (if x.packet.kind.IsWrite() then [Burst(Arrive(x.packet), x.at + t.CL + t.AL - 1 + t.BL / 2)] else [])
  }

  lemma PlanPush(t: Timing, sent: seq<Sent>, x: Sent, r: nat)
    ensures ReadPlan(t, sent + [x], r) == ReadPlan(t, sent, r)
      + (if x.packet.kind.IsRead() && x.packet.rank == r then [Burst(Arrive(x.packet), x.at + 1 + t.CL + t.AL + t.BL / 2)] else [])
    ensures WritePlan(t, sent + [x]) == WritePlan(t, sent)
      + (if x.packet.kind.IsWrite() then [Burst(Arrive(x.packet), x.at + t.CL + t.AL - 1 + t.BL / 2)] else [])
  {
    assert (sent + [x])[..|sent + [x]|-1] == sent;
  }

  /** The bursts under way are the last ones planned; those before them are over. */
  ghost predicate OnSchedule(plan: seq<Burst>, under: seq<Burst>, now: int) {
    && |under| <= |plan| && plan[|plan| - |under|..] == under
    && (forall i :: 0 <= i < |plan| - |under| ==> plan[i].end <= now)
    && (forall i :: 0 <= i < |under| ==> under[i].end > now)
  }

  lemma TickOnSchedule(plan: seq<Burst>, under: seq<Burst>, under': seq<Burst>, d: nat, now: int)
    requires OnSchedule(plan, under, now) && d <= |under| && d <= 1 && under' == under[d..]
    requires d == 1 ==> under[0].end == now + 1
    requires forall i :: 0 <= i < |under'| ==> under'[i].end > now + 1
    ensures OnSchedule(plan, under', now + 1)
  {
    var n := |plan| - |under|;
    assert d == 1 ==> plan[n] == plan[n..][0];
    assert plan[n + d..] == plan[n..][d..];
  }

  lemma PushOnSchedule(plan: seq<Burst>, under: seq<Burst>, b: Burst, now: int)
    requires OnSchedule(plan, under, now) && b.end > now
    ensures OnSchedule(plan + [b], under + [b], now)
  {
    var n := |plan| - |under|;
    assert (plan + [b])[n..] == plan[n..] + [b];
  }

  // ---- the buses of a state ------------------------------------------------------------------

  function CommandBurst(c: Config, cmd: Option<Packet>, r: nat, now: int): seq<Burst> {
    if cmd.Some? && cmd.value.kind.IsRead() && cmd.value.rank == r
    then [Burst(Arrive(cmd.value), now + 1 + c.t.CL + c.t.AL + c.t.BL / 2)] else []
  }

  ghost function RankBursts(c: Config, k: RankState, cmd: Option<Packet>, r: nat, now: int): seq<Burst>
    requires RankShaped(c, k)
  {
    Bursts(c.t, k.outgoing, k.dataLeft, k.returnPackets, k.returnCountdown, now) + CommandBurst(c, cmd, r, now)
  }

  ghost function WriteBursts(c: Config, mc: Controller, now: int): seq<Burst>
    requires WritesShaped(c, mc)
  {
    Bursts(c.t, mc.data, mc.dataLeft, mc.writeData, mc.writeCountdown, now)
  }

  /** Every burst under way ends later, in a state with its countdowns in order. */
  lemma BurstsEndLater(t: Timing, cur: Option<Packet>, left: int, ps: seq<Packet>, w: seq<int>, now: int)
    requires |ps| == |w| && (cur.Some? ==> left > 0) && (forall i :: 0 <= i < |w| ==> w[i] > 0)
    ensures forall i :: 0 <= i < |Bursts(t, cur, left, ps, w, now)| ==> Bursts(t, cur, left, ps, w, now)[i].end > now
  {
    var b, o := Bursts(t, cur, left, ps, w, now), if cur.Some? then 1 else 0;
    forall i: nat | i < |b| ensures b[i].end > now {
      if i >= o { assert b[i] == InWaiting(t, ps, w, now)[i - o]; }
    }
  }

  /** One rank, one cycle: its update and the command that reaches it. */
  lemma RankBurstsStay(c: Config, k: RankState, cmd: Option<Packet>, r: nat, now: int)
    requires RankShaped(c, k) && RankShaped(c, RankTick(c, k).1) && RankShaped(c, NextRank(c, k, cmd, r))
    requires Starting(k.returnCountdown) ==> k.outgoing.None? || k.dataLeft == 1
    ensures var d := if k.outgoing.Some? && k.dataLeft == 1 then 1 else 0;
            d <= |RankBursts(c, k, cmd, r, now)|
            && RankBursts(c, NextRank(c, k, cmd, r), None, r, now + 1) == RankBursts(c, k, cmd, r, now)[d..]
  {
    RankPipeTicks(c, k);
    var k1 := RankTick(c, k).1;
    hide RankTick, NextRank, PipeTicks, InWaiting, Down1;
    TickKeepsBursts(c.t, k.outgoing, k.dataLeft, k.returnPackets, k.returnCountdown,
                    k1.outgoing, k1.dataLeft, k1.returnPackets, k1.returnCountdown, now);
    CommandJoins(c, k, cmd, r, now);
    var b := Bursts(c.t, k.outgoing, k.dataLeft, k.returnPackets, k.returnCountdown, now);
    var d := if k.outgoing.Some? && k.dataLeft == 1 then 1 else 0;
    assert (b + CommandBurst(c, cmd, r, now))[d..] == b[d..] + CommandBurst(c, cmd, r, now);
  }

  lemma RankOnSchedule(c: Config, row: seq<Bank>, plan: seq<Burst>, k: RankState, cmd: Option<Packet>, r: nat, now: int)
    requires c.Valid() && ReadsOk(c, row, k, cmd, r, now) && OnSchedule(plan, RankBursts(c, k, cmd, r, now), now)
    ensures RankShaped(c, NextRank(c, k, cmd, r))
    ensures OnSchedule(plan, RankBursts(c, NextRank(c, k, cmd, r), None, r, now + 1), now + 1)
  {
    hide ReadsHeldBack, Apart, InWaiting, Down1, RankTick, NextRank, OnSchedule, Shifted;
    ReadsStart(c, row, k, cmd, r, now);
    TickShiftsReads(c, row, k, cmd, r, now);
    NextRankShaped(c, k, cmd, r);
    var n := NextRank(c, k, cmd, r);
    RankBurstsStay(c, k, cmd, r, now);
    BurstsEndLater(c.t, n.outgoing, n.dataLeft, n.returnPackets, n.returnCountdown, now + 1);
    var d := if k.outgoing.Some? && k.dataLeft == 1 then 1 else 0;
    var under' := RankBursts(c, n, None, r, now + 1);
    TickOnSchedule(plan, RankBursts(c, k, cmd, r, now), under', d, now);
  }

  lemma ReadsStart(c: Config, row: seq<Bank>, k: RankState, cmd: Option<Packet>, r: nat, now: int)
    requires ReadsOk(c, row, k, cmd, r, now)
    ensures RankShaped(c, k)
    ensures Starting(k.returnCountdown) ==> k.outgoing.None? || k.dataLeft == 1
  {
    var starts := ReadStarts(c, k, cmd, r);
    assert Starting(k.returnCountdown) && k.outgoing.Some? ==> starts[0] + c.t.Burst() <= starts[1] && starts[1] == 1;
  }

  /** The READ that arrives joins the waiting bursts at the time it was planned for. */
  lemma CommandJoins(c: Config, k: RankState, cmd: Option<Packet>, r: nat, now: int)
    requires RankShaped(c, RankTick(c, k).1) && RankShaped(c, NextRank(c, k, cmd, r))
    ensures var k1 := RankTick(c, k).1;
            RankBursts(c, NextRank(c, k, cmd, r), None, r, now + 1) ==
              Bursts(c.t, k1.outgoing, k1.dataLeft, k1.returnPackets, k1.returnCountdown, now + 1) + CommandBurst(c, cmd, r, now)
  {
    hide RankTick;
    var k1 := RankTick(c, k).1;
    WaitingPush(c.t, k1.returnPackets, k1.returnCountdown, if cmd.Some? then Arrive(cmd.value) else Arrive(Packet(READ, 0, 0, 0, 0, 0, 0)),
                c.t.RL(), now + 1);
  }

  lemma WaitingPush(t: Timing, ps: seq<Packet>, w: seq<int>, p: Packet, x: int, now: int)
    requires |ps| == |w|
    ensures InWaiting(t, ps + [p], w + [x], now) == InWaiting(t, ps, w, now) + [Burst(p, now + x + t.BL / 2)]
  {
  }

  // ---- one cycle -----------------------------------------------------------------------------

  function Packets(v: seq<Burst>): (ps: seq<Packet>)
    ensures |ps| == |v|
  {
    seq(|v|, i requires 0 <= i < |v| => v[i].packet)
  }

  ghost predicate ReadsScheduled(c: Config, s: System, r: nat, now: int) {
    && r < |s.ranks| && RankShaped(c, s.ranks[r])
    && OnSchedule(ReadPlan(c.t, s.log.sent, r), RankBursts(c, s.ranks[r], s.mc.cmd, r, now), now)
  }

  /** What is not under way any more has been reported, in order. */
  ghost predicate WritesScheduled(c: Config, s: System, now: int) {
    && WritesShaped(c, s.mc)
    && var plan, under := WritePlan(c.t, s.log.sent), WriteBursts(c, s.mc, now);
    && OnSchedule(plan, under, now)
    && s.log.written == Packets(plan[..|plan| - |under|])
  }

  ghost predicate Scheduled(c: Config, s: System, now: int) {
    && |s.ranks| == c.ranks && WritesScheduled(c, s, now)
    && forall r: nat :: r < c.ranks ==> ReadsScheduled(c, s, r, now)
  }

  predicate SameWritePipe(s: System, s': System) {
    && s'.mc.data == s.mc.data && s'.mc.dataLeft == s.mc.dataLeft
    && s'.mc.writeData == s.mc.writeData && s'.mc.writeCountdown == s.mc.writeCountdown
    && s'.log.written == s.log.written && s'.log.sent == s.log.sent
  }

  lemma SameWrites(c: Config, s: System, s': System, now: int)
    requires SameWritePipe(s, s') && WritesScheduled(c, s, now)
    ensures WritesScheduled(c, s', now)
  {
    hide OnSchedule, WritePlan;
  }

  lemma SameReads(c: Config, s: System, s': System, r: nat, now: int)
    requires ReadsScheduled(c, s, r, now) && r < |s'.ranks| && SamePipe(s.ranks[r], s'.ranks[r])
    requires s'.log.sent == s.log.sent && s'.mc.cmd == s.mc.cmd
    ensures ReadsScheduled(c, s', r, now)
  {
    hide OnSchedule, ReadPlan;
  }

  /** The write pipeline's cycle. */
  lemma LaunchOnSchedule(c: Config, s: System, now: int)
    requires c.Valid() && WritesScheduled(c, s, now) && LaunchWrite(c, FinishWrite(c, s)).Some?
    requires WritesShaped(c, LaunchWrite(c, FinishWrite(c, s)).value.mc)
    ensures WritesScheduled(c, LaunchWrite(c, FinishWrite(c, s)).value, now + 1)
  {
    hide LaunchWrite, FinishWrite, PipeTicks, InWaiting, Down1, OnSchedule, WritePlan;
    LaunchFrame(c, s);
    WritePipeTicks(c, s);
    var m := LaunchWrite(c, FinishWrite(c, s)).value;
    var d := if s.mc.data.Some? && s.mc.dataLeft == 1 then 1 else 0;
    TickKeepsBursts(c.t, s.mc.data, s.mc.dataLeft, s.mc.writeData, s.mc.writeCountdown,
                    m.mc.data, m.mc.dataLeft, m.mc.writeData, m.mc.writeCountdown, now);
    BurstsEndLater(c.t, m.mc.data, m.mc.dataLeft, m.mc.writeData, m.mc.writeCountdown, now + 1);
    var plan, under := WritePlan(c.t, s.log.sent), WriteBursts(c, s.mc, now);
    TickOnSchedule(plan, under, under[d..], d, now);
    NextReported(plan, under, d, now);
  }

  lemma NextReported(plan: seq<Burst>, under: seq<Burst>, d: nat, now: int)
    requires OnSchedule(plan, under, now) && d <= |under| && d <= 1
    ensures |under| <= |plan|
    ensures Packets(plan[..|plan| - |under[d..]|]) == Packets(plan[..|plan| - |under|]) + (if d == 1 then [under[0].packet] else [])
  {
    var n := |plan| - |under|;
    if d == 1 {
      assert plan[n..][0] == under[0];
      assert plan[..n + 1] == plan[..n] + [plan[n]];
    } else {
      assert under[0..] == under;
    }
  }

  lemma PassPipes(c: Config, s: System)
    requires c.Valid() && Inv(c, s)
    ensures TickRanks(c, s).Some? && DeliverCommand(c, TickTable(c, TickRanks(c, s).value)).Some?
    ensures var s2 := DeliverCommand(c, TickTable(c, TickRanks(c, s).value)).value;
            && Pass(c, s) == LaunchWrite(c, FinishWrite(c, s2)) && Pass(c, s).Some?
            && SameWritePipe(s, s2) && WritesShaped(c, Pass(c, s).value.mc)
            && |s2.ranks| == |s.ranks| == c.ranks && Pass(c, s).value.ranks == s2.ranks
            && (forall r: nat :: r < c.ranks ==> SamePipe(NextRank(c, s.ranks[r], s.mc.cmd, r), s2.ranks[r]))
            && Pass(c, s).value.mc.cmd == None && Pass(c, s).value.log.sent == s.log.sent
  {
    hide NextRank, RankTick, QueuesPart, FlowPart, WindowPart, AllReadsOk, Agree, LaunchWrite, FinishWrite, WritesHeldBack;
    PassGives(c, s);
    TicksSucceed(c, s);
    var s1 := TickRanks(c, s).value;
    DeliverFrame(c, TickTable(c, s1));
    InvShape(c, s);
    var s2 := DeliverCommand(c, TickTable(c, s1)).value;
    LaunchFrame(c, s2);
    PassKeepsWrites(c, s, s2);
    forall r: nat | r < c.ranks ensures |s2.ranks| == |s.ranks| && SamePipe(NextRank(c, s.ranks[r], s.mc.cmd, r), s2.ranks[r]) {
      PassMovesRank(c, s, r);
    }
  }

  lemma InvShape(c: Config, s: System)
    requires Inv(c, s)
    ensures |s.ranks| == |s.mc.banks| == c.ranks
    ensures forall r: nat :: r < c.ranks ==> ReadsOk(c, s.mc.banks[r], s.ranks[r], s.mc.cmd, r, s.now - 1)
  {
    hide ReadsOk;
  }

  lemma PassOnSchedule(c: Config, s: System)
    requires c.Valid() && Inv(c, s) && Scheduled(c, s, s.now - 1)
    ensures Pass(c, s).Some? && Scheduled(c, Pass(c, s).value, s.now)
  {
    hide Pass, Inv, NextRank, LaunchWrite, FinishWrite, DeliverCommand, TickRanks, TickTable, ReadsOk, WritesShaped, OnSchedule, RankBursts;
    PassPipes(c, s);
    InvShape(c, s);
    var m := Pass(c, s).value;
    var s2 := DeliverCommand(c, TickTable(c, TickRanks(c, s).value)).value;
    SameWrites(c, s, s2, s.now - 1);
    LaunchOnSchedule(c, s2, s.now - 1);
    forall r: nat | r < c.ranks ensures ReadsScheduled(c, m, r, s.now) {
      assert ReadsScheduled(c, s, r, s.now - 1);
      RankOnSchedule(c, s.mc.banks[r], ReadPlan(c.t, s.log.sent, r), s.ranks[r], s.mc.cmd, r, s.now - 1);
      PipeBursts(c, NextRank(c, s.ranks[r], s.mc.cmd, r), m.ranks[r], r, s.now);
    }
  }

  lemma PipeBursts(c: Config, k: RankState, k': RankState, r: nat, now: int)
    requires RankShaped(c, k) && SamePipe(k, k')
    ensures RankShaped(c, k') && RankBursts(c, k', None, r, now) == RankBursts(c, k, None, r, now)
  {
  }

  /** What sending does to the pipelines. */
  ghost predicate Sends(c: Config, s: System, s': System, p: Option<Packet>) {
    && s'.ranks == s.ranks && s'.log.written == s.log.written && s'.log.sent == s.log.sent + Logged(p, s.now)
    && s'.mc.data == s.mc.data && s'.mc.dataLeft == s.mc.dataLeft && s.mc.cmd == None && s'.mc.cmd == p
    && (if p.Some? && p.value.kind.IsWrite()
        then s'.mc.writeData == s.mc.writeData + [Arrive(p.value)] && s'.mc.writeCountdown == s.mc.writeCountdown + [c.t.WL()]
        else s'.mc.writeData == s.mc.writeData && s'.mc.writeCountdown == s.mc.writeCountdown)
  }

  lemma PopPipes(c: Config, s: System) returns (p: Option<Packet>)
    requires c.Valid() && ControllerShaped(c, s.mc) && PopAndSend(c, s).Some? && s.mc.cmd == None
    ensures Sends(c, s, PopAndSend(c, s).value, p)
  {
    hide Decide, Commit, Chosen, Settle, SendBanks, DecisionShaped;
    var (d, q1) := Decide(c, s.mc.cq.(faw := TickFaw(s.mc.cq.faw)), s.mc.banks, s.now);
    assert s.log.sent + [] == s.log.sent;
    p := if d == Wait then None else Some(Chosen(c, q1, d));
  }

  lemma SendReads(c: Config, s: System, s': System, p: Option<Packet>, r: nat)
    requires c.Valid() && ReadsScheduled(c, s, r, s.now) && Sends(c, s, s', p)
    ensures ReadsScheduled(c, s', r, s.now)
  {
    hide OnSchedule, ReadPlan, Bursts;
    assert s.log.sent + [] == s.log.sent;
    var plan, under := ReadPlan(c.t, s.log.sent, r), RankBursts(c, s.ranks[r], None, r, s.now);
    var b := Bursts(c.t, s.ranks[r].outgoing, s.ranks[r].dataLeft, s.ranks[r].returnPackets, s.ranks[r].returnCountdown, s.now);
    assert under == b + [] == b;
    if p.Some? {
      PlanPush(c.t, s.log.sent, Sent(p.value, s.now), r);
      if p.value.kind.IsRead() && p.value.rank == r {
        PushOnSchedule(plan, under, Burst(Arrive(p.value), s.now + 1 + c.t.CL + c.t.AL + c.t.BL / 2), s.now);
      } else {
        assert plan + [] == plan;
      }
    }
  }

  lemma SendWrites(c: Config, s: System, s': System, p: Option<Packet>)
    requires c.Valid() && WritesScheduled(c, s, s.now) && Sends(c, s, s', p) && WritesShaped(c, s'.mc)
    ensures WritesScheduled(c, s', s.now)
  {
    hide OnSchedule, WritePlan, InWaiting;
    assert s.log.sent + [] == s.log.sent;
    var plan, under := WritePlan(c.t, s.log.sent), WriteBursts(c, s.mc, s.now);
    if p.Some? {
      PlanPush(c.t, s.log.sent, Sent(p.value, s.now), 0);
      if p.value.kind.IsWrite() {
        var b := Burst(Arrive(p.value), s.now + c.t.CL + c.t.AL - 1 + c.t.BL / 2);
        WaitingPush(c.t, s.mc.writeData, s.mc.writeCountdown, Arrive(p.value), c.t.WL(), s.now);
        assert WriteBursts(c, s'.mc, s.now) == under + [b];
        PushOnSchedule(plan, under, b, s.now);
        PushSplit(plan, under, b, s.now);
      } else {
        assert plan + [] == plan;
      }
    }
  }

  lemma PushSplit(plan: seq<Burst>, under: seq<Burst>, b: Burst, now: int)
    requires OnSchedule(plan, under, now)
    ensures |under| <= |plan| && (plan + [b])[..|plan + [b]| - |under + [b]|] == plan[..|plan| - |under|]
  {
  }

  lemma LateShape(c: Config, s: System)
    requires Late(c, s)
    ensures WritesShaped(c, s.mc)
  {
  }

  lemma MidShape(c: Config, s: System)
    requires Mid(c, s)
    ensures s.mc.cmd == None && ControllerShaped(c, s.mc)
  {
  }

  lemma {:induction false} PowerPipes(c: Config, s: System, n: nat)
    requires c.Valid() && Late(c, s) && n <= c.ranks && PowerShaped(c, s) && PowerRanks(c, s, n).Some?
    ensures var s' := PowerRanks(c, s, n).value;
            && SameWritePipe(s, s') && s'.mc.cmd == s.mc.cmd && |s'.ranks| == |s.ranks|
            && forall r: nat :: r < |s.ranks| ==> SamePipe(s.ranks[r], s'.ranks[r])
  {
    hide Late, PowerRank;
    if n > 0 {
      PowerRanksKeep(c, s, n - 1);
      PowerPipes(c, s, n - 1);
      PowerRankFlow(c, PowerRanks(c, s, n - 1).value, n - 1);
    }
  }

  lemma SplitPipes(c: Config, s: System)
    requires Shaped(c, s.mc.cq) && SplitTransaction(c, s).Some?
    ensures var s' := SplitTransaction(c, s).value; SameWritePipe(s, s') && s'.mc.cmd == s.mc.cmd && s'.ranks == s.ranks
  {
  }

  lemma ActOnSchedule(c: Config, s: System)
    requires c.Valid() && Mid(c, s) && Scheduled(c, s, s.now)
    ensures Act(c, s).Some? && Scheduled(c, Act(c, s).value, s.now)
  {
    hide Mid, Late, PopAndSend, SplitTransaction, PowerRanks, ReturnRead, Shaped, TableShaped, ReadsScheduled, WritesScheduled, WritesShaped;
    MidShape(c, s);
    PopKeeps(c, s);
    var p := PopPipes(c, s);
    var s1 := PopAndSend(c, s).value;
    LateShape(c, s1);
    LateIsShaped(c, s1);
    SplitKeeps(c, s1);
    SplitPipes(c, s1);
    var s2 := SplitTransaction(c, s1).value;
    LateIsShaped(c, s2);
    PowerRanksKeep(c, s2, c.ranks);
    PowerPipes(c, s2, c.ranks);
    var s3 := PowerRanks(c, s2, c.ranks).value;
    ReturnKeeps(c, s3);
    ReturnFrame(c, s3);
    var s4 := ReturnRead(c, s3).value;
    SendWrites(c, s, s1, p);
    SameWrites(c, s1, s4, s.now);
    forall r: nat | r < c.ranks ensures ReadsScheduled(c, s4, r, s.now) {
      SendReads(c, s, s1, p, r);
      SameReads(c, s1, s4, r, s.now);
    }
  }

  lemma CycleOnSchedule(c: Config, s: System)
    requires c.Valid() && Inv(c, s) && Scheduled(c, s, s.now - 1)
    ensures Cycle(c, s).Some? && Scheduled(c, Cycle(c, s).value, s.now)
  {
    hide Pass, Inv, RefreshTimer, Mid, Act, ReadsScheduled, WritesScheduled;
    PassOnSchedule(c, s);
    PassKeeps(c, s);
    PassFrame(c, s);
    var m := Pass(c, s).value;
    MidTimer(c, m);
    TimerFrame(c, m);
    var m1 := RefreshTimer(c, m);
    SameWrites(c, m, m1, s.now);
    forall r: nat | r < c.ranks ensures ReadsScheduled(c, m1, r, s.now) { SameReads(c, m, m1, r, s.now); }
    CycleIsAct(c, s);
    MiddleIs(c, s);
    ActOnSchedule(c, m1);
    EndSchedule(c, Act(c, m1).value, s.now);
  }

  lemma MiddleIs(c: Config, s: System)
    requires c.Valid() && Inv(c, s) && Pass(c, s).Some?
    ensures Middle(c, s) == RefreshTimer(c, Pass(c, s).value)
  {
    hide Pass, Inv, RefreshTimer, Mid;
  }

  lemma EndSchedule(c: Config, s: System, now: int)
    requires Scheduled(c, s, now)
    ensures Scheduled(c, EndCycle(c, s), now)
  {
    var s' := EndCycle(c, s);
    SameWrites(c, s, s', now);
    hide EndCycle, WritesScheduled;
    forall r: nat | r < c.ranks ensures ReadsScheduled(c, s', r, now) {
      assert ReadsScheduled(c, s, r, now);
      SameReads(c, s, s', r, now);
    }
  }

  lemma {:induction false} RunOnSchedule(c: Config, events: seq<Event>)
    requires c.Valid() && Legal(c, events)
    ensures Run(c, events).Some? && Scheduled(c, Run(c, events).value, Run(c, events).value.now - 1)
  {
    hide Inv, Cycle, ReadsScheduled, WritesScheduled, PowerSteps, Sendable, TableOk, PopAndSend, Middle;
    NoErrorExit(c, events);
    if |events| == 0 {
      StartOnSchedule(c);
    } else {
      var rest := events[..|events|-1];
      NoErrorExit(c, rest);
      RunOnSchedule(c, rest);
      var s := Run(c, rest).value;
      match events[|events|-1]
      case Clock =>
        CycleOnSchedule(c, s);
        var p := CycleOnTable(c, s);
      case Request(isRead, a) =>
        AddOnSchedule(c, s, isRead, a);
    }
  }

  lemma AddOnSchedule(c: Config, s: System, isRead: bool, a: nat)
    requires Scheduled(c, s, s.now - 1)
    ensures Scheduled(c, AddTransaction(c, s, isRead, a), s.now - 1)
  {
    var s', now := AddTransaction(c, s, isRead, a), s.now - 1;
    SameWrites(c, s, s', now);
    forall r: nat | r < c.ranks ensures ReadsScheduled(c, s', r, now) {
      assert ReadsScheduled(c, s, r, now);
      SameReads(c, s, s', r, now);
    }
    hide WritesScheduled, ReadsScheduled;
  }

  lemma StartOnSchedule(c: Config)
    ensures Scheduled(c, Start(c), -1)
  {
  }

  // ---- every run -----------------------------------------------------------------------------

  /** The data of a command is on its bus in cycle `now`. */
  predicate Occupies(t: Timing, x: Sent, now: int) {
    if x.packet.kind.IsRead() then x.at + 1 + t.CL + t.AL <= now < x.at + 1 + t.CL + t.AL + t.BL / 2
    else x.at + t.CL + t.AL - 1 <= now < x.at + t.CL + t.AL - 1 + t.BL / 2
  }

  lemma {:induction false} PlannedRead(t: Timing, sent: seq<Sent>, r: nat, i: nat) returns (k: nat)
    requires i < |sent| && sent[i].packet.kind.IsRead() && sent[i].packet.rank == r
    ensures k < |ReadPlan(t, sent, r)|
    ensures ReadPlan(t, sent, r)[k] == Burst(Arrive(sent[i].packet), sent[i].at + 1 + t.CL + t.AL + t.BL / 2)
  {
    if i == |sent| - 1 {
      k := |ReadPlan(t, sent, r)| - 1;
    } else {
      k := PlannedRead(t, sent[..|sent|-1], r, i);
    }
  }

  lemma {:induction false} ReadOfPlan(t: Timing, sent: seq<Sent>, r: nat, k: nat) returns (i: nat)
    requires k < |ReadPlan(t, sent, r)|
    ensures i < |sent| && sent[i].packet.kind.IsRead() && sent[i].packet.rank == r
    ensures ReadPlan(t, sent, r)[k] == Burst(Arrive(sent[i].packet), sent[i].at + 1 + t.CL + t.AL + t.BL / 2)
  {
    if k < |ReadPlan(t, sent[..|sent|-1], r)| {
      i := ReadOfPlan(t, sent[..|sent|-1], r, k);
    } else {
      i := |sent| - 1;
    }
  }

  lemma {:induction false} PlannedWrite(t: Timing, sent: seq<Sent>, i: nat) returns (k: nat)
    requires i < |sent| && sent[i].packet.kind.IsWrite()
    ensures k < |WritePlan(t, sent)|
    ensures WritePlan(t, sent)[k] == Burst(Arrive(sent[i].packet), sent[i].at + t.CL + t.AL - 1 + t.BL / 2)
  {
    if i == |sent| - 1 {
      k := |WritePlan(t, sent)| - 1;
    } else {
      k := PlannedWrite(t, sent[..|sent|-1], i);
    }
  }

  lemma {:induction false} WriteOfPlan(t: Timing, sent: seq<Sent>, k: nat) returns (i: nat)
    requires k < |WritePlan(t, sent)|
    ensures i < |sent| && sent[i].packet.kind.IsWrite()
    ensures WritePlan(t, sent)[k] == Burst(Arrive(sent[i].packet), sent[i].at + t.CL + t.AL - 1 + t.BL / 2)
  {
    if k < |WritePlan(t, sent[..|sent|-1])| {
      i := WriteOfPlan(t, sent[..|sent|-1], k);
    } else {
      i := |sent| - 1;
    }
  }

  /** All bursts but the one on the bus are still to start. */
  lemma OthersStartLater(t: Timing, cur: Option<Packet>, left: int, ps: seq<Packet>, w: seq<int>, tail: seq<Burst>, now: int)
    requires |ps| == |w| && (forall i :: 0 <= i < |w| ==> w[i] > 0)
    requires forall i :: 0 <= i < |tail| ==> tail[i].end - t.BL / 2 > now
    ensures var under := Bursts(t, cur, left, ps, w, now) + tail;
            forall i :: (if cur.Some? then 1 else 0) <= i < |under| ==> under[i].end - t.BL / 2 > now
  {
    var b, o := Bursts(t, cur, left, ps, w, now), if cur.Some? then 1 else 0;
    var under := b + tail;
    forall i: nat | o <= i < |under| ensures under[i].end - t.BL / 2 > now {
      if i < |b| { assert under[i] == b[i] == InWaiting(t, ps, w, now)[i - o]; } else { assert under[i] == tail[i - |b|]; }
    }
  }

  /** A planned burst that is running is the one on the bus. */
  lemma RunningIsOnBus(t: Timing, plan: seq<Burst>, cur: Option<Packet>, left: int, ps: seq<Packet>, w: seq<int>, tail: seq<Burst>, now: int, k: nat)
    requires |ps| == |w| && OnSchedule(plan, Bursts(t, cur, left, ps, w, now) + tail, now)
    requires forall i :: 0 <= i < |w| ==> w[i] > 0
    requires forall i :: 0 <= i < |tail| ==> tail[i].end - t.BL / 2 > now
    requires k < |plan| && plan[k].end - t.BL / 2 <= now < plan[k].end
    ensures cur == Some(plan[k].packet) && left == plan[k].end - now
  {
    OthersStartLater(t, cur, left, ps, w, tail, now);
    var under := Bursts(t, cur, left, ps, w, now) + tail;
    var n := |plan| - |under|;
    assert under[k - n] == plan[n..][k - n] == plan[k];
    hide InWaiting;
  }

  /** What is on the bus was planned for now. */
  lemma OnBusIsRunning(t: Timing, plan: seq<Burst>, cur: Option<Packet>, left: int, ps: seq<Packet>, w: seq<int>, tail: seq<Burst>, now: int) returns (k: nat)
    requires |ps| == |w| && OnSchedule(plan, Bursts(t, cur, left, ps, w, now) + tail, now) && cur.Some?
    ensures k < |plan| && plan[k] == Burst(cur.value, now + left)
  {
    var under := Bursts(t, cur, left, ps, w, now) + tail;
    k := |plan| - |under|;
    assert plan[k] == plan[k..][0] == under[0];
  }

  /** The read data of a rank is on its bus exactly from the cycle 1 + CL + AL after the command
      was sent, for BL / 2 cycles. */
  lemma ReadDataOnTime(c: Config, events: seq<Event>, i: nat)
    requires c.Valid() && Legal(c, events) && i < |After(c, events).log.sent|
    requires var x := After(c, events).log.sent[i]; x.packet.kind.IsRead() && x.packet.rank < c.ranks
    ensures var s := After(c, events);
            var x, k := s.log.sent[i], s.ranks[s.log.sent[i].packet.rank];
            Occupies(c.t, x, s.now - 1) ==>
              k.outgoing == Some(Arrive(x.packet)) && k.dataLeft == x.at + 1 + c.t.CL + c.t.AL + c.t.BL / 2 - (s.now - 1)
  {
    hide Run, Inv, Legal, ReadPlan, WritesScheduled, OnSchedule, Bursts;
    RunOnSchedule(c, events);
    var s := After(c, events);
    var x := s.log.sent[i];
    var k := s.ranks[x.packet.rank];
    assert ReadsScheduled(c, s, x.packet.rank, s.now - 1);
    var m := PlannedRead(c.t, s.log.sent, x.packet.rank, i);
    if Occupies(c.t, x, s.now - 1) {
      RunningIsOnBus(c.t, ReadPlan(c.t, s.log.sent, x.packet.rank), k.outgoing, k.dataLeft, k.returnPackets, k.returnCountdown,
                     CommandBurst(c, s.mc.cmd, x.packet.rank, s.now - 1), s.now - 1, m);
    }
  }

  /** ... and nothing else ever is. */
  lemma OnlyPlannedReads(c: Config, events: seq<Event>, r: nat) returns (i: nat)
    requires c.Valid() && Legal(c, events) && r < c.ranks && After(c, events).ranks[r].outgoing.Some?
    ensures var s := After(c, events);
            && i < |s.log.sent| && s.log.sent[i].packet.kind.IsRead() && s.log.sent[i].packet.rank == r
            && s.ranks[r].outgoing.value == Arrive(s.log.sent[i].packet) && Occupies(c.t, s.log.sent[i], s.now - 1)
  {
    hide Run, Inv, Legal, ReadPlan, WritesScheduled, OnSchedule, Bursts;
    RunOnSchedule(c, events);
    var s := After(c, events);
    var k := s.ranks[r];
    assert ReadsScheduled(c, s, r, s.now - 1);
    var m := OnBusIsRunning(c.t, ReadPlan(c.t, s.log.sent, r), k.outgoing, k.dataLeft, k.returnPackets, k.returnCountdown,
                            CommandBurst(c, s.mc.cmd, r, s.now - 1), s.now - 1);
    i := ReadOfPlan(c.t, s.log.sent, r, m);
  }

  /** A write's data is on the controller's bus exactly from the cycle CL + AL - 1 after the
      command, for BL / 2 cycles. */
  lemma WriteDataOnTime(c: Config, events: seq<Event>, i: nat)
    requires c.Valid() && Legal(c, events) && i < |After(c, events).log.sent| && After(c, events).log.sent[i].packet.kind.IsWrite()
    ensures var s := After(c, events);
            var x := s.log.sent[i];
            Occupies(c.t, x, s.now - 1) ==>
              s.mc.data == Some(Arrive(x.packet)) && s.mc.dataLeft == x.at + c.t.CL + c.t.AL - 1 + c.t.BL / 2 - (s.now - 1)
  {
    hide Run, Inv, Legal, WritePlan, ReadsScheduled, OnSchedule, Bursts, Packets;
    RunOnSchedule(c, events);
    var s := After(c, events);
    var x := s.log.sent[i];
    var m := PlannedWrite(c.t, s.log.sent, i);
    var b := WriteBursts(c, s.mc, s.now - 1);
    assert b + [] == b;
    if Occupies(c.t, x, s.now - 1) {
      RunningIsOnBus(c.t, WritePlan(c.t, s.log.sent), s.mc.data, s.mc.dataLeft, s.mc.writeData, s.mc.writeCountdown, [], s.now - 1, m);
    }
  }

  lemma OnlyPlannedWrites(c: Config, events: seq<Event>) returns (i: nat)
    requires c.Valid() && Legal(c, events) && After(c, events).mc.data.Some?
    ensures var s := After(c, events);
            && i < |s.log.sent| && s.log.sent[i].packet.kind.IsWrite()
            && s.mc.data.value == Arrive(s.log.sent[i].packet) && Occupies(c.t, s.log.sent[i], s.now - 1)
  {
    hide Run, Inv, Legal, WritePlan, ReadsScheduled, OnSchedule, Bursts, Packets;
    RunOnSchedule(c, events);
    var s := After(c, events);
    var b := WriteBursts(c, s.mc, s.now - 1);
    assert b + [] == b;
    var m := OnBusIsRunning(c.t, WritePlan(c.t, s.log.sent), s.mc.data, s.mc.dataLeft, s.mc.writeData, s.mc.writeCountdown, [], s.now - 1);
    i := WriteOfPlan(c.t, s.log.sent, m);
  }

  /** The writes whose time CL + AL - 1 + BL / 2 is over, in the order they were sent. */
  function WritesOver(t: Timing, sent: seq<Sent>, now: int): seq<Packet> {
    if |sent| == 0 then []
    else
      var x := sent[|sent|-1];
      WritesOver(t, sent[..|sent|-1], now)
      + (if x.packet.kind.IsWrite() && x.at + t.CL + t.AL - 1 + t.BL / 2 <= now then [Arrive(x.packet)] else [])
  }

  function Over(plan: seq<Burst>, now: int): seq<Packet> {
    if |plan| == 0 then []
    else Over(plan[..|plan|-1], now) + (if plan[|plan|-1].end <= now then [plan[|plan|-1].packet] else [])
  }

  lemma {:induction false} OverOfPlan(t: Timing, sent: seq<Sent>, now: int)
    ensures WritesOver(t, sent, now) == Over(WritePlan(t, sent), now)
  {
    if |sent| > 0 {
      var rest, x := sent[..|sent|-1], sent[|sent|-1];
      OverOfPlan(t, rest, now);
      var plan := WritePlan(t, rest);
      if x.packet.kind.IsWrite() {
        var b := Burst(Arrive(x.packet), x.at + t.CL + t.AL - 1 + t.BL / 2);
        assert (plan + [b])[..|plan + [b]|-1] == plan;
      } else {
        assert plan + [] == plan;
      }
    }
  }

  lemma {:induction false} OverIsFront(plan: seq<Burst>, n: nat, now: int)
    requires n <= |plan| && (forall i :: 0 <= i < n ==> plan[i].end <= now) && (forall i :: n <= i < |plan| ==> plan[i].end > now)
    ensures Over(plan, now) == Packets(plan[..n])
  {
    if |plan| > n {
      var less := plan[..|plan|-1];
      assert less[..n] == plan[..n];
      OverIsFront(less, n, now);
    } else if n > 0 {
      var less := plan[..n-1];
      assert plan[..n] == less + [plan[n-1]] && less[..n-1] == less;
      OverIsFront(less, n - 1, now);
    } else {
      assert plan[..0] == [];
    }
  }

  /** After any run exactly the writes whose time is over have been reported, in the order they
      were sent. */
  lemma WritesReportedOnTime(c: Config, events: seq<Event>)
    requires c.Valid() && Legal(c, events)
    ensures After(c, events).log.written == WritesOver(c.t, After(c, events).log.sent, After(c, events).now - 1)
  {
    hide Run, Inv, Legal, WritePlan, ReadsScheduled, Bursts, Packets, Over, WritesOver;
    RunOnSchedule(c, events);
    var s := After(c, events);
    var plan, under := WritePlan(c.t, s.log.sent), WriteBursts(c, s.mc, s.now - 1);
    OverOfPlan(c.t, s.log.sent, s.now - 1);
    var n := |plan| - |under|;
    forall i | n <= i < |plan| ensures plan[i].end > s.now - 1 { assert plan[i] == plan[n..][i - n]; }
    OverIsFront(plan, n, s.now - 1);
  }

  lemma {:induction false} DeliveredIn(c: Config, ranks: seq<RankState>, n: nat, r: nat, p: Packet)
    requires r < n <= |ranks| && RankTick(c, ranks[r]).0 == Some(p)
    ensures p in Deliveries(c, ranks, n)
  {
    hide RankTick;
    if r < n - 1 {
      DeliveredIn(c, ranks, n - 1, r, p);
    } else {
      assert Deliveries(c, ranks, n) == Deliveries(c, ranks, n - 1) + [p];
    }
  }

  lemma PassKeepsReturns(c: Config, s: System)
    requires TickRanks(c, s).Some? && DeliverCommand(c, TickTable(c, TickRanks(c, s).value)).Some?
    requires var s2 := DeliverCommand(c, TickTable(c, TickRanks(c, s).value)).value;
             Pass(c, s) == LaunchWrite(c, FinishWrite(c, s2)) && Pass(c, s).Some?
    ensures Pass(c, s).value.mc.toReturn == s.mc.toReturn + Deliveries(c, s.ranks, |s.ranks|)
  {
    hide Deliveries, RankTick, Pass;
  }

  /** In the cycle its data is through, 1 + CL + AL + BL / 2 after the command, a read is with the
      controller, which returns one of them a cycle. */
  lemma ReadsArriveOnTime(c: Config, events: seq<Event>, i: nat)
    requires c.Valid() && Legal(c, events) && i < |After(c, events).log.sent|
    requires var x := After(c, events).log.sent[i];
             && x.packet.kind.IsRead() && x.packet.rank < c.ranks
             && After(c, events).now == x.at + 1 + c.t.CL + c.t.AL + c.t.BL / 2
    ensures Pass(c, After(c, events)).Some?
    ensures Arrive(After(c, events).log.sent[i].packet) in Pass(c, After(c, events)).value.mc.toReturn
  {
    hide Run, Inv, Legal, Pass, TickRanks, DeliverCommand, TickTable, LaunchWrite, FinishWrite, Deliveries, RankTick;
    var s := After(c, events);
    var x := s.log.sent[i];
    ReadDataOnTime(c, events, i);
    PassPipes(c, s);
    InvShape(c, s);
    PassKeepsReturns(c, s);
    RankPipeTicks(c, s.ranks[x.packet.rank]);
    DeliveredIn(c, s.ranks, |s.ranks|, x.packet.rank, Arrive(x.packet));
  }
}
