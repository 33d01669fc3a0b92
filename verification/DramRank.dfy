/** Rank as the simulator runs it: every received packet rewrites the rank's own bank table.
    Each method is proved against the specification in DramSystem. */
module DramRank {
  import opened Wrappers
  import opened DramTypes
  import opened DramBanks
  import opened DramSystem

  class Rank {
    const c: Config
    var banks: seq<Bank>
    var isPowerDown: bool
    var refreshWaiting: bool
    var outgoing: Option<Packet>
    var dataLeft: int
    var returnPackets: seq<Packet>
    var returnCountdown: seq<int>

    function State(): RankState
      reads this
    {
      RankState(banks, isPowerDown, refreshWaiting, outgoing, dataLeft, returnPackets, returnCountdown)
    }

    ghost predicate Valid()
      reads this
    {
      |banks| == c.banks && |returnPackets| == |returnCountdown|
    }

    constructor (c: Config)
      ensures this.c == c && Valid() && State() == FreshRank(c)
    {
      this.c := c;
      banks := seq(c.banks, j => FRESH_BANK);
      isPowerDown, refreshWaiting, outgoing, dataLeft := false, false, None, 0;
      returnPackets, returnCountdown := [], [];
    }

    /** receiveFromBus: false is the exit on a command that is not allowed. */
    method ReceiveFromBus(p: Packet, now: int) returns (ok: bool)
      requires Valid() && p.bank < c.banks
      modifies this
      ensures match Receive(c, old(State()), p, now)
              case None => !ok
              case Some(r) => ok && Valid() && State() == r
    {
      if p.kind.IsColumn() {
        ok := ReceiveColumn(p, now);
      } else {
        ok := ReceiveRow(p, now);
      }
    }

    method ReceiveColumn(p: Packet, now: int) returns (ok: bool)
      requires Valid() && p.bank < c.banks && p.kind.IsColumn()
      modifies this
      ensures match Receive(c, old(State()), p, now)
              case None => !ok
              case Some(r) => ok && Valid() && State() == r
    {
      ghost var was := banks;
      var b := banks[p.bank];
      match p.kind {
        case READ =>
          if b.phase != RowActive || now < b.nextRead || p.row != b.openRow { return false; }
          banks := banks[p.bank := b.(nextPrecharge := Max(b.nextPrecharge, now + c.t.ReadToPre()))];
          DelayColumns(now + c.t.ColumnGap(), now + c.t.ReadToWrite());
          ReturnLater(p);
        case READ_P =>
          if b.phase != RowActive || now < b.nextRead || p.row != b.openRow { return false; }
          banks := banks[p.bank := b.(phase := Idle, nextActivate := Max(b.nextActivate, now + c.t.ReadAutopre()))];
          DelayColumns(now + c.t.ColumnGap(), now + c.t.ReadToWrite());
          ReturnLater(p);
        case WRITE =>
          if b.phase != RowActive || now < b.nextWrite || p.row != b.openRow { return false; }
          banks := banks[p.bank := b.(nextPrecharge := Max(b.nextPrecharge, now + c.t.WriteToPre()))];
          DelayColumns(now + c.t.WriteToReadSameRank(), now + c.t.ColumnGap());
        case WRITE_P =>
          if b.phase != RowActive || now < b.nextWrite || p.row != b.openRow { return false; }
          banks := banks[p.bank := b.(phase := Idle, nextActivate := Max(b.nextActivate, now + c.t.WriteAutopre()))];
          DelayColumns(now + c.t.WriteToReadSameRank(), now + c.t.ColumnGap());
      }
      ok := true;
      assert banks == TakeBanks(c, was, p, now);
    }

    method ReceiveRow(p: Packet, now: int) returns (ok: bool)
      requires Valid() && p.bank < c.banks && !p.kind.IsColumn()
      modifies this
      ensures match Receive(c, old(State()), p, now)
              case None => !ok
              case Some(r) => ok && Valid() && State() == r
    {
      ghost var was := banks;
      var b := banks[p.bank];
      match p.kind {
        case ACTIVATE =>
          if b.phase != Idle || now < b.nextActivate { return false; }
          banks := banks[p.bank := b.(phase := RowActive, nextActivate := now + c.t.tRC, openRow := p.row,
                                      nextWrite := now + (c.t.tRCD - c.t.AL), nextRead := now + (c.t.tRCD - c.t.AL),
                                      nextPrecharge := now + c.t.tRAS)];
          DelayOtherActivates(p.bank, now + c.t.tRRD);
        case PRECHARGE =>
          if b.phase != RowActive || now < b.nextPrecharge { return false; }
          banks := banks[p.bank := b.(phase := Idle, nextActivate := Max(b.nextActivate, now + c.t.tRP))];
        case REFRESH =>
          refreshWaiting := false;
          ok := RefreshBanks(now);
          if !ok { return false; }
        case DATA =>
      }
      ok := true;
      assert banks == TakeBanks(c, was, p, now);
    }

    /** The next read and write of every bank wait at least until these cycles. */
    method DelayColumns(read: int, write: int)
      requires Valid()
      modifies this`banks
      ensures |banks| == old(|banks|)
      ensures forall k :: 0 <= k < |banks| ==>
        banks[k] == old(banks[k]).(nextRead := Max(old(banks[k]).nextRead, read), nextWrite := Max(old(banks[k]).nextWrite, write))
    {
      for i := 0 to c.banks
        invariant |banks| == c.banks
        invariant forall k :: 0 <= k < i ==>
          banks[k] == old(banks[k]).(nextRead := Max(old(banks[k]).nextRead, read), nextWrite := Max(old(banks[k]).nextWrite, write))
        invariant forall k :: i <= k < c.banks ==> banks[k] == old(banks[k])
      {
        var b := banks[i];
        banks := banks[i := b.(nextRead := Max(b.nextRead, read), nextWrite := Max(b.nextWrite, write))];
      }
    }

    /** The next ACTIVATE of every other bank waits at least until this cycle. */
    method DelayOtherActivates(own: nat, until: int)
      requires Valid()
      modifies this`banks
      ensures |banks| == old(|banks|)
      ensures forall k :: 0 <= k < |banks| ==>
        banks[k] == if k == own then old(banks[k]) else old(banks[k]).(nextActivate := Max(old(banks[k]).nextActivate, until))
    {
      for i := 0 to c.banks
        invariant |banks| == c.banks
        invariant forall k :: 0 <= k < i ==>
          banks[k] == if k == own then old(banks[k]) else old(banks[k]).(nextActivate := Max(old(banks[k]).nextActivate, until))
        invariant forall k :: i <= k < c.banks ==> banks[k] == old(banks[k])
      {
        if i != own {
          banks := banks[i := banks[i].(nextActivate := Max(banks[i].nextActivate, until))];
        }
      }
    }

    /** REFRESH: every bank must be idle. */
    method RefreshBanks(now: int) returns (ok: bool)
      requires Valid()
      modifies this`banks
      ensures |banks| == old(|banks|)
      ensures ok <==> forall j :: 0 <= j < |old(banks)| ==> old(banks)[j].phase == Idle
      ensures ok ==> forall k :: 0 <= k < |banks| ==> banks[k] == old(banks[k]).(nextActivate := now + c.t.tRFC)
    {
      for i := 0 to c.banks
        invariant |banks| == c.banks
        invariant forall k :: 0 <= k < i ==>
          old(banks)[k].phase == Idle && banks[k] == old(banks[k]).(nextActivate := now + c.t.tRFC)
        invariant forall k :: i <= k < c.banks ==> banks[k] == old(banks[k])
      {
        if banks[i].phase != Idle { return false; }
        banks := banks[i := banks[i].(nextActivate := now + c.t.tRFC)];
      }
      ok := true;
    }

    /** Read data comes out after the read latency. */
    method ReturnLater(p: Packet)
      modifies this`returnPackets, this`returnCountdown
      ensures returnPackets == old(returnPackets) + [Arrive(p)] && returnCountdown == old(returnCountdown) + [c.t.RL()]
    {
      returnPackets := returnPackets + [Arrive(p)];
      returnCountdown := returnCountdown + [c.t.RL()];
    }

    /** Set by the controller when a refresh of this rank is due. */
    method WaitForRefresh()
      requires Valid()
      modifies this`refreshWaiting
      ensures Valid() && State() == old(State()).(refreshWaiting := true)
    {
      refreshWaiting := true;
    }

    /** update: the packet whose time on the data bus ended, if any. */
    method Update() returns (done: Option<Packet>)
      requires Valid()
      modifies this
      ensures Valid() && (done, State()) == RankTick(c, old(State()))
    {
      done := None;
      if outgoing.Some? {
        dataLeft := dataLeft - 1;
        if dataLeft == 0 {
          done := outgoing;
          outgoing := None;
        }
      }
      var n := |returnCountdown|;
      ghost var before := State();
      for i := 0 to n
        invariant |returnCountdown| == n && n == old(|returnCountdown|)
        invariant forall k :: 0 <= k < i ==> returnCountdown[k] == old(returnCountdown)[k] - 1
        invariant forall k :: i <= k < n ==> returnCountdown[k] == old(returnCountdown)[k]
        invariant State() == before.(returnCountdown := returnCountdown)
      {
        returnCountdown := returnCountdown[i := returnCountdown[i] - 1];
      }
      assert returnCountdown == Down1(old(returnCountdown));
      if n > 0 && returnCountdown[0] == 0 {
        outgoing := Some(returnPackets[0]);
        dataLeft := c.t.Burst();
        returnPackets := returnPackets[1..];
        returnCountdown := returnCountdown[1..];
      }
    }

    /** powerDown: false is the exit when a bank is not idle. */
    method PowerDownRank(now: int) returns (ok: bool)
      requires Valid()
      modifies this
      ensures match RankPowerDown(c, old(State()), now)
              case None => !ok
              case Some(r) => ok && Valid() && State() == r
    {
      ghost var before := State();
      for i := 0 to c.banks
        invariant |banks| == c.banks && State() == before.(banks := banks)
        invariant forall k :: 0 <= k < i ==> old(banks)[k].phase == Idle && banks[k] == PowerDownBank(c, old(banks)[k], now)
        invariant forall k :: i <= k < c.banks ==> banks[k] == old(banks)[k]
      {
        if banks[i].phase != Idle { return false; }
        banks := banks[i := banks[i].(nextPowerUp := now + c.t.tCKE, phase := PowerDown)];
      }
      isPowerDown := true;
      assert banks == PowerDownRow(c, old(banks), now);
      ok := true;
    }

    /** powerUp: false is the exit when the rank is up already, or still has to stay down. */
    method PowerUpRank(now: int) returns (ok: bool)
      requires Valid()
      modifies this
      ensures match RankPowerUp(c, old(State()), now)
              case None => !ok
              case Some(r) => ok && Valid() && State() == r
    {
      if !isPowerDown { return false; }
      isPowerDown := false;
      ghost var before := State();
      for i := 0 to c.banks
        invariant |banks| == c.banks && State() == before.(banks := banks)
        invariant forall k :: 0 <= k < i ==> old(banks)[k].nextPowerUp <= now && banks[k] == PowerUpBank(c, old(banks)[k], now)
        invariant forall k :: i <= k < c.banks ==> banks[k] == old(banks)[k]
      {
        if banks[i].nextPowerUp > now { return false; }
        banks := banks[i := banks[i].(nextActivate := now + c.t.tXP, phase := Idle)];
      }
      assert banks == PowerUpRow(c, old(banks), now);
      ok := true;
    }
  }
}
