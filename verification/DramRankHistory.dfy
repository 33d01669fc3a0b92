/** What a rank lets through, told by the commands it has received: an independent account of its
    bank table, in the raw timing parameters. */
module DramRankHistory {
  import opened Wrappers
  import opened DramTypes
  import opened DramBanks
  import opened DramSystem
  import opened DramGaps
  import opened DramLimits

  /** What happens to a rank: it receives a command, is powered down or up, is updated, or is told
      that a refresh is coming. */
  datatype RankEvent =
    | Command(packet: Packet, at: nat)
    | Sleep(at: nat)
    | Wake(at: nat)
    | Update
    | Expect

  /** The rank after these calls; None once one of them has ended in an error exit. */
  function RankRun(c: Config, h: seq<RankEvent>): Option<RankState> {
    if |h| == 0 then Some(FreshRank(c))
    else
      match RankRun(c, h[..|h|-1])
      case None => None
      case Some(r) => RankStep(c, r, h[|h|-1])
  }

  function RankStep(c: Config, r: RankState, e: RankEvent): Option<RankState> {
    match e
    case Command(p, at) => Receive(c, r, p, at)
    case Sleep(at) => RankPowerDown(c, r, at)
    case Wake(at) => RankPowerUp(c, r, at)
    case Update => Some(RankTick(c, r).1)
    case Expect => Some(r.(refreshWaiting := true))
  }

  function TimeOf(e: RankEvent): nat { if e.Update? || e.Expect? then 0 else e.at }

  // ---- what the history says -----------------------------------------------------------------

  predicate Opens(e: RankEvent, j: nat) { e.Command? && e.packet.kind == ACTIVATE && e.packet.bank == j }

  predicate Shuts(e: RankEvent, j: nat) {
    e.Command? && e.packet.bank == j && (e.packet.kind.IsAuto() || e.packet.kind == PRECHARGE)
  }

  /** Event i is the last that opened or shut bank j. */
  ghost predicate LastOf(h: seq<RankEvent>, i: nat, j: nat) {
    && i < |h| && (Opens(h[i], j) || Shuts(h[i], j))
    && forall k :: i < k < |h| ==> !Opens(h[k], j) && !Shuts(h[k], j)
  }

  ghost predicate OpenedBy(h: seq<RankEvent>, i: nat, j: nat) { LastOf(h, i, j) && Opens(h[i], j) }

  ghost predicate IsOpen(h: seq<RankEvent>, j: nat) { exists i: nat :: OpenedBy(h, i, j) }

  ghost predicate IsOpenOn(h: seq<RankEvent>, j: nat, row: nat) {
    exists i: nat :: OpenedBy(h, i, j) && h[i].packet.row == row
  }

  /** Event i put the rank to sleep and nothing has woken it up. */
  ghost predicate AsleepSince(h: seq<RankEvent>, i: nat) {
    i < |h| && h[i].Sleep? && forall k :: i < k < |h| ==> !h[k].Wake? && !h[k].Sleep?
  }

  ghost predicate IsAsleep(h: seq<RankEvent>) { exists i: nat :: AsleepSince(h, i) }

  /** The event has a say in this limit of bank j. */
  predicate Counts(w: Limit, e: RankEvent, j: nat) {
    match e
    case Command(p, _) => Binds(w, p, p.rank, j)
    case Wake(_) => w == ToActivate
    case _ => false
  }

  /** Its distance, in raw parameters. */
  function Distance(t: Timing, w: Limit, e: RankEvent, j: nat): int
    requires Counts(w, e, j)
  {
    if e.Wake? then t.tXP else GapTo(t, w, e.packet, e.packet.rank, j)
  }

  /** The event makes the rank forget this limit: it sets it anew. */
  predicate Restarts(w: Limit, e: RankEvent, j: nat) {
    if w == ToActivate then e.Wake? || (e.Command? && e.packet.kind == REFRESH) else Opens(e, j)
  }

  ghost predicate Remembered(w: Limit, h: seq<RankEvent>, i: nat, j: nat) {
    i < |h| && Counts(w, h[i], j) && forall k :: i < k < |h| ==> !Restarts(w, h[k], j)
  }

  /** Every event remembered is at least its distance ago. */
  ghost predicate Waited(t: Timing, w: Limit, h: seq<RankEvent>, j: nat, now: int) {
    forall i: nat :: Remembered(w, h, i, j) ==> now >= TimeOf(h[i]) + Distance(t, w, h[i], j)
  }

  /** What the rank must let through, and nothing else. */
  ghost predicate Allowed(c: Config, h: seq<RankEvent>, e: RankEvent) {
    match e
    case Update => true
    case Expect => true
    case Sleep(_) => !IsAsleep(h) && forall j: nat :: j < c.banks ==> !IsOpen(h, j)
    case Wake(at) => IsAsleep(h) && forall i: nat :: AsleepSince(h, i) ==> at >= h[i].at + c.t.tCKE
    case Command(p, at) =>
      match p.kind
      case ACTIVATE => !IsAsleep(h) && !IsOpen(h, p.bank) && Waited(c.t, ToActivate, h, p.bank, at)
      case PRECHARGE => IsOpen(h, p.bank) && Waited(c.t, ToPrecharge, h, p.bank, at)
      case REFRESH => !IsAsleep(h) && forall j: nat :: j < c.banks ==> !IsOpen(h, j)
      case DATA => true
      case _ => IsOpenOn(h, p.bank, p.row) && Waited(c.t, if p.kind.IsRead() then ToRead else ToWrite, h, p.bank, at)
  }

  // ---- the bank table tells the same ---------------------------------------------------------

  ghost predicate BankTells(h: seq<RankEvent>, b: Bank, j: nat) {
    && (b.phase == RowActive <==> IsOpen(h, j))
    && (b.phase == RowActive ==> IsOpenOn(h, j, b.openRow))
    && (b.phase == PowerDown <==> IsAsleep(h))
    && (b.phase == Idle || b.phase == RowActive || b.phase == PowerDown)
  }

  lemma OpenOnIsUnique(h: seq<RankEvent>, j: nat, row: nat, row': nat)
    requires IsOpenOn(h, j, row) && IsOpenOn(h, j, row')
    ensures row == row'
  {
    var i: nat :| OpenedBy(h, i, j) && h[i].packet.row == row;
    var i': nat :| OpenedBy(h, i', j) && h[i'].packet.row == row';
    assert i == i';
  }

  lemma OpenedAfter(h: seq<RankEvent>, e: RankEvent, i: nat, j: nat)
    ensures OpenedBy(h + [e], i, j) <==>
              || (i == |h| && Opens(e, j))
              || (OpenedBy(h, i, j) && !Opens(e, j) && !Shuts(e, j))
  {
    hide Opens, Shuts;
    var h' := h + [e];
    assert h'[|h|] == e && forall k :: 0 <= k < |h| ==> h'[k] == h[k];
    if i < |h| && OpenedBy(h', i, j) {
      forall k | i < k < |h| ensures !Opens(h[k], j) && !Shuts(h[k], j) { assert h'[k] == h[k]; }
    }
  }

  /** How one more event moves the row that is open. */
  lemma OpenAfter(h: seq<RankEvent>, e: RankEvent, j: nat, row: nat)
    ensures Opens(e, j) ==> (IsOpenOn(h + [e], j, row) <==> row == e.packet.row)
    ensures Shuts(e, j) ==> !IsOpenOn(h + [e], j, row)
    ensures !Opens(e, j) && !Shuts(e, j) ==> (IsOpenOn(h + [e], j, row) <==> IsOpenOn(h, j, row))
  {
    hide Opens, Shuts;
    OpensOrShuts(e, j);
    var h' := h + [e];
    forall i: nat { OpenedAfter(h, e, i, j); }
    if Opens(e, j) {
      assert OpenedBy(h', |h|, j) && h'[|h|] == e;
    } else if !Shuts(e, j) {
      if i: nat :| OpenedBy(h, i, j) && h[i].Command? && h[i].packet.row == row {
        assert OpenedBy(h', i, j) && h'[i] == h[i];
      }
      if i: nat :| OpenedBy(h', i, j) && h'[i].Command? && h'[i].packet.row == row {
        assert OpenedBy(h, i, j) && h'[i] == h[i];
      }
    }
  }

  lemma OpenIsOpenOn(h: seq<RankEvent>, j: nat)
    ensures IsOpen(h, j) <==> exists row: nat :: IsOpenOn(h, j, row)
  {
    if IsOpen(h, j) {
      var i: nat :| OpenedBy(h, i, j);
      assert IsOpenOn(h, j, h[i].packet.row);
    }
  }

  lemma AsleepAfter(h: seq<RankEvent>, e: RankEvent, i: nat)
    ensures e.Sleep? ==> (AsleepSince(h + [e], i) <==> i == |h|)
    ensures e.Wake? ==> !AsleepSince(h + [e], i)
    ensures !e.Sleep? && !e.Wake? ==> (AsleepSince(h + [e], i) <==> AsleepSince(h, i))
  {
    var h' := h + [e];
    if i < |h| { assert h'[i] == h[i]; assert h'[|h|] == e; }
    if AsleepSince(h', i) && i < |h| {
      forall k | i < k < |h| ensures !h[k].Wake? && !h[k].Sleep? { assert h'[k] == h[k]; }
    }
  }

  lemma SleepAfter(h: seq<RankEvent>, e: RankEvent)
    ensures e.Sleep? ==> IsAsleep(h + [e])
    ensures e.Wake? ==> !IsAsleep(h + [e])
    ensures !e.Sleep? && !e.Wake? ==> (IsAsleep(h + [e]) <==> IsAsleep(h))
  {
    forall i: nat { AsleepAfter(h, e, i); }
    if e.Sleep? { assert AsleepSince(h + [e], |h|); }
    if IsAsleep(h) && !e.Wake? && !e.Sleep? {
      var i: nat :| AsleepSince(h, i);
      assert AsleepSince(h + [e], i);
    }
    if IsAsleep(h + [e]) && !e.Wake? && !e.Sleep? {
      var i: nat :| AsleepSince(h + [e], i);
      assert AsleepSince(h, i);
    }
  }

  ghost predicate RankTells(c: Config, h: seq<RankEvent>, r: RankState) {
    && |r.banks| == c.banks
    && (r.isPowerDown <==> IsAsleep(h))
    && (forall j: nat :: j < c.banks ==> BankTells(h, r.banks[j], j))
    && (forall i: nat, j: nat :: AsleepSince(h, i) && j < c.banks ==> r.banks[j].nextPowerUp == h[i].at + c.t.tCKE)
  }

  lemma StepMovesPhase(c: Config, r: RankState, e: RankEvent, j: nat)
    requires j < |r.banks| && RankStep(c, r, e).Some?
    ensures |RankStep(c, r, e).value.banks| == |r.banks|
    ensures var b, b' := r.banks[j], RankStep(c, r, e).value.banks[j];
            && (Opens(e, j) ==> b.phase == Idle && b'.phase == RowActive && b'.openRow == e.packet.row)
            && (Shuts(e, j) ==> b.phase == RowActive && b'.phase == Idle)
            && (e.Sleep? ==> b.phase == Idle && b'.phase == PowerDown && b'.nextPowerUp == e.at + c.t.tCKE)
            && (e.Wake? ==> r.isPowerDown && b'.phase == Idle)
            && (!e.Sleep? ==> b'.nextPowerUp == b.nextPowerUp)
            && (!Opens(e, j) && !Shuts(e, j) && !e.Sleep? && !e.Wake? ==> b'.phase == b.phase && b'.openRow == b.openRow)
  {
  }

  lemma StepMovesPower(c: Config, r: RankState, e: RankEvent)
    requires RankStep(c, r, e).Some?
    ensures RankStep(c, r, e).value.isPowerDown == if e.Sleep? then true else if e.Wake? then false else r.isPowerDown
  {
  }

  lemma StepKeepsBank(c: Config, h: seq<RankEvent>, r: RankState, e: RankEvent, j: nat)
    requires j < |r.banks| && RankStep(c, r, e).Some? && BankTells(h, r.banks[j], j) && (r.isPowerDown <==> IsAsleep(h))
    ensures |RankStep(c, r, e).value.banks| == |r.banks| && BankTells(h + [e], RankStep(c, r, e).value.banks[j], j)
  {
    hide IsOpen, IsOpenOn, IsAsleep, RankStep, Opens, Shuts;
    SleepAfter(h, e);
    OpenIsOpenOn(h, j);
    OpenIsOpenOn(h + [e], j);
    forall row: nat { OpenAfter(h, e, j, row); }
    StepMovesPhase(c, r, e, j);
    OpensOrShuts(e, j);
    if Opens(e, j) { assert IsOpenOn(h + [e], j, e.packet.row); }
  }

  lemma OpensOrShuts(e: RankEvent, j: nat)
    ensures Opens(e, j) ==> e.Command? && !Shuts(e, j)
    ensures Shuts(e, j) ==> e.Command?
  {
  }

  lemma StepKeepsTelling(c: Config, h: seq<RankEvent>, r: RankState, e: RankEvent)
    requires RankTells(c, h, r) && RankStep(c, r, e).Some?
    ensures RankTells(c, h + [e], RankStep(c, r, e).value)
  {
    hide IsAsleep, BankTells, RankStep;
    var r' := RankStep(c, r, e).value;
    StepMovesPower(c, r, e);
    SleepAfter(h, e);
    SameBanks(c, r, e);
    forall j: nat | j < c.banks ensures BankTells(h + [e], r'.banks[j], j) { StepKeepsBank(c, h, r, e, j); }
    forall i: nat, j: nat | AsleepSince(h + [e], i) && j < c.banks
      ensures r'.banks[j].nextPowerUp == (h + [e])[i].at + c.t.tCKE
    {
      AsleepAfter(h, e, i);
      StepMovesPhase(c, r, e, j);
      SinceIsSleep(h + [e], i);
      if !e.Sleep? { SinceIsSleep(h, i); }
    }
  }

  lemma SinceIsSleep(h: seq<RankEvent>, i: nat)
    requires AsleepSince(h, i)
    ensures i < |h| && h[i].Sleep?
  {
  }

  lemma SameBanks(c: Config, r: RankState, e: RankEvent)
    requires RankStep(c, r, e).Some?
    ensures |RankStep(c, r, e).value.banks| == |r.banks|
  {
  }

  // ---- the limits ----------------------------------------------------------------------------

  /** A limit of the bank table has passed exactly when everything remembered has. */
  ghost predicate LimitTells(t: Timing, w: Limit, h: seq<RankEvent>, b: Bank, j: nat) {
    forall now: nat :: LimitOf(b, w) <= now <==> Waited(t, w, h, j, now)
  }

  /** One event more: the old ones, unless it makes the rank forget them, and itself. */
  lemma WaitedAfter(t: Timing, w: Limit, h: seq<RankEvent>, e: RankEvent, j: nat, now: int)
    ensures Waited(t, w, h + [e], j, now) <==>
              && (Restarts(w, e, j) || Waited(t, w, h, j, now))
              && (Counts(w, e, j) ==> now >= TimeOf(e) + Distance(t, w, e, j))
  {
    hide Counts, Distance, Restarts;
    var h' := h + [e];
    assert Counts(w, e, j) <==> Remembered(w, h', |h|, j);
    forall i: nat | i < |h| ensures Remembered(w, h', i, j) <==> Remembered(w, h, i, j) && !Restarts(w, e, j) {
      assert h'[i] == h[i] && h'[|h|] == e;
      if Remembered(w, h', i, j) {
        forall k | i < k < |h| ensures !Restarts(w, h[k], j) { assert h'[k] == h[k]; }
      }
    }
    if Waited(t, w, h', j, now) && !Restarts(w, e, j) {
      forall i: nat | Remembered(w, h, i, j) ensures now >= TimeOf(h[i]) + Distance(t, w, h[i], j) {
        assert Remembered(w, h', i, j) && h'[i] == h[i];
      }
    }
  }

  /** A limit v that becomes v': the later of the old one and the event's own, or set anew; an
      ACTIVATE comes after its bank's old limit. */
  predicate Moves(t: Timing, w: Limit, e: RankEvent, j: nat, v: int, v': int) {
    if Counts(w, e, j) then
      var own := TimeOf(e) + Distance(t, w, e, j);
      if Restarts(w, e, j) then v' == own
      else v' == Max(v, own) || (v <= TimeOf(e) <= own && v' == own)
    else !Restarts(w, e, j) && v' == v
  }

  lemma TakeMovesRow(c: Config, b: Bank, p: Packet, at: nat, j: nat)
    requires p.kind == ACTIVATE && p.bank == j ==> b.nextActivate <= at
    ensures var b' := TakeBank(c, b, p, at, j);
            && Moves(c.t, ToActivate, Command(p, at), j, b.nextActivate, b'.nextActivate)
            && Moves(c.t, ToPrecharge, Command(p, at), j, b.nextPrecharge, b'.nextPrecharge)
  {
  }

  lemma TakeMovesColumn(c: Config, b: Bank, p: Packet, at: nat, j: nat)
    ensures var b' := TakeBank(c, b, p, at, j);
            && Moves(c.t, ToRead, Command(p, at), j, b.nextRead, b'.nextRead)
            && Moves(c.t, ToWrite, Command(p, at), j, b.nextWrite, b'.nextWrite)
  {
  }

  lemma StepMovesLimit(c: Config, r: RankState, e: RankEvent, w: Limit, j: nat)
    requires j < |r.banks| && RankStep(c, r, e).Some?
    ensures |RankStep(c, r, e).value.banks| == |r.banks|
    ensures Moves(c.t, w, e, j, LimitOf(r.banks[j], w), LimitOf(RankStep(c, r, e).value.banks[j], w))
  {
    hide Moves, TakeBank;
    match e
    case Command(p, at) =>
      TakeMovesRow(c, r.banks[j], p, at, j);
      TakeMovesColumn(c, r.banks[j], p, at, j);
    case _ => OthersMove(c, r, e, w, j);
  }

  lemma OthersMove(c: Config, r: RankState, e: RankEvent, w: Limit, j: nat)
    requires j < |r.banks| && RankStep(c, r, e).Some? && !e.Command?
    ensures |RankStep(c, r, e).value.banks| == |r.banks|
    ensures Moves(c.t, w, e, j, LimitOf(r.banks[j], w), LimitOf(RankStep(c, r, e).value.banks[j], w))
  {
  }

  lemma StepKeepsLimit(c: Config, h: seq<RankEvent>, r: RankState, e: RankEvent, w: Limit, j: nat)
    requires j < |r.banks| && RankStep(c, r, e).Some? && LimitTells(c.t, w, h, r.banks[j], j)
    ensures |RankStep(c, r, e).value.banks| == |r.banks|
    ensures LimitTells(c.t, w, h + [e], RankStep(c, r, e).value.banks[j], j)
  {
    hide Waited, RankStep, Counts, Distance, Restarts, LimitOf;
    StepMovesLimit(c, r, e, w, j);
    forall now: nat { WaitedAfter(c.t, w, h, e, j, now); }
  }

  ghost predicate AllTell(c: Config, h: seq<RankEvent>, r: RankState) {
    && RankTells(c, h, r)
    && (forall w: Limit, j: nat :: j < c.banks ==> LimitTells(c.t, w, h, r.banks[j], j))
  }

  lemma FreshTells(c: Config)
    ensures AllTell(c, [], FreshRank(c))
  {
    forall w: Limit, j: nat | j < c.banks ensures LimitTells(c.t, w, [], FreshRank(c).banks[j], j) {
    }
  }

  lemma {:induction false} HistoryTells(c: Config, h: seq<RankEvent>)
    requires RankRun(c, h).Some?
    ensures AllTell(c, h, RankRun(c, h).value)
  {
    hide RankTells, LimitTells, RankStep, FreshRank;
    if |h| == 0 {
      FreshTells(c);
      assert h == [];
    } else {
      var rest, e := h[..|h|-1], h[|h|-1];
      HistoryTells(c, rest);
      var r := RankRun(c, rest).value;
      assert rest + [e] == h;
      StepKeepsTelling(c, rest, r, e);
      TellsLength(c, rest, r);
      TellsLength(c, h, RankStep(c, r, e).value);
      forall w: Limit, j: nat | j < c.banks ensures LimitTells(c.t, w, h, RankStep(c, r, e).value.banks[j], j) {
        StepKeepsLimit(c, rest, r, e, w, j);
      }
    }
  }

  lemma TellsLength(c: Config, h: seq<RankEvent>, r: RankState)
    requires RankTells(c, h, r)
    ensures |r.banks| == c.banks
  {
  }

  // ---- what is let through -------------------------------------------------------------------

  lemma StepIsAllowed(c: Config, h: seq<RankEvent>, r: RankState, e: RankEvent)
    requires c.banks >= 1 && AllTell(c, h, r) && (e.Command? ==> e.packet.bank < c.banks)
    ensures RankStep(c, r, e).Some? <==> Allowed(c, h, e)
  {
    match e
    case Update =>
    case Expect =>
    case Sleep(at) => SleepIsAllowed(c, h, r, at);
    case Wake(at) => WakeIsAllowed(c, h, r, at);
    case Command(p, at) => CommandIsAllowed(c, h, r, p, at);
  }

  lemma SleepIsAllowed(c: Config, h: seq<RankEvent>, r: RankState, at: nat)
    requires c.banks >= 1 && RankTells(c, h, r)
    ensures RankPowerDown(c, r, at).Some? <==> Allowed(c, h, Sleep(at))
  {
    hide IsOpen, IsOpenOn, IsAsleep, AsleepSince;
    assert BankTells(h, r.banks[0], 0);
    if Allowed(c, h, Sleep(at)) {
      forall j | 0 <= j < |r.banks| ensures r.banks[j].phase == Idle { assert BankTells(h, r.banks[j], j); }
    }
    if AllIdle(r.banks) {
      forall j: nat | j < c.banks ensures !IsOpen(h, j) { assert BankTells(h, r.banks[j], j); }
    }
  }

  lemma WakeIsAllowed(c: Config, h: seq<RankEvent>, r: RankState, at: nat)
    requires c.banks >= 1 && RankTells(c, h, r)
    ensures RankPowerUp(c, r, at).Some? <==> Allowed(c, h, Wake(at))
  {
    hide BankTells;
    if IsAsleep(h) {
      var i: nat :| AsleepSince(h, i);
      assert r.banks[0].nextPowerUp == h[i].at + c.t.tCKE;
      forall k: nat | AsleepSince(h, k) ensures k < |h| && h[k].Sleep? && h[k].at == h[i].at {
        SinceIsSleep(h, k);
        SinceIsSleep(h, i);
        assert r.banks[0].nextPowerUp == h[k].at + c.t.tCKE;
      }
      SinceIsSleep(h, i);
    }
  }

  lemma CommandIsAllowed(c: Config, h: seq<RankEvent>, r: RankState, p: Packet, at: nat)
    requires c.banks >= 1 && AllTell(c, h, r) && p.bank < c.banks
    ensures Receive(c, r, p, at).Some? <==> Allowed(c, h, Command(p, at))
  {
    hide IsOpen, IsOpenOn, IsAsleep, AsleepSince, Waited;
    var b := r.banks[p.bank];
    assert BankTells(h, b, p.bank);
    if p.kind == REFRESH {
      forall j: nat | j < c.banks ensures r.banks[j].phase == Idle <==> !IsAsleep(h) && !IsOpen(h, j) {
        assert BankTells(h, r.banks[j], j);
      }
      assert r.banks[0].phase == Idle <==> !IsAsleep(h) && !IsOpen(h, 0);
    } else if p.kind != DATA {
      var w := match p.kind case ACTIVATE => ToActivate case PRECHARGE => ToPrecharge case _ => if p.kind.IsRead() then ToRead else ToWrite;
      assert LimitTells(c.t, w, h, b, p.bank);
      OpenIsOpenOn(h, p.bank);
      if IsOpenOn(h, p.bank, p.row) && b.phase == RowActive { OpenOnIsUnique(h, p.bank, p.row, b.openRow); }
    }
  }

  /** A rank that has got through any calls gets through the next one if and only if what it has
      received allows it. */
  lemma RankTakesExactly(c: Config, h: seq<RankEvent>, e: RankEvent)
    requires c.banks >= 1 && RankRun(c, h).Some? && (e.Command? ==> e.packet.bank < c.banks)
    ensures RankRun(c, h + [e]).Some? <==> Allowed(c, h, e)
  {
    hide AllTell, Allowed, RankStep;
    HistoryTells(c, h);
    StepIsAllowed(c, h, RankRun(c, h).value, e);
    assert (h + [e])[..|h + [e]|-1] == h;
  }

  // ---- the refresh that is coming ------------------------------------------------------------

  predicate IsRefresh(e: RankEvent) { e.Command? && e.packet.kind == REFRESH }

  /** The rank was told of a refresh that it has not received since. */
  ghost predicate RefreshComing(h: seq<RankEvent>) {
    exists i :: 0 <= i < |h| && h[i].Expect? && forall k :: i < k < |h| ==> !IsRefresh(h[k])
  }

  lemma ComingAfter(h: seq<RankEvent>, e: RankEvent)
    ensures RefreshComing(h + [e]) <==> e.Expect? || (RefreshComing(h) && !IsRefresh(e))
  {
    var h' := h + [e];
    assert h'[|h|] == e && forall k :: 0 <= k < |h| ==> h'[k] == h[k];
    if i :| 0 <= i < |h'| && h'[i].Expect? && forall k :: i < k < |h'| ==> !IsRefresh(h'[k]) {
      if i < |h| {
        forall k | i < k < |h| ensures !IsRefresh(h[k]) { assert h'[k] == h[k]; }
        assert h[i].Expect? && !IsRefresh(h'[|h|]);
      }
    }
    if e.Expect? { assert h'[|h|].Expect?; }
    if i :| 0 <= i < |h| && h[i].Expect? && forall k :: i < k < |h| ==> !IsRefresh(h[k]) {
      assert h'[i].Expect?;
    }
  }

  lemma StepMovesRefresh(c: Config, r: RankState, e: RankEvent)
    requires RankStep(c, r, e).Some?
    ensures RankStep(c, r, e).value.refreshWaiting == (e.Expect? || (r.refreshWaiting && !IsRefresh(e)))
  {
  }

  /** A rank waits for a refresh from being told of it until it receives it. */
  lemma {:induction false} RankAwaitsRefresh(c: Config, h: seq<RankEvent>)
    requires RankRun(c, h).Some?
    ensures RankRun(c, h).value.refreshWaiting <==> RefreshComing(h)
  {
    hide RankStep, RefreshComing;
    if |h| == 0 {
      NothingComing(h);
    } else {
      var rest, e := h[..|h|-1], h[|h|-1];
      RankAwaitsRefresh(c, rest);
      StepMovesRefresh(c, RankRun(c, rest).value, e);
      ComingAfter(rest, e);
      assert rest + [e] == h;
    }
  }

  lemma NothingComing(h: seq<RankEvent>)
    requires h == []
    ensures !RefreshComing(h)
  {
  }
}
