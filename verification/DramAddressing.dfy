/** What the address mapping means for a DRAM channel: when every address lands on a rank and a
    bank the channel has. */
module DramAddressing {
  import opened Arithmetic
  import opened AddressMapping
  import Dram = DramTypes
  import DramSystem
  import DramTheorems
  import DramDataBus
  import DramDistances
  import DramGaps
  import DramPromises

  // ---- the channel -------------------------------------------------------------------

  /** The channel decodes addresses with this scheme, and its widths are the logarithms that
      dramsim_log2 gives for its ranks and banks. */
  ghost predicate Decodes(c: Dram.Config, s: Scheme, w: Widths) {
    && (forall a: nat :: var l := Locate(s, w, a); c.locate(a) == Dram.Location(l.rank, l.bank, l.row, l.column))
    && IsLog(c.ranks, w.rank) && IsLog(c.banks, w.bank)
  }

  /** What Log2 promises. */
  predicate IsLog(value: nat, log: nat) {
    value <= Pow2(log) && (log > 0 ==> Pow2(log - 1) < value)
  }

  /** Exactly when the numbers of ranks and banks are powers of two, every address is mapped
      to a rank and a bank the channel has. */
  lemma EveryAddressInRange(c: Dram.Config, s: Scheme, w: Widths)
    requires Decodes(c, s, w)
    ensures (forall a: nat :: c.InRange(a)) <==>
              (exists n: nat :: c.ranks == Pow2(n)) && (exists n: nat :: c.banks == Pow2(n))
  {
    hide Pow2, High, Low, FieldOf;
    PowerIsItsLog(c.ranks, w.rank);
    PowerIsItsLog(c.banks, w.bank);
    if c.ranks == Pow2(w.rank) && c.banks == Pow2(w.bank) {
      forall a: nat ensures c.InRange(a) {
        FieldFits(w, Order(s), High(a, w.low), Rank);
        FieldFits(w, Order(s), High(a, w.low), Bank);
      }
    } else {
      var l := Location(0, Pow2(w.rank) - 1, Pow2(w.bank) - 1, 0, 0);
      forall f: Field ensures l.Of(f) < Pow2(w.Of(f)) { PowPositive(w.Of(f)); }
      var a := EveryLocation(s, w, l);
      assert !c.InRange(a);
    }
  }

  /** One rank, three banks, two bits for them: address 3 goes to a bank that is not there. */
  lemma ThreeBanks(c: Dram.Config)
    requires c.ranks == 1 && c.banks == 3 && Decodes(c, Scheme1, Widths(0, 0, 2, 0, 0, 0))
    ensures !c.InRange(3)
  {
    var w := Widths(0, 0, 2, 0, 0, 0);
    assert Pow2(1) == 2 && Pow2(2) == 4;
    HighZero(3);
    assert Locate(Scheme1, w, 3).bank == Low(3, 2) == 3;
  }

  lemma PowerIsItsLog(value: nat, log: nat)
    requires IsLog(value, log)
    ensures value == Pow2(log) <==> exists n: nat :: value == Pow2(n)
  {
    forall n: nat | value == Pow2(n) ensures value == Pow2(log) {
      if n < log { PowMonotone(n, log - 1); }
      if log < n { PowStrict(log, n); }
    }
  }

  /** So every sequence of requests and cycles is legal for such a channel, and none ends in an
      error exit. */
  lemma EveryRunSucceeds(c: Dram.Config, s: Scheme, w: Widths, events: seq<DramSystem.Event>)
    requires c.Valid() && Decodes(c, s, w)
    requires (exists n: nat :: c.ranks == Pow2(n)) && (exists n: nat :: c.banks == Pow2(n))
    ensures DramTheorems.Legal(c, events) && DramSystem.Run(c, events).Some?
  {
    EveryAddressInRange(c, s, w);
    hide DramSystem.Run, DramTheorems.Inv;
    DramTheorems.NoErrorExit(c, events);
  }

  // ---- the channels there are --------------------------------------------------------

  /** The timing of every kind of device file. */
  const DEVICES := [
    Dram.Timing(11, 0, 8, 28, 11, 5, 39, 11, 4, 6, 6, 12, 1, 88, 24, 4, 5, 1),
    Dram.Timing(10, 0, 8, 24, 10, 4, 34, 10, 4, 5, 5, 10, 1, 74, 20, 4, 4, 1),
    Dram.Timing(10, 0, 8, 24, 10, 4, 34, 10, 4, 5, 5, 10, 1, 107, 20, 4, 4, 1),
    Dram.Timing(5, 0, 8, 15, 5, 4, 20, 5, 4, 4, 4, 6, 1, 64, 16, 3, 3, 1),
    Dram.Timing(5, 0, 4, 18, 5, 3, 23, 5, 2, 3, 3, 6, 1, 51, 14, 3, 2, 1),
    Dram.Timing(4, 0, 4, 14, 4, 3, 18, 4, 2, 3, 3, 5, 1, 43, 13, 3, 2, 1),
    Dram.Timing(4, 0, 4, 14, 4, 3, 18, 4, 2, 3, 3, 5, 1, 35, 13, 3, 2, 1),
    Dram.Timing(11, 0, 4, 20, 14, 6, 34, 14, 4, 6, 6, 12, 1, 1, 29, 4, 5, 1),
    Dram.Timing(11, 0, 4, 23, 17, 8, 40, 17, 4, 6, 6, 12, 1, 1, 36, 4, 5, 1),
    Dram.Timing(11, 0, 4, 28, 22, 10, 50, 22, 4, 6, 6, 12, 1, 1, 48, 4, 5, 1)]

  /** `c` with two to the widths ranks and banks, decoding addresses with the scheme. */
  function Channel(c: Dram.Config, s: Scheme, w: Widths): Dram.Config {
    c.(ranks := Pow2(w.rank), banks := Pow2(w.bank),
       locate := (a: nat) => var l := Locate(s, w, a); Dram.Location(l.rank, l.bank, l.row, l.column))
  }

  /** For every device file, policy, queue structure, mapping scheme and width: no sequence of
      requests and cycles, whatever the addresses, ends in an error exit. */
  lemma EveryDeviceRuns(c: Dram.Config, s: Scheme, w: Widths, events: seq<DramSystem.Event>)
    requires c.t in DEVICES && c.totalRowAccesses >= 1
    ensures Channel(c, s, w).Valid() && DramSystem.Run(Channel(c, s, w), events).Some?
  {
    hide DramSystem.Run, DramTheorems.Legal, Locate;
    var d := Channel(c, s, w);
    DevicesAreValid(c.t);
    ChannelDecodes(c, s, w);
    EveryRunSucceeds(d, s, w, events);
  }

  /** And on its data bus the bursts of any two column commands are one after the other. */
  lemma EveryDeviceSharesItsBus(c: Dram.Config, s: Scheme, w: Widths, events: seq<DramSystem.Event>, i: nat, j: nat)
    requires c.t in DEVICES && c.totalRowAccesses >= 1
    requires Channel(c, s, w).Valid() && DramTheorems.Legal(Channel(c, s, w), events)
    requires var sent := DramPromises.After(Channel(c, s, w), events).log.sent;
             i < j < |sent| && sent[i].packet.kind.IsColumn() && sent[j].packet.kind.IsColumn()
    ensures var sent := DramPromises.After(Channel(c, s, w), events).log.sent;
            DramDataBus.DataStart(c.t, sent[i]) + c.t.Burst() <= DramDataBus.DataStart(c.t, sent[j])
  {
    hide DramSystem.Run, DramTheorems.Legal, DramTheorems.Inv, Locate, DramDataBus.DataStart;
    DevicesAreValid(c.t);
    DramPromises.BurstsNeverMeet(Channel(c, s, w), events, i, j);
  }

  /** The devices whose row cycle is no longer than the shortest way over a sleep in close page. */
  const ROW_CYCLE_COVERED := [DEVICES[3], DEVICES[7], DEVICES[8], DEVICES[9]]

  lemma DeviceDistances(c: Dram.Config)
    requires c.t in DEVICES
    ensures DramDistances.SleepCovers(c, Dram.READ_P, c.t.AL + c.t.tRTP + c.t.tRP)
    ensures DramDistances.SleepCovers(c, Dram.ACTIVATE, c.t.tRRD)
    ensures DramDistances.SleepCovers(c, Dram.ACTIVATE, c.t.tRC) <==>
              (c.policy == Dram.OpenPage || !c.lowPower || c.t in ROW_CYCLE_COVERED)
    ensures forall k: Dram.Kind, toRead: bool :: k.IsColumn() && (k.IsAuto() <==> c.policy == Dram.ClosePage) ==> DramGaps.ReopeningCovers(c, k, toRead)
    ensures c.t.tWTR <= c.t.tWR + c.t.tRP + c.t.tRCD - c.t.AL && c.t.tRP >= 1 && c.t.tRFC >= 1
  {
    var i :| 0 <= i < |DEVICES| && DEVICES[i] == c.t;
    assert ROW_CYCLE_COVERED[0] in ROW_CYCLE_COVERED && ROW_CYCLE_COVERED[1] in ROW_CYCLE_COVERED;
    assert ROW_CYCLE_COVERED[2] in ROW_CYCLE_COVERED && ROW_CYCLE_COVERED[3] in ROW_CYCLE_COVERED;
  }

  /** With any device file every run keeps the distances to an ACTIVATE, except that in close
      page with low power the row cycle time is kept by four of the ten timings only. */
  lemma EveryDeviceWaitsToActivate(c: Dram.Config, s: Scheme, w: Widths, events: seq<DramSystem.Event>, x: DramSystem.Sent, y: DramSystem.Sent)
    requires c.t in DEVICES && c.totalRowAccesses >= 1
    requires Channel(c, s, w).Valid() && DramTheorems.Legal(Channel(c, s, w), events)
    requires DramDistances.TwoSent(Channel(c, s, w), events, x, y) && y.packet.kind == Dram.ACTIVATE
    ensures var t, k, d := c.t, x.packet.kind, y.at - x.at;
            && (k == Dram.REFRESH ==> d >= t.tRFC)
            && (k == Dram.ACTIVATE && x.packet.bank != y.packet.bank ==> d >= t.tRRD)
            && (x.packet.bank == y.packet.bank ==>
                  && (k == Dram.PRECHARGE ==> d >= t.tRP)
                  && (k == Dram.WRITE_P ==> d >= t.CL + t.AL - 1 + t.BL / 2 + t.tWR + t.tRP)
                  && (k == Dram.READ_P ==> d >= t.AL + t.tRTP + t.tRP)
                  && (k == Dram.ACTIVATE && (c.policy == Dram.OpenPage || !c.lowPower || t in ROW_CYCLE_COVERED) ==> d >= t.tRC))
  {
    hide DramSystem.Run, DramTheorems.Legal, DramTheorems.Inv, Locate, DramDistances.TwoSent, DramDistances.SleepCovers;
    DeviceDistances(Channel(c, s, w));
    DramDistances.ActivateDistances(Channel(c, s, w), events, x, y);
  }

  lemma DevicesAreValid(t: Dram.Timing)
    requires t in DEVICES
    ensures t.Valid() && DramDataBus.TurnsAround(t)
  {
    var i :| 0 <= i < |DEVICES| && DEVICES[i] == t;
  }

  lemma ChannelDecodes(c: Dram.Config, s: Scheme, w: Widths)
    ensures Decodes(Channel(c, s, w), s, w)
    ensures Channel(c, s, w).ranks == Pow2(w.rank) && Channel(c, s, w).banks == Pow2(w.bank)
  {
    hide Locate;
    if w.rank > 0 { PowStrict(w.rank - 1, w.rank); }
    if w.bank > 0 { PowStrict(w.bank - 1, w.bank); }
  }
}
