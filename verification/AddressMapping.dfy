/** DRAMSim2's address mapping: the seven orders of shifting fields off an address, and the
    logarithm their widths come from. */
module AddressMapping {
  import opened Arithmetic

  // ---- dramsim_log2 ------------------------------------------------------------------

  /** The ceiling of the logarithm, for a 32-bit value. */
  method Log2(value: nat) returns (log: nat)
    requires value < Pow2(32)
    ensures value <= Pow2(log)
    ensures log > 0 ==> Pow2(log - 1) < value
  {
    hide Pow2, High;
    log := 0;
    var v := value / 2;
    PowZero();
    HighZero(value);
    HighStep(value, 0);
    while v > 0
      invariant v == High(value, log + 1)
      invariant value > 0 ==> Pow2(log) <= value
      invariant log > 0 ==> value > 0
      decreases v
    {
      HighStep(value, log + 1);
      HighPositive(value, log + 1);
      v := v / 2;
      log := log + 1;
    }
    HighPositive(value, log + 1);
    if log > 0 { PowStrict(log - 1, log); }
    if Pow2(log) < value { log := log + 1; }
  }

  /** isPowerOfTwo, for a value of 64 bits, of which dramsim_log2 takes 32: larger powers of
      two are not recognised. */
  method IsPowerOfTwo(x: nat) returns (yes: bool)
    requires x < Pow2(64)
    ensures yes <==> x < Pow2(32) && exists n :: x == Pow2(n)
  {
    hide Pow2;
    var low := x % Pow2(32);
    var log := Log2(low);
    yes := Pow2(log) == x;
    if x < Pow2(32) {
      SmallRemainder(x, Pow2(32));
      forall n | x == Pow2(n) ensures Pow2(log) == x {
        if n < log { PowMonotone(n, log - 1); }
        if log < n { PowStrict(log, n); }
      }
    } else {
      LogOfLow(x, low, log);
    }
  }

  lemma SmallRemainder(x: nat, m: nat)
    requires x < m
    ensures x % m == x
  {
  }

  lemma LogOfLow(x: nat, low: nat, log: nat)
    requires x >= Pow2(32) && low == x % Pow2(32) && (log > 0 ==> Pow2(log - 1) < low)
    ensures Pow2(log) != x
  {
    hide Pow2;
    assert Pow2(32) % Pow2(32) == 0;
    if log < 32 { PowStrict(log, 32); }
    if log > 32 { PowMonotone(32, log - 1); }
  }

  // ---- shifting and masking by exclusive or ------------------------------------------

  /** Bitwise exclusive or. */
  function Xor(a: nat, b: nat): nat
    decreases a + b
  {
    if a == 0 && b == 0 then 0 else 2 * Xor(a / 2, b / 2) + (a + b) % 2
  }

  function ShiftRight(a: nat, w: nat): nat { High(a, w) }
  function ShiftLeft(a: nat, w: nat): nat { a * Pow2(w) }

  /** An address and its upper bits differ in the lower ones. */
  lemma {:induction false} XorKeepsLow(a: nat, w: nat)
    ensures Xor(a, ShiftLeft(ShiftRight(a, w), w)) == Low(a, w)
  {
    hide Pow2, Xor;
    if w == 0 {
      PowZero();
      XorSelf(a);
    } else {
      var p := Pow2(w - 1);
      PowStep(w - 1);
      var h := (a / 2) / p * p;
      HalfStep(a, p);
      Doubled((a / 2) / p, p);
      XorKeepsLow(a / 2, w - 1);
      XorStep(a, h);
    }
  }

  lemma Doubled(q: nat, p: nat)
    ensures q * (2 * p) == 2 * (q * p)
  {
  }

  lemma XorUnfold(a: nat, b: nat)
    ensures Xor(0, 0) == 0
    ensures a > 0 || b > 0 ==> Xor(a, b) == 2 * Xor(a / 2, b / 2) + (a + b) % 2
  {
  }

  lemma EvenPart(a: nat, h: nat)
    ensures (2 * h) / 2 == h && (a + 2 * h) % 2 == a % 2
  {
  }

  lemma XorStep(a: nat, h: nat)
    ensures Xor(a, 2 * h) == 2 * Xor(a / 2, h) + a % 2
  {
    hide Xor;
    XorUnfold(a, 2 * h);
    EvenPart(a, h);
  }

  lemma {:induction false} XorSelf(a: nat)
    ensures Xor(a, a) == 0
  {
    if a > 0 { XorSelf(a / 2); }
  }

  lemma HalfStep(a: nat, p: nat)
    requires p > 0
    ensures a / (2 * p) == (a / 2) / p && a % (2 * p) == 2 * ((a / 2) % p) + a % 2
  {
    var q, r := (a / 2) / p, (a / 2) % p;
    assert a / 2 == q * p + r;
    Doubled(q, p);
    Quotient(a, 2 * p, q, 2 * r + a % 2);
  }

  // ---- the mapping -------------------------------------------------------------------

  datatype Field = Channel | Rank | Bank | Row | Column
  datatype Scheme = Scheme1 | Scheme2 | Scheme3 | Scheme4 | Scheme5 | Scheme6 | Scheme7

  /** Widths in bits; `low` is what an aligned transaction leaves out: byte offset and the low
      bits of the column. */
  datatype Widths = Widths(channel: nat, rank: nat, bank: nat, row: nat, column: nat, low: nat)
  {
    function Of(f: Field): nat {
      match f
      case Channel => channel
      case Rank => rank
      case Bank => bank
      case Row => row
      case Column => column
    }

    /** All bits of an address that is in range. */
    function Total(): nat { low + channel + rank + bank + row + column }
  }

  datatype Location = Location(channel: nat, rank: nat, bank: nat, row: nat, column: nat)
  {
    function Of(f: Field): nat {
      match f
      case Channel => channel
      case Rank => rank
      case Bank => bank
      case Row => row
      case Column => column
    }
  }

  /** The order in which a scheme takes its fields off the address, lowest first. */
  function Order(s: Scheme): seq<Field> {
    match s
    case Scheme1 => [Bank, Column, Row, Rank, Channel]
    case Scheme2 => [Rank, Bank, Column, Row, Channel]
    case Scheme3 => [Row, Column, Bank, Rank, Channel]
    case Scheme4 => [Column, Row, Bank, Rank, Channel]
    case Scheme5 => [Bank, Rank, Column, Row, Channel]
    case Scheme6 => [Column, Rank, Bank, Row, Channel]
    case Scheme7 => [Channel, Bank, Rank, Column, Row]
  }

  /** Put the fields back together, lowest first. */
  function Pack(w: Widths, fs: seq<Field>, l: Location): nat {
    if |fs| == 0 then 0 else l.Of(fs[0]) + Pow2(w.Of(fs[0])) * Pack(w, fs[1..], l)
  }

  function Sum(w: Widths, fs: seq<Field>): nat {
    if |fs| == 0 then 0 else w.Of(fs[0]) + Sum(w, fs[1..])
  }

  /** Field `f` of an address whose fields are, lowest first, `fs`. */
  function FieldOf(w: Widths, fs: seq<Field>, v: nat, f: Field): nat {
    if |fs| == 0 then 0
    else if fs[0] == f then Low(v, w.Of(f))
    else FieldOf(w, fs[1..], High(v, w.Of(fs[0])), f)
  }

  /** Where an address is mapped: the bits that each field stands for. */
  function Locate(s: Scheme, w: Widths, a: nat): Location {
    var fs, v := Order(s), High(a, w.low);
    Location(FieldOf(w, fs, v, Channel), FieldOf(w, fs, v, Rank), FieldOf(w, fs, v, Bank),
             FieldOf(w, fs, v, Row), FieldOf(w, fs, v, Column))
  }

  /** The field at the bottom of the address, and the address without it. */
  method TakeField(address: nat, width: nat) returns (field: nat, rest: nat)
    ensures field < Pow2(width) && address == field + Pow2(width) * rest
  {
    var tempA := address;
    rest := ShiftRight(address, width);
    var tempB := ShiftLeft(rest, width);
    XorKeepsLow(address, width);
    field := Xor(tempA, tempB);
    DivMod(address, Pow2(width));
  }

  /** `l` is where the address is mapped: every field within its width, and the five fields,
      packed in the scheme's order below what is left of the address, are the address without
      its low bits. */
  ghost predicate Maps(s: Scheme, w: Widths, physicalAddress: nat, l: Location, above: nat) {
    && (forall f :: l.Of(f) < Pow2(w.Of(f)))
    && Pack(w, Order(s), l) + Pow2(Sum(w, Order(s))) * above == High(physicalAddress, w.low)
  }

  /** addressMapping. */
  method Map(s: Scheme, w: Widths, physicalAddress: nat) returns (l: Location)
    ensures l == Locate(s, w, physicalAddress)
    ensures exists above :: Maps(s, w, physicalAddress, l, above)
  {
    hide Pow2, High, Low, Xor, FieldOf, Pack, Sum, Maps, Locate;
    var a := ShiftRight(physicalAddress, w.low);
    var channel, rank, bank, row, column: nat;
    var a1, a2, a3, a4, a5: nat;
    match s {
      case Scheme1 =>
        bank, a1 := TakeField(a, w.bank);
        column, a2 := TakeField(a1, w.column);
        row, a3 := TakeField(a2, w.row);
        rank, a4 := TakeField(a3, w.rank);
        channel, a5 := TakeField(a4, w.channel);
      case Scheme2 =>
        rank, a1 := TakeField(a, w.rank);
        bank, a2 := TakeField(a1, w.bank);
        column, a3 := TakeField(a2, w.column);
        row, a4 := TakeField(a3, w.row);
        channel, a5 := TakeField(a4, w.channel);
      case Scheme3 =>
        row, a1 := TakeField(a, w.row);
        column, a2 := TakeField(a1, w.column);
        bank, a3 := TakeField(a2, w.bank);
        rank, a4 := TakeField(a3, w.rank);
        channel, a5 := TakeField(a4, w.channel);
      case Scheme4 =>
        column, a1 := TakeField(a, w.column);
        row, a2 := TakeField(a1, w.row);
        bank, a3 := TakeField(a2, w.bank);
        rank, a4 := TakeField(a3, w.rank);
        channel, a5 := TakeField(a4, w.channel);
      case Scheme5 =>
        bank, a1 := TakeField(a, w.bank);
        rank, a2 := TakeField(a1, w.rank);
        column, a3 := TakeField(a2, w.column);
        row, a4 := TakeField(a3, w.row);
        channel, a5 := TakeField(a4, w.channel);
      case Scheme6 =>
        column, a1 := TakeField(a, w.column);
        rank, a2 := TakeField(a1, w.rank);
        bank, a3 := TakeField(a2, w.bank);
        row, a4 := TakeField(a3, w.row);
        channel, a5 := TakeField(a4, w.channel);
      case Scheme7 =>
        channel, a1 := TakeField(a, w.channel);
        bank, a2 := TakeField(a1, w.bank);
        rank, a3 := TakeField(a2, w.rank);
        column, a4 := TakeField(a3, w.column);
        row, a5 := TakeField(a4, w.row);
    }
    l := Location(channel, rank, bank, row, column);
    FieldsFit(w, l);
    IsMapped(s, w, physicalAddress, l, a, a1, a2, a3, a4, a5);
  }

  lemma FieldsFit(w: Widths, l: Location)
    requires l.channel < Pow2(w.channel) && l.rank < Pow2(w.rank) && l.bank < Pow2(w.bank)
    requires l.row < Pow2(w.row) && l.column < Pow2(w.column)
    ensures forall f: Field :: l.Of(f) < Pow2(w.Of(f))
  {
  }

  lemma IsMapped(s: Scheme, w: Widths, physicalAddress: nat, l: Location, a: nat, a1: nat, a2: nat, a3: nat, a4: nat, a5: nat)
    requires (forall f: Field :: l.Of(f) < Pow2(w.Of(f))) && a == High(physicalAddress, w.low)
    requires var fs := Order(s);
             && a == l.Of(fs[0]) + Pow2(w.Of(fs[0])) * a1 && a1 == l.Of(fs[1]) + Pow2(w.Of(fs[1])) * a2
             && a2 == l.Of(fs[2]) + Pow2(w.Of(fs[2])) * a3 && a3 == l.Of(fs[3]) + Pow2(w.Of(fs[3])) * a4
             && a4 == l.Of(fs[4]) + Pow2(w.Of(fs[4])) * a5
    ensures l == Locate(s, w, physicalAddress)
    ensures exists above :: Maps(s, w, physicalAddress, l, above)
  {
    hide Pow2, High, FieldOf, Pack, Sum, Locate;
    Five(w, Order(s), l, a, a1, a2, a3, a4, a5);
    assert Maps(s, w, physicalAddress, l, a5);
    MapIsLocate(s, w, physicalAddress, l, a5);
  }

  lemma Five(w: Widths, fs: seq<Field>, l: Location, a: nat, a1: nat, a2: nat, a3: nat, a4: nat, a5: nat)
    requires |fs| == 5
    requires a == l.Of(fs[0]) + Pow2(w.Of(fs[0])) * a1 && a1 == l.Of(fs[1]) + Pow2(w.Of(fs[1])) * a2
    requires a2 == l.Of(fs[2]) + Pow2(w.Of(fs[2])) * a3 && a3 == l.Of(fs[3]) + Pow2(w.Of(fs[3])) * a4
    requires a4 == l.Of(fs[4]) + Pow2(w.Of(fs[4])) * a5
    ensures Pack(w, fs, l) + Pow2(Sum(w, fs)) * a5 == a
  {
    hide Pow2;
    PackNone(w, fs[5..], l, a5);
    PackOne(w, fs[4..], l, a4, a5, a5);
    PackOne(w, fs[3..], l, a3, a4, a5);
    PackOne(w, fs[2..], l, a2, a3, a5);
    PackOne(w, fs[1..], l, a1, a2, a5);
    PackOne(w, fs[0..], l, a, a1, a5);
    assert fs[0..] == fs;
  }

  lemma PackNone(w: Widths, fs: seq<Field>, l: Location, above: nat)
    requires fs == []
    ensures Pack(w, fs, l) + Pow2(Sum(w, fs)) * above == above
  {
    PowZero();
  }

  lemma PackOne(w: Widths, fs: seq<Field>, l: Location, v: nat, rest: nat, above: nat)
    requires |fs| > 0 && v == l.Of(fs[0]) + Pow2(w.Of(fs[0])) * rest
    requires Pack(w, fs[1..], l) + Pow2(Sum(w, fs[1..])) * above == rest
    ensures Pack(w, fs, l) + Pow2(Sum(w, fs)) * above == v
  {
    hide Pow2;
    PowAdd(w.Of(fs[0]), Sum(w, fs[1..]));
    Distribute(Pow2(w.Of(fs[0])), Pack(w, fs[1..], l), Pow2(Sum(w, fs[1..])), above);
  }

  lemma Distribute(p: nat, a: nat, q: nat, b: nat)
    ensures p * (a + q * b) == p * a + (p * q) * b
  {
  }

  // ---- the mapping is a bijection ----------------------------------------------------

  /** Fields within their widths pack into the bits they have. */
  lemma {:induction false} PackFits(w: Widths, fs: seq<Field>, l: Location)
    requires forall f :: l.Of(f) < Pow2(w.Of(f))
    ensures Pack(w, fs, l) < Pow2(Sum(w, fs))
  {
    hide Pow2;
    if |fs| == 0 {
      PowZero();
    } else {
      PackFits(w, fs[1..], l);
      PowAdd(w.Of(fs[0]), Sum(w, fs[1..]));
      BelowProduct(l.Of(fs[0]), Pow2(w.Of(fs[0])), Pack(w, fs[1..], l), Pow2(Sum(w, fs[1..])));
    }
  }

  lemma BelowProduct(x: nat, p: nat, y: nat, q: nat)
    requires x < p && y < q
    ensures x + p * y < p * q
  {
    assert p * (y + 1) <= p * q;
  }

  /** What is packed can be told apart again. */
  lemma {:induction false} PackInjective(w: Widths, fs: seq<Field>, l: Location, m: Location)
    requires (forall f :: l.Of(f) < Pow2(w.Of(f))) && (forall f :: m.Of(f) < Pow2(w.Of(f)))
    requires Pack(w, fs, l) == Pack(w, fs, m)
    ensures forall f :: f in fs ==> l.Of(f) == m.Of(f)
  {
    hide Pow2;
    if |fs| > 0 {
      Digits(l.Of(fs[0]), Pack(w, fs[1..], l), m.Of(fs[0]), Pack(w, fs[1..], m), Pow2(w.Of(fs[0])));
      PackInjective(w, fs[1..], l, m);
    }
  }

  lemma Digits(x: nat, y: nat, x': nat, y': nat, p: nat)
    requires x < p && x' < p && x + p * y == x' + p * y'
    ensures x == x' && y == y'
  {
    Quotient(x + p * y, p, y, x);
    Quotient(x' + p * y', p, y', x');
  }

  /** Every scheme takes every field, once. */
  lemma EveryField(s: Scheme, w: Widths)
    ensures forall f: Field :: f in Order(s)
    ensures Sum(w, Order(s)) == w.channel + w.rank + w.bank + w.row + w.column
  {
    forall f: Field ensures f in Order(s) { Taken(s, f); }
    SumOfFive(w, Order(s));
    match s
    case Scheme1 => case Scheme2 => case Scheme3 => case Scheme4 => case Scheme5 => case Scheme6 => case Scheme7 =>
  }

  lemma Taken(s: Scheme, f: Field)
    ensures f in Order(s)
  {
    var o := Order(s);
    assert o[0] in o && o[1] in o && o[2] in o && o[3] in o && o[4] in o;
    match f case Channel => case Rank => case Bank => case Row => case Column =>
  }

  lemma SumOfFive(w: Widths, fs: seq<Field>)
    requires |fs| == 5
    ensures Sum(w, fs) == w.Of(fs[0]) + w.Of(fs[1]) + w.Of(fs[2]) + w.Of(fs[3]) + w.Of(fs[4])
  {
    assert fs[1..][1..] == fs[2..] && fs[2..][1..] == fs[3..] && fs[3..][1..] == fs[4..] && fs[4..][1..] == [];
    assert Sum(w, fs[4..]) == w.Of(fs[4]);
    assert Sum(w, fs[3..]) == w.Of(fs[3]) + w.Of(fs[4]);
    assert Sum(w, fs[2..]) == w.Of(fs[2]) + Sum(w, fs[3..]);
    assert Sum(w, fs[1..]) == w.Of(fs[1]) + Sum(w, fs[2..]);
  }

  /** Fields read off an address are what it is packed from. */
  lemma {:induction false} Unpacked(w: Widths, fs: seq<Field>, l: Location, v: nat) returns (above: nat)
    requires forall i, j :: 0 <= i < j < |fs| ==> fs[i] != fs[j]
    requires forall i :: 0 <= i < |fs| ==> l.Of(fs[i]) == FieldOf(w, fs, v, fs[i])
    ensures Pack(w, fs, l) + Pow2(Sum(w, fs)) * above == v
  {
    hide Pow2;
    if |fs| == 0 {
      above := v;
      PackNone(w, fs, l, v);
    } else {
      var rest := High(v, w.Of(fs[0]));
      forall i | 0 <= i < |fs[1..]| ensures l.Of(fs[1..][i]) == FieldOf(w, fs[1..], rest, fs[1..][i]) {
        assert fs[1..][i] == fs[i + 1];
      }
      above := Unpacked(w, fs[1..], l, rest);
      assert l.Of(fs[0]) == Low(v, w.Of(fs[0]));
      DivMod(v, Pow2(w.Of(fs[0])));
      PackOne(w, fs, l, v, rest, above);
    }
  }

  lemma EveryAddressIsMapped(s: Scheme, w: Widths, a: nat) returns (above: nat)
    ensures Maps(s, w, a, Locate(s, w, a), above)
  {
    hide Pow2, High, Low, FieldOf;
    var v, l := High(a, w.low), Locate(s, w, a);
    forall f: Field ensures l.Of(f) == FieldOf(w, Order(s), v, f) < Pow2(w.Of(f)) { FieldFits(w, Order(s), v, f); }
    above := Unpacked(w, Order(s), l, v);
  }

  /** For each of the seven schemes: two addresses in range are mapped to one location exactly
      when they lie in one transaction-sized block; and the location gives the block back. */
  lemma MappingIsBijective(s: Scheme, w: Widths, a: nat, b: nat)
    requires a < Pow2(w.Total()) && b < Pow2(w.Total())
    ensures Locate(s, w, a) == Locate(s, w, b) <==> High(a, w.low) == High(b, w.low)
    ensures Pack(w, Order(s), Locate(s, w, a)) == High(a, w.low)
  {
    hide Pow2, High, Pack, FieldOf;
    var x := EveryAddressIsMapped(s, w, a);
    var y := EveryAddressIsMapped(s, w, b);
    InRange(s, w, a, Locate(s, w, a), x);
    InRange(s, w, b, Locate(s, w, b), y);
  }

  lemma {:induction false} FieldFits(w: Widths, fs: seq<Field>, v: nat, f: Field)
    ensures FieldOf(w, fs, v, f) < Pow2(w.Of(f))
  {
    hide Pow2, High, Low;
    if |fs| > 0 {
      LowFits(v, w.Of(f));
      FieldFits(w, fs[1..], High(v, w.Of(fs[0])), f);
    } else {
      PowPositive(w.Of(f));
    }
  }

  /** The two descriptions of where an address is mapped agree: what the shifting finds is
      what the fields say, for every scheme and every address. */
  lemma MapIsLocate(s: Scheme, w: Widths, a: nat, l: Location, above: nat)
    requires Maps(s, w, a, l, above)
    ensures l == Locate(s, w, a)
  {
    hide Pow2, High, Low;
    forall f: Field ensures l.Of(f) == Locate(s, w, a).Of(f) {
      EveryField(s, w);
      assert forall g: Field :: l.Of(g) < Pow2(w.Of(g));
      PackedField(w, Order(s), l, above, High(a, w.low), f);
    }
    SameFields(l, Locate(s, w, a));
  }

  lemma {:induction false} PackedField(w: Widths, fs: seq<Field>, l: Location, above: nat, v: nat, f: Field)
    requires f in fs && (forall g :: l.Of(g) < Pow2(w.Of(g)))
    requires Pack(w, fs, l) + Pow2(Sum(w, fs)) * above == v
    ensures FieldOf(w, fs, v, f) == l.Of(f)
  {
    hide Pow2, FieldOf, Pack, Sum;
    var rest := Pack(w, fs[1..], l) + Pow2(Sum(w, fs[1..])) * above;
    PackOne(w, fs, l, l.Of(fs[0]) + Pow2(w.Of(fs[0])) * rest, rest, above);
    TopField(w, fs, v, f, l.Of(fs[0]), rest);
    if fs[0] != f { PackedField(w, fs[1..], l, above, rest, f); }
  }

  lemma TopField(w: Widths, fs: seq<Field>, v: nat, f: Field, x: nat, rest: nat)
    requires |fs| > 0 && x < Pow2(w.Of(fs[0])) && v == x + Pow2(w.Of(fs[0])) * rest
    ensures FieldOf(w, fs, v, f) == if fs[0] == f then x else FieldOf(w, fs[1..], rest, f)
  {
    hide Pow2;
    Quotient(v, Pow2(w.Of(fs[0])), rest, x);
  }

  lemma SameFields(l: Location, m: Location)
    requires forall f: Field :: l.Of(f) == m.Of(f)
    ensures l == m
  {
    assert l.Of(Channel) == m.Of(Channel) && l.Of(Rank) == m.Of(Rank) && l.Of(Bank) == m.Of(Bank);
    assert l.Of(Row) == m.Of(Row) && l.Of(Column) == m.Of(Column);
  }

  /** Nothing is left above the fields of an address in range. */
  lemma InRange(s: Scheme, w: Widths, a: nat, l: Location, above: nat)
    requires a < Pow2(w.Total()) && Maps(s, w, a, l, above)
    ensures above == 0 && Pack(w, Order(s), l) == High(a, w.low)
  {
    hide Pow2;
    EveryField(s, w);
    PowAdd(w.low, Sum(w, Order(s)));
    Quotients(a, Pow2(w.low), Pow2(Sum(w, Order(s))));
    NothingAbove(Pack(w, Order(s), l), Pow2(Sum(w, Order(s))), above, High(a, w.low));
  }

  /** Every location within the widths is where some aligned address in range is mapped. */
  lemma EveryLocation(s: Scheme, w: Widths, l: Location) returns (a: nat)
    requires forall f :: l.Of(f) < Pow2(w.Of(f))
    ensures a < Pow2(w.Total()) && Maps(s, w, a, l, 0) && Locate(s, w, a) == l
  {
    hide Pow2;
    var packed := Pack(w, Order(s), l);
    a := packed * Pow2(w.low);
    PackFits(w, Order(s), l);
    EveryField(s, w);
    PowAdd(w.low, Sum(w, Order(s)));
    Quotient(a, Pow2(w.low), packed, 0);
    BelowProduct(0, Pow2(w.low), packed, Pow2(Sum(w, Order(s))));
    MapIsLocate(s, w, a, l, 0);
  }

  lemma Quotients(a: nat, p: nat, q: nat)
    requires p > 0 && a < p * q
    ensures a / p < q
  {
    var d, r := a / p, a % p;
    assert a == p * d + r;
    if q <= d { MulLe(q, d, p); }
  }

  lemma NothingAbove(x: nat, p: nat, above: nat, v: nat)
    requires x + p * above == v && v < p
    ensures above == 0
  {
    assert above > 0 ==> p * above >= p;
  }

  // ---- where each field lies ---------------------------------------------------------

  /** The lowest bit of a field in the address. */
  function Position(s: Scheme, w: Widths, f: Field): nat {
    match s
    case Scheme1 =>
      (match f
       case Bank => w.low
       case Column => w.low + w.bank
       case Row => w.low + w.bank + w.column
       case Rank => w.low + w.bank + w.column + w.row
       case Channel => w.low + w.bank + w.column + w.row + w.rank)
    case Scheme2 =>
      (match f
       case Rank => w.low
       case Bank => w.low + w.rank
       case Column => w.low + w.rank + w.bank
       case Row => w.low + w.rank + w.bank + w.column
       case Channel => w.low + w.rank + w.bank + w.column + w.row)
    case Scheme3 =>
      (match f
       case Row => w.low
       case Column => w.low + w.row
       case Bank => w.low + w.row + w.column
       case Rank => w.low + w.row + w.column + w.bank
       case Channel => w.low + w.row + w.column + w.bank + w.rank)
    case Scheme4 =>
      (match f
       case Column => w.low
       case Row => w.low + w.column
       case Bank => w.low + w.column + w.row
       case Rank => w.low + w.column + w.row + w.bank
       case Channel => w.low + w.column + w.row + w.bank + w.rank)
    case Scheme5 =>
      (match f
       case Bank => w.low
       case Rank => w.low + w.bank
       case Column => w.low + w.bank + w.rank
       case Row => w.low + w.bank + w.rank + w.column
       case Channel => w.low + w.bank + w.rank + w.column + w.row)
    case Scheme6 =>
      (match f
       case Column => w.low
       case Rank => w.low + w.column
       case Bank => w.low + w.column + w.rank
       case Row => w.low + w.column + w.rank + w.bank
       case Channel => w.low + w.column + w.rank + w.bank + w.row)
    case Scheme7 =>
      (match f
       case Channel => w.low
       case Bank => w.low + w.channel
       case Rank => w.low + w.channel + w.bank
       case Column => w.low + w.channel + w.bank + w.rank
       case Row => w.low + w.channel + w.bank + w.rank + w.column)
  }

  /** Bits of the fields in front of `f`. */
  function Below(w: Widths, fs: seq<Field>, f: Field): nat {
    if |fs| == 0 || fs[0] == f then 0 else w.Of(fs[0]) + Below(w, fs[1..], f)
  }

  lemma BelowOfFive(w: Widths, fs: seq<Field>, f: Field)
    requires |fs| == 5 && f in fs
    ensures fs[0] == f ==> Below(w, fs, f) == 0
    ensures fs[0] != f && fs[1] == f ==> Below(w, fs, f) == w.Of(fs[0])
    ensures fs[0] != f && fs[1] != f && fs[2] == f ==> Below(w, fs, f) == w.Of(fs[0]) + w.Of(fs[1])
    ensures fs[0] != f && fs[1] != f && fs[2] != f && fs[3] == f ==> Below(w, fs, f) == w.Of(fs[0]) + w.Of(fs[1]) + w.Of(fs[2])
    ensures fs[0] != f && fs[1] != f && fs[2] != f && fs[3] != f ==>
              fs[4] == f && Below(w, fs, f) == w.Of(fs[0]) + w.Of(fs[1]) + w.Of(fs[2]) + w.Of(fs[3])
  {
    assert fs[1..][1..] == fs[2..] && fs[2..][1..] == fs[3..] && fs[3..][1..] == fs[4..];
    assert Below(w, fs[3..], f) == if fs[3] == f then 0 else w.Of(fs[3]) + Below(w, fs[4..], f);
    assert Below(w, fs[2..], f) == if fs[2] == f then 0 else w.Of(fs[2]) + Below(w, fs[3..], f);
    assert Below(w, fs[1..], f) == if fs[1] == f then 0 else w.Of(fs[1]) + Below(w, fs[2..], f);
  }

  lemma PositionIs(s: Scheme, w: Widths, f: Field)
    ensures Position(s, w, f) == w.low + Below(w, Order(s), f)
  {
    Taken(s, f);
    BelowOfFive(w, Order(s), f);
    hide Below;
    match s
    case Scheme1 => case Scheme2 => case Scheme3 => case Scheme4 => case Scheme5 => case Scheme6 => case Scheme7 =>
  }

  /** The next location in field `f`. */
  predicate NextIn(f: Field, l: Location, m: Location) {
    m.Of(f) == l.Of(f) + 1 && forall g: Field :: g != f ==> m.Of(g) == l.Of(g)
  }

  lemma {:induction false} PackNext(w: Widths, fs: seq<Field>, l: Location, m: Location, f: Field)
    requires NextIn(f, l, m) && (forall i, j :: 0 <= i < j < |fs| ==> fs[i] != fs[j])
    ensures Pack(w, fs, m) == Pack(w, fs, l) + (if f in fs then Pow2(Below(w, fs, f)) else 0)
  {
    hide Pow2;
    if |fs| > 0 {
      PackNext(w, fs[1..], l, m, f);
      if fs[0] == f {
        PowZero();
        assert f !in fs[1..];
      } else if f in fs {
        PowAdd(w.Of(fs[0]), Below(w, fs[1..], f));
        Spread(Pow2(w.Of(fs[0])), Pack(w, fs[1..], l), Pow2(Below(w, fs[1..], f)));
      }
    }
  }

  lemma Spread(p: nat, a: nat, b: nat)
    ensures p * (a + b) == p * a + p * b
  {
  }

  /** For each scheme and field: the addresses of two locations that differ by one in that field
      and in nothing else lie two to the field's position apart. */
  lemma FieldDistance(s: Scheme, w: Widths, a: nat, b: nat, f: Field)
    requires a < Pow2(w.Total()) && b < Pow2(w.Total()) && Low(a, w.low) == Low(b, w.low)
    requires NextIn(f, Locate(s, w, a), Locate(s, w, b))
    ensures b == a + Pow2(Position(s, w, f))
  {
    hide Pow2, High, Low, Pack, Locate, Position, Below;
    MappingIsBijective(s, w, a, b);
    MappingIsBijective(s, w, b, a);
    OrderDistinct(s);
    PackNext(w, Order(s), Locate(s, w, a), Locate(s, w, b), f);
    Taken(s, f);
    PositionIs(s, w, f);
    PowAdd(w.low, Below(w, Order(s), f));
    Split(a, w.low);
    Split(b, w.low);
    Spread(Pow2(w.low), High(a, w.low), Pow2(Below(w, Order(s), f)));
  }

  lemma Split(a: nat, n: nat)
    ensures a == Low(a, n) + Pow2(n) * High(a, n)
  {
    PowPositive(n);
    DivMod(a, Pow2(n));
  }

  lemma OrderDistinct(s: Scheme)
    ensures forall i, j :: 0 <= i < j < |Order(s)| ==> Order(s)[i] != Order(s)[j]
  {
  }
}
