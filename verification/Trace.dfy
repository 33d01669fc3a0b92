/** The trace messages between the traced program and the simulator: control-flow records grow
    from the front of a buffer, memory records from its back. */
module Trace {
  import opened Wrappers

  /** One record: a branch from a block to its target, or a memory access of an instruction. */
  datatype Record =
    | Branch(conditional: bool, block: int, target: int)
    | Memory(isStore: bool, id: int, addr: nat, size: int)

  const WORD: nat := 0x1_0000_0000
  const LENGTH: nat := 1024

  predicate Valid(r: Record) { r.Memory? ==> r.addr < WORD * WORD }

  // ---- a 64-bit address in two signed words ------------------------------------------

  function Signed(x: nat): int { if x < WORD / 2 then x else x - WORD }
  function Unsigned(x: int): nat { x % WORD }

  function Low(a: nat): int { Signed(a % WORD) }
  function High(a: nat): int { Signed((a / WORD) % WORD) }
  function Join(lo: int, hi: int): nat { Unsigned(hi) * WORD + Unsigned(lo) }

  lemma JoinOfHalves(a: nat)
    requires a < WORD * WORD
    ensures Join(Low(a), High(a)) == a
  {
    SignedBack(a % WORD);
    SignedBack((a / WORD) % WORD);
    assert a / WORD < WORD;
  }

  lemma SignedBack(x: nat)
    requires x < WORD
    ensures Unsigned(Signed(x)) == x
  {
  }

  function Words(r: Record): (w: seq<int>)
    ensures |w| == if r.Branch? then 3 else 5
    ensures w[0] != -1
  {
    match r
    case Branch(c, b, t) => [if c then 1 else 0, b, t]
    case Memory(st, id, a, n) => [if st then 0 else 1, id, Low(a), High(a), n]
  }

  // ---- the buffer --------------------------------------------------------------------

  function CfEnd(n: nat): int { 3 + 3 * n }
  function MemStart(n: nat): int { LENGTH - 5 * n }

  /** `buf` holds these branches at the front and these accesses at the back, apart. */
  ghost predicate Packed(buf: seq<int>, cfs: seq<Record>, mems: seq<Record>) {
    && |buf| == LENGTH && buf[1] == |cfs| && buf[2] == |mems|
    && CfEnd(|cfs|) <= MemStart(|mems|)
    && CfsAt(buf, cfs) && MemsAt(buf, mems)
  }

  /** The last message: after its records each region ends with the sentinel. */
  ghost predicate Closed(buf: seq<int>, cfs: seq<Record>, mems: seq<Record>) {
    && |buf| == LENGTH && buf[1] == |cfs| + 1 && buf[2] == |mems| + 1
    && CfEnd(|cfs| + 1) <= MemStart(|mems| + 1)
    && CfsAt(buf, cfs) && MemsAt(buf, mems)
    && buf[3 + 3 * |cfs|] == -1 && buf[LENGTH - 5 * |mems| - 5] == -1
  }

  // ---- the reader --------------------------------------------------------------------

  datatype Reader = Reader(cf: seq<int>, last: int, memory: map<int, seq<nat>>, finished: bool)

  const FRESH := Reader([], -1, map[], false)

  function Queue(m: map<int, seq<nat>>, id: int): seq<nat> { if id in m then m[id] else [] }

  function Push(m: map<int, seq<nat>>, id: int, addr: nat): map<int, seq<nat>> {
    m[id := Queue(m, id) + [addr]]
  }

  /** The counts of a message lie within it. */
  predicate Sound(m: seq<int>) {
    && |m| == LENGTH && m[1] >= 0 && m[2] >= 0
    && CfEnd(m[1]) <= LENGTH && MemStart(m[2]) >= 3
  }

  /** The control-flow loop of read_dyn_data, from record `i` on. None is a failed assert. */
  function ReadCf(m: seq<int>, i: nat, r: Reader): Option<Reader>
    requires Sound(m) && i <= m[1]
    decreases m[1] - i
  {
    if i == m[1] then Some(r)
    else if m[3 + 3 * i] == -1 then
      if i + 1 == m[1] then Some(r.(finished := true)) else None
    else ReadCf(m, i + 1, r.(cf := r.cf + [m[4 + 3 * i]], last := m[5 + 3 * i]))
  }

  /** The memory loop. */
  function ReadMem(m: seq<int>, i: nat, r: Reader): Option<Reader>
    requires Sound(m) && i <= m[2]
    decreases m[2] - i
  {
    if i == m[2] then Some(r)
    else
      var p := LENGTH - 5 * i - 5;
      if m[p] == -1 then
        if r.finished && i + 1 == m[2] then Some(r) else None
      else ReadMem(m, i + 1, r.(memory := Push(r.memory, m[p + 1], Join(m[p + 2], m[p + 3]))))
  }

  /** read_dyn_data. */
  function Read(m: seq<int>, r: Reader): Option<Reader> {
    if r.finished || !Sound(m) || (m[1] == 0 && m[2] == 0) then None
    else
      var r1 := ReadCf(m, 0, r);
      if r1.None? then None
      else
        var r2 := if r1.value.finished then r1.value.(cf := r1.value.cf + [r1.value.last]) else r1.value;
        ReadMem(m, 0, r2)
  }

  function ReadAll(ms: seq<seq<int>>, r: Reader): Option<Reader> {
    if |ms| == 0 then Some(r)
    else
      var r1 := ReadAll(ms[..|ms|-1], r);
      if r1.None? then None else Read(ms[|ms|-1], r1.value)
  }

  // ---- what the reader should know ---------------------------------------------------

  function Branches(rs: seq<Record>): (b: seq<Record>)
    ensures forall i :: 0 <= i < |b| ==> b[i].Branch?
  {
    if |rs| == 0 then []
    else Branches(rs[..|rs|-1]) + (if rs[|rs|-1].Branch? then [rs[|rs|-1]] else [])
  }

  function Accesses(rs: seq<Record>): (b: seq<Record>)
    ensures forall i :: 0 <= i < |b| ==> b[i].Memory?
  {
    if |rs| == 0 then []
    else Accesses(rs[..|rs|-1]) + (if rs[|rs|-1].Memory? then [rs[|rs|-1]] else [])
  }

  /** The reader after these branches and accesses. */
  function Knows(cfs: seq<Record>, mems: seq<Record>, r: Reader): Reader
    requires forall i :: 0 <= i < |cfs| ==> cfs[i].Branch?
    requires forall i :: 0 <= i < |mems| ==> mems[i].Memory?
  {
    r.(cf := r.cf + Blocks(cfs), last := LastTarget(cfs, r.last), memory := Queues(mems, r.memory))
  }

  function Blocks(cfs: seq<Record>): seq<int>
    requires forall i :: 0 <= i < |cfs| ==> cfs[i].Branch?
  {
    if |cfs| == 0 then [] else Blocks(cfs[..|cfs|-1]) + [cfs[|cfs|-1].block]
  }

  function LastTarget(cfs: seq<Record>, last: int): int
    requires forall i :: 0 <= i < |cfs| ==> cfs[i].Branch?
  {
    if |cfs| == 0 then last else cfs[|cfs|-1].target
  }

  function Queues(mems: seq<Record>, m: map<int, seq<nat>>): map<int, seq<nat>>
    requires forall i :: 0 <= i < |mems| ==> mems[i].Memory?
  {
    if |mems| == 0 then m
    else Push(Queues(mems[..|mems|-1], m), mems[|mems|-1].id, mems[|mems|-1].addr)
  }

  // ---- reading what was packed -------------------------------------------------------

  ghost predicate CfsAt(m: seq<int>, cfs: seq<Record>) {
    && |m| == LENGTH && CfEnd(|cfs|) <= LENGTH
    && forall i :: 0 <= i < |cfs| ==> cfs[i].Branch? && m[3 + 3 * i..6 + 3 * i] == Words(cfs[i])
  }

  ghost predicate MemsAt(m: seq<int>, mems: seq<Record>) {
    && |m| == LENGTH && MemStart(|mems|) >= 0
    && forall i :: 0 <= i < |mems| ==> mems[i].Memory? && Valid(mems[i]) && m[LENGTH - 5 * i - 5..LENGTH - 5 * i] == Words(mems[i])
  }

  lemma CfWords(m: seq<int>, cfs: seq<Record>, i: nat)
    requires CfsAt(m, cfs) && i < |cfs|
    ensures cfs[i].Branch? && 6 + 3 * i <= LENGTH
    ensures m[3 + 3 * i] != -1 && m[4 + 3 * i] == cfs[i].block && m[5 + 3 * i] == cfs[i].target
  {
    var w := m[3 + 3 * i..6 + 3 * i];
    assert w == Words(cfs[i]) && m[3 + 3 * i] == w[0] && m[4 + 3 * i] == w[1] && m[5 + 3 * i] == w[2];
  }

  lemma MemWords(m: seq<int>, mems: seq<Record>, i: nat)
    requires MemsAt(m, mems) && i < |mems|
    ensures mems[i].Memory? && LENGTH - 5 * i - 5 >= 0
    ensures var p := LENGTH - 5 * i - 5;
            m[p] != -1 && m[p + 1] == mems[i].id && Join(m[p + 2], m[p + 3]) == mems[i].addr
  {
    var p := LENGTH - 5 * i - 5;
    var w := m[p..p + 5];
    assert w == Words(mems[i]) && m[p] == w[0] && m[p + 1] == w[1] && m[p + 2] == w[2] && m[p + 3] == w[3];
    JoinOfHalves(mems[i].addr);
  }

  lemma {:induction false} ReadCfPacked(m: seq<int>, cfs: seq<Record>, i: nat, r: Reader, r0: Reader)
    requires Sound(m) && i <= |cfs| <= m[1] && CfsAt(m, cfs)
    requires r == r0.(cf := r0.cf + Blocks(cfs[..i]), last := LastTarget(cfs[..i], r0.last))
    ensures ReadCf(m, i, r) == ReadCf(m, |cfs|, r0.(cf := r0.cf + Blocks(cfs), last := LastTarget(cfs, r0.last)))
    decreases |cfs| - i
  {
    hide CfsAt;
    if i == |cfs| {
      assert cfs[..i] == cfs;
    } else {
      CfWords(m, cfs, i);
      assert cfs[..i + 1][..i] == cfs[..i];
      ReadCfPacked(m, cfs, i + 1, r.(cf := r.cf + [cfs[i].block], last := cfs[i].target), r0);
    }
  }

  lemma {:induction false} ReadMemPacked(m: seq<int>, mems: seq<Record>, i: nat, r: Reader, m0: map<int, seq<nat>>)
    requires Sound(m) && i <= |mems| <= m[2] && MemsAt(m, mems)
    requires r.memory == Queues(mems[..i], m0)
    ensures ReadMem(m, i, r) == ReadMem(m, |mems|, r.(memory := Queues(mems, m0)))
    decreases |mems| - i
  {
    hide MemsAt, Join, Push;
    if i == |mems| {
      assert mems[..i] == mems;
    } else {
      MemWords(m, mems, i);
      assert mems[..i + 1][..i] == mems[..i];
      ReadMemPacked(m, mems, i + 1, r.(memory := Push(r.memory, mems[i].id, mems[i].addr)), m0);
    }
  }

  /** A message in the middle of the trace is read back as what was packed. */
  lemma ReadPacked(m: seq<int>, cfs: seq<Record>, mems: seq<Record>, r: Reader)
    requires Packed(m, cfs, mems) && !r.finished && (|cfs| > 0 || |mems| > 0)
    ensures Read(m, r) == Some(Knows(cfs, mems, r))
  {
    assert cfs[..0] == [] && mems[..0] == [];
    ReadCfPacked(m, cfs, 0, r, r);
    ReadMemPacked(m, mems, 0, r.(cf := r.cf + Blocks(cfs), last := LastTarget(cfs, r.last)), r.memory);
  }

  /** The last message is read back with its records, and ends the trace. */
  lemma ReadClosed(m: seq<int>, cfs: seq<Record>, mems: seq<Record>, r: Reader)
    requires Closed(m, cfs, mems) && !r.finished
    ensures var k := Knows(cfs, mems, r);
            Read(m, r) == Some(k.(cf := k.cf + [k.last], finished := true))
  {
    assert cfs[..0] == [] && mems[..0] == [];
    ReadCfPacked(m, cfs, 0, r, r);
    var r1 := r.(cf := r.cf + Blocks(cfs), last := LastTarget(cfs, r.last));
    ReadMemPacked(m, mems, 0, r1.(finished := true, cf := r1.cf + [r1.last]), r.memory);
  }

  // ---- the writer's progress ---------------------------------------------------------

  lemma {:induction false} BranchesConcat(a: seq<Record>, b: seq<Record>)
    ensures Branches(a + b) == Branches(a) + Branches(b) && Accesses(a + b) == Accesses(a) + Accesses(b)
  {
    if |b| == 0 {
      assert a + b == a;
    } else {
      assert (a + b)[..|a + b| - 1] == a + b[..|b|-1];
      BranchesConcat(a, b[..|b|-1]);
    }
  }

  lemma {:induction false} QueuesConcat(a: seq<Record>, b: seq<Record>, m: map<int, seq<nat>>)
    requires forall i :: 0 <= i < |a| ==> a[i].Memory?
    requires forall i :: 0 <= i < |b| ==> b[i].Memory?
    ensures Queues(a + b, m) == Queues(b, Queues(a, m))
  {
    if |b| == 0 {
      assert a + b == a;
    } else {
      assert (a + b)[..|a + b| - 1] == a + b[..|b|-1];
      QueuesConcat(a, b[..|b|-1], m);
    }
  }

  lemma {:induction false} BlocksConcat(a: seq<Record>, b: seq<Record>)
    requires forall i :: 0 <= i < |a| ==> a[i].Branch?
    requires forall i :: 0 <= i < |b| ==> b[i].Branch?
    ensures Blocks(a + b) == Blocks(a) + Blocks(b)
  {
    if |b| == 0 {
      assert a + b == a;
    } else {
      assert (a + b)[..|a + b| - 1] == a + b[..|b|-1];
      BlocksConcat(a, b[..|b|-1]);
    }
  }

  /** Knowing more, one message after the other. */
  lemma KnowsMore(a: seq<Record>, b: seq<Record>, c: seq<Record>, d: seq<Record>, r: Reader)
    requires forall i :: 0 <= i < |a| ==> a[i].Branch?
    requires forall i :: 0 <= i < |c| ==> c[i].Branch?
    requires forall i :: 0 <= i < |b| ==> b[i].Memory?
    requires forall i :: 0 <= i < |d| ==> d[i].Memory?
    ensures Knows(c, d, Knows(a, b, r)) == Knows(a + c, b + d, r)
  {
    QueuesConcat(b, d, r.memory);
    BlocksConcat(a, c);
    assert r.cf + Blocks(a) + Blocks(c) == r.cf + (Blocks(a) + Blocks(c));
  }

  /** `records` were written: the messages sent so far hold a first part of the branches and of
      the accesses, the buffer the rest. */
  ghost predicate Written(records: seq<Record>, sent: seq<seq<int>>, buf: seq<int>, cfs: seq<Record>, mems: seq<Record>,
                          sentCfs: seq<Record>, sentMems: seq<Record>) {
    && (forall i :: 0 <= i < |records| ==> Valid(records[i]))
    && Packed(buf, cfs, mems)
    && (forall i :: 0 <= i < |sentCfs| ==> sentCfs[i].Branch?)
    && (forall i :: 0 <= i < |sentMems| ==> sentMems[i].Memory?)
    && Branches(records) == sentCfs + cfs && Accesses(records) == sentMems + mems
    && ReadAll(sent, FRESH) == Some(Knows(sentCfs, sentMems, FRESH))
  }
}
