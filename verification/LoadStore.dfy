/** The load/store queue of an out-of-order core, the window that retires in program order, and
    the checks that decide when a memory operation may issue. */
module LoadStore {
  datatype Kind = LD | ST | ATOMIC | STADDR | BARRIER | OTHER

  /** A dynamic node, named by its context and its place in the context's block. */
  datatype Op = Op(ctx: nat, node: nat, kind: Kind, addr: nat)
  {
    predicate IsLoad() { kind == LD }
    predicate IsStore() { kind == ST || kind == ATOMIC || kind == STADDR }
  }

  /** Program order. */
  predicate Less(a: Op, b: Op) {
    a.ctx < b.ctx || (a.ctx == b.ctx && a.node < b.node)
  }

  predicate Increasing(s: seq<Op>) {
    forall i, j :: 0 <= i < j < |s| ==> Less(s[i], s[j])
  }

  type Index = map<nat, set<Op>>

  datatype Queue = Queue(lq: seq<Op>, sq: seq<Op>, lm: Index, sm: Index, openLd: set<Op>, openSt: set<Op>)

  const EMPTY := Queue([], [], map[], map[], {}, {})

  // ---- the two indexes ---------------------------------------------------------------

  function At(m: Index, addr: nat): set<Op> {
    if addr in m then m[addr] else {}
  }

  function Add(m: Index, d: Op): Index {
    m[d.addr := At(m, d.addr) + {d}]
  }

  function Drop(m: Index, d: Op): Index {
    var rest := At(m, d.addr) - {d};
    if rest == {} then m - {d.addr} else m[d.addr := rest]
  }

  /** The index holds exactly the queue's entries, by address, and no empty set. */
  ghost predicate Agree(q: seq<Op>, m: Index) {
    && (forall a, d :: d in At(m, a) <==> d in q && d.addr == a)
    && (forall a :: a in m ==> m[a] != {})
  }

  // ---- operations --------------------------------------------------------------------

  /** insert(), on an out-of-order core. */
  function Insert(q: Queue, d: Op): Queue {
    if d.IsLoad() then q.(lq := q.lq + [d], lm := Add(q.lm, d), openLd := q.openLd + {d})
    else if d.IsStore() then q.(sq := q.sq + [d], sm := Add(q.sm, d), openSt := q.openSt + {d})
    else q
  }

  function ResolveAddress(q: Queue, d: Op): Queue {
    if d.IsLoad() then q.(openLd := q.openLd - {d}) else q.(openSt := q.openSt - {d})
  }

  function InsertAll(q: Queue, ds: seq<Op>): Queue {
    if |ds| == 0 then q else Insert(InsertAll(q, ds[..|ds|-1]), ds[|ds|-1])
  }

  /** Entries that left the reorder buffer at the front of a queue, counted up to `need`. */
  function LeftAhead(q: seq<Op>, left: set<Op>, need: int): (n: nat)
    ensures n <= |q| && (forall i :: 0 <= i < n ==> q[i] in left)
    ensures need >= 0 ==> n <= need
    ensures n < need && n < |q| ==> q[n] !in left
    decreases |q|
  {
    if need <= 0 || q == [] || q[0] !in left then 0 else 1 + LeftAhead(q[1..], left, need - 1)
  }

  function DropAll(m: Index, ds: seq<Op>): Index {
    if |ds| == 0 then m else Drop(DropAll(m, ds[..|ds|-1]), ds[|ds|-1])
  }

  function Over(q: seq<Op>, more: nat, size: int): int { |q| + more - size }

  function AtLeast0(n: int): nat { if n < 0 then 0 else n }

  /** checkSize(): room for a block's loads and stores, if need be by giving up entries at the
      front that have left the reorder buffer. */
  function CheckSize(q: Queue, left: set<Op>, size: int, loads: nat, stores: nat): (r: (Queue, bool)) {
    var ld, st := Over(q.lq, loads, size), Over(q.sq, stores, size);
    if size == -1 || (ld <= 0 && st <= 0) then (q, true)
    else if LeftAhead(q.lq, left, ld) >= ld && LeftAhead(q.sq, left, st) >= st then
      var l, s := AtLeast0(ld), AtLeast0(st);
      assert l <= |q.lq| && s <= |q.sq|;
      (q.(lq := q.lq[l..], lm := DropAll(q.lm, q.lq[..l]), sq := q.sq[s..], sm := DropAll(q.sm, q.sq[..s])), true)
    else (q, false)
  }

  /** An older (or the same) store whose address is not known; with perfect speculation only
      an older one to the same address counts. */
  ghost predicate UnresolvedStore(q: Queue, d: Op, speculate: bool) {
    if speculate then exists e :: e in q.openSt && Less(e, d) && e.addr == d.addr
    else exists e :: e in q.openSt && !Less(d, e)
  }

  ghost predicate UnresolvedLoad(q: Queue, d: Op) {
    exists e :: e in q.openLd && !Less(d, e)
  }

  /** check_load_issue() for a LD: -1 wait, 0 speculate, 1 go. */
  ghost function CheckLoad(q: Queue, left: set<Op>, issued: set<Op>, d: Op, speculate: bool): int {
    var open := UnresolvedStore(q, d, speculate);
    if open && !speculate then -1
    else if d.addr !in q.sm then if open then 0 else 1
    else if exists e :: e in q.sm[d.addr] && !Less(d, e) && e !in left && e !in issued then -1
    else 1
  }

  /** check_store_issue(): every older access to the address has left the reorder buffer. */
  ghost predicate CheckStore(q: Queue, left: set<Op>, d: Op, speculate: bool) {
    && !UnresolvedStore(q, d, speculate)
    && !UnresolvedLoad(q, d)
    && (forall e :: e in At(q.sm, d.addr) && Less(e, d) ==> e in left)
    && (forall e :: e in At(q.lm, d.addr) && !Less(d, e) ==> e in left)
  }

  // ---- the core around it ------------------------------------------------------------

  /** `size` and `window` are -1 for no limit. */
  datatype Core = Core(size: int, window: int, speculate: bool)

  datatype State = State(
    q: Queue,
    order: seq<Op>, start: nat,
    issued: set<Op>, completed: set<Op>, canExit: set<Op>, left: set<Op>, speculated: set<Op>,
    log: seq<Op>)

  const START := State(EMPTY, [], 0, {}, {}, {}, {}, {}, [])

  function Count(ds: seq<Op>, kinds: set<Kind>): (n: nat)
    ensures n <= |ds|
  {
    if |ds| == 0 then 0
    else Count(ds[..|ds|-1], kinds) + (if ds[|ds|-1].kind in kinds then 1 else 0)
  }

  /** createContext(): the block counts its loads (`produced` of which never enter the queue)
      and its stores, but not its atomics. */
  function NewBlock(c: Core, s: State, ds: seq<Op>, produced: nat): State {
    var r := CheckSize(s.q, s.left, c.size, Count(ds, {LD}) + produced, Count(ds, {ST, STADDR}));
    if r.1 then s.(q := InsertAll(r.0, ds), order := s.order + ds) else s
  }

  /** window_end, an unsigned 64-bit sum. It is zero until the first node has left. */
  function WindowEnd(window: int, start: nat): nat {
    if start == 0 then 0 else (window + start - 1) % 0x1_0000_0000_0000_0000
  }

  predicate InWindow(c: Core, s: State, i: nat) {
    c.window == -1 || s.start <= i <= WindowEnd(c.window, s.start)
  }

  /** canIssue(): no older barrier is open, and a barrier looks at what is older, as far as
      window_end. */
  ghost predicate PassesBarriers(c: Core, s: State, i: nat)
    requires i < |s.order|
  {
    && (forall b :: b in s.order && b.kind == BARRIER && b !in s.completed ==> !Less(b, s.order[i]))
    && (s.order[i].kind == BARRIER ==>
          forall k :: s.start <= k < i && k <= WindowEnd(c.window, s.start) ==> s.order[k] in s.completed)
  }

  ghost predicate MayIssue(c: Core, s: State, d: Op) {
    match d.kind
    case LD => CheckLoad(s.q, s.left, s.issued, d, c.speculate) != -1
    case ST => CheckStore(s.q, s.left, d, c.speculate)
    case ATOMIC => CheckStore(s.q, s.left, d, c.speculate)
    case _ => true
  }

  /** issueMemNode (and, for a STADDR, issueDESCNode: it may then leave the reorder buffer). */
  ghost function Issue(c: Core, s: State, d: Op): State {
    if !MayIssue(c, s, d) then s
    else
      var guess := d.kind == LD && CheckLoad(s.q, s.left, s.issued, d, c.speculate) == 0;
      s.(issued := s.issued + {d}, log := s.log + [d],
         canExit := if d.kind == STADDR then s.canExit + {d} else s.canExit,
         speculated := if guess then s.speculated + {d} else s.speculated)
  }

  /** check_speculation(): the loads that ran ahead of this store. */
  ghost function Misspeculated(s: State, d: Op): set<Op> {
    set e | e in At(s.q.lm, d.addr) && !Less(d, e) && e in s.speculated
  }

  /** finishNode. */
  ghost function Finish(c: Core, s: State, d: Op): State {
    var s1 := s.(completed := s.completed + {d});
    if d.kind == ST && c.speculate then
      var bad := Misspeculated(s, d);
      s1.(issued := s1.issued - bad, completed := s1.completed - bad, speculated := s1.speculated - bad)
    else s1
  }

  /** IssueWindow::process(): what is done leaves, in program order. */
  function Retire(s: State): State
    decreases |s.order| - s.start
  {
    if s.start < |s.order| && (s.order[s.start] in s.completed || s.order[s.start] in s.canExit)
    then Retire(s.(start := s.start + 1, left := s.left + {s.order[s.start]}))
    else s
  }

  datatype Step = Create(ds: seq<Op>, produced: nat) | Resolve(d: Op) | TryIssue(i: nat) | Complete(d: Op) | Process

  ghost predicate Enabled(c: Core, s: State, e: Step) {
    match e
    case Create(ds, _) => Increasing(ds) && forall a, b :: a in s.order && b in ds ==> Less(a, b)
    case Resolve(d) => d in s.order
    case TryIssue(i) =>
      && i < |s.order| && InWindow(c, s, i) && PassesBarriers(c, s, i)
      && s.order[i] !in s.issued && s.order[i] !in s.q.openLd && s.order[i] !in s.q.openSt
    case Complete(d) => d in s.issued && d !in s.completed
    case Process => true
  }

  ghost function Next(c: Core, s: State, e: Step): State {
    match e
    case Create(ds, produced) => NewBlock(c, s, ds, produced)
    case Resolve(d) => s.(q := ResolveAddress(s.q, d))
    case TryIssue(i) => if i < |s.order| then Issue(c, s, s.order[i]) else s
    case Complete(d) => Finish(c, s, d)
    case Process => Retire(s)
  }

  ghost predicate Reaches(c: Core, steps: seq<Step>, s: State) {
    if |steps| == 0 then s == START
    else
      var last := |steps| - 1;
      exists s0 :: Reaches(c, steps[..last], s0) && Enabled(c, s0, steps[last]) && s == Next(c, s0, steps[last])
  }
}
