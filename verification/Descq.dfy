/** The decoupled supply/compute queue as a state machine: one function per operation of DESCQ
    and of the node methods that call it. None is a failed assert of the simulator (or a null
    dereference). Nodes are named by their kind and desc_id. */
module Descq {
  import opened Wrappers

  /** SEND, LD_PROD and terminal atomics draw their ids from one counter. */
  datatype Family = Producer | Recv | Staddr | Stval
  datatype Node = Node(family: Family, id: nat)
  datatype Kind = SEND | LD_PROD | ATOMIC

  /** mem_status. */
  datatype Status = NONE | DESC_FWD | LSQ_FWD | PENDING | RETURNED | FWD_COMPLETE

  /** A node that carries an address, and its place in the program of the supply core. */
  datatype Op = Op(kind: Kind, addr: nat, pos: nat)

  datatype Sizes = Sizes(commQ: nat, terminal: nat, sab: nat, svb: nat, latency: nat)

  datatype State = State(
    // DESCQ's own fields; a map from desc_id to the node of that id is the set of its keys
    waiting: map<Node, nat>, execution: set<Node>,
    sab: set<nat>, commQ: set<nat>, stl: map<nat, nat>, svb: map<nat, set<nat>>, tl: set<nat>,
    termCount: int, commCount: int,
    sabCount: int, sabIssue: nat, sabBack: int,
    svbCount: int, svbIssue: nat, svbBack: int,
    cycles: nat,
    // the nodes that have been ordered, and what they hold
    producers: seq<Op>, staddrs: seq<Op>, stvals: nat, recvs: nat, nextPos: nat,
    status: seq<Status>,
    issued: set<Node>, toComplete: multiset<Node>, completed: set<Node>,
    // every insertQ call so far (bookkeeping of the model only)
    log: seq<Node>)

  function Init(z: Sizes): State {
    State(map[], {}, {}, {}, map[], map[], {}, 0, 0, 0, 0, z.sab - 1, 0, 0, z.svb - 1, 0,
          [], [], 0, 0, 0, [], {}, multiset{}, {}, [])
  }

  predicate Ordered(s: State, n: Node) {
    match n.family
    case Producer => n.id < |s.producers| && n.id < |s.status|
    case Recv => n.id < s.recvs
    case Staddr => n.id < |s.staddrs|
    case Stval => n.id < s.stvals
  }

  // ---- order() -----------------------------------------------------------------------

  function OrderProducer(s: State, op: Op): State {
    s.(producers := s.producers + [op], status := s.status + [NONE], nextPos := op.pos + 1)
  }

  function OrderStaddr(s: State, op: Op): State {
    s.(staddrs := s.staddrs + [op], nextPos := op.pos + 1)
  }

  // ---- the store address buffer ------------------------------------------------------

  lemma {:induction false} LeastExists(a: set<nat>) returns (h: nat)
    requires a != {}
    ensures h in a && forall k :: k in a ==> h <= k
  {
    h :| h in a;
    var rest := a - {h};
    if rest != {} {
      var m := LeastExists(rest);
      forall k | k in a ensures (if h < m then h else m) <= k {
        assert k == h || k in rest;
      }
      if m < h { h := m; }
    } else {
      assert a == {h};
    }
  }

  /** begin() of a sorted map. */
  function Head(a: set<nat>): (h: nat)
    requires a != {}
    ensures h in a && forall k :: k in a ==> h <= k
  {
    assert exists h :: h in a && forall k :: k in a ==> h <= k by {
      var h := LeastExists(a);
    }
    var h :| h in a && forall k :: k in a ==> h <= k;
    h
  }

  /** sab_has_dependency, over the entries still to look at. */
  function Scan(s: State, rest: set<nat>, addr: nat, pos: nat): Option<nat>
    decreases |rest|
  {
    if rest == {} then None
    else
      var k := Head(rest);
      if k >= |s.staddrs| || pos < s.staddrs[k].pos then None
      else if s.staddrs[k].addr == addr then Some(k)
      else Scan(s, rest - {k}, addr, pos)
  }

  function SabDependency(s: State, addr: nat, pos: nat): Option<nat> {
    Scan(s, s.sab, addr, pos)
  }

  // ---- issueDESCNode and insert() ----------------------------------------------------

  function Push(z: Sizes, s: State, n: Node): State {
    s.(waiting := s.waiting[n := s.cycles + z.latency], issued := s.issued + {n})
  }

  function SvbAt(s: State, k: nat): set<nat> {
    if k in s.svb then s.svb[k] else {}
  }

  /** insert(); with what became of the request. */
  function Insert(z: Sizes, s: State, n: Node, forward: Option<nat>): Option<(State, bool)>
    requires Ordered(s, n)
  {
    match n.family
    case Producer =>
      var terminal := s.producers[n.id].kind != SEND &&
        (s.status[n.id] == PENDING || s.producers[n.id].kind == ATOMIC);
      if s.commCount == z.commQ || (terminal && s.termCount == z.terminal) then Some((s, false))
      else if terminal then
        Some((Push(z, s.(commCount := s.commCount + 1, termCount := s.termCount + 1), n), true))
      else if n.id in s.commQ then None
      else
        var s1 := s.(commCount := s.commCount + 1, commQ := s.commQ + {n.id});
        if s.producers[n.id].kind == SEND then Some((Push(z, s1, n), true))
        else if s.status[n.id] == DESC_FWD then
          if forward.None? || n.id in s.stl then None
          else
            var k := forward.value;
            Some((Push(z, s1.(stl := s.stl[n.id := k], svb := s.svb[k := SvbAt(s, k) + {n.id}]), n), true))
        else Some((Push(z, s1.(status := s.status[n.id := NONE]), n), true))
    case Recv => Some((Push(z, s, n), true))
    case Staddr =>
      if n.id != s.sabIssue || n.id > s.sabBack || s.sabCount == z.sab then Some((s, false))
      else Some((Push(z, s.(sab := s.sab + {n.id}, sabCount := s.sabCount + 1, sabIssue := s.sabIssue + 1), n), true))
    case Stval =>
      if n.id != s.svbIssue || n.id > s.svbBack || s.svbCount == z.svb then Some((s, false))
      else Some((Push(z, s.(svbCount := s.svbCount + 1, svbIssue := s.svbIssue + 1), n), true))
  }

  /** What a LD_PROD that tries to issue decides about where its value comes from. */
  function Source(s: State, p: nat, lsq: bool): Status
    requires p < |s.producers|
  {
    var k := SabDependency(s, s.producers[p].addr, s.producers[p].pos);
    if lsq then LSQ_FWD
    else if k.Some? && s.sab != {} && k.value != Head(s.sab) then DESC_FWD
    else PENDING
  }

  /** issueDESCNode: `lsq` says that the load/store queue forwards, `allowed` that neither it
      nor the cache holds the node back. */
  function Issue(z: Sizes, s: State, n: Node, lsq: bool, allowed: bool): Option<(State, bool)>
    requires Ordered(s, n)
  {
    if n.family == Producer && s.producers[n.id].kind == LD_PROD then
      var s1 := s.(status := s.status[n.id := Source(s, n.id, lsq)]);
      if !allowed then Some((s1, false))
      else Insert(z, s1, n, SabDependency(s, s.producers[n.id].addr, s.producers[n.id].pos))
    else Insert(z, s, n, None)
  }

  // ---- execute() ---------------------------------------------------------------------

  /** insertQ: into the completion queue of the node's context. */
  function InsertQ(s: State, n: Node): State {
    s.(toComplete := s.toComplete + multiset{n}, log := s.log + [n])
  }

  function Finish(s: State, n: Node): State {
    InsertQ(s.(execution := s.execution - {n}), n)
  }

  function ToTerminalBuffer(s: State, n: Node): State {
    s.(execution := s.execution - {n}, tl := s.tl + {n.id})
  }

  function ExecuteProducer(s: State, n: Node): Option<State>
    requires Ordered(s, n) && n.family == Producer
  {
    match s.producers[n.id].kind
    case ATOMIC => Some(ToTerminalBuffer(s.(status := s.status[n.id := PENDING]), n))
    case LD_PROD =>
      if s.status[n.id] == NONE || s.status[n.id] == DESC_FWD || s.status[n.id] == FWD_COMPLETE then Some(Finish(s, n))
      else Some(ToTerminalBuffer(s, n))
    case SEND => if s.status[n.id] != NONE then None else Some(Finish(s, n))
  }

  /** The value was forwarded: the store's list of waiting loads gets shorter. */
  function Unhook(s: State, p: nat): Option<State> {
    if p !in s.stl || s.stl[p] !in s.svb then None
    else Some(s.(svb := s.svb[s.stl[p] := s.svb[s.stl[p]] - {p}], stl := s.stl - {p}))
  }

  function ExecuteRecv(s: State, n: Node): Option<State> {
    var p := n.id;
    if p !in s.commQ || Node(Producer, p) !in s.completed then Some(s)
    else if p >= |s.status| then None
    else if s.status[p] == FWD_COMPLETE then
      var s1 := Unhook(s, p);
      if s1.None? then None
      else Some(Finish(s1.value.(commCount := s1.value.commCount - 1, commQ := s1.value.commQ - {p}), n))
    else if s.status[p] == NONE then Some(Finish(s.(commCount := s.commCount - 1, commQ := s.commQ - {p}), n))
    else Some(s)
  }

  /** STVAL's value is there: every load that waits for it may be received. */
  function Mark(s: State, k: nat): (r: State)
    ensures |r.status| == |s.status| && r == s.(status := r.status)
    ensures forall p :: 0 <= p < |s.status| ==> r.status[p] == if p in SvbAt(s, k) then FWD_COMPLETE else s.status[p]
  {
    s.(status := seq(|s.status|, p requires 0 <= p < |s.status| => if p in SvbAt(s, k) then FWD_COMPLETE else s.status[p]))
  }

  function ExecuteStval(s: State, n: Node): Option<State> {
    var k := n.id;
    if exists p :: p in SvbAt(s, k) && p !in s.commQ then None
    else
      var s1 := Mark(s, k);
      if s.sab == {} || k != Head(s.sab) || SvbAt(s, k) != {} then Some(s1)
      else Some(Finish(s1.(svbCount := s1.svbCount - 1, svbBack := s1.svbBack + 1, svb := s1.svb - {k}), n))
  }

  function ExecuteStaddr(s: State, n: Node): Option<State> {
    var k := n.id;
    if k >= s.stvals || Node(Stval, k) !in s.completed then Some(s)
    else if s.sab == {} || k != Head(s.sab) then None
    else Some(Finish(s.(sab := s.sab - {k}, sabCount := s.sabCount - 1, sabBack := s.sabBack + 1), n))
  }

  function Execute(s: State, n: Node): Option<State>
    requires Ordered(s, n)
  {
    match n.family
    case Producer => ExecuteProducer(s, n)
    case Recv => ExecuteRecv(s, n)
    case Stval => ExecuteStval(s, n)
    case Staddr => ExecuteStaddr(s, n)
  }

  // ---- process(), memory returns, completion -----------------------------------------

  /** The nodes whose latency is over enter the execution set. */
  function Wake(s: State): State {
    var due := set n | n in s.waiting && s.waiting[n] < s.cycles;
    s.(execution := s.execution + due, waiting := s.waiting - due)
  }

  /** One entry of the terminal load buffer: into the communication queue, if its data is back. */
  function Drain(s: State, p: nat): Option<State>
    requires p < |s.status|
  {
    if s.status[p] == PENDING then Some(s)
    else if p in s.commQ then None
    else
      Some(InsertQ(s.(status := s.status[p := NONE], tl := s.tl - {p}, commQ := s.commQ + {p}, termCount := s.termCount - 1),
                   Node(Producer, p)))
  }

  /** handleMemoryReturn. */
  function MemoryReturn(s: State, p: nat): State
    requires p < |s.status|
  {
    s.(status := s.status[p := RETURNED])
  }

  /** finishNode: a node must not complete twice; a RECV only after its producer, a STADDR only
      after its STVAL (the debug-mode asserts). */
  function Complete(s: State, n: Node): Option<State> {
    if n in s.completed then None
    else if n.family == Recv && Node(Producer, n.id) !in s.completed then None
    else if n.family == Staddr && Node(Stval, n.id) !in s.completed then None
    else Some(s.(toComplete := s.toComplete - multiset{n}, completed := s.completed + {n}))
  }

  // ---- runs --------------------------------------------------------------------------

  datatype Step =
    | NewProducer(op: Op) | NewStaddr(op: Op) | NewStval | NewRecv
    | TryIssue(node: Node, lsq: bool, allowed: bool)
    | WakeUp | Run(node: Node) | Move(id: nat) | Return(id: nat) | Finished(node: Node) | Tick

  /** What the callers may do next. Nodes are ordered in program order, issue once, execute
      while they are in the execution set (in any order), and complete from the queue. */
  predicate Enabled(s: State, e: Step) {
    match e
    case NewProducer(op) => s.nextPos <= op.pos
    case NewStaddr(op) => s.nextPos <= op.pos
    case NewStval => true
    case NewRecv => true
    case TryIssue(n, _, _) => Ordered(s, n) && n !in s.issued
    case WakeUp => true
    case Run(n) => n in s.execution
    case Move(p) => p in s.tl
    case Return(p) => p < |s.status| && Node(Producer, p) in s.issued && s.status[p] == PENDING
    case Finished(n) => n in s.toComplete
    case Tick => true
  }

  /** None: an assert failed. */
  function Next(z: Sizes, s: State, e: Step): Option<State> {
    match e
    case NewProducer(op) => Some(OrderProducer(s, op))
    case NewStaddr(op) => Some(OrderStaddr(s, op))
    case NewStval => Some(s.(stvals := s.stvals + 1))
    case NewRecv => Some(s.(recvs := s.recvs + 1))
    case TryIssue(n, lsq, allowed) =>
      if !Ordered(s, n) then None
      else
        var r := Issue(z, s, n, lsq, allowed);
        if r.None? then None else Some(r.value.0)
    case WakeUp => Some(Wake(s))
    case Run(n) => if Ordered(s, n) then Execute(s, n) else None
    case Move(p) => if p < |s.status| then Drain(s, p) else None
    case Return(p) => if p < |s.status| then Some(MemoryReturn(s, p)) else None
    case Finished(n) => Complete(s, n)
    case Tick => Some(s.(cycles := s.cycles + 1))
  }

  /** `steps` is a run the callers can make, and `s` the state it ends in. */
  ghost predicate Reaches(z: Sizes, steps: seq<Step>, s: Option<State>) {
    if |steps| == 0 then s == Some(Init(z))
    else
      var last := |steps| - 1;
      exists s0 :: Reaches(z, steps[..last], Some(s0)) && Enabled(s0, steps[last]) && s == Next(z, s0, steps[last])
  }
}
