/** The cache-line lock that the last-level cache keeps for atomics: who holds a line, who
    waits, and the acknowledgement counter of every grant. None is a null or dead pointer. */
module LineLock {
  import opened Wrappers

  /** A dynamic node that accesses memory, and the line of its address. */
  datatype Node = Node(id: nat, atomic: bool, line: nat)
  datatype Txn = Txn(node: Node, prefetch: bool)

  /** An eviction request on its way through one core's caches; `grant` is the counter. */
  datatype Msg = Msg(line: nat, grant: nat)

  datatype State = State(
    // lockedLineMap, lockedLineQ, acknowledgements; the counters that are allocated
    holder: map<nat, Node>, waiting: map<nat, seq<Node>>, acks: map<nat, nat>, counters: map<nat, nat>,
    nextGrant: nat, requested: set<Node>,
    // per core: eviction requests at the L1, and between the L1 and the L2
    evictions: seq<seq<Msg>>, toL2: seq<seq<Msg>>,
    pending: multiset<Txn>,
    // bookkeeping of the model: who sent, accessed, released; requests and releases of a line
    sent: set<Node>, accessed: set<Node>, released: set<Node>,
    requests: map<nat, seq<Node>>, releases: map<nat, nat>)

  function Init(cores: nat): State {
    State(map[], map[], map[], map[], 0, {}, seq(cores, i => []), seq(cores, i => []), multiset{}, {}, {}, {}, map[], map[])
  }

  function Waiting(s: State, line: nat): seq<Node> { if line in s.waiting then s.waiting[line] else [] }
  function Requests(s: State, line: nat): seq<Node> { if line in s.requests then s.requests[line] else [] }
  function Releases(s: State, line: nat): nat { if line in s.releases then s.releases[line] else 0 }

  predicate IsLocked(s: State, d: Node) { d.line in s.holder }
  predicate HasLock(s: State, d: Node) { d.line in s.holder && s.holder[d.line] == d }

  /** evictAllCaches. */
  function EvictAll(v: seq<seq<Msg>>, m: Msg): (r: seq<seq<Msg>>)
    ensures |r| == |v| && forall i :: 0 <= i < |v| ==> r[i] == v[i] + [m]
  {
    seq(|v|, i requires 0 <= i < |v| => v[i] + [m])
  }

  /** The line goes to `d`: a new counter, and every core has to evict the line. */
  function GrantLine(s: State, line: nat, d: Node): State {
    s.(holder := s.holder[line := d], acks := s.acks[line := s.nextGrant], counters := s.counters[s.nextGrant := 0],
       nextGrant := s.nextGrant + 1, evictions := EvictAll(s.evictions, Msg(line, s.nextGrant)))
  }

  function Grant(s: State, d: Node): State { GrantLine(s, d.line, d) }

  function Record(s: State, d: Node): State {
    if d in s.requested then s
    else s.(requested := s.requested + {d}, requests := s.requests[d.line := Requests(s, d.line) + [d]])
  }

  /** lockCacheline. */
  function LockLine(s: State, d: Node): State {
    if IsLocked(s, d) && !HasLock(s, d) then
      var s1 := if d in s.requested then s else s.(waiting := s.waiting[d.line := Waiting(s, d.line) + [d]]);
      Record(s1, d)
    else if !IsLocked(s, d) then Grant(Record(s, d), d)
    else Record(s, d)
  }

  /** releaseLock: the next in the queue gets the line. */
  function ReleaseLine(s: State, d: Node): State {
    var q := Waiting(s, d.line);
    var s1 := s.(released := s.released + {d}, releases := s.releases[d.line := Releases(s, d.line) + 1]);
    if q == [] then s1.(holder := s1.holder - {d.line}, waiting := s1.waiting - {d.line})
    else GrantLine(s1.(waiting := s1.waiting[d.line := q[1..]]), d.line, q[0])
  }

  function Access(s: State, t: Txn): State {
    s.(pending := s.pending - multiset{t}, accessed := s.accessed + {t.node})
  }

  /** The lock part of execute(): does the transaction access the cache? */
  function Execute(cores: nat, s: State, t: Txn): Option<(State, bool)> {
    var d := t.node;
    if HasLock(s, d) then
      if d.line !in s.acks || s.acks[d.line] !in s.counters then None
      else if s.counters[s.acks[d.line]] == cores then
        Some((Access(s.(counters := s.counters - {s.acks[d.line]}, acks := s.acks - {d.line}), t), true))
      else Some((s, false))
    else if !t.prefetch && d.atomic then Some((LockLine(s, d), false))
    else if IsLocked(s, d) then Some((s, false))
    else Some((Access(s, t), true))
  }

  /** L1Cache::evict: one request becomes one message to the L2, with the same counter. */
  function EvictL1(s: State, core: nat): State
    requires core < |s.evictions| && core < |s.toL2| && s.evictions[core] != []
  {
    s.(evictions := s.evictions[core := s.evictions[core][1..]], toL2 := s.toL2[core := s.toL2[core] + [s.evictions[core][0]]])
  }

  function Without<T>(v: seq<T>, i: nat): seq<T>
    requires i < |v|
  {
    v[..i] + v[i+1..]
  }

  /** L2Cache::execute of an atomic eviction: the acknowledgement is counted. */
  function EvictL2(s: State, core: nat, i: nat): Option<State>
    requires core < |s.toL2| && i < |s.toL2[core]|
  {
    var g := s.toL2[core][i].grant;
    if g !in s.counters then None
    else Some(s.(toL2 := s.toL2[core := Without(s.toL2[core], i)], counters := s.counters[g := s.counters[g] + 1]))
  }

  datatype Step = Arrive(t: Txn) | TryAccess(t: Txn) | AtL1(core: nat) | AtL2(core: nat, i: nat) | Release(d: Node)

  /** An atomic sends one transaction, and releases its line once the data has come back. */
  predicate Enabled(s: State, e: Step) {
    match e
    case Arrive(t) => t.node.atomic ==> !t.prefetch && t.node !in s.sent
    case TryAccess(t) => t in s.pending
    case AtL1(core) => core < |s.evictions| && core < |s.toL2| && s.evictions[core] != []
    case AtL2(core, i) => core < |s.toL2| && i < |s.toL2[core]|
    case Release(d) => d.atomic && d in s.accessed && d !in s.released
  }

  function Next(cores: nat, s: State, e: Step): Option<State>
    requires Enabled(s, e)
  {
    match e
    case Arrive(t) => Some(s.(pending := s.pending + multiset{t}, sent := s.sent + {t.node}))
    case TryAccess(t) =>
      var r := Execute(cores, s, t);
      if r.None? then None else Some(r.value.0)
    case AtL1(core) => Some(EvictL1(s, core))
    case AtL2(core, i) => EvictL2(s, core, i)
    case Release(d) => Some(ReleaseLine(s, d))
  }

  ghost predicate Reaches(cores: nat, steps: seq<Step>, s: Option<State>) {
    if |steps| == 0 then s == Some(Init(cores))
    else
      var last := |steps| - 1;
      exists s0 :: Reaches(cores, steps[..last], Some(s0)) && Enabled(s0, steps[last]) && s == Next(cores, s0, steps[last])
  }
}
