/** What every step of the decoupled queue keeps, and what follows for whole runs: no assert
    of the simulator can fail, whatever order the execution set is processed in. */
module DescqProofs {
  import opened Wrappers
  import opened Descq

  // ---- the invariant -----------------------------------------------------------------

  /** Every issued node is in exactly one place, and was handed over for completion once. */
  ghost predicate Places(s: State) {
    && (forall n :: n in s.issued ==> Ordered(s, n))
    && (forall n :: n in s.issued <==>
          n in s.waiting || n in s.execution || n in s.log || (n.family == Producer && n.id in s.tl))
    && (forall n :: n in s.waiting ==> n !in s.execution)
    && (forall n :: n in s.log ==> n !in s.waiting && n !in s.execution && (n.family == Producer ==> n.id !in s.tl))
    && (forall p :: p in s.tl ==> Node(Producer, p) !in s.waiting && Node(Producer, p) !in s.execution)
    && (forall i, j :: 0 <= i < j < |s.log| ==> s.log[i] != s.log[j])
    && (forall n :: n in s.completed ==> n in s.log)
    && (forall n :: s.toComplete[n] == if n in s.log && n !in s.completed then 1 else 0)
  }

  /** An issued LD_PROD or atomic whose value comes from memory and has not been moved yet. */
  ghost predicate Terminal(s: State, p: nat) {
    && p < |s.producers| && p < |s.status|
    && Node(Producer, p) in s.issued && Node(Producer, p) !in s.log
    && (s.producers[p].kind == ATOMIC
        || (s.producers[p].kind == LD_PROD && (s.status[p] == PENDING || s.status[p] == RETURNED)))
  }

  ghost function Terminals(s: State): (r: set<nat>)
    ensures forall p: nat :: p in r <==> Terminal(s, p)
  {
    set p: nat | p < |s.producers| && Terminal(s, p)
  }

  /** Where the values that producers make are accounted for. */
  ghost predicate Accounts(z: Sizes, s: State) {
    && |s.status| == |s.producers|
    && s.termCount == |Terminals(s)| && s.commCount == |s.commQ| + s.termCount
    && 0 <= s.termCount <= z.terminal && s.commCount <= z.commQ
  }

  /** An issued producer is in the communication queue, on its way from memory, or received. */
  ghost predicate Values(s: State) {
    && (forall p :: p in s.commQ ==>
          Node(Producer, p) in s.issued && !Terminal(s, p) && Node(Recv, p) !in s.log)
    && (forall p: nat :: Node(Producer, p) in s.issued ==> p in s.commQ || Terminal(s, p) || Node(Recv, p) in s.log)
    && (forall p: nat :: Node(Recv, p) in s.log ==> Node(Producer, p) in s.completed)
    && (forall p :: p in s.tl ==> Terminal(s, p) && (s.status[p] == PENDING || s.status[p] == RETURNED))
  }

  predicate Waits(t: Status) { t == DESC_FWD || t == FWD_COMPLETE }

  predicate FromMemory(t: Status) { t == PENDING || t == RETURNED }

  ghost predicate StatusAt(s: State, p: nat)
    requires p < |s.producers| && p < |s.status|
  {
    var here := Node(Producer, p) in s.issued;
    match s.producers[p].kind
    case SEND => s.status[p] == NONE
    case ATOMIC => s.status[p] == NONE || (FromMemory(s.status[p]) && p in s.tl)
    case LD_PROD =>
      && (here ==> s.status[p] != LSQ_FWD)
      && (here && FromMemory(s.status[p]) ==> Node(Producer, p) !in s.log)
      && (s.status[p] == FWD_COMPLETE ==> here)
  }

  ghost predicate StatusOk(s: State) {
    |s.status| == |s.producers| && forall p: nat :: p < |s.producers| ==> StatusAt(s, p)
  }

  /** STLMap and SVB are inverse, over exactly the loads in the communication queue that
      take a store's value, and no load is listed with a store that has retired. */
  ghost predicate Forwards(s: State) {
    && |s.status| == |s.producers|
    && (forall p :: p in s.stl <==> p in s.commQ && p < |s.status| && Waits(s.status[p]))
    && (forall p :: p in s.stl ==> s.stl[p] in s.svb && p in s.svb[s.stl[p]])
    && (forall k, p :: k in s.svb && p in s.svb[k] ==> p in s.stl && s.stl[p] == k)
    && (forall k :: k in s.svb ==> s.svbIssue - s.svbCount <= k < s.sabIssue)
  }

  /** The producers' side of the invariant. */
  ghost predicate Supply(z: Sizes, s: State) {
    Accounts(z, s) && Values(s) && StatusOk(s) && Forwards(s)
  }

  /** Stores issue and retire in id order; only the head's value can be gone. */
  ghost predicate Stores(z: Sizes, s: State) {
    var a, v := s.sabIssue - s.sabCount, s.svbIssue - s.svbCount;
    && 0 <= a <= v <= a + 1 && (v == a + 1 ==> s.sabCount > 0)
    && 0 <= s.sabCount <= z.sab && 0 <= s.svbCount <= z.svb
    && (forall k :: k in s.sab <==> a <= k < s.sabIssue)
    && s.sabBack == a + z.sab - 1 && s.svbBack == v + z.svb - 1
    && s.sabIssue <= |s.staddrs| && s.svbIssue <= s.stvals
    && (forall k: nat :: Node(Staddr, k) in s.issued <==> k < s.sabIssue)
    && (forall k: nat :: Node(Stval, k) in s.issued <==> k < s.svbIssue)
    && (forall k: nat :: Node(Staddr, k) in s.log <==> k < a)
    && (forall k: nat :: Node(Stval, k) in s.log <==> k < v)
    && (forall k: nat :: Node(Staddr, k) in s.log ==> Node(Stval, k) in s.completed)
  }

  /** Store addresses are numbered in program order. */
  ghost predicate Program(s: State) {
    && (forall i, j :: 0 <= i < j < |s.staddrs| ==> s.staddrs[i].pos < s.staddrs[j].pos)
    && (forall i :: 0 <= i < |s.staddrs| ==> s.staddrs[i].pos < s.nextPos)
  }

  ghost predicate Inv(z: Sizes, s: State) {
    Places(s) && Supply(z, s) && Stores(z, s) && Program(s)
  }

  lemma InitHolds(z: Sizes)
    ensures Inv(z, Init(z))
  {
    assert Terminals(Init(z)) == {};
  }

  // ---- where the nodes are -----------------------------------------------------------

  predicate MoreNodes(s: State, s': State) {
    && |s.producers| <= |s'.producers| && |s.status| <= |s'.status| && |s.staddrs| <= |s'.staddrs|
    && s.recvs <= s'.recvs && s.stvals <= s'.stvals
  }

  predicate SameQueue(s: State, s': State) {
    s'.completed == s.completed && s'.toComplete == s.toComplete && s'.log == s.log
  }

  lemma StayPlaces(s: State, s': State)
    requires Places(s) && MoreNodes(s, s') && SameQueue(s, s')
    requires s'.issued == s.issued && s'.waiting == s.waiting && s'.execution == s.execution && s'.tl == s.tl
    ensures Places(s')
  {
  }

  lemma PushPlaces(z: Sizes, s: State, s': State, n: Node)
    requires Places(s) && MoreNodes(s, s') && SameQueue(s, s') && Ordered(s, n) && n !in s.issued
    requires s'.issued == s.issued + {n} && s'.waiting.Keys == s.waiting.Keys + {n}
    requires s'.execution == s.execution && s'.tl == s.tl
    ensures Places(s')
  {
  }

  lemma WakePlaces(s: State)
    requires Places(s)
    ensures Places(Wake(s))
  {
  }

  lemma FinishPlaces(s: State, s': State, n: Node)
    requires Places(s) && MoreNodes(s, s') && n in s.execution
    requires s'.issued == s.issued && s'.waiting == s.waiting && s'.tl == s.tl && s'.completed == s.completed
    requires s'.execution == s.execution - {n} && s'.log == s.log + [n] && s'.toComplete == s.toComplete + multiset{n}
    ensures Places(s')
    ensures forall m :: m in s'.log <==> m in s.log || m == n
  {
  }

  lemma BufferPlaces(s: State, s': State, n: Node)
    requires Places(s) && MoreNodes(s, s') && SameQueue(s, s') && n in s.execution && n.family == Producer
    requires s'.issued == s.issued && s'.waiting == s.waiting
    requires s'.execution == s.execution - {n} && s'.tl == s.tl + {n.id}
    ensures Places(s')
  {
  }

  lemma DrainPlaces(s: State, s': State, p: nat)
    requires Places(s) && MoreNodes(s, s') && p in s.tl
    requires s'.issued == s.issued && s'.waiting == s.waiting && s'.execution == s.execution && s'.completed == s.completed
    requires s'.tl == s.tl - {p} && s'.log == s.log + [Node(Producer, p)]
    requires s'.toComplete == s.toComplete + multiset{Node(Producer, p)}
    ensures Places(s')
    ensures forall m :: m in s'.log <==> m in s.log || m == Node(Producer, p)
  {
  }

  lemma CompletePlaces(s: State, s': State, n: Node)
    requires Places(s) && MoreNodes(s, s') && n in s.toComplete
    requires s'.issued == s.issued && s'.waiting == s.waiting && s'.execution == s.execution && s'.tl == s.tl && s'.log == s.log
    requires s'.toComplete == s.toComplete - multiset{n} && s'.completed == s.completed + {n}
    ensures Places(s')
  {
  }

  // ---- where the values are ----------------------------------------------------------

  lemma SameTerminals(s: State, s': State)
    requires forall p: nat :: Terminal(s, p) <==> Terminal(s', p)
    ensures Terminals(s') == Terminals(s)
  {
  }

  /** Nothing happened to a producer or a RECV (but the completed set may have grown, and the
      stores that have not retired may reach further). */
  lemma StaySupply(z: Sizes, s: State, s': State)
    requires Supply(z, s)
    requires s'.producers == s.producers && s'.status == s.status && s'.commQ == s.commQ && s'.tl == s.tl
    requires s'.stl == s.stl && s'.svb == s.svb && s'.termCount == s.termCount && s'.commCount == s.commCount
    requires forall n: Node :: n.family == Producer ==> (n in s.issued <==> n in s'.issued)
    requires forall n: Node :: n.family == Producer || n.family == Recv ==> (n in s.log <==> n in s'.log)
    requires s.completed <= s'.completed
    requires s'.svbIssue - s'.svbCount == s.svbIssue - s.svbCount && s.sabIssue <= s'.sabIssue
    ensures Supply(z, s')
  {
    forall p: nat ensures Terminal(s, p) <==> Terminal(s', p) {}
    SameTerminals(s, s');
    forall p: nat | p < |s.producers| ensures StatusAt(s', p) { assert StatusAt(s, p); }
    hide Terminals, Terminal, StatusAt;
  }

  lemma NewProducerSupply(z: Sizes, s: State, op: Op)
    requires Places(s) && Supply(z, s)
    ensures Supply(z, OrderProducer(s, op))
  {
    hide Terminals, Terminal, StatusAt;
    NewProducerTerminals(s, op);
    NewProducerStatus(s, op);
  }

  lemma NewProducerTerminals(s: State, op: Op)
    requires Places(s) && |s.status| == |s.producers|
    ensures forall p: nat :: Terminal(s, p) <==> Terminal(OrderProducer(s, op), p)
    ensures Terminals(OrderProducer(s, op)) == Terminals(s)
  {
    assert Node(Producer, |s.producers|) !in s.issued;
    SameTerminals(s, OrderProducer(s, op));
  }

  lemma NewProducerStatus(s: State, op: Op)
    requires Places(s) && StatusOk(s)
    ensures StatusOk(OrderProducer(s, op))
  {
    var s' := OrderProducer(s, op);
    assert Node(Producer, |s.producers|) !in s.issued;
    forall p: nat | p < |s'.producers| ensures StatusAt(s', p) { if p < |s.producers| { assert StatusAt(s, p); } }
  }

  /** A LD_PROD that has not issued may hold any status but FWD_COMPLETE. */
  lemma SourceSupply(z: Sizes, s: State, p: nat, t: Status)
    requires Places(s) && Supply(z, s) && p < |s.producers| && Node(Producer, p) !in s.issued
    requires s.producers[p].kind == LD_PROD && t != FWD_COMPLETE
    ensures Supply(z, s.(status := s.status[p := t]))
  {
    var s' := s.(status := s.status[p := t]);
    forall p: nat ensures Terminal(s, p) <==> Terminal(s', p) {}
    SameTerminals(s, s');
    forall q: nat | q < |s'.producers| ensures StatusAt(s', q) { assert StatusAt(s, q); }
    hide Terminals, Terminal, StatusAt, Places;
  }

  /** insert() of a load or an atomic whose value comes from memory. */
  ghost predicate InsertTerminal(z: Sizes, s: State, s': State, p: nat) {
    && Places(s) && Supply(z, s) && Ordered(s, Node(Producer, p)) && Node(Producer, p) !in s.issued
    && (s.producers[p].kind == ATOMIC || (s.producers[p].kind == LD_PROD && s.status[p] == PENDING))
    && s.commCount != z.commQ && s.termCount != z.terminal
    && s' == Push(z, s.(commCount := s.commCount + 1, termCount := s.termCount + 1), Node(Producer, p))
  }

  lemma InsertTerminalTerminals(z: Sizes, s: State, s': State, p: nat)
    requires InsertTerminal(z, s, s', p)
    ensures Terminals(s') == Terminals(s) + {p} && p !in Terminals(s)
  {
    hide Forwards, Accounts, Values;
    forall q: nat ensures Terminal(s', q) <==> Terminal(s, q) || q == p {}
  }

  lemma InsertTerminalStatus(z: Sizes, s: State, s': State, p: nat)
    requires InsertTerminal(z, s, s', p)
    ensures StatusOk(s')
  {
    forall q: nat | q < |s'.producers| ensures StatusAt(s', q) { assert StatusAt(s, q); }
  }

  lemma InsertTerminalForwards(z: Sizes, s: State, s': State, p: nat)
    requires InsertTerminal(z, s, s', p)
    ensures Forwards(s')
  {
    hide Values, Accounts, Terminal, Terminals;
  }

  lemma InsertTerminalValues(z: Sizes, s: State, s': State, p: nat)
    requires InsertTerminal(z, s, s', p)
    ensures Values(s')
  {
    hide Terminals, Forwards, Accounts;
  }

  lemma InsertTerminalSupply(z: Sizes, s: State, s': State, p: nat)
    requires InsertTerminal(z, s, s', p)
    ensures Supply(z, s')
  {
    InsertTerminalTerminals(z, s, s', p);
    InsertTerminalStatus(z, s, s', p);
    InsertTerminalForwards(z, s, s', p);
    InsertTerminalValues(z, s, s', p);
    hide Terminals, Terminal, StatusOk, Places, Values, Forwards;
  }

  /** insert() of a SEND, or of a load whose value comes from the load/store queue. */
  ghost predicate InsertValue(z: Sizes, s: State, s': State, p: nat) {
    && Places(s) && Supply(z, s) && Ordered(s, Node(Producer, p)) && Node(Producer, p) !in s.issued
    && (s.producers[p].kind == SEND || (s.producers[p].kind == LD_PROD && !FromMemory(s.status[p]) && !Waits(s.status[p])))
    && s.commCount != z.commQ && p !in s.commQ
    && s' == Push(z, s.(commCount := s.commCount + 1, commQ := s.commQ + {p}, status := s.status[p := NONE]), Node(Producer, p))
  }

  lemma InsertValueTerminals(z: Sizes, s: State, s': State, p: nat)
    requires InsertValue(z, s, s', p)
    ensures Terminals(s') == Terminals(s)
  {
    hide Forwards, Accounts, Values;
    forall q: nat ensures Terminal(s', q) <==> Terminal(s, q) {}
    SameTerminals(s, s');
  }

  lemma InsertValueStatus(z: Sizes, s: State, s': State, p: nat)
    requires InsertValue(z, s, s', p)
    ensures StatusOk(s')
  {
    forall q: nat | q < |s'.producers| ensures StatusAt(s', q) { assert StatusAt(s, q); }
  }

  lemma InsertValueForwards(z: Sizes, s: State, s': State, p: nat)
    requires InsertValue(z, s, s', p)
    ensures Forwards(s')
  {
    hide Values, Accounts, Terminal, Terminals;
  }

  lemma InsertValueValues(z: Sizes, s: State, s': State, p: nat)
    requires InsertValue(z, s, s', p)
    ensures Values(s')
  {
    hide Terminals, Forwards, Accounts;
  }

  lemma InsertValueSupply(z: Sizes, s: State, s': State, p: nat)
    requires InsertValue(z, s, s', p)
    ensures Supply(z, s')
  {
    InsertValueTerminals(z, s, s', p);
    InsertValueStatus(z, s, s', p);
    InsertValueForwards(z, s, s', p);
    InsertValueValues(z, s, s', p);
    hide Terminals, Terminal, StatusOk, Places, Values, Forwards;
  }

  /** insert() of a load that takes the value of store `k`, which has not retired. */
  ghost predicate InsertForward(z: Sizes, s: State, s': State, p: nat, k: nat) {
    && Places(s) && Supply(z, s) && Ordered(s, Node(Producer, p)) && Node(Producer, p) !in s.issued
    && s.producers[p].kind == LD_PROD && s.status[p] == DESC_FWD
    && s.commCount != z.commQ && p !in s.commQ
    && s.svbIssue - s.svbCount <= k < s.sabIssue
    && s' == Push(z, s.(commCount := s.commCount + 1, commQ := s.commQ + {p},
                        stl := s.stl[p := k], svb := s.svb[k := SvbAt(s, k) + {p}]), Node(Producer, p))
  }

  lemma InsertForwardTerminals(z: Sizes, s: State, s': State, p: nat, k: nat)
    requires InsertForward(z, s, s', p, k)
    ensures Terminals(s') == Terminals(s)
  {
    hide Forwards, Accounts, Values;
    forall q: nat ensures Terminal(s', q) <==> Terminal(s, q) {}
    SameTerminals(s, s');
  }

  lemma InsertForwardStatus(z: Sizes, s: State, s': State, p: nat, k: nat)
    requires InsertForward(z, s, s', p, k)
    ensures StatusOk(s')
  {
    forall q: nat | q < |s'.producers| ensures StatusAt(s', q) { assert StatusAt(s, q); }
  }

  lemma InsertForwardForwards(z: Sizes, s: State, s': State, p: nat, k: nat)
    requires InsertForward(z, s, s', p, k)
    ensures Forwards(s')
  {
    hide Values, Accounts, Terminal, Terminals;
  }

  lemma InsertForwardValues(z: Sizes, s: State, s': State, p: nat, k: nat)
    requires InsertForward(z, s, s', p, k)
    ensures Values(s')
  {
    hide Terminals, Forwards, Accounts;
  }

  lemma InsertForwardSupply(z: Sizes, s: State, s': State, p: nat, k: nat)
    requires InsertForward(z, s, s', p, k)
    ensures Supply(z, s')
  {
    InsertForwardTerminals(z, s, s', p, k);
    InsertForwardStatus(z, s, s', p, k);
    InsertForwardForwards(z, s, s', p, k);
    InsertForwardValues(z, s, s', p, k);
    hide Terminals, Terminal, StatusOk, Places, Values, Forwards;
  }

  /** A producer that has its value, or knows which store it comes from, leaves for completion. */
  lemma FinishSupply(z: Sizes, s: State, s': State, p: nat)
    requires Places(s) && Supply(z, s) && p < |s.producers| && Node(Producer, p) in s.execution
    requires !Terminal(s, p) && s' == Finish(s, Node(Producer, p))
    ensures Supply(z, s')
  {
    hide Terminals, StatusAt, Places, Terminal;
    FinishTerminals(s, s', p);
    FinishStatus(s, s', p);
  }

  lemma FinishTerminals(s: State, s': State, p: nat)
    requires Places(s) && p < |s.producers| && !Terminal(s, p) && s' == Finish(s, Node(Producer, p))
    ensures forall m :: m in s'.log <==> m in s.log || m == Node(Producer, p)
    ensures forall q: nat :: Terminal(s', q) <==> Terminal(s, q)
    ensures Terminals(s') == Terminals(s)
  {
    forall m ensures m in s'.log <==> m in s.log || m == Node(Producer, p) {}
    forall q: nat ensures Terminal(s', q) <==> Terminal(s, q) {}
    SameTerminals(s, s');
  }

  lemma FinishStatus(s: State, s': State, p: nat)
    requires Places(s) && p < |s.producers| && Node(Producer, p) in s.execution
    requires StatusOk(s) && !Terminal(s, p) && s' == Finish(s, Node(Producer, p))
    ensures StatusOk(s')
  {
    forall q: nat | q < |s'.producers| ensures StatusAt(s', q) { assert StatusAt(s, q); }
  }

  /** execute() of a load or an atomic whose value comes from memory. */
  ghost predicate Buffer(z: Sizes, s: State, s': State, p: nat, t: Status) {
    && Places(s) && Supply(z, s) && p < |s.producers| && Node(Producer, p) in s.execution
    && Terminal(s, p) && FromMemory(t) && (s.producers[p].kind == LD_PROD ==> t == s.status[p])
    && s' == ToTerminalBuffer(s.(status := s.status[p := t]), Node(Producer, p))
  }

  lemma BufferTerminals(z: Sizes, s: State, s': State, p: nat, t: Status)
    requires Buffer(z, s, s', p, t)
    ensures Terminals(s') == Terminals(s)
  {
    forall q: nat ensures Terminal(s', q) <==> Terminal(s, q) {}
    SameTerminals(s, s');
  }

  lemma BufferStatus(z: Sizes, s: State, s': State, p: nat, t: Status)
    requires Buffer(z, s, s', p, t)
    ensures StatusOk(s')
  {
    forall q: nat | q < |s'.producers| ensures StatusAt(s', q) { assert StatusAt(s, q); }
  }

  lemma BufferForwards(z: Sizes, s: State, s': State, p: nat, t: Status)
    requires Buffer(z, s, s', p, t)
    ensures Forwards(s')
  {
    assert StatusAt(s, p);
    hide Values, Accounts, Terminals;
  }

  lemma BufferValues(z: Sizes, s: State, s': State, p: nat, t: Status)
    requires Buffer(z, s, s', p, t)
    ensures Values(s')
  {
    hide Terminals, Forwards, Accounts;
  }

  lemma BufferSupply(z: Sizes, s: State, s': State, p: nat, t: Status)
    requires Buffer(z, s, s', p, t)
    ensures Supply(z, s')
  {
    BufferTerminals(z, s, s', p, t);
    BufferStatus(z, s, s', p, t);
    BufferForwards(z, s, s', p, t);
    BufferValues(z, s, s', p, t);
    hide Terminals, Terminal, StatusOk, Places, Values, Forwards;
  }

  /** A load whose data is back moves from the terminal buffer to the communication queue. */
  ghost predicate DrainMoves(z: Sizes, s: State, s': State, p: nat) {
    && Places(s) && Supply(z, s) && p in s.tl && p < |s.status| && s.status[p] != PENDING
    && Drain(s, p) == Some(s')
  }

  lemma DrainMovesTerminals(z: Sizes, s: State, s': State, p: nat)
    requires DrainMoves(z, s, s', p)
    ensures Terminals(s') == Terminals(s) - {p} && p in Terminals(s)
  {
    forall m ensures m in s'.log <==> m in s.log || m == Node(Producer, p) {}
    forall q: nat ensures Terminal(s', q) <==> Terminal(s, q) && q != p {}
  }

  lemma DrainMovesStatus(z: Sizes, s: State, s': State, p: nat)
    requires DrainMoves(z, s, s', p)
    ensures StatusOk(s')
  {
    forall m ensures m in s'.log <==> m in s.log || m == Node(Producer, p) {}
    forall q: nat | q < |s'.producers| ensures StatusAt(s', q) { assert StatusAt(s, q); }
  }

  lemma DrainMovesForwards(z: Sizes, s: State, s': State, p: nat)
    requires DrainMoves(z, s, s', p)
    ensures Forwards(s')
  {
    hide Values, Accounts, Terminal, Terminals;
  }

  lemma DrainMovesValues(z: Sizes, s: State, s': State, p: nat)
    requires DrainMoves(z, s, s', p)
    ensures Values(s')
  {
    hide Terminals, Forwards, Accounts;
    forall m ensures m in s'.log <==> m in s.log || m == Node(Producer, p) {}
  }

  lemma DrainMovesSupply(z: Sizes, s: State, s': State, p: nat)
    requires DrainMoves(z, s, s', p)
    ensures Supply(z, s')
  {
    DrainMovesTerminals(z, s, s', p);
    DrainMovesStatus(z, s, s', p);
    DrainMovesForwards(z, s, s', p);
    DrainMovesValues(z, s, s', p);
    hide Terminals, Terminal, StatusOk, Places, Values, Forwards;
  }

  lemma ReturnSupply(z: Sizes, s: State, p: nat)
    requires Places(s) && Supply(z, s) && p < |s.status| && Node(Producer, p) in s.issued && s.status[p] == PENDING
    ensures Supply(z, MemoryReturn(s, p))
  {
    hide Terminals, Places, StatusAt;
    ReturnTerminals(s, p);
    ReturnStatus(s, p);
  }

  lemma ReturnTerminals(s: State, p: nat)
    requires p < |s.status| && s.status[p] == PENDING
    ensures forall q: nat :: Terminal(MemoryReturn(s, p), q) <==> Terminal(s, q)
    ensures Terminals(MemoryReturn(s, p)) == Terminals(s)
  {
    SameTerminals(s, MemoryReturn(s, p));
  }

  lemma ReturnStatus(s: State, p: nat)
    requires StatusOk(s) && p < |s.status| && s.status[p] == PENDING
    ensures StatusOk(MemoryReturn(s, p))
  {
    forall q: nat | q < |s.producers| ensures StatusAt(MemoryReturn(s, p), q) { assert StatusAt(s, q); }
  }

  /** The matched RECV takes the value, and with it the load's entry in the store's list. */
  ghost predicate RecvTakes(z: Sizes, s: State, s': State, p: nat) {
    && Places(s) && Supply(z, s) && Node(Recv, p) in s.execution
    && s != s' && ExecuteRecv(s, Node(Recv, p)) == Some(s')
  }

  lemma RecvTakesTerminals(z: Sizes, s: State, s': State, p: nat)
    requires RecvTakes(z, s, s', p)
    ensures Terminals(s') == Terminals(s)
  {
    forall m ensures m in s'.log <==> m in s.log || m == Node(Recv, p) {}
    forall q: nat ensures Terminal(s', q) <==> Terminal(s, q) {}
    SameTerminals(s, s');
  }

  lemma RecvTakesStatus(z: Sizes, s: State, s': State, p: nat)
    requires RecvTakes(z, s, s', p)
    ensures StatusOk(s')
  {
    forall m ensures m in s'.log <==> m in s.log || m == Node(Recv, p) {}
    forall q: nat | q < |s'.producers| ensures StatusAt(s', q) { assert StatusAt(s, q); }
  }

  lemma RecvTakesForwards(z: Sizes, s: State, s': State, p: nat)
    requires RecvTakes(z, s, s', p)
    ensures Forwards(s')
  {
    hide Values, Accounts, Terminal, Terminals;
  }

  lemma RecvTakesValues(z: Sizes, s: State, s': State, p: nat)
    requires RecvTakes(z, s, s', p)
    ensures Values(s')
  {
    hide Terminals, Forwards, Accounts;
    forall m ensures m in s'.log <==> m in s.log || m == Node(Recv, p) {}
  }

  lemma RecvTakesSupply(z: Sizes, s: State, s': State, p: nat)
    requires RecvTakes(z, s, s', p)
    ensures Supply(z, s')
  {
    RecvTakesTerminals(z, s, s', p);
    RecvTakesStatus(z, s, s', p);
    RecvTakesForwards(z, s, s', p);
    RecvTakesValues(z, s, s', p);
    hide Terminals, Terminal, StatusOk, Places, Values, Forwards;
  }

  /** The value of store `k` is there: its loads are ready. */
  ghost predicate Marks(z: Sizes, s: State, s': State, k: nat) {
    && Places(s) && Supply(z, s) && s' == Mark(s, k)
  }

  lemma MarkedAreLoads(z: Sizes, s: State, k: nat)
    requires Supply(z, s)
    ensures forall p :: p in SvbAt(s, k) ==>
      p in s.commQ && p < |s.producers| && s.producers[p].kind == LD_PROD && Waits(s.status[p])
  {
    forall p | p in SvbAt(s, k)
      ensures p in s.commQ && p < |s.producers| && s.producers[p].kind == LD_PROD && Waits(s.status[p])
    {
      assert p in s.stl && StatusAt(s, p);
    }
  }

  lemma MarksTerminals(z: Sizes, s: State, s': State, k: nat)
    requires Marks(z, s, s', k)
    ensures Terminals(s') == Terminals(s)
  {
    MarkedAreLoads(z, s, k);
    hide Mark;
    forall q: nat ensures Terminal(s', q) <==> Terminal(s, q) {}
    SameTerminals(s, s');
  }

  lemma MarksStatus(z: Sizes, s: State, s': State, k: nat)
    requires Marks(z, s, s', k)
    ensures StatusOk(s')
  {
    forall q: nat | q < |s'.producers| ensures StatusAt(s', q) { assert StatusAt(s, q); MarkedAreLoads(z, s, k); }
  }

  lemma MarksForwards(z: Sizes, s: State, s': State, k: nat)
    requires Marks(z, s, s', k)
    ensures Forwards(s')
  {
    hide Values, Accounts, StatusOk, Places, SvbAt, Mark;
    MarkedAreLoads(z, s, k);
    forall p: nat ensures p in s.stl <==> p in s.commQ && p < |s'.status| && Waits(s'.status[p]) {
      if p < |s.status| { assert s'.status[p] == if p in SvbAt(s, k) then FWD_COMPLETE else s.status[p]; }
    }
  }

  lemma MarksValues(z: Sizes, s: State, s': State, k: nat)
    requires Marks(z, s, s', k)
    ensures Values(s')
  {
    MarksTerminals(z, s, s', k);
    MarkedAreLoads(z, s, k);
    forall p: nat ensures Terminal(s', p) <==> Terminal(s, p) {
      assert p in Terminals(s) <==> p in Terminals(s');
    }
    hide Terminals, Forwards, Accounts, Terminal, Mark;
  }

  lemma MarksSupply(z: Sizes, s: State, s': State, k: nat)
    requires Marks(z, s, s', k)
    ensures Supply(z, s')
  {
    MarksTerminals(z, s, s', k);
    MarksStatus(z, s, s', k);
    MarksForwards(z, s, s', k);
    MarksValues(z, s, s', k);
    hide Terminals, Terminal, StatusOk, Places, Values, Forwards;
  }

  // ---- the stores --------------------------------------------------------------------

  lemma InvParts(z: Sizes, s: State)
    requires Inv(z, s)
    ensures Places(s) && Supply(z, s) && Stores(z, s) && Program(s)
  {
  }

  lemma StayStores(z: Sizes, s: State, s': State)
    requires Stores(z, s)
    requires s'.sab == s.sab && s'.sabCount == s.sabCount && s'.sabIssue == s.sabIssue && s'.sabBack == s.sabBack
    requires s'.svbCount == s.svbCount && s'.svbIssue == s.svbIssue && s'.svbBack == s.svbBack
    requires |s.staddrs| <= |s'.staddrs| && s.stvals <= s'.stvals && s.completed <= s'.completed
    requires forall n: Node :: n.family == Staddr || n.family == Stval ==>
      (n in s.issued <==> n in s'.issued) && (n in s.log <==> n in s'.log)
    ensures Stores(z, s')
  {
  }

  /** The head of the store address buffer is the oldest store that has not retired. */
  lemma HeadIsOldest(z: Sizes, s: State)
    requires Stores(z, s) && s.sab != {}
    ensures Head(s.sab) == s.sabIssue - s.sabCount
  {
    assert s.sabIssue - s.sabCount in s.sab;
  }

  lemma StaddrIssueStores(z: Sizes, s: State, s': State, k: nat)
    requires Stores(z, s) && Ordered(s, Node(Staddr, k)) && s' != s && Insert(z, s, Node(Staddr, k), None) == Some((s', true))
    ensures Stores(z, s')
  {
  }

  lemma StvalIssueStores(z: Sizes, s: State, s': State, k: nat)
    requires Stores(z, s) && Ordered(s, Node(Stval, k)) && s' != s && Insert(z, s, Node(Stval, k), None) == Some((s', true))
    ensures Stores(z, s')
  {
  }

  lemma StaddrIssueKeeps(z: Sizes, s: State, k: nat)
    requires Inv(z, s) && Ordered(s, Node(Staddr, k)) && Node(Staddr, k) !in s.issued
    ensures Insert(z, s, Node(Staddr, k), None).Some? && Inv(z, Insert(z, s, Node(Staddr, k), None).value.0)
  {
    hide Places, Stores, Supply;
    var n := Node(Staddr, k);
    var s' := Insert(z, s, n, None).value.0;
    if s' != s {
      StaddrIssueStores(z, s, s', k);
      PushPlaces(z, s, s', n);
      StaySupply(z, s, s');
    }
  }

  lemma StvalIssueKeeps(z: Sizes, s: State, k: nat)
    requires Inv(z, s) && Ordered(s, Node(Stval, k)) && Node(Stval, k) !in s.issued
    ensures Insert(z, s, Node(Stval, k), None).Some? && Inv(z, Insert(z, s, Node(Stval, k), None).value.0)
  {
    hide Places, Stores, Supply;
    var n := Node(Stval, k);
    var s' := Insert(z, s, n, None).value.0;
    if s' != s {
      StvalIssueStores(z, s, s', k);
      PushPlaces(z, s, s', n);
      StaySupply(z, s, s');
    }
  }

  lemma MarkKeeps(z: Sizes, s: State, k: nat)
    requires Inv(z, s)
    ensures Inv(z, Mark(s, k))
  {
    hide Mark, Places, Stores, Supply;
    MarksSupply(z, s, Mark(s, k), k);
    StayPlaces(s, Mark(s, k));
    StayStores(z, s, Mark(s, k));
  }

  lemma StvalCases(s: State, k: nat)
    requires forall p :: p in SvbAt(s, k) ==> p in s.commQ
    ensures var s1 := Mark(s, k);
            ExecuteStval(s, Node(Stval, k)) == Some(
              if s.sab != {} && k == Head(s.sab) && SvbAt(s, k) == {}
              then Finish(s1.(svbCount := s1.svbCount - 1, svbBack := s1.svbBack + 1, svb := s1.svb - {k}), Node(Stval, k))
              else s1)
  {
  }

  /** A STVAL retires only while its STADDR is the oldest store, so never out of order. */
  lemma StvalKeeps(z: Sizes, s: State, k: nat)
    requires Inv(z, s) && Node(Stval, k) in s.execution
    ensures ExecuteStval(s, Node(Stval, k)).Some? && Inv(z, ExecuteStval(s, Node(Stval, k)).value)
  {
    hide *;
    InvParts(z, s);
    MarkedAreLoads(z, s, k);
    MarkKeeps(z, s, k);
    SameSvb(s, Mark(s, k), k);
    StvalCases(s, k);
    if s.sab != {} && k == Head(s.sab) && SvbAt(s, k) == {} { RetireStval(z, Mark(s, k), k); }
  }

  lemma SameSvb(s: State, s': State, k: nat)
    requires s'.svb == s.svb
    ensures SvbAt(s', k) == SvbAt(s, k)
  {
  }

  lemma OldestStval(z: Sizes, s: State, k: nat)
    requires Places(s) && Stores(z, s) && Node(Stval, k) in s.execution && s.sab != {} && k == Head(s.sab)
    ensures k == s.sabIssue - s.sabCount == s.svbIssue - s.svbCount
  {
    HeadIsOldest(z, s);
    assert Node(Stval, k) in s.issued && Node(Stval, k) !in s.log;
  }

  lemma RetireStval(z: Sizes, s: State, k: nat)
    requires Inv(z, s) && Node(Stval, k) in s.execution
    requires s.sab != {} && k == Head(s.sab) && SvbAt(s, k) == {}
    ensures Inv(z, Finish(s.(svbCount := s.svbCount - 1, svbBack := s.svbBack + 1, svb := s.svb - {k}), Node(Stval, k)))
  {
    hide Places, Supply, SvbAt;
    var s' := Finish(s.(svbCount := s.svbCount - 1, svbBack := s.svbBack + 1, svb := s.svb - {k}), Node(Stval, k));
    OldestStval(z, s, k);
    RetireStvalStores(z, s, s', k);
    FinishPlaces(s, s', Node(Stval, k));
    RetireSupply(z, s, s', k);
  }

  lemma RetireStvalStores(z: Sizes, s: State, s': State, k: nat)
    requires Places(s) && Stores(z, s) && s.sab != {} && k == Head(s.sab) == s.sabIssue - s.sabCount == s.svbIssue - s.svbCount
    requires Node(Stval, k) in s.execution
    requires s' == Finish(s.(svbCount := s.svbCount - 1, svbBack := s.svbBack + 1, svb := s.svb - {k}), Node(Stval, k))
    ensures Stores(z, s')
  {
    assert Node(Stval, k) in s.issued;
    forall m ensures m in s'.log <==> m in s.log || m == Node(Stval, k) {}
    hide Places;
  }

  lemma RetireSupply(z: Sizes, s: State, s': State, k: nat)
    requires Supply(z, s) && k == s.svbIssue - s.svbCount && SvbAt(s, k) == {}
    requires s' == Finish(s.(svbCount := s.svbCount - 1, svbBack := s.svbBack + 1, svb := s.svb - {k}), Node(Stval, k))
    ensures Supply(z, s')
  {
    var s1 := s.(svb := s.svb - {k}, svbCount := s.svbCount - 1);
    assert Forwards(s1);
    forall p: nat ensures Terminal(s, p) <==> Terminal(s1, p) {}
    SameTerminals(s, s1);
    forall p: nat | p < |s.producers| ensures StatusAt(s1, p) { assert StatusAt(s, p); }
    assert Supply(z, s1);
    forall m ensures m in s'.log <==> m in s.log || m == Node(Stval, k) {}
    hide Terminals, Terminal, StatusOk, Accounts, Values, Forwards, Supply;
    StaySupply(z, s1, s');
  }

  lemma RetireStaddrStores(z: Sizes, s: State, s': State, k: nat)
    requires Stores(z, s) && Places(s) && Node(Staddr, k) in s.execution && Node(Stval, k) in s.completed
    requires k in s.sab && k == s.sabIssue - s.sabCount
    requires s' == Finish(s.(sab := s.sab - {k}, sabCount := s.sabCount - 1, sabBack := s.sabBack + 1), Node(Staddr, k))
    ensures Stores(z, s')
  {
    forall m ensures m in s'.log <==> m in s.log || m == Node(Staddr, k) {}
    assert Node(Stval, k) in s.log;
    hide Places;
  }

  lemma CompletedStvalIsHead(z: Sizes, s: State, k: nat)
    requires Places(s) && Stores(z, s) && Node(Staddr, k) in s.execution && Node(Stval, k) in s.completed
    ensures k in s.sab && k == s.sabIssue - s.sabCount == Head(s.sab)
  {
    assert Node(Staddr, k) in s.issued && Node(Staddr, k) !in s.log && Node(Stval, k) in s.log;
    assert k in s.sab;
    HeadIsOldest(z, s);
  }

  /** A STADDR whose STVAL has completed heads the buffer: the assert in execute() holds. */
  lemma StaddrKeeps(z: Sizes, s: State, k: nat)
    requires Inv(z, s) && Node(Staddr, k) in s.execution
    ensures k < s.stvals && Node(Stval, k) in s.completed ==> s.sab != {} && k == Head(s.sab)
    ensures ExecuteStaddr(s, Node(Staddr, k)).Some? && Inv(z, ExecuteStaddr(s, Node(Staddr, k)).value)
  {
    hide Places, Stores, Supply, Head;
    if k < s.stvals && Node(Stval, k) in s.completed {
      CompletedStvalIsHead(z, s, k);
      var s' := ExecuteStaddr(s, Node(Staddr, k)).value;
      RetireStaddrStores(z, s, s', k);
      FinishPlaces(s, s', Node(Staddr, k));
      StaySupply(z, s, s');
    }
  }

  // ---- every step keeps the invariant ------------------------------------------------

  lemma {:induction false} ScanFinds(s: State, rest: set<nat>, addr: nat, pos: nat)
    ensures Scan(s, rest, addr, pos).Some? ==> Scan(s, rest, addr, pos).value in rest
    decreases |rest|
  {
    if rest != {} { ScanFinds(s, rest - {Head(rest)}, addr, pos); }
  }

  lemma TerminalInsertKeeps(z: Sizes, s: State, s': State, p: nat)
    requires Inv(z, s) && InsertTerminal(z, s, s', p)
    ensures Inv(z, s')
  {
    hide Places, Stores, Supply;
    PushPlaces(z, s, s', Node(Producer, p));
    StayStores(z, s, s');
    InsertTerminalSupply(z, s, s', p);
  }

  lemma ValueInsertKeeps(z: Sizes, s: State, s': State, p: nat)
    requires Inv(z, s) && InsertValue(z, s, s', p)
    ensures Inv(z, s')
  {
    hide Places, Stores, Supply;
    PushPlaces(z, s, s', Node(Producer, p));
    StayStores(z, s, s');
    InsertValueSupply(z, s, s', p);
  }

  lemma ForwardInsertKeeps(z: Sizes, s: State, s': State, p: nat, k: nat)
    requires Inv(z, s) && InsertForward(z, s, s', p, k)
    ensures Inv(z, s')
  {
    hide Places, Stores, Supply;
    PushPlaces(z, s, s', Node(Producer, p));
    StayStores(z, s, s');
    InsertForwardSupply(z, s, s', p, k);
  }

  lemma ProducerInsertCases(z: Sizes, s: State, p: nat, forward: Option<nat>)
    requires Places(s) && Supply(z, s) && Ordered(s, Node(Producer, p)) && Node(Producer, p) !in s.issued
    requires p !in s.commQ && p !in s.stl && StatusAt(s, p)
    requires s.producers[p].kind == LD_PROD && s.status[p] == DESC_FWD ==>
      forward.Some? && s.svbIssue - s.svbCount <= forward.value < s.sabIssue
    requires s.producers[p].kind == LD_PROD ==> s.status[p] != RETURNED && s.status[p] != FWD_COMPLETE
    ensures Insert(z, s, Node(Producer, p), forward).Some?
    ensures var s' := Insert(z, s, Node(Producer, p), forward).value.0;
            || s' == s || InsertTerminal(z, s, s', p) || InsertValue(z, s, s', p)
            || (forward.Some? && InsertForward(z, s, s', p, forward.value))
  {
    hide Places, Supply;
    assert s.status[p] == NONE ==> s.status[p := NONE] == s.status;
  }

  /** insert() of a producer; a load that forwards does so from a store that is not the oldest. */
  lemma ProducerInsertKeeps(z: Sizes, s: State, p: nat, forward: Option<nat>)
    requires Inv(z, s) && p < |s.producers| && Node(Producer, p) !in s.issued
    requires s.producers[p].kind == LD_PROD && s.status[p] == DESC_FWD ==>
      forward.Some? && s.sab != {} && forward.value in s.sab && forward.value != Head(s.sab)
    requires s.producers[p].kind == LD_PROD ==> !FromMemory(s.status[p]) || s.status[p] == PENDING
    requires s.producers[p].kind == LD_PROD ==> s.status[p] != FWD_COMPLETE
    ensures Insert(z, s, Node(Producer, p), forward).Some? && Inv(z, Insert(z, s, Node(Producer, p), forward).value.0)
  {
    var n := Node(Producer, p);
    assert p !in s.commQ && p !in s.stl && StatusAt(s, p);
    assert Ordered(s, n) && Places(s) && Supply(z, s);
    if s.sab != {} { HeadIsOldest(z, s); }
    assert forward.Some? && s.sab != {} && forward.value in s.sab && forward.value != Head(s.sab) ==>
      s.svbIssue - s.svbCount <= forward.value < s.sabIssue;
    ProducerInsertCases(z, s, p, forward);
    hide *;
    var s' := Insert(z, s, n, forward).value.0;
    if InsertTerminal(z, s, s', p) { TerminalInsertKeeps(z, s, s', p); }
    if InsertValue(z, s, s', p) { ValueInsertKeeps(z, s, s', p); }
    if forward.Some? && InsertForward(z, s, s', p, forward.value) { ForwardInsertKeeps(z, s, s', p, forward.value); }
  }

  lemma LoadIssueKeeps(z: Sizes, s: State, p: nat, lsq: bool, allowed: bool)
    requires Inv(z, s) && Ordered(s, Node(Producer, p)) && Node(Producer, p) !in s.issued && s.producers[p].kind == LD_PROD
    ensures Issue(z, s, Node(Producer, p), lsq, allowed).Some?
    ensures Inv(z, Issue(z, s, Node(Producer, p), lsq, allowed).value.0)
  {
    hide Places, Stores, Supply;
    var s1 := s.(status := s.status[p := Source(s, p, lsq)]);
    ScanFinds(s, s.sab, s.producers[p].addr, s.producers[p].pos);
    SourceSupply(z, s, p, Source(s, p, lsq));
    StayPlaces(s, s1);
    StayStores(z, s, s1);
    if allowed { ProducerInsertKeeps(z, s1, p, SabDependency(s, s.producers[p].addr, s.producers[p].pos)); }
  }

  lemma RecvIssueKeeps(z: Sizes, s: State, n: Node)
    requires Inv(z, s) && Ordered(s, n) && n !in s.issued && n.family == Recv
    ensures Inv(z, Push(z, s, n))
  {
    hide Places, Stores, Supply;
    var s' := Push(z, s, n);
    PushPlaces(z, s, s', n);
    StaySupply(z, s, s');
    StayStores(z, s, s');
  }

  lemma IssueKeeps(z: Sizes, s: State, n: Node, lsq: bool, allowed: bool)
    requires Inv(z, s) && Ordered(s, n) && n !in s.issued
    ensures Issue(z, s, n, lsq, allowed).Some? && Inv(z, Issue(z, s, n, lsq, allowed).value.0)
  {
    hide Places, Stores, Supply, Source, SabDependency, Push;
    match n.family
    case Producer =>
      if s.producers[n.id].kind == LD_PROD {
        LoadIssueKeeps(z, s, n.id, lsq, allowed);
      } else {
        ProducerInsertKeeps(z, s, n.id, None);
      }
    case Recv => RecvIssueKeeps(z, s, n);
    case Staddr => StaddrIssueKeeps(z, s, n.id);
    case Stval => StvalIssueKeeps(z, s, n.id);
  }

  lemma BufferShape(z: Sizes, s: State, p: nat)
    requires Places(s) && Supply(z, s) && Node(Producer, p) in s.execution && Terminal(s, p)
    ensures ExecuteProducer(s, Node(Producer, p)).Some?
    ensures var s' := ExecuteProducer(s, Node(Producer, p)).value; |s'.status| == |s.status| && Buffer(z, s, s', p, s'.status[p])
  {
    hide Places, Supply;
  }

  lemma BufferKeeps(z: Sizes, s: State, p: nat)
    requires Inv(z, s) && Node(Producer, p) in s.execution && Terminal(s, p) && Ordered(s, Node(Producer, p))
    ensures ExecuteProducer(s, Node(Producer, p)).Some? && Inv(z, ExecuteProducer(s, Node(Producer, p)).value)
  {
    hide Places, Stores, Supply, Terminal;
    BufferShape(z, s, p);
    var s' := ExecuteProducer(s, Node(Producer, p)).value;
    BufferPlaces(s, s', Node(Producer, p));
    BufferSupply(z, s, s', p, s'.status[p]);
    StayStores(z, s, s');
  }

  lemma FinishShape(z: Sizes, s: State, p: nat)
    requires Places(s) && Supply(z, s) && Node(Producer, p) in s.execution && p < |s.producers| && !Terminal(s, p)
    ensures Ordered(s, Node(Producer, p))
    ensures ExecuteProducer(s, Node(Producer, p)) == Some(Finish(s, Node(Producer, p)))
  {
    assert StatusAt(s, p) && Node(Producer, p) in s.issued && Node(Producer, p) !in s.log;
  }

  lemma FinishKeeps(z: Sizes, s: State, p: nat)
    requires Inv(z, s) && Node(Producer, p) in s.execution && p < |s.producers| && !Terminal(s, p)
    ensures Ordered(s, Node(Producer, p))
    ensures ExecuteProducer(s, Node(Producer, p)).Some? && Inv(z, ExecuteProducer(s, Node(Producer, p)).value)
  {
    hide Places, Stores, Supply, Terminal, ExecuteProducer;
    FinishShape(z, s, p);
    var s' := Finish(s, Node(Producer, p));
    FinishPlaces(s, s', Node(Producer, p));
    FinishSupply(z, s, s', p);
    StayStores(z, s, s');
  }

  lemma ProducerKeeps(z: Sizes, s: State, p: nat)
    requires Inv(z, s) && Node(Producer, p) in s.execution
    ensures Ordered(s, Node(Producer, p))
    ensures ExecuteProducer(s, Node(Producer, p)).Some? && Inv(z, ExecuteProducer(s, Node(Producer, p)).value)
  {
    assert StatusAt(s, p);
    if Terminal(s, p) {
      BufferKeeps(z, s, p);
    } else {
      FinishKeeps(z, s, p);
    }
  }

  /** A value that was forwarded has its entry in STLMap and its store in SVB. */
  lemma RecvSucceeds(z: Sizes, s: State, p: nat)
    requires Places(s) && Supply(z, s)
    ensures ExecuteRecv(s, Node(Recv, p)).Some?
  {
  }

  lemma RecvKeeps(z: Sizes, s: State, p: nat)
    requires Inv(z, s) && Node(Recv, p) in s.execution
    ensures ExecuteRecv(s, Node(Recv, p)).Some? && Inv(z, ExecuteRecv(s, Node(Recv, p)).value)
  {
    hide Places, Stores, Supply;
    RecvSucceeds(z, s, p);
    var s' := ExecuteRecv(s, Node(Recv, p)).value;
    if s' != s {
      RecvTakesSupply(z, s, s', p);
      FinishPlaces(s, s', Node(Recv, p));
      StayStores(z, s, s');
    }
  }

  lemma ExecuteKeeps(z: Sizes, s: State, n: Node)
    requires Inv(z, s) && n in s.execution
    ensures Ordered(s, n) && Execute(s, n).Some? && Inv(z, Execute(s, n).value)
  {
    assert Ordered(s, n);
    hide Places, Stores, Accounts, Values, StatusOk, Forwards, Program, Inv, Ordered;
    match n.family
    case Producer => ProducerKeeps(z, s, n.id);
    case Recv => RecvKeeps(z, s, n.id);
    case Stval => StvalKeeps(z, s, n.id);
    case Staddr => StaddrKeeps(z, s, n.id);
  }

  lemma DrainSucceeds(z: Sizes, s: State, p: nat)
    requires Supply(z, s) && p in s.tl
    ensures p < |s.status| && Drain(s, p).Some?
  {
    assert Terminal(s, p);
  }

  lemma DrainKeeps(z: Sizes, s: State, p: nat)
    requires Inv(z, s) && p in s.tl
    ensures p < |s.status| && Drain(s, p).Some? && Inv(z, Drain(s, p).value)
  {
    hide Places, Stores, Supply;
    DrainSucceeds(z, s, p);
    var s' := Drain(s, p).value;
    if s.status[p] != PENDING {
      DrainMovesSupply(z, s, s', p);
      DrainPlaces(s, s', p);
      StayStores(z, s, s');
    }
  }

  lemma CompleteSucceeds(z: Sizes, s: State, n: Node)
    requires Places(s) && Supply(z, s) && Stores(z, s) && n in s.toComplete
    ensures Complete(s, n).Some?
  {
    assert n in s.log && n !in s.completed;
  }

  /** No node completes twice; a RECV completes after its producer and a STADDR after its STVAL. */
  lemma CompleteKeeps(z: Sizes, s: State, n: Node)
    requires Inv(z, s) && n in s.toComplete
    ensures Complete(s, n).Some? && Inv(z, Complete(s, n).value)
  {
    hide Places, Stores, Supply;
    CompleteSucceeds(z, s, n);
    var s' := Complete(s, n).value;
    CompletePlaces(s, s', n);
    StaySupply(z, s, s');
    StayStores(z, s, s');
  }

  lemma OrderKeeps(z: Sizes, s: State, e: Step)
    requires Inv(z, s) && Enabled(s, e) && (e.NewProducer? || e.NewStaddr? || e.NewStval? || e.NewRecv? || e.Tick?)
    ensures Next(z, s, e).Some? && Inv(z, Next(z, s, e).value)
  {
    hide Places, Stores, Supply;
    var s' := Next(z, s, e).value;
    StayPlaces(s, s');
    StayStores(z, s, s');
    if e.NewProducer? { NewProducerSupply(z, s, e.op); } else { StaySupply(z, s, s'); }
  }

  lemma WakeKeeps(z: Sizes, s: State)
    requires Inv(z, s)
    ensures Inv(z, Wake(s))
  {
    hide Places, Stores, Supply;
    WakePlaces(s);
    StaySupply(z, s, Wake(s));
    StayStores(z, s, Wake(s));
  }

  lemma ReturnKeeps(z: Sizes, s: State, p: nat)
    requires Inv(z, s) && p < |s.status| && Node(Producer, p) in s.issued && s.status[p] == PENDING
    ensures Inv(z, MemoryReturn(s, p))
  {
    hide Places, Stores, Supply;
    ReturnSupply(z, s, p);
    StayPlaces(s, MemoryReturn(s, p));
    StayStores(z, s, MemoryReturn(s, p));
  }

  /** Whatever step is taken next, no assert fails and the invariant holds again. */
  lemma StepKeeps(z: Sizes, s: State, e: Step)
    requires Inv(z, s) && Enabled(s, e)
    ensures Next(z, s, e).Some? && Inv(z, Next(z, s, e).value)
  {
    hide Places, Stores, Supply, Issue, Execute, Drain, Complete;
    match e
    case TryIssue(n, lsq, allowed) => IssueKeeps(z, s, n, lsq, allowed);
    case Run(n) => ExecuteKeeps(z, s, n);
    case Move(p) => DrainKeeps(z, s, p);
    case Finished(n) => CompleteKeeps(z, s, n);
    case WakeUp => WakeKeeps(z, s);
    case Return(p) => ReturnKeeps(z, s, p);
    case _ => OrderKeeps(z, s, e);
  }

  /** In every run the invariant holds and no assert fails. */
  lemma {:induction false} RunKeeps(z: Sizes, steps: seq<Step>, s: Option<State>)
    requires Reaches(z, steps, s)
    ensures s.Some? && Inv(z, s.value)
  {
    if |steps| == 0 {
      InitHolds(z);
    } else {
      var last := |steps| - 1;
      var s0 :| Reaches(z, steps[..last], Some(s0)) && Enabled(s0, steps[last]) && s == Next(z, s0, steps[last]);
      RunKeeps(z, steps[..last], Some(s0));
      StepKeeps(z, s0, steps[last]);
    }
  }
}
