/** FunctionalCache over its sets: every call does to the recency sequences of all sets what
    Apply says, so a cache that is only used through its methods runs like WriteBack.RunAll. */
module FunctionalCaches {
  import opened Wrappers
  import opened Recency
  import opened Arithmetic
  import opened CacheAddress
  import opened CacheSets
  import opened WriteBack

  // ---- one set and the nodes it owns -------------------------------------------------

  lemma OwnNodes(s: CacheSet)
    ensures s.head in s.Repr() && s.tail in s.Repr()
    ensures forall c :: c in s.order ==> c in s.Repr()
    ensures forall c :: c in s.freeEntries ==> c in s.Repr()
  {
    assert s.head in s.Nodes() && s.tail in s.Nodes();
  }

  /** A set in good order, made of the nodes `own`. */
  ghost predicate Owns(s: CacheSet, ways: nat, own: set<CacheLine>)
    reads s, own
  {
    OwnNodes(s);
    s.Repr() == own && s.Valid() && s.associativity == ways
  }

  ghost function Held(s: CacheSet, ways: nat, own: set<CacheLine>): seq<Line>
    requires Owns(s, ways, own)
    reads s, own
  {
    OwnNodes(s);
    s.Contents()
  }

  method AccessSet(s: CacheSet, ghost ways: nat, ghost own: set<CacheLine>, tag: nat, offset: nat, node: int, isLoad: bool)
    returns (hit: bool)
    requires Owns(s, ways, own)
    modifies s, own
    ensures Owns(s, ways, own)
    ensures hit <==> Resident(old(Held(s, ways, own)), tag)
    ensures Held(s, ways, own) == Access(old(Held(s, ways, own)), tag, offset, node, isLoad)
  {
    OwnNodes(s);
    hide CacheSet.Valid, CacheSet.Contents, CacheSet.Repr, Access, Resident;
    hit := s.AccessLine(tag, offset, node, isLoad);
  }

  method InsertIntoSet(s: CacheSet, ghost ways: nat, ghost own: set<CacheLine>, tag: nat, offset: nat, node: int, isLoad: bool)
    returns (victim: Option<Line>)
    requires Owns(s, ways, own) && !Resident(Held(s, ways, own), tag)
    modifies s, own
    ensures Owns(s, ways, own)
    ensures victim == Victim(ways, old(Held(s, ways, own)))
    ensures Held(s, ways, own) == Insert(ways, old(Held(s, ways, own)), tag, offset, node, isLoad)
  {
    OwnNodes(s);
    hide CacheSet.Valid, CacheSet.Contents, CacheSet.Repr, Insert, Resident, Victim;
    victim := s.InsertLine(tag, offset, node, isLoad);
  }

  method EvictFromSet(s: CacheSet, ghost ways: nat, ghost own: set<CacheLine>, tag: nat) returns (dirty: bool)
    requires Owns(s, ways, own)
    modifies s, own
    ensures Owns(s, ways, own)
    ensures var r := old(Held(s, ways, own)); dirty <==> Resident(r, tag) && r[Find(r, tag)].dirty
    ensures Held(s, ways, own) == Evict(old(Held(s, ways, own)), tag)
  {
    OwnNodes(s);
    hide CacheSet.Valid, CacheSet.Contents, CacheSet.Repr, Evict;
    var gone: Option<Line>;
    dirty, gone := s.EvictLine(tag);
  }

  // ---- the cache ---------------------------------------------------------------------

  /** A victim as the cache above sees it: the line to write back to, and whether to. */
  datatype Evicted = Evicted(lineNumber: nat, offset: nat, node: int, dirty: bool)

  /** For powers of two of sets and bytes in a line. */
  class FunctionalCache {
    const logSets: nat
    const logLine: nat
    const ways: nat
    const sets: seq<CacheSet>
    /** The nodes of each set, which never change hands, and all of them. */
    ghost const nodes: seq<set<CacheLine>>
    ghost const lines: set<CacheLine>

    predicate Sized() {
      logSets + logLine <= 63 && ways > 0 && |sets| == Pow2(logSets)
    }

    /** The sets share no node. */
    ghost predicate Apart() {
      && |nodes| == |sets|
      && (forall i :: 0 <= i < |nodes| ==> nodes[i] <= lines)
      && (forall i, j :: 0 <= i < j < |sets| ==> sets[i] != sets[j] && nodes[i] !! nodes[j])
    }

    ghost predicate Valid()
      reads sets, lines
    {
      Sized() && Apart() && forall i :: 0 <= i < |sets| ==> Owns(sets[i], ways, nodes[i])
    }

    /** The recency sequences of the sets. */
    ghost function View(): (r: seq<seq<Line>>)
      requires Valid()
      reads sets, lines
      ensures |r| == |sets| && forall i :: 0 <= i < |sets| ==> r[i] == Held(sets[i], ways, nodes[i])
    {
      seq(|sets|, i requires 0 <= i < |sets| && Valid() reads sets, lines => Held(sets[i], ways, nodes[i]))
    }

    function SetIndex(address: nat): (k: nat)
      requires Sized()
      ensures k < |sets| && k == SetId(logSets, logLine, address)
    {
      RebuiltIsAddress(logSets, logLine, address);
      SetId(logSets, logLine, address)
    }

    function TagOf(address: nat): nat
      requires Sized()
    {
      Tag(logSets, logLine, address)
    }

    constructor (logSets: nat, logLine: nat, ways: nat)
      requires logSets + logLine <= 63 && ways > 0
      ensures this.logSets == logSets && this.logLine == logLine && this.ways == ways
      ensures Valid() && View() == RunAll(logSets, logLine, ways, [])
      ensures fresh(sets) && fresh(lines)
    {
      var all: seq<CacheSet> := [];
      ghost var own: seq<set<CacheLine>>, every: set<CacheLine> := [], {};
      for i := 0 to Pow2(logSets)
        invariant |all| == |own| == i && fresh(all) && fresh(every)
        invariant forall k :: 0 <= k < i ==> Owns(all[k], ways, own[k]) && Held(all[k], ways, own[k]) == []
        invariant forall k :: 0 <= k < i ==> own[k] <= every
        invariant forall k, l :: 0 <= k < l < i ==> all[k] != all[l] && own[k] !! own[l]
      {
        hide CacheSet.Valid, CacheSet.Contents;
        var s := new CacheSet(ways);
        all, own, every := all + [s], own + [s.Repr()], every + s.Repr();
      }
      this.logSets, this.logLine, this.ways, sets, nodes, lines := logSets, logLine, ways, all, own, every;
    }

    method AccessAddress(address: nat, node: int, isLoad: bool) returns (hit: bool)
      requires Valid()
      modifies sets[SetIndex(address)], nodes[SetIndex(address)]
      ensures Valid()
      ensures hit == Resident(old(View())[SetIndex(address)], TagOf(address))
      ensures View() == Apply(logSets, logLine, ways, old(View()), Touch(Look, address, node, isLoad))
    {
      hide Owns, Held, Access, Resident;
      var k := SetIndex(address);
      hit := AccessSet(sets[k], ways, nodes[k], TagOf(address), Offset(logLine, address), node, isLoad);
    }

    /** insert(); the line number of the victim is rebuilt from its tag and the set. */
    method InsertAddress(address: nat, node: int, isLoad: bool) returns (victim: Option<Evicted>)
      requires Valid() && !Resident(View()[SetIndex(address)], TagOf(address))
      modifies sets[SetIndex(address)], nodes[SetIndex(address)]
      ensures Valid()
      ensures match Victim(ways, old(View())[SetIndex(address)])
              case None => victim == None
              case Some(l) => victim == Some(Evicted(LineNumber(logSets, l.tag, SetIndex(address)), l.offset, l.node, l.dirty))
      ensures View() == Apply(logSets, logLine, ways, old(View()), Touch(Fill, address, node, isLoad))
    {
      hide Owns, Held, Insert, Resident, Victim;
      var k := SetIndex(address);
      var l := InsertIntoSet(sets[k], ways, nodes[k], TagOf(address), Offset(logLine, address), node, isLoad);
      victim := None;
      if l.Some? {
        victim := Some(Evicted(l.value.tag * |sets| + k, l.value.offset, l.value.node, l.value.dirty));
      }
    }

    method EvictAddress(address: nat) returns (dirty: bool)
      requires Valid()
      modifies sets[SetIndex(address)], nodes[SetIndex(address)]
      ensures Valid()
      ensures var r := old(View())[SetIndex(address)];
              dirty <==> Resident(r, TagOf(address)) && r[Find(r, TagOf(address))].dirty
      ensures View() == Apply(logSets, logLine, ways, old(View()), Touch(Flush, address, 0, true))
    {
      hide Owns, Held, Evict;
      var k := SetIndex(address);
      dirty := EvictFromSet(sets[k], ways, nodes[k], TagOf(address));
    }
  }

  /** A cache that is built and then used, one call after the other. */
  method UseCache(logSets: nat, logLine: nat, ways: nat, ts: seq<Touch>) returns (cache: FunctionalCache)
    requires logSets + logLine <= 63 && ways > 0 && ProperAll(logSets, logLine, ways, ts)
    ensures cache.logSets == logSets && cache.logLine == logLine && cache.ways == ways
    ensures fresh(cache) && fresh(cache.sets) && fresh(cache.lines)
    ensures cache.Valid() && cache.View() == RunAll(logSets, logLine, ways, ts)
  {
    cache := new FunctionalCache(logSets, logLine, ways);
    for i := 0 to |ts|
      invariant fresh(cache.sets) && fresh(cache.lines)
      invariant cache.Valid() && cache.View() == RunAll(logSets, logLine, ways, ts[..i])
    {
      hide Apply, Owns, Held;
      assert ts[..i + 1][..i] == ts[..i];
      assert MayFollow(logSets, logLine, RunAll(logSets, logLine, ways, ts[..i]), ts[i]);
      match ts[i].kind
      case Look => var hit := cache.AccessAddress(ts[i].address, ts[i].node, ts[i].isLoad);
      case Fill => var victim := cache.InsertAddress(ts[i].address, ts[i].node, ts[i].isLoad);
      case Flush => var dirty := cache.EvictAddress(ts[i].address);
    }
    assert ts[..|ts|] == ts;
  }
}
