/** CacheSet and FunctionalCache as the simulator runs them: a doubly linked list between two
    sentinels, a map from tags to nodes, and a list of free nodes. */
module CacheSets {
  import opened Wrappers
  import opened Recency
  import opened Arithmetic
  import opened CacheAddress

  class CacheLine {
    var addr: nat
    var offset: nat
    var prev: CacheLine?
    var next: CacheLine?
    var nodeId: int
    var numAccesses: nat
    var rrpv: int
    var dirty: bool

    constructor ()
      ensures prev == null && next == null
    {
      addr, offset, nodeId, numAccesses, rrpv, dirty := 0, 0, 0, 0, 0, false;
      prev, next := null, null;
    }

    function View(): Line
      reads this`addr, this`offset, this`nodeId, this`numAccesses, this`dirty
    {
      Line(addr, offset, nodeId, numAccesses, dirty)
    }
  }

  predicate Distinct(s: seq<CacheLine>) {
    forall i, j :: 0 <= i < j < |s| ==> s[i] != s[j]
  }

  /** Neighbours in `s` point at each other. */
  ghost predicate Linked(s: seq<CacheLine>)
    reads s`next, s`prev
  {
    forall i :: 0 <= i < |s| - 1 ==> s[i].next == s[i+1] && s[i+1].prev == s[i]
  }

  ghost function Views(s: seq<CacheLine>): (r: seq<Line>)
    reads s
    ensures |r| == |s| && forall i :: 0 <= i < |s| ==> r[i] == s[i].View()
  {
    seq(|s|, i requires 0 <= i < |s| reads s => s[i].View())
  }

  lemma DistinctParts(head: CacheLine, tail: CacheLine, order: seq<CacheLine>, free: seq<CacheLine>)
    requires Distinct([head] + order + [tail] + free)
    ensures Distinct([head] + order + [tail]) && Distinct(order) && Distinct(free)
  {
    var a := [head] + order + [tail];
    var s := a + free;
    assert forall i :: 0 <= i < |a| ==> a[i] == s[i];
    assert forall i :: 0 <= i < |order| ==> order[i] == a[i + 1];
    assert forall i :: 0 <= i < |free| ==> free[i] == s[|a| + i];
  }

  lemma {:induction false} CountedOnce(s: seq<CacheLine>, x: CacheLine)
    requires Distinct(s)
    ensures multiset(s)[x] <= 1
  {
    if |s| > 0 {
      CountedOnce(s[1..], x);
      assert s == [s[0]] + s[1..];
      if x == s[0] { assert x !in s[1..]; }
    }
  }

  /** The same nodes in another order are still distinct. */
  lemma Permuted(a: seq<CacheLine>, b: seq<CacheLine>)
    requires Distinct(a) && multiset(a) == multiset(b)
    ensures Distinct(b)
  {
    forall i, j | 0 <= i < j < |b| ensures b[i] != b[j] {
      assert b == b[..i] + [b[i]] + b[i+1..j] + [b[j]] + b[j+1..];
      CountedOnce(a, b[i]);
    }
  }

  /** The map leads from each line's tag to its node, and to nothing else. */
  ghost predicate MapsTo(m: map<nat, CacheLine?>, order: seq<CacheLine>, r: seq<Line>) {
    && |order| == |r|
    && (forall i :: 0 <= i < |r| ==> r[i].tag in m && m[r[i].tag] == order[i])
    && (forall t :: t in m && m[t] != null ==> exists i :: 0 <= i < |r| && r[i].tag == t && order[i] == m[t])
  }

  lemma MapsWithout(m: map<nat, CacheLine?>, order: seq<CacheLine>, r: seq<Line>, i: nat)
    requires MapsTo(m, order, r) && i < |r| && Distinct(order)
    ensures MapsTo(m - {r[i].tag}, order[..i] + order[i+1..], Drop(r, i))
  {
    var m', order', r' := m - {r[i].tag}, order[..i] + order[i+1..], Drop(r, i);
    forall k | 0 <= k < |r'| ensures r'[k].tag in m' && m'[r'[k].tag] == order'[k] {
      var k' := if k < i then k else k + 1;
      assert r'[k] == r[k'] && order'[k] == order[k'] && order[k'] != order[i];
    }
    forall t | t in m' && m'[t] != null ensures exists k :: 0 <= k < |r'| && r'[k].tag == t && order'[k] == m'[t] {
      var k :| 0 <= k < |r| && r[k].tag == t && order[k] == m[t];
      var k' := if k < i then k else k - 1;
      assert r'[k'] == r[k] && order'[k'] == order[k];
    }
  }

  lemma MapsWith(m: map<nat, CacheLine?>, order: seq<CacheLine>, r: seq<Line>, c: CacheLine, l: Line)
    requires MapsTo(m, order, r) && (l.tag in m ==> m[l.tag] == null)
    ensures MapsTo(m[l.tag := c], [c] + order, [l] + r)
  {
    var m', order', r' := m[l.tag := c], [c] + order, [l] + r;
    forall t | t in m' && m'[t] != null ensures exists k :: 0 <= k < |r'| && r'[k].tag == t && order'[k] == m'[t] {
      if t == l.tag {
        assert r'[0].tag == t && order'[0] == m'[t];
      } else {
        var k :| 0 <= k < |r| && r[k].tag == t && order[k] == m[t];
        assert r'[k + 1].tag == t && order'[k + 1] == m'[t];
      }
    }
  }

  lemma MapsFront(m: map<nat, CacheLine?>, order: seq<CacheLine>, r: seq<Line>, i: nat, l: Line)
    requires MapsTo(m, order, r) && i < |r| && Distinct(order) && l.tag == r[i].tag
    ensures MapsTo(m, [order[i]] + (order[..i] + order[i+1..]), [l] + Drop(r, i))
  {
    MapsWithout(m, order, r, i);
    MapsWith(m - {l.tag}, order[..i] + order[i+1..], Drop(r, i), order[i], l);
    assert (m - {l.tag})[l.tag := order[i]] == m;
  }

  lemma MapsNull(m: map<nat, CacheLine?>, order: seq<CacheLine>, r: seq<Line>, t: nat)
    requires MapsTo(m, order, r) && t !in m
    ensures MapsTo(m[t := null], order, r)
  {
    var m' := m[t := null];
    forall u | u in m' && m'[u] != null ensures exists k :: 0 <= k < |r| && r[k].tag == u && order[k] == m'[u] {
      assert u in m && m[u] == m'[u];
    }
  }

  class CacheSet {
    const associativity: nat
    const head: CacheLine
    const tail: CacheLine
    var freeEntries: seq<CacheLine>
    var addrMap: map<nat, CacheLine?>
    /** The nodes between the sentinels, front to back. */
    ghost var order: seq<CacheLine>

    /** All nodes of the set. */
    ghost function Nodes(): seq<CacheLine>
      reads this`order, this`freeEntries
    {
      [head] + order + [tail] + freeEntries
    }

    ghost function Repr(): set<CacheLine>
      reads this`order, this`freeEntries
    {
      set c | c in Nodes()
    }

    /** The list and the free nodes. */
    ghost predicate Listed()
      reads this`order, this`freeEntries, head`next, head`prev, tail`next, tail`prev, order`next, order`prev
    {
      && associativity > 0
      && Distinct(Nodes())
      && Linked([head] + order + [tail])
      && |order| + |freeEntries| == associativity
    }

    /** The map finds exactly the nodes of the list. */
    ghost predicate Mapped()
      reads this`order, this`addrMap, order
    {
      MapsTo(addrMap, order, Contents())
    }

    ghost predicate Valid()
      reads this, head, tail, order, freeEntries
    {
      Listed() && Mapped()
    }

    /** The set as a recency sequence. */
    ghost function Contents(): seq<Line>
      reads this`order, order
    {
      Views(order)
    }

    constructor (size: nat)
      requires size > 0
      ensures Valid() && Contents() == [] && addrMap == map[] && associativity == size && fresh(Nodes())
    {
      associativity := size;
      var h := new CacheLine();
      var t := new CacheLine();
      h.next, t.prev := t, h;
      var free: seq<CacheLine> := [];
      for i := 0 to size
        invariant |free| == i && fresh(free) && h !in free && t !in free
        invariant Distinct(free) && h.next == t && t.prev == h
      {
        var c := new CacheLine();
        free := free + [c];
      }
      head, tail, freeEntries, addrMap, order := h, t, free, map[], [];
      new;
      assert Nodes() == [h, t] + free;
    }

    /** deleteNode: the neighbours close the gap. */
    static method DeleteNode(c: CacheLine, ghost s: seq<CacheLine>, ghost i: nat)
      requires Distinct(s) && Linked(s) && 0 < i < |s| - 1 && s[i] == c
      modifies s[..|s|-1]`next, s[1..]`prev
      ensures Linked(s[..i] + s[i+1..])
    {
      assert s[i-1].next == c && s[i].prev == s[i-1] && s[i].next == s[i+1];
      c.prev.next := c.next;
      c.next.prev := c.prev;
      ghost var t := s[..i] + s[i+1..];
      assert forall j :: 0 <= j < |t| ==> t[j] == s[if j < i then j else j + 1];
      assert forall j :: 0 <= j < i - 1 ==> s[j].next == s[j+1] && s[j+1].prev == s[j];
      assert forall j :: i < j < |s| - 1 ==> s[j].next == s[j+1] && s[j+1].prev == s[j];
    }

    /** insertFront: after the node `at`, which is first in the list. */
    static method InsertFront(c: CacheLine, at: CacheLine, ghost s: seq<CacheLine>)
      requires Distinct(s) && Linked(s) && |s| >= 2 && s[0] == at && c !in s
      modifies c`next, c`prev, s[..|s|-1]`next, s[1..]`prev
      ensures Linked([at, c] + s[1..])
    {
      assert s[0].next == s[1];
      c.next := at.next;
      c.prev := at;
      at.next := c;
      c.next.prev := c;
    }

    /** Node `c` is neither in the list nor free. */
    ghost predicate Loose(c: CacheLine)
      reads this`order, this`freeEntries, head`next, head`prev, tail`next, tail`prev, order`next, order`prev
    {
      && associativity > 0
      && Distinct([head] + order + [tail] + [c] + freeEntries)
      && Linked([head] + order + [tail])
      && |order| + |freeEntries| + 1 == associativity
    }

    /** deleteNode on node `i` of the list. */
    method Unlink(c: CacheLine, ghost i: nat)
      requires Listed() && i < |order| && order[i] == c
      modifies this`order, head`next, tail`prev, order`next, order`prev
      ensures Loose(c) && order == old(order[..i] + order[i+1..])
    {
      hide Distinct, Linked;
      CutOut(head, tail, order, freeEntries, i);
      DeleteNode(c, [head] + order + [tail], i + 1);
      order := order[..i] + order[i+1..];
    }

    /** insertFront after the front sentinel. */
    method PutFront(c: CacheLine)
      requires Loose(c)
      modifies this`order, c`next, c`prev, head`next, tail`prev, order`next, order`prev
      ensures Listed() && order == [c] + old(order)
    {
      hide Distinct, Linked;
      PutIn(head, tail, order, freeEntries, c);
      InsertFront(c, head, [head] + order + [tail]);
      assert [head, c] + ([head] + order + [tail])[1..] == [head] + ([c] + order) + [tail];
      order := [c] + order;
    }

    method MoveToFront(c: CacheLine, ghost i: nat)
      requires Listed() && i < |order| && order[i] == c
      modifies this`order, head`next, tail`prev, order`next, order`prev
      ensures Listed() && order == [c] + old(order[..i] + order[i+1..])
      ensures Contents() == [old(Contents())[i]] + Drop(old(Contents()), i)
    {
      hide Listed, Loose, Views;
      ghost var r, was := Contents(), order;
      Unlink(c, i);
      PutFront(c);
      assert forall k :: 0 <= k < |was| ==> was[k].View() == r[k];
      Reordered(r, Contents(), i);
    }

    /** access(): a hit moves the line to the front. A miss leaves a null entry in the map. */
    method AccessLine(tag: nat, offset: nat, node: int, isLoad: bool) returns (hit: bool)
      requires Valid()
      modifies this, head, tail, order
      ensures Valid() && Repr() == old(Repr())
      ensures hit <==> Resident(old(Contents()), tag)
      ensures tag in addrMap
      ensures Contents() == Access(old(Contents()), tag, offset, node, isLoad)
    {
      hide Listed, Mapped, Valid, Contents;
      Sizes();
      var c := Lookup(tag);
      hit := c != null;
      if c != null { Hit(c, Find(Contents(), tag), offset, node, isLoad); }
    }

    /** addr_map[tag]: makes a null entry when there is none. */
    method Lookup(tag: nat) returns (c: CacheLine?)
      requires Valid()
      modifies this`addrMap
      ensures Valid() && Finds(c, tag) && tag in addrMap
      ensures c == null <==> !Resident(Contents(), tag)
    {
      hide Listed, Distinct, Linked;
      Located(tag);
      if tag !in addrMap { MapsNull(addrMap, order, Contents(), tag); }
      if tag !in addrMap { addrMap := addrMap[tag := null]; }
      c := addrMap[tag];
    }

    /** `c` is the node of the tag, if the tag is resident. */
    ghost predicate Finds(c: CacheLine?, tag: nat)
      reads this`order, order
    {
      var i := Find(Contents(), tag);
      if i < |order| then c == order[i] else c == null
    }

    lemma Located(tag: nat)
      requires Valid()
      ensures Finds(if tag in addrMap then addrMap[tag] else null, tag)
    {
      if tag in addrMap && addrMap[tag] != null {
        var i :| 0 <= i < |order| && order[i] == addrMap[tag] && Contents()[i].tag == tag;
        FirstWithTag(i);
        FindIs(Contents(), tag, i);
      } else {
        FindIs(Contents(), tag, |order|);
      }
    }

    /** The line of a hit: to the front, with what the access tells of it. */
    method Hit(c: CacheLine, ghost i: nat, offset: nat, node: int, isLoad: bool)
      requires Valid() && i < |order| && order[i] == c
      modifies this`order, head`next, tail`prev, order
      ensures Valid() && Repr() == old(Repr())
      ensures var l := old(c.View());
              Contents() == [l.(offset := offset, node := node, accesses := l.accesses + 1, dirty := l.dirty || !isLoad)]
                            + Drop(old(Contents()), i)
    {
      hide Listed, Distinct, Linked, Contents, MapsTo;
      ghost var r, was := Contents(), order;
      Sizes();
      OthersDiffer(i);
      SameNodes(head, tail, order, freeEntries, i);
      MoveToFront(c, i);
      OthersDiffer(0);
      Update(c, offset, node, isLoad);
      MapsFront(addrMap, was, r, i, Contents()[0]);
    }

    /** The data of a line that was used again and is in front. */
    method Update(c: CacheLine, offset: nat, node: int, isLoad: bool)
      requires Listed() && |order| > 0 && order[0] == c
      requires forall k :: 0 < k < |order| ==> order[k] != order[0]
      modifies c`offset, c`nodeId, c`dirty, c`numAccesses, c`rrpv
      ensures Listed() && |Contents()| > 0
      ensures var l := old(Contents())[0];
              Contents() == [l.(offset := offset, node := node, accesses := l.accesses + 1, dirty := l.dirty || !isLoad)]
                            + old(Contents())[1..]
    {
      hide Listed, Views;
      ghost var r := Contents();
      Sizes();
      if !isLoad { c.dirty := true; }
      c.offset := offset;
      c.nodeId := node;
      c.numAccesses := c.numAccesses + 1;
      c.rrpv := 0;
      assert forall k :: 0 < k < |order| ==> order[k].View() == r[k];
      assert Contents() == [c.View()] + r[1..];
    }

    /** insert() of a tag that is not resident; what it evicted, if anything. */
    method InsertLine(tag: nat, offset: nat, node: int, isLoad: bool) returns (victim: Option<Line>)
      requires Valid() && !Resident(Contents(), tag)
      modifies this, head, tail, order, freeEntries
      ensures Valid() && Repr() == old(Repr())
      ensures victim == Victim(associativity, old(Contents()))
      ensures Contents() == Insert(associativity, old(Contents()), tag, offset, node, isLoad)
    {
      hide Listed, Loose, Mapped;
      NotResident(tag);
      Counts();
      var c: CacheLine;
      if |freeEntries| == 0 {
        c, victim := TakeLast();
      } else {
        c := TakeFree();
        victim := None;
      }
      Place(c, tag, offset, node, isLoad);
    }

    lemma Counts()
      requires Listed()
      ensures |freeEntries| == 0 <==> |order| >= associativity
      ensures associativity > 0 && |Contents()| == |order|
    {
    }

    lemma NotResident(tag: nat)
      requires Valid() && !Resident(Contents(), tag)
      ensures tag in addrMap ==> addrMap[tag] == null
    {
      Located(tag);
    }

    /** The last line of a full set is given up. */
    method TakeLast() returns (c: CacheLine, victim: Option<Line>)
      requires Valid() && |order| > 0
      modifies this`order, this`addrMap, head`next, tail`prev, order`next, order`prev
      ensures Loose(c) && Mapped() && c == old(order)[old(|order|) - 1] && order == old(order)[..old(|order|) - 1]
      ensures victim == Some(c.View())
      ensures forall t :: t in addrMap ==> t in old(addrMap) && addrMap[t] == old(addrMap)[t]
      ensures Repr() + {c} == old(Repr())
    {
      hide Distinct, Linked, Loose, Listed, Views, MapsTo;
      ghost var r, n := Contents(), |order| - 1;
      OthersDiffer(n);
      MapsWithout(addrMap, order, r, n);
      assert order[..n] + order[n+1..] == order[..n] && order == order[..n] + [order[n]];
      c := LastLine();
      victim := Some(c.View());
      addrMap := addrMap - {c.addr};
      Unlink(c, n);
      assert Contents() == Drop(r, n);
    }

    /** tail->prev. */
    method LastLine() returns (c: CacheLine)
      requires Listed() && |order| > 0
      ensures c == order[|order| - 1]
    {
      assert ([head] + order + [tail])[|order|] == order[|order| - 1] && ([head] + order + [tail])[|order| + 1] == tail;
      c := tail.prev;
    }

    method TakeFree() returns (c: CacheLine)
      requires Listed() && |freeEntries| > 0
      modifies this`freeEntries
      ensures Loose(c) && c == old(freeEntries)[old(|freeEntries|) - 1] && freeEntries == old(freeEntries)[..old(|freeEntries|) - 1]
      ensures Repr() + {c} == old(Repr())
    {
      var n := |freeEntries| - 1;
      c := freeEntries[n];
      assert freeEntries == freeEntries[..n] + [c];
      Permuted(Nodes(), [head] + order + [tail] + [c] + freeEntries[..n]);
      freeEntries := freeEntries[..n];
    }

    /** The new line in a loose node, in front. */
    method Place(c: CacheLine, tag: nat, offset: nat, node: int, isLoad: bool)
      requires Loose(c) && Mapped()
      requires tag in addrMap ==> addrMap[tag] == null
      modifies this`order, this`addrMap, c, head`next, tail`prev, order`next, order`prev
      ensures Valid() && Contents() == [Line(tag, offset, node, 1, !isLoad)] + old(Contents())
      ensures Repr() == old(Repr()) + {c}
    {
      hide Distinct, Linked, Listed, Loose, Views, MapsTo;
      ghost var r, was := Contents(), order;
      NotListed(c);
      Fill(c, tag, offset, node, isLoad);
      MapsWith(addrMap, order, r, c, c.View());
      addrMap := addrMap[tag := c];
      PutFront(c);
      assert forall k :: 0 <= k < |was| ==> was[k].View() == r[k];
      assert Contents() == [c.View()] + r;
    }

    method Fill(c: CacheLine, tag: nat, offset: nat, node: int, isLoad: bool)
      requires Loose(c)
      modifies c`addr, c`offset, c`nodeId, c`numAccesses, c`rrpv, c`dirty
      ensures Loose(c) && c.View() == Line(tag, offset, node, 1, !isLoad)
    {
      c.addr := tag;
      c.offset := offset;
      c.nodeId := node;
      c.numAccesses := 1;
      c.rrpv := 2;
      c.dirty := !isLoad;
    }

    lemma NotListed(c: CacheLine)
      requires Loose(c)
      ensures c !in order
    {
      var s := [head] + order + [tail] + [c] + freeEntries;
      assert forall i :: 0 <= i < |order| ==> order[i] == s[i + 1];
      assert c == s[|order| + 2];
    }

    /** evict(): the line leaves, if it is there; true when it was dirty. */
    method EvictLine(tag: nat) returns (dirty: bool, gone: Option<Line>)
      requires Valid()
      modifies this, head, tail, order
      ensures Valid() && Repr() == old(Repr())
      ensures Contents() == Evict(old(Contents()), tag)
      ensures var r := old(Contents());
              gone == (if Resident(r, tag) then Some(r[Find(r, tag)]) else None) && (dirty <==> gone.Some? && gone.value.dirty)
    {
      hide Listed, Mapped, Valid, Contents;
      Located(tag);
      Sizes();
      dirty, gone := false, None;
      if tag in addrMap {
        var c := addrMap[tag];
        if c != null {
          gone := Some(c.View());
          dirty := c.dirty;
          Free(c, Find(Contents(), tag));
        }
      }
    }

    lemma Sizes()
      ensures |Contents()| == |order|
      ensures forall i :: 0 <= i < |order| ==> Contents()[i] == order[i].View()
    {
    }

    /** The line is taken out of the map and the list, and its node is free. */
    method Free(c: CacheLine, ghost i: nat)
      requires Valid() && i < |order| && order[i] == c
      modifies this, head`next, tail`prev, order`next, order`prev
      ensures Valid() && Repr() == old(Repr()) && Contents() == Drop(old(Contents()), i)
    {
      hide Listed, Loose, Distinct, Linked, Views, MapsTo;
      ghost var r := Contents();
      OthersDiffer(i);
      SameNodes(head, tail, order, freeEntries, i);
      MapsWithout(addrMap, order, r, i);
      addrMap := addrMap - {c.addr};
      Unlink(c, i);
      GiveBack(c);
      assert forall k :: 0 <= k < |order| ==> order[k].View() == r[if k < i then k else k + 1];
      assert Contents() == Drop(r, i);
    }

    method GiveBack(c: CacheLine)
      requires Loose(c)
      modifies this`freeEntries
      ensures Listed() && freeEntries == old(freeEntries) + [c]
    {
      Permuted([head] + order + [tail] + [c] + freeEntries, [head] + order + [tail] + (freeEntries + [c]));
      freeEntries := freeEntries + [c];
    }

    /** present(): a resident tag, or one that was looked for in vain. */
    method HasEntry(tag: nat) returns (present: bool)
      requires Valid()
      ensures present <==> tag in addrMap
      ensures Resident(Contents(), tag) <==> present && addrMap[tag] != null
    {
      Located(tag);
      Sizes();
      present := tag in addrMap;
    }

    lemma OthersDiffer(i: nat)
      requires Listed() && i < |order|
      ensures Distinct(order) && forall k :: 0 <= k < |order| && k != i ==> order[k] != order[i]
    {
      DistinctParts(head, tail, order, freeEntries);
    }

    lemma FirstWithTag(i: nat)
      requires Valid() && i < |order|
      ensures forall k :: 0 <= k < |order| && k != i ==> order[k].addr != order[i].addr
    {
      DistinctParts(head, tail, order, freeEntries);
    }
  }

  /** present() says yes to a tag that was only looked for. */
  method MissedAccess(tag: nat) returns (s: CacheSet, before: bool, after: bool)
    ensures s.Valid() && !Resident(s.Contents(), tag)
    ensures !before && after
  {
    s := new CacheSet(1);
    assert s.head in s.Nodes() && s.tail in s.Nodes() && |s.order| == |s.Contents()| == 0;
    before := s.HasEntry(tag);
    var hit := s.AccessLine(tag, 0, 0, true);
    after := s.HasEntry(tag);
  }

  lemma Reordered(r: seq<Line>, r': seq<Line>, i: nat)
    requires i < |r| && |r'| == |r|
    requires forall k :: 0 < k < |r| ==> r'[k] == r[if k <= i then k - 1 else k]
    ensures r' == [r'[0]] + Drop(r, i)
  {
  }

  lemma FindIs(r: seq<Line>, tag: nat, i: nat)
    requires i <= |r| && (forall k: nat :: k < i ==> r[k].tag != tag) && (i < |r| ==> r[i].tag == tag)
    ensures Find(r, tag) == i
  {
  }

  lemma CutOut(head: CacheLine, tail: CacheLine, order: seq<CacheLine>, free: seq<CacheLine>, i: nat)
    requires Distinct([head] + order + [tail] + free) && i < |order|
    ensures Distinct([head] + order + [tail])
    ensures var s, rest := [head] + order + [tail], order[..i] + order[i+1..];
            && s[i + 1] == order[i] && s[..i + 1] + s[i + 2..] == [head] + rest + [tail]
            && Distinct([head] + rest + [tail] + [order[i]] + free)
  {
    DistinctParts(head, tail, order, free);
    var s, rest := [head] + order + [tail], order[..i] + order[i+1..];
    assert s[..i + 1] + s[i + 2..] == [head] + rest + [tail];
    assert order == order[..i] + [order[i]] + order[i+1..];
    Permuted(s + free, [head] + rest + [tail] + [order[i]] + free);
  }

  lemma PutIn(head: CacheLine, tail: CacheLine, order: seq<CacheLine>, free: seq<CacheLine>, c: CacheLine)
    requires Distinct([head] + order + [tail] + [c] + free)
    ensures Distinct([head] + order + [tail]) && c !in [head] + order + [tail]
    ensures Distinct([head] + ([c] + order) + [tail] + free)
  {
    hide Distinct;
    FirstPart([head] + order + [tail], c, free);
    assert multiset([head] + order + [tail] + [c] + free) == multiset([head] + ([c] + order) + [tail] + free);
    Permuted([head] + order + [tail] + [c] + free, [head] + ([c] + order) + [tail] + free);
  }

  lemma FirstPart(s: seq<CacheLine>, c: CacheLine, free: seq<CacheLine>)
    requires Distinct(s + [c] + free)
    ensures Distinct(s) && c !in s
  {
    var all := s + [c] + free;
    assert forall i :: 0 <= i < |s| ==> s[i] == all[i];
    assert all[|s|] == c;
  }

  lemma SameNodes(head: CacheLine, tail: CacheLine, order: seq<CacheLine>, free: seq<CacheLine>, i: nat)
    requires i < |order|
    ensures var order' := [order[i]] + (order[..i] + order[i+1..]);
            && (forall c :: c in order <==> c in order')
            && (set c | c in [head] + order + [tail] + free) == (set c | c in [head] + order' + [tail] + free)
  {
    assert order == order[..i] + [order[i]] + order[i+1..];
  }
}
