/** The refresh timer over whole runs: in which cycles each rank's refresh is asked for. */
module DramRefreshes {
  import opened Wrappers
  import Arithmetic
  import opened DramTypes
  import opened DramBanks
  import opened DramQueue
  import opened DramSystem
  import opened DramTheorems
  import opened DramPromises
  import opened DramTable

  /** The share of a rank in the refresh interval. */
  function Share(c: Config): nat
    requires c.ranks > 0
  {
    c.refreshInterval / c.ranks
  }

  /** The cycle of refresh number `n` of rank `r`: staggered over the ranks, once an interval. */
  function RefreshAt(c: Config, r: nat, n: nat): nat
    requires c.ranks > 0
  {
    Share(c) * (r + 1) + n * c.refreshInterval
  }

  /** Every rank has a share of at least one cycle, and the counters hold the interval. */
  predicate Spread(c: Config) { c.ranks <= c.refreshInterval < 0x1_0000_0000 && c.ranks > 0 }

  lemma ShareIs(c: Config)
    requires Spread(c)
    ensures Share(c) >= 1 && Share(c) * c.ranks <= c.refreshInterval
  {
    var q, n, i := Share(c), c.ranks, c.refreshInterval;
    assert i == q * n + i % n && i % n < n;
  }

  lemma NextAt(c: Config, r: nat, n: nat)
    requires Spread(c)
    ensures RefreshAt(c, r + 1, n) == RefreshAt(c, r, n) + Share(c)
    ensures RefreshAt(c, r, n + 1) == RefreshAt(c, r, n) + c.refreshInterval
  {
    assert Share(c) * (r + 1 + 1) == Share(c) * (r + 1) + Share(c);
    assert (n + 1) * c.refreshInterval == n * c.refreshInterval + c.refreshInterval;
  }

  lemma {:induction false} AtGrows(c: Config, r: nat, r': nat, n: nat)
    requires Spread(c) && r < r'
    ensures RefreshAt(c, r, n) + Share(c) <= RefreshAt(c, r', n)
  {
    hide RefreshAt, Share;
    NextAt(c, r' - 1, n);
    if r < r' - 1 { AtGrows(c, r, r' - 1, n); }
  }

  lemma AtOrdered(c: Config, r: nat, r': nat, n: nat)
    requires Spread(c) && r <= r'
    ensures RefreshAt(c, r, n) <= RefreshAt(c, r', n)
  {
    hide RefreshAt, Share;
    if r < r' { AtGrows(c, r, r', n); }
  }

  lemma FirstRound(c: Config, r: nat)
    requires Spread(c) && r < c.ranks
    ensures RefreshAt(c, r, 0) <= c.refreshInterval
  {
    hide Share;
    ShareIs(c);
    Arithmetic.MulLe(r + 1, c.ranks, Share(c));
    assert (r + 1) * Share(c) == Share(c) * (r + 1) && c.ranks * Share(c) == Share(c) * c.ranks;
  }

  /** A round is over before the next one begins. */
  lemma {:induction false} RoundEnds(c: Config, r: nat, n: nat)
    requires Spread(c) && r < c.ranks
    ensures RefreshAt(c, r, n) + Share(c) <= RefreshAt(c, 0, n + 1)
  {
    hide RefreshAt, Share;
    FirstRound(c, r);
    FirstAt(c);
    NextAt(c, 0, n);
    if n > 0 {
      RoundEnds(c, r, n - 1);
      NextAt(c, r, n - 1);
    }
  }

  lemma FirstAt(c: Config)
    requires Spread(c)
    ensures RefreshAt(c, 0, 0) == Share(c)
  {
  }

  /** Rank `p` is next, with refresh number `n`, and every counter runs to its rank's refresh. */
  ghost predicate Timed(c: Config, mc: Controller, now: int, n: nat)
    requires Spread(c)
  {
    && |mc.refreshCountdown| == c.ranks && mc.refreshRank < c.ranks
    && now <= RefreshAt(c, mc.refreshRank, n)
    && (mc.refreshRank > 0 ==> now > RefreshAt(c, mc.refreshRank - 1, n))
    && (mc.refreshRank == 0 && n > 0 ==> now > RefreshAt(c, c.ranks - 1, n - 1))
    && forall r: nat :: r < c.ranks ==>
         mc.refreshCountdown[r] == RefreshAt(c, r, if r < mc.refreshRank then n + 1 else n) - now
  }

  /** No counter is at zero, or too long, when it is counted down. */
  lemma CountersInRange(c: Config, mc: Controller, now: int, n: nat, r: nat)
    requires Spread(c) && Timed(c, mc, now, n) && r < c.ranks && now >= 0
    ensures r != mc.refreshRank || now < RefreshAt(c, mc.refreshRank, n) ==> 1 <= mc.refreshCountdown[r]
    ensures mc.refreshCountdown[r] <= c.refreshInterval
  {
    hide RefreshAt, Share;
    ShareIs(c);
    var p := mc.refreshRank;
    if r < p {
      NextAt(c, r, n);
      AtOrdered(c, r, p - 1, n);
      RoundEnds(c, p, n);
      AtOrdered(c, 0, r, n + 1);
    } else {
      if p < r { AtGrows(c, p, r, n); }
      if p > 0 {
        RoundEnds(c, r, n);
        NextAt(c, 0, n);
        AtOrdered(c, 0, p - 1, n);
      } else if n > 0 {
        AtOrdered(c, r, c.ranks - 1, n);
        NextAt(c, c.ranks - 1, n - 1);
      } else {
        FirstRound(c, r);
      }
    }
  }

  /** The timer's turn and the count-down at the end of the cycle. */
  lemma TimerSteps(c: Config, s: System)
    requires |s.mc.refreshCountdown| == |s.mc.powerDown| == c.ranks && s.mc.refreshRank < c.ranks && 0 < c.refreshInterval < 0x1_0000_0000
    requires forall r: nat :: r < c.ranks ==> s.mc.refreshCountdown[r] <= c.refreshInterval
    requires forall r: nat :: r < c.ranks && s.mc.refreshCountdown[r] == 0 ==> r == s.mc.refreshRank
    ensures var mc, p := EndCycle(c, RefreshTimer(c, s)).mc, s.mc.refreshRank;
            var fires := s.mc.refreshCountdown[p] == 0;
            && |mc.refreshCountdown| == c.ranks
            && mc.refreshRank == (if !fires then p else if p + 1 == c.ranks then 0 else p + 1)
            && (forall r: nat :: r < c.ranks ==>
                  mc.refreshCountdown[r] == (if fires && r == p then c.refreshInterval else s.mc.refreshCountdown[r]) - 1)
  {
    forall r: nat | r < c.ranks && (r != s.mc.refreshRank || s.mc.refreshCountdown[r] != 0)
      ensures (s.mc.refreshCountdown[r] + 0xFFFF_FFFF) % 0x1_0000_0000 == s.mc.refreshCountdown[r] - 1
    {
      assert 1 <= s.mc.refreshCountdown[r] < 0x1_0000_0000;
    }
  }

  /** The timer asks for rank `p` exactly in the cycle of its refresh. */
  lemma TimerKeepsTimes(c: Config, s: System, n: nat) returns (n': nat)
    requires Spread(c) && Timed(c, s.mc, s.now, n) && |s.mc.powerDown| == c.ranks && s.now >= 0
    ensures s.now == RefreshAt(c, s.mc.refreshRank, n) <==> s.mc.refreshCountdown[s.mc.refreshRank] == 0
    ensures Timed(c, EndCycle(c, RefreshTimer(c, s)).mc, s.now + 1, n')
  {
    hide RefreshAt, Share, RefreshTimer, EndCycle;
    var p := s.mc.refreshRank;
    forall r: nat | r < c.ranks
      ensures s.mc.refreshCountdown[r] <= c.refreshInterval
      ensures r != p || s.mc.refreshCountdown[p] != 0 ==> s.mc.refreshCountdown[r] >= 1
    {
      CountersInRange(c, s.mc, s.now, n, r);
    }
    TimerSteps(c, s);
    n' := if s.mc.refreshCountdown[p] == 0 && p + 1 == c.ranks then n + 1 else n;
    NextAt(c, p, n);
    ShareIs(c);
    if s.mc.refreshCountdown[p] == 0 && p + 1 == c.ranks {
      RoundEnds(c, p, n);
    }
  }

  // ---- every run -----------------------------------------------------------------------------

  predicate SameTimers(mc: Controller, mc': Controller) {
    mc'.refreshCountdown == mc.refreshCountdown && mc'.refreshRank == mc.refreshRank
  }

  lemma PopKeepsTimers(c: Config, s: System)
    requires c.Valid() && ControllerShaped(c, s.mc) && PopAndSend(c, s).Some?
    ensures SameTimers(s.mc, PopAndSend(c, s).value.mc)
  {
    hide Decide, Commit, Chosen, Settle, SendBanks;
  }

  lemma SplitKeepsTimers(c: Config, s: System)
    requires Shaped(c, s.mc.cq) && SplitTransaction(c, s).Some?
    ensures SameTimers(s.mc, SplitTransaction(c, s).value.mc)
  {
  }

  lemma {:induction false} PowerKeepsTimers(c: Config, s: System, n: nat)
    requires c.Valid() && Late(c, s) && n <= c.ranks && PowerShaped(c, s) && PowerRanks(c, s, n).Some?
    ensures SameTimers(s.mc, PowerRanks(c, s, n).value.mc)
  {
    hide Late, PowerRank;
    if n > 0 {
      PowerRanksKeep(c, s, n - 1);
      PowerKeepsTimers(c, s, n - 1);
      PowerRankFlow(c, PowerRanks(c, s, n - 1).value, n - 1);
    }
  }

  lemma ActKeepsTimers(c: Config, s: System)
    requires c.Valid() && Mid(c, s)
    ensures Act(c, s).Some? && SameTimers(s.mc, Act(c, s).value.mc) && Act(c, s).value.now == s.now
  {
    hide Mid, Late, PopAndSend, SplitTransaction, PowerRanks, ReturnRead, Shaped, TableShaped;
    MidIsShaped(c, s);
    PopKeeps(c, s);
    PopKeepsTimers(c, s);
    var s1 := PopAndSend(c, s).value;
    LateIsShaped(c, s1);
    SplitKeeps(c, s1);
    SplitKeepsTimers(c, s1);
    var s2 := SplitTransaction(c, s1).value;
    LateIsShaped(c, s2);
    PowerRanksKeep(c, s2, c.ranks);
    PowerKeepsTimers(c, s2, c.ranks);
    var s3 := PowerRanks(c, s2, c.ranks).value;
    ReturnKeeps(c, s3);
    ReturnFrame(c, s3);
  }

  lemma CycleTimers(c: Config, s: System)
    requires c.Valid() && Inv(c, s)
    ensures Pass(c, s).Some? && Cycle(c, s).Some?
    ensures var m := Pass(c, s).value;
            && SameTimers(s.mc, m.mc) && m.now == s.now && |m.mc.powerDown| == c.ranks == |m.ranks|
            && m.mc.cq == s.mc.cq && m.mc.powerDown == s.mc.powerDown
            && SameTimers(EndCycle(c, RefreshTimer(c, m)).mc, Cycle(c, s).value.mc)
            && Cycle(c, s).value.now == s.now + 1
            && Middle(c, s) == RefreshTimer(c, m)
  {
    hide Pass, Inv, RefreshTimer, Mid, Act, Cycle;
    PassKeeps(c, s);
    PassFrame(c, s);
    var m := Pass(c, s).value;
    MidShape(c, m);
    CycleIsAct(c, s);
    ActKeepsTimers(c, Middle(c, s));
  }

  lemma MidShape(c: Config, m: System)
    requires Mid(c, m)
    ensures |m.mc.powerDown| == c.ranks == |m.ranks|
  {
  }

  lemma {:induction false} RunIsTimed(c: Config, events: seq<Event>) returns (n: nat)
    requires c.Valid() && Spread(c) && Legal(c, events)
    ensures Run(c, events).Some? && Run(c, events).value.now >= 0
    ensures Timed(c, Run(c, events).value.mc, Run(c, events).value.now, n)
  {
    hide Inv, Cycle, Pass, RefreshTimer, EndCycle, Middle, Timed;
    NoErrorExit(c, events);
    if |events| == 0 {
      n := 0;
      StartIsTimed(c);
    } else {
      var rest := events[..|events|-1];
      NoErrorExit(c, rest);
      n := RunIsTimed(c, rest);
      var s := Run(c, rest).value;
      if events[|events|-1] == Clock {
        CycleTimers(c, s);
        SameIsTimed(c, s.mc, Pass(c, s).value.mc, s.now, n);
        var n' := TimerKeepsTimes(c, Pass(c, s).value, n);
        SameIsTimed(c, EndCycle(c, RefreshTimer(c, Pass(c, s).value)).mc, Cycle(c, s).value.mc, s.now + 1, n');
        n := n';
      } else {
        SameIsTimed(c, s.mc, Run(c, events).value.mc, s.now, n);
      }
    }
  }

  lemma SameIsTimed(c: Config, mc: Controller, mc': Controller, now: int, n: nat)
    requires Spread(c) && Timed(c, mc, now, n) && SameTimers(mc, mc')
    ensures Timed(c, mc', now, n)
  {
    hide RefreshAt;
  }

  lemma StartIsTimed(c: Config)
    requires c.Valid() && Spread(c)
    ensures Timed(c, Start(c).mc, 0, 0)
  {
    ShareIs(c);
    FirstAt(c);
    forall r: nat | r < c.ranks ensures Stagger(c, r) == RefreshAt(c, r, 0) {
      assert Max1(c.ranks) == c.ranks;
    }
  }

  lemma {:induction false} Later(c: Config, r: nat, n: nat, p: nat, m: nat)
    requires Spread(c) && r < c.ranks && n < m
    ensures RefreshAt(c, r, n) < RefreshAt(c, p, m)
  {
    hide RefreshAt, Share;
    ShareIs(c);
    if n + 1 < m {
      Later(c, r, n, p, m - 1);
      NextAt(c, p, m - 1);
    } else {
      RoundEnds(c, r, n);
      AtOrdered(c, 0, p, m);
    }
  }

  /** In every run rank `r` is asked for its refresh number n in cycle
      share * (r + 1) + n * interval, and in no other cycle; a rank asleep is told tXP cycles
      ahead, so that it wakes up. */
  lemma RefreshesOnTime(c: Config, events: seq<Event>, r: nat)
    requires c.Valid() && Spread(c) && Legal(c, events) && r < c.ranks
    ensures |After(c, events).mc.powerDown| == |After(c, events).mc.refreshCountdown| == c.ranks == |Middle(c, After(c, events)).ranks|
    ensures var s := After(c, events);
            var m := Middle(c, s);
            var asked := exists n: nat :: s.now == RefreshAt(c, r, n);
            && (asked ==> m.mc.cq.refreshWaiting && m.mc.cq.refreshRank == r && m.ranks[r].refreshWaiting)
            && (asked <==> s.mc.refreshRank == r && s.mc.refreshCountdown[r] == 0)
            && ((forall p: nat, n: nat :: p < c.ranks ==> s.now != RefreshAt(c, p, n)) ==>
                  m.mc.cq.refreshWaiting == s.mc.cq.refreshWaiting && m.mc.cq.refreshRank == s.mc.cq.refreshRank)
            && (s.mc.refreshRank == r && s.mc.powerDown[r] && s.mc.refreshCountdown[r] <= c.t.tXP ==> m.ranks[r].refreshWaiting)
  {
    hide Inv, Run, Pass, RefreshAt, EndCycle, Legal;
    var s := After(c, events);
    var n := RunIsTimed(c, events);
    CycleTimers(c, s);
    var m := Pass(c, s).value;
    SameIsTimed(c, s.mc, m.mc, s.now, n);
    var n' := TimerKeepsTimes(c, m, n);
    var p := s.mc.refreshRank;
    forall k: nat | s.now == RefreshAt(c, r, k) ensures p == r && s.mc.refreshCountdown[r] == 0 {
      OnTurn(c, s, n, r, k);
    }
  }

  /** The rank that is due is the one whose turn it is. */
  lemma OnTurn(c: Config, s: System, n: nat, r: nat, k: nat)
    requires Spread(c) && Timed(c, s.mc, s.now, n) && r < c.ranks && s.now == RefreshAt(c, r, k)
    ensures s.mc.refreshRank == r && s.mc.refreshCountdown[r] == 0
  {
    hide RefreshAt, Share;
    var p := s.mc.refreshRank;
    ShareIs(c);
    if k > n { Later(c, p, n, r, k); }
    if k < n {
      if p > 0 { AtOrdered(c, 0, p - 1, n); }
      Before(c, r, k, n);
    }
    if k == n && r < p { AtOrdered(c, r, p - 1, n); }
    if k == n && r > p { AtGrows(c, p, r, n); }
  }

  /** A refresh of an earlier round comes no later than the last of the round before. */
  lemma Before(c: Config, r: nat, k: nat, n: nat)
    requires Spread(c) && r < c.ranks && k < n
    ensures RefreshAt(c, r, k) <= RefreshAt(c, c.ranks - 1, n - 1) < RefreshAt(c, 0, n)
  {
    hide RefreshAt, Share;
    ShareIs(c);
    AtOrdered(c, r, c.ranks - 1, k);
    if k < n - 1 { Later(c, r, k, c.ranks - 1, n - 1); }
    RoundEnds(c, c.ranks - 1, n - 1);
  }
}
