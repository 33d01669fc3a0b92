/** The four-activate window: the decrementing counters are exactly the activates of the
    last tFAW cycles, so five activates of one rank never fit in one window. */
module DramWindow {
  import opened DramTypes
  import opened DramQueue

  /** `acts` are the cycles of a rank's ACTIVATEs, `v` its counters, after cycle `now`. */
  ghost predicate WindowOk(faw: int, v: seq<int>, acts: seq<int>, now: int) {
    && |v| <= |acts| && |v| <= 4
    && (forall i, j :: 0 <= i < j < |acts| ==> acts[i] < acts[j])
    && (forall i :: 0 <= i < |acts| ==> acts[i] <= now)
    && var k := |acts| - |v|;
    && (forall i :: 0 <= i < |v| ==> v[i] == acts[k + i] + faw - now && v[i] > 0)
    && (forall i :: 0 <= i < k ==> acts[i] + faw <= now)
    && (forall i {:trigger acts[i]} :: 0 <= i < |acts| - 4 ==> acts[i + 4] - acts[i] >= faw)
  }

  ghost predicate WindowsOk(c: Config, faw: seq<seq<int>>, acts: seq<seq<int>>, now: int) {
    |faw| == |acts| == c.ranks && forall r :: 0 <= r < c.ranks ==> WindowOk(c.t.tFAW, faw[r], acts[r], now)
  }

  lemma TickKeepsWindow(faw: int, v: seq<int>, acts: seq<int>, now: int)
    requires WindowOk(faw, v, acts, now)
    ensures WindowOk(faw, TickCounters(v), acts, now + 1)
  {
    var w := TickCounters(v);
    var k := |acts| - |v|;
    if |w| < |v| {
      forall i | 0 <= i < |w| ensures w[i] == acts[k + 1 + i] + faw - (now + 1) && w[i] > 0 {
        assert w[i] == v[i + 1] - 1 && acts[k] < acts[k + 1 + i];
      }
    } else {
      forall i | 0 <= i < |w| ensures w[i] == acts[k + i] + faw - (now + 1) && w[i] > 0 {
        assert v[0] == acts[k] + faw - now && i > 0 ==> acts[k] < acts[k + i];
      }
    }
  }

  lemma ActKeepsWindow(faw: int, v: seq<int>, acts: seq<int>, now: int)
    requires faw >= 1 && WindowOk(faw, v, acts, now) && |v| < 4
    requires forall i :: 0 <= i < |acts| ==> acts[i] < now
    ensures WindowOk(faw, v + [faw], acts + [now], now)
  {
    var n, acts' := |acts|, acts + [now];
    forall i | 0 <= i < |acts'| - 4 ensures acts'[i + 4] - acts'[i] >= faw {
      if i + 4 < n { assert acts[i + 4] - acts[i] >= faw; }
    }
  }

  /** Any five ACTIVATEs of a rank, in order, span at least tFAW cycles. */
  lemma FiveActsSpanWindow(faw: int, v: seq<int>, acts: seq<int>, now: int, i: nat, j: nat)
    requires WindowOk(faw, v, acts, now)
    requires i + 4 <= j < |acts|
    ensures acts[j] - acts[i] >= faw
  {
    assert acts[i + 4] - acts[i] >= faw;
  }
}
