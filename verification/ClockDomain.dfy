/** ClockDomainCrosser: a callback in one clock domain, driven from another. */
module ClockDomain {
  /** The least integer that is not below a / b. */
  function CeilDiv(a: nat, b: nat): nat
    requires b > 0
  {
    if a % b == 0 then a / b else a / b + 1
  }

  lemma CeilIs(a: nat, b: nat, q: nat)
    requires b > 0 && a <= q * b < a + b
    ensures CeilDiv(a, b) == q
  {
    var d, r := a / b, a % b;
    assert a == d * b + r;
    assert q < d ==> (q + 1) * b <= d * b;
    assert q > d + 1 ==> (d + 2) * b <= q * b;
    assert (d + 1) * b == d * b + b;
    assert q == d + 1 ==> q * b == d * b + b;
  }

  class ClockDomainCrosser {
    const clock1: nat
    const clock2: nat
    const hasCallback: bool
    var counter1: nat
    var counter2: nat
    /** How often the callback was called. */
    var fired: nat
    /** Updates so far; and since both counters were last zero, the multiples of the clocks. */
    ghost var updates: nat
    ghost var k: nat
    ghost var j: nat

    ghost predicate Valid()
      reads this
    {
      && clock1 > 0 && clock2 > 0
      && counter1 == k * clock1 && counter2 == j * clock2
      && (clock1 != clock2 ==> k < clock2)
      && counter1 <= counter2 < counter1 + clock2
      && k <= updates
      && (hasCallback ==>
            if clock1 == clock2 then fired == updates && counter1 == counter2 == 0
            else j <= fired && (updates - k) * clock1 == (fired - j) * clock2)
      && (!hasCallback ==> fired == 0)
    }

    constructor (clock1: nat, clock2: nat, hasCallback: bool)
      requires clock1 > 0 && clock2 > 0
      ensures Valid() && this.clock1 == clock1 && this.clock2 == clock2 && this.hasCallback == hasCallback
      ensures counter1 == counter2 == fired == updates == 0
    {
      this.clock1, this.clock2, this.hasCallback := clock1, clock2, hasCallback;
      counter1, counter2, fired, updates, k, j := 0, 0, 0, 0, 0, 0;
    }

    /** update(). */
    method Update()
      requires Valid()
      modifies this
      ensures Valid() && updates == old(updates) + 1
      ensures counter1 <= counter2 < counter1 + clock2
    {
      updates := updates + 1;
      if clock1 == clock2 && hasCallback {
        fired := fired + 1;
        return;
      }
      Once(k, clock1);
      counter1 := counter1 + clock1;
      k := k + 1;
      CatchUp();
      Meet(k, clock1, j, clock2);
      if counter1 == counter2 {
        if hasCallback { Join(updates, k, clock1, fired, j, clock2); }
        counter1 := 0;
        counter2 := 0;
        k, j := 0, 0;
      }
    }

    /** The second counter follows until it has caught up with the first. */
    method CatchUp()
      requires clock2 > 0 && counter2 == j * clock2 && counter2 < counter1 + clock2
      requires hasCallback ==> j <= fired
      modifies this`counter2, this`fired, this`j
      ensures counter1 <= counter2 < counter1 + clock2 && counter2 == j * clock2
      ensures hasCallback ==> j <= fired && fired - j == old(fired) - old(j)
      ensures !hasCallback ==> fired == old(fired)
    {
      while counter2 < counter1
        invariant counter2 == j * clock2 && counter2 < counter1 + clock2
        invariant hasCallback ==> j <= fired && fired - j == old(fired) - old(j)
        invariant !hasCallback ==> fired == old(fired)
        decreases counter1 + clock2 - counter2
      {
        Once(j, clock2);
        counter2 := counter2 + clock2;
        j := j + 1;
        if hasCallback { fired := fired + 1; }
      }
    }

    /** After any number of updates the callback was called exactly as often as the second
        clock has begun to tick. */
    lemma FiredExactly()
      requires Valid() && hasCallback
      ensures fired == CeilDiv(updates * clock1, clock2)
    {
      if clock1 == clock2 {
        CeilIs(updates * clock1, clock2, fired);
      } else {
        Total(updates, k, clock1, fired, j, clock2);
        CeilIs(updates * clock1, clock2, fired);
      }
    }

    /** The counters stay below the product of the clocks. */
    lemma CountersBounded()
      requires Valid() && clock1 != clock2
      ensures counter1 < clock1 * clock2 && counter2 < clock1 * clock2 + clock2
    {
      assert k * clock1 < clock2 * clock1;
    }
  }

  /** After clock2 updates the counters meet. */
  lemma Meet(k: nat, clock1: nat, j: nat, clock2: nat)
    requires clock2 > 0 && k * clock1 <= j * clock2 < k * clock1 + clock2
    ensures k == clock2 ==> k * clock1 == j * clock2
  {
    assert j > clock1 ==> (clock1 + 1) * clock2 <= j * clock2;
    assert j < clock1 ==> (j + 1) * clock2 <= clock1 * clock2;
    assert (clock1 + 1) * clock2 == clock1 * clock2 + clock2;
    assert clock2 * clock1 == clock1 * clock2;
  }

  lemma Once(n: nat, c: nat)
    ensures (n + 1) * c == n * c + c
  {
  }

  lemma Join(n: nat, k: nat, clock1: nat, f: nat, j: nat, clock2: nat)
    requires k <= n && j <= f && k * clock1 == j * clock2
    ensures (n - k) * clock1 == (f - j) * clock2 ==> n * clock1 == f * clock2
  {
    assert n * clock1 == (n - k) * clock1 + k * clock1;
    assert f * clock2 == (f - j) * clock2 + j * clock2;
  }

  lemma Total(n: nat, k: nat, clock1: nat, f: nat, j: nat, clock2: nat)
    requires k <= n && j <= f && (n - k) * clock1 == (f - j) * clock2
    requires k * clock1 <= j * clock2 < k * clock1 + clock2
    ensures n * clock1 <= f * clock2 < n * clock1 + clock2
  {
    assert n * clock1 == (n - k) * clock1 + k * clock1;
    assert f * clock2 == (f - j) * clock2 + j * clock2;
  }
}
