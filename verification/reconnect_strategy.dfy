/** `ReconnectStrategy`: capped exponential backoff with full jitter. */
module ReconnectStrategy {
  import opened Powers

  newtype int32 = x: int | -0x8000_0000 <= x < 0x8000_0000

  newtype int64 = x: int | -0x8000_0000_0000_0000 <= x < 0x8000_0000_0000_0000

  /** 2^62 ms: doubling anything below it stays inside 64 bits. */
  const MAX_CAP: int := 0x4000_0000_0000_0000

  function Min(a: int, b: int): int { if a < b then a else b }

  function Turns(attempt: int): nat { if attempt < 0 then 0 else attempt }

  function Doubled(n: nat, base: nat): nat { base * Power2(n) }

  /** The jitter window: base doubled once per attempt, capped. A negative counter counts as no attempt. */
  function Bound(attempt: int, base: nat, cap: nat): (b: nat)
    ensures b <= cap
  {
    Min(cap, Doubled(Turns(attempt), base))
  }

  lemma BoundIsMonotone(m: nat, n: nat, base: nat, cap: nat)
    requires m <= n
    ensures Bound(m, base, cap) <= Bound(n, base, cap)
  {
    Power2IsMonotone(m, n);
    ProductIsMonotone(base, Power2(m), Power2(n));
  }

  lemma ProductIsMonotone(a: nat, x: nat, y: nat)
    requires x <= y
    ensures a * x <= a * y
  {
    assert a * y == a * x + a * (y - x);
  }

  // ---- The loop, in 64 bits

  /** What Java keeps of a number in a `long`. */
  function Wrapped(n: int): (r: int)
    ensures -0x8000_0000_0000_0000 <= r < 0x8000_0000_0000_0000
  {
    var low := n % 0x1_0000_0000_0000_0000;
    if low < 0x8000_0000_0000_0000 then low else low - 0x1_0000_0000_0000_0000
  }

  lemma WrappedOnce(n: int)
    ensures 0 <= n < 0x8000_0000_0000_0000 ==> Wrapped(n) == n
    ensures 0x8000_0000_0000_0000 <= n < 0x1_0000_0000_0000_0000 ==> Wrapped(n) < 0
  {
  }

  /** The value after `n` turns of the loop; at or above the cap it is left alone. */
  function Shifted(n: nat, base: int, cap: int): int {
    if n == 0 then base
    else
      var s := Shifted(n - 1, base, cap);
      if s < cap then Min(cap, Wrapped(s * 2)) else s
  }

  lemma {:induction false} ShiftedStops(m: nat, n: nat, base: int, cap: int)
    requires m <= n && Shifted(m, base, cap) >= cap
    ensures Shifted(n, base, cap) == Shifted(m, base, cap)
  {
    if m < n {
      ShiftedStops(m, n - 1, base, cap);
    }
  }

  /** For all durations, negative ones and ones whose doubling overflows included; the laws below say when that is the bound. */
  method BoundFor(attempt: int32, baseMillis: int64, capMillis: int64) returns (bound: int64)
    ensures bound as int == Min(capMillis as int, Shifted(Turns(attempt as int), baseMillis as int, capMillis as int))
  {
    var shifted := baseMillis;
    var i: int32 := 0;
    while i < attempt && shifted < capMillis
      invariant 0 <= i as int <= Turns(attempt as int)
      invariant shifted as int == Shifted(i as int, baseMillis as int, capMillis as int)
      decreases attempt as int - i as int
    {
      var doubled := Wrapped(shifted as int * 2) as int64;
      shifted := if capMillis < doubled then capMillis else doubled;
      i := i + 1;
    }
    if shifted >= capMillis {
      ShiftedStops(i as int, Turns(attempt as int), baseMillis as int, capMillis as int);
    }
    bound := if capMillis < shifted then capMillis else shifted;
  }

  /** The loop answers the capped doubling after `n` turns. */
  predicate IsExact(n: nat, base: nat, cap: nat) { Min(cap, Shifted(n, base, cap)) == Bound(n, base, cap) }

  /** Turn `n` doubles a number past 64 bits. */
  predicate Overflows(n: nat, base: nat, cap: nat) { MAX_CAP <= Doubled(n, base) < cap }

  lemma DoubledStep(n: nat, base: nat)
    ensures Doubled(0, base) == base && Doubled(n + 1, base) == 2 * Doubled(n, base)
  {
  }

  lemma {:induction false} ShiftedDoubles(n: nat, base: nat, cap: nat)
    requires cap < 0x8000_0000_0000_0000
    requires forall i: nat :: i < n ==> !Overflows(i, base, cap)
    ensures if Doubled(n, base) < cap then Shifted(n, base, cap) == Doubled(n, base) else Shifted(n, base, cap) >= cap
  {
    hide Doubled, Wrapped;
    DoubledStep(n, base);
    if n > 0 {
      ShiftedDoubles(n - 1, base, cap);
      assert !Overflows(n - 1, base, cap);
      DoubledStep(n - 1, base);
      WrappedOnce(2 * Shifted(n - 1, base, cap));
    }
  }

  lemma OverflowIsInexact(i: nat, base: nat, cap: nat)
    requires cap < 0x8000_0000_0000_0000 && Overflows(i, base, cap)
    ensures !IsExact(i, base, cap) || !IsExact(i + 1, base, cap)
  {
    hide Doubled, Wrapped;
    DoubledStep(i, base);
    WrappedOnce(2 * Shifted(i, base, cap));
  }

  /** The bounds of attempts up to `n` are all exact if and only if none of the turns before `n` overflows. */
  lemma BoundsAreExact(n: nat, base: nat, cap: nat)
    requires cap < 0x8000_0000_0000_0000
    ensures (forall m: nat :: m <= n ==> IsExact(m, base, cap)) <==> (forall i: nat :: i < n ==> !Overflows(i, base, cap))
  {
    hide Doubled, Overflows, Shifted;
    if forall i: nat :: i < n ==> !Overflows(i, base, cap) {
      forall m: nat | m <= n
        ensures IsExact(m, base, cap)
      {
        ShiftedDoubles(m, base, cap);
      }
    }
    if i: nat :| i < n && Overflows(i, base, cap) {
      OverflowIsInexact(i, base, cap);
    }
  }

  /** With a base of 2^62 ms and the largest cap the second attempt already has no usable bound. */
  lemma HugeDurationsOverflow()
    ensures Overflows(0, MAX_CAP, 0x7FFF_FFFF_FFFF_FFFF)
    ensures !IsExact(1, MAX_CAP, 0x7FFF_FFFF_FFFF_FFFF) && Shifted(1, MAX_CAP, 0x7FFF_FFFF_FFFF_FFFF) < 0
  {
    hide Wrapped;
    DoubledStep(0, MAX_CAP);
    WrappedOnce(2 * MAX_CAP);
  }

  /** Up to a cap of 2^62 ms no turn overflows, whatever the base. */
  lemma SmallCapsAreExact(n: nat, base: nat, cap: nat)
    requires cap <= MAX_CAP
    ensures IsExact(n, base, cap)
  {
    ShiftedDoubles(n, base, cap);
  }

  /** `getAndIncrement` wraps past the largest int. */
  function Increment(n: int32): int32 {
    if n == 0x7FFF_FFFF then -0x8000_0000 else n + 1
  }

  class Backoff {
    const baseMillis: int64
    const capMillis: int64
    var attempt: int32
    /** The delays handed out since the last reset. */
    ghost var delays: seq<nat>

    ghost predicate Valid()
      reads this
    {
      && 0 <= baseMillis && 0 <= capMillis as int <= MAX_CAP
      && (|delays| < 0x8000_0000 ==> attempt as int == |delays|)
      && WithinBounds(delays, baseMillis as int, capMillis as int)
    }

    constructor (base: int64, cap: int64)
      requires 0 <= base && 0 <= cap as int <= MAX_CAP
      ensures Valid() && delays == [] && baseMillis == base && capMillis == cap
    {
      baseMillis, capMillis, attempt, delays := base, cap, 0, [];
    }

    /** Any value of the jitter window may be drawn; the k-th delay since a reset stays within the k-th bound. */
    method NextDelay() returns (delay: int64)
      requires Valid()
      modifies this
      ensures Valid()
      ensures 0 <= delay as int <= Bound(old(attempt) as int, baseMillis as int, capMillis as int)
      ensures delays == old(delays) + [delay as int]
      ensures |delays| <= 0x8000_0000 ==> delay as int <= Bound(|old(delays)|, baseMillis as int, capMillis as int)
      ensures attempt == Increment(old(attempt))
    {
      var bound := BoundFor(attempt, baseMillis, capMillis);
      SmallCapsAreExact(Turns(attempt as int), baseMillis as int, capMillis as int);
      delay :| 0 <= delay < bound + 1;
      delays := delays + [delay as int];
      attempt := Increment(attempt);
    }

    method Reset()
      requires Valid()
      modifies this
      ensures Valid() && delays == [] && attempt == 0
    {
      attempt := 0;
      delays := [];
    }
  }

  /** Below 2^31 delays the k-th one is within the k-th bound. */
  ghost predicate WithinBounds(delays: seq<nat>, base: nat, cap: nat) {
    forall k :: 0 <= k < |delays| && k < 0x8000_0000 ==> delays[k] <= Bound(k, base, cap)
  }

  function Sum(s: seq<nat>): nat {
    if s == [] then 0 else Sum(s[..|s| - 1]) + s[|s| - 1]
  }

  function SumOfBounds(n: nat, base: nat, cap: nat): nat {
    if n == 0 then 0 else SumOfBounds(n - 1, base, cap) + Bound(n - 1, base, cap)
  }

  lemma Distribute(a: int, x: int, y: int)
    ensures a * x + a * y == a * (x + y)
  {
  }

  lemma {:induction false} SumOfBoundsIsCapped(n: nat, base: nat, cap: nat)
    ensures SumOfBounds(n, base, cap) <= cap * n
  {
    hide Bound;
    if n > 0 {
      SumOfBoundsIsCapped(n - 1, base, cap);
      Distribute(cap, n - 1, 1);
    }
  }

  lemma BoundIsBelowDoubling(n: nat, base: nat, cap: nat)
    ensures Bound(n, base, cap) <= base * Power2(n)
  {
  }

  lemma {:induction false} SumOfBoundsIsGeometric(n: nat, base: nat, cap: nat)
    ensures SumOfBounds(n, base, cap) <= base * (Power2(n) - 1)
  {
    hide Bound;
    if n > 0 {
      SumOfBoundsIsGeometric(n - 1, base, cap);
      BoundIsBelowDoubling(n - 1, base, cap);
      Distribute(base, Power2(n - 1) - 1, Power2(n - 1));
    }
  }

  /** The total wait of n consecutive failures: within the sum of the bounds, hence within both closed forms. */
  lemma {:induction false} TotalWait(delays: seq<nat>, base: nat, cap: nat)
    requires WithinBounds(delays, base, cap) && |delays| <= 0x8000_0000
    ensures Sum(delays) <= SumOfBounds(|delays|, base, cap)
    ensures Sum(delays) <= cap * |delays| && Sum(delays) <= base * (Power2(|delays|) - 1)
  {
    hide Bound, SumOfBounds, Sum, Power2;
    SumIsWithinBounds(delays, base, cap);
    SumOfBoundsIsCapped(|delays|, base, cap);
    SumOfBoundsIsGeometric(|delays|, base, cap);
  }

  lemma {:induction false} SumIsWithinBounds(delays: seq<nat>, base: nat, cap: nat)
    requires WithinBounds(delays, base, cap) && |delays| <= 0x8000_0000
    ensures Sum(delays) <= SumOfBounds(|delays|, base, cap)
  {
    hide Bound;
    if delays != [] {
      SumIsWithinBounds(delays[..|delays| - 1], base, cap);
    }
  }
}
