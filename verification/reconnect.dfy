/** The edge agent's reconnect loop: exponential backoff with a cap and jitter, on 64-bit nanosecond durations. */
module Reconnect {
  import opened Common

  const TWO_TO_62: int := 0x4000_0000_0000_0000
  const TWO_TO_63: int := 0x8000_0000_0000_0000
  const DEFAULT_BASE: int := 1_000_000_000
  const DEFAULT_MAX: int := 30_000_000_000

  predicate Int64(x: int) { -TWO_TO_63 <= x < TWO_TO_63 }

  /** What a 64-bit register holds of a result. */
  function Wrapped(x: int): (y: int)
    ensures Int64(y)
    ensures Int64(x) ==> y == x
  {
    (x + TWO_TO_63) % (2 * TWO_TO_63) - TWO_TO_63
  }

  /** The base and cap the loop runs with, or None for a cap below the base. */
  function Configured(base: int, cap: int): (r: Option<(int, int)>)
    ensures r.Some? ==> 0 < r.value.0 <= r.value.1
  {
    var b := if base <= 0 then DEFAULT_BASE else base;
    var m := if cap <= 0 then DEFAULT_MAX else cap;
    if m < b then None else Some((b, m))
  }

  function Pow2(k: nat): (p: nat)
    ensures p >= 1
  {
    if k == 0 then 1 else 2 * Pow2(k - 1)
  }

  function Min(a: int, b: int): int { if a <= b then a else b }

  /** The failed connects at the end of a history of sessions, those since the last one that connected. */
  function Failures(sessions: seq<bool>): nat {
    if sessions == [] || sessions[|sessions| - 1] then 0 else 1 + Failures(sessions[..|sessions| - 1])
  }

  /** The base delay after `k` failed connects in a row. */
  function Backoff(base: int, cap: int, k: nat): int { Min(base * Pow2(k), cap) }

  /** The delay slept for base delay `b`: at least `b`, and less than a fifth more, or than one more. */
  predicate Jittered(b: int, d: int) { b <= d && d < b + (if b / 5 >= 1 then b / 5 else 1) }

  /** The delay slept for base delay `b` and draw `draw`, as a 64-bit register gives it. */
  function Slept(b: int, draw: nat): int { if b <= 0 then 0 else if b / 5 == 0 then b else Wrapped(b + draw % (b / 5)) }

  method Jitter(base: int, draw: nat) returns (d: int)
    requires Int64(base)
    ensures d == Slept(base, draw)
    ensures 0 < base && base + base / 5 <= TWO_TO_63 ==> Jittered(base, d)
    ensures base <= 0 ==> d == 0
  {
    if base <= 0 {
      return 0;
    }
    var window := base / 5;
    if window <= 0 {
      return base;
    }
    d := Wrapped(base + draw % window);
  }

  /** Every delay from the base delay to just below a fifth more is drawn for some number. */
  lemma JitterSpansTheFifth(b: int, k: nat)
    requires 0 < b && k < b / 5 && b + k < TWO_TO_63
    ensures Slept(b, k) == b + k
  {
    hide Wrapped;
    SmallIsItself(k, b / 5);
  }

  lemma SmallIsItself(k: nat, n: int)
    requires k < n
    ensures k % n == k
  {
  }

  /** Without a setting the loop starts at one second and ends at thirty. */
  lemma ConfiguredDefaults(base: int, cap: int)
    ensures base > 0 && cap > 0 ==> Configured(base, cap) == if cap < base then None else Some((base, cap))
    ensures base <= 0 && cap <= 0 ==> Configured(base, cap) == Some((1_000_000_000, 30_000_000_000))
    ensures base > 0 && cap <= 0 ==> Configured(base, cap) == if 30_000_000_000 < base then None else Some((base, 30_000_000_000))
    ensures base <= 0 && cap > 0 ==> Configured(base, cap) == if cap < 1_000_000_000 then None else Some((1_000_000_000, cap))
  {
  }

  /** The base delay the loop holds after `k` failed connects in a row, as 64-bit registers give it. */
  function Held(base: int, cap: int, k: nat): int {
    if k == 0 then base
    else
      var b := Held(base, cap, k - 1);
      if b < cap then Min(Wrapped(b * 2), cap) else b
  }

  /** The base delay slept on after session `i`. */
  function BaseAt(base: int, cap: int, sessions: seq<bool>, i: nat): int
    requires i < |sessions|
  {
    if sessions[i] then base else Held(base, cap, Failures(sessions[..i]))
  }

  lemma BackoffDoubles(base: int, cap: int, k: nat)
    requires 0 < base <= cap
    ensures 0 < Backoff(base, cap, k) <= cap
    ensures Backoff(base, cap, k + 1) == Min(2 * Backoff(base, cap, k), cap)
  {
    assert Pow2(k + 1) == 2 * Pow2(k);
    assert base * Pow2(k + 1) == 2 * (base * Pow2(k));
    assert base * Pow2(k) >= 1 by {
      PositiveProduct(base, Pow2(k));
    }
  }

  lemma PositiveProduct(a: int, b: int)
    requires a >= 1 && b >= 1
    ensures a * b >= 1
  {
  }

  /**
   The loop, over the sessions it went through before its context was cancelled: whether each connected, and what the
   random source drew.  `bases` are the base delays, `delays` what was slept.
   */
  method Run(base: int, cap: int, sessions: seq<bool>, draws: seq<nat>) returns (bases: seq<int>, delays: seq<int>)
    requires 0 < base <= cap && Int64(cap) && |draws| == |sessions|
    ensures |bases| == |delays| == |sessions|
    ensures forall i | 0 <= i < |sessions| ::
              && bases[i] == BaseAt(base, cap, sessions, i) && delays[i] == Slept(bases[i], draws[i])
              && (0 < bases[i] && bases[i] + bases[i] / 5 <= TWO_TO_63 ==> Jittered(bases[i], delays[i]))
              && (bases[i] <= 0 ==> delays[i] == 0)
  {
    hide Jittered, Slept;
    var backoff := base;
    bases, delays := [], [];
    var n := 0;
    while n < |sessions|
      invariant 0 <= n == |bases| == |delays| <= |sessions| && Int64(backoff)
      invariant backoff == Held(base, cap, Failures(sessions[..n]))
      invariant forall i | 0 <= i < n ::
                  && bases[i] == BaseAt(base, cap, sessions, i) && delays[i] == Slept(bases[i], draws[i])
                  && (0 < bases[i] && bases[i] + bases[i] / 5 <= TWO_TO_63 ==> Jittered(bases[i], delays[i]))
                  && (bases[i] <= 0 ==> delays[i] == 0)
    {
      var connected := sessions[n];
      assert sessions[..n + 1][..n] == sessions[..n];
      if connected {
        backoff := base;
      }
      var delay := Jitter(backoff, draws[n]);
      bases, delays := bases + [backoff], delays + [delay];
      if !connected && backoff < cap {
        backoff := Wrapped(backoff * 2);
        if backoff > cap {
          backoff := cap;
        }
      }
      n := n + 1;
    }
  }

  // ----- when the loop follows its closed form

  /** No delay the loop doubles is so long that twice it leaves 64 bits. */
  ghost predicate NeverWraps(base: int, cap: int) { forall k: nat :: !(TWO_TO_62 <= base * Pow2(k) < cap) }

  lemma HeldIsBackoff(base: int, cap: int, k: nat)
    requires 0 < base <= cap && Int64(cap) && forall j: nat | j < k :: !(TWO_TO_62 <= base * Pow2(j) < cap)
    ensures Held(base, cap, k) == Backoff(base, cap, k) && base <= Backoff(base, cap, k) <= cap
  {
    if k > 0 {
      HeldIsBackoff(base, cap, k - 1);
      BackoffDoubles(base, cap, k - 1);
    }
  }

  lemma {:induction false} EarlierIsHalf(base: int, j: nat, k: nat)
    requires 0 < base && j < k
    ensures 2 * (base * Pow2(j)) <= base * Pow2(k)
    decreases k
  {
    assert Pow2(k) == 2 * Pow2(k - 1);
    assert base * Pow2(k) == 2 * (base * Pow2(k - 1));
    if j < k - 1 {
      EarlierIsHalf(base, j, k - 1);
      PositiveProduct(base, Pow2(k - 1));
    }
  }

  lemma EarlierInRange(base: int, cap: int, k: nat)
    requires 0 < base && Int64(cap) && base * Pow2(k) < cap
    ensures forall j: nat | j < k :: base * Pow2(j) < TWO_TO_62
  {
    forall j: nat | j < k
      ensures base * Pow2(j) < TWO_TO_62
    {
      EarlierIsHalf(base, j, k);
    }
  }

  lemma NextIsNegative(base: int, cap: int, k: nat, held: int)
    requires Int64(cap) && held == Held(base, cap, k) && TWO_TO_62 <= held < cap
    ensures Held(base, cap, k + 1) < 0
  {
  }

  /** A delay of 2^62 or more below the cap comes out negative when it is doubled. */
  lemma HeldStrays(base: int, cap: int, k: nat)
    requires 0 < base <= cap && Int64(cap) && TWO_TO_62 <= base * Pow2(k) < cap
    ensures Held(base, cap, k + 1) < 0
  {
    hide Pow2, Wrapped, Held;
    EarlierInRange(base, cap, k);
    HeldIsBackoff(base, cap, k);
    NextIsNegative(base, cap, k, base * Pow2(k));
  }

  function Failing(n: nat): (sessions: seq<bool>)
    ensures |sessions| == n && forall i | 0 <= i < n :: !sessions[i]
  {
    seq(n, i => false)
  }

  lemma {:induction false} FailuresOfFailing(sessions: seq<bool>)
    requires forall i | 0 <= i < |sessions| :: !sessions[i]
    ensures Failures(sessions) == |sessions|
  {
    if sessions != [] {
      FailuresOfFailing(sessions[..|sessions| - 1]);
    }
  }

  /** Whatever the history, the base delay stays between base and cap. */
  ghost predicate StaysInRange(base: int, cap: int) {
    forall sessions: seq<bool>, i: nat | i < |sessions| :: base <= BaseAt(base, cap, sessions, i) <= cap
  }

  /**
   The loop keeps its base delay between base and cap in every history exactly if no doubled base lies at 2^62
   nanoseconds or more and below the cap.
   */
  lemma InRangeExactly(base: int, cap: int)
    requires 0 < base <= cap && Int64(cap)
    ensures StaysInRange(base, cap) <==> NeverWraps(base, cap)
  {
    if NeverWraps(base, cap) {
      forall sessions: seq<bool>, i: nat | i < |sessions|
        ensures base <= BaseAt(base, cap, sessions, i) <= cap
      {
        HeldIsBackoff(base, cap, Failures(sessions[..i]));
      }
    } else {
      var k: nat :| TWO_TO_62 <= base * Pow2(k) < cap;
      HeldStrays(base, cap, k);
      var sessions := Failing(k + 2);
      FailuresOfFailing(sessions[..k + 1]);
      assert BaseAt(base, cap, sessions, k + 1) < 0;
    }
  }

  /** Exactly then, too, it follows its closed form: the base doubled once per failed connect in a row, up to the cap. */
  lemma ClosedFormExactly(base: int, cap: int)
    requires 0 < base <= cap && Int64(cap)
    ensures (forall k: nat :: Held(base, cap, k) == Backoff(base, cap, k)) <==> NeverWraps(base, cap)
  {
    if NeverWraps(base, cap) {
      forall k: nat
        ensures Held(base, cap, k) == Backoff(base, cap, k)
      {
        HeldIsBackoff(base, cap, k);
      }
    } else {
      var k: nat :| TWO_TO_62 <= base * Pow2(k) < cap;
      HeldStrays(base, cap, k);
      BackoffDoubles(base, cap, k);
      BackoffDoubles(base, cap, k + 1);
    }
  }

  /** Whatever the history and the draws, the delay slept is the jittered base delay, and that is between base and cap. */
  ghost predicate SleepsInRange(base: int, cap: int) {
    forall sessions: seq<bool>, i: nat, draw: nat | i < |sessions| ::
      var b := BaseAt(base, cap, sessions, i); base <= b <= cap && Jittered(b, Slept(b, draw))
  }

  lemma SleptIsJittered(b: int, draw: nat)
    requires 0 < b && b + b / 5 <= TWO_TO_63
    ensures Jittered(b, Slept(b, draw))
  {
  }

  /** The longest jitter of a delay too long for it comes out negative. */
  lemma SleptWraps(b: int)
    requires 0 < b < TWO_TO_63 < b + b / 5
    ensures Slept(b, b / 5 - 1) < 0
  {
    hide Wrapped;
    SmallIsItself(b / 5 - 1, b / 5);
    WrapsOnce(b + b / 5 - 1);
  }

  lemma WrapsOnce(x: int)
    requires TWO_TO_63 <= x < 2 * TWO_TO_63
    ensures Wrapped(x) == x - 2 * TWO_TO_63
  {
  }

  lemma Pow2Exceeds(k: nat)
    ensures Pow2(k) > k
  {
  }

  /** Enough failed connects in a row come to the cap. */
  lemma CapIsReached(base: int, cap: int) returns (sessions: seq<bool>)
    requires 0 < base <= cap && Int64(cap) && NeverWraps(base, cap)
    ensures sessions != [] && BaseAt(base, cap, sessions, |sessions| - 1) == cap
  {
    Pow2Exceeds(cap);
    assert base * Pow2(cap) >= Pow2(cap) by { AtLeastFactor(base, Pow2(cap)); }
    HeldIsBackoff(base, cap, cap);
    sessions := Failing(cap + 1);
    FailuresOfFailing(sessions[..cap]);
  }

  lemma AtLeastFactor(a: int, b: int)
    requires a >= 1 && b >= 0
    ensures a * b >= b
  {
  }

  /**
   The delays slept are in range in every history and for every draw exactly if, besides, the cap with a fifth of it fits:
   caps up to about five sixths of 2^63 nanoseconds, some 243 years.
   */
  lemma SleepsInRangeExactly(base: int, cap: int)
    requires 0 < base <= cap && Int64(cap)
    ensures SleepsInRange(base, cap) <==> NeverWraps(base, cap) && cap + cap / 5 <= TWO_TO_63
  {
    hide Wrapped, Held, Jittered, Slept;
    InRangeExactly(base, cap);
    if !NeverWraps(base, cap) {
      if SleepsInRange(base, cap) {
        forall sessions: seq<bool>, i: nat | i < |sessions|
          ensures base <= BaseAt(base, cap, sessions, i) <= cap
        {
          assert Jittered(BaseAt(base, cap, sessions, i), Slept(BaseAt(base, cap, sessions, i), 0));
        }
      }
    } else if cap + cap / 5 > TWO_TO_63 {
      var sessions := CapIsReached(base, cap);
      SleptWraps(cap);
      NegativeIsNotJittered(cap, Slept(cap, cap / 5 - 1));
      assert !Jittered(BaseAt(base, cap, sessions, |sessions| - 1), Slept(cap, cap / 5 - 1));
    } else {
      forall sessions: seq<bool>, i: nat, draw: nat | i < |sessions|
        ensures var b := BaseAt(base, cap, sessions, i); base <= b <= cap && Jittered(b, Slept(b, draw))
      {
        SleptIsJittered(BaseAt(base, cap, sessions, i), draw);
      }
    }
  }

  lemma NegativeIsNotJittered(b: int, d: int)
    requires b > 0 > d
    ensures !Jittered(b, d)
  {
  }

  /** A cap of at most 2^62 nanoseconds, some 146 years, is enough. */
  lemma ModestCapNeverWraps(base: int, cap: int)
    requires cap <= TWO_TO_62
    ensures NeverWraps(base, cap)
  {
  }

  /** A loop that strays: two failed connects from 2^62 with a cap just above it. */
  lemma TwoFailuresStray()
    ensures BaseAt(TWO_TO_62, TWO_TO_62 + 1, [false, false], 1) == -TWO_TO_63
  {
    FailuresOfFailing([false, false][..1]);
    assert Held(TWO_TO_62, TWO_TO_62 + 1, 0) == TWO_TO_62;
  }
}
