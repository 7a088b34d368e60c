/** The recorder's timeline: presentation times that never run backwards or closer than a frame. */
module Timeline {
  const MAXIMUM := 0x7FFF_FFFF_FFFF_FFFF      // the largest LONGLONG, in units of 100 ns
  const WORD64 := 0x1_0000_0000_0000_0000

  const WORD32 := 0x1_0000_0000

  /** The duration of a frame, from a frame rate in two 32-bit halves. */
  function FrameDuration(fpsNumerator: nat, fpsDenominator: nat): (r: nat)
    requires fpsNumerator > 0
    ensures fpsDenominator < WORD32 ==> r <= MAXIMUM
  {
    10000000 * fpsDenominator / fpsNumerator
  }

  function Min(a: int, b: int): int { if b < a then b else a }
  function Max(a: int, b: int): int { if a < b then b else a }

  /** A frame's offset from the first, saturating at both ends. */
  function Offset(origin: nat, pts: nat): nat {
    if pts < origin then 0 else Min(MAXIMUM, (pts - origin) * 10)
  }

  const UNIT_NANOS := 100
  const MICRO_NANOS := 1000
  const SECOND_NANOS := 1000000000

  /** Offsets and durations are in the units of the timeline: as many nanoseconds as went by. */
  lemma OffsetIsElapsed(origin: nat, pts: nat)
    requires pts >= origin
    ensures (pts - origin) * MICRO_NANOS <= MAXIMUM * UNIT_NANOS ==>
              Offset(origin, pts) * UNIT_NANOS == (pts - origin) * MICRO_NANOS
    ensures (pts - origin) * MICRO_NANOS > MAXIMUM * UNIT_NANOS ==> Offset(origin, pts) == MAXIMUM
  {
  }

  /** A frame lasts the greatest whole number of units that its share of a second has room for. */
  lemma DurationIsShare(fpsNumerator: nat, fpsDenominator: nat)
    requires fpsNumerator > 0
    ensures var d := FrameDuration(fpsNumerator, fpsDenominator);
            d * UNIT_NANOS * fpsNumerator <= SECOND_NANOS * fpsDenominator < (d + 1) * UNIT_NANOS * fpsNumerator
  {
    var d := FrameDuration(fpsNumerator, fpsDenominator);
    var rest := 10000000 * fpsDenominator % fpsNumerator;
    assert 10000000 * fpsDenominator == d * fpsNumerator + rest;
    assert d * UNIT_NANOS * fpsNumerator == d * fpsNumerator * UNIT_NANOS;
    assert (d + 1) * UNIT_NANOS * fpsNumerator == d * fpsNumerator * UNIT_NANOS + fpsNumerator * UNIT_NANOS;
  }

  class MonotonicTimeline {
    var haveOrigin: bool
    var originMicros: nat
    var last: int
    const duration: nat
    ghost var seen: seq<nat>     // the presentation times given so far

    ghost predicate Valid()
      reads this
    {
      && 0 < duration <= MAXIMUM
      && (haveOrigin <==> seen != [])
      && (haveOrigin ==> originMicros == seen[0] && last == Stamp(seen, duration, |seen| - 1))
    }

    /** A frame rate that would make the duration 0 has been refused before. */
    constructor (fpsNumerator: nat, fpsDenominator: nat)
      requires 0 < fpsNumerator < WORD32 && 0 < fpsDenominator < WORD32
      requires FrameDuration(fpsNumerator, fpsDenominator) > 0
      ensures Valid() && duration == FrameDuration(fpsNumerator, fpsDenominator) && seen == []
    {
      haveOrigin, originMicros, last, seen := false, 0, -1, [];
      duration := FrameDuration(fpsNumerator, fpsDenominator);
    }

    /** Every intermediate value fits its 64-bit type. */
    method Next(ptsMicros: nat) returns (candidate: int)
      requires Valid() && ptsMicros < WORD64
      modifies this
      ensures Valid() && seen == old(seen) + [ptsMicros]
      ensures candidate == last == Stamp(seen, duration, |seen| - 1)
      ensures 0 <= candidate <= MAXIMUM && candidate + duration < WORD64
    {
      StampBounds(seen, duration);
      seen := seen + [ptsMicros];
      assert seen[..|seen| - 1] == old(seen);
      StampPrefix(old(seen), [ptsMicros], duration);
      if !haveOrigin {
        haveOrigin := true;
        originMicros := ptsMicros;
        last := 0;
        return 0;
      }
      candidate := 0;
      if ptsMicros >= originMicros {
        var delta := ptsMicros - originMicros;
        if delta > MAXIMUM / 10 {
          candidate := MAXIMUM;
        } else {
          assert delta * 10 <= MAXIMUM;
          candidate := delta * 10;
        }
      }
      var minimumNext := MAXIMUM;
      assert 0 <= MAXIMUM - duration;
      if last <= MAXIMUM - duration {
        assert last + duration <= MAXIMUM;
        minimumNext := last + duration;
      }
      if candidate < minimumNext { candidate := minimumNext; }
      last := candidate;
    }
  }

  // ---------------------------------------------------------------------------
  // The stamps as the program computes them, and in closed form

  /** The n-th stamp. */
  function Stamp(pts: seq<nat>, d: nat, n: int): int
    requires n < |pts|
    decreases n
  {
    if n <= 0 then 0
    else Max(Offset(pts[0], pts[n]), Min(MAXIMUM, Stamp(pts, d, n - 1) + d))
  }

  /** Where frame k, at its own offset, would put frame n if frames came at the nominal rate. */
  function Projected(pts: seq<nat>, d: nat, k: nat, n: nat): int
    requires k <= n < |pts|
  {
    Offset(pts[0], pts[k]) + (n - k) * d
  }

  lemma {:induction false} StampPrefix(pts: seq<nat>, more: seq<nat>, d: nat)
    ensures forall n :: n < |pts| ==> Stamp(pts + more, d, n) == Stamp(pts, d, n)
  {
    forall n | n < |pts| ensures Stamp(pts + more, d, n) == Stamp(pts, d, n) {
      StampOfPrefix(pts, more, d, n);
    }
  }

  lemma {:induction false} StampOfPrefix(pts: seq<nat>, more: seq<nat>, d: nat, n: int)
    requires n < |pts|
    ensures Stamp(pts + more, d, n) == Stamp(pts, d, n)
    decreases n
  {
    if n > 0 {
      StampOfPrefix(pts, more, d, n - 1);
      assert (pts + more)[n] == pts[n] && (pts + more)[0] == pts[0];
    }
  }

  lemma {:induction false} StampBound(pts: seq<nat>, d: nat, n: int)
    requires n < |pts|
    ensures 0 <= Stamp(pts, d, n) <= MAXIMUM
    decreases n
  {
    if n > 0 {
      StampBound(pts, d, n - 1);
    }
  }

  lemma StampBounds(pts: seq<nat>, d: nat)
    ensures forall n :: n < |pts| ==> 0 <= Stamp(pts, d, n) <= MAXIMUM
  {
    forall n | n < |pts| ensures 0 <= Stamp(pts, d, n) <= MAXIMUM {
      StampBound(pts, d, n);
    }
  }

  /** Each frame is at or after every projection ... */
  lemma {:induction false} StampAtLeast(pts: seq<nat>, d: nat, k: nat, n: nat)
    requires k <= n < |pts|
    ensures Stamp(pts, d, n) >= Min(MAXIMUM, Projected(pts, d, k, n))
    decreases n
  {
    if k < n {
      StampAtLeast(pts, d, k, n - 1);
      ProjectedOnce(pts, d, k, n);
    } else {
      assert (n - k) * d == 0;
    }
  }

  lemma ProjectedOnce(pts: seq<nat>, d: nat, k: nat, n: nat)
    requires k < n < |pts|
    ensures Projected(pts, d, k, n) == Projected(pts, d, k, n - 1) + d
  {
    assert (n - k) * d == (n - 1 - k) * d + d;
  }

  /** ... and is exactly at one of them, or at the end of time. */
  lemma {:induction false} StampAttained(pts: seq<nat>, d: nat, n: nat) returns (k: nat)
    requires n < |pts|
    ensures k <= n && Stamp(pts, d, n) == Min(MAXIMUM, Projected(pts, d, k, n))
    decreases n
  {
    if n == 0 {
      k := 0;
    } else if Stamp(pts, d, n) == Offset(pts[0], pts[n]) {
      k := n;
      assert (n - k) * d == 0;
    } else {
      k := StampAttained(pts, d, n - 1);
      ProjectedOnce(pts, d, k, n);
    }
  }

  /**
   * The n-th stamp is the largest projection, capped at the largest LONGLONG: frames that come
   * early are spread at the nominal rate, and frames that come late are never moved.
   */
  lemma StampClosedForm(pts: seq<nat>, d: nat, n: nat)
    requires n < |pts|
    ensures forall k :: 0 <= k <= n ==> Min(MAXIMUM, Projected(pts, d, k, n)) <= Stamp(pts, d, n)
    ensures exists k :: 0 <= k <= n && Stamp(pts, d, n) == Min(MAXIMUM, Projected(pts, d, k, n))
  {
    forall k | 0 <= k <= n ensures Min(MAXIMUM, Projected(pts, d, k, n)) <= Stamp(pts, d, n) {
      StampAtLeast(pts, d, k, n);
    }
    var k := StampAttained(pts, d, n);
  }

  /** Stamps k frames apart are k durations apart until the end of time is reached. */
  lemma {:induction false} StampsKeepApart(pts: seq<nat>, d: nat, n: nat, k: nat)
    requires k <= n < |pts|
    ensures Stamp(pts, d, n) >= Min(MAXIMUM, Stamp(pts, d, n - k) + k * d) >= Stamp(pts, d, n - k)
    decreases k
  {
    StampBound(pts, d, n - k);
    if k > 0 {
      StampsKeepApart(pts, d, n - 1, k - 1);
      assert k * d == (k - 1) * d + d;
    } else {
      assert k * d == 0;
    }
  }

  /** Frames that never come faster than the nominal rate are stamped with their own offsets. */
  lemma {:induction false} LateFramesStay(pts: seq<nat>, d: nat, n: nat)
    requires n < |pts|
    requires forall k :: 0 < k <= n ==> Offset(pts[0], pts[k - 1]) + d <= Offset(pts[0], pts[k])
    ensures Stamp(pts, d, n) == Offset(pts[0], pts[n])
    decreases n
  {
    if n > 0 {
      LateFramesStay(pts, d, n - 1);
    }
  }
}
