/**
 * Weekly time windows (src/timings.rs).
 *
 * Every instant is an integer number of seconds. Weeks are 604800-second
 * buckets anchored at a fixed first reference point. Rust's `%` and `/`
 * truncate toward zero, and `as i32` wraps; both are written out here,
 * because Dafny's operators are Euclidean and its integers unbounded.
 */
module Timings {

  /** Seconds in a week (`WEEK_IN_SECONDS`). */
  const Week: int := 604800

  /** The first reference point, 2023-06-04 19:00 local time, taken at UTC-3. */
  const Anchor: int := 1685916000

  /** Lower and upper bounds of a 32-bit signed integer. */
  const I32Min: int := -0x8000_0000
  const I32Max: int := 0x7fff_ffff

  type I32 = x: int | I32Min <= x <= I32Max

  /** Remainder of a division that truncates toward zero (Rust's `%`). */
  function TruncRem(a: int, b: int): (r: int)
    requires b > 0
    ensures a >= 0 ==> 0 <= r < b
    ensures a < 0 ==> -b < r <= 0
  {
    if a >= 0 then a % b else -((-a) % b)
  }

  /** Quotient of a division that truncates toward zero (chrono's `num_weeks`). */
  function TruncDiv(a: int, b: int): (q: int)
    requires b > 0
    ensures q * b + TruncRem(a, b) == a
  {
    if a >= 0 then a / b else -((-a) / b)
  }

  /** Rust's `as i32` on a wider integer: wrap around modulo 2^32. */
  function ToI32(x: int): (r: I32)
    ensures I32Min <= x <= I32Max ==> r == x
    ensures (r - x) % 0x1_0000_0000 == 0
  {
    (x - I32Min) % 0x1_0000_0000 + I32Min
  }

  /** `get_ref_point_of`: subtract the truncated remainder of the distance to the anchor. */
  function RefPointOf(t: int): int
  {
    t - TruncRem(t - Anchor, Week)
  }

  /** An instant is aligned when it lies a whole number of weeks from the anchor. */
  predicate Aligned(t: int)
  {
    (t - Anchor) % Week == 0
  }

  /** Whole weeks from the anchor to the reference point of `t`, before the cast. */
  function WeeksSinceAnchor(t: int): int
  {
    TruncDiv(RefPointOf(t) - Anchor, Week)
  }

  /** `ref_point_id`: the week index, cast to `i32`. */
  function RefPointId(t: int): I32
  {
    ToI32(WeeksSinceAnchor(t))
  }

  /** `ref_point_from_id`: the anchor plus `id` weeks. */
  function RefPointFromId(id: I32): int
  {
    Anchor + id * Week
  }

  function StartEligibleCheck(t: int): int
  {
    RefPointOf(t) - 4 * Week
  }

  function EndEligibleCheck(t: int): int
  {
    RefPointOf(t)
  }

  function StartVoting(t: int): int
  {
    RefPointOf(t)
  }

  /** Ballot creation ends 30 minutes before the week does. */
  function EndCreateBallot(t: int): int
  {
    RefPointOf(t) + Week - 30 * 60
  }

  function EndVoting(t: int): int
  {
    RefPointOf(t) + Week
  }

  predicate CanCreateBallot(t: int)
  {
    t >= StartVoting(t) && t < EndCreateBallot(t)
  }

  /** `can_cast_vote`, with the clock reading `now` as a parameter. */
  predicate CanCastVote(rf: int, now: int)
  {
    now >= StartVoting(rf) && now < EndVoting(rf)
  }

  /** Results are published 90 minutes after voting ends. */
  function PublishTime(t: int): int
  {
    EndVoting(t) + 90 * 60
  }

  /** `publish_results`, with the clock reading `now` as a parameter. */
  predicate PublishResults(t: int, now: int)
  {
    now >= PublishTime(t)
  }

  // ---------------------------------------------------------------------
  // Properties of the reference point
  // ---------------------------------------------------------------------

  /** The reference point is always a whole number of weeks from the anchor. */
  lemma RefPointAligned(t: int)
    ensures Aligned(RefPointOf(t))
  {
    var d := t - Anchor;
    if d >= 0 {
      assert RefPointOf(t) - Anchor == (d / Week) * Week;
    } else {
      assert RefPointOf(t) - Anchor == (-((-d) / Week)) * Week;
    }
  }

  /** An aligned instant is its own reference point. */
  lemma AlignedIsFixed(t: int)
    requires Aligned(t)
    ensures RefPointOf(t) == t
  {
    if t - Anchor < 0 {
      var k := (t - Anchor) / Week;
      assert -(t - Anchor) == (-k) * Week;
      assert (-(t - Anchor)) % Week == 0;
    }
  }

  /** `get_ref_point_of` is idempotent. */
  lemma RefPointIdempotent(t: int)
    ensures RefPointOf(RefPointOf(t)) == RefPointOf(t)
  {
    RefPointAligned(t);
    AlignedIsFixed(RefPointOf(t));
  }

  /**
   * At or after the anchor the reference point is the start of the week that
   * holds `t`; before the anchor the truncating remainder rounds up instead,
   * to the aligned instant at or after `t`.
   */
  lemma RefPointBounds(t: int)
    ensures t >= Anchor ==> RefPointOf(t) <= t < RefPointOf(t) + Week
    ensures t < Anchor ==> t <= RefPointOf(t) < t + Week
  {
  }

  /** Week 0 is the open interval (anchor - 1 week, anchor + 1 week). */
  lemma WeekZero(t: int)
    ensures RefPointOf(t) == Anchor <==> Anchor - Week < t < Anchor + Week
  {
    var d := t - Anchor;
    if d >= 0 {
      assert RefPointOf(t) - Anchor == d - d % Week;
      assert d - d % Week == (d / Week) * Week;
      if d >= Week {
        assert d / Week >= 1;
      }
    } else {
      assert RefPointOf(t) - Anchor == d + (-d) % Week;
      assert -d - (-d) % Week == ((-d) / Week) * Week;
      if -d >= Week {
        assert (-d) / Week >= 1;
      }
    }
  }

  /** The reference point never decreases as time moves on. */
  lemma RefPointMonotone(t1: int, t2: int)
    requires t1 <= t2
    ensures RefPointOf(t1) <= RefPointOf(t2)
  {
    var d1, d2 := t1 - Anchor, t2 - Anchor;
    if d1 >= 0 {
      assert RefPointOf(t1) - Anchor == (d1 / Week) * Week;
      assert RefPointOf(t2) - Anchor == (d2 / Week) * Week;
      DivMonotone(d1, d2);
    } else if d2 >= 0 {
      assert RefPointOf(t1) - Anchor == -(((-d1) / Week) * Week);
      assert RefPointOf(t2) - Anchor == (d2 / Week) * Week;
    } else {
      assert RefPointOf(t1) - Anchor == -(((-d1) / Week) * Week);
      assert RefPointOf(t2) - Anchor == -(((-d2) / Week) * Week);
      DivMonotone(-d2, -d1);
    }
  }

  lemma DivMonotone(a: int, b: int)
    requires 0 <= a <= b
    ensures a / Week <= b / Week
  {
  }

  /** Between two instants whose week counts fit an `i32`, the week id is monotone too. */
  lemma RefPointIdMonotone(t1: int, t2: int)
    requires t1 <= t2
    requires I32Min <= WeeksSinceAnchor(t1) <= I32Max
    requires I32Min <= WeeksSinceAnchor(t2) <= I32Max
    ensures RefPointId(t1) <= RefPointId(t2)
  {
    RefPointMonotone(t1, t2);
    RefPointAligned(t1);
    RefPointAligned(t2);
    var k1 := (RefPointOf(t1) - Anchor) / Week;
    var k2 := (RefPointOf(t2) - Anchor) / Week;
    WeeksOfAligned(RefPointOf(t1));
    WeeksOfAligned(RefPointOf(t2));
    assert k1 * Week <= k2 * Week;
  }

  lemma WeeksOfAligned(r: int)
    requires Aligned(r)
    ensures TruncDiv(r - Anchor, Week) * Week == r - Anchor
  {
    if r - Anchor < 0 {
      var k := (r - Anchor) / Week;
      assert -(r - Anchor) == (-k) * Week;
    }
  }

  /** The week id is the reference point's week count whenever that fits an `i32`. */
  lemma IdRoundTrip(t: int)
    requires I32Min <= WeeksSinceAnchor(t) <= I32Max
    ensures RefPointFromId(RefPointId(t)) == RefPointOf(t)
  {
    RefPointAligned(t);
    WeeksOfAligned(RefPointOf(t));
  }

  /** Every `i32` week id is recovered from its reference point. */
  lemma FromIdRoundTrip(id: I32)
    ensures RefPointId(RefPointFromId(id)) == id
  {
    var r := RefPointFromId(id);
    assert r - Anchor == id * Week;
    assert Aligned(r);
    AlignedIsFixed(r);
    WeeksOfAligned(r);
    assert TruncDiv(r - Anchor, Week) * Week == id * Week;
  }

  // ---------------------------------------------------------------------
  // Properties of the windows
  // ---------------------------------------------------------------------

  /** The eligibility window is the four aligned weeks that end at the reference point. */
  lemma EligibleWindow(t: int)
    ensures EndEligibleCheck(t) - StartEligibleCheck(t) == 4 * Week
    ensures Aligned(StartEligibleCheck(t)) && Aligned(EndEligibleCheck(t))
  {
    RefPointAligned(t);
    var k := (RefPointOf(t) - Anchor) / Week;
    assert RefPointOf(t) - Anchor == k * Week;
    assert StartEligibleCheck(t) - Anchor == (k - 4) * Week;
  }

  /**
   * A ballot can be created exactly in the first week minus 30 minutes after an
   * aligned instant at or after the anchor; before the anchor only aligned
   * instants themselves qualify, as the reference point rounds up there.
   */
  lemma CanCreateBallotIff(t: int)
    ensures CanCreateBallot(t) <==>
      if t >= Anchor then (t - Anchor) % Week < Week - 1800 else Aligned(t)
  {
    var d := t - Anchor;
    TruncRemZero(d);
  }

  lemma TruncRemZero(d: int)
    ensures d < 0 ==> (TruncRem(d, Week) == 0 <==> d % Week == 0)
  {
    if d < 0 {
      if (-d) % Week == 0 {
        var k := (-d) / Week;
        assert d == (-k) * Week;
      }
      if d % Week == 0 {
        var k := d / Week;
        assert -d == (-k) * Week;
      }
    }
  }

  /** For an aligned week start, votes are accepted exactly during that week. */
  lemma CanCastVoteIff(rf: int, now: int)
    requires Aligned(rf)
    ensures CanCastVote(rf, now) <==> rf <= now < rf + Week
  {
    AlignedIsFixed(rf);
  }

  /** Whenever a ballot can be created, a vote on it can be cast at the same instant. */
  lemma CreationWithinVoting(t: int)
    requires CanCreateBallot(t)
    requires I32Min <= WeeksSinceAnchor(t) <= I32Max
    ensures CanCastVote(RefPointFromId(RefPointId(t)), t)
    ensures EndCreateBallot(t) < EndVoting(t)
  {
    IdRoundTrip(t);
    RefPointIdempotent(t);
  }

  /** For an aligned week start, results are published 90 minutes after voting closes. */
  lemma PublishIff(rf: int, now: int)
    requires Aligned(rf)
    ensures PublishResults(rf, now) <==> now >= rf + Week + 5400
    ensures PublishResults(rf, now) ==> !CanCastVote(rf, now)
  {
    AlignedIsFixed(rf);
  }
}
