/** The closed-interval overlap test (src/utils/dateHelper.ts). */
module DateHelper {
  import opened VenueTypes

  /** `overlap(a1, a2, b1, b2)`: `[a1, a2]` and `[b1, b2]` overlap. */
  predicate Overlap(a1: Instant, a2: Instant, b1: Instant, b2: Instant) {
    a1 <= b2 && b1 <= a2
  }

  /** Instant `t` lies in the closed range `[lo, hi]`. */
  predicate Within(t: Instant, lo: Instant, hi: Instant) {
    lo <= t <= hi
  }

  /** The two ranges may be given in either order. */
  lemma OverlapSymmetric(a1: Instant, a2: Instant, b1: Instant, b2: Instant)
    ensures Overlap(a1, a2, b1, b2) == Overlap(b1, b2, a1, a2)
  {
  }

  /** A well-formed range overlaps itself. */
  lemma OverlapReflexive(a1: Instant, a2: Instant)
    requires a1 <= a2
    ensures Overlap(a1, a2, a1, a2)
  {
  }

  /** Both ends are inclusive: ranges that share only an endpoint overlap,
      and a range ending strictly before another starts does not. */
  lemma OverlapBoundaries(a1: Instant, a2: Instant, b2: Instant)
    requires a1 <= a2 <= b2
    ensures Overlap(a1, a2, a2, b2)
    ensures Overlap(a1, a2, a2 + 1, b2) == false
  {
  }

  /** The doc comment's meaning: for well-formed ranges, `overlap` holds
      exactly when some instant lies in both. */
  lemma OverlapMeansSharedInstant(a1: Instant, a2: Instant, b1: Instant, b2: Instant)
    requires a1 <= a2 && b1 <= b2
    ensures Overlap(a1, a2, b1, b2) <==> exists t :: Within(t, a1, a2) && Within(t, b1, b2)
  {
    if Overlap(a1, a2, b1, b2) {
      var t := if a1 <= b1 then b1 else a1;
      assert Within(t, a1, a2) && Within(t, b1, b2);
    }
  }

  /** Nothing in the predicate rejects a reversed range: `[5, 1]` still
      overlaps `[0, 10]`. */
  lemma ReversedRangeAccepted()
    ensures Overlap(5, 1, 0, 10)
  {
  }
}
