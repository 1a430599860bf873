/**
 * The star indicator of src/app/components/StarRating.tsx: five icons, icon
 * `i` highlighted exactly when `i <= rating`. The rating is compared, never
 * computed with, so it is a `real`; a missing rating compares false.
 */
module StarRating {
  import opened Wrappers

  /** `totalStars`: the number of icons drawn. */
  const TOTAL_STARS := 5

  /** One icon: its React key and whether it is drawn highlighted (yellow) or dimmed (grey). */
  datatype Star = Star(key: int, highlighted: bool)

  /** `i <= rating`, which is false in JavaScript when the rating is `undefined`. */
  predicate Lit(i: int, rating: Option<real>)
  {
    rating.Some? && i as real <= rating.value
  }

  /** The icons for one rating, as a reference for the loop. */
  function Stars(rating: Option<real>): seq<Star>
  {
    seq(TOTAL_STARS, k => Star(k + 1, Lit(k + 1, rating)))
  }

  /**
   * The component body: a `for` loop from 1 to 5 pushing one icon per step.
   * Exactly five icons come out, keyed 1..5, icon `i` highlighted iff `i <= rating`.
   */
  method Render(rating: Option<real>) returns (starIcons: seq<Star>)
    ensures starIcons == Stars(rating)
    ensures |starIcons| == TOTAL_STARS
    ensures forall k :: 0 <= k < |starIcons| ==>
      starIcons[k].key == k + 1 && (starIcons[k].highlighted <==> Lit(k + 1, rating))
  {
    starIcons := [];
    for i := 1 to TOTAL_STARS + 1
      invariant |starIcons| == i - 1
      invariant forall k :: 0 <= k < i - 1 ==> starIcons[k] == Star(k + 1, Lit(k + 1, rating))
    {
      starIcons := starIcons + [Star(i, Lit(i, rating))];
    }
  }

  /** The number of highlighted icons. */
  function HighlightedCount(stars: seq<Star>): nat
  {
    if stars == [] then 0 else (if stars[0].highlighted then 1 else 0) + HighlightedCount(stars[1..])
  }

  /** `n` limited to the range 0..5. */
  function Clamp(n: int): nat
  {
    if n < 0 then 0 else if n > TOTAL_STARS then TOTAL_STARS else n
  }

  lemma {:induction false} PrefixCount(stars: seq<Star>, m: nat)
    requires m <= |stars|
    requires forall k :: 0 <= k < |stars| ==> (stars[k].highlighted <==> k < m)
    ensures HighlightedCount(stars) == m
  {
    if stars != [] {
      PrefixCount(stars[1..], if m > 0 then m - 1 else 0);
    }
  }

  /** Icon `k + 1` is highlighted exactly when `k` is below the clamped floor of the rating. */
  lemma LitBelowFloor(rating: real, k: int)
    requires 0 <= k < TOTAL_STARS
    ensures Lit(k + 1, Some(rating)) <==> k < Clamp(rating.Floor)
  {
  }

  /**
   * The number of highlighted icons is `min(5, max(0, floor(rating)))`: 0
   * below 1, 5 from 5 on, and 0 when the rating is missing.
   */
  lemma HighlightedCountIs(rating: Option<real>)
    ensures HighlightedCount(Stars(rating)) == if rating.None? then 0 else Clamp(rating.value.Floor)
  {
    var stars := Stars(rating);
    if rating.None? {
      PrefixCount(stars, 0);
    } else {
      forall k | 0 <= k < |stars|
        ensures stars[k].highlighted <==> k < Clamp(rating.value.Floor)
      {
        LitBelowFloor(rating.value, k);
      }
      PrefixCount(stars, Clamp(rating.value.Floor));
    }
  }

  /** The highlighted icons form a prefix: a highlighted icon has only highlighted icons before it. */
  lemma HighlightedPrefix(rating: Option<real>, i: int, j: int)
    requires 1 <= j < i <= TOTAL_STARS
    requires Stars(rating)[i - 1].highlighted
    ensures Stars(rating)[j - 1].highlighted
  {
  }

  /** A higher rating never highlights fewer icons. */
  lemma HighlightedCountMonotone(r1: real, r2: real)
    requires r1 <= r2
    ensures HighlightedCount(Stars(Some(r1))) <= HighlightedCount(Stars(Some(r2)))
  {
    HighlightedCountIs(Some(r1));
    HighlightedCountIs(Some(r2));
  }
}
