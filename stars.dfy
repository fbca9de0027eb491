/** The five-star strips: star `i` (0-based) is lit when `i < v`. */
module Stars {

  /** How many of the stars `i .. 4` are lit for the value `v`. */
  function LitFrom(v: int, i: nat): (n: nat)
    requires i <= 5
    decreases 5 - i
  {
    if i == 5 then 0 else (if i < v then 1 else 0) + LitFrom(v, i + 1)
  }

  /** Number of lit stars in a strip for the value `v`. */
  function Lit(v: int): nat { LitFrom(v, 0) }

  /** The lit stars are `v` clamped into 0 .. 5. */
  lemma {:induction false} LitFromCount(v: int, i: nat)
    requires i <= 5
    ensures LitFrom(v, i) == if v <= i then 0 else if v >= 5 then 5 - i else v - i
    decreases 5 - i
  {
    if i < 5 {
      LitFromCount(v, i + 1);
    }
  }

  lemma LitIsClamp(v: int)
    ensures Lit(v) == if v <= 0 then 0 else if v >= 5 then 5 else v
  {
    LitFromCount(v, 0);
  }

  /** `Math.floor` of a rating held in tenths (Euclidean division by 10 is the floor). */
  function WholeStars(tenths: int): (w: int)
    ensures 10 * w <= tenths < 10 * w + 10
  {
    tenths / 10
  }

  /** Lit stars for a product rating in tenths: `min(5, floor(rating))`, and none for a negative rating. */
  lemma RatingStars(tenths: int)
    ensures Lit(WholeStars(tenths)) == if tenths < 10 then 0 else if tenths >= 50 then 5 else tenths / 10
  {
    LitIsClamp(WholeStars(tenths));
  }
}
