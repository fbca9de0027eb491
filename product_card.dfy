/** The product card's derived values (components/ProductCard.tsx): the
    discount percentage, which corner label is shown, and the lit stars. */
module ProductCard {
  import opened Types
  import Stars

  /** Floor division for any non-zero divisor. */
  function FloorDiv(a: int, b: int): (q: int)
    requires b != 0
    ensures b > 0 ==> b * q <= a < b * q + b
    ensures b < 0 ==> b * q >= a > b * q + b
  {
    if b > 0 then a / b else (-a) / (-b)
  }

  /** `Math.round(((orig - price) / orig) * 100)` when `originalPrice` is truthy, else 0.
      `Math.round(x)` is `floor(x + 1/2)`, so the result is `floor((200 * (orig - price) + orig) / (2 * orig))`. */
  function Discount(p: Product): (d: int)
    ensures p.originalPrice.None? || p.originalPrice.value == 0 ==> d == 0
    ensures p.originalPrice.Some? && p.originalPrice.value > 0 ==>
      var o := p.originalPrice.value;
      2 * o * d - o <= 200 * (o - p.price) < 2 * o * d + o
  {
    match p.originalPrice
    case None => 0
    case Some(o) => if o == 0 then 0 else FloorDiv(200 * (o - p.price) + o, 2 * o)
  }

  /** A price between 0 and the original price gives a discount between 0 and 100 percent. */
  lemma DiscountIsPercentage(p: Product)
    requires p.originalPrice.Some? && p.originalPrice.value > 0
    requires 0 <= p.price <= p.originalPrice.value
    ensures 0 <= Discount(p) <= 100
  {
    var o := p.originalPrice.value;
    RoundedShareBounds(o, Discount(p), 200 * (o - p.price));
  }

  /** An integer within half a step of `x / (2 * o)`, for `0 <= x <= 200 * o`, lies in 0 .. 100. */
  lemma RoundedShareBounds(o: int, d: int, x: int)
    requires o > 0 && 0 <= x <= 200 * o
    requires 2 * o * d - o <= x < 2 * o * d + o
    ensures 0 <= d <= 100
  {
    if d < 0 {
      assert false;
    }
    if d > 100 {
      assert false;
    }
  }

  /** An integer within half a step of `x / (2 * o)` is positive exactly when `x >= o`, and zero exactly
      when `-o <= x < o`. */
  lemma RoundedSign(o: int, d: int, x: int)
    requires o > 0
    requires 2 * o * d - o <= x < 2 * o * d + o
    ensures d > 0 <==> x >= o
    ensures d == 0 <==> -o <= x < o
  {
    if d > 0 {
      assert o * d >= o;
    } else if d < 0 {
      assert o * d <= -o;
    }
  }

  /** The price is at least half a percent below a positive original price. */
  predicate WellBelowOriginal(p: Product)
  {
    p.originalPrice.Some? && p.originalPrice.value > 0 &&
    200 * (p.originalPrice.value - p.price) >= p.originalPrice.value
  }

  /** The price is within half a percent of a positive original price, on either side. */
  predicate NearOriginal(p: Product)
  {
    p.originalPrice.Some? && p.originalPrice.value > 0 &&
    -p.originalPrice.value <= 200 * (p.originalPrice.value - p.price) < p.originalPrice.value
  }

  /** Where the discount's sign comes from: how far the price lies below the original price. */
  lemma DiscountSign(p: Product)
    ensures p.originalPrice.Some? && p.originalPrice.value > 0 ==>
      (Discount(p) > 0 <==> WellBelowOriginal(p)) && (Discount(p) == 0 <==> NearOriginal(p))
  {
    if p.originalPrice.Some? && p.originalPrice.value > 0 {
      var o := p.originalPrice.value;
      RoundedSign(o, Discount(p), 200 * (o - p.price));
    }
  }

  /** The "-N%" tag is shown when the discount is positive: when the price is at least half a
      percent below the original price. */
  function ShowsDiscountTag(p: Product): (shown: bool)
    ensures p.originalPrice.None? || p.originalPrice.value >= 0 ==> (shown <==> WellBelowOriginal(p))
  {
    DiscountSign(p);
    Discount(p) > 0
  }

  /** The `badge` label is shown when the badge is a non-empty string and the discount is 0: when
      there is no original price or the price is within half a percent of it. */
  function ShowsBadge(p: Product): (shown: bool)
    ensures p.originalPrice.None? || p.originalPrice.value >= 0 ==>
      (shown <==> p.badge.Some? && p.badge.value != "" &&
                  (p.originalPrice.None? || p.originalPrice.value == 0 || NearOriginal(p)))
  {
    DiscountSign(p);
    p.badge.Some? && p.badge.value != "" && Discount(p) == 0
  }

  /** The badge wins only on undiscounted products, so the two labels never overlap;
      a product priced above its original price shows neither. */
  lemma CornerLabels(p: Product)
    ensures !(ShowsDiscountTag(p) && ShowsBadge(p))
    ensures Discount(p) < 0 ==> !ShowsDiscountTag(p) && !ShowsBadge(p)
    ensures p.originalPrice.None? && p.badge.Some? && p.badge.value != "" ==> ShowsBadge(p)
  {
  }

  /** Lit stars on the card: `min(5, floor(rating))`, never more than the rating earns. */
  function LitStars(p: Product): (n: nat)
    ensures n <= 5
    ensures p.rating >= 0 ==> 10 * n <= p.rating
  {
    Stars.RatingStars(p.rating);
    Stars.Lit(Stars.WholeStars(p.rating))
  }

  lemma LitStarsClamp(p: Product)
    ensures LitStars(p) == if p.rating < 10 then 0 else if p.rating >= 50 then 5 else p.rating / 10
  {
    Stars.RatingStars(p.rating);
  }
}
