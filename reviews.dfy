/** Review aggregation (`submitReview`, App.tsx lines 123-157): append a
    review, set the count to the new length and the rating to the mean
    rounded to one decimal, in the catalog and in the open detail snapshot. */
module Reviews {
  import opened Types

  /** What the review form submits: a review without its id and date. */
  datatype ReviewInput = ReviewInput(reviewerName: string, rating: int, comment: string)

  /** The stored review; the id and the date are generated by the caller. */
  function MakeReview(input: ReviewInput, id: string, date: string): (r: Review)
    ensures r.reviewerName == input.reviewerName && r.rating == input.rating && r.comment == input.comment
    ensures r.id == id && r.date == date
  {
    Review(id, input.reviewerName, input.rating, input.comment, date)
  }

  /** `p.reviews || []`. */
  function ReviewsOf(p: Product): seq<Review>
  {
    match p.reviews
    case Some(rs) => rs
    case None => []
  }

  function SumRatings(rs: seq<Review>): int
  {
    if rs == [] then 0 else rs[0].rating + SumRatings(rs[1..])
  }

  /** `Number((sum / n).toFixed(1))` in tenths: the integer nearest to 10 * sum / n,
      ties away from zero (as `toFixed` rounds the magnitude). */
  function RoundTenths(sum: int, n: int): (r: int)
    requires n > 0
    ensures sum >= 0 ==> 2 * n * r - n <= 20 * sum < 2 * n * r + n
    ensures sum < 0 ==> 2 * n * r - n < 20 * sum <= 2 * n * r + n
  {
    if sum >= 0 then (20 * sum + n) / (2 * n) else -((-20 * sum + n) / (2 * n))
  }

  /** The mean rating of a non-empty review list, in tenths. */
  function MeanTenths(rs: seq<Review>): (m: int)
    requires |rs| > 0
    ensures SumRatings(rs) >= 0 ==> 2 * |rs| * m - |rs| <= 20 * SumRatings(rs) < 2 * |rs| * m + |rs|
    ensures SumRatings(rs) < 0 ==> 2 * |rs| * m - |rs| < 20 * SumRatings(rs) <= 2 * |rs| * m + |rs|
  {
    RoundTenths(SumRatings(rs), |rs|)
  }

  /** One product's update: append the review, recount, re-average. */
  function ApplyReview(p: Product, r: Review): (q: Product)
    ensures q == p.(reviews := Some(ReviewsOf(p) + [r]), reviewCount := |ReviewsOf(p)| + 1, rating := q.rating)
    ensures q.reviewCount == |ReviewsOf(q)|
    ensures q.rating == MeanTenths(ReviewsOf(q))
  {
    var updated := ReviewsOf(p) + [r];
    p.(reviews := Some(updated), reviewCount := |updated|, rating := MeanTenths(updated))
  }

  /** The catalog updater: `prev.map(p => p.id === productId ? ... : p)`. */
  function SubmitToCatalog(products: seq<Product>, productId: string, r: Review): (res: seq<Product>)
    ensures |res| == |products|
    ensures forall i :: 0 <= i < |products| && products[i].id != productId ==> res[i] == products[i]
    ensures forall i :: 0 <= i < |products| && products[i].id == productId ==> res[i] == ApplyReview(products[i], r)
  {
    if products == [] then []
    else
      [if products[0].id == productId then ApplyReview(products[0], r) else products[0]]
      + SubmitToCatalog(products[1..], productId, r)
  }

  /** The detail-snapshot updater, applied only when the open product has `productId`. */
  function RefreshSelected(selected: Option<Product>, productId: string, r: Review): (s: Option<Product>)
    ensures s.Some? <==> selected.Some?
    ensures s.Some? ==> s.value.id == selected.value.id
    ensures !(selected.Some? && selected.value.id == productId) ==> s == selected
    ensures selected.Some? && selected.value.id == productId ==>
      ReviewsOf(s.value) == ReviewsOf(selected.value) + [r] && s.value.reviewCount == |ReviewsOf(selected.value)| + 1
  {
    if selected.Some? && selected.value.id == productId then Some(ApplyReview(selected.value, r)) else selected
  }

  lemma {:induction false} SumRatingsAppend(rs: seq<Review>, r: Review)
    ensures SumRatings(rs + [r]) == SumRatings(rs) + r.rating
  {
    if rs == [] {
      assert rs + [r] == [r];
    } else {
      assert (rs + [r])[1..] == rs[1..] + [r];
      SumRatingsAppend(rs[1..], r);
    }
  }

  lemma {:induction false} SumRatingsBounds(rs: seq<Review>)
    requires forall i :: 0 <= i < |rs| ==> 1 <= rs[i].rating <= 5
    ensures |rs| <= SumRatings(rs) <= 5 * |rs|
  {
    if rs != [] {
      SumRatingsBounds(rs[1..]);
    }
  }

  /** If every rating is a star count 1 .. 5, the mean lies in 1.0 .. 5.0. */
  lemma MeanInStarRange(rs: seq<Review>)
    requires |rs| > 0
    requires forall i :: 0 <= i < |rs| ==> 1 <= rs[i].rating <= 5
    ensures 10 <= MeanTenths(rs) <= 50
  {
    SumRatingsBounds(rs);
    RoundedMeanBounds(|rs|, SumRatings(rs), MeanTenths(rs));
  }

  /** A sum of `n` star counts rounded to tenths of its mean lies in 10 .. 50. */
  lemma RoundedMeanBounds(n: int, sum: int, r: int)
    requires n > 0 && n <= sum <= 5 * n
    requires 2 * n * r - n <= 20 * sum < 2 * n * r + n
    ensures 10 <= r <= 50
  {
    assert n * (2 * r - 19) > 0;
    SignOfFactor(n, 2 * r - 19);
    assert n * (101 - 2 * r) >= 0;
    SignOfFactor(n, 101 - 2 * r);
  }

  lemma SignOfFactor(n: int, x: int)
    requires n > 0
    ensures n * x > 0 ==> x > 0
    ensures n * x >= 0 ==> x >= 0
  {
    if x < 0 {
      assert n * x <= -n;
    }
  }

  /** Only the products carrying `productId` change; an unknown id changes nothing. */
  lemma SubmitUnknownId(products: seq<Product>, productId: string, r: Review)
    requires forall i :: 0 <= i < |products| ==> products[i].id != productId
    ensures SubmitToCatalog(products, productId, r) == products
  {
  }

  /** The updated product carries the old reviews plus the new one, its count is their number and its
      rating is the rounded mean of the old ratings and the new one; the other fields are kept. */
  lemma ApplyReviewSpec(p: Product, r: Review)
    ensures var q := ApplyReview(p, r);
      && ReviewsOf(q) == ReviewsOf(p) + [r]
      && q.reviewCount == |ReviewsOf(p)| + 1
      && q.rating == RoundTenths(SumRatings(ReviewsOf(p)) + r.rating, |ReviewsOf(p)| + 1)
      && q.id == p.id && q.name == p.name && q.price == p.price && q.originalPrice == p.originalPrice
  {
    var q := ApplyReview(p, r);
    assert ReviewsOf(q) == ReviewsOf(p) + [r];
    SumRatingsAppend(ReviewsOf(p), r);
  }

  /** A snapshot equal to a catalog entry gets the same update, so the two stay equal. */
  lemma SnapshotStaysConsistent(products: seq<Product>, productId: string, r: Review, i: nat)
    requires i < |products|
    ensures RefreshSelected(Some(products[i]), productId, r) == Some(SubmitToCatalog(products, productId, r)[i])
  {
  }

  /** The count is re-derived from the list, so it grows by exactly one only when it already matched the list. */
  lemma CountGrowsByOne(p: Product, r: Review)
    ensures ApplyReview(p, r).reviewCount == p.reviewCount + 1 <==> p.reviewCount == |ReviewsOf(p)|
  {
  }
}
