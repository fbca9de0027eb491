/** The product detail modal (components/ProductDetailModal.tsx): the star
    strips, the review badge, the add-to-cart button and the review form. */
module ProductDetailModal {
  import opened Types
  import Stars
  import Cart
  import Reviews
  import App

  /** The header strip: star `i` is lit when `i < Math.floor(rating)`. */
  function ProductStars(p: Product): (n: nat)
    ensures n <= 5
    ensures n == 5 <==> p.rating >= 50
  {
    Stars.RatingStars(p.rating);
    Stars.Lit(Stars.WholeStars(p.rating))
  }

  /** A review's strip: star `i` is lit when `i < review.rating`; a rating of zero or less lights none. */
  function ReviewStars(r: Review): (n: nat)
    ensures n <= 5
    ensures n == 0 <==> r.rating <= 0
  {
    Stars.LitIsClamp(r.rating);
    Stars.Lit(r.rating)
  }

  /** The header strip lights the whole stars of the rating, capped at five. */
  lemma ProductStarsSpec(p: Product)
    ensures 0 <= p.rating < 50 ==> ProductStars(p) == p.rating / 10
    ensures p.rating >= 50 ==> ProductStars(p) == 5
    ensures p.rating < 0 ==> ProductStars(p) == 0
  {
    Stars.RatingStars(p.rating);
  }

  /** A review given 1 .. 5 stars lights exactly that many. */
  lemma ReviewStarsSpec(r: Review)
    requires 1 <= r.rating <= 5
    ensures ReviewStars(r) == r.rating
  {
    Stars.LitIsClamp(r.rating);
  }

  /** The badge beside "Verified Customer Reviews": `product.reviews?.length || 0`. */
  function ReviewBadge(p: Product): (n: nat)
    ensures n == 0 <==> p.reviews.None? || p.reviews.value == []
  {
    |Reviews.ReviewsOf(p)|
  }

  /** The "No reviews yet" placeholder is shown exactly when the badge reads zero. */
  function ShowsNoReviews(p: Product): (none: bool)
    ensures none <==> Reviews.ReviewsOf(p) == []
  {
    p.reviews.None? || |p.reviews.value| == 0
  }

  lemma NoReviewsIffZeroBadge(p: Product)
    ensures ShowsNoReviews(p) <==> ReviewBadge(p) == 0
  {
  }

  /** Once a review has been submitted, the badge and the "(n verified reviews)" count agree. */
  lemma BadgeAgreesAfterReview(p: Product, r: Review)
    ensures ReviewBadge(Reviews.ApplyReview(p, r)) == Reviews.ApplyReview(p, r).reviewCount
    ensures ReviewBadge(Reviews.ApplyReview(p, r)) == ReviewBadge(p) + 1
  {
  }

  /** The guard of `handleReviewSubmit`: both text fields non-empty (whitespace counts as text). */
  function Accepts(input: Reviews.ReviewInput): (ok: bool)
    ensures ok <==> |input.reviewerName| > 0 && |input.comment| > 0
  {
    input.reviewerName != "" && input.comment != ""
  }

  /** "ADD TO CART" in the modal: add the product, then close the modal. */
  method AddToCartAndClose(store: App.Store, p: Product)
    requires store.Valid()
    modifies store
    ensures store.Valid()
    ensures store.State() == old(store.State()).(cart := Cart.Add(old(store.cart), p), isCartOpen := true,
                                                 selectedProduct := None)
  {
    store.AddToCart(p);
    store.CloseDetails();
  }

  /** The review form's `newReview` state. */
  class ReviewForm {
    var reviewerName: string
    var rating: int
    var comment: string

    /** The star picker only ever stores 1 .. 5. */
    predicate Valid()
      reads this
    {
      1 <= rating <= 5
    }

    function Input(): Reviews.ReviewInput
      reads this
    {
      Reviews.ReviewInput(reviewerName, rating, comment)
    }

    /** `{ reviewerName: '', rating: 5, comment: '' }`. */
    constructor ()
      ensures Valid()
      ensures Input() == Reviews.ReviewInput("", 5, "")
    {
      reviewerName, rating, comment := "", 5, "";
    }

    /** The "Your Name" input. */
    method SetName(name: string)
      requires Valid()
      modifies this
      ensures Valid()
      ensures Input() == old(Input()).(reviewerName := name)
    {
      reviewerName := name;
    }

    /** The "Review Text" area. */
    method SetComment(text: string)
      requires Valid()
      modifies this
      ensures Valid()
      ensures Input() == old(Input()).(comment := text)
    {
      comment := text;
    }

    /** One of the five star buttons. */
    method PickStar(star: int)
      requires Valid() && 1 <= star <= 5
      modifies this
      ensures Valid()
      ensures Input() == old(Input()).(rating := star)
    {
      rating := star;
    }

    /** `handleReviewSubmit`: a form with an empty field changes nothing; otherwise the review is handed
        to the store for the shown product and the form is reset. */
    method Submit(store: App.Store, product: Product, reviewId: string, date: string) returns (accepted: bool)
      requires Valid() && store.Valid()
      modifies this, store
      ensures Valid() && store.Valid()
      ensures accepted <==> Accepts(old(Input()))
      ensures !accepted ==> Input() == old(Input()) && store.State() == old(store.State())
      ensures accepted ==> Input() == Reviews.ReviewInput("", 5, "")
      ensures accepted ==>
        var r := Reviews.MakeReview(old(Input()), reviewId, date);
        store.State() == old(store.State()).(
          products := Reviews.SubmitToCatalog(old(store.products), product.id, r),
          selectedProduct := Reviews.RefreshSelected(old(store.selectedProduct), product.id, r))
    {
      if reviewerName == "" || comment == "" {
        return false;
      }
      store.SubmitReview(product.id, Input(), reviewId, date);
      reviewerName, rating, comment := "", 5, "";
      accepted := true;
    }
  }

  /** A review coming from the form carries 1 .. 5 stars, so a product whose earlier reviews did too
      gets a rating between 1.0 and 5.0. */
  lemma FormReviewKeepsRatingInRange(p: Product, input: Reviews.ReviewInput, reviewId: string, date: string)
    requires 1 <= input.rating <= 5
    requires forall i :: 0 <= i < |Reviews.ReviewsOf(p)| ==> 1 <= Reviews.ReviewsOf(p)[i].rating <= 5
    ensures 10 <= Reviews.ApplyReview(p, Reviews.MakeReview(input, reviewId, date)).rating <= 50
  {
    var r := Reviews.MakeReview(input, reviewId, date);
    var q := Reviews.ApplyReview(p, r);
    var rs := Reviews.ReviewsOf(q);
    assert rs == Reviews.ReviewsOf(p) + [r];
    assert forall i :: 0 <= i < |rs| ==> 1 <= rs[i].rating <= 5 by {
      forall i | 0 <= i < |rs| ensures 1 <= rs[i].rating <= 5 {
        if i < |Reviews.ReviewsOf(p)| {
          assert rs[i] == Reviews.ReviewsOf(p)[i];
        }
      }
    }
    Reviews.MeanInStarRange(rs);
  }
}
