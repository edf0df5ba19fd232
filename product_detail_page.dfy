/**
 * The product-detail screen: the quantity picker and its bound, the review form and what a
 * submitted review becomes, the star input, the combined review list, the average rating
 * with its full/half/empty stars, and the price-savings display.
 */
module ProductDetailPage {
  import opened Wrappers
  import opened Text
  import opened Seqs
  import opened Money
  import opened Pricing
  import opened Catalog

  /** The review form's state. */
  datatype ReviewForm = ReviewForm(rating: int, comment: string, reviewerName: string)

  /** The review form's text inputs. */
  datatype ReviewField = Comment | ReviewerName

  const EmptyReviewForm := ReviewForm(5, "", "")

  /** `product?.stock || 100`: a zero stock falls back to 100. */
  function QuantityLimit(stock: int): int {
    if stock != 0 then stock else 100
  }

  /** Whether `handleQuantityChange` takes a parsed value (`None` when the text is not a
      number). */
  predicate AcceptsQuantity(value: Option<int>, stock: int) {
    value.Some? && 0 < value.value <= QuantityLimit(stock)
  }

  /** `[...Array(Math.min(stock, 10))]`, numbered from 1: the choices of the quantity menu,
      shown for a product in stock. */
  function QuantityOptions(stock: int): (r: seq<int>)
    requires stock > 0
    ensures |r| == (if stock < 10 then stock else 10)
    ensures forall i :: 0 <= i < |r| ==> r[i] == i + 1
  {
    seq(if stock < 10 then stock else 10, i => i + 1)
  }

  /** Every choice the menu offers is a quantity the handler accepts, and the menu offers
      exactly the numbers 1 to min(stock, 10). */
  lemma QuantityOptionsAccepted(stock: int)
    requires stock > 0
    ensures forall q :: q in QuantityOptions(stock) <==> 1 <= q <= (if stock < 10 then stock else 10)
    ensures forall q :: q in QuantityOptions(stock) ==> AcceptsQuantity(Some(q), stock)
  {
    var r := QuantityOptions(stock);
    forall q | 1 <= q <= (if stock < 10 then stock else 10) ensures q in r {
      assert r[q - 1] == q;
    }
  }

  /** A review is taken when it has a rating and a non-blank comment. */
  predicate CanSubmit(form: ReviewForm) {
    form.rating != 0 && !IsBlank(form.comment)
  }

  /** The review a submission produces: trimmed comment, trimmed name or "Anonymous", and
      the submission time. */
  function NewReview(form: ReviewForm, date: string): Review {
    var name := Trim(form.reviewerName);
    Review(form.rating, Trim(form.comment), if name == "" then "Anonymous" else name, date)
  }

  /** A submitted review never has an empty comment or name: a blank name becomes
      "Anonymous", any other name is kept trimmed. */
  lemma NewReviewNormalised(form: ReviewForm, date: string)
    requires CanSubmit(form)
    ensures var r := NewReview(form, date);
      r.comment != "" && r.reviewerName != "" && r.rating == form.rating
      && (IsBlank(form.reviewerName) ==> r.reviewerName == "Anonymous")
      && (!IsBlank(form.reviewerName) ==> r.reviewerName == Trim(form.reviewerName))
  {
    TrimEmptyIffBlank(form.comment);
    TrimEmptyIffBlank(form.reviewerName);
  }

  /** The reviews the page lists: the product's own reviews, then the reviews users added
      for it. */
  function AllReviews(product: Product, userReviews: seq<Review>): (r: seq<Review>)
    ensures |r| == |product.reviews| + |userReviews|
    ensures r[..|product.reviews|] == product.reviews && r[|product.reviews|..] == userReviews
  {
    product.reviews + userReviews
  }

  /** The word after the review count. */
  function ReviewsLabel(reviewCount: int): string {
    if reviewCount == 1 then "review" else "reviews"
  }

  /** The label is singular exactly for one review, which happens exactly when the two lists
      hold one review between them. */
  lemma ReviewsLabelSingularIffOne(product: Product, userReviews: seq<Review>)
    ensures ReviewsLabel(|AllReviews(product, userReviews)|) == "review"
      <==> |product.reviews| + |userReviews| == 1
  {
  }

  function RatingOf(r: Review): real {
    r.rating as real
  }

  /** `calculatedRating`: the mean rating of the listed reviews to one decimal, or the
      product's own rating to one decimal when there are none. */
  function CalculatedRating(allReviews: seq<Review>, productRating: real): real {
    if |allReviews| > 0 then ToFixed1(SumOf(allReviews, RatingOf) / |allReviews| as real)
    else ToFixed1(productRating)
  }

  /** A total between `lo * n` and `hi * n` has its mean over `n` between `lo` and `hi`. */
  lemma MeanWithin(sum: real, n: real, lo: real, hi: real)
    requires n > 0.0 && lo * n <= sum <= hi * n
    ensures lo <= sum / n <= hi
  {
    assert lo * n / n == lo && hi * n / n == hi;
  }

  /** With ratings from 1 to 5 on every review, the displayed average is between 1 and 5. */
  lemma CalculatedRatingBounds(allReviews: seq<Review>, productRating: real)
    requires |allReviews| > 0
    requires forall i :: 0 <= i < |allReviews| ==> 1 <= allReviews[i].rating <= 5
    ensures 1.0 <= CalculatedRating(allReviews, productRating) <= 5.0
  {
    var n := |allReviews| as real;
    forall r | r in allReviews ensures 1.0 <= RatingOf(r) <= 5.0 {
      var i :| 0 <= i < |allReviews| && allReviews[i] == r;
    }
    SumOfBounds(allReviews, RatingOf, 1.0, 5.0);
    var mean := SumOf(allReviews, RatingOf) / n;
    MeanWithin(SumOf(allReviews, RatingOf), n, 1.0, 5.0);
    ToFixed1Monotone(1.0, mean);
    ToFixed1Monotone(mean, 5.0);
    assert ToFixed1(1.0) == 1.0 by { assert RoundHalfAwayFromZero(10.0) == 10; }
    assert ToFixed1(5.0) == 5.0 by { assert RoundHalfAwayFromZero(50.0) == 50; }
  }

  /** One of the five display stars. */
  datatype StarKind = Filled | Half | Empty

  /** JavaScript's `r % 1`: the fractional part, with the sign of `r`. */
  function Frac(r: real): real {
    if r >= 0.0 then r - r.Floor as real else r + (-r).Floor as real
  }

  /** The class of star `i` for a displayed rating `r`: full below `floor(r)`, half at
      `floor(r)` when the fraction is at least one half, empty otherwise. */
  function StarClass(i: int, r: real): StarKind {
    var fullStars := r.Floor;
    if i < fullStars then Filled
    else if i == fullStars && Frac(r) >= 0.5 then Half
    else Empty
  }

  /** The stars read filled, then at most one half, then empty: a half star sits exactly at
      `floor(r)`, and a filled star is never to the right of a half or empty one. */
  lemma StarClassShape(r: real)
    ensures forall i, j :: StarClass(i, r) == Half && StarClass(j, r) == Half ==> i == j
    ensures forall i, j :: i < j && StarClass(j, r) == Filled ==> StarClass(i, r) == Filled
    ensures forall i :: StarClass(i, r) == Half ==> i == r.Floor && Frac(r) >= 0.5
  {
  }

  /** 3.5 shows three full stars, a half star and an empty one; 3.4 shows no half star. */
  lemma StarClassExamples()
    ensures StarClass(2, 3.5) == Filled && StarClass(3, 3.5) == Half && StarClass(4, 3.5) == Empty
    ensures StarClass(3, 3.4) == Empty
  {
  }

  /** Star `index` of the rating input is lit when it lies below the chosen rating. */
  predicate StarInputFilled(index: int, rating: int) {
    index < rating
  }

  /** The unit price shown, rounded to cents. */
  function DisplayedPrice(product: Product): real {
    ToFixed2(DiscountedPrice(product.price, product.discountPercentage))
  }

  /** `savings`: the price minus the rounded discounted price, rounded to cents. */
  function DisplayedSavings(product: Product): real {
    ToFixed2(product.price - DisplayedPrice(product))
  }

  /** The original price and the savings badge appear for a discount of at least 1% that
      saves something once rounded. */
  predicate ShowsSavings(product: Product) {
    product.discountPercentage >= 1.0 && DisplayedSavings(product) > 0.0
  }

  /** A discount of at least 1% that takes at least a cent off is always shown. */
  lemma SavingsShownForRealDiscount(product: Product)
    requires product.discountPercentage >= 1.0
    requires product.price - DiscountedPrice(product.price, product.discountPercentage) >= 0.01
    ensures ShowsSavings(product)
  {
    var exact := DiscountedPrice(product.price, product.discountPercentage);
    var shown := DisplayedPrice(product);
    assert product.price - shown >= 0.005;
    ToFixed2Monotone(0.005, product.price - shown);
    assert ToFixed2(0.005) == 0.01 by { assert RoundHalfAwayFromZero(0.5) == 1; }
  }

  /** The screen's state for one loaded product. */
  class ProductDetail {
    const product: Product
    const userReviews: seq<Review>
    var quantity: int
    var reviewForm: ReviewForm
    var showReviewForm: bool

    constructor (product: Product, userReviews: seq<Review>)
      ensures this.product == product && this.userReviews == userReviews
      ensures quantity == 1 && reviewForm == EmptyReviewForm && !showReviewForm
    {
      this.product := product;
      this.userReviews := userReviews;
      quantity := 1;
      reviewForm := EmptyReviewForm;
      showReviewForm := false;
    }

    /** `handleQuantityChange`: take the parsed value when it is positive and within the
        limit; otherwise keep the current quantity. */
    method HandleQuantityChange(value: Option<int>)
      modifies this`quantity
      ensures AcceptsQuantity(value, product.stock) ==> quantity == value.value
      ensures !AcceptsQuantity(value, product.stock) ==> quantity == old(quantity)
    {
      if value.Some? && value.value > 0 && value.value <= QuantityLimit(product.stock) {
        quantity := value.value;
      }
    }

    /** `handleSubmitReview`: when the form can be submitted, hand over the normalised
        review, reset the form and close it; otherwise change nothing. */
    method HandleSubmitReview(date: string) returns (submitted: Option<Review>)
      modifies this`reviewForm, this`showReviewForm
      ensures CanSubmit(old(reviewForm)) ==>
        submitted == Some(NewReview(old(reviewForm), date))
        && reviewForm == EmptyReviewForm && !showReviewForm
      ensures !CanSubmit(old(reviewForm)) ==>
        submitted == None && reviewForm == old(reviewForm) && showReviewForm == old(showReviewForm)
    {
      if reviewForm.rating != 0 && !IsBlank(reviewForm.comment) {
        var name := Trim(reviewForm.reviewerName);
        var newReview := Review(reviewForm.rating, Trim(reviewForm.comment),
                                if name == "" then "Anonymous" else name, date);
        submitted := Some(newReview);
        reviewForm := EmptyReviewForm;
        showReviewForm := false;
      } else {
        submitted := None;
      }
    }

    /** `handleReviewFormChange` for the comment and name inputs: set that field only. */
    method HandleReviewFormChange(name: ReviewField, value: string)
      modifies this`reviewForm
      ensures name == Comment ==> reviewForm == old(reviewForm).(comment := value)
      ensures name == ReviewerName ==> reviewForm == old(reviewForm).(reviewerName := value)
    {
      match name
      case Comment => reviewForm := reviewForm.(comment := value);
      case ReviewerName => reviewForm := reviewForm.(reviewerName := value);
    }

    /** `handleStarClick`: clicking star `starIndex` (from 0) sets the rating to
        `starIndex + 1`, so that star and every star before it are lit, and none after. */
    method HandleStarClick(starIndex: int)
      modifies this`reviewForm
      ensures reviewForm == old(reviewForm).(rating := starIndex + 1)
      ensures forall j :: StarInputFilled(j, reviewForm.rating) <==> j <= starIndex
    {
      reviewForm := reviewForm.(rating := starIndex + 1);
    }

    /** Toggle of the "Write a Review" button. */
    method ToggleReviewForm()
      modifies this`showReviewForm
      ensures showReviewForm == !old(showReviewForm)
    {
      showReviewForm := !showReviewForm;
    }

    /** The review count next to the stars: both lists together. */
    function ReviewCount(): (n: nat)
      reads this
      ensures n == |product.reviews| + |userReviews|
    {
      |AllReviews(product, userReviews)|
    }
  }
}
