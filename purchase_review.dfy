/*
 * Purchase verification and review moderation in the purchase-review
 * contract. A purchase is verified once per (product, user); a verified
 * purchase may be reviewed once; a review may be edited by its author for
 * 24 hours after it was written, and reported once by each user.
 */
module PurchaseReview {
  import opened Common

  /** Reviews and their reports are stored under (product id, review id). */
  type ReviewKey = (nat, nat)

  /** Purchases are stored under (product id, user). */
  type PurchaseKey = (nat, Address)

  datatype ReviewDetails = ReviewDetails(reviewText: string, reviewer: Address, timestamp: nat,
                                         helpfulVotes: nat, notHelpfulVotes: nat, verifiedPurchase: bool,
                                         responses: seq<string>)

  datatype PurchaseVerificationData = PurchaseVerificationData(user: Address, productId: nat, purchaseLink: string,
                                                               isVerified: bool, timestamp: nat, hasReview: bool)

  datatype ReviewReportData = ReviewReportData(reporter: Address, productId: nat, reviewId: nat,
                                               reason: string, timestamp: nat)

  /** The errors these operations return, and `TimestampUnderflow` for the
      panic of a u64 subtraction that would go below zero. */
  datatype PurchaseReviewError =
    | ReviewNotFound
    | UnauthorizedAccess
    | AlreadyVerified
    | PurchaseNotFound
    | EditWindowExpired
    | AlreadyReviewed
    | InvalidReportReason
    | AlreadyReported
    | TimestampUnderflow

  /** A review may be edited for 24 hours after it was written. */
  const REVIEW_EDIT_WINDOW: nat := 24 * 60 * 60

  const MAX_REPORT_REASON: nat := 500

  function Lookup<K, V>(m: map<K, V>, k: K): Option<V>
  {
    if k in m then Some(m[k]) else None
  }

  /** `is_review_editable`: whether at most 24 hours have passed since the
      review was written. A timestamp later than now would make the elapsed
      time negative, a u64 underflow. */
  function Editable(review: Option<ReviewDetails>, now: nat): (r: Result<bool, PurchaseReviewError>)
    ensures review.None? ==> r == Err(ReviewNotFound)
    ensures review.Some? && review.value.timestamp <= now ==>
      r.Ok? && (r.value <==> now <= review.value.timestamp + REVIEW_EDIT_WINDOW)
    ensures r.Err? <==> review.None? || review.value.timestamp > now
  {
    if review.None? then Err(ReviewNotFound)
    else if review.value.timestamp > now then Err(TimestampUnderflow)
    else Ok(now - review.value.timestamp <= REVIEW_EDIT_WINDOW)
  }

  /** Once the window has closed it stays closed. */
  lemma EditWindowStaysClosed(review: ReviewDetails, now: nat, later: nat)
    requires now <= later && Editable(Some(review), now) == Ok(false)
    ensures Editable(Some(review), later) == Ok(false)
  {
  }

  /** The checks of `pre_review_purchase`: a stored purchase of the user
      that has not been reviewed yet. */
  function PreReviewCheck(purchase: Option<PurchaseVerificationData>, user: Address): (e: Option<PurchaseReviewError>)
    ensures e.None? <==> purchase.Some? && purchase.value.user == user && !purchase.value.hasReview
    ensures purchase.None? ==> e == Some(PurchaseNotFound)
    ensures purchase.Some? && purchase.value.user == user && purchase.value.hasReview ==> e == Some(AlreadyReviewed)
  {
    if purchase.None? then Some(PurchaseNotFound)
    else if purchase.value.user != user then Some(UnauthorizedAccess)
    else if purchase.value.hasReview then Some(AlreadyReviewed)
    else None
  }

  /** So a reason of 300 accented characters, 600 bytes, is refused
      although it has fewer than 500 characters. */
  lemma LongAccentedReasonRefused(alreadyReported: bool, reviewExists: bool)
    ensures var reason := seq(300, _ => '\U{e9}');
      |reason| <= MAX_REPORT_REASON &&
      ReportCheck(reason, alreadyReported, reviewExists) == Some(InvalidReportReason)
  {
    ByteLengthOfTwoByteText(300);
  }

  /** The checks of `report_review`, in order: a reason of 1 to 500 bytes,
      no earlier report by the same user, and a stored review. */
  function ReportCheck(reason: string, alreadyReported: bool, reviewExists: bool): (e: Option<PurchaseReviewError>)
    ensures e.None? <==> 0 < ByteLength(reason) <= MAX_REPORT_REASON && !alreadyReported && reviewExists
    ensures !(0 < ByteLength(reason) <= MAX_REPORT_REASON) ==> e == Some(InvalidReportReason)
    ensures 0 < ByteLength(reason) <= MAX_REPORT_REASON && alreadyReported ==> e == Some(AlreadyReported)
  {
    if ByteLength(reason) == 0 || ByteLength(reason) > MAX_REPORT_REASON then Some(InvalidReportReason)
    else if alreadyReported then Some(AlreadyReported)
    else if !reviewExists then Some(ReviewNotFound)
    else None
  }

  /** The checks of `edit_review`, in order: the review exists and is
      still editable, and the editor is its author. After the window even
      the author is refused, and anyone else is refused with the window's
      error rather than as unauthorised. */
  function EditCheck(review: Option<ReviewDetails>, user: Address, now: nat): (e: Option<PurchaseReviewError>)
    ensures e.None? <==>
      review.Some? && review.value.timestamp <= now && now <= review.value.timestamp + REVIEW_EDIT_WINDOW &&
      review.value.reviewer == user
    ensures review.Some? && review.value.timestamp <= now && now > review.value.timestamp + REVIEW_EDIT_WINDOW ==>
      e == Some(EditWindowExpired)
  {
    var editable := Editable(review, now);
    if editable.Err? then Some(editable.error)
    else if !editable.value then Some(EditWindowExpired)
    else if review.value.reviewer != user then Some(UnauthorizedAccess)
    else None
  }

  /** The stored review after an edit: everything from the new details but
      the original author and timestamp, so the author also sets the vote
      counts, the responses and the verified-purchase flag. */
  function Edited(existing: ReviewDetails, newDetails: ReviewDetails): (r: ReviewDetails)
    ensures r.reviewer == existing.reviewer && r.timestamp == existing.timestamp
    ensures r.reviewText == newDetails.reviewText && r.responses == newDetails.responses
    ensures r.helpfulVotes == newDetails.helpfulVotes && r.notHelpfulVotes == newDetails.notHelpfulVotes
    ensures r.verifiedPurchase == newDetails.verifiedPurchase
  {
    newDetails.(timestamp := existing.timestamp, reviewer := existing.reviewer)
  }

  /** An edit neither extends nor shortens the window, and does not pass
      the review to someone else: the same edits are allowed afterwards. */
  lemma EditKeepsWindowAndAuthor(existing: ReviewDetails, newDetails: ReviewDetails, user: Address, now: nat)
    ensures Editable(Some(Edited(existing, newDetails)), now) == Editable(Some(existing), now)
    ensures EditCheck(Some(Edited(existing, newDetails)), user, now) == EditCheck(Some(existing), user, now)
  {
  }

  class ReviewContract {
    var now: nat
    var purchases: map<PurchaseKey, PurchaseVerificationData>
    var reviews: map<ReviewKey, ReviewDetails>
    var reports: map<ReviewKey, ReviewReportData>
    var userReports: set<(nat, nat, Address)>

    /** Purchases are stored under their own product and user; nothing was
        recorded after the current ledger time; a stored report sits under
        its own review and its reporter is marked as having reported. */
    ghost predicate Valid()
      reads this`now, this`purchases, this`reviews, this`reports, this`userReports
    {
      && (forall k :: k in purchases ==>
            purchases[k].productId == k.0 && purchases[k].user == k.1 && purchases[k].timestamp <= now)
      && (forall k :: k in reviews ==> reviews[k].timestamp <= now)
      && (forall k :: k in reports ==>
            reports[k].productId == k.0 && reports[k].reviewId == k.1 &&
            (k.0, k.1, reports[k].reporter) in userReports)
    }

    /** Reviews are written by `submit_review`, outside this model; the
        contract starts from the reviews given, none of them dated after
        `time`. */
    constructor (time: nat, initialReviews: map<ReviewKey, ReviewDetails>)
      requires forall k :: k in initialReviews ==> initialReviews[k].timestamp <= time
      ensures now == time && reviews == initialReviews
      ensures purchases == map[] && reports == map[] && userReports == {}
      ensures Valid()
    {
      now := time;
      purchases := map[];
      reviews := initialReviews;
      reports := map[];
      userReports := {};
    }

    /** The ledger clock moves forward. */
    method Tick(time: nat)
      requires Valid() && now <= time
      modifies this`now
      ensures now == time && Valid()
    {
      now := time;
    }

    /** `is_review_editable`. In a valid state it never panics. */
    function IsReviewEditable(reviewId: nat, productId: nat): (r: Result<bool, PurchaseReviewError>)
      requires Valid()
      reads this`now, this`purchases, this`reviews, this`reports, this`userReports
      ensures r.Err? <==> (productId, reviewId) !in reviews
      ensures r.Ok? ==> (r.value <==> now <= reviews[(productId, reviewId)].timestamp + REVIEW_EDIT_WINDOW)
    {
      Editable(Lookup(reviews, (productId, reviewId)), now)
    }

    /** `purchase_link_verification`: a verified purchase record, not yet
        reviewed, is stored for the user and product unless one exists; the
        user can then review the purchase once. */
    method PurchaseLinkVerification(user: Address, productId: nat, purchaseLink: string)
      returns (r: Result<(), PurchaseReviewError>)
      requires Valid()
      modifies this`purchases
      ensures Valid()
      ensures (productId, user) in old(purchases) ==> r == Err(AlreadyVerified) && unchanged(this)
      ensures (productId, user) !in old(purchases) ==>
        r == Ok(()) &&
        purchases == old(purchases)[(productId, user) :=
                                     PurchaseVerificationData(user, productId, purchaseLink, true, now, false)]
      ensures r.Ok? ==> PreReviewCheck(Lookup(purchases, (productId, user)), user) == None
    {
      if (productId, user) in purchases {
        return Err(AlreadyVerified);
      }
      purchases := purchases[(productId, user) := PurchaseVerificationData(user, productId, purchaseLink, true, now, false)];
      return Ok(());
    }

    /** `pre_review_purchase`: the purchase is marked as reviewed, so a
        second review of it is refused. */
    method PreReviewPurchase(user: Address, productId: nat) returns (r: Result<bool, PurchaseReviewError>)
      requires Valid()
      modifies this`purchases
      ensures Valid()
      ensures r.Err? ==> unchanged(this) && Some(r.error) == PreReviewCheck(Lookup(purchases, (productId, user)), user)
      ensures r.Ok? <==> PreReviewCheck(Lookup(old(purchases), (productId, user)), user) == None
      ensures r.Ok? ==>
        r.value && purchases == old(purchases)[(productId, user) := old(purchases)[(productId, user)].(hasReview := true)]
      ensures r != Err(UnauthorizedAccess)
      ensures r.Ok? ==> PreReviewCheck(Lookup(purchases, (productId, user)), user) == Some(AlreadyReviewed)
    {
      var e := PreReviewCheck(Lookup(purchases, (productId, user)), user);
      if e.Some? {
        return Err(e.value);
      }
      var p := purchases[(productId, user)];
      purchases := purchases[(productId, user) := p.(hasReview := true)];
      return Ok(true);
    }

    /** `report_review`: the report is stored under the review, replacing
        any earlier report by someone else, and the reporter is marked so
        that a second report by them is refused. */
    method ReportReview(reporter: Address, productId: nat, reviewId: nat, reason: string)
      returns (r: Result<(), PurchaseReviewError>)
      requires Valid()
      modifies this`reports, this`userReports
      ensures Valid()
      ensures r.Err? ==> unchanged(this)
      ensures r.Err? ==>
        Some(r.error) == ReportCheck(reason, (productId, reviewId, reporter) in userReports, (productId, reviewId) in reviews)
      ensures r.Ok? <==>
        ReportCheck(reason, (productId, reviewId, reporter) in old(userReports), (productId, reviewId) in reviews) == None
      ensures r.Ok? ==>
        reports == old(reports)[(productId, reviewId) := ReviewReportData(reporter, productId, reviewId, reason, now)] &&
        userReports == old(userReports) + {(productId, reviewId, reporter)}
      ensures r.Ok? ==> forall again: string :: 0 < ByteLength(again) <= MAX_REPORT_REASON ==>
        ReportCheck(again, (productId, reviewId, reporter) in userReports, (productId, reviewId) in reviews) ==
        Some(AlreadyReported)
    {
      var e := ReportCheck(reason, (productId, reviewId, reporter) in userReports, (productId, reviewId) in reviews);
      if e.Some? {
        return Err(e.value);
      }
      reports := reports[(productId, reviewId) := ReviewReportData(reporter, productId, reviewId, reason, now)];
      userReports := userReports + {(productId, reviewId, reporter)};
      return Ok(());
    }

    /** `edit_review`: within the window the author's new details replace
        the review, keeping its author and timestamp. */
    method EditReview(user: Address, productId: nat, reviewId: nat, newDetails: ReviewDetails)
      returns (r: Result<(), PurchaseReviewError>)
      requires Valid()
      modifies this`reviews
      ensures Valid()
      ensures r.Err? ==> unchanged(this) && Some(r.error) == EditCheck(Lookup(reviews, (productId, reviewId)), user, now)
      ensures r.Ok? <==> EditCheck(Lookup(old(reviews), (productId, reviewId)), user, now) == None
      ensures r.Ok? ==>
        reviews == old(reviews)[(productId, reviewId) := Edited(old(reviews)[(productId, reviewId)], newDetails)]
      ensures r != Err(TimestampUnderflow)
    {
      var editable := IsReviewEditable(reviewId, productId);
      if editable.Err? {
        return Err(editable.error);
      }
      if !editable.value {
        return Err(EditWindowExpired);
      }
      var existing := reviews[(productId, reviewId)];
      if existing.reviewer != user {
        return Err(UnauthorizedAccess);
      }
      reviews := reviews[(productId, reviewId) := Edited(existing, newDetails)];
      return Ok(());
    }
  }
}
