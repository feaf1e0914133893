/**
 * models/Review.ts: the constraints the review schema puts on each field,
 * as one validator, and the unique `(propertyId, userId)` index, as a table
 * whose insert refuses a second review of the same property by the same user.
 */
module ReviewModel {
  import opened Wrappers
  import opened Text

  /** A document offered for saving; `None` is a missing or null field. */
  datatype ReviewInput = ReviewInput(
    propertyId: Option<string>,
    userId: Option<string>,
    userName: Option<string>,
    userImage: Option<string>,
    rating: Option<real>,
    comment: Option<string>)

  /** A saved document: the comment is stored trimmed. */
  datatype StoredReview = StoredReview(
    propertyId: string,
    userId: string,
    userName: string,
    userImage: Option<string>,
    rating: real,
    comment: string)

  const PropertyIdRequired := "Property ID is required"
  const UserIdRequired := "User ID is required"
  const UserNameRequired := "User name is required"
  const RatingRequired := "Rating is required"
  const RatingTooLow := "Rating must be at least 1"
  const RatingTooHigh := "Rating cannot be more than 5"
  const CommentRequired := "Comment is required"
  const CommentTooShort := "Comment must be at least 10 characters long"
  const CommentTooLong := "Comment cannot be more than 1000 characters"

  const MinCommentLength := 10
  const MaxCommentLength := 1000

  /** A required string is missing when absent or empty. */
  function RequiredError(v: Option<string>, message: string): (e: Option<string>)
    ensures e.Some? <==> v.None? || v.value == ""
    ensures e.Some? ==> e.value == message
  {
    if v.None? || v.value == "" then Some(message) else None
  }

  /** Required first, then the lower bound, then the upper bound; both bounds are inclusive. */
  function RatingError(rating: Option<real>): (e: Option<string>)
    ensures e.None? <==> rating.Some? && 1.0 <= rating.value <= 5.0
    ensures e == Some(RatingRequired) <==> rating.None?
    ensures e == Some(RatingTooLow) <==> rating.Some? && rating.value < 1.0
    ensures e == Some(RatingTooHigh) <==> rating.Some? && rating.value > 5.0
  {
    match rating
    case None => Some(RatingRequired)
    case Some(x) =>
      if x < 1.0 then Some(RatingTooLow)
      else if x > 5.0 then Some(RatingTooHigh)
      else None
  }

  /** The comment is trimmed before it is checked: required, then at least 10, then at most 1000 characters. */
  function CommentError(comment: Option<string>): (e: Option<string>)
    ensures e.None? <==> comment.Some? && MinCommentLength <= |Trim(comment.value)| <= MaxCommentLength
    ensures e == Some(CommentRequired) <==> comment.None? || Trim(comment.value) == ""
    ensures e == Some(CommentTooShort) <==> comment.Some? && 0 < |Trim(comment.value)| < MinCommentLength
    ensures e == Some(CommentTooLong) <==> comment.Some? && |Trim(comment.value)| > MaxCommentLength
  {
    match comment
    case None => Some(CommentRequired)
    case Some(c) =>
      var t := Trim(c);
      if t == "" then Some(CommentRequired)
      else if |t| < MinCommentLength then Some(CommentTooShort)
      else if |t| > MaxCommentLength then Some(CommentTooLong)
      else None
  }

  function Messages(es: seq<Option<string>>): (ms: seq<string>)
    ensures |ms| <= |es|
    ensures forall m :: m in ms <==> Some(m) in es
    ensures ms == [] <==> forall e :: e in es ==> e.None?
  {
    if es == [] then []
    else (if es[0].Some? then [es[0].value] else []) + Messages(es[1..])
  }

  /** The validation errors, one per failing field. */
  function Errors(input: ReviewInput): (ms: seq<string>)
    ensures |ms| <= 5
  {
    Messages([
      RequiredError(input.propertyId, PropertyIdRequired),
      RequiredError(input.userId, UserIdRequired),
      RequiredError(input.userName, UserNameRequired),
      RatingError(input.rating),
      CommentError(input.comment)])
  }

  /** The schema's conditions on a review, stated field by field. */
  predicate IsValid(input: ReviewInput) {
    && input.propertyId.Some? && input.propertyId.value != ""
    && input.userId.Some? && input.userId.value != ""
    && input.userName.Some? && input.userName.value != ""
    && input.rating.Some? && 1.0 <= input.rating.value <= 5.0
    && input.comment.Some? && MinCommentLength <= |Trim(input.comment.value)| <= MaxCommentLength
  }

  /** A review passes exactly when it meets every condition; `userImage` plays no part. */
  lemma ErrorsIffInvalid(input: ReviewInput, image: Option<string>)
    ensures Errors(input) == [] <==> IsValid(input)
    ensures Errors(input.(userImage := image)) == Errors(input)
  {
    var es := [
      RequiredError(input.propertyId, PropertyIdRequired),
      RequiredError(input.userId, UserIdRequired),
      RequiredError(input.userName, UserNameRequired),
      RatingError(input.rating),
      CommentError(input.comment)];
    if Errors(input) == [] {
      assert forall i :: 0 <= i < 5 ==> es[i] in es;
    }
  }

  /** A message is reported exactly when one field's check produces it. */
  lemma InErrors(input: ReviewInput, m: string)
    ensures m in Errors(input) <==>
      || RequiredError(input.propertyId, PropertyIdRequired) == Some(m)
      || RequiredError(input.userId, UserIdRequired) == Some(m)
      || RequiredError(input.userName, UserNameRequired) == Some(m)
      || RatingError(input.rating) == Some(m)
      || CommentError(input.comment) == Some(m)
  {
  }

  /** Each failing field contributes its own message. */
  lemma EachFieldReports(input: ReviewInput)
    ensures RatingTooLow in Errors(input) <==> input.rating.Some? && input.rating.value < 1.0
    ensures RatingTooHigh in Errors(input) <==> input.rating.Some? && input.rating.value > 5.0
    ensures CommentTooShort in Errors(input) <==>
      input.comment.Some? && 0 < |Trim(input.comment.value)| < MinCommentLength
    ensures PropertyIdRequired in Errors(input) <==> input.propertyId.None? || input.propertyId.value == ""
  {
    InErrors(input, RatingTooLow);
    InErrors(input, RatingTooHigh);
    InErrors(input, CommentTooShort);
    InErrors(input, PropertyIdRequired);
    assert |PropertyIdRequired| == 23 && |UserIdRequired| == 19 && |UserNameRequired| == 21;
    assert |RatingRequired| == 18 && |RatingTooLow| == 25 && |RatingTooHigh| == 28;
    assert |CommentRequired| == 19 && |CommentTooShort| == 43 && |CommentTooLong| == 43;
  }

  /** Padding does not count toward the comment's length. */
  lemma PaddedShortCommentRejected()
    ensures CommentError(Some("   short   ")) == Some(CommentTooShort)
    ensures CommentError(Some("     ")) == Some(CommentRequired)
  {
    assert "   short   " == "   " + "short" + "   ";
    TrimPadded("   ", "short", "   ");
    TrimWhitespaceOnly("     ");
  }

  /** The document that is saved from a valid input. */
  function Saved(input: ReviewInput): (r: StoredReview)
    requires IsValid(input)
    ensures r.comment == Trim(input.comment.value)
    ensures MinCommentLength <= |r.comment| <= MaxCommentLength && 1.0 <= r.rating <= 5.0
  {
    StoredReview(input.propertyId.value, input.userId.value, input.userName.value,
                 input.userImage, input.rating.value, Trim(input.comment.value))
  }

  /** No two rows share a `(propertyId, userId)` pair. */
  predicate UniquePairs(rows: seq<StoredReview>) {
    forall i, j :: 0 <= i < j < |rows| ==>
      (rows[i].propertyId, rows[i].userId) != (rows[j].propertyId, rows[j].userId)
  }

  predicate HasPair(rows: seq<StoredReview>, propertyId: string, userId: string) {
    exists i :: 0 <= i < |rows| && rows[i].propertyId == propertyId && rows[i].userId == userId
  }

  datatype InsertError = Invalid(messages: seq<string>) | DuplicateReview

  /** The review collection with its unique index. */
  class ReviewTable {
    var rows: seq<StoredReview>

    predicate Valid()
      reads this
    {
      UniquePairs(rows)
    }

    constructor ()
      ensures rows == [] && Valid()
    {
      rows := [];
    }

    /**
     * Saving a review: validation runs first; a valid document whose pair is
     * already present is refused by the index and the table is left as it was.
     */
    method Insert(input: ReviewInput) returns (r: Result<StoredReview, InsertError>)
      requires Valid()
      modifies this
      ensures Valid()
      ensures !IsValid(input) ==> r == Failure(Invalid(Errors(input))) && rows == old(rows)
      ensures IsValid(input) && HasPair(old(rows), input.propertyId.value, input.userId.value) ==>
        r == Failure(DuplicateReview) && rows == old(rows)
      ensures IsValid(input) && !HasPair(old(rows), input.propertyId.value, input.userId.value) ==>
        r == Success(Saved(input)) && rows == old(rows) + [Saved(input)]
    {
      ErrorsIffInvalid(input, input.userImage);
      var errors := Errors(input);
      if errors != [] {
        return Failure(Invalid(errors));
      }
      var doc := Saved(input);
      if HasPair(rows, doc.propertyId, doc.userId) {
        return Failure(DuplicateReview);
      }
      rows := rows + [doc];
      r := Success(doc);
    }
  }

  /** A second review of the same property by the same user is always refused. */
  lemma SecondReviewRefused(rows: seq<StoredReview>, a: ReviewInput, b: ReviewInput)
    requires IsValid(a) && IsValid(b)
    requires b.propertyId == a.propertyId && b.userId == a.userId
    ensures HasPair(rows + [Saved(a)], b.propertyId.value, b.userId.value)
  {
    assert (rows + [Saved(a)])[|rows|] == Saved(a);
  }
}
