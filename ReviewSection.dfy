/**
 * components/property/ReviewSection.tsx: the review fetch and its state,
 * which view is shown, the filled stars of a rating and a reviewer's
 * initials.
 */
module ReviewSection {
  import opened Wrappers
  import opened Text
  import opened PropertyTypes

  const LoadErrorMessage := "Failed to load reviews. Please try again later."
  const LogLabel := "Error fetching reviews:"
  const NoReviewsText := "No reviews yet. Be the first to review this property!"
  const SkeletonRows := 3
  const StarCount := 5

  /** The component's state. */
  class ReviewSectionState {
    var reviews: seq<Review>
    var loading: bool
    var error: Option<string>
    /** The labels written with `console.error`, oldest first. */
    var log: seq<string>

    /** Lines 12-14: no reviews, loading, no error. */
    constructor ()
      ensures reviews == [] && loading && error == None && log == []
    {
      reviews := [];
      loading := true;
      error := None;
      log := [];
    }

    /** The mount effect: the path it requests, only when the property id is truthy. */
    method Mount(propertyId: string) returns (request: Option<string>)
      ensures request.Some? <==> propertyId != ""
      ensures request.Some? ==> request.value == "/properties/" + propertyId + "/reviews"
    {
      if propertyId != "" {
        request := Some("/properties/" + propertyId + "/reviews");
      } else {
        request := None;
      }
    }

    /** The response arrived: its reviews replace the list and the error is cleared; `finally` stops loading. */
    method FetchSucceeded(data: seq<Review>)
      modifies this`reviews, this`error, this`loading
      ensures reviews == data && error == None && !loading
    {
      reviews := data;
      error := None;
      loading := false;
    }

    /** The request failed: logged, fixed message, reviews kept; `finally` stops loading. */
    method FetchFailed()
      modifies this`error, this`loading, this`log
      ensures error == Some(LoadErrorMessage) && !loading
      ensures log == old(log) + [LogLabel]
      ensures reviews == old(reviews)
    {
      log := log + [LogLabel];
      error := Some(LoadErrorMessage);
      loading := false;
    }
  }

  /** Without a property id nothing is fetched, so the section never leaves its loading view. */
  method MountWithoutId() returns (view: ReviewView)
    ensures view == Skeleton(SkeletonRows)
  {
    var section := new ReviewSectionState();
    var request := section.Mount("");
    assert request.None?;
    view := Render(section.loading, section.error, section.reviews);
  }

  /** One rendered review: its stars, text and author. */
  datatype ReviewItem = ReviewItem(stars: seq<bool>, comment: string, initials: string, userName: string)

  datatype ReviewView =
    | Skeleton(rows: nat)
    | ErrorBox(message: string)
    | NoReviews(text: string)
    | ReviewList(heading: string, items: seq<ReviewItem>)

  /** `Reviews (n)`. */
  function Heading(count: nat): (h: string)
    ensures |h| > 10 && h[..9] == "Reviews (" && h[|h| - 1] == ')'
    ensures ParseNumber(h[9..|h| - 1]) == Some(count as int)
  {
    ParseNumberOfDecimal(count);
    var h := "Reviews (" + NatToDecimal(count) + ")";
    assert h[9..|h| - 1] == NatToDecimal(count);
    h
  }

  function Item(r: Review): ReviewItem {
    ReviewItem(Stars(r.rating), r.comment, Initials(r.userName), r.userName)
  }

  /** The view: loading first, then a truthy error, then the empty message, then the list. */
  function Render(loading: bool, error: Option<string>, reviews: seq<Review>): (v: ReviewView)
    ensures loading ==> v == Skeleton(SkeletonRows)
    ensures !loading && Truthy(error) ==> v == ErrorBox(error.value)
    ensures !loading && !Truthy(error) && reviews == [] ==> v == NoReviews(NoReviewsText)
    ensures v.ReviewList? <==> !loading && !Truthy(error) && reviews != []
    ensures v.ReviewList? ==> v.heading == Heading(|reviews|) && |v.items| == |reviews|
    ensures v.ReviewList? ==> forall i :: 0 <= i < |reviews| ==> v.items[i] == Item(reviews[i])
  {
    if loading then Skeleton(SkeletonRows)
    else if Truthy(error) then ErrorBox(error.value)
    else if |reviews| == 0 then NoReviews(NoReviewsText)
    else ReviewList(Heading(|reviews|), Items(reviews))
  }

  /** `reviews.map(...)`: one item per review, in order. */
  function Items(reviews: seq<Review>): (items: seq<ReviewItem>)
    ensures |items| == |reviews|
    ensures forall i :: 0 <= i < |reviews| ==> items[i] == Item(reviews[i])
  {
    seq(|reviews|, i requires 0 <= i < |reviews| => Item(reviews[i]))
  }

  /** After a successful fetch of a non-empty list, every review is shown in order. */
  lemma SuccessShowsEveryReview(data: seq<Review>)
    requires data != []
    ensures Render(false, None, data).ReviewList?
    ensures forall i :: 0 <= i < |data| ==> Render(false, None, data).items[i].comment == data[i].comment
  {
  }

  /** A failed fetch shows the error, whatever reviews were held before. */
  lemma FailureShowsError(held: seq<Review>)
    ensures Render(false, Some(LoadErrorMessage), held) == ErrorBox(LoadErrorMessage)
  {
  }

  /** Star `i` of five is filled when `i < floor(rating)`. */
  function Stars(rating: real): (s: seq<bool>)
    ensures |s| == StarCount
    ensures forall i :: 0 <= i < StarCount ==> (s[i] <==> i < rating.Floor)
  {
    seq(StarCount, i requires 0 <= i < StarCount => i < rating.Floor)
  }

  function CountTrue(s: seq<bool>): nat {
    if s == [] then 0 else CountTrue(s[..|s| - 1]) + (if s[|s| - 1] then 1 else 0)
  }

  /** Of the first `n` positions, those below `f` number `f` clamped to `0..n`. */
  lemma {:induction false} CountBelow(n: nat, f: int)
    ensures CountTrue(seq(n, i requires 0 <= i < n => i < f)) == if f < 0 then 0 else if f > n then n else f
  {
    if n > 0 {
      var s := seq(n, i requires 0 <= i < n => i < f);
      assert s[..n - 1] == seq(n - 1, i requires 0 <= i < n - 1 => i < f);
      CountBelow(n - 1, f);
    }
  }

  /** The filled stars are the leading ones, and there are `floor(rating)` of them, clamped to `0..5`. */
  lemma FilledStars(rating: real)
    ensures CountTrue(Stars(rating)) == if rating.Floor < 0 then 0 else if rating.Floor > 5 then 5 else rating.Floor
    ensures forall i, j :: 0 <= i < j < StarCount && Stars(rating)[j] ==> Stars(rating)[i]
  {
    CountBelow(StarCount, rating.Floor);
    assert Stars(rating) == seq(StarCount, i requires 0 <= i < StarCount => i < rating.Floor);
  }

  /** `map(n => n[0]).join('')`: an empty piece's `undefined` joins as nothing. */
  function FirstChars(parts: seq<string>): string {
    if parts == [] then ""
    else (if parts[0] == "" then "" else [parts[0][0]]) + FirstChars(parts[1..])
  }

  function Initials(userName: string): string {
    FirstChars(Split(userName, ' '))
  }

  /** The characters that begin a word: not a space, and first or after a space. */
  function WordStarts(s: string, afterSpace: bool): string {
    if s == [] then ""
    else (if afterSpace && s[0] != ' ' then [s[0]] else []) + WordStarts(s[1..], s[0] == ' ')
  }

  lemma {:induction false} WordStartsOverWord(w: string, rest: string, afterSpace: bool)
    requires ' ' !in w
    ensures WordStarts(w + [' '] + rest, afterSpace)
         == (if afterSpace && w != [] then [w[0]] else []) + WordStarts(rest, true)
  {
    if w == [] {
      assert w + [' '] + rest == [' '] + rest;
      assert ([' '] + rest)[1..] == rest;
    } else {
      assert (w + [' '] + rest)[1..] == w[1..] + [' '] + rest;
      assert ' ' !in w[1..] by {
        assert forall k :: 0 <= k < |w| - 1 ==> w[1..][k] == w[k + 1];
      }
      WordStartsOverWord(w[1..], rest, false);
    }
  }

  lemma {:induction false} WordStartsOfLastWord(w: string, afterSpace: bool)
    requires ' ' !in w
    ensures WordStarts(w, afterSpace) == if afterSpace && w != [] then [w[0]] else []
  {
    if w != [] {
      assert ' ' !in w[1..] by {
        assert forall k :: 0 <= k < |w| - 1 ==> w[1..][k] == w[k + 1];
      }
      WordStartsOfLastWord(w[1..], false);
    }
  }

  /** The initials are exactly the characters that begin a word, in order; runs of spaces add nothing. */
  lemma {:induction false} InitialsAreWordStarts(userName: string)
    ensures Initials(userName) == WordStarts(userName, true)
    decreases |userName|
  {
    match IndexOf(userName, ' ')
    case None =>
      WordStartsOfLastWord(userName, true);
      assert Split(userName, ' ') == [userName];
      assert FirstChars([userName]) == (if userName == "" then "" else [userName[0]]) + FirstChars([]);
    case Some(i) =>
      var w := userName[..i];
      var rest := userName[i + 1..];
      assert userName == w + [' '] + rest;
      WordStartsOverWord(w, rest, true);
      InitialsAreWordStarts(rest);
      assert Split(userName, ' ') == [w] + Split(rest, ' ');
      assert FirstChars([w] + Split(rest, ' ')) == (if w == "" then "" else [w[0]]) + FirstChars(Split(rest, ' '));
  }
}
