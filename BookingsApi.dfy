/**
 * The booking endpoint of pages/api/bookings.ts: a decision ladder from the
 * request verb, the body and the payment outcome to a status and a reply.
 * The payment processor and the clock are inputs.
 */
module BookingsApi {
  import opened Wrappers
  import opened Text
  import BookingPage

  /** The JSON body; a field is `None` when it is absent or null. */
  datatype BookingData = BookingData(
    firstName: Option<string>,
    lastName: Option<string>,
    email: Option<string>,
    phoneNumber: Option<string>,
    cardNumber: Option<string>,
    expirationDate: Option<string>,
    cvv: Option<string>,
    billingAddress: Option<string>)

  /** What `processPayment` did: resolved true, resolved false, or threw. */
  datatype PaymentOutcome = Paid | Declined | Threw

  datatype Reply = Reply(status: nat, success: bool, message: string, bookingId: Option<string>)

  /** The reply, and the booking handed to the payment processor, if it was called. */
  datatype Handled = Handled(reply: Reply, charged: Option<BookingData>)

  const MethodMessage := "Method not allowed"
  const RequiredMessage := "All fields are required"
  const PaymentMessage := "Payment failed. Please check your payment details."
  const ConfirmedMessage := "Booking confirmed successfully!"
  const ErrorMessage := "An error occurred while processing your booking. Please try again."
  const BookingIdPrefix := "BKG-"

  /** Every field of the body is truthy. */
  predicate AllTruthy(b: BookingData) {
    Truthy(b.firstName) && Truthy(b.lastName) && Truthy(b.email) && Truthy(b.phoneNumber)
    && Truthy(b.cardNumber) && Truthy(b.expirationDate) && Truthy(b.cvv) && Truthy(b.billingAddress)
  }

  /** `BKG-` followed by the decimal clock reading. */
  function BookingId(now: nat): (id: string)
    ensures |id| > |BookingIdPrefix| && id[..|BookingIdPrefix|] == BookingIdPrefix
    ensures ParseNumber(id[|BookingIdPrefix|..]) == Some(now as int)
  {
    ParseNumberOfDecimal(now);
    var id := BookingIdPrefix + NatToDecimal(now);
    assert id[|BookingIdPrefix|..] == NatToDecimal(now);
    id
  }

  function Fail(status: nat, message: string): Reply {
    Reply(status, false, message, None)
  }

  /**
   * `handler`. The body is `None` when it is `null` or `undefined` (a JSON
   * `null` body, or a request that bypasses the body parser): the field reads
   * then throw, and the `catch` turns that into a 500. An empty body, which
   * the parser delivers as `{}` or `""`, reads every field as `undefined`: it
   * is `Some` with every field `None`, and gets the 400.
   */
  function Handler(verb: string, body: Option<BookingData>, payment: PaymentOutcome, now: nat): (r: Handled)
    ensures verb != "POST" ==> r == Handled(Fail(405, MethodMessage), None)
    ensures verb == "POST" && body.None? ==> r == Handled(Fail(500, ErrorMessage), None)
    ensures verb == "POST" && body.Some? && !AllTruthy(body.value) ==>
      r == Handled(Fail(400, RequiredMessage), None)
    ensures r.charged.Some? <==> verb == "POST" && body.Some? && AllTruthy(body.value)
    ensures r.charged.Some? ==> r.charged == body
    ensures r.reply.success <==> r.charged.Some? && payment == Paid
    ensures r.reply.success ==>
      r.reply.status == 200 && r.reply.message == ConfirmedMessage && r.reply.bookingId == Some(BookingId(now))
    ensures r.charged.Some? && payment == Declined ==> r.reply == Fail(402, PaymentMessage)
    ensures r.charged.Some? && payment == Threw ==> r.reply == Fail(500, ErrorMessage)
  {
    if verb != "POST" then Handled(Fail(405, MethodMessage), None)
    else
      match body
      case None => Handled(Fail(500, ErrorMessage), None)
      case Some(b) =>
        if !AllTruthy(b) then Handled(Fail(400, RequiredMessage), None)
        else
          match payment
          case Threw => Handled(Fail(500, ErrorMessage), Some(b))
          case Declined => Handled(Fail(402, PaymentMessage), Some(b))
          case Paid => Handled(Reply(200, true, ConfirmedMessage, Some(BookingId(now))), Some(b))
  }

  /** An empty body, whose every field reads as `undefined`, is refused with a 400 and never charged. */
  lemma EmptyBodyIsBadRequest(payment: PaymentOutcome, now: nat)
    ensures var r := Handler("POST", Some(BookingData(None, None, None, None, None, None, None, None)), payment, now);
            r.reply == Fail(400, RequiredMessage) && r.charged.None?
  {
  }

  /** The statuses the handler can answer with. */
  lemma StatusesAreFixed(verb: string, body: Option<BookingData>, payment: PaymentOutcome, now: nat)
    ensures Handler(verb, body, payment, now).reply.status in {200, 400, 402, 405, 500}
    ensures Handler(verb, body, payment, now).reply.status == 200 <==>
      Handler(verb, body, payment, now).reply.success
  {
  }

  /** The body the booking page posts: every field of its form. */
  function Posted(f: BookingPage.BookingForm): BookingData {
    BookingData(Some(f.firstName), Some(f.lastName), Some(f.email), Some(f.phoneNumber),
                Some(f.cardNumber), Some(f.expirationDate), Some(f.cvv), Some(f.billingAddress))
  }

  /** The server checks presence only: a form that passed the page's checks always reaches payment. */
  lemma ValidFormReachesPayment(f: BookingPage.BookingForm, payment: PaymentOutcome, now: nat)
    requires BookingPage.FirstError(f) == None
    ensures Handler("POST", Some(Posted(f)), payment, now).charged == Some(Posted(f))
    ensures Handler("POST", Some(Posted(f)), payment, now).reply.status != 400
  {
    assert BookingPage.AllPresent(f);
    assert forall k :: f.Get(k) != "";
  }

  /** Presence is all that is asked: malformed but non-empty values are charged all the same. */
  lemma MalformedValuesReachPayment(payment: PaymentOutcome, now: nat)
    ensures var f := BookingPage.BookingForm("a", "b", "not an email", "x", "1", "?", "1", "c");
            BookingPage.FirstError(f) == Some(BookingPage.EmailMessage)
            && Handler("POST", Some(Posted(f)), payment, now).charged.Some?
  {
    var f := BookingPage.BookingForm("a", "b", "not an email", "x", "1", "?", "1", "c");
    assert f.email[3] == ' ';
  }
}
