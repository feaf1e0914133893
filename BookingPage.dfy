/**
 * The booking form of pages/booking/index.tsx: eight text fields, the
 * ordered client-side checks of `validateForm`, and the submit gate that
 * runs them before any request is made.
 */
module BookingPage {
  import opened Wrappers
  import opened Text

  datatype BookingField =
    FirstName | LastName | Email | PhoneNumber | CardNumber | ExpirationDate | Cvv | BillingAddress

  /** `BookingFormData`: every field is the raw text of its input. */
  datatype BookingForm = BookingForm(
    firstName: string,
    lastName: string,
    email: string,
    phoneNumber: string,
    cardNumber: string,
    expirationDate: string,
    cvv: string,
    billingAddress: string)
  {
    function Get(k: BookingField): string {
      match k
      case FirstName => firstName
      case LastName => lastName
      case Email => email
      case PhoneNumber => phoneNumber
      case CardNumber => cardNumber
      case ExpirationDate => expirationDate
      case Cvv => cvv
      case BillingAddress => billingAddress
    }

    /** `handleChange`: `{ ...prev, [name]: value }`. */
    function With(k: BookingField, v: string): (r: BookingForm)
      ensures r.Get(k) == v
      ensures forall other :: other != k ==> r.Get(other) == Get(other)
    {
      match k
      case FirstName => this.(firstName := v)
      case LastName => this.(lastName := v)
      case Email => this.(email := v)
      case PhoneNumber => this.(phoneNumber := v)
      case CardNumber => this.(cardNumber := v)
      case ExpirationDate => this.(expirationDate := v)
      case Cvv => this.(cvv := v)
      case BillingAddress => this.(billingAddress := v)
    }
  }

  const EmptyForm := BookingForm("", "", "", "", "", "", "", "")

  const RequiredMessage := "All fields are required"
  const EmailMessage := "Please enter a valid email address"
  const PhoneMessage := "Please enter a valid phone number"
  const CardMessage := "Please enter a valid card number"
  const CvvMessage := "Please enter a valid CVV"
  const SubmitFallbackMessage := "Failed to submit booking. Please try again."

  /** The required check: `!value` holds only for the empty string, so every field must be non-empty. */
  function AllPresent(f: BookingForm): (present: bool)
    ensures present <==> forall k :: f.Get(k) != ""
  {
    f.Get(FirstName) != "" && f.Get(LastName) != "" && f.Get(Email) != ""
    && f.Get(PhoneNumber) != "" && f.Get(CardNumber) != "" && f.Get(ExpirationDate) != ""
    && f.Get(Cvv) != "" && f.Get(BillingAddress) != ""
  }

  /** There is a `.` with at least one character before and after it. */
  predicate DotInside(d: string) {
    exists j :: 0 < j < |d| - 1 && d[j] == '.'
  }

  /** The email check written by hand: no whitespace, a single `@` with text before it, and a `.` strictly inside the text after it. */
  predicate IsValidEmail(s: string) {
    NoWhitespace(s) &&
    match IndexOf(s, '@')
    case None => false
    case Some(i) => 0 < i && '@' !in s[i + 1..] && DotInside(s[i + 1..])
  }

  /** One run of `[^\s@]+`. */
  predicate EmailPart(s: string) {
    |s| > 0 && forall k :: 0 <= k < |s| ==> !IsWhitespace(s[k]) && s[k] != '@'
  }

  /** `s` reads as part, `@`, part, `.`, part, with the `@` at `i` and the `.` at `j`. */
  ghost predicate SplitsAt(s: string, i: nat, j: nat) {
    i < j < |s| && s[i] == '@' && s[j] == '.'
    && EmailPart(s[..i]) && EmailPart(s[i + 1..j]) && EmailPart(s[j + 1..])
  }

  /** The regular expression `^[^\s@]+@[^\s@]+\.[^\s@]+$` of line 50. */
  ghost predicate MatchesEmailPattern(s: string) {
    exists i: nat, j: nat :: SplitsAt(s, i, j)
  }

  /** The hand-written check accepts exactly the strings the regular expression matches. */
  lemma EmailCheckMatchesPattern(s: string)
    ensures IsValidEmail(s) <==> MatchesEmailPattern(s)
  {
    if IsValidEmail(s) {
      var i := IndexOf(s, '@').value;
      var d := s[i + 1..];
      var j' :| 0 < j' < |d| - 1 && d[j'] == '.';
      var j := i + 1 + j';
      assert s[i + 1..j] == d[..j'];
      assert s[j + 1..] == d[j' + 1..];
      assert forall k :: 0 <= k < i ==> s[..i][k] == s[k] && s[k] in s[..i];
      assert forall k :: 0 <= k < |d| ==> d[k] in d;
      assert SplitsAt(s, i, j);
    }
    if MatchesEmailPattern(s) {
      var i: nat, j: nat :| SplitsAt(s, i, j);
      PatternHasNoWhitespace(s, i, j);
      PatternHasOneAt(s, i, j);
      assert s[i + 1..][j - i - 1] == '.';
    }
  }

  lemma PatternHasNoWhitespace(s: string, i: nat, j: nat)
    requires SplitsAt(s, i, j)
    ensures NoWhitespace(s)
  {
    forall k | 0 <= k < |s| ensures !IsWhitespace(s[k]) {
      if k < i {
        assert s[k] == s[..i][k];
      } else if i < k < j {
        assert s[k] == s[i + 1..j][k - i - 1];
      } else if j < k {
        assert s[k] == s[j + 1..][k - j - 1];
      }
    }
  }

  lemma PatternHasOneAt(s: string, i: nat, j: nat)
    requires SplitsAt(s, i, j)
    ensures IndexOf(s, '@') == Some(i)
    ensures '@' !in s[i + 1..]
  {
    forall k | 0 <= k < i ensures s[k] != '@' {
      assert s[k] == s[..i][k];
    }
    forall k | i < k < |s| ensures s[k] != '@' {
      if k < j {
        assert s[k] == s[i + 1..j][k - i - 1];
      } else if j < k {
        assert s[k] == s[j + 1..][k - j - 1];
      }
    }
  }

  predicate PhoneChar(c: char) {
    IsDigit(c) || c == '-' || c == '+'
  }

  /** `^[0-9\-\+]{9,15}$`: nine to fifteen characters, each a digit, `-` or `+`. */
  predicate IsValidPhone(s: string) {
    9 <= |s| <= 15 && forall k :: 0 <= k < |s| ==> PhoneChar(s[k])
  }

  /** The card number counts its characters once all whitespace is deleted. */
  predicate IsValidCard(s: string) {
    13 <= |RemoveWhitespace(s)| <= 19
  }

  /** The CVV counts its raw characters. */
  predicate IsValidCvv(s: string) {
    3 <= |s| <= 4
  }

  /** `validateForm`'s verdict: the message of the first check that fails, or none. */
  function FirstError(f: BookingForm): (r: Option<string>)
    ensures r == None <==>
      AllPresent(f) && IsValidEmail(f.email) && IsValidPhone(f.phoneNumber)
      && IsValidCard(f.cardNumber) && IsValidCvv(f.cvv)
    ensures r == Some(RequiredMessage) <==> !AllPresent(f)
    ensures r == Some(EmailMessage) <==> AllPresent(f) && !IsValidEmail(f.email)
    ensures r == Some(PhoneMessage) <==>
      AllPresent(f) && IsValidEmail(f.email) && !IsValidPhone(f.phoneNumber)
    ensures r == Some(CardMessage) <==>
      AllPresent(f) && IsValidEmail(f.email) && IsValidPhone(f.phoneNumber) && !IsValidCard(f.cardNumber)
    ensures r == Some(CvvMessage) <==>
      AllPresent(f) && IsValidEmail(f.email) && IsValidPhone(f.phoneNumber)
      && IsValidCard(f.cardNumber) && !IsValidCvv(f.cvv)
  {
    if !AllPresent(f) then Some(RequiredMessage)
    else if !IsValidEmail(f.email) then Some(EmailMessage)
    else if !IsValidPhone(f.phoneNumber) then Some(PhoneMessage)
    else if !IsValidCard(f.cardNumber) then Some(CardMessage)
    else if !IsValidCvv(f.cvv) then Some(CvvMessage)
    else None
  }

  /** Whitespace passes the required check; a form of single spaces fails only at the email check. */
  lemma WhitespaceIsPresent(f: BookingForm)
    requires forall k :: f.Get(k) == " "
    ensures AllPresent(f)
    ensures FirstError(f) == Some(EmailMessage)
  {
    assert f.Get(Email) == " ";
  }

  /** The phone placeholder shown on the form is not a valid phone number. */
  lemma PlaceholderPhoneRejected()
    ensures !IsValidPhone("+1 (555) 123-4567")
  {
    var p := "+1 (555) 123-4567";
    assert p[2] == ' ' && !PhoneChar(p[2]);
  }

  /** A phone number using only digits, `-` and `+` within the length bounds passes. */
  lemma PhoneDigitsAccepted()
    ensures IsValidPhone("+15551234567")
    ensures !IsValidPhone("12345678")
  {
  }

  /**
   * The card check counts only the characters that are not whitespace, and
   * looks at nothing else: letters pass as well as digits.
   */
  lemma CardCharactersUnchecked(s: string)
    ensures IsValidCard(s) <==> 13 <= |s| - WhitespaceCount(s) <= 19
  {
  }

  /** Spaces do not rescue a number with more than 19 other characters. */
  lemma CardTooLongStaysInvalid(s: string)
    requires |s| - WhitespaceCount(s) > 19
    ensures !IsValidCard(s)
  {
  }

  /** The card placeholder shown on the form, spaces included, passes the card check. */
  lemma PlaceholderCardAccepted()
    ensures IsValidCard("0000 0000 0000 0000")
  {
    var g, sp := "0000", " ";
    assert WhitespaceCount(g) == 0 && WhitespaceCount(sp) == 1;
    WhitespaceCountConcat(g, sp);
    var block := g + sp;
    WhitespaceCountConcat(block, block);
    WhitespaceCountConcat(block + block, block);
    WhitespaceCountConcat(block + block + block, g);
    assert block + block + block + g == "0000 0000 0000 0000";
    CardCharactersUnchecked(block + block + block + g);
  }

  /** The CVV check neither trims nor looks for digits. */
  lemma CvvIsRawLength()
    ensures IsValidCvv("abc") && IsValidCvv(" 12 ")
    ensures !IsValidCvv("12") && !IsValidCvv("12345")
  {
  }

  /** The error shown when the request fails: the server's message if truthy, else the fixed fallback. */
  function SubmitErrorText(serverMessage: Option<string>): (text: string)
    ensures text != ""
    ensures serverMessage.Some? && serverMessage.value != "" ==> text == serverMessage.value
    ensures serverMessage.None? || serverMessage.value == "" ==> text == SubmitFallbackMessage
  {
    if serverMessage.Some? && serverMessage.value != "" then serverMessage.value
    else SubmitFallbackMessage
  }

  /** How the posted request ends: a response with a 2xx status, or a rejection carrying the server's message, if any. */
  datatype SubmitOutcome = Responded(status: nat) | Rejected(serverMessage: Option<string>)

  /** The page's state. */
  class BookingPageState {
    var form: BookingForm
    var loading: bool
    var error: Option<string>
    var success: bool

    /** Lines 19-31: an empty form, not loading, no error, not yet confirmed. */
    constructor ()
      ensures form == EmptyForm && !loading && error == None && !success
      ensures FirstError(form) == Some(RequiredMessage)
    {
      form := EmptyForm;
      loading := false;
      error := None;
      success := false;
    }

    /** `handleChange`: exactly one field of the form changes. */
    method HandleChange(k: BookingField, v: string)
      modifies this`form
      ensures form == old(form).With(k, v)
      ensures form.Get(k) == v
      ensures forall other :: other != k ==> form.Get(other) == old(form).Get(other)
    {
      form := form.With(k, v);
    }

    /** `validateForm`: the checks in order; the first that fails sets its message and stops. */
    method ValidateForm() returns (valid: bool)
      modifies this`error
      ensures valid <==> FirstError(form) == None
      ensures valid ==> error == old(error)
      ensures !valid ==> error == FirstError(form)
    {
      if !AllPresent(form) {
        error := Some(RequiredMessage);
        return false;
      }
      if !IsValidEmail(form.email) {
        error := Some(EmailMessage);
        return false;
      }
      if !IsValidPhone(form.phoneNumber) {
        error := Some(PhoneMessage);
        return false;
      }
      var card := RemoveWhitespace(form.cardNumber);
      if |card| < 13 || |card| > 19 {
        error := Some(CardMessage);
        return false;
      }
      if |form.cvv| < 3 || |form.cvv| > 4 {
        error := Some(CvvMessage);
        return false;
      }
      return true;
    }

    /**
     * The synchronous part of `handleSubmit`: the error is cleared, the form
     * is validated, and only a valid form is posted, with loading raised.
     * The submit button is disabled while loading.
     */
    method HandleSubmit() returns (request: Option<BookingForm>)
      requires !loading
      modifies this`error, this`loading
      ensures request.Some? <==> FirstError(form) == None
      ensures request.Some? ==> request.value == form && loading && error == None
      ensures request.None? ==> !loading && error == FirstError(form)
    {
      error := None;
      var valid := ValidateForm();
      if !valid {
        return None;
      }
      loading := true;
      request := Some(form);
    }

    /** The rest of `handleSubmit`, once the request settles; `finally` lowers loading. */
    method SubmitSettled(outcome: SubmitOutcome)
      modifies this`success, this`error, this`loading
      ensures !loading
      ensures outcome == Responded(200) ==> success && error == old(error)
      ensures outcome.Responded? && outcome.status != 200 ==> success == old(success) && error == old(error)
      ensures outcome.Rejected? ==> success == old(success) && error == Some(SubmitErrorText(outcome.serverMessage))
    {
      match outcome {
        case Responded(status) =>
          if status == 200 {
            success := true;
          }
        case Rejected(message) =>
          error := Some(SubmitErrorText(message));
      }
      loading := false;
    }
  }
}
