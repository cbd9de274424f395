/**
 * The signup page: the form state, its change handler, and the submit handler's ordered
 * checks and the request body it builds. The `signup` call of the authentication context is
 * a parameter: the result it resolves to for a given body.
 */
module SignupPage {
  import opened Wrappers
  import opened Js
  import UserModel

  /** The form's eight text fields, all strings as the inputs hold them. */
  datatype SignupForm = SignupForm(
    name: string,
    age: string,
    email: string,
    mobile: string,
    address: string,
    aadharCardNumber: string,
    password: string,
    confirmPassword: string)

  const EmptyForm := SignupForm("", "", "", "", "", "", "", "")

  /** The `name` attribute of an input, which says which field a change event updates. */
  datatype Field = Name | Age | Email | Mobile | Address | AadharCardNumber | Password | ConfirmPassword

  function FieldValue(f: SignupForm, field: Field): string
  {
    match field
    case Name => f.name
    case Age => f.age
    case Email => f.email
    case Mobile => f.mobile
    case Address => f.address
    case AadharCardNumber => f.aadharCardNumber
    case Password => f.password
    case ConfirmPassword => f.confirmPassword
  }

  /** `{ ...formData, [name]: value }`: one field replaced, the others kept. */
  function WithField(f: SignupForm, field: Field, value: string): (r: SignupForm)
    ensures FieldValue(r, field) == value
    ensures forall other :: other != field ==> FieldValue(r, other) == FieldValue(f, other)
  {
    match field
    case Name => f.(name := value)
    case Age => f.(age := value)
    case Email => f.(email := value)
    case Mobile => f.(mobile := value)
    case Address => f.(address := value)
    case AadharCardNumber => f.(aadharCardNumber := value)
    case Password => f.(password := value)
    case ConfirmPassword => f.(confirmPassword := value)
  }

  const PasswordsDiffer := "Passwords do not match"
  const PasswordTooShort := "Password must be at least 6 characters long"
  const AadhaarNotTwelve := "Aadhar Card Number must be 12 digits"

  /**
   * The submit handler's checks, in order; the error of the first that fails. Lengths are
   * counted in characters.
   */
  function ValidationError(f: SignupForm): (r: Option<string>)
    ensures r == Some(PasswordsDiffer) <==> f.password != f.confirmPassword
    ensures r == Some(PasswordTooShort) <==> f.password == f.confirmPassword && |f.password| < 6
    ensures r == Some(AadhaarNotTwelve) <==>
      f.password == f.confirmPassword && |f.password| >= 6 && |f.aadharCardNumber| != 12
    ensures r.None? <==> f.password == f.confirmPassword && |f.password| >= 6 && |f.aadharCardNumber| == 12
  {
    if f.password != f.confirmPassword then Some(PasswordsDiffer)
    else if |f.password| < 6 then Some(PasswordTooShort)
    else if |f.aadharCardNumber| != 12 then Some(AadhaarNotTwelve)
    else None
  }

  /**
   * The signup request body: every field but `confirmPassword`, with `age` and
   * `aadharCardNumber` passed through `parseInt`. NaN is `None`; serialised it is `null`,
   * which the schema treats as a missing value.
   */
  datatype SignupPayload = SignupPayload(
    name: string,
    age: Option<int>,
    email: string,
    mobile: string,
    address: string,
    aadharCardNumber: Option<int>,
    password: string)

  function Payload(f: SignupForm): SignupPayload
  {
    SignupPayload(f.name, ParseInt(f.age), f.email, f.mobile, f.address,
                  ParseInt(f.aadharCardNumber), f.password)
  }

  /** The body as `new user(data)` sees it: the page never sends `role` or `isVoted`. */
  function ToDraft(p: SignupPayload): UserModel.UserDraft
  {
    UserModel.UserDraft(Some(p.name), p.age, Some(p.email), Some(p.mobile), Some(p.address),
                        p.aadharCardNumber, Some(p.password), None, None)
  }

  /** What the authentication context's `signup` resolves to. */
  datatype AuthResult = AuthResult(success: bool, error: string)

  class SignupView {
    var formData: SignupForm
    var error: string
    var loading: bool
    /** The route the page shows; `navigate` changes it. */
    var location: string

    constructor()
      ensures formData == EmptyForm && error == "" && !loading && location == "/signup"
    {
      formData := EmptyForm;
      error := "";
      loading := false;
      location := "/signup";
    }

    /** `handleChange`: store the edited field and clear any error. */
    method HandleChange(field: Field, value: string)
      modifies this
      ensures formData == WithField(old(formData), field, value)
      ensures error == "" && loading == old(loading) && location == old(location)
    {
      formData := WithField(formData, field, value);
      if error != "" {
        error := "";
      }
    }

    /**
     * `handleSubmit`: the first failing check sets its error and nothing is sent;
     * otherwise the payload is sent, and the page moves to the dashboard on success or
     * shows the error the context reports. `sent` is the body sent, if any.
     */
    method HandleSubmit(signup: SignupPayload -> AuthResult) returns (sent: Option<SignupPayload>)
      modifies this
      ensures formData == old(formData) && !loading
      ensures sent.None? <==> ValidationError(formData).Some?
      ensures sent.None? ==> error == ValidationError(formData).value && location == old(location)
      ensures sent.Some? ==> sent.value == Payload(formData)
      ensures sent.Some? && signup(sent.value).success ==> location == "/dashboard" && error == ""
      ensures sent.Some? && !signup(sent.value).success ==>
        error == signup(sent.value).error && location == old(location)
    {
      loading := true;
      error := "";
      if formData.password != formData.confirmPassword {
        error := PasswordsDiffer;
        loading := false;
        return None;
      }
      if |formData.password| < 6 {
        error := PasswordTooShort;
        loading := false;
        return None;
      }
      if |formData.aadharCardNumber| != 12 {
        error := AadhaarNotTwelve;
        loading := false;
        return None;
      }
      var signupData := Payload(formData);
      sent := Some(signupData);
      var result := signup(signupData);
      if result.success {
        location := "/dashboard";
      } else {
        error := result.error;
      }
      loading := false;
    }
  }

  // ---------------------------------------------------------------------------

  /** A form the page accepts carries a password of at least six characters, which the schema's required rule admits. */
  lemma AcceptedFormHasPassword(f: SignupForm)
    requires ValidationError(f).None?
    ensures UserModel.RequiredString(ToDraft(Payload(f)).password)
    ensures |f.aadharCardNumber| == 12
  {
  }

  /**
   * Twelve decimal digits without a leading zero reach the server as the number they
   * spell, and that number's `toString()` gives the same twelve digits back.
   */
  lemma AadhaarDigitsRoundTrip(f: SignupForm)
    requires |f.aadharCardNumber| == 12 && AllDigits(f.aadharCardNumber) && f.aadharCardNumber[0] != '0'
    ensures DigitsIn(f.aadharCardNumber, 10)
    ensures Payload(f).aadharCardNumber == Some(Value(f.aadharCardNumber, 10))
    ensures NumberToString(Payload(f).aadharCardNumber.value) == f.aadharCardNumber
  {
    ParseIntOfDigits(f.aadharCardNumber);
    DigitsOfValue(f.aadharCardNumber);
  }

  /** A leading zero is lost: the number sent no longer prints as the digits typed. */
  lemma LeadingZeroLost(f: SignupForm)
    requires |f.aadharCardNumber| == 12 && AllDigits(f.aadharCardNumber) && f.aadharCardNumber[0] == '0'
    ensures Payload(f).aadharCardNumber.Some?
    ensures NumberToString(Payload(f).aadharCardNumber.value) != f.aadharCardNumber
  {
    ParseIntOfDigits(f.aadharCardNumber);
    var n := Value(f.aadharCardNumber, 10);
    if n > 0 {
      assert Digits(n)[0] != '0';
    }
  }

  /**
   * The page checks only the length of the Aadhaar field: twelve characters that do not
   * start a number pass the page's checks, reach the server as `null`, and the signup is
   * refused.
   */
  lemma LengthOnlyCheck(f: SignupForm, hash: string -> string)
    requires ValidationError(f).None?
    requires !IsSpace(f.aadharCardNumber[0]) && !IsDigit(f.aadharCardNumber[0])
    requires f.aadharCardNumber[0] != '+' && f.aadharCardNumber[0] != '-'
    ensures Payload(f).aadharCardNumber.None?
    ensures UserModel.CreateUser(ToDraft(Payload(f)), hash).None?
  {
    var s := f.aadharCardNumber;
    assert TrimStart(s) == s;
    assert DigitRun(s, 10) == 0;
  }

  /** Every user created from the page's payload is a voter who has not voted. */
  lemma PageSignupIsVoter(f: SignupForm, hash: string -> string)
    requires UserModel.CreateUser(ToDraft(Payload(f)), hash).Some?
    ensures UserModel.CreateUser(ToDraft(Payload(f)), hash).value.role == UserModel.VoterRole
    ensures !UserModel.CreateUser(ToDraft(Payload(f)), hash).value.isVoted
  {
  }
}
