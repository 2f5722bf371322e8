/**
 * The signup page: `updateFormData`, the vendor/supplier tab, and `handleSignup`'s password
 * check and renaming of the form fields into the body the server expects.
 */
module Signup {
  import opened Wrappers
  import Backend

  datatype SignupForm = SignupForm(
    name: string, email: string, password: string, confirmPassword: string,
    phone: string, businessName: string, address: string)

  /** The `field` argument of `updateFormData`. */
  datatype FormField = Name | Email | Password | ConfirmPassword | Phone | BusinessName | Address

  const EmptyForm: SignupForm := SignupForm("", "", "", "", "", "", "")

  /** The tab selected when the page opens. */
  const DefaultUserType: string := "vendor"

  function FieldOf(form: SignupForm, field: FormField): (r: string)
  {
    match field
    case Name => form.name
    case Email => form.email
    case Password => form.password
    case ConfirmPassword => form.confirmPassword
    case Phone => form.phone
    case BusinessName => form.businessName
    case Address => form.address
  }

  /** The form after `updateFormData(field, value)`. */
  function WithField(form: SignupForm, field: FormField, value: string): (r: SignupForm)
  {
    match field
    case Name => form.(name := value)
    case Email => form.(email := value)
    case Password => form.(password := value)
    case ConfirmPassword => form.(confirmPassword := value)
    case Phone => form.(phone := value)
    case BusinessName => form.(businessName := value)
    case Address => form.(address := value)
  }

  /** The named field takes the value and every other field keeps its own. */
  lemma WithFieldOnlyNamed(form: SignupForm, field: FormField, value: string, other: FormField)
    ensures FieldOf(WithField(form, field, value), field) == value
    ensures other != field ==> FieldOf(WithField(form, field, value), other) == FieldOf(form, other)
  {
  }

  /** The body `handleSignup` posts, or None when the passwords differ and nothing is sent. */
  function SignupPayload(form: SignupForm, userType: string): (r: Option<Backend.SignupBody>)
    ensures r.None? <==> form.password != form.confirmPassword
  {
    if form.password != form.confirmPassword then None
    else Some(Backend.SignupBody(form.email, form.name, form.businessName, form.phone,
                                 form.address, form.password, userType))
  }

  /** Each form field lands in the body field the server reads, and the tab gives the user type. */
  lemma PayloadRenamesFields(form: SignupForm, userType: string)
    requires form.password == form.confirmPassword
    ensures var body := SignupPayload(form, userType).value;
      && body.email == form.email && body.FullName == form.name
      && body.BusinessName == form.businessName && body.phonenuber == form.phone
      && body.localtion == form.address && body.Password == form.password
      && body.userType == userType
  {
  }

  /** The alert text after a failed request: the server's message, else the error's, else a fixed one. */
  function FailureText(serverMessage: string, errorMessage: string): (r: string)
  {
    "Signup failed: " + (if serverMessage != "" then serverMessage
                         else if errorMessage != "" then errorMessage
                         else "Signup failed")
  }

  /** The alert always starts with "Signup failed: " and shows the server's message when there is one. */
  lemma FailureTextPrefers(serverMessage: string, errorMessage: string)
    ensures FailureText(serverMessage, errorMessage)[..15] == "Signup failed: "
    ensures serverMessage != "" ==> FailureText(serverMessage, errorMessage)[15..] == serverMessage
    ensures serverMessage == "" && errorMessage != "" ==>
      FailureText(serverMessage, errorMessage)[15..] == errorMessage
  {
  }

  /** How a request ends: success, or the server's and the transport's messages ("" when absent). */
  datatype Reply = Created | Failed(serverMessage: string, errorMessage: string)

  datatype SignupOutcome =
    | PasswordMismatchAlert
    | SuccessAlert(body: Backend.SignupBody)
    | FailureAlert(body: Backend.SignupBody, text: string)

  /** The page's state. */
  class SignupPage {
    var formData: SignupForm
    var userType: string

    constructor ()
      ensures formData == EmptyForm && userType == DefaultUserType
    {
      formData := EmptyForm;
      userType := DefaultUserType;
    }

    /** `updateFormData(field, value)`. */
    method UpdateFormData(field: FormField, value: string)
      modifies this`formData
      ensures formData == WithField(old(formData), field, value)
    {
      formData := WithField(formData, field, value);
    }

    /** Choosing the Vendor or Supplier tab. */
    method SelectTab(tab: string)
      modifies this`userType
      ensures userType == tab
    {
      userType := tab;
    }

    /** `handleSignup`; `reply` is how the request ends when one is sent. */
    method HandleSignup(reply: Reply) returns (outcome: SignupOutcome)
      ensures outcome == PasswordMismatchAlert <==> SignupPayload(formData, userType).None?
      ensures outcome.SuccessAlert? <==> SignupPayload(formData, userType).Some? && reply == Created
      ensures !outcome.PasswordMismatchAlert? ==> outcome.body == SignupPayload(formData, userType).value
      ensures outcome.FailureAlert? ==> outcome.text == FailureText(reply.serverMessage, reply.errorMessage)
    {
      var payload := SignupPayload(formData, userType);
      if payload.None? {
        return PasswordMismatchAlert;
      }
      match reply
      case Created => return SuccessAlert(payload.value);
      case Failed(serverMessage, errorMessage) =>
        return FailureAlert(payload.value, FailureText(serverMessage, errorMessage));
    }
  }

  /**
   * A signup sent from this page with a fresh email is followed by a successful login with
   * the email and password typed into the form.
   */
  method RegisterThenLogIn(store: Backend.Store, form: SignupForm, userType: string) returns (status: int)
    requires store.Valid() && form.email !in store.emailIndex
    requires form.password == form.confirmPassword
    modifies store
    ensures store.Valid()
    ensures status == 200
  {
    var body := SignupPayload(form, userType).value;
    status := Backend.SignUpThenSignIn(store, body);
  }
}
