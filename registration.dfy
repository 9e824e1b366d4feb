/** The registration form: field edits, the live password checklist, and the ordered
    checks made on submit before the account request is sent. */
module Registration {
  import opened Wrappers

  datatype FormData = FormData(
    firstName: string,
    lastName: string,
    email: string,
    password: string,
    confirmPassword: string,
    role: string,
    termsAccepted: bool)

  const InitialForm := FormData("", "", "", "", "", "student", false)

  /** The form's text inputs and its one select, by `name`. */
  datatype TextField = FirstName | LastName | Email | Password | ConfirmPassword | Role

  /** A change event: a text input or the select reports its `value`; the terms
      checkbox, the form's only checkbox, reports `checked`. */
  datatype ChangeEvent = TextInput(name: TextField, value: string) | TermsCheckbox(checked: bool)

  function TextOf(form: FormData, f: TextField): string
  {
    match f
    case FirstName => form.firstName
    case LastName => form.lastName
    case Email => form.email
    case Password => form.password
    case ConfirmPassword => form.confirmPassword
    case Role => form.role
  }

  /** `{...formData, [name]: type === 'checkbox' ? checked : value}`: the named field
      takes the event's value and every other field keeps its own. */
  function UpdateForm(form: FormData, e: ChangeEvent): (r: FormData)
    ensures e.TextInput? ==> TextOf(r, e.name) == e.value && r.termsAccepted == form.termsAccepted
    ensures e.TextInput? ==> forall f :: f != e.name ==> TextOf(r, f) == TextOf(form, f)
    ensures e.TermsCheckbox? ==> r.termsAccepted == e.checked
    ensures e.TermsCheckbox? ==> forall f :: TextOf(r, f) == TextOf(form, f)
  {
    match e
    case TermsCheckbox(checked) => form.(termsAccepted := checked)
    case TextInput(name, value) =>
      match name
      case FirstName => form.(firstName := value)
      case LastName => form.(lastName := value)
      case Email => form.(email := value)
      case Password => form.(password := value)
      case ConfirmPassword => form.(confirmPassword := value)
      case Role => form.(role := value)
  }

  datatype PasswordRequirements = PasswordRequirements(
    length: bool,
    number: bool,
    upperCase: bool,
    specialChar: bool)

  /** `\d` */
  predicate IsDigit(c: char) { '0' <= c <= '9' }
  /** `[A-Z]` */
  predicate IsUpper(c: char) { 'A' <= c <= 'Z' }

  /** The characters of the class `[!@#$/%^&*(),.?":{}|<>]`. */
  const SpecialChars: set<char> := {'!', '@', '#', '$', '/', '%', '^', '&', '*', '(', ')',
                                    ',', '.', '?', '"', ':', '{', '}', '|', '<', '>'}

  predicate IsSpecial(c: char) { c in SpecialChars }

  /** `regex.test(s)` for a one-character class: scans s from the left. */
  function ContainsWhere(s: string, matches: char -> bool): (found: bool)
    ensures found <==> exists i :: 0 <= i < |s| && matches(s[i])
  {
    if s == [] then false
    else if matches(s[0]) then true
    else
      var rest := ContainsWhere(s[1..], matches);
      assert forall i :: 1 <= i < |s| ==> s[i] == s[1..][i - 1];
      rest
  }

  /** The checklist `handleChange` computes for a new password. */
  function CheckPassword(password: string): (r: PasswordRequirements)
    ensures r.length <==> |password| >= 8
    ensures r.number <==> exists i :: 0 <= i < |password| && '0' <= password[i] <= '9'
    ensures r.upperCase <==> exists i :: 0 <= i < |password| && 'A' <= password[i] <= 'Z'
    ensures r.specialChar <==> exists i :: 0 <= i < |password| && password[i] in SpecialChars
  {
    PasswordRequirements(
      |password| >= 8,
      ContainsWhere(password, IsDigit),
      ContainsWhere(password, IsUpper),
      ContainsWhere(password, IsSpecial))
  }

  predicate AllMet(r: PasswordRequirements)
  {
    r.length && r.number && r.upperCase && r.specialChar
  }

  /** The empty password of a fresh form meets none of the requirements. */
  lemma EmptyPasswordMeetsNone()
    ensures CheckPassword("") == PasswordRequirements(false, false, false, false)
  {
  }

  /** A password with eight characters, a digit, a capital and a symbol passes. */
  lemma StrongPasswordExample()
    ensures AllMet(CheckPassword("Clave#2024"))
  {
    var p := "Clave#2024";
    assert 'A' <= p[0] <= 'Z' && p[5] in SpecialChars && '0' <= p[6] <= '9';
  }

  /** The user-type id sent to the server: 2 for teachers, 3 for anyone else. */
  function UserTypeId(role: string): (id: int)
    ensures id == 2 <==> role == "teacher"
    ensures id == 3 <==> role != "teacher"
  {
    if role == "teacher" then 2 else 3
  }

  datatype SubmitError = RequirementsUnmet | PasswordMismatch | TermsNotAccepted

  /** The message shown for a failed check; never empty, since an empty message is
      how the form shows no error. */
  function ErrorMessage(e: SubmitError): (m: string)
    ensures m != ""
  {
    match e
    case RequirementsUnmet => "La contraseña no cumple con los requisitos."
    case PasswordMismatch => "Las contraseñas no coinciden."
    case TermsNotAccepted => "Debes aceptar las políticas de seguridad."
  }

  /** Each failed check has its own message. */
  lemma ErrorMessagesDistinct(a: SubmitError, b: SubmitError)
    requires a != b
    ensures ErrorMessage(a) != ErrorMessage(b)
  {
  }

  /** The account request handed to the server. */
  datatype AccountRequest = AccountRequest(
    firstName: string,
    lastName: string,
    email: string,
    password: string,
    userTypeId: int)

  datatype SubmitOutcome = Rejected(error: SubmitError) | Send(request: AccountRequest)

  /** What came back from the account request: any success status (`response.ok`), a
      failure status with its body text, or no response at all. */
  datatype ServerReply = Success | Refused(body: string) | NoResponse

  const UnexpectedErrorMessage := "Error inesperado. Intenta nuevamente."

  /** The message shown for a reply, or None when the reply sends the user on to
      the login page. */
  function ReplyMessage(reply: ServerReply): (m: Option<string>)
    ensures m.None? <==> reply.Success?
    ensures reply.Refused? ==> m == Some("Error en el registro: " + reply.body)
    ensures reply.NoResponse? ==> m == Some(UnexpectedErrorMessage)
  {
    match reply
    case Success => None
    case Refused(body) => Some("Error en el registro: " + body)
    case NoResponse => Some(UnexpectedErrorMessage)
  }

  /** The checks of `handleSubmit` in their order, the first failure winning: the
      checklist, then the confirmation, then the terms. */
  function Validate(reqs: PasswordRequirements, form: FormData): (o: SubmitOutcome)
    ensures o == Rejected(RequirementsUnmet) <==> !AllMet(reqs)
    ensures o == Rejected(PasswordMismatch) <==> AllMet(reqs) && form.password != form.confirmPassword
    ensures o == Rejected(TermsNotAccepted) <==>
      AllMet(reqs) && form.password == form.confirmPassword && !form.termsAccepted
    ensures o.Send? <==> AllMet(reqs) && form.password == form.confirmPassword && form.termsAccepted
    ensures o.Send? ==> o.request == AccountRequest(form.firstName, form.lastName, form.email,
                                                    form.password, UserTypeId(form.role))
  {
    if !AllMet(reqs) then Rejected(RequirementsUnmet)
    else if form.password != form.confirmPassword then Rejected(PasswordMismatch)
    else if !form.termsAccepted then Rejected(TermsNotAccepted)
    else Send(AccountRequest(form.firstName, form.lastName, form.email, form.password,
                             UserTypeId(form.role)))
  }

  class RegisterForm {
    var formData: FormData
    var passwordRequirements: PasswordRequirements
    var errorMessage: string

    /** The checklist always describes the password currently in the form. */
    ghost predicate Valid()
      reads this
    {
      passwordRequirements == CheckPassword(formData.password)
    }

    constructor ()
      ensures Valid() && formData == InitialForm && errorMessage == ""
      ensures passwordRequirements == PasswordRequirements(false, false, false, false)
    {
      formData := InitialForm;
      passwordRequirements := PasswordRequirements(false, false, false, false);
      errorMessage := "";
      EmptyPasswordMeetsNone();
    }

    /** `handleChange`: the named field is updated, and the checklist is recomputed
        when, and only when, the field is the password. */
    method HandleChange(e: ChangeEvent)
      requires Valid()
      modifies this
      ensures Valid()
      ensures formData == UpdateForm(old(formData), e)
      ensures passwordRequirements ==
        if e.TextInput? && e.name == Password then CheckPassword(e.value) else old(passwordRequirements)
      ensures errorMessage == old(errorMessage)
    {
      formData := UpdateForm(formData, e);
      if e.TextInput? && e.name == Password {
        passwordRequirements := CheckPassword(e.value);
      }
    }

    /** `handleSubmit` up to the request: the error is cleared, then set by the first
        check that fails; when none fails the request goes out and no error is shown. */
    method HandleSubmit() returns (outcome: SubmitOutcome)
      requires Valid()
      modifies this`errorMessage
      ensures Valid()
      ensures outcome == Validate(passwordRequirements, formData)
      ensures outcome == Validate(CheckPassword(formData.password), formData)
      ensures errorMessage == if outcome.Rejected? then ErrorMessage(outcome.error) else ""
      ensures errorMessage == "" <==> outcome.Send?
    {
      errorMessage := "";
      var r := passwordRequirements;
      if !r.length || !r.number || !r.upperCase || !r.specialChar {
        errorMessage := ErrorMessage(RequirementsUnmet);
        return Rejected(RequirementsUnmet);
      }
      if formData.password != formData.confirmPassword {
        errorMessage := ErrorMessage(PasswordMismatch);
        return Rejected(PasswordMismatch);
      }
      if !formData.termsAccepted {
        errorMessage := ErrorMessage(TermsNotAccepted);
        return Rejected(TermsNotAccepted);
      }
      var userTypeId := UserTypeId(formData.role);
      outcome := Send(AccountRequest(formData.firstName, formData.lastName, formData.email,
                                     formData.password, userTypeId));
    }

    /** The rest of `handleSubmit` once the request was sent: a success leads to the
        login page with the form untouched, anything else shows its message. */
    method HandleReply(reply: ServerReply) returns (goToLogin: bool)
      modifies this`errorMessage
      ensures goToLogin <==> reply.Success?
      ensures reply.Success? ==> errorMessage == old(errorMessage)
      ensures reply.Refused? ==> errorMessage == "Error en el registro: " + reply.body
      ensures reply.NoResponse? ==> errorMessage == UnexpectedErrorMessage
    {
      var message := ReplyMessage(reply);
      goToLogin := message.None?;
      if message.Some? {
        errorMessage := message.value;
      }
    }
  }
}
