/** The registration form: four text fields, a terms checkbox, the derived
    validity flags, the rule that disables the submit button, and the
    submit handler that either aborts or hands the fields on. */
module Register {
  import opened Wrappers

  datatype RegisterForm = RegisterForm(name: string, email: string, password: string, confirmPassword: string)

  const EmptyForm: RegisterForm := RegisterForm("", "", "", "")

  datatype FormField = Name | Email | Password | ConfirmPassword

  /** The field a key string designates; the inputs only ever pass these four. */
  function FieldOf(key: string): (r: Option<FormField>)
    ensures r.Some? ==> KeyOf(r.value) == key
  {
    if key == "name" then Some(Name)
    else if key == "email" then Some(Email)
    else if key == "password" then Some(Password)
    else if key == "confirmPassword" then Some(ConfirmPassword)
    else None
  }

  function KeyOf(f: FormField): string {
    match f
    case Name => "name"
    case Email => "email"
    case Password => "password"
    case ConfirmPassword => "confirmPassword"
  }

  /** Every field is reachable through its key. */
  lemma FieldKeysRoundTrip(f: FormField)
    ensures FieldOf(KeyOf(f)) == Some(f)
  {
  }

  function FieldValue(form: RegisterForm, f: FormField): string {
    match f
    case Name => form.name
    case Email => form.email
    case Password => form.password
    case ConfirmPassword => form.confirmPassword
  }

  /** The spread update `{ ...prev, [field]: value }` on a known field: that
      field reads `value`, every other field is as before. */
  function WithField(form: RegisterForm, f: FormField, value: string): (r: RegisterForm)
    ensures FieldValue(r, f) == value
    ensures forall g :: g != f ==> FieldValue(r, g) == FieldValue(form, g)
  {
    match f
    case Name => form.(name := value)
    case Email => form.(email := value)
    case Password => form.(password := value)
    case ConfirmPassword => form.(confirmPassword := value)
  }

  /** Writing a field twice keeps the last value; writing back what a field
      holds changes nothing. */
  lemma WithFieldLaws(form: RegisterForm, f: FormField, v: string, w: string)
    ensures WithField(WithField(form, f, v), f, w) == WithField(form, f, w)
    ensures WithField(form, f, FieldValue(form, f)) == form
  {
  }

  /** Shown as a hint under the password; it gates nothing. */
  predicate IsPasswordValid(form: RegisterForm)
    ensures IsPasswordValid(form) ==> form.password != ""
  {
    |form.password| >= 6
  }

  predicate DoPasswordsMatch(form: RegisterForm) {
    form.password == form.confirmPassword && |form.confirmPassword| > 0
  }

  /** The `disabled` expression of the submit button. */
  predicate SubmitDisabled(form: RegisterForm, acceptTerms: bool, isLoading: bool) {
    isLoading || form.email == "" || form.password == "" || form.name == ""
    || !acceptTerms || !DoPasswordsMatch(form)
  }

  /** What a submission does: `Ignored` when a required field is empty or the
      terms are unchecked, `PasswordMismatch` for the alert, else the three
      values passed on as typed. */
  datatype SubmitOutcome = Ignored | PasswordMismatch | Registered(email: string, password: string, name: string)

  function SubmitDecision(form: RegisterForm, acceptTerms: bool): (r: SubmitOutcome)
    ensures r.Ignored? <==> form.email == "" || form.password == "" || form.name == "" || !acceptTerms
    ensures r.PasswordMismatch? <==> !r.Ignored? && form.password != form.confirmPassword
    ensures r.Registered? ==> r.email == form.email && r.password == form.password && r.name == form.name
    ensures r.Registered? ==> DoPasswordsMatch(form)
  {
    if form.email != "" && form.password != "" && form.name != "" && acceptTerms then
      if form.password != form.confirmPassword then PasswordMismatch
      else Registered(form.email, form.password, form.name)
    else
      Ignored
  }

  /** The button and the handler agree: a submission registers exactly when
      the button is enabled (while not loading). */
  lemma EnabledIffRegisters(form: RegisterForm, acceptTerms: bool)
    ensures !SubmitDisabled(form, acceptTerms, false) <==> SubmitDecision(form, acceptTerms).Registered?
  {
  }

  /** A five-character password leaves the button enabled and registers. */
  lemma ShortPasswordAccepted()
    ensures var form := RegisterForm("Ana", "ana@example.com", "12345", "12345");
      !IsPasswordValid(form) && !SubmitDisabled(form, true, false)
      && SubmitDecision(form, true) == Registered("ana@example.com", "12345", "Ana")
  {
  }

  class RegisterView {
    var form: RegisterForm
    var acceptTerms: bool
    var isLoading: bool

    constructor ()
      ensures form == EmptyForm && !acceptTerms && !isLoading
    {
      form := EmptyForm;
      acceptTerms := false;
      isLoading := false;
    }

    /** `updateFormData`: a known key sets that one field; any other key adds
        a property nothing reads, so the four fields stay as they are. */
    method UpdateFormData(key: string, value: string)
      modifies this`form
      ensures FieldOf(key).Some? ==> form == WithField(old(form), FieldOf(key).value, value)
      ensures FieldOf(key).None? ==> form == old(form)
      ensures forall g :: KeyOf(g) != key ==> FieldValue(form, g) == FieldValue(old(form), g)
    {
      var field := FieldOf(key);
      if field.Some? {
        form := WithField(form, field.value, value);
      }
    }

    method ToggleTerms()
      modifies this`acceptTerms
      ensures acceptTerms == !old(acceptTerms)
    {
      acceptTerms := !acceptTerms;
    }

    /** `handleSubmit`, with the simulated request completing at once: the
        outcome is the decision on the current form, the form is untouched,
        and a registration ends with loading off. */
    method HandleSubmit() returns (outcome: SubmitOutcome)
      modifies this`isLoading
      ensures outcome == SubmitDecision(form, acceptTerms)
      ensures outcome.Registered? ==> !isLoading
      ensures !outcome.Registered? ==> isLoading == old(isLoading)
    {
      if form.email != "" && form.password != "" && form.name != "" && acceptTerms {
        if form.password != form.confirmPassword {
          return PasswordMismatch;
        }
        isLoading := true;
        outcome := Registered(form.email, form.password, form.name);
        isLoading := false;
      } else {
        outcome := Ignored;
      }
    }
  }
}
