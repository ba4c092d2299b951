/**
 * The registration page: its form, the guard chain of its submit handler and
 * the profile it sends. `handleSubmit` awaits `register`, so it is split at the
 * await into `BeginSubmit` (validate, raise `loading`) and `FinishSubmit`
 * (lower `loading`, navigate on success); `HandleSubmit` runs both around
 * the session's `Register`.
 */
module Register {
  import opened Wrappers
  import opened Http
  import opened Text
  import opened AuthContext

  const PasswordMismatch := "Las contraseñas no coinciden"
  const PasswordTooShort := "La contraseña debe tener al menos 6 caracteres"
  const MinPasswordLength := 6

  datatype Form = Form(name: string, email: string, password: string, confirmPassword: string,
                       role: string, location: string)

  /** The `name` attributes of the form's inputs. */
  datatype Field = Name | Email | Password | ConfirmPassword | Role | Location

  function Get(form: Form, field: Field): string {
    match field
    case Name => form.name
    case Email => form.email
    case Password => form.password
    case ConfirmPassword => form.confirmPassword
    case Role => form.role
    case Location => form.location
  }

  /** The form on first render: role "CLIENTE", every other field empty. */
  function InitialForm(): (form: Form)
    ensures form.role == ClientRole
    ensures forall field :: field != Role ==> Get(form, field) == ""
  {
    Form("", "", "", "", ClientRole, "")
  }

  /** `handleChange`: `{ ...prev, [name]: value }`. */
  function WithField(form: Form, field: Field, value: string): (r: Form)
    ensures Get(r, field) == value
    ensures forall other :: other != field ==> Get(r, other) == Get(form, other)
  {
    match field
    case Name => form.(name := value)
    case Email => form.(email := value)
    case Password => form.(password := value)
    case ConfirmPassword => form.(confirmPassword := value)
    case Role => form.(role := value)
    case Location => form.(location := value)
  }

  /** What a submission comes to: silently dropped, refused with an alert, or sent. */
  datatype Verdict = Ignored | Mismatch | TooShort | Accepted(profile: Profile)

  /** The `alert` shown for a refused submission. */
  function Alert(v: Verdict): (text: Option<string>)
    ensures text.Some? <==> v.Mismatch? || v.TooShort?
  {
    match v
    case Mismatch => Some(PasswordMismatch)
    case TooShort => Some(PasswordTooShort)
    case _ => None
  }

  /** The guard chain of `handleSubmit` and the profile it builds: the confirmation is never sent. */
  function Validate(form: Form): (v: Verdict)
    ensures v.Accepted? ==>
      v.profile == Profile(form.name, form.email, form.password, form.role, form.location)
  {
    if Trim(form.name) == [] || Trim(form.email) == [] || Trim(form.password) == [] then Ignored
    else if form.password != form.confirmPassword then Mismatch
    else if Utf16Length(form.password) < MinPasswordLength then TooShort
    else Accepted(Profile(form.name, form.email, form.password, form.role, form.location))
  }

  /** The first guard passes: name, email and password each hold something besides whitespace. */
  predicate Filled(form: Form) {
    !IsBlank(form.name) && !IsBlank(form.email) && !IsBlank(form.password)
  }

  /** The first guard: a blank name, email or password drops the submission silently. */
  lemma ValidateIgnoresBlank(form: Form)
    ensures Validate(form) == Ignored <==> !Filled(form)
  {
    FilledIffTrimmed(form);
  }

  /**
   * The later guards, once the fields are filled: a mismatched confirmation
   * is refused first, then a password shorter than six UTF-16 code units;
   * everything else is sent.
   */
  lemma ValidateDecides(form: Form)
    requires Filled(form)
    ensures Validate(form) == Mismatch <==> form.password != form.confirmPassword
    ensures Validate(form) == TooShort <==>
      form.password == form.confirmPassword && Utf16Length(form.password) < MinPasswordLength
    ensures Validate(form).Accepted? <==>
      form.password == form.confirmPassword && Utf16Length(form.password) >= MinPasswordLength
  {
    FilledIffTrimmed(form);
  }

  lemma FilledIffTrimmed(form: Form)
    ensures Filled(form) <==> Trim(form.name) != [] && Trim(form.email) != [] && Trim(form.password) != []
  {
    TrimEmptyIffBlank(form.name);
    TrimEmptyIffBlank(form.email);
    TrimEmptyIffBlank(form.password);
  }

  class RegisterPage {
    var form: Form
    var loading: bool
    /** The route `navigate` was last sent to, if any. */
    var navigatedTo: Option<string>

    constructor ()
      ensures form == InitialForm() && !loading && navigatedTo == None
    {
      form, loading, navigatedTo := InitialForm(), false, None;
    }

    method HandleChange(field: Field, value: string)
      modifies this`form
      ensures Get(form, field) == value
      ensures forall other :: other != field ==> Get(form, other) == Get(old(form), other)
    {
      form := WithField(form, field, value);
    }

    /** Up to the await: run the guards; only an accepted submission raises `loading`. */
    method BeginSubmit() returns (v: Verdict)
      modifies this`loading
      ensures v == Validate(form)
      ensures v.Accepted? ==> loading
      ensures !v.Accepted? ==> loading == old(loading)
    {
      v := Validate(form);
      if v.Accepted? {
        loading := true;
      }
    }

    /** After the await: lower `loading`; navigate to "/" only on success. */
    method FinishSubmit(result: AuthResult)
      modifies this`loading, this`navigatedTo
      ensures !loading
      ensures navigatedTo == if result.Success? then Some("/") else old(navigatedTo)
    {
      loading := false;
      if result.Success? {
        navigatedTo := Some("/");
      }
    }

    /**
     * The whole handler: the session is touched only when the guards accept;
     * then the session settles as after any sign-in, the token effects
     * asking `/api/auth/me` (reply `me`) when the token changed.
     */
    method HandleSubmit(auth: Session, response: Reply<Credentials>, me: Reply<Option<User>>) returns (v: Verdict)
      modifies this`loading, this`navigatedTo, auth
      ensures v == Validate(form)
      ensures !v.Accepted? ==>
        loading == old(loading) && navigatedTo == old(navigatedTo) && unchanged(auth)
      ensures v.Accepted? ==> !loading
      ensures v.Accepted? ==> navigatedTo == if response.Ok? then Some("/") else old(navigatedTo)
      ensures v.Accepted? ==> auth.Current() == AfterSignIn(old(auth.Current()), response, me)
    {
      v := BeginSubmit();
      if v.Accepted? {
        var result := RegisterFlow(auth, v.profile, response, me);
        FinishSubmit(result);
      }
    }
  }
}
