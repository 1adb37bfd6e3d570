/**
 * The sign-in / sign-up form: field validation into an error dictionary,
 * the submit flow over `loading` and `authError`, and the mode toggle. The
 * email syntax check belongs to a schema library and is a parameter here
 * (`isEmail`); the auth backend's answer is a parameter of the submit.
 */
module AuthPage {
  import opened Wrappers
  import opened Strings

  const EmailMessage: string := "Please enter a valid email address"
  const PasswordMessage: string := "Password must be at least 6 characters"
  const NameMessage: string := "Please enter your name"
  const UnexpectedMessage: string := "An unexpected error occurred. Please try again."

  /** The shortest password the schema accepts. */
  const MinPasswordLength: nat := 6

  /**
   * The dictionary `validate` builds: one entry per failing field, keyed by
   * the field's name and holding that field's message; the name is checked
   * in sign-up mode only.
   */
  function ValidationErrors(email: string, password: string, fullName: string, isSignUp: bool,
                            isEmail: string -> bool): (errors: map<string, string>)
    ensures errors.Keys <= {"email", "password", "fullName"}
    ensures ("email" in errors <==> !isEmail(email)) && ("email" in errors ==> errors["email"] == EmailMessage)
    ensures ("password" in errors <==> |password| < MinPasswordLength)
    ensures "password" in errors ==> errors["password"] == PasswordMessage
    ensures ("fullName" in errors <==> isSignUp && forall i :: 0 <= i < |fullName| ==> IsJsSpace(fullName[i]))
    ensures "fullName" in errors ==> errors["fullName"] == NameMessage
  {
    var afterEmail: map<string, string> := if isEmail(email) then map[] else map["email" := EmailMessage];
    var afterPassword := if |password| < MinPasswordLength then afterEmail["password" := PasswordMessage] else afterEmail;
    if isSignUp && Trim(fullName) == "" then afterPassword["fullName" := NameMessage] else afterPassword
  }

  /** The form is valid exactly when every field passes its check. */
  lemma ValidExactlyWhenNoErrors(email: string, password: string, fullName: string, isSignUp: bool,
                                 isEmail: string -> bool)
    ensures ValidationErrors(email, password, fullName, isSignUp, isEmail) == map[] <==>
      && isEmail(email)
      && |password| >= MinPasswordLength
      && (isSignUp ==> Trim(fullName) != "")
  {
  }

  /** In sign-in mode the name field is never checked. */
  lemma SignInIgnoresName(email: string, password: string, name1: string, name2: string,
                          isEmail: string -> bool)
    ensures ValidationErrors(email, password, name1, false, isEmail) ==
            ValidationErrors(email, password, name2, false, isEmail)
  {
  }

  /** The state of the form component. */
  datatype FormState = FormState(
    isSignUp: bool, email: string, password: string, fullName: string,
    errors: map<string, string>, loading: bool, authError: Option<string>)

  const InitialForm: FormState := FormState(false, "", "", "", map[], false, None)

  /** The auth backend's answer: accepted, refused with a message, or an exception. */
  datatype AuthResponse = Accepted | Refused(message: string) | Threw

  /** Which auth operation a submit called, if any. */
  datatype AuthCall = NoCall | SignIn(email: string, password: string) | SignUp(email: string, password: string, fullName: string)

  /** One run of `handleSubmit`: the call made, whether it navigated to `/`, and the new state. */
  datatype SubmitRun = SubmitRun(call: AuthCall, navigateHome: bool, after: FormState)

  /**
   * `handleSubmit`: validation replaces the stored errors; an invalid form
   * stops there. Otherwise the matching auth operation is called, its
   * refusal or exception becomes `authError`, a successful sign-in goes to
   * `/`, and `loading` ends false.
   */
  function Submit(st: FormState, isEmail: string -> bool, response: AuthResponse): SubmitRun
  {
    var errors := ValidationErrors(st.email, st.password, st.fullName, st.isSignUp, isEmail);
    var validated := st.(errors := errors);
    if errors != map[] then SubmitRun(NoCall, false, validated)
    else
      var call := if st.isSignUp then SignUp(st.email, st.password, st.fullName) else SignIn(st.email, st.password);
      var authError := match response
        case Accepted => None
        case Refused(m) => Some(m)
        case Threw => Some(UnexpectedMessage);
      SubmitRun(call, !st.isSignUp && response.Accepted?, validated.(loading := false, authError := authError))
  }

  /** An invalid form calls no auth operation and leaves `loading` and `authError` alone. */
  lemma InvalidSubmitCallsNothing(st: FormState, isEmail: string -> bool, response: AuthResponse)
    requires ValidationErrors(st.email, st.password, st.fullName, st.isSignUp, isEmail) != map[]
    ensures var r := Submit(st, isEmail, response);
      && r.call == NoCall && !r.navigateHome
      && r.after.loading == st.loading && r.after.authError == st.authError
  {
  }

  /**
   * The stored errors are always the fresh dictionary (earlier ones are
   * replaced, not merged), and nothing but errors, `loading` and `authError` changes.
   */
  lemma SubmitReplacesErrors(st: FormState, isEmail: string -> bool, response: AuthResponse)
    ensures var r := Submit(st, isEmail, response);
      && r.after.errors == ValidationErrors(st.email, st.password, st.fullName, st.isSignUp, isEmail)
      && r.after.isSignUp == st.isSignUp && r.after.email == st.email
      && r.after.password == st.password && r.after.fullName == st.fullName
  {
  }

  /**
   * A valid form calls exactly the operation of its mode, `loading` ends
   * false, `authError` carries the failure if there was one, and only a
   * successful sign-in navigates; a successful sign-up stays on the page.
   */
  lemma ValidSubmitSettles(st: FormState, isEmail: string -> bool, response: AuthResponse)
    requires ValidationErrors(st.email, st.password, st.fullName, st.isSignUp, isEmail) == map[]
    ensures var r := Submit(st, isEmail, response);
      && (r.call == if st.isSignUp then SignUp(st.email, st.password, st.fullName) else SignIn(st.email, st.password))
      && !r.after.loading
      && (r.after.authError.None? <==> response.Accepted?)
      && (response.Refused? ==> r.after.authError == Some(response.message))
      && (response.Threw? ==> r.after.authError == Some(UnexpectedMessage))
      && (r.navigateHome <==> !st.isSignUp && response.Accepted?)
  {
  }

  /** Switching between sign-in and sign-up clears both kinds of error. */
  function ModeToggled(st: FormState): FormState
  {
    st.(isSignUp := !st.isSignUp, errors := map[], authError := None)
  }

  /** Toggling twice returns to the same mode with no errors shown. */
  lemma ToggleTwice(st: FormState)
    ensures ModeToggled(ModeToggled(st)) == st.(errors := map[], authError := None)
  {
  }

  /** The form component's state, updated in place by its setters. */
  class AuthForm {
    /** The email schema's verdict on a string. */
    const isEmail: string -> bool
    var isSignUp: bool
    var email: string
    var password: string
    var fullName: string
    var errors: map<string, string>
    var loading: bool
    var authError: Option<string>

    function State(): FormState
      reads this
    {
      FormState(isSignUp, email, password, fullName, errors, loading, authError)
    }

    constructor (isEmail: string -> bool)
      ensures this.isEmail == isEmail
      ensures State() == InitialForm
    {
      this.isEmail := isEmail;
      isSignUp, email, password, fullName := false, "", "", "";
      errors, loading, authError := map[], false, None;
    }

    method SetEmail(value: string)
      modifies this
      ensures State() == old(State()).(email := value)
    {
      email := value;
    }

    method SetPassword(value: string)
      modifies this
      ensures State() == old(State()).(password := value)
    {
      password := value;
    }

    method SetFullName(value: string)
      modifies this
      ensures State() == old(State()).(fullName := value)
    {
      fullName := value;
    }

    /** `validate`: fills a fresh dictionary field by field, stores it, and reports whether it is empty. */
    method Validate() returns (valid: bool)
      modifies this
      ensures errors == ValidationErrors(email, password, fullName, isSignUp, isEmail)
      ensures valid <==> errors == map[]
      ensures State() == old(State()).(errors := errors)
    {
      var newErrors: map<string, string> := map[];
      if !isEmail(email) {
        newErrors := newErrors["email" := EmailMessage];
      }
      if |password| < MinPasswordLength {
        newErrors := newErrors["password" := PasswordMessage];
      }
      if isSignUp && Trim(fullName) == "" {
        newErrors := newErrors["fullName" := NameMessage];
      }
      errors := newErrors;
      valid := |newErrors.Keys| == 0;
      assert valid <==> newErrors == map[] by {
        if |newErrors.Keys| == 0 { assert newErrors.Keys == {}; }
      }
    }

    /** `handleSubmit`, with the auth backend's answer passed in. */
    method HandleSubmit(response: AuthResponse) returns (call: AuthCall, navigateHome: bool)
      modifies this
      ensures SubmitRun(call, navigateHome, State()) == Submit(old(State()), isEmail, response)
    {
      call, navigateHome := NoCall, false;
      var valid := Validate();
      if !valid {
        return;
      }
      loading := true;
      authError := None;
      if isSignUp {
        call := SignUp(email, password, fullName);
      } else {
        call := SignIn(email, password);
      }
      match response {
        case Accepted =>
          navigateHome := !isSignUp;
        case Refused(m) =>
          authError := Some(m);
        case Threw =>
          authError := Some(UnexpectedMessage);
      }
      loading := false;
    }

    /** The "Sign in" / "Sign up" switch under the form. */
    method ToggleMode()
      modifies this
      ensures State() == ModeToggled(old(State()))
    {
      isSignUp := !isSignUp;
      errors := map[];
      authError := None;
    }
  }
}
