/**
 * The sign-in / sign-up form: required-field check, the choice of provider call, the mapping of
 * the provider's error text to a message, and the switch back to sign-in after a sign-up.
 * The identity provider is not modelled: its answer is an input.
 */
module Auth {
  import opened Wrappers
  import opened Text

  const FillAllFields := "يرجى ملء جميع الحقول"
  const BadCredentials := "البريد الإلكتروني أو كلمة المرور غير صحيحة"
  const AlreadyRegistered := "هذا البريد الإلكتروني مسجل مسبقاً"
  const SignUpSucceeded := "تم إنشاء الحساب بنجاح! يرجى تسجيل الدخول"
  const TryAgain := "حدث خطأ، يرجى المحاولة مرة أخرى"

  const InvalidCredentialsText := "Invalid login credentials"
  const AlreadyRegisteredText := "User already registered"

  /** A notification; `destructive` is the error styling. */
  datatype Toast = Toast(description: string, destructive: bool)

  /** A call made to the identity provider. */
  datatype ProviderCall = SignUpCall(email: string, password: string) | SignInCall(email: string, password: string)

  /** What the awaited call gave: `{ error }` with or without an error message, or a rejection. */
  datatype ProviderResult = Resolved(error: Option<string>) | Rejected

  /** The message shown for a provider error: the credentials test comes first, then the duplicate test. */
  function ErrorDescription(message: string): (d: string)
    ensures Includes(message, InvalidCredentialsText) ==> d == BadCredentials
    ensures !Includes(message, InvalidCredentialsText) && Includes(message, AlreadyRegisteredText) ==> d == AlreadyRegistered
    ensures !Includes(message, InvalidCredentialsText) && !Includes(message, AlreadyRegisteredText) ==> d == message
  {
    if Includes(message, InvalidCredentialsText) then BadCredentials
    else if Includes(message, AlreadyRegisteredText) then AlreadyRegistered
    else message
  }

  /** A text holding neither `I` nor `U` is shown as it is. */
  lemma PlainTextShownAsIs(d: string)
    requires 'I' !in d && 'U' !in d
    ensures ErrorDescription(d) == d
  {
    NoLeadNoOccurrence(d, InvalidCredentialsText);
    NoLeadNoOccurrence(d, AlreadyRegisteredText);
  }

  /**
   * A provider message is shown unchanged exactly when it matches neither known text; when it
   * matches one, the Arabic text replaces it.
   */
  lemma PassesThroughIff(message: string)
    ensures ErrorDescription(message) == message
      <==> !Includes(message, InvalidCredentialsText) && !Includes(message, AlreadyRegisteredText)
  {
    if Includes(message, InvalidCredentialsText) {
      IncludesLead(message, InvalidCredentialsText);
      assert InvalidCredentialsText[0] == 'I';
      BadCredentialsIsArabic();
    } else if Includes(message, AlreadyRegisteredText) {
      IncludesLead(message, AlreadyRegisteredText);
      assert AlreadyRegisteredText[0] == 'U';
      AlreadyRegisteredIsArabic();
    }
  }

  /** The Arabic text for bad credentials holds no Latin `I`, so it cannot contain the English message. */
  lemma BadCredentialsIsArabic()
    ensures 'I' !in BadCredentials
  {
  }

  /** The Arabic text for a taken address holds no Latin `U`, so it cannot contain the English message. */
  lemma AlreadyRegisteredIsArabic()
    ensures 'U' !in AlreadyRegistered
  {
  }

  /** The form's state, the notifications shown, the provider calls made and the navigation target. */
  class AuthPage {
    var isSignUp: bool
    var email: string
    var password: string
    var loading: bool
    var showPassword: bool
    var toasts: seq<Toast>
    var calls: seq<ProviderCall>
    var location: Option<string>

    constructor ()
      ensures !isSignUp && email == "" && password == "" && !loading && !showPassword
      ensures toasts == [] && calls == [] && location == None
    {
      isSignUp, email, password, loading, showPassword := false, "", "", false, false;
      toasts, calls, location := [], [], None;
    }

    /** The e-mail field's `onChange`. */
    method SetEmail(value: string)
      modifies this
      ensures email == value
      ensures isSignUp == old(isSignUp) && password == old(password) && loading == old(loading)
      ensures showPassword == old(showPassword)
      ensures toasts == old(toasts) && calls == old(calls) && location == old(location)
    {
      email := value;
    }

    /** The password field's `onChange`. */
    method SetPassword(value: string)
      modifies this
      ensures password == value
      ensures isSignUp == old(isSignUp) && email == old(email) && loading == old(loading)
      ensures showPassword == old(showPassword)
      ensures toasts == old(toasts) && calls == old(calls) && location == old(location)
    {
      password := value;
    }

    /** The eye button: shows or hides the password. */
    method ToggleShowPassword()
      modifies this
      ensures showPassword == !old(showPassword)
      ensures isSignUp == old(isSignUp) && email == old(email) && password == old(password)
      ensures loading == old(loading) && toasts == old(toasts) && calls == old(calls)
      ensures location == old(location)
    {
      showPassword := !showPassword;
    }

    /** The link under the form: flips between sign-in and sign-up. */
    method ToggleMode()
      modifies this
      ensures isSignUp == !old(isSignUp)
      ensures email == old(email) && password == old(password) && loading == old(loading)
      ensures showPassword == old(showPassword)
      ensures toasts == old(toasts) && calls == old(calls) && location == old(location)
    {
      isSignUp := !isSignUp;
    }

    /** The effect on the current user: a signed-in user is sent to the home page. */
    method OnUserChange(signedIn: bool)
      modifies this
      ensures location == if signedIn then Some("/") else old(location)
      ensures isSignUp == old(isSignUp) && loading == old(loading) && toasts == old(toasts) && calls == old(calls)
      ensures email == old(email) && password == old(password) && showPassword == old(showPassword)
    {
      if signedIn {
        location := Some("/");
      }
    }

    /**
     * `handleSubmit` up to the awaited call. With an empty field: one validation notification, no
     * call, `loading` untouched. Otherwise `loading` is set and the call the mode asks for is made.
     */
    method BeginSubmit() returns (pending: Option<ProviderCall>)
      modifies this
      ensures isSignUp == old(isSignUp) && email == old(email) && password == old(password)
      ensures location == old(location) && showPassword == old(showPassword)
      ensures (email == "" || password == "") ==>
        && pending == None
        && toasts == old(toasts) + [Toast(FillAllFields, true)]
        && calls == old(calls) && loading == old(loading)
      ensures email != "" && password != "" ==>
        && pending == Some(if isSignUp then SignUpCall(email, password) else SignInCall(email, password))
        && calls == old(calls) + [pending.value]
        && toasts == old(toasts) && loading
    {
      if email == "" || password == "" {
        toasts := toasts + [Toast(FillAllFields, true)];
        return None;
      }
      loading := true;
      var call := if isSignUp then SignUpCall(email, password) else SignInCall(email, password);
      calls := calls + [call];
      pending := Some(call);
    }

    /**
     * `handleSubmit` after the awaited `call` answered with `result`. The branch on the mode uses
     * the mode the submission started in, the kind of `call`. `loading` ends false whatever the outcome.
     */
    method FinishSubmit(call: ProviderCall, result: ProviderResult)
      modifies this
      ensures !loading
      ensures email == old(email) && password == old(password) && calls == old(calls)
      ensures showPassword == old(showPassword)
      ensures result.Rejected? ==>
        toasts == old(toasts) + [Toast(TryAgain, true)] && isSignUp == old(isSignUp) && location == old(location)
      ensures result.Resolved? && result.error.Some? ==>
        && toasts == old(toasts) + [Toast(ErrorDescription(result.error.value), true)]
        && isSignUp == old(isSignUp) && location == old(location)
      ensures result == Resolved(None) && call.SignUpCall? ==>
        toasts == old(toasts) + [Toast(SignUpSucceeded, false)] && !isSignUp && location == old(location)
      ensures result == Resolved(None) && call.SignInCall? ==>
        toasts == old(toasts) && isSignUp == old(isSignUp) && location == Some("/")
    {
      match result {
        case Rejected =>
          toasts := toasts + [Toast(TryAgain, true)];
        case Resolved(error) =>
          if error.Some? {
            toasts := toasts + [Toast(ErrorDescription(error.value), true)];
          } else if call.SignUpCall? {
            toasts := toasts + [Toast(SignUpSucceeded, false)];
            isSignUp := false;
          } else {
            location := Some("/");
          }
      }
      loading := false;
    }

    /**
     * The whole `handleSubmit`, with the provider's answer given: an empty field stops it with the
     * validation notification; otherwise one call is made, `loading` ends false and the answer
     * decides the notification, the mode and the navigation.
     */
    method HandleSubmit(result: ProviderResult)
      modifies this
      ensures email == old(email) && password == old(password) && showPassword == old(showPassword)
      ensures (old(email) == "" || old(password) == "") ==>
        && toasts == old(toasts) + [Toast(FillAllFields, true)]
        && calls == old(calls) && loading == old(loading) && isSignUp == old(isSignUp)
        && location == old(location)
      ensures old(email) != "" && old(password) != "" ==>
        && !loading
        && calls == old(calls) + [if old(isSignUp) then SignUpCall(email, password) else SignInCall(email, password)]
      ensures old(email) != "" && old(password) != "" && result.Rejected? ==>
        && toasts == old(toasts) + [Toast(TryAgain, true)]
        && isSignUp == old(isSignUp) && location == old(location)
      ensures old(email) != "" && old(password) != "" && result.Resolved? && result.error.Some? ==>
        && toasts == old(toasts) + [Toast(ErrorDescription(result.error.value), true)]
        && isSignUp == old(isSignUp) && location == old(location)
      ensures old(email) != "" && old(password) != "" && result == Resolved(None) && old(isSignUp) ==>
        && toasts == old(toasts) + [Toast(SignUpSucceeded, false)]
        && !isSignUp && location == old(location)
      ensures old(email) != "" && old(password) != "" && result == Resolved(None) && !old(isSignUp) ==>
        && toasts == old(toasts) && !isSignUp && location == Some("/")
    {
      var pending := BeginSubmit();
      if pending.Some? {
        FinishSubmit(pending.value, result);
      }
    }
  }
}
