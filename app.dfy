/** The sign-up view's logic: the two password classifiers, the submit gate,
    the password-change handler and the Google callback. Each handler updates
    the component's own state and records what it dispatches to the store. */
module App {
  import opened Wrappers
  import opened SignupSlice

  datatype Strength = Weak | Moderate | Strong

  /** JavaScript's `length` of a string: the number of UTF-16 code units, one
      for a character of the Basic Multilingual Plane and two (a surrogate
      pair) for any other. */
  function Utf16Length(s: string): nat
    decreases |s|
  {
    if s == [] then 0 else (if s[0] as int < 0x1_0000 then 1 else 2) + Utf16Length(s[1..])
  }

  /** The code-unit length lies between the character count and twice it, and
      equals it when every character is in the Basic Multilingual Plane. */
  lemma {:induction false} Utf16LengthBounds(s: string)
    ensures |s| <= Utf16Length(s) <= 2 * |s|
    ensures (forall i :: 0 <= i < |s| ==> s[i] as int < 0x1_0000) ==> Utf16Length(s) == |s|
    decreases |s|
  {
    if s != [] {
      Utf16LengthBounds(s[1..]);
      assert forall i :: 0 <= i < |s[1..]| ==> s[1..][i] == s[i + 1];
    }
  }

  /** Strength by length alone, the length being JavaScript's code-unit count. */
  function EvaluatePasswordStrength(password: string): (r: Strength)
    ensures r == Weak <==> Utf16Length(password) < 6
    ensures r == Moderate <==> 6 <= Utf16Length(password) < 12
    ensures r == Strong <==> 12 <= Utf16Length(password)
  {
    var length := Utf16Length(password);
    if length < 6 then Weak
    else if length >= 6 && length < 12 then Moderate
    else Strong
  }

  /** The order of the classes, weakest first. */
  function Rank(s: Strength): nat {
    match s
    case Weak => 0
    case Moderate => 1
    case Strong => 2
  }

  /** A longer password never gets a lower class. */
  lemma StrengthMonotone(p: string, q: string)
    requires Utf16Length(p) <= Utf16Length(q)
    ensures Rank(EvaluatePasswordStrength(p)) <= Rank(EvaluatePasswordStrength(q))
  {
  }

  const CommonPasswords: seq<string> := ["123456", "password", "123456789", "12345678", "12345"]

  /** True unless the password is one of the common passwords. */
  function CheckPasswordUniqueness(password: string): (r: bool)
    ensures !r <==> password == "123456" || password == "password" || password == "123456789"
                    || password == "12345678" || password == "12345"
    ensures !r ==> 5 <= |password| <= 9
  {
    !(password in CommonPasswords)
  }

  /** The submit gate: a Weak or common password is refused. */
  function SubmitBlocked(password: string): (blocked: bool)
    ensures blocked <==> Utf16Length(password) < 6 || password in CommonPasswords
  {
    EvaluatePasswordStrength(password) == Weak || !CheckPasswordUniqueness(password)
  }

  /** "password" is Moderate and still refused: the uniqueness check is not
      subsumed by the strength check. */
  lemma PasswordIsModerateButBlocked()
    ensures EvaluatePasswordStrength("password") == Moderate
    ensures !CheckPasswordUniqueness("password")
    ensures SubmitBlocked("password")
    ensures SubmitBlocked("abc")
  {
  }

  /** Three characters outside the Basic Multilingual Plane are six code
      units long: Moderate, and not refused at submission. */
  lemma AstralPasswordIsModerate()
    ensures EvaluatePasswordStrength("\U{1F600}\U{1F600}\U{1F600}") == Moderate
    ensures !SubmitBlocked("\U{1F600}\U{1F600}\U{1F600}")
  {
  }

  const PasswordErrorMessage := "Please choose a stronger and unique password."
  const EmptyCodeMessage := "Google login failed: Empty authorization code received."

  /** What the view hands to the store's dispatch. */
  datatype Dispatched =
    | Plain(action: Action)
    | RegisterUserCall(userData: UserData)
    | GoogleLoginCall(arg: GoogleArg)

  /** The action the view dispatches once the registration thunk has settled:
      `resetForm` on success, otherwise the rejection's message or the default. */
  function RegisterFollowUp(outcome: Result<AuthData, ErrorBody>): Action {
    match outcome
    case Success(_) => ResetForm
    case Failure(e) => SetFeedbackMessage(MessageOr(Some(e), RegisterFailed))
  }

  /** The action the view dispatches once the Google thunk has settled. */
  function GoogleFollowUp(outcome: Result<AuthData, ErrorBody>): Action {
    match outcome
    case Success(_) => SetFeedbackMessage(GoogleSucceeded)
    case Failure(e) => SetFeedbackMessage(MessageOr(Some(e), GoogleFailed))
  }

  /** The view's follow-up after registration settles changes nothing the
      settled reducer case has not already done. */
  lemma RegisterFollowUpIsNoop(s: FormState, outcome: Result<AuthData, ErrorBody>)
    ensures Reduce(Reduce(s, RegisterSettled(outcome)), RegisterFollowUp(outcome))
         == Reduce(s, RegisterSettled(outcome))
  {
  }

  /** The same for the Google login. */
  lemma GoogleFollowUpIsNoop(s: FormState, outcome: Result<AuthData, ErrorBody>)
    ensures Reduce(Reduce(s, GoogleSettled(outcome)), GoogleFollowUp(outcome))
         == Reduce(s, GoogleSettled(outcome))
  {
  }

  /** The component: its local state and the log of what it has dispatched. */
  class SignupView {
    /** None while the strength has never been shown (the empty string). */
    var passwordStrength: Option<Strength>
    var passwordError: string
    var dispatched: seq<Dispatched>

    constructor ()
      ensures passwordStrength == None && passwordError == "" && dispatched == []
    {
      passwordStrength := None;
      passwordError := "";
      dispatched := [];
    }

    /** Submitting the form, with `form` the store's current state. */
    method HandleSubmit(form: FormState)
      modifies this
      ensures passwordStrength == old(passwordStrength)
      ensures SubmitBlocked(form.password) ==>
                passwordError == PasswordErrorMessage && dispatched == old(dispatched)
      ensures !SubmitBlocked(form.password) ==>
                passwordError == old(passwordError)
                && dispatched == old(dispatched) + [RegisterUserCall(Entries(form))]
    {
      var strength := EvaluatePasswordStrength(form.password);
      var isUnique := CheckPasswordUniqueness(form.password);
      if strength == Weak || !isUnique {
        passwordError := PasswordErrorMessage;
        return;
      }
      dispatched := dispatched + [RegisterUserCall(UserData(form.name, form.email, form.password, form.rememberMe))];
    }

    /** The registration thunk has settled with `outcome`. */
    method OnRegisterSettled(outcome: Result<AuthData, ErrorBody>)
      modifies this
      ensures passwordStrength == old(passwordStrength) && passwordError == old(passwordError)
      ensures outcome.Success? ==> dispatched == old(dispatched) + [Plain(ResetForm)]
      ensures outcome.Failure? ==>
                dispatched == old(dispatched) + [Plain(SetFeedbackMessage(MessageOr(Some(outcome.error), RegisterFailed)))]
      ensures dispatched == old(dispatched) + [Plain(RegisterFollowUp(outcome))]
    {
      dispatched := dispatched + [Plain(RegisterFollowUp(outcome))];
    }

    /** The user typed a new password. */
    method HandlePasswordChange(newPassword: string)
      modifies this
      ensures dispatched == old(dispatched) + [Plain(SetPassword(newPassword))]
      ensures passwordStrength == Some(EvaluatePasswordStrength(newPassword))
      ensures passwordError == ""
    {
      dispatched := dispatched + [Plain(SetPassword(newPassword))];
      var strength := EvaluatePasswordStrength(newPassword);
      passwordStrength := Some(strength);
      passwordError := "";
    }

    /** The OAuth popup succeeded with an authorization code, possibly absent
        or empty. */
    method OnGoogleSuccess(code: Option<string>)
      modifies this
      ensures passwordStrength == old(passwordStrength) && passwordError == old(passwordError)
      ensures code == None || code == Some("") ==>
                dispatched == old(dispatched) + [Plain(SetFeedbackMessage(EmptyCodeMessage))]
      ensures code.Some? && code.value != "" ==>
                dispatched == old(dispatched) + [GoogleLoginCall(GoogleArg(code.value))]
    {
      if code.None? || code.value == "" {
        dispatched := dispatched + [Plain(SetFeedbackMessage(EmptyCodeMessage))];
        return;
      }
      dispatched := dispatched + [GoogleLoginCall(GoogleArg(code.value))];
    }

    /** The Google thunk has settled with `outcome`. */
    method OnGoogleSettled(outcome: Result<AuthData, ErrorBody>)
      modifies this
      ensures passwordStrength == old(passwordStrength) && passwordError == old(passwordError)
      ensures outcome.Success? ==> dispatched == old(dispatched) + [Plain(SetFeedbackMessage(GoogleSucceeded))]
      ensures outcome.Failure? ==>
                dispatched == old(dispatched) + [Plain(SetFeedbackMessage(MessageOr(Some(outcome.error), GoogleFailed)))]
      ensures dispatched == old(dispatched) + [Plain(GoogleFollowUp(outcome))]
    {
      dispatched := dispatched + [Plain(GoogleFollowUp(outcome))];
    }
  }
}
