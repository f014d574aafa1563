/** The sign-up slice: the form record, its synchronous reducer cases, the
    settled cases of the two asynchronous thunks, and the browser token store
    that a successful thunk writes. */
module SignupSlice {
  import opened Wrappers

  /** The slice's state record. */
  datatype FormState = FormState(
    name: string,
    email: string,
    password: string,
    rememberMe: bool,
    feedbackMessage: string)

  /** The user-entered part of the form; it is also the body posted on registration. */
  datatype UserData = UserData(name: string, email: string, password: string, rememberMe: bool)

  /** The part of a server failure body that this code reads: an optional `message`. */
  datatype ErrorBody = ErrorBody(message: Option<string>)

  /** The part of a server success body that this code reads: its `token`. */
  datatype AuthData = AuthData(token: string)

  /** The argument the view hands to the Google thunk: the object `{ code }`. */
  datatype GoogleArg = GoogleArg(code: string)

  /** The body a thunk posts to the server. */
  datatype Request = PostRegister(user: UserData) | PostGoogleLogin(token: GoogleArg)

  /** What the server call settles to: the success body, or the failure's
      response body (None when there was no response or its body was falsy). */
  type Reply = Result<AuthData, Option<ErrorBody>>

  const InitialState := FormState("", "", "", false, "")
  const BlankEntries := UserData("", "", "", false)

  const RegisterSucceeded := "Registration successful!"
  const RegisterFailed := "Registration failed!"
  const GoogleSucceeded := "Google login successful!"
  const GoogleFailed := "Google login failed!"

  /** The local-storage key the thunks write. */
  const TokenKey := "token"

  function Entries(s: FormState): UserData {
    UserData(s.name, s.email, s.password, s.rememberMe)
  }

  /** Every action the slice's reducer handles: seven synchronous ones and the
      fulfilled/rejected cases of the two thunks. */
  datatype Action =
    | SetName(newName: string)
    | SetEmail(newEmail: string)
    | SetPassword(newPassword: string)
    | SetRememberMe(newRememberMe: bool)
    | ResetForm
    | SetFeedbackMessage(newMessage: string)
    | ClearFeedbackMessage
    | RegisterUserFulfilled
    | RegisterUserRejected(payload: Option<ErrorBody>)
    | GoogleLoginFulfilled
    | GoogleLoginRejected(payload: Option<ErrorBody>)

  /** `payload?.message || fallback`: an absent payload, an absent message and
      an empty message all give the fallback. */
  function MessageOr(payload: Option<ErrorBody>, fallback: string): (m: string)
    ensures m == fallback || (payload.Some? && payload.value.message == Some(m) && m != "")
    ensures payload.Some? && payload.value.message.Some? && payload.value.message.value != ""
            ==> m == payload.value.message.value
    ensures fallback != "" ==> m != ""
  {
    match payload
    case Some(ErrorBody(Some(msg))) => if msg != "" then msg else fallback
    case _ => fallback
  }

  /** `error.response?.data || { message: fallback }`: the value a failing thunk
      rejects with. The server body goes through untouched, and the reducer's
      own fallback then shows the same message as if it had read the raw reply. */
  function RejectionPayload(response: Option<ErrorBody>, fallback: string): (b: ErrorBody)
    ensures response.Some? ==> b == response.value
    ensures response.None? ==> b == ErrorBody(Some(fallback))
    ensures MessageOr(Some(b), fallback) == MessageOr(response, fallback)
  {
    match response
    case Some(body) => body
    case None => ErrorBody(Some(fallback))
  }

  /** The actions that write one of the user-entered fields. */
  predicate WritesEntries(a: Action) {
    a.SetName? || a.SetEmail? || a.SetPassword? || a.SetRememberMe? || a.ResetForm? || a.RegisterUserFulfilled?
  }

  /** The feedback message an action writes, if it writes one. */
  function FeedbackWritten(a: Action): Option<string> {
    match a
    case SetFeedbackMessage(m) => Some(m)
    case ClearFeedbackMessage => Some("")
    case RegisterUserFulfilled => Some(RegisterSucceeded)
    case RegisterUserRejected(p) => Some(MessageOr(p, RegisterFailed))
    case GoogleLoginFulfilled => Some(GoogleSucceeded)
    case GoogleLoginRejected(p) => Some(MessageOr(p, GoogleFailed))
    case _ => None
  }

  /** The slice's reducer: the new state after one action. */
  function Reduce(s: FormState, a: Action): (r: FormState)
    ensures !WritesEntries(a) ==> Entries(r) == Entries(s)
    ensures a.ResetForm? || a.RegisterUserFulfilled? ==> Entries(r) == BlankEntries
    ensures r.feedbackMessage == match FeedbackWritten(a) case Some(m) => m case None => s.feedbackMessage
  {
    match a
    case SetName(v) => s.(name := v)
    case SetEmail(v) => s.(email := v)
    case SetPassword(v) => s.(password := v)
    case SetRememberMe(v) => s.(rememberMe := v)
    case ResetForm => s.(name := "", email := "", password := "", rememberMe := false)
    case SetFeedbackMessage(v) => s.(feedbackMessage := v)
    case ClearFeedbackMessage => s.(feedbackMessage := "")
    case RegisterUserFulfilled =>
      s.(feedbackMessage := RegisterSucceeded, name := "", email := "", password := "", rememberMe := false)
    case RegisterUserRejected(p) => s.(feedbackMessage := MessageOr(p, RegisterFailed))
    case GoogleLoginFulfilled => s.(feedbackMessage := GoogleSucceeded)
    case GoogleLoginRejected(p) => s.(feedbackMessage := MessageOr(p, GoogleFailed))
  }

  /** The action the store receives when the registration thunk settles. */
  function RegisterSettled(outcome: Result<AuthData, ErrorBody>): Action {
    match outcome
    case Success(_) => RegisterUserFulfilled
    case Failure(e) => RegisterUserRejected(Some(e))
  }

  /** The action the store receives when the Google thunk settles. */
  function GoogleSettled(outcome: Result<AuthData, ErrorBody>): Action {
    match outcome
    case Success(_) => GoogleLoginFulfilled
    case Failure(e) => GoogleLoginRejected(Some(e))
  }

  /** The state after dispatching a sequence of actions in order. */
  function Run(s: FormState, trace: seq<Action>): FormState
    decreases |trace|
  {
    if trace == [] then s else Run(Reduce(s, trace[0]), trace[1..])
  }

  /** The last feedback message written in `trace`, read from its end, or
      `current` when no action in it writes one. */
  function LastFeedback(current: string, trace: seq<Action>): string
    decreases |trace|
  {
    if trace == [] then current
    else match FeedbackWritten(trace[|trace| - 1])
      case Some(m) => m
      case None => LastFeedback(current, trace[..|trace| - 1])
  }

  lemma {:induction false} RunSnoc(s: FormState, trace: seq<Action>, a: Action)
    ensures Run(s, trace + [a]) == Reduce(Run(s, trace), a)
    decreases |trace|
  {
    if trace == [] {
      assert [] + [a] == [a];
    } else {
      assert (trace + [a])[1..] == trace[1..] + [a];
      RunSnoc(Reduce(s, trace[0]), trace[1..], a);
    }
  }

  /** The feedback message shows the outcome of the last operation that wrote
      one; every other action leaves it alone. */
  lemma {:induction false} FeedbackIsLastWrite(s: FormState, trace: seq<Action>)
    ensures Run(s, trace).feedbackMessage == LastFeedback(s.feedbackMessage, trace)
    decreases |trace|
  {
    if trace != [] {
      var init, last := trace[..|trace| - 1], trace[|trace| - 1];
      assert trace == init + [last];
      RunSnoc(s, init, last);
      FeedbackIsLastWrite(s, init);
    }
  }

  /** A failed operation, a feedback change or any other action that does not
      write a user-entered field leaves those fields as the user typed them,
      however many of them run. */
  lemma {:induction false} FailuresKeepEntries(s: FormState, trace: seq<Action>)
    requires forall i :: 0 <= i < |trace| ==> !WritesEntries(trace[i])
    ensures Entries(Run(s, trace)) == Entries(s)
    decreases |trace|
  {
    if trace != [] {
      assert !WritesEntries(trace[0]);
      FailuresKeepEntries(Reduce(s, trace[0]), trace[1..]);
    }
  }

  /** Resetting an already reset form changes nothing. */
  lemma ResetFormIdempotent(s: FormState)
    ensures Reduce(Reduce(s, ResetForm), ResetForm) == Reduce(s, ResetForm)
  {
  }

  /** The fulfilled registration case does inline what `resetForm` followed by
      setting the success message does. */
  lemma RegisterFulfilledIsResetThenFeedback(s: FormState)
    ensures Reduce(s, RegisterUserFulfilled)
         == Reduce(Reduce(s, ResetForm), SetFeedbackMessage(RegisterSucceeded))
  {
  }

  /** A registration the server refuses with `{message: "Email taken"}` shows
      that message and keeps what the user typed. */
  lemma RegisterRejectedShowsServerMessage(s: FormState)
    ensures Reduce(s, RegisterSettled(Failure(RejectionPayload(Some(ErrorBody(Some("Email taken"))), RegisterFailed))))
         == s.(feedbackMessage := "Email taken")
  {
  }

  /** The browser's local storage, as far as this code uses it. */
  class LocalStorage {
    var items: map<string, string>

    constructor ()
      ensures items == map[]
    {
      items := map[];
    }

    method SetItem(key: string, value: string)
      modifies this
      ensures items == old(items)[key := value]
    {
      items := items[key := value];
    }
  }

  /** The registration thunk: posts the user data and, on success, stores the
      returned token; on failure it rejects with the normalised error body. */
  method RegisterUser(userData: UserData, reply: Reply, storage: LocalStorage)
    returns (sent: Request, outcome: Result<AuthData, ErrorBody>)
    modifies storage
    ensures sent == PostRegister(userData)
    ensures reply.Success? ==> (outcome == Success(reply.value)
                              && storage.items == old(storage.items)[TokenKey := reply.value.token])
    ensures reply.Failure? ==> (outcome == Failure(RejectionPayload(reply.error, RegisterFailed))
                              && storage.items == old(storage.items))
  {
    sent := PostRegister(userData);
    match reply
    case Success(data) =>
      storage.SetItem(TokenKey, data.token);
      outcome := Success(data);
    case Failure(response) =>
      outcome := Failure(RejectionPayload(response, RegisterFailed));
  }

  /** The Google thunk: posts `{ token: arg }` and, on success, stores the
      returned token; on failure it rejects with the normalised error body. */
  method GoogleLogin(arg: GoogleArg, reply: Reply, storage: LocalStorage)
    returns (sent: Request, outcome: Result<AuthData, ErrorBody>)
    modifies storage
    ensures sent == PostGoogleLogin(arg)
    ensures reply.Success? ==> (outcome == Success(reply.value)
                              && storage.items == old(storage.items)[TokenKey := reply.value.token])
    ensures reply.Failure? ==> (outcome == Failure(RejectionPayload(reply.error, GoogleFailed))
                              && storage.items == old(storage.items))
  {
    sent := PostGoogleLogin(arg);
    match reply
    case Success(data) =>
      storage.SetItem(TokenKey, data.token);
      outcome := Success(data);
    case Failure(response) =>
      outcome := Failure(RejectionPayload(response, GoogleFailed));
  }

  /** The slice's state, updated in place by one method per reducer case. */
  class SignupStore {
    var name: string
    var email: string
    var password: string
    var rememberMe: bool
    var feedbackMessage: string

    function Form(): FormState
      reads this
    {
      FormState(name, email, password, rememberMe, feedbackMessage)
    }

    constructor ()
      ensures Form() == InitialState
      ensures name == "" && email == "" && password == "" && !rememberMe && feedbackMessage == ""
    {
      name, email, password := "", "", "";
      rememberMe := false;
      feedbackMessage := "";
    }

    method SetName(v: string)
      modifies this
      ensures Form() == old(Form()).(name := v)
      ensures Form() == Reduce(old(Form()), Action.SetName(v))
    {
      name := v;
    }

    method SetEmail(v: string)
      modifies this
      ensures Form() == old(Form()).(email := v)
      ensures Form() == Reduce(old(Form()), Action.SetEmail(v))
    {
      email := v;
    }

    method SetPassword(v: string)
      modifies this
      ensures Form() == old(Form()).(password := v)
      ensures Form() == Reduce(old(Form()), Action.SetPassword(v))
    {
      password := v;
    }

    method SetRememberMe(v: bool)
      modifies this
      ensures Form() == old(Form()).(rememberMe := v)
      ensures Form() == Reduce(old(Form()), Action.SetRememberMe(v))
    {
      rememberMe := v;
    }

    method ResetForm()
      modifies this
      ensures Entries(Form()) == BlankEntries && feedbackMessage == old(feedbackMessage)
      ensures Form() == Reduce(old(Form()), Action.ResetForm)
    {
      name := "";
      email := "";
      password := "";
      rememberMe := false;
    }

    method SetFeedbackMessage(v: string)
      modifies this
      ensures Form() == old(Form()).(feedbackMessage := v)
      ensures Form() == Reduce(old(Form()), Action.SetFeedbackMessage(v))
    {
      feedbackMessage := v;
    }

    method ClearFeedbackMessage()
      modifies this
      ensures Form() == old(Form()).(feedbackMessage := "")
      ensures Form() == Reduce(old(Form()), Action.ClearFeedbackMessage)
    {
      feedbackMessage := "";
    }

    method RegisterUserFulfilled()
      modifies this
      ensures Entries(Form()) == BlankEntries && feedbackMessage == RegisterSucceeded
      ensures Form() == Reduce(old(Form()), Action.RegisterUserFulfilled)
    {
      feedbackMessage := RegisterSucceeded;
      name := "";
      email := "";
      password := "";
      rememberMe := false;
    }

    method RegisterUserRejected(payload: Option<ErrorBody>)
      modifies this
      ensures Form() == old(Form()).(feedbackMessage := MessageOr(payload, RegisterFailed))
      ensures Form() == Reduce(old(Form()), Action.RegisterUserRejected(payload))
    {
      feedbackMessage := MessageOr(payload, RegisterFailed);
    }

    method GoogleLoginFulfilled()
      modifies this
      ensures Form() == old(Form()).(feedbackMessage := GoogleSucceeded)
      ensures Form() == Reduce(old(Form()), Action.GoogleLoginFulfilled)
    {
      feedbackMessage := GoogleSucceeded;
    }

    method GoogleLoginRejected(payload: Option<ErrorBody>)
      modifies this
      ensures Form() == old(Form()).(feedbackMessage := MessageOr(payload, GoogleFailed))
      ensures Form() == Reduce(old(Form()), Action.GoogleLoginRejected(payload))
    {
      feedbackMessage := MessageOr(payload, GoogleFailed);
    }

    /** The slice's reducer applied to this store: routes an action to its case. */
    method Dispatch(a: Action)
      modifies this
      ensures Form() == Reduce(old(Form()), a)
    {
      match a
      case SetName(v) => SetName(v);
      case SetEmail(v) => SetEmail(v);
      case SetPassword(v) => SetPassword(v);
      case SetRememberMe(v) => SetRememberMe(v);
      case ResetForm => ResetForm();
      case SetFeedbackMessage(v) => SetFeedbackMessage(v);
      case ClearFeedbackMessage => ClearFeedbackMessage();
      case RegisterUserFulfilled => RegisterUserFulfilled();
      case RegisterUserRejected(p) => RegisterUserRejected(p);
      case GoogleLoginFulfilled => GoogleLoginFulfilled();
      case GoogleLoginRejected(p) => GoogleLoginRejected(p);
    }

    /** Dispatching the registration thunk: the server call, the token write,
        then the settled case of the reducer. */
    method DispatchRegisterUser(userData: UserData, reply: Reply, storage: LocalStorage)
      returns (sent: Request, outcome: Result<AuthData, ErrorBody>)
      modifies this, storage
      ensures sent == PostRegister(userData)
      ensures reply.Success? ==> (outcome == Success(reply.value)
                                && storage.items == old(storage.items)[TokenKey := reply.value.token])
      ensures reply.Failure? ==> (outcome == Failure(RejectionPayload(reply.error, RegisterFailed))
                                && storage.items == old(storage.items))
      ensures Form() == Reduce(old(Form()), RegisterSettled(outcome))
    {
      sent, outcome := RegisterUser(userData, reply, storage);
      Dispatch(RegisterSettled(outcome));
    }

    /** Dispatching the Google thunk: the server call, the token write, then
        the settled case of the reducer. */
    method DispatchGoogleLogin(arg: GoogleArg, reply: Reply, storage: LocalStorage)
      returns (sent: Request, outcome: Result<AuthData, ErrorBody>)
      modifies this, storage
      ensures sent == PostGoogleLogin(arg)
      ensures reply.Success? ==> (outcome == Success(reply.value)
                                && storage.items == old(storage.items)[TokenKey := reply.value.token])
      ensures reply.Failure? ==> (outcome == Failure(RejectionPayload(reply.error, GoogleFailed))
                                && storage.items == old(storage.items))
      ensures Form() == Reduce(old(Form()), GoogleSettled(outcome))
    {
      sent, outcome := GoogleLogin(arg, reply, storage);
      Dispatch(GoogleSettled(outcome));
    }
  }
}
