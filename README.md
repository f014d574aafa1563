# Sign-up form: password gate and sign-up slice

This project models the logic of a single-page sign-up form. It has two parts:

- **The view** (`src/App.js`), in module `App` (`app.dfy`):
  - `EvaluatePasswordStrength` sorts a password into Weak, Moderate or Strong by length alone.
  - `CheckPasswordUniqueness` rejects five common passwords.
  - The submit handler refuses to register a password that is Weak or common.
  - The password-change handler stores the new password, shows its strength and clears the error.
  - The Google success callback stops locally when the authorization code is absent or empty.
  - The component is class `SignupView`. Its fields are its local state (`passwordStrength`, `passwordError`) and `dispatched`, the log of everything it hands to the store's dispatch.
- **The sign-up slice** (`src/features/signupSlice.js`), in module `SignupSlice` (`signup_slice.dfy`):
  - The slice is the record `{name, email, password, rememberMe, feedbackMessage}`. It has seven synchronous reducer cases and the fulfilled and rejected cases of two thunks, `registerUser` and `googleLogin`.
  - The pure function `Reduce` specifies the reducer.
  - Class `SignupStore` holds the record's fields. It has one method per reducer case, and each method's postcondition states the whole new state in terms of `Reduce`.
  - The thunks `RegisterUser` and `GoogleLogin` take the server's settled reply as a parameter. On success they write the returned token into `LocalStorage` under the key `"token"`. On failure they reject with the server body, or with `{message: <default>}` when there is none.

`wrappers.dfy` holds the `Option` and `Result` datatypes.

JavaScript's `x || y` falls back on any falsy `x`. So `payload?.message || default` is modelled by `MessageOr`, which returns the default when the payload is absent, when its message is absent, or when its message is empty. For the same reason, a code that is absent or `""` counts as empty in the Google callback.

JavaScript's `password.length` counts UTF-16 code units, not characters. `Utf16Length` models that count: one unit for a character of the Basic Multilingual Plane and two for any other. The strength classifier and the submit gate are stated over it.

The Google login request wraps the code twice. The view dispatches `googleLogin({ code })` (src/App.js:100), and the thunk posts `{ token }` with that argument as `token` (src/features/signupSlice.js:33-37). So the request body is `{ token: { code } }`. `GoogleArg(code)` models the inner object, and `PostGoogleLogin(GoogleArg(code))` is the request body.

## Model

| member | source | states |
|---|---|---|
| App.Utf16LengthBounds | src/App.js:54-56 | the code-unit length `password.length` lies between the character count and twice it, and equals the character count when every character is in the Basic Multilingual Plane |
| App.EvaluatePasswordStrength | src/App.js:53-58 | a password is Weak exactly when its UTF-16 length is below 6, Moderate exactly when it is in [6, 12), Strong exactly when it is at least 12; every string gets exactly one class |
| App.StrengthMonotone | src/App.js:53-58 | a password with more UTF-16 code units never gets a lower class |
| App.CheckPasswordUniqueness | src/App.js:60-69 | false exactly for "123456", "password", "123456789", "12345678" and "12345"; a refused password is 5 to 9 characters long |
| App.SubmitBlocked | src/App.js:36-42 | submission is refused exactly when the password's UTF-16 length is below 6 or it is on the common list |
| App.PasswordIsModerateButBlocked | src/App.js:36-41 | "password" is Moderate, is not unique and is refused; "abc" is refused |
| App.AstralPasswordIsModerate | src/App.js:53-58 | three U+1F600 characters are six code units long, so the password is Moderate and submission is not refused |
| App.SignupView.constructor | src/App.js:30-31 | the strength display starts unset, the error empty, nothing dispatched |
| App.SignupView.HandleSubmit | src/App.js:34-44 | a refused password sets the fixed error and dispatches nothing; otherwise registerUser is dispatched with exactly the form's name, email, password and rememberMe |
| App.SignupView.OnRegisterSettled | src/App.js:45-50 | after registration settles the view dispatches resetForm on success, otherwise setFeedbackMessage with the rejection's message or "Registration failed!" |
| App.RegisterFollowUpIsNoop | src/App.js:46-49 | the view's follow-up dispatch after registration settles leaves the state the reducer produced unchanged |
| App.SignupView.HandlePasswordChange | src/App.js:71-77 | dispatches setPassword with the new password, shows that password's strength and clears the error |
| App.SignupView.OnGoogleSuccess | src/App.js:81-100 | an absent or empty code dispatches only the empty-code feedback message and never googleLogin; a non-empty code dispatches googleLogin with `{ code }` |
| App.SignupView.OnGoogleSettled | src/App.js:100-108 | after the Google login settles the view dispatches the success message, or the rejection's message or "Google login failed!" |
| App.GoogleFollowUpIsNoop | src/App.js:102-107 | the view's follow-up dispatch after the Google login settles leaves the state the reducer produced unchanged |
| SignupSlice.SignupStore.constructor | src/features/signupSlice.js:4-10 | the initial state has empty name, email, password and feedback and rememberMe false |
| SignupSlice.SignupStore.SetName | src/features/signupSlice.js:54-56 | sets name to the payload and changes nothing else |
| SignupSlice.SignupStore.SetEmail | src/features/signupSlice.js:57-59 | sets email to the payload and changes nothing else |
| SignupSlice.SignupStore.SetPassword | src/features/signupSlice.js:60-62 | sets password to the payload and changes nothing else |
| SignupSlice.SignupStore.SetRememberMe | src/features/signupSlice.js:63-65 | sets rememberMe to the payload and changes nothing else |
| SignupSlice.SignupStore.ResetForm | src/features/signupSlice.js:66-71 | clears name, email, password and rememberMe and keeps the feedback message |
| SignupSlice.ResetFormIdempotent | src/features/signupSlice.js:66-71 | resetting twice is the same as resetting once |
| SignupSlice.SignupStore.SetFeedbackMessage | src/features/signupSlice.js:72-74 | sets the feedback message to the payload and changes nothing else |
| SignupSlice.SignupStore.ClearFeedbackMessage | src/features/signupSlice.js:75-77 | sets only the feedback message, to "" |
| SignupSlice.SignupStore.RegisterUserFulfilled | src/features/signupSlice.js:81-87 | clears the user-entered fields and shows "Registration successful!" |
| SignupSlice.RegisterFulfilledIsResetThenFeedback | src/features/signupSlice.js:81-87 | the fulfilled registration case equals resetForm followed by setting the success message |
| SignupSlice.SignupStore.RegisterUserRejected | src/features/signupSlice.js:88-91 | changes only the feedback message, to the payload's non-empty message or "Registration failed!" |
| SignupSlice.RegisterRejectedShowsServerMessage | src/features/signupSlice.js:88-91 | a rejection with server body `{message: "Email taken"}` shows "Email taken" and keeps every other field |
| SignupSlice.SignupStore.GoogleLoginFulfilled | src/features/signupSlice.js:92-94 | changes only the feedback message, to "Google login successful!" |
| SignupSlice.SignupStore.GoogleLoginRejected | src/features/signupSlice.js:95-98 | changes only the feedback message, to the payload's non-empty message or "Google login failed!" |
| SignupSlice.MessageOr | src/features/signupSlice.js:89-90 | the result is the default or the payload's own non-empty message; a present non-empty message always wins; with a non-empty default the result is never empty |
| SignupSlice.RejectionPayload | src/features/signupSlice.js:24-26 | a server body is passed through untouched; a missing one becomes `{message: fallback}`; the reducer shows the same message for the normalised payload as for the raw reply |
| SignupSlice.Reduce | src/features/signupSlice.js:50-100 | an action that writes no user-entered field keeps all four; resetForm and registration success blank them; the feedback message changes exactly when the action writes one, to the message that action writes |
| SignupSlice.SignupStore.Dispatch | src/features/signupSlice.js:111 | each action updates the store as `Reduce` says |
| SignupSlice.FeedbackIsLastWrite | src/features/signupSlice.js:72-98 | after any sequence of actions the feedback message is the one written by the last action that writes one, or the original when none does |
| SignupSlice.FailuresKeepEntries | src/features/signupSlice.js:88-98 | any sequence of actions that write no user-entered field, such as failed operations and feedback changes, leaves name, email, password and rememberMe as they were |
| SignupSlice.RunSnoc | src/features/signupSlice.js:50-53 | dispatching a sequence and then one more action is the same as reducing that action on the sequence's result |
| SignupSlice.LocalStorage.SetItem | src/features/signupSlice.js:20 | writes one key and keeps the others |
| SignupSlice.RegisterUser | src/features/signupSlice.js:12-29 | posts exactly the user data; on success stores the returned token under "token" and fulfils with the body; on failure stores nothing and rejects with the server body or `{message: "Registration failed!"}` |
| SignupSlice.GoogleLogin | src/features/signupSlice.js:31-48 | posts `{ token: arg }`; on success stores the returned token under "token"; on failure stores nothing and rejects with the server body or `{message: "Google login failed!"}` |
| SignupSlice.SignupStore.DispatchRegisterUser | src/features/signupSlice.js:81-91 | the registration thunk followed by its settled reducer case: the token write and the new state together |
| SignupSlice.SignupStore.DispatchGoogleLogin | src/features/signupSlice.js:92-98 | the Google thunk followed by its settled reducer case: the token write and the new state together |

## Left out

- Markup, CSS classes, images and web-font loading (src/App.js:13-23, 117-238) are presentation only.
- The inline `onChange` handlers for name, email and rememberMe live in the markup. They only dispatch `setName`, `setEmail` and `setRememberMe`, which are modelled.
- HTTP calls and the fixed `localhost:5000` URLs are network I/O. Each server reply is a `Reply` parameter: the success body, or the failure's response body when there is one.
- A success body without a `token` is not modelled. `AuthData` always carries a string token, although the browser would store the text "undefined".
- Only the `message` field of an error body is modelled. A response body that is not an object is treated as one without a message.
- `useGoogleLogin`, the OAuth popup and its `onError` callback are a third-party hook. The callback's code is an arbitrary optional string.
- Redux Toolkit plumbing is not modelled: pending actions, `.unwrap()` promise chaining, `useSelector` and `useDispatch`. A settled thunk is one transition. The view reads the store through a `FormState` snapshot, and its follow-up after a settled thunk is a separate method.
- Because each thunk catches every error, `.unwrap()` always rejects with the thunk's own payload. Rejections of any other shape are not modelled.
- `console.log`/`console.error` and the `isPasswordFocused` display toggle have no behaviour to verify.
