# E-mail sign-up controller

A model of the three-step e-mail sign-up page of a tutor-marketplace web
application (`src/app/users/sign-up/page.tsx`).  A visitor types an address
and asks for a verification code (step 1), types the emailed code and has it
checked (step 2), then chooses and confirms a password and registers
(step 3).  The page keeps its state in React fields: the four inputs
(`email`, `token`, `password`, `confirmPassword`), a `message` and an
`errorMessage`, the two step flags `isEmailSent` and `isEmailVerified`, and
one in-flight flag per request.

The project has five modules:

- `Wrappers` (`wrappers.dfy`): `Option` and `Result`.
- `JsText` (`js_text.dfy`): JavaScript's `\s` class, its line terminators,
  ASCII letters, and the UTF-16 length of a string.
- `Validators` (`validators.dfy`): `isValidEmail` and `isValidPassword`.
  Each regular expression appears twice. The first form is the language the
  pattern denotes, as a ghost predicate that reads the pattern piece by
  piece. The second is an executable test on the characters. A lemma proves
  that the two agree on every string.
- `Requests` (`requests.dfy`): the three `mutationFn`s. Each takes a reply,
  or an error thrown before a reply could be read. It settles into what
  `onSuccess` or `onError` receives, including the fixed fallback texts.
- `SignUpPage` (`sign_up_page.dfy`): two parts.
  - Derived values, written as functions of the fields they read:
    `currentStep`, the password match, the three `disabled` guards and the
    two banners.
  - The class `SignUp`. Its methods are the input handlers, the six request
    callbacks, and one atomic round trip per button: the click, checked
    against the button's `disabled` guard, then the settled request and its
    callback.
  - A client method walks through a complete sign-up.

The class invariant `Valid()` is `isEmailVerified ==> isEmailSent`. Every
round trip preserves it. Each callback states whether it keeps the invariant.
`validateCode.onSuccess` keeps it exactly when a code had been sent, and the
validate button's guard ensures that.

Consequences of the code worth noting:

- After a code is verified, a resend does not keep the page at the password
  step. A successful send clears the verified flag, so the page goes back to
  step 2.
- The page has no "submitted" state. A successful registration sets the two
  messages and then navigates away.
- Editing the address always resets both step flags.

## Model

| member | source | states |
|---|---|---|
| `JsText.Utf16Length` | src/app/users/sign-up/page.tsx:34 | the code-unit length `.{6,}` counts lies between the number of characters and twice it, and equals it exactly when every character is in the Basic Multilingual Plane |
| `Validators.IsValidEmailIffPattern` | src/app/users/sign-up/page.tsx:31 | `isValidEmail(s)` holds iff `s` is in the language of `^[^\s@]+@[^\s@]+\.[^\s@]+$`. Equivalently: no whitespace; exactly one `@`, which is not the first character; and a `.` that is neither the first nor the last character of the part after the `@` |
| `Validators.IsValidPasswordIffPattern` | src/app/users/sign-up/page.tsx:34 | `isValidPassword(p)` holds iff `p` is in the language of `^(?=.*[A-Za-z]).{6,}$`, that is, at least six UTF-16 code units, no line terminator, and at least one ASCII letter |
| `Requests.OrElse` | src/app/users/sign-up/page.tsx:57 | JavaScript's `or` of the body's message and a fallback is the server's text when it is present and non-empty; otherwise it is the fallback. The result is either the fallback or the server's text, is the fallback when the message is absent or empty, and is never empty when the fallback is not |
| `Requests.Settle` | src/app/users/sign-up/page.tsx:50-54 | a reply settles as success iff its status is ok, and success passes the body's `message` through. A failure carries the server's text, or the fallback when that text is absent or empty. A thrown error passes through unchanged |
| `Requests.VerifyEmailReply` | src/app/users/sign-up/page.tsx:42-55 | the verify-email request succeeds iff the reply is ok, and success passes the body's `message` to `onSuccess`. A refusing reply gives the server's text, or "오류가 발생했습니다." when that text is absent or empty, so its error is never empty. A thrown error's text passes through unchanged |
| `Requests.ValidateCodeReply` | src/app/users/sign-up/page.tsx:70-83 | the validate-code request succeeds iff the reply is ok, and success passes the body's `message` to `onSuccess`. A refusing reply gives the server's text, or "Invalid or expired token." when that text is absent or empty, so its error is never empty. A thrown error's text passes through unchanged |
| `Requests.RegisterReply` | src/app/users/sign-up/page.tsx:96-110 | the register request succeeds iff the reply is ok, and success passes the body's `message` to `onSuccess`. A refusing reply gives the server's text, or "Registration failed" when that text is absent or empty, so its error is never empty. A thrown error's text passes through unchanged |
| `SignUpPage.CurrentStep` | src/app/users/sign-up/page.tsx:40 | the step is always 1, 2 or 3. It is 1 iff no code was sent, whatever the verified flag says. It is 2 iff a code was sent and not verified, and 3 iff sent and verified |
| `SignUpPage.SendEnabledIffPatternEmail` | src/app/users/sign-up/page.tsx:202 | the send button is enabled iff the address is in the e-mail pattern's language and no send is in flight |
| `SignUpPage.ValidateEnabledIffPastStepOne` | src/app/users/sign-up/page.tsx:241 | the validate button is enabled iff a code is typed, no validation is in flight, and the page is past step 1 |
| `SignUpPage.RegisterEnabledIffStepThree` | src/app/users/sign-up/page.tsx:324 | while verified implies sent, the register button is enabled iff the page is at step 3, the password is in the password pattern's language, it equals its confirmation, and no registration is in flight |
| `SignUpPage.FailureNoticeHidden` | src/app/users/sign-up/page.tsx:337 | an "Error: ..." message never shows in the notice banner |
| `SignUpPage.SignUp.constructor` | src/app/users/sign-up/page.tsx:15-28 | every field starts empty or false. The page starts at step 1 with consistent flags |
| `SignUpPage.SignUp.ChangeEmail` | src/app/users/sign-up/page.tsx:191-195 | editing the address clears both step flags and returns to step 1. Token, passwords and messages are untouched, as the frame shows |
| `SignUpPage.SignUp.ChangeToken` | src/app/users/sign-up/page.tsx:225-234 | the code input takes the new text iff a code was sent, because its fieldset is disabled otherwise |
| `SignUpPage.SignUp.ChangePassword` | src/app/users/sign-up/page.tsx:261-271 | the password input takes the new text iff the address is verified |
| `SignUpPage.SignUp.ChangeConfirmPassword` | src/app/users/sign-up/page.tsx:284-293 | the confirmation input takes the new text iff the address is verified, because it sits in the same fieldset |
| `SignUpPage.SignUp.OnSendSuccess` | src/app/users/sign-up/page.tsx:56-61 | sets sent and clears verified, which gives step 2. Sets the server's text or "Verification code sent to email." as the notice, clears the error, and keeps the invariant |
| `SignUpPage.SignUp.OnSendError` | src/app/users/sign-up/page.tsx:62-67 | clears both flags, which gives step 1. The message becomes "Error: " + text and the error becomes the text. No notice shows; the error banner shows iff the text is non-empty |
| `SignUpPage.SignUp.OnValidateSuccess` | src/app/users/sign-up/page.tsx:84-88 | sets verified, keeps the sent flag, and clears the error. The invariant holds afterwards exactly when a code had been sent, and the page is then at step 3 |
| `SignUpPage.SignUp.OnValidateError` | src/app/users/sign-up/page.tsx:89-93 | clears verified and keeps sent, so a refused code stays at step 2 with no return to step 1. Records the error |
| `SignUpPage.SignUp.OnRegisterSuccess` | src/app/users/sign-up/page.tsx:111-116 | sets the server's text or "Registration successful!" as the notice and clears the error. Nothing else changes |
| `SignUpPage.SignUp.OnRegisterError` | src/app/users/sign-up/page.tsx:117-120 | only the two message fields change. The error is recorded and no notice shows |
| `SignUpPage.SignUp.SendVerification` | src/app/users/sign-up/page.tsx:199-202 | fires iff the send guard holds, and then only for an address in the e-mail pattern's language. A click on the disabled button changes nothing. After a fired click the page is at step 2 on success or step 1 on failure, with the matching messages. The invariant is kept |
| `SignUpPage.SignUp.ValidateCode` | src/app/users/sign-up/page.tsx:238-241 | fires iff the validate guard holds, and then only past step 1. After a fired click the page is at step 3 on success or step 2 on failure. The invariant is kept |
| `SignUpPage.SignUp.RegisterUser` | src/app/users/sign-up/page.tsx:322-325 | fires iff the register guard holds, and then only at step 3 with a pattern-valid, confirmed password. Either outcome changes only the two messages. The invariant is kept |
| `SignUpPage.Walkthrough` | src/app/users/sign-up/page.tsx:36-121 | for "a@b.com", a refused code, an accepted code, then "abc123"/"abc124" followed by "abcdef"/"abcdef": the page goes through steps 1, 2, 2, 3. The mismatched confirmation cannot register and the matching one can |

## Left out

- JavaScript strings are sequences of UTF-16 code units; here a string is a sequence of Unicode scalar values. The regular-expression classes used give the same verdict on both views, and `Utf16Length` restores the code-unit count for `.{6,}`. A lone surrogate, which a JavaScript string can hold, cannot be represented.
- JavaScript's `\s` includes the Unicode category Zs, which can grow with Unicode versions. The model fixes it at its Unicode 15 members, listed in `JsText.IsWhitespace`.
- The body's `message` is modelled as an optional string. A non-string `message`, such as a number, is not modelled.
- React Query's asynchronous machinery is not modelled. Each request is one atomic event, so an in-flight flag is true only inside that event and the `isPending` conjunct of each guard is false between events. Out-of-order completion is not modelled either: for example, a validation reply that arrives after the address was edited would set verified while sent is false.
- `fetch`, JSON encoding and the three server endpoints are not modelled. Their code is not part of this model, so token expiry, single use and uniqueness cannot be stated. The network appears only as the `Exchange` a request produced.
- The `alert` and the navigation to `/users/sign-in` after a successful registration are I/O and are not modelled (lines 114-115). The alert text uses `data.message` without a fallback.
- Rendering is not modelled: the step indicator, the step hints, the password match text, the show/hide toggles for the passwords and the styling. These follow from the modelled state without adding rules.
- `src/types_db.ts`, the site header and footer, the sign-up choice page, the layout and the home page are not part of this model. They are markup, generated schema types and session look-ups in a library whose code is not available.
