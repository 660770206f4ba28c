/**
 * The e-mail sign-up page: a three-step controller (address, emailed code,
 * password) over a handful of React state fields.
 *
 * The values the page derives from its state (`currentStep`, the password
 * match, the `disabled` expressions of its three buttons, the two message
 * banners) are functions of those fields.  The state itself is the class
 * `SignUp`; its methods are the input `onChange` handlers, the
 * `onSuccess`/`onError` callbacks of the three requests, and one atomic
 * round trip per button: the click, guarded by the button's `disabled`
 * expression, followed by the settled request and its callback.
 */
module SignUpPage {
  import opened Wrappers
  import opened Validators
  import opened Requests

  /* ---------------------------------------------------------------------- */
  /* Values derived from the state                                           */
  /* ---------------------------------------------------------------------- */

  /** `currentStep` (line 40): 1 while no code was sent, whatever the
      verified flag says; 2 once sent and not yet verified; 3 once verified. */
  function CurrentStep(isEmailSent: bool, isEmailVerified: bool): (step: int)
    ensures 1 <= step <= 3
    ensures step == 1 <==> !isEmailSent
    ensures step == 2 <==> isEmailSent && !isEmailVerified
    ensures step == 3 <==> isEmailSent && isEmailVerified
  {
    if !isEmailSent then 1 else if isEmailSent && !isEmailVerified then 2 else 3
  }

  /** `isPasswordMatch` (line 36): strict string equality. */
  predicate PasswordsMatch(password: string, confirmPassword: string) {
    password == confirmPassword
  }

  /** `disabled` of the send button (line 202). */
  predicate SendDisabled(email: string, sendPending: bool) {
    !IsValidEmail(email) || sendPending
  }

  /** `disabled` of the validate button (line 241). */
  predicate ValidateDisabled(token: string, validatePending: bool, isEmailSent: bool) {
    token == "" || validatePending || !isEmailSent
  }

  /** `disabled` of the register button (line 324). */
  predicate RegisterDisabled(isEmailVerified: bool, password: string, confirmPassword: string,
                             registerPending: bool)
  {
    !isEmailVerified || !IsValidPassword(password) || !PasswordsMatch(password, confirmPassword)
      || registerPending
  }

  /** The error banner (lines 215 and 336) shows a non-empty error text. */
  predicate ShowsError(errorMessage: string) {
    errorMessage != ""
  }

  /** The notice banner (line 337) shows a non-empty message that does not
      start with "Error". */
  predicate ShowsNotice(message: string) {
    message != "" && !(|message| >= 5 && message[..5] == "Error")
  }

  /** A code can be requested exactly when the address is in the language of
      the e-mail pattern and no request is in flight. */
  lemma SendEnabledIffPatternEmail(email: string, sendPending: bool)
    ensures !SendDisabled(email, sendPending) <==> MatchesEmailPattern(email) && !sendPending
  {
    IsValidEmailIffPattern(email);
  }

  /** A code can be checked exactly when one was typed, none is being
      checked, and the page is past step 1. */
  lemma ValidateEnabledIffPastStepOne(token: string, validatePending: bool,
                                      isEmailSent: bool, isEmailVerified: bool)
    ensures !ValidateDisabled(token, validatePending, isEmailSent)
        <==> token != "" && !validatePending && CurrentStep(isEmailSent, isEmailVerified) != 1
  {
  }

  /** While the step flags are consistent, registering is possible exactly at
      step 3, with a password in the language of the password pattern that
      equals its confirmation, and no registration in flight. */
  lemma RegisterEnabledIffStepThree(isEmailSent: bool, isEmailVerified: bool, password: string,
                                    confirmPassword: string, registerPending: bool)
    requires isEmailVerified ==> isEmailSent
    ensures !RegisterDisabled(isEmailVerified, password, confirmPassword, registerPending)
        <==> && CurrentStep(isEmailSent, isEmailVerified) == 3
             && MatchesPasswordPattern(password)
             && password == confirmPassword
             && !registerPending
  {
    IsValidPasswordIffPattern(password);
  }

  /** A failure's "Error: ..." message never shows in the notice banner. */
  lemma FailureNoticeHidden(error: string)
    ensures !ShowsNotice("Error: " + error)
  {
  }

  /* ---------------------------------------------------------------------- */
  /* The page's state                                                        */
  /* ---------------------------------------------------------------------- */

  class SignUp {
    var email: string
    var token: string
    var password: string
    var confirmPassword: string
    var message: string
    var errorMessage: string
    var isEmailSent: bool
    var isEmailVerified: bool
    /** `isPending` of the three requests. */
    var sendPending: bool
    var validatePending: bool
    var registerPending: bool

    /** The step flags never claim a verified address for which no code was sent. */
    predicate Valid()
      reads this
    {
      isEmailVerified ==> isEmailSent
    }

    function Step(): int
      reads this
    {
      CurrentStep(isEmailSent, isEmailVerified)
    }

    predicate CanSend()
      reads this
    {
      !SendDisabled(email, sendPending)
    }

    predicate CanValidate()
      reads this
    {
      !ValidateDisabled(token, validatePending, isEmailSent)
    }

    predicate CanRegister()
      reads this
    {
      !RegisterDisabled(isEmailVerified, password, confirmPassword, registerPending)
    }

    /** Every field starts empty or false (lines 15-28). */
    constructor ()
      ensures email == "" && token == "" && password == "" && confirmPassword == ""
      ensures message == "" && errorMessage == ""
      ensures !isEmailSent && !isEmailVerified
      ensures !sendPending && !validatePending && !registerPending
      ensures Valid() && Step() == 1
    {
      email, token, password, confirmPassword := "", "", "", "";
      message, errorMessage := "", "";
      isEmailSent, isEmailVerified := false, false;
      sendPending, validatePending, registerPending := false, false, false;
    }

    /* -------------------------------------------------------------------- */
    /* Input handlers                                                         */
    /* -------------------------------------------------------------------- */

    /** Editing the address (lines 191-195) takes the page back to step 1;
        token, passwords and messages are kept. */
    method ChangeEmail(value: string)
      modifies this`email, this`isEmailSent, this`isEmailVerified
      ensures email == value && !isEmailSent && !isEmailVerified
      ensures Valid() && Step() == 1
    {
      email := value;
      isEmailSent := false;
      isEmailVerified := false;
    }

    /** The code input (line 234) sits in a fieldset disabled until a code
        was sent (line 225). */
    method ChangeToken(value: string) returns (accepted: bool)
      modifies this`token
      ensures accepted == isEmailSent
      ensures token == if accepted then value else old(token)
    {
      accepted := isEmailSent;
      if accepted {
        token := value;
      }
    }

    /** The password input (line 271) sits in a fieldset disabled until the
        address is verified (line 261). */
    method ChangePassword(value: string) returns (accepted: bool)
      modifies this`password
      ensures accepted == isEmailVerified
      ensures password == if accepted then value else old(password)
    {
      accepted := isEmailVerified;
      if accepted {
        password := value;
      }
    }

    /** The confirmation input (line 293), in the same fieldset. */
    method ChangeConfirmPassword(value: string) returns (accepted: bool)
      modifies this`confirmPassword
      ensures accepted == isEmailVerified
      ensures confirmPassword == if accepted then value else old(confirmPassword)
    {
      accepted := isEmailVerified;
      if accepted {
        confirmPassword := value;
      }
    }

    /* -------------------------------------------------------------------- */
    /* Request callbacks                                                      */
    /* -------------------------------------------------------------------- */

    /** `sendVerification.onSuccess` (lines 56-61): step 2, a notice, no error. */
    method OnSendSuccess(data: Option<string>)
      modifies this`message, this`errorMessage, this`isEmailSent, this`isEmailVerified
      ensures message == OrElse(data, VerifyEmailNotice) && errorMessage == ""
      ensures isEmailSent && !isEmailVerified
      ensures Valid() && Step() == 2 && !ShowsError(errorMessage)
    {
      message := OrElse(data, VerifyEmailNotice);
      errorMessage := "";
      isEmailSent := true;
      isEmailVerified := false;
    }

    /** `sendVerification.onError` (lines 62-67): back to step 1 with the error. */
    method OnSendError(error: string)
      modifies this`message, this`errorMessage, this`isEmailSent, this`isEmailVerified
      ensures message == "Error: " + error && errorMessage == error
      ensures !isEmailSent && !isEmailVerified
      ensures Valid() && Step() == 1
      ensures !ShowsNotice(message) && (ShowsError(errorMessage) <==> error != "")
    {
      message := "Error: " + error;
      errorMessage := error;
      isEmailSent := false;
      isEmailVerified := false;
      FailureNoticeHidden(error);
    }

    /** `validateCode.onSuccess` (lines 84-88): the address is verified; the
        sent flag is left as it was, so the flags stay consistent exactly
        when a code had been sent. */
    method OnValidateSuccess(data: Option<string>)
      modifies this`message, this`errorMessage, this`isEmailVerified
      ensures message == OrElse(data, ValidateCodeNotice) && errorMessage == ""
      ensures isEmailVerified
      ensures Valid() <==> isEmailSent
      ensures isEmailSent ==> Step() == 3
    {
      message := OrElse(data, ValidateCodeNotice);
      errorMessage := "";
      isEmailVerified := true;
    }

    /** `validateCode.onError` (lines 89-93): not verified; the sent flag is
        left as it was, so the page stays at step 2 rather than going back. */
    method OnValidateError(error: string)
      modifies this`message, this`errorMessage, this`isEmailVerified
      ensures message == "Error: " + error && errorMessage == error
      ensures !isEmailVerified
      ensures Valid() && Step() == if isEmailSent then 2 else 1
      ensures !ShowsNotice(message) && (ShowsError(errorMessage) <==> error != "")
    {
      message := "Error: " + error;
      errorMessage := error;
      isEmailVerified := false;
      FailureNoticeHidden(error);
    }

    /** `registerUser.onSuccess` (lines 111-113): a notice, no error. */
    method OnRegisterSuccess(data: Option<string>)
      modifies this`message, this`errorMessage
      ensures message == OrElse(data, RegisterNotice) && errorMessage == ""
      ensures Valid() == old(Valid())
    {
      message := OrElse(data, RegisterNotice);
      errorMessage := "";
    }

    /** `registerUser.onError` (lines 117-120): only the two messages change. */
    method OnRegisterError(error: string)
      modifies this`message, this`errorMessage
      ensures message == "Error: " + error && errorMessage == error
      ensures Valid() == old(Valid())
      ensures !ShowsNotice(message) && (ShowsError(errorMessage) <==> error != "")
    {
      message := "Error: " + error;
      errorMessage := error;
      FailureNoticeHidden(error);
    }

    /* -------------------------------------------------------------------- */
    /* Button clicks, each with its request as one atomic event               */
    /* -------------------------------------------------------------------- */

    /** The send button (lines 199-202): nothing happens while it is
        disabled; otherwise the request to /api/auth/verify-email settles and
        its callback runs.  A resend from step 3 returns the page to step 2. */
    method SendVerification(exchange: Exchange) returns (fired: bool)
      requires Valid()
      modifies this`message, this`errorMessage, this`isEmailSent, this`isEmailVerified, this`sendPending
      ensures Valid() && sendPending == old(sendPending)
      ensures fired == old(CanSend())
      ensures fired ==> MatchesEmailPattern(email)
      ensures !fired ==> unchanged(this)
      ensures fired && VerifyEmailReply(exchange).Ok? ==>
        && Step() == 2
        && message == OrElse(VerifyEmailReply(exchange).value, VerifyEmailNotice) && errorMessage == ""
      ensures fired && VerifyEmailReply(exchange).Err? ==>
        && Step() == 1
        && message == "Error: " + VerifyEmailReply(exchange).error
        && errorMessage == VerifyEmailReply(exchange).error
    {
      fired := CanSend();
      if fired {
        assert !sendPending;
        SendEnabledIffPatternEmail(email, sendPending);
        sendPending := true;
        match VerifyEmailReply(exchange) {
          case Ok(data) => OnSendSuccess(data);
          case Err(error) => OnSendError(error);
        }
        sendPending := false;
      }
    }

    /** The validate button (lines 238-241): enabled only past step 1 with a
        code typed; a failure keeps the page at step 2. */
    method ValidateCode(exchange: Exchange) returns (fired: bool)
      requires Valid()
      modifies this`message, this`errorMessage, this`isEmailVerified, this`validatePending
      ensures Valid() && validatePending == old(validatePending)
      ensures fired == old(CanValidate())
      ensures fired ==> old(Step()) != 1 && isEmailSent
      ensures !fired ==> unchanged(this)
      ensures fired && ValidateCodeReply(exchange).Ok? ==>
        && Step() == 3
        && message == OrElse(ValidateCodeReply(exchange).value, ValidateCodeNotice)
        && errorMessage == ""
      ensures fired && ValidateCodeReply(exchange).Err? ==>
        && Step() == 2
        && message == "Error: " + ValidateCodeReply(exchange).error
        && errorMessage == ValidateCodeReply(exchange).error
    {
      fired := CanValidate();
      if fired {
        assert !validatePending;
        validatePending := true;
        match ValidateCodeReply(exchange) {
          case Ok(data) => OnValidateSuccess(data);
          case Err(error) => OnValidateError(error);
        }
        validatePending := false;
      }
    }

    /** The register button (lines 322-325): it fires only at step 3 with an
        acceptable, confirmed password; its outcome changes only the two
        messages. */
    method RegisterUser(exchange: Exchange) returns (fired: bool)
      requires Valid()
      modifies this`message, this`errorMessage, this`registerPending
      ensures Valid() && registerPending == old(registerPending)
      ensures fired == old(CanRegister())
      ensures fired ==> Step() == 3 && MatchesPasswordPattern(password) && password == confirmPassword
      ensures !fired ==> unchanged(this)
      ensures fired && RegisterReply(exchange).Ok? ==>
        message == OrElse(RegisterReply(exchange).value, RegisterNotice) && errorMessage == ""
      ensures fired && RegisterReply(exchange).Err? ==>
        message == "Error: " + RegisterReply(exchange).error && errorMessage == RegisterReply(exchange).error
    {
      fired := CanRegister();
      if fired {
        assert !registerPending;
        RegisterEnabledIffStepThree(isEmailSent, isEmailVerified, password, confirmPassword,
                                    registerPending);
        registerPending := true;
        match RegisterReply(exchange) {
          case Ok(data) => OnRegisterSuccess(data);
          case Err(error) => OnRegisterError(error);
        }
        registerPending := false;
      }
    }
  }

  /* ---------------------------------------------------------------------- */
  /* A complete sign-up                                                      */
  /* ---------------------------------------------------------------------- */

  /** The address used in the walkthrough passes the e-mail test. */
  lemma SampleAddressValid()
    ensures IsValidEmail("a@b.com")
  {
    PatternIsValidEmail("a", "b", "com");
    assert Address("a", "b", "com") == "a@b.com";
  }

  /** The password used in the walkthrough passes the password test. */
  lemma SamplePasswordValid()
    ensures IsValidPassword("abcdef")
  {
  }

  /** A visitor requests a code for "a@b.com", types a wrong code, then the
      right one, first mistypes the confirmation ("abc123" against "abc124")
      and then registers with "abcdef".  The page walks through steps 1, 2,
      2, 3; the mismatched confirmation keeps the register button disabled. */
  method Walkthrough() returns (steps: seq<int>, mismatchFired: bool, registered: bool)
    ensures steps == [1, 2, 2, 3]
    ensures !mismatchFired && registered
  {
    var page := new SignUp();
    steps := [page.Step()];
    RequestCode(page);
    steps := steps + [page.Step()];
    var afterWrongCode := CheckCodes(page);
    steps := steps + [afterWrongCode, page.Step()];
    mismatchFired, registered := FinishRegistration(page);
  }

  /** The address step of the walkthrough: "a@b.com" is accepted and a code
      is sent. */
  method RequestCode(page: SignUp)
    requires page.Valid() && !page.sendPending
    modifies page
    ensures page.Valid() && page.Step() == 2
    ensures page.validatePending == old(page.validatePending)
    ensures page.registerPending == old(page.registerPending)
  {
    page.ChangeEmail("a@b.com");
    SampleAddressValid();
    var fired := page.SendVerification(Replied(Response(true, None)));
  }

  /** The code step of the walkthrough: a refused code keeps the page at
      step 2 with the fallback error; an accepted one moves it to step 3. */
  method CheckCodes(page: SignUp) returns (afterWrongCode: int)
    requires page.Valid() && page.Step() == 2 && !page.validatePending
    modifies page
    ensures afterWrongCode == 2
    ensures page.Valid() && page.Step() == 3
    ensures page.registerPending == old(page.registerPending)
  {
    var accepted := page.ChangeToken("000000");
    var fired := page.ValidateCode(Replied(Response(false, None)));
    assert page.errorMessage == ValidateCodeFailure;
    afterWrongCode := page.Step();
    accepted := page.ChangeToken("123456");
    fired := page.ValidateCode(Replied(Response(true, Some("Email verified"))));
  }

  /** The password step of the walkthrough: "abc123" confirmed as "abc124"
      cannot be registered; "abcdef" confirmed as "abcdef" can. */
  method FinishRegistration(page: SignUp) returns (mismatchFired: bool, registered: bool)
    requires page.Valid() && page.Step() == 3 && !page.registerPending
    modifies page
    ensures !mismatchFired && registered
  {
    var accepted := page.ChangePassword("abc123");
    accepted := page.ChangeConfirmPassword("abc124");
    assert !page.CanRegister();
    mismatchFired := page.RegisterUser(Replied(Response(true, None)));

    accepted := page.ChangePassword("abcdef");
    accepted := page.ChangeConfirmPassword("abcdef");
    SamplePasswordValid();
    assert page.CanRegister();
    registered := page.RegisterUser(Replied(Response(true, None)));
  }
}
