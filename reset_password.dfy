/**
 * The two-step form of screen/ResetPasswordScreen.tsx: a PIN step and a
 * password step, ordered checks that gate one reset request, and the toast
 * each handler leaves. The request's outcome is a parameter of the handler.
 */
module ResetPassword {
  import opened Wrappers
  import opened Toasts

  const PinStep := "pin"
  const PasswordStep := "password"

  const InvalidPin := "Please enter a valid 6-digit PIN"
  const FillAllFields := "Please fill in all fields"
  const PasswordsDoNotMatch := "Passwords do not match"
  const PasswordTooShort := "Password must be at least 8 characters"
  const ResetSucceeded := "Password reset successfully!"
  const ResetFailed := "Failed to reset password"

  /** The body of the reset mutation. */
  datatype ResetRequest = ResetRequest(token: string, password: string, confirmPassword: string)

  /**
   * How the mutation settles. A failure carries `error.response?.data?.message`
   * and `error?.message`, each absent or a string.
   */
  datatype RequestOutcome = Succeeded | Failed(responseMessage: Option<string>, errorMessage: Option<string>)

  /** `currentStep === "pin" ? <PIN form> : <password form>` */
  predicate ShowsPinForm(currentStep: string) {
    currentStep == PinStep
  }

  /**
   * `(step as "pin" | "password") || "pin"`: any non-empty route parameter is
   * taken as it is, the cast checking nothing. The screen opens on the PIN
   * form only for a missing or empty parameter or `"pin"`; any other text,
   * not only `"password"`, opens the password form.
   */
  function InitialStep(step: Option<string>): (s: string)
    ensures s != ""
    ensures ShowsPinForm(s) <==> !Truthy(step) || step.value == PinStep
    ensures Truthy(step) ==> s == step.value
    ensures !Truthy(step) ==> s == PinStep
  {
    if Truthy(step) then step.value else PinStep
  }

  /** `error.response?.data?.message || error?.message || "Failed to reset password"` */
  function FailureMessage(responseMessage: Option<string>, errorMessage: Option<string>): (m: string)
    ensures m != ""
    ensures Truthy(responseMessage) ==> m == responseMessage.value
    ensures !Truthy(responseMessage) && Truthy(errorMessage) ==> m == errorMessage.value
    ensures !Truthy(responseMessage) && !Truthy(errorMessage) ==> m == ResetFailed
  {
    if Truthy(responseMessage) then responseMessage.value
    else if Truthy(errorMessage) then errorMessage.value
    else ResetFailed
  }

  /** `!pin || pin.length !== 6`: only the length is checked, not that the PIN is digits. */
  predicate PinAccepted(pin: string) {
    |pin| == 6
  }

  /**
   * The checks of `handlePasswordSubmit` in their order: the first one that
   * fails gives the message. None means the request is sent.
   */
  function PasswordCheck(newPassword: string, confirmPassword: string): (error: Option<string>)
    ensures error == None <==> newPassword != "" && newPassword == confirmPassword && |newPassword| >= 8
    ensures error == Some(FillAllFields) <==> newPassword == "" || confirmPassword == ""
    ensures error == Some(PasswordsDoNotMatch) <==>
      newPassword != "" && confirmPassword != "" && newPassword != confirmPassword
    ensures error == Some(PasswordTooShort) <==>
      newPassword != "" && newPassword == confirmPassword && |newPassword| < 8
  {
    if newPassword == "" || confirmPassword == "" then Some(FillAllFields)
    else if newPassword != confirmPassword then Some(PasswordsDoNotMatch)
    else if |newPassword| < 8 then Some(PasswordTooShort)
    else None
  }

  /** `disabled={isLoading || pin.length !== 6}` */
  predicate ContinueDisabled(isLoading: bool, pin: string) {
    isLoading || |pin| != 6
  }

  /** `disabled={isLoading || !newPassword || !confirmPassword}` */
  predicate ResetDisabled(isLoading: bool, newPassword: string, confirmPassword: string) {
    isLoading || newPassword == "" || confirmPassword == ""
  }

  /**
   * When nothing is loading the Continue button is disabled exactly when
   * `handlePinSubmit` would refuse the PIN, and the Reset button exactly when
   * the first password check would fail; so an enabled Reset button can still
   * lead to the mismatch or length message.
   */
  lemma {:induction false} ButtonsMatchFirstChecks(pin: string, newPassword: string, confirmPassword: string)
    ensures ContinueDisabled(false, pin) <==> !PinAccepted(pin)
    ensures ResetDisabled(false, newPassword, confirmPassword) <==>
      PasswordCheck(newPassword, confirmPassword) == Some(FillAllFields)
  {
  }

  class ResetPasswordForm {
    var currentStep: string
    var pin: string
    var newPassword: string
    var confirmPassword: string
    var toast: Option<Toast>

    /** Mounting with the route's `step` parameter. */
    constructor(step: Option<string>)
      ensures currentStep == InitialStep(step)
      ensures pin == "" && newPassword == "" && confirmPassword == ""
      ensures toast == None
    {
      currentStep := InitialStep(step);
      pin := "";
      newPassword := "";
      confirmPassword := "";
      toast := None;
    }

    /** `onChangeText={setPin}` */
    method SetPin(value: string)
      modifies this
      ensures pin == value
      ensures currentStep == old(currentStep) && newPassword == old(newPassword)
      ensures confirmPassword == old(confirmPassword) && toast == old(toast)
    {
      pin := value;
    }

    /** `onChangeText={setNewPassword}` */
    method SetNewPassword(value: string)
      modifies this
      ensures newPassword == value
      ensures currentStep == old(currentStep) && pin == old(pin)
      ensures confirmPassword == old(confirmPassword) && toast == old(toast)
    {
      newPassword := value;
    }

    /** `onChangeText={setConfirmPassword}` */
    method SetConfirmPassword(value: string)
      modifies this
      ensures confirmPassword == value
      ensures currentStep == old(currentStep) && pin == old(pin)
      ensures newPassword == old(newPassword) && toast == old(toast)
    {
      confirmPassword := value;
    }

    /** `handlePinSubmit`: a PIN of six characters moves on; any other one leaves an error toast. */
    method HandlePinSubmit()
      modifies this
      ensures PinAccepted(pin) ==> currentStep == PasswordStep && toast == old(toast)
      ensures !PinAccepted(pin) ==> currentStep == old(currentStep) && toast == Some(Toast(InvalidPin, Error))
      ensures pin == old(pin) && newPassword == old(newPassword) && confirmPassword == old(confirmPassword)
    {
      if pin == "" || |pin| != 6 {
        toast := Some(Toast(InvalidPin, Error));
        return;
      }
      currentStep := PasswordStep;
    }

    /**
     * `handlePasswordSubmit`: the request is sent only when every check
     * passes, and carries the PIN as its token; the toast then reports how
     * the request settled. No field or step changes.
     */
    method HandlePasswordSubmit(outcome: RequestOutcome) returns (request: Option<ResetRequest>)
      modifies this
      ensures request.Some? <==> PasswordCheck(newPassword, confirmPassword) == None
      ensures request.Some? ==> request.value == ResetRequest(pin, newPassword, confirmPassword)
      ensures PasswordCheck(newPassword, confirmPassword).Some? ==>
        toast == Some(Toast(PasswordCheck(newPassword, confirmPassword).value, Error))
      ensures request.Some? && outcome.Succeeded? ==> toast == Some(Toast(ResetSucceeded, Success))
      ensures request.Some? && outcome.Failed? ==>
        toast == Some(Toast(FailureMessage(outcome.responseMessage, outcome.errorMessage), Error))
      ensures currentStep == old(currentStep) && pin == old(pin)
      ensures newPassword == old(newPassword) && confirmPassword == old(confirmPassword)
    {
      if newPassword == "" || confirmPassword == "" {
        toast := Some(Toast(FillAllFields, Error));
        return None;
      }
      if newPassword != confirmPassword {
        toast := Some(Toast(PasswordsDoNotMatch, Error));
        return None;
      }
      if |newPassword| < 8 {
        toast := Some(Toast(PasswordTooShort, Error));
        return None;
      }
      request := Some(ResetRequest(pin, newPassword, confirmPassword));
      match outcome
      case Succeeded =>
        toast := Some(Toast(ResetSucceeded, Success));
      case Failed(responseMessage, errorMessage) =>
        toast := Some(Toast(FailureMessage(responseMessage, errorMessage), Error));
    }

    /** "Back to PIN Entry": back to the PIN step, keeping the PIN and both passwords. */
    method BackToPinEntry()
      modifies this
      ensures currentStep == PinStep
      ensures pin == old(pin) && newPassword == old(newPassword)
      ensures confirmPassword == old(confirmPassword) && toast == old(toast)
    {
      currentStep := PinStep;
    }
  }
}
