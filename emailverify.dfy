/**
 * `EmailVerificationScreen`: the screen shown to a signed-in user whose email
 * is not confirmed, with a button that asks the identity provider to send the
 * confirmation mail again. The provider's answer is a parameter.
 */
module EmailVerification {
  import opened Wrappers
  import opened Auth

  /** The address named on the screen and sent to the provider: the user's email, or a fallback text. */
  function UserEmail(user: Option<User>): (e: string)
    ensures user.Some? && user.value.email != "" ==> e == user.value.email
    ensures user.None? || user.value.email == "" ==> e == "your email address"
    ensures e != ""
  {
    if user.Some? && user.value.email != "" then user.value.email else "your email address"
  }

  /** `resendStatus`: null until a resend settles, then 'success' or 'error'. */
  datatype ResendStatus = Success | Error

  /** What the status line shows. */
  datatype StatusLine = NoLine | SentLine | ErrorLine

  /** The screen's two pieces of state. */
  class VerificationScreen {
    var resending: bool
    var resendStatus: Option<ResendStatus>

    constructor ()
      ensures !resending && resendStatus.None?
    {
      resending := false;
      resendStatus := None;
    }

    /** The resend button is disabled exactly while a resend is outstanding. */
    predicate ButtonDisabled()
      reads this
    {
      resending
    }

    /** The success line shows only after a resend succeeded, the error line only after one failed. */
    function Line(): (l: StatusLine)
      reads this
      ensures l == SentLine <==> resendStatus == Some(Success)
      ensures l == ErrorLine <==> resendStatus == Some(Error)
      ensures l == NoLine <==> resendStatus.None?
    {
      match resendStatus
      case None => NoLine
      case Some(Success) => SentLine
      case Some(Error) => ErrorLine
    }

    /** The first half of `handleResend`: a resend is outstanding and the old status is cleared. */
    method BeginResend(user: Option<User>) returns (sentTo: string)
      requires !ButtonDisabled()
      modifies this
      ensures resending && resendStatus.None?
      ensures sentTo == UserEmail(user)
    {
      resending := true;
      resendStatus := None;
      sentTo := UserEmail(user);
    }

    /** The provider answered: the status records the outcome and the resend is no longer outstanding. */
    method SettleResend(succeeded: bool)
      modifies this
      ensures !resending
      ensures resendStatus == Some(if succeeded then Success else Error)
    {
      if succeeded {
        resendStatus := Some(Success);
      } else {
        resendStatus := Some(Error);
      }
      resending := false;
    }

    /** `handleResend` as one step: the request goes to the shown address and its outcome becomes the status. */
    method HandleResend(user: Option<User>, resend: string -> bool) returns (sentTo: string)
      requires !ButtonDisabled()
      modifies this
      ensures sentTo == UserEmail(user)
      ensures !resending
      ensures resendStatus == Some(if resend(sentTo) then Success else Error)
    {
      sentTo := BeginResend(user);
      SettleResend(resend(sentTo));
    }
  }

  /** While the provider has not answered the button is disabled and no status shows; afterwards it is enabled again. */
  method ButtonLockedWhileSending(user: Option<User>, succeeded: bool)
    returns (lockedDuring: bool, lineDuring: StatusLine, lockedAfter: bool, lineAfter: StatusLine)
    ensures lockedDuring && lineDuring == NoLine
    ensures !lockedAfter && lineAfter == (if succeeded then SentLine else ErrorLine)
  {
    var screen := new VerificationScreen();
    var _ := screen.HandleResend(user, (e: string) => !succeeded);
    var _ := screen.BeginResend(user);
    lockedDuring := screen.ButtonDisabled();
    lineDuring := screen.Line();
    screen.SettleResend(succeeded);
    lockedAfter := screen.ButtonDisabled();
    lineAfter := screen.Line();
  }
}
