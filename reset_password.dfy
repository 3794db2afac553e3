/**
 * The password-reset page: a schema with a length rule on the password and
 * a refinement that the confirmation matches, of which only the first
 * reported error is shown.
 */
module ResetPassword {
  import opened Common
  import opened Text
  import ProfilePassword

  /** The schema's issues, in the order they are reported. */
  datatype Issue = TooSmall | TooBig | ConfirmMismatch

  /** The field an issue is attached to. */
  function IssuePath(i: Issue): string {
    if i == ConfirmMismatch then "confirmPassword" else "password"
  }

  /**
   * `safeParse`: the length checks on `password` come first; neither aborts
   * the parse, so the refinement comparing the two fields still runs.
   */
  function Issues(password: string, confirm: string): (issues: seq<Issue>)
    ensures |issues| <= 2
    ensures TooSmall in issues <==> |password| < 6
    ensures TooBig in issues <==> |password| > 128
    ensures ConfirmMismatch in issues <==> password != confirm
    ensures issues == [] <==> 6 <= |password| <= 128 && password == confirm
  {
    (if |password| < 6 then [TooSmall] else if |password| > 128 then [TooBig] else [])
      + (if password != confirm then [ConfirmMismatch] else [])
  }

  function IssueMessage(i: Issue): string {
    match i
    case TooSmall => "Mật khẩu phải có ít nhất 6 ký tự"
    case TooBig => "Mật khẩu quá dài"
    case ConfirmMismatch => "Mật khẩu xác nhận không khớp"
  }

  /** The three messages are distinct, so the message shown tells the issue. */
  lemma IssueMessagesDistinct(i: Issue, j: Issue)
    requires i != j
    ensures IssueMessage(i) != IssueMessage(j)
  {
    assert IssueMessage(TooSmall)[4] != IssueMessage(TooBig)[4] || |IssueMessage(TooSmall)| != |IssueMessage(TooBig)|;
  }

  datatype Outcome = Rejected(issue: Issue) | Update(password: string)

  /** The error toast the page shows: the message of the first issue, if the schema failed. */
  function ShownError(password: string, confirm: string): (m: Option<string>)
    ensures m.None? <==> ResetOutcome(password, confirm).Update?
    ensures m.Some? ==> m.value == IssueMessage(ResetOutcome(password, confirm).issue)
  {
    var o := ResetOutcome(password, confirm);
    if o.Rejected? then Some(IssueMessage(o.issue)) else None
  }

  /**
   * The toast tells the user which rule failed: each message is shown
   * exactly when its rule is the first one broken.
   */
  lemma ShownErrorTellsCause(password: string, confirm: string)
    ensures ShownError(password, confirm) == Some(IssueMessage(TooSmall)) <==> |password| < 6
    ensures ShownError(password, confirm) == Some(IssueMessage(TooBig)) <==> |password| > 128
    ensures ShownError(password, confirm) == Some(IssueMessage(ConfirmMismatch))
            <==> 6 <= |password| <= 128 && password != confirm
  {
    IssueMessagesDistinct(TooSmall, TooBig);
    IssueMessagesDistinct(TooSmall, ConfirmMismatch);
    IssueMessagesDistinct(TooBig, ConfirmMismatch);
  }

  /** `handleResetPassword`: the first issue is shown and nothing is updated; otherwise the password is set. */
  function ResetOutcome(password: string, confirm: string): (o: Outcome)
    ensures o.Update? <==> 6 <= |password| <= 128 && password == confirm
    ensures o.Update? ==> o.password == password
    ensures o.Rejected? ==> o.issue == Issues(password, confirm)[0]
  {
    var issues := Issues(password, confirm);
    if issues == [] then Update(password) else Rejected(issues[0])
  }

  /** A length problem is reported before a mismatch. */
  lemma LengthReportedBeforeMismatch(password: string, confirm: string)
    requires |password| < 6 || |password| > 128
    ensures ResetOutcome(password, confirm) == Rejected(if |password| < 6 then TooSmall else TooBig)
  {
  }

  /** Every password the reset page accepts, the profile page accepts too. */
  lemma ResetAcceptsOnlyWhatProfileAccepts(password: string, confirm: string, current: string)
    requires ResetOutcome(password, confirm).Update?
    ensures ProfilePassword.ChangePassword(ProfilePassword.Passwords(current, password, confirm))
            == ProfilePassword.Update(password)
  {
  }

  /** The two pages report different errors for the same short, mismatched entry. */
  lemma ErrorOrderDiffers()
    ensures ProfilePassword.ChangePassword(ProfilePassword.Passwords("", "abc", "abd")) == ProfilePassword.Mismatch
    ensures ResetOutcome("abc", "abd") == Rejected(TooSmall)
  {
    assert "abc" != "abd" by { assert "abc"[2] != "abd"[2]; }
  }

  /** The profile page has no upper bound: a 129-character password passes there and is rejected here. */
  lemma ProfileHasNoUpperBound()
    ensures ProfilePassword.ChangePassword(ProfilePassword.Passwords("", Repeat('a', 129), Repeat('a', 129))).Update?
    ensures ResetOutcome(Repeat('a', 129), Repeat('a', 129)) == Rejected(TooBig)
  {
  }
}
