/**
 * The password-change form on the profile page: two checks in a fixed
 * order, then one update call.
 */
module ProfilePassword {

  /** The three password fields. */
  datatype Passwords = Passwords(current: string, newPassword: string, confirm: string)

  const EmptyPasswords := Passwords("", "", "")

  /** What `handleChangePassword` does with the fields. */
  datatype Outcome = Mismatch | TooShort | Update(password: string)

  /** The mismatch check first, then the length check; only then the update. */
  function ChangePassword(p: Passwords): (o: Outcome)
    ensures o == Mismatch <==> p.newPassword != p.confirm
    ensures o == TooShort <==> p.newPassword == p.confirm && |p.newPassword| < 6
    ensures o.Update? <==> p.newPassword == p.confirm && |p.newPassword| >= 6
    ensures o.Update? ==> o.password == p.newPassword
  {
    if p.newPassword != p.confirm then Mismatch
    else if |p.newPassword| < 6 then TooShort
    else Update(p.newPassword)
  }

  /** A short password that also differs from its confirmation is reported only as a mismatch. */
  lemma MismatchReportedFirst(p: Passwords)
    requires p.newPassword != p.confirm && |p.newPassword| < 6
    ensures ChangePassword(p) == Mismatch
  {
  }

  /** The fields after the attempt: a successful update clears all three; anything else keeps them. */
  function AfterChange(p: Passwords, updateOk: bool): (r: Passwords)
    ensures ChangePassword(p).Update? && updateOk ==> r == EmptyPasswords
    ensures !(ChangePassword(p).Update? && updateOk) ==> r == p
  {
    if ChangePassword(p).Update? && updateOk then EmptyPasswords else p
  }

  /** `disabled={loading || !passwords.new || !passwords.confirm}`. */
  predicate ButtonDisabled(loading: bool, p: Passwords) {
    loading || p.newPassword == "" || p.confirm == ""
  }

  /**
   * Through the enabled button the length check only meets a non-empty
   * password, and the current password never matters.
   */
  lemma EnabledButtonOutcome(p: Passwords, current: string)
    requires !ButtonDisabled(false, p)
    ensures p.newPassword != ""
    ensures ChangePassword(p) == ChangePassword(p.(current := current))
  {
  }
}
