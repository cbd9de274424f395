/**
 * The profile page: how it displays the stored Aadhaar number, and its change-password
 * form (field edits, the submit handler's checks, the show/hide toggles and cancel). The
 * `updatePassword` call of the authentication context is a parameter: the result it
 * resolves to for a current and a new password.
 */
module ProfilePage {
  import opened Wrappers
  import opened Js
  import opened Ui

  // ---------------------------------------------------------------------------
  // The Aadhaar number as displayed

  /** Twelve decimal digits (`\d` matches `0`-`9` only) start at `i`. */
  predicate RunAt(s: string, i: nat)
  {
    i + 12 <= |s| && AllDigits(s[i..i + 12])
  }

  /** Where an unanchored search for twelve digits, starting at `k`, first succeeds. */
  function FirstRun(s: string, k: nat): (r: Option<nat>)
    decreases |s| - k
    ensures r.Some? ==> k <= r.value && RunAt(s, r.value)
    ensures r.Some? ==> forall j :: k <= j < r.value ==> !RunAt(s, j)
    ensures r.None? ==> forall j :: k <= j ==> !RunAt(s, j)
  {
    if k + 12 > |s| then None
    else if RunAt(s, k) then Some(k)
    else FirstRun(s, k + 1)
  }

  /**
   * `s.replace(/(\d{4})(\d{4})(\d{4})/, '$1 $2 $3')`: the first twelve-digit run gets a
   * space after its fourth and eighth digit; the rest of the string is kept as it is.
   */
  function FormatAadhaar(s: string): string
  {
    match FirstRun(s, 0)
    case None => s
    case Some(i) => s[..i] + s[i..i + 4] + " " + s[i + 4..i + 8] + " " + s[i + 8..]
  }

  /** `user?.aadharCardNumber?.toString().replace(...)`: nothing is shown for a missing number. */
  function DisplayAadhaar(aadharCardNumber: Option<int>): Option<string>
  {
    match aadharCardNumber
    case None => None
    case Some(n) => Some(FormatAadhaar(NumberToString(n)))
  }

  function Grouped(s: string): string
    requires |s| == 12
  {
    s[..4] + " " + s[4..8] + " " + s[8..]
  }

  /** Twelve digits are shown as three groups of four. */
  lemma FormatTwelveDigits(s: string)
    requires |s| == 12 && AllDigits(s)
    ensures FormatAadhaar(s) == Grouped(s)
  {
    assert s[0..12] == s;
    assert RunAt(s, 0);
  }

  /**
   * Only the leftmost run is rewritten: the output is the input with one space inserted
   * after the run's fourth digit and one after its eighth, and everything else, later
   * digit runs included, is copied unchanged.
   */
  lemma FormatLeftmostRun(s: string, i: nat)
    requires RunAt(s, i) && forall j :: 0 <= j < i ==> !RunAt(s, j)
    ensures var out := FormatAadhaar(s);
      && |out| == |s| + 2
      && out[i + 4] == ' ' && out[i + 9] == ' '
      && out[..i + 4] == s[..i + 4]
      && out[i + 5..i + 9] == s[i + 4..i + 8]
      && out[i + 10..] == s[i + 8..]
  {
    var r := FirstRun(s, 0);
    assert r.Some? && r.value == i;
  }

  /** A string is left unchanged exactly when it holds no run of twelve digits. */
  lemma FormatUnchangedIffNoRun(s: string)
    ensures FormatAadhaar(s) == s <==> forall i :: !RunAt(s, i)
  {
    var r := FirstRun(s, 0);
    if r.Some? {
      FormatLeftmostRun(s, r.value);
    }
  }

  /**
   * The twelve digits typed at signup (no leading zero) come back on the profile as three
   * groups of four: `parseInt` on the way in, `toString` and the rewrite on the way out.
   */
  lemma SignupDigitsDisplayed(s: string)
    requires |s| == 12 && AllDigits(s) && s[0] != '0'
    ensures DisplayAadhaar(ParseInt(s)) == Some(Grouped(s))
  {
    ParseIntOfDigits(s);
    DigitsOfValue(s);
    FormatTwelveDigits(s);
  }

  // ---------------------------------------------------------------------------
  // The change-password form

  datatype PasswordData = PasswordData(currentPassword: string, newPassword: string, confirmPassword: string)

  const EmptyPasswords := PasswordData("", "", "")

  /** The three password inputs; each also names its show/hide flag. */
  datatype PasswordField = Current | New | Confirm

  function PasswordValue(p: PasswordData, field: PasswordField): string
  {
    match field
    case Current => p.currentPassword
    case New => p.newPassword
    case Confirm => p.confirmPassword
  }

  function WithPassword(p: PasswordData, field: PasswordField, value: string): (r: PasswordData)
    ensures PasswordValue(r, field) == value
    ensures forall other :: other != field ==> PasswordValue(r, other) == PasswordValue(p, other)
  {
    match field
    case Current => p.(currentPassword := value)
    case New => p.(newPassword := value)
    case Confirm => p.(confirmPassword := value)
  }

  /** `showPasswords`: whether each input shows its text. */
  datatype Visibility = Visibility(showCurrent: bool, showNew: bool, showConfirm: bool)

  function Shown(v: Visibility, field: PasswordField): bool
  {
    match field
    case Current => v.showCurrent
    case New => v.showNew
    case Confirm => v.showConfirm
  }

  /** `{ ...showPasswords, [field]: !showPasswords[field] }`. */
  function Toggled(v: Visibility, field: PasswordField): (r: Visibility)
    ensures Shown(r, field) == !Shown(v, field)
    ensures forall other :: other != field ==> Shown(r, other) == Shown(v, other)
  {
    match field
    case Current => v.(showCurrent := !v.showCurrent)
    case New => v.(showNew := !v.showNew)
    case Confirm => v.(showConfirm := !v.showConfirm)
  }

  /** Toggling the same flag twice restores the visibility. */
  lemma ToggleTwice(v: Visibility, field: PasswordField)
    ensures Toggled(Toggled(v, field), field) == v
  {
  }

  const NewPasswordsDiffer := "New passwords do not match"
  const NewPasswordTooShort := "New password must be at least 6 characters long"

  /**
   * The submit handler's checks, in order; the current password is not checked by the
   * page, only by the server.
   */
  function PasswordFormError(p: PasswordData): (r: Option<string>)
    ensures r == Some(NewPasswordsDiffer) <==> p.newPassword != p.confirmPassword
    ensures r == Some(NewPasswordTooShort) <==> p.newPassword == p.confirmPassword && |p.newPassword| < 6
    ensures r.None? <==> p.newPassword == p.confirmPassword && |p.newPassword| >= 6
  {
    if p.newPassword != p.confirmPassword then Some(NewPasswordsDiffer)
    else if |p.newPassword| < 6 then Some(NewPasswordTooShort)
    else None
  }

  /** A new password the page accepts is never the empty one the server's required rule refuses. */
  lemma AcceptedNewPasswordNonEmpty(p: PasswordData)
    requires PasswordFormError(p).None?
    ensures p.newPassword != ""
  {
  }

  /** What the authentication context's `updatePassword` resolves to. */
  datatype UpdateResult = UpdateResult(success: bool, error: string)

  class ProfileView {
    var showPasswordForm: bool
    var passwordData: PasswordData
    var showPasswords: Visibility
    var loading: bool
    var message: Message

    constructor()
      ensures !showPasswordForm && passwordData == EmptyPasswords
      ensures showPasswords == Visibility(false, false, false) && !loading && message == NoMessage
    {
      showPasswordForm := false;
      passwordData := EmptyPasswords;
      showPasswords := Visibility(false, false, false);
      loading := false;
      message := NoMessage;
    }

    /** `handlePasswordChange`: store the edited field; an alert that shows text is cleared. */
    method HandlePasswordChange(field: PasswordField, value: string)
      modifies this
      ensures passwordData == WithPassword(old(passwordData), field, value)
      ensures message == if old(message).text != "" then NoMessage else old(message)
      ensures showPasswordForm == old(showPasswordForm) && showPasswords == old(showPasswords)
      ensures loading == old(loading)
    {
      passwordData := WithPassword(passwordData, field, value);
      if message.text != "" {
        message := NoMessage;
      }
    }

    /**
     * `handlePasswordSubmit`: the first failing check shows its error and nothing is sent;
     * otherwise the current and new passwords are sent, and on success the three fields
     * are cleared and the form is hidden, on failure the reported error is shown. `sent`
     * is the pair sent, if any.
     */
    method HandlePasswordSubmit(updatePassword: (string, string) -> UpdateResult)
      returns (sent: Option<(string, string)>)
      modifies this
      ensures !loading && showPasswords == old(showPasswords)
      ensures sent.None? <==> PasswordFormError(old(passwordData)).Some?
      ensures sent.None? ==>
        && message == ErrorMessage(PasswordFormError(old(passwordData)).value)
        && passwordData == old(passwordData) && showPasswordForm == old(showPasswordForm)
      ensures sent.Some? ==> sent.value == (old(passwordData).currentPassword, old(passwordData).newPassword)
      ensures sent.Some? && updatePassword(sent.value.0, sent.value.1).success ==>
        && message == Message("success", "Password updated successfully!")
        && passwordData == EmptyPasswords && !showPasswordForm
      ensures sent.Some? && !updatePassword(sent.value.0, sent.value.1).success ==>
        && message == ErrorMessage(updatePassword(sent.value.0, sent.value.1).error)
        && passwordData == old(passwordData) && showPasswordForm == old(showPasswordForm)
    {
      loading := true;
      message := NoMessage;
      if passwordData.newPassword != passwordData.confirmPassword {
        message := ErrorMessage(NewPasswordsDiffer);
        loading := false;
        return None;
      }
      if |passwordData.newPassword| < 6 {
        message := ErrorMessage(NewPasswordTooShort);
        loading := false;
        return None;
      }
      sent := Some((passwordData.currentPassword, passwordData.newPassword));
      var result := updatePassword(passwordData.currentPassword, passwordData.newPassword);
      if result.success {
        message := Message("success", "Password updated successfully!");
        passwordData := EmptyPasswords;
        showPasswordForm := false;
      } else {
        message := ErrorMessage(result.error);
      }
      loading := false;
    }

    /** `togglePasswordVisibility(field)`: flips that one flag. */
    method TogglePasswordVisibility(field: PasswordField)
      modifies this
      ensures showPasswords == Toggled(old(showPasswords), field)
      ensures passwordData == old(passwordData) && message == old(message)
      ensures showPasswordForm == old(showPasswordForm) && loading == old(loading)
    {
      showPasswords := Toggled(showPasswords, field);
    }

    /** The Cancel button: hide the form, clear the three fields and the alert. */
    method Cancel()
      modifies this
      ensures !showPasswordForm && passwordData == EmptyPasswords && message == NoMessage
      ensures showPasswords == old(showPasswords) && loading == old(loading)
    {
      showPasswordForm := false;
      passwordData := EmptyPasswords;
      message := NoMessage;
    }
  }
}
