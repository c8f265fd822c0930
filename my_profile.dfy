/**
 * The profile page: saving the bio, cancelling a bio edit, changing the
 * password, and the message shown above the page.
 */
module MyProfile {
  import opened Optional
  import opened Strings
  import opened Server
  import Register

  /** The alert above the page; an empty text shows nothing. */
  datatype Message = Message(kind: string, text: string)

  const NoMessage := Message("", "")

  /** The password change checks: a mismatch first, then the length rule registration uses. */
  function ChangePasswordCheck(newPassword: string, confirmPassword: string): (r: Option<string>)
    ensures r == Some("New passwords do not match") <==> newPassword != confirmPassword
    ensures r == Some("Password must be at least 6 characters") <==>
      newPassword == confirmPassword && |newPassword| < Register.MinPasswordLength
    ensures r == None <==> Register.PasswordCheck(newPassword, confirmPassword) == None
  {
    var problem := Register.PasswordCheck(newPassword, confirmPassword);
    if problem == None then None
    else if problem.value == Register.Mismatch then Some("New passwords do not match")
    else Some("Password must be at least 6 characters")
  }

  /** The password change request. */
  datatype PasswordChange = PasswordChange(currentPassword: string, newPassword: string)

  class ProfilePage {
    var message: Message
    var bio: string
    var editingBio: bool
    var showPasswordSection: bool
    var currentPassword: string
    var newPassword: string
    var confirmPassword: string

    /** The bio starts as the user's, or '' without one. */
    constructor (userBio: Option<string>)
      ensures message == NoMessage && bio == OrElse(userBio, "") && !editingBio
      ensures !showPasswordSection && currentPassword == "" && newPassword == "" && confirmPassword == ""
    {
      message := NoMessage;
      bio := OrElse(userBio, "");
      editingBio := false;
      showPasswordSection := false;
      currentPassword := "";
      newPassword := "";
      confirmPassword := "";
    }

    /** `handleSaveBio`: the message is cleared first; a saved bio leaves edit mode. */
    method SaveBio(reply: Reply<()>) returns (sent: string)
      modifies this`message, this`editingBio
      ensures sent == bio
      ensures reply.Ok? ==> !editingBio && message == Message("success", "Bio updated successfully!")
      ensures reply.Failed? ==>
        editingBio == old(editingBio) && message == Message("error", OrElse(reply.message, "Failed to update bio"))
    {
      message := NoMessage;
      sent := bio;
      if reply.Ok? {
        editingBio := false;
        message := Message("success", "Bio updated successfully!");
      } else {
        message := Message("error", OrElse(reply.message, "Failed to update bio"));
      }
    }

    /** The cancel button of a bio edit: the user's bio comes back and edit mode ends. */
    method CancelBio(userBio: Option<string>)
      modifies this`editingBio, this`bio
      ensures !editingBio && bio == OrElse(userBio, "")
    {
      editingBio := false;
      bio := OrElse(userBio, "");
    }

    /** Closing the alert. */
    method DismissMessage()
      modifies this`message
      ensures message == NoMessage
    {
      message := NoMessage;
    }

    /**
     * `handleChangePassword`: a failed check shows its message and sends
     * nothing; otherwise the message is cleared and the change sent, and a
     * success clears the three fields and hides the section.
     */
    method ChangePassword(reply: Reply<()>) returns (sent: Option<PasswordChange>)
      modifies this`message, this`currentPassword, this`newPassword, this`confirmPassword, this`showPasswordSection
      ensures ChangePasswordCheck(old(newPassword), old(confirmPassword)).Some? ==>
        && sent == None
        && message == Message("error", ChangePasswordCheck(old(newPassword), old(confirmPassword)).value)
        && currentPassword == old(currentPassword) && newPassword == old(newPassword)
        && confirmPassword == old(confirmPassword) && showPasswordSection == old(showPasswordSection)
      ensures ChangePasswordCheck(old(newPassword), old(confirmPassword)) == None ==>
        sent == Some(PasswordChange(old(currentPassword), old(newPassword)))
      ensures ChangePasswordCheck(old(newPassword), old(confirmPassword)) == None && reply.Ok? ==>
        && message == Message("success", "Password changed successfully!")
        && currentPassword == "" && newPassword == "" && confirmPassword == "" && !showPasswordSection
      ensures ChangePasswordCheck(old(newPassword), old(confirmPassword)) == None && reply.Failed? ==>
        && message == Message("error", OrElse(reply.message, "Failed to change password"))
        && currentPassword == old(currentPassword) && newPassword == old(newPassword)
        && confirmPassword == old(confirmPassword) && showPasswordSection == old(showPasswordSection)
    {
      var check := ChangePasswordCheck(newPassword, confirmPassword);
      if check.Some? {
        message := Message("error", check.value);
        return None;
      }
      message := NoMessage;
      sent := Some(PasswordChange(currentPassword, newPassword));
      if reply.Ok? {
        message := Message("success", "Password changed successfully!");
        currentPassword := "";
        newPassword := "";
        confirmPassword := "";
        showPasswordSection := false;
      } else {
        message := Message("error", OrElse(reply.message, "Failed to change password"));
      }
    }
  }

  /** The profile page accepts a new password exactly when registration would. */
  lemma SameRuleAsRegistration(newPassword: string, confirmPassword: string)
    ensures ChangePasswordCheck(newPassword, confirmPassword) == None <==>
      newPassword == confirmPassword && |newPassword| >= Register.MinPasswordLength
  {
  }
}
