/** The profile dialog of src/components/UserProfile.tsx: the profile update
    and the password change. The signed-in profile and the backend's answers
    are parameters; a write's answer is `None` on success and
    `Some(message)` on failure (the message may be absent). */
module UserProfile {
  import opened Common
  import opened Records

  datatype Notice = Notice(message: string, isError: bool)

  const Mismatch := Notice("Passwords do not match", true)
  const TooShort := Notice("Password must be at least 6 characters", true)
  const PasswordChanged := Notice("Password changed successfully!", false)
  const ProfileUpdated := Notice("Profile updated successfully!", false)

  /** The smallest password length the dialog accepts. */
  const MinPasswordLength := 6

  /** The `users` update: the two editable columns for one id. */
  datatype ProfileWrite = ProfileWrite(id: string, fullName: string, phone: string)

  /** `!userProfile?.id`: no profile, or one whose id is empty. */
  predicate MissingId(profile: Option<Profile>) {
    profile.None? || profile.value.id == ""
  }

  /** What `handleUpdateProfile` sends and shows. */
  function ProfileUpdatePlan(profile: Option<Profile>, fullName: string, phone: string,
                             writeError: Option<Option<string>>): (r: (Option<ProfileWrite>, Option<Notice>))
    ensures MissingId(profile) <==> r.0.None?
    ensures MissingId(profile) ==> r.1.None?
    ensures r.0.Some? ==> r.0.value == ProfileWrite(profile.value.id, fullName, phone)
    ensures r.0.Some? && writeError.None? ==> r.1 == Some(ProfileUpdated)
    ensures r.0.Some? && writeError.Some? ==> r.1 == Some(Notice(OrElse(writeError.value, "Failed to update profile"), true))
  {
    if MissingId(profile) then (None, None)
    else
      (Some(ProfileWrite(profile.value.id, fullName, phone)),
       Some(if writeError.None? then ProfileUpdated else Notice(OrElse(writeError.value, "Failed to update profile"), true)))
  }

  /** What `handleChangePassword` does: the password handed to the identity
      provider, if any, and the notification. */
  function PasswordPlan(newPassword: string, confirmPassword: string,
                        updateError: Option<Option<string>>): (r: (Option<string>, Notice))
    ensures newPassword != confirmPassword ==> r == (None, Mismatch)
    ensures newPassword == confirmPassword && |newPassword| < MinPasswordLength ==> r == (None, TooShort)
    ensures r.0.Some? <==> newPassword == confirmPassword && |newPassword| >= MinPasswordLength
    ensures r.0.Some? ==> r.0.value == newPassword
    ensures r.0.Some? ==> (r.1 == PasswordChanged <==> updateError.None?)
  {
    if newPassword != confirmPassword then (None, Mismatch)
    else if |newPassword| < MinPasswordLength then (None, TooShort)
    else (Some(newPassword),
          if updateError.None? then PasswordChanged
          else Notice(OrElse(updateError.value, "Failed to change password"), true))
  }

  /** Mismatched passwords are reported as such even when they are also too
      short: the match is checked first. */
  lemma MismatchFirst(newPassword: string, confirmPassword: string, updateError: Option<Option<string>>)
    requires newPassword != confirmPassword && |newPassword| < MinPasswordLength
    ensures PasswordPlan(newPassword, confirmPassword, updateError).1 == Mismatch
  {
  }

  class ProfileDialog {
    var fullName: string
    var phone: string
    var currentPassword: string
    var newPassword: string
    var confirmPassword: string
    var loading: bool

    /** The form starts from the profile's name and phone, or '' for each. */
    constructor (profile: Option<Profile>)
      ensures fullName == (if profile.Some? then profile.value.fullName else "")
      ensures phone == (if profile.Some? then OrElse(profile.value.phone, "") else "")
      ensures currentPassword == "" && newPassword == "" && confirmPassword == "" && !loading
    {
      fullName := if profile.Some? then profile.value.fullName else "";
      phone := if profile.Some? then OrElse(profile.value.phone, "") else "";
      currentPassword := "";
      newPassword := "";
      confirmPassword := "";
      loading := false;
    }

    method SetPasswords(current: string, next: string, confirm: string)
      modifies this
      ensures currentPassword == current && newPassword == next && confirmPassword == confirm
      ensures fullName == old(fullName) && phone == old(phone) && loading == old(loading)
    {
      currentPassword, newPassword, confirmPassword := current, next, confirm;
    }

    /** `handleUpdateProfile`. Without an id nothing happens; otherwise the
        name and phone are written and loading ends false. */
    method UpdateProfile(profile: Option<Profile>, writeError: Option<Option<string>>)
      returns (write: Option<ProfileWrite>, notice: Option<Notice>)
      modifies this
      ensures (write, notice) == ProfileUpdatePlan(profile, old(fullName), old(phone), writeError)
      ensures MissingId(profile) ==> loading == old(loading)
      ensures !MissingId(profile) ==> !loading
      ensures fullName == old(fullName) && phone == old(phone)
      ensures currentPassword == old(currentPassword) && newPassword == old(newPassword)
              && confirmPassword == old(confirmPassword)
    {
      if MissingId(profile) {
        write, notice := None, None;
        return;
      }
      loading := true;
      write := Some(ProfileWrite(profile.value.id, fullName, phone));
      if writeError.None? {
        notice := Some(ProfileUpdated);
      } else {
        notice := Some(Notice(OrElse(writeError.value, "Failed to update profile"), true));
      }
      loading := false;
    }

    /** `handleChangePassword`. A refused check changes nothing; a
        successful change clears all three fields; loading ends false once
        the identity provider was called. */
    method ChangePassword(updateError: Option<Option<string>>) returns (sent: Option<string>, notice: Notice)
      modifies this
      ensures (sent, notice) == PasswordPlan(old(newPassword), old(confirmPassword), updateError)
      ensures sent.None? ==> loading == old(loading) && newPassword == old(newPassword)
                             && confirmPassword == old(confirmPassword) && currentPassword == old(currentPassword)
      ensures sent.Some? ==> !loading
      ensures sent.Some? && updateError.None? ==> currentPassword == "" && newPassword == "" && confirmPassword == ""
      ensures sent.Some? && updateError.Some? ==>
                newPassword == old(newPassword) && confirmPassword == old(confirmPassword)
                && currentPassword == old(currentPassword)
      ensures fullName == old(fullName) && phone == old(phone)
    {
      if newPassword != confirmPassword {
        sent, notice := None, Mismatch;
        return;
      }
      if |newPassword| < MinPasswordLength {
        sent, notice := None, TooShort;
        return;
      }
      loading := true;
      sent := Some(newPassword);
      if updateError.None? {
        notice := PasswordChanged;
        currentPassword, newPassword, confirmPassword := "", "", "";
      } else {
        notice := Notice(OrElse(updateError.value, "Failed to change password"), true);
      }
      loading := false;
    }
  }
}
