/** The settings screen: the table of user settings and the password change it submits
    through the session. Messages are held as their translation keys. */
module SettingsPage {
  import opened Maybe
  import opened Http
  import opened LoginContext

  datatype SettingValue = Flag(b: bool) | Words(s: string)

  datatype SettingKind = Text | Toggle | Password

  datatype UserSetting = UserSetting(labelKey: string, value: SettingValue, kind: SettingKind)

  /** The settings the screen starts with. */
  const MockSettings := [
    UserSetting("notification", Flag(true), Toggle),
    UserSetting("password", Words(""), Password)
  ]

  const SavingKey := "saving"
  const SavedKey := "saved"
  const PasswordTooShortKey := "passwordTooShort"
  const IncorrectOldPasswordKey := "incorrectOldPassword"

  /** The shortest new password the screen sends. */
  const MinPasswordLength := 6

  /** `!value`: the negation of a flag, and for text whether it is empty. */
  function Negated(v: SettingValue): (r: SettingValue)
    ensures r.Flag?
    ensures v.Flag? ==> r.b == !v.b
    ensures v.Words? ==> (r.b <==> v.s == "")
  {
    match v
    case Flag(b) => Flag(!b)
    case Words(s) => Flag(s == "")
  }

  /** Negating a flag twice gives it back. */
  lemma NegatedTwice(v: SettingValue)
    requires v.Flag?
    ensures Negated(Negated(v)) == v
  {
  }

  class Settings {
    var userSettings: seq<UserSetting>
    var saveStatus: Option<string>
    var passwordError: Option<string>
    var isModalOpen: bool

    constructor ()
      ensures userSettings == MockSettings && saveStatus.None? && passwordError.None? && !isModalOpen
    {
      userSettings := MockSettings;
      saveStatus := None;
      passwordError := None;
      isModalOpen := false;
    }

    /** `handleToggleChange(index)`: the setting at `index` gets the negation of its value;
        every other setting, and the length, stay. */
    method HandleToggleChange(index: nat)
      requires index < |userSettings|
      modifies this
      ensures |userSettings| == |old(userSettings)|
      ensures userSettings[index] == old(userSettings)[index].(value := Negated(old(userSettings)[index].value))
      ensures forall j :: 0 <= j < |userSettings| && j != index ==> userSettings[j] == old(userSettings)[j]
      ensures saveStatus == old(saveStatus) && passwordError == old(passwordError) && isModalOpen == old(isModalOpen)
    {
      var copy := userSettings;
      copy := copy[index := copy[index].(value := Negated(copy[index].value))];
      userSettings := copy;
    }

    /** `handleTextChange(index, value)`: the setting at `index` gets `value`; every other
        setting, and the length, stay. */
    method HandleTextChange(index: nat, value: string)
      requires index < |userSettings|
      modifies this
      ensures |userSettings| == |old(userSettings)|
      ensures userSettings[index] == old(userSettings)[index].(value := Words(value))
      ensures forall j :: 0 <= j < |userSettings| && j != index ==> userSettings[j] == old(userSettings)[j]
      ensures saveStatus == old(saveStatus) && passwordError == old(passwordError) && isModalOpen == old(isModalOpen)
    {
      var copy := userSettings;
      copy := copy[index := copy[index].(value := Words(value))];
      userSettings := copy;
    }

    /** `handleSave(currentPassword, newPassword)`: the status becomes `saving` and the error
        is cleared; a new password shorter than six characters is refused without calling
        the session; otherwise `updatePassword` decides between `saved` with the modal
        closed and `incorrectOldPassword`. `updatePassword` never rejects, so the catch
        branch (`passwordUpdateError`) is unreachable. */
    method HandleSave(session: LoginProvider, currentPassword: string, newPassword: string,
                      reply: Reply<Option<string>>)
      modifies this, session
      ensures userSettings == old(userSettings)
      ensures session.user == old(session.user) && session.isAuthenticated == old(session.isAuthenticated)
      ensures |newPassword| < MinPasswordLength ==>
        passwordError == Some(PasswordTooShortKey) && saveStatus.None?
        && isModalOpen == old(isModalOpen) && session.sent == old(session.sent)
      ensures |newPassword| >= MinPasswordLength ==>
        session.sent == old(session.sent) + [PatchPassword(UserPathId(old(session.user)), currentPassword, newPassword)]
      ensures |newPassword| >= MinPasswordLength && PasswordOutcome(reply).success ==>
        saveStatus == Some(SavedKey) && passwordError.None? && !isModalOpen
      ensures |newPassword| >= MinPasswordLength && !PasswordOutcome(reply).success ==>
        passwordError == Some(IncorrectOldPasswordKey) && saveStatus.None? && isModalOpen == old(isModalOpen)
    {
      saveStatus := Some(SavingKey);
      passwordError := None;
      if |newPassword| < MinPasswordLength {
        passwordError := Some(PasswordTooShortKey);
        saveStatus := None;
        return;
      }
      var response := session.UpdatePassword(currentPassword, newPassword, reply);
      if response.success {
        saveStatus := Some(SavedKey);
        isModalOpen := false;
      } else {
        passwordError := Some(IncorrectOldPasswordKey);
        saveStatus := None;
      }
    }
  }
}
