/** The account settings page: the stored email, a masked password and notification switches. */
module Account {
  import opened Wrappers
  import opened Records
  import opened LocalStorage

  const MaskedPassword: string := "\U{2022}\U{2022}\U{2022}\U{2022}\U{2022}\U{2022}\U{2022}\U{2022}"
  const InitialNotifications: map<string, bool> := map["email" := true, "sessions" := true, "messages" := true]
  const SettingsSaved: Toast := Toast("Settings saved", "Your account settings have been updated successfully.", false)
  const PasswordChangeRequested: Toast :=
    Toast("Password change requested", "Check your email for instructions to change your password.", false)

  /** `user.email || ""`. */
  function LoadedEmail(u: User): (r: string)
    ensures Truthy(u.email) ==> r == u.email.value
    ensures !Truthy(u.email) ==> r == ""
  {
    if Truthy(u.email) then u.email.value else ""
  }

  /** `{ ...notifications, [key]: checked }`. */
  function Toggle(notifications: map<string, bool>, key: string, checked: bool): map<string, bool> {
    notifications[key := checked]
  }

  /** The switched key takes the new value, every other switch keeps its own, and no key is dropped. */
  lemma ToggleSpec(notifications: map<string, bool>, key: string, checked: bool)
    ensures key in Toggle(notifications, key, checked) && Toggle(notifications, key, checked)[key] == checked
    ensures forall k :: k in notifications && k != key ==> Toggle(notifications, key, checked)[k] == notifications[k]
    ensures Toggle(notifications, key, checked).Keys == notifications.Keys + {key}
  {
  }

  /** Switching a key twice leaves the second value; switching it back restores a map that had it. */
  lemma ToggleTwice(notifications: map<string, bool>, key: string, a: bool, b: bool)
    ensures Toggle(Toggle(notifications, key, a), key, b) == Toggle(notifications, key, b)
    ensures key in notifications ==> Toggle(Toggle(notifications, key, a), key, notifications[key]) == notifications
  {
  }

  class AccountPage {
    var email: string
    var password: string
    var notifications: map<string, bool>
    var toast: Option<Toast>

    constructor ()
      ensures email == "" && password == MaskedPassword && notifications == InitialNotifications && toast == None
    {
      email, password, notifications, toast := "", MaskedPassword, InitialNotifications, None;
    }

    /** The mount effect: with a stored user, the email shown becomes its email or "". */
    method LoadStoredUser(storage: BrowserStorage)
      modifies this
      ensures StoredUser(storage.items).None? ==> email == old(email)
      ensures StoredUser(storage.items).Some? ==> email == LoadedEmail(StoredUser(storage.items).value)
      ensures password == old(password) && notifications == old(notifications) && toast == old(toast)
    {
      var stored := StoredUser(storage.items);
      if stored.Some? {
        email := LoadedEmail(stored.value);
      }
    }

    /** `handleNotificationChange`. */
    method HandleNotificationChange(key: string, checked: bool)
      modifies this
      ensures notifications == Toggle(old(notifications), key, checked)
      ensures email == old(email) && password == old(password) && toast == old(toast)
    {
      notifications := notifications[key := checked];
    }

    /** `handleSaveSettings`: only a toast; nothing is saved anywhere. */
    method HandleSaveSettings()
      modifies this
      ensures toast == Some(SettingsSaved)
      ensures email == old(email) && password == old(password) && notifications == old(notifications)
    {
      toast := Some(SettingsSaved);
    }

    /** `handleChangePassword`: only a toast; the password is not changed. */
    method HandleChangePassword()
      modifies this
      ensures toast == Some(PasswordChangeRequested)
      ensures email == old(email) && password == old(password) && notifications == old(notifications)
    {
      toast := Some(PasswordChangeRequested);
    }
  }
}
